# Google Slides LLM tools, modelled in Dafny

The Python package `google_slides_llm_tools` wraps the Google Slides, Drive and
Sheets APIs as tools for a language model. Each tool reads a presentation,
builds a list of `batchUpdate` requests and sends it. Afterwards it either adds
PDF paths to the reply (the package variants, `x/__init__.py`) or returns a
message together with the export artifacts of the affected slide (the module
variants, `x.py`).

This project models that core as Dafny:
- the JSON the tools read, and the request bodies they build, as datatypes
  (`SlidesApi`);
- the lookups the tools repeat as loops over slides, elements and layouts
  (`Lookup`);
- the conversions in `utils/helpers.py` and `utils.py`: slide id and index,
  element search, colour codes, points and EMU, page size (`Helpers`, `Utils`);
- the single-slide PDF export and its temporary copy, as a class holding the
  Drive files and the log of calls (`Drive`, `ExportPkg`, `Export`);
- the data, formatting, slide, template, multimedia and animation tools, one
  module per source file. The modules are `DataPkg`, `Data`, `SheetsTable`,
  `FormattingPkg`, `Formatting`, `StyleFields`, `SlidesOperations`,
  `Templates`, `TemplatesPkg`, `Multimedia` and `AnimationsPkg`.
- `Responses` holds what the package variants return (the PDF paths) and what
  the module variants return (the message and the exported slide index).

A loop in the source becomes a method with a `while` or `for` loop. Each such
method is proved equal to a specification function, and the properties the
tools promise are lemmas about that function. These include:
- the first match;
- the objects the requests create;
- the round trips: index to id, hex to RGB, points to EMU, field mask to key
  list, data URL;
- which slides the temporary copy keeps;
- that the copy is deleted exactly once.

Calls to Google's services take what they return as parameters: the
presentation read after a batch, the reply of a batch, whether a call fails,
and the id the server gives a copy. The export lifecycle is the one place
where the order of the calls matters, so there the services are a `Drive.Store`
object whose methods change its files and append to a call log.

Where a plain reading of the tools' promises and the code part ways, the
model follows the code:
- `points_to_emu` truncates with `int()`. So points to EMU and back is exact
  for whole points (and EMU to points and back for whole EMU), not for every
  value (`Helpers.PointsEmuRoundTrip`, `Helpers.EmuPointsRoundTrip`).
- `rgb_to_hex` floors `255 * v`. So hex to RGB to hex gives the code back, but
  RGB to hex to RGB gives `floor(255 v) / 255`, an error of up to 1/255, not a
  floating-point tolerance. Channel values above 1 also count as bytes
  (`Helpers.HexToRgbOfRgbToHex`, `Helpers.ChannelByteNotMonotone`).
- The single-slide export sends its deleteObject batch only when the copy has
  more than one slide (`ExportPkg.BatchOnlyWhenMany`).

## Model

| member | source | states |
|---|---|---|
| `Lookup.FirstSlideIndex` | google_slides_llm_tools/utils/helpers.py:20-24 | the index of the first slide with that objectId and no earlier one; None exactly when no slide has it |
| `Lookup.FindSlideIndex` | google_slides_llm_tools/data.py:67-71 | the enumerate loop with break finds the first slide with the id |
| `Lookup.FirstSlideIndexOfDistinct` | google_slides_llm_tools/utils/helpers.py:20-22 | with distinct slide ids, looking up slide i's own id gives i |
| `Lookup.OwnerSlideIndex` | google_slides_llm_tools/formatting.py:155-164 | the first slide holding an element with that id, none before it, None exactly when no slide holds it |
| `Lookup.FindOwnerSlide` | google_slides_llm_tools/formatting.py:155-164 | the nested loop with its two breaks finds that owner slide |
| `Lookup.TextContentAppend` | google_slides_llm_tools/data.py:251-254 | the text of two runs of text elements is the text of each, concatenated in order |
| `Lookup.ConcatTextRuns` | google_slides_llm_tools/data.py:251-254 | the loop concatenates the content of every textRun, missing content read as '' |
| `Lookup.MatchesText` | google_slides_llm_tools/data.py:249-257 | an element matches when it is a shape with text whose lowercased runs contain the lowercased search string |
| `Lookup.SearchElementsFirst` | google_slides_llm_tools/utils/helpers.py:108-125 | the search returns the id of the first matching element, and nothing exactly when no element matches |
| `Lookup.SearchSlidesFirst` | google_slides_llm_tools/utils/helpers.py:75-95 | over all slides, the result is the first match of the first slide that has one; nothing when no slide has one |
| `Lookup.SearchElementsLoop` | google_slides_llm_tools/utils/helpers.py:108-125 | the element loop with early return computes that first match |
| `Lookup.SearchSlidesLoop` | google_slides_llm_tools/utils/helpers.py:75-95 | the slide-then-element loop with early return computes that first match |
| `Lookup.AllLayoutsMember` | google_slides_llm_tools/templates/__init__.py:122-130 | a layout is listed exactly when some master has it |
| `Lookup.AllLayoutsAppend` | google_slides_llm_tools/templates/__init__.py:122-130 | the layouts of master after master are listed in master order |
| `Lookup.FirstNamedIndex` | google_slides_llm_tools/templates.py:32-39 | the first layout whose displayName is the name, none before it; None exactly when no layout has it |
| `Lookup.FirstNamedIndexAppend` | google_slides_llm_tools/templates.py:32-39 | searching a concatenation finds the match in the first part if there is one, otherwise in the second part, shifted by its length |
| `Lookup.FirstReplyObjectId` | google_slides_llm_tools/slides_operations.py:107 | `replies[0][kind].objectId` with the `[{}]` and `{}` defaults: IndexError exactly for an empty replies list; otherwise the first reply's id for that kind when it has one, and None exactly when the replies, the kind or its id are missing |
| `Responses.PdfPaths` | google_slides_llm_tools/data/__init__.py:185-209 | the presentation PDF path always; a slide PDF path exactly when the slide is present, numbered by its first index |
| `Responses.OwnerPdfPaths` | google_slides_llm_tools/formatting/__init__.py:165-195 | the same, for the slide that owns the element |
| `Responses.AttachPdfPaths` | google_slides_llm_tools/data/__init__.py:189-209 | the slide scan then the two paths compute PdfPaths |
| `Responses.AttachOwnerPdfPaths` | google_slides_llm_tools/formatting/__init__.py:169-195 | the owner scan then the two paths compute OwnerPdfPaths |
| `Responses.Report` | google_slides_llm_tools/data.py:165-182 | the message, and the slide exported exactly when the slide is present, at its first index |
| `Responses.ReportExport` | google_slides_llm_tools/data.py:169-178 | the scan with break then the export compute Report |
| `Responses.OwnerReport` | google_slides_llm_tools/formatting.py:155-172 | the message, and the export of the slide that owns the element, if any |
| `Responses.OwnerReportExport` | google_slides_llm_tools/formatting.py:159-169 | the nested scan then the export compute OwnerReport |
| `Text.NatToString` | google_slides_llm_tools/templates.py:158 | `str(i)`: non-empty decimal digits with no leading zero |
| `Text.ParseNatToString` | google_slides_llm_tools/templates.py:158 | str on naturals is undone by reading the digits back, so distinct indices give distinct ids |
| `Text.SplitJoin` | google_slides_llm_tools/formatting.py:143 | `','.join` of a non-empty list of comma-free names splits back into that list |
| `StyleFields.AddIfGiven` | google_slides_llm_tools/formatting/__init__.py:115-144 | the chain of `if x is not None: style[k] = v; fields.append(k)` sends exactly the given keys, in order, each with its value |
| `StyleFields.SelectedMember` | google_slides_llm_tools/formatting/__init__.py:115-144 | a key is in the mask exactly when its argument is given |
| `StyleFields.SelectedSubsequence` | google_slides_llm_tools/formatting/__init__.py:115-144 | the mask keeps the order the tool tests the keys in |
| `StyleFields.MaskRoundTrip` | google_slides_llm_tools/formatting/__init__.py:157 | the joined field mask splits back into the key names |
| `Helpers.SlideIndexOf` | google_slides_llm_tools/utils/helpers.py:3-24 | the first index of the id, no earlier one; ValueError "Slide with ID ... not found in presentation" exactly when it is absent |
| `Helpers.SlideIdToIndex` | google_slides_llm_tools/utils/helpers.py:20-24 | the enumerate loop with early return and the final raise compute SlideIndexOf |
| `Helpers.IndexToSlideId` | google_slides_llm_tools/utils/helpers.py:45-48 | the id at the index exactly when 0 <= index < len(slides), ValueError otherwise |
| `Helpers.IndexToIdToIndex` | google_slides_llm_tools/utils/helpers.py:26-48 | with distinct ids, index to id to index is the identity |
| `Helpers.IdToIndexToId` | google_slides_llm_tools/utils/helpers.py:3-48 | a present id maps to an index that maps back to the id |
| `Helpers.ScanElementsSome` | google_slides_llm_tools/utils/helpers.py:108-125 | with a name, the element loop is the first-match search under the helpers.py rule: text contains the name, or the title equals it, ignoring case |
| `Helpers.ScanSlidesSome` | google_slides_llm_tools/utils/helpers.py:75-95 | with a name, the all-slides loop is the first-match search over slides |
| `Helpers.ScanSlidesNoName` | google_slides_llm_tools/utils/helpers.py:75-95 | with no name, `.lower()` on None raises as soon as there is an element, and the result is None otherwise |
| `Helpers.ElementIdByNameRedirect` | google_slides_llm_tools/utils/helpers.py:67-69 | a call with only slide_id takes it as the element name and searches every slide |
| `Helpers.ElementIdByNameMissingSlide` | google_slides_llm_tools/utils/helpers.py:98-105 | a given slide_id that no slide has raises ValueError |
| `Helpers.ElementIdByNameAllSlides` | google_slides_llm_tools/utils/helpers.py:75-95 | searching all slides never fails; the result is the first matching element in slide order, None exactly when nothing matches |
| `Helpers.ElementIdByNameInSlide` | google_slides_llm_tools/utils/helpers.py:98-125 | with the slide found, the result is that slide's first matching element, None exactly when none matches |
| `Helpers.ElementMatches` | google_slides_llm_tools/utils/helpers.py:110-123 | the per-element body computes the text-then-title rule |
| `Helpers.GetElementIdByName` | google_slides_llm_tools/utils/helpers.py:50-125 | the whole function, loops included, computes ElementIdByName |
| `Helpers.Trunc` | google_slides_llm_tools/utils/helpers.py:188 | Python `int()` on a float truncates toward zero |
| `Helpers.ChannelByte` | google_slides_llm_tools/utils/helpers.py:140-147 | a channel always becomes a byte in 0..255 |
| `Helpers.ChannelByteOfFraction` | google_slides_llm_tools/utils/helpers.py:140-143 | a value in [0, 1] becomes floor(255 v) |
| `Helpers.ChannelByteOfWhole` | google_slides_llm_tools/utils/helpers.py:144-147 | a whole number 2..255 is kept; above 255 is clamped to 255; below 0 to 0 |
| `Helpers.ChannelByteNotMonotone` | google_slides_llm_tools/utils/helpers.py:140-147 | 1 gives 255 but 1.5 gives 1 |
| `Helpers.HexDigit` | google_slides_llm_tools/utils/helpers.py:150 | a value 0..15 prints as a lowercase hex digit |
| `Helpers.Hex2` | google_slides_llm_tools/utils/helpers.py:150 | `{n:02x}` of a byte is two lowercase hex digits |
| `Helpers.RgbToHex` | google_slides_llm_tools/utils/helpers.py:127-150 | '#' and six lowercase hex digits, for every input |
| `Helpers.BytesToHex` | google_slides_llm_tools/utils/helpers.py:150 | three bytes print as '#' and six lowercase hex digits |
| `Helpers.HexNumberOfPair` | google_slides_llm_tools/utils/helpers.py:163-168 | one or two hex digits denote a value 0..255 |
| `Helpers.StripLeadingSpace` | google_slides_llm_tools/utils/helpers.py:163-168 | the leading-whitespace strip that `int()` performs leaves a string without leading space unchanged |
| `Helpers.StripTrailingSpace` | google_slides_llm_tools/utils/helpers.py:163-168 | the same, at the end |
| `Helpers.ParseHexInt` | google_slides_llm_tools/utils/helpers.py:163-168 | `int(s, 16)` on a slice of at most two characters lies in -255..255; an empty slice raises |
| `Helpers.ParseSignedHex` | google_slides_llm_tools/utils/helpers.py:163-168 | the grammar of int(): an optional sign and digits; the same bounds |
| `Helpers.ParseHexIntGrammar` | google_slides_llm_tools/utils/helpers.py:163-168 | the direct parse agrees with the strip-then-sign grammar |
| `Helpers.ParseHexDigits` | google_slides_llm_tools/utils/helpers.py:163-168 | hex digits parse to the number they denote |
| `Helpers.ParseHexNegative` | google_slides_llm_tools/utils/helpers.py:163-168 | "-f" parses to -15: a sign gets through |
| `Helpers.LStripHash` | google_slides_llm_tools/utils/helpers.py:163 | `lstrip('#')` leaves no leading '#' and changes nothing without one |
| `Helpers.Slice` | google_slides_llm_tools/utils/helpers.py:164-166 | Python slicing clamps to the length |
| `Helpers.ChannelsOfCode` | google_slides_llm_tools/utils/helpers.py:163-168 | each pair of a colour code parses to the byte it denotes |
| `Helpers.HexToRgbOfCode` | google_slides_llm_tools/utils/helpers.py:152-175 | a colour code parses to its three bytes over 255 |
| `Helpers.HexToRgbOfBytes` | google_slides_llm_tools/utils/helpers.py:150-168 | parsing three printed bytes gives the bytes back over 255 |
| `Helpers.HexToRgbOfRgbToHex` | google_slides_llm_tools/utils/helpers.py:127-175 | parsing what rgb_to_hex prints gives the clamped channel bytes over 255 |
| `Helpers.ChannelByteOfByteFraction` | google_slides_llm_tools/utils/helpers.py:140-143 | a byte over 255 maps back to the byte |
| `Helpers.Hex2OfPair` | google_slides_llm_tools/utils/helpers.py:150 | printing the byte two hex digits denote gives them back in lowercase |
| `Helpers.BytesToHexOfCode` | google_slides_llm_tools/utils/helpers.py:150 | the bytes of a colour code print back as the code in lowercase |
| `Helpers.RgbToHexOfHexToRgb` | google_slides_llm_tools/utils/helpers.py:127-175 | rgb_to_hex after hex_to_rgb gives the colour code back, in lowercase |
| `Helpers.PointsToEmu` | google_slides_llm_tools/utils/helpers.py:177-188 | `int(points * 12700)`, never negative for non-negative points |
| `Helpers.EmuToPoints` | google_slides_llm_tools/utils/helpers.py:190-201 | true division: the result times 12700 is the EMU value |
| `Helpers.PointsEmuRoundTrip` | google_slides_llm_tools/utils/helpers.py:177-201 | whole points go to EMU and back exactly |
| `Helpers.EmuPointsRoundTrip` | google_slides_llm_tools/utils/helpers.py:177-201 | whole EMU go to points and back exactly |
| `Helpers.EmuExamples` | google_slides_llm_tools/utils/helpers.py:188 | 1 pt = 12700 EMU, 72 pt = 914400 EMU |
| `Helpers.PointSize` | google_slides_llm_tools/utils/helpers.py:219-238 | an EMU magnitude is divided by 12700; any other unit is passed through; missing means 0 |
| `Helpers.PageSizeExamples` | google_slides_llm_tools/utils/helpers.py:203-238 | 9144000 EMU is 720 pt; a missing dimension is 0 |
| `Utils.ScanElementsSome` | google_slides_llm_tools/utils.py:79-98 | with a name, the element loop is the first-match search under the utils.py rule: text, then the title/subtitle placeholder test |
| `Utils.ScanElementsNoName` | google_slides_llm_tools/utils.py:79-98 | with no name, AttributeError exactly when some element evaluates `element_name.lower()` |
| `Utils.ElementIdByNameMissingSlide` | google_slides_llm_tools/utils.py:69-76 | ValueError exactly when no slide has the id |
| `Utils.ElementIdByNameInSlide` | google_slides_llm_tools/utils.py:79-98 | with the slide found, the first matching element of that slide, None exactly when none matches |
| `Utils.SubtitleAnswersTitle` | google_slides_llm_tools/utils.py:93-96 | an id containing 'subtitle' also answers the name 'title' |
| `Utils.RulesDiffer` | google_slides_llm_tools/utils.py:79-98 | an element named only by its title is found by helpers.py and not by utils.py |
| `Utils.GetElementIdByName` | google_slides_llm_tools/utils.py:50-98 | the slide scan with break and the element loop compute ElementIdByName |
| `Utils.PageSize` | google_slides_llm_tools/utils.py:192-205 | width and height passed through; a missing one has neither magnitude nor unit |
| `Utils.PageSizeVariants` | google_slides_llm_tools/utils.py:176-205 | helpers.py's page size is utils.py's followed by the conversion to points |
| `ExportPkg.DeletePlan` | google_slides_llm_tools/export/__init__.py:75-82 | the append loop builds deleteObject requests for every slide but the target |
| `ExportPkg.DeleteRequestsShape` | google_slides_llm_tools/export/__init__.py:75-82 | one request per other slide, in slide order |
| `ExportPkg.NeverDeletesTarget` | google_slides_llm_tools/export/__init__.py:75-82 | with distinct ids no request deletes the target |
| `ExportPkg.DeletedIdsOfPlan` | google_slides_llm_tools/export/__init__.py:75-82 | a slide's id is deleted exactly when it is not the target |
| `ExportPkg.OnlyTargetRemains` | google_slides_llm_tools/export/__init__.py:75-89 | applying the batch leaves the copy holding exactly the target slide |
| `ExportPkg.TryOnCopy` | google_slides_llm_tools/export/__init__.py:65-101 | the try block's calls and its outcome on the copy: range check, the batch only when there is more than one slide, then the export |
| `ExportPkg.CopyAndExport` | google_slides_llm_tools/export/__init__.py:54-105 | the name lookup, the copy, the try block and the `finally` delete; the files end as they began, except that a failed final delete leaves the copy as the try block left it |
| `ExportPkg.TryFinallyDelete` | google_slides_llm_tools/export/__init__.py:65-105 | the try block then the delete of the copy; a failed delete keeps the copy and its HttpError replaces the try block's outcome, otherwise the copy is gone and the try block's outcome stands |
| `ExportPkg.ExportPresentationAsPdf` | google_slides_llm_tools/export/__init__.py:5-30 | one export call; the output path or the HttpError |
| `ExportPkg.ExportSlideAsPdf` | google_slides_llm_tools/export/__init__.py:32-105 | the output path exactly when the export outcome succeeds; the files are unchanged unless the final delete fails, which leaves the copy behind |
| `ExportPkg.CountCallsAppend` | google_slides_llm_tools/export/__init__.py:103-105 | counting calls distributes over the log |
| `ExportPkg.CopyLeftBehind` | google_slides_llm_tools/export/__init__.py:103-105 | the files change exactly when the copy was made and its delete fails; then the one new file is the copy and the outcome is the delete's HttpError |
| `ExportPkg.LeftCopyHoldsTarget` | google_slides_llm_tools/export/__init__.py:75-105 | with only the final delete failing, the copy left behind holds exactly the target slide under the copy's name |
| `ExportPkg.CopyDeletedOnce` | google_slides_llm_tools/export/__init__.py:103-105 | when the copy was made it is deleted exactly once, by the last call; otherwise it is never deleted |
| `ExportPkg.BatchOnlyWhenMany` | google_slides_llm_tools/export/__init__.py:84-89 | with every call succeeding, the batch call is made exactly when there is more than one slide |
| `ExportPkg.ExportShowsOnlyTarget` | google_slides_llm_tools/export/__init__.py:65-101 | with every call succeeding, an out-of-range index gives ValueError and an in-range one a PDF showing just that slide |
| `ExportPkg.GetPresentationThumbnail` | google_slides_llm_tools/export/__init__.py:107-151 | ValueError exactly when the index is out of range; otherwise the URL, or the file it is saved to |
| `Export.FirstComma` | google_slides_llm_tools/export.py:133-134 | the first comma of the string, or its length |
| `Export.DataUrlRoundTrip` | google_slides_llm_tools/export.py:133-134 | a data URL reads back as its media type and base64 payload |
| `Export.NumberedNameInjective` | google_slides_llm_tools/export.py:126-145 | file names numbered by slide index differ for different indices |
| `Export.SlideFileNamesDistinct` | google_slides_llm_tools/export.py:126-145 | two slides' artifacts never share a file name |
| `Export.PresentationOutput` | google_slides_llm_tools/export.py:31-59 | with an output path, the path and a message; otherwise one PDF artifact whose data URL reads back |
| `Export.SlideOutput` | google_slides_llm_tools/export.py:126-145 | the same for one slide, naming the slide index |
| `Export.ExportPresentationAsPdf` | google_slides_llm_tools/export.py:19-59 | one export call and its result shape, or the HttpError |
| `Export.ExportSlideAsPdf` | google_slides_llm_tools/export.py:61-149 | the copy lifecycle of the package variant, then the result shape; the files are unchanged unless the final delete fails, which leaves the copy behind |
| `Export.GetPresentationThumbnail` | google_slides_llm_tools/export.py:151-205 | ValueError exactly out of range; otherwise the saved path or one PNG artifact |
| `SheetsTable.MaxRowLength` | google_slides_llm_tools/data.py:112 | the largest row length, reached by some row; 0 for no rows |
| `SheetsTable.BuildCellRequests` | google_slides_llm_tools/data.py:145-158 | the nested loop with the column guard computes the cell requests |
| `SheetsTable.RowRequestsAt` | google_slides_llm_tools/data.py:147-158 | a row's requests fill its cells in column order |
| `SheetsTable.CellRequestsInBounds` | google_slides_llm_tools/data.py:145-158 | every request fills a cell inside the rows x columns table, with that cell's value |
| `SheetsTable.CellRequestsCount` | google_slides_llm_tools/data.py:145-158 | one request per cell present |
| `SheetsTable.CellRequestsAt` | google_slides_llm_tools/data.py:145-158 | the cell (i, j) is filled by the request at the cells before row i plus j |
| `SheetsTable.CellRequestsRowMajor` | google_slides_llm_tools/data.py:145-158 | the requests come in strict row-major order |
| `SheetsTable.SumLengthsBound` | google_slides_llm_tools/data.py:111-112 | cells present never exceed rows x columns, and fall short exactly when some row is ragged |
| `SheetsTable.RaggedExample` | google_slides_llm_tools/data.py:145-158 | [["a","b"],["c"]] gives a 2 x 2 table with three inserts |
| `DataPkg.ChartRequest` | google_slides_llm_tools/data/__init__.py:28-58 | a linked createSheetsChart whose EMU size and translation are the points times 12700 |
| `DataPkg.ChartWholePoints` | google_slides_llm_tools/data/__init__.py:45-52 | for whole points the EMU values are what points_to_emu gives |
| `DataPkg.CreateSheetsChartTool` | google_slides_llm_tools/data/__init__.py:8-90 | one chart request, then the PDF paths of the chart's slide |
| `DataPkg.CreateTableFromSheets` | google_slides_llm_tools/data/__init__.py:93-211 | the range read, then the table outcome for those values |
| `DataPkg.TableFromSheetsShape` | google_slides_llm_tools/data/__init__.py:122-183 | an empty range returns the error and sends nothing; otherwise a createTable of len(rows) x max row length, then the cell batch only when it is non-empty |
| `DataPkg.RangeNameExample` | google_slides_llm_tools/data/__init__.py:118 | 'Sheet1', 'A1', 'C5' give 'Sheet1!A1:C5' |
| `Data.ChartRequest` | google_slides_llm_tools/data.py:34-57 | a linked createSheetsChart in points at the position |
| `Data.ChartVariants` | google_slides_llm_tools/data.py:34-57 | the package variant sends the same chart at the same place, in EMU |
| `Data.CreateSheetsChartTool` | google_slides_llm_tools/data.py:18-80 | one chart request, then the message and the slide's export |
| `Data.CreateTableFromSheets` | google_slides_llm_tools/data.py:83-182 | the range read, then the table result for those values |
| `Data.TableVariants` | google_slides_llm_tools/data.py:97-182 | the two variants read the same range; with no values the message and nothing else, otherwise the same batches |
| `Data.FullRangeExample` | google_slides_llm_tools/data.py:97 | 'Sheet1', 'A1:B2' give 'Sheet1!A1:B2' |
| `Data.SlideData` | google_slides_llm_tools/data.py:185-207 | the first slide with the id; the empty dict exactly when there is none |
| `Data.GetSlideData` | google_slides_llm_tools/data.py:202-207 | the loop with early return computes SlideData |
| `Data.MatchingIdsAppend` | google_slides_llm_tools/data.py:247-258 | the matches of two element lists are those of each, in order |
| `Data.AllElementsAppend` | google_slides_llm_tools/data.py:246-247 | the elements of two slide lists are those of each, in order |
| `Data.FindElementIdsAppend` | google_slides_llm_tools/data.py:246-260 | results are in slide order |
| `Data.MatchingIdsMember` | google_slides_llm_tools/data.py:247-258 | an id is returned exactly when an element with it is a shape with text containing the search string, ignoring case |
| `Data.NoTextNeverReturned` | google_slides_llm_tools/data.py:249 | an element without a shape or without text never contributes |
| `Data.FindElementIdsLoop` | google_slides_llm_tools/data.py:227-260 | the three nested loops compute FindElementIds |
| `FormattingPkg.AddTextRequests` | google_slides_llm_tools/formatting/__init__.py:31-58 | a TEXT_BOX createShape in points at the given place, then its insertText |
| `FormattingPkg.AddTextToSlide` | google_slides_llm_tools/formatting/__init__.py:8-90 | those two requests, then the slide's PDF paths |
| `FormattingPkg.TextNamesApart` | google_slides_llm_tools/formatting/__init__.py:119-144 | the five text style keys have distinct names |
| `FormattingPkg.BuildTextStyle` | google_slides_llm_tools/formatting/__init__.py:115-144 | the style and fields hold exactly the given arguments, in order |
| `FormattingPkg.UpdateTextStyleTool` | google_slides_llm_tools/formatting/__init__.py:93-195 | one updateTextStyle over the fixed range, then the owner slide's PDF paths |
| `FormattingPkg.TextFieldsExactly` | google_slides_llm_tools/formatting/__init__.py:119-144 | a key is listed exactly when its argument is not None, so bold=False is sent |
| `FormattingPkg.TextMaskRoundTrip` | google_slides_llm_tools/formatting/__init__.py:157 | the mask splits back into the key names; with no argument it is empty |
| `FormattingPkg.ParagraphNamesApart` | google_slides_llm_tools/formatting/__init__.py:226-260 | the six paragraph keys have distinct names |
| `FormattingPkg.BuildParagraphStyle` | google_slides_llm_tools/formatting/__init__.py:222-260 | the style and fields hold exactly the given arguments, in order |
| `FormattingPkg.UpdateParagraphStyleTool` | google_slides_llm_tools/formatting/__init__.py:198-311 | one updateParagraphStyle over the fixed range, then the owner slide's PDF paths |
| `FormattingPkg.ParagraphFieldsExactly` | google_slides_llm_tools/formatting/__init__.py:226-260 | a key is listed exactly when its argument is not None, in the order the code checks the arguments |
| `FormattingPkg.ParagraphMaskRoundTrip` | google_slides_llm_tools/formatting/__init__.py:273 | a non-empty mask splits back into the key names |
| `Formatting.AddTextToSlide` | google_slides_llm_tools/formatting.py:18-88 | the text box at the given or default position (100, 100, 400, 100), then the message and the slide's export |
| `Formatting.BuildTextStyle` | google_slides_llm_tools/formatting.py:102-135 | the style and fields hold exactly the truthy fields, in order |
| `Formatting.UpdateTextStyleTool` | google_slides_llm_tools/formatting.py:91-172 | one updateTextStyle without a range, then the message and the owner slide's export |
| `Formatting.TextFieldsExactly` | google_slides_llm_tools/formatting.py:104-135 | bold and italic are sent exactly when true, fontSize when non-zero, fontFamily when non-empty, the colour always |
| `Formatting.TextMaskRoundTrip` | google_slides_llm_tools/formatting.py:143 | the mask is never empty and splits back into the key names |
| `Formatting.TextNeverUnderline` | google_slides_llm_tools/formatting.py:102-135 | underline and backgroundColor are never sent |
| `Formatting.BoldFalseVariants` | google_slides_llm_tools/formatting.py:106-108 | bold=False is not sent here, but it is by the package variant |
| `Formatting.ParagraphNamesApart` | google_slides_llm_tools/formatting.py:188-234 | the seven paragraph keys have distinct names |
| `Formatting.BuildParagraphStyle` | google_slides_llm_tools/formatting.py:186-234 | the style and fields hold exactly the set, non-zero fields, in order |
| `Formatting.UpdateParagraphStyleTool` | google_slides_llm_tools/formatting.py:175-272 | one updateParagraphStyle without a range, then the message and the owner slide's export |
| `Formatting.ParagraphFieldsExactly` | google_slides_llm_tools/formatting.py:188-234 | a key is listed exactly when its value is sent, in the order the code checks the arguments |
| `Formatting.ParagraphNeverDirection` | google_slides_llm_tools/formatting.py:186-234 | direction and spacingMode are never sent |
| `Formatting.ParagraphMaskRoundTrip` | google_slides_llm_tools/formatting.py:242 | a non-empty mask splits back into the key names; an unset style sends an empty mask |
| `SlidesOperations.FallbackReference` | google_slides_llm_tools/slides_operations.py:87-99 | the first layout of the first master when it has an id, otherwise no layout reference |
| `SlidesOperations.MatchedLayoutId` | google_slides_llm_tools/slides_operations.py:76-84 | a layout id found by name is never empty |
| `SlidesOperations.MatchedIsFirstNamed` | google_slides_llm_tools/slides_operations.py:76-84 | when every layout has an id, the intended search finds the first layout with the name, across the masters |
| `SlidesOperations.AddSlideFindsLayout` | google_slides_llm_tools/slides_operations.py:76-99 | the corrected request uses the first layout whose displayName is the one asked for |
| `SlidesOperations.AddSlideLayoutMismatch` | google_slides_llm_tools/slides_operations.py:76-97 | for layouts TITLE and BLANK and a request for BLANK, the code as written picks TITLE and the corrected one BLANK |
| `SlidesOperations.AddSlideAsWritten` | google_slides_llm_tools/slides_operations.py:57-117 | the createSlide as the code builds it, with the shadowed loop variable, then the new slide's id and an export of slide 1 |
| `SlidesOperations.AddSlide` | google_slides_llm_tools/slides_operations.py:57-117 | the createSlide with the named layout, then the new slide's id and an export of slide 1 |
| `SlidesOperations.DeleteSlideRemoves` | google_slides_llm_tools/slides_operations.py:134-138 | applying the request removes exactly the slides with that id and keeps every other slide |
| `SlidesOperations.ReorderRequests` | google_slides_llm_tools/slides_operations.py:170-177 | one updateSlidesPosition per id, in order, each with the same insertion index |
| `SlidesOperations.MovedIdsOfReorder` | google_slides_llm_tools/slides_operations.py:170-177 | the ids the requests move are exactly the ids given, in order |
| `SlidesOperations.ReorderSlides` | google_slides_llm_tools/slides_operations.py:154-192 | the loop builds those requests; they move exactly the given ids |
| `SlidesOperations.DuplicateResult` | google_slides_llm_tools/slides_operations.py:235-253 | IndexError exactly for empty replies; the new id is the duplicateObject id of the first reply, and the slide exported is the first one with that id in the presentation read afterwards, if any |
| `SlidesOperations.DuplicateSlide` | google_slides_llm_tools/slides_operations.py:194-259 | an absent slide raises ValueError and sends nothing; otherwise one duplicateObject and that result |
| `Templates.NamedLayoutId` | google_slides_llm_tools/templates.py:32-39 | the id of the first layout with the name, never empty; None exactly when no layout has the name or the first one with it has no id |
| `Templates.ApplyPredefinedLayout` | google_slides_llm_tools/templates.py:15-72 | a missing layout gives "Layout ... not found" and no request; otherwise one updateSlideProperties with that layout's id, then the message and the slide's export |
| `Templates.CopyTitle` | google_slides_llm_tools/templates.py:86-91 | the given title, or 'Copy of ' and the original name |
| `Templates.DuplicatePresentation` | google_slides_llm_tools/templates.py:74-104 | read the name, copy under the title; the copy holds the original's slides; the message names the new id |
| `Templates.ListAvailableLayouts` | google_slides_llm_tools/templates.py:106-128 | one entry per layout, in order, with its id and its displayName or 'Unnamed Layout' |
| `Templates.AppendElementsWellFormed` | google_slides_llm_tools/templates.py:170-200 | every text box is created with an id derived from its request position and is immediately filled with its text |
| `Templates.AppendSlidesWellFormed` | google_slides_llm_tools/templates.py:157-200 | the whole slide loop builds only createSlide, createShape and insertText requests in that pairing |
| `Templates.TemplateShape` | google_slides_llm_tools/templates.py:150-207 | the default slide is deleted by the last request and by no other |
| `Templates.DigitSuffix` | google_slides_llm_tools/templates.py:172 | a text box id ends, after its last '_', in the decimal request position |
| `Templates.TextBoxIdsDistinct` | google_slides_llm_tools/templates.py:172 | text boxes at different request positions get different ids |
| `Templates.AppendSlidesCreates` | google_slides_llm_tools/templates.py:157-168 | the slides the loop creates are one per configuration, in order |
| `Templates.TemplateSlides` | google_slides_llm_tools/templates.py:157-168 | slide i is 'template_slide_i' at index i with its layout or 'BLANK' |
| `Templates.CreateCustomTemplate` | google_slides_llm_tools/templates.py:130-220 | with no default slide, IndexError; otherwise the template requests and "Created custom template ... with n slides" |
| `TemplatesPkg.ApplyLayoutRequests` | google_slides_llm_tools/templates/__init__.py:22-34 | one updatePageProperties setting layoutProperties.predefinedLayout |
| `TemplatesPkg.ApplyPredefinedLayout` | google_slides_llm_tools/templates/__init__.py:6-66 | that request, then the slide's PDF paths |
| `TemplatesPkg.DuplicatePresentation` | google_slides_llm_tools/templates/__init__.py:68-101 | a copy under the new title, with the copy's presentation PDF path |
| `TemplatesPkg.LayoutEntries` | google_slides_llm_tools/templates/__init__.py:122-130 | one entry per layout of every master, in order, with 'Unknown Layout' and 'BLANK' defaults |
| `TemplatesPkg.LayoutEntriesCover` | google_slides_llm_tools/templates/__init__.py:122-130 | every layout of every master is listed |
| `TemplatesPkg.LayoutEntriesSound` | google_slides_llm_tools/templates/__init__.py:122-130 | every entry comes from a layout of some master |
| `TemplatesPkg.ListAvailableLayouts` | google_slides_llm_tools/templates/__init__.py:103-140 | the nested loop computes those entries |
| `TemplatesPkg.TemplateCopyBody` | google_slides_llm_tools/templates/__init__.py:163-172 | isTemplate 'true' always; a description only when one is given and non-empty |
| `TemplatesPkg.TemplatePdfDistinct` | google_slides_llm_tools/templates/__init__.py:182-187 | the template PDF path never equals a presentation PDF path, and different ids give different paths |
| `TemplatesPkg.CreateCustomTemplate` | google_slides_llm_tools/templates/__init__.py:142-188 | the copy with the template body, then its template PDF path |
| `Multimedia.AddImageToSlide` | google_slides_llm_tools/multimedia.py:17-78 | one createImage in points, then "Added image from ..." and the slide's export |
| `Multimedia.VideoProperties` | google_slides_llm_tools/multimedia.py:101-110 | autoPlay and mute always; start and end exactly when given, with their values; no other key |
| `Multimedia.AddVideoToSlide` | google_slides_llm_tools/multimedia.py:80-159 | one createVideo from YOUTUBE whose videoProperties hold autoPlay, mute, and start and end exactly when given, with their values and no other key; then the message and the export |
| `Multimedia.AudioLinkRequests` | google_slides_llm_tools/multimedia.py:179-230 | create the text box, insert the text, style all of it with exactly a link to the audio URL, underline on and the foreground colour red 0, green 0, blue 0.8 |
| `Multimedia.AudioMaskMatchesStyle` | google_slides_llm_tools/multimedia.py:212-228 | the fields mask splits into exactly the keys of the style sent |
| `Multimedia.InsertAudioLink` | google_slides_llm_tools/multimedia.py:161-253 | those requests, then "Added audio link ..." and the slide's export |
| `Multimedia.ShapeRequests` | google_slides_llm_tools/multimedia.py:273-319 | the createShape, and a background-fill update only when a colour is given, all on one shape |
| `Multimedia.AddShapeToSlide` | google_slides_llm_tools/multimedia.py:255-342 | those requests, then "Added ... shape" and the slide's export |
| `Multimedia.CreateShapeTool` | google_slides_llm_tools/multimedia.py:344-419 | the createShape, then the id of the first reply's createShape |
| `Multimedia.GroupElements` | google_slides_llm_tools/multimedia.py:421-450 | one createGroup of the ids, then the id of the first reply's createGroup |
| `Multimedia.UngroupRequests` | google_slides_llm_tools/multimedia.py:464-477 | one ungroupObjects of the group ids |
| `Multimedia.UngroupNamesReportedGroup` | google_slides_llm_tools/multimedia.py:433-477 | the ungroupObjects request names the id `group_elements` reports, the one the first reply's createGroup carries, and nothing else |
| `AnimationsPkg.SetSlideTransition` | google_slides_llm_tools/animations/__init__.py:6-71 | one updatePageProperties whose mask is its one property, then the slide's PDF paths |
| `AnimationsPkg.ApplyAutoAdvance` | google_slides_llm_tools/animations/__init__.py:130-191 | the same for autoAdvanceTime |
| `AnimationsPkg.SetElementAnimation` | google_slides_llm_tools/animations/__init__.py:73-128 | no request at all; the fixed message and the slide's PDF paths |
| `AnimationsPkg.ChooseBackground` | google_slides_llm_tools/animations/__init__.py:211-227 | None exactly when neither is given; a colour wins over an image |
| `AnimationsPkg.SetSlideBackground` | google_slides_llm_tools/animations/__init__.py:193-272 | an error and no request when neither is given; otherwise one background update and the PDF paths |

`utils.py` repeats `slide_id_to_index`, `index_to_slide_id` and the colour and
unit conversions of `utils/helpers.py` line for line (`utils.py:3-48` and
`utils.py:100-174`). Those conversions are modelled once, by the `Helpers`
members.

## Left out

- Authentication, the service builders, the MCP server and the LangChain tool wrappers: they configure clients and carry no logic of their own.
- `collaboration.py`, `collaboration/__init__.py`, `slides/__init__.py` and `animations.py` are not part of this model: they lie outside the modelled core.
- `create_presentation`, `get_presentation` and `get_presentation_data` pass API results through unchanged, so they are not modelled.
- Network calls: the presentation read after a batch, the batch reply where a tool reads it (an objectId, a range's values), and the id the server gives a copy are parameters. The effect of a batch on the presentation is modelled only for the deleteObject batch of the single-slide export.
- Failing calls: only the Drive calls and the stages of the single-slide export (the final delete of the copy included) can fail in the model. A batchUpdate or a get that raises HttpError in any other tool propagates it, since the core catches nothing; those failures are not modelled.
- The package tools (`data/__init__.py`, `formatting/__init__.py`, `animations/__init__.py`, `templates/__init__.py`) return the batchUpdate reply dict with `presentationPdfPath` and, when set, `slidePdfPath` added to it. `DataPkg`, `FormattingPkg`, `AnimationsPkg` and `TemplatesPkg` return only the paths; the rest of the reply is not modelled.
- Time-based object ids (`f'Chart_{int(time.time())}'` and the like) are parameters.
- Floating point: positions, sizes and colours are exact reals, so rounding in `rgb_to_hex` and in the unit conversions is exact here.
- Lowercasing is ASCII-only.
- Base64 encoding, the PDF bytes, the thumbnail download and writing files: these are opaque inputs, and a saved file is represented by its path.
- `os.path.join` with the temporary directory is represented by the file name alone.
- Calls from a tool into the export functions are represented by the slide index exported, or by the two PDF paths. In the package, `export_presentation_as_pdf` requires an `output_path`, and the tools call it without one, which would raise `TypeError`. The module variants call `@tool` objects directly. Neither call mechanism is modelled.
- `SlidesOperations.ReorderSlides`: states the requests sent and the ids they move, not the slide order the service produces. google_slides_llm_tools/tests/test_slides_operations.py:179-211 expects a single updateSlidesPosition request carrying every id, and the slide order read back afterwards; the code sends one request per id and returns the ids it was given, and the model follows the code (not executed).
- `Helpers.ParseHexInt`: accepts only ASCII whitespace around the digits and ASCII hex digits; Python's `int(s, 16)` also strips Unicode whitespace and accepts Unicode decimal digits, which a colour string from the caller would rarely hold.
- `Helpers.ParseSignedHex`: the same ASCII-only grammar as `Helpers.ParseHexInt`.
- Object ids are always present strings. The source reads them with `.get('objectId')`, which can give None, and with `layout['objectId']`, which raises KeyError when the key is missing; neither case is modelled, nor a None slide id passed on a path the tools do not redirect, since `Utils.ElementIdByName` and the tools take the slide id as a string.
- The effect of ungroupObjects on the page is not modelled: `Multimedia.UngroupNamesReportedGroup` states only the request sent.
- `Templates.DuplicatePresentation`: the export message of the copy is a parameter.
- `SlidesOperations.AddSlide`: the exported slide is index 1, as the source hard-codes it, not the slide created.

## Findings

| source | as written | input that shows it | evidently intended | confidence | as-written member | corrected member |
|---|---|---|---|---|---|---|
| google_slides_llm_tools/slides_operations.py:76-97 | the loop variable `layout` shadows the argument, so the displayName is compared with a layout dict and never matches. The slide uses the first layout of the first master, and its objectId becomes "slide_" + str(the last layout dict the loop visited) | one master with layouts p1 "TITLE" and p2 "BLANK", asked for "BLANK": the slide gets layout p1 | the first layout whose displayName is the one asked for (p2) | not executed | `SlidesOperations.AddSlideLayoutMismatch` | `SlidesOperations.AddSlideFindsLayout` |
