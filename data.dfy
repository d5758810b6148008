/** data.py, the module variant: the Sheets chart placed in points, the table
    from a Sheets range, get_slide_data and find_element_ids. */
module Data {
  import opened SlidesApi
  import opened Text
  import opened Lookup
  import opened SheetsTable
  import opened Responses
  import DataPkg

  // ---------------------------------------------------------------------------
  // create_sheets_chart

  /** The createSheetsChart request with the position in points. */
  function ChartRequest(chartObjectId: string, slideId: string, spreadsheetId: string, chartId: int, position: Position): (r: Request)
    ensures r.CreateSheetsChart? && r.objectId == chartObjectId && r.linkingMode == "LINKED"
    ensures r.spreadsheetId == spreadsheetId && r.chartId == chartId && r.props == PtProperties(slideId, position)
  {
    CreateSheetsChart(chartObjectId, spreadsheetId, chartId, "LINKED", PtProperties(slideId, position))
  }

  /** The package variant sends the same chart at the same place, in EMU. */
  lemma ChartVariants(chartObjectId: string, slideId: string, spreadsheetId: string, chartId: int, p: Position)
    ensures var a := ChartRequest(chartObjectId, slideId, spreadsheetId, chartId, p);
      var b := DataPkg.ChartRequest(chartObjectId, slideId, spreadsheetId, chartId, p.x, p.y, p.width, p.height);
      a.props.sizeUnit == PT && b.props.sizeUnit == EMU
      && b.props.height == a.props.height * 12700.0 && b.props.width == a.props.width * 12700.0
      && b.props.translateX == a.props.translateX * 12700.0 && b.props.translateY == a.props.translateY * 12700.0
  {
  }

  /** create_sheets_chart: one batchUpdate, then the slide's export. */
  method CreateSheetsChartTool(slideId: string, spreadsheetId: string, chartId: int, position: Position,
                               chartObjectId: string, slidesAfter: seq<Slide>)
    returns (requests: seq<Request>, report: SlideReport)
    ensures requests == [ChartRequest(chartObjectId, slideId, spreadsheetId, chartId, position)]
    ensures report == Report("Added chart from spreadsheet " + spreadsheetId + " to slide " + slideId, slidesAfter, slideId)
  {
    requests := [ChartRequest(chartObjectId, slideId, spreadsheetId, chartId, position)];
    report := ReportExport("Added chart from spreadsheet " + spreadsheetId + " to slide " + slideId, slidesAfter, slideId);
  }

  // ---------------------------------------------------------------------------
  // create_table_from_sheets

  /** f"{sheet_name}!{range_name}" */
  function FullRange(sheetName: string, rangeName: string): string
  {
    sheetName + "!" + rangeName
  }

  /** The batchUpdate bodies sent, in order, and what the tool returns. */
  datatype TableResult = TableResult(batches: seq<seq<Request>>, report: SlideReport)

  function TableFromSheets(slideId: string, sheetName: string, rangeName: string, rows: seq<Row>, position: Position,
                           tableId: string, slidesAfter: seq<Slide>): TableResult
  {
    if |rows| == 0 then TableResult([], SlideReport(DataPkg.NoDataMessage, None))
    else
      var cells := CellRequests(tableId, rows, MaxRowLength(rows));
      TableResult([[CreateTable(tableId, |rows|, MaxRowLength(rows), PtProperties(slideId, position))]]
                  + (if |cells| > 0 then [cells] else []),
                  Report("Created table from " + FullRange(sheetName, rangeName) + " on slide " + slideId, slidesAfter, slideId))
  }

  method CreateTableFromSheets(slideId: string, sheetName: string, rangeName: string, position: Position,
                               valuesOf: string -> seq<Row>, tableId: string, slidesAfter: seq<Slide>)
    returns (r: TableResult)
    ensures r == TableFromSheets(slideId, sheetName, rangeName, valuesOf(FullRange(sheetName, rangeName)),
                                 position, tableId, slidesAfter)
  {
    var values := valuesOf(FullRange(sheetName, rangeName));
    if |values| == 0 {
      return TableResult([], SlideReport(DataPkg.NoDataMessage, None));
    }
    var numColumns := MaxRowLength(values);
    var batches := [[CreateTable(tableId, |values|, numColumns, PtProperties(slideId, position))]];
    var textRequests := BuildCellRequests(tableId, values, numColumns);
    if |textRequests| > 0 {
      batches := batches + [textRequests];
    }
    var report := ReportExport("Created table from " + FullRange(sheetName, rangeName) + " on slide " + slideId, slidesAfter, slideId);
    r := TableResult(batches, report);
  }

  /** No values: the message, no request, no artifact. Otherwise the two
      variants send the same batches for the same data and placement, and
      read the same range when range_name is "start:end". */
  lemma TableVariants(slideId: string, sheetName: string, rangeStart: string, rangeEnd: string, rows: seq<Row>,
                      p: Position, tableId: string, slidesAfter: seq<Slide>, presentationId: string)
    ensures DataPkg.RangeName(sheetName, rangeStart, rangeEnd) == FullRange(sheetName, rangeStart + ":" + rangeEnd)
    ensures var a := TableFromSheets(slideId, sheetName, rangeStart + ":" + rangeEnd, rows, p, tableId, slidesAfter);
      var b := DataPkg.TableFromSheets(presentationId, slideId, rows, p.x, p.y, p.width, p.height, tableId, slidesAfter);
      (|rows| == 0 ==> a == TableResult([], SlideReport("No data found in the specified range", None)))
      && (|rows| > 0 ==> b.TableCreated? && a.batches == b.batches)
  {
    assert DataPkg.RangeName(sheetName, rangeStart, rangeEnd) == sheetName + "!" + (rangeStart + ":" + rangeEnd);
  }

  lemma FullRangeExample()
    ensures FullRange("Sheet1", "A1:B2") == "Sheet1!A1:B2"
  {
  }

  // ---------------------------------------------------------------------------
  // get_slide_data

  /** The first slide with that objectId; None stands for the empty dict. */
  function SlideData(slides: seq<Slide>, slideId: string): (r: Option<Slide>)
    ensures r.None? <==> forall j :: 0 <= j < |slides| ==> slides[j].objectId != slideId
    ensures r.Some? ==> r.value.objectId == slideId && r.value in slides
    ensures r.Some? ==>
      exists i :: 0 <= i < |slides| && slides[i] == r.value && forall j :: 0 <= j < i ==> slides[j].objectId != slideId
  {
    match FirstSlideIndex(slides, slideId)
    case None => None
    case Some(i) => Some(slides[i])
  }

  method GetSlideData(slides: seq<Slide>, slideId: string) returns (r: Option<Slide>)
    ensures r == SlideData(slides, slideId)
  {
    var i := 0;
    while i < |slides|
      invariant 0 <= i <= |slides|
      invariant forall j :: 0 <= j < i ==> slides[j].objectId != slideId
    {
      if slides[i].objectId == slideId {
        return Some(slides[i]);
      }
      i := i + 1;
    }
    return None;
  }

  // ---------------------------------------------------------------------------
  // find_element_ids

  /** Every page element, slide by slide. */
  function AllElements(slides: seq<Slide>): seq<PageElement>
  {
    if |slides| == 0 then [] else AllElements(slides[..|slides| - 1]) + slides[|slides| - 1].pageElements
  }

  /** The ids of the shape-with-text elements whose text contains the search
      string case-insensitively, in order. */
  function MatchingIds(elements: seq<PageElement>, search: string): seq<string>
  {
    if |elements| == 0 then []
    else
      var e := elements[|elements| - 1];
      MatchingIds(elements[..|elements| - 1], search) + (if TextMatches(e, search) then [e.objectId] else [])
  }

  function FindElementIds(slides: seq<Slide>, search: string): seq<string>
  {
    MatchingIds(AllElements(slides), search)
  }

  lemma {:induction false} MatchingIdsAppend(a: seq<PageElement>, b: seq<PageElement>, search: string)
    ensures MatchingIds(a + b, search) == MatchingIds(a, search) + MatchingIds(b, search)
  {
    if |b| == 0 {
      assert a + b == a;
    } else {
      assert (a + b)[..|a + b| - 1] == a + b[..|b| - 1];
      MatchingIdsAppend(a, b[..|b| - 1], search);
    }
  }

  lemma {:induction false} AllElementsAppend(a: seq<Slide>, b: seq<Slide>)
    ensures AllElements(a + b) == AllElements(a) + AllElements(b)
  {
    if |b| == 0 {
      assert a + b == a;
    } else {
      assert (a + b)[..|a + b| - 1] == a + b[..|b| - 1];
      AllElementsAppend(a, b[..|b| - 1]);
    }
  }

  /** The results are in slide order: those of earlier slides come first. */
  lemma FindElementIdsAppend(a: seq<Slide>, b: seq<Slide>, search: string)
    ensures FindElementIds(a + b, search) == FindElementIds(a, search) + FindElementIds(b, search)
  {
    AllElementsAppend(a, b);
    MatchingIdsAppend(AllElements(a), AllElements(b), search);
  }

  /** An id is returned exactly when some element with that id is a shape with
      text that contains the search string. */
  lemma {:induction false} MatchingIdsMember(elements: seq<PageElement>, search: string, id: string)
    ensures id in MatchingIds(elements, search) <==>
      exists j :: 0 <= j < |elements| && elements[j].objectId == id && TextMatches(elements[j], search)
  {
    if |elements| > 0 {
      var n := |elements| - 1;
      MatchingIdsMember(elements[..n], search, id);
      if exists j :: 0 <= j < n && elements[..n][j].objectId == id && TextMatches(elements[..n][j], search) {
        var j :| 0 <= j < n && elements[..n][j].objectId == id && TextMatches(elements[..n][j], search);
        assert elements[j] == elements[..n][j];
      }
      if exists j :: 0 <= j < |elements| && elements[j].objectId == id && TextMatches(elements[j], search) {
        var j :| 0 <= j < |elements| && elements[j].objectId == id && TextMatches(elements[j], search);
        if j < n {
          assert elements[..n][j] == elements[j];
        }
      }
    }
  }

  /** An element without a shape or without text never contributes. */
  lemma NoTextNeverReturned(a: seq<PageElement>, e: PageElement, b: seq<PageElement>, search: string)
    requires ShapeText(e).None?
    ensures MatchingIds(a + [e] + b, search) == MatchingIds(a + b, search)
  {
    MatchingIdsAppend(a + [e], b, search);
    MatchingIdsAppend(a, [e], search);
    MatchingIdsAppend(a, b, search);
    assert [e][..0] == [];
  }

  /** find_element_ids: the slide and element loops, concatenating each shape's
      text runs and appending the ids that match. */
  method FindElementIdsLoop(slides: seq<Slide>, search: string) returns (ids: seq<string>)
    ensures ids == FindElementIds(slides, search)
  {
    ids := [];
    var i := 0;
    while i < |slides|
      invariant 0 <= i <= |slides|
      invariant ids == FindElementIds(slides[..i], search)
    {
      var elements := slides[i].pageElements;
      ghost var before := ids;
      var j := 0;
      while j < |elements|
        invariant 0 <= j <= |elements|
        invariant ids == before + MatchingIds(elements[..j], search)
      {
        assert elements[..j + 1][..j] == elements[..j];
        var hit := MatchesText(elements[j], search);
        if hit {
          ids := ids + [elements[j].objectId];
        }
        j := j + 1;
      }
      assert elements[..|elements|] == elements;
      assert slides[..i + 1][..i] == slides[..i];
      MatchingIdsAppend(AllElements(slides[..i]), elements, search);
      i := i + 1;
    }
    assert slides[..|slides|] == slides;
  }
}
