/** export.py: the three export tools of the module variant, which return a
    (content, artifact) pair: the output path when one is given, otherwise one
    file artifact whose data is a base64 data URL. */
module Export {
  import opened SlidesApi
  import opened Text
  import opened Drive
  import opened ExportPkg

  /** {"type": "file", "file": {"filename": ..., "file_data": ...}} */
  datatype Artifact = Artifact(filename: string, fileData: string)

  /** What a content_and_artifact tool returns: the message and either the
      path written to or the list of artifacts. */
  datatype ToolOutput = PathResult(content: string, path: string) | ArtifactResult(content: string, artifacts: seq<Artifact>)

  /** `if output_path:` on an Optional[str]. */
  predicate Truthy(p: Option<string>)
  {
    p.Some? && p.value != ""
  }

  // ---------------------------------------------------------------------------
  // Data URLs and their parser

  /** f"data:{mime};base64,{payload}" */
  function DataUrl(mime: string, payload: string): string
  {
    "data:" + mime + ";base64," + payload
  }

  /** The position of the first comma, |s| when there is none. */
  function FirstComma(s: string): (k: nat)
    ensures k <= |s|
    ensures forall i :: 0 <= i < k ==> s[i] != ','
    ensures k < |s| ==> s[k] == ','
  {
    if |s| == 0 then 0
    else if s[0] == ',' then 0
    else 1 + FirstComma(s[1..])
  }

  /** Reads a data URL back into its media type and base64 payload: the part
      before the first comma must be "data:" + mime + ";base64". */
  function ParseDataUrl(s: string): Option<(string, string)>
  {
    var k := FirstComma(s);
    if k < |s| && k >= 12 && s[..5] == "data:" && s[k - 7..k] == ";base64" then Some((s[5..k - 7], s[k + 1..]))
    else None
  }

  /** A data URL with a comma-free media type parses back to what built it. */
  lemma DataUrlRoundTrip(mime: string, payload: string)
    requires CommaFree(mime)
    ensures ParseDataUrl(DataUrl(mime, payload)) == Some((mime, payload))
  {
    var s := DataUrl(mime, payload);
    var c := 5 + |mime| + 7;
    assert s[c] == ',';
    forall i | 0 <= i < c ensures s[i] != ',' {
      if 5 <= i < 5 + |mime| {
        assert s[i] == mime[i - 5];
      }
    }
    assert FirstComma(s) == c;
    assert s[..5] == "data:";
    assert s[c - 7..c] == ";base64";
    assert s[5..c - 7] == mime;
    assert s[c + 1..] == payload;
  }

  const PdfMime := "application/pdf"
  const PngMime := "image/png"

  // ---------------------------------------------------------------------------
  // Artifact file names

  function PresentationFileName(presentationId: string): string
  {
    "presentation_" + presentationId + ".pdf"
  }

  function SlideFileName(presentationId: string, slideIndex: int): string
  {
    "slide_" + presentationId + "_" + IntToString(slideIndex) + ".pdf"
  }

  function ThumbnailFileName(presentationId: string, slideIndex: int): string
  {
    "thumbnail_" + presentationId + "_" + IntToString(slideIndex) + ".png"
  }

  lemma NumberedNameInjective(head: string, tail: string, a: int, b: int)
    requires head + IntToString(a) + tail == head + IntToString(b) + tail
    ensures a == b
  {
    var sa := head + IntToString(a) + tail;
    var sb := head + IntToString(b) + tail;
    assert |IntToString(a)| == |IntToString(b)|;
    assert sa[|head|..|sa| - |tail|] == IntToString(a);
    assert sb[|head|..|sb| - |tail|] == IntToString(b);
    IntToStringInjective(a, b);
  }

  /** Artifacts of different slides of one presentation never share a file name. */
  lemma SlideFileNamesDistinct(presentationId: string, i: int, j: int)
    requires i != j
    ensures SlideFileName(presentationId, i) != SlideFileName(presentationId, j)
    ensures ThumbnailFileName(presentationId, i) != ThumbnailFileName(presentationId, j)
  {
    if SlideFileName(presentationId, i) == SlideFileName(presentationId, j) {
      NumberedNameInjective("slide_" + presentationId + "_", ".pdf", i, j);
    }
    if ThumbnailFileName(presentationId, i) == ThumbnailFileName(presentationId, j) {
      NumberedNameInjective("thumbnail_" + presentationId + "_", ".png", i, j);
    }
  }

  // ---------------------------------------------------------------------------
  // Result shaping

  /** A single-artifact result whose data URL reads back as `mime` and the
      encoding of the file's bytes. */
  predicate OneArtifact(r: ToolOutput, filename: string, mime: string, payload: string)
  {
    r.ArtifactResult? && |r.artifacts| == 1 && r.artifacts[0].filename == filename
    && ParseDataUrl(r.artifacts[0].fileData) == Some((mime, payload))
  }

  /** The result of export_presentation_as_pdf once the PDF bytes are in hand;
      `b64` is the base64 encoder. */
  function PresentationOutput(presentationId: string, outputPath: Option<string>, pdf: seq<bv8>,
                              b64: seq<bv8> -> string): (r: ToolOutput)
    ensures Truthy(outputPath) ==> r == PathResult("Presentation exported as PDF to " + outputPath.value, outputPath.value)
    ensures !Truthy(outputPath) ==>
      r.content == "Presentation exported as PDF"
      && OneArtifact(r, PresentationFileName(presentationId), PdfMime, b64(pdf))
  {
    if Truthy(outputPath) then PathResult("Presentation exported as PDF to " + outputPath.value, outputPath.value)
    else
      DataUrlRoundTrip(PdfMime, b64(pdf));
      ArtifactResult("Presentation exported as PDF", [Artifact(PresentationFileName(presentationId), DataUrl(PdfMime, b64(pdf)))])
  }

  /** The result of export_slide_as_pdf once the single-slide PDF is in hand. */
  function SlideOutput(presentationId: string, slideIndex: int, outputPath: Option<string>, pdf: seq<bv8>,
                       b64: seq<bv8> -> string): (r: ToolOutput)
    ensures Truthy(outputPath) ==>
      r == PathResult("Slide " + IntToString(slideIndex + 1) + " exported as PDF to " + outputPath.value, outputPath.value)
    ensures !Truthy(outputPath) ==>
      r.content == "Slide " + IntToString(slideIndex + 1) + " exported as PDF"
      && OneArtifact(r, SlideFileName(presentationId, slideIndex), PdfMime, b64(pdf))
  {
    var number := IntToString(slideIndex + 1);
    if Truthy(outputPath) then PathResult("Slide " + number + " exported as PDF to " + outputPath.value, outputPath.value)
    else
      DataUrlRoundTrip(PdfMime, b64(pdf));
      ArtifactResult("Slide " + number + " exported as PDF", [Artifact(SlideFileName(presentationId, slideIndex), DataUrl(PdfMime, b64(pdf)))])
  }

  // ---------------------------------------------------------------------------
  // The tools

  /** export_presentation_as_pdf: one export call; `render` gives the bytes of
      the PDF of a list of slides. */
  method ExportPresentationAsPdf(drive: Store, presentationId: string, outputPath: Option<string>, fail: bool,
                                 render: seq<Slide> -> seq<bv8>, b64: seq<bv8> -> string)
    returns (r: Result<ToolOutput>)
    modifies drive
    ensures drive.files == old(drive.files) && drive.log == old(drive.log) + [FilesExportPdf(presentationId)]
    ensures r == if !fail && presentationId in old(drive.files)
                 then Ok(PresentationOutput(presentationId, outputPath, render(old(drive.files)[presentationId].slides), b64))
                 else Err(HttpError(presentationId))
  {
    var pdf := drive.ExportPdf(presentationId, fail);
    if pdf.Err? {
      return Err(pdf.error);
    }
    r := Ok(PresentationOutput(presentationId, outputPath, render(pdf.value), b64));
  }

  /** export_slide_as_pdf: the temporary-copy lifecycle, then the result shaping. */
  method ExportSlideAsPdf(drive: Store, presentationId: string, slideIndex: int, outputPath: Option<string>,
                          copyId: string, faults: set<Stage>,
                          render: seq<Slide> -> seq<bv8>, b64: seq<bv8> -> string)
    returns (r: Result<ToolOutput>)
    requires copyId !in drive.files
    modifies drive
    ensures drive.files == FilesAfter(old(drive.files), presentationId, slideIndex, copyId, faults)
    ensures drive.log == old(drive.log) + ExportCalls(old(drive.files), presentationId, slideIndex, copyId, faults)
    ensures var o := ExportOutcome(old(drive.files), presentationId, slideIndex, copyId, faults);
      r == if o.Ok? then Ok(SlideOutput(presentationId, slideIndex, outputPath, render(o.value), b64)) else Err(o.error)
  {
    var exported := CopyAndExport(drive, presentationId, slideIndex, copyId, faults);
    if exported.Err? {
      return Err(exported.error);
    }
    r := Ok(SlideOutput(presentationId, slideIndex, outputPath, render(exported.value), b64));
  }

  /** get_presentation_thumbnail: the range check, then the thumbnail of that
      slide; `contentUrlOf` stands for getThumbnail's contentUrl and `download`
      for the bytes requests.get fetches from it. */
  function GetPresentationThumbnail(slides: seq<Slide>, presentationId: string, slideIndex: int,
                                    outputPath: Option<string>, contentUrlOf: string -> string,
                                    download: string -> seq<bv8>, b64: seq<bv8> -> string): (r: Result<ToolOutput>)
    ensures r.Err? <==> !InRange(slideIndex, slides)
    ensures r.Err? ==> r.error == OutOfRange(slideIndex, |slides|)
    ensures r.Ok? && Truthy(outputPath) ==>
      r.value == PathResult("Thumbnail of slide " + IntToString(slideIndex + 1) + " saved to " + outputPath.value, outputPath.value)
    ensures r.Ok? && !Truthy(outputPath) ==>
      r.value.content == "Thumbnail of slide " + IntToString(slideIndex + 1)
      && OneArtifact(r.value, ThumbnailFileName(presentationId, slideIndex), PngMime,
                     b64(download(contentUrlOf(slides[slideIndex].objectId))))
  {
    if slideIndex < 0 || slideIndex >= |slides| then Err(OutOfRange(slideIndex, |slides|))
    else
      var url := contentUrlOf(slides[slideIndex].objectId);
      var number := IntToString(slideIndex + 1);
      if Truthy(outputPath) then Ok(PathResult("Thumbnail of slide " + number + " saved to " + outputPath.value, outputPath.value))
      else
        var payload := b64(download(url));
        DataUrlRoundTrip(PngMime, payload);
        Ok(ArtifactResult("Thumbnail of slide " + number, [Artifact(ThumbnailFileName(presentationId, slideIndex), DataUrl(PngMime, payload))]))
  }
}
