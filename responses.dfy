/** The tail every mutating tool shares. The package variants (x/__init__.py)
    add presentationPdfPath and, when the slide is found, slidePdfPath to the
    response; the module variants (x.py) attach the artifacts of
    export_slide_as_pdf for the slide when it is found, and none otherwise. */
module Responses {
  import opened SlidesApi
  import opened Text
  import opened Lookup

  function PresentationPdf(presentationId: string): Path
  {
    TempPath("presentation_" + presentationId + ".pdf")
  }

  function SlidePdf(presentationId: string, slideIndex: nat): Path
  {
    TempPath("slide_" + presentationId + "_" + NatToString(slideIndex) + ".pdf")
  }

  /** The response's PDF paths for the slide index found, if any. */
  function PathsFor(presentationId: string, slideIndex: Option<nat>): PathResponse
  {
    PathResponse(PresentationPdf(presentationId),
                 if slideIndex.Some? then Some(SlidePdf(presentationId, slideIndex.value)) else None)
  }

  /** The response's PDF paths, with the slide index taken from `slides`, the
      presentation as fetched after the update. */
  function PdfPaths(presentationId: string, slides: seq<Slide>, slideId: string): (r: PathResponse)
    ensures r.presentationPdfPath == PresentationPdf(presentationId)
    ensures r.slidePdfPath.None? <==> forall j :: 0 <= j < |slides| ==> slides[j].objectId != slideId
    ensures r.slidePdfPath.Some? ==>
      exists i :: 0 <= i < |slides| && slides[i].objectId == slideId
        && (forall j :: 0 <= j < i ==> slides[j].objectId != slideId)
        && r.slidePdfPath.value == SlidePdf(presentationId, i)
  {
    PathsFor(presentationId, FirstSlideIndex(slides, slideId))
  }

  /** The same for the slide that owns the element `elementId`. */
  function OwnerPdfPaths(presentationId: string, slides: seq<Slide>, elementId: string): (r: PathResponse)
    ensures r.presentationPdfPath == PresentationPdf(presentationId)
    ensures r.slidePdfPath.None? <==> forall j :: 0 <= j < |slides| ==> !Owns(slides[j], elementId)
    ensures r.slidePdfPath.Some? ==>
      exists i :: 0 <= i < |slides| && Owns(slides[i], elementId)
        && (forall j :: 0 <= j < i ==> !Owns(slides[j], elementId))
        && r.slidePdfPath.value == SlidePdf(presentationId, i)
  {
    PathsFor(presentationId, OwnerSlideIndex(slides, elementId))
  }

  /** The slide-index scan with break, then the two paths. */
  method AttachPdfPaths(presentationId: string, slides: seq<Slide>, slideId: string) returns (r: PathResponse)
    ensures r == PdfPaths(presentationId, slides, slideId)
  {
    var slideIndex := FindSlideIndex(slides, slideId);
    var slidePath: Option<Path> := None;
    if slideIndex.Some? {
      slidePath := Some(SlidePdf(presentationId, slideIndex.value));
    }
    r := PathResponse(PresentationPdf(presentationId), slidePath);
  }

  /** The nested owner scan, then the two paths. */
  method AttachOwnerPdfPaths(presentationId: string, slides: seq<Slide>, elementId: string) returns (r: PathResponse)
    ensures r == OwnerPdfPaths(presentationId, slides, elementId)
  {
    var slideIndex := FindOwnerSlide(slides, elementId);
    var slidePath: Option<Path> := None;
    if slideIndex.Some? {
      slidePath := Some(SlidePdf(presentationId, slideIndex.value));
    }
    r := PathResponse(PresentationPdf(presentationId), slidePath);
  }

  /** What a module-variant tool returns: its message, and the index of the
      slide whose export_slide_as_pdf artifacts are attached (None: []). */
  datatype SlideReport = SlideReport(content: string, exportedSlide: Option<nat>)

  function Report(content: string, slides: seq<Slide>, slideId: string): (r: SlideReport)
    ensures r.content == content
    ensures r.exportedSlide.None? <==> forall j :: 0 <= j < |slides| ==> slides[j].objectId != slideId
    ensures r.exportedSlide.Some? ==>
      r.exportedSlide.value < |slides| && slides[r.exportedSlide.value].objectId == slideId
      && forall j :: 0 <= j < r.exportedSlide.value ==> slides[j].objectId != slideId
  {
    SlideReport(content, FirstSlideIndex(slides, slideId))
  }

  /** The slide-index scan, then export_slide_as_pdf only for a slide found. */
  method ReportExport(content: string, slides: seq<Slide>, slideId: string) returns (r: SlideReport)
    ensures r == Report(content, slides, slideId)
  {
    var slideIndex := FindSlideIndex(slides, slideId);
    r := SlideReport(content, None);
    if slideIndex.Some? {
      r := SlideReport(content, slideIndex);
    }
  }

  /** The report for the slide that owns the element `elementId`. */
  function OwnerReport(content: string, slides: seq<Slide>, elementId: string): (r: SlideReport)
    ensures r.content == content
    ensures r.exportedSlide.None? <==> forall j :: 0 <= j < |slides| ==> !Owns(slides[j], elementId)
    ensures r.exportedSlide.Some? ==>
      r.exportedSlide.value < |slides| && Owns(slides[r.exportedSlide.value], elementId)
      && forall j :: 0 <= j < r.exportedSlide.value ==> !Owns(slides[j], elementId)
  {
    SlideReport(content, OwnerSlideIndex(slides, elementId))
  }

  method OwnerReportExport(content: string, slides: seq<Slide>, elementId: string) returns (r: SlideReport)
    ensures r == OwnerReport(content, slides, elementId)
  {
    var slideIndex := FindOwnerSlide(slides, elementId);
    r := SlideReport(content, slideIndex);
  }
}
