/** animations/__init__.py: page-property updates for transitions, auto
    advance and backgrounds, and the element-animation placeholder. Each
    returns the PDF paths of the presentation and, when found, of the slide. */
module AnimationsPkg {
  import opened SlidesApi
  import opened Lookup
  import opened Responses

  /** The fields mask that covers exactly the page property being set. */
  function FieldMask(p: PageProperties): string
  {
    match p
    case LayoutProperties(_) => "layoutProperties.predefinedLayout"
    case PageTransition(_, _) => "pageTransition"
    case AutoAdvanceTime(_) => "autoAdvanceTime"
    case PageBackgroundFill(_) => "pageBackgroundFill"
  }

  /** An updatePageProperties whose mask is the one for its property. */
  predicate MaskMatches(r: Request)
  {
    r.UpdatePageProperties? && r.fields == FieldMask(r.properties)
  }

  // ---------------------------------------------------------------------------
  // set_slide_transition and apply_auto_advance

  /** `duration` is put, as given, into pageTransition.duration.seconds. */
  method SetSlideTransition(presentationId: string, slideId: string, transitionType: string, duration: real,
                            slidesAfter: seq<Slide>)
    returns (requests: seq<Request>, paths: PathResponse)
    ensures requests == [UpdatePageProperties(slideId, PageTransition(transitionType, duration), "pageTransition")]
    ensures MaskMatches(requests[0])
    ensures paths == PdfPaths(presentationId, slidesAfter, slideId)
  {
    requests := [UpdatePageProperties(slideId, PageTransition(transitionType, duration), "pageTransition")];
    paths := AttachPdfPaths(presentationId, slidesAfter, slideId);
  }

  method ApplyAutoAdvance(presentationId: string, slideId: string, autoAdvanceTime: real, slidesAfter: seq<Slide>)
    returns (requests: seq<Request>, paths: PathResponse)
    ensures requests == [UpdatePageProperties(slideId, AutoAdvanceTime(autoAdvanceTime), "autoAdvanceTime")]
    ensures MaskMatches(requests[0])
    ensures paths == PdfPaths(presentationId, slidesAfter, slideId)
  {
    requests := [UpdatePageProperties(slideId, AutoAdvanceTime(autoAdvanceTime), "autoAdvanceTime")];
    paths := AttachPdfPaths(presentationId, slidesAfter, slideId);
  }

  // ---------------------------------------------------------------------------
  // set_element_animation

  const AnimationMessage := "Element animations are not directly supported by the Google Slides API yet. "
                          + "You would need to use the Google Slides UI to add these animations."

  /** No batch is sent; the message and the PDF paths are returned. */
  method SetElementAnimation(presentationId: string, slideId: string, slides: seq<Slide>)
    returns (requests: seq<Request>, message: string, paths: PathResponse)
    ensures requests == [] && message == AnimationMessage
    ensures paths == PdfPaths(presentationId, slides, slideId)
  {
    requests := [];
    message := AnimationMessage;
    paths := AttachPdfPaths(presentationId, slides, slideId);
  }

  // ---------------------------------------------------------------------------
  // set_slide_background

  /** A colour wins over an image; with neither there is no background. */
  function ChooseBackground(color: Option<RgbColor>, imageUrl: Option<string>): (r: Option<Fill>)
    ensures r.None? <==> color.None? && imageUrl.None?
    ensures r.Some? && r.value.SolidFill? <==> color.Some?
    ensures color.Some? ==> r == Some(SolidFill(color.value))
    ensures color.None? && imageUrl.Some? ==> r == Some(StretchedPictureFill(imageUrl.value))
  {
    if color.Some? then Some(SolidFill(color.value))
    else if imageUrl.Some? then Some(StretchedPictureFill(imageUrl.value))
    else None
  }

  const MissingBackground := "Either color or image_url must be provided"

  /** The error dict, returned before any call, or the PDF paths. */
  datatype Response = ErrorResponse(error: string) | PdfResponse(paths: PathResponse)

  method SetSlideBackground(presentationId: string, slideId: string, color: Option<RgbColor>, imageUrl: Option<string>,
                            slidesAfter: seq<Slide>)
    returns (requests: seq<Request>, r: Response)
    ensures color.None? && imageUrl.None? ==> requests == [] && r == ErrorResponse(MissingBackground)
    ensures color.Some? || imageUrl.Some? ==>
      requests == [UpdatePageProperties(slideId, PageBackgroundFill(ChooseBackground(color, imageUrl).value), "pageBackgroundFill")]
      && MaskMatches(requests[0])
      && r == PdfResponse(PdfPaths(presentationId, slidesAfter, slideId))
  {
    var background: Fill;
    if color.Some? {
      background := SolidFill(color.value);
    } else if imageUrl.Some? {
      background := StretchedPictureFill(imageUrl.value);
    } else {
      return [], ErrorResponse(MissingBackground);
    }
    requests := [UpdatePageProperties(slideId, PageBackgroundFill(background), "pageBackgroundFill")];
    var paths := AttachPdfPaths(presentationId, slidesAfter, slideId);
    r := PdfResponse(paths);
  }
}
