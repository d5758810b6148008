/** multimedia.py: images, videos, audio links and shapes placed on a slide,
    and grouping. The time-based object ids ('Image_…', 'Video_…',
    'AudioLink_…', 'Shape_…') are parameters. */
module Multimedia {
  import opened SlidesApi
  import opened Text
  import opened Lookup
  import opened Responses

  // ---------------------------------------------------------------------------
  // add_image_to_slide

  method AddImageToSlide(slideId: string, imageUrl: string, position: Position, imageId: string, slidesAfter: seq<Slide>)
    returns (requests: seq<Request>, report: SlideReport)
    ensures requests == [CreateImage(imageId, imageUrl, PtProperties(slideId, position))]
    ensures report == Report("Added image from " + imageUrl + " to slide " + slideId, slidesAfter, slideId)
  {
    requests := [CreateImage(imageId, imageUrl, PtProperties(slideId, position))];
    report := ReportExport("Added image from " + imageUrl + " to slide " + slideId, slidesAfter, slideId);
  }

  // ---------------------------------------------------------------------------
  // add_video_to_slide

  /** What the videoProperties dict holds: autoPlay and mute always, start and
      end only when given (a start of 0 is given: the check is `is not None`),
      with their values, and no other key. */
  predicate VideoPropertiesOf(props: StyleMap, autoPlay: bool, mute: bool, startTime: Option<int>, endTime: Option<int>)
  {
    && "autoPlay" in props && props["autoPlay"] == Bool(autoPlay)
    && "mute" in props && props["mute"] == Bool(mute)
    && ("start" in props <==> startTime.Some?)
    && ("start" in props ==> props["start"] == Number(startTime.value as real))
    && ("end" in props <==> endTime.Some?)
    && ("end" in props ==> props["end"] == Number(endTime.value as real))
    && forall k :: k in props ==> k in ["autoPlay", "mute", "start", "end"]
  }

  method VideoProperties(autoPlay: bool, mute: bool, startTime: Option<int>, endTime: Option<int>)
    returns (props: StyleMap)
    ensures VideoPropertiesOf(props, autoPlay, mute, startTime, endTime)
  {
    props := map["autoPlay" := Bool(autoPlay), "mute" := Bool(mute)];
    if startTime.Some? {
      props := props["start" := Number(startTime.value as real)];
    }
    if endTime.Some? {
      props := props["end" := Number(endTime.value as real)];
    }
  }

  method AddVideoToSlide(slideId: string, videoUrl: string, position: Position, autoPlay: bool,
                         startTime: Option<int>, endTime: Option<int>, mute: bool,
                         videoId: string, slidesAfter: seq<Slide>)
    returns (requests: seq<Request>, report: SlideReport)
    ensures |requests| == 1 && requests[0].CreateVideo?
    ensures requests[0].objectId == videoId && requests[0].source == "YOUTUBE" && requests[0].url == videoUrl
    ensures requests[0].props == PtProperties(slideId, position)
    ensures VideoPropertiesOf(requests[0].videoProperties, autoPlay, mute, startTime, endTime)
    ensures report == Report("Added video from " + videoUrl + " to slide " + slideId, slidesAfter, slideId)
  {
    var props := VideoProperties(autoPlay, mute, startTime, endTime);
    requests := [CreateVideo(videoId, "YOUTUBE", videoUrl, PtProperties(slideId, position), props)];
    report := ReportExport("Added video from " + videoUrl + " to slide " + slideId, slidesAfter, slideId);
  }

  // ---------------------------------------------------------------------------
  // insert_audio_link

  const AudioStyleKeys := ["link", "underline", "foregroundColor"]

  /** The link colour: red 0, green 0, blue 0.8. */
  const LinkBlue := RgbColor(0.0, 0.0, 0.8)

  function AudioLinkStyle(audioUrl: string): StyleMap
  {
    map["link" := Link(audioUrl), "underline" := Bool(true), "foregroundColor" := OpaqueColor(LinkBlue)]
  }

  /** A text box, its text, and a style over all of it that makes it a link. */
  function AudioLinkRequests(textBoxId: string, slideId: string, audioUrl: string, position: Position, linkText: string)
    : (r: seq<Request>)
    ensures |r| == 3
    ensures r[0] == CreateShape(textBoxId, "TEXT_BOX", PtProperties(slideId, position))
    ensures r[1] == InsertText(textBoxId, linkText)
    ensures r[2].UpdateTextStyle? && r[2].objectId == textBoxId && r[2].textRange == Some(AllText)
    ensures r[2].fields == "link,underline,foregroundColor"
    ensures r[2].style.Keys == {"link", "underline", "foregroundColor"}
    ensures r[2].style["link"] == Link(audioUrl) && r[2].style["underline"] == Bool(true)
    ensures r[2].style["foregroundColor"] == OpaqueColor(RgbColor(0.0, 0.0, 0.8))
  {
    [CreateShape(textBoxId, "TEXT_BOX", PtProperties(slideId, position)),
     InsertText(textBoxId, linkText),
     UpdateTextStyle(textBoxId, Some(AllText), AudioLinkStyle(audioUrl), "link,underline,foregroundColor")]
  }

  lemma AudioKeysJoined()
    ensures Join(AudioStyleKeys) == "link,underline,foregroundColor"
  {
    assert AudioStyleKeys[1..][1..] == ["foregroundColor"];
  }

  lemma AudioKeysCommaFree()
    ensures forall k :: 0 <= k < |AudioStyleKeys| ==> CommaFree(AudioStyleKeys[k])
  {
    assert CommaFree("link");
    assert CommaFree("underline");
    assert CommaFree("foregroundColor");
  }

  /** The fields mask names exactly the keys of the style it goes with. */
  lemma AudioMaskMatchesStyle(textBoxId: string, slideId: string, audioUrl: string, position: Position, linkText: string)
    ensures var u := AudioLinkRequests(textBoxId, slideId, audioUrl, position, linkText)[2];
      Split(u.fields) == AudioStyleKeys
      && forall k :: k in u.style <==> k in Split(u.fields)
  {
    AudioKeysJoined();
    AudioKeysCommaFree();
    SplitJoin(AudioStyleKeys);
  }

  method InsertAudioLink(slideId: string, audioUrl: string, position: Position, linkText: string,
                         textBoxId: string, slidesAfter: seq<Slide>)
    returns (requests: seq<Request>, report: SlideReport)
    ensures requests == AudioLinkRequests(textBoxId, slideId, audioUrl, position, linkText)
    ensures report == Report("Added audio link '" + linkText + "' to slide " + slideId, slidesAfter, slideId)
  {
    requests := AudioLinkRequests(textBoxId, slideId, audioUrl, position, linkText);
    report := ReportExport("Added audio link '" + linkText + "' to slide " + slideId, slidesAfter, slideId);
  }

  // ---------------------------------------------------------------------------
  // add_shape_to_slide and create_shape

  /** createShape, then updateShapeProperties on the same id only when a fill
      colour is given. */
  method ShapeRequests(shapeId: string, slideId: string, shapeType: string, position: Position, fillColor: Option<RgbColor>)
    returns (requests: seq<Request>)
    ensures |requests| == if fillColor.Some? then 2 else 1
    ensures requests[0] == CreateShape(shapeId, shapeType, PtProperties(slideId, position))
    ensures fillColor.Some? ==>
      requests[1] == UpdateShapeProperties(shapeId, "shapeBackgroundFill.solidFill.color", fillColor.value)
    ensures forall k :: 0 <= k < |requests| ==> requests[k].objectId == shapeId
  {
    requests := [CreateShape(shapeId, shapeType, PtProperties(slideId, position))];
    if fillColor.Some? {
      requests := requests + [UpdateShapeProperties(shapeId, "shapeBackgroundFill.solidFill.color", fillColor.value)];
    }
  }

  method AddShapeToSlide(slideId: string, shapeType: string, position: Position, fillColor: Option<RgbColor>,
                         shapeId: string, slidesAfter: seq<Slide>)
    returns (requests: seq<Request>, report: SlideReport)
    ensures |requests| == (if fillColor.Some? then 2 else 1)
    ensures requests[0] == CreateShape(shapeId, shapeType, PtProperties(slideId, position))
    ensures fillColor.Some? ==>
      requests[1] == UpdateShapeProperties(shapeId, "shapeBackgroundFill.solidFill.color", fillColor.value)
    ensures report == Report("Added " + shapeType + " shape to slide " + slideId, slidesAfter, slideId)
  {
    requests := ShapeRequests(shapeId, slideId, shapeType, position, fillColor);
    report := ReportExport("Added " + shapeType + " shape to slide " + slideId, slidesAfter, slideId);
  }

  /** The same requests; the result is the objectId of the createShape reply. */
  method CreateShapeTool(slideId: string, shapeType: string, position: Position, fillColor: Option<RgbColor>,
                         shapeId: string, response: BatchResponse)
    returns (requests: seq<Request>, objectId: Result<Option<string>>)
    ensures |requests| == (if fillColor.Some? then 2 else 1)
    ensures requests[0] == CreateShape(shapeId, shapeType, PtProperties(slideId, position))
    ensures fillColor.Some? ==>
      requests[1] == UpdateShapeProperties(shapeId, "shapeBackgroundFill.solidFill.color", fillColor.value)
    ensures objectId == FirstReplyObjectId(response, "createShape")
  {
    requests := ShapeRequests(shapeId, slideId, shapeType, position, fillColor);
    objectId := FirstReplyObjectId(response, "createShape");
  }

  // ---------------------------------------------------------------------------
  // group_elements and ungroup_elements

  method GroupElements(elementIds: seq<string>, response: BatchResponse)
    returns (requests: seq<Request>, groupId: Result<Option<string>>)
    ensures requests == [CreateGroup(elementIds)]
    ensures groupId == FirstReplyObjectId(response, "createGroup")
  {
    requests := [CreateGroup(elementIds)];
    groupId := FirstReplyObjectId(response, "createGroup");
  }

  /** One ungroupObjects naming just the group; the tool returns an empty dict. */
  function UngroupRequests(groupId: string): (r: seq<Request>)
    ensures |r| == 1 && r[0].UngroupObjects? && r[0].objectIds == [groupId]
  {
    [UngroupObjects([groupId])]
  }

  /** The ungroupObjects request for the id group_elements reports names that id,
      the one the first reply's createGroup carries, and nothing else. */
  lemma UngroupNamesReportedGroup(elementIds: seq<string>, response: BatchResponse)
    requires FirstReplyObjectId(response, "createGroup").Ok?
    requires FirstReplyObjectId(response, "createGroup").value.Some?
    ensures var g := FirstReplyObjectId(response, "createGroup").value.value;
      response.replies.Some? && response.replies.value[0]["createGroup"] == Some(g)
      && UngroupRequests(g)[0].objectIds == [g]
  {
  }
}
