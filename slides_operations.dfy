/** slides_operations.py: adding a slide with a layout, deleting, reordering
    and duplicating slides, each followed by PDF exports that are represented
    by the slide index they are asked for. */
module SlidesOperations {
  import opened SlidesApi
  import opened Lookup
  import Drive

  // ---------------------------------------------------------------------------
  // add_slide: layout selection

  /** `if layout_id:` on an objectId that may be missing or empty. */
  predicate Truthy(id: Option<string>)
  {
    id.Some? && id.value != ""
  }

  /** The fallback: the first layout of the first master, else an empty
      slideLayoutReference. */
  function FallbackReference(masters: seq<Master>): (r: LayoutReference)
    ensures r.LayoutId? <==> |masters| > 0 && |masters[0].layouts| > 0 && masters[0].layouts[0].objectId != ""
    ensures r.LayoutId? ==> r.layoutId == masters[0].layouts[0].objectId
    ensures !r.PredefinedLayout?
  {
    if |masters| > 0 && |masters[0].layouts| > 0 && masters[0].layouts[0].objectId != "" then
      LayoutId(masters[0].layouts[0].objectId)
    else
      EmptyReference
  }

  /** The last element of a list, if any. */
  function LastLayout(ls: seq<Layout>): Option<Layout>
  {
    if |ls| == 0 then None else Some(ls[|ls| - 1])
  }

  lemma LastLayoutAppend(a: seq<Layout>, b: seq<Layout>)
    ensures LastLayout(a + b) == if |b| > 0 then Some(b[|b| - 1]) else LastLayout(a)
  {
    if |b| == 0 {
      assert a + b == a;
    }
  }

  /** What the text of the createSlide objectId is built from as written: the
      inner loop rebinds the name `layout`, so once any master has a layout it
      is the last layout dict iterated (its text is `layoutText`), not the
      requested name. */
  function AddSlideRequestAsWritten(masters: seq<Master>, layout: string, layoutText: Layout -> string): Request
  {
    var last := LastLayout(AllLayouts(masters));
    CreateSlide("slide_" + (if last.Some? then layoutText(last.value) else layout), 1, FallbackReference(masters))
  }

  /** The objectId of the first layout named `name` in the first master that
      has one with a non-empty objectId, as the loops do once the loop
      variable no longer shadows the argument. */
  function MatchedLayoutId(masters: seq<Master>, name: string): (r: Option<string>)
    ensures r.Some? ==> r.value != ""
  {
    if |masters| == 0 then None
    else
      var k := FirstNamedIndex(masters[0].layouts, name);
      if k.Some? && masters[0].layouts[k.value].objectId != "" then Some(masters[0].layouts[k.value].objectId)
      else MatchedLayoutId(masters[1..], name)
  }

  /** The layout the corrected add_slide refers to. */
  function LayoutFor(masters: seq<Master>, name: string): LayoutReference
  {
    match MatchedLayoutId(masters, name)
    case Some(id) => LayoutId(id)
    case None => FallbackReference(masters)
  }

  function AddSlideRequest(masters: seq<Master>, layout: string): Request
  {
    CreateSlide("slide_" + layout, 1, LayoutFor(masters, layout))
  }

  /** Every layout carries a non-empty objectId, as the API guarantees. */
  predicate LayoutIdsSet(masters: seq<Master>)
  {
    forall i, j :: 0 <= i < |masters| && 0 <= j < |masters[i].layouts| ==> masters[i].layouts[j].objectId != ""
  }

  /** With every objectId set, the corrected search is the first layout of
      that name in all the layouts, master by master. */
  lemma {:induction false} MatchedIsFirstNamed(masters: seq<Master>, name: string)
    requires LayoutIdsSet(masters)
    ensures var k := FirstNamedIndex(AllLayouts(masters), name);
      MatchedLayoutId(masters, name) == if k.Some? then Some(AllLayouts(masters)[k.value].objectId) else None
  {
    if |masters| > 0 {
      assert LayoutIdsSet(masters[1..]) by {
        forall i, j | 0 <= i < |masters[1..]| && 0 <= j < |masters[1..][i].layouts|
          ensures masters[1..][i].layouts[j].objectId != ""
        {
          assert masters[1..][i] == masters[i + 1];
        }
      }
      MatchedIsFirstNamed(masters[1..], name);
      FirstNamedIndexAppend(masters[0].layouts, AllLayouts(masters[1..]), name);
      var k := FirstNamedIndex(masters[0].layouts, name);
      if k.Some? {
        assert AllLayouts(masters)[k.value] == masters[0].layouts[k.value];
      } else {
        var k2 := FirstNamedIndex(AllLayouts(masters[1..]), name);
        if k2.Some? {
          assert AllLayouts(masters)[|masters[0].layouts| + k2.value] == AllLayouts(masters[1..])[k2.value];
        }
      }
    }
  }

  /** The corrected request refers to the first layout with the requested
      displayName whenever there is one, and to the fallback otherwise. */
  lemma AddSlideFindsLayout(masters: seq<Master>, layout: string)
    requires LayoutIdsSet(masters)
    ensures var k := FirstNamedIndex(AllLayouts(masters), layout);
      AddSlideRequest(masters, layout).layout ==
        if k.Some? then LayoutId(AllLayouts(masters)[k.value].objectId) else FallbackReference(masters)
    ensures AddSlideRequest(masters, layout).objectId == "slide_" + layout
    ensures AddSlideRequest(masters, layout).insertionIndex == 1
  {
    MatchedIsFirstNamed(masters, layout);
  }

  /** As written, the layout chosen does not depend on the name asked for. */
  lemma AsWrittenIgnoresName(masters: seq<Master>, a: string, b: string, layoutText: Layout -> string)
    ensures AddSlideRequestAsWritten(masters, a, layoutText).layout == AddSlideRequestAsWritten(masters, b, layoutText).layout
    ensures AddSlideRequestAsWritten(masters, a, layoutText).layout == FallbackReference(masters)
  {
  }

  /** One master with a TITLE layout and then a BLANK one: asked for BLANK, the
      code as written refers to the TITLE layout; the corrected code to BLANK. */
  lemma AddSlideLayoutMismatch(layoutText: Layout -> string)
    ensures var masters := [Master([Layout("p1", Some("TITLE"), None), Layout("p2", Some("BLANK"), None)])];
      AddSlideRequestAsWritten(masters, "BLANK", layoutText).layout == LayoutId("p1")
      && AddSlideRequest(masters, "BLANK").layout == LayoutId("p2")
  {
    var ls := [Layout("p1", Some("TITLE"), None), Layout("p2", Some("BLANK"), None)];
    var masters := [Master(ls)];
    assert ls[1..][0].displayName == Some("BLANK");
    assert FirstNamedIndex(ls[1..], "BLANK") == Some(0);
    assert FirstNamedIndex(ls, "BLANK") == Some(1);
    assert MatchedLayoutId(masters, "BLANK") == Some("p2");
  }

  // ---------------------------------------------------------------------------
  // add_slide: the tool

  /** The new slide's id from the createSlide reply, and the slide index whose
      PDF is exported: always 1. */
  datatype AddedSlide = AddedSlide(slideId: Option<string>, exportedSlide: nat)

  /** The nested loops as written. The displayName, a string or None, is
      compared with the layout dict itself, which it never equals, so the
      objectId branch of the loop is never taken and `layout_id` stays None;
      only the rebinding of `layout` survives the loops. */
  method AddSlideAsWritten(masters: seq<Master>, layout: string, layoutText: Layout -> string, response: BatchResponse)
    returns (request: Request, r: Result<AddedSlide>)
    ensures request == AddSlideRequestAsWritten(masters, layout, layoutText)
    ensures r == match FirstReplyObjectId(response, "createSlide")
                 case Ok(id) => Ok(AddedSlide(id, 1))
                 case Err(e) => Err(e)
  {
    var layoutId: Option<string> := None;
    var rebound: Option<Layout> := None;  // `layout`, once the inner loop has rebound it
    var i := 0;
    while i < |masters|
      invariant 0 <= i <= |masters|
      invariant rebound == LastLayout(AllLayouts(masters[..i]))
    {
      var ls := masters[i].layouts;
      var j := 0;
      while j < |ls|
        invariant 0 <= j <= |ls|
        invariant rebound == if j == 0 then LastLayout(AllLayouts(masters[..i])) else Some(ls[j - 1])
      {
        rebound := Some(ls[j]);
        j := j + 1;
      }
      assert masters[..i + 1] == masters[..i] + [masters[i]];
      AllLayoutsAppend(masters[..i], [masters[i]]);
      assert AllLayouts([masters[i]]) == ls;
      LastLayoutAppend(AllLayouts(masters[..i]), ls);
      i := i + 1;
    }
    assert masters[..|masters|] == masters;
    if !Truthy(layoutId) && |masters| > 0 && |masters[0].layouts| > 0 {
      layoutId := Some(masters[0].layouts[0].objectId);
    }
    var name := if rebound.Some? then layoutText(rebound.value) else layout;
    request := CreateSlide("slide_" + name, 1, if Truthy(layoutId) then LayoutId(layoutId.value) else EmptyReference);
    var slideId := FirstReplyObjectId(response, "createSlide");
    if slideId.Err? {
      return request, Err(slideId.error);
    }
    r := Ok(AddedSlide(slideId.value, 1));
  }

  /** The nested loops with the loop variable renamed: the inner loop takes the
      first layout of the master with the requested displayName; the outer one
      stops once an objectId is found. */
  method AddSlide(masters: seq<Master>, layout: string, response: BatchResponse)
    returns (request: Request, r: Result<AddedSlide>)
    ensures request == AddSlideRequest(masters, layout)
    ensures r == match FirstReplyObjectId(response, "createSlide")
                 case Ok(id) => Ok(AddedSlide(id, 1))
                 case Err(e) => Err(e)
  {
    var layoutId: Option<string> := None;
    var i := 0;
    while i < |masters|
      invariant 0 <= i <= |masters|
      invariant !Truthy(layoutId)
      invariant MatchedLayoutId(masters[i..], layout) == MatchedLayoutId(masters, layout)
    {
      var ls := masters[i].layouts;
      var j := 0;
      while j < |ls|
        invariant 0 <= j <= |ls|
        invariant forall t :: 0 <= t < j ==> ls[t].displayName != Some(layout)
      {
        if ls[j].displayName == Some(layout) {
          layoutId := Some(ls[j].objectId);
          break;
        }
        j := j + 1;
      }
      assert masters[i..][0] == masters[i] && masters[i..][1..] == masters[i + 1..];
      if Truthy(layoutId) {
        assert layoutId == MatchedLayoutId(masters[i..], layout);
        break;
      }
      i := i + 1;
    }
    if !Truthy(layoutId) && |masters| > 0 && |masters[0].layouts| > 0 {
      layoutId := Some(masters[0].layouts[0].objectId);
    }
    request := CreateSlide("slide_" + layout, 1, if Truthy(layoutId) then LayoutId(layoutId.value) else EmptyReference);
    var slideId := FirstReplyObjectId(response, "createSlide");
    if slideId.Err? {
      return request, Err(slideId.error);
    }
    r := Ok(AddedSlide(slideId.value, 1));
  }

  // ---------------------------------------------------------------------------
  // delete_slide

  function DeleteSlideRequests(slideId: string): seq<Request>
  {
    [DeleteObject(slideId)]
  }

  /** The batch removes exactly the slide named, keeping every other slide. */
  lemma DeleteSlideRemoves(slides: seq<Slide>, slideId: string, s: Slide)
    ensures s in Drive.RemoveSlides(slides, Drive.DeletedIds(DeleteSlideRequests(slideId))) <==>
      s in slides && s.objectId != slideId
  {
    var requests := DeleteSlideRequests(slideId);
    assert requests[..0] == [];
    assert Drive.DeletedIds(requests) == {slideId};
    Drive.RemoveSlidesMember(slides, {slideId}, s);
  }

  // ---------------------------------------------------------------------------
  // reorder_slides

  /** One updateSlidesPosition per id, each moving that single slide to the
      same insertion index. */
  function ReorderRequests(slideIds: seq<string>, insertionIndex: int): (r: seq<Request>)
    ensures |r| == |slideIds|
    ensures forall k :: 0 <= k < |r| ==> r[k] == UpdateSlidesPosition([slideIds[k]], insertionIndex)
  {
    if |slideIds| == 0 then []
    else ReorderRequests(slideIds[..|slideIds| - 1], insertionIndex)
         + [UpdateSlidesPosition([slideIds[|slideIds| - 1]], insertionIndex)]
  }

  /** The slide ids a batch of updateSlidesPosition requests moves, in order. */
  function MovedIds(requests: seq<Request>): seq<string>
  {
    if |requests| == 0 then []
    else
      var last := requests[|requests| - 1];
      MovedIds(requests[..|requests| - 1]) + (if last.UpdateSlidesPosition? then last.slideObjectIds else [])
  }

  /** Every id asked for is moved, once and in the order given. */
  lemma {:induction false} MovedIdsOfReorder(slideIds: seq<string>, insertionIndex: int)
    ensures MovedIds(ReorderRequests(slideIds, insertionIndex)) == slideIds
  {
    if |slideIds| > 0 {
      var init := slideIds[..|slideIds| - 1];
      var r := ReorderRequests(slideIds, insertionIndex);
      assert r[..|r| - 1] == ReorderRequests(init, insertionIndex);
      MovedIdsOfReorder(init, insertionIndex);
      assert slideIds == init + [slideIds[|slideIds| - 1]];
    }
  }

  /** The loop over slide_ids; the ids are returned as given. */
  method ReorderSlides(slideIds: seq<string>, insertionIndex: int) returns (requests: seq<Request>, moved: seq<string>)
    ensures requests == ReorderRequests(slideIds, insertionIndex)
    ensures moved == slideIds
  {
    requests := [];
    for i := 0 to |slideIds|
      invariant requests == ReorderRequests(slideIds[..i], insertionIndex)
    {
      assert slideIds[..i + 1][..i] == slideIds[..i];
      requests := requests + [UpdateSlidesPosition([slideIds[i]], insertionIndex)];
    }
    assert slideIds[..|slideIds|] == slideIds;
    moved := slideIds;
  }

  // ---------------------------------------------------------------------------
  // duplicate_slide

  /** The duplicate's id from the reply and the index of the slide exported:
      the first slide of the re-fetched presentation with that id, if any. */
  datatype DuplicatedSlide = DuplicatedSlide(slideId: Option<string>, exportedSlide: Option<nat>)

  function DuplicateResult(response: BatchResponse, slidesAfter: seq<Slide>): (r: Result<DuplicatedSlide>)
    ensures r.Err? <==> response.replies == Some([])
    ensures r.Ok? && r.value.exportedSlide.Some? ==>
      r.value.slideId.Some? && r.value.exportedSlide.value < |slidesAfter|
      && slidesAfter[r.value.exportedSlide.value].objectId == r.value.slideId.value
    ensures r.Ok? && r.value.slideId.Some? && r.value.exportedSlide.None? ==>
      forall j :: 0 <= j < |slidesAfter| ==> slidesAfter[j].objectId != r.value.slideId.value
    ensures r.Ok? ==> (r.value.slideId.Some? <==>
      response.replies.Some? && "duplicateObject" in response.replies.value[0]
      && response.replies.value[0]["duplicateObject"].Some?)
    ensures r.Ok? && r.value.slideId.Some? ==> r.value.slideId == response.replies.value[0]["duplicateObject"]
    ensures r.Ok? && r.value.slideId.Some? ==>
      r.value.exportedSlide == FirstSlideIndex(slidesAfter, r.value.slideId.value)
  {
    match FirstReplyObjectId(response, "duplicateObject")
    case Err(e) => Err(e)
    case Ok(None) => Ok(DuplicatedSlide(None, None))
    case Ok(Some(id)) => Ok(DuplicatedSlide(Some(id), FirstSlideIndex(slidesAfter, id)))
  }

  function NotFound(slideId: string): Error
  {
    ValueError("Slide with ID " + slideId + " not found in presentation")
  }

  /** A slide absent from the presentation is reported before any batch is
      sent; otherwise one duplicateObject is sent and the reply read. */
  method DuplicateSlide(slidesBefore: seq<Slide>, slideId: string, response: BatchResponse, slidesAfter: seq<Slide>)
    returns (requests: seq<Request>, r: Result<DuplicatedSlide>)
    ensures FirstSlideIndex(slidesBefore, slideId).None? ==> requests == [] && r == Err(NotFound(slideId))
    ensures FirstSlideIndex(slidesBefore, slideId).Some? ==>
      requests == [DuplicateObject(slideId)] && r == DuplicateResult(response, slidesAfter)
  {
    var index := FindSlideIndex(slidesBefore, slideId);
    if index.None? {
      return [], Err(NotFound(slideId));
    }
    requests := [DuplicateObject(slideId)];
    var newId := FirstReplyObjectId(response, "duplicateObject");
    if newId.Err? {
      return requests, Err(newId.error);
    }
    var newIndex: Option<nat> := None;
    if newId.value.Some? {
      newIndex := FindSlideIndex(slidesAfter, newId.value.value);
    }
    r := Ok(DuplicatedSlide(newId.value, newIndex));
  }
}
