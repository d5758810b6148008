/** The scans that nearly every tool repeats over a fetched presentation: the
    first slide with a given objectId, the first slide that owns an element, the
    text of a shape (its text runs concatenated), the first element that
    satisfies a match rule, and the objectId in the first batchUpdate reply. */
module Lookup {
  import opened SlidesApi
  import opened Text

  // ---------------------------------------------------------------------------
  // First slide whose objectId matches

  /** The index of the first slide whose objectId is `id`, if any. */
  function FirstSlideIndex(slides: seq<Slide>, id: string): (r: Option<nat>)
    ensures r.Some? ==> r.value < |slides| && slides[r.value].objectId == id
    ensures r.Some? ==> forall j :: 0 <= j < r.value ==> slides[j].objectId != id
    ensures r.None? <==> forall j :: 0 <= j < |slides| ==> slides[j].objectId != id
  {
    if |slides| == 0 then None
    else if slides[0].objectId == id then Some(0)
    else match FirstSlideIndex(slides[1..], id)
      case None => None
      case Some(k) => Some(k + 1)
  }

  /** `for i, slide in enumerate(slides): if slide.get('objectId') == id: slide_index = i; break` */
  method FindSlideIndex(slides: seq<Slide>, id: string) returns (index: Option<nat>)
    ensures index == FirstSlideIndex(slides, id)
  {
    index := None;
    var i := 0;
    while i < |slides|
      invariant 0 <= i <= |slides|
      invariant forall j :: 0 <= j < i ==> slides[j].objectId != id
    {
      if slides[i].objectId == id {
        index := Some(i);
        return;
      }
      i := i + 1;
    }
  }

  /** No two slides share an objectId, as the Slides API guarantees. */
  predicate DistinctIds(slides: seq<Slide>)
  {
    forall a, b :: 0 <= a < b < |slides| ==> slides[a].objectId != slides[b].objectId
  }

  /** On slides with distinct ids, the index found for the id at position i is i. */
  lemma FirstSlideIndexOfDistinct(slides: seq<Slide>, i: nat)
    requires i < |slides|
    requires DistinctIds(slides)
    ensures FirstSlideIndex(slides, slides[i].objectId) == Some(i)
  {
  }

  // ---------------------------------------------------------------------------
  // First slide that owns an element

  predicate Owns(slide: Slide, elementId: string)
  {
    exists j :: 0 <= j < |slide.pageElements| && slide.pageElements[j].objectId == elementId
  }

  predicate OwnsAt(slides: seq<Slide>, i: int, elementId: string)
  {
    0 <= i < |slides| && Owns(slides[i], elementId)
  }

  /** The index of the first slide with a page element whose objectId is `elementId`. */
  function OwnerSlideIndex(slides: seq<Slide>, elementId: string): (r: Option<nat>)
    ensures r.Some? ==> r.value < |slides| && Owns(slides[r.value], elementId)
    ensures r.Some? ==> forall j :: 0 <= j < r.value ==> !Owns(slides[j], elementId)
    ensures r.None? <==> forall j :: 0 <= j < |slides| ==> !Owns(slides[j], elementId)
  {
    if |slides| == 0 then None
    else if Owns(slides[0], elementId) then Some(0)
    else match OwnerSlideIndex(slides[1..], elementId)
      case None => None
      case Some(k) => Some(k + 1)
  }

  /** The nested scan with two breaks that formatting tools use to find the
      slide to re-export after a style change. */
  method FindOwnerSlide(slides: seq<Slide>, elementId: string) returns (index: Option<nat>)
    ensures index == OwnerSlideIndex(slides, elementId)
  {
    index := None;
    var i := 0;
    while i < |slides|
      invariant 0 <= i <= |slides|
      invariant index.None?
      invariant forall k :: 0 <= k < i ==> !Owns(slides[k], elementId)
    {
      var elements := slides[i].pageElements;
      var j := 0;
      while j < |elements|
        invariant 0 <= j <= |elements|
        invariant index == None || (index == Some(i) && OwnsAt(slides, i, elementId))
        invariant index.None? ==> forall m :: 0 <= m < j ==> elements[m].objectId != elementId
      {
        if elements[j].objectId == elementId {
          index := Some(i);
          break;
        }
        j := j + 1;
      }
      if index.Some? {
        break;
      }
      i := i + 1;
    }
  }

  // ---------------------------------------------------------------------------
  // Text of a shape

  function RunText(t: TextElement): string
  {
    match t
    case TextRun(content) => content.GetOr("")
    case OtherTextElement => ""
  }

  /** The text runs' contents concatenated in order; other text elements add nothing. */
  function TextContent(ts: seq<TextElement>): string
  {
    if |ts| == 0 then "" else TextContent(ts[..|ts| - 1]) + RunText(ts[|ts| - 1])
  }

  /** TextContent distributes over concatenation of text-element lists. */
  lemma {:induction false} TextContentAppend(a: seq<TextElement>, b: seq<TextElement>)
    ensures TextContent(a + b) == TextContent(a) + TextContent(b)
  {
    if |b| > 0 {
      assert (a + b)[..|a + b| - 1] == a + b[..|b| - 1];
      TextContentAppend(a, b[..|b| - 1]);
    } else {
      assert a + b == a;
    }
  }

  /** `text_content = ""; for te in textElements: if 'textRun' in te: text_content += ...` */
  method ConcatTextRuns(ts: seq<TextElement>) returns (text: string)
    ensures text == TextContent(ts)
  {
    text := "";
    var i := 0;
    while i < |ts|
      invariant 0 <= i <= |ts|
      invariant text == TextContent(ts[..i])
    {
      assert ts[..i + 1][..i] == ts[..i];
      if ts[i].TextRun? {
        text := text + ts[i].content.GetOr("");
      }
      i := i + 1;
    }
    assert ts[..|ts|] == ts;
  }

  /** The text of an element that is a shape with a 'text' key; None otherwise. */
  function ShapeText(e: PageElement): Option<string>
  {
    if e.shape.Some? && e.shape.value.text.Some? then Some(TextContent(e.shape.value.text.value)) else None
  }

  /** `search.lower() in text.lower()` for the text of a shape-with-text element. */
  predicate TextMatches(e: PageElement, search: string)
  {
    ShapeText(e).Some? && Contains(Lower(search), Lower(ShapeText(e).value))
  }

  /** The same test, computed the way the tools do it (concatenating the runs). */
  method MatchesText(e: PageElement, search: string) returns (b: bool)
    ensures b == TextMatches(e, search)
  {
    b := false;
    if e.shape.Some? && e.shape.value.text.Some? {
      var content := ConcatTextRuns(e.shape.value.text.value);
      b := Contains(Lower(search), Lower(content));
    }
  }

  // ---------------------------------------------------------------------------
  // First element satisfying a match rule

  /** The objectId of the first element satisfying `m`. */
  function SearchElements(elements: seq<PageElement>, m: PageElement -> bool): Option<string>
  {
    if |elements| == 0 then None
    else if m(elements[0]) then Some(elements[0].objectId)
    else SearchElements(elements[1..], m)
  }

  /** The objectId of the first element satisfying `m`, in slide-then-element order. */
  function SearchSlides(slides: seq<Slide>, m: PageElement -> bool): Option<string>
  {
    if |slides| == 0 then None
    else match SearchElements(slides[0].pageElements, m)
      case Some(id) => Some(id)
      case None => SearchSlides(slides[1..], m)
  }

  /** SearchElements finds exactly the first matching element. */
  lemma {:induction false} SearchElementsFirst(elements: seq<PageElement>, m: PageElement -> bool)
    ensures SearchElements(elements, m).None? <==> forall j :: 0 <= j < |elements| ==> !m(elements[j])
    ensures SearchElements(elements, m).Some? ==>
      exists j :: 0 <= j < |elements| && m(elements[j]) && SearchElements(elements, m).value == elements[j].objectId
              && forall k :: 0 <= k < j ==> !m(elements[k])
  {
    if |elements| > 0 && !m(elements[0]) {
      SearchElementsFirst(elements[1..], m);
      if SearchElements(elements, m).Some? {
        var j :| 0 <= j < |elements[1..]| && m(elements[1..][j]) && SearchElements(elements[1..], m).value == elements[1..][j].objectId
                && forall k :: 0 <= k < j ==> !m(elements[1..][k]);
        assert m(elements[j + 1]) && forall k :: 0 <= k < j + 1 ==> !m(elements[k]);
      } else {
        forall j | 0 <= j < |elements| ensures !m(elements[j]) {
          if j > 0 { assert elements[j] == elements[1..][j - 1]; }
        }
      }
    } else if |elements| > 0 {
      assert m(elements[0]) && SearchElements(elements, m).value == elements[0].objectId;
    }
  }

  /** Whether any element of slides[i] satisfies m. */
  predicate SlideHasMatch(slide: Slide, m: PageElement -> bool)
  {
    exists j :: 0 <= j < |slide.pageElements| && m(slide.pageElements[j])
  }

  /** SearchSlides returns the first match of the first slide that has one, and
      nothing exactly when no element of any slide matches. */
  lemma {:induction false} SearchSlidesFirst(slides: seq<Slide>, m: PageElement -> bool)
    ensures SearchSlides(slides, m).None? <==> forall i :: 0 <= i < |slides| ==> !SlideHasMatch(slides[i], m)
    ensures SearchSlides(slides, m).Some? ==>
      exists i :: 0 <= i < |slides| && SlideHasMatch(slides[i], m)
              && (forall k :: 0 <= k < i ==> !SlideHasMatch(slides[k], m))
              && SearchSlides(slides, m) == SearchElements(slides[i].pageElements, m)
  {
    if |slides| > 0 {
      SearchElementsFirst(slides[0].pageElements, m);
      if SearchElements(slides[0].pageElements, m).None? {
        SearchSlidesFirst(slides[1..], m);
        if SearchSlides(slides, m).Some? {
          var i :| 0 <= i < |slides[1..]| && SlideHasMatch(slides[1..][i], m)
                  && (forall k :: 0 <= k < i ==> !SlideHasMatch(slides[1..][k], m))
                  && SearchSlides(slides[1..], m) == SearchElements(slides[1..][i].pageElements, m);
          assert forall k :: 0 <= k < i + 1 ==> !SlideHasMatch(slides[k], m) by {
            forall k | 0 <= k < i + 1 ensures !SlideHasMatch(slides[k], m) {
              if k > 0 { assert slides[k] == slides[1..][k - 1]; }
            }
          }
          assert slides[i + 1] == slides[1..][i];
        } else {
          forall i | 0 <= i < |slides| ensures !SlideHasMatch(slides[i], m) {
            if i > 0 { assert slides[i] == slides[1..][i - 1]; }
          }
        }
      } else {
        assert SlideHasMatch(slides[0], m);
      }
    }
  }

  /** The early-return loop over the elements of one slide. */
  method SearchElementsLoop(elements: seq<PageElement>, m: PageElement -> bool) returns (r: Option<string>)
    ensures r == SearchElements(elements, m)
  {
    var j := 0;
    while j < |elements|
      invariant 0 <= j <= |elements|
      invariant SearchElements(elements, m) == SearchElements(elements[j..], m)
    {
      assert elements[j..][1..] == elements[j + 1..];
      if m(elements[j]) {
        return Some(elements[j].objectId);
      }
      j := j + 1;
    }
    return None;
  }

  /** The nested early-return loop over all slides and their elements. */
  method SearchSlidesLoop(slides: seq<Slide>, m: PageElement -> bool) returns (r: Option<string>)
    ensures r == SearchSlides(slides, m)
  {
    var i := 0;
    while i < |slides|
      invariant 0 <= i <= |slides|
      invariant SearchSlides(slides, m) == SearchSlides(slides[i..], m)
    {
      assert slides[i..][1..] == slides[i + 1..];
      var found := SearchElementsLoop(slides[i].pageElements, m);
      if found.Some? {
        return found;
      }
      i := i + 1;
    }
    return None;
  }

  // ---------------------------------------------------------------------------
  // Layouts

  /** The layouts of all masters, master by master, each in its own order. */
  function AllLayouts(masters: seq<Master>): seq<Layout>
  {
    if |masters| == 0 then [] else masters[0].layouts + AllLayouts(masters[1..])
  }

  lemma {:induction false} AllLayoutsMember(masters: seq<Master>, l: Layout)
    ensures l in AllLayouts(masters) <==> exists i :: 0 <= i < |masters| && l in masters[i].layouts
  {
    if |masters| > 0 {
      AllLayoutsMember(masters[1..], l);
      if exists i :: 0 <= i < |masters| && l in masters[i].layouts {
        var i :| 0 <= i < |masters| && l in masters[i].layouts;
        if i > 0 {
          assert l in masters[1..][i - 1].layouts;
        }
      }
      if exists i :: 0 <= i < |masters[1..]| && l in masters[1..][i].layouts {
        var i :| 0 <= i < |masters[1..]| && l in masters[1..][i].layouts;
        assert l in masters[i + 1].layouts;
      }
    }
  }

  lemma {:induction false} AllLayoutsAppend(a: seq<Master>, b: seq<Master>)
    ensures AllLayouts(a + b) == AllLayouts(a) + AllLayouts(b)
  {
    if |a| > 0 {
      assert (a + b)[1..] == a[1..] + b;
      AllLayoutsAppend(a[1..], b);
    } else {
      assert a + b == b;
    }
  }

  /** The index of the first layout whose layoutProperties.displayName is `name`. */
  function FirstNamedIndex(layouts: seq<Layout>, name: string): (r: Option<nat>)
    ensures r.Some? ==> r.value < |layouts| && layouts[r.value].displayName == Some(name)
    ensures r.Some? ==> forall j :: 0 <= j < r.value ==> layouts[j].displayName != Some(name)
    ensures r.None? <==> forall j :: 0 <= j < |layouts| ==> layouts[j].displayName != Some(name)
  {
    if |layouts| == 0 then None
    else if layouts[0].displayName == Some(name) then Some(0)
    else match FirstNamedIndex(layouts[1..], name)
      case None => None
      case Some(k) => Some(k + 1)
  }

  /** Searching a concatenation finds the first list's match, else the
      second's, shifted. */
  lemma {:induction false} FirstNamedIndexAppend(a: seq<Layout>, b: seq<Layout>, name: string)
    ensures FirstNamedIndex(a + b, name) ==
      if FirstNamedIndex(a, name).Some? then FirstNamedIndex(a, name)
      else if FirstNamedIndex(b, name).Some? then Some(|a| + FirstNamedIndex(b, name).value)
      else None
  {
    if |a| == 0 {
      assert a + b == b;
    } else {
      assert (a + b)[0] == a[0];
      assert (a + b)[1..] == a[1..] + b;
      FirstNamedIndexAppend(a[1..], b, name);
    }
  }

  // ---------------------------------------------------------------------------
  // objectId of the first batchUpdate reply

  /** `response.get('replies', [{}])[0].get(kind, {}).get('objectId')`: a missing
      'replies' key or reply kind gives None; an empty replies list raises IndexError. */
  function FirstReplyObjectId(response: BatchResponse, kind: string): (r: Result<Option<string>>)
    ensures r.Err? <==> response.replies == Some([])
    ensures r.Ok? && r.value.Some? ==>
      response.replies.Some? && kind in response.replies.value[0] && response.replies.value[0][kind] == r.value
    ensures r.Ok? && r.value.None? ==>
      response.replies.None? || kind !in response.replies.value[0] || response.replies.value[0][kind].None?
  {
    match response.replies
    case None => Ok(None)
    case Some(replies) =>
      if |replies| == 0 then Err(IndexError)
      else if kind in replies[0] then Ok(replies[0][kind])
      else Ok(None)
  }
}
