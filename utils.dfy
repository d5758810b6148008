/** utils.py, the module variant of the helpers: the same id/index lookups and
    codecs (modelled once, in Helpers), a get_element_id_by_name with its own
    match rule, and a get_page_size that converts nothing. */
module Utils {
  import opened SlidesApi
  import opened Text
  import opened Lookup
  import Helpers

  // ---------------------------------------------------------------------------
  // get_element_id_by_name

  /** The placeholder test: the id contains 'title' and the name is 'title',
      or the id contains 'subtitle' and the name is 'subtitle', ignoring case. */
  predicate PlaceholderMatches(e: PageElement, name: string)
  {
    (Contains("title", Lower(e.objectId)) && Lower(name) == "title")
    || (Contains("subtitle", Lower(e.objectId)) && Lower(name) == "subtitle")
  }

  /** The utils.py rule for one element: the text test, then the placeholder test. */
  predicate ElementMatches(e: PageElement, name: string)
  {
    TextMatches(e, name) || PlaceholderMatches(e, name)
  }

  function MatchRule(name: string): PageElement -> bool
  {
    e => ElementMatches(e, name)
  }

  /** Whether testing `e` evaluates element_name.lower(): it does for a shape
      with text, and for an id containing 'title' (so also 'subtitle'). */
  predicate ReadsName(e: PageElement)
  {
    ShapeText(e).Some? || Contains("title", Lower(e.objectId))
  }

  /** The element loop; a None name raises AttributeError at the first element
      that reads it. */
  function ScanElements(elements: seq<PageElement>, name: Option<string>): Result<Option<string>>
  {
    if |elements| == 0 then Ok(None)
    else if name.None? then (if ReadsName(elements[0]) then Err(AttributeError) else ScanElements(elements[1..], name))
    else if ElementMatches(elements[0], name.value) then Ok(Some(elements[0].objectId))
    else ScanElements(elements[1..], name)
  }

  /** What get_element_id_by_name returns or raises. */
  function ElementIdByName(slides: seq<Slide>, slideId: string, elementName: Option<string>): Result<Option<string>>
  {
    match FirstSlideIndex(slides, slideId)
    case None => Err(Helpers.SlideNotFound(slideId))
    case Some(i) => ScanElements(slides[i].pageElements, elementName)
  }

  lemma {:induction false} ScanElementsSome(elements: seq<PageElement>, name: string)
    ensures ScanElements(elements, Some(name)) == Ok(SearchElements(elements, MatchRule(name)))
  {
    if |elements| > 0 {
      ScanElementsSome(elements[1..], name);
    }
  }

  /** With no name, the search raises exactly when some element reads the name. */
  lemma {:induction false} ScanElementsNoName(elements: seq<PageElement>)
    ensures ScanElements(elements, None) ==
      if exists j :: 0 <= j < |elements| && ReadsName(elements[j]) then Err(AttributeError) else Ok(None)
  {
    if |elements| > 0 {
      ScanElementsNoName(elements[1..]);
      if exists j :: 0 <= j < |elements| && ReadsName(elements[j]) {
        var j :| 0 <= j < |elements| && ReadsName(elements[j]);
        if j > 0 && !ReadsName(elements[0]) {
          assert ReadsName(elements[1..][j - 1]);
        }
      } else if |elements| > 1 {
        forall j | 0 <= j < |elements[1..]| ensures !ReadsName(elements[1..][j]) {
          assert elements[1..][j] == elements[j + 1];
        }
      }
    }
  }

  /** The slide must be present: ValueError exactly when no slide has that id. */
  lemma ElementIdByNameMissingSlide(slides: seq<Slide>, slideId: string, name: Option<string>)
    ensures ElementIdByName(slides, slideId, name) == Err(Helpers.SlideNotFound(slideId)) <==>
      forall j :: 0 <= j < |slides| ==> slides[j].objectId != slideId
  {
    if FirstSlideIndex(slides, slideId).Some? {
      var i := FirstSlideIndex(slides, slideId).value;
      if name.Some? {
        ScanElementsSome(slides[i].pageElements, name.value);
      } else {
        ScanElementsNoName(slides[i].pageElements);
      }
    }
  }

  /** With the slide found, the result is the first element of that slide
      satisfying the utils.py rule, and None exactly when none does. */
  lemma {:induction false} ElementIdByNameInSlide(slides: seq<Slide>, slideId: string, name: string, i: nat)
    requires FirstSlideIndex(slides, slideId) == Some(i)
    ensures ElementIdByName(slides, slideId, Some(name)).Ok?
    ensures ElementIdByName(slides, slideId, Some(name)).value.None? <==>
      forall j :: 0 <= j < |slides[i].pageElements| ==> !ElementMatches(slides[i].pageElements[j], name)
    ensures ElementIdByName(slides, slideId, Some(name)).value.Some? ==>
      exists j :: 0 <= j < |slides[i].pageElements|
        && ElementMatches(slides[i].pageElements[j], name)
        && ElementIdByName(slides, slideId, Some(name)).value.value == slides[i].pageElements[j].objectId
        && (forall l :: 0 <= l < j ==> !ElementMatches(slides[i].pageElements[l], name))
  {
    var m := MatchRule(name);
    var elements := slides[i].pageElements;
    ScanElementsSome(elements, name);
    SearchElementsFirst(elements, m);
    if SearchElements(elements, m).Some? {
      var j :| 0 <= j < |elements| && m(elements[j])
              && SearchElements(elements, m).value == elements[j].objectId
              && forall l :: 0 <= l < j ==> !m(elements[l]);
      assert ElementMatches(elements[j], name);
      assert forall l :: 0 <= l < j ==> !ElementMatches(elements[l], name);
    } else {
      assert forall j :: 0 <= j < |elements| ==> !m(elements[j]);
    }
  }

  /** Because 'subtitle' contains 'title', a subtitle placeholder also answers
      the name 'title'. */
  lemma SubtitleAnswersTitle(e: PageElement, name: string)
    requires Contains("subtitle", Lower(e.objectId))
    requires Lower(name) == "title"
    ensures ElementMatches(e, name)
  {
    var id := Lower(e.objectId);
    var k :| 0 <= k && k + 8 <= |id| && OccursAt("subtitle", id, k);
    assert id[k + 3..k + 8] == "subtitle"[3..];
    assert OccursAt("title", id, k + 3);
  }

  /** The two variants disagree: helpers.py matches an element by its title
      attribute, utils.py never looks at it. */
  lemma RulesDiffer()
    ensures var e := PageElement("image_1", None, Some("Logo"));
      Helpers.NameMatches(e, "logo") && !ElementMatches(e, "logo")
  {
    var e := PageElement("image_1", None, Some("Logo"));
    assert Lower("Logo") == "logo";
    assert Lower("image_1") == "image_1";
    assert !Contains("subtitle", "image_1") by { LongerNeverContained("subtitle", "image_1"); }
    assert Lower("logo") == "logo";
  }

  /** get_element_id_by_name: the slide scan with break, ValueError when it
      finds nothing, then the element loop concatenating text runs. */
  method GetElementIdByName(slides: seq<Slide>, slideId: string, elementName: Option<string>)
    returns (r: Result<Option<string>>)
    ensures r == ElementIdByName(slides, slideId, elementName)
  {
    var target := FindSlideIndex(slides, slideId);
    if target.None? {
      return Err(Helpers.SlideNotFound(slideId));
    }
    var elements := slides[target.value].pageElements;
    var j := 0;
    while j < |elements|
      invariant 0 <= j <= |elements|
      invariant ScanElements(elements, elementName) == ScanElements(elements[j..], elementName)
    {
      assert elements[j..][1..] == elements[j + 1..];
      var e := elements[j];
      var textHit := false;
      if e.shape.Some? && e.shape.value.text.Some? {
        if elementName.None? {
          return Err(AttributeError);
        }
        textHit := MatchesText(e, elementName.value);
      }
      if textHit {
        return Ok(Some(e.objectId));
      }
      var id := Lower(e.objectId);
      if Contains("title", id) {
        if elementName.None? {
          return Err(AttributeError);
        }
        if Lower(elementName.value) == "title" {
          return Ok(Some(e.objectId));
        }
      }
      if Contains("subtitle", id) && elementName.Some? && Lower(elementName.value) == "subtitle" {
        return Ok(Some(e.objectId));
      }
      j := j + 1;
    }
    return Ok(None);
  }

  // ---------------------------------------------------------------------------
  // get_page_size

  /** get_page_size: width and height passed through as {magnitude, unit},
      each key None when missing. */
  function PageSize(p: Presentation): (r: (Dimension, Dimension))
    ensures p.width.Some? ==> r.0 == p.width.value
    ensures p.height.Some? ==> r.1 == p.height.value
    ensures p.width.None? ==> r.0.magnitude.None? && r.0.unit.None?
    ensures p.height.None? ==> r.1.magnitude.None? && r.1.unit.None?
  {
    (p.width.GetOr(Dimension(None, None)), p.height.GetOr(Dimension(None, None)))
  }

  /** The helpers.py get_page_size is this one followed by the conversion to points. */
  lemma PageSizeVariants(p: Presentation)
    ensures Helpers.PageSize(p) == (Helpers.PointSize(Some(PageSize(p).0)), Helpers.PointSize(Some(PageSize(p).1)))
  {
  }
}
