/** templates.py: applying a top-level layout to a slide, duplicating a
    presentation, listing the top-level layouts, and the request batch that
    builds a custom template. */
module Templates {
  import opened SlidesApi
  import opened Text
  import opened Lookup
  import opened Responses
  import Drive

  // ---------------------------------------------------------------------------
  // apply_predefined_layout

  /** The objectId of the first top-level layout whose displayName is `name`,
      unless that objectId is missing (empty). */
  function NamedLayoutId(layouts: seq<Layout>, name: string): (r: Option<string>)
    ensures r.Some? ==> r.value != ""
    ensures r.Some? ==>
      exists k :: 0 <= k < |layouts| && layouts[k].displayName == Some(name) &&
        layouts[k].objectId == r.value && forall j :: 0 <= j < k ==> layouts[j].displayName != Some(name)
    ensures (forall j :: 0 <= j < |layouts| ==> layouts[j].displayName != Some(name)) ==> r.None?
    ensures r.Some? <==>
      exists k :: 0 <= k < |layouts| && layouts[k].displayName == Some(name) && layouts[k].objectId != "" &&
        forall j :: 0 <= j < k ==> layouts[j].displayName != Some(name)
  {
    var k := FirstNamedIndex(layouts, name);
    if k.Some? && layouts[k.value].objectId != "" then Some(layouts[k.value].objectId) else None
  }

  function LayoutNotFound(name: string): string
  {
    "Layout '" + name + "' not found"
  }

  function AppliedLayout(name: string, slideId: string): string
  {
    "Applied layout '" + name + "' to slide " + slideId
  }

  /** `slides` is the presentation fetched before the update: the slide index
      exported is looked up there. */
  method ApplyPredefinedLayout(layouts: seq<Layout>, slides: seq<Slide>, slideId: string, layoutName: string)
    returns (requests: seq<Request>, report: SlideReport)
    ensures NamedLayoutId(layouts, layoutName).None? ==>
      requests == [] && report == SlideReport(LayoutNotFound(layoutName), None)
    ensures NamedLayoutId(layouts, layoutName).Some? ==>
      requests == [UpdateSlideProperties(slideId, NamedLayoutId(layouts, layoutName).value, "layoutObjectId")]
      && report == Report(AppliedLayout(layoutName, slideId), slides, slideId)
  {
    var layoutId: Option<string> := None;
    var i := 0;
    while i < |layouts|
      invariant 0 <= i <= |layouts|
      invariant layoutId == None
      invariant forall j :: 0 <= j < i ==> layouts[j].displayName != Some(layoutName)
    {
      if layouts[i].displayName == Some(layoutName) {
        layoutId := Some(layouts[i].objectId);
        break;
      }
      i := i + 1;
    }
    if layoutId.None? || layoutId.value == "" {
      return [], SlideReport(LayoutNotFound(layoutName), None);
    }
    requests := [UpdateSlideProperties(slideId, layoutId.value, "layoutObjectId")];
    var slideIndex := FindSlideIndex(slides, slideId);
    report := SlideReport(AppliedLayout(layoutName, slideId), slideIndex);
  }

  // ---------------------------------------------------------------------------
  // duplicate_presentation

  /** The title of the copy: the one given, else "Copy of " and the original's name. */
  function CopyTitle(newTitle: Option<string>, originalName: string): (r: string)
    ensures newTitle.None? ==> r == "Copy of " + originalName
    ensures newTitle.Some? ==> r == newTitle.value
  {
    newTitle.GetOr("Copy of " + originalName)
  }

  function DuplicatedMessage(title: string, newId: string, exportContent: string): string
  {
    "Duplicated presentation as '" + title + "' with ID " + newId + ". " + exportContent
  }

  /** Reads the original's name, copies it under the chosen title (the copy
      gets the server's id `newId`), and reports the export's message
      `exportContent`. The original file is never changed. */
  method DuplicatePresentation(store: Drive.Store, presentationId: string, newTitle: Option<string>,
                               newId: string, getFails: bool, copyFails: bool, exportContent: string)
    returns (r: Result<string>)
    requires newId !in store.files
    modifies store
    ensures getFails || presentationId !in old(store.files) ==>
      r == Err(HttpError(presentationId)) && store.files == old(store.files)
      && store.log == old(store.log) + [Drive.FilesGet(presentationId)]
    ensures !getFails && presentationId in old(store.files) ==>
      var title := CopyTitle(newTitle, old(store.files)[presentationId].name);
      store.log == old(store.log) + [Drive.FilesGet(presentationId), Drive.FilesCopy(presentationId, title)]
    ensures !getFails && presentationId in old(store.files) && copyFails ==>
      r == Err(HttpError(presentationId)) && store.files == old(store.files)
    ensures !getFails && presentationId in old(store.files) && !copyFails ==>
      var title := CopyTitle(newTitle, old(store.files)[presentationId].name);
      r == Ok(DuplicatedMessage(title, newId, exportContent)) &&
      store.files == old(store.files)[newId := Drive.DriveFile(title, old(store.files)[presentationId].slides)]
  {
    var original := store.GetFile(presentationId, getFails);
    if original.Err? {
      return Err(original.error);
    }
    var title := CopyTitle(newTitle, original.value);
    var copied := store.CopyFile(presentationId, title, newId, copyFails);
    if copied.Err? {
      return Err(copied.error);
    }
    r := Ok(DuplicatedMessage(title, copied.value, exportContent));
  }

  // ---------------------------------------------------------------------------
  // list_available_layouts

  datatype LayoutInfo = LayoutInfo(id: string, name: string)

  /** One entry per top-level layout, in order. */
  method ListAvailableLayouts(layouts: seq<Layout>) returns (infos: seq<LayoutInfo>)
    ensures |infos| == |layouts|
    ensures forall k :: 0 <= k < |layouts| ==>
      infos[k] == LayoutInfo(layouts[k].objectId, layouts[k].displayName.GetOr("Unnamed Layout"))
  {
    infos := [];
    for i := 0 to |layouts|
      invariant |infos| == i
      invariant forall k :: 0 <= k < i ==>
        infos[k] == LayoutInfo(layouts[k].objectId, layouts[k].displayName.GetOr("Unnamed Layout"))
    {
      infos := infos + [LayoutInfo(layouts[i].objectId, layouts[i].displayName.GetOr("Unnamed Layout"))];
    }
  }

  // ---------------------------------------------------------------------------
  // create_custom_template

  /** A text element of a slide configuration; each key may be absent. */
  datatype TextElementConfig = TextElementConfig(
    height: Option<real>, width: Option<real>, x: Option<real>, y: Option<real>, text: Option<string>)

  /** A slide configuration: 'layout' and 'text_elements', each possibly absent. */
  datatype SlideConfig = SlideConfig(layout: Option<string>, textElements: Option<seq<TextElementConfig>>)

  function TemplateSlideId(i: nat): string
  {
    "template_slide_" + NatToString(i)
  }

  /** `text_{slide_id}_{len(requests)}` */
  function TextBoxId(slideId: string, n: nat): string
  {
    "text_" + slideId + "_" + NatToString(n)
  }

  function ElementPosition(e: TextElementConfig): Position
  {
    Position(e.x.GetOr(100.0), e.y.GetOr(100.0), e.width.GetOr(400.0), e.height.GetOr(100.0))
  }

  /** createShape and insertText for one text element, the id taken from the
      number `n` of requests already in the batch. */
  function ElementPair(slideId: string, e: TextElementConfig, n: nat): seq<Request>
  {
    var id := TextBoxId(slideId, n);
    [CreateShape(id, "TEXT_BOX", PtProperties(slideId, ElementPosition(e))), InsertText(id, e.text.GetOr(""))]
  }

  function AppendElements(rs: seq<Request>, slideId: string, es: seq<TextElementConfig>): seq<Request>
    decreases |es|
  {
    if |es| == 0 then rs else AppendElements(rs + ElementPair(slideId, es[0], |rs|), slideId, es[1..])
  }

  function SlideRequest(i: nat, c: SlideConfig): Request
  {
    CreateSlide(TemplateSlideId(i), i, PredefinedLayout(c.layout.GetOr("BLANK")))
  }

  function AppendSlide(rs: seq<Request>, i: nat, c: SlideConfig): seq<Request>
  {
    var rs' := rs + [SlideRequest(i, c)];
    match c.textElements
    case None => rs'
    case Some(es) => AppendElements(rs', TemplateSlideId(i), es)
  }

  function AppendSlides(rs: seq<Request>, configs: seq<SlideConfig>, i: nat): seq<Request>
    requires i <= |configs|
    decreases |configs| - i
  {
    if i == |configs| then rs else AppendSlides(AppendSlide(rs, i, configs[i]), configs, i + 1)
  }

  /** The whole batch: the configured slides, then the deletion of the default slide. */
  function TemplateRequests(configs: seq<SlideConfig>, defaultSlideId: string): seq<Request>
  {
    AppendSlides([], configs, 0) + [DeleteObject(defaultSlideId)]
  }

  function TemplateMessage(title: string, n: nat): string
  {
    "Created custom template '" + title + "' with " + NatToString(n) + " slides"
  }

  // The shape of the batch.

  /** Only createSlide, createShape and insertText; every createShape is
      named after its page and its own position in the batch and is followed
      by the insertText on the same id; every insertText follows its createShape. */
  predicate WellFormed(rs: seq<Request>)
  {
    (forall p :: 0 <= p < |rs| ==> rs[p].CreateSlide? || rs[p].CreateShape? || rs[p].InsertText?)
    && (forall p :: 0 <= p < |rs| && rs[p].CreateShape? ==>
         rs[p].objectId == TextBoxId(rs[p].props.pageObjectId, p)
         && p + 1 < |rs| && rs[p + 1].InsertText? && rs[p + 1].objectId == rs[p].objectId)
    && (forall p :: 0 <= p < |rs| && rs[p].InsertText? ==>
         0 < p && rs[p - 1].CreateShape? && rs[p - 1].objectId == rs[p].objectId)
  }

  lemma {:induction false} AppendElementsWellFormed(rs: seq<Request>, slideId: string, es: seq<TextElementConfig>)
    requires WellFormed(rs)
    ensures WellFormed(AppendElements(rs, slideId, es))
    decreases |es|
  {
    if |es| > 0 {
      var rs' := rs + ElementPair(slideId, es[0], |rs|);
      assert rs'[|rs|].props.pageObjectId == slideId;
      assert WellFormed(rs');
      AppendElementsWellFormed(rs', slideId, es[1..]);
    }
  }

  lemma AppendSlideWellFormed(rs: seq<Request>, i: nat, c: SlideConfig)
    requires WellFormed(rs)
    ensures WellFormed(AppendSlide(rs, i, c))
  {
    var rs' := rs + [SlideRequest(i, c)];
    assert WellFormed(rs');
    if c.textElements.Some? {
      AppendElementsWellFormed(rs', TemplateSlideId(i), c.textElements.value);
    }
  }

  lemma {:induction false} AppendSlidesWellFormed(rs: seq<Request>, configs: seq<SlideConfig>, i: nat)
    requires i <= |configs| && WellFormed(rs)
    ensures WellFormed(AppendSlides(rs, configs, i))
    decreases |configs| - i
  {
    if i < |configs| {
      AppendSlideWellFormed(rs, i, configs[i]);
      AppendSlidesWellFormed(AppendSlide(rs, i, configs[i]), configs, i + 1);
    }
  }

  /** The last request deletes the default slide, and no other request deletes
      anything; every text box is created with its text right after it. */
  lemma TemplateShape(configs: seq<SlideConfig>, defaultSlideId: string)
    ensures var r := TemplateRequests(configs, defaultSlideId);
      |r| > 0 && r[|r| - 1] == DeleteObject(defaultSlideId)
      && (forall p :: 0 <= p < |r| - 1 ==> !r[p].DeleteObject?)
      && (forall p :: 0 <= p < |r| && r[p].CreateShape? ==>
           r[p].objectId == TextBoxId(r[p].props.pageObjectId, p)
           && p + 1 < |r| && r[p + 1].InsertText? && r[p + 1].objectId == r[p].objectId)
  {
    AppendSlidesWellFormed([], configs, 0);
  }

  lemma UnderscoreAt(a: string, x: string)
    ensures (a + "_" + x)[|a|] == '_'
  {
  }

  lemma DigitAfterUnderscore(a: string, x: string, k: int)
    requires AllDigits(x) && |a| < k < |a| + 1 + |x|
    ensures IsDigit((a + "_" + x)[k])
  {
    assert (a + "_" + x)[k] == x[k - |a| - 1];
  }

  /** In `a + "_" + x`, a digit string `x` is recovered from the end. */
  lemma DigitSuffix(a: string, x: string, b: string, y: string)
    requires AllDigits(x) && AllDigits(y)
    requires a + "_" + x == b + "_" + y
    ensures x == y
  {
    var s := a + "_" + x;
    var t := b + "_" + y;
    if |x| < |y| {
      DigitAfterUnderscore(b, y, |a|);
      UnderscoreAt(a, x);
      assert false;
    } else if |y| < |x| {
      DigitAfterUnderscore(a, x, |b|);
      UnderscoreAt(b, y);
      assert false;
    } else {
      assert s[|s| - |x|..] == x;
      assert t[|t| - |y|..] == y;
    }
  }

  /** No two text boxes of a well-formed batch share an id. */
  lemma TextBoxIdsDistinct(rs: seq<Request>, p: nat, q: nat)
    requires WellFormed(rs)
    requires p < |rs| && q < |rs| && p != q && rs[p].CreateShape? && rs[q].CreateShape?
    ensures rs[p].objectId != rs[q].objectId
  {
    if rs[p].objectId == rs[q].objectId {
      DigitSuffix("text_" + rs[p].props.pageObjectId, NatToString(p), "text_" + rs[q].props.pageObjectId, NatToString(q));
      NatToStringInjective(p, q);
    }
  }

  /** The createSlide requests of a batch, in order. */
  function CreatedSlides(rs: seq<Request>): seq<Request>
  {
    if |rs| == 0 then []
    else
      var last := rs[|rs| - 1];
      CreatedSlides(rs[..|rs| - 1]) + (if last.CreateSlide? then [last] else [])
  }

  lemma {:induction false} CreatedSlidesAppend(a: seq<Request>, b: seq<Request>)
    ensures CreatedSlides(a + b) == CreatedSlides(a) + CreatedSlides(b)
    decreases |b|
  {
    if |b| > 0 {
      var init := b[..|b| - 1];
      assert (a + b)[..|a + b| - 1] == a + init;
      CreatedSlidesAppend(a, init);
    } else {
      assert a + b == a;
    }
  }

  lemma {:induction false} AppendElementsKeepsSlides(rs: seq<Request>, slideId: string, es: seq<TextElementConfig>)
    ensures CreatedSlides(AppendElements(rs, slideId, es)) == CreatedSlides(rs)
    decreases |es|
  {
    if |es| > 0 {
      var pair := ElementPair(slideId, es[0], |rs|);
      CreatedSlidesAppend(rs, pair);
      assert pair[..1][..0] == [] && pair[..1] == [pair[0]] && pair[..|pair| - 1] == pair[..1];
      assert CreatedSlides(pair[..1]) == [];
      assert CreatedSlides(pair) == [];
      AppendElementsKeepsSlides(rs + pair, slideId, es[1..]);
    }
  }

  lemma AppendSlideCreates(rs: seq<Request>, i: nat, c: SlideConfig)
    ensures CreatedSlides(AppendSlide(rs, i, c)) == CreatedSlides(rs) + [SlideRequest(i, c)]
  {
    var rs' := rs + [SlideRequest(i, c)];
    assert rs'[..|rs'| - 1] == rs;
    if c.textElements.Some? {
      AppendElementsKeepsSlides(rs', TemplateSlideId(i), c.textElements.value);
    }
  }

  /** The createSlide requests for configurations i, i+1, ... */
  function SlideRequests(configs: seq<SlideConfig>, i: nat): seq<Request>
    requires i <= |configs|
  {
    seq(|configs| - i, k requires 0 <= k < |configs| - i => SlideRequest(i + k, configs[i + k]))
  }

  lemma SlideRequestsCons(configs: seq<SlideConfig>, i: nat)
    requires i < |configs|
    ensures SlideRequests(configs, i) == [SlideRequest(i, configs[i])] + SlideRequests(configs, i + 1)
  {
  }

  lemma {:induction false} AppendSlidesCreates(rs: seq<Request>, configs: seq<SlideConfig>, i: nat)
    requires i <= |configs|
    ensures CreatedSlides(AppendSlides(rs, configs, i)) == CreatedSlides(rs) + SlideRequests(configs, i)
    decreases |configs| - i
  {
    if i == |configs| {
      assert SlideRequests(configs, i) == [];
    } else {
      var next := AppendSlide(rs, i, configs[i]);
      assert AppendSlides(rs, configs, i) == AppendSlides(next, configs, i + 1);
      AppendSlideCreates(rs, i, configs[i]);
      AppendSlidesCreates(next, configs, i + 1);
      SlideRequestsCons(configs, i);
    }
  }

  /** Configuration i becomes createSlide template_slide_i at insertion index
      i, with the layout asked for or BLANK, in order and nothing else. */
  lemma TemplateSlides(configs: seq<SlideConfig>, defaultSlideId: string)
    ensures var s := CreatedSlides(TemplateRequests(configs, defaultSlideId));
      |s| == |configs|
      && forall i :: 0 <= i < |configs| ==>
           s[i] == CreateSlide(TemplateSlideId(i), i, PredefinedLayout(configs[i].layout.GetOr("BLANK")))
  {
    var body := AppendSlides([], configs, 0);
    AppendSlidesCreates([], configs, 0);
    assert [] + SlideRequests(configs, 0) == SlideRequests(configs, 0);
    CreatedSlidesAppend(body, [DeleteObject(defaultSlideId)]);
    assert [DeleteObject(defaultSlideId)][..0] == [];
    assert CreatedSlides([DeleteObject(defaultSlideId)]) == [];
  }

  /** The new presentation's first slide is the default one; a presentation
      without slides raises IndexError before any batch is sent. The exports
      at the end are not represented. */
  method CreateCustomTemplate(title: string, configs: seq<SlideConfig>, newSlides: seq<Slide>)
    returns (requests: seq<Request>, r: Result<string>)
    ensures |newSlides| == 0 ==> requests == [] && r == Err(IndexError)
    ensures |newSlides| > 0 ==>
      requests == TemplateRequests(configs, newSlides[0].objectId)
      && r == Ok(TemplateMessage(title, |configs|))
  {
    if |newSlides| == 0 {
      return [], Err(IndexError);
    }
    var defaultSlideId := newSlides[0].objectId;
    requests := [];
    var i := 0;
    while i < |configs|
      invariant 0 <= i <= |configs|
      invariant AppendSlides(requests, configs, i) == AppendSlides([], configs, 0)
    {
      var slideId := TemplateSlideId(i);
      requests := requests + [SlideRequest(i, configs[i])];
      if configs[i].textElements.Some? {
        var es := configs[i].textElements.value;
        ghost var start := requests;
        var j := 0;
        while j < |es|
          invariant 0 <= j <= |es|
          invariant AppendElements(requests, slideId, es[j..]) == AppendElements(start, slideId, es)
        {
          assert es[j..][0] == es[j] && es[j..][1..] == es[j + 1..];
          ghost var before := requests;
          var textBoxId := TextBoxId(slideId, |requests|);
          requests := requests + [CreateShape(textBoxId, "TEXT_BOX", PtProperties(slideId, ElementPosition(es[j])))];
          requests := requests + [InsertText(textBoxId, es[j].text.GetOr(""))];
          assert requests == before + ElementPair(slideId, es[j], |before|);
          j := j + 1;
        }
        assert es[..] == es;
      }
      i := i + 1;
    }
    requests := requests + [DeleteObject(defaultSlideId)];
    r := Ok(TemplateMessage(title, |configs|));
  }
}
