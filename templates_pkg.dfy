/** templates/__init__.py: the package variant. A predefined layout is applied
    through updatePageProperties, layouts are listed across all masters, and a
    "template" is a Drive copy marked with an app property. */
module TemplatesPkg {
  import opened SlidesApi
  import opened Lookup
  import opened Responses
  import Drive

  // ---------------------------------------------------------------------------
  // apply_predefined_layout

  function ApplyLayoutRequests(slideId: string, layout: string): (r: seq<Request>)
    ensures |r| == 1 && r[0].UpdatePageProperties? && r[0].objectId == slideId
    ensures r[0].properties == LayoutProperties(layout) && r[0].fields == "layoutProperties.predefinedLayout"
  {
    [UpdatePageProperties(slideId, LayoutProperties(layout), "layoutProperties.predefinedLayout")]
  }

  /** `slidesAfter` is the presentation fetched after the update. */
  method ApplyPredefinedLayout(presentationId: string, slideId: string, layout: string, slidesAfter: seq<Slide>)
    returns (requests: seq<Request>, paths: PathResponse)
    ensures requests == ApplyLayoutRequests(slideId, layout)
    ensures paths == PdfPaths(presentationId, slidesAfter, slideId)
  {
    requests := ApplyLayoutRequests(slideId, layout);
    paths := AttachPdfPaths(presentationId, slidesAfter, slideId);
  }

  // ---------------------------------------------------------------------------
  // duplicate_presentation

  datatype CopyResult = CopyResult(presentationId: string, pdfPath: Path)

  /** A Drive copy named `newTitle`; the copy gets the server's id `newId`. */
  method DuplicatePresentation(store: Drive.Store, templateId: string, newTitle: string, newId: string, fail: bool)
    returns (r: Result<CopyResult>)
    requires newId !in store.files
    modifies store
    ensures store.log == old(store.log) + [Drive.FilesCopy(templateId, newTitle)]
    ensures !fail && templateId in old(store.files) ==>
      r == Ok(CopyResult(newId, PresentationPdf(newId)))
      && store.files == old(store.files)[newId := Drive.DriveFile(newTitle, old(store.files)[templateId].slides)]
    ensures fail || templateId !in old(store.files) ==>
      r == Err(HttpError(templateId)) && store.files == old(store.files)
  {
    var copied := store.CopyFile(templateId, newTitle, newId, fail);
    if copied.Err? {
      return Err(copied.error);
    }
    r := Ok(CopyResult(copied.value, PresentationPdf(copied.value)));
  }

  // ---------------------------------------------------------------------------
  // list_available_layouts

  datatype LayoutEntry = LayoutEntry(layoutId: string, layoutName: string, predefinedLayout: string)

  function EntryOf(l: Layout): LayoutEntry
  {
    LayoutEntry(l.objectId, l.displayName.GetOr("Unknown Layout"), l.name.GetOr("BLANK"))
  }

  /** One entry per layout of every master, master by master. */
  function LayoutEntries(masters: seq<Master>): (r: seq<LayoutEntry>)
    ensures |r| == |AllLayouts(masters)|
    ensures forall k :: 0 <= k < |r| ==> r[k] == EntryOf(AllLayouts(masters)[k])
  {
    var ls := AllLayouts(masters);
    seq(|ls|, k requires 0 <= k < |ls| => EntryOf(ls[k]))
  }

  /** Every layout of every master is listed. */
  lemma LayoutEntriesCover(masters: seq<Master>, i: nat, j: nat)
    requires i < |masters| && j < |masters[i].layouts|
    ensures EntryOf(masters[i].layouts[j]) in LayoutEntries(masters)
  {
    var l := masters[i].layouts[j];
    AllLayoutsMember(masters, l);
    var ls := AllLayouts(masters);
    var k :| 0 <= k < |ls| && ls[k] == l;
    assert LayoutEntries(masters)[k] == EntryOf(l);
  }

  /** Every entry comes from a layout of some master. */
  lemma LayoutEntriesSound(masters: seq<Master>, e: LayoutEntry)
    requires e in LayoutEntries(masters)
    ensures exists i, l :: 0 <= i < |masters| && l in masters[i].layouts && e == EntryOf(l)
  {
    var ls := AllLayouts(masters);
    var k :| 0 <= k < |ls| && LayoutEntries(masters)[k] == e;
    AllLayoutsMember(masters, ls[k]);
  }

  datatype LayoutList = LayoutList(layouts: seq<LayoutEntry>, pdfPath: Path)

  /** The nested loop over masters and their layouts. */
  method ListAvailableLayouts(presentationId: string, masters: seq<Master>) returns (r: LayoutList)
    ensures r == LayoutList(LayoutEntries(masters), PresentationPdf(presentationId))
  {
    var entries: seq<LayoutEntry> := [];
    var i := 0;
    while i < |masters|
      invariant 0 <= i <= |masters|
      invariant entries == LayoutEntries(masters[..i])
    {
      var ls := masters[i].layouts;
      ghost var before := AllLayouts(masters[..i]);
      var j := 0;
      while j < |ls|
        invariant 0 <= j <= |ls|
        invariant |entries| == |before| + j
        invariant forall k :: 0 <= k < |entries| ==> entries[k] == EntryOf((before + ls[..j])[k])
      {
        assert (before + ls[..j + 1])[..|before| + j] == before + ls[..j];
        entries := entries + [EntryOf(ls[j])];
        j := j + 1;
      }
      assert masters[..i + 1] == masters[..i] + [masters[i]];
      AllLayoutsAppend(masters[..i], [masters[i]]);
      assert AllLayouts([masters[i]]) == ls;
      assert ls[..j] == ls;
      i := i + 1;
    }
    assert masters[..|masters|] == masters;
    r := LayoutList(entries, PresentationPdf(presentationId));
  }

  // ---------------------------------------------------------------------------
  // create_custom_template

  /** The files().copy body: name, empty properties, appProperties and an
      optional description. */
  datatype CopyBody = CopyBody(
    name: string,
    properties: map<string, string>,
    appProperties: map<string, string>,
    description: Option<string>)

  /** `if description:` adds the key only for a non-empty description. */
  function TemplateCopyBody(templateName: string, description: Option<string>): (b: CopyBody)
    ensures b.name == templateName && b.properties == map[]
    ensures b.appProperties == map["isTemplate" := "true"]
    ensures b.description.Some? <==> description.Some? && description.value != ""
    ensures b.description.Some? ==> b.description == description
  {
    CopyBody(templateName, map[], map["isTemplate" := "true"],
             if description.Some? && description.value != "" then description else None)
  }

  function TemplatePdf(templateId: string): Path
  {
    TempPath("template_" + templateId + ".pdf")
  }

  /** A template's PDF never overwrites a presentation's, and two templates'
      PDFs are different files. */
  lemma TemplatePdfDistinct(a: string, b: string)
    ensures TemplatePdf(a) != PresentationPdf(b)
    ensures TemplatePdf(a) == TemplatePdf(b) ==> a == b
  {
    assert TemplatePdf(a).fileName[0] == 't';
    assert PresentationPdf(b).fileName[0] == 'p';
    var fa := TemplatePdf(a).fileName;
    var fb := TemplatePdf(b).fileName;
    assert fa[9..|fa| - 4] == a;
    assert fb[9..|fb| - 4] == b;
  }

  datatype TemplateResult = TemplateResult(templateId: string, pdfPath: Path)

  method CreateCustomTemplate(store: Drive.Store, presentationId: string, templateName: string,
                              description: Option<string>, newId: string, fail: bool)
    returns (body: CopyBody, r: Result<TemplateResult>)
    requires newId !in store.files
    modifies store
    ensures body == TemplateCopyBody(templateName, description)
    ensures store.log == old(store.log) + [Drive.FilesCopy(presentationId, templateName)]
    ensures !fail && presentationId in old(store.files) ==>
      r == Ok(TemplateResult(newId, TemplatePdf(newId)))
      && store.files == old(store.files)[newId := Drive.DriveFile(templateName, old(store.files)[presentationId].slides)]
    ensures fail || presentationId !in old(store.files) ==>
      r == Err(HttpError(presentationId)) && store.files == old(store.files)
  {
    body := CopyBody(templateName, map[], map["isTemplate" := "true"], None);
    if description.Some? && description.value != "" {
      body := body.(description := description);
    }
    var copied := store.CopyFile(presentationId, templateName, newId, fail);
    if copied.Err? {
      return body, Err(copied.error);
    }
    r := Ok(TemplateResult(copied.value, TemplatePdf(copied.value)));
  }
}
