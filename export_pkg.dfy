/** export/__init__.py: exporting one slide as a PDF by way of a temporary copy
    of the presentation (copy, delete every other slide, export, delete the
    copy in a `finally`), and the range-checked slide thumbnail. */
module ExportPkg {
  import opened SlidesApi
  import opened Text
  import opened Lookup
  import opened Drive

  // ---------------------------------------------------------------------------
  // The deletion plan

  /** The deleteObject requests for every slide except the one at `slideIndex`,
      in slide order. */
  function DeleteRequests(slides: seq<Slide>, slideIndex: int): seq<Request>
  {
    if |slides| == 0 then []
    else
      var i := |slides| - 1;
      DeleteRequests(slides[..i], slideIndex) + (if i != slideIndex then [DeleteObject(slides[i].objectId)] else [])
  }

  /** The append loop that builds delete_requests. */
  method DeletePlan(slides: seq<Slide>, slideIndex: int) returns (requests: seq<Request>)
    ensures requests == DeleteRequests(slides, slideIndex)
  {
    requests := [];
    var i := 0;
    while i < |slides|
      invariant 0 <= i <= |slides|
      invariant requests == DeleteRequests(slides[..i], slideIndex)
    {
      assert slides[..i + 1][..i] == slides[..i];
      if i != slideIndex {
        requests := requests + [DeleteObject(slides[i].objectId)];
      }
      i := i + 1;
    }
    assert slides[..|slides|] == slides;
  }

  /** The slide the k-th request of the plan deletes: the slides before the
      target keep their position, the ones after it move up by one. */
  function PlanSource(slideIndex: int, k: int): int
  {
    if 0 <= slideIndex <= k then k + 1 else k
  }

  /** The plan has one request per slide other than the target, in order:
      n - 1 requests for an index in range, n otherwise. */
  lemma {:induction false} DeleteRequestsShape(slides: seq<Slide>, slideIndex: int)
    ensures |DeleteRequests(slides, slideIndex)| ==
      if 0 <= slideIndex < |slides| then |slides| - 1 else |slides|
    ensures forall k :: 0 <= k < |DeleteRequests(slides, slideIndex)| ==>
      PlanSource(slideIndex, k) < |slides| &&
      DeleteRequests(slides, slideIndex)[k] == DeleteObject(slides[PlanSource(slideIndex, k)].objectId)
  {
    if |slides| > 0 {
      var i := |slides| - 1;
      var init := slides[..i];
      DeleteRequestsShape(init, slideIndex);
      var p := DeleteRequests(init, slideIndex);
      var r := DeleteRequests(slides, slideIndex);
      forall k | 0 <= k < |r|
        ensures PlanSource(slideIndex, k) < |slides| && r[k] == DeleteObject(slides[PlanSource(slideIndex, k)].objectId)
      {
        if k < |p| {
          assert r[k] == p[k];
          assert init[PlanSource(slideIndex, k)] == slides[PlanSource(slideIndex, k)];
        } else {
          assert i != slideIndex && r[k] == DeleteObject(slides[i].objectId);
        }
      }
    }
  }

  /** With distinct slide ids, no request of the plan deletes the target slide. */
  lemma NeverDeletesTarget(slides: seq<Slide>, slideIndex: int)
    requires DistinctIds(slides)
    requires 0 <= slideIndex < |slides|
    ensures forall k :: 0 <= k < |DeleteRequests(slides, slideIndex)| ==>
      DeleteRequests(slides, slideIndex)[k] != DeleteObject(slides[slideIndex].objectId)
  {
    DeleteRequestsShape(slides, slideIndex);
  }

  /** The ids the plan deletes are exactly those of the other slides. */
  lemma {:induction false} DeletedIdsOfPlan(slides: seq<Slide>, slideIndex: int, j: int)
    requires DistinctIds(slides)
    requires 0 <= slideIndex < |slides| && 0 <= j < |slides|
    ensures slides[j].objectId in DeletedIds(DeleteRequests(slides, slideIndex)) <==> j != slideIndex
  {
    var plan := DeleteRequests(slides, slideIndex);
    DeleteRequestsShape(slides, slideIndex);
    DeletedIdsMember(plan, slides[j].objectId);
    if j != slideIndex {
      var k := if j < slideIndex then j else j - 1;
      assert PlanSource(slideIndex, k) == j;
      assert plan[k] == DeleteObject(slides[j].objectId);
    } else {
      NeverDeletesTarget(slides, slideIndex);
    }
  }

  lemma {:induction false} RemoveAllBut(slides: seq<Slide>, ids: set<string>, slideIndex: int, m: nat)
    requires 0 <= slideIndex < |slides| && m <= |slides|
    requires forall j :: 0 <= j < |slides| ==> (slides[j].objectId in ids <==> j != slideIndex)
    ensures RemoveSlides(slides[..m], ids) == if slideIndex < m then [slides[slideIndex]] else []
  {
    if m > 0 {
      assert slides[..m][..m - 1] == slides[..m - 1];
      RemoveAllBut(slides, ids, slideIndex, m - 1);
    }
  }

  /** Applying the plan leaves exactly the target slide. */
  lemma OnlyTargetRemains(slides: seq<Slide>, slideIndex: int)
    requires DistinctIds(slides)
    requires 0 <= slideIndex < |slides|
    ensures RemoveSlides(slides, DeletedIds(DeleteRequests(slides, slideIndex))) == [slides[slideIndex]]
  {
    var ids := DeletedIds(DeleteRequests(slides, slideIndex));
    forall j | 0 <= j < |slides| ensures slides[j].objectId in ids <==> j != slideIndex {
      DeletedIdsOfPlan(slides, slideIndex, j);
    }
    RemoveAllBut(slides, ids, slideIndex, |slides|);
    assert slides[..|slides|] == slides;
  }

  // ---------------------------------------------------------------------------
  // The temporary-copy lifecycle

  /** The calls that can fail, each with HttpError. */
  datatype Stage = FetchName | MakeCopy | FetchCopy | DeleteOthers | ExportCopy | DeleteCopy

  function CopyName(name: string, slideIndex: int): string
  {
    name + " - Slide " + IntToString(slideIndex + 1)
  }

  function OutOfRange(slideIndex: int, count: nat): Error
  {
    ValueError("Slide index " + IntToString(slideIndex) + " is out of range. The presentation has "
               + NatToString(count) + " slides.")
  }

  predicate InRange(slideIndex: int, slides: seq<Slide>)
  {
    0 <= slideIndex < |slides|
  }

  /** The calls of the try block, on a copy holding `slides`. */
  function TryCalls(copyId: string, slides: seq<Slide>, slideIndex: int, faults: set<Stage>): seq<Call>
  {
    var plan := DeleteRequests(slides, slideIndex);
    [PresentationsGet(copyId)]
    + (if FetchCopy in faults || !InRange(slideIndex, slides) then []
       else (if |plan| > 0 then [BatchUpdateCall(copyId, plan)] else [])
            + (if |plan| > 0 && DeleteOthers in faults then [] else [FilesExportPdf(copyId)]))
  }

  /** The calls of the try block and then the delete in `finally`. */
  function FinallyCalls(copyId: string, slides: seq<Slide>, slideIndex: int, faults: set<Stage>): seq<Call>
  {
    TryCalls(copyId, slides, slideIndex, faults) + [FilesDelete(copyId)]
  }

  /** What the try block yields: the slides the PDF shows, or the error it raises. */
  function TryOutcome(copyId: string, slides: seq<Slide>, slideIndex: int, faults: set<Stage>): Result<seq<Slide>>
  {
    var plan := DeleteRequests(slides, slideIndex);
    if FetchCopy in faults then Err(HttpError(copyId))
    else if !InRange(slideIndex, slides) then Err(OutOfRange(slideIndex, |slides|))
    else if |plan| > 0 && DeleteOthers in faults then Err(HttpError(copyId))
    else if ExportCopy in faults then Err(HttpError(copyId))
    else Ok(if |plan| > 0 then RemoveSlides(slides, DeletedIds(plan)) else slides)
  }

  /** The copy as the try block leaves it: with the other slides removed once
      their batchUpdate has gone through, otherwise as it was made. */
  function TryLeaves(copy: DriveFile, slideIndex: int, faults: set<Stage>): DriveFile
  {
    var plan := DeleteRequests(copy.slides, slideIndex);
    if FetchCopy in faults || !InRange(slideIndex, copy.slides) || |plan| == 0 || DeleteOthers in faults then copy
    else DriveFile(copy.name, RemoveSlides(copy.slides, DeletedIds(plan)))
  }

  /** Whether the copy gets made: the original exists and neither call before it fails. */
  predicate CopyMade(files: map<string, DriveFile>, presentationId: string, faults: set<Stage>)
  {
    FetchName !in faults && MakeCopy !in faults && presentationId in files
  }

  /** Whether the copy outlives the call: it was made and the delete in
      `finally` fails. */
  predicate CopyLeft(files: map<string, DriveFile>, presentationId: string, faults: set<Stage>)
  {
    CopyMade(files, presentationId, faults) && DeleteCopy in faults
  }

  /** The Drive files after export_slide_as_pdf: unchanged, unless the final
      delete fails and the copy stays behind as the try block left it. */
  function FilesAfter(files: map<string, DriveFile>, presentationId: string, slideIndex: int,
                      copyId: string, faults: set<Stage>): map<string, DriveFile>
  {
    if CopyLeft(files, presentationId, faults) then
      files[copyId := TryLeaves(DriveFile(CopyName(files[presentationId].name, slideIndex),
                                          files[presentationId].slides), slideIndex, faults)]
    else files
  }

  /** The calls export_slide_as_pdf makes, in order. */
  function ExportCalls(files: map<string, DriveFile>, presentationId: string, slideIndex: int,
                       copyId: string, faults: set<Stage>): seq<Call>
  {
    if FetchName in faults || presentationId !in files then [FilesGet(presentationId)]
    else
      var name := CopyName(files[presentationId].name, slideIndex);
      if MakeCopy in faults then [FilesGet(presentationId), FilesCopy(presentationId, name)]
      else [FilesGet(presentationId), FilesCopy(presentationId, name)]
           + FinallyCalls(copyId, files[presentationId].slides, slideIndex, faults)
  }

  /** What export_slide_as_pdf yields: the slides the exported PDF shows, or the error. */
  function ExportOutcome(files: map<string, DriveFile>, presentationId: string, slideIndex: int,
                         copyId: string, faults: set<Stage>): Result<seq<Slide>>
  {
    if FetchName in faults || presentationId !in files || MakeCopy in faults then Err(HttpError(presentationId))
    else if DeleteCopy in faults then Err(HttpError(copyId))  // raised in `finally`, it replaces any outcome
    else TryOutcome(copyId, files[presentationId].slides, slideIndex, faults)
  }

  /** The try block of export_slide_as_pdf on the copy `copyId`. */
  method TryOnCopy(drive: Store, copyId: string, slideIndex: int, faults: set<Stage>)
    returns (r: Result<seq<Slide>>)
    requires copyId in drive.files
    modifies drive
    ensures drive.files == old(drive.files)[copyId := TryLeaves(old(drive.files)[copyId], slideIndex, faults)]
    ensures drive.log == old(drive.log) + TryCalls(copyId, old(drive.files)[copyId].slides, slideIndex, faults)
    ensures r == TryOutcome(copyId, old(drive.files)[copyId].slides, slideIndex, faults)
  {
    var fetched := drive.GetPresentation(copyId, FetchCopy in faults);
    if fetched.Err? {
      return Err(fetched.error);
    }
    if slideIndex < 0 || slideIndex >= |fetched.value| {
      return Err(OutOfRange(slideIndex, |fetched.value|));
    }
    var plan := DeletePlan(fetched.value, slideIndex);
    if |plan| > 0 {
      var deleted := drive.BatchUpdate(copyId, plan, DeleteOthers in faults);
      if deleted.Err? {
        return Err(deleted.error);
      }
    }
    r := drive.ExportPdf(copyId, ExportCopy in faults);
  }

  /** The try block on the copy, then the delete in `finally`: when that delete
      fails, its error replaces the outcome of the try block and the copy stays. */
  method TryFinallyDelete(drive: Store, copyId: string, slideIndex: int, faults: set<Stage>)
    returns (r: Result<seq<Slide>>)
    requires copyId in drive.files
    modifies drive
    ensures drive.log == old(drive.log) + FinallyCalls(copyId, old(drive.files)[copyId].slides, slideIndex, faults)
    ensures DeleteCopy in faults ==>
      drive.files == old(drive.files)[copyId := TryLeaves(old(drive.files)[copyId], slideIndex, faults)]
      && r == Err(HttpError(copyId))
    ensures DeleteCopy !in faults ==>
      drive.files == old(drive.files) - {copyId}
      && r == TryOutcome(copyId, old(drive.files)[copyId].slides, slideIndex, faults)
  {
    r := TryOnCopy(drive, copyId, slideIndex, faults);
    ghost var left := drive.files;
    var removed := drive.DeleteFile(copyId, DeleteCopy in faults);
    if removed.Err? {
      r := Err(removed.error);
    } else {
      assert drive.files == old(drive.files) - {copyId} by {
        assert drive.files == left - {copyId};
      }
    }
  }

  /** Steps 1 to 7 of export_slide_as_pdf: the copy, the try block and the
      `finally` that deletes the copy. `copyId` is the id the server gives the
      copy; `faults` are the calls that fail. */
  method CopyAndExport(drive: Store, presentationId: string, slideIndex: int, copyId: string, faults: set<Stage>)
    returns (r: Result<seq<Slide>>)
    requires copyId !in drive.files
    modifies drive
    ensures drive.files == FilesAfter(old(drive.files), presentationId, slideIndex, copyId, faults)
    ensures drive.log == old(drive.log) + ExportCalls(old(drive.files), presentationId, slideIndex, copyId, faults)
    ensures r == ExportOutcome(old(drive.files), presentationId, slideIndex, copyId, faults)
  {
    var info := drive.GetFile(presentationId, FetchName in faults);
    if info.Err? {
      return Err(info.error);
    }
    var name := CopyName(info.value, slideIndex);
    var copied := drive.CopyFile(presentationId, name, copyId, MakeCopy in faults);
    if copied.Err? {
      return Err(copied.error);
    }
    ghost var made := DriveFile(name, old(drive.files)[presentationId].slides);
    ghost var files1 := drive.files;
    assert files1 == old(drive.files)[copyId := made];
    assert CopyMade(old(drive.files), presentationId, faults);
    ghost var tail := FinallyCalls(copyId, made.slides, slideIndex, faults);
    assert ExportCalls(old(drive.files), presentationId, slideIndex, copyId, faults)
        == [FilesGet(presentationId), FilesCopy(presentationId, name)] + tail;
    assert drive.log == old(drive.log) + [FilesGet(presentationId), FilesCopy(presentationId, name)];
    r := TryFinallyDelete(drive, copyId, slideIndex, faults);
    assert drive.log == old(drive.log) + [FilesGet(presentationId), FilesCopy(presentationId, name)] + tail;
    if DeleteCopy in faults {
      assert CopyLeft(old(drive.files), presentationId, faults);
      assert drive.files == old(drive.files)[copyId := TryLeaves(made, slideIndex, faults)];
    } else {
      assert drive.files == old(drive.files) by {
        assert drive.files == files1 - {copyId};
      }
    }
  }

  /** export_presentation_as_pdf: one export call; the PDF is written to `outputPath`. */
  method ExportPresentationAsPdf(drive: Store, presentationId: string, outputPath: string, fail: bool)
    returns (r: Result<string>)
    modifies drive
    ensures drive.files == old(drive.files) && drive.log == old(drive.log) + [FilesExportPdf(presentationId)]
    ensures r == if !fail && presentationId in old(drive.files) then Ok(outputPath) else Err(HttpError(presentationId))
  {
    var pdf := drive.ExportPdf(presentationId, fail);
    if pdf.Err? {
      return Err(pdf.error);
    }
    r := Ok(outputPath);
  }

  /** export_slide_as_pdf: the path the PDF is written to, or the error raised. */
  method ExportSlideAsPdf(drive: Store, presentationId: string, slideIndex: int, outputPath: string,
                          copyId: string, faults: set<Stage>)
    returns (r: Result<string>)
    requires copyId !in drive.files
    modifies drive
    ensures drive.files == FilesAfter(old(drive.files), presentationId, slideIndex, copyId, faults)
    ensures drive.log == old(drive.log) + ExportCalls(old(drive.files), presentationId, slideIndex, copyId, faults)
    ensures var o := ExportOutcome(old(drive.files), presentationId, slideIndex, copyId, faults);
      r == if o.Ok? then Ok(outputPath) else Err(o.error)
  {
    var exported := CopyAndExport(drive, presentationId, slideIndex, copyId, faults);
    if exported.Err? {
      return Err(exported.error);
    }
    return Ok(outputPath);
  }

  // ---------------------------------------------------------------------------
  // Properties of the lifecycle

  function CountCalls(calls: seq<Call>, c: Call): nat
  {
    if |calls| == 0 then 0 else CountCalls(calls[..|calls| - 1], c) + (if calls[|calls| - 1] == c then 1 else 0)
  }

  lemma {:induction false} CountCallsAppend(a: seq<Call>, b: seq<Call>, c: Call)
    ensures CountCalls(a + b, c) == CountCalls(a, c) + CountCalls(b, c)
  {
    if |b| > 0 {
      assert (a + b)[..|a + b| - 1] == a + b[..|b| - 1];
      CountCallsAppend(a, b[..|b| - 1], c);
    } else {
      assert a + b == a;
    }
  }

  lemma {:induction false} CountCallsAbsent(calls: seq<Call>, c: Call)
    requires forall k :: 0 <= k < |calls| ==> calls[k] != c
    ensures CountCalls(calls, c) == 0
  {
    if |calls| > 0 {
      CountCallsAbsent(calls[..|calls| - 1], c);
    }
  }

  /** The copy is deleted exactly once when it was made, as the very last call,
      and never otherwise; the out-of-range error and every failing call in the
      try block included. */
  lemma {:induction false} CopyDeletedOnce(files: map<string, DriveFile>, presentationId: string, slideIndex: int,
                                           copyId: string, faults: set<Stage>)
    ensures var calls := ExportCalls(files, presentationId, slideIndex, copyId, faults);
      CountCalls(calls, FilesDelete(copyId)) == (if CopyMade(files, presentationId, faults) then 1 else 0)
      && (CopyMade(files, presentationId, faults) ==> calls[|calls| - 1] == FilesDelete(copyId))
  {
    var calls := ExportCalls(files, presentationId, slideIndex, copyId, faults);
    var d := FilesDelete(copyId);
    if CopyMade(files, presentationId, faults) {
      var name := CopyName(files[presentationId].name, slideIndex);
      var head := [FilesGet(presentationId), FilesCopy(presentationId, name)];
      var body := TryCalls(copyId, files[presentationId].slides, slideIndex, faults);
      CountCallsAbsent(head, d);
      CountCallsAbsent(body, d);
      CountCallsAppend(head, body, d);
      CountCallsAppend(head + body, [d], d);
      assert [d][..0] == [];
      assert calls == head + (body + [d]) == (head + body) + [d];
    } else if FetchName in faults || presentationId !in files {
      CountCallsAbsent(calls, d);
    } else {
      CountCallsAbsent(calls, d);
    }
  }

  /** The files end as they began exactly when no copy outlives the call. A
      copy whose delete in `finally` fails stays under its own id, and the
      error of that delete is what the call raises, whatever the try block did. */
  lemma CopyLeftBehind(files: map<string, DriveFile>, presentationId: string, slideIndex: int,
                       copyId: string, faults: set<Stage>)
    requires copyId !in files
    ensures FilesAfter(files, presentationId, slideIndex, copyId, faults) == files <==> !CopyLeft(files, presentationId, faults)
    ensures CopyLeft(files, presentationId, faults) ==>
      FilesAfter(files, presentationId, slideIndex, copyId, faults).Keys == files.Keys + {copyId}
      && ExportOutcome(files, presentationId, slideIndex, copyId, faults) == Err(HttpError(copyId))
  {
    if CopyLeft(files, presentationId, faults) {
      assert copyId in FilesAfter(files, presentationId, slideIndex, copyId, faults);
    }
  }

  /** When only the final delete fails, the copy left behind holds just the
      target slide, under the name "<name> - Slide <n>". */
  lemma LeftCopyHoldsTarget(files: map<string, DriveFile>, presentationId: string, slideIndex: int, copyId: string)
    requires presentationId in files
    requires DistinctIds(files[presentationId].slides)
    requires InRange(slideIndex, files[presentationId].slides)
    ensures var after := FilesAfter(files, presentationId, slideIndex, copyId, {DeleteCopy});
      copyId in after
      && after[copyId] == DriveFile(CopyName(files[presentationId].name, slideIndex),
                                    [files[presentationId].slides[slideIndex]])
  {
    var slides := files[presentationId].slides;
    OnlyTargetRemains(slides, slideIndex);
    DeleteRequestsShape(slides, slideIndex);
    if |DeleteRequests(slides, slideIndex)| == 0 {
      assert |slides| == 1;
      assert slides == [slides[slideIndex]];
    }
  }

  /** With every call succeeding and the index in range, the calls are: the
      name, the copy, the copy's slides, one batchUpdate holding the n - 1
      deletes only when there is more than one slide, the export, the delete. */
  lemma BatchOnlyWhenMany(files: map<string, DriveFile>, presentationId: string, slideIndex: int, copyId: string)
    requires presentationId in files
    requires InRange(slideIndex, files[presentationId].slides)
    ensures var slides := files[presentationId].slides;
      var plan := DeleteRequests(slides, slideIndex);
      |plan| == |slides| - 1 &&
      ExportCalls(files, presentationId, slideIndex, copyId, {}) ==
        [FilesGet(presentationId), FilesCopy(presentationId, CopyName(files[presentationId].name, slideIndex)),
         PresentationsGet(copyId)]
        + (if |slides| > 1 then [BatchUpdateCall(copyId, plan)] else [])
        + [FilesExportPdf(copyId), FilesDelete(copyId)]
  {
    DeleteRequestsShape(files[presentationId].slides, slideIndex);
  }

  /** With every call succeeding, the result is an out-of-range ValueError
      exactly when the index is outside the copy's slides, and otherwise the
      PDF shows exactly the target slide. */
  lemma ExportShowsOnlyTarget(files: map<string, DriveFile>, presentationId: string, slideIndex: int, copyId: string)
    requires presentationId in files
    requires DistinctIds(files[presentationId].slides)
    ensures var slides := files[presentationId].slides;
      var o := ExportOutcome(files, presentationId, slideIndex, copyId, {});
      (o.Err? <==> !InRange(slideIndex, slides))
      && (o.Err? ==> o.error == OutOfRange(slideIndex, |slides|))
      && (o.Ok? ==> o.value == [slides[slideIndex]])
  {
    var slides := files[presentationId].slides;
    if InRange(slideIndex, slides) {
      OnlyTargetRemains(slides, slideIndex);
    }
  }

  // ---------------------------------------------------------------------------
  // Thumbnail

  datatype Thumbnail = SavedTo(path: string) | ContentUrl(url: string)

  /** get_presentation_thumbnail: a range check on the slide index, then the
      thumbnail of that slide's page. `contentUrlOf` stands for the
      getThumbnail call; with a non-empty output_path the image is downloaded
      there and the path returned, otherwise the URL is returned. */
  function GetPresentationThumbnail(slides: seq<Slide>, slideIndex: int, outputPath: Option<string>,
                                    contentUrlOf: string -> string): (r: Result<Thumbnail>)
    ensures r.Err? <==> !InRange(slideIndex, slides)
    ensures r.Err? ==> r.error == OutOfRange(slideIndex, |slides|)
    ensures r.Ok? && (outputPath.None? || outputPath.value == "") ==>
      r.value == ContentUrl(contentUrlOf(slides[slideIndex].objectId))
    ensures r.Ok? && outputPath.Some? && outputPath.value != "" ==> r.value == SavedTo(outputPath.value)
  {
    if slideIndex < 0 || slideIndex >= |slides| then Err(OutOfRange(slideIndex, |slides|))
    else
      var url := contentUrlOf(slides[slideIndex].objectId);
      if outputPath.Some? && outputPath.value != "" then Ok(SavedTo(outputPath.value))
      else Ok(ContentUrl(url))
  }
}
