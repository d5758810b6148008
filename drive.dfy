/** The part of Google Drive and the Slides service that the single-slide
    export touches: a map from file id to file (its name and its slides) and a
    log of the calls made. Whether a call fails is the caller's argument, since
    the network and the servers are not modelled. */
module Drive {
  import opened SlidesApi

  datatype DriveFile = DriveFile(name: string, slides: seq<Slide>)

  /** A call made to the Drive or Slides service. */
  datatype Call =
    | FilesGet(fileId: string)                                 // files().get(fields='name')
    | FilesCopy(fileId: string, name: string)                  // files().copy(body={'name': ...})
    | PresentationsGet(fileId: string)                         // presentations().get
    | BatchUpdateCall(fileId: string, requests: seq<Request>)  // presentations().batchUpdate
    | FilesExportPdf(fileId: string)                           // files().export_media(mimeType='application/pdf')
    | FilesDelete(fileId: string)                              // files().delete

  /** The objectIds that the deleteObject requests of a batch name. */
  function DeletedIds(requests: seq<Request>): set<string>
  {
    if |requests| == 0 then {}
    else
      var last := requests[|requests| - 1];
      DeletedIds(requests[..|requests| - 1]) + (if last.DeleteObject? then {last.objectId} else {})
  }

  lemma {:induction false} DeletedIdsMember(requests: seq<Request>, x: string)
    ensures x in DeletedIds(requests) <==>
      exists k :: 0 <= k < |requests| && requests[k] == DeleteObject(x)
  {
    if |requests| > 0 {
      var init := requests[..|requests| - 1];
      DeletedIdsMember(init, x);
      if x in DeletedIds(init) {
        var k :| 0 <= k < |init| && init[k] == DeleteObject(x);
        assert requests[k] == DeleteObject(x);
      }
      if exists k :: 0 <= k < |requests| && requests[k] == DeleteObject(x) {
        var k :| 0 <= k < |requests| && requests[k] == DeleteObject(x);
        if k < |init| {
          assert init[k] == DeleteObject(x);
        }
      }
    }
  }

  /** The slides left after deleting every slide whose objectId is in `ids`, in order. */
  function RemoveSlides(slides: seq<Slide>, ids: set<string>): (r: seq<Slide>)
    ensures |r| <= |slides|
  {
    if |slides| == 0 then []
    else
      var last := slides[|slides| - 1];
      RemoveSlides(slides[..|slides| - 1], ids) + (if last.objectId in ids then [] else [last])
  }

  lemma {:induction false} RemoveSlidesMember(slides: seq<Slide>, ids: set<string>, s: Slide)
    ensures s in RemoveSlides(slides, ids) <==> s in slides && s.objectId !in ids
  {
    if |slides| > 0 {
      var init := slides[..|slides| - 1];
      RemoveSlidesMember(init, ids, s);
      assert slides == init + [slides[|slides| - 1]];
    }
  }

  class Store {
    var files: map<string, DriveFile>
    var log: seq<Call>

    constructor (files: map<string, DriveFile>)
      ensures this.files == files && log == []
    {
      this.files := files;
      log := [];
    }

    method GetFile(fileId: string, fail: bool) returns (r: Result<string>)
      modifies this
      ensures files == old(files) && log == old(log) + [FilesGet(fileId)]
      ensures r == if !fail && fileId in files then Ok(files[fileId].name) else Err(HttpError(fileId))
    {
      log := log + [FilesGet(fileId)];
      if !fail && fileId in files {
        r := Ok(files[fileId].name);
      } else {
        r := Err(HttpError(fileId));
      }
    }

    /** A copy gets the id `newId` that the server chooses, one not yet in use. */
    method CopyFile(fileId: string, name: string, newId: string, fail: bool) returns (r: Result<string>)
      requires newId !in files
      modifies this
      ensures log == old(log) + [FilesCopy(fileId, name)]
      ensures !fail && fileId in old(files) ==>
        r == Ok(newId) && files == old(files)[newId := DriveFile(name, old(files)[fileId].slides)]
      ensures fail || fileId !in old(files) ==> r == Err(HttpError(fileId)) && files == old(files)
    {
      log := log + [FilesCopy(fileId, name)];
      if !fail && fileId in files {
        files := files[newId := DriveFile(name, files[fileId].slides)];
        r := Ok(newId);
      } else {
        r := Err(HttpError(fileId));
      }
    }

    method GetPresentation(fileId: string, fail: bool) returns (r: Result<seq<Slide>>)
      modifies this
      ensures files == old(files) && log == old(log) + [PresentationsGet(fileId)]
      ensures r == if !fail && fileId in files then Ok(files[fileId].slides) else Err(HttpError(fileId))
    {
      log := log + [PresentationsGet(fileId)];
      if !fail && fileId in files {
        r := Ok(files[fileId].slides);
      } else {
        r := Err(HttpError(fileId));
      }
    }

    /** A batch of deleteObject requests removes the slides it names. */
    method BatchUpdate(fileId: string, requests: seq<Request>, fail: bool) returns (r: Result<()>)
      modifies this
      ensures log == old(log) + [BatchUpdateCall(fileId, requests)]
      ensures !fail && fileId in old(files) ==>
        r == Ok(()) &&
        files == old(files)[fileId := DriveFile(old(files)[fileId].name,
                                                RemoveSlides(old(files)[fileId].slides, DeletedIds(requests)))]
      ensures fail || fileId !in old(files) ==> r == Err(HttpError(fileId)) && files == old(files)
    {
      log := log + [BatchUpdateCall(fileId, requests)];
      if !fail && fileId in files {
        var f := files[fileId];
        files := files[fileId := DriveFile(f.name, RemoveSlides(f.slides, DeletedIds(requests)))];
        r := Ok(());
      } else {
        r := Err(HttpError(fileId));
      }
    }

    /** The PDF export, represented by the slides it shows. */
    method ExportPdf(fileId: string, fail: bool) returns (r: Result<seq<Slide>>)
      modifies this
      ensures files == old(files) && log == old(log) + [FilesExportPdf(fileId)]
      ensures r == if !fail && fileId in files then Ok(files[fileId].slides) else Err(HttpError(fileId))
    {
      log := log + [FilesExportPdf(fileId)];
      if !fail && fileId in files {
        r := Ok(files[fileId].slides);
      } else {
        r := Err(HttpError(fileId));
      }
    }

    method DeleteFile(fileId: string, fail: bool) returns (r: Result<()>)
      modifies this
      ensures log == old(log) + [FilesDelete(fileId)]
      ensures !fail && fileId in old(files) ==> r == Ok(()) && files == old(files) - {fileId}
      ensures fail || fileId !in old(files) ==> r == Err(HttpError(fileId)) && files == old(files)
    {
      log := log + [FilesDelete(fileId)];
      if !fail && fileId in files {
        files := files - {fileId};
        r := Ok(());
      } else {
        r := Err(HttpError(fileId));
      }
    }
  }
}
