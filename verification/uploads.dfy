/** The list of uploaded file ids and the Grok uploader that appends to it. */
module Uploads {
  import opened Services

  /** A JavaScript array of file ids, shared by reference. */
  class IdList {
    var ids: seq<string>

    constructor()
      ensures ids == []
    {
      ids := [];
    }
  }

  /** The ids the upload endpoint returned, for the paths that yielded one, in path order. */
  function UploadedIds(paths: seq<string>, uploadId: string -> string): seq<string> {
    if paths == [] then []
    else (if uploadId(paths[0]) != "" then [uploadId(paths[0])] else []) + UploadedIds(paths[1..], uploadId)
  }

  /** Every path that yields an id contributes it, no empty id is kept, and no id comes from elsewhere. */
  lemma {:induction false} UploadedIdsMembers(paths: seq<string>, uploadId: string -> string)
    ensures |UploadedIds(paths, uploadId)| <= |paths|
    ensures forall id :: id in UploadedIds(paths, uploadId) <==> exists p :: p in paths && uploadId(p) == id && id != ""
    ensures (forall p :: p in paths ==> uploadId(p) != "") ==> |UploadedIds(paths, uploadId)| == |paths|
  {
    if paths != [] {
      UploadedIdsMembers(paths[1..], uploadId);
      assert forall p :: p in paths <==> p == paths[0] || p in paths[1..];
    }
  }

  /** Uploads each path in turn and pushes the returned id onto the list it was given. */
  class FileUploader {
    const fileIds: IdList

    constructor(fileIds: IdList)
      ensures this.fileIds == fileIds
    {
      this.fileIds := fileIds;
    }

    method UploadFiles(paths: seq<string>, host: Host)
      modifies fileIds
      ensures fileIds.ids == old(fileIds.ids) + UploadedIds(paths, host.uploadId)
    {
      var i := 0;
      while i < |paths|
        invariant 0 <= i <= |paths|
        invariant old(fileIds.ids) + UploadedIds(paths, host.uploadId) == fileIds.ids + UploadedIds(paths[i..], host.uploadId)
      {
        assert paths[i..][0] == paths[i] && paths[i..][1..] == paths[i + 1..];
        var fileId := host.uploadId(paths[i]);
        if fileId != "" {
          assert fileIds.ids + ([fileId] + UploadedIds(paths[i + 1..], host.uploadId))
              == (fileIds.ids + [fileId]) + UploadedIds(paths[i + 1..], host.uploadId);
          fileIds.ids := fileIds.ids + [fileId];
        } else {
          assert UploadedIds(paths[i..], host.uploadId) == [] + UploadedIds(paths[i + 1..], host.uploadId);
        }
        i := i + 1;
      }
      assert paths[i..] == [];
      assert fileIds.ids + [] == fileIds.ids;
    }
  }
}
