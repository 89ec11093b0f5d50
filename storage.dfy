/** The pure part of the hosted-backend client: the storage URL builders and the shaping
    of a collection listing into a status record. The backend calls themselves are not
    modelled; a listing is passed in as the outcome the SDK produced. */
module Storage {
  import opened Common

  /** The build-time environment: `VITE_APPWRITE_ENDPOINT`, `VITE_APPWRITE_PROJECT_ID`
      and `VITE_APPWRITE_BUCKET_ID` (the module's `BUCKET_ID`). */
  datatype Env = Env(endpoint: string, projectId: string, bucketId: string)

  /** The part every URL for one stored file begins with:
      `<endpoint>/storage/buckets/<bucket>/files/<file>/`. */
  function FileBase(env: Env, fileId: string): (r: string)
    ensures env.endpoint <= r
    ensures |r| == |env.endpoint| + |"/storage/buckets/"| + |env.bucketId| + |"/files/"| + |fileId| + 1
  {
    env.endpoint + "/storage/buckets/" + env.bucketId + "/files/" + fileId + "/"
  }

  const PreviewQuery: string := "&width=800&height=600"

  /** `getFilePreviewUrl`: no URL (null) for a falsy id, otherwise the preview URL
      with a fixed 800x600 size. A missing id and the empty string are both falsy. */
  function GetFilePreviewUrl(env: Env, fileId: string): (r: Option<string>)
    ensures r.None? <==> fileId == ""
    ensures r.Some? ==>
              r.value == FileBase(env, fileId) + "preview?project=" + env.projectId + PreviewQuery
  {
    if fileId == "" then None
    else Some(env.endpoint + "/storage/buckets/" + env.bucketId + "/files/" + fileId
              + "/preview?project=" + env.projectId + "&width=800&height=600")
  }

  /** `getFileViewUrl`: no URL (null) for a falsy id, otherwise the direct view URL. */
  function GetFileViewUrl(env: Env, fileId: string): (r: Option<string>)
    ensures r.None? <==> fileId == ""
    ensures r.Some? ==> r.value == FileBase(env, fileId) + "view?project=" + env.projectId
  {
    if fileId == "" then None
    else Some(env.endpoint + "/storage/buckets/" + env.bucketId + "/files/" + fileId
              + "/view?project=" + env.projectId)
  }

  /** The preview and view URLs of one file share the file's base and differ right after
      it: one continues with "preview", the other with "view". */
  lemma PreviewAndViewShareBase(env: Env, fileId: string)
    requires fileId != ""
    ensures GetFilePreviewUrl(env, fileId).Some? && GetFileViewUrl(env, fileId).Some?
    ensures FileBase(env, fileId) <= GetFilePreviewUrl(env, fileId).value
    ensures FileBase(env, fileId) <= GetFileViewUrl(env, fileId).value
    ensures GetFilePreviewUrl(env, fileId).value[|FileBase(env, fileId)|] == 'p'
    ensures GetFileViewUrl(env, fileId).value[|FileBase(env, fileId)|] == 'v'
    ensures GetFilePreviewUrl(env, fileId).value != GetFileViewUrl(env, fileId).value
  {
    var base := FileBase(env, fileId);
    var preview := GetFilePreviewUrl(env, fileId).value;
    var view := GetFileViewUrl(env, fileId).value;
    assert preview == base + ("preview?project=" + env.projectId + PreviewQuery);
    assert view == base + ("view?project=" + env.projectId);
    assert preview[|base|] == 'p';
    assert view[|base|] == 'v';
  }

  /** What `databases.listDocuments` delivered: a page of documents with the collection's
      total, or a thrown error with its message. */
  datatype ListOutcome<D> =
    | Listed(total: int, documents: seq<D>)
    | Threw(message: string)

  /** The object `checkCollectionStatus` resolves to: `{exists: true, count, hasDocuments}`
      or `{exists: false, error}`. */
  datatype CollectionStatus =
    | Present(count: int, hasDocuments: bool)
    | Absent(error: string)
  {
    predicate Exists() { Present? }
  }

  /** The result mapping of `checkCollectionStatus`. */
  function CheckCollectionStatus<D>(outcome: ListOutcome<D>): (r: CollectionStatus)
    ensures r.Exists() <==> outcome.Listed?
    ensures outcome.Listed? ==>
              r.count == outcome.total && (r.hasDocuments <==> |outcome.documents| > 0)
    ensures outcome.Threw? ==> r.error == outcome.message
  {
    match outcome
    case Listed(total, documents) => Present(total, |documents| > 0)
    case Threw(message) => Absent(message)
  }
}
