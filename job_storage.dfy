/**
 * Job result storage of registrar/apps/core/job_storage.py: results are
 * saved under `job-results/{job_id}.{file_extension}` as UTF-8, and the url
 * is computed from that path by the backend-specific `_get_url`.  The S3
 * presigned url comes from boto3 and is a parameter.
 */
module JobStorage {
  import opened Wrappers
  import opened Utf8
  import opened Text
  import Storage

  const ResultsDirectory: string := "job-results/"

  /** `'job-results/{}.{}'.format(job_id, file_extension)`. */
  function ResultPath(jobId: string, fileExtension: string): (p: string)
    ensures StartsWith(p, ResultsDirectory)
    ensures p == ResultsDirectory + jobId + "." + fileExtension
  {
    ResultsDirectory + jobId + "." + fileExtension
  }

  /**
   * Job ids are uuid strings of one length, so two jobs never share a result
   * file: the path determines the job id and the extension.
   */
  lemma ResultPathDistinct(id1: string, ext1: string, id2: string, ext2: string)
    requires |id1| == |id2|
    requires ResultPath(id1, ext1) == ResultPath(id2, ext2)
    ensures id1 == id2 && ext1 == ext2
  {
    var p := ResultPath(id1, ext1);
    var n := |ResultsDirectory|;
    assert id1 == p[n..n + |id1|];
    assert id2 == ResultPath(id2, ext2)[n..n + |id2|];
    assert ext1 == p[n + |id1| + 1..];
    assert ext2 == ResultPath(id2, ext2)[n + |id2| + 1..];
  }

  /** The index of the last '/' in s, if any. */
  function LastSlash(s: string): (r: Option<nat>)
    ensures r.Some? ==> r.value < |s| && s[r.value] == '/' && forall k :: r.value < k < |s| ==> s[k] != '/'
    ensures r.None? ==> '/' !in s
  {
    if s == [] then None
    else if s[|s| - 1] == '/' then Some(|s| - 1)
    else LastSlash(s[..|s| - 1])
  }

  /**
   * `urljoin(base, rel)` for a base that is a path (no scheme or host) and a
   * relative reference without scheme, query, fragment or dot segments: an
   * absolute path replaces the base, otherwise the reference replaces the
   * base's last segment.
   */
  function UrlJoin(base: string, rel: string): string
  {
    if rel == "" then base
    else if rel[0] == '/' then rel
    else match LastSlash(base)
      case None => rel
      case Some(i) => base[..i + 1] + rel
  }

  /** A base ending in '/' is kept whole, and the reference is appended. */
  lemma UrlJoinDirectory(base: string, rel: string)
    requires |base| > 0 && base[|base| - 1] == '/'
    requires rel != "" && rel[0] != '/'
    ensures UrlJoin(base, rel) == base + rel
  {
    assert base[..|base|] == base;
  }

  /** `settings.MEDIA_URL`. */
  const MediaUrl: string := "/api/media/"

  datatype Kind =
    | BaseKind                          // `JobResultStorageBase`: `_get_url` is abstract
    | FileSystemKind(mediaUrl: string)
    | S3Kind(presign: string -> string) // `generate_presigned_url('get_object', ...)`

  /** `_get_url(result_path)`: Err where the base class raises NotImplementedError. */
  function GetUrl(kind: Kind, resultPath: string): (r: Result<string, string>)
    ensures r.Err? <==> kind.BaseKind?
    ensures kind.FileSystemKind? ==> r == Ok(UrlJoin(kind.mediaUrl, resultPath))
    ensures kind.S3Kind? ==> r == Ok(kind.presign(resultPath))
  {
    match kind
    case BaseKind => Err("NotImplementedError")
    case FileSystemKind(mediaUrl) => Ok(UrlJoin(mediaUrl, resultPath))
    case S3Kind(presign) => Ok(presign(resultPath))
  }

  /** The file-system url of a result is the media url followed by the result path. */
  lemma FileSystemResultUrl(jobId: string, fileExtension: string)
    ensures GetUrl(FileSystemKind(MediaUrl), ResultPath(jobId, fileExtension))
      == Ok("/api/media/job-results/" + jobId + "." + fileExtension)
  {
    var p := ResultPath(jobId, fileExtension);
    assert p[0] == 'j';
    UrlJoinDirectory(MediaUrl, p);
    assert MediaUrl + ResultsDirectory == "/api/media/job-results/";
    assert MediaUrl + p == (MediaUrl + ResultsDirectory) + jobId + "." + fileExtension;
  }

  const S3StorageName: string := "S3Boto3Storage"
  const FileSystemStorageName: string := "FileSystemStorage"

  /** `get_job_result_store`: the store for the configured backend class name. */
  function JobResultStoreKindFor(className: string, presign: string -> string): (r: Result<Kind, string>)
    ensures r.Ok? <==> className == S3StorageName || className == FileSystemStorageName
    ensures className == S3StorageName ==> r == Ok(S3Kind(presign))
    ensures className == FileSystemStorageName ==> r == Ok(FileSystemKind(MediaUrl))
    ensures r.Err? ==> r.error == "Unsupported storage backend for job reults: " + className
  {
    if className == S3StorageName then Ok(S3Kind(presign))
    else if className == FileSystemStorageName then Ok(FileSystemKind(MediaUrl))
    else Err("Unsupported storage backend for job reults: " + className)
  }

  class JobResultStore {
    const backend: Storage.Backend
    const kind: Kind

    constructor (backend: Storage.Backend, kind: Kind)
      ensures this.backend == backend && this.kind == kind
    {
      this.backend := backend;
      this.kind := kind;
    }

    /**
     * `store(job_id, results, file_extension)`: the bytes are saved before the
     * url is computed, so the base class saves and then raises.
     */
    method Store(jobId: string, results: string, fileExtension: string, freshName: string)
      returns (r: Result<string, string>)
      requires freshName !in backend.files
      modifies backend
      ensures r == GetUrl(kind, ResultPath(jobId, fileExtension))
      ensures backend.overwrites || ResultPath(jobId, fileExtension) !in old(backend.files) ==>
        backend.files == old(backend.files)[ResultPath(jobId, fileExtension) := Encode(results)]
      ensures backend.files
           == old(backend.files)[old(backend.SavedName(ResultPath(jobId, fileExtension), freshName)) := Encode(results)]
      ensures ResultPath(jobId, fileExtension) in backend.files
    {
      var resultPath := ResultPath(jobId, fileExtension);
      var saved := backend.Save(resultPath, Encode(results), freshName);
      r := GetUrl(kind, resultPath);
    }
  }
}
