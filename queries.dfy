/**
 * The two read-only handlers, `status` and `download`, as decisions over the
 * registry and the file store. Being functions, neither can change either.
 */
module Queries {

  import opened Artifacts
  import opened Jobs

  /** The process-wide `jobs` dictionary: job id to status. */
  type Registry = map<string, Status>

  /** What `download` answers: the file with its headers, 409 "Not ready" or 500 "Result missing". */
  datatype DownloadReply =
    | FileResponse(path: string, mediaType: string, filename: string, body: seq<byte>)
    | NotReady
    | ResultMissing

  /** The HTTP status code of a download reply. */
  function HttpCode(r: DownloadReply): (code: int)
    ensures code == 200 <==> r.FileResponse?
    ensures code == 409 <==> r.NotReady?
    ensures code == 500 <==> r.ResultMissing?
  {
    match r
    case FileResponse(_, _, _, _) => 200
    case NotReady => 409
    case ResultMissing => 500
  }

  /** `GET /status/{job_id}`: the stored status, or "unknown" for an id never registered. */
  function StatusReply(jobs: Registry, id: string): (s: string)
    ensures s == "unknown" <==> id !in jobs
    ensures id in jobs ==> s == StatusName(jobs[id])
    ensures s == "done" <==> id in jobs && jobs[id] == Done
  {
    if id in jobs then StatusName(jobs[id]) else "unknown"
  }

  /** `GET /download/{job_id}`: the published file of a done job, and nothing else. */
  function Download(jobs: Registry, files: FileStore, id: string): (r: DownloadReply)
    ensures r.NotReady? <==> StatusReply(jobs, id) != "done"
    ensures r.ResultMissing? <==> StatusReply(jobs, id) == "done" && CanonicalPath(id) !in files
    ensures r.FileResponse? <==> StatusReply(jobs, id) == "done" && CanonicalPath(id) in files
    ensures r.FileResponse? ==>
      && r.path == CanonicalPath(id)
      && r.body == files[CanonicalPath(id)]
      && r.mediaType == "model/gltf-binary"
      && r.filename == id + ".glb"
  {
    if id !in jobs || jobs[id] != Done then
      NotReady
    else if CanonicalPath(id) !in files then
      ResultMissing
    else
      var path := CanonicalPath(id);
      FileResponse(path, "model/gltf-binary", id + ".glb", files[path])
  }

  /** The publication guarantee: every done job's published file exists and is not empty. */
  ghost predicate DoneHasArtifact(jobs: Registry, files: FileStore) {
    forall id | id in jobs && jobs[id] == Done ::
      CanonicalPath(id) in files && |files[CanonicalPath(id)]| > 0
  }

  /**
   * Under the publication guarantee a download never fails with 500, and a
   * successful one always carries a non-empty artifact.
   */
  lemma DownloadNeverMissing(jobs: Registry, files: FileStore, id: string)
    requires DoneHasArtifact(jobs, files)
    ensures !Download(jobs, files, id).ResultMissing?
    ensures Download(jobs, files, id).FileResponse? <==> id in jobs && jobs[id] == Done
    ensures Download(jobs, files, id).FileResponse? ==> |Download(jobs, files, id).body| > 0
  {
  }
}
