/**
 * Whole runs of a freshly started service, as a client sees them through
 * `status` and `download`. Each method drives the service through its
 * handlers and worker steps and states the replies it must get.
 */
module Scenarios {

  import opened Artifacts
  import opened Jobs
  import opened Queries
  import opened Service

  /** A fresh service after `start` has accepted `id`. */
  method StartOne(id: string, image: seq<byte>, mask: seq<bool>, existing: FileStore)
    returns (service: JobService)
    requires IsUuidText(id)
    ensures fresh(service) && service.Valid()
    ensures service.jobs == map[id := Queued]
    ensures service.queue == [Job(id, image, mask)]
    ensures service.inFlight == None
  {
    service := new JobService(existing);
    var started := service.Start(id, image, mask, Decoded);
  }

  /** One job whose compute and export succeed: `queued`, `running`, `done`, then the exported bytes. */
  method SucceedingJob(id: string, image: seq<byte>, mask: seq<bool>, glb: seq<byte>, existing: FileStore)
    returns (trace: seq<string>, reply: DownloadReply)
    requires IsUuidText(id) && |glb| > 0
    ensures trace == ["queued", "running", "done"]
    ensures reply.FileResponse? && reply.path == CanonicalPath(id) && reply.body == glb
  {
    var service := StartOne(id, image, mask, existing);
    var queued := StatusReply(service.jobs, id);
    var taken := service.Take();
    var running := StatusReply(service.jobs, id);
    var ok := service.Finish(Io(true, Exported(glb), true, true));
    trace := [queued, running, StatusReply(service.jobs, id)];
    reply := Download(service.jobs, service.files, id);
  }

  /**
   * One job whose compute raises: `queued`, `running`, `failed`; the
   * download answers 409, never 500.
   */
  method RaisingJob(id: string, image: seq<byte>, mask: seq<bool>, existing: FileStore)
    returns (trace: seq<string>, reply: DownloadReply)
    requires IsUuidText(id)
    ensures trace == ["queued", "running", "failed"]
    ensures HttpCode(reply) == 409
  {
    var service := StartOne(id, image, mask, existing);
    var queued := StatusReply(service.jobs, id);
    var taken := service.Take();
    var running := StatusReply(service.jobs, id);
    var ok := service.Finish(Io(true, ModelRaised, true, true));
    trace := [queued, running, StatusReply(service.jobs, id)];
    reply := Download(service.jobs, service.files, id);
  }

  /**
   * An export that writes an empty file: the rename still happens, so an
   * empty file sits at the published path, but the hard check turns the job
   * into `failed` and the download answers 409.
   */
  method EmptyExportJob(id: string, image: seq<byte>, mask: seq<bool>, existing: FileStore)
    returns (status: string, reply: DownloadReply, published: Option<seq<byte>>)
    requires IsUuidText(id)
    ensures status == "failed"
    ensures HttpCode(reply) == 409
    ensures published == Some([])
  {
    var service := StartOne(id, image, mask, existing);
    var taken := service.Take();
    var ok := service.Finish(Io(true, Exported([]), true, true));
    status := StatusReply(service.jobs, id);
    reply := Download(service.jobs, service.files, id);
    published := if CanonicalPath(id) in service.files then Some(service.files[CanonicalPath(id)]) else None;
  }

  /**
   * A submission whose uploads do not decode: the client gets 400 or 500
   * and no id, yet the id is registered and reports `queued` from then on.
   * A job accepted after it is run by the worker, which passes the rejected
   * id by.
   */
  method RejectedUpload(r: string, a: string, image: seq<byte>, mask: seq<bool>, decoding: Decoding, existing: FileStore, io: Io)
    returns (reply: StartReply, before: string, after: string, other: string)
    requires IsUuidText(r) && IsUuidText(a) && r != a
    requires decoding != Decoded
    ensures reply == if decoding == Refused then BadRequest else ServerError
    ensures before == "queued" && after == "queued"
    ensures other in {"done", "failed"}
  {
    var service := new JobService(existing);
    reply := service.Start(r, image, mask, decoding);
    before := StatusReply(service.jobs, r);
    var started := service.Start(a, image, mask, Decoded);
    var stepped, ok := service.WorkerIteration(io);
    after := StatusReply(service.jobs, r);
    other := StatusReply(service.jobs, a);
  }

  /**
   * Two `start` requests that interleave at their suspension point: `a` is
   * registered first, but `b` decodes its uploads first, so the worker runs
   * `b` while `a`, registered and not yet enqueued, still reports `queued`.
   * When `a` is admitted it joins the queue behind `b`.
   */
  method OvertakingStart(a: string, b: string, image: seq<byte>, mask: seq<bool>, existing: FileStore)
    returns (statusA: string, statusB: string, waiting: seq<string>)
    requires IsUuidText(a) && IsUuidText(b) && a != b
    ensures statusA == "queued" && statusB == "running"
    ensures waiting == [a]
  {
    var service := RegisterTwo(a, b, existing);
    var replyB := service.Admit(b, image, mask, Decoded);
    assert service.queue == [Job(b, image, mask)];
    var taken := service.Take();
    statusA, statusB := StatusReply(service.jobs, a), StatusReply(service.jobs, b);
    assert service.queue == [];
    var replyA := service.Admit(a, image, mask, Decoded);
    assert service.queue == [Job(a, image, mask)];
    waiting := Ids(service.queue);
  }

  /** A fresh service in which two `start` requests have registered `a` and then `b`, and neither has decoded its uploads. */
  method RegisterTwo(a: string, b: string, existing: FileStore) returns (service: JobService)
    requires IsUuidText(a) && IsUuidText(b) && a != b
    ensures fresh(service) && service.Valid()
    ensures service.jobs == map[a := Queued, b := Queued]
    ensures service.pending == {a, b}
    ensures service.queue == [] && service.inFlight == None
  {
    service := new JobService(existing);
    service.Register(a);
    service.Register(b);
  }

  /** A fresh service after `start` has accepted `a` and then `b`. */
  method StartTwo(a: string, b: string, image: seq<byte>, mask: seq<bool>, existing: FileStore)
    returns (service: JobService)
    requires IsUuidText(a) && IsUuidText(b) && a != b
    ensures fresh(service) && service.Valid()
    ensures service.jobs == map[a := Queued, b := Queued]
    ensures service.queue == [Job(a, image, mask), Job(b, image, mask)]
    ensures service.inFlight == None
  {
    service := StartOne(a, image, mask, existing);
    var startedB := service.Start(b, image, mask, Decoded);
  }

  /**
   * Two jobs submitted back to back with one worker: the second stays
   * `queued` until the first has reached `done` or `failed`, and only then
   * starts running. The two sequences are the statuses of the first and of
   * the second job after the worker takes the first, finishes it, and takes
   * the second.
   */
  method TwoJobsInOrder(a: string, b: string, image: seq<byte>, mask: seq<bool>, io: Io, existing: FileStore)
    returns (first: seq<string>, second: seq<string>)
    requires IsUuidText(a) && IsUuidText(b) && a != b
    ensures |first| == 3 && |second| == 3
    ensures first[0] == "running" && second[0] == "queued"
    ensures first[1] in {"done", "failed"} && second[1] == "queued"
    ensures first[2] == first[1] && second[2] == "running"
  {
    var service := StartTwo(a, b, image, mask, existing);
    var taken := service.Take();
    var a0, b0 := StatusReply(service.jobs, a), StatusReply(service.jobs, b);
    var ok := service.Finish(io);
    var a1, b1 := StatusReply(service.jobs, a), StatusReply(service.jobs, b);
    taken := service.Take();
    var a2, b2 := StatusReply(service.jobs, a), StatusReply(service.jobs, b);
    first, second := [a0, a1, a2], [b0, b1, b2];
  }
}
