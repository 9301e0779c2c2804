/**
 * The job service: the `jobs` registry, the FIFO `queue`, the output
 * directory, and the single worker that `lifespan` starts. Each stretch of a
 * handler or of the worker between two suspension points is one method; a
 * run of the service is any sequence of these calls whose preconditions
 * hold, which is how the one worker interleaves with the request handlers.
 * `RunInference` is the part of `Finish` that runs in a thread. In the
 * source only the worker calls it, once per job; calling it on its own, or
 * again, gives runs the source does not have, and the invariant holds in
 * those too.
 */
module Service {

  import opened Artifacts
  import opened Jobs
  import opened Queries
  import opened Lifecycle

  /** What the external model and export do when `run_inference` calls them. */
  datatype Compute =
    | ModelRaised                            // `model(image, mask, seed=42)` raised
    | ExportRaised(partial: Option<seq<byte>>)  // `.export` raised, possibly leaving bytes at the staging path
    | Exported(glb: seq<byte>)               // `.export` wrote `glb` to the staging path

  /**
   * The outcome of every foreign step of `run_inference`: whether the
   * defensive unlink succeeds, what the compute does, and whether fsync and
   * `os.replace` return normally.
   */
  datatype Io = Io(unlinkOk: bool, compute: Compute, fsyncOk: bool, replaceOk: bool) {

    /** Execution gets as far as `os.replace` and the rename happens. */
    predicate Replaces() {
      compute.Exported? && fsyncOk && replaceOk
    }

    /** `run_inference` returns normally: the rename happened and the file is not empty. */
    predicate Publishes() {
      Replaces() && |compute.glb| > 0
    }
  }

  /**
   * How decoding the two uploads in `start` ends: both decode; an upload is
   * refused by `pil_from_upload_file` with 400 (not an image content type,
   * or bytes that do not open as an image); or reading an upload or
   * converting a decoded image raises outside any handler, which the
   * framework answers with 500.
   */
  datatype Decoding = Decoded | Refused | Crashed

  /** What `POST /start` answers: the new job id, 400, or 500. */
  datatype StartReply = Started(jobId: string) | BadRequest | ServerError

  class JobService {
    /** `jobs`: id to status. */
    var jobs: Registry
    /** `queue`: the items put by `start` and not yet taken by the worker. */
    var queue: seq<Job>
    /** The output directory. */
    var files: FileStore
    /** The job the worker has taken off the queue and not finished, if any. */
    var inFlight: Option<Job>

    /** Every id returned to a client, in the order they were returned. */
    ghost var accepted: seq<string>
    /** Every id whose job reached `done` or `failed`, in the order they did. */
    ghost var finished: seq<string>
    /** Every id registered by a `start` whose uploads then failed to decode. */
    ghost var rejected: set<string>
    /** Every id registered by a `start` that has not yet decoded its uploads. */
    ghost var pending: set<string>

    ghost predicate Valid()
      reads this
    {
      Consistent(jobs, queue, files, inFlight, accepted, finished, rejected, pending)
    }

    /**
     * Process start: an empty registry and queue, an idle worker, and
     * whatever the output directory already holds.
     */
    constructor (existing: FileStore)
      ensures Valid()
      ensures jobs == map[] && queue == [] && inFlight == None && files == existing
      ensures accepted == [] && finished == [] && rejected == {} && pending == {}
    {
      jobs, queue, files, inFlight := map[], [], existing, None;
      accepted, finished, rejected, pending := [], [], {}, {};
      new;
      InitialConsistent(files);
      assert Consistent(jobs, queue, files, inFlight, accepted, finished, rejected, pending);
    }

    /**
     * The part of `POST /start` before its first suspension: the fresh id
     * `id` is registered as queued. Other handlers and the worker may run
     * before the same request goes on with `Admit`.
     */
    method Register(id: string)
      requires Valid()
      requires IsUuidText(id) && id !in jobs
      modifies this`jobs, this`pending
      ensures Valid()
      ensures jobs == old(jobs)[id := Queued]
      ensures pending == old(pending) + {id}
    {
      RegisterKeeps(jobs, queue, files, inFlight, accepted, finished, rejected, pending, id);
      jobs := jobs[id := Queued];
      pending := pending + {id};
    }

    /**
     * The rest of `POST /start` for the registered id `id`: when the uploads
     * decode, the job is put at the tail of the queue and its id returned;
     * otherwise the request fails with 400 or 500, and the id stays
     * registered as queued without being enqueued. The registry is not
     * touched.
     */
    method Admit(id: string, image: seq<byte>, mask: seq<bool>, decoding: Decoding) returns (r: StartReply)
      requires Valid() && id in pending
      modifies this`queue, this`accepted, this`rejected, this`pending
      ensures Valid()
      ensures pending == old(pending) - {id}
      ensures decoding == Decoded ==> r == Started(id) && queue == old(queue) + [Job(id, image, mask)]
      ensures decoding == Decoded ==> accepted == old(accepted) + [id] && rejected == old(rejected)
      ensures decoding == Refused ==> r == BadRequest
      ensures decoding == Crashed ==> r == ServerError
      ensures decoding != Decoded ==>
        queue == old(queue) && accepted == old(accepted) && rejected == old(rejected) + {id}
    {
      if decoding != Decoded {
        AdmitRejectedKeeps(jobs, queue, files, inFlight, accepted, finished, rejected, pending, id);
        rejected := rejected + {id};
        pending := pending - {id};
        return if decoding == Refused then BadRequest else ServerError;
      }
      AdmitAcceptedKeeps(jobs, queue, files, inFlight, accepted, finished, rejected, pending, Job(id, image, mask));
      queue := queue + [Job(id, image, mask)];
      accepted := accepted + [id];
      pending := pending - {id};
      r := Started(id);
    }

    /**
     * `POST /start` with the fresh id `id` when no other step runs between
     * its registration and its admission.
     */
    method Start(id: string, image: seq<byte>, mask: seq<bool>, decoding: Decoding) returns (r: StartReply)
      requires Valid()
      requires IsUuidText(id) && id !in jobs
      modifies this`jobs, this`queue, this`accepted, this`rejected, this`pending
      ensures Valid()
      ensures jobs == old(jobs)[id := Queued] && pending == old(pending)
      ensures decoding == Decoded ==> r == Started(id) && queue == old(queue) + [Job(id, image, mask)]
      ensures decoding == Decoded ==> accepted == old(accepted) + [id] && rejected == old(rejected)
      ensures decoding == Refused ==> r == BadRequest
      ensures decoding == Crashed ==> r == ServerError
      ensures decoding != Decoded ==>
        queue == old(queue) && accepted == old(accepted) && rejected == old(rejected) + {id}
    {
      assert id !in pending;
      Register(id);
      r := Admit(id, image, mask, decoding);
    }

    /**
     * `run_inference(id, ...)` as the worker calls it for the job it holds:
     * clean the staging file, export into it, fsync, rename it over the
     * published file, and check that the result is not empty. `ok` is false
     * exactly when the source raises. The registry still says `running`, so
     * the invariant holds whatever is published.
     */
    method RunInference(id: string, io: Io) returns (ok: bool)
      requires Valid() && inFlight.Some? && id == inFlight.value.id
      modifies this`files
      ensures Valid()
      ensures ok <==> io.Publishes()
      // only this id's two files change
      ensures forall p | p != StagingPath(id) && p != CanonicalPath(id) :: SameAt(old(files), files, p)
      // the rename moved the exported bytes into place and left no staging file
      ensures io.Replaces() ==>
        && CanonicalPath(id) in files && files[CanonicalPath(id)] == io.compute.glb
        && StagingPath(id) !in files
      // before the rename, nothing is visible at the published path
      ensures !io.Replaces() ==> SameAt(old(files), files, CanonicalPath(id))
      // what is left at the staging path when the rename does not happen
      ensures !io.Replaces() && io.compute.Exported? ==>
        StagingPath(id) in files && files[StagingPath(id)] == io.compute.glb
      ensures io.compute.ExportRaised? && io.compute.partial.Some? ==>
        StagingPath(id) in files && files[StagingPath(id)] == io.compute.partial.value
      ensures io.compute.ModelRaised? || (io.compute.ExportRaised? && io.compute.partial.None?) ==>
        if io.unlinkOk then StagingPath(id) !in files else SameAt(old(files), files, StagingPath(id))
    {
      var tmp, final := StagingPath(id), CanonicalPath(id);
      StagingIsNotCanonical(id);
      // defensive clean-up; a failing unlink is swallowed
      if tmp in files && io.unlinkOk {
        files := files - {tmp};
      }
      match io.compute {
        case ModelRaised =>
          ok := false;
        case ExportRaised(partial) =>
          if partial.Some? {
            files := files[tmp := partial.value];
          }
          ok := false;
        case Exported(glb) =>
          files := files[tmp := glb];
          // fsync only makes the bytes durable: it changes nothing in the store
          if !io.fsyncOk || !io.replaceOk {
            ok := false;
          } else {
            files := files[final := files[tmp]] - {tmp};
            // the hard invariant
            ok := final in files && |files[final]| > 0;
          }
      }
      PublishKeeps(jobs, queue, old(files), inFlight.value, accepted, finished, rejected, pending, files);
    }

    /**
     * The worker's `queue.get()` and `jobs[job_id] = "running"`. With an
     * empty queue the worker stays suspended and nothing changes.
     */
    method Take() returns (taken: bool)
      requires Valid() && inFlight == None
      modifies this`queue, this`jobs, this`inFlight
      ensures Valid()
      ensures taken <==> old(queue) != []
      ensures taken ==>
        && old(jobs)[old(queue)[0].id] == Queued
        && inFlight == Some(old(queue)[0])
        && queue == old(queue)[1..]
        && jobs == old(jobs)[old(queue)[0].id := Running]
      ensures !taken ==> queue == old(queue) && jobs == old(jobs) && inFlight == None
    {
      if queue == [] {
        return false;
      }
      var job := queue[0];
      TakeKeeps(jobs, queue, files, accepted, finished, rejected, pending);
      queue := queue[1..];
      jobs := jobs[job.id := Running];
      inFlight := Some(job);
      taken := true;
    }

    /**
     * The rest of one worker iteration: run the job, record `done` if
     * `run_inference` returned and `failed` if it raised, acknowledge the
     * item and go back to waiting. A failure never leaves the loop.
     */
    method Finish(io: Io) returns (ok: bool)
      requires Valid() && inFlight.Some?
      modifies this`files, this`jobs, this`inFlight, this`finished
      ensures Valid()
      ensures ok <==> io.Publishes()
      ensures old(jobs)[old(inFlight).value.id] == Running
      ensures inFlight == None && queue == old(queue)
      ensures jobs == old(jobs)[old(inFlight).value.id := if ok then Done else Failed]
      ensures finished == old(finished) + [old(inFlight).value.id]
      ensures forall p | p != StagingPath(old(inFlight).value.id) && p != CanonicalPath(old(inFlight).value.id) ::
        SameAt(old(files), files, p)
      ensures io.Replaces() ==>
        CanonicalPath(old(inFlight).value.id) in files && files[CanonicalPath(old(inFlight).value.id)] == io.compute.glb
      ensures io.Replaces() ==> StagingPath(old(inFlight).value.id) !in files
      ensures !io.Replaces() ==> SameAt(old(files), files, CanonicalPath(old(inFlight).value.id))
      ensures !io.Replaces() && io.compute.Exported? ==>
        StagingPath(old(inFlight).value.id) in files && files[StagingPath(old(inFlight).value.id)] == io.compute.glb
      ensures io.compute.ExportRaised? && io.compute.partial.Some? ==>
        StagingPath(old(inFlight).value.id) in files && files[StagingPath(old(inFlight).value.id)] == io.compute.partial.value
      ensures (io.compute.ModelRaised? || (io.compute.ExportRaised? && io.compute.partial.None?)) ==>
        if io.unlinkOk then StagingPath(old(inFlight).value.id) !in files else SameAt(old(files), files, StagingPath(old(inFlight).value.id))
    {
      var job := inFlight.value;
      ok := RunInference(job.id, io);
      FinishKeeps(jobs, queue, old(files), job, accepted, finished, rejected, pending, files, ok);
      jobs := jobs[job.id := if ok then Done else Failed];
      finished := finished + [job.id];
      inFlight := None;
    }

    /**
     * One whole iteration of the worker loop from `queue.get()` to
     * `queue.task_done()`, with no handler running in between.
     */
    method WorkerIteration(io: Io) returns (stepped: bool, ok: bool)
      requires Valid() && inFlight == None
      modifies this`files, this`jobs, this`inFlight, this`finished, this`queue
      ensures Valid()
      ensures stepped <==> old(queue) != []
      ensures inFlight == None
      ensures stepped ==>
        && queue == old(queue)[1..]
        && jobs == old(jobs)[old(queue)[0].id := if ok then Done else Failed]
        && finished == old(finished) + [old(queue)[0].id]
        && (ok <==> io.Publishes())
      ensures stepped ==> forall p | p != StagingPath(old(queue)[0].id) && p != CanonicalPath(old(queue)[0].id) ::
        SameAt(old(files), files, p)
      ensures stepped && io.Replaces() ==>
        CanonicalPath(old(queue)[0].id) in files && files[CanonicalPath(old(queue)[0].id)] == io.compute.glb
      ensures stepped && io.Replaces() ==> StagingPath(old(queue)[0].id) !in files
      ensures stepped && !io.Replaces() ==> SameAt(old(files), files, CanonicalPath(old(queue)[0].id))
      ensures stepped && !io.Replaces() && io.compute.Exported? ==>
        StagingPath(old(queue)[0].id) in files && files[StagingPath(old(queue)[0].id)] == io.compute.glb
      ensures stepped && io.compute.ExportRaised? && io.compute.partial.Some? ==>
        StagingPath(old(queue)[0].id) in files && files[StagingPath(old(queue)[0].id)] == io.compute.partial.value
      ensures stepped && (io.compute.ModelRaised? || (io.compute.ExportRaised? && io.compute.partial.None?)) ==>
        if io.unlinkOk then StagingPath(old(queue)[0].id) !in files else SameAt(old(files), files, StagingPath(old(queue)[0].id))
      ensures !stepped ==> unchanged(this)
    {
      ok := false;
      ghost var waiting := jobs;
      stepped := Take();
      if stepped {
        var id := inFlight.value.id;
        ok := Finish(io);
        Overwrite(waiting, id, Running, if ok then Done else Failed);
      }
    }
  }

  /** Setting a key twice leaves only the second value. */
  lemma Overwrite(m: Registry, k: string, first: Status, second: Status)
    ensures m[k := first][k := second] == m[k := second]
  {
  }
}
