/**
 * The job lifecycle as an invariant over the service's state: how the
 * registry, the queue, the worker's current job and the output directory
 * agree with one another, that every step keeps that agreement, and what
 * follows from it (no lost job, FIFO completion, downloadable results).
 */
module Lifecycle {

  import opened Artifacts
  import opened Jobs
  import opened Queries

  /** The id of the job the worker holds, if any, as a sequence of zero or one ids. */
  function InFlightIds(w: Option<Job>): seq<string> {
    if w.Some? then [w.value.id] else []
  }

  /** Each status tells where its job is: finished, with the worker, or waiting in the queue. */
  ghost predicate StatusesAgree(jobs: Registry, queue: seq<Job>, inFlight: Option<Job>, finished: seq<string>) {
    && (forall i | 0 <= i < |finished| :: finished[i] in jobs && jobs[finished[i]].IsTerminal())
    && (inFlight.Some? ==> inFlight.value.id in jobs && jobs[inFlight.value.id] == Running)
    && (forall i | 0 <= i < |queue| :: queue[i].id in jobs && jobs[queue[i].id] == Queued)
  }

  /**
   * Every registered id is still being admitted by its `start` (`pending`:
   * registered, uploads not yet decoded), was rejected at submission, or
   * was returned to its client. A pending or rejected id is `queued` and
   * was never returned, and no id is both pending and rejected.
   */
  ghost predicate Tracked(jobs: Registry, accepted: seq<string>, rejected: set<string>, pending: set<string>) {
    && (forall id | id in rejected :: id in jobs && jobs[id] == Queued && id !in accepted)
    && (forall id | id in pending :: id in jobs && jobs[id] == Queued && id !in accepted && id !in rejected)
    && (forall id | id in jobs :: id in rejected || id in pending || id in accepted)
  }

  /**
   * The service invariant. `accepted` (ids returned by `start`, in order),
   * `finished` (ids that reached a terminal status, in order), `rejected`
   * and `pending` are history the source does not store.
   */
  ghost predicate Consistent(
    jobs: Registry, queue: seq<Job>, files: FileStore, inFlight: Option<Job>,
    accepted: seq<string>, finished: seq<string>, rejected: set<string>, pending: set<string>)
  {
    && (forall id | id in jobs :: IsUuidText(id))
    && accepted == finished + InFlightIds(inFlight) + Ids(queue)
    && Distinct(accepted)
    && (forall i | 0 <= i < |accepted| :: accepted[i] in jobs)
    && StatusesAgree(jobs, queue, inFlight, finished)
    && Tracked(jobs, accepted, rejected, pending)
    && DoneHasArtifact(jobs, files)
  }

  lemma ConcatAssoc(a: seq<string>, b: seq<string>, c: seq<string>)
    ensures (a + b) + c == a + (b + c)
  {
  }

  /** Appending a new element keeps a sequence free of repetitions. */
  lemma DistinctAppend(s: seq<string>, x: string)
    requires Distinct(s) && x !in s
    ensures Distinct(s + [x])
  {
    forall i, j | 0 <= i < j < |s| + 1 ensures (s + [x])[i] != (s + [x])[j] {
      if j == |s| {
        assert (s + [x])[i] == s[i];
      }
    }
  }

  /** The parts of a repetition-free `front + [x] + back`: `x` is in neither part, and each part has no repetitions. */
  lemma DistinctSplit(front: seq<string>, x: string, back: seq<string>)
    requires Distinct(front + [x] + back)
    ensures x !in front && x !in back
    ensures Distinct(front + [x]) && Distinct(back)
  {
    var s := front + [x] + back;
    assert s[|front|] == x;
    forall i | 0 <= i < |front| ensures front[i] != x {
      assert s[i] == front[i];
    }
    forall i | 0 <= i < |back| ensures back[i] != x {
      assert s[|front| + 1 + i] == back[i];
    }
    forall i, j | 0 <= i < j < |back| ensures back[i] != back[j] {
      assert s[|front| + 1 + i] == back[i] && s[|front| + 1 + j] == back[j];
    }
    forall i, j | 0 <= i < j < |front| + 1 ensures (front + [x])[i] != (front + [x])[j] {
      assert s[i] == (front + [x])[i] && s[j] == (front + [x])[j];
    }
  }

  /** The state at process start, with any files already in the output directory, is consistent. */
  lemma InitialConsistent(files: FileStore)
    ensures Consistent(map[], [], files, None, [], [], {}, {})
  {
    assert Ids([]) == [];
  }

  /** Registering a new id as `queued` changes no other job's status. */
  lemma RegisterKeepsStatuses(jobs: Registry, queue: seq<Job>, inFlight: Option<Job>, finished: seq<string>, id: string)
    requires StatusesAgree(jobs, queue, inFlight, finished) && id !in jobs
    ensures StatusesAgree(jobs[id := Queued], queue, inFlight, finished)
  {
  }

  /** Enqueueing a job registered as `queued` keeps the statuses in agreement with the queue. */
  lemma EnqueueKeepsStatuses(jobs: Registry, queue: seq<Job>, inFlight: Option<Job>, finished: seq<string>, job: Job)
    requires StatusesAgree(jobs, queue, inFlight, finished)
    requires job.id in jobs && jobs[job.id] == Queued
    ensures StatusesAgree(jobs, queue + [job], inFlight, finished)
  {
    forall i | 0 <= i < |queue + [job]|
      ensures (queue + [job])[i].id in jobs && jobs[(queue + [job])[i].id] == Queued
    {
      if i < |queue| {
        assert (queue + [job])[i] == queue[i];
      }
    }
  }

  /** A returned id enters the order as the last waiting job. */
  lemma EnqueueKeepsOrder(
    jobs: Registry, queue: seq<Job>, inFlight: Option<Job>,
    accepted: seq<string>, finished: seq<string>, job: Job)
    requires accepted == finished + InFlightIds(inFlight) + Ids(queue)
    requires Distinct(accepted) && job.id !in accepted
    requires forall i | 0 <= i < |accepted| :: accepted[i] in jobs
    requires job.id in jobs
    ensures accepted + [job.id] == finished + InFlightIds(inFlight) + Ids(queue + [job])
    ensures Distinct(accepted + [job.id])
    ensures forall i | 0 <= i < |accepted + [job.id]| :: (accepted + [job.id])[i] in jobs
  {
    IdsAppend(queue, job);
    ConcatAssoc(finished + InFlightIds(inFlight), Ids(queue), [job.id]);
    DistinctAppend(accepted, job.id);
    forall i | 0 <= i < |accepted + [job.id]| ensures (accepted + [job.id])[i] in jobs {
      if i < |accepted| {
        assert (accepted + [job.id])[i] == accepted[i];
      }
    }
  }

  /**
   * The first half of `start` keeps the invariant: a fresh uuid is
   * registered as `queued` and becomes pending until its uploads are decoded.
   */
  lemma RegisterKeeps(
    jobs: Registry, queue: seq<Job>, files: FileStore, inFlight: Option<Job>,
    accepted: seq<string>, finished: seq<string>, rejected: set<string>, pending: set<string>, id: string)
    requires Consistent(jobs, queue, files, inFlight, accepted, finished, rejected, pending)
    requires IsUuidText(id) && id !in jobs
    ensures Consistent(jobs[id := Queued], queue, files, inFlight, accepted, finished, rejected, pending + {id})
  {
    var jobs' := jobs[id := Queued];
    assert id !in accepted;
    RegisterKeepsStatuses(jobs, queue, inFlight, finished, id);
    assert Tracked(jobs', accepted, rejected, pending + {id});
    assert DoneHasArtifact(jobs', files);
  }

  /**
   * The second half of `start` for uploads that decode keeps the
   * invariant: the pending job is enqueued at the tail and its id returned.
   */
  lemma AdmitAcceptedKeeps(
    jobs: Registry, queue: seq<Job>, files: FileStore, inFlight: Option<Job>,
    accepted: seq<string>, finished: seq<string>, rejected: set<string>, pending: set<string>, job: Job)
    requires Consistent(jobs, queue, files, inFlight, accepted, finished, rejected, pending)
    requires job.id in pending
    ensures Consistent(jobs, queue + [job], files, inFlight, accepted + [job.id], finished, rejected, pending - {job.id})
  {
    EnqueueKeepsOrder(jobs, queue, inFlight, accepted, finished, job);
    EnqueueKeepsStatuses(jobs, queue, inFlight, finished, job);
    forall id | id in jobs ensures id in rejected || id in pending - {job.id} || id in accepted + [job.id] {
      if id == job.id {
        assert (accepted + [job.id])[|accepted|] == id;
      } else if id in accepted {
        var k :| 0 <= k < |accepted| && accepted[k] == id;
        assert (accepted + [job.id])[k] == id;
      }
    }
    assert Tracked(jobs, accepted + [job.id], rejected, pending - {job.id});
  }

  /**
   * The second half of `start` for uploads that do not decode keeps the
   * invariant: the id stays registered as `queued`, is recorded as
   * rejected, and nothing is enqueued.
   */
  lemma AdmitRejectedKeeps(
    jobs: Registry, queue: seq<Job>, files: FileStore, inFlight: Option<Job>,
    accepted: seq<string>, finished: seq<string>, rejected: set<string>, pending: set<string>, id: string)
    requires Consistent(jobs, queue, files, inFlight, accepted, finished, rejected, pending)
    requires id in pending
    ensures Consistent(jobs, queue, files, inFlight, accepted, finished, rejected + {id}, pending - {id})
  {
    assert Tracked(jobs, accepted, rejected + {id}, pending - {id});
  }

  /** The worker taking the head of the queue and marking it `running` keeps the invariant. */
  lemma TakeKeeps(
    jobs: Registry, queue: seq<Job>, files: FileStore,
    accepted: seq<string>, finished: seq<string>, rejected: set<string>, pending: set<string>)
    requires Consistent(jobs, queue, files, None, accepted, finished, rejected, pending)
    requires queue != []
    ensures Consistent(jobs[queue[0].id := Running], queue[1..], files, Some(queue[0]), accepted, finished, rejected, pending)
  {
    var job := queue[0];
    var rest := queue[1..];
    var jobs' := jobs[job.id := Running];
    assert Ids(queue) == [job.id] + Ids(rest);
    assert finished + InFlightIds(None) == finished;
    ConcatAssoc(finished, [job.id], Ids(rest));
    assert accepted == finished + [job.id] + Ids(rest);
    assert accepted == finished + InFlightIds(Some(job)) + Ids(rest);
    DistinctSplit(finished, job.id, Ids(rest));
    forall i | 0 <= i < |rest| ensures rest[i].id in jobs' && jobs'[rest[i].id] == Queued {
      assert rest[i] == queue[i + 1];
      assert Ids(rest)[i] == rest[i].id;
    }
    forall i | 0 <= i < |finished| ensures finished[i] in jobs' && jobs'[finished[i]].IsTerminal() {
      assert finished[i] != job.id;
    }
    assert StatusesAgree(jobs', rest, Some(job), finished);
    assert accepted[|finished|] == job.id;
    assert Tracked(jobs', accepted, rejected, pending);
    assert DoneHasArtifact(jobs', files);
  }

  /** Recording a terminal status for the worker's job moves it from the worker to the finished jobs. */
  lemma FinishKeepsStatuses(jobs: Registry, queue: seq<Job>, job: Job, finished: seq<string>, outcome: Status)
    requires StatusesAgree(jobs, queue, Some(job), finished)
    requires outcome.IsTerminal() && job.id !in finished && job.id !in Ids(queue)
    ensures StatusesAgree(jobs[job.id := outcome], queue, None, finished + [job.id])
  {
    var jobs' := jobs[job.id := outcome];
    forall i | 0 <= i < |queue| ensures queue[i].id in jobs' && jobs'[queue[i].id] == Queued {
      assert Ids(queue)[i] == queue[i].id;
    }
    forall i | 0 <= i < |finished + [job.id]|
      ensures (finished + [job.id])[i] in jobs' && jobs'[(finished + [job.id])[i]].IsTerminal()
    {
      if i < |finished| {
        assert (finished + [job.id])[i] == finished[i];
      }
    }
  }

  /**
   * Publishing one uuid-named job keeps every other done job's published
   * file, and a normal return makes this job's file non-empty: the
   * publication guarantee survives the worker's update of the registry.
   */
  lemma PublishKeepsArtifacts(jobs: Registry, files: FileStore, files': FileStore, id: string, ok: bool)
    requires DoneHasArtifact(jobs, files)
    requires forall other | other in jobs :: IsUuidText(other)
    requires forall p | p != StagingPath(id) && p != CanonicalPath(id) :: SameAt(files, files', p)
    requires ok ==> CanonicalPath(id) in files' && |files'[CanonicalPath(id)]| > 0
    ensures DoneHasArtifact(jobs[id := if ok then Done else Failed], files')
  {
    var jobs' := jobs[id := if ok then Done else Failed];
    forall other | other in jobs' && jobs'[other] == Done
      ensures CanonicalPath(other) in files' && |files'[CanonicalPath(other)]| > 0
    {
      if other != id {
        UuidTextIsPlain(other);
        StagingNeverCanonical(id, other);
        CanonicalInjective(id, other);
        assert SameAt(files, files', CanonicalPath(other));
      }
    }
  }

  /**
   * While the worker holds a job, its publication keeps the invariant: the
   * job is still `running`, and no other job's files change.
   */
  lemma PublishKeeps(
    jobs: Registry, queue: seq<Job>, files: FileStore, job: Job,
    accepted: seq<string>, finished: seq<string>, rejected: set<string>, pending: set<string>,
    files': FileStore)
    requires Consistent(jobs, queue, files, Some(job), accepted, finished, rejected, pending)
    requires forall p | p != StagingPath(job.id) && p != CanonicalPath(job.id) :: SameAt(files, files', p)
    ensures Consistent(jobs, queue, files', Some(job), accepted, finished, rejected, pending)
  {
    PublishKeepsArtifacts(jobs, files, files', job.id, false);
    forall other | other in jobs && jobs[other] == Done
      ensures CanonicalPath(other) in files' && |files'[CanonicalPath(other)]| > 0
    {
      assert jobs[job.id := Failed][other] == Done;
    }
  }

  /**
   * The worker recording the outcome of its job keeps the invariant,
   * provided publication touched no other job's files and a normal return
   * left a non-empty published file.
   */
  lemma FinishKeeps(
    jobs: Registry, queue: seq<Job>, files: FileStore, job: Job,
    accepted: seq<string>, finished: seq<string>, rejected: set<string>, pending: set<string>,
    files': FileStore, ok: bool)
    requires Consistent(jobs, queue, files, Some(job), accepted, finished, rejected, pending)
    requires forall p | p != StagingPath(job.id) && p != CanonicalPath(job.id) :: SameAt(files, files', p)
    requires ok ==> CanonicalPath(job.id) in files' && |files'[CanonicalPath(job.id)]| > 0
    ensures Consistent(jobs[job.id := if ok then Done else Failed], queue, files', None,
                       accepted, finished + [job.id], rejected, pending)
  {
    var id := job.id;
    var jobs' := jobs[id := if ok then Done else Failed];
    assert InFlightIds(Some(job)) == [id] && InFlightIds(None) == [];
    assert (finished + [id]) + [] == finished + [id];
    assert accepted == (finished + [id]) + InFlightIds(None) + Ids(queue);
    DistinctSplit(finished, id, Ids(queue));
    assert jobs'.Keys == jobs.Keys;
    FinishKeepsStatuses(jobs, queue, job, finished, if ok then Done else Failed);
    assert accepted[|finished|] == id;
    assert Tracked(jobs', accepted, rejected, pending);
    PublishKeepsArtifacts(jobs, files, files', id, ok);
  }

  /** A returned id is finished, held by the worker, or waiting in the queue. */
  lemma AcceptedIsSomewhere(
    jobs: Registry, queue: seq<Job>, files: FileStore, inFlight: Option<Job>,
    accepted: seq<string>, finished: seq<string>, rejected: set<string>, pending: set<string>, k: nat)
    requires Consistent(jobs, queue, files, inFlight, accepted, finished, rejected, pending)
    requires k < |accepted|
    ensures k < |finished| ==> accepted[k] == finished[k]
    ensures |finished| <= k < |finished| + |InFlightIds(inFlight)| ==> accepted[k] == inFlight.value.id
    ensures |finished| + |InFlightIds(inFlight)| <= k ==>
      accepted[k] == queue[k - |finished| - |InFlightIds(inFlight)|].id
  {
    var n := |finished| + |InFlightIds(inFlight)|;
    if n <= k {
      assert accepted[k] == Ids(queue)[k - n];
    }
  }

  /**
   * No silent loss: a registered job's status says exactly where it is. It is
   * `queued` iff it waits in the queue, is still being admitted by its
   * `start`, or was rejected at submission; `running` iff the worker holds
   * it; and terminal iff it has finished.
   */
  lemma StatusTellsPosition(
    jobs: Registry, queue: seq<Job>, files: FileStore, inFlight: Option<Job>,
    accepted: seq<string>, finished: seq<string>, rejected: set<string>, pending: set<string>, id: string)
    requires Consistent(jobs, queue, files, inFlight, accepted, finished, rejected, pending)
    requires id in jobs
    ensures jobs[id] == Queued <==> id in rejected || id in pending || id in Ids(queue)
    ensures jobs[id] == Running <==> inFlight.Some? && inFlight.value.id == id
    ensures jobs[id].IsTerminal() <==> id in finished
  {
    if id in Ids(queue) {
      var i :| 0 <= i < |queue| && Ids(queue)[i] == id;
      assert queue[i].id == id;
    }
    if id !in rejected && id !in pending {
      var k :| 0 <= k < |accepted| && accepted[k] == id;
      AcceptedIsSomewhere(jobs, queue, files, inFlight, accepted, finished, rejected, pending, k);
      var n := |finished| + |InFlightIds(inFlight)|;
      if n <= k {
        assert Ids(queue)[k - n] == id;
      }
    }
  }

  /**
   * FIFO completion with one worker: when a later-submitted job has left
   * `queued`, every job submitted before it has already reached `done` or
   * `failed`.
   */
  lemma EarlierFinishesFirst(
    jobs: Registry, queue: seq<Job>, files: FileStore, inFlight: Option<Job>,
    accepted: seq<string>, finished: seq<string>, rejected: set<string>, pending: set<string>, i: nat, j: nat)
    requires Consistent(jobs, queue, files, inFlight, accepted, finished, rejected, pending)
    requires i < j < |accepted|
    requires jobs[accepted[j]] != Queued
    ensures jobs[accepted[i]].IsTerminal()
  {
    AcceptedIsSomewhere(jobs, queue, files, inFlight, accepted, finished, rejected, pending, i);
    AcceptedIsSomewhere(jobs, queue, files, inFlight, accepted, finished, rejected, pending, j);
  }

  /** Completion order is submission order: the finished ids are a prefix of the returned ids. */
  lemma FinishedIsPrefix(
    jobs: Registry, queue: seq<Job>, files: FileStore, inFlight: Option<Job>,
    accepted: seq<string>, finished: seq<string>, rejected: set<string>, pending: set<string>)
    requires Consistent(jobs, queue, files, inFlight, accepted, finished, rejected, pending)
    ensures finished <= accepted
  {
    forall i | 0 <= i < |finished| ensures accepted[i] == finished[i] {
      assert (finished + InFlightIds(inFlight) + Ids(queue))[i] == finished[i];
    }
  }

  /**
   * In every consistent state, a download of any id never answers 500, and
   * answers with the file exactly for the jobs whose status is `done`.
   */
  lemma DownloadOfConsistent(
    jobs: Registry, queue: seq<Job>, files: FileStore, inFlight: Option<Job>,
    accepted: seq<string>, finished: seq<string>, rejected: set<string>, pending: set<string>, id: string)
    requires Consistent(jobs, queue, files, inFlight, accepted, finished, rejected, pending)
    ensures HttpCode(Download(jobs, files, id)) != 500
    ensures HttpCode(Download(jobs, files, id)) == 200 <==> StatusReply(jobs, id) == "done"
    ensures Download(jobs, files, id).FileResponse? ==> |Download(jobs, files, id).body| > 0
  {
    DownloadNeverMissing(jobs, files, id);
  }
}
