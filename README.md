# Job lifecycle of the inference service, in Dafny

The service in `shared/api.py` takes an image and a mask, queues a
long-running 3D-reconstruction job, and lets clients poll the job's status
and download the resulting `.glb` file. This project models the job
lifecycle at the centre of that service:

- the process-wide registry `jobs` (job id to `queued`, `running`, `done`
  or `failed`) and the FIFO `queue` of pending work;
- `start`, which registers a new id as `queued` and then enqueues the job;
- the single worker loop that takes the head of the queue, marks it
  `running`, runs the inference and records `done` or `failed`;
- `run_inference`'s publication sequence: remove a leftover staging file,
  export into `{id}.tmp.glb`, fsync, `os.replace` it over `{id}.glb`, and
  fail unless the published file exists and is non-empty;
- the read-only handlers `status` and `download`.

Modules, one per component:

- `artifacts.dfy` (`Artifacts`): bytes, the file store (a map from path to
  contents), the output directory and the two per-job paths, and what the
  shape of a uuid guarantees about them.
- `jobs.dfy` (`Jobs`): the status values and their names, a queue item.
- `queries.dfy` (`Queries`): `status` and `download` as functions of the
  registry and the file store. Being functions, they cannot change either,
  and two calls on the same state give the same answer.
- `lifecycle.dfy` (`Lifecycle`): the service invariant over the registry,
  queue, worker and files, one lemma per step showing the step keeps it, and
  its consequences: no lost job, FIFO completion, and, while no other
  process touches the output directory, a `done` job always has a
  non-empty file.
- `service.dfy` (`Service`): the class `JobService` whose fields are the
  source's state. Each of its methods is one stretch of a handler or of the
  worker between two suspension points. A run of the service is any
  sequence of these calls whose preconditions hold, which is how the one
  worker and the request handlers interleave. These runs include more than
  the source's. For example, `RunInference` may be called on its own, or
  more than once for the same job, where the source calls `run_inference`
  once per job from the worker (shared/api.py:107). Likewise any step may
  run between `Register` and `Admit`, though in the source `start` can
  yield there only if `await u.read()` (43) actually suspends; a
  content-type refusal (41-42) raises before any suspension. Every
  safety lemma holds for all of these runs.
- `scenarios.dfy` (`Scenarios`): complete runs from process start, with the
  replies a client must see.

`start` may suspend inside `await u.read()` (shared/api.py:43), reached
from its first `await` (141). That happens after it has registered the id
(139) and before it enqueues the job (147). So it is two methods. `Register` is the registration. `Admit` decodes the uploads and
either enqueues the job or fails the request. Between the two, an id is
`pending`: registered and `queued`, but not in the queue. `Start` is both
with nothing in between.

The worker iteration is split in the same way at
`await asyncio.to_thread(...)` (107). `Take` is `queue.get()` plus
`jobs[job_id] = "running"`. `Finish` is the inference, the terminal status
and `task_done`. So a status request between them sees `running`.
`WorkerIteration` is both halves with nothing in between. The worker's
position in its loop is the field `inFlight`. `Take` can only be called
while the worker waits at `queue.get()`, and `Finish` only while it holds a
job. `RunInference` is the part of `Finish` that runs in the thread, for
the job the worker holds.

The foreign effects of `run_inference` are one input value, `Io`. It says
whether the leftover unlink succeeds, and what the model and export do: the
model raises, the export raises (possibly leaving bytes behind), or the
export writes given bytes. It also says whether fsync and `os.replace`
return normally. fsync changes nothing in the abstract store.

Two consequences of the code as written, which the model reproduces:

- `start` registers the id as `queued` (shared/api.py:139) before it
  decodes the uploads (141-145). When decoding raises, the client never
  learns the id, but the id stays registered as `queued` for ever, and it
  is never enqueued. The client gets 400 when `pil_from_upload_file`
  refuses an upload (41-42, 44-50). It gets 500 when `u.read()` (43) or
  `to_numpy_rgb` / `to_numpy_mask_2d` (144-145) raises, because no handler
  catches those. The `Decoding` input of `Admit` picks among these three
  outcomes. `Scenarios.RejectedUpload` shows this.
- The writer is meant to make "done" mean "file complete" (shared/api.py:67,
  89). But `os.replace` (92) runs before the size check (95). So an export
  that writes an empty file leaves an empty `{id}.glb` at the published
  path, and the job is `failed`. `download` still answers 409 for it,
  because the status is not `done`. `Scenarios.EmptyExportJob` shows this.

## Model

| member | source | states |
|---|---|---|
| Artifacts.StagingIsNotCanonical | shared/api.py:77-78 | for every id the staging path differs from the published path |
| Artifacts.PathsInOutDir | shared/api.py:77-78 | for a slash-free id both paths lie directly in `out_dir`, so the rename stays within one directory |
| Artifacts.CanonicalInjective | shared/api.py:78 | two ids have the same published path iff they are the same id |
| Artifacts.StagingInjective | shared/api.py:77 | two ids have the same staging path iff they are the same id |
| Artifacts.StagingMeetsCanonical | shared/api.py:77-78 | the staging path of `a` is the published path of `b` iff `b` is `a + ".tmp"` |
| Artifacts.StagingNeverCanonical | shared/api.py:77-78 | no job's staging file is the published file of a dot-free id |
| Artifacts.UuidTextIsPlain | shared/api.py:138 | the text of a uuid4 contains neither a dot nor a slash |
| Jobs.StatusName | shared/api.py:105-110 | a stored status is never reported as "unknown"; the name is "done" / "failed" exactly for those statuses |
| Jobs.StatusNameInjective | shared/api.py:153 | different statuses give different replies |
| Queries.StatusReply | shared/api.py:151-153 | "unknown" iff the id is not registered, else the stored status's name |
| Queries.Download | shared/api.py:156-171 | 409 iff the status is not exactly "done" (including unknown ids); 500 iff done and `{id}.glb` is absent; otherwise that file's bytes, path, media type and file name |
| Queries.HttpCode | shared/api.py:159-171 | the reply kinds map to 200, 409 and 500, one to one |
| Queries.DownloadNeverMissing | shared/api.py:95-96 | while every done job has a non-empty published file, a download never gives 500, and it succeeds exactly for done jobs with a non-empty body |
| Lifecycle.InitialConsistent | shared/api.py:33-34 | an empty registry and queue with an idle worker satisfy the invariant, whatever files already exist |
| Lifecycle.RegisterKeeps | shared/api.py:138-139 | registering a fresh uuid as queued keeps the invariant, with the id pending until its uploads are decoded |
| Lifecycle.AdmitAcceptedKeeps | shared/api.py:144-148 | enqueuing a pending job at the tail and returning its id keeps the invariant |
| Lifecycle.AdmitRejectedKeeps | shared/api.py:139-145 | a pending id whose uploads are rejected stays queued, is recorded as rejected, and the invariant holds |
| Lifecycle.TakeKeeps | shared/api.py:104-105 | taking the head of the queue and marking it running keeps the invariant |
| Lifecycle.FinishKeepsStatuses | shared/api.py:106-110 | a terminal status for the worker's job moves it to the finished jobs and leaves every queued job queued |
| Lifecycle.PublishKeepsArtifacts | shared/api.py:76-110 | a publication that touches only its own two files keeps every other done job's non-empty file, and a normal return makes its own file non-empty |
| Lifecycle.PublishKeeps | shared/api.py:76-107 | while the worker holds a job, a publication that touches only that job's two files keeps the invariant |
| Lifecycle.FinishKeeps | shared/api.py:106-115 | recording done on a normal return and failed otherwise keeps the invariant |
| Lifecycle.StatusTellsPosition | shared/api.py:103-147 | no silent loss: queued iff waiting in the queue, pending in its `start`, or rejected; running iff held by the worker; done or failed iff finished |
| Lifecycle.EarlierFinishesFirst | shared/api.py:103-147 | with one worker, when a job whose id was returned later has left queued, every job returned earlier is done or failed |
| Lifecycle.FinishedIsPrefix | shared/api.py:103-147 | jobs reach a terminal status in the order their ids were returned by start |
| Lifecycle.DownloadOfConsistent | shared/api.py:156-165 | in every reachable state a download never answers 500 and answers 200 exactly when the status is "done", with a non-empty body |
| Service.JobService.constructor | shared/api.py:33-34 | process start: empty registry and queue, idle worker, the existing output directory |
| Service.JobService.Register | shared/api.py:138-139 | the fresh id becomes queued and pending, and no other status changes |
| Service.JobService.Admit | shared/api.py:40-148 | decoded uploads put the job at the tail of the queue and return the id; a refused upload gives 400 and a crash in reading or conversion gives 500, both leaving the queue as it was and recording the id as rejected; the id is no longer pending and the registry is untouched |
| Service.JobService.Start | shared/api.py:138-148 | the id becomes queued and no other status changes; decoded uploads put the job at the tail of the queue and return the id; otherwise 400 or 500 by the decoding outcome, with the queue as it was |
| Service.JobService.RunInference | shared/api.py:76-96 | for the job the worker holds: returns normally iff the export wrote non-empty bytes and fsync and replace succeeded; after a rename the published file holds exactly the exported bytes and no staging file remains; without one the published file is unchanged; no other file changes; the invariant is kept |
| Service.JobService.Take | shared/api.py:104-105 | with a non-empty queue it removes exactly the head, which was queued, and marks it running; with an empty one nothing changes |
| Service.JobService.Finish | shared/api.py:106-115 | the worker's job, which was running, becomes done iff run_inference returned normally, else failed; the queue is untouched, the worker is free for the next item, the published file holds the exported bytes with no staging file left after a rename and is unchanged without one; without a rename the staging path holds the exported or partial bytes, or is removed or unchanged by the unlink; no other job's files change |
| Service.JobService.WorkerIteration | shared/api.py:103-115 | one iteration removes exactly the head, sets it to done or failed by the outcome, changes no other status nor the rest of the queue, publishes the exported bytes and leaves no staging file after a rename; without a rename the staging path holds the exported or partial bytes, or is removed or unchanged by the unlink; no other job's files change |
| Scenarios.SucceedingJob | shared/api.py:138-171 | a succeeding job reports queued, running, done and then downloads exactly the exported bytes |
| Scenarios.RaisingJob | shared/api.py:103-113 | a job whose model raises reports queued, running, failed and its download answers 409 |
| Scenarios.EmptyExportJob | shared/api.py:90-96 | an empty export ends failed with download 409, though an empty file was renamed into place |
| Scenarios.RejectedUpload | shared/api.py:139-147 | a submission whose uploads fail to decode gives 400 or 500 by the failure, but its id reports queued, even after the worker has run a job accepted after it |
| Scenarios.OvertakingStart | shared/api.py:139-147 | a `start` registered later but decoded earlier is run first, while the earlier id still reports queued without being in the queue |
| Scenarios.TwoJobsInOrder | shared/api.py:103-110 | of two jobs submitted back to back, the second stays queued until the first is done or failed |

## Left out

- FastAPI routing, `UploadFile` reading, `HTTPException` and `uvicorn`: framework glue. Replies are the datatypes `StartReply` and `DownloadReply`. An exception no handler catches is the reply `ServerError`.
- `pil_from_upload_file`, `to_numpy_rgb`, `to_numpy_mask_2d` (content-type check, PIL decoding, EXIF transpose, resize): library behaviour. Their joint outcome is the `Decoding` input of `Admit` (decoded, refused with 400, or raised into a 500), and the decoded buffers are opaque inputs.
- `Inference` and `model(image, mask, seed=42)`, and the `.export` of its result: a foreign model. Its outcome is part of `Io`, and the bytes are not derived from the inputs.
- `_fsync_file`: durability to disk cannot be expressed on an abstract store. It is a no-op that may raise (`Io.fsyncOk`).
- `Path.exists()`, `stat()` and `os.replace` are each modelled as one atomic step. A reader racing the rename sees the store before or after it, never in between. The bytes written inside one export call are not modelled.
- `asyncio.to_thread`, `create_task`, `task.cancel` and `queue.task_done` accounting: the scheduling is the order of method calls. A cancelled worker leaves its job `running`, which is the state before `Finish`.
- The two `await pil_from_upload_file` calls of `start` (shared/api.py:141-142) are one suspension point in the model, between `Register` and `Admit`: nothing shared is written between them. `await queue.put` on the unbounded queue (147) does not suspend, so enqueueing and returning the id are one step.
- The worker thread's file writes during `run_inference` happen at once in `Finish`. Handlers running meanwhile read other jobs' files, which it does not touch, or get 409 for the running job, so they cannot tell the difference.
- `uuid.uuid4()`: the id is supplied by the caller, must have the text form of a uuid, and must not be registered yet. Uuid collisions are not modelled.
- Liveness: that every queued job is eventually taken needs a fair scheduler, which is not modelled. The lemmas are about safety in every reachable state.
- Other processes that write to or delete from `out_dir`, such as the separate reaper suggested at shared/api.py:165-166, are not modelled: only `RunInference` changes the file store. `Queries.DoneHasArtifact`, and the "never 500" of `Lifecycle.DownloadOfConsistent`, hold only while nothing else touches the directory. The 500 branch of `download` (162-163) is modelled, and `Queries.Download` states when it is taken.
- `FileResponse` streams the file after the handler returns. The model's reply carries the bytes as they are when `download` runs.
- The model loading and directory creation at import time (shared/api.py:26-31), and traceback printing (shared/api.py:111-113).
