/** The values the service keeps about a job: its lifecycle status and its queued work item. */
module Jobs {

  import opened Artifacts

  datatype Option<T> = None | Some(value: T)

  /** The four strings the service ever stores in `jobs`. */
  datatype Status = Queued | Running | Done | Failed {

    /** `done` and `failed`: no step changes them, since a worker step only moves a `queued` or a `running` job. */
    predicate IsTerminal() {
      this == Done || this == Failed
    }
  }

  /** The text a status is stored and reported as. */
  function StatusName(s: Status): (name: string)
    ensures name != "unknown"
    ensures name == "done" <==> s == Done
    ensures name == "failed" <==> s == Failed
  {
    match s
    case Queued => "queued"
    case Running => "running"
    case Done => "done"
    case Failed => "failed"
  }

  /** Different statuses are reported as different strings, so a reply determines the status. */
  lemma StatusNameInjective(s: Status, t: Status)
    ensures StatusName(s) == StatusName(t) <==> s == t
  {
  }

  /**
   * One item of the work queue: the job id with its decoded image (H x W x 3
   * bytes) and its mask (H x W booleans).
   */
  datatype Job = Job(id: string, image: seq<byte>, mask: seq<bool>)

  /** The ids of the queued items, in queue order. */
  function Ids(q: seq<Job>): (ids: seq<string>)
    ensures |ids| == |q|
    ensures forall i | 0 <= i < |q| :: ids[i] == q[i].id
  {
    if q == [] then [] else [q[0].id] + Ids(q[1..])
  }

  /** Appending an item to the queue appends its id to the ids. */
  lemma IdsAppend(q: seq<Job>, j: Job)
    ensures Ids(q + [j]) == Ids(q) + [j.id]
  {
    assert |Ids(q + [j])| == |Ids(q) + [j.id]|;
    forall i | 0 <= i < |q| + 1
      ensures Ids(q + [j])[i] == (Ids(q) + [j.id])[i]
    {
      assert (q + [j])[i] == if i < |q| then q[i] else j;
    }
  }

  /** All elements of `s` are different. */
  predicate Distinct(s: seq<string>) {
    forall i, j | 0 <= i < j < |s| :: s[i] != s[j]
  }
}
