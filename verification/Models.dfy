/** The control plane's entities and their state machines (control/models.py). */
module Models {
  import opened Wrappers

  datatype JobStatus =
    Submitted | Validating | Rejected | Deploying | Running | Failing | Failed | Cancelling | Cancelled

  datatype TaskStatus = Created | Scheduled | Deploying | Running | Cancelling | Cancelled | Failed

  /** The declared transitions of a job. */
  predicate JobMay(from: JobStatus, to: JobStatus) {
    match from
    case Submitted => to == Validating
    case Validating => to == JobStatus.Deploying || to == Rejected
    case Deploying => to == JobStatus.Running || to == Failing
    case Running => to == JobStatus.Cancelling || to == Failing
    case Failing => to == JobStatus.Failed
    case Cancelling => to == JobStatus.Cancelled || to == Failing
    case _ => false
  }

  /** The declared transitions of a task. */
  predicate TaskMay(from: TaskStatus, to: TaskStatus) {
    match from
    case Created => to == Scheduled || to == TaskStatus.Failed
    case Scheduled => to == TaskStatus.Deploying || to == TaskStatus.Cancelled || to == TaskStatus.Failed
    case Deploying => to == TaskStatus.Running || to == TaskStatus.Cancelling || to == TaskStatus.Failed
    case Running => to == TaskStatus.Cancelling || to == TaskStatus.Failed
    case Cancelling => to == TaskStatus.Cancelled || to == TaskStatus.Failed
    case _ => false
  }

  predicate TerminalJob(s: JobStatus) {
    s == Rejected || s == JobStatus.Failed || s == JobStatus.Cancelled
  }

  predicate TerminalTask(s: TaskStatus) {
    s == TaskStatus.Failed || s == TaskStatus.Cancelled
  }

  /** A Worker and a slot of it. */
  type Place = (string, nat)

  datatype TaskInstance = TaskInstance(status: TaskStatus, place: Option<Place>)

  // ----- Workers and their slots -----

  datatype Worker = Worker(
    controlAddress: string,
    dataHost: string,
    dataPort: int,
    slots: seq<Option<string>>,
    lastHeartbeat: int)
  {
    predicate IsHealthy(now: int, timeout: int) {
      now - lastHeartbeat <= timeout
    }
  }

  function UsedSlots(slots: seq<Option<string>>): (n: nat)
    ensures n <= |slots|
  {
    if slots == [] then 0
    else UsedSlots(slots[..|slots| - 1]) + (if slots[|slots| - 1].Some? then 1 else 0)
  }

  function AvailableSlots(slots: seq<Option<string>>): nat {
    |slots| - UsedSlots(slots)
  }

  /** The lowest-numbered free slot. */
  function FirstFree(slots: seq<Option<string>>): (r: Option<nat>)
    ensures r.Some? ==> r.value < |slots| && slots[r.value].None? && forall i :: 0 <= i < r.value ==> slots[i].Some?
    ensures r.None? ==> forall i :: 0 <= i < |slots| ==> slots[i].Some?
  {
    if slots == [] then None
    else
      match FirstFree(slots[..|slots| - 1])
      case Some(i) => Some(i)
      case None => if slots[|slots| - 1].None? then Some(|slots| - 1) else None
  }

  /** The lowest-numbered slot that names the task. */
  function FirstNaming(slots: seq<Option<string>>, taskId: string): (r: Option<nat>)
    ensures r.Some? ==> r.value < |slots| && slots[r.value] == Some(taskId)
                        && forall i :: 0 <= i < r.value ==> slots[i] != Some(taskId)
    ensures r.None? ==> forall i :: 0 <= i < |slots| ==> slots[i] != Some(taskId)
  {
    if slots == [] then None
    else
      match FirstNaming(slots[..|slots| - 1], taskId)
      case Some(i) => Some(i)
      case None => if slots[|slots| - 1] == Some(taskId) then Some(|slots| - 1) else None
  }

  function Release(slots: seq<Option<string>>, taskId: string): (r: seq<Option<string>>)
    ensures |r| == |slots|
  {
    match FirstNaming(slots, taskId)
    case None => slots
    case Some(i) => slots[i := None]
  }

  lemma {:induction false} ReservingUsesOne(slots: seq<Option<string>>, i: nat, taskId: string)
    requires i < |slots| && slots[i].None?
    ensures UsedSlots(slots[i := Some(taskId)]) == UsedSlots(slots) + 1
  {
    var init, after := slots[..|slots| - 1], slots[i := Some(taskId)];
    if i < |init| {
      ReservingUsesOne(init, i, taskId);
      assert after[..|after| - 1] == init[i := Some(taskId)];
    } else {
      assert after[..|after| - 1] == init;
    }
  }

  /** A slot is free exactly if reserve finds one. */
  lemma {:induction false} FreeIffAvailable(slots: seq<Option<string>>)
    ensures FirstFree(slots).Some? <==> AvailableSlots(slots) > 0
  {
    if slots != [] {
      FreeIffAvailable(slots[..|slots| - 1]);
    }
  }

  lemma {:induction false} UnusedMeansFree(slots: seq<Option<string>>)
    ensures UsedSlots(slots) == 0 <==> forall i :: 0 <= i < |slots| ==> slots[i].None?
  {
    if slots != [] {
      UnusedMeansFree(slots[..|slots| - 1]);
    }
  }

  // ----- who holds which slot -----

  type Workers = map<string, Worker>

  type Holdings = map<string, Place>

  ghost predicate IsPlace(ws: Workers, p: Place) {
    p.0 in ws && p.1 < |ws[p.0].slots|
  }

  function At(ws: Workers, p: Place): Option<string>
    requires p.0 in ws && p.1 < |ws[p.0].slots|
  {
    ws[p.0].slots[p.1]
  }

  /** A task holds a slot exactly if that slot names the task; so no two tasks share one. */
  ghost predicate Ledger(ws: Workers, held: Holdings) {
    && (forall id :: id in held ==> IsPlace(ws, held[id]) && At(ws, held[id]) == Some(id))
    && (forall p: Place :: IsPlace(ws, p) && At(ws, p).Some? ==>
          At(ws, p).value in held && held[At(ws, p).value] == p)
  }

  /** The same Workers with as many slots each. */
  ghost predicate SameShape(a: Workers, b: Workers) {
    a.Keys == b.Keys && forall w :: w in a ==> |a[w].slots| == |b[w].slots|
  }

  /** Only what the slots name differs. */
  ghost predicate OnlySlotsDiffer(a: Workers, b: Workers) {
    SameShape(a, b) && forall w :: w in a ==> b[w] == a[w].(slots := b[w].slots)
  }

  /** Who holds what determines every slot table. */
  lemma LedgerDetermines(a: Workers, b: Workers, held: Holdings)
    requires Ledger(a, held) && Ledger(b, held) && SameShape(a, b)
    ensures forall w :: w in a ==> a[w].slots == b[w].slots
  {
    forall w, i | w in a && 0 <= i < |a[w].slots| ensures a[w].slots[i] == b[w].slots[i] {
      var p: Place := (w, i);
      assert IsPlace(a, p) && IsPlace(b, p);
      assert At(a, p) == At(b, p);
    }
  }
}
