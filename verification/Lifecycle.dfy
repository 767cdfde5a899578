/** One job's run in the control plane: its tasks, and the pieces of which the manager's handlers are made. */
module Lifecycle {
  import opened Wrappers
  import opened Sequences
  import opened TaskIds
  import opened Models
  import opened Scheduler

  /** A job with its physical tasks. `ids` lists the tasks in the order in which the graph declares them. */
  datatype Run = Run(
    status: JobStatus,
    ids: seq<string>,
    deploymentOrder: seq<string>,
    tasks: Tasks,
    deployed: seq<string>)

  /** A call to a Worker. With a deploy call goes, as history, which tasks of the job were running then. */
  datatype Call =
    | Deploy(taskId: string, workerId: string, running: set<string>)
    | Stop(taskId: string, workerId: string)

  ghost predicate WellFormed(run: Run) {
    && NoDuplicates(run.ids) && (forall id :: id in run.ids <==> id in run.tasks)
    && NoDuplicates(run.deploymentOrder) && (forall id :: id in run.deploymentOrder <==> id in run.tasks)
    && NoDuplicates(run.deployed) && (forall id :: id in run.deployed ==> id in run.tasks)
  }

  /** Every task of a job carries the job's id in its own. */
  ghost predicate BelongsTo(jobId: string, taskId: string) {
    exists operatorId, subtask :: NoColon(operatorId) && taskId == TaskId(jobId, operatorId, subtask)
  }

  lemma JobsShareNoTask(a: string, b: string, taskId: string)
    requires BelongsTo(a, taskId) && BelongsTo(b, taskId)
    ensures a == b
  {
    var operatorA, subtaskA :| NoColon(operatorA) && taskId == TaskId(a, operatorA, subtaskA);
    var operatorB, subtaskB :| NoColon(operatorB) && taskId == TaskId(b, operatorB, subtaskB);
    TaskIdInjective(a, operatorA, subtaskA, b, operatorB, subtaskB);
  }

  ghost predicate Owned(jobId: string, tasks: Tasks) {
    forall id :: id in tasks ==> BelongsTo(jobId, id)
  }

  ghost predicate AllHave(tasks: Tasks, status: TaskStatus) {
    forall id :: id in tasks ==> tasks[id].status == status
  }

  ghost predicate NonePlaced(tasks: Tasks) {
    forall id :: id in tasks ==> tasks[id].place.None?
  }

  ghost predicate AllTerminal(tasks: Tasks) {
    forall id :: id in tasks ==> TerminalTask(tasks[id].status)
  }

  /** How a job looks between handlers: running in full, or over and holding nothing. */
  ghost predicate AtRest(run: Run) {
    match run.status
    case Running =>
      && AllHave(run.tasks, TaskStatus.Running) && (forall id :: id in run.tasks ==> run.tasks[id].place.Some?)
      && run.deployed == run.deploymentOrder
    case Failed => AllTerminal(run.tasks) && NonePlaced(run.tasks)
    case Cancelled => AllTerminal(run.tasks) && NonePlaced(run.tasks)
    case Rejected =>
      && NonePlaced(run.tasks) && run.deployed == []
      && (forall id :: id in run.tasks ==> run.tasks[id].status in {Created, TaskStatus.Failed})
    case _ => false
  }

  /** A task's declared transition. */
  function Move(t: TaskInstance, to: TaskStatus): TaskInstance
    requires TaskMay(t.status, to)
  {
    t.(status := to)
  }

  /** A job's declared transition. */
  function Enter(run: Run, to: JobStatus): Run
    requires JobMay(run.status, to)
  {
    run.(status := to)
  }

  predicate Stoppable(t: TaskInstance) {
    t.status == TaskStatus.Running || t.status == TaskStatus.Deploying
  }

  /** The stoppable ones among some tasks have been stopped, one way or the other; nothing else changed. */
  ghost predicate Stopped(tasks: Tasks, tasks': Tasks, ids: seq<string>) {
    && tasks'.Keys == tasks.Keys
    && forall id :: id in tasks ==>
         && tasks'[id].place == tasks[id].place
         && if id in ids && Stoppable(tasks[id]) then TerminalTask(tasks'[id].status)
            else tasks'[id].status == tasks[id].status
  }

  ghost predicate SomeStopFailed(tasks: Tasks, tasks': Tasks, ids: seq<string>)
    requires tasks'.Keys == tasks.Keys
  {
    exists id :: id in ids && id in tasks && Stoppable(tasks[id]) && tasks'[id].status == TaskStatus.Failed
  }

  /** A Worker can be asked to stop this task. */
  predicate Reachable(ws: Workers, t: TaskInstance) {
    t.place.Some? && t.place.value.0 in ws
  }

  /** The stop calls for some tasks, in order. */
  function StopCalls(ws: Workers, tasks: Tasks, ids: seq<string>): seq<Call>
    requires forall i :: 0 <= i < |ids| ==> ids[i] in tasks
  {
    if ids == [] then []
    else
      var id := ids[|ids| - 1];
      StopCalls(ws, tasks, ids[..|ids| - 1])
      + (if Stoppable(tasks[id]) && Reachable(ws, tasks[id]) then [Stop(id, tasks[id].place.value.0)] else [])
  }

  /** One more task's turn to be stopped. */
  lemma StopOneMore(tasks: Tasks, tasks': Tasks, ids: seq<string>, k: nat, t: TaskInstance)
    requires k < |ids| && NoDuplicates(ids) && ids[k] in tasks
    requires Stopped(tasks, tasks', ids[..k])
    requires t.place == tasks[ids[k]].place
    requires if Stoppable(tasks[ids[k]]) then TerminalTask(t.status) else t == tasks[ids[k]]
    ensures Stopped(tasks, tasks'[ids[k] := t], ids[..k + 1])
    ensures SomeStopFailed(tasks, tasks'[ids[k] := t], ids[..k + 1])
       <==> SomeStopFailed(tasks, tasks', ids[..k]) || (Stoppable(tasks[ids[k]]) && t.status == TaskStatus.Failed)
  {
    var id, later := ids[k], tasks'[ids[k] := t];
    assert ids[..k + 1] == ids[..k] + [id] && id !in ids[..k];
    forall x | x in tasks ensures x in ids[..k + 1] <==> x in ids[..k] || x == id {
    }
    if SomeStopFailed(tasks, tasks', ids[..k]) {
      var x :| x in ids[..k] && x in tasks && Stoppable(tasks[x]) && tasks'[x].status == TaskStatus.Failed;
      assert later[x].status == TaskStatus.Failed && x in ids[..k + 1];
    }
  }

  lemma NothingStopped(tasks: Tasks, ids: seq<string>)
    ensures Stopped(tasks, tasks, ids[..0]) && !SomeStopFailed(tasks, tasks, ids[..0])
  {
  }

  lemma NotStoppedYet(tasks: Tasks, tasks': Tasks, ids: seq<string>, k: nat)
    requires k < |ids| && NoDuplicates(ids) && ids[k] in tasks && Stopped(tasks, tasks', ids[..k])
    ensures tasks'[ids[k]] == tasks[ids[k]]
  {
    assert ids[k] !in ids[..k];
  }

  lemma NoStopCalls(ws: Workers, tasks: Tasks, ids: seq<string>)
    requires forall i :: 0 <= i < |ids| ==> ids[i] in tasks
    ensures StopCalls(ws, tasks, ids[..0]) == []
  {
  }

  lemma StopCallsGrow(ws: Workers, tasks: Tasks, ids: seq<string>, k: nat)
    requires k < |ids| && forall i :: 0 <= i < |ids| ==> ids[i] in tasks
    ensures StopCalls(ws, tasks, ids[..k + 1])
         == StopCalls(ws, tasks, ids[..k])
            + (if Stoppable(tasks[ids[k]]) && Reachable(ws, tasks[ids[k]])
               then [Stop(ids[k], tasks[ids[k]].place.value.0)] else [])
  {
    assert ids[..k + 1][..k] == ids[..k];
  }

  // ----- what the Workers answer -----

  /** What the Workers answer to the calls made to them, which are numbered from 0. */
  type Answers = nat -> bool

  /** The i-th call from number `from` on is answered well. */
  predicate Granted(answers: Answers, from: nat, i: nat) {
    answers(from + i)
  }

  ghost predicate AllGranted(answers: Answers, from: nat, n: nat) {
    forall i: nat :: i < n ==> Granted(answers, from, i)
  }

  /** How a task ends that was to be stopped. */
  function StopStatus(complied: bool): TaskStatus {
    if complied then TaskStatus.Cancelled else TaskStatus.Failed
  }

  /** Each stoppable task is CANCELLED exactly if its Worker was registered and answered its stop call well. */
  ghost predicate Answered(ws: Workers, tasks: Tasks, tasks': Tasks, ids: seq<string>, answers: Answers, from: nat)
    requires forall i :: 0 <= i < |ids| ==> ids[i] in tasks
  {
    && tasks'.Keys == tasks.Keys
    && forall i: nat :: i < |ids| && Stoppable(tasks[ids[i]]) ==>
         tasks'[ids[i]].status
         == StopStatus(tasks[ids[i]].place.Some? && tasks[ids[i]].place.value.0 in ws
                       && Granted(answers, from, |StopCalls(ws, tasks, ids[..i])|))
  }

  lemma NoAnswerYet(ws: Workers, tasks: Tasks, ids: seq<string>, answers: Answers, from: nat)
    requires forall i :: 0 <= i < |ids| ==> ids[i] in tasks
    ensures Answered(ws, tasks, tasks, ids[..0], answers, from)
  {
  }

  lemma AnsweredOneMore(ws: Workers, tasks: Tasks, tasks': Tasks, ids: seq<string>, k: nat, t: TaskInstance,
                        answers: Answers, from: nat)
    requires k < |ids| && NoDuplicates(ids) && forall i :: 0 <= i < |ids| ==> ids[i] in tasks
    requires Answered(ws, tasks, tasks', ids[..k], answers, from)
    requires Stoppable(tasks[ids[k]]) ==>
               t.status == StopStatus(Reachable(ws, tasks[ids[k]]) && Granted(answers, from, |StopCalls(ws, tasks, ids[..k])|))
    ensures Answered(ws, tasks, tasks'[ids[k] := t], ids[..k + 1], answers, from)
  {
    hide StopCalls, Granted;
    forall i: nat | i <= k ensures ids[..k + 1][..i] == ids[..i] && (i < k ==> ids[..k][..i] == ids[..i]) {
    }
  }

  /** Where every task is to be stopped and reachable, the i-th call is the i-th task's. */
  lemma {:induction false} EachIsCalled(ws: Workers, tasks: Tasks, ids: seq<string>)
    requires forall i :: 0 <= i < |ids| ==> ids[i] in tasks && Stoppable(tasks[ids[i]]) && Reachable(ws, tasks[ids[i]])
    ensures |StopCalls(ws, tasks, ids)| == |ids|
  {
    if ids != [] {
      EachIsCalled(ws, tasks, ids[..|ids| - 1]);
    }
  }

  lemma AllAnswered(ws: Workers, tasks: Tasks, tasks': Tasks, ids: seq<string>, answers: Answers, from: nat)
    requires forall i :: 0 <= i < |ids| ==> ids[i] in tasks && Stoppable(tasks[ids[i]]) && Reachable(ws, tasks[ids[i]])
    requires Answered(ws, tasks, tasks', ids, answers, from)
    ensures forall i: nat :: i < |ids| ==> ids[i] in tasks' && tasks'[ids[i]].status == StopStatus(Granted(answers, from, i))
  {
    forall i: nat | i < |ids| ensures ids[i] in tasks' && tasks'[ids[i]].status == StopStatus(Granted(answers, from, i)) {
      EachIsCalled(ws, tasks, ids[..i]);
    }
  }

  /**
   How each task of a job ends that is brought down: the failed one FAILED, those deployed by what their Workers
   answered, in the order of the stop calls, and those never deployed CANCELLED.
   */
  ghost predicate TornDown(deployed: seq<string>, tasks: Tasks, failed: string, answers: Answers, from: nat) {
    var ids := StopOrder(deployed, failed);
    && failed in tasks && tasks[failed].status == TaskStatus.Failed
    && (forall i: nat :: i < |ids| ==> ids[i] in tasks && tasks[ids[i]].status == StopStatus(Granted(answers, from, i)))
    && (forall id :: id in tasks && id != failed && id !in deployed ==> tasks[id].status == TaskStatus.Cancelled)
  }

  /** The tasks to stop when one has failed: the deployed ones, last deployed first, without the failed one. */
  function StopOrder(deployed: seq<string>, failed: string): seq<string> {
    Filter(Reversed(deployed), id => id != failed)
  }

  lemma ReversedMembers(s: seq<string>)
    ensures forall x :: x in Reversed(s) <==> x in s
    ensures NoDuplicates(s) ==> NoDuplicates(Reversed(s))
  {
    forall x | x in s ensures x in Reversed(s) {
      var i :| 0 <= i < |s| && s[i] == x;
      assert Reversed(s)[|s| - 1 - i] == x;
    }
    if NoDuplicates(s) {
      forall i, j | 0 <= i < j < |s| ensures Reversed(s)[i] != Reversed(s)[j] {
        assert s[|s| - 1 - j] != s[|s| - 1 - i];
      }
    }
  }

  lemma StopOrderIs(deployed: seq<string>, failed: string)
    ensures forall x :: x in StopOrder(deployed, failed) <==> x in deployed && x != failed
    ensures NoDuplicates(deployed) ==> NoDuplicates(StopOrder(deployed, failed))
  {
    ReversedMembers(deployed);
    FilterMembers(Reversed(deployed), id => id != failed);
  }

  /** Scheduled tasks, but for an excluded one, are cancelled. */
  function CancelScheduled(tasks: Tasks, exclude: Option<string>): Tasks {
    map id | id in tasks ::
      if tasks[id].status == Scheduled && exclude != Some(id) then Move(tasks[id], TaskStatus.Cancelled) else tasks[id]
  }

  /** The loop over all tasks that cancels the scheduled ones. */
  method CancelScheduledTasks(run: Run, exclude: Option<string>) returns (run': Run)
    requires NoDuplicates(run.ids) && forall id :: id in run.ids <==> id in run.tasks
    ensures run' == run.(tasks := CancelScheduled(run.tasks, exclude))
  {
    var tasks := run.tasks;
    for k := 0 to |run.ids|
      invariant tasks.Keys == run.tasks.Keys
      invariant forall id :: id in tasks ==>
                  tasks[id] == if id in run.ids[..k] then CancelScheduled(run.tasks, exclude)[id] else run.tasks[id]
    {
      var id := run.ids[k];
      assert id !in run.ids[..k];
      if tasks[id].status == Scheduled && exclude != Some(id) {
        tasks := tasks[id := Move(tasks[id], TaskStatus.Cancelled)];
      }
      assert run.ids[..k + 1] == run.ids[..k] + [id];
    }
    assert run.ids[..|run.ids|] == run.ids;
    assert tasks == CancelScheduled(run.tasks, exclude);
    return run.(tasks := tasks);
  }

  /**
   A run that a handler may still bring down: everything holds its slot; what was deployed is running; what was
   not is scheduled, except that the task which is about to fail may be in the middle of deploying.
   */
  ghost predicate Live(run: Run, failed: Option<string>) {
    && run.status in {JobStatus.Deploying, JobStatus.Running}
    && (forall id :: id in run.tasks ==>
          && run.tasks[id].place.Some?
          && if id in run.deployed then run.tasks[id].status == TaskStatus.Running
             else run.tasks[id].status == Scheduled
                  || (failed == Some(id) && run.tasks[id].status == TaskStatus.Deploying))
  }

  /** A run that is over: nothing of it is alive and it holds nothing. */
  ghost predicate Closed(run: Run, run': Run) {
    && AllTerminal(run'.tasks) && NonePlaced(run'.tasks) && run'.tasks.Keys == run.tasks.Keys
    && run'.ids == run.ids && run'.deploymentOrder == run.deploymentOrder && run'.deployed == run.deployed
  }

  lemma ClosedBy(run: Run, run': Run)
    requires AllTerminal(run'.tasks) && NonePlaced(run'.tasks) && run'.tasks.Keys == run.tasks.Keys
    requires run'.ids == run.ids && run'.deploymentOrder == run.deploymentOrder && run'.deployed == run.deployed
    ensures Closed(run, run')
  {
  }

  /** The failed task is marked as such, unless it is over already. */
  function MarkFailed(tasks: Tasks, failed: string): Tasks
    requires failed in tasks
  {
    if TerminalTask(tasks[failed].status) then tasks
    else tasks[failed := Move(tasks[failed], TaskStatus.Failed)]
  }

  /** Stopping the deployed tasks, cancelling the scheduled ones and releasing: nothing is left alive. */
  lemma FailingClosesTasks(run: Run, failed: string, stopped: Tasks)
    requires failed in run.tasks && Live(run, Some(failed))
    requires Stopped(MarkFailed(run.tasks, failed), stopped, StopOrder(run.deployed, failed))
    ensures AllTerminal(CancelScheduled(stopped, Some(failed)))
  {
    hide StopOrder;
    StopOrderIs(run.deployed, failed);
  }

  /** The Worker that a task was placed on. */
  function WorkerOf(tasks: Tasks, id: string): string {
    if id in tasks && tasks[id].place.Some? then tasks[id].place.value.0 else ""
  }

  /** The calls that stop some placed tasks. */
  function Stops(tasks: Tasks, ids: seq<string>): (r: seq<Call>)
    ensures |r| == |ids| && forall i :: 0 <= i < |ids| ==> r[i] == Stop(ids[i], WorkerOf(tasks, ids[i]))
  {
    seq(|ids|, i requires 0 <= i < |ids| => Stop(ids[i], WorkerOf(tasks, ids[i])))
  }

  /**
   The stop calls of a job that is brought down: each names a deployed task other than the failed one, with the Worker
   that it was placed on; each such task is named; and of two calls the earlier names the one that was deployed later.
   */
  ghost predicate StopsBackwards(tasks: Tasks, deployed: seq<string>, failed: string, calls: seq<Call>) {
    && (forall i :: 0 <= i < |calls| ==>
          && calls[i].Stop? && calls[i].taskId in deployed && calls[i].taskId != failed && calls[i].taskId in tasks
          && tasks[calls[i].taskId].place.Some? && calls[i].workerId == tasks[calls[i].taskId].place.value.0)
    && (forall x :: x in deployed && x != failed ==> exists i :: 0 <= i < |calls| && calls[i].taskId == x)
    && (forall i, j, a, b ::
          (0 <= i < j < |calls| && 0 <= a < |deployed| && 0 <= b < |deployed|
           && deployed[a] == calls[i].taskId && deployed[b] == calls[j].taskId) ==> b < a)
  }

  lemma StopsAreBackwards(tasks: Tasks, deployed: seq<string>, failed: string)
    requires NoDuplicates(deployed)
    requires forall x :: x in StopOrder(deployed, failed) ==> x in tasks && tasks[x].place.Some?
    ensures StopsBackwards(tasks, deployed, failed, Stops(tasks, StopOrder(deployed, failed)))
  {
    var ids, keep := StopOrder(deployed, failed), (id: string) => id != failed;
    StopOrderIs(deployed, failed);
    var calls := Stops(tasks, ids);
    forall i | 0 <= i < |calls| ensures calls[i].taskId in deployed && calls[i].taskId != failed {
      assert ids[i] in ids;
    }
    forall x | x in deployed && x != failed ensures exists i :: 0 <= i < |calls| && calls[i].taskId == x {
      assert x in ids;
      var i :| 0 <= i < |ids| && ids[i] == x;
      assert calls[i].taskId == x;
    }
    forall i, j, a, b | 0 <= i < j < |calls| && 0 <= a < |deployed| && 0 <= b < |deployed|
      && deployed[a] == calls[i].taskId && deployed[b] == calls[j].taskId
      ensures b < a
    {
      var p, q := FilterPlaces(Reversed(deployed), keep, i, j);
      assert deployed[|deployed| - 1 - p] == calls[i].taskId && deployed[|deployed| - 1 - q] == calls[j].taskId;
    }
  }

  lemma {:induction false} AllAreStopped(ws: Workers, tasks: Tasks, original: Tasks, ids: seq<string>)
    requires forall i :: 0 <= i < |ids| ==>
               && ids[i] in tasks && ids[i] in original && tasks[ids[i]] == original[ids[i]]
               && Stoppable(tasks[ids[i]]) && Reachable(ws, tasks[ids[i]]) && original[ids[i]].place.Some?
    ensures StopCalls(ws, tasks, ids) == Stops(original, ids)
  {
    if ids != [] {
      AllAreStopped(ws, tasks, original, ids[..|ids| - 1]);
    }
  }

  lemma {:induction false} NoneIsStopped(ws: Workers, tasks: Tasks, tasks': Tasks, ids: seq<string>)
    requires forall i :: 0 <= i < |ids| ==> ids[i] in tasks && !Stoppable(tasks[ids[i]])
    ensures StopCalls(ws, tasks, ids) == []
    ensures Stopped(tasks, tasks', ids) ==> tasks' == tasks
    decreases |ids|
  {
    if ids != [] {
      NoneIsStopped(ws, tasks, tasks, ids[..|ids| - 1]);
    }
    if Stopped(tasks, tasks', ids) {
      forall id | id in tasks ensures tasks'[id] == tasks[id] {
      }
    }
  }

  /** Tasks that hold slots are on registered Workers. */
  lemma HoldersAreReachable(ws: Workers, held: Holdings, tasks: Tasks, ids: seq<string>)
    requires Ledger(ws, held) && Agrees(held, tasks, ids)
    ensures forall i :: 0 <= i < |ids| && tasks[ids[i]].place.Some? ==> Reachable(ws, tasks[ids[i]])
  {
    forall i | 0 <= i < |ids| && tasks[ids[i]].place.Some? ensures Reachable(ws, tasks[ids[i]]) {
      assert IsPlace(ws, held[ids[i]]);
    }
  }

  ghost predicate SamePlaces(tasks: Tasks, tasks': Tasks) {
    tasks'.Keys == tasks.Keys && forall id :: id in tasks ==> tasks'[id].place == tasks[id].place
  }

  lemma AgreementCarriesOver(held: Holdings, tasks: Tasks, tasks': Tasks, ids: seq<string>)
    requires Agrees(held, tasks, ids) && SamePlaces(tasks, tasks')
    ensures Agrees(held, tasks', ids)
  {
  }

  /** Up to the release no task has moved. */
  lemma StoppingKeepsPlaces(tasks: Tasks, stopped: Tasks, ids: seq<string>, exclude: Option<string>)
    requires Stopped(tasks, stopped, ids)
    ensures SamePlaces(tasks, CancelScheduled(stopped, exclude))
  {
  }

  lemma MarkKeepsAgreement(held: Holdings, tasks: Tasks, ids: seq<string>, failed: string)
    requires Agrees(held, tasks, ids) && failed in tasks
    ensures Agrees(held, MarkFailed(tasks, failed), ids) && MarkFailed(tasks, failed).Keys == tasks.Keys
  {
  }

  lemma ClearedHoldNothing(tasks: Tasks, ids: seq<string>)
    requires forall id :: id in ids <==> id in tasks
    ensures NonePlaced(Cleared(tasks, ids)) && Cleared(tasks, ids).Keys == tasks.Keys
    ensures AllTerminal(tasks) ==> AllTerminal(Cleared(tasks, ids))
    ensures NonePlaced(tasks) ==> Cleared(tasks, ids) == tasks
  {
  }

  /** In a live run every deployed task gets a stop call, but for the failed one. */
  lemma LiveStopCalls(ws: Workers, held: Holdings, run: Run, failed: string)
    requires WellFormed(run) && Live(run, Some(failed)) && failed in run.tasks
    requires Ledger(ws, held) && Agrees(held, run.tasks, run.ids)
    ensures var ids := StopOrder(run.deployed, failed);
            && (forall i :: 0 <= i < |ids| ==> ids[i] in run.tasks && run.tasks[ids[i]].place.Some?)
            && StopCalls(ws, MarkFailed(run.tasks, failed), ids) == Stops(run.tasks, ids)
  {
    hide Ledger, Agrees, StopOrder, StopCalls;
    var ids := StopOrder(run.deployed, failed);
    StopOrderIs(run.deployed, failed);
    HoldersAreReachable(ws, held, run.tasks, run.ids);
    forall i | 0 <= i < |ids|
      ensures ids[i] in run.tasks && ids[i] != failed && Stoppable(run.tasks[ids[i]])
              && Reachable(ws, run.tasks[ids[i]]) && run.tasks[ids[i]].place.Some?
    {
      assert ids[i] in ids;
      var k :| 0 <= k < |run.ids| && run.ids[k] == ids[i];
    }
    AllAreStopped(ws, MarkFailed(run.tasks, failed), run.tasks, ids);
  }

  lemma LiveIsTornDown(ws: Workers, held: Holdings, run: Run, failed: string, stopped: Tasks, tasks: Tasks,
                       answers: Answers, from: nat)
    requires WellFormed(run) && Live(run, Some(failed)) && failed in run.tasks
    requires Ledger(ws, held) && Agrees(held, run.tasks, run.ids)
    requires Stopped(MarkFailed(run.tasks, failed), stopped, StopOrder(run.deployed, failed))
    requires forall i :: 0 <= i < |StopOrder(run.deployed, failed)| ==>
               StopOrder(run.deployed, failed)[i] in MarkFailed(run.tasks, failed)
    requires Answered(ws, MarkFailed(run.tasks, failed), stopped, StopOrder(run.deployed, failed), answers, from)
    requires tasks == Cleared(CancelScheduled(stopped, Some(failed)), run.ids)
    ensures TornDown(run.deployed, tasks, failed, answers, from)
  {
    hide Ledger, Agrees, StopOrder, StopCalls, Answered, Stopped, Live, CancelScheduled, Cleared, TornDown, WellFormed, Reachable,
      Granted;
    var ids, marked := StopOrder(run.deployed, failed), MarkFailed(run.tasks, failed);
    LiveAreReachable(ws, held, run, failed);
    AllAnswered(ws, marked, stopped, ids, answers, from);
    StopOrderIs(run.deployed, failed);
    TornDownStatuses(run, failed, stopped, tasks);
    StoppedKeys(marked, stopped, ids);
    TearsDown(run.deployed, stopped, tasks, failed, answers, from);
  }

  lemma StoppedKeys(tasks: Tasks, tasks': Tasks, ids: seq<string>)
    requires Stopped(tasks, tasks', ids)
    ensures tasks'.Keys == tasks.Keys
  {
  }

  lemma TearsDown(deployed: seq<string>, stopped: Tasks, tasks: Tasks, failed: string, answers: Answers, from: nat)
    requires failed in tasks && tasks[failed].status == TaskStatus.Failed && stopped.Keys == tasks.Keys
    requires forall i: nat :: i < |StopOrder(deployed, failed)| ==>
               && StopOrder(deployed, failed)[i] in stopped
               && stopped[StopOrder(deployed, failed)[i]].status == StopStatus(Granted(answers, from, i))
    requires forall id :: id in tasks && id in deployed ==> tasks[id].status == stopped[id].status
    requires forall id :: id in tasks && id != failed && id !in deployed ==> tasks[id].status == TaskStatus.Cancelled
    ensures TornDown(deployed, tasks, failed, answers, from)
  {
    hide StopOrder, Granted;
    StopOrderIs(deployed, failed);
    var ids := StopOrder(deployed, failed);
    assert forall i :: 0 <= i < |ids| ==> ids[i] in ids;
  }

  /** In a live run with one task marked, those to be stopped can be. */
  lemma LiveAreReachable(ws: Workers, held: Holdings, run: Run, failed: string)
    requires WellFormed(run) && Live(run, Some(failed)) && failed in run.tasks
    requires Ledger(ws, held) && Agrees(held, run.tasks, run.ids)
    ensures var ids, marked := StopOrder(run.deployed, failed), MarkFailed(run.tasks, failed);
            forall i :: 0 <= i < |ids| ==> ids[i] in marked && Stoppable(marked[ids[i]]) && Reachable(ws, marked[ids[i]])
  {
    hide Ledger, Agrees, StopOrder, Reachable;
    var ids, marked := StopOrder(run.deployed, failed), MarkFailed(run.tasks, failed);
    StopOrderIs(run.deployed, failed);
    HoldersAreReachable(ws, held, run.tasks, run.ids);
    forall i | 0 <= i < |ids| ensures ids[i] in marked && Stoppable(marked[ids[i]]) && Reachable(ws, marked[ids[i]]) {
      assert ids[i] in ids;
      var k :| 0 <= k < |run.ids| && run.ids[k] == ids[i];
    }
  }

  /** Cancelling and releasing leave terminal tasks as they are. */
  lemma TornDownStatuses(run: Run, failed: string, stopped: Tasks, tasks: Tasks)
    requires WellFormed(run) && Live(run, Some(failed)) && failed in run.tasks
    requires Stopped(MarkFailed(run.tasks, failed), stopped, StopOrder(run.deployed, failed))
    requires tasks == Cleared(CancelScheduled(stopped, Some(failed)), run.ids)
    ensures tasks.Keys == run.tasks.Keys && tasks[failed].status == TaskStatus.Failed
    ensures forall id :: id in tasks && id in run.deployed ==> id in stopped && tasks[id].status == stopped[id].status
    ensures forall id :: id in tasks && id != failed && id !in run.deployed ==> tasks[id].status == TaskStatus.Cancelled
  {
    hide StopOrder, Cleared, CancelScheduled, Stopped, Live, MarkFailed;
    StoppedStatuses(run, failed, stopped);
    FinalStatuses(stopped, failed, run.ids);
  }

  lemma FinalStatuses(stopped: Tasks, failed: string, ids: seq<string>)
    ensures var tasks := Cleared(CancelScheduled(stopped, Some(failed)), ids);
            && tasks.Keys == stopped.Keys
            && forall id :: id in tasks ==>
                 tasks[id].status == if stopped[id].status == Scheduled && id != failed then TaskStatus.Cancelled
                                     else stopped[id].status
  {
  }

  lemma StoppedStatuses(run: Run, failed: string, stopped: Tasks)
    requires Live(run, Some(failed)) && failed in run.tasks
    requires Stopped(MarkFailed(run.tasks, failed), stopped, StopOrder(run.deployed, failed))
    ensures stopped.Keys == run.tasks.Keys && stopped[failed].status == TaskStatus.Failed
    ensures forall id :: id in stopped && id in run.deployed ==> stopped[id].status != Scheduled
    ensures forall id :: id in stopped && id != failed && id !in run.deployed ==> stopped[id].status == Scheduled
  {
    hide StopOrder;
    StopOrderIs(run.deployed, failed);
  }

  /** In a run that is over, failing again stops, cancels and releases nothing. */
  lemma FailingAgainIsIdle(ws: Workers, held: Holdings, run: Run, failed: string, stopped: Tasks)
    requires WellFormed(run) && AtRest(run) && TerminalJob(run.status) && failed in run.tasks
    requires Agrees(held, run.tasks, run.ids)
    requires Stopped(MarkFailed(run.tasks, failed), stopped, StopOrder(run.deployed, failed))
    ensures forall i :: 0 <= i < |StopOrder(run.deployed, failed)| ==> StopOrder(run.deployed, failed)[i] in run.tasks
    ensures StopCalls(ws, MarkFailed(run.tasks, failed), StopOrder(run.deployed, failed)) == []
    ensures CancelScheduled(stopped, Some(failed)) == stopped == MarkFailed(run.tasks, failed)
    ensures NonePlaced(stopped) && Without(held, run.ids) == held
  {
    hide StopOrder, StopCalls, Stopped, Agrees;
    var ids, marked := StopOrder(run.deployed, failed), MarkFailed(run.tasks, failed);
    StopOrderIs(run.deployed, failed);
    forall i | 0 <= i < |ids| ensures ids[i] in run.tasks && !Stoppable(marked[ids[i]]) {
      assert ids[i] in ids;
    }
    NoneIsStopped(ws, marked, stopped, ids);
    HoldNone(held, run);
  }

  lemma HoldNone(held: Holdings, run: Run)
    requires WellFormed(run) && NonePlaced(run.tasks) && Agrees(held, run.tasks, run.ids)
    ensures Without(held, run.ids) == held
  {
    forall id | id in held ensures id !in run.ids {
    }
  }

  lemma StatusOf(run: Run, failed: string)
    ensures Live(run, Some(failed)) ==> run.status in {JobStatus.Deploying, JobStatus.Running}
  {
  }

  lemma StopKeepsTasks(tasks: Tasks, tasks': Tasks, ids: seq<string>)
    requires Stopped(tasks, tasks', ids)
    ensures tasks'.Keys == tasks.Keys
  {
  }

  /** Cancelling a running job stops every task of it. */
  lemma CancellingStopsAll(ws: Workers, held: Holdings, run: Run, stopped: Tasks)
    requires WellFormed(run) && AtRest(run) && run.status == JobStatus.Running
    requires Ledger(ws, held) && Agrees(held, run.tasks, run.ids)
    requires Stopped(run.tasks, stopped, Reversed(run.deployed))
    ensures AllTerminal(CancelScheduled(stopped, None)) && SamePlaces(run.tasks, CancelScheduled(stopped, None))
    ensures forall i :: 0 <= i < |Reversed(run.deployed)| ==>
              Reversed(run.deployed)[i] in run.tasks && run.tasks[Reversed(run.deployed)[i]].place.Some?
    ensures StopCalls(ws, run.tasks, Reversed(run.deployed)) == Stops(run.tasks, Reversed(run.deployed))
  {
    hide Ledger, Agrees, StopCalls, Reversed, CancelScheduled;
    CancelledAreOver(run, stopped);
    hide Stopped;
    var ids := Reversed(run.deployed);
    ReversedMembers(run.deployed);
    HoldersAreReachable(ws, held, run.tasks, run.ids);
    forall i | 0 <= i < |ids|
      ensures ids[i] in run.tasks && Stoppable(run.tasks[ids[i]]) && Reachable(ws, run.tasks[ids[i]])
    {
      assert ids[i] in ids;
      var k :| 0 <= k < |run.ids| && run.ids[k] == ids[i];
    }
    AllAreStopped(ws, run.tasks, run.tasks, ids);
  }

  lemma CancelledAreOver(run: Run, stopped: Tasks)
    requires WellFormed(run) && AtRest(run) && run.status == JobStatus.Running
    requires Stopped(run.tasks, stopped, Reversed(run.deployed))
    ensures AllTerminal(CancelScheduled(stopped, None)) && SamePlaces(run.tasks, CancelScheduled(stopped, None))
  {
    ReversedMembers(run.deployed);
    hide Reversed, NoDuplicates;
    forall id | id in run.tasks ensures TerminalTask(stopped[id].status) {
      assert id in run.deployed;
    }
  }

  // ----- deploying -----

  function RunningTasks(tasks: Tasks): set<string> {
    set id | id in tasks && tasks[id].status == TaskStatus.Running
  }

  /** The deploy calls for the first n tasks of the deployment order: before each, all earlier ones are running. */
  function Deploys(tasks: Tasks, order: seq<string>, n: nat): (r: seq<Call>)
    requires n <= |order| && forall i :: 0 <= i < |order| ==> order[i] in tasks && tasks[order[i]].place.Some?
    ensures |r| == n
    ensures forall i :: 0 <= i < n ==>
              r[i] == Deploy(order[i], tasks[order[i]].place.value.0, Elements(order[..i]))
  {
    seq(n, i requires 0 <= i < n => Deploy(order[i], tasks[order[i]].place.value.0, Elements(order[..i])))
  }

  lemma NoDeploys(tasks: Tasks, order: seq<string>)
    requires forall i :: 0 <= i < |order| ==> order[i] in tasks && tasks[order[i]].place.Some?
    ensures Deploys(tasks, order, 0) == []
  {
  }

  lemma DeploysGrow(tasks: Tasks, order: seq<string>, k: nat)
    requires k < |order| && forall i :: 0 <= i < |order| ==> order[i] in tasks && tasks[order[i]].place.Some?
    ensures Deploys(tasks, order, k + 1)
         == Deploys(tasks, order, k) + [Deploy(order[k], tasks[order[k]].place.value.0, Elements(order[..k]))]
  {
  }

  /** All tasks are placed and the first k of the deployment order are running, the rest scheduled. */
  ghost predicate DeployedUpTo(tasks: Tasks, order: seq<string>, k: nat)
    requires k <= |order|
  {
    forall id :: id in tasks ==>
      && tasks[id].place.Some?
      && tasks[id].status == if id in order[..k] then TaskStatus.Running else Scheduled
  }

  lemma DeployOneMore(tasks: Tasks, order: seq<string>, k: nat)
    requires NoDuplicates(order) && k < |order| && order[k] in tasks && DeployedUpTo(tasks, order, k)
    requires forall i :: 0 <= i < |order| ==> order[i] in tasks
    ensures tasks[order[k]].status == Scheduled && RunningTasks(tasks) == Elements(order[..k])
    ensures DeployedUpTo(tasks[order[k] := tasks[order[k]].(status := TaskStatus.Running)], order, k + 1)
  {
    assert order[k] !in order[..k];
    assert order[..k + 1] == order[..k] + [order[k]];
    forall x | x in order[..k] ensures x in tasks {
      var i :| 0 <= i < k && order[i] == x;
    }
  }

  lemma AllDeployed(run: Run)
    requires WellFormed(run) && DeployedUpTo(run.tasks, run.deploymentOrder, |run.deploymentOrder|)
    requires run.deployed == run.deploymentOrder && run.status == JobStatus.Running
    ensures AtRest(run)
  {
    assert run.deploymentOrder[..|run.deploymentOrder|] == run.deploymentOrder;
  }

  /** A deployment that stops at task k leaves a run that can be brought down. */
  lemma StoppedDeploymentIsLive(run: Run, k: nat)
    requires WellFormed(run) && k < |run.deploymentOrder| && run.status == JobStatus.Deploying
    requires run.deployed == run.deploymentOrder[..k]
    requires run.deploymentOrder[k] in run.tasks && run.tasks[run.deploymentOrder[k]].status == TaskStatus.Deploying
    requires DeployedUpTo(run.tasks[run.deploymentOrder[k] := run.tasks[run.deploymentOrder[k]].(status := Scheduled)],
                          run.deploymentOrder, k)
    ensures Live(run, Some(run.deploymentOrder[k]))
  {
    var f := run.deploymentOrder[k];
    assert f !in run.deploymentOrder[..k];
    var before := run.tasks[f := run.tasks[f].(status := Scheduled)];
    forall id | id in run.tasks
      ensures run.tasks[id].place.Some?
      ensures if id in run.deployed then run.tasks[id].status == TaskStatus.Running
              else run.tasks[id].status == Scheduled || (f == id && run.tasks[id].status == TaskStatus.Deploying)
    {
      assert id in before;
    }
  }
}
