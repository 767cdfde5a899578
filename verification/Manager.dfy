/**
 The job manager (control/manager.py), each operation as one step. What the Workers answer is arbitrary: the
 n-th call made to them succeeds or fails as `answers(n)` says.
 */
module Manager {
  import opened Wrappers
  import opened Sequences
  import opened Models
  import opened Scheduler
  import Planning
  import opened Lifecycle

  datatype ManagerError =
    | UnknownJob
    | UnknownTask
    | JobExists
    | ArtifactRefused
    | NoSlots(error: ScheduleError)
    | DeploymentFailed
    | StopFailed
    | InvalidStateTransition

  type Runs = map<string, Run>

  ghost predicate RunOk(jobId: string, run: Run, held: Holdings) {
    WellFormed(run) && Owned(jobId, run.tasks) && Agrees(held, run.tasks, run.ids) && AtRest(run)
  }

  /** Whatever is held is held by a task of some job. */
  ghost predicate NoStrays(runs: Runs, held: Holdings) {
    forall id :: id in held ==> exists jobId :: jobId in runs && id in runs[jobId].tasks
  }

  ghost predicate AllOk(runs: Runs, held: Holdings) {
    (forall jobId :: jobId in runs ==> RunOk(jobId, runs[jobId], held)) && NoStrays(runs, held)
  }

  /** Two ledgers that differ at most on a job's own tasks. */
  ghost predicate OthersHoldSame(held: Holdings, held': Holdings, jobId: string) {
    forall id :: !BelongsTo(jobId, id) ==> ((id in held <==> id in held') && (id in held ==> held[id] == held'[id]))
  }

  lemma OtherRunStaysOk(jobId: string, other: string, run: Run, held: Holdings, held': Holdings)
    requires other != jobId && RunOk(other, run, held) && OthersHoldSame(held, held', jobId)
    ensures RunOk(other, run, held')
  {
    hide AtRest;
    forall i | 0 <= i < |run.ids| ensures !BelongsTo(jobId, run.ids[i]) {
      assert run.ids[i] in run.tasks;
      if BelongsTo(jobId, run.ids[i]) {
        JobsShareNoTask(jobId, other, run.ids[i]);
      }
    }
  }

  /** Putting one job's run back, after only its own holdings changed. */
  lemma UpdateKeepsAllOk(runs: Runs, held: Holdings, held': Holdings, jobId: string, run: Run)
    requires AllOk(runs, held) && OthersHoldSame(held, held', jobId) && RunOk(jobId, run, held')
    requires forall id :: id in held' && id !in held ==> id in run.tasks
    requires jobId in runs ==> runs[jobId].tasks.Keys == run.tasks.Keys
    ensures AllOk(runs[jobId := run], held')
  {
    hide RunOk;
    forall other | other in runs && other != jobId ensures RunOk(other, runs[other], held') {
      OtherRunStaysOk(jobId, other, runs[other], held, held');
    }
    var runs' := runs[jobId := run];
    forall id | id in held' ensures exists j :: j in runs' && id in runs'[j].tasks {
      if id in held {
        var j :| j in runs && id in runs[j].tasks;
        assert j in runs' && id in runs'[j].tasks;
      } else {
        assert jobId in runs';
      }
    }
  }

  lemma ReleaseIsOwn(jobId: string, run: Run, held: Holdings)
    requires WellFormed(run) && Owned(jobId, run.tasks)
    ensures OthersHoldSame(held, Without(held, run.ids), jobId)
  {
  }

  lemma ReleasedAgrees(held: Holdings, tasks: Tasks, ids: seq<string>)
    requires (forall i :: 0 <= i < |ids| ==> ids[i] in tasks) && NonePlaced(tasks)
    ensures Agrees(Without(held, ids), tasks, ids)
  {
  }

  class JobManager {
    const registry: WorkerRegistry
    const answers: Answers
    var runs: Runs
    var order: seq<string>             // the jobs in the order of their submission, as a Python dict keeps them
    var calls: seq<Call>               // every call made to a Worker so far
    ghost var held: Holdings

    ghost predicate Valid()
      reads this, registry
    {
      && NoDuplicates(order) && (forall j :: j in order <==> j in runs)
      && Ledger(registry.workers, held) && AllOk(runs, held)
    }

    constructor (heartbeatTimeout: int, answers: Answers)
      requires heartbeatTimeout > 0
      ensures Valid() && fresh(registry) && runs == map[] && calls == [] && this.answers == answers
    {
      registry := new WorkerRegistry(heartbeatTimeout);
      this.answers := answers;
      runs, order, calls, held := map[], [], [], map[];
    }

    /** Stops some tasks in turn; a task whose Worker is gone or refuses fails and is counted. */
    method StopTasks(run: Run, ids: seq<string>) returns (run': Run, errors: nat)
      requires NoDuplicates(ids) && forall i :: 0 <= i < |ids| ==> ids[i] in run.tasks
      modifies this`calls
      ensures run' == run.(tasks := run'.tasks) && Stopped(run.tasks, run'.tasks, ids)
      ensures calls == old(calls) + StopCalls(registry.workers, run.tasks, ids)
      ensures Answered(registry.workers, run.tasks, run'.tasks, ids, answers, |old(calls)|)
      ensures errors == 0 <==> !SomeStopFailed(run.tasks, run'.tasks, ids)
    {
      hide Stopped, SomeStopFailed, StopCalls, Answered;
      var tasks := run.tasks;
      errors := 0;
      NothingStopped(tasks, ids);
      NoStopCalls(registry.workers, run.tasks, ids);
      NoAnswerYet(registry.workers, run.tasks, ids, answers, |calls|);
      for k := 0 to |ids|
        invariant tasks.Keys == run.tasks.Keys && Stopped(run.tasks, tasks, ids[..k])
        invariant calls == old(calls) + StopCalls(registry.workers, run.tasks, ids[..k])
        invariant Answered(registry.workers, run.tasks, tasks, ids[..k], answers, |old(calls)|)
        invariant errors == 0 <==> !SomeStopFailed(run.tasks, tasks, ids[..k])
      {
        var id := ids[k];
        ghost var before := tasks;
        NotStoppedYet(run.tasks, tasks, ids, k);
        StopCallsGrow(registry.workers, run.tasks, ids, k);
        if Stoppable(tasks[id]) {
          var cancelling := Move(tasks[id], TaskStatus.Cancelling);
          var succeeded := false;
          if Reachable(registry.workers, cancelling) {
            succeeded := answers(|calls|);
            calls := calls + [Stop(id, cancelling.place.value.0)];
          }
          tasks := tasks[id := Move(cancelling, if succeeded then TaskStatus.Cancelled else TaskStatus.Failed)];
          if !succeeded {
            errors := errors + 1;
          }
        }
        StopOneMore(run.tasks, before, ids, k, tasks[id]);
        AnsweredOneMore(registry.workers, run.tasks, before, ids, k, tasks[id], answers, |old(calls)|);
        assert before[id := tasks[id]] == tasks;
      }
      assert ids[..|ids|] == ids;
      run' := run.(tasks := tasks);
    }

    /** Releases every slot of a run. */
    method ReleaseRun(run: Run) returns (run': Run)
      requires Ledger(registry.workers, held) && Agrees(held, run.tasks, run.ids)
      requires NoDuplicates(run.ids) && forall id :: id in run.ids <==> id in run.tasks
      modifies this`held, registry
      ensures Ledger(registry.workers, held) && OnlySlotsDiffer(old(registry.workers), registry.workers)
      ensures held == Without(old(held), run.ids) && run' == run.(tasks := Cleared(run.tasks, run.ids))
      ensures NonePlaced(run.tasks) ==> registry.workers == old(registry.workers)
    {
      hide Ledger, Agrees, Without, Cleared, OnlySlotsDiffer;
      var tasks, refused := ReleaseAll(registry, run.ids, run.tasks, held);
      held := Without(held, run.ids);
      run' := run.(tasks := tasks);
    }

    /** Stops some tasks of a run in turn, and then cancels those still scheduled. */
    method StopAndCancel(run: Run, ids: seq<string>, exclude: Option<string>)
      returns (run': Run, errors: nat, ghost stopped: Tasks)
      requires NoDuplicates(ids) && forall i :: 0 <= i < |ids| ==> ids[i] in run.tasks
      requires NoDuplicates(run.ids) && forall id :: id in run.ids <==> id in run.tasks
      requires Agrees(held, run.tasks, run.ids)
      modifies this`calls
      ensures Stopped(run.tasks, stopped, ids) && run' == run.(tasks := CancelScheduled(stopped, exclude))
      ensures calls == old(calls) + StopCalls(registry.workers, run.tasks, ids)
      ensures Answered(registry.workers, run.tasks, stopped, ids, answers, |old(calls)|)
      ensures errors == 0 <==> !SomeStopFailed(run.tasks, stopped, ids)
      ensures Agrees(held, run'.tasks, run.ids) && run'.tasks.Keys == run.tasks.Keys
    {
      hide Agrees, Stopped, SomeStopFailed, StopCalls, Answered, CancelScheduled, NoDuplicates;
      run', errors := StopTasks(run, ids);
      stopped := run'.tasks;
      StopKeepsTasks(run.tasks, stopped, ids);
      run' := CancelScheduledTasks(run', exclude);
      StoppingKeepsPlaces(run.tasks, stopped, ids, exclude);
      AgreementCarriesOver(held, run.tasks, run'.tasks, run.ids);
    }

    /** Brings a run down; `ok` is false where the last transition is not allowed and raises. */
    method FailRun(run: Run, failed: string) returns (run': Run, ok: bool)
      requires Ledger(registry.workers, held) && Agrees(held, run.tasks, run.ids)
      requires WellFormed(run) && failed in run.tasks
      requires Live(run, Some(failed)) || (AtRest(run) && TerminalJob(run.status))
      modifies this`calls, this`held, registry
      ensures Ledger(registry.workers, held) && OnlySlotsDiffer(old(registry.workers), registry.workers)
      ensures held == Without(old(held), run.ids)
      ensures Live(run, Some(failed)) ==>
                && ok && run'.status == JobStatus.Failed && Closed(run, run')
                && (forall x :: x in StopOrder(run.deployed, failed) ==> x in run.tasks && run.tasks[x].place.Some?)
                && calls == old(calls) + Stops(run.tasks, StopOrder(run.deployed, failed))
                && StopsBackwards(run.tasks, run.deployed, failed, calls[|old(calls)|..])
                && TornDown(run.deployed, run'.tasks, failed, answers, |old(calls)|)
      ensures !Live(run, Some(failed)) ==>
                && !ok && calls == old(calls) && held == old(held) && registry.workers == old(registry.workers)
                && run' == run.(tasks := MarkFailed(run.tasks, failed))
    {
      hide Ledger, Agrees, Live, AtRest, Stopped, SomeStopFailed, StopCalls, StopOrder, AllTerminal, NonePlaced,
        CancelScheduled, MarkFailed, Cleared, Without, OnlySlotsDiffer, Closed, Stops, NoDuplicates, WellFormed, Answered,
        TornDown, StopsBackwards;
      ghost var ws, before := registry.workers, held;
      ListsTasks(run);
      WellFormedDeployed(run);
      StatusOf(run, failed);
      run' := run;
      if run'.status in {JobStatus.Deploying, JobStatus.Running, JobStatus.Cancelling} {
        run' := Enter(run', Failing);
      }
      run' := run'.(tasks := MarkFailed(run'.tasks, failed));
      MarkKeepsAgreement(held, run.tasks, run.ids, failed);
      StopOrderIs(run.deployed, failed);
      var errors;
      ghost var stopped;
      run', errors, stopped := StopAndCancel(run', StopOrder(run.deployed, failed), Some(failed));
      ClearedHoldNothing(run'.tasks, run.ids);
      if Live(run, Some(failed)) {
        LiveStopCalls(ws, held, run, failed);
        BackwardsFrom(run, failed);
        FailingClosesTasks(run, failed, stopped);
        LiveIsTornDown(ws, before, run, failed, stopped, Cleared(run'.tasks, run.ids), answers, |old(calls)|);
      } else {
        FailingAgainIsIdle(ws, held, run, failed, stopped);
      }
      run' := ReleaseRun(run');
      ok := JobMay(run'.status, JobStatus.Failed);
      if ok {
        run' := Enter(run', JobStatus.Failed);
      }
      if Live(run, Some(failed)) {
        ClosedBy(run, run');
      }
    }

    /** Deploys the tasks in order; stops at the first whose Worker refuses, if there is one. */
    method DeployTasks(run: Run) returns (run': Run, failed: Option<string>)
      requires WellFormed(run) && run.status == JobStatus.Deploying && run.deployed == []
      requires DeployedUpTo(run.tasks, run.deploymentOrder, 0)
      requires Ledger(registry.workers, held) && Agrees(held, run.tasks, run.ids)
      modifies this`calls
      ensures SameJob(run, run') && SamePlaces(run.tasks, run'.tasks) && run'.status == run.status
      ensures forall i :: 0 <= i < |run.deploymentOrder| ==>
                run.deploymentOrder[i] in run.tasks && run.tasks[run.deploymentOrder[i]].place.Some?
      ensures failed == None <==> AllGranted(answers, |old(calls)|, |run.deploymentOrder|)
      ensures failed == None ==>
                && run'.deployed == run.deploymentOrder
                && DeployedUpTo(run'.tasks, run.deploymentOrder, |run.deploymentOrder|)
                && calls == old(calls) + Deploys(run.tasks, run.deploymentOrder, |run.deploymentOrder|)
      ensures failed.Some? ==>
                var k := |run'.deployed|;
                && k < |run.deploymentOrder| && failed == Some(run.deploymentOrder[k])
                && AllGranted(answers, |old(calls)|, k) && !Granted(answers, |old(calls)|, k)
                && run'.deployed == run.deploymentOrder[..k] && Live(run', failed)
                && calls == old(calls) + Deploys(run.tasks, run.deploymentOrder, k + 1)
    {
      hide Ledger, Agrees, DeployedUpTo, Live, WellFormed, RunningTasks, Elements, NoDuplicates, Deploys, SamePlaces;
      DeploymentStart(registry.workers, held, run);
      NoDeploys(run.tasks, run.deploymentOrder);
      var order := run.deploymentOrder;
      var tasks, deployed := run.tasks, [];
      for k := 0 to |order|
        invariant SamePlaces(run.tasks, tasks) && DeployedUpTo(tasks, order, k)
        invariant deployed == order[..k] && AllGranted(answers, |old(calls)|, k)
        invariant calls == old(calls) + Deploys(run.tasks, order, k)
      {
        var id := order[k];
        DeployStep(registry.workers, run, tasks, k);
        DeploysGrow(run.tasks, order, k);
        var running := RunningTasks(tasks);
        tasks := tasks[id := Move(tasks[id], TaskStatus.Deploying)];
        assert Reachable(registry.workers, tasks[id]);
        var worker := tasks[id].place.value.0;
        var succeeded := answers(|calls|);
        assert succeeded == Granted(answers, |old(calls)|, k);
        calls := calls + [Deploy(id, worker, running)];
        if !succeeded {
          run' := run.(tasks := tasks, deployed := deployed);
          return run', Some(id);
        }
        tasks := tasks[id := Move(tasks[id], TaskStatus.Running)];
        deployed := deployed + [id];
        PrefixGrows(order, k);
      }
      assert order[..|order|] == order;
      SamePlacesKeys(run.tasks, tasks);
      return run.(tasks := tasks, deployed := deployed), None;
    }

    /**
     Submits a job: stores its artifact, schedules all its tasks, and deploys them in order. `artifactStored` is
     whether the artifact repository accepted the content.
     */
    method SubmitJob(jobId: string, ids: seq<string>, deploymentOrder: seq<string>, artifactStored: bool, now: int)
      returns (error: Option<ManagerError>)
      requires Valid()
      requires NoDuplicates(ids) && NoDuplicates(deploymentOrder) && forall id :: id in deploymentOrder <==> id in ids
      requires forall id :: id in ids ==> BelongsTo(jobId, id)
      modifies this, registry
      ensures Valid()
      ensures jobId in old(runs) ==> error == Some(JobExists) && Same(old(runs), old(registry.workers), old(calls))
      ensures jobId !in old(runs) ==>
                && jobId in runs && runs == old(runs)[jobId := runs[jobId]] && order == old(order) + [jobId]
                && runs[jobId].ids == ids && runs[jobId].deploymentOrder == deploymentOrder
                && SubmissionOutcome(old(registry.workers), registry.workers, now, registry.heartbeatTimeout,
                                     artifactStored, runs[jobId], answers, old(calls), calls, error)
    {
      hide Ledger, AllOk, RunOk, NewTasks, AllCreated, HoldNothing, BelongsTo, NoDuplicates, SlotsOn, HealthyIds,
        DeployedAll, RolledBack, OthersHoldSame, AllGranted;
      if jobId in runs {
        return Some(JobExists);
      }
      ghost var runsBefore, heldBefore := runs, held;
      var run := Enter(Run(JobStatus.Submitted, ids, deploymentOrder, NewTasks(ids), []), Validating);
      order := order + [jobId];
      runs := runs[jobId := run];
      AppendFresh(old(order), jobId);
      NewTasksHoldNothing(runsBefore, held, jobId, ids);
      if !artifactStored {
        run, error := Enter(run, Rejected), Some(ArtifactRefused);
        RejectedIsOk(held, jobId, run);
        OwnHoldings(held, held, jobId, run.tasks);
      } else {
        run, error := ScheduleAndDeploy(jobId, run, now);
      }
      runs := runs[jobId := run];
      assert runs == runsBefore[jobId := run];
      UpdateKeepsAllOk(runsBefore, heldBefore, held, jobId, run);
    }

    /** Schedules a new job and deploys it; without enough slots it is rejected. */
    method ScheduleAndDeploy(jobId: string, run: Run, now: int) returns (run': Run, error: Option<ManagerError>)
      requires run.status == Validating && run.deployed == [] && run.tasks == NewTasks(run.ids)
      requires NoDuplicates(run.ids) && NoDuplicates(run.deploymentOrder)
      requires (forall id :: id in run.deploymentOrder <==> id in run.ids) && forall id :: id in run.ids ==> BelongsTo(jobId, id)
      requires Ledger(registry.workers, held) && HoldNothing(held, run.tasks)
      modifies this`calls, this`held, registry
      ensures Ledger(registry.workers, held) && RunOk(jobId, run', held) && SameJob(run, run')
      ensures OthersHoldSame(old(held), held, jobId) && forall id :: id in held && id !in old(held) ==> id in run'.tasks
      ensures SubmissionOutcome(old(registry.workers), registry.workers, now, registry.heartbeatTimeout, true, run',
                                answers, old(calls), calls, error)
    {
      hide Ledger, RunOk, Agrees, Owned, WellFormed, Placed, DeployedUpTo, HealthyIds, SlotsOn, Considered,
        Planning.Greedy, FollowsPlan, BelongsTo, Without, PlacesOf, DeployedAll, RolledBack, NewTasks, LeaksOneSlot,
        OthersHoldSame, NoDuplicates, HoldNothing, AllCreated;
      ghost var ws, heldBefore := registry.workers, held;
      ghost var on := HealthyIds(ws, now, registry.heartbeatTimeout);
      NewTasksAre(held, run.ids);
      var tasks, refused, picks := Schedule(registry, run.ids, run.tasks, now, held);
      if refused.Some? {
        RejectedIsOk(held, jobId, Enter(run, Rejected));
        OwnHoldings(held, held, jobId, run.tasks);
        return Enter(run, Rejected), Some(NoSlots(refused.value));
      }
      held := held + PlacesOf(tasks);
      run' := Enter(run, JobStatus.Deploying).(tasks := tasks);
      ScheduledIsReady(ws, registry.workers, heldBefore, jobId, run', on);
      OwnHoldings(heldBefore, held, jobId, tasks);
      OwnHoldings(heldBefore, heldBefore, jobId, tasks);
      run', error := DeployOrRollBack(jobId, run', ws, heldBefore, on);
    }

    /** Deploys a scheduled job; if a Worker refuses, everything is undone. */
    method DeployOrRollBack(jobId: string, run: Run, ghost ws: Workers, ghost heldBefore: Holdings, ghost on: seq<string>)
      returns (run': Run, error: Option<ManagerError>)
      requires WellFormed(run) && Owned(jobId, run.tasks) && DeployedUpTo(run.tasks, run.deploymentOrder, 0)
      requires run.status == JobStatus.Deploying && run.deployed == []
      requires Placed(ws, registry.workers, NewTasks(run.ids), run.tasks, NewTasks(run.ids).Keys, on)
      requires Ledger(ws, heldBefore) && Ledger(registry.workers, held) && Agrees(held, run.tasks, run.ids)
      requires Without(held, run.ids) == heldBefore
      modifies this`calls, this`held, registry
      ensures Ledger(registry.workers, held) && RunOk(jobId, run', held) && SameJob(run, run')
      ensures error == None <==> AllGranted(answers, |old(calls)|, |run.deploymentOrder|)
      ensures error == None ==> held == old(held) && DeployedAll(ws, registry.workers, on, run', old(calls), calls)
      ensures error.Some? ==>
                error == Some(DeploymentFailed) && held == heldBefore
                && RolledBack(ws, registry.workers, run', answers, old(calls), calls)
    {
      hide Ledger, Agrees, AtRest, Owned, Live, WellFormed, Placed, Deploys, Stops, DeployedUpTo, Closed, Without,
        DeployedAll, RolledBack, NewTasks, SamePlaces, StopOrder, OnlySlotsDiffer, TornDown, AllGranted, Granted;
      ghost var deployedWorkers, during := registry.workers, held;
      var failed;
      run', failed := DeployTasks(run);
      StillTheJob(held, jobId, run, run');
      if failed.Some? {
        var partial := run';
        var ok;
        WellFormedDeployed(partial);
        run', ok := FailRun(partial, failed.value);
        RolledBackIsOk(heldBefore, during, jobId, run, partial, run', ws, deployedWorkers, registry.workers, on);
        RolledBackCalls(run, partial, run', failed.value, ws, registry.workers, answers, old(calls), calls);
        return run', Some(DeploymentFailed);
      }
      run' := Enter(run', JobStatus.Running);
      StillTheJob(held, jobId, run, run');
      RunningIsAtRest(run, run');
      AllAreDeployed(ws, registry.workers, on, run, run', old(calls), calls);
      return run', None;
    }

    /** Cancels a running job: it ends CANCELLED if all Workers answer its stop calls well, and FAILED otherwise. */
    method CancelJob(jobId: string) returns (error: Option<ManagerError>)
      requires Valid()
      modifies this, registry
      ensures Valid() && order == old(order)
      ensures jobId !in old(runs) ==> error == Some(UnknownJob) && Same(old(runs), old(registry.workers), old(calls))
      ensures jobId in old(runs) && old(runs)[jobId].status != JobStatus.Running ==>
                error == Some(InvalidStateTransition) && Same(old(runs), old(registry.workers), old(calls))
      ensures jobId in old(runs) && old(runs)[jobId].status == JobStatus.Running ==>
                var before := old(runs)[jobId];
                && jobId in runs && runs == old(runs)[jobId := runs[jobId]] && Closed(before, runs[jobId])
                && runs[jobId].status == (if error == None then JobStatus.Cancelled else JobStatus.Failed)
                && (error == None <==> AllGranted(answers, |old(calls)|, |before.deployed|))
                && EndedAsAnswered(before.deployed, runs[jobId].tasks, answers, |old(calls)|)
                && (error.Some? ==> error == Some(StopFailed))
                && (forall i :: 0 <= i < |before.deployed| ==>
                      Reversed(before.deployed)[i] in before.tasks
                      && before.tasks[Reversed(before.deployed)[i]].place.Some?)
                && calls == old(calls) + Stops(before.tasks, Reversed(before.deployed))
                && FreedOnly(old(registry.workers), registry.workers, before.ids)
    {
      hide Ledger, Agrees, AtRest, Owned, AllOk, RunOk, FreedOnly, WellFormed, Closed, Without, Reversed, Stops, AllGranted,
        EndedAsAnswered;
      if jobId !in runs {
        return Some(UnknownJob);
      }
      var run := runs[jobId];
      RunIsOk(runs, held, jobId);
      if !JobMay(run.status, JobStatus.Cancelling) {
        return Some(InvalidStateTransition);
      }
      ghost var ws, heldBefore, runsBefore := registry.workers, held, runs;
      var run', ok := CancelRun(run);
      runs := runs[jobId := run'];
      ClosedStaysOk(runsBefore, heldBefore, jobId, run, run');
      ReleasedSlots(ws, heldBefore, registry.workers, run.ids);
      return if ok then None else Some(StopFailed);
    }

    /** Stops every task of a running job, releases its slots and ends it; `ok` is whether every Worker complied. */
    method CancelRun(run: Run) returns (run': Run, ok: bool)
      requires Ledger(registry.workers, held) && Agrees(held, run.tasks, run.ids)
      requires WellFormed(run) && AtRest(run) && run.status == JobStatus.Running
      modifies this`calls, this`held, registry
      ensures Ledger(registry.workers, held) && OnlySlotsDiffer(old(registry.workers), registry.workers)
      ensures held == Without(old(held), run.ids) && Closed(run, run')
      ensures run'.status == (if ok then JobStatus.Cancelled else JobStatus.Failed)
      ensures ok <==> AllGranted(answers, |old(calls)|, |run.deployed|)
      ensures EndedAsAnswered(run.deployed, run'.tasks, answers, |old(calls)|)
      ensures forall i :: 0 <= i < |run.deployed| ==>
                Reversed(run.deployed)[i] in run.tasks && run.tasks[Reversed(run.deployed)[i]].place.Some?
      ensures calls == old(calls) + Stops(run.tasks, Reversed(run.deployed))
    {
      hide Ledger, Agrees, AtRest, Stopped, SomeStopFailed, StopCalls, Reversed, AllTerminal, NonePlaced, CancelScheduled,
        Cleared, Without, WellFormed, NoDuplicates, Stops, Closed, OnlySlotsDiffer, Answered, EndedAsAnswered, AllGranted;
      ghost var ws, during := registry.workers, held;
      DeployedOnce(run);
      ListsTasks(run);
      var errors;
      ghost var stopped;
      run', errors, stopped := StopAndCancel(Enter(run, JobStatus.Cancelling), Reversed(run.deployed), None);
      CancellingStopsAll(ws, held, run, stopped);
      ClearedHoldNothing(run'.tasks, run.ids);
      run' := ReleaseRun(run');
      ok := errors == 0;
      if ok {
        run' := Enter(run', JobStatus.Cancelled);
      } else {
        run' := Enter(Enter(run', Failing), JobStatus.Failed);
      }
      ClosedBy(run, run');
      CancelOutcome(ws, during, run, stopped, run'.tasks, answers, |old(calls)|);
    }

    /** A Worker's report that a task failed brings the whole job down, unless the job is over already. */
    method ReportFailed(jobId: string, taskId: string) returns (error: Option<ManagerError>)
      requires Valid()
      modifies this, registry
      ensures Valid() && order == old(order)
      ensures jobId !in old(runs) ==> error == Some(UnknownJob) && Same(old(runs), old(registry.workers), old(calls))
      ensures jobId in old(runs) && taskId !in old(runs)[jobId].tasks ==>
                error == Some(UnknownTask) && Same(old(runs), old(registry.workers), old(calls))
      ensures jobId in old(runs) && taskId in old(runs)[jobId].tasks ==>
                var before := old(runs)[jobId];
                if before.status == JobStatus.Running then
                  && error == None && jobId in runs && runs == old(runs)[jobId := runs[jobId]]
                  && FailedOver(before, runs[jobId], taskId, old(registry.workers), registry.workers, answers, old(calls), calls)
                else
                  && error == (if before.tasks[taskId].status == TaskStatus.Failed then None else Some(InvalidStateTransition))
                  && Same(old(runs)[jobId := before.(tasks := MarkFailed(before.tasks, taskId))],
                          old(registry.workers), old(calls))
    {
      hide Ledger, Agrees, AtRest, Owned, Live, AllOk, RunOk, FreedOnly, WellFormed, Without, Closed, MarkFailed, TornDown,
        StopsBackwards;
      if jobId !in runs {
        return Some(UnknownJob);
      }
      var run := runs[jobId];
      if taskId !in run.tasks {
        return Some(UnknownTask);
      }
      RunIsOk(runs, held, jobId);
      AlreadyFailed(run, taskId);
      if run.tasks[taskId].status == TaskStatus.Failed {
        assert runs[jobId := run] == runs;
        return None;
      }
      ghost var ws, heldBefore, runsBefore := registry.workers, held, runs;
      NotLiveAtRest(run, taskId);
      var run', ok := FailRun(run, taskId);
      runs := runs[jobId := run'];
      if ok {
        ClosedStaysOk(runsBefore, heldBefore, jobId, run, run');
        ReleasedSlots(ws, heldBefore, registry.workers, run.ids);
        return None;
      } else {
        MarkedStaysOk(runsBefore, heldBefore, jobId, run, taskId);
        return Some(InvalidStateTransition);
      }
    }

    /**
     Brings down every running job that has a task on a Worker which has timed out, one after the other; of each
     such job the deployed tasks are stopped in reverse order but for the first stranded one.
     */
    method ReconcileWorkerHealth(now: int) returns (failedJobs: seq<string>)
      requires Valid()
      modifies this, registry
      ensures Valid() && order == old(order) && runs.Keys == old(runs).Keys
      ensures OnlySlotsDiffer(old(registry.workers), registry.workers)
      ensures var healthy := HealthyIds(old(registry.workers), now, registry.heartbeatTimeout);
              && failedJobs == Filter(order, MustFailOf(old(runs), healthy))
              && calls == old(calls) + RescueCalls(old(runs), healthy, order)
              && (forall j :: j in runs ==> Reconciled(healthy, old(runs)[j], runs[j]))
              && forall i: nat :: i < |order| ==> RescuedAsAnswered(old(runs), runs, healthy, order, i, answers, |old(calls)|)
      ensures forall j :: j in runs && runs[j].status == JobStatus.Running ==>
                !Stranded(registry.workers, now, registry.heartbeatTimeout, runs[j])
    {
      hide Ledger, AllOk, NoDuplicates, Stranded, OnlySlotsDiffer, HealthyIds, Reconciled, MustFail, RescueCalls, Filter,
        RescueCallsOf, ReconciledUpTo, RescuedAsAnswered, TornDown, TornDownBy;
      var healthy := registry.Healthy(now);
      failedJobs := [];
      ghost var ws, original, before, timeout := registry.workers, runs, calls, registry.heartbeatTimeout;
      NothingDiffers(ws);
      NoneYet(original, healthy, order);
      for k := 0 to |order|
        invariant Valid() && order == old(order) && OnlySlotsDiffer(ws, registry.workers)
        invariant ReconciledUpTo(healthy, original, runs, order, k)
        invariant failedJobs == Filter(order[..k], MustFailOf(original, healthy))
        invariant calls == before + RescueCalls(original, healthy, order[..k])
        invariant forall i: nat :: i < k ==> RescuedAsAnswered(original, runs, healthy, order, i, answers, |before|)
      {
        var jobId := order[k];
        NextToReconcile(healthy, original, runs, order, k);
        FilterAppend(order[..k], jobId, MustFailOf(original, healthy));
        RescueCallsGrow(original, healthy, order, k);
        ghost var between, runsBefore := registry.workers, runs;
        var failed := ReconcileJob(jobId, healthy);
        DiffersTransitively(ws, between, registry.workers);
        ReconciledOneMore(healthy, original, runsBefore, runs, order, k);
        RescuedOneMore(original, runsBefore, runs, healthy, order, k, answers, |before|);
        if failed {
          failedJobs := failedJobs + [jobId];
        }
      }
      assert order[..|order|] == order;
      AllReconciled(healthy, original, runs, order);
      forall j | j in runs && runs[j].status == JobStatus.Running
        ensures !Stranded(registry.workers, now, timeout, runs[j])
      {
        RunIsOk(runs, held, j);
        NotStrandedAfter(ws, now, timeout, original[j], runs[j]);
        StrandedIgnoresSlots(ws, registry.workers, now, timeout, runs[j]);
      }
    }

    /** The health check of one job. */
    method ReconcileJob(jobId: string, healthy: seq<string>) returns (failed: bool)
      requires Valid() && jobId in runs
      modifies this, registry
      ensures Valid() && order == old(order) && jobId in runs && runs == old(runs)[jobId := runs[jobId]]
      ensures OnlySlotsDiffer(old(registry.workers), registry.workers)
      ensures Reconciled(healthy, old(runs)[jobId], runs[jobId]) && failed == MustFail(old(runs)[jobId], healthy)
      ensures calls == old(calls) + RescueCallsOf(old(runs)[jobId], healthy)
      ensures TornDownBy(old(runs)[jobId], runs[jobId], healthy, answers, |old(calls)|)
    {
      hide Ledger, Agrees, AtRest, Owned, Live, AllOk, RunOk, WellFormed, Without, Closed, MarkFailed,
        NoDuplicates, OnlySlotsDiffer, Stops, StopOrder, FirstStranded, TornDown, StopsBackwards;
      var run := runs[jobId];
      RunIsOk(runs, held, jobId);
      NothingDiffers(registry.workers);
      failed := false;
      if run.status in {JobStatus.Deploying, JobStatus.Running} {
        ListsTasks(run);
        var stranded := FindStranded(run, healthy);
        if stranded.Some? {
          ghost var heldBefore, runsBefore := held, runs;
          NotLiveAtRest(run, stranded.value);
          var run', ok := FailRun(run, stranded.value);
          runs := runs[jobId := run'];
          failed := true;
          ClosedStaysOk(runsBefore, heldBefore, jobId, run, run');
        }
      }
      assert runs == old(runs)[jobId := runs[jobId]];
    }

    /** The first task, in declaration order, that holds a slot on a Worker which is not among the healthy. */
    method FindStranded(run: Run, healthy: seq<string>) returns (stranded: Option<string>)
      requires forall id :: id in run.ids <==> id in run.tasks
      ensures stranded == FirstStranded(run.tasks, run.ids, healthy)
      ensures stranded.Some? ==> stranded.value in run.tasks
    {
      for k := 0 to |run.ids|
        invariant FirstStranded(run.tasks, run.ids, healthy) == FirstStranded(run.tasks, run.ids[k..], healthy)
      {
        var t := run.tasks[run.ids[k]];
        assert run.ids[k..][1..] == run.ids[k + 1..];
        if t.place.Some? && t.place.value.0 !in healthy {
          return Some(run.ids[k]);
        }
      }
      return None;
    }

    /** Registering a Worker disturbs no job. */
    method RegisterWorker(id: string, controlAddress: string, dataHost: string, dataPort: int, totalSlots: int, at: int)
      returns (error: Option<RegistryError>)
      requires Valid()
      modifies registry
      ensures Valid()
      ensures match RegisterIn(old(registry.workers), id, controlAddress, dataHost, dataPort, totalSlots, at)
              case Ok(ws) => error == None && registry.workers == ws
              case Err(e) => error == Some(e) && registry.workers == old(registry.workers)
    {
      hide AllOk;
      ghost var ws := registry.workers;
      error := registry.Register(id, controlAddress, dataHost, dataPort, totalSlots, at);
      if error == None {
        RegisterKeepsLedger(ws, held, id, controlAddress, dataHost, dataPort, totalSlots, at);
      }
    }

    method Heartbeat(id: string, at: int) returns (error: Option<RegistryError>)
      requires Valid()
      modifies registry
      ensures Valid()
      ensures error == None <==> id in old(registry.workers)
      ensures error == None ==> registry.workers == old(registry.workers)[id := old(registry.workers)[id].(lastHeartbeat := at)]
      ensures error.Some? ==> error == Some(WorkerNotFound) && registry.workers == old(registry.workers)
    {
      hide AllOk;
      ghost var ws := registry.workers;
      error := registry.Heartbeat(id, at);
      if error == None {
        HeartbeatKeepsLedger(ws, held, id, at);
      }
    }

    ghost predicate Same(runs: Runs, workers: Workers, calls: seq<Call>)
      reads this, registry
    {
      this.runs == runs && registry.workers == workers && this.calls == calls
    }
  }

  /** The same job with the same tasks. */
  ghost predicate SameJob(run: Run, run': Run) {
    run'.ids == run.ids && run'.deploymentOrder == run.deploymentOrder && run'.tasks.Keys == run.tasks.Keys
  }

  lemma DeploymentStart(ws: Workers, held: Holdings, run: Run)
    requires WellFormed(run) && DeployedUpTo(run.tasks, run.deploymentOrder, 0)
    requires Ledger(ws, held) && Agrees(held, run.tasks, run.ids)
    ensures NoDuplicates(run.deploymentOrder) && SamePlaces(run.tasks, run.tasks)
    ensures forall i :: 0 <= i < |run.deploymentOrder| ==>
              && run.deploymentOrder[i] in run.tasks && run.tasks[run.deploymentOrder[i]].place.Some?
              && Reachable(ws, run.tasks[run.deploymentOrder[i]])
  {
    hide Ledger, Agrees;
    HoldersAreReachable(ws, held, run.tasks, run.ids);
    forall i | 0 <= i < |run.deploymentOrder|
      ensures run.deploymentOrder[i] in run.tasks && run.tasks[run.deploymentOrder[i]].place.Some?
              && Reachable(ws, run.tasks[run.deploymentOrder[i]])
    {
      assert run.deploymentOrder[i] in run.deploymentOrder;
      var k :| 0 <= k < |run.ids| && run.ids[k] == run.deploymentOrder[i];
    }
  }

  lemma PrefixGrows(order: seq<string>, k: nat)
    requires k < |order|
    ensures order[..k + 1] == order[..k] + [order[k]]
  {
  }

  lemma SamePlacesKeys(tasks: Tasks, tasks': Tasks)
    requires SamePlaces(tasks, tasks')
    ensures tasks'.Keys == tasks.Keys
  {
  }

  /** Everything about the turn of task k in the deployment order. */
  lemma DeployStep(ws: Workers, run: Run, tasks: Tasks, k: nat)
    requires WellFormed(run) && run.status == JobStatus.Deploying && k < |run.deploymentOrder|
    requires SamePlaces(run.tasks, tasks) && DeployedUpTo(tasks, run.deploymentOrder, k)
    requires run.deploymentOrder[k] in run.tasks && Reachable(ws, run.tasks[run.deploymentOrder[k]])
    ensures var id := run.deploymentOrder[k];
            && id in tasks && tasks[id].status == Scheduled && RunningTasks(tasks) == Elements(run.deploymentOrder[..k])
            && var deploying := tasks[id := Move(tasks[id], TaskStatus.Deploying)];
               && Reachable(ws, deploying[id]) && deploying[id].place == run.tasks[id].place
               && SamePlaces(run.tasks, deploying) && deploying.Keys == run.tasks.Keys
               && Live(run.(tasks := deploying, deployed := run.deploymentOrder[..k]), Some(id))
               && var running := deploying[id := Move(deploying[id], TaskStatus.Running)];
                  SamePlaces(run.tasks, running) && DeployedUpTo(running, run.deploymentOrder, k + 1)
  {
    var id := run.deploymentOrder[k];
    hide Live, RunningTasks, Elements;
    DeployOneMore(tasks, run.deploymentOrder, k);
    hide DeployedUpTo;
    var deploying := tasks[id := Move(tasks[id], TaskStatus.Deploying)];
    var run' := run.(tasks := deploying, deployed := run.deploymentOrder[..k]);
    StoppedWellFormed(run, run', k);
    assert deploying[id := deploying[id].(status := Scheduled)] == tasks;
    StoppedDeploymentIsLive(run', k);
    assert deploying[id := Move(deploying[id], TaskStatus.Running)] == tasks[id := tasks[id].(status := TaskStatus.Running)];
  }

  lemma StoppedWellFormed(run: Run, run': Run, k: nat)
    requires WellFormed(run) && SameJob(run, run') && k <= |run.deploymentOrder|
    requires run'.deployed == run.deploymentOrder[..k]
    ensures WellFormed(run')
  {
  }

  /** The slots that some tasks held are free, and no other has changed. */
  ghost predicate FreedOnly(ws: Workers, ws': Workers, ids: seq<string>) {
    && OnlySlotsDiffer(ws, ws')
    && forall p: Place :: IsPlace(ws, p) ==>
         At(ws', p) == if At(ws, p).Some? && At(ws, p).value in ids then None else At(ws, p)
  }

  lemma ReleasedSlots(ws: Workers, held: Holdings, ws': Workers, ids: seq<string>)
    requires Ledger(ws, held) && OnlySlotsDiffer(ws, ws') && Ledger(ws', Without(held, ids))
    ensures FreedOnly(ws, ws', ids)
  {
    hide Ledger, At;
    ReleaseFreesOwnSlots(ws, held, ws', ids);
  }

  lemma RunIsOk(runs: Runs, held: Holdings, jobId: string)
    requires AllOk(runs, held) && jobId in runs
    ensures var run := runs[jobId];
            WellFormed(run) && Owned(jobId, run.tasks) && Agrees(held, run.tasks, run.ids) && AtRest(run)
            && (run.status == JobStatus.Running || TerminalJob(run.status))
  {
    assert RunOk(jobId, runs[jobId], held);
  }

  lemma DeployedOnce(run: Run)
    requires WellFormed(run)
    ensures NoDuplicates(Reversed(run.deployed))
    ensures forall i :: 0 <= i < |Reversed(run.deployed)| ==> Reversed(run.deployed)[i] in run.tasks
  {
    ReversedMembers(run.deployed);
    forall i | 0 <= i < |Reversed(run.deployed)| ensures Reversed(run.deployed)[i] in run.tasks {
      assert Reversed(run.deployed)[i] in Reversed(run.deployed);
    }
  }

  lemma WellFormedDeployed(run: Run)
    requires WellFormed(run)
    ensures NoDuplicates(run.deployed) && forall id :: id in run.deployed ==> id in run.tasks
  {
  }

  lemma ListsTasks(run: Run)
    requires WellFormed(run)
    ensures NoDuplicates(run.ids) && forall id :: id in run.ids <==> id in run.tasks
  {
  }

  lemma ClosedStaysOk(runs: Runs, held: Holdings, jobId: string, run: Run, run': Run)
    requires AllOk(runs, held) && jobId in runs && runs[jobId].tasks.Keys == run.tasks.Keys
    requires WellFormed(run) && Owned(jobId, run.tasks) && Closed(run, run')
    requires run'.status in {JobStatus.Failed, JobStatus.Cancelled}
    ensures AllOk(runs[jobId := run'], Without(held, run.ids))
  {
    hide AllOk, BelongsTo;
    ReleaseIsOwn(jobId, run, held);
    ReleasedAgrees(held, run'.tasks, run.ids);
    UpdateKeepsAllOk(runs, held, Without(held, run.ids), jobId, run');
  }

  /** Each task of a cancelled job is CANCELLED if its stop call, in reverse deployment order, was answered well, else FAILED. */
  ghost predicate EndedAsAnswered(deployed: seq<string>, tasks: Tasks, answers: Answers, from: nat) {
    forall i: nat :: i < |deployed| ==>
      && Reversed(deployed)[i] in tasks
      && tasks[Reversed(deployed)[i]].status == StopStatus(Granted(answers, from, i))
  }

  /** The outcome of a cancel is what the Workers answered to its stop calls. */
  lemma CancelOutcome(ws: Workers, held: Holdings, run: Run, stopped: Tasks, tasks: Tasks, answers: Answers, from: nat)
    requires WellFormed(run) && AtRest(run) && run.status == JobStatus.Running
    requires Ledger(ws, held) && Agrees(held, run.tasks, run.ids)
    requires forall i :: 0 <= i < |Reversed(run.deployed)| ==> Reversed(run.deployed)[i] in run.tasks
    requires Stopped(run.tasks, stopped, Reversed(run.deployed))
    requires Answered(ws, run.tasks, stopped, Reversed(run.deployed), answers, from)
    requires tasks == Cleared(CancelScheduled(stopped, None), run.ids)
    ensures EndedAsAnswered(run.deployed, tasks, answers, from)
    ensures SomeStopFailed(run.tasks, stopped, Reversed(run.deployed)) <==> !AllGranted(answers, from, |run.deployed|)
  {
    hide Ledger, Agrees, Stopped, Answered, CancelScheduled, Cleared, StopCalls, Granted, NoDuplicates, SomeStopFailed,
      AllGranted;
    var ids := Reversed(run.deployed);
    AllCanBeStopped(ws, held, run);
    AllAnswered(ws, run.tasks, stopped, ids, answers, from);
    StoppedKeys(run.tasks, stopped, ids);
    FinalIsStopped(stopped, tasks, run.ids);
    FailsIfRefused(run.tasks, stopped, ids, answers, from);
  }

  /** A running job's tasks are all running, on registered Workers. */
  lemma AllCanBeStopped(ws: Workers, held: Holdings, run: Run)
    requires WellFormed(run) && AtRest(run) && run.status == JobStatus.Running
    requires Ledger(ws, held) && Agrees(held, run.tasks, run.ids)
    ensures var ids := Reversed(run.deployed);
            forall i :: 0 <= i < |ids| ==> ids[i] in run.tasks && Stoppable(run.tasks[ids[i]]) && Reachable(ws, run.tasks[ids[i]])
  {
    hide Ledger, Agrees, Reversed;
    var ids := Reversed(run.deployed);
    ReversedMembers(run.deployed);
    HoldersAreReachable(ws, held, run.tasks, run.ids);
    forall i | 0 <= i < |ids| ensures ids[i] in run.tasks && Stoppable(run.tasks[ids[i]]) && Reachable(ws, run.tasks[ids[i]]) {
      assert ids[i] in ids;
      var k :| 0 <= k < |run.ids| && run.ids[k] == ids[i];
    }
  }

  lemma FinalIsStopped(stopped: Tasks, tasks: Tasks, ids: seq<string>)
    requires tasks == Cleared(CancelScheduled(stopped, None), ids)
    ensures tasks.Keys == stopped.Keys
    ensures forall id :: id in tasks && TerminalTask(stopped[id].status) ==> tasks[id].status == stopped[id].status
  {
  }

  lemma FailsIfRefused(tasks: Tasks, stopped: Tasks, ids: seq<string>, answers: Answers, from: nat)
    requires stopped.Keys == tasks.Keys
    requires forall i: nat :: i < |ids| ==>
               && ids[i] in stopped && Stoppable(tasks[ids[i]])
               && stopped[ids[i]].status == StopStatus(Granted(answers, from, i))
    ensures SomeStopFailed(tasks, stopped, ids) <==> !AllGranted(answers, from, |ids|)
  {
    hide Granted;
    if i: nat :| i < |ids| && !Granted(answers, from, i) {
      assert ids[i] in ids;
    }
  }

  /** The job has failed over: everything ended, the deployed tasks but the failed one stopped in reverse order. */
  ghost predicate FailedOver(run: Run, run': Run, failed: string, ws: Workers, ws': Workers, answers: Answers,
                             calls: seq<Call>, calls': seq<Call>) {
    && run'.status == JobStatus.Failed && Closed(run, run')
    && (forall x :: x in StopOrder(run.deployed, failed) ==> x in run.tasks && run.tasks[x].place.Some?)
    && calls' == calls + Stops(run.tasks, StopOrder(run.deployed, failed))
    && StopsBackwards(run.tasks, run.deployed, failed, calls'[|calls|..])
    && TornDown(run.deployed, run'.tasks, failed, answers, |calls|)
    && FreedOnly(ws, ws', run.ids)
  }

  lemma AlreadyFailed(run: Run, taskId: string)
    requires AtRest(run) && taskId in run.tasks
    ensures run.tasks[taskId].status == TaskStatus.Failed ==>
              run.status != JobStatus.Running && run.(tasks := MarkFailed(run.tasks, taskId)) == run
  {
  }

  lemma NotLiveAtRest(run: Run, failed: string)
    requires WellFormed(run) && AtRest(run) && failed in run.tasks
    ensures Live(run, Some(failed)) <==> run.status == JobStatus.Running
    ensures run.status != JobStatus.Running ==> TerminalJob(run.status)
  {
  }

  /** A late report on a job that is over leaves it at rest; only a REJECTED job's task is marked. */
  lemma MarkedStaysOk(runs: Runs, held: Holdings, jobId: string, run: Run, failed: string)
    requires AllOk(runs, held) && jobId in runs && run == runs[jobId] && TerminalJob(run.status) && failed in run.tasks
    ensures AllOk(runs[jobId := run.(tasks := MarkFailed(run.tasks, failed))], held)
  {
    hide AllOk, BelongsTo;
    RunIsOk(runs, held, jobId);
    UpdateKeepsAllOk(runs, held, held, jobId, run.(tasks := MarkFailed(run.tasks, failed)));
  }

  /** Some task of the job holds a slot on a Worker that has timed out. */
  ghost predicate Stranded(ws: Workers, now: int, timeout: int, run: Run) {
    exists id :: id in run.tasks && run.tasks[id].place.Some? && !HealthyAt(ws, now, timeout)(run.tasks[id].place.value.0)
  }

  /** The task holds a slot on a Worker which is not among the healthy. */
  predicate IsStranded(tasks: Tasks, id: string, healthy: seq<string>) {
    id in tasks && tasks[id].place.Some? && tasks[id].place.value.0 !in healthy
  }

  predicate FirstStrandedAt(tasks: Tasks, ids: seq<string>, healthy: seq<string>, k: nat) {
    k < |ids| && IsStranded(tasks, ids[k], healthy) && forall i :: 0 <= i < k ==> !IsStranded(tasks, ids[i], healthy)
  }

  /** The first of some tasks that holds a slot on a Worker which is not among the healthy. */
  function FirstStranded(tasks: Tasks, ids: seq<string>, healthy: seq<string>): (r: Option<string>)
    ensures r.Some? ==> r.value in ids && exists k: nat :: FirstStrandedAt(tasks, ids, healthy, k) && ids[k] == r.value
    ensures r.None? ==> forall i :: 0 <= i < |ids| ==> !IsStranded(tasks, ids[i], healthy)
  {
    if ids == [] then None
    else if ids[0] in tasks && tasks[ids[0]].place.Some? && tasks[ids[0]].place.value.0 !in healthy then
      assert FirstStrandedAt(tasks, ids, healthy, 0);
      Some(ids[0])
    else
      var r := FirstStranded(tasks, ids[1..], healthy);
      assert forall k: nat :: FirstStrandedAt(tasks, ids[1..], healthy, k) ==> FirstStrandedAt(tasks, ids, healthy, k + 1);
      assert r.None? ==> forall i :: 1 <= i < |ids| ==> ids[i] == ids[1..][i - 1];
      r
  }

  predicate MustFail(run: Run, healthy: seq<string>) {
    run.status == JobStatus.Running && FirstStranded(run.tasks, run.ids, healthy).Some?
  }

  function MustFailOf(runs: Runs, healthy: seq<string>): string -> bool {
    j => j in runs && MustFail(runs[j], healthy)
  }

  /** What a health check makes of one job. */
  ghost predicate Reconciled(healthy: seq<string>, before: Run, after: Run) {
    if MustFail(before, healthy) then after.status == JobStatus.Failed && Closed(before, after) else after == before
  }

  /** Where a health check stands after the first k jobs. */
  ghost predicate ReconciledUpTo(healthy: seq<string>, original: Runs, runs: Runs, order: seq<string>, k: nat)
    requires k <= |order|
  {
    && runs.Keys == original.Keys
    && forall j :: j in original ==> if j in order[..k] then Reconciled(healthy, original[j], runs[j]) else runs[j] == original[j]
  }

  lemma NextToReconcile(healthy: seq<string>, original: Runs, runs: Runs, order: seq<string>, k: nat)
    requires k < |order| && ReconciledUpTo(healthy, original, runs, order, k) && NoDuplicates(order)
    requires forall j :: j in order <==> j in runs
    ensures order[k] in runs && order[k] in original && runs[order[k]] == original[order[k]]
    ensures order[..k + 1] == order[..k] + [order[k]]
  {
    NotBefore(order, k);
    assert order[k] in order;
  }

  lemma ReconciledOneMore(healthy: seq<string>, original: Runs, runs: Runs, runs': Runs, order: seq<string>, k: nat)
    requires k < |order| && ReconciledUpTo(healthy, original, runs, order, k) && order[k] in original && order[k] in runs'
    requires runs' == runs[order[k] := runs'[order[k]]] && Reconciled(healthy, original[order[k]], runs'[order[k]])
    ensures ReconciledUpTo(healthy, original, runs', order, k + 1)
  {
    hide Reconciled;
    assert order[..k + 1] == order[..k] + [order[k]];
  }

  lemma AllReconciled(healthy: seq<string>, original: Runs, runs: Runs, order: seq<string>)
    requires ReconciledUpTo(healthy, original, runs, order, |order|) && forall j :: j in order <==> j in runs
    ensures runs.Keys == original.Keys && forall j :: j in runs ==> Reconciled(healthy, original[j], runs[j])
  {
    assert order[..|order|] == order;
  }

  function RescueCallsOf(run: Run, healthy: seq<string>): seq<Call> {
    if MustFail(run, healthy)
    then Stops(run.tasks, StopOrder(run.deployed, FirstStranded(run.tasks, run.ids, healthy).value)) else []
  }

  /** The stop calls of a health check, job by job. */
  function RescueCalls(runs: Runs, healthy: seq<string>, order: seq<string>): seq<Call> {
    if order == [] then []
    else
      var j := order[|order| - 1];
      RescueCalls(runs, healthy, order[..|order| - 1]) + (if j in runs then RescueCallsOf(runs[j], healthy) else [])
  }

  /**
   A job that a health check fails has its tasks stopped, last deployed first, and ends as the Workers answered the
   stop calls from number `from` on.
   */
  ghost predicate TornDownBy(before: Run, after: Run, healthy: seq<string>, answers: Answers, from: nat) {
    MustFail(before, healthy) ==>
      var stranded := FirstStranded(before.tasks, before.ids, healthy).value;
      && TornDown(before.deployed, after.tasks, stranded, answers, from)
      && StopsBackwards(before.tasks, before.deployed, stranded, RescueCallsOf(before, healthy))
  }

  /** The i-th job of a health check ends by the answers to its own stop calls, which come behind those of the jobs before it. */
  ghost predicate RescuedAsAnswered(original: Runs, runs: Runs, healthy: seq<string>, order: seq<string>, i: nat,
                                    answers: Answers, from: nat)
    requires i < |order|
  {
    order[i] in original && order[i] in runs
    && TornDownBy(original[order[i]], runs[order[i]], healthy, answers,
                  from + |RescueCalls(original, healthy, order[..i])|)
  }

  lemma RescuedOneMore(original: Runs, runs: Runs, runs': Runs, healthy: seq<string>, order: seq<string>, k: nat,
                       answers: Answers, from: nat)
    requires k < |order| && NoDuplicates(order) && order[k] in original && order[k] in runs'
    requires forall i: nat :: i < k ==> RescuedAsAnswered(original, runs, healthy, order, i, answers, from)
    requires runs' == runs[order[k] := runs'[order[k]]]
    requires TornDownBy(original[order[k]], runs'[order[k]], healthy, answers,
                        from + |RescueCalls(original, healthy, order[..k])|)
    ensures forall i: nat :: i <= k ==> RescuedAsAnswered(original, runs', healthy, order, i, answers, from)
  {
    hide TornDownBy, RescueCalls;
    forall i: nat | i <= k ensures RescuedAsAnswered(original, runs', healthy, order, i, answers, from) {
      if i < k {
        assert RescuedAsAnswered(original, runs, healthy, order, i, answers, from);
        assert order[i] != order[k];
      }
    }
  }

  lemma NoneYet(runs: Runs, healthy: seq<string>, order: seq<string>)
    ensures RescueCalls(runs, healthy, order[..0]) == [] && Filter(order[..0], MustFailOf(runs, healthy)) == []
    ensures ReconciledUpTo(healthy, runs, runs, order, 0)
  {
  }

  lemma RescueCallsGrow(runs: Runs, healthy: seq<string>, order: seq<string>, k: nat)
    requires k < |order|
    ensures RescueCalls(runs, healthy, order[..k + 1])
         == RescueCalls(runs, healthy, order[..k])
            + (if order[k] in runs then RescueCallsOf(runs[order[k]], healthy) else [])
  {
    assert order[..k + 1][..k] == order[..k];
  }

  /** A job that still runs after a health check has no task on a Worker that has timed out. */
  lemma NotStrandedAfter(ws: Workers, now: int, timeout: int, before: Run, after: Run)
    requires Reconciled(HealthyIds(ws, now, timeout), before, after) && after.status == JobStatus.Running
    requires WellFormed(after)
    ensures !Stranded(ws, now, timeout, after)
  {
    StrandedIs(ws, now, timeout, after);
  }

  lemma {:induction false} NoneStranded(tasks: Tasks, ids: seq<string>, healthy: seq<string>)
    ensures FirstStranded(tasks, ids, healthy).None? <==>
            forall id :: id in ids && id in tasks && tasks[id].place.Some? ==> tasks[id].place.value.0 in healthy
  {
    if ids != [] {
      NoneStranded(tasks, ids[1..], healthy);
      assert forall id :: id in ids <==> id == ids[0] || id in ids[1..];
    }
  }

  lemma StrandedIs(ws: Workers, now: int, timeout: int, run: Run)
    requires WellFormed(run)
    ensures FirstStranded(run.tasks, run.ids, HealthyIds(ws, now, timeout)).Some? <==> Stranded(ws, now, timeout, run)
  {
    HealthyIdsAre(ws, now, timeout);
    NoneStranded(run.tasks, run.ids, HealthyIds(ws, now, timeout));
  }

  lemma StrandedIgnoresSlots(ws: Workers, ws': Workers, now: int, timeout: int, run: Run)
    requires OnlySlotsDiffer(ws, ws')
    ensures Stranded(ws, now, timeout, run) <==> Stranded(ws', now, timeout, run)
  {
    forall w ensures HealthyAt(ws, now, timeout)(w) == HealthyAt(ws', now, timeout)(w) {
    }
  }

  lemma NotBefore(order: seq<string>, k: nat)
    requires NoDuplicates(order) && k < |order|
    ensures order[k] !in order[..k] && order[..k + 1] == order[..k] + [order[k]]
  {
  }

  lemma NothingDiffers(ws: Workers)
    ensures OnlySlotsDiffer(ws, ws)
  {
  }

  lemma DiffersTransitively(a: Workers, b: Workers, c: Workers)
    requires OnlySlotsDiffer(a, b) && OnlySlotsDiffer(b, c)
    ensures OnlySlotsDiffer(a, c)
  {
  }

  lemma HeartbeatKeepsLedger(ws: Workers, held: Holdings, id: string, at: int)
    requires Ledger(ws, held) && id in ws
    ensures Ledger(ws[id := ws[id].(lastHeartbeat := at)], held)
  {
    var ws' := ws[id := ws[id].(lastHeartbeat := at)];
    forall p: Place | IsPlace(ws', p) ensures IsPlace(ws, p) && At(ws', p) == At(ws, p) {
    }
    forall t | t in held ensures IsPlace(ws', held[t]) && At(ws', held[t]) == Some(t) {
      assert IsPlace(ws, held[t]) && At(ws, held[t]) == Some(t);
    }
  }

  // ----- submission -----

  function NewTasks(ids: seq<string>): Tasks {
    map id | id in ids :: TaskInstance(Created, None)
  }

  /** Every task got its own slot, free before, on a healthy Worker, and was deployed and is running. */
  ghost predicate DeployedAll(ws: Workers, ws': Workers, on: seq<string>, run: Run, calls: seq<Call>, calls': seq<Call>) {
    && run.status == JobStatus.Running && AtRest(run) && WellFormed(run)
    && (exists scheduled :: SamePlaces(scheduled, run.tasks)
                            && Placed(ws, ws', NewTasks(run.ids), scheduled, NewTasks(run.ids).Keys, on))
    && (forall i :: 0 <= i < |run.deploymentOrder| ==>
          run.deploymentOrder[i] in run.tasks && run.tasks[run.deploymentOrder[i]].place.Some?)
    && calls' == calls + Deploys(run.tasks, run.deploymentOrder, |run.deploymentOrder|)
  }

  /**
   Task k was the first to be refused: the k before it were stopped again in reverse and ended as their Workers
   answered, and every slot is as it was.
   */
  ghost predicate RolledBack(ws: Workers, ws': Workers, run: Run, answers: Answers, calls: seq<Call>, calls': seq<Call>) {
    var order, k := run.deploymentOrder, |run.deployed|;
    && run.status == JobStatus.Failed && AllTerminal(run.tasks) && NonePlaced(run.tasks)
    && k < |order| && run.deployed == order[..k]
    && AllGranted(answers, |calls|, k) && !Granted(answers, |calls|, k)
    && TornDown(order[..k], run.tasks, order[k], answers, |calls| + k + 1)
    && OnlySlotsDiffer(ws, ws') && (forall w :: w in ws ==> ws'[w].slots == ws[w].slots)
    && exists scheduled: Tasks ::
         && (forall i :: 0 <= i < |order| ==> order[i] in scheduled && scheduled[order[i]].place.Some?)
         && (forall x :: x in StopOrder(order[..k], order[k]) ==> x in scheduled && scheduled[x].place.Some?)
         && calls' == calls + Deploys(scheduled, order, k + 1) + Stops(scheduled, StopOrder(order[..k], order[k]))
         && StopsBackwards(scheduled, order[..k], order[k], calls'[|calls| + k + 1..])
  }

  ghost predicate SubmissionOutcome(ws: Workers, ws': Workers, now: int, timeout: int, artifactStored: bool, run: Run,
                                    answers: Answers, calls: seq<Call>, calls': seq<Call>, error: Option<ManagerError>) {
    var on := HealthyIds(ws, now, timeout);
    if !artifactStored then
      error == Some(ArtifactRefused) && run.status == Rejected && ws' == ws && calls' == calls
    else if SlotsOn(ws, on) < |run.ids| then
      && error == Some(NoSlots(InsufficientSlots(|run.ids|, SlotsOn(ws, on))))
      && run.status == Rejected && ws' == ws && calls' == calls
    else if AllGranted(answers, |calls|, |run.deploymentOrder|) then
      error == None && DeployedAll(ws, ws', on, run, calls, calls')
    else
      error == Some(DeploymentFailed) && RolledBack(ws, ws', run, answers, calls, calls')
  }

  lemma NewTasksHoldNothing(runs: Runs, held: Holdings, jobId: string, ids: seq<string>)
    requires AllOk(runs, held) && jobId !in runs && forall id :: id in ids ==> BelongsTo(jobId, id)
    ensures HoldNothing(held, NewTasks(ids)) && forall id :: id in ids <==> id in NewTasks(ids)
    ensures AllCreated(NewTasks(ids), ids) && NewTasks(ids).Keys !! held.Keys
    ensures forall id :: id in NewTasks(ids) ==> NewTasks(ids)[id].place.None?
  {
    forall id | id in ids ensures id !in held {
      if id in held {
        var j :| j in runs && id in runs[j].tasks;
        RunIsOk(runs, held, j);
        JobsShareNoTask(j, jobId, id);
      }
    }
  }

  lemma AppendFresh(order: seq<string>, jobId: string)
    requires NoDuplicates(order) && jobId !in order
    ensures NoDuplicates(order + [jobId])
  {
  }

  lemma NewTasksAre(held: Holdings, ids: seq<string>)
    requires HoldNothing(held, NewTasks(ids))
    ensures forall id :: id in ids <==> id in NewTasks(ids)
    ensures AllCreated(NewTasks(ids), ids) && NewTasks(ids).Keys !! held.Keys
  {
  }

  lemma RejectedIsOk(held: Holdings, jobId: string, run: Run)
    requires run.status == Rejected && run.deployed == []
    requires NoDuplicates(run.ids) && NoDuplicates(run.deploymentOrder)
    requires forall id :: id in run.deploymentOrder <==> id in run.ids
    requires forall id :: id in run.ids ==> BelongsTo(jobId, id)
    requires run.tasks == NewTasks(run.ids) && HoldNothing(held, run.tasks)
    ensures RunOk(jobId, run, held)
  {
    hide BelongsTo;
  }

  /** After scheduling, the job's tasks hold their slots and deployment may begin. */
  lemma ScheduledIsReady(ws: Workers, ws': Workers, held: Holdings, jobId: string, run: Run, on: seq<string>)
    requires Placed(ws, ws', NewTasks(run.ids), run.tasks, NewTasks(run.ids).Keys, on)
    requires Ledger(ws, held) && NewTasks(run.ids).Keys !! held.Keys && run.deployed == []
    requires NoDuplicates(run.ids) && NoDuplicates(run.deploymentOrder)
    requires forall id :: id in run.deploymentOrder <==> id in run.ids
    requires forall id :: id in run.ids ==> BelongsTo(jobId, id)
    ensures WellFormed(run) && Owned(jobId, run.tasks) && DeployedUpTo(run.tasks, run.deploymentOrder, 0)
    ensures Ledger(ws', held + PlacesOf(run.tasks)) && Agrees(held + PlacesOf(run.tasks), run.tasks, run.ids)
    ensures Without(held + PlacesOf(run.tasks), run.ids) == held
    ensures run.tasks.Keys == NewTasks(run.ids).Keys && forall id :: id in run.tasks ==> BelongsTo(jobId, id)
  {
    hide Ledger, At, IsPlace, BelongsTo;
    PlacedKeepsLedger(ws, ws', NewTasks(run.ids), run.tasks, NewTasks(run.ids).Keys, on, held);
  }

  lemma StillTheJob(held: Holdings, jobId: string, run: Run, run': Run)
    requires WellFormed(run) && Owned(jobId, run.tasks) && Agrees(held, run.tasks, run.ids)
    requires SameJob(run, run') && SamePlaces(run.tasks, run'.tasks)
    requires run'.deployed == run.deploymentOrder
             || (|run'.deployed| <= |run.deploymentOrder| && run'.deployed == run.deploymentOrder[..|run'.deployed|])
    ensures WellFormed(run') && Owned(jobId, run'.tasks) && Agrees(held, run'.tasks, run'.ids)
  {
    hide BelongsTo;
  }

  lemma RunningIsAtRest(run: Run, run': Run)
    requires WellFormed(run') && SameJob(run, run')
    requires run'.status == JobStatus.Running && run'.deployed == run.deploymentOrder
    requires DeployedUpTo(run'.tasks, run.deploymentOrder, |run.deploymentOrder|)
    ensures AtRest(run')
  {
    hide DeployedUpTo, WellFormed;
    AllDeployed(run');
  }

  /** A submission changes nobody else's holdings. */
  lemma OwnHoldings(held: Holdings, held': Holdings, jobId: string, tasks: Tasks)
    requires held' == held || held' == held + PlacesOf(tasks)
    requires forall id :: id in tasks ==> BelongsTo(jobId, id)
    ensures OthersHoldSame(held, held', jobId) && forall id :: id in held' && id !in held ==> id in tasks
  {
    hide BelongsTo;
  }

  lemma AllAreDeployed(ws: Workers, ws': Workers, on: seq<string>, run: Run, run': Run, calls: seq<Call>, calls': seq<Call>)
    requires Placed(ws, ws', NewTasks(run.ids), run.tasks, NewTasks(run.ids).Keys, on)
    requires SameJob(run, run') && SamePlaces(run.tasks, run'.tasks) && WellFormed(run') && AtRest(run')
    requires run'.status == JobStatus.Running
    requires forall i :: 0 <= i < |run.deploymentOrder| ==>
               run.deploymentOrder[i] in run.tasks && run.tasks[run.deploymentOrder[i]].place.Some?
    requires calls' == calls + Deploys(run.tasks, run.deploymentOrder, |run.deploymentOrder|)
    ensures DeployedAll(ws, ws', on, run', calls, calls')
  {
    hide Placed, AtRest, WellFormed;
    assert Deploys(run.tasks, run.deploymentOrder, |run.deploymentOrder|)
        == Deploys(run'.tasks, run.deploymentOrder, |run.deploymentOrder|);
  }

  lemma RolledBackIsOk(held: Holdings, during: Holdings, jobId: string, run: Run, run': Run, run'': Run,
                       ws: Workers, ws': Workers, ws'': Workers, on: seq<string>)
    requires Ledger(ws, held) && Without(during, run.ids) == held
    requires Placed(ws, ws', NewTasks(run.ids), run.tasks, NewTasks(run.ids).Keys, on)
    requires SameJob(run, run') && WellFormed(run') && Owned(jobId, run'.tasks) && Closed(run', run'')
    requires run''.status == JobStatus.Failed
    requires OnlySlotsDiffer(ws', ws'') && Ledger(ws'', Without(during, run.ids))
    ensures RunOk(jobId, run'', held) && SameJob(run, run'')
    ensures OnlySlotsDiffer(ws, ws'') && forall w :: w in ws ==> ws''[w].slots == ws[w].slots
  {
    hide BelongsTo, At, Ledger, HaveOwnSlots, OnlyTaken;
    assert OnlySlotsDiffer(ws, ws');
    LedgerDetermines(ws, ws'', held);
    ReleasedAgrees(during, run''.tasks, run.ids);
  }

  lemma RolledBackCalls(run: Run, run': Run, run'': Run, failed: string, ws: Workers, ws'': Workers, answers: Answers,
                        calls: seq<Call>, calls'': seq<Call>)
    requires SameJob(run, run') && SamePlaces(run.tasks, run'.tasks) && Closed(run', run'')
    requires run''.status == JobStatus.Failed
    requires var k := |run'.deployed|;
             && k < |run.deploymentOrder| && failed == run.deploymentOrder[k] && run'.deployed == run.deploymentOrder[..k]
    requires forall i :: 0 <= i < |run.deploymentOrder| ==>
               run.deploymentOrder[i] in run.tasks && run.tasks[run.deploymentOrder[i]].place.Some?
    requires forall x :: x in StopOrder(run'.deployed, failed) ==> x in run'.tasks && run'.tasks[x].place.Some?
    requires calls'' == calls + Deploys(run.tasks, run.deploymentOrder, |run'.deployed| + 1)
                        + Stops(run'.tasks, StopOrder(run'.deployed, failed))
    requires OnlySlotsDiffer(ws, ws'') && forall w :: w in ws ==> ws''[w].slots == ws[w].slots
    requires AllGranted(answers, |calls|, |run'.deployed|) && !Granted(answers, |calls|, |run'.deployed|)
    requires TornDown(run'.deployed, run''.tasks, failed, answers, |calls| + |run'.deployed| + 1)
    requires NoDuplicates(run'.deployed)
    ensures RolledBack(ws, ws'', run'', answers, calls, calls'')
  {
    hide StopOrder, OnlySlotsDiffer, AllTerminal, NonePlaced, TornDown, AllGranted, Granted;
    var stops := StopOrder(run'.deployed, failed);
    assert forall i :: 0 <= i < |stops| ==> stops[i] in stops;
    assert Stops(run'.tasks, stops) == Stops(run.tasks, stops);
    StopsAreBackwards(run.tasks, run'.deployed, failed);
    assert calls''[|calls| + |run'.deployed| + 1..] == Stops(run.tasks, stops);
    hide StopsBackwards, Stops, Deploys;
  }

  lemma BackwardsFrom(run: Run, failed: string)
    requires WellFormed(run) && forall x :: x in StopOrder(run.deployed, failed) ==> x in run.tasks && run.tasks[x].place.Some?
    ensures StopsBackwards(run.tasks, run.deployed, failed, Stops(run.tasks, StopOrder(run.deployed, failed)))
  {
    hide StopOrder, Stops, StopsBackwards;
    StopsAreBackwards(run.tasks, run.deployed, failed);
  }
}
