/**
 The moments at which a failure must not begin (control/manager.py, 133-179 and 261-303): a failure that begins
 while another task of the job is just being deployed, and nothing will stop that submission, can leave a task
 running in a job that is over. At every other moment it cannot.
 */
module Orphans {
  import opened Wrappers
  import opened Sequences
  import opened TaskIds
  import opened Models
  import opened Scheduler
  import opened Lifecycle
  import opened Manager
  import opened Interleaving
  import opened Closure

  /** The job is over, nobody works on it, and a task of it runs on without a slot. */
  ghost predicate Orphaned(s: State, jobId: string) {
    && jobId in s.jobs && Mine(s, jobId) == map[] && s.jobs[jobId].status == JobStatus.Failed
    && exists id :: id in s.jobs[jobId].tasks && s.jobs[jobId].tasks[id] == TaskInstance(TaskStatus.Running, None)
  }

  /** Nothing more is begun or reported of the job: its handlers just go on. */
  ghost predicate NothingNew(events: seq<Event>, jobId: string) {
    forall i :: 0 <= i < |events| ==>
      match events[i]
      case FailureBegins(_, j, _) => j != jobId
      case TaskReported(j, _, _) => j != jobId
      case _ => true
  }

  // ----- the moment -----

  /** A risky moment is one of a submission that is well under way. */
  lemma RiskyMoment(run: Run, mine: Handlers, taskId: string) returns (q: nat)
    requires Calm(run, mine) && Risky(run, taskId) && taskId in run.tasks
    ensures Ordered(run) && ComingUp(run, mine) && taskId in run.deployed
    ensures |run.deployed| < |run.deploymentOrder|
    ensures q in mine && mine == map[q := mine[q]] && mine[q].DeployCall? && mine[q].k == |run.deployed|
    ensures |run.deployed| + 1 < |run.deploymentOrder| ==>
              exists x :: x in run.deployed && x != taskId && x in run.tasks && run.tasks[x].status == TaskStatus.Running
  {
    hide Calm, Regions, StoppersOk, GoingDown, HasDeployer, Ordered, ComingUp, Bound, Risky, DeployerOk;
    RiskNeedsDeployer(run, mine, taskId);
    q := SomeDeployer(mine);
    DeployerKnows(run, mine, q);
    assert !Bound(run, taskId) by { RiskyIsUnbound(run, taskId); }
    RiskyIsNotDown(run, mine, taskId);
    OnlyHandler(mine, q);
    RiskyIsDeployed(run, taskId);
    if |run.deployed| + 1 < |run.deploymentOrder| {
      OtherIsRunning(run, mine, taskId);
    }
  }

  lemma SomeDeployer(mine: Handlers) returns (q: nat)
    requires HasDeployer(mine)
    ensures q in mine && mine[q].DeployCall?
  {
    q :| q in mine && mine[q].DeployCall?;
  }

  lemma OnlyHandler(mine: Handlers, q: nat)
    requires q in mine && mine - {q} == map[]
    ensures mine == map[q := mine[q]]
  {
    assert forall g :: g in mine && g != q ==> g in mine - {q};
  }

  lemma RiskyIsUnbound(run: Run, taskId: string)
    requires Risky(run, taskId)
    ensures !Bound(run, taskId)
  {
  }

  lemma OtherIsRunning(run: Run, mine: Handlers, taskId: string)
    requires Ordered(run) && ComingUp(run, mine) && !Bound(run, taskId) && |run.deployed| + 1 < |run.deploymentOrder|
    ensures exists x :: x in run.deployed && x != taskId && x in run.tasks && run.tasks[x].status == TaskStatus.Running
  {
    hide HasDeployer;
    var x :| x in run.deployed && x in run.tasks && x != taskId && Stoppable(run.tasks[x]);
    var i :| 0 <= i < |run.deployed| && run.deployed[i] == x;
    assert StatusAt(run, i) == TaskStatus.Running;
  }

  lemma RiskyIsNotDown(run: Run, mine: Handlers, taskId: string)
    requires Ordered(run) && HasDeployer(mine) && !Bound(run, taskId)
    ensures !GoingDown(run, mine)
  {
    hide HasDeployer, Covered, Ending;
    assert forall i :: 0 <= i < |run.deploymentOrder| ==> StatusAt(run, i) == run.tasks[run.deploymentOrder[i]].status;
  }

  lemma RiskyIsDeployed(run: Run, taskId: string)
    requires Ordered(run) && taskId in run.tasks && !Bound(run, taskId)
    ensures taskId in run.deployed
  {
    var i :| 0 <= i < |run.deploymentOrder| && run.deploymentOrder[i] == taskId;
    assert i < |run.deployed| && run.deployed[i] == taskId;
  }

  // ----- drifting -----

  /** The first tasks have been deployed, among them the one at d0 though the job is failing, and so are the others yet. */
  ghost predicate Sound(run: Run, d0: nat) {
    && Ordered(run) && d0 < |run.deploymentOrder| && d0 <= |run.deployed|
    && (run.status == Failing || run.status == JobStatus.Failed)
    && (d0 < |run.deployed| ==> StatusAt(run, d0) == TaskStatus.Running)
    && (|run.deployed| < |run.deploymentOrder| ==> StatusAt(run, |run.deployed|) == TaskStatus.Deploying)
    && (forall i :: |run.deployed| < i < |run.deploymentOrder| ==> Waiting(run, i))
  }

  ghost predicate Waiting(run: Run, i: nat)
    requires i < |run.deploymentOrder| && run.deploymentOrder[i] in run.tasks
  {
    StatusAt(run, i) == Scheduled && run.tasks[run.deploymentOrder[i]].place.Some?
  }

  /** A handler that stops other tasks than the one at d0. */
  ghost predicate Stopping(run: Run, p: Pending, d0: nat)
    requires d0 < |run.deploymentOrder|
  {
    && p.StopCall? && run.status == Failing
    && p.current in run.tasks && p.current != run.deploymentOrder[d0]
    && run.tasks[p.current].status == TaskStatus.Cancelling
    && (forall x :: x in p.rest ==> x in run.tasks && x != run.deploymentOrder[d0])
    && p.purpose.failed.Some? && p.purpose.failed.value in run.tasks
    && TerminalTask(run.tasks[p.purpose.failed.value].status)
  }

  /** Handler q goes on deploying while handler h stops what it found deployed, or is done with it. */
  ghost predicate Drifting(run: Run, mine: Handlers, jobId: string, q: nat, h: nat, d0: nat) {
    && q != h && Sound(run, d0)
    && (q in mine <==> |run.deployed| < |run.deploymentOrder|)
    && (q in mine ==> mine[q] == DeployCall(jobId, |run.deployed|))
    && (forall g :: g in mine ==> g == q || g == h)
    && (if h in mine then Stopping(run, mine[h], d0)
        else run.status == JobStatus.Failed && |run.deployed| + 1 >= |run.deploymentOrder|)
  }

  ghost predicate Drifts(s: State, jobId: string, q: nat, h: nat, d0: nat) {
    Safe(s) && jobId in s.jobs && Drifting(s.jobs[jobId], Mine(s, jobId), jobId, q, h, d0)
  }

  // ----- the failure -----

  /** A task that can be asked to stop is asked to. */
  lemma {:induction false} StoppingSuspends(ws: Workers, tasks: Tasks, rest: seq<string>, failures: bool, x: string)
    requires (forall y :: y in rest ==> y in tasks) && x in rest && Stoppable(tasks[x]) && Reachable(ws, tasks[x])
    ensures StopMore(ws, tasks, rest, failures).Suspended?
    decreases |rest|
  {
    var id, more := rest[0], rest[1..];
    assert id in rest && forall y :: y in rest <==> y == id || y in more;
    if !Stoppable(tasks[id]) {
      StoppingSuspends(ws, tasks, more, failures, x);
    } else if !Reachable(ws, Move(tasks[id], TaskStatus.Cancelling)) {
      StoppingSuspends(ws, tasks[id := Move(Move(tasks[id], TaskStatus.Cancelling), TaskStatus.Failed)], more, true, x);
    }
  }

  lemma PlacedIsReachable(s: State, jobId: string, id: string)
    requires Safe(s) && jobId in s.jobs && id in s.jobs[jobId].tasks && s.jobs[jobId].tasks[id].place.Some?
    ensures Reachable(s.ws, s.jobs[jobId].tasks[id])
  {
    hide Safe, BelongsTo;
    AssignedIsHeld(s, jobId, id);
  }

  lemma MarkedRun(run: Run, taskId: string)
    requires Ordered(run) && |run.deployed| < |run.deploymentOrder| && taskId in run.deployed && taskId in run.tasks
    requires run.status == JobStatus.Deploying && run.tasks[taskId].status == TaskStatus.Running
    ensures var run' := AsFailed(run, taskId);
            && Ordered(run') && run'.status == Failing && run'.deployed == run.deployed
            && run'.deploymentOrder == run.deploymentOrder && run'.ids == run.ids && run'.tasks.Keys == run.tasks.Keys
            && run'.tasks[taskId].status == TaskStatus.Failed
            && (forall x :: x in run.tasks && x != taskId ==> run'.tasks[x] == run.tasks[x])
            && (forall i :: |run.deployed| <= i < |run.deploymentOrder| ==> run.deploymentOrder[i] != taskId)
  {
    forall i | |run.deployed| <= i < |run.deploymentOrder| ensures run.deploymentOrder[i] != taskId {
      NotDeployedYet(run, i);
    }
  }

  /** What the failing handler has done to the tasks when it first waits or ends. */
  ghost predicate FirstStops(run: Run, run': Run, taskId: string) {
    && run'.deploymentOrder == run.deploymentOrder && run'.deployed == run.deployed && run'.tasks.Keys == run.tasks.Keys
    && taskId in run.tasks && run'.tasks[taskId].status == TaskStatus.Failed
    && forall x :: x in run.tasks && x !in run.deployed ==>
         || run'.tasks[x] == run.tasks[x]
         || (run'.status == JobStatus.Failed
             && run'.tasks[x].status == if run.tasks[x].status == Scheduled then TaskStatus.Cancelled else run.tasks[x].status)
  }

  /** The failing handler's first stretch. */
  lemma FailureSets(s: State, jobId: string, taskId: string, h: nat)
    requires Safe(s) && jobId in s.jobs && h !in s.pending && taskId in s.jobs[jobId].tasks
    requires Ordered(s.jobs[jobId]) && |s.jobs[jobId].deployed| < |s.jobs[jobId].deploymentOrder|
    requires taskId in s.jobs[jobId].deployed
    requires s.jobs[jobId].status == JobStatus.Deploying && s.jobs[jobId].tasks[taskId].status == TaskStatus.Running
    ensures Listed(s.jobs[jobId])
    ensures var run, s' := s.jobs[jobId], Fail(s, h, jobId, taskId);
            && TouchesOnly(s, s', jobId, h) && jobId in s'.jobs && FirstStops(run, s'.jobs[jobId], taskId)
            && var run' := s'.jobs[jobId];
               if h in s'.pending
               then run'.status == Failing
                    && Stopping(run', s'.pending[h], |run.deployed|)
                    && forall x :: x in run.tasks && x !in run.deployed ==> run'.tasks[x] == run.tasks[x]
               else run'.status == JobStatus.Failed
                    && forall x :: x in run.deployed && x != taskId && x in run.tasks && run.tasks[x].status == TaskStatus.Running
                         ==> !Reachable(s.ws, run.tasks[x])
  {
    hide Safe, Shaped, Continue, StopMore, StopOrder, TouchesOnly, StopsInto, CancelsInto, Ordered, OnlyStatuses;
    SafeParts(s, jobId);
    var run := s.jobs[jobId];
    MarkedRun(run, taskId);
    var run1 := AsFailed(run, taskId);
    var s1 := s.(jobs := s.jobs[jobId := run1]);
    var rest := StopOrder(run.deployed, taskId);
    StopOrderIs(run.deployed, taskId);
    MarkedIsStatus(run, taskId);
    StatusesKeepSafe(s, s1, jobId, run1);
    OneJobTouched(s, jobId, run1, h);
    ContinueEffect(s1, h, jobId, rest, Purpose(Some(taskId), false));
    var s' := Continue(s1, h, jobId, rest, Purpose(Some(taskId), false));
    TouchesTransitively(s, s1, s', jobId, h);
    var r := StopMore(s.ws, run1.tasks, rest, false);
    FirstStretch(run, run1, taskId, rest, r, s'.jobs[jobId]);
    if r.Suspended? {
      FirstWaits(run, run1, taskId, rest, r, s'.jobs[jobId], s'.pending[h]);
    } else {
      forall x | x in run.deployed && x != taskId && x in run.tasks && run.tasks[x].status == TaskStatus.Running
        ensures !Reachable(s.ws, run.tasks[x])
      {
        if Reachable(s.ws, run.tasks[x]) {
          StoppingSuspends(s.ws, run1.tasks, rest, false, x);
        }
      }
    }
  }

  lemma FirstStretch(run: Run, run1: Run, taskId: string, rest: seq<string>, r: StopProgress, run': Run)
    requires taskId in run.deployed && taskId in run.tasks && run1 == AsFailed(run, taskId)
    requires run.tasks[taskId].status == TaskStatus.Running
    requires forall x :: x in rest <==> x in run.deployed && x != taskId
    requires StopsInto(run1.tasks, rest, r)
    requires if r.Suspended? then run' == run1.(tasks := r.tasks)
             else CancelsInto(run1.(tasks := r.tasks), run') && run'.status == JobStatus.Failed
    ensures FirstStops(run, run', taskId)
  {
  }

  lemma FirstWaits(run: Run, run1: Run, taskId: string, rest: seq<string>, r: StopProgress, run': Run, p: Pending)
    requires Ordered(run) && |run.deployed| < |run.deploymentOrder|
    requires taskId in run.deployed && taskId in run.tasks && run1 == AsFailed(run, taskId) && run1.status == Failing
    requires run.tasks[taskId].status == TaskStatus.Running
    requires forall x :: x in rest <==> x in run.deployed && x != taskId
    requires StopsInto(run1.tasks, rest, r) && r.Suspended? && run' == run1.(tasks := r.tasks)
    requires p.StopCall? && p.current == r.current && p.rest == r.rest && p.purpose.failed == Some(taskId)
    ensures Stopping(run', p, |run.deployed|)
    ensures forall x :: x in run.tasks && x !in run.deployed ==> run'.tasks[x] == run.tasks[x]
  {
    NotDeployedYet(run, |run.deployed|);
  }

  /** A failure at a risky moment sets the job drifting. */
  lemma FailureDrifts(s: State, jobId: string, taskId: string, h: nat) returns (q: nat)
    requires Safe(s) && jobId in s.jobs && h !in s.pending && taskId in s.jobs[jobId].tasks
    requires Calm(s.jobs[jobId], Mine(s, jobId)) && Risky(s.jobs[jobId], taskId)
    ensures Listed(s.jobs[jobId])
    ensures Drifts(Fail(s, h, jobId, taskId), jobId, q, h, |s.jobs[jobId].deployed|)
  {
    hide Safe, Calm, Risky, Fail, TouchesOnly, FirstStops, Drifting, Ordered, ComingUp, Stopping;
    var run, mine := s.jobs[jobId], Mine(s, jobId);
    q := RiskyMoment(run, mine, taskId);
    DeployedRuns(run, mine, taskId);
    FailureSets(s, jobId, taskId, h);
    FailKeepsSafe(s, h, jobId, taskId);
    var s' := Fail(s, h, jobId, taskId);
    TouchedHandlers(s, s', jobId, h);
    if h !in s'.pending && |run.deployed| + 1 < |run.deploymentOrder| {
      var x :| x in run.deployed && x != taskId && x in run.tasks && run.tasks[x].status == TaskStatus.Running;
      ComingUpIsPlaced(run, mine, x);
      PlacedIsReachable(s, jobId, x);
      assert false;
    }
    assert mine[q] == s.pending[q];
    FailedIsDrifting(run, mine, s'.jobs[jobId], Mine(s', jobId), jobId, taskId, q, h);
  }

  lemma DeployedRuns(run: Run, mine: Handlers, taskId: string)
    requires Ordered(run) && ComingUp(run, mine) && taskId in run.deployed
    ensures run.status == JobStatus.Deploying && taskId in run.tasks && run.tasks[taskId].status == TaskStatus.Running
  {
    hide HasDeployer;
    var i :| 0 <= i < |run.deployed| && run.deployed[i] == taskId;
    assert StatusAt(run, i) == run.tasks[taskId].status;
  }

  lemma ComingUpIsPlaced(run: Run, mine: Handlers, id: string)
    requires Ordered(run) && ComingUp(run, mine) && id in run.tasks
    ensures run.tasks[id].place.Some?
  {
  }

  lemma FailedIsDrifting(run: Run, mine: Handlers, run': Run, mine': Handlers, jobId: string, taskId: string, q: nat, h: nat)
    requires Ordered(run) && ComingUp(run, mine) && |run.deployed| < |run.deploymentOrder| && q != h && h !in mine
    requires q in mine && mine == map[q := mine[q]] && mine[q] == DeployCall(jobId, |run.deployed|)
    requires FirstStops(run, run', taskId)
    requires mine' == if h in mine' then mine[h := mine'[h]] else mine
    requires if h in mine'
             then run'.status == Failing && Stopping(run', mine'[h], |run.deployed|)
                  && forall x :: x in run.tasks && x !in run.deployed ==> run'.tasks[x] == run.tasks[x]
             else run'.status == JobStatus.Failed && |run.deployed| + 1 == |run.deploymentOrder|
    ensures Drifting(run', mine', jobId, q, h, |run.deployed|)
  {
    hide Stopping, HasDeployer, Sound;
    FailedIsSound(run, mine, run', taskId, h in mine');
  }

  lemma FailedIsSound(run: Run, mine: Handlers, run': Run, taskId: string, waits: bool)
    requires Ordered(run) && ComingUp(run, mine) && |run.deployed| < |run.deploymentOrder| && FirstStops(run, run', taskId)
    requires if waits then run'.status == Failing
                           && forall x :: x in run.tasks && x !in run.deployed ==> run'.tasks[x] == run.tasks[x]
             else run'.status == JobStatus.Failed && |run.deployed| + 1 == |run.deploymentOrder|
    ensures Sound(run', |run.deployed|)
  {
    hide HasDeployer;
    forall i | |run.deployed| <= i < |run.deploymentOrder| ensures run.deploymentOrder[i] !in run.deployed {
      NotDeployedYet(run, i);
    }
    assert StatusAt(run, |run.deployed|) == TaskStatus.Deploying && Ordered(run');
    assert StatusAt(run', |run.deployed|) == TaskStatus.Deploying;
    if waits {
      forall i | |run.deployed| < i < |run.deploymentOrder| ensures Waiting(run', i) {
        assert StatusAt(run, i) == Scheduled;
      }
    }
  }

  // ----- the submission goes on -----

  /** The job after its next task was deployed although the job is failing. */
  function DeployedOn(run: Run): Run
    requires |run.deployed| < |run.deploymentOrder|
    requires forall i :: 0 <= i < |run.deploymentOrder| ==> run.deploymentOrder[i] in run.tasks
  {
    var run' := NextRunning(run);
    if |run'.deployed| < |run'.deploymentOrder| then NextDeploying(run') else run'
  }

  lemma DeployedOnStatuses(run: Run, d0: nat)
    requires Sound(run, d0) && |run.deployed| < |run.deploymentOrder|
    ensures Sound(DeployedOn(run), d0)
    ensures var run', d := DeployedOn(run), |run.deployed|;
            && run'.deploymentOrder == run.deploymentOrder && run'.status == run.status && |run'.deployed| == d + 1
            && run'.tasks.Keys == run.tasks.Keys
            && (forall x :: x in run.tasks && run.tasks[x].status != TaskStatus.Deploying && run.tasks[x].status != Scheduled
                  ==> run'.tasks[x] == run.tasks[x])
  {
    RunningStatuses(run);
    var run1 := NextRunning(run);
    if |run1.deployed| < |run1.deploymentOrder| {
      NextStatuses(run1);
      assert Waiting(run, |run1.deployed|);
    }
    var run' := DeployedOn(run);
    forall i | |run'.deployed| < i < |run'.deploymentOrder| ensures Waiting(run', i) {
      assert Waiting(run, i);
    }
  }

  lemma DeployedOnDrifts(run: Run, mine: Handlers, mine': Handlers, jobId: string, q: nat, h: nat, d0: nat)
    requires Drifting(run, mine, jobId, q, h, d0) && |run.deployed| < |run.deploymentOrder|
    requires mine' == if |run.deployed| + 1 < |run.deploymentOrder| then mine[q := DeployCall(jobId, |run.deployed| + 1)]
                      else mine - {q}
    ensures Drifting(DeployedOn(run), mine', jobId, q, h, d0)
  {
    hide Sound, DeployedOn;
    DeployedOnStatuses(run, d0);
  }

  /** A submission waits for the deploy call of the next task, and nothing is in the way of the one after it. */
  ghost predicate GoesOn(s: State, jobId: string, q: nat) {
    && Safe(s) && jobId in s.jobs && Ordered(s.jobs[jobId]) && q in s.pending
    && var run, d := s.jobs[jobId], |s.jobs[jobId].deployed|;
       && d < |run.deploymentOrder| && s.pending[q] == DeployCall(jobId, d) && StatusAt(run, d) == TaskStatus.Deploying
       && if d + 1 < |run.deploymentOrder| then Waiting(run, d + 1) else !JobMay(run.status, JobStatus.Running)
  }

  /** What a good answer to the deploy call comes to then. */
  lemma DeploySucceededIs(s: State, jobId: string, q: nat)
    requires GoesOn(s, jobId, q)
    ensures Shaped(s) && Enabled(s, DeployReturns(q, true))
    ensures var run, s' := s.jobs[jobId], Step(s, DeployReturns(q, true));
            && s'.jobs == s.jobs[jobId := DeployedOn(run)]
            && s'.pending == if |run.deployed| + 1 < |run.deploymentOrder|
                             then s.pending[q := DeployCall(jobId, |run.deployed| + 1)] else s.pending - {q}
  {
    hide Safe, Shaped, Listed, Reachable, Fail, Ordered;
    SafeParts(s, jobId);
    var run, d := s.jobs[jobId], |s.jobs[jobId].deployed|;
    OrderedTask(run, d);
    if d + 1 < |run.deploymentOrder| {
      OrderedTask(run, d + 1);
      NextIsAnother(run, d);
      PlacedIsReachable(s, jobId, run.deploymentOrder[d + 1]);
      ReachableStays(s.ws, run);
    }
    hide StatusAt, Waiting;
  }

  lemma DriftingGoesOn(s: State, jobId: string, q: nat, h: nat, d0: nat)
    requires Drifts(s, jobId, q, h, d0) && |s.jobs[jobId].deployed| < |s.jobs[jobId].deploymentOrder|
    ensures GoesOn(s, jobId, q)
  {
    hide Safe, StatusAt, Stopping;
    assert Mine(s, jobId)[q] == s.pending[q];
  }

  lemma NextIsAnother(run: Run, d: nat)
    requires Ordered(run) && d + 1 < |run.deploymentOrder|
    ensures run.deploymentOrder[d] != run.deploymentOrder[d + 1]
  {
  }

  lemma ReachableStays(ws: Workers, run: Run)
    requires Ordered(run) && |run.deployed| + 1 < |run.deploymentOrder|
    requires Reachable(ws, run.tasks[run.deploymentOrder[|run.deployed| + 1]])
    ensures run.deploymentOrder[|run.deployed| + 1] in NextRunning(run).tasks
    ensures Reachable(ws, NextRunning(run).tasks[run.deploymentOrder[|run.deployed| + 1]])
  {
  }

  lemma DeployDrifts(s: State, jobId: string, q: nat, h: nat, d0: nat)
    requires Drifts(s, jobId, q, h, d0) && |s.jobs[jobId].deployed| < |s.jobs[jobId].deploymentOrder|
    ensures Enabled(s, DeployReturns(q, true))
    ensures var s' := Step(s, DeployReturns(q, true));
            && Drifts(s', jobId, q, h, d0)
            && |s'.jobs[jobId].deploymentOrder| == |s.jobs[jobId].deploymentOrder|
            && |s'.jobs[jobId].deployed| == |s.jobs[jobId].deployed| + 1
  {
    hide Safe, Shaped, Enabled, Step, GoesOn, DeployedOn, Drifting, Sound;
    DriftingGoesOn(s, jobId, q, h, d0);
    DeploySucceededIs(s, jobId, q);
    var s' := Step(s, DeployReturns(q, true));
    StepKeepsSafe(s, DeployReturns(q, true));
    var run := s.jobs[jobId];
    assert Sound(run, d0) by { DriftingIsSound(run, Mine(s, jobId), jobId, q, h, d0); }
    DeployedOnStatuses(run, d0);
    DeployedOnDrifts(run, Mine(s, jobId), Mine(s', jobId), jobId, q, h, d0);
  }

  lemma DriftingIsSound(run: Run, mine: Handlers, jobId: string, q: nat, h: nat, d0: nat)
    requires Drifting(run, mine, jobId, q, h, d0)
    ensures Sound(run, d0)
  {
  }

  // ----- the failing handler goes on -----

  /** How much the failing handler still has before it. */
  ghost function Left(mine: Handlers, h: nat): nat {
    if h in mine && mine[h].StopCall? then |mine[h].rest| + 1 else 0
  }

  lemma {:induction false} StoppingShrinks(ws: Workers, tasks: Tasks, rest: seq<string>, failures: bool)
    requires forall x :: x in rest ==> x in tasks
    ensures var r := StopMore(ws, tasks, rest, failures); r.Suspended? ==> |r.rest| < |rest|
    decreases |rest|
  {
    hide Reachable;
    if rest != [] {
      var id, more := rest[0], rest[1..];
      assert id in rest && forall x :: x in more ==> x in rest;
      if !Stoppable(tasks[id]) {
        StoppingShrinks(ws, tasks, more, failures);
      } else if !Reachable(ws, Move(tasks[id], TaskStatus.Cancelling)) {
        StoppingShrinks(ws, tasks[id := Move(Move(tasks[id], TaskStatus.Cancelling), TaskStatus.Failed)], more, true);
      }
    }
  }

  /** All have been deployed, the one at d0 runs, and only the failing handler is left. */
  ghost predicate Late(run: Run, mine: Handlers, h: nat, d0: nat) {
    && d0 < |run.deploymentOrder| && run.deploymentOrder[d0] in run.tasks && StatusAt(run, d0) == TaskStatus.Running
    && (forall g :: g in mine ==> g == h)
    && (if h in mine then Stopping(run, mine[h], d0) else run.status == JobStatus.Failed)
  }

  lemma DriftingGetsLate(run: Run, mine: Handlers, jobId: string, q: nat, h: nat, d0: nat)
    requires Drifting(run, mine, jobId, q, h, d0) && |run.deployed| == |run.deploymentOrder|
    ensures Late(run, mine, h, d0)
  {
    hide Stopping;
  }

  /** A good answer to the failing handler's stop call: it stops the next task, or ends the job. */
  lemma StopEffect(s: State, jobId: string, h: nat, d0: nat)
    requires Safe(s) && jobId in s.jobs && h in s.pending && s.pending[h].jobId == jobId
    requires d0 < |s.jobs[jobId].deploymentOrder| && s.jobs[jobId].deploymentOrder[d0] in s.jobs[jobId].tasks
    requires StatusAt(s.jobs[jobId], d0) == TaskStatus.Running && Stopping(s.jobs[jobId], s.pending[h], d0)
    ensures Enabled(s, StopReturns(h, true))
    ensures var s' := Step(s, StopReturns(h, true));
            && Safe(s') && TouchesOnly(s, s', jobId, h) && jobId in s'.jobs
            && var run' := s'.jobs[jobId];
               && d0 < |run'.deploymentOrder| && run'.deploymentOrder[d0] in run'.tasks
               && StatusAt(run', d0) == TaskStatus.Running
               && if h in s'.pending
                  then Stopping(run', s'.pending[h], d0) && |s'.pending[h].rest| < |s.pending[h].rest|
                  else run'.status == JobStatus.Failed
  {
    hide Safe, Shaped, Listed, PendingOk, Continue, StopMore, TouchesOnly, StopsInto, CancelsInto, OnlyStatuses, StatusAt,
      StopAnswered, StoppedAs, Step, Enabled;
    SafeParts(s, jobId);
    PendingIsMine(s, h);
    var run, p := s.jobs[jobId], s.pending[h];
    var run1 := StoppedAs(run, p.current, TaskStatus.Cancelled);
    var s1 := s.(jobs := s.jobs[jobId := run1]);
    StoppedIsStatus(run, p.current, TaskStatus.Cancelled);
    StatusesKeepSafe(s, s1, jobId, run1);
    OneJobTouched(s, jobId, run1, h);
    StoppedFacts(run, p);
    StatusesKeepListed(run, run1);
    AnsweredGoesOn(s, h, p, run1);
    StepKeepsSafe(s, StopReturns(h, true));
    ContinueEffect(s1, h, jobId, p.rest, p.purpose);
    StoppingShrinks(s.ws, run1.tasks, p.rest, p.purpose.failures);
    var s' := Step(s, StopReturns(h, true));
    TouchesTransitively(s, s1, s', jobId, h);
    var r := StopMore(s.ws, run1.tasks, p.rest, p.purpose.failures);
    StopLeaves(run, run1, p, d0, r, s'.jobs[jobId]);
    if r.Suspended? {
      StopsAgain(run, run1, p, d0, r, s'.jobs[jobId], s'.pending[h]);
    }
  }

  lemma StopIsLate(s: State, jobId: string, h: nat, d0: nat)
    requires Safe(s) && jobId in s.jobs && Late(s.jobs[jobId], Mine(s, jobId), h, d0) && h in Mine(s, jobId)
    ensures Enabled(s, StopReturns(h, true))
    ensures var s' := Step(s, StopReturns(h, true));
            && Safe(s') && jobId in s'.jobs && Late(s'.jobs[jobId], Mine(s', jobId), h, d0)
            && Left(Mine(s', jobId), h) < Left(Mine(s, jobId), h)
  {
    hide Safe, Shaped, TouchesOnly, Step, Enabled, StatusAt;
    SafeParts(s, jobId);
    StopEffect(s, jobId, h, d0);
    var s' := Step(s, StopReturns(h, true));
    TouchedHandlers(s, s', jobId, h);
    StoppingIsStop(s.jobs[jobId], s.pending[h], d0);
    if h in s'.pending {
      StoppingIsStop(s'.jobs[jobId], s'.pending[h], d0);
    }
    hide Stopping;
  }

  lemma StoppingIsStop(run: Run, p: Pending, d0: nat)
    requires d0 < |run.deploymentOrder| && Stopping(run, p, d0)
    ensures p.StopCall?
  {
  }

  lemma StoppedFacts(run: Run, p: Pending)
    requires p.StopCall? && p.current in run.tasks
    requires p.purpose.failed.Some? && p.purpose.failed.value in run.tasks
    requires TerminalTask(run.tasks[p.purpose.failed.value].status) && forall x :: x in p.rest ==> x in run.tasks
    ensures var run1 := StoppedAs(run, p.current, TaskStatus.Cancelled);
            && run1.tasks.Keys == run.tasks.Keys && run1.status == run.status && run1.deploymentOrder == run.deploymentOrder
            && TerminalTask(run1.tasks[p.purpose.failed.value].status)
  {
  }

  /** A good answer to the stop call of a task that is still being stopped. */
  lemma AnsweredGoesOn(s: State, h: nat, p: Pending, run1: Run)
    requires Shaped(s) && PendingOk(s, p) && p.StopCall? && h in s.pending && s.pending[h] == p && p.jobId in s.jobs
    requires p.current in s.jobs[p.jobId].tasks && s.jobs[p.jobId].tasks[p.current].status == TaskStatus.Cancelling
    requires run1 == StoppedAs(s.jobs[p.jobId], p.current, TaskStatus.Cancelled) && Listed(run1)
    requires forall x :: x in p.rest ==> x in run1.tasks
    ensures Enabled(s, StopReturns(h, true))
    ensures Step(s, StopReturns(h, true))
         == Continue(s.(jobs := s.jobs[p.jobId := run1]), h, p.jobId, p.rest, p.purpose)
  {
    hide Shaped, PendingOk, Listed, Continue;
  }

  lemma StopLeaves(run: Run, run1: Run, p: Pending, d0: nat, r: StopProgress, run': Run)
    requires d0 < |run.deploymentOrder| && run.deploymentOrder[d0] in run.tasks && StatusAt(run, d0) == TaskStatus.Running
    requires Stopping(run, p, d0) && run1 == StoppedAs(run, p.current, TaskStatus.Cancelled)
    requires StopsInto(run1.tasks, p.rest, r)
    requires if r.Suspended? then run' == run1.(tasks := r.tasks)
             else CancelsInto(run1.(tasks := r.tasks), run') && run'.status == JobStatus.Failed
    ensures run'.deploymentOrder == run.deploymentOrder && run.deploymentOrder[d0] in run'.tasks
    ensures StatusAt(run', d0) == TaskStatus.Running
  {
  }

  lemma StopsAgain(run: Run, run1: Run, p: Pending, d0: nat, r: StopProgress, run': Run, p': Pending)
    requires d0 < |run.deploymentOrder|
    requires Stopping(run, p, d0) && run1 == StoppedAs(run, p.current, TaskStatus.Cancelled)
    requires StopsInto(run1.tasks, p.rest, r) && r.Suspended? && run' == run1.(tasks := r.tasks)
    requires p'.StopCall? && p'.current == r.current && p'.rest == r.rest && p'.purpose.failed == p.purpose.failed
    ensures Stopping(run', p', d0)
  {
  }

  // ----- continuations -----

  lemma AddEvent(events: seq<Event>, e: Event, more: seq<Event>)
    ensures events + ([e] + more) == (events + [e]) + more
  {
  }

  lemma {:induction false} AllGetDeployed(events: seq<Event>, jobId: string, q: nat, h: nat, d0: nat)
    returns (more: seq<Event>)
    requires After(events).Some? && Drifts(After(events).value, jobId, q, h, d0)
    ensures NothingNew(more, jobId) && After(events + more).Some?
    ensures var s := After(events + more).value;
            Drifts(s, jobId, q, h, d0) && |s.jobs[jobId].deployed| == |s.jobs[jobId].deploymentOrder|
    decreases var run := After(events).value.jobs[jobId]; |run.deploymentOrder| - |run.deployed|
  {
    hide After, Safe, Drifting, Step, Enabled;
    var s := After(events).value;
    var run := s.jobs[jobId];
    assert |run.deployed| <= |run.deploymentOrder| by { DriftingIsOrdered(run, Mine(s, jobId), jobId, q, h, d0); }
    if |run.deployed| < |run.deploymentOrder| {
      var e := DeployReturns(q, true);
      DeployDrifts(s, jobId, q, h, d0);
      Extend(events, s, e);
      var later := AllGetDeployed(events + [e], jobId, q, h, d0);
      more := [e] + later;
      AddEvent(events, e, later);
    } else {
      more := [];
      assert events + more == events;
    }
  }

  lemma DriftingIsOrdered(run: Run, mine: Handlers, jobId: string, q: nat, h: nat, d0: nat)
    requires Drifting(run, mine, jobId, q, h, d0)
    ensures Ordered(run)
  {
  }

  lemma {:induction false} AllGetStopped(events: seq<Event>, jobId: string, h: nat, d0: nat) returns (more: seq<Event>)
    requires After(events).Some? && jobId in After(events).value.jobs
    requires var s := After(events).value; Late(s.jobs[jobId], Mine(s, jobId), h, d0)
    ensures NothingNew(more, jobId) && After(events + more).Some? && jobId in After(events + more).value.jobs
    ensures var s := After(events + more).value; Late(s.jobs[jobId], Mine(s, jobId), h, d0) && h !in Mine(s, jobId)
    decreases Left(Mine(After(events).value, jobId), h)
  {
    hide After, Safe, Late, Step, Enabled, Left, Mine;
    var s := After(events).value;
    if h in Mine(s, jobId) {
      var e := StopReturns(h, true);
      StopIsLate(s, jobId, h, d0);
      Extend(events, s, e);
      var later := AllGetStopped(events + [e], jobId, h, d0);
      more := [e] + later;
      AddEvent(events, e, later);
    } else {
      more := [];
      assert events + more == events;
    }
  }

  lemma LateIsOrphaned(s: State, jobId: string, h: nat, d0: nat)
    requires Safe(s) && jobId in s.jobs && Late(s.jobs[jobId], Mine(s, jobId), h, d0) && h !in Mine(s, jobId)
    ensures Orphaned(s, jobId)
  {
    hide Ledger, Shaped, Stopping;
    var run := s.jobs[jobId];
    assert JobOk(jobId, run, s.held);
    var id := run.deploymentOrder[d0];
    assert run.tasks[id] == TaskInstance(TaskStatus.Running, None);
    assert Mine(s, jobId) == map[];
  }

  lemma LastEvent(events: seq<Event>, e: Event)
    ensures (events + [e])[..|events + [e]| - 1] == events && (events + [e])[|events + [e]| - 1] == e
  {
  }

  lemma Joined(a: seq<Event>, b: seq<Event>, jobId: string)
    requires NothingNew(a, jobId) && NothingNew(b, jobId)
    ensures NothingNew(a + b, jobId)
  {
  }

  /**
   From here the job can be left with an orphan, though nothing more is begun or reported of it: its handlers only
   go on with what they are doing.
   */
  ghost predicate CanBeOrphaned(events: seq<Event>, jobId: string) {
    exists more :: NothingNew(more, jobId) && After(events + more).Some? && Orphaned(After(events + more).value, jobId)
  }

  /** A failure at a risky moment: the calls just have to be answered well. */
  lemma RiskyFailureOrphans(events: seq<Event>, jobId: string, taskId: string, h: nat)
    requires After(events).Some? && Harmlessly(events, jobId)
    requires var s := After(events).value;
             && Enabled(s, FailureBegins(h, jobId, taskId)) && Risky(s.jobs[jobId], taskId)
    ensures After(events + [FailureBegins(h, jobId, taskId)]).Some?
    ensures CanBeOrphaned(events + [FailureBegins(h, jobId, taskId)], jobId)
  {
    hide After, Safe, Calm, Drifting, Late, Orphaned, Mine, Risky, NothingNew, Fail;
    var s, e := After(events).value, FailureBegins(h, jobId, taskId);
    var d0 := |s.jobs[jobId].deployed|;
    HarmlessRunsAreCalm(events, jobId);
    var q := FailureDrifts(s, jobId, taskId, h);
    Extend(events, s, e);
    var first := AllGetDeployed(events + [e], jobId, q, h, d0);
    var s1 := After(events + [e] + first).value;
    DriftingGetsLate(s1.jobs[jobId], Mine(s1, jobId), jobId, q, h, d0);
    var second := AllGetStopped(events + [e] + first, jobId, h, d0);
    LateIsOrphaned(After(events + [e] + first + second).value, jobId, h, d0);
    Joined(first, second, jobId);
    assert events + [e] + first + second == events + [e] + (first + second);
  }

  lemma {:induction false} GoingOnIsHarmless(events: seq<Event>, more: seq<Event>, jobId: string)
    requires After(events + more).Some? && NothingNew(more, jobId)
    ensures After(events).Some? && (Harmlessly(events, jobId) ==> Harmlessly(events + more, jobId))
  {
    hide Step, Enabled, Safe, Risky;
    if more == [] {
      assert events + more == events;
    } else {
      var init, last := more[..|more| - 1], more[|more| - 1];
      assert (events + more)[..|events + more| - 1] == events + init;
      assert (events + more)[|events + more| - 1] == last == more[|more| - 1];
      GoingOnIsHarmless(events, init, jobId);
      HarmlessByKind(After(events + init).value, last, jobId);
    }
  }

  lemma HarmlessByKind(s: State, e: Event, jobId: string)
    requires Safe(s) && Enabled(s, e)
    requires match e case FailureBegins(_, j, _) => j != jobId case TaskReported(j, _, _) => j != jobId case _ => true
    ensures Harmless(s, e, jobId)
  {
    hide Safe, Enabled, Risky;
    SafeParts(s, jobId);
  }

  lemma SettledIsNotOrphaned(events: seq<Event>, jobId: string)
    requires After(events).Some? && Harmlessly(events, jobId)
    ensures !Orphaned(After(events).value, jobId)
  {
    hide After, Mine;
    if Orphaned(After(events).value, jobId) {
      HarmlessRunsSettle(events, jobId);
      assert false;
    }
  }

  /**
   When a failure may begin. In a job whose run has been harmless so far, the failure of a task can leave another
   one running in the FAILED job exactly if the moment is risky, which the manager could check before it begins:
   another task of the job is just being deployed, none of those yet to be deployed is over or the failed one, and
   it is the last one or some other deployed task has to be stopped first.
   */
  lemma OrphansIffRisky(events: seq<Event>, jobId: string, taskId: string, h: nat)
    requires After(events).Some? && Harmlessly(events, jobId)
    requires Enabled(After(events).value, FailureBegins(h, jobId, taskId))
    ensures Risky(After(events).value.jobs[jobId], taskId)
       <==> CanBeOrphaned(events + [FailureBegins(h, jobId, taskId)], jobId)
  {
    hide After, Safe, Risky, Orphaned, NothingNew, Step, Harmlessly;
    var s, e := After(events).value, FailureBegins(h, jobId, taskId);
    if Risky(s.jobs[jobId], taskId) {
      RiskyFailureOrphans(events, jobId, taskId, h);
    } else {
      HarmlessFailure(events, jobId, taskId, h);
      forall more | NothingNew(more, jobId) && After(events + [e] + more).Some?
        ensures !Orphaned(After(events + [e] + more).value, jobId)
      {
        GoingOnIsHarmless(events + [e], more, jobId);
        SettledIsNotOrphaned(events + [e] + more, jobId);
      }
    }
  }

  lemma HarmlessFailure(events: seq<Event>, jobId: string, taskId: string, h: nat)
    requires After(events).Some? && Harmlessly(events, jobId)
    requires Enabled(After(events).value, FailureBegins(h, jobId, taskId))
    requires !Risky(After(events).value.jobs[jobId], taskId)
    ensures After(events + [FailureBegins(h, jobId, taskId)]).Some?
    ensures Harmlessly(events + [FailureBegins(h, jobId, taskId)], jobId)
  {
    hide Safe, Risky, Step;
    var e := FailureBegins(h, jobId, taskId);
    Extend(events, After(events).value, e);
    LastEvent(events, e);
  }

  // ----- every larger submission has such a moment -----

  /** A submission that has come to its d-th deploy call without any trouble. */
  ghost predicate Climbing(s: State, jobId: string, q: nat, order: seq<string>, d: nat) {
    && Safe(s) && jobId in s.jobs && Mine(s, jobId) == map[q := DeployCall(jobId, d)]
    && var run := s.jobs[jobId];
       Ordered(run) && ComingUp(run, Mine(s, jobId)) && run.deploymentOrder == order && |run.deployed| == d
  }

  lemma ClimbingGoesOn(s: State, jobId: string, q: nat, order: seq<string>, d: nat)
    requires Climbing(s, jobId, q, order, d) && d + 1 < |order|
    ensures GoesOn(s, jobId, q)
  {
    hide Safe, HasDeployer;
    assert q in Mine(s, jobId) && Mine(s, jobId)[q] == s.pending[q];
    assert StatusAt(s.jobs[jobId], d + 1) == Scheduled;
  }

  lemma ClimbsOn(s: State, jobId: string, q: nat, order: seq<string>, d: nat)
    requires Climbing(s, jobId, q, order, d) && d + 1 < |order| && Calm(s.jobs[jobId], Mine(s, jobId))
    ensures Enabled(s, DeployReturns(q, true)) && Climbing(Step(s, DeployReturns(q, true)), jobId, q, order, d + 1)
  {
    hide Safe, Shaped, Enabled, Step, GoesOn, Calm, Regions, StoppersOk, PreDeploy, Rising, ComingUp, Ordered, NextRunning,
      NextDeploying;
    ClimbingGoesOn(s, jobId, q, order, d);
    DeploySucceededIs(s, jobId, q);
    StepKeepsSafe(s, DeployReturns(q, true));
    var run, mine := s.jobs[jobId], Mine(s, jobId);
    assert mine[q] == DeployCall(jobId, d) && mine - {q} == map[];
    ComingUpIsDeploying(run, mine);
    DeployedIsPreDeploy(run, mine, q);
    DeployedIsRising(run, mine);
    RunningStatuses(run);
    OrderedTask(run, d);
    var run1 := NextRunning(run);
    RisingCanDeploy(run1);
    NextIsComingUp(run1, q, DeployCall(jobId, d + 1));
    NextStatuses(run1);
    var s' := Step(s, DeployReturns(q, true));
    assert Mine(s', jobId) == map[q := DeployCall(jobId, d + 1)];
  }

  lemma ComingUpIsDeploying(run: Run, mine: Handlers)
    requires Ordered(run) && ComingUp(run, mine)
    ensures |run.deployed| < |run.deploymentOrder| && StatusAt(run, |run.deployed|) == TaskStatus.Deploying
  {
  }

  lemma RisingCanDeploy(run: Run)
    requires PreDeploy(run, map[]) && Rising(run, map[]) && |run.deployed| < |run.deploymentOrder|
    ensures CanDeploy(run, map[])
  {
  }

  lemma SubmissionClimbs(s: State, e: Event)
    requires Safe(s) && e.SubmitBegins? && Enabled(s, e) && |e.order| > 0
    ensures Climbing(Step(s, e), e.jobId, e.h, e.order, 0)
  {
    hide Safe, Shaped, Placed, ProperJob, Ordered, Rising, PreDeploy, CanDeploy, NextDeploying, ComingUp, Reachable, Listed,
      Started, DeployNext;
    SafeParts(s, e.jobId);
    StepKeepsSafe(s, e);
    var s1 := Started(s, e.jobId, e.ids, e.order, e.ws', e.scheduled);
    StartedIsSafe(s, e.jobId, e.ids, e.order, e.on, e.ws', e.scheduled);
    StartedIsPreDeploy(e.ids, e.order, s.ws, e.ws', e.on, e.scheduled, e.jobId);
    StartedTouches(s, e.jobId, e.ids, e.order, e.ws', e.scheduled, e.h);
    StartedJob(s, e);
    var run := Run(JobStatus.Deploying, e.ids, e.order, e.scheduled, []);
    SafeParts(s1, e.jobId);
    StartsRising(run);
    StartClimbs(s1, e.h, e.jobId, run);
  }

  lemma StartClimbs(s: State, h: nat, jobId: string, run: Run)
    requires Safe(s) && jobId in s.jobs && s.jobs[jobId] == run && Listed(run) && Mine(s, jobId) - {h} == map[]
    requires h !in s.pending && Ordered(run) && Rising(run, map[]) && CanDeploy(run, map[]) && run.deployed == []
    requires run.deploymentOrder != [] && Safe(DeployNext(s, h, jobId, 0))
    ensures Climbing(DeployNext(s, h, jobId, 0), jobId, h, run.deploymentOrder, 0)
  {
    hide Safe, Ordered, Rising, CanDeploy, NextDeploying, ComingUp, Reachable, Listed, DeployNext;
    FirstIsPlaced(s, jobId, run);
    OrderedTask(run, 0);
    NextStatuses(run);
    NextIsComingUp(run, h, DeployCall(jobId, 0));
    FirstCall(s, h, jobId, run);
    assert Mine(DeployNext(s, h, jobId, 0), jobId) == map[h := DeployCall(jobId, 0)];
  }

  lemma StartedJob(s: State, e: Event)
    requires e.SubmitBegins?
    ensures var s1 := Started(s, e.jobId, e.ids, e.order, e.ws', e.scheduled);
            && e.jobId in s1.jobs && s1.jobs[e.jobId] == Run(JobStatus.Deploying, e.ids, e.order, e.scheduled, [])
            && s1.pending == s.pending
  {
  }

  lemma StartsRising(run: Run)
    requires PreDeploy(run, map[]) && run.status == JobStatus.Deploying && |run.deploymentOrder| > |run.deployed|
    ensures Ordered(run) && Rising(run, map[]) && CanDeploy(run, map[])
  {
  }

  lemma FirstIsPlaced(s: State, jobId: string, run: Run)
    requires Safe(s) && jobId in s.jobs && s.jobs[jobId] == run && Ordered(run) && Rising(run, map[]) && run.deployed == []
    requires run.deploymentOrder != []
    ensures Reachable(s.ws, run.tasks[run.deploymentOrder[0]])
  {
    hide Safe, Reachable;
    PlacedIsReachable(s, jobId, run.deploymentOrder[0]);
  }

  /** The first deploy call is made. */
  lemma FirstCall(s: State, h: nat, jobId: string, run: Run)
    requires jobId in s.jobs && s.jobs[jobId] == run && Listed(run) && CanDeploy(run, map[]) && run.deployed == []
    requires Reachable(s.ws, run.tasks[run.deploymentOrder[0]])
    ensures var s' := DeployNext(s, h, jobId, 0);
            s'.jobs == s.jobs[jobId := NextDeploying(run)] && s'.pending == s.pending[h := DeployCall(jobId, 0)]
  {
    hide Listed, Reachable, Rising, Sinking, Regions, StoppersOk;
  }

  lemma {:induction false} ClimbsToTheLast(events: seq<Event>, jobId: string, q: nat, order: seq<string>, d: nat)
    returns (more: seq<Event>)
    requires After(events).Some? && Harmlessly(events, jobId) && d < |order|
    requires Climbing(After(events).value, jobId, q, order, d)
    ensures NothingNew(more, jobId) && After(events + more).Some? && Harmlessly(events + more, jobId)
    ensures Climbing(After(events + more).value, jobId, q, order, |order| - 1)
    decreases |order| - d
  {
    hide After, Harmlessly, Climbing, Step, Enabled, Calm, Mine;
    var s := After(events).value;
    if d + 1 < |order| {
      var e := DeployReturns(q, true);
      assert jobId in s.jobs by { ClimbingHasJob(s, jobId, q, order, d); }
      HarmlessRunsAreCalm(events, jobId);
      ClimbsOn(s, jobId, q, order, d);
      Extend(events, s, e);
      assert NothingNew([e], jobId);
      GoingOnIsHarmless(events, [e], jobId);
      var later := ClimbsToTheLast(events + [e], jobId, q, order, d + 1);
      more := [e] + later;
      AddEvent(events, e, later);
    } else {
      more := [];
      assert events + more == events;
    }
  }

  lemma ClimbingHasJob(s: State, jobId: string, q: nat, order: seq<string>, d: nat)
    requires Climbing(s, jobId, q, order, d)
    ensures jobId in s.jobs
  {
  }

  /** At the last deploy call a failure of the first task is risky. */
  lemma LastCallIsRisky(s: State, jobId: string, q: nat, order: seq<string>)
    requires |order| >= 2 && Climbing(s, jobId, q, order, |order| - 1)
    ensures order[0] in s.jobs[jobId].tasks && Risky(s.jobs[jobId], order[0])
  {
    hide Safe, HasDeployer, Mine;
    var run, last := s.jobs[jobId], order[|order| - 1];
    assert run.tasks[last].status == TaskStatus.Deploying by {
      assert StatusAt(run, |run.deployed|) == run.tasks[last].status;
    }
    assert last != order[0];
  }

  lemma SomebodyIsFree(s: State)
    ensures exists h: nat :: h !in s.pending
  {
    if forall h: nat :: h in s.pending {
      TooMany(s.pending.Keys, |s.pending.Keys| + 1);
    }
  }

  lemma {:induction false} TooMany(keys: set<nat>, n: nat)
    requires forall k: nat :: k < n ==> k in keys
    ensures n <= |keys|
  {
    if n > 0 {
      TooMany(keys - {n - 1}, n - 1);
    }
  }

  /**
   Every submission of at least two tasks has such a moment, whatever happened before it: when all its deploy calls
   but the last have been answered well, the failure of its first task can leave an orphan.
   */
  lemma SubmissionsCanBeOrphaned(events: seq<Event>, e: Event) returns (more: seq<Event>, h: nat)
    requires After(events).Some? && e.SubmitBegins? && Enabled(After(events).value, e) && |e.order| >= 2
    ensures NothingNew(more, e.jobId) && After(events + [e] + more).Some?
    ensures After(events + [e] + more + [FailureBegins(h, e.jobId, e.order[0])]).Some?
    ensures CanBeOrphaned(events + [e] + more + [FailureBegins(h, e.jobId, e.order[0])], e.jobId)
  {
    hide After, Harmlessly, Climbing, Step, Risky, CanBeOrphaned, NothingNew, Safe;
    var s := After(events).value;
    NotYetIsHarmless(events, e.jobId);
    SubmissionClimbs(s, e);
    Extend(events, s, e);
    assert NothingNew([e], e.jobId) by { JustThis(e, e.jobId); }
    GoingOnIsHarmless(events, [e], e.jobId);
    more := ClimbsToTheLast(events + [e], e.jobId, e.h, e.order, 0);
    var s' := After(events + [e] + more).value;
    LastCallIsRisky(s', e.jobId, e.h, e.order);
    SomebodyIsFree(s');
    h :| h !in s'.pending;
    SafeParts(s', e.jobId);
    assert Enabled(s', FailureBegins(h, e.jobId, e.order[0])) by { ClimbingHasJob(s', e.jobId, e.h, e.order, |e.order| - 1); }
    RiskyFailureOrphans(events + [e] + more, e.jobId, e.order[0], h);
  }

  // ----- such a submission -----

  /** One Worker with two slots, which hold what is given. */
  function OneWorker(first: Option<string>, second: Option<string>): Workers {
    map["w" := Worker("c", "d", 1, [first, second], 0)]
  }

  /** Two tasks on those two slots. */
  function TwoTasks(a: string, b: string): Tasks {
    map[a := TaskInstance(Scheduled, Some(("w", 0))), b := TaskInstance(Scheduled, Some(("w", 1)))]
  }

  lemma TwoAreProper(jobId: string)
    ensures var a, b := TaskId(jobId, "a", 0), TaskId(jobId, "b", 0); a != b && ProperJob(jobId, [a, b], [a, b])
  {
    var a, b := TaskId(jobId, "a", 0), TaskId(jobId, "b", 0);
    hide TaskId;
    if a == b {
      TaskIdInjective(jobId, "a", 0, jobId, "b", 0);
    }
  }

  lemma TwoArePlaced(a: string, b: string)
    requires a != b
    ensures Placed(OneWorker(None, None), OneWorker(Some(a), Some(b)), NewTasks([a, b]), TwoTasks(a, b),
                   NewTasks([a, b]).Keys, ["w"])
  {
    assert NewTasks([a, b]).Keys == {a, b};
    assert HaveOwnSlots(OneWorker(None, None), OneWorker(Some(a), Some(b)), TwoTasks(a, b), {a, b}, ["w"]);
    TakeNoOthers(a, b);
  }

  lemma TakeNoOthers(a: string, b: string)
    requires a != b
    ensures var before, after := OneWorker(None, None), OneWorker(Some(a), Some(b));
            OnlySlotsDiffer(before, after) && OnlyTaken(before, after, TwoTasks(a, b), {a, b})
  {
    forall p: Place | IsPlace(OneWorker(None, None), p) ensures p == ("w", 0) || p == ("w", 1) {
    }
  }

  lemma OneRegisters()
    ensures RegisterIn(map[], "w", "c", "d", 1, 2, 0) == Ok(OneWorker(None, None))
  {
    assert seq<Option<string>>(2, _ => None) == [None, None];
  }

  /** There are such submissions: of any job of two tasks, once a Worker with two slots has registered. */
  lemma SubmissionIsPossible(jobId: string) returns (events: seq<Event>, e: Event)
    ensures After(events).Some? && e.SubmitBegins? && e.jobId == jobId && |e.order| == 2
    ensures Enabled(After(events).value, e)
  {
    hide After, Enabled, TaskId, ProperJob, Placed, OneWorker, TwoTasks;
    var a, b := TaskId(jobId, "a", 0), TaskId(jobId, "b", 0);
    TwoAreProper(jobId);
    TwoArePlaced(a, b);
    RegisteredAlone();
    events := [Register("w", "c", "d", 1, 2, 0)];
    e := SubmitBegins(0, jobId, [a, b], [a, b], ["w"], OneWorker(Some(a), Some(b)), TwoTasks(a, b));
    CanSubmit(State(OneWorker(None, None), map[], map[], map[]), e);
  }

  lemma RegisteredAlone()
    ensures After([Register("w", "c", "d", 1, 2, 0)]) == Some(State(OneWorker(None, None), map[], map[], map[]))
  {
    hide OneWorker, RegisterIn;
    OneRegisters();
    InitialIsSafe();
    assert After([]) == Some(INITIAL);
    hide After, Safe;
    Extend([], INITIAL, Register("w", "c", "d", 1, 2, 0));
    assert [] + [Register("w", "c", "d", 1, 2, 0)] == [Register("w", "c", "d", 1, 2, 0)];
  }

  lemma CanSubmit(s: State, e: Event)
    requires s.jobs == map[] && s.pending == map[] && e.SubmitBegins? && ProperJob(e.jobId, e.ids, e.order)
    requires Placed(s.ws, e.ws', NewTasks(e.ids), e.scheduled, NewTasks(e.ids).Keys, e.on)
    ensures Shaped(s) && Enabled(s, e)
  {
    hide ProperJob, Placed;
  }

  /** So there are orphans: for any job id some run of the manager leads to where one can be left. */
  lemma OrphansAreReal(jobId: string) returns (events: seq<Event>)
    ensures After(events).Some? && CanBeOrphaned(events, jobId)
  {
    hide After, Enabled, CanBeOrphaned;
    var before, e := SubmissionIsPossible(jobId);
    var more, h := SubmissionsCanBeOrphaned(before, e);
    events := before + [e] + more + [FailureBegins(h, jobId, e.order[0])];
  }

  lemma JobsStay(s: State, e: Event, jobId: string)
    requires Safe(s) && Enabled(s, e) && jobId in s.jobs
    ensures jobId in Step(s, e).jobs
  {
    hide Safe, Enabled, Step, Leaves, JobOf;
    SafeParts(s, jobId);
    match JobOf(s, e)
    case None => NoJobStays(s, e);
    case Some(j) =>
      if j != jobId {
        StepLeavesOthers(s, e, j);
        OthersStay(s, Step(s, e), j, jobId);
      } else {
        OwnJobStays(s, e, jobId);
      }
  }

  lemma NoJobStays(s: State, e: Event)
    requires Shaped(s) && Enabled(s, e) && JobOf(s, e) == None
    ensures Step(s, e).jobs == s.jobs
  {
    hide Shaped, RegisterIn;
  }

  lemma OthersStay(s: State, s': State, j: string, jobId: string)
    requires Leaves(s, s', j) && jobId != j && jobId in s.jobs
    ensures jobId in s'.jobs
  {
    hide Mine;
  }

  lemma OwnJobStays(s: State, e: Event, jobId: string)
    requires Safe(s) && Enabled(s, e) && jobId in s.jobs && JobOf(s, e) == Some(jobId)
    ensures jobId in Step(s, e).jobs
  {
    hide Safe, Fail, DeployNext, Continue, DeploySucceeded, StopAnswered, Listed, PendingOk, ProperJob, Placed, Reversed;
    SafeParts(s, jobId);
    match e {
      case DeployReturns(h, succeeds) =>
        PendingIsMine(s, h);
        DeploySucceededTouches(s, h);
        if !succeeds {
          DeployFailedTouches(s, h);
        }
      case CancelBegins(h, _) => CancelTouches(s, h, jobId);
      case FailureBegins(h, _, taskId) => FailTouches(s, h, jobId, taskId);
      case StopReturns(h, succeeds) => StopAnsweredTouches(s, h, succeeds);
      case _ =>
    }
  }

  /** A job that is not there yet has stood everything. */
  lemma {:induction false} NotYetIsHarmless(events: seq<Event>, jobId: string)
    requires After(events).Some? && jobId !in After(events).value.jobs
    ensures Harmlessly(events, jobId)
  {
    hide Step, Enabled, Safe, Risky;
    if events != [] {
      var before, e := events[..|events| - 1], events[|events| - 1];
      var s := After(before).value;
      if jobId in s.jobs {
        JobsStay(s, e, jobId);
        assert false;
      }
      NotYetIsHarmless(before, jobId);
      UnknownIsUnharmed(s, e, jobId);
    }
  }

  lemma UnknownIsUnharmed(s: State, e: Event, jobId: string)
    requires Safe(s) && Enabled(s, e) && jobId !in s.jobs
    ensures Harmless(s, e, jobId)
  {
    hide Safe, Shaped, Risky;
    SafeParts(s, jobId);
  }

  lemma JustThis(e: Event, jobId: string)
    requires e.SubmitBegins?
    ensures NothingNew([e], jobId)
  {
  }

  // ----- reports -----

  /**
   Why nobody else may move the job's tasks: a report of anything but a failure, where it is possible at all, leaves
   a job that was settled unsettled, and no handler of it is there to put that right.
   */
  lemma ReportsUnsettle(events: seq<Event>, jobId: string, taskId: string, status: TaskStatus)
    requires After(events).Some? && Enabled(After(events).value, TaskReported(jobId, taskId, status))
    requires Settled(After(events).value.jobs[jobId]) && After(events).value.jobs[jobId].status != Rejected
    ensures var s' := Step(After(events).value, TaskReported(jobId, taskId, status));
            jobId in s'.jobs && !Settled(s'.jobs[jobId])
  {
    hide After, Safe;
    var s := After(events).value;
    SafeParts(s, jobId);
    var run' := Step(s, TaskReported(jobId, taskId, status)).jobs[jobId];
    assert taskId in run'.tasks && run'.tasks[taskId].status == status;
  }
}
