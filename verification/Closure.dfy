/**
 What becomes of one job while handlers overlap (control/manager.py): as long as failures begin only at harmless
 moments, a job that no handler works on is running in full, or over with nothing of it alive. Other jobs'
 handlers interleave freely.
 */
module Closure {
  import opened Wrappers
  import opened Sequences
  import opened Models
  import opened Scheduler
  import opened Lifecycle
  import opened Manager
  import opened Interleaving

  /** The handlers that work on a job. */
  type Handlers = map<nat, Pending>

  function Mine(s: State, jobId: string): Handlers {
    map h | h in s.pending && s.pending[h].jobId == jobId :: s.pending[h]
  }

  // ----- how a job's tasks may stand -----

  function StatusAt(run: Run, i: nat): TaskStatus
    requires i < |run.deploymentOrder| && run.deploymentOrder[i] in run.tasks
  {
    run.tasks[run.deploymentOrder[i]].status
  }

  /** The tasks are those of the deployment order, and a prefix of it has been deployed. */
  ghost predicate Ordered(run: Run) {
    && NoDuplicates(run.deploymentOrder) && (forall id :: id in run.deploymentOrder <==> id in run.tasks)
    && (forall i :: 0 <= i < |run.deploymentOrder| ==> run.deploymentOrder[i] in run.tasks)
    && |run.deployed| <= |run.deploymentOrder| && run.deployed == run.deploymentOrder[..|run.deployed|]
  }

  /** Deployed tasks are running, being stopped or over; the next may be deploying; the rest wait or are over. */
  ghost predicate Regions(run: Run)
    requires Ordered(run)
  {
    && (forall i :: 0 <= i < |run.deployed| ==>
          StatusAt(run, i) == TaskStatus.Running || StatusAt(run, i) == TaskStatus.Cancelling || TerminalTask(StatusAt(run, i)))
    && (forall i :: |run.deployed| <= i < |run.deploymentOrder| ==>
          || StatusAt(run, i) == Scheduled || TerminalTask(StatusAt(run, i))
          || (i == |run.deployed| && StatusAt(run, i) == TaskStatus.Deploying))
  }

  ghost predicate HasDeployer(mine: Handlers) {
    exists h :: h in mine && mine[h].DeployCall?
  }

  /** The next task is deploying exactly while somebody waits for its deploy call, unless it was failed meanwhile. */
  ghost predicate DeployerOk(run: Run, mine: Handlers)
    requires Ordered(run)
  {
    && DeployersOk(run, mine)
    && (|run.deployed| < |run.deploymentOrder| && StatusAt(run, |run.deployed|) == TaskStatus.Deploying ==>
          HasDeployer(mine))
  }

  /** At most one handler waits for a deploy call, which is that of the next task. */
  ghost predicate DeployersOk(run: Run, mine: Handlers)
    requires Ordered(run)
  {
    var d := |run.deployed|;
    && (forall h, g :: h in mine && g in mine && mine[h].DeployCall? && mine[g].DeployCall? ==> h == g)
    && (forall h :: h in mine && mine[h].DeployCall? ==>
          && mine[h].k == d < |run.deploymentOrder|
          && (StatusAt(run, d) == TaskStatus.Deploying || TerminalTask(StatusAt(run, d))))
  }

  ghost predicate StopperOk(run: Run, p: Pending) {
    p.StopCall? ==>
      && p.current in run.deployed && p.current in run.tasks && (forall x :: x in p.rest ==> x in run.deployed)
      && (run.tasks[p.current].status == TaskStatus.Cancelling || TerminalTask(run.tasks[p.current].status))
      && (p.purpose.failed.Some? ==>
            p.purpose.failed.value in run.tasks && TerminalTask(run.tasks[p.purpose.failed.value].status))
  }

  /** A handler that waits for the stop call of a task which nobody has failed meanwhile. */
  ghost predicate Alive(run: Run, p: Pending) {
    p.StopCall? && p.current in run.tasks && run.tasks[p.current].status == TaskStatus.Cancelling
  }

  ghost predicate SameTask(run: Run, p: Pending, q: Pending) {
    Alive(run, p) && Alive(run, q) && p.current == q.current
  }

  /** Every task that is being stopped is so by one handler. */
  ghost predicate StoppersOk(run: Run, mine: Handlers) {
    && (forall h :: h in mine ==> StopperOk(run, mine[h]))
    && (forall h, g :: h in mine && g in mine && SameTask(run, mine[h], mine[g]) ==> h == g)
    && (forall id :: id in run.tasks && run.tasks[id].status == TaskStatus.Cancelling ==>
          exists h :: h in mine && Alive(run, mine[h]) && mine[h].current == id)
  }

  /** Some task from the next one on is over already, so that the submission is bound to fail when it gets there. */
  ghost predicate Doomed(run: Run)
    requires Ordered(run)
  {
    exists m :: |run.deployed| <= m < |run.deploymentOrder| && TerminalTask(StatusAt(run, m))
  }

  ghost predicate NoneHas(run: Run, status: TaskStatus) {
    forall id :: id in run.tasks ==> run.tasks[id].status != status
  }

  ghost predicate RunningWithin(run: Run, ids: seq<string>) {
    forall id :: id in run.tasks && run.tasks[id].status == TaskStatus.Running ==> id in ids
  }

  predicate Down(status: JobStatus) {
    status in {Failing, JobStatus.Cancelling, JobStatus.Failed, JobStatus.Cancelled}
  }

  predicate Over(status: JobStatus) {
    status == JobStatus.Failed || status == JobStatus.Cancelled
  }

  /** Somebody is going to see to the running tasks: a handler has them all before it, or submission will fail. */
  ghost predicate Covered(run: Run, mine: Handlers) {
    || NoneHas(run, TaskStatus.Running) || HasDeployer(mine)
    || exists h :: h in mine && Alive(run, mine[h]) && RunningWithin(run, mine[h].rest)
  }

  /** Somebody is going to end the job. */
  ghost predicate Ending(run: Run, mine: Handlers) {
    && (run.status == Failing ==>
          HasDeployer(mine) || exists h :: h in mine && Alive(run, mine[h]) && mine[h].purpose.failed.Some?)
    && (run.status == JobStatus.Cancelling ==>
          exists h :: h in mine && Alive(run, mine[h]) && mine[h].purpose.failed.None?)
  }

  ghost predicate GoingDown(run: Run, mine: Handlers)
    requires Ordered(run)
  {
    && Down(run.status) && (HasDeployer(mine) ==> Doomed(run))
    && Covered(run, mine) && Ending(run, mine) && (Over(run.status) ==> NoneHas(run, Scheduled))
  }

  ghost predicate ComingUp(run: Run, mine: Handlers)
    requires Ordered(run)
  {
    && run.status == JobStatus.Deploying && HasDeployer(mine) && (forall h :: h in mine ==> mine[h].DeployCall?)
    && (forall id :: id in run.tasks ==> run.tasks[id].place.Some?)
    && (forall i :: 0 <= i < |run.deployed| ==> StatusAt(run, i) == TaskStatus.Running)
    && (forall i :: |run.deployed| < i < |run.deploymentOrder| ==> StatusAt(run, i) == Scheduled)
    && |run.deployed| < |run.deploymentOrder| && StatusAt(run, |run.deployed|) == TaskStatus.Deploying
  }

  ghost predicate AllUp(run: Run, mine: Handlers) {
    && run.status == JobStatus.Running && mine == map[] && run.deployed == run.deploymentOrder
    && AllHave(run.tasks, TaskStatus.Running) && (forall id :: id in run.tasks ==> run.tasks[id].place.Some?)
  }

  ghost predicate TurnedAway(run: Run, mine: Handlers) {
    && run.status == Rejected && mine == map[] && run.deployed == []
    && forall id :: id in run.tasks ==> run.tasks[id].status == Created || run.tasks[id].status == TaskStatus.Failed
  }

  /** Everything that a job and its handlers keep. */
  ghost predicate Calm(run: Run, mine: Handlers) {
    || TurnedAway(run, mine)
    || (&& Ordered(run) && Regions(run) && DeployerOk(run, mine) && StoppersOk(run, mine)
        && (ComingUp(run, mine) || AllUp(run, mine) || GoingDown(run, mine)))
  }

  /** A job that nobody works on: in full operation, or over with nothing alive, or never begun. */
  ghost predicate Settled(run: Run) {
    || (run.status == JobStatus.Running && AllHave(run.tasks, TaskStatus.Running) && run.deployed == run.deploymentOrder)
    || (Over(run.status) && AllTerminal(run.tasks))
    || run.status == Rejected
  }

  lemma CalmAloneIsSettled(run: Run)
    requires Calm(run, map[])
    ensures Settled(run)
  {
    if GoingDownAlone(run) {
      forall id | id in run.tasks ensures TerminalTask(run.tasks[id].status) {
        var i :| 0 <= i < |run.deploymentOrder| && run.deploymentOrder[i] == id;
        assert StatusAt(run, i) == run.tasks[id].status;
      }
    }
  }

  ghost predicate GoingDownAlone(run: Run) {
    Ordered(run) && Regions(run) && DeployerOk(run, map[]) && StoppersOk(run, map[]) && GoingDown(run, map[])
  }

  // ----- stopping -----

  /** What stopping as far as it goes does to the tasks. */
  ghost predicate StopsInto(tasks: Tasks, rest: seq<string>, r: StopProgress) {
    && r.tasks.Keys == tasks.Keys
    && (forall x :: x in tasks && x !in rest ==> r.tasks[x] == tasks[x])
    && (forall x :: x in tasks ==>
          || r.tasks[x] == tasks[x]
          || (Stoppable(tasks[x]) && r.tasks[x].status == TaskStatus.Failed)
          || (Stoppable(tasks[x]) && r.Suspended? && x == r.current && r.tasks[x].status == TaskStatus.Cancelling))
    && (r.Suspended? ==>
          && r.current in rest && r.current in tasks && Stoppable(tasks[r.current])
          && r.tasks[r.current].status == TaskStatus.Cancelling
          && (forall x :: x in r.rest ==> x in rest)
          && (forall x :: x in rest && x in tasks && Stoppable(r.tasks[x]) ==> x in r.rest))
    && (r.AllStopped? ==> forall x :: x in rest && x in tasks ==> !Stoppable(r.tasks[x]))
  }

  lemma {:induction false} StopMoreIs(ws: Workers, tasks: Tasks, rest: seq<string>, failures: bool)
    requires forall x :: x in rest ==> x in tasks
    ensures StopsInto(tasks, rest, StopMore(ws, tasks, rest, failures))
    decreases |rest|
  {
    hide Reachable;
    if rest != [] {
      var id, more := rest[0], rest[1..];
      assert id in rest && forall x :: x in rest <==> x == id || x in more;
      if !Stoppable(tasks[id]) {
        StopMoreIs(ws, tasks, more, failures);
        SkippedFirst(tasks, rest, StopMore(ws, tasks, more, failures));
      } else if !Reachable(ws, Move(tasks[id], TaskStatus.Cancelling)) {
        var failed := tasks[id := Move(Move(tasks[id], TaskStatus.Cancelling), TaskStatus.Failed)];
        StopMoreIs(ws, failed, more, true);
        FailedFirst(tasks, failed, rest, StopMore(ws, failed, more, true));
      }
    }
  }

  lemma SkippedFirst(tasks: Tasks, rest: seq<string>, r: StopProgress)
    requires rest != [] && rest[0] in tasks && !Stoppable(tasks[rest[0]]) && StopsInto(tasks, rest[1..], r)
    ensures StopsInto(tasks, rest, r)
  {
    assert forall x :: x in rest <==> x == rest[0] || x in rest[1..];
  }

  lemma FailedFirst(tasks: Tasks, failed: Tasks, rest: seq<string>, r: StopProgress)
    requires rest != [] && rest[0] in tasks && Stoppable(tasks[rest[0]])
    requires failed == tasks[rest[0] := tasks[rest[0]].(status := TaskStatus.Failed)] && StopsInto(failed, rest[1..], r)
    ensures StopsInto(tasks, rest, r)
  {
    assert forall x :: x in rest <==> x == rest[0] || x in rest[1..];
  }

  /** Stopping cannot suspend, and once it is done the next but one task is cancelled if it was still scheduled. */
  ghost predicate EndsAtOnce(run: Run, rest: seq<string>) {
    |run.deployed| + 1 < |run.deploymentOrder| && forall x :: x in rest && x in run.tasks ==> !Stoppable(run.tasks[x])
  }

  /** A job in decline, apart from one handler that is about to go on stopping the tasks in `rest`. */
  ghost predicate PreCalm(run: Run, others: Handlers, rest: seq<string>, purpose: Purpose) {
    && Ordered(run) && Regions(run) && DeployerOk(run, others) && StoppersOk(run, others) && Down(run.status)
    && (forall x :: x in rest ==> x in run.deployed)
    && (purpose.failed.Some? ==>
          purpose.failed.value in run.tasks && TerminalTask(run.tasks[purpose.failed.value].status))
    && (HasDeployer(others) ==> Doomed(run) || EndsAtOnce(run, rest))
    && (RunningWithin(run, rest) || Covered(run, others))
    && PreEnding(run, others, purpose)
    && (Over(run.status) ==> NoneHas(run, Scheduled))
  }

  ghost predicate PreEnding(run: Run, others: Handlers, purpose: Purpose) {
    && (run.status == Failing && purpose.failed.None? ==> Ending(run, others))
    && (run.status == JobStatus.Cancelling && purpose.failed.Some? ==> Ending(run, others))
  }

  /** Nothing but running and deploying tasks has been touched, and those were deployed ones. */
  lemma StopsKeepRegions(run: Run, rest: seq<string>, r: StopProgress)
    requires Ordered(run) && Regions(run) && StopsInto(run.tasks, rest, r) && forall x :: x in rest ==> x in run.deployed
    ensures var run' := run.(tasks := r.tasks);
            && Ordered(run') && Regions(run')
            && (forall i :: |run.deployed| <= i < |run.deploymentOrder| ==> StatusAt(run', i) == StatusAt(run, i))
            && (Doomed(run) ==> Doomed(run'))
  {
    hide StopsInto;
    var run' := run.(tasks := r.tasks);
    StopsKeepTasks(run.tasks, rest, r);
    forall i | |run.deployed| <= i < |run.deploymentOrder| ensures StatusAt(run', i) == StatusAt(run, i) {
      NotDeployedYet(run, i);
      StopsTouch(run.tasks, rest, r, run.deploymentOrder[i]);
    }
    forall i | 0 <= i < |run.deployed|
      ensures StatusAt(run', i) == StatusAt(run, i) || StatusAt(run', i) == TaskStatus.Cancelling || TerminalTask(StatusAt(run', i))
    {
      StopsTouch(run.tasks, rest, r, run.deploymentOrder[i]);
    }
    if Doomed(run) {
      var m :| |run.deployed| <= m < |run.deploymentOrder| && TerminalTask(StatusAt(run, m));
      assert TerminalTask(StatusAt(run', m));
    }
  }

  lemma StopsKeepTasks(tasks: Tasks, rest: seq<string>, r: StopProgress)
    requires StopsInto(tasks, rest, r)
    ensures r.tasks.Keys == tasks.Keys
  {
  }

  lemma StopsTouch(tasks: Tasks, rest: seq<string>, r: StopProgress, x: string)
    requires StopsInto(tasks, rest, r) && x in tasks
    ensures x in r.tasks && (x !in rest ==> r.tasks[x] == tasks[x])
    ensures r.tasks[x] == tasks[x]
            || (Stoppable(tasks[x]) && (r.tasks[x].status == TaskStatus.Failed || r.tasks[x].status == TaskStatus.Cancelling))
  {
  }

  lemma NotDeployedYet(run: Run, i: nat)
    requires Ordered(run) && |run.deployed| <= i < |run.deploymentOrder|
    ensures run.deploymentOrder[i] !in run.deployed
  {
  }

  lemma StopsKeepDeployer(run: Run, others: Handlers, rest: seq<string>, r: StopProgress)
    requires Ordered(run) && Regions(run) && StopsInto(run.tasks, rest, r) && forall x :: x in rest ==> x in run.deployed
    requires DeployerOk(run, others)
    ensures var run' := run.(tasks := r.tasks); Ordered(run') && DeployerOk(run', others)
  {
    hide Regions, StopsInto;
    StopsKeepRegions(run, rest, r);
  }

  /** Other handlers' tasks are being stopped already, so nobody touches them. */
  lemma StopsKeepStoppers(run: Run, others: Handlers, rest: seq<string>, r: StopProgress, h: nat)
    requires StopsInto(run.tasks, rest, r) && StoppersOk(run, others)
    ensures var run' := run.(tasks := r.tasks);
            && (forall g :: g in others ==> StopperOk(run', others[g]) && (Alive(run, others[g]) <==> Alive(run', others[g])))
            && (r.AllStopped? ==> StoppersOk(run', others))
  {
    var run' := run.(tasks := r.tasks);
    forall g | g in others ensures StopperOk(run', others[g]) && (Alive(run, others[g]) <==> Alive(run', others[g])) {
      assert StopperOk(run, others[g]);
    }
  }

  /** The handler suspends at the next task: it is alive, and has all running tasks before it if it had them. */
  lemma SuspendingIsCalm(run: Run, others: Handlers, rest: seq<string>, purpose: Purpose, r: StopProgress,
                         h: nat, p: Pending)
    requires PreCalm(run, others, rest, purpose) && StopsInto(run.tasks, rest, r) && r.Suspended? && h !in others
    requires p.StopCall? && p.current == r.current && p.rest == r.rest && p.purpose.failed == purpose.failed
    ensures Calm(run.(tasks := r.tasks), others[h := p])
  {
    var run', mine := run.(tasks := r.tasks), others[h := p];
    StopsKeepRegions(run, rest, r);
    StopsKeepDeployer(run, others, rest, r);
    StopsKeepStoppers(run, others, rest, r, h);
    NewStopperIsOk(run, others, rest, purpose, r, h, p);
    DeployersStay(others, h, p);
    SuspendedIsCovered(run, others, rest, purpose, r, h, p);
    SuspendedIsEnding(run, others, rest, purpose, r, h, p);
    DeployerStaysOk(run', others, h, p);
    NoneBecomesScheduled(run.tasks, rest, r);
  }

  lemma NoneBecomesScheduled(tasks: Tasks, rest: seq<string>, r: StopProgress)
    requires StopsInto(tasks, rest, r)
    ensures forall x :: x in tasks && tasks[x].status != Scheduled ==> r.tasks[x].status != Scheduled
    ensures forall x :: x in tasks && r.tasks[x].status == TaskStatus.Running ==> tasks[x].status == TaskStatus.Running
  {
  }

  lemma DeployersStay(others: Handlers, h: nat, p: Pending)
    requires h !in others && p.StopCall?
    ensures HasDeployer(others[h := p]) <==> HasDeployer(others)
  {
    if HasDeployer(others) {
      var g :| g in others && others[g].DeployCall?;
      assert others[h := p][g].DeployCall?;
    }
  }

  lemma DeployerStaysOk(run: Run, others: Handlers, h: nat, p: Pending)
    requires Ordered(run) && DeployerOk(run, others) && h !in others && p.StopCall?
    ensures DeployerOk(run, others[h := p])
  {
    DeployersStay(others, h, p);
    hide HasDeployer;
  }

  lemma NewStopperIsOk(run: Run, others: Handlers, rest: seq<string>, purpose: Purpose, r: StopProgress, h: nat, p: Pending)
    requires PreCalm(run, others, rest, purpose) && StopsInto(run.tasks, rest, r) && r.Suspended? && h !in others
    requires p.StopCall? && p.current == r.current && p.rest == r.rest && p.purpose.failed == purpose.failed
    ensures StoppersOk(run.(tasks := r.tasks), others[h := p])
  {
    hide Ordered, Regions, DeployerOk, Covered, PreEnding, Doomed, EndsAtOnce, HasDeployer, RunningWithin, NoneHas;
    var run', mine := run.(tasks := r.tasks), others[h := p];
    StopsKeepStoppers(run, others, rest, r, h);
    assert StopperOk(run', p) && Alive(run', p);
    forall g | g in others && Alive(run', others[g]) ensures others[g].current != p.current {
      assert Alive(run, others[g]);
    }
    forall id | id in run'.tasks && run'.tasks[id].status == TaskStatus.Cancelling
      ensures exists g :: g in mine && Alive(run', mine[g]) && mine[g].current == id
    {
      if id == r.current {
        assert mine[h] == p;
      } else {
        assert run.tasks[id].status == TaskStatus.Cancelling;
        var g :| g in others && Alive(run, others[g]) && others[g].current == id;
        assert mine[g] == others[g];
      }
    }
  }

  lemma SuspendedIsCovered(run: Run, others: Handlers, rest: seq<string>, purpose: Purpose, r: StopProgress,
                           h: nat, p: Pending)
    requires PreCalm(run, others, rest, purpose) && StopsInto(run.tasks, rest, r) && r.Suspended? && h !in others
    requires p.StopCall? && p.current == r.current && p.rest == r.rest
    ensures Covered(run.(tasks := r.tasks), others[h := p])
    ensures HasDeployer(others) ==> Doomed(run)
  {
    hide Ordered, Regions, DeployerOk, PreEnding, Doomed;
    var run', mine := run.(tasks := r.tasks), others[h := p];
    StopsKeepStoppers(run, others, rest, r, h);
    NoneBecomesScheduled(run.tasks, rest, r);
    DeployersStay(others, h, p);
    assert mine[h] == p && Alive(run', p);
    if RunningWithin(run, rest) {
      assert RunningWithin(run', p.rest);
    } else if !NoneHas(run, TaskStatus.Running) && !HasDeployer(others) {
      var g :| g in others && Alive(run, others[g]) && RunningWithin(run, others[g].rest);
      assert mine[g] == others[g] && RunningWithin(run', mine[g].rest);
    }
  }

  lemma SuspendedIsEnding(run: Run, others: Handlers, rest: seq<string>, purpose: Purpose, r: StopProgress,
                          h: nat, p: Pending)
    requires PreEnding(run, others, purpose) && StopsInto(run.tasks, rest, r) && r.Suspended? && h !in others
    requires StoppersOk(run, others)
    requires p.StopCall? && p.current == r.current && p.purpose.failed == purpose.failed
    ensures Ending(run.(tasks := r.tasks), others[h := p])
  {
    var run', mine := run.(tasks := r.tasks), others[h := p];
    StopsKeepStoppers(run, others, rest, r, h);
    DeployersStay(others, h, p);
    hide StopsInto, StoppersOk, StopperOk, HasDeployer;
    assert mine[h] == p && forall g :: g in others ==> mine[g] == others[g];
    assert Alive(run', p) by { CurrentIsAlive(run, rest, r, p); }
  }

  lemma CurrentIsAlive(run: Run, rest: seq<string>, r: StopProgress, p: Pending)
    requires StopsInto(run.tasks, rest, r) && r.Suspended? && p.StopCall? && p.current == r.current
    ensures Alive(run.(tasks := r.tasks), p)
  {
  }

  // ----- finishing -----

  /** The same tasks but that scheduled ones are cancelled; places are of no account here. */
  ghost predicate CancelsInto(run: Run, run': Run) {
    && run'.deploymentOrder == run.deploymentOrder && run'.deployed == run.deployed && run'.tasks.Keys == run.tasks.Keys
    && forall x :: x in run.tasks ==>
         run'.tasks[x].status == if run.tasks[x].status == Scheduled then TaskStatus.Cancelled else run.tasks[x].status
  }

  lemma CancelKeepsShape(run: Run, run': Run, others: Handlers)
    requires Ordered(run) && Regions(run) && DeployerOk(run, others) && CancelsInto(run, run')
    ensures Ordered(run') && Regions(run') && DeployerOk(run', others)
    ensures Doomed(run) || |run.deployed| + 1 < |run.deploymentOrder| ==> Doomed(run')
  {
    hide HasDeployer;
    forall i | 0 <= i < |run.deploymentOrder|
      ensures StatusAt(run', i) == if StatusAt(run, i) == Scheduled then TaskStatus.Cancelled else StatusAt(run, i)
    {
    }
    if Doomed(run) {
      var m :| |run.deployed| <= m < |run.deploymentOrder| && TerminalTask(StatusAt(run, m));
      assert TerminalTask(StatusAt(run', m));
    } else if |run.deployed| + 1 < |run.deploymentOrder| {
      assert TerminalTask(StatusAt(run', |run.deployed| + 1));
    }
  }

  lemma CancelKeepsStoppers(run: Run, run': Run, others: Handlers)
    requires StoppersOk(run, others) && CancelsInto(run, run')
    ensures StoppersOk(run', others) && NoneHas(run', Scheduled)
    ensures forall g :: g in others ==> (Alive(run, others[g]) <==> Alive(run', others[g]))
    ensures forall ids :: RunningWithin(run, ids) <==> RunningWithin(run', ids)
    ensures NoneHas(run, TaskStatus.Running) ==> NoneHas(run', TaskStatus.Running)
  {
    forall g | g in others ensures StopperOk(run', others[g]) && (Alive(run, others[g]) <==> Alive(run', others[g])) {
      assert StopperOk(run, others[g]);
    }
    forall id | id in run'.tasks && run'.tasks[id].status == TaskStatus.Cancelling
      ensures exists h :: h in others && Alive(run', others[h]) && others[h].current == id
    {
      assert run.tasks[id].status == TaskStatus.Cancelling;
    }
  }

  /** The last task has been stopped: what was scheduled is cancelled, and the job ends. */
  lemma FinishingIsCalm(run: Run, others: Handlers, rest: seq<string>, purpose: Purpose, r: StopProgress, run': Run,
                        purpose': Purpose)
    requires PreCalm(run, others, rest, purpose) && StopsInto(run.tasks, rest, r) && r.AllStopped?
    requires CancelsInto(run.(tasks := r.tasks), run') && purpose'.failed == purpose.failed
    requires run'.status == FinalStatus(run.status, purpose')
    ensures Calm(run', others)
  {
    var mid := run.(tasks := r.tasks);
    StopsKeepRegions(run, rest, r);
    StopsKeepDeployer(run, others, rest, r);
    StopsKeepStoppers(run, others, rest, r, 0);
    NoneBecomesScheduled(run.tasks, rest, r);
    StoppedIsCovered(run, others, rest, r);
    CancelKeepsShape(mid, run', others);
    CancelKeepsStoppers(mid, run', others);
    StayCovered(mid, run', others);
    StayEnding(run, run', others, purpose, purpose');
    hide StopsInto, CancelsInto, Regions, DeployerOk, StoppersOk, Ordered, Doomed, RunningWithin, NoneHas, Alive, Covered,
      Ending, PreEnding, HasDeployer;
  }

  lemma StayCovered(run: Run, run': Run, others: Handlers)
    requires Covered(run, others)
    requires forall g :: g in others ==> (Alive(run, others[g]) <==> Alive(run', others[g]))
    requires forall ids :: RunningWithin(run, ids) <==> RunningWithin(run', ids)
    requires NoneHas(run, TaskStatus.Running) ==> NoneHas(run', TaskStatus.Running)
    ensures Covered(run', others)
  {
    hide RunningWithin, NoneHas, HasDeployer;
    if !NoneHas(run, TaskStatus.Running) && !HasDeployer(others) {
      var g :| g in others && Alive(run, others[g]) && RunningWithin(run, others[g].rest);
      assert Alive(run', others[g]) && RunningWithin(run', others[g].rest);
    }
  }

  lemma StayEnding(run: Run, run': Run, others: Handlers, purpose: Purpose, purpose': Purpose)
    requires PreEnding(run, others, purpose) && purpose'.failed == purpose.failed
    requires run'.status == FinalStatus(run.status, purpose')
    requires forall g :: g in others ==> (Alive(run, others[g]) <==> Alive(run', others[g]))
    ensures Ending(run', others)
  {
    hide Alive, HasDeployer;
  }

  lemma StoppedIsCovered(run: Run, others: Handlers, rest: seq<string>, r: StopProgress)
    requires StopsInto(run.tasks, rest, r) && r.AllStopped? && StoppersOk(run, others)
    requires RunningWithin(run, rest) || Covered(run, others)
    ensures Covered(run.(tasks := r.tasks), others)
    ensures forall g :: g in others ==> (Alive(run, others[g]) <==> Alive(run.(tasks := r.tasks), others[g]))
  {
    var mid := run.(tasks := r.tasks);
    StopsKeepStoppers(run, others, rest, r, 0);
    NoneBecomesScheduled(run.tasks, rest, r);
    if !RunningWithin(run, rest) && !NoneHas(run, TaskStatus.Running) && !HasDeployer(others) {
      var g :| g in others && Alive(run, others[g]) && RunningWithin(run, others[g].rest);
      assert Alive(mid, others[g]) && RunningWithin(mid, others[g].rest);
    }
  }

  // ----- steps of a handler -----

  /** Only this job and this handler of it differ. */
  ghost predicate TouchesOnly(s: State, s': State, jobId: string, h: nat) {
    && s'.jobs.Keys == s.jobs.Keys + {jobId} && (forall k :: k in s.jobs && k != jobId ==> s'.jobs[k] == s.jobs[k])
    && (forall g :: g != h ==> ((g in s.pending <==> g in s'.pending) && (g in s.pending ==> s'.pending[g] == s.pending[g])))
    && (h in s.pending ==> s.pending[h].jobId == jobId) && (h in s'.pending ==> s'.pending[h].jobId == jobId)
  }

  lemma TouchedHandlers(s: State, s': State, jobId: string, h: nat)
    requires TouchesOnly(s, s', jobId, h)
    ensures Mine(s', jobId) == if h in s'.pending then (Mine(s, jobId) - {h})[h := s'.pending[h]] else Mine(s, jobId) - {h}
    ensures forall k :: k != jobId ==> Mine(s', k) == Mine(s, k)
  {
  }

  lemma TouchesTransitively(a: State, b: State, c: State, jobId: string, h: nat)
    requires TouchesOnly(a, b, jobId, h) && TouchesOnly(b, c, jobId, h)
    ensures TouchesOnly(a, c, jobId, h)
  {
  }

  lemma FinishEffect(s: State, h: nat, jobId: string, purpose: Purpose)
    requires Safe(s) && jobId in s.jobs && (h in s.pending ==> s.pending[h].jobId == jobId)
    requires purpose.failed.Some? && purpose.failed.value in s.jobs[jobId].tasks ==>
               s.jobs[jobId].tasks[purpose.failed.value].status != Scheduled
    ensures Listed(s.jobs[jobId])
    ensures var s' := Finish(s, h, jobId, purpose);
            && TouchesOnly(s, s', jobId, h) && h !in s'.pending && jobId in s'.jobs
            && CancelsInto(s.jobs[jobId], s'.jobs[jobId])
            && s'.jobs[jobId].status == FinalStatus(s.jobs[jobId].status, purpose)
  {
    hide Ledger, JobsOk, ReleaseFirst, CancelScheduled, Cleared, Listed, TouchesOnly, CancelsInto, NonePlaced, Without;
    SafeParts(s, jobId);
    var run := s.jobs[jobId];
    FinishTouches(s, h, jobId, purpose);
    FinishReleases(s.ws, s.held, s.jobs, jobId, purpose.failed);
    ReleasedAre(run, purpose.failed, Finish(s, h, jobId, purpose).jobs[jobId]);
  }

  /** Of the statuses only the scheduled ones change. */
  lemma ReleasedAre(run: Run, exclude: Option<string>, run': Run)
    requires exclude.Some? && exclude.value in run.tasks ==> run.tasks[exclude.value].status != Scheduled
    requires run'.tasks == Cleared(CancelScheduled(run.tasks, exclude), run.ids)
    requires run'.deploymentOrder == run.deploymentOrder && run'.deployed == run.deployed
    requires run'.tasks.Keys == run.tasks.Keys
    ensures CancelsInto(run, run')
  {
  }

  lemma ContinueEffect(s: State, h: nat, jobId: string, rest: seq<string>, purpose: Purpose)
    requires Safe(s) && jobId in s.jobs && (h in s.pending ==> s.pending[h].jobId == jobId)
    requires forall x :: x in rest ==> x in s.jobs[jobId].tasks
    requires purpose.failed.Some? ==>
               && purpose.failed.value in s.jobs[jobId].tasks
               && TerminalTask(s.jobs[jobId].tasks[purpose.failed.value].status)
    ensures Listed(s.jobs[jobId])
    ensures var run, s' := s.jobs[jobId], Continue(s, h, jobId, rest, purpose);
            var r := StopMore(s.ws, run.tasks, rest, purpose.failures);
            && TouchesOnly(s, s', jobId, h) && jobId in s'.jobs && StopsInto(run.tasks, rest, r)
            && match r
               case Suspended(tasks, current, rest', failures) =>
                 && s'.jobs[jobId] == run.(tasks := tasks) && h in s'.pending
                 && s'.pending[h] == StopCall(jobId, current, rest', purpose.(failures := failures))
               case AllStopped(tasks, failures) =>
                 && h !in s'.pending && CancelsInto(run.(tasks := tasks), s'.jobs[jobId])
                 && s'.jobs[jobId].status == FinalStatus(run.status, purpose.(failures := failures))
  {
    hide Safe, Finish, StopMore, Shaped, CancelsInto, StopsInto, TouchesOnly;
    SafeParts(s, jobId);
    var run := s.jobs[jobId];
    var r := StopMore(s.ws, run.tasks, rest, purpose.failures);
    StopMoreIs(s.ws, run.tasks, rest, purpose.failures);
    var run1 := run.(tasks := r.tasks);
    var s1 := s.(jobs := s.jobs[jobId := run1]);
    OneJobTouched(s, jobId, run1, h);
    if r.Suspended? {
      OneHandlerTouched(s1, jobId, h, StopCall(jobId, r.current, r.rest, purpose.(failures := r.failures)));
      TouchesTransitively(s, s1, Continue(s, h, jobId, rest, purpose), jobId, h);
    } else {
      StatusesKeepSafe(s, s1, jobId, run1);
      FailedStaysOver(run.tasks, rest, r, purpose);
      FinishEffect(s1, h, jobId, purpose.(failures := r.failures));
      TouchesTransitively(s, s1, Continue(s, h, jobId, rest, purpose), jobId, h);
    }
  }

  lemma OneJobTouched(s: State, jobId: string, run: Run, h: nat)
    requires h in s.pending ==> s.pending[h].jobId == jobId
    ensures TouchesOnly(s, s.(jobs := s.jobs[jobId := run]), jobId, h)
  {
  }

  lemma OneHandlerTouched(s: State, jobId: string, h: nat, p: Pending)
    requires jobId in s.jobs && p.jobId == jobId && (h in s.pending ==> s.pending[h].jobId == jobId)
    ensures TouchesOnly(s, s.(pending := s.pending[h := p]), jobId, h)
  {
  }

  lemma HandlerGone(s: State, jobId: string, h: nat)
    requires jobId in s.jobs && (h in s.pending ==> s.pending[h].jobId == jobId)
    ensures TouchesOnly(s, s.(pending := s.pending - {h}), jobId, h)
  {
  }

  lemma FailedStaysOver(tasks: Tasks, rest: seq<string>, r: StopProgress, purpose: Purpose)
    requires StopsInto(tasks, rest, r)
    requires purpose.failed.Some? ==> purpose.failed.value in tasks && TerminalTask(tasks[purpose.failed.value].status)
    ensures purpose.failed.Some? ==>
              purpose.failed.value in r.tasks && r.tasks[purpose.failed.value].status != Scheduled
  {
  }

  /** From a job in decline, one handler's going on leaves it calm. */
  lemma ContinueIsCalm(s: State, h: nat, jobId: string, rest: seq<string>, purpose: Purpose)
    requires Safe(s) && jobId in s.jobs && (h in s.pending ==> s.pending[h].jobId == jobId)
    requires PreCalm(s.jobs[jobId], Mine(s, jobId) - {h}, rest, purpose)
    ensures (forall x :: x in rest ==> x in s.jobs[jobId].tasks) && Listed(s.jobs[jobId])
    ensures var s' := Continue(s, h, jobId, rest, purpose);
            TouchesOnly(s, s', jobId, h) && jobId in s'.jobs && Calm(s'.jobs[jobId], Mine(s', jobId))
  {
    var run, others := s.jobs[jobId], Mine(s, jobId) - {h};
    RestAreTasks(run, rest);
    hide Safe, PreCalm, Calm, Continue, StopMore, StopsInto, TouchesOnly, CancelsInto, Listed, Mine;
    assert purpose.failed.Some? ==>
             purpose.failed.value in run.tasks && TerminalTask(run.tasks[purpose.failed.value].status)
    by { FailedIsOver(run, others, rest, purpose); }
    ContinueEffect(s, h, jobId, rest, purpose);
    var s' := Continue(s, h, jobId, rest, purpose);
    var r := StopMore(s.ws, run.tasks, rest, purpose.failures);
    TouchedHandlers(s, s', jobId, h);
    if r.Suspended? {
      SuspendingIsCalm(run, others, rest, purpose, r, h, s'.pending[h]);
    } else {
      FinishingIsCalm(run, others, rest, purpose, r, s'.jobs[jobId], purpose.(failures := r.failures));
    }
  }

  lemma RestAreTasks(run: Run, rest: seq<string>)
    requires Ordered(run) && forall x :: x in rest ==> x in run.deployed
    ensures forall x :: x in rest ==> x in run.tasks
  {
  }

  lemma FailedIsOver(run: Run, others: Handlers, rest: seq<string>, purpose: Purpose)
    requires PreCalm(run, others, rest, purpose)
    ensures purpose.failed.Some? ==>
              purpose.failed.value in run.tasks && TerminalTask(run.tasks[purpose.failed.value].status)
  {
  }

  // ----- failing -----

  /**
   A submission that is still deploying will come to nothing by itself: a task it has yet to get to is over or is
   the failed one; or there is such a task, and nothing has to be stopped before it is cancelled.
   */
  ghost predicate Bound(run: Run, taskId: string) {
    || (exists m :: |run.deployed| <= m < |run.deploymentOrder| && run.deploymentOrder[m] in run.tasks
                    && (run.deploymentOrder[m] == taskId || TerminalTask(run.tasks[run.deploymentOrder[m]].status)))
    || (|run.deployed| + 1 < |run.deploymentOrder|
        && forall x :: x in run.deployed && x in run.tasks && x != taskId ==> !Stoppable(run.tasks[x]))
  }

  /** Failing this task is risky: another one is just being deployed, and nothing will stop the submission. */
  ghost predicate Risky(run: Run, taskId: string) {
    && (exists t :: t in run.tasks && t != taskId && run.tasks[t].status == TaskStatus.Deploying)
    && !Bound(run, taskId)
  }

  /** A job as failing one of its tasks finds it. */
  function AsFailed(run: Run, taskId: string): Run
    requires taskId in run.tasks
  {
    run.(status := if JobMay(run.status, Failing) then Failing else run.status, tasks := MarkFailed(run.tasks, taskId))
  }

  ghost predicate MayFail(run: Run, others: Handlers, taskId: string) {
    && Ordered(run) && Regions(run) && DeployersOk(run, others) && StoppersOk(run, others) && taskId in run.tasks
    && (OtherIsDeploying(run, taskId) ==> HasDeployer(others))
    && (run.status == JobStatus.Deploying || run.status == JobStatus.Running || Down(run.status))
    && (HasDeployer(others) ==> Bound(run, taskId))
    && (Over(run.status) ==> NoneHas(run, Scheduled))
  }

  /** The next task to be deployed is so already, and is another one. */
  ghost predicate OtherIsDeploying(run: Run, taskId: string)
    requires Ordered(run)
  {
    var d := |run.deployed|;
    d < |run.deploymentOrder| && StatusAt(run, d) == TaskStatus.Deploying && run.deploymentOrder[d] != taskId
  }

  lemma MarkedStatuses(run: Run, taskId: string)
    requires Ordered(run) && taskId in run.tasks
    ensures var run' := AsFailed(run, taskId);
            && Ordered(run') && run'.deploymentOrder == run.deploymentOrder && run'.deployed == run.deployed
            && forall i :: 0 <= i < |run.deploymentOrder| ==>
                 StatusAt(run', i) == if run.deploymentOrder[i] == taskId && !TerminalTask(StatusAt(run, i))
                                      then TaskStatus.Failed else StatusAt(run, i)
  {
  }

  lemma MarkKeepsShape(run: Run, others: Handlers, taskId: string)
    requires MayFail(run, others, taskId)
    ensures var run' := AsFailed(run, taskId); Ordered(run') && Regions(run') && DeployerOk(run', others)
  {
    MarkedStatuses(run, taskId);
    hide StoppersOk, NoneHas, HasDeployer, Bound, AsFailed, Ordered;
  }

  lemma MarkedRunWithin(run: Run, taskId: string)
    requires Ordered(run) && Regions(run) && taskId in run.tasks
    ensures RunningWithin(AsFailed(run, taskId), StopOrder(run.deployed, taskId))
  {
    MarkedStatuses(run, taskId);
    StopOrderIs(run.deployed, taskId);
    hide StopOrder;
    var run' := AsFailed(run, taskId);
    forall id | id in run'.tasks && run'.tasks[id].status == TaskStatus.Running
      ensures id in StopOrder(run.deployed, taskId)
    {
      var i :| 0 <= i < |run.deploymentOrder| && run.deploymentOrder[i] == id;
      assert StatusAt(run', i) == TaskStatus.Running && StatusAt(run, i) == TaskStatus.Running;
      assert run.deployed[i] == id;
    }
  }

  /** What binds a submission still does so once the task is marked. */
  lemma MarkedIsBound(run: Run, taskId: string)
    requires Ordered(run) && taskId in run.tasks && Bound(run, taskId)
    ensures var run' := AsFailed(run, taskId);
            Ordered(run') && (Doomed(run') || EndsAtOnce(run', StopOrder(run.deployed, taskId)))
  {
    MarkedStatuses(run, taskId);
    StopOrderIs(run.deployed, taskId);
    hide StopOrder;
    var run' := AsFailed(run, taskId);
    if m :| |run.deployed| <= m < |run.deploymentOrder| && run.deploymentOrder[m] in run.tasks
            && (run.deploymentOrder[m] == taskId || TerminalTask(run.tasks[run.deploymentOrder[m]].status))
    {
      assert TerminalTask(StatusAt(run', m));
    }
  }

  lemma MarkKeepsStoppers(run: Run, others: Handlers, taskId: string)
    requires StoppersOk(run, others) && taskId in run.tasks
    ensures StoppersOk(AsFailed(run, taskId), others)
  {
    var run' := AsFailed(run, taskId);
    forall g | g in others ensures StopperOk(run', others[g]) && (Alive(run', others[g]) ==> Alive(run, others[g])) {
      assert StopperOk(run, others[g]);
    }
    forall id | id in run'.tasks && run'.tasks[id].status == TaskStatus.Cancelling
      ensures exists h :: h in others && Alive(run', others[h]) && others[h].current == id
    {
      assert run.tasks[id].status == TaskStatus.Cancelling;
      var h :| h in others && Alive(run, others[h]) && others[h].current == id;
      assert Alive(run', others[h]);
    }
  }

  lemma MarkIsPreCalm(run: Run, others: Handlers, taskId: string)
    requires MayFail(run, others, taskId)
    ensures PreCalm(AsFailed(run, taskId), others, StopOrder(run.deployed, taskId), Purpose(Some(taskId), false))
  {
    hide Regions, DeployerOk, DeployersOk, StoppersOk, Ordered, Doomed, EndsAtOnce, Bound, RunningWithin, HasDeployer,
      StopOrder, OtherIsDeploying;
    MarkKeepsShape(run, others, taskId);
    MarkKeepsStoppers(run, others, taskId);
    MarkedRunWithin(run, taskId);
    if HasDeployer(others) {
      MarkedIsBound(run, taskId);
    }
    StopOrderIs(run.deployed, taskId);
  }

  /** Failing a task, at a moment that is not risky or by the submission itself, leaves the job calm. */
  lemma FailIsCalm(s: State, h: nat, jobId: string, taskId: string)
    requires Safe(s) && jobId in s.jobs && (h in s.pending ==> s.pending[h].jobId == jobId)
    requires MayFail(s.jobs[jobId], Mine(s, jobId) - {h}, taskId)
    ensures Listed(s.jobs[jobId]) && taskId in s.jobs[jobId].tasks
    ensures var s' := Fail(s, h, jobId, taskId);
            TouchesOnly(s, s', jobId, h) && jobId in s'.jobs && Calm(s'.jobs[jobId], Mine(s', jobId))
  {
    hide Safe, Continue, StopOrder, Shaped, PreCalm, Calm, TouchesOnly;
    SafeParts(s, jobId);
    var run := s.jobs[jobId];
    var run' := AsFailed(run, taskId);
    var s1 := s.(jobs := s.jobs[jobId := run']);
    StopOrderIs(run.deployed, taskId);
    MarkIsPreCalm(run, Mine(s, jobId) - {h}, taskId);
    hide MayFail;
    StatusesKeepSafe(s, s1, jobId, run');
    OneJobTouched(s, jobId, run', h);
    assert Mine(s1, jobId) == Mine(s, jobId);
    ContinueIsCalm(s1, h, jobId, StopOrder(run.deployed, taskId), Purpose(Some(taskId), false));
    TouchesTransitively(s, s1, Fail(s, h, jobId, taskId), jobId, h);
  }

  // ----- deploying -----

  /** A job whose submission is about to go on with the next task. */
  ghost predicate PreDeploy(run: Run, others: Handlers) {
    && Ordered(run) && Regions(run) && StoppersOk(run, others) && !HasDeployer(others)
    && (forall i :: |run.deployed| <= i < |run.deploymentOrder| ==>
          StatusAt(run, i) == Scheduled || TerminalTask(StatusAt(run, i)))
    && (Rising(run, others) || Sinking(run, others))
  }

  ghost predicate Rising(run: Run, others: Handlers)
    requires Ordered(run)
  {
    && run.status == JobStatus.Deploying && others == map[]
    && (forall id :: id in run.tasks ==> run.tasks[id].place.Some?)
    && (forall i :: 0 <= i < |run.deployed| ==> StatusAt(run, i) == TaskStatus.Running)
    && (forall i :: |run.deployed| <= i < |run.deploymentOrder| ==> StatusAt(run, i) == Scheduled)
  }

  ghost predicate Sinking(run: Run, others: Handlers)
    requires Ordered(run)
  {
    && Down(run.status) && Doomed(run) && (Over(run.status) ==> NoneHas(run, Scheduled))
    && (run.status == JobStatus.Cancelling ==> Ending(run, others))
  }

  function NextDeploying(run: Run): Run
    requires |run.deployed| < |run.deploymentOrder| && run.deploymentOrder[|run.deployed|] in run.tasks
  {
    var id := run.deploymentOrder[|run.deployed|];
    run.(tasks := run.tasks[id := run.tasks[id].(status := TaskStatus.Deploying)])
  }

  ghost predicate CanDeploy(run: Run, others: Handlers) {
    && PreDeploy(run, others) && |run.deployed| < |run.deploymentOrder|
    && StatusAt(run, |run.deployed|) == Scheduled
  }

  lemma NextStatuses(run: Run)
    requires Ordered(run) && |run.deployed| < |run.deploymentOrder|
    ensures var run' := NextDeploying(run);
            && Ordered(run') && run'.deploymentOrder == run.deploymentOrder && run'.deployed == run.deployed
            && forall i :: 0 <= i < |run.deploymentOrder| ==>
                 StatusAt(run', i) == if i == |run.deployed| then TaskStatus.Deploying else StatusAt(run, i)
  {
  }

  lemma NextKeepsStoppers(run: Run, others: Handlers)
    requires CanDeploy(run, others)
    ensures StoppersOk(NextDeploying(run), others)
    ensures forall g :: g in others ==> (Alive(run, others[g]) <==> Alive(NextDeploying(run), others[g]))
  {
    hide Regions, Rising, Sinking, HasDeployer;
    var run' := NextDeploying(run);
    forall g | g in others
      ensures StopperOk(run', others[g]) && (Alive(run, others[g]) <==> Alive(run', others[g]))
    {
      assert StopperOk(run, others[g]);
    }
    forall id | id in run'.tasks && run'.tasks[id].status == TaskStatus.Cancelling
      ensures exists g :: g in others && Alive(run', others[g]) && others[g].current == id
    {
      assert run.tasks[id].status == TaskStatus.Cancelling;
      var g :| g in others && Alive(run, others[g]) && others[g].current == id;
      assert Alive(run', others[g]);
    }
  }

  lemma StoppersStayOk(run: Run, others: Handlers, h: nat, p: Pending)
    requires StoppersOk(run, others) && p.DeployCall? && h !in others
    ensures StoppersOk(run, others[h := p])
  {
    var mine := others[h := p];
    forall g | g in mine ensures StopperOk(run, mine[g]) {
      if g != h {
        assert mine[g] == others[g] && StopperOk(run, others[g]);
      }
    }
    forall id | id in run.tasks && run.tasks[id].status == TaskStatus.Cancelling
      ensures exists g :: g in mine && Alive(run, mine[g]) && mine[g].current == id
    {
      var g :| g in others && Alive(run, others[g]) && others[g].current == id;
      assert mine[g] == others[g];
    }
  }

  lemma OnlyDeployer(others: Handlers, h: nat, p: Pending, mine: Handlers)
    requires !HasDeployer(others) && p.DeployCall? && mine == others[h := p]
    ensures HasDeployer(mine) && forall g :: g in mine && mine[g].DeployCall? ==> g == h
  {
    assert mine[h].DeployCall?;
  }

  /** The next deploy call is made. */
  lemma DeployingIsCalm(run: Run, others: Handlers, h: nat, p: Pending)
    requires CanDeploy(run, others) && h !in others && p.DeployCall? && p.k == |run.deployed|
    ensures Calm(NextDeploying(run), others[h := p])
  {
    var run', mine := NextDeploying(run), others[h := p];
    NextStatuses(run);
    NextKeepsStoppers(run, others);
    StoppersStayOk(run', others, h, p);
    hide StoppersOk, NextDeploying;
    OnlyDeployer(others, h, p, mine);
    assert Regions(run');
    if Rising(run, others) {
      NextIsComingUp(run, h, p);
    } else {
      NextIsGoingDown(run, others, h, p);
    }
  }

  lemma NextIsComingUp(run: Run, h: nat, p: Pending)
    requires CanDeploy(run, map[]) && Rising(run, map[]) && p.DeployCall?
    ensures Ordered(NextDeploying(run)) && ComingUp(NextDeploying(run), map[h := p])
  {
    NextStatuses(run);
    assert map[h := p][h].DeployCall?;
  }

  lemma NextIsGoingDown(run: Run, others: Handlers, h: nat, p: Pending)
    requires CanDeploy(run, others) && Sinking(run, others) && p.DeployCall? && h !in others
    ensures Ordered(NextDeploying(run)) && GoingDown(NextDeploying(run), others[h := p])
  {
    NextStatuses(run);
    OnlyDeployer(others, h, p, others[h := p]);
    NextIsEnding(run, others, h, p);
    NextIsDoomed(run);
    NextIsNotOver(run, others);
    hide StoppersOk, Alive, Regions, HasDeployer, Ordered, Doomed, Ending, NextDeploying, NoneHas;
    assert NextDeploying(run).status == run.status by { StatusStays(run); }
  }

  lemma StatusStays(run: Run)
    requires |run.deployed| < |run.deploymentOrder| && run.deploymentOrder[|run.deployed|] in run.tasks
    ensures NextDeploying(run).status == run.status
  {
  }

  lemma NextIsNotOver(run: Run, others: Handlers)
    requires CanDeploy(run, others) && (Over(run.status) ==> NoneHas(run, Scheduled))
    ensures !Over(run.status)
  {
  }

  lemma NextIsDoomed(run: Run)
    requires Ordered(run) && Doomed(run) && |run.deployed| < |run.deploymentOrder| && StatusAt(run, |run.deployed|) == Scheduled
    ensures Ordered(NextDeploying(run)) && Doomed(NextDeploying(run))
  {
    NextStatuses(run);
    hide Ordered, NextDeploying;
    var m :| |run.deployed| <= m < |run.deploymentOrder| && TerminalTask(StatusAt(run, m));
    assert TerminalTask(StatusAt(NextDeploying(run), m));
  }

  lemma NextIsEnding(run: Run, others: Handlers, h: nat, p: Pending)
    requires CanDeploy(run, others) && Sinking(run, others) && p.DeployCall? && h !in others
    ensures Ending(NextDeploying(run), others[h := p])
  {
    NextKeepsStoppers(run, others);
    StatusStays(run);
    hide PreDeploy, StoppersOk, Alive, Regions, Ordered, HasDeployer, NextDeploying, Doomed, Ending;
    DeployerEnds(run, NextDeploying(run), others, h, p);
  }

  lemma DeployerEnds(run: Run, run': Run, others: Handlers, h: nat, p: Pending)
    requires h !in others && p.DeployCall? && run'.status == run.status
    requires run.status == JobStatus.Cancelling ==> Ending(run, others)
    requires forall g :: g in others ==> (Alive(run, others[g]) <==> Alive(run', others[g]))
    ensures Ending(run', others[h := p])
  {
    var mine := others[h := p];
    assert mine[h].DeployCall?;
    hide Alive;
    if run.status == JobStatus.Cancelling {
      var g :| g in others && Alive(run, others[g]) && others[g].purpose.failed.None?;
      assert mine[g] == others[g] && Alive(run', mine[g]);
    }
  }

  /** A task that cannot be deployed, or not be reached, fails. */
  lemma NotDeployableMayFail(run: Run, others: Handlers)
    requires PreDeploy(run, others) && |run.deployed| < |run.deploymentOrder|
    ensures MayFail(run, others, run.deploymentOrder[|run.deployed|])
  {
  }

  lemma NotReachableMayFail(run: Run, others: Handlers)
    requires CanDeploy(run, others)
    ensures MayFail(NextDeploying(run), others, run.deploymentOrder[|run.deployed|])
  {
    NextStatuses(run);
    NextKeepsStoppers(run, others);
    hide StoppersOk;
  }

  lemma AllDeployedIsCalm(run: Run)
    requires PreDeploy(run, map[]) && |run.deployed| == |run.deploymentOrder|
    ensures JobMay(run.status, JobStatus.Running) && Calm(run.(status := JobStatus.Running), map[])
  {
    forall id | id in run.tasks ensures run.tasks[id].status == TaskStatus.Running {
      var i :| 0 <= i < |run.deploymentOrder| && run.deploymentOrder[i] == id;
      assert StatusAt(run, i) == TaskStatus.Running;
    }
  }

  /** Submission goes on with the next task. */
  lemma DeployNextIsCalm(s: State, h: nat, jobId: string)
    requires Safe(s) && jobId in s.jobs && (h in s.pending ==> s.pending[h].jobId == jobId)
    requires PreDeploy(s.jobs[jobId], Mine(s, jobId) - {h})
    ensures Listed(s.jobs[jobId]) && |s.jobs[jobId].deployed| <= |s.jobs[jobId].deploymentOrder|
    ensures var s' := DeployNext(s, h, jobId, |s.jobs[jobId].deployed|);
            TouchesOnly(s, s', jobId, h) && jobId in s'.jobs && Calm(s'.jobs[jobId], Mine(s', jobId))
  {
    hide Safe, Fail, Shaped, Calm, MayFail, TouchesOnly, Mine;
    SafeParts(s, jobId);
    var run, others := s.jobs[jobId], Mine(s, jobId) - {h};
    var k := |run.deployed|;
    var s' := DeployNext(s, h, jobId, k);
    if k == |run.deploymentOrder| {
      assert others == map[];
      AllDeployedIsCalm(run);
      OneJobTouched(s, jobId, run.(status := JobStatus.Running), h);
      HandlerGone(s.(jobs := s.jobs[jobId := run.(status := JobStatus.Running)]), jobId, h);
      TouchesTransitively(s, s.(jobs := s.jobs[jobId := run.(status := JobStatus.Running)]), s', jobId, h);
      TouchedHandlers(s, s', jobId, h);
    } else if StatusAt(run, k) != Scheduled {
      NotDeployableMayFail(run, others);
      FailIsCalm(s, h, jobId, run.deploymentOrder[k]);
    } else {
      DeployOnIsCalm(s, h, jobId);
    }
  }

  lemma DeployOnIsCalm(s: State, h: nat, jobId: string)
    requires Safe(s) && jobId in s.jobs && (h in s.pending ==> s.pending[h].jobId == jobId)
    requires CanDeploy(s.jobs[jobId], Mine(s, jobId) - {h})
    ensures Listed(s.jobs[jobId]) && |s.jobs[jobId].deployed| <= |s.jobs[jobId].deploymentOrder|
    ensures var s' := DeployNext(s, h, jobId, |s.jobs[jobId].deployed|);
            TouchesOnly(s, s', jobId, h) && jobId in s'.jobs && Calm(s'.jobs[jobId], Mine(s', jobId))
  {
    hide Safe, Fail, Shaped, Calm, MayFail, TouchesOnly, Mine, PreDeploy, Regions;
    SafeParts(s, jobId);
    var run, others := s.jobs[jobId], Mine(s, jobId) - {h};
    var k := |run.deployed|;
    assert Ordered(run) by { CanDeployIsOrdered(run, others); }
    var run' := NextDeploying(run);
    var s1 := s.(jobs := s.jobs[jobId := run']);
    var s' := DeployNext(s, h, jobId, k);
    OneJobTouched(s, jobId, run', h);
    if Reachable(s.ws, run.tasks[run.deploymentOrder[k]]) {
      OneHandlerTouched(s1, jobId, h, DeployCall(jobId, k));
      TouchesTransitively(s, s1, s', jobId, h);
      TouchedHandlers(s, s', jobId, h);
      DeployingIsCalm(run, others, h, DeployCall(jobId, k));
      assert Mine(s', jobId) == others[h := DeployCall(jobId, k)];
    } else {
      StatusesKeepSafe(s, s1, jobId, run');
      NotReachableMayFail(run, others);
      TouchedHandlers(s, s1, jobId, h);
      assert Mine(s1, jobId) - {h} == others;
      FailIsCalm(s1, h, jobId, run.deploymentOrder[k]);
      TouchesTransitively(s, s1, s', jobId, h);
    }
  }

  lemma CanDeployIsOrdered(run: Run, others: Handlers)
    requires CanDeploy(run, others)
    ensures Ordered(run)
  {
  }

  // ----- answers -----

  lemma WithoutDeployer(run: Run, mine: Handlers, h: nat)
    requires StoppersOk(run, mine) && h in mine && mine[h].DeployCall?
    requires forall g :: g in mine && mine[g].DeployCall? ==> g == h
    ensures StoppersOk(run, mine - {h}) && !HasDeployer(mine - {h})
  {
    var others := mine - {h};
    assert forall g :: g in others ==> others[g] == mine[g] && !others[g].DeployCall?;
    forall id | id in run.tasks && run.tasks[id].status == TaskStatus.Cancelling
      ensures exists g :: g in others && Alive(run, others[g]) && others[g].current == id
    {
      var g :| g in mine && Alive(run, mine[g]) && mine[g].current == id;
      assert others[g] == mine[g];
    }
  }

  lemma CancelEndsWithoutDeployer(run: Run, mine: Handlers, h: nat)
    requires h in mine && mine[h].DeployCall? && run.status == JobStatus.Cancelling && Ending(run, mine)
    ensures Ending(run, mine - {h})
  {
    var others := mine - {h};
    var g :| g in mine && Alive(run, mine[g]) && mine[g].purpose.failed.None?;
    assert others[g] == mine[g];
  }

  /** What is known of a job while one of its handlers waits for a deploy call. */
  lemma DeployerKnows(run: Run, mine: Handlers, h: nat)
    requires Calm(run, mine) && h in mine && mine[h].DeployCall?
    ensures Ordered(run) && Regions(run) && StoppersOk(run, mine) && DeployerOk(run, mine)
    ensures (ComingUp(run, mine) && mine - {h} == map[]) || GoingDown(run, mine)
    ensures mine[h].k == |run.deployed| < |run.deploymentOrder|
    ensures StatusAt(run, |run.deployed|) == TaskStatus.Deploying || TerminalTask(StatusAt(run, |run.deployed|))
    ensures forall g :: g in mine && mine[g].DeployCall? ==> g == h
    ensures run.status == JobStatus.Deploying || (Down(run.status) && (Over(run.status) ==> NoneHas(run, Scheduled)))
  {
    hide Regions, StoppersOk, Covered, Ending, Doomed, NoneHas;
    if ComingUp(run, mine) {
      assert forall g :: g in mine ==> g == h;
    }
  }

  /** The task whose deployment did not work out fails. */
  lemma NotDeployedMayFail(run: Run, mine: Handlers, h: nat)
    requires Calm(run, mine) && h in mine && mine[h].DeployCall?
    ensures mine[h].k == |run.deployed| < |run.deploymentOrder|
    ensures MayFail(run, mine - {h}, run.deploymentOrder[|run.deployed|])
  {
    hide StoppersOk, Regions, Calm, NoneHas, ComingUp, GoingDown, HasDeployer;
    DeployerKnows(run, mine, h);
    WithoutDeployer(run, mine, h);
  }

  function NextRunning(run: Run): Run
    requires |run.deployed| < |run.deploymentOrder| && run.deploymentOrder[|run.deployed|] in run.tasks
  {
    var id := run.deploymentOrder[|run.deployed|];
    run.(tasks := run.tasks[id := run.tasks[id].(status := TaskStatus.Running)], deployed := run.deployed + [id])
  }

  lemma RunningStatuses(run: Run)
    requires Ordered(run) && |run.deployed| < |run.deploymentOrder|
    ensures var run' := NextRunning(run);
            && Ordered(run') && run'.deploymentOrder == run.deploymentOrder && run'.status == run.status
            && |run'.deployed| == |run.deployed| + 1
            && (forall i :: 0 <= i < |run.deploymentOrder| ==>
                  StatusAt(run', i) == if i == |run.deployed| then TaskStatus.Running else StatusAt(run, i))
            && forall id :: id in run.tasks && run.tasks[id].place.Some? ==> run'.tasks[id].place.Some?
  {
  }

  lemma RunningKeepsStoppers(run: Run, others: Handlers)
    requires Ordered(run) && |run.deployed| < |run.deploymentOrder| && StatusAt(run, |run.deployed|) == TaskStatus.Deploying
    requires StoppersOk(run, others)
    ensures StoppersOk(NextRunning(run), others)
    ensures forall g :: g in others ==> (Alive(run, others[g]) <==> Alive(NextRunning(run), others[g]))
  {
    var run' := NextRunning(run);
    forall g | g in others
      ensures StopperOk(run', others[g]) && (Alive(run, others[g]) <==> Alive(run', others[g]))
    {
      assert StopperOk(run, others[g]);
    }
    forall id | id in run'.tasks && run'.tasks[id].status == TaskStatus.Cancelling
      ensures exists g :: g in others && Alive(run', others[g]) && others[g].current == id
    {
      assert run.tasks[id].status == TaskStatus.Cancelling;
      var g :| g in others && Alive(run, others[g]) && others[g].current == id;
      assert Alive(run', others[g]);
    }
  }

  /** The deployed task runs, and submission goes on. */
  lemma DeployedIsPreDeploy(run: Run, mine: Handlers, h: nat)
    requires Calm(run, mine) && h in mine && mine[h].DeployCall?
    requires Ordered(run) && |run.deployed| < |run.deploymentOrder| && StatusAt(run, |run.deployed|) == TaskStatus.Deploying
    ensures PreDeploy(NextRunning(run), mine - {h})
  {
    hide StoppersOk, Calm, NextRunning, HasDeployer, Ordered, DeployerOk, ComingUp, GoingDown, Rising, Sinking;
    DeployerKnows(run, mine, h);
    WithoutDeployer(run, mine, h);
    RunningStatuses(run);
    RunningKeepsStoppers(run, mine - {h});
    if ComingUp(run, mine) && mine - {h} == map[] {
      DeployedIsRising(run, mine);
    } else {
      DeployedIsSinking(run, mine, h);
    }
  }

  lemma DeployedIsRising(run: Run, mine: Handlers)
    requires Ordered(run) && ComingUp(run, mine)
    ensures Ordered(NextRunning(run)) && Rising(NextRunning(run), map[])
  {
    RunningStatuses(run);
    hide NextRunning, HasDeployer;
  }

  lemma DeployedIsSinking(run: Run, mine: Handlers, h: nat)
    requires Ordered(run) && StoppersOk(run, mine) && GoingDown(run, mine)
    requires h in mine && mine[h].DeployCall? && forall g :: g in mine && mine[g].DeployCall? ==> g == h
    requires |run.deployed| < |run.deploymentOrder| && StatusAt(run, |run.deployed|) == TaskStatus.Deploying
    ensures Ordered(NextRunning(run)) && Sinking(NextRunning(run), mine - {h})
  {
    hide StoppersOk, NextRunning, Ordered, Covered, Ending, Doomed, NoneHas;
    RunningStatuses(run);
    RunningAddsNone(run);
    assert HasDeployer(mine);
    DeployedIsDoomed(run);
    if run.status == JobStatus.Cancelling {
      DeployedIsEnding(run, mine, h);
    }
  }

  lemma DeployedIsDoomed(run: Run)
    requires Ordered(run) && Doomed(run)
    requires |run.deployed| < |run.deploymentOrder| && StatusAt(run, |run.deployed|) == TaskStatus.Deploying
    ensures Ordered(NextRunning(run)) && Doomed(NextRunning(run))
  {
    RunningStatuses(run);
    hide NextRunning, Ordered;
    var m :| |run.deployed| <= m < |run.deploymentOrder| && TerminalTask(StatusAt(run, m));
    assert TerminalTask(StatusAt(NextRunning(run), m));
  }

  lemma DeployedIsEnding(run: Run, mine: Handlers, h: nat)
    requires Ordered(run) && StoppersOk(run, mine) && Ending(run, mine) && run.status == JobStatus.Cancelling
    requires h in mine && mine[h].DeployCall? && forall g :: g in mine && mine[g].DeployCall? ==> g == h
    requires |run.deployed| < |run.deploymentOrder| && StatusAt(run, |run.deployed|) == TaskStatus.Deploying
    ensures Ending(NextRunning(run), mine - {h})
  {
    hide StoppersOk, Ordered, NextRunning, Alive;
    CancelEndsWithoutDeployer(run, mine, h);
    WithoutDeployer(run, mine, h);
    RunningKeepsStoppers(run, mine - {h});
    RunningStatuses(run);
    var others := mine - {h};
    var g :| g in others && Alive(run, others[g]) && others[g].purpose.failed.None?;
    OrderedTask(run, |run.deployed|);
    assert Alive(NextRunning(run), others[g]);
  }

  lemma RunningAddsNone(run: Run)
    requires Ordered(run) && |run.deployed| < |run.deploymentOrder|
    ensures NoneHas(run, Scheduled) ==> NoneHas(NextRunning(run), Scheduled)
  {
  }

  lemma DeploySucceededIsCalm(s: State, h: nat)
    requires Safe(s) && h in s.pending && s.pending[h].DeployCall? && s.pending[h].jobId in s.jobs
    requires Calm(s.jobs[s.pending[h].jobId], Mine(s, s.pending[h].jobId))
    ensures Shaped(s) && PendingOk(s, s.pending[h])
    ensures var jobId := s.pending[h].jobId;
            var s' := DeploySucceeded(s, h, jobId, s.pending[h].k);
            TouchesOnly(s, s', jobId, h) && jobId in s'.jobs && Calm(s'.jobs[jobId], Mine(s', jobId))
  {
    hide Safe, Fail, DeployNext, Shaped, Listed, PendingOk, Calm, MayFail, TouchesOnly, PreDeploy, Regions, StoppersOk,
      DeployerOk, ComingUp, GoingDown, Ordered, OnlyStatuses;
    var jobId := s.pending[h].jobId;
    var run, mine := s.jobs[jobId], Mine(s, jobId);
    PendingIsMine(s, h);
    DeployerKnows(run, mine, h);
    assert Ordered(run);
    var id := run.deploymentOrder[|run.deployed|];
    assert id in run.tasks by { OrderedTask(run, |run.deployed|); }
    if TaskMay(run.tasks[id].status, TaskStatus.Running) {
      DeployedIsPreDeploy(run, mine, h);
      var s1 := s.(jobs := s.jobs[jobId := NextRunning(run)]);
      RunningIsStatus(run, NextRunning(run), id);
      StatusesKeepSafe(s, s1, jobId, NextRunning(run));
      OneJobTouched(s, jobId, NextRunning(run), h);
      SameHandlers(s, s1, jobId);
      DeployNextIsCalm(s1, h, jobId);
      TouchesTransitively(s, s1, DeployNext(s1, h, jobId, |run.deployed| + 1), jobId, h);
    } else {
      NotDeployedMayFail(run, mine, h);
      FailIsCalm(s, h, jobId, id);
    }
  }

  lemma OrderedTask(run: Run, i: nat)
    requires Ordered(run) && i < |run.deploymentOrder|
    ensures run.deploymentOrder[i] in run.tasks
  {
  }

  lemma PendingIsMine(s: State, h: nat)
    requires Safe(s) && h in s.pending
    ensures var mine := Mine(s, s.pending[h].jobId); h in mine && mine[h] == s.pending[h]
    ensures Shaped(s) && PendingOk(s, s.pending[h]) && Listed(s.jobs[s.pending[h].jobId])
  {
  }

  lemma DeployFailedIsCalm(s: State, h: nat)
    requires Safe(s) && h in s.pending && s.pending[h].DeployCall? && s.pending[h].jobId in s.jobs
    requires Calm(s.jobs[s.pending[h].jobId], Mine(s, s.pending[h].jobId))
    ensures PendingOk(s, s.pending[h]) && Listed(s.jobs[s.pending[h].jobId])
    ensures var jobId := s.pending[h].jobId;
            var s' := Fail(s, h, jobId, s.jobs[jobId].deploymentOrder[s.pending[h].k]);
            TouchesOnly(s, s', jobId, h) && jobId in s'.jobs && Calm(s'.jobs[jobId], Mine(s', jobId))
  {
    hide Safe, Fail, Shaped, Listed, PendingOk, Calm, MayFail, TouchesOnly, Regions, StoppersOk, DeployerOk,
      ComingUp, GoingDown, Ordered, Mine;
    PendingIsMine(s, h);
    var jobId := s.pending[h].jobId;
    NotDeployedMayFail(s.jobs[jobId], Mine(s, jobId), h);
    FailIsCalm(s, h, jobId, s.jobs[jobId].deploymentOrder[s.pending[h].k]);
  }

  lemma SameHandlers(s: State, s': State, jobId: string)
    requires s'.pending == s.pending
    ensures Mine(s', jobId) == Mine(s, jobId)
  {
  }

  /** What is known of a job while one of its handlers waits for a stop call. */
  lemma StopperKnows(run: Run, mine: Handlers, h: nat)
    requires Calm(run, mine) && h in mine && mine[h].StopCall?
    ensures Ordered(run) && Regions(run) && StoppersOk(run, mine) && DeployerOk(run, mine) && GoingDown(run, mine)
    ensures StopperOk(run, mine[h])
  {
    hide Regions, GoingDown, DeployerOk;
  }

  lemma WithoutStopper(mine: Handlers, h: nat)
    requires h in mine && mine[h].StopCall?
    ensures HasDeployer(mine - {h}) <==> HasDeployer(mine)
  {
    if HasDeployer(mine) {
      var g :| g in mine && mine[g].DeployCall?;
      assert (mine - {h})[g].DeployCall?;
    }
  }

  /** The task that a handler was stopping has been moved meanwhile: the handler goes, and nobody misses it. */
  lemma DeadStopperIsCalm(run: Run, mine: Handlers, h: nat)
    requires Calm(run, mine) && h in mine && mine[h].StopCall? && !Alive(run, mine[h])
    ensures Calm(run, mine - {h})
  {
    hide StoppersOk, Alive, Regions, GoingDown, DeployerOk, ComingUp, AllUp, TurnedAway, Ordered;
    StopperKnows(run, mine, h);
    DeadIsNotMissed(run, mine, h);
  }

  lemma DeadIsNotMissed(run: Run, mine: Handlers, h: nat)
    requires Ordered(run) && DeployerOk(run, mine) && StoppersOk(run, mine) && GoingDown(run, mine)
    requires h in mine && mine[h].StopCall? && !Alive(run, mine[h])
    ensures DeployerOk(run, mine - {h}) && StoppersOk(run, mine - {h}) && GoingDown(run, mine - {h})
  {
    hide HasDeployer, Covered, Ending, NoneHas, Doomed, Ordered, StoppersOk;
    WithoutStopper(mine, h);
    DeadIsNoStopper(run, mine, h);
    DeadIsNoHelp(run, mine, h);
    assert forall g :: g in mine - {h} ==> (mine - {h})[g] == mine[g];
  }

  lemma DeadIsNoStopper(run: Run, mine: Handlers, h: nat)
    requires StoppersOk(run, mine) && h in mine && !Alive(run, mine[h])
    ensures StoppersOk(run, mine - {h})
  {
    var others := mine - {h};
    hide StopperOk;
    forall id | id in run.tasks && run.tasks[id].status == TaskStatus.Cancelling
      ensures exists g :: g in others && Alive(run, others[g]) && others[g].current == id
    {
      var g :| g in mine && Alive(run, mine[g]) && mine[g].current == id;
      assert others[g] == mine[g];
    }
  }

  lemma DeadIsNoHelp(run: Run, mine: Handlers, h: nat)
    requires Covered(run, mine) && Ending(run, mine) && h in mine && mine[h].StopCall? && !Alive(run, mine[h])
    ensures Covered(run, mine - {h}) && Ending(run, mine - {h})
  {
    WithoutStopper(mine, h);
    var others := mine - {h};
    assert forall g :: g in mine && Alive(run, mine[g]) ==> g in others && others[g] == mine[g];
    hide HasDeployer, RunningWithin, NoneHas, Alive;
  }

  function StoppedAs(run: Run, id: string, to: TaskStatus): Run
    requires id in run.tasks
  {
    run.(tasks := run.tasks[id := run.tasks[id].(status := to)])
  }

  lemma StoppedStatuses(run: Run, id: string, to: TaskStatus)
    requires Ordered(run) && Regions(run) && id in run.deployed && id in run.tasks && TerminalTask(to)
    ensures var run' := StoppedAs(run, id, to);
            && Ordered(run') && Regions(run') && run'.deploymentOrder == run.deploymentOrder && run'.deployed == run.deployed
            && forall i :: |run.deployed| <= i < |run.deploymentOrder| ==> StatusAt(run', i) == StatusAt(run, i)
  {
    var run' := StoppedAs(run, id, to);
    forall i | 0 <= i < |run.deploymentOrder|
      ensures StatusAt(run', i) == if run.deploymentOrder[i] == id then to else StatusAt(run, i)
    {
    }
    forall i | |run.deployed| <= i < |run.deploymentOrder| ensures run.deploymentOrder[i] != id {
      NotDeployedYet(run, i);
    }
  }

  lemma StoppedKeepsStoppers(run: Run, mine: Handlers, h: nat, to: TaskStatus)
    requires StoppersOk(run, mine) && h in mine && Alive(run, mine[h]) && TerminalTask(to)
    ensures var run', others := StoppedAs(run, mine[h].current, to), mine - {h};
            && StoppersOk(run', others)
            && (forall g :: g in others ==> (Alive(run, others[g]) <==> Alive(run', others[g])))
  {
    var run', others := StoppedAs(run, mine[h].current, to), mine - {h};
    forall g | g in others
      ensures StopperOk(run', others[g]) && (Alive(run, others[g]) <==> Alive(run', others[g]))
    {
      assert others[g] == mine[g] && StopperOk(run, mine[g]);
      assert SameTask(run, mine[g], mine[h]) ==> g == h;
    }
    forall g, g' | g in others && g' in others && SameTask(run', others[g], others[g']) ensures g == g' {
      assert SameTask(run, mine[g], mine[g']);
    }
    forall id | id in run'.tasks && run'.tasks[id].status == TaskStatus.Cancelling
      ensures exists g :: g in others && Alive(run', others[g]) && others[g].current == id
    {
      var g :| g in mine && Alive(run, mine[g]) && mine[g].current == id;
      assert g != h && Alive(run', others[g]);
    }
  }

  lemma StoppedIsCoveredStill(run: Run, mine: Handlers, h: nat, to: TaskStatus)
    requires StoppersOk(run, mine) && h in mine && Alive(run, mine[h]) && TerminalTask(to) && Covered(run, mine)
    ensures var run', others := StoppedAs(run, mine[h].current, to), mine - {h};
            RunningWithin(run', mine[h].rest) || Covered(run', others)
  {
    StoppedKeepsStoppers(run, mine, h, to);
    WithoutStopper(mine, h);
    var run', others := StoppedAs(run, mine[h].current, to), mine - {h};
    hide StoppersOk, HasDeployer;
    assert forall ids :: RunningWithin(run, ids) ==> RunningWithin(run', ids);
    if !NoneHas(run, TaskStatus.Running) && !HasDeployer(mine) {
      var g :| g in mine && Alive(run, mine[g]) && RunningWithin(run, mine[g].rest);
      if g != h {
        assert others[g] == mine[g] && Alive(run', others[g]);
      }
    }
  }

  lemma StoppedIsEndingStill(run: Run, mine: Handlers, h: nat, to: TaskStatus, purpose: Purpose)
    requires StoppersOk(run, mine) && h in mine && Alive(run, mine[h]) && TerminalTask(to) && Ending(run, mine)
    requires purpose.failed == mine[h].purpose.failed
    ensures PreEnding(StoppedAs(run, mine[h].current, to), mine - {h}, purpose)
  {
    StoppedKeepsStoppers(run, mine, h, to);
    WithoutStopper(mine, h);
    var run', others := StoppedAs(run, mine[h].current, to), mine - {h};
    hide StoppersOk, HasDeployer, Alive;
    assert run'.status == run.status;
    forall g | g in mine && Alive(run, mine[g]) && mine[g].purpose.failed.Some? != purpose.failed.Some?
      ensures g in others && others[g] == mine[g] && Alive(run', others[g])
    {
    }
  }

  /** The stop call has been answered, and the handler goes on. */
  lemma StoppedIsPreCalm(run: Run, mine: Handlers, h: nat, to: TaskStatus, purpose: Purpose)
    requires Calm(run, mine) && h in mine && Alive(run, mine[h]) && TerminalTask(to)
    requires purpose.failed == mine[h].purpose.failed
    ensures PreCalm(StoppedAs(run, mine[h].current, to), mine - {h}, mine[h].rest, purpose)
  {
    StopperKnows(run, mine, h);
    StoppedStatuses(run, mine[h].current, to);
    StoppedKeepsStoppers(run, mine, h, to);
    StoppedIsCoveredStill(run, mine, h, to);
    StoppedIsEndingStill(run, mine, h, to, purpose);
    StoppedKeepsDeployer(run, mine, h, to);
    hide Calm, Ordered, Regions, StoppersOk, Covered, Ending, PreEnding, HasDeployer, RunningWithin, DeployerOk, Doomed;
  }

  lemma StoppedKeepsDeployer(run: Run, mine: Handlers, h: nat, to: TaskStatus)
    requires Ordered(run) && Regions(run) && DeployerOk(run, mine) && TerminalTask(to)
    requires h in mine && StopperOk(run, mine[h]) && Alive(run, mine[h])
    ensures var run', others := StoppedAs(run, mine[h].current, to), mine - {h};
            && Ordered(run') && DeployerOk(run', others) && (HasDeployer(others) ==> HasDeployer(mine))
            && (Doomed(run) ==> Doomed(run'))
  {
    StoppedStatuses(run, mine[h].current, to);
    WithoutStopper(mine, h);
    var run', others := StoppedAs(run, mine[h].current, to), mine - {h};
    assert forall g :: g in others ==> others[g] == mine[g];
    hide Regions, HasDeployer, StoppedAs, Ordered;
    if Doomed(run) {
      var m :| |run.deployed| <= m < |run.deploymentOrder| && TerminalTask(StatusAt(run, m));
      assert TerminalTask(StatusAt(run', m));
    }
  }

  lemma StopAnsweredIsCalm(s: State, h: nat, succeeds: bool)
    requires Safe(s) && h in s.pending && s.pending[h].StopCall? && s.pending[h].jobId in s.jobs
    requires Calm(s.jobs[s.pending[h].jobId], Mine(s, s.pending[h].jobId))
    ensures Shaped(s) && PendingOk(s, s.pending[h])
    ensures var jobId, s' := s.pending[h].jobId, StopAnswered(s, h, s.pending[h], succeeds);
            TouchesOnly(s, s', jobId, h) && jobId in s'.jobs && Calm(s'.jobs[jobId], Mine(s', jobId))
  {
    hide Safe, Continue, Shaped, Listed, PendingOk, Calm, PreCalm, TouchesOnly, Mine, Regions, StoppersOk, DeployerOk,
      GoingDown, Ordered, OnlyStatuses;
    var p := s.pending[h];
    var jobId := p.jobId;
    var run, mine := s.jobs[jobId], Mine(s, jobId);
    PendingIsMine(s, h);
    StopperKnows(run, mine, h);
    assert PendingOk(s, p);
    var s' := StopAnswered(s, h, p, succeeds);
    if Alive(run, p) {
      var to := if succeeds then TaskStatus.Cancelled else TaskStatus.Failed;
      var purpose := if succeeds then p.purpose else p.purpose.(failures := true);
      var run' := StoppedAs(run, p.current, to);
      var s1 := s.(jobs := s.jobs[jobId := run']);
      StoppedIsPreCalm(run, mine, h, to, purpose);
      SameHandlers(s, s1, jobId);
      StoppedIsStatus(run, p.current, to);
      StatusesKeepSafe(s, s1, jobId, run');
      OneJobTouched(s, jobId, run', h);
      ContinueIsCalm(s1, h, jobId, p.rest, purpose);
      TouchesTransitively(s, s1, s', jobId, h);
    } else {
      DeadStopperIsCalm(run, mine, h);
      HandlerGone(s, jobId, h);
      TouchedHandlers(s, s', jobId, h);
    }
  }

  lemma StoppedIsStatus(run: Run, id: string, to: TaskStatus)
    requires Listed(run) && id in run.tasks
    ensures OnlyStatuses(run, StoppedAs(run, id, to))
  {
  }

  // ----- beginnings -----

  lemma RunningIsUp(run: Run, mine: Handlers)
    requires Calm(run, mine) && run.status == JobStatus.Running
    ensures Ordered(run) && Regions(run) && StoppersOk(run, mine) && DeployerOk(run, mine) && AllUp(run, mine)
  {
    hide Regions, StoppersOk, DeployerOk, Ordered;
  }

  /** A cancel has all the tasks before it. */
  lemma CancelIsPreCalm(run: Run)
    requires Calm(run, map[]) && run.status == JobStatus.Running
    ensures PreCalm(run.(status := JobStatus.Cancelling), map[], Reversed(run.deployed), Purpose(None, false))
  {
    hide Calm, Regions, Ordered, Covered;
    RunningIsUp(run, map[]);
    ReversedMembers(run.deployed);
    hide Reversed;
    CancelKeepsOrder(run);
    AllAreDeployed(run);
  }

  lemma CancelKeepsOrder(run: Run)
    requires Ordered(run) && Regions(run)
    ensures var run' := run.(status := JobStatus.Cancelling);
            Ordered(run') && Regions(run') && forall i :: 0 <= i < |run.deploymentOrder| ==> StatusAt(run', i) == StatusAt(run, i)
  {
    var run' := run.(status := JobStatus.Cancelling);
    assert forall i :: 0 <= i < |run.deploymentOrder| ==> StatusAt(run', i) == StatusAt(run, i);
  }

  lemma AllAreDeployed(run: Run)
    requires Ordered(run) && run.deployed == run.deploymentOrder
    ensures RunningWithin(run, run.deployed)
  {
  }

  lemma CancelIsCalm(s: State, h: nat, jobId: string)
    requires Safe(s) && jobId in s.jobs && h !in s.pending && Calm(s.jobs[jobId], Mine(s, jobId))
    ensures Shaped(s) && Enabled(s, CancelBegins(h, jobId))
    ensures var s' := Step(s, CancelBegins(h, jobId));
            TouchesOnly(s, s', jobId, h) && jobId in s'.jobs && Calm(s'.jobs[jobId], Mine(s', jobId))
  {
    hide Safe, Continue, Shaped, Listed, PendingOk, Calm, PreCalm, TouchesOnly, Regions, StoppersOk, DeployerOk,
      Ordered, OnlyStatuses, Reversed;
    SafeParts(s, jobId);
    var run := s.jobs[jobId];
    if run.status == JobStatus.Running {
      RunningIsUp(run, Mine(s, jobId));
      ReversedMembers(run.deployed);
      var run' := run.(status := JobStatus.Cancelling);
      var s1 := s.(jobs := s.jobs[jobId := run']);
      CancelIsPreCalm(run);
      SameHandlers(s, s1, jobId);
      CancellingIsStatus(run);
      StatusesKeepSafe(s, s1, jobId, run');
      OneJobTouched(s, jobId, run', h);
      assert Mine(s1, jobId) - {h} == map[];
      ContinueIsCalm(s1, h, jobId, Reversed(run.deployed), Purpose(None, false));
      TouchesTransitively(s, s1, Step(s, CancelBegins(h, jobId)), jobId, h);
    } else {
      NothingTouched(s, jobId, h);
    }
  }

  lemma CancellingIsStatus(run: Run)
    requires Listed(run)
    ensures OnlyStatuses(run, run.(status := JobStatus.Cancelling))
  {
  }

  lemma NothingTouched(s: State, jobId: string, h: nat)
    requires jobId in s.jobs && (h in s.pending ==> s.pending[h].jobId == jobId)
    ensures TouchesOnly(s, s, jobId, h)
  {
  }

  /** At a moment that is not risky any task may fail. */
  lemma HarmlessMayFail(run: Run, mine: Handlers, taskId: string)
    requires Calm(run, mine) && !TurnedAway(run, mine) && taskId in run.tasks && !Risky(run, taskId)
    ensures MayFail(run, mine, taskId)
  {
    hide StoppersOk, Regions, HasDeployer, Covered, Ending, Doomed;
    if OtherIsDeploying(run, taskId) {
      assert StatusAt(run, |run.deployed|) == TaskStatus.Deploying;
    }
    if HasDeployer(mine) {
      HarmlessIsBound(run, mine, taskId);
    }
  }

  lemma HarmlessIsBound(run: Run, mine: Handlers, taskId: string)
    requires Ordered(run) && DeployerOk(run, mine) && HasDeployer(mine) && taskId in run.tasks && !Risky(run, taskId)
    ensures Bound(run, taskId)
  {
    var d := |run.deployed|;
    assert d < |run.deploymentOrder|;
    var id := run.deploymentOrder[d];
    assert StatusAt(run, d) == run.tasks[id].status;
    if id != taskId && !TerminalTask(run.tasks[id].status) {
      assert run.tasks[id].status == TaskStatus.Deploying;
    }
  }

  /** A task of a rejected job may fail, too; the job stays as it is. */
  lemma RejectedFailIsCalm(s: State, h: nat, jobId: string, taskId: string)
    requires Safe(s) && jobId in s.jobs && h !in s.pending && taskId in s.jobs[jobId].tasks
    requires TurnedAway(s.jobs[jobId], Mine(s, jobId))
    ensures Listed(s.jobs[jobId])
    ensures var s' := Fail(s, h, jobId, taskId);
            TouchesOnly(s, s', jobId, h) && jobId in s'.jobs && TurnedAway(s'.jobs[jobId], Mine(s', jobId))
  {
    hide Safe, Shaped, Listed, TouchesOnly, OnlyStatuses, Continue, StopOrder;
    SafeParts(s, jobId);
    var run := s.jobs[jobId];
    var run' := AsFailed(run, taskId);
    var s1 := s.(jobs := s.jobs[jobId := run']);
    StopOrderIs(run.deployed, taskId);
    NothingToStop(taskId);
    MarkedIsStatus(run, taskId);
    StatusesKeepSafe(s, s1, jobId, run');
    OneJobTouched(s, jobId, run', h);
    SameHandlers(s, s1, jobId);
    MarkedIsOver(run, taskId);
    ContinueEffect(s1, h, jobId, [], Purpose(Some(taskId), false));
    assert StopMore(s1.ws, run'.tasks, [], false) == AllStopped(run'.tasks, false);
    var s' := Continue(s1, h, jobId, [], Purpose(Some(taskId), false));
    TouchesTransitively(s, s1, s', jobId, h);
    TouchedHandlers(s, s', jobId, h);
  }

  lemma NothingToStop(taskId: string)
    ensures StopOrder([], taskId) == []
  {
  }

  lemma MarkedIsStatus(run: Run, taskId: string)
    requires Listed(run) && taskId in run.tasks
    ensures OnlyStatuses(run, AsFailed(run, taskId))
  {
  }

  lemma MarkedIsOver(run: Run, taskId: string)
    requires taskId in run.tasks
    ensures var tasks := AsFailed(run, taskId).tasks; taskId in tasks && TerminalTask(tasks[taskId].status)
  {
  }

  lemma FailureIsCalm(s: State, h: nat, jobId: string, taskId: string)
    requires Safe(s) && jobId in s.jobs && h !in s.pending && taskId in s.jobs[jobId].tasks
    requires Calm(s.jobs[jobId], Mine(s, jobId)) && !Risky(s.jobs[jobId], taskId)
    ensures Listed(s.jobs[jobId])
    ensures var s' := Fail(s, h, jobId, taskId);
            TouchesOnly(s, s', jobId, h) && jobId in s'.jobs && Calm(s'.jobs[jobId], Mine(s', jobId))
  {
    hide Safe, Fail, Shaped, Listed, MayFail, TouchesOnly, Risky, TurnedAway, Ordered, Regions, StoppersOk, DeployerOk,
      ComingUp, AllUp, GoingDown;
    assert Mine(s, jobId) - {h} == Mine(s, jobId);
    if TurnedAway(s.jobs[jobId], Mine(s, jobId)) {
      RejectedFailIsCalm(s, h, jobId, taskId);
    } else {
      HarmlessMayFail(s.jobs[jobId], Mine(s, jobId), taskId);
      FailIsCalm(s, h, jobId, taskId);
    }
  }

  lemma NobodyYet(s: State, jobId: string)
    requires Safe(s) && jobId !in s.jobs
    ensures Mine(s, jobId) == map[]
  {
    forall h | h in s.pending ensures s.pending[h].jobId != jobId {
      assert PendingOk(s, s.pending[h]);
    }
  }

  lemma StartedIsPreDeploy(ids: seq<string>, order: seq<string>, ws: Workers, ws': Workers, on: seq<string>,
                           scheduled: Tasks, jobId: string)
    requires ProperJob(jobId, ids, order) && Placed(ws, ws', NewTasks(ids), scheduled, NewTasks(ids).Keys, on)
    ensures PreDeploy(Run(JobStatus.Deploying, ids, order, scheduled, []), map[])
  {
    hide BelongsTo, IsPlace, At, OnlyTaken, OnlySlotsDiffer, Doomed, Ending;
    var run := Run(JobStatus.Deploying, ids, order, scheduled, []);
    assert forall id :: id in order ==> id in scheduled;
    assert Ordered(run);
    forall i | 0 <= i < |order| ensures StatusAt(run, i) == Scheduled {
      assert order[i] in NewTasks(ids).Keys;
    }
    assert forall id :: id in scheduled ==> id in NewTasks(ids).Keys;
  }

  lemma StartedTouches(s: State, jobId: string, ids: seq<string>, order: seq<string>, ws': Workers, scheduled: Tasks, h: nat)
    requires Safe(s) && jobId !in s.jobs && h !in s.pending
    ensures var s' := Started(s, jobId, ids, order, ws', scheduled);
            TouchesOnly(s, s', jobId, h) && Mine(s', jobId) - {h} == map[]
  {
    NobodyYet(s, jobId);
  }

  lemma SubmitIsCalm(s: State, h: nat, jobId: string, ids: seq<string>, order: seq<string>, on: seq<string>,
                     ws': Workers, scheduled: Tasks)
    requires Safe(s) && jobId !in s.jobs && h !in s.pending && ProperJob(jobId, ids, order)
    requires Placed(s.ws, ws', NewTasks(ids), scheduled, NewTasks(ids).Keys, on)
    ensures var s1 := Started(s, jobId, ids, order, ws', scheduled);
            && jobId in s1.jobs && Listed(s1.jobs[jobId])
            && var s' := DeployNext(s1, h, jobId, 0);
               TouchesOnly(s, s', jobId, h) && jobId in s'.jobs && Calm(s'.jobs[jobId], Mine(s', jobId))
  {
    hide Safe, Placed, ProperJob, DeployNext, Listed, TouchesOnly, Calm, PreDeploy, NewTasks;
    var s1 := Started(s, jobId, ids, order, ws', scheduled);
    StartedIsSafe(s, jobId, ids, order, on, ws', scheduled);
    StartedTouches(s, jobId, ids, order, ws', scheduled, h);
    StartedIsPreDeploy(ids, order, s.ws, ws', on, scheduled, jobId);
    DeployNextIsCalm(s1, h, jobId);
    TouchesTransitively(s, s1, DeployNext(s1, h, jobId, 0), jobId, h);
  }

  lemma RejectedIsCalm(s: State, jobId: string, ids: seq<string>, order: seq<string>)
    requires Safe(s) && jobId !in s.jobs
    ensures var s' := s.(jobs := s.jobs[jobId := Run(Rejected, ids, order, NewTasks(ids), [])]);
            Leaves(s, s', jobId) && jobId in s'.jobs && Calm(s'.jobs[jobId], Mine(s', jobId))
  {
    NobodyYet(s, jobId);
    var s' := s.(jobs := s.jobs[jobId := Run(Rejected, ids, order, NewTasks(ids), [])]);
    SameHandlers(s, s', jobId);
    hide Mine;
    forall k ensures Mine(s', k) == Mine(s, k) {
      SameHandlers(s, s', k);
    }
  }

  // ----- the other jobs -----

  /** All other jobs and their handlers are as before. */
  ghost predicate Leaves(s: State, s': State, jobId: string) {
    forall k :: k != jobId ==>
      && Mine(s', k) == Mine(s, k) && (k in s.jobs <==> k in s'.jobs) && (k in s.jobs ==> s'.jobs[k] == s.jobs[k])
  }

  lemma TouchingLeaves(s: State, s': State, jobId: string, h: nat)
    requires TouchesOnly(s, s', jobId, h)
    ensures Leaves(s, s', jobId)
  {
    hide Mine;
    TouchedHandlers(s, s', jobId, h);
  }

  /** The job that an event is about. */
  ghost function JobOf(s: State, e: Event): Option<string>
    requires Shaped(s) && Enabled(s, e)
  {
    match e
    case Register(_, _, _, _, _, _) => None
    case Heartbeat(_, _) => None
    case SubmitRejected(jobId, _, _) => Some(jobId)
    case SubmitBegins(_, jobId, _, _, _, _, _) => Some(jobId)
    case DeployReturns(h, _) => Some(s.pending[h].jobId)
    case CancelBegins(_, jobId) => Some(jobId)
    case FailureBegins(_, jobId, _) => Some(jobId)
    case StopReturns(h, _) => Some(s.pending[h].jobId)
    case TaskReported(jobId, _, _) => Some(jobId)
  }

  lemma FinishTouches(s: State, h: nat, jobId: string, purpose: Purpose)
    requires jobId in s.jobs && Listed(s.jobs[jobId]) && (h in s.pending ==> s.pending[h].jobId == jobId)
    ensures TouchesOnly(s, Finish(s, h, jobId, purpose), jobId, h)
  {
    hide Listed;
  }

  lemma ContinueTouches(s: State, h: nat, jobId: string, rest: seq<string>, purpose: Purpose)
    requires jobId in s.jobs && Listed(s.jobs[jobId]) && (h in s.pending ==> s.pending[h].jobId == jobId)
    requires forall x :: x in rest ==> x in s.jobs[jobId].tasks
    ensures TouchesOnly(s, Continue(s, h, jobId, rest, purpose), jobId, h)
  {
    hide Finish, StopMore, TouchesOnly;
    var run := s.jobs[jobId];
    var progress := StopMore(s.ws, run.tasks, rest, purpose.failures);
    var run' := run.(tasks := progress.tasks);
    var s1 := s.(jobs := s.jobs[jobId := run']);
    OneJobTouched(s, jobId, run', h);
    match progress {
      case Suspended(_, current, rest', failures) =>
        OneHandlerTouched(s1, jobId, h, StopCall(jobId, current, rest', purpose.(failures := failures)));
      case AllStopped(_, failures) =>
        FinishTouches(s1, h, jobId, purpose.(failures := failures));
    }
    TouchesTransitively(s, s1, Continue(s, h, jobId, rest, purpose), jobId, h);
  }

  lemma FailTouches(s: State, h: nat, jobId: string, taskId: string)
    requires jobId in s.jobs && Listed(s.jobs[jobId]) && (h in s.pending ==> s.pending[h].jobId == jobId)
    requires taskId in s.jobs[jobId].tasks
    ensures TouchesOnly(s, Fail(s, h, jobId, taskId), jobId, h)
  {
    hide Continue, StopOrder, TouchesOnly;
    var run := s.jobs[jobId];
    var run' := AsFailed(run, taskId);
    StopOrderIs(run.deployed, taskId);
    var s1 := s.(jobs := s.jobs[jobId := run']);
    OneJobTouched(s, jobId, run', h);
    ContinueTouches(s1, h, jobId, StopOrder(run.deployed, taskId), Purpose(Some(taskId), false));
    TouchesTransitively(s, s1, Fail(s, h, jobId, taskId), jobId, h);
  }

  lemma DeployNextTouches(s: State, h: nat, jobId: string, k: nat)
    requires jobId in s.jobs && Listed(s.jobs[jobId]) && (h in s.pending ==> s.pending[h].jobId == jobId)
    requires k <= |s.jobs[jobId].deploymentOrder|
    ensures TouchesOnly(s, DeployNext(s, h, jobId, k), jobId, h)
  {
    hide Fail, TouchesOnly, Reachable;
    var run := s.jobs[jobId];
    var s' := DeployNext(s, h, jobId, k);
    if k == |run.deploymentOrder| {
      var run' := s'.jobs[jobId];
      var s1 := s.(jobs := s.jobs[jobId := run']);
      OneJobTouched(s, jobId, run', h);
      HandlerGone(s1, jobId, h);
      TouchesTransitively(s, s1, s', jobId, h);
    } else if !TaskMay(run.tasks[run.deploymentOrder[k]].status, TaskStatus.Deploying) {
      FailTouches(s, h, jobId, run.deploymentOrder[k]);
    } else {
      var id := run.deploymentOrder[k];
      var run' := run.(tasks := run.tasks[id := Move(run.tasks[id], TaskStatus.Deploying)]);
      var s1 := s.(jobs := s.jobs[jobId := run']);
      OneJobTouched(s, jobId, run', h);
      if Reachable(s.ws, run.tasks[id]) {
        OneHandlerTouched(s1, jobId, h, DeployCall(jobId, k));
      } else {
        FailTouches(s1, h, jobId, id);
      }
      TouchesTransitively(s, s1, s', jobId, h);
    }
  }

  lemma DeploySucceededTouches(s: State, h: nat)
    requires Shaped(s) && h in s.pending && s.pending[h].DeployCall?
    ensures PendingOk(s, s.pending[h])
    ensures var jobId := s.pending[h].jobId; TouchesOnly(s, DeploySucceeded(s, h, jobId, s.pending[h].k), jobId, h)
  {
    hide Fail, DeployNext, TouchesOnly, Reachable;
    assert PendingOk(s, s.pending[h]) && Listed(s.jobs[s.pending[h].jobId]);
    hide Shaped;
    var jobId, k := s.pending[h].jobId, s.pending[h].k;
    var run := s.jobs[jobId];
    var id := run.deploymentOrder[k];
    if TaskMay(run.tasks[id].status, TaskStatus.Running) {
      var run' := run.(tasks := run.tasks[id := Move(run.tasks[id], TaskStatus.Running)], deployed := run.deployed + [id]);
      var s1 := s.(jobs := s.jobs[jobId := run']);
      OneJobTouched(s, jobId, run', h);
      DeployNextTouches(s1, h, jobId, k + 1);
      TouchesTransitively(s, s1, DeploySucceeded(s, h, jobId, k), jobId, h);
    } else {
      FailTouches(s, h, jobId, id);
    }
  }

  lemma StopAnsweredTouches(s: State, h: nat, succeeds: bool)
    requires Shaped(s) && h in s.pending && s.pending[h].StopCall?
    ensures PendingOk(s, s.pending[h]) && TouchesOnly(s, StopAnswered(s, h, s.pending[h], succeeds), s.pending[h].jobId, h)
  {
    hide Continue, TouchesOnly, Reachable;
    var p := s.pending[h];
    assert PendingOk(s, p) && Listed(s.jobs[p.jobId]);
    hide Shaped;
    var run := s.jobs[p.jobId];
    var to := if succeeds && TaskMay(run.tasks[p.current].status, TaskStatus.Cancelled) then TaskStatus.Cancelled else TaskStatus.Failed;
    if TaskMay(run.tasks[p.current].status, to) {
      var run' := run.(tasks := run.tasks[p.current := Move(run.tasks[p.current], to)]);
      var s1 := s.(jobs := s.jobs[p.jobId := run']);
      OneJobTouched(s, p.jobId, run', h);
      ContinueTouches(s1, h, p.jobId, p.rest,
                      if to == TaskStatus.Cancelled then p.purpose else p.purpose.(failures := true));
      TouchesTransitively(s, s1, StopAnswered(s, h, p, succeeds), p.jobId, h);
    } else {
      HandlerGone(s, p.jobId, h);
    }
  }

  /** Every event leaves all jobs alone but the one it is about. */
  lemma StepLeavesOthers(s: State, e: Event, jobId: string)
    requires Safe(s) && Enabled(s, e) && (JobOf(s, e).Some? ==> JobOf(s, e) == Some(jobId))
    ensures Leaves(s, Step(s, e), jobId)
  {
    hide Safe, Ledger, JobsOk, Fail, Continue, DeployNext, DeploySucceeded, StopAnswered, Listed, Leaves, TouchesOnly,
      RegisterIn, Placed, ProperJob, PendingOk, Reversed;
    assert Shaped(s) by { SafeParts(s, jobId); }
    match e {
      case Register(_, _, _, _, _, _) => WorkersLeave(s, Step(s, e), jobId);
      case Heartbeat(_, _) => WorkersLeave(s, Step(s, e), jobId);
      case SubmitRejected(_, ids, order) => RejectedIsCalm(s, jobId, ids, order);
      case SubmitBegins(h, _, ids, order, on, ws', scheduled) =>
        SubmitIsCalm(s, h, jobId, ids, order, on, ws', scheduled);
        TouchingLeaves(s, Step(s, e), jobId, h);
      case DeployReturns(h, succeeds) =>
        DeploySucceededTouches(s, h);
        PendingIsMine(s, h);
        if !succeeds {
          DeployFailedTouches(s, h);
        }
        TouchingLeaves(s, Step(s, e), jobId, h);
      case CancelBegins(h, _) =>
        CancelTouches(s, h, jobId);
        TouchingLeaves(s, Step(s, e), jobId, h);
      case FailureBegins(h, _, taskId) =>
        SafeParts(s, jobId);
        FailTouches(s, h, jobId, taskId);
        TouchingLeaves(s, Step(s, e), jobId, h);
      case StopReturns(h, succeeds) =>
        StopAnsweredTouches(s, h, succeeds);
        TouchingLeaves(s, Step(s, e), jobId, h);
      case TaskReported(_, _, _) => JobLeaves(s, jobId, Step(s, e).jobs[jobId]);
    }
  }

  lemma DeployFailedTouches(s: State, h: nat)
    requires Shaped(s) && h in s.pending && s.pending[h].DeployCall?
    ensures PendingOk(s, s.pending[h]) && Listed(s.jobs[s.pending[h].jobId])
    ensures var jobId := s.pending[h].jobId;
            TouchesOnly(s, Fail(s, h, jobId, s.jobs[jobId].deploymentOrder[s.pending[h].k]), jobId, h)
  {
    hide Fail, TouchesOnly;
    assert PendingOk(s, s.pending[h]) && Listed(s.jobs[s.pending[h].jobId]);
    var jobId := s.pending[h].jobId;
    FailTouches(s, h, jobId, s.jobs[jobId].deploymentOrder[s.pending[h].k]);
  }

  lemma CancelTouches(s: State, h: nat, jobId: string)
    requires Shaped(s) && h !in s.pending && jobId in s.jobs
    ensures Enabled(s, CancelBegins(h, jobId)) && TouchesOnly(s, Step(s, CancelBegins(h, jobId)), jobId, h)
  {
    hide Continue, TouchesOnly, Reversed;
    assert Listed(s.jobs[jobId]);
    hide Shaped, PendingOk;
    var run := s.jobs[jobId];
    if JobMay(run.status, JobStatus.Cancelling) {
      ReversedMembers(run.deployed);
      var run' := run.(status := JobStatus.Cancelling);
      var s1 := s.(jobs := s.jobs[jobId := run']);
      OneJobTouched(s, jobId, run', h);
      ContinueTouches(s1, h, jobId, Reversed(run.deployed), Purpose(None, false));
      TouchesTransitively(s, s1, Step(s, CancelBegins(h, jobId)), jobId, h);
    } else {
      NothingTouched(s, jobId, h);
    }
  }

  lemma WorkersLeave(s: State, s': State, jobId: string)
    requires s'.jobs == s.jobs && s'.pending == s.pending
    ensures Leaves(s, s', jobId)
    ensures forall k :: Mine(s', k) == Mine(s, k)
  {
    hide Mine;
    forall k ensures Mine(s', k) == Mine(s, k) {
      SameHandlers(s, s', k);
    }
  }

  lemma JobLeaves(s: State, jobId: string, run: Run)
    ensures Leaves(s, s.(jobs := s.jobs[jobId := run]), jobId)
  {
    hide Mine;
    forall k ensures Mine(s.(jobs := s.jobs[jobId := run]), k) == Mine(s, k) {
      SameHandlers(s, s.(jobs := s.jobs[jobId := run]), k);
    }
  }

  // ----- runs -----

  /** An event that a job can stand: a failure of it begins at a moment that is not risky, and nobody else moves its tasks. */
  ghost predicate Harmless(s: State, e: Event, jobId: string)
    requires Shaped(s) && Enabled(s, e)
  {
    match e
    case FailureBegins(_, j, taskId) => j == jobId ==> !Risky(s.jobs[j], taskId)
    case TaskReported(j, _, _) => j != jobId
    case _ => true
  }

  lemma StepKeepsCalm(s: State, e: Event, jobId: string)
    requires Safe(s) && Enabled(s, e) && Harmless(s, e, jobId)
    requires jobId in s.jobs ==> Calm(s.jobs[jobId], Mine(s, jobId))
    ensures var s' := Step(s, e); jobId in s'.jobs ==> Calm(s'.jobs[jobId], Mine(s', jobId))
  {
    hide Safe, Ledger, JobsOk, Fail, Continue, DeployNext, DeploySucceeded, StopAnswered, Listed, TouchesOnly, Calm, Mine,
      RegisterIn, Placed, ProperJob, PendingOk, Reversed, Risky;
    SafeParts(s, jobId);
    match JobOf(s, e)
    case None =>
      StepLeavesOthers(s, e, jobId);
      WorkersLeave(s, Step(s, e), jobId);
    case Some(j) =>
      if j != jobId {
        StepLeavesOthers(s, e, j);
      } else {
        OwnStepKeepsCalm(s, e, jobId);
      }
  }

  lemma OwnStepKeepsCalm(s: State, e: Event, jobId: string)
    requires Safe(s) && Enabled(s, e) && Harmless(s, e, jobId) && JobOf(s, e) == Some(jobId)
    requires jobId in s.jobs ==> Calm(s.jobs[jobId], Mine(s, jobId))
    ensures var s' := Step(s, e); jobId in s'.jobs && Calm(s'.jobs[jobId], Mine(s', jobId))
  {
    hide Safe, Ledger, JobsOk, Fail, Continue, DeployNext, DeploySucceeded, StopAnswered, Listed, TouchesOnly, Calm, Mine,
      RegisterIn, Placed, ProperJob, PendingOk, Reversed, Risky, Leaves;
    SafeParts(s, jobId);
    match e {
      case SubmitRejected(_, ids, order) => RejectedIsCalm(s, jobId, ids, order);
      case SubmitBegins(h, _, ids, order, on, ws', scheduled) =>
        SubmitIsCalm(s, h, jobId, ids, order, on, ws', scheduled);
      case DeployReturns(h, succeeds) =>
        PendingIsMine(s, h);
        PendingHasJob(s, h);
        if succeeds {
          DeploySucceededIsCalm(s, h);
        } else {
          DeployFailedIsCalm(s, h);
        }
      case CancelBegins(h, _) => CancelIsCalm(s, h, jobId);
      case FailureBegins(h, _, taskId) => FailureIsCalm(s, h, jobId, taskId);
      case StopReturns(h, succeeds) =>
        PendingHasJob(s, h);
        StopAnsweredIsCalm(s, h, succeeds);
      case _ =>
    }
  }

  lemma PendingHasJob(s: State, h: nat)
    requires Safe(s) && h in s.pending
    ensures s.pending[h].jobId in s.jobs
  {
    assert PendingOk(s, s.pending[h]);
  }

  /** A run of which every event is one that the job can stand. */
  ghost predicate Harmlessly(events: seq<Event>, jobId: string)
    requires After(events).Some?
  {
    events == []
    || var before := events[..|events| - 1];
       Harmlessly(before, jobId) && Harmless(After(before).value, events[|events| - 1], jobId)
  }

  lemma {:induction false} HarmlessRunsAreCalm(events: seq<Event>, jobId: string)
    requires After(events).Some? && Harmlessly(events, jobId)
    ensures var s := After(events).value; jobId in s.jobs ==> Calm(s.jobs[jobId], Mine(s, jobId))
  {
    hide Step, Enabled, Safe, Calm, Mine, Harmless;
    if events != [] {
      var before := events[..|events| - 1];
      HarmlessRunsAreCalm(before, jobId);
      StepKeepsCalm(After(before).value, events[|events| - 1], jobId);
    }
  }

  /**
   Closure under interleaving. However the handlers of all jobs interleave and whatever the Workers answer: if no
   failure of this job began at a risky moment and nobody else moved its tasks, then whenever no handler works
   on it, it is running in full, or was rejected, or is over with every task terminal; and when it is over it
   holds no slot.
   */
  lemma HarmlessRunsSettle(events: seq<Event>, jobId: string)
    requires After(events).Some? && Harmlessly(events, jobId)
    requires var s := After(events).value; jobId in s.jobs && Mine(s, jobId) == map[]
    ensures var run := After(events).value.jobs[jobId];
            Settled(run) && (TerminalJob(run.status) ==> NonePlaced(run.tasks))
  {
    hide After, Calm, Settled;
    HarmlessRunsAreCalm(events, jobId);
    var s := After(events).value;
    CalmAloneIsSettled(s.jobs[jobId]);
    assert JobOk(jobId, s.jobs[jobId], s.held) by {
      hide Ledger;
    }
  }

  /** No moment is risky at which nobody is waiting for a deploy call of the job. */
  lemma RiskNeedsDeployer(run: Run, mine: Handlers, taskId: string)
    requires Calm(run, mine) && Risky(run, taskId)
    ensures HasDeployer(mine)
  {
    hide HasDeployer, StoppersOk, Bound, Covered, Ending;
    var t :| t in run.tasks && t != taskId && run.tasks[t].status == TaskStatus.Deploying;
    var i :| 0 <= i < |run.deploymentOrder| && run.deploymentOrder[i] == t;
    assert StatusAt(run, i) == TaskStatus.Deploying;
  }

  // ----- what answers and reports decide -----

  /** Stopping goes through the tasks in order, over those that need not or cannot be stopped. */
  lemma {:induction false} StopsInOrder(ws: Workers, tasks: Tasks, rest: seq<string>, failures: bool) returns (k: nat)
    requires (forall x :: x in rest ==> x in tasks) && StopMore(ws, tasks, rest, failures).Suspended?
    ensures var r := StopMore(ws, tasks, rest, failures);
            k < |rest| && r.current == rest[k] && r.rest == rest[k + 1..]
    decreases |rest|
  {
    hide Reachable, StopMore;
    StopFirst(ws, tasks, rest, failures);
    var id, more := rest[0], rest[1..];
    if Stoppable(tasks[id]) && Reachable(ws, Move(tasks[id], TaskStatus.Cancelling)) {
      k := 0;
    } else {
      var j;
      if Stoppable(tasks[id]) {
        j := StopsInOrder(ws, tasks[id := Move(Move(tasks[id], TaskStatus.Cancelling), TaskStatus.Failed)], more, true);
      } else {
        j := StopsInOrder(ws, tasks, more, failures);
      }
      k := j + 1;
    }
  }

  lemma StopFirst(ws: Workers, tasks: Tasks, rest: seq<string>, failures: bool)
    requires (forall x :: x in rest ==> x in tasks) && StopMore(ws, tasks, rest, failures).Suspended?
    ensures rest != [] && rest[0] in tasks && forall x :: x in rest[1..] ==> x in tasks
    ensures var id, r := rest[0], StopMore(ws, tasks, rest, failures);
            if !Stoppable(tasks[id]) then r == StopMore(ws, tasks, rest[1..], failures)
            else if Reachable(ws, Move(tasks[id], TaskStatus.Cancelling)) then r.current == id && r.rest == rest[1..]
            else r == StopMore(ws, tasks[id := Move(Move(tasks[id], TaskStatus.Cancelling), TaskStatus.Failed)], rest[1..], true)
  {
    hide Reachable;
    assert rest[0] in rest && forall x :: x in rest[1..] ==> x in rest;
  }

  /** A cancel that waits for a stop call has before it exactly what was deployed earlier, last deployed first. */
  lemma CancelStopsBackwards(s: State, h: nat, jobId: string) returns (k: nat)
    requires Safe(s) && jobId in s.jobs && h !in s.pending
    requires s.jobs[jobId].status == JobStatus.Running
    ensures Shaped(s) && Enabled(s, CancelBegins(h, jobId))
    ensures var deployed, s' := s.jobs[jobId].deployed, Step(s, CancelBegins(h, jobId));
            h in s'.pending ==>
              && k < |deployed| && s'.pending[h].StopCall? && s'.pending[h].jobId == jobId
              && s'.pending[h].purpose.failed == None
              && s'.pending[h].current == deployed[k] && s'.pending[h].rest == Reversed(deployed[..k])
  {
    hide Safe, Shaped, StopMore, Continue, Reachable, TouchesOnly, StopsInto, CancelsInto, Listed, OnlyStatuses;
    SafeParts(s, jobId);
    var run := s.jobs[jobId];
    var run1 := run.(status := JobStatus.Cancelling);
    var s1 := s.(jobs := s.jobs[jobId := run1]);
    ReversedMembers(run.deployed);
    DeployedAreTasks(run);
    CancellingIsStatus(run);
    StatusesKeepSafe(s, s1, jobId, run1);
    ContinueEffect(s1, h, jobId, Reversed(run.deployed), Purpose(None, false));
    k := 0;
    if StopMore(s.ws, run.tasks, Reversed(run.deployed), false).Suspended? {
      var i := StopsInOrder(s.ws, run.tasks, Reversed(run.deployed), false);
      k := |run.deployed| - 1 - i;
      assert Reversed(run.deployed)[i + 1..] == Reversed(run.deployed[..k]);
    }
  }

  lemma DeployedAreTasks(run: Run)
    requires Listed(run)
    ensures forall x :: x in run.deployed ==> x in run.tasks
  {
  }

  /** The answer to a stop call decides how the task ends that was being stopped. */
  lemma StopAnswerDecides(s: State, h: nat, succeeds: bool)
    requires Safe(s) && h in s.pending && s.pending[h].StopCall? && s.pending[h].jobId in s.jobs
    requires Calm(s.jobs[s.pending[h].jobId], Mine(s, s.pending[h].jobId))
    requires Alive(s.jobs[s.pending[h].jobId], s.pending[h])
    ensures Shaped(s) && Enabled(s, StopReturns(h, succeeds))
    ensures var p, s' := s.pending[h], Step(s, StopReturns(h, succeeds));
            && p.jobId in s'.jobs && p.current in s'.jobs[p.jobId].tasks
            && s'.jobs[p.jobId].tasks[p.current].status == StopStatus(succeeds)
  {
    hide Safe, Continue, Shaped, Listed, PendingOk, Calm, TouchesOnly, Mine, Regions, StoppersOk, DeployerOk, GoingDown,
      Ordered, OnlyStatuses, StopsInto, CancelsInto, StopMore;
    var p := s.pending[h];
    var run, mine := s.jobs[p.jobId], Mine(s, p.jobId);
    PendingIsMine(s, h);
    StopperKnows(run, mine, h);
    assert PendingOk(s, p);
    var run1 := StoppedAs(run, p.current, StopStatus(succeeds));
    var s1 := s.(jobs := s.jobs[p.jobId := run1]);
    var purpose := if succeeds then p.purpose else p.purpose.(failures := true);
    StoppedIsStatus(run, p.current, StopStatus(succeeds));
    StatusesKeepSafe(s, s1, p.jobId, run1);
    ContinueEffect(s1, h, p.jobId, p.rest, purpose);
    TerminalStays(run1, StopMore(s.ws, run1.tasks, p.rest, purpose.failures), p.rest,
                  Step(s, StopReturns(h, succeeds)).jobs[p.jobId], p.current);
  }

  /** A task that is failed, by a report, a health check or its own deployment, ends FAILED unless it was over already. */
  lemma FailureFailsTask(s: State, h: nat, jobId: string, taskId: string)
    requires Safe(s) && jobId in s.jobs && (h in s.pending ==> s.pending[h].jobId == jobId)
    requires taskId in s.jobs[jobId].tasks
    ensures Listed(s.jobs[jobId])
    ensures var before, s' := s.jobs[jobId].tasks[taskId].status, Fail(s, h, jobId, taskId);
            && jobId in s'.jobs && taskId in s'.jobs[jobId].tasks
            && s'.jobs[jobId].tasks[taskId].status == if TerminalTask(before) then before else TaskStatus.Failed
  {
    hide Safe, Continue, StopOrder, Shaped, TouchesOnly, StopsInto, CancelsInto, StopMore, OnlyStatuses;
    SafeParts(s, jobId);
    var run := s.jobs[jobId];
    var run1 := AsFailed(run, taskId);
    var s1 := s.(jobs := s.jobs[jobId := run1]);
    var rest, purpose := StopOrder(run.deployed, taskId), Purpose(Some(taskId), false);
    StopOrderIs(run.deployed, taskId);
    MarkedIsStatus(run, taskId);
    StatusesKeepSafe(s, s1, jobId, run1);
    MarkedIsOver(run, taskId);
    ContinueEffect(s1, h, jobId, rest, purpose);
    TerminalStays(run1, StopMore(s.ws, run1.tasks, rest, false), rest, Fail(s, h, jobId, taskId).jobs[jobId], taskId);
  }

  lemma TerminalStays(run: Run, r: StopProgress, rest: seq<string>, run': Run, id: string)
    requires StopsInto(run.tasks, rest, r) && id in run.tasks && TerminalTask(run.tasks[id].status)
    requires if r.Suspended? then run' == run.(tasks := r.tasks) else CancelsInto(run.(tasks := r.tasks), run')
    ensures id in run'.tasks && run'.tasks[id].status == run.tasks[id].status
  {
  }

  /** A report other than FAILED moves the one task, and makes a deploying job RUNNING once all its tasks are. */
  lemma ReportIs(s: State, jobId: string, taskId: string, status: TaskStatus)
    requires Shaped(s) && Enabled(s, TaskReported(jobId, taskId, status))
    ensures var run, s' := s.jobs[jobId], Step(s, TaskReported(jobId, taskId, status));
            && s'.ws == s.ws && s'.pending == s.pending && jobId in s'.jobs
            && var run' := s'.jobs[jobId];
               && run'.tasks.Keys == run.tasks.Keys && run'.tasks[taskId].status == status
               && (forall id :: id in run.tasks && id != taskId ==> run'.tasks[id] == run.tasks[id])
               && (run'.status == JobStatus.Running <==>
                     || run.status == JobStatus.Running
                     || (run.status == JobStatus.Deploying && AllHave(run'.tasks, TaskStatus.Running)))
               && (run'.status != JobStatus.Running ==> run'.status == run.status)
  {
    hide Shaped;
  }
}
