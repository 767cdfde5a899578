/**
 The job manager (control/manager.py) with its handlers interleaved. A handler is cut at its awaits: while it
 waits for a Worker to answer, any other handler may run. Each event is one uncut segment of one handler.
 */
module Interleaving {
  import opened Wrappers
  import opened Sequences
  import opened TaskIds
  import opened Models
  import opened Scheduler
  import opened Lifecycle
  import opened Manager

  /** Why a job's tasks are being stopped: because a task failed, or, without one, because of a cancel. */
  datatype Purpose = Purpose(failed: Option<string>, failures: bool)

  /** Where a handler is suspended. */
  datatype Pending =
    | DeployCall(jobId: string, k: nat)
    | StopCall(jobId: string, current: string, rest: seq<string>, purpose: Purpose)

  /** `held` is history: which task was given which slot and has not been released since. */
  datatype State = State(ws: Workers, jobs: Runs, pending: map<nat, Pending>, held: Holdings)

  datatype Event =
    | Register(id: string, controlAddress: string, dataHost: string, dataPort: int, totalSlots: int, at: int)
    | Heartbeat(id: string, at: int)
    | SubmitRejected(jobId: string, ids: seq<string>, order: seq<string>)
    | SubmitBegins(h: nat, jobId: string, ids: seq<string>, order: seq<string>,
                   on: seq<string>, ws': Workers, scheduled: Tasks)
    | DeployReturns(h: nat, succeeds: bool)
    | CancelBegins(h: nat, jobId: string)
    | FailureBegins(h: nat, jobId: string, taskId: string)
    | StopReturns(h: nat, succeeds: bool)
    | TaskReported(jobId: string, taskId: string, status: TaskStatus)

  /** The tasks after stopping went on as far as it could: to the next call to a Worker, or to its end. */
  datatype StopProgress =
    | Suspended(tasks: Tasks, current: string, rest: seq<string>, failures: bool)
    | AllStopped(tasks: Tasks, failures: bool)

  function StopMore(ws: Workers, tasks: Tasks, rest: seq<string>, failures: bool): (r: StopProgress)
    requires forall x :: x in rest ==> x in tasks
    ensures r.tasks.Keys == tasks.Keys
    ensures forall id :: id in tasks ==> r.tasks[id].place == tasks[id].place
    ensures r.Suspended? ==> r.current in tasks && forall x :: x in r.rest ==> x in tasks
    decreases |rest|
  {
    if rest == [] then AllStopped(tasks, failures)
    else
      var id := rest[0];
      assert id in rest && forall x :: x in rest[1..] ==> x in rest;
      if !Stoppable(tasks[id]) then StopMore(ws, tasks, rest[1..], failures)
      else
        var cancelling := Move(tasks[id], TaskStatus.Cancelling);
        if Reachable(ws, cancelling) then Suspended(tasks[id := cancelling], id, rest[1..], failures)
        else StopMore(ws, tasks[id := Move(cancelling, TaskStatus.Failed)], rest[1..], true)
  }

  /** The job's last transition; where it is not allowed it raises and the status stays. */
  function FinalStatus(status: JobStatus, purpose: Purpose): JobStatus {
    if purpose.failed.Some? then (if JobMay(status, JobStatus.Failed) then JobStatus.Failed else status)
    else if purpose.failures then (if JobMay(status, Failing) then JobStatus.Failed else status)
    else if JobMay(status, JobStatus.Cancelled) then JobStatus.Cancelled
    else status
  }

  /**
   How a handler leaves the job: FAILED after a failure if the job is failing; CANCELLED after a cancel without errors
   and FAILED after one with errors if it is still being cancelled; in any other case it leaves the status as it is.
   */
  lemma FinalStatusIs(status: JobStatus, failed: string, failures: bool)
    ensures FinalStatus(status, Purpose(Some(failed), failures)) == if status == Failing then JobStatus.Failed else status
    ensures FinalStatus(JobStatus.Cancelling, Purpose(None, false)) == JobStatus.Cancelled
    ensures status == JobStatus.Running || status == JobStatus.Cancelling ==>
              FinalStatus(status, Purpose(None, true)) == JobStatus.Failed
    ensures status in {Failing, JobStatus.Failed, JobStatus.Cancelled, Rejected} ==>
              FinalStatus(status, Purpose(None, failures)) == status
  {
  }

  ghost predicate Listed(run: Run) {
    && (forall i :: 0 <= i < |run.ids| ==> run.ids[i] in run.tasks)
    && (forall id :: id in run.tasks ==> id in run.ids)
    && (forall i :: 0 <= i < |run.deploymentOrder| ==> run.deploymentOrder[i] in run.tasks)
    && (forall x :: x in run.deployed ==> x in run.tasks)
  }

  /** After the last stop: cancels what is still scheduled, releases every slot, and ends the job. */
  ghost function Finish(s: State, h: nat, jobId: string, purpose: Purpose): State
    requires jobId in s.jobs && Listed(s.jobs[jobId])
  {
    var run := s.jobs[jobId];
    var released := ReleaseFirst(s.ws, CancelScheduled(run.tasks, purpose.failed), run.ids, |run.ids|);
    State(released.ws,
          s.jobs[jobId := run.(tasks := released.tasks,
                               status := if released.error.Some? then run.status else FinalStatus(run.status, purpose))],
          s.pending - {h},
          Without(s.held, run.ids))
  }

  ghost function Continue(s: State, h: nat, jobId: string, rest: seq<string>, purpose: Purpose): State
    requires jobId in s.jobs && Listed(s.jobs[jobId]) && forall x :: x in rest ==> x in s.jobs[jobId].tasks
  {
    var run := s.jobs[jobId];
    var progress := StopMore(s.ws, run.tasks, rest, purpose.failures);
    var s' := s.(jobs := s.jobs[jobId := run.(tasks := progress.tasks)]);
    match progress
    case Suspended(_, current, rest', failures) =>
      s'.(pending := s.pending[h := StopCall(jobId, current, rest', purpose.(failures := failures))])
    case AllStopped(_, failures) => Finish(s', h, jobId, purpose.(failures := failures))
  }

  /** The beginning of bringing a job down because of one of its tasks. */
  ghost function Fail(s: State, h: nat, jobId: string, taskId: string): State
    requires jobId in s.jobs && Listed(s.jobs[jobId]) && taskId in s.jobs[jobId].tasks
  {
    var run := s.jobs[jobId];
    var status := if JobMay(run.status, Failing) then Failing else run.status;
    StopOrderIs(run.deployed, taskId);
    Continue(s.(jobs := s.jobs[jobId := run.(status := status, tasks := MarkFailed(run.tasks, taskId))]),
             h, jobId, StopOrder(run.deployed, taskId), Purpose(Some(taskId), false))
  }

  /** Submission goes on with task k: to the next deploy call, to a failure, or to its end. */
  ghost function DeployNext(s: State, h: nat, jobId: string, k: nat): State
    requires jobId in s.jobs && Listed(s.jobs[jobId]) && k <= |s.jobs[jobId].deploymentOrder|
  {
    var run := s.jobs[jobId];
    if k == |run.deploymentOrder| then
      State(s.ws,
            s.jobs[jobId := run.(status := if JobMay(run.status, JobStatus.Running) then JobStatus.Running else run.status)],
            s.pending - {h}, s.held)
    else
      var id := run.deploymentOrder[k];
      if !TaskMay(run.tasks[id].status, TaskStatus.Deploying) then Fail(s, h, jobId, id)
      else
        var s' := s.(jobs := s.jobs[jobId := run.(tasks := run.tasks[id := Move(run.tasks[id], TaskStatus.Deploying)])]);
        if !Reachable(s.ws, run.tasks[id]) then Fail(s', h, jobId, id)
        else s'.(pending := s.pending[h := DeployCall(jobId, k)])
  }

  ghost predicate PendingOk(s: State, p: Pending) {
    && p.jobId in s.jobs
    && match p
       case DeployCall(jobId, k) => k < |s.jobs[jobId].deploymentOrder|
       case StopCall(jobId, current, rest, _) =>
         current in s.jobs[jobId].tasks && forall x :: x in rest ==> x in s.jobs[jobId].tasks
  }

  ghost predicate ProperJob(jobId: string, ids: seq<string>, order: seq<string>) {
    && NoDuplicates(ids) && NoDuplicates(order) && (forall id :: id in order <==> id in ids)
    && forall id :: id in ids ==> BelongsTo(jobId, id)
  }

  ghost predicate Shaped(s: State) {
    && (forall j :: j in s.jobs ==> Listed(s.jobs[j]))
    && (forall h :: h in s.pending ==> PendingOk(s, s.pending[h]))
  }

  ghost predicate Enabled(s: State, e: Event)
    requires Shaped(s)
  {
    match e
    case Register(id, controlAddress, dataHost, dataPort, totalSlots, at) =>
      RegisterIn(s.ws, id, controlAddress, dataHost, dataPort, totalSlots, at).Ok?
    case Heartbeat(id, _) => id in s.ws
    case SubmitRejected(jobId, ids, order) => jobId !in s.jobs && ProperJob(jobId, ids, order)
    case SubmitBegins(h, jobId, ids, order, on, ws', scheduled) =>
      && h !in s.pending && jobId !in s.jobs && ProperJob(jobId, ids, order)
      && Placed(s.ws, ws', NewTasks(ids), scheduled, NewTasks(ids).Keys, on)
    case DeployReturns(h, _) => h in s.pending && s.pending[h].DeployCall?
    case CancelBegins(h, jobId) => h !in s.pending && jobId in s.jobs
    case FailureBegins(h, jobId, taskId) => h !in s.pending && jobId in s.jobs && taskId in s.jobs[jobId].tasks
    case StopReturns(h, _) => h in s.pending && s.pending[h].StopCall?
    case TaskReported(jobId, taskId, status) =>
      && jobId in s.jobs && taskId in s.jobs[jobId].tasks && status != TaskStatus.Failed
      && TaskMay(s.jobs[jobId].tasks[taskId].status, status)
  }

  /** A new job, its tasks placed, before its first deploy call. */
  ghost function Started(s: State, jobId: string, ids: seq<string>, order: seq<string>, ws': Workers, scheduled: Tasks)
    : State
  {
    State(ws', s.jobs[jobId := Run(JobStatus.Deploying, ids, order, scheduled, [])], s.pending,
          s.held + PlacesOf(scheduled))
  }

  /** A deploy call has returned well: the task runs, unless somebody else has moved it meanwhile. */
  ghost function DeploySucceeded(s: State, h: nat, jobId: string, k: nat): State
    requires Shaped(s) && jobId in s.jobs && k < |s.jobs[jobId].deploymentOrder|
  {
    var run := s.jobs[jobId];
    var id := run.deploymentOrder[k];
    if !TaskMay(run.tasks[id].status, TaskStatus.Running) then Fail(s, h, jobId, id)
    else
      var run' := run.(tasks := run.tasks[id := Move(run.tasks[id], TaskStatus.Running)],
                       deployed := run.deployed + [id]);
      DeployNext(s.(jobs := s.jobs[jobId := run']), h, jobId, k + 1)
  }

  /** A stop call has returned; if even FAILED is not allowed any more, the handler dies of the exception. */
  ghost function StopAnswered(s: State, h: nat, p: Pending, succeeds: bool): State
    requires Shaped(s) && p.StopCall? && PendingOk(s, p)
  {
    var run := s.jobs[p.jobId];
    var t := run.tasks[p.current];
    if succeeds && TaskMay(t.status, TaskStatus.Cancelled) then
      Continue(s.(jobs := s.jobs[p.jobId := run.(tasks := run.tasks[p.current := Move(t, TaskStatus.Cancelled)])]),
               h, p.jobId, p.rest, p.purpose)
    else if TaskMay(t.status, TaskStatus.Failed) then
      Continue(s.(jobs := s.jobs[p.jobId := run.(tasks := run.tasks[p.current := Move(t, TaskStatus.Failed)])]),
               h, p.jobId, p.rest, p.purpose.(failures := true))
    else s.(pending := s.pending - {h})
  }

  ghost function Step(s: State, e: Event): State
    requires Shaped(s) && Enabled(s, e)
  {
    match e
    case Register(id, controlAddress, dataHost, dataPort, totalSlots, at) =>
      s.(ws := RegisterIn(s.ws, id, controlAddress, dataHost, dataPort, totalSlots, at).value)
    case Heartbeat(id, at) => s.(ws := s.ws[id := s.ws[id].(lastHeartbeat := at)])
    case SubmitRejected(jobId, ids, order) => s.(jobs := s.jobs[jobId := Run(Rejected, ids, order, NewTasks(ids), [])])
    case SubmitBegins(h, jobId, ids, order, on, ws', scheduled) =>
      DeployNext(Started(s, jobId, ids, order, ws', scheduled), h, jobId, 0)
    case DeployReturns(h, succeeds) =>
      var p := s.pending[h];
      if succeeds then DeploySucceeded(s, h, p.jobId, p.k)
      else Fail(s, h, p.jobId, s.jobs[p.jobId].deploymentOrder[p.k])
    case CancelBegins(h, jobId) =>
      var run := s.jobs[jobId];
      if !JobMay(run.status, JobStatus.Cancelling) then s
      else
        ReversedMembers(run.deployed);
        Continue(s.(jobs := s.jobs[jobId := run.(status := JobStatus.Cancelling)]), h, jobId,
                 Reversed(run.deployed), Purpose(None, false))
    case FailureBegins(h, jobId, taskId) => Fail(s, h, jobId, taskId)
    case StopReturns(h, succeeds) => StopAnswered(s, h, s.pending[h], succeeds)
    case TaskReported(jobId, taskId, status) =>
      var run := s.jobs[jobId];
      var tasks := run.tasks[taskId := Move(run.tasks[taskId], status)];
      s.(jobs := s.jobs[jobId := run.(
        tasks := tasks,
        status := if run.status == JobStatus.Deploying && AllHave(tasks, TaskStatus.Running) then JobStatus.Running else run.status)])
  }

  // ----- slot safety -----

  /** A job's tasks carry its id and hold what they say they hold; a job that is over holds nothing. */
  ghost predicate JobOk(jobId: string, run: Run, held: Holdings) {
    Owned(jobId, run.tasks) && Agrees(held, run.tasks, run.ids) && (TerminalJob(run.status) ==> NonePlaced(run.tasks))
  }

  ghost predicate JobsOk(jobs: Runs, held: Holdings) {
    (forall j :: j in jobs ==> JobOk(j, jobs[j], held)) && NoStrays(jobs, held)
  }

  ghost predicate Safe(s: State) {
    Shaped(s) && Ledger(s.ws, s.held) && JobsOk(s.jobs, s.held)
  }

  /** The same job after a step that moved no task: only statuses differ, and it did not end. */
  ghost predicate OnlyStatuses(run: Run, run': Run) {
    && run'.ids == run.ids && run'.deploymentOrder == run.deploymentOrder && SamePlaces(run.tasks, run'.tasks)
    && (forall x :: x in run'.deployed ==> x in run.tasks)
    && (TerminalJob(run'.status) ==> TerminalJob(run.status))
  }

  lemma StatusesKeepJobs(jobs: Runs, held: Holdings, jobId: string, run': Run)
    requires JobsOk(jobs, held) && jobId in jobs && OnlyStatuses(jobs[jobId], run')
    ensures JobsOk(jobs[jobId := run'], held)
  {
    hide BelongsTo;
    assert JobOk(jobId, jobs[jobId], held);
    AgreementCarriesOver(held, jobs[jobId].tasks, run'.tasks, run'.ids);
    var jobs' := jobs[jobId := run'];
    forall id | id in held ensures exists j :: j in jobs' && id in jobs'[j].tasks {
      var j :| j in jobs && id in jobs[j].tasks;
      assert j in jobs' && id in jobs'[j].tasks;
    }
  }

  lemma PendingStays(s: State, s': State, jobId: string)
    requires Shaped(s) && jobId in s.jobs && s'.jobs.Keys == s.jobs.Keys
    requires forall j :: j in s.jobs && j != jobId ==> s'.jobs[j] == s.jobs[j]
    requires s'.jobs[jobId].deploymentOrder == s.jobs[jobId].deploymentOrder
    requires s'.jobs[jobId].tasks.Keys == s.jobs[jobId].tasks.Keys
    ensures forall h :: h in s.pending ==> PendingOk(s', s.pending[h])
  {
    forall h | h in s.pending ensures PendingOk(s', s.pending[h]) {
      assert PendingOk(s, s.pending[h]);
    }
  }

  /** A step that changes one job's statuses, and perhaps where one handler waits. */
  lemma StatusesKeepSafe(s: State, s': State, jobId: string, run': Run)
    requires Safe(s) && jobId in s.jobs && OnlyStatuses(s.jobs[jobId], run')
    requires s'.ws == s.ws && s'.held == s.held && s'.jobs == s.jobs[jobId := run']
    requires forall h :: h in s'.pending ==> (h in s.pending && s'.pending[h] == s.pending[h]) || PendingOk(s', s'.pending[h])
    ensures Safe(s')
  {
    hide Ledger, JobsOk, PendingOk;
    StatusesKeepJobs(s.jobs, s.held, jobId, run');
    StatusesKeepListed(s.jobs[jobId], run');
    PendingStays(s, s', jobId);
  }

  lemma StatusesKeepListed(run: Run, run': Run)
    requires OnlyStatuses(run, run') && Listed(run)
    ensures Listed(run') && run'.tasks.Keys == run.tasks.Keys
  {
  }

  lemma CancellingKeepsPlaces(tasks: Tasks, exclude: Option<string>)
    ensures SamePlaces(tasks, CancelScheduled(tasks, exclude))
  {
  }

  lemma FinishReleases(ws: Workers, held: Holdings, jobs: Runs, jobId: string, exclude: Option<string>)
    requires Ledger(ws, held) && JobsOk(jobs, held) && jobId in jobs && Listed(jobs[jobId])
    ensures var run := jobs[jobId];
            var released := ReleaseFirst(ws, CancelScheduled(run.tasks, exclude), run.ids, |run.ids|);
            && released.error == None && released.tasks.Keys == run.tasks.Keys && NonePlaced(released.tasks)
            && released.tasks == Cleared(CancelScheduled(run.tasks, exclude), run.ids)
            && Ledger(released.ws, Without(held, run.ids))
  {
    hide Ledger, BelongsTo, CancelScheduled, ReleaseFirst;
    var run := jobs[jobId];
    var tasks := CancelScheduled(run.tasks, exclude);
    assert JobOk(jobId, run, held);
    CancellingKeepsPlaces(run.tasks, exclude);
    AgreementCarriesOver(held, run.tasks, tasks, run.ids);
    ReleaseFreesAll(ws, held, tasks, run.ids);
    ClearedHoldNothing(tasks, run.ids);
  }

  lemma FinishKeepsSafe(s: State, h: nat, jobId: string, purpose: Purpose)
    requires Safe(s) && jobId in s.jobs
    ensures Listed(s.jobs[jobId]) && Safe(Finish(s, h, jobId, purpose))
  {
    hide Ledger, PendingOk, JobsOk, CancelScheduled, ReleaseFirst, NonePlaced, Without;
    FinishReleases(s.ws, s.held, s.jobs, jobId, purpose.failed);
    var s' := Finish(s, h, jobId, purpose);
    ReleasedJobsOk(s.jobs, s.held, jobId, s'.jobs[jobId]);
    PendingStays(s, s', jobId);
  }

  lemma ReleasedJobsOk(jobs: Runs, held: Holdings, jobId: string, run': Run)
    requires JobsOk(jobs, held) && jobId in jobs && Listed(jobs[jobId])
    requires run'.ids == jobs[jobId].ids && run'.tasks.Keys == jobs[jobId].tasks.Keys && NonePlaced(run'.tasks)
    ensures JobsOk(jobs[jobId := run'], Without(held, run'.ids))
  {
    hide BelongsTo;
    var held' := Without(held, run'.ids);
    assert JobOk(jobId, jobs[jobId], held);
    var jobs' := jobs[jobId := run'];
    forall j | j in jobs' ensures JobOk(j, jobs'[j], held') {
      if j != jobId {
        assert JobOk(j, jobs[j], held);
        OthersAgree(jobId, jobs[jobId], j, jobs[j], held);
      }
    }
    forall id | id in held' ensures exists j :: j in jobs' && id in jobs'[j].tasks {
      var j :| j in jobs && id in jobs[j].tasks;
      assert j in jobs' && id in jobs'[j].tasks;
    }
  }

  lemma OthersAgree(jobId: string, run: Run, other: string, otherRun: Run, held: Holdings)
    requires jobId != other && Owned(jobId, run.tasks) && Owned(other, otherRun.tasks) && Listed(run)
    requires Agrees(held, otherRun.tasks, otherRun.ids)
    ensures Agrees(Without(held, run.ids), otherRun.tasks, otherRun.ids)
  {
    hide BelongsTo;
    forall i | 0 <= i < |otherRun.ids| ensures otherRun.ids[i] !in run.ids {
      if otherRun.ids[i] in run.ids {
        JobsShareNoTask(jobId, other, otherRun.ids[i]);
      }
    }
  }

  lemma ContinueKeepsSafe(s: State, h: nat, jobId: string, rest: seq<string>, purpose: Purpose)
    requires Safe(s) && jobId in s.jobs && forall x :: x in rest ==> x in s.jobs[jobId].tasks
    ensures Listed(s.jobs[jobId]) && Safe(Continue(s, h, jobId, rest, purpose))
  {
    hide Safe, Finish, StopMore, Shaped;
    SafeParts(s, jobId);
    var run := s.jobs[jobId];
    var progress := StopMore(s.ws, run.tasks, rest, purpose.failures);
    var run' := run.(tasks := progress.tasks);
    var s' := s.(jobs := s.jobs[jobId := run']);
    match progress {
      case Suspended(_, current, rest', failures) =>
        StatusesKeepSafe(s, Continue(s, h, jobId, rest, purpose), jobId, run');
      case AllStopped(_, failures) =>
        StatusesKeepSafe(s, s', jobId, run');
        FinishKeepsSafe(s', h, jobId, purpose.(failures := failures));
    }
  }

  lemma SafeParts(s: State, jobId: string)
    requires Safe(s)
    ensures Shaped(s) && (jobId in s.jobs ==> Listed(s.jobs[jobId]))
  {
  }

  lemma FailKeepsSafe(s: State, h: nat, jobId: string, taskId: string)
    requires Safe(s) && jobId in s.jobs && taskId in s.jobs[jobId].tasks
    ensures Listed(s.jobs[jobId]) && Safe(Fail(s, h, jobId, taskId))
  {
    hide Safe, Continue, StopOrder, Shaped;
    SafeParts(s, jobId);
    var run := s.jobs[jobId];
    var status := if JobMay(run.status, Failing) then Failing else run.status;
    var run' := run.(status := status, tasks := MarkFailed(run.tasks, taskId));
    var s' := s.(jobs := s.jobs[jobId := run']);
    StopOrderIs(run.deployed, taskId);
    StatusesKeepSafe(s, s', jobId, run');
    ContinueKeepsSafe(s', h, jobId, StopOrder(run.deployed, taskId), Purpose(Some(taskId), false));
  }

  lemma DeployNextKeepsSafe(s: State, h: nat, jobId: string, k: nat)
    requires Safe(s) && jobId in s.jobs && k <= |s.jobs[jobId].deploymentOrder|
    ensures Listed(s.jobs[jobId]) && Safe(DeployNext(s, h, jobId, k))
  {
    hide Safe, Fail, Shaped;
    SafeParts(s, jobId);
    var run := s.jobs[jobId];
    if k == |run.deploymentOrder| {
      StatusesKeepSafe(s, DeployNext(s, h, jobId, k), jobId, DeployNext(s, h, jobId, k).jobs[jobId]);
    } else {
      var id := run.deploymentOrder[k];
      if !TaskMay(run.tasks[id].status, TaskStatus.Deploying) {
        FailKeepsSafe(s, h, jobId, id);
      } else {
        var run' := run.(tasks := run.tasks[id := Move(run.tasks[id], TaskStatus.Deploying)]);
        var s' := s.(jobs := s.jobs[jobId := run']);
        if !Reachable(s.ws, run.tasks[id]) {
          StatusesKeepSafe(s, s', jobId, run');
          FailKeepsSafe(s', h, jobId, id);
        } else {
          StatusesKeepSafe(s, DeployNext(s, h, jobId, k), jobId, run');
        }
      }
    }
  }

  lemma SubmittedJobsOk(jobs: Runs, held: Holdings, jobId: string, run: Run, held': Holdings)
    requires JobsOk(jobs, held) && jobId !in jobs && JobOk(jobId, run, held')
    requires held' == held || held' == held + PlacesOf(run.tasks)
    ensures JobsOk(jobs[jobId := run], held')
  {
    hide BelongsTo;
    var jobs' := jobs[jobId := run];
    forall j | j in jobs ensures JobOk(j, jobs[j], held') {
      assert JobOk(j, jobs[j], held);
      OthersAgreeToo(jobId, run, j, jobs[j], held, held');
    }
    forall id | id in held' ensures exists j :: j in jobs' && id in jobs'[j].tasks {
      if id in held {
        var j :| j in jobs && id in jobs[j].tasks;
        assert j in jobs' && id in jobs'[j].tasks;
      } else {
        assert jobId in jobs' && id in jobs'[jobId].tasks;
      }
    }
  }

  lemma SubmittedKeepsSafe(s: State, jobId: string, run: Run, ws': Workers, held': Holdings)
    requires Safe(s) && jobId !in s.jobs && ProperJob(jobId, run.ids, run.deploymentOrder) && run.deployed == []
    requires run.tasks.Keys == NewTasks(run.ids).Keys && JobOk(jobId, run, held')
    requires held' == s.held || held' == s.held + PlacesOf(run.tasks)
    requires Ledger(ws', held')
    ensures Safe(State(ws', s.jobs[jobId := run], s.pending, held'))
  {
    hide Ledger, BelongsTo, JobsOk, JobOk;
    SubmittedJobsOk(s.jobs, s.held, jobId, run, held');
    var s' := State(ws', s.jobs[jobId := run], s.pending, held');
    forall h | h in s.pending ensures PendingOk(s', s.pending[h]) {
      assert PendingOk(s, s.pending[h]);
    }
  }

  lemma OthersAgreeToo(jobId: string, run: Run, other: string, otherRun: Run, held: Holdings, held': Holdings)
    requires jobId != other && Owned(other, otherRun.tasks) && Agrees(held, otherRun.tasks, otherRun.ids)
    requires forall id :: id in run.tasks ==> BelongsTo(jobId, id)
    requires held' == held || held' == held + PlacesOf(run.tasks)
    ensures Agrees(held', otherRun.tasks, otherRun.ids)
  {
    hide BelongsTo;
    forall i | 0 <= i < |otherRun.ids| ensures otherRun.ids[i] !in run.tasks {
      if otherRun.ids[i] in run.tasks {
        JobsShareNoTask(jobId, other, otherRun.ids[i]);
      }
    }
  }

  /** A new job's tasks are nobody's yet. */
  lemma NewJobHoldsNothing(s: State, jobId: string, ids: seq<string>)
    requires Safe(s) && jobId !in s.jobs && forall id :: id in ids ==> BelongsTo(jobId, id)
    ensures forall id :: id in ids ==> id !in s.held
  {
    hide Ledger, BelongsTo;
    forall id | id in ids ensures id !in s.held {
      if id in s.held {
        var j :| j in s.jobs && id in s.jobs[j].tasks;
        assert JobOk(j, s.jobs[j], s.held);
        JobsShareNoTask(j, jobId, id);
      }
    }
  }

  lemma RejectedKeepsSafe(s: State, jobId: string, ids: seq<string>, order: seq<string>)
    requires Safe(s) && jobId !in s.jobs && ProperJob(jobId, ids, order)
    ensures Safe(s.(jobs := s.jobs[jobId := Run(Rejected, ids, order, NewTasks(ids), [])]))
  {
    hide Safe, Ledger, BelongsTo;
    NewJobHoldsNothing(s, jobId, ids);
    var run := Run(Rejected, ids, order, NewTasks(ids), []);
    SafeLedger(s);
    SubmittedKeepsSafe(s, jobId, run, s.ws, s.held);
  }

  lemma SafeLedger(s: State)
    requires Safe(s)
    ensures Ledger(s.ws, s.held)
  {
  }

  lemma StartedIsSafe(s: State, jobId: string, ids: seq<string>, order: seq<string>, on: seq<string>,
                      ws': Workers, scheduled: Tasks)
    requires Safe(s) && jobId !in s.jobs && ProperJob(jobId, ids, order)
    requires Placed(s.ws, ws', NewTasks(ids), scheduled, NewTasks(ids).Keys, on)
    ensures Safe(Started(s, jobId, ids, order, ws', scheduled))
  {
    hide Safe, Ledger, BelongsTo, HaveOwnSlots, OnlyTaken;
    NewJobHoldsNothing(s, jobId, ids);
    SafeLedger(s);
    PlacedKeepsLedger(s.ws, ws', NewTasks(ids), scheduled, NewTasks(ids).Keys, on, s.held);
    PlacesAgree(s.held, scheduled, ids);
    var run := Run(JobStatus.Deploying, ids, order, scheduled, []);
    SubmittedKeepsSafe(s, jobId, run, ws', s.held + PlacesOf(scheduled));
  }

  lemma PlacesAgree(held: Holdings, tasks: Tasks, ids: seq<string>)
    requires PlacesOf(tasks).Keys == tasks.Keys && forall id :: id in ids ==> id in tasks && id !in held
    ensures Agrees(held + PlacesOf(tasks), tasks, ids)
  {
    forall i | 0 <= i < |ids| ensures ids[i] in PlacesOf(tasks) {
      assert ids[i] in PlacesOf(tasks).Keys;
    }
  }

  lemma RunningIsStatus(run: Run, run': Run, id: string)
    requires Listed(run) && id in run.tasks && TaskMay(run.tasks[id].status, TaskStatus.Running)
    requires run' == run.(tasks := run.tasks[id := Move(run.tasks[id], TaskStatus.Running)], deployed := run.deployed + [id])
    ensures OnlyStatuses(run, run')
  {
  }

  lemma DeploySucceededKeepsSafe(s: State, h: nat)
    requires Safe(s) && h in s.pending && s.pending[h].DeployCall?
    ensures Shaped(s) && PendingOk(s, s.pending[h])
    ensures Safe(DeploySucceeded(s, h, s.pending[h].jobId, s.pending[h].k))
  {
    hide Ledger, JobsOk, Fail, DeployNext;
    var jobId, k := s.pending[h].jobId, s.pending[h].k;
    var run := s.jobs[jobId];
    var id := run.deploymentOrder[k];
    assert PendingOk(s, s.pending[h]) && Listed(run);
    hide Safe, PendingOk, OnlyStatuses, Shaped;
    if !TaskMay(run.tasks[id].status, TaskStatus.Running) {
      FailKeepsSafe(s, h, jobId, id);
    } else {
      var run' := run.(tasks := run.tasks[id := Move(run.tasks[id], TaskStatus.Running)], deployed := run.deployed + [id]);
      var s' := s.(jobs := s.jobs[jobId := run']);
      RunningIsStatus(run, run', id);
      StatusesKeepSafe(s, s', jobId, run');
      DeployNextKeepsSafe(s', h, jobId, k + 1);
    }
  }

  lemma StopAnsweredKeepsSafe(s: State, h: nat, succeeds: bool)
    requires Safe(s) && h in s.pending && s.pending[h].StopCall?
    ensures Shaped(s) && PendingOk(s, s.pending[h]) && Safe(StopAnswered(s, h, s.pending[h], succeeds))
  {
    hide Ledger, JobsOk, Continue;
    var p := s.pending[h];
    var run := s.jobs[p.jobId];
    var t := run.tasks[p.current];
    assert PendingOk(s, p) && Listed(run);
    var to := if succeeds && TaskMay(t.status, TaskStatus.Cancelled) then TaskStatus.Cancelled else TaskStatus.Failed;
    if TaskMay(t.status, to) {
      var run' := run.(tasks := run.tasks[p.current := Move(t, to)]);
      var s' := s.(jobs := s.jobs[p.jobId := run']);
      hide Safe;
      StatusesKeepSafe(s, s', p.jobId, run');
      ContinueKeepsSafe(s', h, p.jobId, p.rest,
                        if to == TaskStatus.Cancelled then p.purpose else p.purpose.(failures := true));
    } else {
      StatusesKeepSafe(s, s.(pending := s.pending - {h}), p.jobId, run);
      assert s.jobs[p.jobId := run] == s.jobs;
    }
  }

  lemma StepKeepsSafe(s: State, e: Event)
    requires Safe(s) && Enabled(s, e)
    ensures Safe(Step(s, e))
  {
    hide Ledger, JobsOk, PendingOk, ProperJob, Placed, RegisterIn, Fail, Continue, DeployNext, DeploySucceeded,
      StopAnswered, Listed;
    match e {
      case Register(id, controlAddress, dataHost, dataPort, totalSlots, at) =>
        RegisterKeepsLedger(s.ws, s.held, id, controlAddress, dataHost, dataPort, totalSlots, at);
        WorkersOnly(s, Step(s, e).ws);
      case Heartbeat(id, at) =>
        HeartbeatKeepsLedger(s.ws, s.held, id, at);
        WorkersOnly(s, Step(s, e).ws);
      case SubmitRejected(jobId, ids, order) => RejectedKeepsSafe(s, jobId, ids, order);
      case SubmitBegins(h, jobId, ids, order, on, ws', scheduled) =>
        StartedIsSafe(s, jobId, ids, order, on, ws', scheduled);
        DeployNextKeepsSafe(Started(s, jobId, ids, order, ws', scheduled), h, jobId, 0);
      case DeployReturns(h, succeeds) =>
        DeploySucceededKeepsSafe(s, h);
        if !succeeds {
          DeployFailedKeepsSafe(s, h);
        }
      case CancelBegins(h, jobId) => CancelKeepsSafe(s, h, jobId);
      case FailureBegins(h, jobId, taskId) => FailKeepsSafe(s, h, jobId, taskId);
      case StopReturns(h, succeeds) => StopAnsweredKeepsSafe(s, h, succeeds);
      case TaskReported(jobId, taskId, status) => ReportKeepsSafe(s, jobId, taskId, status);
    }
  }

  lemma WorkersOnly(s: State, ws': Workers)
    requires Safe(s) && Ledger(ws', s.held)
    ensures Safe(s.(ws := ws'))
  {
    hide Ledger, JobsOk;
    forall h | h in s.pending ensures PendingOk(s.(ws := ws'), s.pending[h]) {
      assert PendingOk(s, s.pending[h]);
    }
  }

  lemma DeployFailedKeepsSafe(s: State, h: nat)
    requires Safe(s) && h in s.pending && s.pending[h].DeployCall?
    ensures PendingOk(s, s.pending[h]) && Listed(s.jobs[s.pending[h].jobId])
    ensures Safe(Fail(s, h, s.pending[h].jobId, s.jobs[s.pending[h].jobId].deploymentOrder[s.pending[h].k]))
  {
    hide Ledger, JobsOk, Fail;
    var p := s.pending[h];
    assert PendingOk(s, p) && Listed(s.jobs[p.jobId]);
    FailKeepsSafe(s, h, p.jobId, s.jobs[p.jobId].deploymentOrder[p.k]);
  }

  lemma CancelKeepsSafe(s: State, h: nat, jobId: string)
    requires Safe(s) && jobId in s.jobs
    ensures Shaped(s) && (h !in s.pending ==> Enabled(s, CancelBegins(h, jobId)) && Safe(Step(s, CancelBegins(h, jobId))))
  {
    hide Safe, Continue, Reversed, Shaped;
    SafeParts(s, jobId);
    var run := s.jobs[jobId];
    if JobMay(run.status, JobStatus.Cancelling) {
      ReversedMembers(run.deployed);
      var run' := run.(status := JobStatus.Cancelling);
      var s' := s.(jobs := s.jobs[jobId := run']);
      StatusesKeepSafe(s, s', jobId, run');
      ContinueKeepsSafe(s', h, jobId, Reversed(run.deployed), Purpose(None, false));
    }
  }

  lemma ReportKeepsSafe(s: State, jobId: string, taskId: string, status: TaskStatus)
    requires Safe(s) && Enabled(s, TaskReported(jobId, taskId, status))
    ensures Safe(Step(s, TaskReported(jobId, taskId, status)))
  {
    hide Safe, Shaped;
    SafeParts(s, jobId);
    var s' := Step(s, TaskReported(jobId, taskId, status));
    StatusesKeepSafe(s, s', jobId, s'.jobs[jobId]);
  }

  const INITIAL := State(map[], map[], map[], map[])

  lemma InitialIsSafe()
    ensures Safe(INITIAL)
  {
  }

  /** The state after some events from an empty manager; None if some event was not possible. Always safe. */
  ghost function After(events: seq<Event>): (r: Option<State>)
    ensures r.Some? ==> Safe(r.value)
  {
    if events == [] then InitialIsSafe(); Some(INITIAL)
    else
      match After(events[..|events| - 1])
      case None => None
      case Some(s) =>
        var e := events[|events| - 1];
        if Enabled(s, e) then StepKeepsSafe(s, e); Some(Step(s, e)) else None
  }

  /** Where a task of a job is assigned, if anywhere. */
  ghost function PlaceOf(s: State, jobId: string, taskId: string): Option<Place> {
    if jobId in s.jobs && taskId in s.jobs[jobId].tasks then s.jobs[jobId].tasks[taskId].place else None
  }

  lemma AssignedIsHeld(s: State, jobId: string, taskId: string)
    requires Safe(s) && PlaceOf(s, jobId, taskId).Some?
    ensures var p := PlaceOf(s, jobId, taskId).value; IsPlace(s.ws, p) && At(s.ws, p) == Some(taskId)
    ensures BelongsTo(jobId, taskId)
  {
    hide BelongsTo, NoStrays;
    var run := s.jobs[jobId];
    assert JobOk(jobId, run, s.held) && Listed(run);
    var i :| 0 <= i < |run.ids| && run.ids[i] == taskId;
  }

  lemma NamedIsAssigned(s: State, p: Place) returns (jobId: string)
    requires Safe(s) && IsPlace(s.ws, p) && At(s.ws, p).Some?
    ensures PlaceOf(s, jobId, At(s.ws, p).value) == Some(p)
  {
    hide BelongsTo;
    var id := At(s.ws, p).value;
    jobId :| jobId in s.jobs && id in s.jobs[jobId].tasks;
    var run := s.jobs[jobId];
    assert JobOk(jobId, run, s.held) && Listed(run);
    var i :| 0 <= i < |run.ids| && run.ids[i] == id;
  }

  /**
   Slot safety. However the handlers interleave and whatever the Workers answer: a task is assigned a slot of a
   Worker exactly if that slot names the task, and the Worker is registered; no two tasks have the same slot;
   and a job that is REJECTED, CANCELLED or FAILED has none.
   */
  lemma SlotsAreSafe(events: seq<Event>)
    requires After(events).Some?
    ensures var s := After(events).value;
            && (forall j, id :: PlaceOf(s, j, id).Some? ==>
                  IsPlace(s.ws, PlaceOf(s, j, id).value) && At(s.ws, PlaceOf(s, j, id).value) == Some(id))
            && (forall p: Place :: IsPlace(s.ws, p) && At(s.ws, p).Some? ==>
                  exists j :: PlaceOf(s, j, At(s.ws, p).value) == Some(p))
            && (forall j, id, k, other :: PlaceOf(s, j, id).Some? && PlaceOf(s, j, id) == PlaceOf(s, k, other) ==>
                  j == k && id == other)
            && (forall j, id :: j in s.jobs && TerminalJob(s.jobs[j].status) ==> PlaceOf(s, j, id) == None)
  {
    hide After;
    var s := After(events).value;
    hide Ledger, Shaped, NoStrays, Agrees, BelongsTo, Owned;
    forall j, id | PlaceOf(s, j, id).Some?
      ensures IsPlace(s.ws, PlaceOf(s, j, id).value) && At(s.ws, PlaceOf(s, j, id).value) == Some(id) && BelongsTo(j, id)
    {
      AssignedIsHeld(s, j, id);
    }
    forall p: Place | IsPlace(s.ws, p) && At(s.ws, p).Some?
      ensures exists j :: PlaceOf(s, j, At(s.ws, p).value) == Some(p)
    {
      var j := NamedIsAssigned(s, p);
    }
    forall j, id, k, other | PlaceOf(s, j, id).Some? && PlaceOf(s, j, id) == PlaceOf(s, k, other)
      ensures j == k && id == other
    {
      JobsShareNoTask(j, k, id);
    }
    forall j, id | j in s.jobs && TerminalJob(s.jobs[j].status) ensures PlaceOf(s, j, id) == None {
      assert JobOk(j, s.jobs[j], s.held);
    }
  }

  lemma Extend(events: seq<Event>, s: State, e: Event)
    requires After(events) == Some(s) && Enabled(s, e)
    ensures After(events + [e]) == Some(Step(s, e))
  {
    assert (events + [e])[..|events|] == events;
  }
}
