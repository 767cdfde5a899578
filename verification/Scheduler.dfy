/** Worker registration and the assignment of slots (control/scheduler.py). */
module Scheduler {
  import opened Wrappers
  import opened Sequences
  import opened Models
  import opened Planning
  import Text

  // ----- the registry -----

  datatype RegistryError = InvalidArgument | SlotCountInUse | WorkerNotFound

  predicate ValidRegistration(id: string, controlAddress: string, dataHost: string, dataPort: int, totalSlots: int) {
    id != "" && controlAddress != "" && dataHost != "" && 1 <= dataPort <= 65535 && totalSlots >= 1
  }

  function RegisterIn(ws: Workers, id: string, controlAddress: string, dataHost: string, dataPort: int,
                      totalSlots: int, at: int): Result<Workers, RegistryError>
  {
    if !ValidRegistration(id, controlAddress, dataHost, dataPort, totalSlots) then Err(InvalidArgument)
    else if id in ws && UsedSlots(ws[id].slots) > 0 then
      if totalSlots != |ws[id].slots| then Err(SlotCountInUse)
      else Ok(ws[id := Worker(controlAddress, dataHost, dataPort, ws[id].slots, at)])
    else
      Ok(ws[id := Worker(controlAddress, dataHost, dataPort, seq(totalSlots, _ => None), at)])
  }

  /** What registration comes to, case by case; the table is otherwise as before. */
  lemma RegistrationIs(ws: Workers, id: string, controlAddress: string, dataHost: string, dataPort: int, totalSlots: int, at: int)
    ensures var r := RegisterIn(ws, id, controlAddress, dataHost, dataPort, totalSlots, at);
            var inUse := id in ws && exists i :: 0 <= i < |ws[id].slots| && ws[id].slots[i].Some?;
            && (r.Err? && r.error == InvalidArgument <==>
                  id == "" || controlAddress == "" || dataHost == "" || dataPort < 1 || dataPort > 65535 || totalSlots < 1)
            && (r.Err? && r.error != InvalidArgument ==> r.error == SlotCountInUse && inUse && totalSlots != |ws[id].slots|)
            && (r.Ok? ==> Registered(ws, r.value, id, controlAddress, dataHost, dataPort, totalSlots, at, inUse))
  {
    if id in ws {
      UnusedMeansFree(ws[id].slots);
    }
  }

  /**
   The Worker has the given addresses and heartbeat, and as many slots as given; these are as they were if some was in
   use, and all free otherwise.
   */
  ghost predicate Registered(ws: Workers, ws': Workers, id: string, controlAddress: string, dataHost: string, dataPort: int,
                             totalSlots: int, at: int, inUse: bool)
    requires inUse ==> id in ws
  {
    && ws'.Keys == ws.Keys + {id} && (forall x :: x in ws && x != id ==> ws'[x] == ws[x])
    && ws'[id].controlAddress == controlAddress && ws'[id].dataHost == dataHost && ws'[id].dataPort == dataPort
    && ws'[id].lastHeartbeat == at && |ws'[id].slots| == totalSlots
    && if inUse then ws'[id].slots == ws[id].slots else forall i :: 0 <= i < totalSlots ==> ws'[id].slots[i].None?
  }

  /** Re-registration disturbs nobody's slot, and never removes a Worker. */
  lemma RegisterKeepsLedger(ws: Workers, held: Holdings, id: string, controlAddress: string, dataHost: string,
                            dataPort: int, totalSlots: int, at: int)
    requires Ledger(ws, held) && RegisterIn(ws, id, controlAddress, dataHost, dataPort, totalSlots, at).Ok?
    ensures var ws' := RegisterIn(ws, id, controlAddress, dataHost, dataPort, totalSlots, at).value;
            Ledger(ws', held) && ws'.Keys == ws.Keys + {id}
  {
    var ws' := RegisterIn(ws, id, controlAddress, dataHost, dataPort, totalSlots, at).value;
    if id in ws {
      UnusedMeansFree(ws[id].slots);
    }
    forall p: Place | IsPlace(ws', p) && At(ws', p).Some?
      ensures At(ws', p).value in held && held[At(ws', p).value] == p
    {
      assert IsPlace(ws, p) && At(ws, p) == At(ws', p);
    }
    forall t | t in held ensures IsPlace(ws', held[t]) && At(ws', held[t]) == Some(t) {
      assert IsPlace(ws, held[t]) && At(ws, held[t]) == Some(t);
    }
  }

  class WorkerRegistry {
    const heartbeatTimeout: int
    var workers: Workers

    constructor (heartbeatTimeout: int)
      requires heartbeatTimeout > 0
      ensures this.heartbeatTimeout == heartbeatTimeout && workers == map[]
    {
      this.heartbeatTimeout := heartbeatTimeout;
      workers := map[];
    }

    method Register(id: string, controlAddress: string, dataHost: string, dataPort: int, totalSlots: int, at: int)
      returns (error: Option<RegistryError>)
      modifies this
      ensures match RegisterIn(old(workers), id, controlAddress, dataHost, dataPort, totalSlots, at)
              case Ok(ws) => error == None && workers == ws
              case Err(e) => error == Some(e) && workers == old(workers)
    {
      if !ValidRegistration(id, controlAddress, dataHost, dataPort, totalSlots) {
        return Some(InvalidArgument);
      }
      if id in workers {
        var existing := workers[id];
        if UsedSlots(existing.slots) > 0 {
          if totalSlots != |existing.slots| {
            return Some(SlotCountInUse);
          }
          workers := workers[id := existing.(controlAddress := controlAddress, dataHost := dataHost,
                                             dataPort := dataPort, lastHeartbeat := at)];
          return None;
        }
      }
      workers := workers[id := Worker(controlAddress, dataHost, dataPort, seq(totalSlots, _ => None), at)];
      return None;
    }

    method Heartbeat(id: string, at: int) returns (error: Option<RegistryError>)
      modifies this
      ensures id in old(workers) ==>
                error == None && workers == old(workers)[id := old(workers)[id].(lastHeartbeat := at)]
      ensures id !in old(workers) ==> error == Some(WorkerNotFound) && workers == old(workers)
    {
      if id !in workers {
        return Some(WorkerNotFound);
      }
      workers := workers[id := workers[id].(lastHeartbeat := at)];
      return None;
    }

    /** The Workers that have not timed out, by id. */
    method Healthy(now: int) returns (ids: seq<string>)
      ensures ids == HealthyIds(workers, now, heartbeatTimeout)
    {
      hide Text.Ascending, Text.Less;
      var sorted := Text.Sorted(workers.Keys);
      ids := [];
      for k := 0 to |sorted|
        invariant ids == Filter(sorted[..k], HealthyAt(workers, now, heartbeatTimeout))
      {
        FilterAppend(sorted[..k], sorted[k], HealthyAt(workers, now, heartbeatTimeout));
        assert sorted[..k + 1] == sorted[..k] + [sorted[k]];
        assert sorted[k] in sorted;
        if workers[sorted[k]].IsHealthy(now, heartbeatTimeout) {
          ids := ids + [sorted[k]];
        }
      }
      assert sorted[..|sorted|] == sorted;
    }
  }

  function HealthyAt(ws: Workers, now: int, timeout: int): string -> bool {
    id => id in ws && ws[id].IsHealthy(now, timeout)
  }

  function HealthyIds(ws: Workers, now: int, timeout: int): seq<string> {
    Filter(Text.Sorted(ws.Keys), HealthyAt(ws, now, timeout))
  }

  lemma {:induction false} FilterKeepsOrder(s: seq<string>, keep: string -> bool)
    requires Text.Ascending(s)
    ensures Text.Ascending(Filter(s, keep))
    ensures forall x :: x in Filter(s, keep) <==> x in s && keep(x)
  {
    if s != [] {
      var init, last := s[..|s| - 1], s[|s| - 1];
      assert s == init + [last];
      FilterKeepsOrder(init, keep);
      var kept := Filter(init, keep);
      forall i | 0 <= i < |kept| ensures Text.Less(kept[i], last) {
        assert kept[i] in init;
      }
    }
  }

  /** The healthy Workers, each once and in order of their ids. */
  lemma HealthyIdsAre(ws: Workers, now: int, timeout: int)
    ensures Text.Ascending(HealthyIds(ws, now, timeout)) && NoDuplicates(HealthyIds(ws, now, timeout))
    ensures forall id :: id in HealthyIds(ws, now, timeout) <==> id in ws && now - ws[id].lastHeartbeat <= timeout
  {
    FilterKeepsOrder(Text.Sorted(ws.Keys), HealthyAt(ws, now, timeout));
    Text.AscendingIsDistinct(HealthyIds(ws, now, timeout));
  }

  // ----- placing and releasing tasks -----

  type Tasks = map<string, TaskInstance>

  datatype ScheduleError = InsufficientSlots(required: nat, available: int) | NotCreated

  /** The registry's Workers that have a free slot, with their loads. */
  function Considered(ws: Workers, healthy: seq<string>): (caps: seq<Capacity>)
  {
    if healthy == [] then []
    else
      var id := healthy[|healthy| - 1];
      Considered(ws, healthy[..|healthy| - 1])
      + (if id in ws && AvailableSlots(ws[id].slots) > 0 then [Capacity(id, UsedSlots(ws[id].slots), |ws[id].slots|)] else [])
  }

  function SlotsOn(ws: Workers, healthy: seq<string>): int
  {
    if healthy == [] then 0
    else
      var id := healthy[|healthy| - 1];
      SlotsOn(ws, healthy[..|healthy| - 1]) + (if id in ws then AvailableSlots(ws[id].slots) else 0)
  }

  /** The free slots of some Workers. */
  ghost function FreePlaces(ws: Workers, on: seq<string>): set<Place> {
    set w, i: nat | w in on && w in ws && i < |ws[w].slots| && ws[w].slots[i].None? :: (w, i)
  }

  ghost function FreeOf(w: string, slots: seq<Option<string>>): set<Place> {
    set i: nat | i < |slots| && slots[i].None? :: (w, i)
  }

  lemma {:induction false} CountsFree(w: string, slots: seq<Option<string>>)
    ensures |FreeOf(w, slots)| == AvailableSlots(slots)
  {
    if slots != [] {
      var init := slots[..|slots| - 1];
      CountsFree(w, init);
      if slots[|slots| - 1].None? {
        assert FreeOf(w, slots) == FreeOf(w, init) + {(w, |init|)};
      } else {
        assert FreeOf(w, slots) == FreeOf(w, init);
      }
    }
  }

  /** The number that is compared with the job's tasks is that of the free slots of the healthy Workers. */
  lemma {:induction false} SlotsAreFreePlaces(ws: Workers, on: seq<string>)
    requires NoDuplicates(on)
    ensures SlotsOn(ws, on) == |FreePlaces(ws, on)|
  {
    if on != [] {
      var init, id := on[..|on| - 1], on[|on| - 1];
      assert on == init + [id] && id !in init;
      SlotsAreFreePlaces(ws, init);
      if id in ws {
        CountsFree(id, ws[id].slots);
        assert FreePlaces(ws, on) == FreePlaces(ws, init) + FreeOf(id, ws[id].slots);
        assert FreePlaces(ws, init) !! FreeOf(id, ws[id].slots);
      } else {
        assert FreePlaces(ws, on) == FreePlaces(ws, init);
      }
    }
  }

  ghost predicate Describes(ws: Workers, caps: seq<Capacity>) {
    forall w :: 0 <= w < |caps| ==>
      && caps[w].id in ws
      && caps[w].used == UsedSlots(ws[caps[w].id].slots) && caps[w].total == |ws[caps[w].id].slots|
  }

  lemma {:induction false} ConsideredTotal(ws: Workers, healthy: seq<string>)
    ensures TotalFree(Considered(ws, healthy)) == SlotsOn(ws, healthy)
  {
    if healthy != [] {
      var init, id := healthy[..|healthy| - 1], healthy[|healthy| - 1];
      var caps := Considered(ws, init);
      ConsideredTotal(ws, init);
      if id in ws && AvailableSlots(ws[id].slots) > 0 {
        assert Considered(ws, healthy)[..|caps|] == caps;
      } else {
        assert Considered(ws, healthy) == caps;
      }
    }
  }

  lemma {:induction false} ConsideredAre(ws: Workers, healthy: seq<string>)
    requires NoDuplicates(healthy) && forall i :: 0 <= i < |healthy| ==> healthy[i] in ws
    ensures var caps := Considered(ws, healthy);
            && Usable(caps) && Describes(ws, caps) && forall w :: 0 <= w < |caps| ==> caps[w].id in healthy
  {
    if healthy != [] {
      var init, id := healthy[..|healthy| - 1], healthy[|healthy| - 1];
      ConsideredAre(ws, init);
      assert healthy == init + [id];
      assert forall w :: 0 <= w < |Considered(ws, init)| ==> Considered(ws, init)[w].id in init;
    }
  }

  /**
   The tasks in `done` have been given one slot each, on Workers among `on`, all of them free before; every
   other slot and every other task is as it was.
   */
  ghost predicate Placed(ws: Workers, ws': Workers, tasks: Tasks, tasks': Tasks, done: set<string>, on: seq<string>) {
    && OnlySlotsDiffer(ws, ws') && tasks'.Keys == tasks.Keys && done <= tasks.Keys
    && HaveOwnSlots(ws, ws', tasks', done, on)
    && (forall id :: id in tasks && id !in done ==> tasks'[id] == tasks[id])
    && OnlyTaken(ws, ws', tasks', done)
  }

  ghost predicate HaveOwnSlots(ws: Workers, ws': Workers, tasks': Tasks, done: set<string>, on: seq<string>)
    requires SameShape(ws, ws')
  {
    forall id :: id in done ==>
      && id in tasks' && tasks'[id].status == Scheduled && tasks'[id].place.Some?
      && var p := tasks'[id].place.value;
         IsPlace(ws, p) && p.0 in on && At(ws, p).None? && At(ws', p) == Some(id)
  }

  /** A slot that changed is one that was free and now names the task that holds it. */
  ghost predicate OnlyTaken(ws: Workers, ws': Workers, tasks': Tasks, done: set<string>)
    requires SameShape(ws, ws')
  {
    forall p: Place :: IsPlace(ws, p) && At(ws', p) != At(ws, p) ==>
      && At(ws, p).None? && At(ws', p).Some? && At(ws', p).value in done
      && At(ws', p).value in tasks' && tasks'[At(ws', p).value].place == Some(p)
  }

  function ReserveIn(ws: Workers, w: string, i: nat, taskId: string): Workers
    requires w in ws && i < |ws[w].slots|
  {
    ws[w := ws[w].(slots := ws[w].slots[i := Some(taskId)])]
  }

  lemma ReserveIs(ws: Workers, w: string, i: nat, taskId: string)
    requires w in ws && i < |ws[w].slots|
    ensures var later := ReserveIn(ws, w, i, taskId);
            && OnlySlotsDiffer(ws, later)
            && forall p: Place :: IsPlace(ws, p) ==> At(later, p) == if p == (w, i) then Some(taskId) else At(ws, p)
  {
  }

  /** One more task gets a slot that is still free. */
  lemma ReserveKeepsPlaced(ws: Workers, ws': Workers, tasks: Tasks, tasks': Tasks, done: set<string>, on: seq<string>,
                           w: string, i: nat, id: string)
    requires Placed(ws, ws', tasks, tasks', done, on) && id in tasks && id !in done
    requires w in ws' && w in on && i < |ws'[w].slots| && At(ws', (w, i)).None?
    ensures Placed(ws, ReserveIn(ws', w, i, id), tasks, tasks'[id := TaskInstance(Scheduled, Some((w, i)))],
                   done + {id}, on)
  {
    hide At, ReserveIn;
    ReserveIs(ws', w, i, id);
    var p: Place := (w, i);
    assert IsPlace(ws', p) && IsPlace(ws, p);
    TakenBefore(ws, ws', tasks', done, p);
  }

  lemma TakenBefore(ws: Workers, ws': Workers, tasks': Tasks, done: set<string>, p: Place)
    requires SameShape(ws, ws') && OnlyTaken(ws, ws', tasks', done) && IsPlace(ws, p) && At(ws', p).None?
    ensures At(ws, p).None?
  {
  }

  /** The slots that some tasks hold. */
  function PlacesOf(tasks: Tasks): Holdings {
    map id | id in tasks && tasks[id].place.Some? :: tasks[id].place.value
  }

  function Without(held: Holdings, ids: seq<string>): Holdings {
    map id | id in held && id !in ids :: held[id]
  }

  function Cleared(tasks: Tasks, ids: seq<string>): Tasks {
    map id | id in tasks :: if id in ids then tasks[id].(place := None) else tasks[id]
  }

  /** These tasks hold no slot, and say so. */
  ghost predicate HoldNothing(held: Holdings, tasks: Tasks) {
    forall id :: id in tasks ==> tasks[id].place.None? && id !in held
  }

  /** The holdings agree with what these tasks say of themselves. */
  ghost predicate Agrees(held: Holdings, tasks: Tasks, ids: seq<string>) {
    forall i :: 0 <= i < |ids| ==>
      && ids[i] in tasks
      && (tasks[ids[i]].place.Some? <==> ids[i] in held)
      && (tasks[ids[i]].place.Some? ==> held[ids[i]] == tasks[ids[i]].place.value)
  }

  function ReleaseIn(ws: Workers, w: string, taskId: string): Workers
    requires w in ws
  {
    ws[w := ws[w].(slots := Release(ws[w].slots, taskId))]
  }

  lemma ReleaseOneIs(ws: Workers, held: Holdings, id: string)
    requires Ledger(ws, held) && id in held
    ensures held[id].0 in ws
    ensures var later := ReleaseIn(ws, held[id].0, id);
            && OnlySlotsDiffer(ws, later)
            && forall p: Place :: IsPlace(ws, p) ==> At(later, p) == if p == held[id] then None else At(ws, p)
  {
    var q := held[id];
    assert IsPlace(ws, q) && At(ws, q) == Some(id);
    forall i | 0 <= i < |ws[q.0].slots| && ws[q.0].slots[i] == Some(id) ensures i == q.1 {
      var p: Place := (q.0, i);
      assert IsPlace(ws, p) && At(ws, p) == Some(id);
    }
  }

  /** Releasing a task takes away its own slot and no other. */
  lemma ReleaseKeepsLedger(ws: Workers, held: Holdings, id: string)
    requires Ledger(ws, held) && id in held
    ensures held[id].0 in ws && OnlySlotsDiffer(ws, ReleaseIn(ws, held[id].0, id))
    ensures Ledger(ReleaseIn(ws, held[id].0, id), held - {id})
  {
    hide At, ReleaseIn;
    ReleaseOneIs(ws, held, id);
  }

  /** Reserving a free slot for a task that holds none. */
  lemma ReserveKeepsLedger(ws: Workers, held: Holdings, w: string, i: nat, id: string)
    requires Ledger(ws, held) && id !in held && IsPlace(ws, (w, i)) && At(ws, (w, i)).None?
    ensures Ledger(ReserveIn(ws, w, i, id), held[id := (w, i)])
  {
    hide At, ReserveIn;
    ReserveIs(ws, w, i, id);
  }

  /** A placement adds its tasks' slots to the ledger. */
  lemma PlacedKeepsLedger(ws: Workers, ws': Workers, tasks: Tasks, tasks': Tasks, done: set<string>, on: seq<string>,
                          held: Holdings)
    requires Placed(ws, ws', tasks, tasks', done, on) && Ledger(ws, held) && done !! held.Keys
    requires forall id :: id in tasks && id !in done ==> tasks[id].place.None?
    ensures Ledger(ws', held + PlacesOf(tasks'))
    ensures PlacesOf(tasks').Keys == done
  {
    hide At;
    var now := held + PlacesOf(tasks');
    forall id | id in now ensures IsPlace(ws', now[id]) && At(ws', now[id]) == Some(id) {
      if id !in done {
        assert IsPlace(ws, held[id]) && At(ws, held[id]) == Some(id);
      }
    }
    forall p: Place | IsPlace(ws', p) && At(ws', p).Some?
      ensures At(ws', p).value in now && now[At(ws', p).value] == p
    {
      assert IsPlace(ws, p);
    }
  }

  /** Where releasing some tasks stands after the first k of them. */
  ghost predicate ReleasedUpTo(before: Workers, ws: Workers, held: Holdings, tasks: Tasks, tasks': Tasks,
                               ids: seq<string>, k: nat)
    requires k <= |ids|
  {
    && OnlySlotsDiffer(before, ws) && Ledger(ws, Without(held, ids[..k]))
    && tasks' == Cleared(tasks, ids[..k])
  }

  /** Task k is assigned still: its slot is its own, and freeing it is the next step. */
  lemma ReleaseOneMore(before: Workers, ws: Workers, held: Holdings, tasks: Tasks, tasks': Tasks, ids: seq<string>, k: nat)
    requires k < |ids| && ReleasedUpTo(before, ws, held, tasks, tasks', ids, k) && Agrees(held, tasks, ids)
    ensures ids[k] in tasks'
    ensures match tasks'[ids[k]].place
            case None => ReleasedUpTo(before, ws, held, tasks, tasks', ids, k + 1)
            case Some(p) =>
              && p.0 in ws
              && ReleasedUpTo(before, ReleaseIn(ws, p.0, ids[k]), held, tasks,
                              tasks'[ids[k] := tasks'[ids[k]].(place := None)], ids, k + 1)
  {
    hide Ledger, Release;
    var id, earlier := ids[k], Without(held, ids[..k]);
    assert ids[..k + 1] == ids[..k] + [id];
    match tasks'[id].place {
      case None =>
        assert Without(held, ids[..k + 1]) == earlier;
        assert Cleared(tasks, ids[..k + 1]) == tasks';
      case Some(p) =>
        assert id in earlier && earlier[id] == p;
        ReleaseKeepsLedger(ws, earlier, id);
        assert Without(held, ids[..k + 1]) == earlier - {id};
        assert Cleared(tasks, ids[..k + 1]) == tasks'[id := tasks'[id].(place := None)];
    }
  }

  lemma NothingReleased(ws: Workers, held: Holdings, tasks: Tasks, ids: seq<string>)
    requires Ledger(ws, held)
    ensures ReleasedUpTo(ws, ws, held, tasks, tasks, ids, 0)
  {
    assert Without(held, ids[..0]) == held;
  }

  /** The state of a release: slot tables, tasks, and whether it met a Worker that is not registered. */
  datatype Releasing = Releasing(ws: Workers, tasks: Tasks, error: Option<RegistryError>)

  /** What releasing the first k tasks in turn comes to. */
  function ReleaseFirst(ws: Workers, tasks: Tasks, ids: seq<string>, k: nat): (r: Releasing)
    requires k <= |ids| && forall i :: 0 <= i < |ids| ==> ids[i] in tasks
    ensures r.tasks.Keys == tasks.Keys
  {
    if k == 0 then Releasing(ws, tasks, None)
    else
      var r := ReleaseFirst(ws, tasks, ids, k - 1);
      var id := ids[k - 1];
      if r.error.Some? || r.tasks[id].place.None? then r
      else
        var w := r.tasks[id].place.value.0;
        if w !in r.ws then r.(error := Some(WorkerNotFound))
        else Releasing(ReleaseIn(r.ws, w, id), r.tasks[id := r.tasks[id].(place := None)], None)
  }

  lemma {:induction false} ReleaseFirstIs(ws: Workers, held: Holdings, tasks: Tasks, ids: seq<string>, k: nat)
    requires k <= |ids| && Ledger(ws, held) && Agrees(held, tasks, ids)
    requires forall i :: 0 <= i < |ids| ==> ids[i] in tasks
    ensures var r := ReleaseFirst(ws, tasks, ids, k);
            r.error == None && ReleasedUpTo(ws, r.ws, held, tasks, r.tasks, ids, k)
  {
    hide Ledger, Agrees, ReleasedUpTo, Release, ReleaseIn;
    if k == 0 {
      NothingReleased(ws, held, tasks, ids);
    } else {
      ReleaseFirstIs(ws, held, tasks, ids, k - 1);
      var r := ReleaseFirst(ws, tasks, ids, k - 1);
      ReleaseOneMore(ws, r.ws, held, tasks, r.tasks, ids, k - 1);
    }
  }

  /** The release of tasks that hold what they say they hold: it succeeds and frees their slots alone. */
  lemma ReleaseFreesAll(ws: Workers, held: Holdings, tasks: Tasks, ids: seq<string>)
    requires Ledger(ws, held) && Agrees(held, tasks, ids)
    requires forall i :: 0 <= i < |ids| ==> ids[i] in tasks
    ensures var r := ReleaseFirst(ws, tasks, ids, |ids|);
            && r.error == None && r.tasks == Cleared(tasks, ids)
            && OnlySlotsDiffer(ws, r.ws) && Ledger(r.ws, Without(held, ids))
  {
    hide Ledger, Agrees;
    ReleaseFirstIs(ws, held, tasks, ids, |ids|);
    var r := ReleaseFirst(ws, tasks, ids, |ids|);
    AllReleased(ws, r.ws, held, tasks, r.tasks, ids);
  }

  lemma {:induction false} ReleaseIsIdempotent(ws: Workers, tasks: Tasks, ids: seq<string>, k: nat)
    requires k <= |ids| && forall i :: 0 <= i < |ids| ==> ids[i] in tasks && tasks[ids[i]].place.None?
    ensures ReleaseFirst(ws, tasks, ids, k) == Releasing(ws, tasks, None)
  {
    if k > 0 {
      ReleaseIsIdempotent(ws, tasks, ids, k - 1);
    }
  }

  /** Frees the slots of some tasks and clears their assignments; a second time it changes nothing. */
  method ReleaseAll(registry: WorkerRegistry, ids: seq<string>, tasks: Tasks, ghost held: Holdings)
    returns (tasks': Tasks, error: Option<RegistryError>)
    requires forall i :: 0 <= i < |ids| ==> ids[i] in tasks
    modifies registry
    ensures Releasing(registry.workers, tasks', error) == ReleaseFirst(old(registry.workers), tasks, ids, |ids|)
    ensures Ledger(old(registry.workers), held) && Agrees(held, tasks, ids) ==>
              && error == None && tasks' == Cleared(tasks, ids)
              && OnlySlotsDiffer(old(registry.workers), registry.workers)
              && Ledger(registry.workers, Without(held, ids))
    ensures (forall i :: 0 <= i < |ids| ==> tasks[ids[i]].place.None?) ==>
              error == None && tasks' == tasks && registry.workers == old(registry.workers)
  {
    hide Ledger, Release, Agrees, Cleared, Without, OnlySlotsDiffer, ReleaseIn, SameShape;
    tasks', error := tasks, None;
    for k := 0 to |ids|
      invariant Releasing(registry.workers, tasks', None) == ReleaseFirst(old(registry.workers), tasks, ids, k)
    {
      var id := ids[k];
      if tasks'[id].place.Some? {
        var w := tasks'[id].place.value.0;
        if w !in registry.workers {
          ErrorStays(old(registry.workers), tasks, ids, k + 1, |ids|);
          error := Some(WorkerNotFound);
          break;
        }
        registry.workers := ReleaseIn(registry.workers, w, id);
        tasks' := tasks'[id := tasks'[id].(place := None)];
      }
    }
    ReleaseIs(old(registry.workers), held, tasks, ids);
  }

  lemma ReleaseIs(ws: Workers, held: Holdings, tasks: Tasks, ids: seq<string>)
    requires forall i :: 0 <= i < |ids| ==> ids[i] in tasks
    ensures var r := ReleaseFirst(ws, tasks, ids, |ids|);
            && (Ledger(ws, held) && Agrees(held, tasks, ids) ==>
                  && r.error == None && r.tasks == Cleared(tasks, ids)
                  && OnlySlotsDiffer(ws, r.ws) && Ledger(r.ws, Without(held, ids)))
            && ((forall i :: 0 <= i < |ids| ==> tasks[ids[i]].place.None?) ==> r == Releasing(ws, tasks, None))
  {
    hide Ledger, Agrees, ReleaseFirst;
    if Ledger(ws, held) && Agrees(held, tasks, ids) {
      ReleaseFreesAll(ws, held, tasks, ids);
    }
    if forall i :: 0 <= i < |ids| ==> tasks[ids[i]].place.None? {
      ReleaseIsIdempotent(ws, tasks, ids, |ids|);
    }
  }

  lemma {:induction false} ErrorStays(ws: Workers, tasks: Tasks, ids: seq<string>, k: nat, n: nat)
    requires k <= n <= |ids| && forall i :: 0 <= i < |ids| ==> ids[i] in tasks
    requires ReleaseFirst(ws, tasks, ids, k).error.Some?
    ensures ReleaseFirst(ws, tasks, ids, n) == ReleaseFirst(ws, tasks, ids, k)
  {
    if k < n {
      ErrorStays(ws, tasks, ids, k, n - 1);
    }
  }

  lemma AllReleased(before: Workers, ws: Workers, held: Holdings, tasks: Tasks, tasks': Tasks, ids: seq<string>)
    requires ReleasedUpTo(before, ws, held, tasks, tasks', ids, |ids|)
    ensures OnlySlotsDiffer(before, ws) && Ledger(ws, Without(held, ids)) && tasks' == Cleared(tasks, ids)
  {
    assert ids[..|ids|] == ids;
  }

  lemma ReleaseFreesOwnSlots(ws: Workers, held: Holdings, ws': Workers, ids: seq<string>)
    requires Ledger(ws, held) && Ledger(ws', Without(held, ids)) && SameShape(ws, ws')
    ensures forall p: Place :: IsPlace(ws, p) ==>
              At(ws', p) == if At(ws, p).Some? && At(ws, p).value in ids then None else At(ws, p)
  {
    hide At;
  }

  lemma PlacedKeepsShape(ws: Workers, ws': Workers, tasks: Tasks, tasks': Tasks, on: seq<string>)
    requires Placed(ws, ws', tasks, tasks', tasks.Keys, on)
    ensures SameShape(ws, ws')
  {
  }

  lemma LedgerSlots(ws: Workers, held: Holdings)
    requires Ledger(ws, held)
    ensures forall id :: id in held ==> IsPlace(ws, held[id]) && At(ws, held[id]) == Some(id)
  {
  }

  lemma PlacedTookFreeSlots(ws: Workers, ws': Workers, tasks: Tasks, tasks': Tasks, on: seq<string>)
    requires Placed(ws, ws', tasks, tasks', tasks.Keys, on)
    ensures forall id :: id in tasks ==>
              id in PlacesOf(tasks') && var p := PlacesOf(tasks')[id];
              IsPlace(ws, p) && At(ws, p) == None && At(ws', p) == Some(id)
  {
    hide At;
  }

  /**
   Releasing a job undoes its scheduling exactly, whatever other jobs were scheduled or released in between:
   every slot it held is free, every other slot is as it was; and once nobody else holds anything more or less
   than before, every slot table is what it was.
   */
  lemma ReleaseUndoesSchedule(ws0: Workers, held0: Holdings, ws1: Workers, tasks: Tasks, tasks': Tasks, on: seq<string>,
                              ws2: Workers, held2: Holdings, ws3: Workers, ids: seq<string>)
    requires Ledger(ws0, held0) && HoldNothing(held0, tasks)
    requires Placed(ws0, ws1, tasks, tasks', tasks.Keys, on)
    requires Ledger(ws2, held2) && SameShape(ws1, ws2) && forall id :: id in ids <==> id in tasks
    requires forall id :: id in PlacesOf(tasks') ==> id in held2 && held2[id] == PlacesOf(tasks')[id]
    requires Ledger(ws3, Without(held2, ids)) && SameShape(ws2, ws3)
    ensures forall p: Place :: IsPlace(ws0, p) ==>
              At(ws3, p) == if At(ws2, p).Some? && At(ws2, p).value in ids then None else At(ws2, p)
    ensures forall id :: id in ids ==>
              id in PlacesOf(tasks') && var p := PlacesOf(tasks')[id];
              IsPlace(ws0, p) && At(ws0, p) == None && At(ws1, p) == Some(id) && At(ws3, p) == None
    ensures Without(held2, ids) == held0 ==> forall w :: w in ws0 ==> ws3[w].slots == ws0[w].slots
  {
    hide At, Ledger, PlacesOf, Placed;
    PlacedTookFreeSlots(ws0, ws1, tasks, tasks', on);
    ReleaseFreesOwnSlots(ws2, held2, ws3, ids);
    PlacedKeepsShape(ws0, ws1, tasks, tasks', on);
    LedgerSlots(ws2, held2);
    if Without(held2, ids) == held0 {
      LedgerDetermines(ws0, ws3, held0);
    }
  }

  // ----- scheduling -----

  function Elements(s: seq<string>): set<string> {
    set x | x in s
  }

  ghost predicate AllCreated(tasks: Tasks, ids: seq<string>)
    requires forall i :: 0 <= i < |ids| ==> ids[i] in tasks
  {
    forall i :: 0 <= i < |ids| ==> tasks[ids[i]].status == Created
  }

  /** The state in which assigning a task failed: its slot had just been reserved. */
  ghost predicate FailedAt(base: Workers, ws: Workers, original: Tasks, tasks: Tasks, done: set<string>,
                           on: seq<string>, prior: Workers, p: Place, failed: string) {
    && Placed(base, prior, original, tasks, done, on)
    && IsPlace(prior, p) && At(prior, p).None? && ws == ReserveIn(prior, p.0, p.1, failed)
    && failed in original && failed !in done && original[failed].status != Created
  }

  /** Of the slots that were free, the newly taken ones are those with the lowest numbers. */
  ghost predicate FilledFromBelow(slots: seq<Option<string>>, slots': seq<Option<string>>) {
    |slots'| == |slots|
    && forall i, j :: 0 <= i < j < |slots| && slots'[i].None? && slots[j].None? ==> slots'[j].None?
  }

  /** The slots up to this one are taken. */
  ghost predicate TakenUpTo(slots: seq<Option<string>>, n: nat) {
    n < |slots| && forall i :: 0 <= i <= n ==> slots[i].Some?
  }

  /** The first tasks of a batch have slots in ascending order, with everything below taken. */
  ghost predicate Ascend(batch: seq<string>, count: nat, tasks': Tasks, slots: seq<Option<string>>)
    requires count <= |batch|
  {
    && (forall j :: 0 <= j < count ==>
          batch[j] in tasks' && tasks'[batch[j]].place.Some? && TakenUpTo(slots, tasks'[batch[j]].place.value.1))
    && (forall j, k :: 0 <= j < k < count ==> tasks'[batch[j]].place.value.1 < tasks'[batch[k]].place.value.1)
  }

  lemma TakeLowest(before: seq<Option<string>>, slots: seq<Option<string>>, batch: seq<string>, count: nat, tasks': Tasks,
                   w: string, i: nat, id: string)
    requires FilledFromBelow(before, slots) && FirstFree(slots) == Some(i)
    requires count < |batch| && NoDuplicates(batch) && Ascend(batch, count, tasks', slots)
    ensures FilledFromBelow(before, slots[i := Some(id)])
    ensures Ascend(batch, count + 1, tasks'[batch[count] := TaskInstance(Scheduled, Some((w, i)))], slots[i := Some(id)])
    ensures Ascend(batch, count, tasks', slots[i := Some(id)])
  {
    var slots' := slots[i := Some(id)];
    assert TakenUpTo(slots', i);
    forall j | 0 <= j < count ensures tasks'[batch[j]].place.value.1 < i && TakenUpTo(slots', tasks'[batch[j]].place.value.1) {
      assert TakenUpTo(slots, tasks'[batch[j]].place.value.1);
    }
  }

  lemma NothingTaken(slots: seq<Option<string>>, batch: seq<string>, tasks: Tasks)
    ensures FilledFromBelow(slots, slots) && Ascend(batch, 0, tasks, slots)
  {
  }

  /** Reserves a slot of one Worker for each task of a batch, lowest first, up to the first that may not be assigned. */
  method ReserveBatch(registry: WorkerRegistry, w: string, batch: seq<string>, tasks: Tasks,
                      ghost base: Workers, ghost original: Tasks, ghost done: set<string>, ghost on: seq<string>)
    returns (tasks': Tasks, count: nat, ghost prior: Workers, ghost p: Place)
    requires Placed(base, registry.workers, original, tasks, done, on)
    requires w in on && w in registry.workers && AvailableSlots(registry.workers[w].slots) >= |batch|
    requires NoDuplicates(batch) && forall i :: 0 <= i < |batch| ==> batch[i] in original && batch[i] !in done
    modifies registry
    ensures count <= |batch| && forall j :: 0 <= j < count ==> original[batch[j]].status == Created
    ensures registry.workers.Keys == old(registry.workers).Keys
    ensures forall x :: x in registry.workers && x != w ==> registry.workers[x] == old(registry.workers)[x]
    ensures count == |batch| ==> Placed(base, registry.workers, original, tasks', done + Elements(batch), on)
    ensures count < |batch| ==>
              original[batch[count]].status != Created &&
              FailedAt(base, registry.workers, original, tasks', done + Elements(batch[..count]), on, prior, p, batch[count])
    ensures count == |batch| ==>
              w in registry.workers && UsedSlots(registry.workers[w].slots) == UsedSlots(old(registry.workers)[w].slots) + count
    ensures tasks'.Keys == tasks.Keys && forall id :: id in tasks && id !in batch ==> tasks'[id] == tasks[id]
    ensures forall j :: 0 <= j < count ==>
              batch[j] in tasks' && tasks'[batch[j]].place.Some? && tasks'[batch[j]].place.value.0 == w
    ensures w in registry.workers && FilledFromBelow(old(registry.workers)[w].slots, registry.workers[w].slots)
    ensures Ascend(batch, count, tasks', registry.workers[w].slots)
  {
    hide Placed, At, Elements, ReserveIn, AvailableSlots, UsedSlots, NoDuplicates, PlacedOn, FilledFromBelow, Ascend,
      FirstFree;
    tasks', count, prior, p := tasks, 0, registry.workers, (w, 0);
    NonePlacedOn(batch, tasks, w);
    NothingTaken(registry.workers[w].slots, batch, tasks);
    PlacedTasks(base, registry.workers, original, tasks, done, on);
    assert done + Elements(batch[..0]) == done by { NoElements(batch); }
    while count < |batch|
      invariant count <= |batch| && forall j :: 0 <= j < count ==> original[batch[j]].status == Created
      invariant Placed(base, registry.workers, original, tasks', done + Elements(batch[..count]), on)
      invariant registry.workers.Keys == old(registry.workers).Keys
      invariant AvailableSlots(registry.workers[w].slots) >= |batch| - count
      invariant UsedSlots(registry.workers[w].slots) == UsedSlots(old(registry.workers)[w].slots) + count
      invariant forall x :: x in registry.workers && x != w ==> registry.workers[x] == old(registry.workers)[x]
      invariant PlacedOn(batch, count, tasks, tasks', w)
      invariant FilledFromBelow(old(registry.workers)[w].slots, registry.workers[w].slots)
      invariant Ascend(batch, count, tasks', registry.workers[w].slots)
    {
      var id := batch[count];
      ghost var sofar := done + Elements(batch[..count]);
      ElementsGrow(batch, count, done);
      assert id !in sofar by { NotYet(batch, count, done); }
      PlacedTasks(base, registry.workers, original, tasks', sofar, on);
      FreeIffAvailable(registry.workers[w].slots);
      var i := FirstFree(registry.workers[w].slots).value;
      prior, p := registry.workers, (w, i);
      TakeLowest(old(registry.workers)[w].slots, prior[w].slots, batch, count, tasks', w, i, id);
      ReserveChanges(prior, w, i, id);
      registry.workers := ReserveIn(registry.workers, w, i, id);
      PlacedOnMore(batch, count, tasks, tasks', w, i);
      if tasks'[id].status != Created {
        return;
      }
      ReserveKeepsPlaced(base, prior, original, tasks', sofar, on, w, i, id);
      tasks' := tasks'[id := TaskInstance(Scheduled, Some((w, i)))];
      count := count + 1;
    }
    assert batch[..|batch|] == batch;
    PlacedOnParts(batch, count, tasks, tasks', w);
  }

  /** Of some tasks the first of a batch have been placed on a Worker, and no other has changed. */
  ghost predicate PlacedOn(batch: seq<string>, count: nat, tasks: Tasks, tasks': Tasks, w: string)
    requires count <= |batch|
  {
    && tasks'.Keys == tasks.Keys && (forall id :: id in tasks && id !in batch[..count] ==> tasks'[id] == tasks[id])
    && forall j :: 0 <= j < count ==>
         batch[j] in tasks' && tasks'[batch[j]].place.Some? && tasks'[batch[j]].place.value.0 == w
  }

  lemma NonePlacedOn(batch: seq<string>, tasks: Tasks, w: string)
    ensures PlacedOn(batch, 0, tasks, tasks, w)
  {
  }

  lemma PlacedOnParts(batch: seq<string>, count: nat, tasks: Tasks, tasks': Tasks, w: string)
    requires count <= |batch| && PlacedOn(batch, count, tasks, tasks', w)
    ensures tasks'.Keys == tasks.Keys && forall id :: id in tasks && id !in batch ==> tasks'[id] == tasks[id]
    ensures forall j :: 0 <= j < count ==>
              batch[j] in tasks' && tasks'[batch[j]].place.Some? && tasks'[batch[j]].place.value.0 == w
  {
  }

  lemma PlacedOnMore(batch: seq<string>, count: nat, tasks: Tasks, tasks': Tasks, w: string, i: nat)
    requires count < |batch| && PlacedOn(batch, count, tasks, tasks', w) && batch[count] in tasks'
    ensures PlacedOn(batch, count + 1, tasks, tasks'[batch[count] := TaskInstance(Scheduled, Some((w, i)))], w)
    ensures tasks'.Keys == tasks.Keys && forall id :: id in tasks && id !in batch ==> tasks'[id] == tasks[id]
    ensures forall j :: 0 <= j < count ==>
              batch[j] in tasks' && tasks'[batch[j]].place.Some? && tasks'[batch[j]].place.value.0 == w
  {
    assert batch[..count + 1] == batch[..count] + [batch[count]];
  }


  lemma ReserveChanges(ws: Workers, w: string, i: nat, id: string)
    requires w in ws && i < |ws[w].slots| && ws[w].slots[i].None?
    ensures IsPlace(ws, (w, i)) && At(ws, (w, i)).None?
    ensures var later := ReserveIn(ws, w, i, id);
            && later.Keys == ws.Keys && (forall x :: x in ws && x != w ==> later[x] == ws[x])
            && later[w].slots == ws[w].slots[i := Some(id)]
            && AvailableSlots(later[w].slots) == AvailableSlots(ws[w].slots) - 1
            && UsedSlots(later[w].slots) == UsedSlots(ws[w].slots) + 1
  {
    ReservingUsesOne(ws[w].slots, i, id);
  }

  lemma PlacedTasks(ws: Workers, ws': Workers, tasks: Tasks, tasks': Tasks, done: set<string>, on: seq<string>)
    requires Placed(ws, ws', tasks, tasks', done, on)
    ensures tasks'.Keys == tasks.Keys && done <= tasks.Keys
    ensures forall id :: id in tasks && id !in done ==> tasks'[id] == tasks[id]
  {
  }

  lemma NoElements(batch: seq<string>)
    ensures Elements(batch[..0]) == {}
  {
  }

  lemma ElementsGrow(batch: seq<string>, k: nat, done: set<string>)
    requires k < |batch|
    ensures done + Elements(batch[..k + 1]) == done + Elements(batch[..k]) + {batch[k]}
  {
    assert batch[..k + 1] == batch[..k] + [batch[k]];
  }

  lemma NotYet(batch: seq<string>, k: nat, done: set<string>)
    requires NoDuplicates(batch) && k < |batch| && batch[k] !in done
    ensures batch[k] !in done + Elements(batch[..k])
  {
  }

  /** The tasks planned for the Workers before position w. */
  ghost function PlannedBefore(ids: seq<string>, picks: seq<nat>, w: nat): set<string>
    requires |picks| <= |ids|
  {
    set k | 0 <= k < |picks| && picks[k] < w :: ids[k]
  }

  lemma {:induction false} PlannedAre(ids: seq<string>, picks: seq<nat>, w: nat)
    requires |picks| <= |ids| && NoDuplicates(ids)
    ensures forall k :: 0 <= k < |picks| && picks[k] == w ==> ids[k] in PlannedFor(ids, picks, w)
    ensures forall x :: x in PlannedFor(ids, picks, w) ==> exists k :: 0 <= k < |picks| && picks[k] == w && ids[k] == x
    ensures NoDuplicates(PlannedFor(ids, picks, w)) && |PlannedFor(ids, picks, w)| == Occurrences(picks, w)
  {
    if picks != [] {
      var n := |picks| - 1;
      PlannedAre(ids, picks[..n], w);
      var s := PlannedFor(ids, picks[..n], w);
      forall i | 0 <= i < |s| ensures s[i] != ids[n] {
        assert s[i] in s;
      }
    }
  }

  lemma PlannedGrows(ids: seq<string>, picks: seq<nat>, w: nat)
    requires |picks| <= |ids| && NoDuplicates(ids)
    ensures PlannedBefore(ids, picks, w) + Elements(PlannedFor(ids, picks, w)) == PlannedBefore(ids, picks, w + 1)
    ensures forall x :: x in PlannedFor(ids, picks, w) ==> x in ids && x !in PlannedBefore(ids, picks, w)
  {
    PlannedAre(ids, picks, w);
  }

  lemma AllPlanned(caps: seq<Capacity>, ids: seq<string>, picks: seq<nat>, tasks: Tasks)
    requires |picks| == |ids| && Greedy(caps, |ids|, picks) && forall id :: id in ids <==> id in tasks
    ensures PlannedBefore(ids, picks, |caps|) == tasks.Keys
  {
    forall k | 0 <= k < |picks| ensures picks[k] < |caps| {
      assert IsChoice(caps, |ids|, picks[..k], picks[k]);
    }
  }

  /** Every task was placed on the Worker that the plan picked for it. */
  ghost predicate FollowsPlan(caps: seq<Capacity>, ids: seq<string>, picks: seq<nat>, tasks': Tasks, bound: nat)
    requires |picks| == |ids|
  {
    forall k :: 0 <= k < |ids| && picks[k] < bound ==>
      && picks[k] < |caps| && ids[k] in tasks' && tasks'[ids[k]].place.Some?
      && tasks'[ids[k]].place.value.0 == caps[picks[k]].id
  }

  /** Of two tasks on the same Worker the one that was planned first has the lower slot. */
  ghost predicate InPlanOrder(ids: seq<string>, picks: seq<nat>, tasks': Tasks, bound: nat)
    requires |picks| == |ids|
  {
    forall k, l :: 0 <= k < l < |ids| && picks[k] == picks[l] < bound ==>
      && ids[k] in tasks' && tasks'[ids[k]].place.Some? && ids[l] in tasks' && tasks'[ids[l]].place.Some?
      && tasks'[ids[k]].place.value.1 < tasks'[ids[l]].place.value.1
  }

  /** A Worker's planned tasks are in the order of the job's. */
  lemma {:induction false} PlannedPlace(ids: seq<string>, picks: seq<nat>, k: nat, l: nat) returns (p: nat, q: nat)
    requires |picks| <= |ids| && k <= l < |picks| && picks[k] == picks[l]
    ensures p <= q < |PlannedFor(ids, picks, picks[k])| && (k < l ==> p < q)
    ensures PlannedFor(ids, picks, picks[k])[p] == ids[k] && PlannedFor(ids, picks, picks[k])[q] == ids[l]
  {
    var n := |picks| - 1;
    if l < n {
      p, q := PlannedPlace(ids, picks[..n], k, l);
    } else {
      q := |PlannedFor(ids, picks[..n], picks[k])|;
      p := q;
      if k < l {
        var q';
        p, q' := PlannedPlace(ids, picks[..n], k, k);
      }
    }
  }

  lemma OrderIsKept(ids: seq<string>, picks: seq<nat>, before: Tasks, after: Tasks, w: nat)
    requires |picks| == |ids| && NoDuplicates(ids) && InPlanOrder(ids, picks, before, w) && after.Keys == before.Keys
    requires forall id :: id in before && id !in PlannedFor(ids, picks, w) ==> after[id] == before[id]
    requires var batch := PlannedFor(ids, picks, w);
             && (forall j :: 0 <= j < |batch| ==> batch[j] in after && after[batch[j]].place.Some?)
             && (forall j, k :: 0 <= j < k < |batch| ==> after[batch[j]].place.value.1 < after[batch[k]].place.value.1)
    ensures InPlanOrder(ids, picks, after, w + 1)
  {
    hide PlannedFor, NoDuplicates;
    forall k, l | 0 <= k < l < |ids| && picks[k] == picks[l] < w + 1
      ensures ids[k] in after && after[ids[k]].place.Some? && ids[l] in after && after[ids[l]].place.Some?
              && after[ids[k]].place.value.1 < after[ids[l]].place.value.1
    {
      if picks[k] == w {
        var p, q := PlannedPlace(ids, picks, k, l);
      } else {
        NotPlanned(ids, picks, w, k);
        NotPlanned(ids, picks, w, l);
      }
    }
  }

  lemma NotPlanned(ids: seq<string>, picks: seq<nat>, w: nat, k: nat)
    requires |picks| == |ids| && NoDuplicates(ids) && k < |ids| && picks[k] != w
    ensures ids[k] !in PlannedFor(ids, picks, w)
  {
    PlannedAre(ids, picks, w);
  }

  /** On every Worker the newly taken slots are the lowest that were free. */
  ghost predicate AllFilledFromBelow(base: Workers, ws: Workers) {
    forall x :: x in ws ==> x in base && FilledFromBelow(base[x].slots, ws[x].slots)
  }

  lemma PlanIsFollowed(caps: seq<Capacity>, ids: seq<string>, picks: seq<nat>, before: Tasks, after: Tasks, w: nat)
    requires |picks| == |ids| && NoDuplicates(ids) && w < |caps| && FollowsPlan(caps, ids, picks, before, w)
    requires after.Keys == before.Keys
    requires forall id :: id in before && id !in PlannedFor(ids, picks, w) ==> after[id] == before[id]
    requires var batch := PlannedFor(ids, picks, w);
             forall j :: 0 <= j < |batch| ==>
               batch[j] in after && after[batch[j]].place.Some? && after[batch[j]].place.value.0 == caps[w].id
    ensures FollowsPlan(caps, ids, picks, after, w + 1)
  {
    PlannedAre(ids, picks, w);
    var batch := PlannedFor(ids, picks, w);
    forall k | 0 <= k < |ids| && picks[k] < w + 1
      ensures ids[k] in after && after[ids[k]].place.Some? && after[ids[k]].place.value.0 == caps[picks[k]].id
    {
      if picks[k] == w {
        var j :| 0 <= j < |batch| && batch[j] == ids[k];
      } else {
        assert ids[k] !in batch;
      }
    }
  }

  /** The outcome of reserving for a whole plan: everything placed, or stopped at a task that is not new. */
  ghost predicate Reserved(ws: Workers, ws': Workers, tasks: Tasks, tasks': Tasks, on: seq<string>, w: nat,
                           ids: seq<string>, picks: seq<nat>, caps: seq<Capacity>)
    requires |picks| == |ids|
  {
    && Placed(ws, ws', tasks, tasks', PlannedBefore(ids, picks, w), on) && FollowsPlan(caps, ids, picks, tasks', w)
    && InPlanOrder(ids, picks, tasks', w) && AllFilledFromBelow(ws, ws')
  }

  /** The reservations of a plan, Worker by Worker. */
  method ReservePlan(registry: WorkerRegistry, caps: seq<Capacity>, planned: seq<seq<string>>, ids: seq<string>,
                     tasks: Tasks, ghost picks: seq<nat>, ghost on: seq<string>)
    returns (tasks': Tasks, placed: seq<string>, ok: bool, ghost prior: Workers, ghost p: Place, ghost failed: string)
    requires NoDuplicates(ids) && forall id :: id in ids <==> id in tasks
    requires Usable(caps) && Describes(registry.workers, caps)
    requires forall w :: 0 <= w < |caps| ==> caps[w].id in on
    requires |picks| == |ids| && Greedy(caps, |ids|, picks)
    requires |planned| == |caps| && forall w :: 0 <= w < |caps| ==> planned[w] == PlannedFor(ids, picks, w)
    modifies registry
    ensures ok ==> Reserved(old(registry.workers), registry.workers, tasks, tasks', on, |caps|, ids, picks, caps)
    ensures ok <==> AllCreated(tasks, ids)
    ensures ok ==> forall v :: 0 <= v < |caps| ==> Loaded(registry.workers, caps, picks, v)
    ensures forall id :: id in placed ==> id in tasks && tasks[id].status == Created
    ensures !ok ==>
              && failed in tasks && tasks[failed].status != Created
              && FailedAt(old(registry.workers), registry.workers, tasks, tasks', Elements(placed), on, prior, p, failed)
  {
    hide ReservedBefore, FailedAt, Elements, PlannedFor, Usable, Describes, Greedy, Reserved, NoDuplicates, AllCreated,
      AvailableSlots, Placed;
    tasks', placed, prior, p, failed := tasks, [], registry.workers, ("", 0), "";
    ghost var base := registry.workers;
    NothingReserved(base, tasks, on, ids, picks, caps);
    for w := 0 to |caps|
      invariant ReservedBefore(base, registry.workers, tasks, tasks', on, w, ids, picks, caps, placed)
    {
      var batch := planned[w];
      ghost var ws, before, done := registry.workers, tasks', PlannedBefore(ids, picks, w);
      BatchMayBegin(base, ws, tasks, before, on, w, ids, picks, caps, placed);
      var count;
      tasks', count, prior, p := ReserveBatch(registry, caps[w].id, batch, tasks', base, tasks, done, on);
      ElementsConcat(placed, batch[..count]);
      placed := placed + batch[..count];
      PlacedAreCreated(tasks, ids, picks, w, placed[..|placed| - count], batch[..count]);
      if count < |batch| {
        BatchFailed(tasks, ids, batch, count);
        ok, failed := false, batch[count];
        return;
      }
      assert batch[..count] == batch;
      BatchDone(base, ws, registry.workers, tasks, before, tasks', on, w, ids, picks, caps, placed[..|placed| - |batch|]);
      assert placed == placed[..|placed| - |batch|] + batch;
    }
    AllReserved(base, registry.workers, tasks, tasks', on, ids, picks, caps, placed);
    ok := true;
  }

  /** A Worker's slots in use are what the plan makes of its load. */
  ghost predicate Loaded(ws: Workers, caps: seq<Capacity>, picks: seq<nat>, v: nat)
    requires v < |caps|
  {
    caps[v].id in ws && UsedSlots(ws[caps[v].id].slots) == Load(caps, picks, v)
  }

  /** Where the reservations stand before Worker w's turn. */
  ghost predicate ReservedBefore(base: Workers, ws: Workers, tasks: Tasks, tasks': Tasks, on: seq<string>, w: nat,
                                 ids: seq<string>, picks: seq<nat>, caps: seq<Capacity>, placed: seq<string>)
    requires |picks| == |ids|
  {
    && ws.Keys == base.Keys && (forall v :: w <= v < |caps| ==> Untouched(base, ws, caps[v].id))
    && Reserved(base, ws, tasks, tasks', on, w, ids, picks, caps)
    && (forall v :: 0 <= v < w && v < |caps| ==> Loaded(ws, caps, picks, v))
    && Elements(placed) == PlannedBefore(ids, picks, w)
    && (forall id :: id in PlannedBefore(ids, picks, w) ==> id in tasks && tasks[id].status == Created)
  }

  lemma NothingReserved(base: Workers, tasks: Tasks, on: seq<string>, ids: seq<string>, picks: seq<nat>, caps: seq<Capacity>)
    requires |picks| == |ids| && Describes(base, caps)
    ensures ReservedBefore(base, base, tasks, tasks, on, 0, ids, picks, caps, [])
  {
    NothingPlaced(base, tasks, ids, picks, on, caps);
  }

  lemma BatchMayBegin(base: Workers, ws: Workers, tasks: Tasks, tasks': Tasks, on: seq<string>, w: nat,
                      ids: seq<string>, picks: seq<nat>, caps: seq<Capacity>, placed: seq<string>)
    requires NoDuplicates(ids) && (forall id :: id in ids <==> id in tasks) && |picks| == |ids| && w < |caps|
    requires Usable(caps) && Describes(base, caps) && Greedy(caps, |ids|, picks)
    requires ReservedBefore(base, ws, tasks, tasks', on, w, ids, picks, caps, placed)
    ensures var batch := PlannedFor(ids, picks, w);
            && Placed(base, ws, tasks, tasks', PlannedBefore(ids, picks, w), on)
            && caps[w].id in ws && AvailableSlots(ws[caps[w].id].slots) >= |batch| && NoDuplicates(batch)
            && (forall i :: 0 <= i < |batch| ==> batch[i] in tasks && batch[i] !in PlannedBefore(ids, picks, w))
            && Elements(placed) == PlannedBefore(ids, picks, w)
            && (forall id :: id in PlannedBefore(ids, picks, w) ==> id in tasks && tasks[id].status == Created)
  {
    hide Placed, Usable, Greedy, FollowsPlan, Elements, PlannedBefore, AvailableSlots;
    PlannedAre(ids, picks, w);
    PlannedGrows(ids, picks, w);
    PlanFits(caps, |ids|, picks, w);
    Fits(base, caps, ids, picks, w);
    var batch := PlannedFor(ids, picks, w);
    assert forall i :: 0 <= i < |batch| ==> batch[i] in batch;
    assert Untouched(base, ws, caps[w].id);
  }

  lemma BatchDone(base: Workers, ws: Workers, ws': Workers, tasks: Tasks, before: Tasks, after: Tasks, on: seq<string>, w: nat,
                  ids: seq<string>, picks: seq<nat>, caps: seq<Capacity>, placed: seq<string>)
    requires NoDuplicates(ids) && |picks| == |ids| && w < |caps| && Usable(caps)
    requires ReservedBefore(base, ws, tasks, before, on, w, ids, picks, caps, placed)
    requires ws'.Keys == ws.Keys && forall x :: x in ws' && x != caps[w].id ==> ws'[x] == ws[x]
    requires Describes(base, caps) && caps[w].id in ws
    requires UsedSlots(ws'[caps[w].id].slots) == UsedSlots(ws[caps[w].id].slots) + |PlannedFor(ids, picks, w)|
    requires after.Keys == before.Keys
    requires var batch := PlannedFor(ids, picks, w);
             && Placed(base, ws', tasks, after, PlannedBefore(ids, picks, w) + Elements(batch), on)
             && (forall id :: id in before && id !in batch ==> after[id] == before[id])
             && (forall j :: 0 <= j < |batch| ==>
                   && batch[j] in after && after[batch[j]].place.Some? && after[batch[j]].place.value.0 == caps[w].id
                   && batch[j] in tasks && tasks[batch[j]].status == Created)
             && (forall j, k :: 0 <= j < k < |batch| ==> after[batch[j]].place.value.1 < after[batch[k]].place.value.1)
    requires FilledFromBelow(ws[caps[w].id].slots, ws'[caps[w].id].slots)
    ensures ReservedBefore(base, ws', tasks, after, on, w + 1, ids, picks, caps, placed + PlannedFor(ids, picks, w))
  {
    hide Placed, FollowsPlan, Elements, PlannedBefore, NoDuplicates, PlannedFor, InPlanOrder, FilledFromBelow;
    var batch := PlannedFor(ids, picks, w);
    PlannedGrows(ids, picks, w);
    OrderIsKept(ids, picks, before, after, w);
    PlanIsFollowed(caps, ids, picks, before, after, w);
    ElementsConcat(placed, batch);
    BatchIsCreated(tasks, batch, PlannedBefore(ids, picks, w), PlannedBefore(ids, picks, w + 1));
    forall v | w + 1 <= v < |caps| ensures Untouched(base, ws', caps[v].id) {
      assert Untouched(base, ws, caps[v].id);
      DifferentIds(caps, w, v);
    }
    PlannedAre(ids, picks, w);
    assert Untouched(base, ws, caps[w].id);
    forall v | 0 <= v < w + 1 ensures Loaded(ws', caps, picks, v) {
      if v < w {
        assert Loaded(ws, caps, picks, v);
        DifferentIds(caps, v, w);
      }
    }
  }

  lemma PlacedAreCreated(tasks: Tasks, ids: seq<string>, picks: seq<nat>, w: nat, placed: seq<string>, more: seq<string>)
    requires |picks| <= |ids| && Elements(placed) == PlannedBefore(ids, picks, w)
    requires forall id :: id in PlannedBefore(ids, picks, w) ==> id in tasks && tasks[id].status == Created
    requires forall j :: 0 <= j < |more| ==> more[j] in tasks && tasks[more[j]].status == Created
    ensures forall id :: id in placed + more ==> id in tasks && tasks[id].status == Created
  {
    forall id | id in placed ensures id in PlannedBefore(ids, picks, w) {
      assert id in Elements(placed);
    }
  }

  lemma BatchFailed(tasks: Tasks, ids: seq<string>, batch: seq<string>, count: nat)
    requires (forall id :: id in ids <==> id in tasks) && count < |batch| && batch[count] in tasks
    requires tasks[batch[count]].status != Created
    ensures !AllCreated(tasks, ids)
  {
    var k :| 0 <= k < |ids| && ids[k] == batch[count];
  }

  lemma AllReserved(base: Workers, ws: Workers, tasks: Tasks, tasks': Tasks, on: seq<string>,
                    ids: seq<string>, picks: seq<nat>, caps: seq<Capacity>, placed: seq<string>)
    requires |picks| == |ids| && Greedy(caps, |ids|, picks) && forall id :: id in ids <==> id in tasks
    requires ReservedBefore(base, ws, tasks, tasks', on, |caps|, ids, picks, caps, placed)
    ensures Reserved(base, ws, tasks, tasks', on, |caps|, ids, picks, caps) && AllCreated(tasks, ids)
    ensures forall v :: 0 <= v < |caps| ==> Loaded(ws, caps, picks, v)
    ensures forall id :: id in placed ==> id in tasks && tasks[id].status == Created
  {
    hide Placed, FollowsPlan, Greedy;
    AllPlanned(caps, ids, picks, tasks);
    assert forall id :: id in placed ==> id in Elements(placed);
  }

  ghost predicate Untouched(base: Workers, ws: Workers, w: string) {
    w in base && w in ws && ws[w] == base[w]
  }

  lemma BatchIsCreated(tasks: Tasks, batch: seq<string>, done: set<string>, later: set<string>)
    requires later == done + Elements(batch)
    requires forall id :: id in done ==> id in tasks && tasks[id].status == Created
    requires forall j :: 0 <= j < |batch| ==> batch[j] in tasks && tasks[batch[j]].status == Created
    ensures forall id :: id in later ==> id in tasks && tasks[id].status == Created
  {
  }

  lemma DifferentIds(caps: seq<Capacity>, v: nat, w: nat)
    requires Usable(caps) && v < w < |caps|
    ensures caps[v].id != caps[w].id
  {
  }

  lemma ElementsConcat(a: seq<string>, b: seq<string>)
    ensures Elements(a + b) == Elements(a) + Elements(b)
  {
  }

  lemma NothingPlaced(base: Workers, tasks: Tasks, ids: seq<string>, picks: seq<nat>, on: seq<string>, caps: seq<Capacity>)
    requires |picks| == |ids| && Describes(base, caps)
    ensures PlannedBefore(ids, picks, 0) == {}
    ensures Reserved(base, base, tasks, tasks, on, 0, ids, picks, caps)
    ensures forall v :: 0 <= v < |caps| ==> Untouched(base, base, caps[v].id)
  {
  }

  lemma Fits(base: Workers, caps: seq<Capacity>, ids: seq<string>, picks: seq<nat>, w: nat)
    requires Describes(base, caps) && w < |caps| && |picks| <= |ids| && NoDuplicates(ids)
    requires Load(caps, picks, w) <= caps[w].total
    ensures caps[w].id in base && AvailableSlots(base[caps[w].id].slots) >= |PlannedFor(ids, picks, w)|
  {
    PlannedAre(ids, picks, w);
  }

  /** The one trace of a failed assignment: a slot that was free names a task that was not new. */
  ghost predicate LeaksOneSlot(ws: Workers, ws': Workers, tasks: Tasks, held: Holdings) {
    exists failed, p: Place ::
      && failed in tasks && tasks[failed].status != Created
      && IsPlace(ws, p) && At(ws, p).None? && Ledger(ws', held[failed := p])
  }

  /** After a failed assignment no task has a place; those that had one are SCHEDULED and stay so. */
  ghost predicate PutBack(tasks: Tasks, tasks': Tasks) {
    && tasks'.Keys == tasks.Keys
    && forall id :: id in tasks ==>
         tasks'[id] == tasks[id] || (tasks[id].status == Created && tasks'[id] == TaskInstance(Scheduled, None))
  }

  /** All slots of the job or none: plans for every task before anything is reserved. */
  method Schedule(registry: WorkerRegistry, ids: seq<string>, tasks: Tasks, now: int, ghost held: Holdings)
    returns (tasks': Tasks, error: Option<ScheduleError>, ghost picks: seq<nat>)
    requires NoDuplicates(ids) && forall id :: id in ids <==> id in tasks
    modifies registry
    ensures var ws := old(registry.workers);
            var on := HealthyIds(ws, now, registry.heartbeatTimeout);
            var caps := Considered(ws, on);
            if SlotsOn(ws, on) < |ids| then
              error == Some(InsufficientSlots(|ids|, SlotsOn(ws, on))) && tasks' == tasks && registry.workers == ws
            else if AllCreated(tasks, ids) then
              && error == None && Placed(ws, registry.workers, tasks, tasks', tasks.Keys, on)
              && |picks| == |ids| && Greedy(caps, |ids|, picks) && FollowsPlan(caps, ids, picks, tasks', |caps|)
              && InPlanOrder(ids, picks, tasks', |caps|) && AllFilledFromBelow(ws, registry.workers)
              && (forall v :: 0 <= v < |caps| ==> Loaded(registry.workers, caps, picks, v))
            else
              && error == Some(NotCreated)
              && (Ledger(ws, held) && HoldNothing(held, tasks) ==>
                    LeaksOneSlot(ws, registry.workers, tasks, held) && PutBack(tasks, tasks'))
  {
    hide Placed, Greedy, FollowsPlan, PlannedBefore, Elements, FailedAt, Ledger, TotalFree, SlotsOn, Usable, Describes,
      Considered, HealthyIds;
    var on := registry.Healthy(now);
    HealthyIdsAre(registry.workers, now, registry.heartbeatTimeout);
    tasks', error, picks := tasks, None, [];
    ghost var ws := registry.workers;
    var caps := Considered(registry.workers, on);
    ConsideredAre(registry.workers, on);
    ConsideredTotal(registry.workers, on);
    var available := TotalFree(caps);
    if available < |ids| {
      error := Some(InsufficientSlots(|ids|, available));
      return;
    }
    var planned;
    planned, picks := PlanTasks(caps, ids);
    var placed, ok;
    ghost var prior, p, failed;
    tasks', placed, ok, prior, p, failed := ReservePlan(registry, caps, planned, ids, tasks, picks, on);
    AllPlanned(caps, ids, picks, tasks);
    if !ok {
      error := Some(NotCreated);
      ghost var given := Ledger(ws, held) && HoldNothing(held, tasks);
      ghost var holding := held;
      if given {
        holding := FailureInLedger(ws, registry.workers, tasks, tasks', placed, on, prior, p, failed, held);
      }
      PlacedIn(ws, registry.workers, tasks, tasks', placed, on, prior, p, failed);
      ghost var stopped := tasks';
      var refused;
      tasks', refused := ReleaseAll(registry, placed, tasks', holding);
      if given {
        assert Ledger(registry.workers, held[failed := p]);
        assert LeaksOneSlot(ws, registry.workers, tasks, held);
        ClearedArePutBack(ws, prior, tasks, stopped, placed, on);
      }
    }
  }

  lemma ClearedArePutBack(ws: Workers, prior: Workers, tasks: Tasks, stopped: Tasks, placed: seq<string>, on: seq<string>)
    requires Placed(ws, prior, tasks, stopped, Elements(placed), on)
    requires forall id :: id in placed ==> id in tasks && tasks[id].status == Created
    ensures PutBack(tasks, Cleared(stopped, placed))
  {
    forall id | id in tasks
      ensures Cleared(stopped, placed)[id] == tasks[id]
              || (tasks[id].status == Created && Cleared(stopped, placed)[id] == TaskInstance(Scheduled, None))
    {
      assert id in placed <==> id in Elements(placed);
    }
  }

  lemma PlacedIn(ws: Workers, ws': Workers, tasks: Tasks, tasks': Tasks, placed: seq<string>, on: seq<string>,
                 prior: Workers, p: Place, failed: string)
    requires FailedAt(ws, ws', tasks, tasks', Elements(placed), on, prior, p, failed)
    ensures forall i :: 0 <= i < |placed| ==> placed[i] in tasks'
    ensures IsPlace(ws, p) && At(ws, p).None? && failed in tasks && tasks[failed].status != Created
    ensures Placed(ws, prior, tasks, tasks', Elements(placed), on)
  {
    assert forall i :: 0 <= i < |placed| ==> placed[i] in Elements(placed);
    TakenBefore(ws, prior, tasks', Elements(placed), p);
  }

  /** What the ledger says when an assignment has failed: the tasks placed so far, and the leaked slot. */
  lemma FailureInLedger(ws: Workers, ws': Workers, tasks: Tasks, tasks': Tasks, placed: seq<string>, on: seq<string>,
                        prior: Workers, p: Place, failed: string, held: Holdings) returns (holding: Holdings)
    requires FailedAt(ws, ws', tasks, tasks', Elements(placed), on, prior, p, failed)
    requires Ledger(ws, held) && HoldNothing(held, tasks)
    ensures Ledger(ws', holding) && Agrees(holding, tasks', placed)
    ensures Without(holding, placed) == held[failed := p]
  {
    hide Ledger, Placed, At, PlacesOf, Agrees, Without, Elements, ReserveIn;
    var done := Elements(placed);
    PlacedTasks(ws, prior, tasks, tasks', done, on);
    PlacedKeepsLedger(ws, prior, tasks, tasks', done, on, held);
    var before := held + PlacesOf(tasks');
    ReserveKeepsLedger(prior, before, p.0, p.1, failed);
    holding := before[failed := p];
    HoldingAgrees(tasks', placed, held, failed, p);
  }

  lemma HoldingAgrees(tasks': Tasks, placed: seq<string>, held: Holdings, failed: string, p: Place)
    requires PlacesOf(tasks').Keys == Elements(placed) && failed !in Elements(placed)
    requires forall id :: id in tasks' ==> id !in held
    ensures var holding := (held + PlacesOf(tasks'))[failed := p];
            Agrees(holding, tasks', placed) && Without(holding, placed) == held[failed := p]
  {
    var holding := (held + PlacesOf(tasks'))[failed := p];
    forall i | 0 <= i < |placed|
      ensures placed[i] in tasks' && tasks'[placed[i]].place.Some? && placed[i] in holding
              && holding[placed[i]] == tasks'[placed[i]].place.value
    {
      assert placed[i] in Elements(placed);
      assert placed[i] in PlacesOf(tasks').Keys;
    }
    forall id ensures id in Without(holding, placed) <==> id in held[failed := p] {
      assert id in Elements(placed) <==> id in placed;
      assert id in PlacesOf(tasks') <==> id in PlacesOf(tasks').Keys;
    }
  }
}
