/**
 Parallel execution of a keyed reduce against a sequential one. Records are split over upstream subtasks and,
 by the hash of their keys, over reducers; each reducer merges its channels in any order that keeps each
 channel's own, with timer calls anywhere in between.
 */
module Parallel {
  import opened Wrappers
  import opened Records
  import opened Sequences
  import opened Protocol
  import opened Routing
  import opened Window
  import opened WindowRuns
  import FanIn

  // ----- the UDF -----

  type Reduction = (Json, Json) -> Option<Json>

  /** The payloads that a group may see. A UDF may raise on any others. */
  type Domain = Json -> bool

  /** On the payloads of its domain the UDF succeeds and stays among them. */
  ghost predicate Succeeds(reduce: Reduction, d: Domain) {
    forall a, b :: d(a) && d(b) ==> reduce(a, b).Some? && d(reduce(a, b).value)
  }

  ghost predicate Associative(reduce: Reduction, d: Domain)
    requires Succeeds(reduce, d)
  {
    forall a, b, c :: d(a) && d(b) && d(c) ==> reduce(reduce(a, b).value, c) == reduce(a, reduce(b, c).value)
  }

  ghost predicate Commutative(reduce: Reduction, d: Domain) {
    forall a, b :: d(a) && d(b) ==> reduce(a, b) == reduce(b, a)
  }

  predicate Within(d: Domain, payloads: seq<Json>) {
    forall i :: 0 <= i < |payloads| ==> d(payloads[i])
  }

  /** The fold of any number of payloads; None of none. */
  function Combine(reduce: Reduction, payloads: seq<Json>): Option<Json> {
    if payloads == [] then None else FoldLeft(reduce, payloads)
  }

  function Join(reduce: Reduction, a: Option<Json>, b: Option<Json>): Option<Json> {
    if a.None? then b else if b.None? then a else reduce(a.value, b.value)
  }

  predicate Inside(d: Domain, a: Option<Json>) {
    a.Some? ==> d(a.value)
  }

  lemma PartsWithin(d: Domain, a: seq<Json>, b: seq<Json>)
    requires Within(d, a + b)
    ensures Within(d, a) && Within(d, b)
  {
    assert forall k :: 0 <= k < |a| ==> a[k] == (a + b)[k];
    assert forall k :: 0 <= k < |b| ==> b[k] == (a + b)[|a| + k];
  }

  lemma WholeWithin(d: Domain, a: seq<Json>, b: seq<Json>)
    requires Within(d, a) && Within(d, b)
    ensures Within(d, a + b)
  {
  }

  lemma {:induction false} CombineSome(reduce: Reduction, d: Domain, payloads: seq<Json>)
    requires Succeeds(reduce, d) && Within(d, payloads)
    ensures Inside(d, Combine(reduce, payloads)) && (payloads != [] ==> Combine(reduce, payloads).Some?)
  {
    if |payloads| > 1 {
      CombineSome(reduce, d, payloads[..|payloads| - 1]);
    }
  }

  lemma SucceedsAt(reduce: Reduction, d: Domain, x: Json, y: Json)
    requires Succeeds(reduce, d) && d(x) && d(y)
    ensures reduce(x, y).Some? && d(reduce(x, y).value)
  {
  }

  lemma AssociatesAt(reduce: Reduction, d: Domain, x: Json, y: Json, z: Json)
    requires Succeeds(reduce, d) && Associative(reduce, d) && d(x) && d(y) && d(z)
    ensures reduce(x, y).Some? && reduce(y, z).Some?
    ensures reduce(reduce(x, y).value, z) == reduce(x, reduce(y, z).value)
  {
    SucceedsAt(reduce, d, x, y);
    SucceedsAt(reduce, d, y, z);
    hide Succeeds;
  }

  lemma JoinAssociative(reduce: Reduction, d: Domain, a: Option<Json>, b: Option<Json>, c: Option<Json>)
    requires Succeeds(reduce, d) && Associative(reduce, d) && Inside(d, a) && Inside(d, b) && Inside(d, c)
    ensures Join(reduce, Join(reduce, a, b), c) == Join(reduce, a, Join(reduce, b, c))
  {
    hide Succeeds, Associative;
    if a.Some? && b.Some? && c.Some? {
      AssociatesAt(reduce, d, a.value, b.value, c.value);
    } else if a.Some? && b.Some? {
      SucceedsAt(reduce, d, a.value, b.value);
    } else if b.Some? && c.Some? {
      SucceedsAt(reduce, d, b.value, c.value);
    }
  }

  lemma CombineAppend(reduce: Reduction, d: Domain, s: seq<Json>, x: Json)
    requires Succeeds(reduce, d) && Within(d, s)
    ensures Combine(reduce, s + [x]) == Join(reduce, Combine(reduce, s), Some(x))
  {
    if s != [] {
      CombineSome(reduce, d, s);
      assert (s + [x])[..|s|] == s;
    }
  }

  lemma {:induction false} CombineConcat(reduce: Reduction, d: Domain, a: seq<Json>, b: seq<Json>)
    requires Succeeds(reduce, d) && Associative(reduce, d) && Within(d, a) && Within(d, b)
    ensures Combine(reduce, a + b) == Join(reduce, Combine(reduce, a), Combine(reduce, b))
  {
    hide Succeeds, Associative, FoldLeft;
    if b == [] {
      assert a + b == a;
    } else {
      var init, x := b[..|b| - 1], b[|b| - 1];
      CombineConcat(reduce, d, a, init);
      assert a + b == (a + init) + [x] && b == init + [x];
      CombineAppend(reduce, d, a + init, x);
      CombineAppend(reduce, d, init, x);
      CombineSome(reduce, d, a);
      CombineSome(reduce, d, init);
      JoinAssociative(reduce, d, Combine(reduce, a), Combine(reduce, init), Some(x));
    }
  }

  lemma WithinIgnoresOrder(d: Domain, a: seq<Json>, b: seq<Json>)
    requires multiset(a) == multiset(b) && Within(d, a)
    ensures Within(d, b)
  {
    forall i | 0 <= i < |b| ensures d(b[i]) {
      assert b[i] in multiset(a);
    }
  }

  /** With a UDF that commutes and associates on a group's payloads the fold depends only on which there are. */
  lemma {:induction false} CombineIgnoresOrder(reduce: Reduction, d: Domain, a: seq<Json>, b: seq<Json>)
    requires Succeeds(reduce, d) && Associative(reduce, d) && Commutative(reduce, d) && Within(d, a)
    requires multiset(a) == multiset(b)
    ensures Combine(reduce, a) == Combine(reduce, b)
  {
    hide Succeeds, Associative, Commutative, FoldLeft;
    if a == [] {
      assert |multiset(b)| == 0;
    } else {
      var init, x := a[..|a| - 1], a[|a| - 1];
      assert a == init + [x];
      var p, q := TakeOut(a, b);
      CombineIgnoresOrder(reduce, d, init, p + q);
      CombineAppend(reduce, d, init, x);
      WithinIgnoresOrder(d, a, b);
      MoveToEnd(reduce, d, p, x, q);
    }
  }

  lemma MoveToEnd(reduce: Reduction, d: Domain, p: seq<Json>, x: Json, q: seq<Json>)
    requires Succeeds(reduce, d) && Associative(reduce, d) && Commutative(reduce, d) && Within(d, p + [x] + q)
    ensures Combine(reduce, p + [x] + q) == Join(reduce, Combine(reduce, p + q), Some(x))
  {
    hide Succeeds, Associative, FoldLeft;
    var all := p + [x] + q;
    assert all[|p|] == x && Within(d, p) && Within(d, q) by {
      assert forall i :: 0 <= i < |p| ==> p[i] == all[i];
      assert forall i :: 0 <= i < |q| ==> q[i] == all[|p| + 1 + i];
    }
    CombineConcat(reduce, d, p, q);
    CombineConcat(reduce, d, p + [x], q);
    CombineAppend(reduce, d, p, x);
    CombineSome(reduce, d, p);
    CombineSome(reduce, d, q);
    JoinAssociative(reduce, d, Combine(reduce, p), Combine(reduce, q), Some(x));
    JoinAssociative(reduce, d, Combine(reduce, p), Some(x), Combine(reduce, q));
    assert Join(reduce, Some(x), Combine(reduce, q)) == Join(reduce, Combine(reduce, q), Some(x));
  }

  // ----- one reducer -----

  /** The payloads of one group among some records. */
  function GroupPayloads(c: Config, records: seq<Record>, g: StateKey): seq<Json>
    requires c.size > 0
  {
    if records == [] then []
    else
      var last := records[|records| - 1];
      GroupPayloads(c, records[..|records| - 1], g) + (if GroupOf(c, last) == g then [last.payload] else [])
  }

  function Arrived(events: seq<Event>): seq<Record> {
    if events == [] then []
    else
      var last := events[|events| - 1];
      Arrived(events[..|events| - 1]) + (if last.Arrive? then [last.record] else [])
  }

  /** The live accumulator of a group, if it has one. */
  ghost function LiveOf(c: Config, events: seq<Event>, g: StateKey): seq<Json>
    requires c.size > 0
  {
    var s := Run(c, events);
    if g in s.table then [s.table[g].accumulator] else []
  }

  /** What a run has produced for a group: its outputs, and what it still holds. */
  ghost function Results(c: Config, events: seq<Event>, g: StateKey): seq<Json>
    requires c.size > 0
  {
    PayloadsOf(Run(c, events).emitted, g) + LiveOf(c, events, g)
  }

  ghost predicate AllKeyed(records: seq<Record>) {
    forall i :: 0 <= i < |records| ==> records[i].key != Null
  }

  lemma {:induction false} FlattenWithin(d: Domain, segments: seq<seq<Json>>, i: nat)
    requires Within(d, Flatten(segments)) && i < |segments|
    ensures Within(d, segments[i])
  {
    var init, last := segments[..|segments| - 1], segments[|segments| - 1];
    if i < |init| {
      assert forall k :: 0 <= k < |Flatten(init)| ==> Flatten(init)[k] == Flatten(segments)[k];
      FlattenWithin(d, init, i);
    } else {
      assert forall k :: 0 <= k < |last| ==> last[k] == Flatten(segments)[|Flatten(init)| + k];
    }
  }

  /** What a group holds live is of its domain, if what arrived is. */
  lemma LiveIsInside(c: Config, d: Domain, events: seq<Event>, g: StateKey)
    requires c.size > 0 && Succeeds(c.reduce, d) && Within(d, Arrivals(c, events, g))
    requires g in Run(c, events).table
    ensures d(Run(c, events).table[g].accumulator)
  {
    OutputsAreSegmentFolds(c, events, g);
    var segments := SegmentsOf(c, events, g);
    PartsWithin(d, Flatten(segments.closed), segments.open);
    CombineSome(c.reduce, d, segments.open);
  }

  /** Every record of the group is accepted, whatever becomes of other groups' records. */
  lemma {:induction false} ArrivalsAreGroupPayloads(c: Config, d: Domain, events: seq<Event>, g: StateKey)
    requires c.size > 0 && Succeeds(c.reduce, d)
    requires AllKeyed(Arrived(events)) && Within(d, GroupPayloads(c, Arrived(events), g))
    ensures Arrivals(c, events, g) == GroupPayloads(c, Arrived(events), g)
  {
    if events != [] {
      var init, e := events[..|events| - 1], events[|events| - 1];
      ArrivedGrows(c, d, events, g);
      ArrivalsAreGroupPayloads(c, d, init, g);
      if e.Arrive? && GroupOf(c, e.record) == g && g in Run(c, init).table {
        LiveIsInside(c, d, init, g);
      }
    }
  }

  lemma ArrivedGrows(c: Config, d: Domain, events: seq<Event>, g: StateKey)
    requires c.size > 0 && events != []
    requires AllKeyed(Arrived(events)) && Within(d, GroupPayloads(c, Arrived(events), g))
    ensures var init, e := events[..|events| - 1], events[|events| - 1];
            && AllKeyed(Arrived(init)) && Within(d, GroupPayloads(c, Arrived(init), g))
            && (e.Arrive? ==> e.record.key != Null)
            && (e.Arrive? && GroupOf(c, e.record) == g ==> d(e.record.payload))
            && GroupPayloads(c, Arrived(events), g)
               == GroupPayloads(c, Arrived(init), g)
                  + (if e.Arrive? && GroupOf(c, e.record) == g then [e.record.payload] else [])
  {
    var init, e := events[..|events| - 1], events[|events| - 1];
    var before, after := Arrived(init), Arrived(events);
    assert forall i :: 0 <= i < |before| ==> before[i] == after[i];
    if e.Arrive? {
      assert after[|before|] == e.record && after[..|before|] == before;
      var p, q := GroupPayloads(c, before, g), GroupPayloads(c, after, g);
      assert forall i :: 0 <= i < |p| ==> p[i] == q[i];
      assert GroupOf(c, e.record) == g ==> q[|p|] == e.record.payload;
    } else {
      assert after == before;
    }
  }

  lemma {:induction false} CombineFolds(reduce: Reduction, d: Domain, folds: seq<Json>, segments: seq<seq<Json>>)
    requires Succeeds(reduce, d) && Associative(reduce, d) && |folds| == |segments| && Within(d, Flatten(segments))
    requires forall i :: 0 <= i < |segments| ==> segments[i] != [] && FoldLeft(reduce, segments[i]) == Some(folds[i])
    ensures Within(d, folds) && Combine(reduce, folds) == Combine(reduce, Flatten(segments))
  {
    hide Succeeds, Associative;
    forall i | 0 <= i < |folds| ensures d(folds[i]) {
      FlattenWithin(d, segments, i);
      CombineSome(reduce, d, segments[i]);
    }
    if folds != [] {
      var n := |folds| - 1;
      var before := Flatten(segments[..n]);
      assert Flatten(segments) == before + segments[n];
      PartsWithin(d, before, segments[n]);
      FlattenWithin(d, segments, n);
      CombineFolds(reduce, d, folds[..n], segments[..n]);
      assert folds == folds[..n] + [folds[n]];
      CombineAppend(reduce, d, folds[..n], folds[n]);
      CombineConcat(reduce, d, before, segments[n]);
    }
  }

  /**
   However timer calls cut its work, one reducer's results for a group fold to the fold of the group's
   payloads in their order of arrival, for any UDF that associates on those payloads.
   */
  lemma ResultsFoldArrivals(c: Config, d: Domain, events: seq<Event>, g: StateKey)
    requires c.size > 0 && Succeeds(c.reduce, d) && Associative(c.reduce, d)
    requires AllKeyed(Arrived(events)) && Within(d, GroupPayloads(c, Arrived(events), g))
    ensures Combine(c.reduce, Results(c, events, g)) == Combine(c.reduce, GroupPayloads(c, Arrived(events), g))
    ensures Within(d, Results(c, events, g))
  {
    hide Run, SegmentsOf, Arrivals, PayloadsOf, FoldLeft, GroupPayloads, Arrived, Succeeds, Associative, Flatten, Within;
    ArrivalsAreGroupPayloads(c, d, events, g);
    OutputsAreSegmentFolds(c, events, g);
    var s, segments := Run(c, events), SegmentsOf(c, events, g);
    PartsWithin(d, Flatten(segments.closed), segments.open);
    CombineFolds(c.reduce, d, PayloadsOf(s.emitted, g), segments.closed);
    CombineConcat(c.reduce, d, Flatten(segments.closed), segments.open);
    var live := LiveOf(c, events, g);
    LiveFoldsOpen(c, d, events, g);
    hide LiveOf;
    CombineConcat(c.reduce, d, PayloadsOf(s.emitted, g), live);
    WholeWithin(d, PayloadsOf(s.emitted, g), live);
  }

  lemma LiveFoldsOpen(c: Config, d: Domain, events: seq<Event>, g: StateKey)
    requires c.size > 0 && Succeeds(c.reduce, d) && Within(d, Arrivals(c, events, g))
    ensures Within(d, LiveOf(c, events, g))
    ensures Combine(c.reduce, LiveOf(c, events, g)) == Combine(c.reduce, SegmentsOf(c, events, g).open)
  {
    hide Run, SegmentsOf, Arrivals, PayloadsOf, Succeeds, FoldLeft;
    OutputsAreSegmentFolds(c, events, g);
    if g in Run(c, events).table {
      LiveIsInside(c, d, events, g);
      FoldOne(c.reduce, Run(c, events).table[g].accumulator);
    }
  }

  // ----- splitting over reducers -----

  function ReducerOf(h: Hashing, token: string, reducers: nat): nat
    requires reducers > 0
  {
    h.digest(token) % reducers
  }

  predicate RoutesTo(h: Hashing, reducers: nat, t: nat, r: Record)
    requires reducers > 0
  {
    StableHashPartition(h, r.key, reducers) == Ok(t)
  }

  /** What one upstream subtask sends to reducer t. */
  function Share(h: Hashing, reducers: nat, t: nat, records: seq<Record>): seq<Record>
    requires reducers > 0
  {
    Filter(records, r => RoutesTo(h, reducers, t, r))
  }

  lemma {:induction false} PayloadsAppendAll(c: Config, a: seq<Record>, b: seq<Record>, g: StateKey)
    requires c.size > 0
    ensures GroupPayloads(c, a + b, g) == GroupPayloads(c, a, g) + GroupPayloads(c, b, g)
  {
    if b == [] {
      assert a + b == a;
    } else {
      PayloadsAppendAll(c, a, b[..|b| - 1], g);
      assert (a + b)[..|a + b| - 1] == a + b[..|b| - 1];
    }
  }

  /** A reducer's share holds a group's records, all of them and in order, if it is the group's; else none. */
  lemma {:induction false} ShareOfGroup(
    c: Config, h: Hashing, reducers: nat, t: nat, records: seq<Record>, g: StateKey)
    requires c.size > 0 && reducers > 0 && h.canonical == c.canonical && AllKeyed(records)
    ensures GroupPayloads(c, Share(h, reducers, t, records), g)
         == if t == ReducerOf(h, g.1, reducers) then GroupPayloads(c, records, g) else []
  {
    if records != [] {
      var init, last := records[..|records| - 1], records[|records| - 1];
      ShareOfGroup(c, h, reducers, t, init, g);
      var share := Share(h, reducers, t, init);
      if RoutesTo(h, reducers, t, last) {
        assert (share + [last])[..|share|] == share;
      } else {
        assert Share(h, reducers, t, records) == share;
      }
    }
  }

  lemma {:induction false} PayloadsIgnoreOrder(c: Config, a: seq<Record>, b: seq<Record>, g: StateKey)
    requires c.size > 0 && multiset(a) == multiset(b)
    ensures multiset(GroupPayloads(c, a, g)) == multiset(GroupPayloads(c, b, g))
  {
    if a == [] {
      assert |multiset(b)| == 0;
    } else {
      var init, x := a[..|a| - 1], a[|a| - 1];
      assert a == init + [x];
      var p, q := TakeOut(a, b);
      assert b == p + ([x] + q);
      PayloadsIgnoreOrder(c, init, p + q, g);
      PayloadsAppendAll(c, init, [x], g);
      PayloadsAppendAll(c, p, [x] + q, g);
      PayloadsAppendAll(c, [x], q, g);
      PayloadsAppendAll(c, p, q, g);
    }
  }

  // ----- merging channels -----

  function Bare(log: seq<(ChannelIdentity, Record)>): seq<Record> {
    if log == [] then [] else Bare(log[..|log| - 1]) + [log[|log| - 1].1]
  }

  /** The records of the channels of some identities, channel by channel. */
  function ByChannel(log: seq<(ChannelIdentity, Record)>, ids: seq<ChannelIdentity>): seq<Record> {
    if ids == [] then []
    else ByChannel(log, ids[..|ids| - 1]) + FanIn.From(log, ids[|ids| - 1])
  }

  lemma {:induction false} ByChannelAppend(
    log: seq<(ChannelIdentity, Record)>, entry: (ChannelIdentity, Record), ids: seq<ChannelIdentity>)
    requires NoDuplicates(ids)
    ensures multiset(ByChannel(log + [entry], ids))
         == multiset(ByChannel(log, ids)) + (if entry.0 in ids then multiset{entry.1} else multiset{})
  {
    if ids != [] {
      var init, last := ids[..|ids| - 1], ids[|ids| - 1];
      assert ids == init + [last];
      ByChannelAppend(log, entry, init);
      FanIn.FromAppend(log, entry, last);
    }
  }

  lemma {:induction false} EmptyByChannel(ids: seq<ChannelIdentity>)
    ensures ByChannel([], ids) == []
  {
    if ids != [] {
      EmptyByChannel(ids[..|ids| - 1]);
    }
  }

  /** A merge holds just the records of its channels. */
  lemma {:induction false} MergeKeepsRecords(log: seq<(ChannelIdentity, Record)>, ids: seq<ChannelIdentity>)
    requires NoDuplicates(ids) && forall i :: 0 <= i < |log| ==> log[i].0 in ids
    ensures multiset(Bare(log)) == multiset(ByChannel(log, ids))
  {
    if log == [] {
      EmptyByChannel(ids);
    } else {
      var init, last := log[..|log| - 1], log[|log| - 1];
      assert log == init + [last];
      MergeKeepsRecords(init, ids);
      ByChannelAppend(init, last, ids);
    }
  }

  // ----- a stage of reducers -----

  /** A keyed reduce with the records that its upstream subtasks emit. */
  datatype Stage = Stage(c: Config, h: Hashing, reducers: nat, upstream: seq<seq<Record>>) {
    ghost predicate Valid() {
      && c.size > 0 && reducers > 0 && h.canonical == c.canonical
      && AllKeyed(Flatten(upstream))
    }

    /** The group's payloads are of a domain on which the UDF succeeds and associates. */
    ghost predicate Folds(g: StateKey, d: Domain)
      requires c.size > 0
    {
      && Succeeds(c.reduce, d) && Associative(c.reduce, d)
      && Within(d, GroupPayloads(c, Flatten(upstream), g))
    }
  }

  /**
   A whole run of reducer t: it merges one channel from each upstream subtask, each carrying that subtask's
   share in order, and handles the merged records with timer calls anywhere between them.
   */
  ghost predicate ReducerRun(s: Stage, t: nat, ids: seq<ChannelIdentity>,
                             log: seq<(ChannelIdentity, Record)>, events: seq<Event>)
    requires s.reducers > 0
  {
    && |ids| == |s.upstream| && NoDuplicates(ids)
    && (forall i :: 0 <= i < |log| ==> log[i].0 in ids)
    && (forall u :: 0 <= u < |ids| ==> FanIn.From(log, ids[u]) == Share(s.h, s.reducers, t, s.upstream[u]))
    && Arrived(events) == Bare(log)
  }

  lemma {:induction false} ChannelsCarryShare(s: Stage, t: nat, ids: seq<ChannelIdentity>,
                                              log: seq<(ChannelIdentity, Record)>, events: seq<Event>, n: nat)
    requires s.reducers > 0 && ReducerRun(s, t, ids, log, events) && n <= |ids|
    ensures ByChannel(log, ids[..n]) == Share(s.h, s.reducers, t, Flatten(s.upstream[..n]))
  {
    if n > 0 {
      ChannelsCarryShare(s, t, ids, log, events, n - 1);
      assert ids[..n][..n - 1] == ids[..n - 1] && s.upstream[..n][..n - 1] == s.upstream[..n - 1];
      FilterConcat(Flatten(s.upstream[..n - 1]), s.upstream[n - 1], r => RoutesTo(s.h, s.reducers, t, r));
    }
  }

  lemma {:induction false} SharesAreKeyed(h: Hashing, reducers: nat, t: nat, records: seq<Record>)
    requires reducers > 0
    ensures AllKeyed(Share(h, reducers, t, records))
  {
    if records != [] {
      SharesAreKeyed(h, reducers, t, records[..|records| - 1]);
    }
  }

  lemma SameRecordsSameKeys(a: seq<Record>, b: seq<Record>)
    requires multiset(a) == multiset(b) && AllKeyed(a)
    ensures AllKeyed(b)
  {
    forall i | 0 <= i < |b| ensures b[i].key != Null {
      assert b[i] in multiset(a);
    }
  }

  lemma GroupsIgnoreOrder(c: Config, d: Domain, a: seq<Record>, b: seq<Record>, g: StateKey)
    requires c.size > 0 && Succeeds(c.reduce, d) && Associative(c.reduce, d) && Commutative(c.reduce, d)
    requires multiset(a) == multiset(b) && Within(d, GroupPayloads(c, a, g))
    ensures Combine(c.reduce, GroupPayloads(c, a, g)) == Combine(c.reduce, GroupPayloads(c, b, g))
    ensures Within(d, GroupPayloads(c, b, g))
  {
    PayloadsIgnoreOrder(c, a, b, g);
    WithinIgnoresOrder(d, GroupPayloads(c, a, g), GroupPayloads(c, b, g));
    CombineIgnoresOrder(c.reduce, d, GroupPayloads(c, a, g), GroupPayloads(c, b, g));
  }

  lemma {:induction false} BareOfOneChannel(log: seq<(ChannelIdentity, Record)>, id: ChannelIdentity)
    requires forall i :: 0 <= i < |log| ==> log[i].0 == id
    ensures Bare(log) == FanIn.From(log, id)
  {
    if log != [] {
      BareOfOneChannel(log[..|log| - 1], id);
    }
  }

  /**
   With a single upstream subtask the order of arrival survives, so an associative UDF need not commute: the
   group's reducer folds its payloads in exactly the order in which they were emitted.
   */
  lemma OneUpstreamKeepsOrder(s: Stage, ids: seq<ChannelIdentity>,
                              log: seq<(ChannelIdentity, Record)>, events: seq<Event>, g: StateKey, d: Domain)
    requires s.Valid() && s.Folds(g, d) && |s.upstream| == 1
    requires ReducerRun(s, ReducerOf(s.h, g.1, s.reducers), ids, log, events)
    ensures Combine(s.c.reduce, Results(s.c, events, g)) == Combine(s.c.reduce, GroupPayloads(s.c, s.upstream[0], g))
  {
    hide ReducerOf, Bare, Share, Flatten, Results, GroupPayloads, Combine, Succeeds, Associative;
    var t := ReducerOf(s.h, g.1, s.reducers);
    BareOfOneChannel(log, ids[0]);
    FlattenOne(s.upstream);
    SharesAreKeyed(s.h, s.reducers, t, s.upstream[0]);
    ShareOfGroup(s.c, s.h, s.reducers, t, s.upstream[0], g);
    ResultsFoldArrivals(s.c, d, events, g);
  }

  lemma FlattenOne<T>(ss: seq<seq<T>>)
    requires |ss| == 1
    ensures Flatten(ss) == ss[0]
  {
    assert ss == [] + [ss[0]];
    FlattenAppend([], ss[0]);
  }

  /** A reducer's results are the fold of the whole group if the group is its own; otherwise there are none. */
  lemma ReducerFoldsItsGroups(s: Stage, t: nat, ids: seq<ChannelIdentity>,
                              log: seq<(ChannelIdentity, Record)>, events: seq<Event>, g: StateKey, d: Domain)
    requires s.Valid() && s.Folds(g, d) && Commutative(s.c.reduce, d) && ReducerRun(s, t, ids, log, events)
    ensures Combine(s.c.reduce, Results(s.c, events, g))
         == if t == ReducerOf(s.h, g.1, s.reducers)
            then Combine(s.c.reduce, GroupPayloads(s.c, Flatten(s.upstream), g)) else None
    ensures Within(d, Results(s.c, events, g))
    ensures t != ReducerOf(s.h, g.1, s.reducers) ==> Results(s.c, events, g) == []
  {
    var share := Share(s.h, s.reducers, t, Flatten(s.upstream));
    assert multiset(Arrived(events)) == multiset(share) by {
      MergeKeepsRecords(log, ids);
      ChannelsCarryShare(s, t, ids, log, events, |ids|);
      assert ids[..|ids|] == ids && s.upstream[..|ids|] == s.upstream;
    }
    SharesAreKeyed(s.h, s.reducers, t, Flatten(s.upstream));
    SameRecordsSameKeys(share, Arrived(events));
    ShareOfGroup(s.c, s.h, s.reducers, t, Flatten(s.upstream), g);
    GroupsIgnoreOrder(s.c, d, share, Arrived(events), g);
    ResultsFoldArrivals(s.c, d, events, g);
    CombineSome(s.c.reduce, d, Results(s.c, events, g));
  }

  /** The results of the first n reducers. */
  ghost function StageResults(c: Config, runs: seq<seq<Event>>, g: StateKey, n: nat): seq<Json>
    requires c.size > 0 && n <= |runs|
  {
    if n == 0 then [] else StageResults(c, runs, g, n - 1) + Results(c, runs[n - 1], g)
  }

  ghost predicate StageRun(s: Stage, ids: seq<seq<ChannelIdentity>>,
                           logs: seq<seq<(ChannelIdentity, Record)>>, runs: seq<seq<Event>>)
    requires s.reducers > 0
  {
    && |ids| == |logs| == |runs| == s.reducers
    && forall t :: 0 <= t < s.reducers ==> ReducerRun(s, t, ids[t], logs[t], runs[t])
  }

  lemma {:induction false} ResultsUpTo(s: Stage, ids: seq<seq<ChannelIdentity>>,
                                       logs: seq<seq<(ChannelIdentity, Record)>>, runs: seq<seq<Event>>,
                                       g: StateKey, d: Domain, n: nat)
    requires s.Valid() && s.Folds(g, d) && Commutative(s.c.reduce, d) && StageRun(s, ids, logs, runs) && n <= s.reducers
    ensures Combine(s.c.reduce, StageResults(s.c, runs, g, n))
         == if ReducerOf(s.h, g.1, s.reducers) < n
            then Combine(s.c.reduce, GroupPayloads(s.c, Flatten(s.upstream), g)) else None
    ensures Within(d, StageResults(s.c, runs, g, n))
  {
    hide ReducerOf, GroupPayloads, FoldLeft, Results, ReducerRun, Succeeds, Associative, Commutative, AllKeyed, Flatten;
    if n > 0 {
      ResultsUpTo(s, ids, logs, runs, g, d, n - 1);
      ReducerFoldsItsGroups(s, n - 1, ids[n - 1], logs[n - 1], runs[n - 1], g, d);
      CombineConcat(s.c.reduce, d, StageResults(s.c, runs, g, n - 1), Results(s.c, runs[n - 1], g));
    }
  }

  /**
   Parallel equals sequential. For any number of reducers, any split of keyed records over upstream subtasks
   and any merge of the channels at each reducer: what all reducers emitted for a group or still hold folds
   to the same value as what one operator makes of the same records in any order, under any timer calls;
   namely the fold of the group's payloads. Only the reducer that the key hashes to ever has anything for it.
   */
  lemma ParallelIsSequential(s: Stage, ids: seq<seq<ChannelIdentity>>,
                             logs: seq<seq<(ChannelIdentity, Record)>>, runs: seq<seq<Event>>,
                             sequential: seq<Event>, g: StateKey, d: Domain)
    requires s.Valid() && s.Folds(g, d) && Commutative(s.c.reduce, d) && StageRun(s, ids, logs, runs)
    requires multiset(Arrived(sequential)) == multiset(Flatten(s.upstream))
    ensures Combine(s.c.reduce, StageResults(s.c, runs, g, s.reducers))
         == Combine(s.c.reduce, Results(s.c, sequential, g))
         == Combine(s.c.reduce, GroupPayloads(s.c, Flatten(s.upstream), g))
    ensures forall t :: 0 <= t < s.reducers && t != ReducerOf(s.h, g.1, s.reducers) ==>
              PayloadsOf(Run(s.c, runs[t]).emitted, g) == [] && g !in Run(s.c, runs[t]).table
  {
    ResultsUpTo(s, ids, logs, runs, g, d, s.reducers);
    SameRecordsSameKeys(Flatten(s.upstream), Arrived(sequential));
    GroupsIgnoreOrder(s.c, d, Flatten(s.upstream), Arrived(sequential), g);
    ResultsFoldArrivals(s.c, d, sequential, g);
    forall t | 0 <= t < s.reducers && t != ReducerOf(s.h, g.1, s.reducers)
      ensures PayloadsOf(Run(s.c, runs[t]).emitted, g) == [] && g !in Run(s.c, runs[t]).table
    {
      ReducerFoldsItsGroups(s, t, ids[t], logs[t], runs[t], g, d);
    }
  }
}
