/** Whole runs of the reduce operator: what it has emitted and what it still holds, group by group. */
module WindowRuns {
  import opened Wrappers
  import opened Records
  import opened Sequences
  import opened Window
  import Text

  datatype Event = Arrive(record: Record) | Tick(now: int)

  /** The table, and all outputs so far with the entries they came from. */
  datatype State = State(table: Table, emitted: seq<(StateKey, Record)>)

  /** An arrival that the operator refuses, or whose UDF fails, leaves the table as it is. */
  function Accepted(c: Config, table: Table, r: Record): bool
    requires c.size > 0
  {
    Process(c, table, r).Ok?
  }

  function Step(c: Config, s: State, e: Event): State
    requires c.size > 0 && OfSize(c.size, s.table.Keys)
  {
    match e
    case Arrive(r) => if Accepted(c, s.table, r) then s.(table := Process(c, s.table, r).value) else s
    case Tick(now) => State(s.table - Due(s.table, now), s.emitted + Emissions(c, s.table, now))
  }

  ghost function Run(c: Config, events: seq<Event>): (s: State)
    requires c.size > 0
    ensures OfSize(c.size, s.table.Keys)
  {
    if events == [] then State(map[], [])
    else Step(c, Run(c, events[..|events| - 1]), events[|events| - 1])
  }

  /** The payloads of a group's accepted records, in order of arrival. */
  ghost function Arrivals(c: Config, events: seq<Event>, g: StateKey): seq<Json>
    requires c.size > 0
  {
    if events == [] then []
    else
      var before, e := events[..|events| - 1], events[|events| - 1];
      Arrivals(c, before, g)
      + (if e.Arrive? && GroupOf(c, e.record) == g && Accepted(c, Run(c, before).table, e.record)
         then [e.record.payload] else [])
  }

  /** The payloads emitted for a group, in order. */
  function PayloadsOf(emitted: seq<(StateKey, Record)>, g: StateKey): seq<Json> {
    if emitted == [] then []
    else
      var last := emitted[|emitted| - 1];
      PayloadsOf(emitted[..|emitted| - 1], g) + (if last.0 == g then [last.1.payload] else [])
  }

  /**
   A group's arrivals cut at the timer calls that emitted it: the segments already emitted, and the one that
   is still open.
   */
  datatype Segments = Segments(closed: seq<seq<Json>>, open: seq<Json>)

  ghost function SegmentsOf(c: Config, events: seq<Event>, g: StateKey): Segments
    requires c.size > 0
  {
    if events == [] then Segments([], [])
    else
      var before, e := events[..|events| - 1], events[|events| - 1];
      var s := SegmentsOf(c, before, g);
      match e
      case Arrive(r) =>
        if GroupOf(c, r) == g && Accepted(c, Run(c, before).table, r) then s.(open := s.open + [r.payload]) else s
      case Tick(now) => CutAt(s, now, g)
  }

  /** A timer call closes the open segment of a group whose window has ended. */
  function CutAt(s: Segments, now: int, g: StateKey): Segments {
    if g.0.end <= now && s.open != [] then Segments(s.closed + [s.open], []) else s
  }

  /** The left fold of a nonempty sequence of payloads; None if some step of it fails. */
  function FoldLeft(reduce: (Json, Json) -> Option<Json>, payloads: seq<Json>): Option<Json>
    requires payloads != []
  {
    var last := payloads[|payloads| - 1];
    if |payloads| == 1 then Some(last)
    else
      match FoldLeft(reduce, payloads[..|payloads| - 1])
      case None => None
      case Some(accumulator) => reduce(accumulator, last)
  }

  lemma FoldAppend(reduce: (Json, Json) -> Option<Json>, payloads: seq<Json>, x: Json)
    requires payloads != [] && FoldLeft(reduce, payloads).Some?
    ensures FoldLeft(reduce, payloads + [x]) == reduce(FoldLeft(reduce, payloads).value, x)
  {
    assert (payloads + [x])[..|payloads|] == payloads;
  }

  lemma {:induction false} PayloadsConcat(a: seq<(StateKey, Record)>, b: seq<(StateKey, Record)>, g: StateKey)
    ensures PayloadsOf(a + b, g) == PayloadsOf(a, g) + PayloadsOf(b, g)
  {
    if b == [] {
      assert a + b == a;
    } else {
      var init := b[..|b| - 1];
      PayloadsConcat(a, init, g);
      assert (a + b)[..|a + b| - 1] == a + init;
    }
  }

  /** Among outputs of distinct entries, a group's payload occurs once if at all. */
  lemma {:induction false} PayloadsDistinct(out: seq<(StateKey, Record)>, g: StateKey)
    requires forall i, j :: 0 <= i < j < |out| ==> out[i].0 != out[j].0
    ensures (forall i :: 0 <= i < |out| ==> out[i].0 != g) ==> PayloadsOf(out, g) == []
    ensures forall i :: 0 <= i < |out| && out[i].0 == g ==> PayloadsOf(out, g) == [out[i].1.payload]
  {
    if out != [] {
      PayloadsDistinct(out[..|out| - 1], g);
    }
  }

  /** One timer call emits a group's accumulator exactly if its window is due. */
  lemma TickEmits(c: Config, table: Table, now: int, g: StateKey)
    requires OfSize(c.size, table.Keys)
    ensures PayloadsOf(Emissions(c, table, now), g)
         == if g in table && g.0.end <= now then [table[g].accumulator] else []
  {
    var due := Sorted(c.size, Due(table, now));
    var out := Emissions(c, table, now);
    forall i, j | 0 <= i < j < |out| ensures out[i].0 != out[j].0 {
      BeforeTotal(c.size, due[i], due[j]);
    }
    PayloadsDistinct(out, g);
    if g in Due(table, now) {
      var i :| 0 <= i < |due| && due[i] == g;
      assert out[i].0 == g;
    }
  }

  /** The live entry of a group is the fold of its open segment. */
  ghost predicate LiveIsFold(c: Config, s: State, g: StateKey, open: seq<Json>) {
    && (g in s.table <==> open != [])
    && (g in s.table ==>
          && FoldLeft(c.reduce, open) == Some(s.table[g].accumulator)
          && s.table[g].key != Null && c.canonical(s.table[g].key) == g.1)
  }

  ghost predicate EmittedAreFolds(c: Config, payloads: seq<Json>, closed: seq<seq<Json>>) {
    && |payloads| == |closed|
    && forall i :: 0 <= i < |closed| ==> closed[i] != [] && FoldLeft(c.reduce, closed[i]) == Some(payloads[i])
  }

  /**
   On every run and for every group: the payloads it emitted, in order, are the folds of its closed segments;
   its live accumulator, if any, is the fold of the open one; and the segments laid end to end are exactly
   the group's arrivals, so that none is lost, repeated or reordered.
   */
  lemma {:induction false} OutputsAreSegmentFolds(c: Config, events: seq<Event>, g: StateKey)
    requires c.size > 0
    ensures var s, segments := Run(c, events), SegmentsOf(c, events, g);
            && EmittedAreFolds(c, PayloadsOf(s.emitted, g), segments.closed)
            && LiveIsFold(c, s, g, segments.open)
            && Flatten(segments.closed) + segments.open == Arrivals(c, events, g)
  {
    if events != [] {
      var before, e := events[..|events| - 1], events[|events| - 1];
      OutputsAreSegmentFolds(c, before, g);
      match e {
        case Arrive(r) => ArrivalKeepsFolds(c, before, r, g);
        case Tick(now) =>
          TickKeepsLive(c, Run(c, before), SegmentsOf(c, before, g), now, g);
          TickKeepsEmitted(c, Run(c, before), SegmentsOf(c, before, g), now, g);
      }
    }
  }

  lemma ArrivalKeepsFolds(c: Config, before: seq<Event>, r: Record, g: StateKey)
    requires c.size > 0
    requires LiveIsFold(c, Run(c, before), g, SegmentsOf(c, before, g).open)
    ensures var events := before + [Arrive(r)];
            && LiveIsFold(c, Run(c, events), g, SegmentsOf(c, events, g).open)
            && Run(c, events).emitted == Run(c, before).emitted
  {
    hide LiveIsFold, Accepted;
    var events := before + [Arrive(r)];
    assert events[..|before|] == before;
    ArriveKeepsLive(c, Run(c, before), r, g, SegmentsOf(c, before, g).open);
  }

  lemma ArriveKeepsLive(c: Config, s: State, r: Record, g: StateKey, open: seq<Json>)
    requires c.size > 0 && OfSize(c.size, s.table.Keys) && LiveIsFold(c, s, g, open)
    ensures var s' := Step(c, s, Arrive(r));
            && s'.emitted == s.emitted
            && LiveIsFold(c, s', g, if GroupOf(c, r) == g && Accepted(c, s.table, r) then open + [r.payload] else open)
  {
    hide FoldLeft;
    if open != [] {
      FoldAppend(c.reduce, open, r.payload);
    } else {
      FoldOne(c.reduce, r.payload);
      assert open + [r.payload] == [r.payload];
    }
  }

  lemma FoldOne(reduce: (Json, Json) -> Option<Json>, x: Json)
    ensures FoldLeft(reduce, [x]) == Some(x)
  {
  }

  lemma TickKeepsLive(c: Config, s: State, segments: Segments, now: int, g: StateKey)
    requires c.size > 0 && OfSize(c.size, s.table.Keys)
    requires LiveIsFold(c, s, g, segments.open)
    ensures LiveIsFold(c, Step(c, s, Tick(now)), g, CutAt(segments, now, g).open)
    ensures Flatten(CutAt(segments, now, g).closed) + CutAt(segments, now, g).open
         == Flatten(segments.closed) + segments.open
  {
    hide Emissions, FoldLeft;
    FlattenAppend(segments.closed, segments.open);
  }

  lemma TickKeepsEmitted(c: Config, s: State, segments: Segments, now: int, g: StateKey)
    requires c.size > 0 && OfSize(c.size, s.table.Keys)
    requires LiveIsFold(c, s, g, segments.open)
    requires EmittedAreFolds(c, PayloadsOf(s.emitted, g), segments.closed)
    ensures EmittedAreFolds(c, PayloadsOf(Step(c, s, Tick(now)).emitted, g), CutAt(segments, now, g).closed)
  {
    hide Emissions, FoldLeft, PayloadsOf;
    TickEmits(c, s.table, now, g);
    PayloadsConcat(s.emitted, Emissions(c, s.table, now), g);
  }

  /** A record's headers give the bounds of this window. */
  predicate NamesWindow(c: Config, r: Record, w: TimeWindow) {
    && "window_start" in r.headers && r.headers["window_start"] == String(c.format(w.start))
    && "window_end" in r.headers && r.headers["window_end"] == String(c.format(w.end))
  }

  /** The records of a group that have arrived since it was last emitted. */
  ghost function OpenRecords(c: Config, events: seq<Event>, g: StateKey): seq<Record>
    requires c.size > 0
  {
    if events == [] then []
    else
      var before, e := events[..|events| - 1], events[|events| - 1];
      var open := OpenRecords(c, before, g);
      match e
      case Arrive(r) => if GroupOf(c, r) == g && Accepted(c, Run(c, before).table, r) then open + [r] else open
      case Tick(now) => if g.0.end <= now then [] else open
  }

  ghost predicate StandsForFirst(table: Table, g: StateKey, open: seq<Record>) {
    && (g in table <==> open != [])
    && (g in table ==>
          && table[g].representative == open[0] && table[g].key == open[0].key
          && g.0.Contains(open[0].processingTime))
  }

  /** An entry stands for the first record since its group was last emitted, and that record is of its window. */
  lemma {:induction false} RepresentativeIsFirst(c: Config, events: seq<Event>, g: StateKey)
    requires c.size > 0
    ensures StandsForFirst(Run(c, events).table, g, OpenRecords(c, events, g))
  {
    if events != [] {
      var before, e := events[..|events| - 1], events[|events| - 1];
      RepresentativeIsFirst(c, before, g);
      hide StandsForFirst, Accepted, Process, Emissions;
      StepKeepsFirst(c, Run(c, before), e, g, OpenRecords(c, before, g));
    }
  }

  lemma StepKeepsFirst(c: Config, s: State, e: Event, g: StateKey, open: seq<Record>)
    requires c.size > 0 && OfSize(c.size, s.table.Keys) && StandsForFirst(s.table, g, open)
    ensures StandsForFirst(Step(c, s, e).table, g,
                           match e
                           case Arrive(r) => if GroupOf(c, r) == g && Accepted(c, s.table, r) then open + [r] else open
                           case Tick(now) => if g.0.end <= now then [] else open)
  {
    hide Emissions;
    if e.Arrive? {
      ContainsItsInstant(c, e.record);
    }
  }

  lemma ContainsItsInstant(c: Config, r: Record)
    requires c.size > 0
    ensures GroupOf(c, r).0.Contains(r.processingTime)
  {
    var start := r.processingTime / c.size * c.size;
    StartIsAligned(r.processingTime / c.size, c.size);
    AssignedWindowIsUnique(c.size, r.processingTime, TimeWindow(start, start + c.size));
  }

  lemma StartIsAligned(q: int, size: int)
    requires size > 0
    ensures (q * size) % size == 0
  {
    if (q * size) % size != 0 {
      var d := q * size / size;
      assert q * size == d * size + (q * size) % size;
      assert (q - d) * size == (q * size) % size;
      if q - d > 0 {
        Scale(1, q - d, size);
      } else {
        Scale(q - d, 0, size);
      }
    }
  }

  /**
   On every run: no output precedes the end of its window, every output carries its entry's key and its
   window's bounds, and a timer call leaves nothing that is due and emits in ascending order of (window end, key).
   */
  lemma {:induction false} OutputsAreTimely(c: Config, events: seq<Event>)
    requires c.size > 0
    ensures var s := Run(c, events);
            && (forall i :: 0 <= i < |s.emitted| ==>
                  && s.emitted[i].0.0.end <= s.emitted[i].1.processingTime
                  && s.emitted[i].1.key != Null && c.canonical(s.emitted[i].1.key) == s.emitted[i].0.1
                  && NamesWindow(c, s.emitted[i].1, s.emitted[i].0.0))
            && (forall k :: k in s.table ==> s.table[k].key != Null && c.canonical(s.table[k].key) == k.1)
    ensures events != [] && events[|events| - 1].Tick? ==>
              var s, now := Run(c, events[..|events| - 1]), events[|events| - 1].now;
              var out := Emissions(c, s.table, now);
              && Run(c, events).emitted == s.emitted + out
              && (forall k :: k in Run(c, events).table ==> k.0.end > now)
              && (forall i, j :: 0 <= i < j < |out| ==>
                    || out[i].0.0.end < out[j].0.0.end
                    || (out[i].0.0.end == out[j].0.0.end && Text.Less(out[i].0.1, out[j].0.1)))
  {
    if events != [] {
      var before, e := events[..|events| - 1], events[|events| - 1];
      OutputsAreTimely(c, before);
      var s := Run(c, before);
      if e.Tick? {
        hide Run;
        DueAreSorted(c, s.table, e.now);
      }
    }
  }

  lemma DueAreSorted(c: Config, table: Table, now: int)
    requires c.size > 0 && OfSize(c.size, table.Keys)
    ensures var out := Emissions(c, table, now);
            && (forall i :: 0 <= i < |out| ==>
                  && out[i].0 in table && out[i].0.0.end <= now
                  && out[i].1.processingTime == now && out[i].1.key == table[out[i].0].key
                  && NamesWindow(c, out[i].1, out[i].0.0))
            && (forall i, j :: 0 <= i < j < |out| ==> Before(out[i].0, out[j].0))
  {
    var due := Sorted(c.size, Due(table, now));
    assert forall i :: 0 <= i < |due| ==> due[i] in due;
  }

  // ----- what an output is -----

  /** The headers of a record but for the two that give the bounds of a window. */
  predicate SameOtherHeaders(r: Record, r': Record) {
    && (forall name :: name in r.headers ==> name in r'.headers)
    && (forall name :: name in r'.headers ==> name in r.headers || name == "window_start" || name == "window_end")
    && (forall name :: name in r.headers && name != "window_start" && name != "window_end" ==> r'.headers[name] == r.headers[name])
  }

  /**
   What a timer call emits for a group: the first record since the group was last emitted, with its own id, type, key and
   other headers, but stamped with the time of the call and with the group's window.
   */
  lemma OutputsStandForFirst(c: Config, before: seq<Event>, now: int, i: nat)
    requires c.size > 0 && i < |Emissions(c, Run(c, before).table, now)|
    ensures var (g, output) := Emissions(c, Run(c, before).table, now)[i];
            var open := OpenRecords(c, before, g);
            && open != [] && output.recordId == open[0].recordId && output.messageType == open[0].messageType
            && output.key == open[0].key && output.processingTime == now
            && SameOtherHeaders(open[0], output) && NamesWindow(c, output, g.0)
            && g.0.Contains(open[0].processingTime) && g.0.end <= now
  {
    hide Run, OpenRecords;
    var table := Run(c, before).table;
    var due := Sorted(c.size, Due(table, now));
    assert due[i] in due && due[i] in Due(table, now);
    RepresentativeIsFirst(c, before, due[i]);
  }

  /** What the operator refuses: a record without a key, and one on which the UDF fails with what its group has so far. */
  lemma RefusedIff(c: Config, before: seq<Event>, r: Record)
    requires c.size > 0
    ensures var open := OpenRecords(c, before, GroupOf(c, r));
            var table := Run(c, before).table;
            match Process(c, table, r)
            case Err(e) => if r.key == Null then e == UnkeyedRecord
                           else e == UdfFailed && open != [] && GroupOf(c, r) in table
                                && c.reduce(table[GroupOf(c, r)].accumulator, r.payload) == None
            case Ok(_) =>
              r.key != Null
              && (open == [] || (GroupOf(c, r) in table && c.reduce(table[GroupOf(c, r)].accumulator, r.payload).Some?))
  {
    hide Run, OpenRecords;
    RepresentativeIsFirst(c, before, GroupOf(c, r));
  }
}
