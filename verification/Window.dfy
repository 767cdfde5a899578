/** Processing-time tumbling windows and the keyed reduce operator (operators/window.py). */
module Window {
  import opened Wrappers
  import opened Records
  import opened Sequences
  import Text

  // ----- window assignment -----

  datatype TimeWindow = TimeWindow(start: int, end: int) {
    predicate Contains(t: int) {
      start <= t < end
    }
  }

  /** Python's floor division by a positive size is Dafny's. */
  function Assign(size: int, t: int): TimeWindow
    requires size > 0
  {
    var start := t / size * size;
    TimeWindow(start, start + size)
  }

  lemma Scale(a: int, b: int, n: int)
    requires a <= b && 0 < n
    ensures a * n <= b * n
  {
  }

  /** Of all windows of the size that start at a multiple of it, the assigned one alone contains the instant. */
  lemma AssignedWindowIsUnique(size: int, t: int, w: TimeWindow)
    requires size > 0 && w.end == w.start + size && w.start % size == 0
    ensures w.Contains(t) <==> w == Assign(size, t)
  {
    var q, k := t / size, w.start / size;
    assert t == q * size + t % size && w.start == k * size;
    if w.Contains(t) {
      if k < q {
        Scale(k + 1, q, size);
      } else if k > q {
        Scale(q + 1, k, size);
      }
    }
  }

  // ----- the operator's table -----

  /** A window and the canonical JSON of a key. */
  type StateKey = (TimeWindow, string)

  datatype WindowState = WindowState(key: Json, accumulator: Json, representative: Record)

  type Table = map<StateKey, WindowState>

  datatype OperatorError = NotOpen | UnkeyedRecord | UdfFailed

  /**
   The operator's parameters. `reduce` is None where the UDF raises or returns something that is not JSON;
   `canonical` is the canonical JSON text and `format` the rendering of window bounds.
   */
  datatype Config = Config(
    size: int,
    reduce: (Json, Json) -> Option<Json>,
    canonical: Json -> string,
    format: int -> string)

  function GroupOf(c: Config, r: Record): StateKey
    requires c.size > 0
  {
    (Assign(c.size, r.processingTime), c.canonical(r.key))
  }

  function Process(c: Config, table: Table, r: Record): Result<Table, OperatorError>
    requires c.size > 0
  {
    if r.key == Null then Err(UnkeyedRecord)
    else
      var g := GroupOf(c, r);
      if g !in table then Ok(table[g := WindowState(r.key, r.payload, r)])
      else
        match c.reduce(table[g].accumulator, r.payload)
        case None => Err(UdfFailed)
        case Some(accumulator) => Ok(table[g := table[g].(accumulator := accumulator)])
  }

  /** The order of a timer's outputs: by window end, then by canonical key. */
  predicate Before(a: StateKey, b: StateKey) {
    a.0.end < b.0.end || (a.0.end == b.0.end && Text.Less(a.1, b.1))
  }

  predicate OfSize(size: int, keys: set<StateKey>) {
    forall k :: k in keys ==> k.0.end == k.0.start + size
  }

  predicate Ascending(keys: seq<StateKey>) {
    forall i, j :: 0 <= i < j < |keys| ==> Before(keys[i], keys[j])
  }

  lemma BeforeTransitive(a: StateKey, b: StateKey, c: StateKey)
    requires Before(a, b) && Before(b, c)
    ensures Before(a, c)
  {
    if a.0.end == b.0.end == c.0.end {
      Text.LessTransitive(a.1, b.1, c.1);
    }
  }

  lemma BeforeTotal(size: int, a: StateKey, b: StateKey)
    requires OfSize(size, {a, b})
    ensures a == b || Before(a, b) || Before(b, a)
    ensures !(Before(a, b) && Before(b, a)) && !Before(a, a)
  {
    Text.LessTotal(a.1, b.1);
    if Text.Less(a.1, b.1) { Text.LessAsymmetric(a.1, b.1); }
    if Text.Less(b.1, a.1) { Text.LessAsymmetric(b.1, a.1); }
    if Text.Less(a.1, a.1) { Text.LessAsymmetric(a.1, a.1); }
  }

  predicate IsFirst(m: StateKey, keys: set<StateKey>) {
    m in keys && forall k :: k in keys ==> k == m || Before(m, k)
  }

  lemma {:induction false} FirstExists(size: int, keys: set<StateKey>)
    requires keys != {} && OfSize(size, keys)
    ensures exists m :: IsFirst(m, keys)
  {
    var k :| k in keys;
    if keys == {k} {
      assert IsFirst(k, keys);
    } else {
      FirstExists(size, keys - {k});
      var n :| IsFirst(n, keys - {k});
      BeforeTotal(size, k, n);
      if Before(k, n) {
        forall x | x in keys ensures x == k || Before(k, x) {
          if x != k && x != n {
            BeforeTransitive(k, n, x);
          }
        }
        assert IsFirst(k, keys);
      } else {
        assert IsFirst(n, keys);
      }
    }
  }

  lemma FirstIsUnique(size: int, keys: set<StateKey>)
    requires OfSize(size, keys)
    ensures forall m, n :: IsFirst(m, keys) && IsFirst(n, keys) ==> m == n
  {
    forall m, n | IsFirst(m, keys) && IsFirst(n, keys) ensures m == n {
      BeforeTotal(size, m, n);
    }
  }

  /** Python's sorted, with the timer's sort key. */
  function Sorted(size: int, keys: set<StateKey>): (s: seq<StateKey>)
    requires OfSize(size, keys)
    ensures Ascending(s)
    ensures forall k :: k in s <==> k in keys
    decreases keys
  {
    if keys == {} then []
    else
      FirstExists(size, keys);
      FirstIsUnique(size, keys);
      var m :| IsFirst(m, keys);
      [m] + Sorted(size, keys - {m})
  }

  /** What the timer emits for one entry. */
  function Emit(c: Config, k: StateKey, state: WindowState, now: int): Record {
    state.representative.(
      payload := state.accumulator,
      key := state.key,
      processingTime := now,
      headers := state.representative.headers["window_start" := String(c.format(k.0.start))]
                                             ["window_end" := String(c.format(k.0.end))])
  }

  function Due(table: Table, now: int): set<StateKey> {
    set k | k in table && k.0.end <= now
  }

  /** The timer's outputs, each with the entry it came from. */
  function Emissions(c: Config, table: Table, now: int): (out: seq<(StateKey, Record)>)
    requires OfSize(c.size, table.Keys)
    ensures |out| == |Sorted(c.size, Due(table, now))|
    ensures forall i :: 0 <= i < |out| ==>
              var k := Sorted(c.size, Due(table, now))[i];
              k in table && out[i] == (k, Emit(c, k, table[k], now))
  {
    var due := Sorted(c.size, Due(table, now));
    assert forall i :: 0 <= i < |due| ==> due[i] in due;
    seq(|due|, i requires 0 <= i < |due| => (due[i], Emit(c, due[i], table[due[i]], now)))
  }

  datatype Lifecycle = Created | Open | Closed

  class ReduceWindowOperator {
    const config: Config
    var windows: Table
    var lifecycle: Lifecycle

    ghost predicate Valid()
      reads this
    {
      config.size > 0 && OfSize(config.size, windows.Keys)
    }

    constructor (config: Config)
      requires config.size > 0
      ensures Valid() && this.config == config && windows == map[] && lifecycle == Created
    {
      this.config := config;
      windows, lifecycle := map[], Created;
    }

    /** Folds a record into its entry; if it is refused or the UDF fails, nothing has changed. */
    method ProcessRecord(r: Record) returns (error: Option<OperatorError>)
      requires Valid()
      modifies this`windows
      ensures Valid()
      ensures lifecycle != Open ==> error == Some(NotOpen) && windows == old(windows)
      ensures lifecycle == Open ==>
                match Process(config, old(windows), r)
                case Ok(table) => error == None && windows == table
                case Err(e) => error == Some(e) && windows == old(windows)
    {
      if lifecycle != Open {
        return Some(NotOpen);
      }
      if r.key == Null {
        return Some(UnkeyedRecord);
      }
      var keyToken := config.canonical(r.key);
      var window := Assign(config.size, r.processingTime);
      var stateKey := (window, keyToken);
      if stateKey !in windows {
        windows := windows[stateKey := WindowState(r.key, r.payload, r)];
        return None;
      }
      var current := windows[stateKey];
      var accumulator := config.reduce(current.accumulator, r.payload);
      if accumulator.None? {
        return Some(UdfFailed);
      }
      windows := windows[stateKey := current.(accumulator := accumulator.value)];
      return None;
    }

    /** Emits and removes the entries of all windows that have ended by `now`, in order. */
    method OnTimer(now: int) returns (r: Result<seq<Record>, OperatorError>)
      requires Valid()
      modifies this`windows
      ensures Valid()
      ensures lifecycle != Open ==> r == Err(NotOpen) && windows == old(windows)
      ensures lifecycle == Open ==>
                var out := Emissions(config, old(windows), now);
                && r.Ok? && |r.value| == |out| && (forall i :: 0 <= i < |out| ==> r.value[i] == out[i].1)
                && windows == old(windows) - Due(old(windows), now)
    {
      if lifecycle != Open {
        return Err(NotOpen);
      }
      var dueKeys := Sorted(config.size, Due(windows, now));
      var outputs: seq<Record> := [];
      for i := 0 to |dueKeys|
        invariant |outputs| == i
        invariant forall j :: 0 <= j < i ==> outputs[j] == Emissions(config, windows, now)[j].1
      {
        assert dueKeys[i] in dueKeys;
        assert dueKeys[i] in Due(windows, now);
        outputs := outputs + [Emit(config, dueKeys[i], windows[dueKeys[i]], now)];
      }
      for i := 0 to |dueKeys|
        invariant forall k :: k in windows <==> k in old(windows) && k !in dueKeys[..i]
        invariant forall k :: k in windows ==> windows[k] == old(windows)[k]
      {
        windows := windows - {dueKeys[i]};
      }
      assert dueKeys[..|dueKeys|] == dueKeys;
      assert windows == old(windows) - Due(old(windows), now);
      return Ok(outputs);
    }

    /** Open windows are discarded, not emitted. */
    method Close()
      modifies this
      ensures windows == map[] && lifecycle == Closed
    {
      windows, lifecycle := map[], Closed;
    }
  }
}
