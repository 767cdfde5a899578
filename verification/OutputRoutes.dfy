/** The output side of a task (runtime/task.py): which channel each emitted record is sent to. */
module OutputRoutes {
  import opened Wrappers
  import opened Records
  import opened Sequences
  import opened TaskIds
  import opened Routing
  import opened TopologicalSort
  import opened JobGraph
  import opened Execution
  import Text

  datatype ConnectError = ForeignSource | MalformedTaskId | Unbound | NotConnected

  /** The outgoing channels toward one operator with one partitioning. */
  datatype Group = Group(operatorId: string, partitioning: Partitioning, channels: seq<PhysicalChannel>)

  // ----- grouping -----

  function Outgoing(channels: seq<PhysicalChannel>, taskId: string): seq<PhysicalChannel> {
    Filter(channels, (c: PhysicalChannel) => c.sourceTaskId == taskId)
  }

  /** Appends a channel to its group; a new group goes last, as in a Python dict. */
  function AddTo(groups: seq<Group>, operatorId: string, p: Partitioning, c: PhysicalChannel): (r: seq<Group>)
    ensures r != []
  {
    if groups == [] then [Group(operatorId, p, [c])]
    else
      var init, last := groups[..|groups| - 1], groups[|groups| - 1];
      if last.operatorId == operatorId && last.partitioning == p
      then init + [last.(channels := last.channels + [c])]
      else if exists i :: 0 <= i < |init| && init[i].operatorId == operatorId && init[i].partitioning == p
      then AddTo(init, operatorId, p, c) + [last]
      else groups + [Group(operatorId, p, [c])]
  }

  function GroupAll(taskId: string, outgoing: seq<PhysicalChannel>): Result<seq<Group>, ConnectError> {
    if outgoing == [] then Ok([])
    else
      match GroupAll(taskId, outgoing[..|outgoing| - 1])
      case Err(e) => Err(e)
      case Ok(groups) =>
        var c := outgoing[|outgoing| - 1];
        if c.sourceTaskId != taskId then Err(ForeignSource)
        else
          match TaskCoordinates(c.targetTaskId)
          case None => Err(MalformedTaskId)
          case Some((operatorId, _)) => Ok(AddTo(groups, operatorId, c.partitioning, c))
  }

  // ----- sorting -----

  /** Stable insertion sort, as what Python's sorted returns. */
  function InsertBy<T>(s: seq<T>, x: T, less: (T, T) -> bool): seq<T> {
    if s == [] || !less(x, s[|s| - 1]) then s + [x]
    else InsertBy(s[..|s| - 1], x, less) + [s[|s| - 1]]
  }

  function SortBy<T>(s: seq<T>, less: (T, T) -> bool): seq<T> {
    if s == [] then [] else InsertBy(SortBy(s[..|s| - 1], less), s[|s| - 1], less)
  }

  lemma {:induction false} InsertIsPermutation<T>(s: seq<T>, x: T, less: (T, T) -> bool)
    ensures multiset(InsertBy(s, x, less)) == multiset(s) + multiset{x}
  {
    if s != [] && less(x, s[|s| - 1]) {
      InsertIsPermutation(s[..|s| - 1], x, less);
      assert s == s[..|s| - 1] + [s[|s| - 1]];
    }
  }

  lemma {:induction false} SortIsPermutation<T>(s: seq<T>, less: (T, T) -> bool)
    ensures multiset(SortBy(s, less)) == multiset(s)
  {
    if s != [] {
      SortIsPermutation(s[..|s| - 1], less);
      InsertIsPermutation(SortBy(s[..|s| - 1], less), s[|s| - 1], less);
      assert s == s[..|s| - 1] + [s[|s| - 1]];
    }
  }

  /** What is in order already is left as it is. */
  lemma {:induction false} SortKeepsOrdered<T>(s: seq<T>, less: (T, T) -> bool)
    requires forall i, j :: 0 <= i < j < |s| ==> !less(s[j], s[i])
    ensures SortBy(s, less) == s
  {
    if s != [] {
      SortKeepsOrdered(s[..|s| - 1], less);
      assert s == s[..|s| - 1] + [s[|s| - 1]];
    }
  }

  function PartitioningName(p: Partitioning): string {
    match p
    case Forward => "FORWARD"
    case Rebalance => "REBALANCE"
    case Hash => "HASH"
  }

  /** An order that sorting may use: what is not less is not greater than what comes before it. */
  ghost predicate Orders<T(!new)>(less: (T, T) -> bool) {
    && (forall x, y :: less(x, y) ==> !less(y, x))
    && (forall x, y, z :: !less(y, x) && !less(z, y) ==> !less(z, x))
  }

  ghost predicate InOrderBy<T>(s: seq<T>, less: (T, T) -> bool) {
    forall i, j :: 0 <= i < j < |s| ==> !less(s[j], s[i])
  }

  lemma {:induction false} InsertKeepsOrder<T(!new)>(s: seq<T>, x: T, less: (T, T) -> bool)
    requires Orders(less) && InOrderBy(s, less)
    ensures InOrderBy(InsertBy(s, x, less), less)
  {
    if s != [] {
      var init, last := s[..|s| - 1], s[|s| - 1];
      if less(x, last) {
        InsertKeepsOrder(init, x, less);
        InsertIsPermutation(init, x, less);
        var inserted := InsertBy(init, x, less);
        forall i | 0 <= i < |inserted| ensures !less(last, inserted[i]) {
          assert inserted[i] in multiset(init) + multiset{x};
          assert inserted[i] in init || inserted[i] == x;
        }
      } else {
        forall i | 0 <= i < |s| ensures !less(x, s[i]) {
          if i < |s| - 1 {
            assert !less(last, s[i]);
          }
        }
      }
    }
  }

  /** Sorting sorts. */
  lemma {:induction false} SortOrders<T(!new)>(s: seq<T>, less: (T, T) -> bool)
    requires Orders(less)
    ensures InOrderBy(SortBy(s, less), less)
  {
    if s != [] {
      SortOrders(s[..|s| - 1], less);
      InsertKeepsOrder(SortBy(s[..|s| - 1], less), s[|s| - 1], less);
    }
  }

  predicate GroupLess(a: Group, b: Group) {
    || Text.Less(a.operatorId, b.operatorId)
    || (a.operatorId == b.operatorId && Text.Less(PartitioningName(a.partitioning), PartitioningName(b.partitioning)))
  }

  function TargetSubtask(c: PhysicalChannel): nat {
    match TaskCoordinates(c.targetTaskId)
    case None => 0
    case Some((_, subtask)) => subtask
  }

  predicate SubtaskLess(a: PhysicalChannel, b: PhysicalChannel) {
    TargetSubtask(a) < TargetSubtask(b)
  }

  lemma SubtasksOrder()
    ensures Orders(SubtaskLess)
  {
    hide TargetSubtask;
  }

  lemma GroupsOrder()
    ensures Orders(GroupLess)
  {
    forall a: Group, b: Group | GroupLess(a, b) ensures !GroupLess(b, a) {
      GroupsCompare(a, b);
    }
    forall a: Group, b: Group, c: Group | !GroupLess(b, a) && !GroupLess(c, b) ensures !GroupLess(c, a) {
      GroupsCompare(a, b);
      GroupsCompare(b, c);
      GroupsCompare(a, c);
      if GroupLess(a, b) && GroupLess(b, c) {
        GroupsChain(a, b, c);
      }
    }
  }

  /** Of two groups one comes first, unless they have the same operator and partitioning. */
  lemma GroupsCompare(a: Group, b: Group)
    ensures GroupLess(a, b) ==> !GroupLess(b, a)
    ensures GroupLess(a, b) || GroupLess(b, a) || (a.operatorId == b.operatorId && a.partitioning == b.partitioning)
  {
    var p, q := PartitioningName(a.partitioning), PartitioningName(b.partitioning);
    Text.LessTotal(a.operatorId, b.operatorId);
    Text.LessTotal(p, q);
    Asymmetric(a.operatorId, b.operatorId);
    Asymmetric(p, q);
  }

  lemma Asymmetric(x: string, y: string)
    ensures !(Text.Less(x, y) && Text.Less(y, x)) && (Text.Less(x, y) ==> x != y)
  {
    if Text.Less(x, y) {
      Text.LessAsymmetric(x, y);
    }
  }

  lemma GroupsChain(a: Group, b: Group, c: Group)
    requires GroupLess(a, b) && GroupLess(b, c)
    ensures GroupLess(a, c)
  {
    var p, q, r := PartitioningName(a.partitioning), PartitioningName(b.partitioning), PartitioningName(c.partitioning);
    if Text.Less(a.operatorId, b.operatorId) && Text.Less(b.operatorId, c.operatorId) {
      Text.LessTransitive(a.operatorId, b.operatorId, c.operatorId);
    }
    if Text.Less(p, q) && Text.Less(q, r) {
      Text.LessTransitive(p, q, r);
    }
  }

  /** The opened channels of a group with their target subtasks, by subtask. */
  function Opened(group: Group): (r: Result<seq<(nat, PhysicalChannel)>, ConnectError>)
    ensures r.Ok? ==> |r.value| == |SortBy(group.channels, SubtaskLess)|
  {
    var sorted := SortBy(group.channels, SubtaskLess);
    if exists i :: 0 <= i < |sorted| && sorted[i].endpoint.None? then Err(Unbound)
    else Ok(Sequences.Map(sorted, (c: PhysicalChannel) => (TargetSubtask(c), c)))
  }

  // ----- routes -----

  function Find(channels: seq<(nat, PhysicalChannel)>, target: nat): Result<PhysicalChannel, RoutingError> {
    if channels == [] then Err(NoSuchSubtask)
    else if channels[0].0 == target then Ok(channels[0].1)
    else Find(channels[1..], target)
  }

  /** A route's choice for one record, and its router's next cursor. */
  function SelectOne(h: Hashing, p: Partitioning, channels: seq<(nat, PhysicalChannel)>, upstream: nat, cursor: nat, key: Json)
    : (Result<PhysicalChannel, RoutingError>, nat)
    requires channels != []
  {
    if p == Forward then (Ok(channels[0].1), cursor)
    else
      var (chosen, next) := RouteOne(h, p, |channels|, upstream, cursor, key);
      (match chosen
       case Err(e) => Err(e)
       case Ok(target) => Find(channels, target), next)
  }

  class OutputRoute {
    const hashing: Hashing
    const partitioning: Partitioning
    const channels: seq<(nat, PhysicalChannel)>
    const upstream: nat
    const router: ShuffleRouter?

    ghost predicate Valid()
      reads router
    {
      && channels != [] && (router == null <==> partitioning == Forward)
      && (router != null ==>
            && router.Valid() && router.hashing == hashing && router.partitioning == partitioning
            && router.parallelism == |channels| && router.upstreamSubtask == upstream)
    }

    ghost function Cursor(): nat
      reads router
    {
      if router == null then 0 else router.rebalanceCursor
    }

    constructor (hashing: Hashing, partitioning: Partitioning, channels: seq<(nat, PhysicalChannel)>, upstream: nat)
      requires channels != []
      ensures Valid() && (router != null ==> fresh(router))
      ensures this.hashing == hashing && this.partitioning == partitioning
      ensures this.channels == channels && this.upstream == upstream
      ensures Cursor() == if partitioning == Forward then 0 else upstream % |channels|
    {
      this.hashing, this.partitioning, this.channels, this.upstream := hashing, partitioning, channels, upstream;
      if partitioning == Forward {
        router := null;
      } else {
        router := new ShuffleRouter(hashing, partitioning, |channels|, upstream);
      }
    }

    method Select(key: Json) returns (r: Result<PhysicalChannel, RoutingError>)
      requires Valid()
      modifies router
      ensures Valid()
      ensures (r, Cursor()) == SelectOne(hashing, partitioning, channels, upstream, old(Cursor()), key)
    {
      if partitioning == Forward {
        return Ok(channels[0].1);
      }
      var selected := router.Route(key);
      if selected.Err? {
        return Err(selected.error);
      }
      for i := 0 to |channels|
        invariant Find(channels, selected.value) == Find(channels[i..], selected.value)
      {
        if channels[i].0 == selected.value {
          return Ok(channels[i].1);
        }
      }
      return Err(NoSuchSubtask);
    }
  }

  ghost function Routers(routes: seq<OutputRoute>): set<object> {
    set r | r in routes && r.router != null :: r.router
  }

  ghost predicate SeparateRouters(routes: seq<OutputRoute>) {
    forall i, j :: 0 <= i < j < |routes| ==> routes[i].router == null || routes[i].router != routes[j].router
  }

  datatype EmitError = Unroutable(cause: RoutingError) | SendRefused

  /** What a route makes of a record: the channel it selects, and its cursor afterwards. */
  ghost function Selection(r: OutputRoute, cursor: nat, key: Json): (Result<PhysicalChannel, RoutingError>, nat)
    requires r.channels != []
  {
    SelectOne(r.hashing, r.partitioning, r.channels, r.upstream, cursor, key)
  }

  /**
   Sends a record along every route in turn, up to the first that has no channel for it or whose channel refuses
   it; `accepts` says which channels' sends return normally.
   */
  method Emit(routes: seq<OutputRoute>, record: Record, accepts: nat -> bool)
    returns (sent: seq<PhysicalChannel>, error: Option<EmitError>)
    requires SeparateRouters(routes) && forall i :: 0 <= i < |routes| ==> routes[i].Valid()
    modifies Routers(routes)
    ensures forall i :: 0 <= i < |routes| ==> routes[i].Valid() && routes[i].channels != []
    ensures |sent| <= |routes| && (error == None <==> |sent| == |routes|)
    ensures forall i :: 0 <= i < |sent| ==>
              accepts(i) && (Ok(sent[i]), routes[i].Cursor()) == Selection(routes[i], old(routes[i].Cursor()), record.key)
    ensures error.Some? ==>
              var r := routes[|sent|];
              && r.Cursor() == Selection(r, old(r.Cursor()), record.key).1
              && match Selection(r, old(r.Cursor()), record.key).0
                 case Err(cause) => error.value == Unroutable(cause)
                 case Ok(_) => error.value == SendRefused && !accepts(|sent|)
    ensures forall i :: |sent| < i < |routes| ==> routes[i].Cursor() == old(routes[i].Cursor())
  {
    hide SelectOne;
    sent := [];
    for k := 0 to |routes|
      invariant |sent| == k
      invariant forall i :: 0 <= i < |routes| ==> routes[i].Valid()
      invariant forall i :: 0 <= i < k ==>
                  accepts(i) && (Ok(sent[i]), routes[i].Cursor()) == Selection(routes[i], old(routes[i].Cursor()), record.key)
      invariant forall i :: k <= i < |routes| ==> routes[i].Cursor() == old(routes[i].Cursor())
    {
      assert routes[k] in routes;
      var selected := routes[k].Select(record.key);
      if selected.Err? {
        return sent, Some(Unroutable(selected.error));
      }
      if !accepts(k) {
        return sent, Some(SendRefused);
      }
      sent := sent + [selected.value];
    }
    return sent, None;
  }

  /** What connecting a task's outputs gives: its groups in sorted order, each with its opened channels. */
  function Routes(taskId: string, outgoing: seq<PhysicalChannel>): Result<seq<Group>, ConnectError> {
    match GroupAll(taskId, outgoing)
    case Err(e) => Err(e)
    case Ok(groups) => Ok(SortBy(groups, GroupLess))
  }

  /** The routes are in the order of their operators' ids, and of the partitionings' names under the same operator. */
  lemma RoutesAreSorted(taskId: string, outgoing: seq<PhysicalChannel>, i: nat, j: nat)
    requires Routes(taskId, outgoing).Ok? && i < j < |Routes(taskId, outgoing).value|
    ensures var a, b := Routes(taskId, outgoing).value[i], Routes(taskId, outgoing).value[j];
            || Text.Less(a.operatorId, b.operatorId)
            || (a.operatorId == b.operatorId
                && (a.partitioning == b.partitioning
                    || Text.Less(PartitioningName(a.partitioning), PartitioningName(b.partitioning))))
  {
    hide SortBy, GroupAll, Text.Less, PartitioningName;
    GroupsOrder();
    SortOrders(GroupAll(taskId, outgoing).value, GroupLess);
    GroupsCompare(Routes(taskId, outgoing).value[i], Routes(taskId, outgoing).value[j]);
  }

  /** A group's channels are opened in the order of their target subtasks. */
  lemma OpenedAreSorted(group: Group, i: nat, j: nat)
    requires Opened(group).Ok? && i < j < |Opened(group).value|
    ensures Opened(group).value[i].0 <= Opened(group).value[j].0
  {
    hide SortBy, TargetSubtask;
    SubtasksOrder();
    SortOrders(group.channels, SubtaskLess);
  }

  ghost predicate Nonempty(groups: seq<Group>) {
    forall i :: 0 <= i < |groups| ==> groups[i].channels != []
  }

  lemma {:induction false} AddToKeepsNonempty(groups: seq<Group>, operatorId: string, p: Partitioning, c: PhysicalChannel)
    requires Nonempty(groups)
    ensures Nonempty(AddTo(groups, operatorId, p, c))
  {
    if groups != [] {
      AddToKeepsNonempty(groups[..|groups| - 1], operatorId, p, c);
    }
  }

  lemma {:induction false} GroupsAreNonempty(taskId: string, outgoing: seq<PhysicalChannel>)
    requires GroupAll(taskId, outgoing).Ok?
    ensures Nonempty(GroupAll(taskId, outgoing).value)
  {
    hide TaskCoordinates;
    if outgoing != [] {
      var init, c := outgoing[..|outgoing| - 1], outgoing[|outgoing| - 1];
      GroupsAreNonempty(taskId, init);
      AddToKeepsNonempty(GroupAll(taskId, init).value, TaskCoordinates(c.targetTaskId).value.0, c.partitioning, c);
    }
  }

  lemma RoutesAreNonempty(groups: seq<Group>, sorted: seq<Group>)
    requires Nonempty(groups) && sorted == SortBy(groups, GroupLess)
    ensures forall i :: 0 <= i < |sorted| && Opened(sorted[i]).Ok? ==> Opened(sorted[i]).value != []
  {
    SortIsPermutation(groups, GroupLess);
    forall i | 0 <= i < |sorted| && Opened(sorted[i]).Ok? ensures Opened(sorted[i]).value != [] {
      assert sorted[i] in multiset(groups);
      SortIsPermutation(sorted[i].channels, SubtaskLess);
      assert |multiset(SortBy(sorted[i].channels, SubtaskLess))| == |multiset(sorted[i].channels)|;
    }
  }

  /** The first channel that cannot be grouped decides: it starts at another task, or its target's id is malformed. */
  method GroupChannels(taskId: string, outgoing: seq<PhysicalChannel>) returns (r: Result<seq<Group>, ConnectError>)
    ensures r == GroupAll(taskId, outgoing)
    ensures r.Ok? <==> forall i :: 0 <= i < |outgoing| ==> CanGroup(taskId, outgoing[i])
    ensures r.Err? ==>
              exists k: nat :: k < |outgoing| && !CanGroup(taskId, outgoing[k])
                && (forall i :: 0 <= i < k ==> CanGroup(taskId, outgoing[i]))
                && r.error == if outgoing[k].sourceTaskId != taskId then ForeignSource else MalformedTaskId
  {
    hide AddTo, TaskCoordinates;
    var groups: seq<Group> := [];
    for k := 0 to |outgoing|
      invariant GroupAll(taskId, outgoing[..k]) == Ok(groups)
      invariant forall i :: 0 <= i < k ==> CanGroup(taskId, outgoing[i])
    {
      var c := outgoing[k];
      assert outgoing[..k + 1][..k] == outgoing[..k];
      var coordinates := TaskCoordinates(c.targetTaskId);
      if c.sourceTaskId != taskId || coordinates.None? {
        var error := if c.sourceTaskId != taskId then ForeignSource else MalformedTaskId;
        FailureStays(taskId, outgoing, k + 1, error);
        return Err(error);
      }
      groups := AddTo(groups, coordinates.value.0, c.partitioning, c);
    }
    assert outgoing[..|outgoing|] == outgoing;
    return Ok(groups);
  }

  predicate CanGroup(taskId: string, c: PhysicalChannel) {
    c.sourceTaskId == taskId && TaskCoordinates(c.targetTaskId).Some?
  }

  lemma {:induction false} FailureStays(taskId: string, outgoing: seq<PhysicalChannel>, k: nat, error: ConnectError)
    requires k <= |outgoing| && GroupAll(taskId, outgoing[..k]) == Err(error)
    ensures GroupAll(taskId, outgoing) == Err(error)
  {
    if k == |outgoing| {
      assert outgoing[..k] == outgoing;
    } else {
      assert outgoing[..|outgoing| - 1][..k] == outgoing[..k];
      FailureStays(taskId, outgoing[..|outgoing| - 1], k, error);
    }
  }

  /** The order in which the channels of some groups are opened. */
  function InOrder(groups: seq<Group>): seq<PhysicalChannel> {
    if groups == [] then []
    else InOrder(groups[..|groups| - 1]) + SortBy(groups[|groups| - 1].channels, SubtaskLess)
  }

  lemma {:induction false} InOrderGrows(groups: seq<Group>, k: nat)
    requires k <= |groups|
    ensures InOrder(groups[..k]) <= InOrder(groups)
    ensures k < |groups| ==>
              InOrder(groups[..k + 1]) == InOrder(groups[..k]) + SortBy(groups[k].channels, SubtaskLess)
  {
    hide SortBy;
    if k < |groups| {
      assert groups[..k + 1][..k] == groups[..k];
      assert groups[..|groups| - 1][..k] == groups[..k];
      InOrderGrows(groups[..|groups| - 1], k);
    } else {
      assert groups[..k] == groups;
    }
  }

  /** The k-th channel has an address, and it could be connected and started. */
  predicate CanOpen(order: seq<PhysicalChannel>, opens: nat -> bool, k: nat)
    requires k < |order|
  {
    order[k].endpoint.Some? && opens(k)
  }

  /**
   Builds the routes of a task. `opens` says whether the k-th channel can be connected and started; the channels
   opened before the first that cannot are aborted, last opened first.
   */
  method ConnectOutputs(hashing: Hashing, taskId: string, upstream: nat, outgoing: seq<PhysicalChannel>, opens: nat -> bool)
    returns (r: Result<seq<OutputRoute>, ConnectError>, aborted: seq<PhysicalChannel>)
    ensures Routes(taskId, outgoing).Err? ==> r == Err(Routes(taskId, outgoing).error) && aborted == []
    ensures Routes(taskId, outgoing).Ok? ==>
              var order := InOrder(Routes(taskId, outgoing).value);
              && (r.Ok? <==> forall k :: 0 <= k < |order| ==> CanOpen(order, opens, k))
              && (r.Err? ==> FirstFailure(order, opens, |aborted|, r.error) && aborted == Reversed(order[..|aborted|]))
    ensures r.Ok? ==>
              var groups := Routes(taskId, outgoing).value;
              && |r.value| == |groups| && SeparateRouters(r.value)
              && forall i :: 0 <= i < |groups| ==>
                   Realises(r.value[i], hashing, upstream, groups[i]) && (r.value[i].router != null ==> fresh(r.value[i].router))
  {
    hide Opened, SortBy, GroupAll;
    var grouped := GroupChannels(taskId, outgoing);
    if grouped.Err? {
      return Err(grouped.error), [];
    }
    GroupsAreNonempty(taskId, outgoing);
    var groups := SortBy(grouped.value, GroupLess);
    RoutesAreNonempty(grouped.value, groups);
    r, aborted := OpenRoutes(hashing, groups, upstream, opens);
  }

  /** The k-th channel is the first that cannot be opened, and why. */
  ghost predicate FirstFailure(order: seq<PhysicalChannel>, opens: nat -> bool, k: nat, error: ConnectError) {
    && k < |order| && (forall j :: 0 <= j < k ==> CanOpen(order, opens, j)) && !CanOpen(order, opens, k)
    && error == if order[k].endpoint.None? then Unbound else NotConnected
  }

  /** Opens the channels of each group in turn, up to the first that cannot be opened. */
  method OpenRoutes(hashing: Hashing, groups: seq<Group>, upstream: nat, opens: nat -> bool)
    returns (r: Result<seq<OutputRoute>, ConnectError>, aborted: seq<PhysicalChannel>)
    requires forall i :: 0 <= i < |groups| && Opened(groups[i]).Ok? ==> Opened(groups[i]).value != []
    ensures var order := InOrder(groups);
            && (r.Ok? <==> forall k :: 0 <= k < |order| ==> CanOpen(order, opens, k))
            && (r.Err? ==> FirstFailure(order, opens, |aborted|, r.error) && aborted == Reversed(order[..|aborted|]))
    ensures r.Ok? ==>
              && |r.value| == |groups| && SeparateRouters(r.value)
              && forall i :: 0 <= i < |groups| ==>
                   Realises(r.value[i], hashing, upstream, groups[i]) && (r.value[i].router != null ==> fresh(r.value[i].router))
  {
    hide Opened, InOrder, SortBy;
    var routes: seq<OutputRoute> := [];
    var all: seq<PhysicalChannel> := [];
    ghost var order := InOrder(groups);
    assert all == InOrder(groups[..0]) by { NothingInOrder(groups); }
    for k := 0 to |groups|
      invariant |routes| == k && SeparateRouters(routes)
      invariant all == InOrder(groups[..k]) && all <= order
      invariant forall j :: 0 <= j < |all| ==> CanOpen(order, opens, j)
      invariant forall i :: 0 <= i < k ==>
                  Realises(routes[i], hashing, upstream, groups[i]) && (routes[i].router != null ==> fresh(routes[i].router))
    {
      InOrderGrows(groups, k);
      InOrderGrows(groups, k + 1);
      var opening, more := OpenGroup(groups[k], opens, |all|, order);
      all := all + more;
      if opening.Err? {
        assert order[..|all|] == all;
        return Err(opening.error), Reversed(all);
      }
      var route := new OutputRoute(hashing, groups[k].partitioning, opening.value, upstream);
      routes := routes + [route];
    }
    assert groups[..|groups|] == groups;
    return Ok(routes), [];
  }

  lemma NothingInOrder(groups: seq<Group>)
    ensures InOrder(groups[..0]) == []
  {
  }

  /** Opens the channels of one group, by target subtask; `before` others have been opened already. */
  method OpenGroup(group: Group, opens: nat -> bool, before: nat, ghost order: seq<PhysicalChannel>)
    returns (r: Result<seq<(nat, PhysicalChannel)>, ConnectError>, opened': seq<PhysicalChannel>)
    requires before + |SortBy(group.channels, SubtaskLess)| <= |order|
    requires order[before..before + |SortBy(group.channels, SubtaskLess)|] == SortBy(group.channels, SubtaskLess)
    requires forall j :: 0 <= j < before ==> CanOpen(order, opens, j)
    ensures opened' <= SortBy(group.channels, SubtaskLess)
    ensures forall j :: 0 <= j < before + |opened'| ==> CanOpen(order, opens, j)
    ensures r.Ok? ==> Opened(group) == r && opened' == SortBy(group.channels, SubtaskLess)
    ensures r.Err? ==> FirstFailure(order, opens, before + |opened'|, r.error)
  {
    hide SortBy, TargetSubtask;
    var sorted := SortBy(group.channels, SubtaskLess);
    var channels: seq<(nat, PhysicalChannel)> := [];
    for k := 0 to |sorted|
      invariant |channels| == k
      invariant forall i :: 0 <= i < k ==> channels[i] == (TargetSubtask(sorted[i]), sorted[i])
      invariant forall j :: 0 <= j < before + k ==> CanOpen(order, opens, j)
    {
      assert sorted[k] == order[before..before + |sorted|][k] == order[before + k];
      if sorted[k].endpoint.None? {
        return Err(Unbound), sorted[..k];
      }
      if !opens(before + k) {
        return Err(NotConnected), sorted[..k];
      }
      channels := channels + [(TargetSubtask(sorted[k]), sorted[k])];
    }
    forall i | 0 <= i < |sorted| ensures sorted[i].endpoint.Some? {
      assert CanOpen(order, opens, before + i) && sorted[i] == order[before..before + |sorted|][i];
    }
    assert channels == Sequences.Map(sorted, (c: PhysicalChannel) => (TargetSubtask(c), c));
    assert sorted[..|sorted|] == sorted;
    return Ok(channels), sorted;
  }

  /** A freshly connected route of a group. */
  ghost predicate Realises(route: OutputRoute, hashing: Hashing, upstream: nat, group: Group)
    reads route.router
  {
    && route.Valid() && Opened(group).Ok? && route.channels == Opened(group).value
    && route.hashing == hashing && route.upstream == upstream && route.partitioning == group.partitioning
    && route.Cursor() == if group.partitioning == Forward then 0 else upstream % |route.channels|
  }

  // ----- the routes of a planned task -----

  /** Where a task receives data: host and port. */
  type Addressing = string -> (string, int)

  /** Binding a channel to the data address of its target, as bind_endpoints does after scheduling. */
  function Bound(channels: seq<PhysicalChannel>, place: Addressing): seq<PhysicalChannel> {
    Sequences.Map(channels, (c: PhysicalChannel) =>
      c.(endpoint := Some(Endpoint(c.targetTaskId, place(c.targetTaskId).0, place(c.targetTaskId).1))))
  }

  ghost predicate Planned(g: StreamGraph) {
    IsStreamGraph(g) && ProperOperators(g.definition.operators)
  }

  /** A task of the plan, as against a pair out of range. */
  ghost predicate IsTask(g: StreamGraph, t: Task) {
    t.0 < |g.definition.operators| && t.1 < g.definition.operators[t.0].parallelism
  }

  /** The bound channels of edge e out of subtask i of its source. */
  function EdgeRow(jobId: string, g: StreamGraph, place: Addressing, e: nat, i: nat): seq<PhysicalChannel>
    requires g.digraph.Valid() && g.digraph.size == |g.definition.operators|
    requires e < |g.digraph.edges| == |g.partitionings|
  {
    var (u, v) := g.digraph.edges[e];
    Bound(Row(jobId, g.definition.operators[u], g.definition.operators[v], g.partitionings[e], i), place)
  }

  function OutRows(jobId: string, g: StreamGraph, place: Addressing, t: Task, n: nat): seq<PhysicalChannel>
    requires g.digraph.Valid() && g.digraph.size == |g.definition.operators|
    requires n <= |g.digraph.edges| == |g.partitionings|
  {
    if n == 0 then []
    else OutRows(jobId, g, place, t, n - 1)
         + (if g.digraph.edges[n - 1].0 == t.0 then EdgeRow(jobId, g, place, n - 1, t.1) else [])
  }

  /** One group for each logical edge out of the task's operator, among the first n edges. */
  function EdgeGroups(jobId: string, g: StreamGraph, place: Addressing, t: Task, n: nat): seq<Group>
    requires g.digraph.Valid() && g.digraph.size == |g.definition.operators|
    requires n <= |g.digraph.edges| == |g.partitionings|
  {
    if n == 0 then []
    else EdgeGroups(jobId, g, place, t, n - 1)
         + (if g.digraph.edges[n - 1].0 == t.0 then [EdgeGroup(jobId, g, place, n - 1, t.1)] else [])
  }

  function EdgeGroup(jobId: string, g: StreamGraph, place: Addressing, e: nat, i: nat): Group
    requires g.digraph.Valid() && g.digraph.size == |g.definition.operators|
    requires e < |g.digraph.edges| == |g.partitionings|
  {
    Group(g.definition.operators[g.digraph.edges[e].1].id, g.partitionings[e], EdgeRow(jobId, g, place, e, i))
  }

  lemma {:induction false} FilterUniform<T>(s: seq<T>, keep: T -> bool, all: bool)
    requires forall i :: 0 <= i < |s| ==> keep(s[i]) == all
    ensures Filter(s, keep) == if all then s else []
  {
    if s != [] {
      FilterUniform(s[..|s| - 1], keep, all);
      assert s == s[..|s| - 1] + [s[|s| - 1]];
    }
  }

  lemma OutgoingOfRow(jobId: string, g: StreamGraph, place: Addressing, t: Task, e: nat, i: nat)
    requires Planned(g) && IsTask(g, t) && e < |g.digraph.edges|
    ensures Outgoing(EdgeRow(jobId, g, place, e, i), IdOf(jobId, g.definition.operators, t))
         == if (g.digraph.edges[e].0, i) == t then EdgeRow(jobId, g, place, e, i) else []
  {
    hide IsKeyedAnalysis, OnlySourcesLackInput, AnyInput, Greedy, IsTopological, ProperEdges, TaskId;
    var row := EdgeRow(jobId, g, place, e, i);
    var operators, u := g.definition.operators, g.digraph.edges[e].0;
    var id := IdOf(jobId, operators, t);
    forall k | 0 <= k < |row| ensures (row[k].sourceTaskId == id) == ((u, i) == t) {
      assert row[k].sourceTaskId == TaskId(jobId, operators[u].id, i);
      if row[k].sourceTaskId == id {
        TaskIdInjective(jobId, operators[u].id, i, jobId, operators[t.0].id, t.1);
      }
    }
    FilterUniform(row, (c: PhysicalChannel) => c.sourceTaskId == id, (u, i) == t);
  }

  lemma OutgoingConcat(a: seq<PhysicalChannel>, b: seq<PhysicalChannel>, place: Addressing, id: string)
    ensures Outgoing(Bound(a + b, place), id) == Outgoing(Bound(a, place), id) + Outgoing(Bound(b, place), id)
  {
    assert Bound(a + b, place) == Bound(a, place) + Bound(b, place);
    FilterConcat(Bound(a, place), Bound(b, place), (c: PhysicalChannel) => c.sourceTaskId == id);
  }

  lemma {:induction false} OutgoingOfEdge(jobId: string, g: StreamGraph, place: Addressing, t: Task, e: nat, n: nat)
    requires Planned(g) && IsTask(g, t) && e < |g.digraph.edges|
    ensures var (u, v) := g.digraph.edges[e];
            var source, target := g.definition.operators[u], g.definition.operators[v];
            Outgoing(Bound(EdgeChannels(jobId, source, target, g.partitionings[e], n), place),
                     IdOf(jobId, g.definition.operators, t))
            == if u == t.0 && t.1 < n then EdgeRow(jobId, g, place, e, t.1) else []
  {
    hide Planned, Row, Outgoing, Bound, TaskId;
    PlannedShape(g);
    var (u, v) := g.digraph.edges[e];
    var source, target, p := g.definition.operators[u], g.definition.operators[v], g.partitionings[e];
    var id := IdOf(jobId, g.definition.operators, t);
    if n == 0 {
      NothingGoesOut(place, id);
    } else {
      OutgoingOfEdge(jobId, g, place, t, e, n - 1);
      OutgoingOfRow(jobId, g, place, t, e, n - 1);
      EdgeRowIs(jobId, g, place, e, n - 1);
      var a, b := EdgeChannels(jobId, source, target, p, n - 1), Row(jobId, source, target, p, n - 1);
      OutgoingConcat(a, b, place, id);
    }
  }

  lemma EdgeRowIs(jobId: string, g: StreamGraph, place: Addressing, e: nat, i: nat)
    requires g.digraph.Valid() && g.digraph.size == |g.definition.operators|
    requires e < |g.digraph.edges| == |g.partitionings|
    ensures var (u, v) := g.digraph.edges[e];
            EdgeRow(jobId, g, place, e, i)
            == Bound(Row(jobId, g.definition.operators[u], g.definition.operators[v], g.partitionings[e], i), place)
  {
  }

  lemma NothingGoesOut(place: Addressing, id: string)
    ensures Outgoing(Bound([], place), id) == []
  {
  }

  lemma PlannedShape(g: StreamGraph)
    requires Planned(g)
    ensures g.digraph.Valid() && g.digraph.size == |g.definition.operators| && |g.partitionings| == |g.digraph.edges|
  {
  }

  lemma {:induction false} OutgoingOfGraph(jobId: string, g: StreamGraph, place: Addressing, t: Task, n: nat)
    requires Planned(g) && IsTask(g, t) && n <= |g.digraph.edges|
    ensures Outgoing(Bound(AllChannels(jobId, g, n), place), IdOf(jobId, g.definition.operators, t))
         == OutRows(jobId, g, place, t, n)
  {
    hide Planned, EdgeRow, EdgeChannels, Outgoing, Bound, TaskId;
    PlannedShape(g);
    var id := IdOf(jobId, g.definition.operators, t);
    if n == 0 {
      NothingGoesOut(place, id);
    } else {
      var (u, v) := g.digraph.edges[n - 1];
      var source, target, p := g.definition.operators[u], g.definition.operators[v], g.partitionings[n - 1];
      OutgoingOfGraph(jobId, g, place, t, n - 1);
      OutgoingOfEdge(jobId, g, place, t, n - 1, source.parallelism);
      var a, b := AllChannels(jobId, g, n - 1), EdgeChannels(jobId, source, target, p, source.parallelism);
      OutgoingConcat(a, b, place, id);
    }
  }

  predicate HasGroup(groups: seq<Group>, operatorId: string, p: Partitioning) {
    exists i :: 0 <= i < |groups| && groups[i].operatorId == operatorId && groups[i].partitioning == p
  }

  lemma AddToNew(groups: seq<Group>, operatorId: string, p: Partitioning, c: PhysicalChannel)
    requires !HasGroup(groups, operatorId, p)
    ensures AddTo(groups, operatorId, p, c) == groups + [Group(operatorId, p, [c])]
  {
  }

  lemma AddToLast(groups: seq<Group>, last: Group, c: PhysicalChannel)
    ensures AddTo(groups + [last], last.operatorId, last.partitioning, c)
         == groups + [last.(channels := last.channels + [c])]
  {
    assert (groups + [last])[..|groups|] == groups;
  }

  /** Channels of one task toward one operator with one partitioning. */
  predicate AllToward(row: seq<PhysicalChannel>, taskId: string, operatorId: string, p: Partitioning) {
    forall i :: 0 <= i < |row| ==>
      && row[i].sourceTaskId == taskId && row[i].partitioning == p
      && TaskCoordinates(row[i].targetTaskId).Some? && TaskCoordinates(row[i].targetTaskId).value.0 == operatorId
  }

  lemma GroupOneMore(taskId: string, s: seq<PhysicalChannel>, groups: seq<Group>, c: PhysicalChannel,
                     operatorId: string, p: Partitioning)
    requires GroupAll(taskId, s) == Ok(groups) && AllToward([c], taskId, operatorId, p)
    ensures GroupAll(taskId, s + [c]) == Ok(AddTo(groups, operatorId, p, c))
  {
    hide AddTo, TaskCoordinates;
    assert (s + [c])[..|s|] == s;
    assert [c][0] == c;
  }

  /** A row whose operator has no group yet becomes a group of its own. */
  lemma {:induction false} RowBecomesGroup(
    taskId: string, before: seq<PhysicalChannel>, groups: seq<Group>, row: seq<PhysicalChannel>,
    operatorId: string, p: Partitioning)
    requires GroupAll(taskId, before) == Ok(groups) && !HasGroup(groups, operatorId, p)
    requires row != [] && AllToward(row, taskId, operatorId, p)
    ensures GroupAll(taskId, before + row) == Ok(groups + [Group(operatorId, p, row)])
  {
    hide AddTo, HasGroup, GroupAll, TaskCoordinates;
    var init, c := row[..|row| - 1], row[|row| - 1];
    assert before + row == (before + init) + [c] && row == init + [c];
    if init == [] {
      assert before + init == before;
      AddToNew(groups, operatorId, p, c);
      GroupOneMore(taskId, before, groups, c, operatorId, p);
    } else {
      RowBecomesGroup(taskId, before, groups, init, operatorId, p);
      AddToLast(groups, Group(operatorId, p, init), c);
      GroupOneMore(taskId, before + init, groups + [Group(operatorId, p, init)], c, operatorId, p);
    }
  }

  lemma RowHeads(jobId: string, g: StreamGraph, place: Addressing, e: nat, i: nat)
    requires Planned(g) && e < |g.digraph.edges|
    ensures var (u, v) := g.digraph.edges[e];
            var row, target := EdgeRow(jobId, g, place, e, i), g.definition.operators[v];
            && row != [] && target.parallelism > 0
            && |row| == (if g.partitionings[e] == Forward then 1 else target.parallelism)
            && forall k :: 0 <= k < |row| ==>
                 && row[k].sourceTaskId == TaskId(jobId, g.definition.operators[u].id, i)
                 && row[k].partitioning == g.partitionings[e] && row[k].endpoint.Some?
                 && TaskCoordinates(row[k].targetTaskId)
                    == Some((target.id, if g.partitionings[e] == Forward then i else k))
  {
    hide IsKeyedAnalysis, OnlySourcesLackInput, AnyInput, Greedy, IsTopological, ProperEdges, TaskId, TaskCoordinates;
    var (u, v) := g.digraph.edges[e];
    var row, target := EdgeRow(jobId, g, place, e, i), g.definition.operators[v];
    forall k | 0 <= k < |row|
      ensures TaskCoordinates(row[k].targetTaskId)
              == Some((target.id, if g.partitionings[e] == Forward then i else k))
    {
      var j := if g.partitionings[e] == Forward then i else k;
      assert row[k].targetTaskId == TaskId(jobId, target.id, j);
      CoordinatesRoundTrip(jobId, target.id, j);
    }
  }

  /** Distinct edges out of an operator lead to distinct operators. */
  lemma EdgesDiffer(g: StreamGraph, e: nat, f: nat)
    requires Planned(g) && e < f < |g.digraph.edges| && g.digraph.edges[e].0 == g.digraph.edges[f].0
    ensures g.definition.operators[g.digraph.edges[e].1].id != g.definition.operators[g.digraph.edges[f].1].id
  {
    hide IsKeyedAnalysis, OnlySourcesLackInput, AnyInput, Greedy, IsTopological;
    assert g.definition.edges[e] != g.definition.edges[f];
  }

  /** The groups come from the edges. */
  lemma {:induction false} GroupsAreEdges(jobId: string, g: StreamGraph, place: Addressing, t: Task, n: nat, i: nat)
    requires g.digraph.Valid() && g.digraph.size == |g.definition.operators|
    requires n <= |g.digraph.edges| == |g.partitionings| && i < |EdgeGroups(jobId, g, place, t, n)|
    ensures exists e: nat :: e < n && g.digraph.edges[e].0 == t.0
              && EdgeGroups(jobId, g, place, t, n)[i] == EdgeGroup(jobId, g, place, e, t.1)
  {
    hide EdgeGroup;
    if i < |EdgeGroups(jobId, g, place, t, n - 1)| {
      GroupsAreEdges(jobId, g, place, t, n - 1, i);
    } else {
      assert EdgeGroups(jobId, g, place, t, n)[i] == EdgeGroup(jobId, g, place, n - 1, t.1);
    }
  }

  lemma {:induction false} GroupAllIsEdgeGroups(jobId: string, g: StreamGraph, place: Addressing, t: Task, n: nat)
    requires Planned(g) && IsTask(g, t) && n <= |g.digraph.edges|
    ensures GroupAll(IdOf(jobId, g.definition.operators, t), OutRows(jobId, g, place, t, n))
         == Ok(EdgeGroups(jobId, g, place, t, n))
  {
    hide Planned, GroupAll, EdgeRow, HasGroup, TaskCoordinates;
    PlannedShape(g);
    var id := IdOf(jobId, g.definition.operators, t);
    if n == 0 {
      NothingToGroup(id);
    } else {
      GroupAllIsEdgeGroups(jobId, g, place, t, n - 1);
      if g.digraph.edges[n - 1].0 == t.0 {
        RowHeads(jobId, g, place, n - 1, t.1);
        NoGroupYet(jobId, g, place, t, n - 1);
        RowBecomesGroup(id, OutRows(jobId, g, place, t, n - 1), EdgeGroups(jobId, g, place, t, n - 1),
                        EdgeRow(jobId, g, place, n - 1, t.1),
                        g.definition.operators[g.digraph.edges[n - 1].1].id, g.partitionings[n - 1]);
      } else {
        assert OutRows(jobId, g, place, t, n) == OutRows(jobId, g, place, t, n - 1);
        assert EdgeGroups(jobId, g, place, t, n) == EdgeGroups(jobId, g, place, t, n - 1);
      }
    }
  }

  lemma NothingToGroup(id: string)
    ensures GroupAll(id, []) == Ok([])
  {
  }

  lemma NoGroupYet(jobId: string, g: StreamGraph, place: Addressing, t: Task, n: nat)
    requires Planned(g) && n < |g.digraph.edges| && g.digraph.edges[n].0 == t.0
    ensures !HasGroup(EdgeGroups(jobId, g, place, t, n),
                      g.definition.operators[g.digraph.edges[n].1].id, g.partitionings[n])
  {
    hide Planned;
    PlannedShape(g);
    var groups := EdgeGroups(jobId, g, place, t, n);
    forall i | 0 <= i < |groups|
      ensures groups[i].operatorId != g.definition.operators[g.digraph.edges[n].1].id
    {
      GroupsAreEdges(jobId, g, place, t, n, i);
      var e: nat :| e < n && g.digraph.edges[e].0 == t.0 && groups[i] == EdgeGroup(jobId, g, place, e, t.1);
      EdgesDiffer(g, e, n);
    }
  }

  /**
   Connecting the outputs of any task of a planned graph, after its channels were bound: there is exactly one
   route for every logical edge out of its operator, and no other.
   */
  lemma OneRoutePerEdge(jobId: string, g: StreamGraph, place: Addressing, t: Task)
    requires Planned(g) && IsTask(g, t)
    ensures var id := IdOf(jobId, g.definition.operators, t);
            var m := |g.digraph.edges|;
            var routes := Routes(id, Outgoing(Bound(AllChannels(jobId, g, m), place), id));
            && routes.Ok? && multiset(routes.value) == multiset(EdgeGroups(jobId, g, place, t, m))
  {
    OutgoingOfGraph(jobId, g, place, t, |g.digraph.edges|);
    GroupAllIsEdgeGroups(jobId, g, place, t, |g.digraph.edges|);
    SortIsPermutation(EdgeGroups(jobId, g, place, t, |g.digraph.edges|), GroupLess);
  }

  /** Opening the group of an edge: the twin alone under FORWARD, else all target subtasks from 0 up. */
  lemma EdgeGroupOpens(jobId: string, g: StreamGraph, place: Addressing, e: nat, i: nat)
    requires Planned(g) && e < |g.digraph.edges|
    ensures var target := g.definition.operators[g.digraph.edges[e].1];
            var opening := Opened(EdgeGroup(jobId, g, place, e, i));
            && opening.Ok? && |EdgeRow(jobId, g, place, e, i)| == |opening.value|
            && |opening.value| == (if g.partitionings[e] == Forward then 1 else target.parallelism) && target.parallelism > 0
            && forall k :: 0 <= k < |opening.value| ==>
                 && opening.value[k].0 == (if g.partitionings[e] == Forward then i else k)
                 && opening.value[k].1 == EdgeRow(jobId, g, place, e, i)[k]
  {
    hide Planned, EdgeRow, TaskCoordinates, Opened, SortBy;
    PlannedShape(g);
    RowHeads(jobId, g, place, e, i);
    OpensInOrder(EdgeGroup(jobId, g, place, e, i));
  }

  /** A bound group whose channels are in the order of their subtasks opens as it is. */
  lemma OpensInOrder(group: Group)
    requires forall k :: 0 <= k < |group.channels| ==> group.channels[k].endpoint.Some?
    requires forall k, l :: 0 <= k < l < |group.channels| ==> TargetSubtask(group.channels[k]) <= TargetSubtask(group.channels[l])
    ensures Opened(group).Ok? && |Opened(group).value| == |group.channels|
    ensures forall k :: 0 <= k < |group.channels| ==>
              Opened(group).value[k] == (TargetSubtask(group.channels[k]), group.channels[k])
  {
    hide TargetSubtask, SortBy;
    SortKeepsOrdered(group.channels, SubtaskLess);
  }

  lemma {:induction false} FindAt(channels: seq<(nat, PhysicalChannel)>, target: nat)
    requires target < |channels| && forall k :: 0 <= k < |channels| ==> channels[k].0 == channels[0].0 + k
    ensures Find(channels, channels[0].0 + target) == Ok(channels[target].1)
  {
    if target > 0 {
      assert forall k :: 0 <= k < |channels| - 1 ==> channels[1..][k] == channels[k + 1];
      FindAt(channels[1..], target - 1);
    }
  }

  /** The subtask that the n-th record of a run goes to along an edge, if any. */
  function TargetOf(h: Hashing, p: Partitioning, parallelism: nat, upstream: nat, n: nat, key: Json): Result<nat, RoutingError>
    requires parallelism > 0
  {
    match p
    case Forward => Ok(upstream)
    case Rebalance => Ok((upstream + n) % parallelism)
    case Hash => StableHashPartition(h, key, parallelism)
  }

  function CursorAfter(p: Partitioning, parallelism: nat, upstream: nat, n: nat): nat
    requires parallelism > 0
  {
    match p
    case Forward => 0
    case Rebalance => (upstream + n) % parallelism
    case Hash => upstream % parallelism
  }

  /**
   After n records, along any edge out of any planned task: the next record goes to the channel of that edge
   whose target is the task's twin (FORWARD), (a + n) mod p (REBALANCE) or the key's hash (HASH); the error of
   a missing subtask cannot occur, and the cursor is ready for the next record.
   */
  lemma EdgeSelectsItsTarget(jobId: string, g: StreamGraph, place: Addressing, e: nat, t: Task,
                             h: Hashing, n: nat, key: Json)
    requires Planned(g) && IsTask(g, t) && e < |g.digraph.edges|
    requires g.digraph.edges[e].0 == t.0
    requires Opened(EdgeGroup(jobId, g, place, e, t.1)).Ok? && Opened(EdgeGroup(jobId, g, place, e, t.1)).value != []
    ensures var (u, v) := g.digraph.edges[e];
            var source, target, p := g.definition.operators[u], g.definition.operators[v], g.partitionings[e];
            var opening := Opened(EdgeGroup(jobId, g, place, e, t.1)).value;
            var (selected, cursor) := SelectOne(h, p, opening, t.1, CursorAfter(p, |opening|, t.1, n), key);
            target.parallelism > 0 &&
            match TargetOf(h, p, target.parallelism, t.1, n, key)
            case Err(error) => selected == Err(error) && error == NullKey
            case Ok(j) =>
              && j < target.parallelism && cursor == CursorAfter(p, |opening|, t.1, n + 1)
              && selected.Ok? && [selected.value] == Bound([Channel(jobId, source, t.1, target, j, p)], place)
  {
    hide Planned, EdgeRow, TaskCoordinates, Opened, TaskId, SelectOne, CursorAfter, Row, IsTask, StableHashPartition;
    PlannedShape(g);
    var opening, p := Opened(EdgeGroup(jobId, g, place, e, t.1)).value, g.partitionings[e];
    EdgeGroupOpens(jobId, g, place, e, t.1);
    RowIs(jobId, g, place, e, t);
    SelectsItsTarget(h, p, opening, t.1, n, key);
    TargetIsSubtask(h, p, g.definition.operators[g.digraph.edges[e].1].parallelism, t.1, n, key);
  }

  lemma TargetIsSubtask(h: Hashing, p: Partitioning, parallelism: nat, upstream: nat, n: nat, key: Json)
    requires parallelism > 0
    ensures match TargetOf(h, p, parallelism, upstream, n, key)
            case Err(error) => error == NullKey && p == Hash
            case Ok(j) => if p == Forward then j == upstream else j < parallelism
    ensures p != Forward ==> TargetOf(h, p, parallelism, upstream, n, key).Err? || TargetOf(h, p, parallelism, upstream, n, key).value < parallelism
  {
  }

  lemma SelectsItsTarget(h: Hashing, p: Partitioning, channels: seq<(nat, PhysicalChannel)>, upstream: nat, n: nat, key: Json)
    requires channels != [] && (p == Forward ==> |channels| == 1)
    requires p != Forward ==> forall k :: 0 <= k < |channels| ==> channels[k].0 == k
    ensures var (selected, cursor) := SelectOne(h, p, channels, upstream, CursorAfter(p, |channels|, upstream, n), key);
            match TargetOf(h, p, |channels|, upstream, n, key)
            case Err(error) => selected == Err(error)
            case Ok(j) =>
              && cursor == CursorAfter(p, |channels|, upstream, n + 1)
              && (p != Forward ==> j < |channels|)
              && selected == Ok(channels[if p == Forward then 0 else j].1)
  {
    if p == Rebalance {
      AddOneModulo(upstream + n, |channels|);
    }
    var chosen := TargetOf(h, p, |channels|, upstream, n, key);
    if p != Forward && chosen.Ok? {
      FindAt(channels, chosen.value);
    }
  }

  lemma RowIs(jobId: string, g: StreamGraph, place: Addressing, e: nat, t: Task)
    requires Planned(g) && IsTask(g, t) && e < |g.digraph.edges| && g.digraph.edges[e].0 == t.0
    ensures var (u, v) := g.digraph.edges[e];
            var source, target, p := g.definition.operators[u], g.definition.operators[v], g.partitionings[e];
            && (p == Forward ==> t.1 < target.parallelism)
            && forall k :: 0 <= k < |EdgeRow(jobId, g, place, e, t.1)| ==>
                 [EdgeRow(jobId, g, place, e, t.1)[k]]
                 == Bound([Channel(jobId, source, t.1, target, if p == Forward then t.1 else k, p)], place)
  {
    hide IsKeyedAnalysis, OnlySourcesLackInput, AnyInput, Greedy, IsTopological, ProperEdges, TaskId;
  }

  // ----- emitting many records -----

  /** The route has been through n records since it was connected. */
  ghost predicate Advanced(r: OutputRoute, n: nat)
    reads r.router
  {
    r.channels != [] && r.Cursor() == CursorAfter(r.partitioning, |r.channels|, r.upstream, n)
  }

  /** The channel that a route selects for its n-th record. */
  ghost function NthSelection(r: OutputRoute, n: nat, key: Json): Result<PhysicalChannel, RoutingError>
    requires r.channels != []
  {
    Selection(r, CursorAfter(r.partitioning, |r.channels|, r.upstream, n), key).0
  }

  /** Every record moves a route on by one, also one that it has no channel for. */
  lemma SelectionMovesOn(r: OutputRoute, n: nat, key: Json)
    requires r.channels != []
    ensures Selection(r, CursorAfter(r.partitioning, |r.channels|, r.upstream, n), key).1
         == CursorAfter(r.partitioning, |r.channels|, r.upstream, n + 1)
  {
    if r.partitioning == Rebalance {
      AddOneModulo(r.upstream + n, |r.channels|);
    }
  }

  lemma ConnectedIsAdvanced(r: OutputRoute, hashing: Hashing, upstream: nat, group: Group)
    requires Realises(r, hashing, upstream, group)
    ensures Advanced(r, 0)
  {
  }

  /** The channels that took the n-th record of some routes, route by route: the selected ones, and they accepted. */
  ghost predicate RowOf(routes: seq<OutputRoute>, n: nat, key: Json, row: seq<PhysicalChannel>, accepts: nat -> bool) {
    && |row| <= |routes|
    && forall i :: 0 <= i < |row| ==>
         accepts(i) && routes[i].channels != [] && Ok(row[i]) == NthSelection(routes[i], n, key)
  }

  /** The answers to the sends of one record. */
  function AnswersTo(accepts: (nat, nat) -> bool, m: nat): nat -> bool {
    (i: nat) => accepts(m, i)
  }

  /** Emits one record by routes that have been through n before. */
  method EmitNext(routes: seq<OutputRoute>, record: Record, accepts: nat -> bool, ghost n: nat)
    returns (row: seq<PhysicalChannel>, error: Option<EmitError>)
    requires SeparateRouters(routes)
    requires forall i :: 0 <= i < |routes| ==> routes[i].Valid() && Advanced(routes[i], n)
    modifies Routers(routes)
    ensures RowOf(routes, n, record.key, row, accepts) && (error == None <==> |row| == |routes|)
    ensures forall i :: 0 <= i < |routes| ==> routes[i].Valid()
    ensures error == None ==> forall i :: 0 <= i < |routes| ==> Advanced(routes[i], n + 1)
  {
    hide Selection, CursorAfter;
    forall i | 0 <= i < |routes|
      ensures Selection(routes[i], CursorAfter(routes[i].partitioning, |routes[i].channels|, routes[i].upstream, n), record.key).1
              == CursorAfter(routes[i].partitioning, |routes[i].channels|, routes[i].upstream, n + 1)
    {
      SelectionMovesOn(routes[i], n, record.key);
    }
    row, error := Emit(routes, record, accepts);
  }

  /**
   Emits records one after the other, by routes that have been through n before. `sent` lists, record by record, the
   channels that took it, one for each route in turn; only the last record's row is short, if an error ended it.
   */
  method EmitMany(routes: seq<OutputRoute>, records: seq<Record>, accepts: (nat, nat) -> bool, ghost n: nat)
    returns (sent: seq<seq<PhysicalChannel>>, error: Option<EmitError>)
    requires SeparateRouters(routes)
    requires forall i :: 0 <= i < |routes| ==> routes[i].Valid() && Advanced(routes[i], n)
    modifies Routers(routes)
    ensures |sent| <= |records|
    ensures error == None ==> |sent| == |records| && forall i :: 0 <= i < |routes| ==> Advanced(routes[i], n + |records|)
    ensures error.Some? ==> sent != [] && |sent[|sent| - 1]| < |routes|
    ensures forall m :: 0 <= m < |sent| - (if error.Some? then 1 else 0) ==> |sent[m]| == |routes|
    ensures forall m: nat :: m < |sent| ==> RowOf(routes, n + m, records[m].key, sent[m], AnswersTo(accepts, m))
    ensures forall i :: 0 <= i < |routes| ==> routes[i].Valid()
  {
    hide Selection, CursorAfter, RowOf, AnswersTo, Advanced;
    sent := [];
    for k := 0 to |records|
      invariant |sent| == k && forall m :: 0 <= m < k ==> |sent[m]| == |routes|
      invariant forall i :: 0 <= i < |routes| ==> routes[i].Valid() && Advanced(routes[i], n + k)
      invariant forall m: nat :: m < k ==> RowOf(routes, n + m, records[m].key, sent[m], AnswersTo(accepts, m))
    {
      var row, failure := EmitNext(routes, records[k], AnswersTo(accepts, k), n + k);
      assert |row| <= |routes| by { RowIsNoLonger(routes, n + k, records[k].key, row, AnswersTo(accepts, k)); }
      sent := sent + [row];
      if failure.Some? {
        return sent, failure;
      }
    }
    return sent, None;
  }

  lemma RowIsNoLonger(routes: seq<OutputRoute>, n: nat, key: Json, row: seq<PhysicalChannel>, accepts: nat -> bool)
    requires RowOf(routes, n, key, row, accepts)
    ensures |row| <= |routes|
  {
  }
}
