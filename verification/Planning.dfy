/**
 The greedy plan of the slot scheduler (control/scheduler.py): which Worker each task of a job goes to,
 before anything is reserved. Workers are named by their position in the ascending order of their ids.
 */
module Planning {
  import opened Sequences
  import Text

  /** A considered Worker: how many of its slots were in use, and how many it has. */
  datatype Capacity = Capacity(id: string, used: nat, total: nat)

  ghost predicate Usable(caps: seq<Capacity>) {
    && (forall w :: 0 <= w < |caps| ==> caps[w].used < caps[w].total)
    && (forall v, w :: 0 <= v < w < |caps| ==> caps[v].id != caps[w].id)
  }

  function TotalFree(caps: seq<Capacity>): int {
    if caps == [] then 0
    else TotalFree(caps[..|caps| - 1]) + caps[|caps| - 1].total - caps[|caps| - 1].used
  }

  /** A Worker's load once the given picks are made. */
  function Load(caps: seq<Capacity>, picks: seq<nat>, w: nat): nat
    requires w < |caps|
  {
    caps[w].used + Occurrences(picks, w)
  }

  /** The first two tasks of a job go to different Workers, if there are two. */
  function SpreadTarget(tasks: nat, workers: nat): nat {
    if tasks < 2 || workers < 2 then (if tasks < workers then tasks else workers) else 2
  }

  predicate IsCandidate(caps: seq<Capacity>, n: nat, earlier: seq<nat>, w: nat) {
    && w < |caps| && Load(caps, earlier, w) < caps[w].total
    && (|earlier| < SpreadTarget(n, |caps|) ==> w !in earlier)
  }

  /** The exact comparison of (load / total, load, id), with positive totals. */
  predicate Before(a: Capacity, loadA: nat, b: Capacity, loadB: nat) {
    || loadA * b.total < loadB * a.total
    || (loadA * b.total == loadB * a.total && (loadA < loadB || (loadA == loadB && Text.Less(a.id, b.id))))
  }

  ghost predicate IsChoice(caps: seq<Capacity>, n: nat, earlier: seq<nat>, w: nat) {
    && IsCandidate(caps, n, earlier, w)
    && forall v: nat :: v != w && IsCandidate(caps, n, earlier, v) ==>
         Before(caps[w], Load(caps, earlier, w), caps[v], Load(caps, earlier, v))
  }

  /**
   What the choice means: of all Workers with a free slot, but for the first pick when the second of two or more tasks is
   placed and there is another Worker, none has a lower load per slot; of those with the same none has a lower load;
   and of those with the same load too none has an id that comes earlier.
   */
  lemma ChoiceIsLeast(caps: seq<Capacity>, n: nat, earlier: seq<nat>, w: nat, v: nat)
    requires IsChoice(caps, n, earlier, w) && v != w
    requires v < |caps| && Load(caps, earlier, v) < caps[v].total
    requires !(|earlier| == 1 && n >= 2 && |caps| >= 2 && v == earlier[0])
    ensures w < |caps| && !(|earlier| == 1 && n >= 2 && |caps| >= 2 && w == earlier[0])
    ensures var loadW, loadV := Load(caps, earlier, w), Load(caps, earlier, v);
            && loadW < caps[w].total && loadW * caps[v].total <= loadV * caps[w].total
            && (loadW * caps[v].total == loadV * caps[w].total ==>
                  loadW <= loadV && (loadW == loadV ==> Text.Less(caps[w].id, caps[v].id)))
  {
    hide Load;
    assert IsCandidate(caps, n, earlier, v);
  }

  ghost predicate Greedy(caps: seq<Capacity>, n: nat, picks: seq<nat>) {
    |picks| <= n && forall k :: 0 <= k < |picks| ==> IsChoice(caps, n, picks[..k], picks[k])
  }

  /** The tasks planned for a Worker, in the order in which they were. */
  function PlannedFor(tasks: seq<string>, picks: seq<nat>, w: nat): seq<string>
    requires |picks| <= |tasks|
  {
    if picks == [] then []
    else
      var n := |picks| - 1;
      PlannedFor(tasks, picks[..n], w) + (if picks[n] == w then [tasks[n]] else [])
  }

  // ----- comparing -----

  lemma ScaleLess(a: nat, b: nat, n: nat)
    requires n > 0
    ensures a < b <==> a * n < b * n
    ensures a == b <==> a * n == b * n
  {
    if a < b {
      assert a * n + n == (a + 1) * n <= b * n;
    } else if a > b {
      assert b * n + n == (b + 1) * n <= a * n;
    }
  }

  lemma Products(x: nat, y: nat, z: nat)
    ensures (x * y) * z == (x * z) * y == x * (y * z)
  {
  }

  /** Comparing fractions by cross products is transitive. */
  lemma FractionsTransitive(la: nat, ta: nat, lb: nat, tb: nat, lc: nat, tc: nat)
    requires ta > 0 && tb > 0 && tc > 0
    requires la * tb <= lb * ta && lb * tc <= lc * tb
    ensures la * tc <= lc * ta
    ensures la * tb < lb * ta || lb * tc < lc * tb ==> la * tc < lc * ta
  {
    // (la * tc) * tb = (la * tb) * tc <= (lb * ta) * tc = (lb * tc) * ta <= (lc * tb) * ta = (lc * ta) * tb
    Products(la, tc, tb);
    Products(lb, ta, tc);
    Products(lc, tb, ta);
    ScaleLess(la * tb, lb * ta, tc);
    ScaleLess(lb * tc, lc * tb, ta);
    ScaleLess(la * tc, lc * ta, tb);
  }

  lemma BeforeTransitive(a: Capacity, la: nat, b: Capacity, lb: nat, c: Capacity, lc: nat)
    requires a.total > 0 && b.total > 0 && c.total > 0
    requires Before(a, la, b, lb) && Before(b, lb, c, lc)
    ensures Before(a, la, c, lc)
  {
    FractionsTransitive(la, a.total, lb, b.total, lc, c.total);
    if la * b.total == lb * a.total && lb * c.total == lc * b.total {
      FractionsTransitive(lc, c.total, lb, b.total, la, a.total);
    }
    if la == lb == lc && Text.Less(a.id, b.id) && Text.Less(b.id, c.id) {
      Text.LessTransitive(a.id, b.id, c.id);
    }
  }

  lemma BeforeTotal(a: Capacity, la: nat, b: Capacity, lb: nat)
    requires a.id != b.id
    ensures Before(a, la, b, lb) || Before(b, lb, a, la)
    ensures !(Before(a, la, b, lb) && Before(b, lb, a, la))
  {
    Text.LessTotal(a.id, b.id);
    if Text.Less(a.id, b.id) {
      Text.LessAsymmetric(a.id, b.id);
    }
  }

  // ----- choosing -----

  /** Python's min over the candidates, by the scheduler's key. */
  method SelectLeast(caps: seq<Capacity>, n: nat, loads: seq<nat>, ghost earlier: seq<nat>, jobWorkers: set<nat>, k: nat)
    returns (selected: nat)
    requires Usable(caps) && |loads| == |caps| && k == |earlier|
    requires forall w :: 0 <= w < |caps| ==> loads[w] == Load(caps, earlier, w)
    requires forall w :: w in jobWorkers <==> w in earlier
    requires exists w :: IsCandidate(caps, n, earlier, w)
    ensures IsChoice(caps, n, earlier, selected)
  {
    hide Before, Load;
    var found := false;
    selected := 0;
    for w := 0 to |caps|
      invariant !found ==> forall v: nat :: v < w ==> !IsCandidate(caps, n, earlier, v)
      invariant found ==> IsLeastSoFar(caps, n, earlier, selected, w)
    {
      if loads[w] < caps[w].total && (k < SpreadTarget(n, |caps|) ==> w !in jobWorkers) {
        if !found {
          found, selected := true, w;
        } else {
          assert caps[selected].id != caps[w].id;
          BeforeTotal(caps[w], loads[w], caps[selected], loads[selected]);
          if Before(caps[w], loads[w], caps[selected], loads[selected]) {
            LeastMoves(caps, n, earlier, selected, w);
            selected := w;
          }
        }
      }
    }
  }

  ghost predicate IsLeastSoFar(caps: seq<Capacity>, n: nat, earlier: seq<nat>, w: nat, bound: nat) {
    && w < bound && IsCandidate(caps, n, earlier, w)
    && forall v: nat :: v < bound && v != w && IsCandidate(caps, n, earlier, v) ==>
         Before(caps[w], Load(caps, earlier, w), caps[v], Load(caps, earlier, v))
  }

  lemma LeastMoves(caps: seq<Capacity>, n: nat, earlier: seq<nat>, least: nat, w: nat)
    requires Usable(caps) && IsLeastSoFar(caps, n, earlier, least, w) && IsCandidate(caps, n, earlier, w)
    requires Before(caps[w], Load(caps, earlier, w), caps[least], Load(caps, earlier, least))
    ensures IsLeastSoFar(caps, n, earlier, w, w + 1)
  {
    hide Load, Before;
    forall v: nat | v < w && IsCandidate(caps, n, earlier, v)
      ensures Before(caps[w], Load(caps, earlier, w), caps[v], Load(caps, earlier, v))
    {
      if v != least {
        BeforeTransitive(caps[w], Load(caps, earlier, w), caps[least], Load(caps, earlier, least),
                         caps[v], Load(caps, earlier, v));
      }
    }
  }

  // ----- the loop never runs out of candidates -----

  function FreeAfter(caps: seq<Capacity>, picks: seq<nat>, n: nat): int
    requires n <= |caps|
  {
    if n == 0 then 0
    else FreeAfter(caps, picks, n - 1) + caps[n - 1].total - Load(caps, picks, n - 1)
  }

  lemma {:induction false} PickTakesOne(caps: seq<Capacity>, picks: seq<nat>, w: nat, n: nat)
    requires n <= |caps|
    ensures FreeAfter(caps, picks + [w], n) == FreeAfter(caps, picks, n) - (if w < n then 1 else 0)
  {
    if n > 0 {
      PickTakesOne(caps, picks, w, n - 1);
      assert (picks + [w])[..|picks|] == picks;
    }
  }

  lemma {:induction false} FreeAtFirst(caps: seq<Capacity>, n: nat)
    requires n <= |caps|
    ensures FreeAfter(caps, [], n) == TotalFree(caps[..n])
  {
    if n > 0 {
      FreeAtFirst(caps, n - 1);
      assert caps[..n][..n - 1] == caps[..n - 1];
    }
  }

  lemma {:induction false} SomeoneIsFree(caps: seq<Capacity>, picks: seq<nat>, n: nat) returns (w: nat)
    requires n <= |caps| && FreeAfter(caps, picks, n) > 0
    ensures w < n && Load(caps, picks, w) < caps[w].total
  {
    if caps[n - 1].total > Load(caps, picks, n - 1) {
      w := n - 1;
    } else {
      w := SomeoneIsFree(caps, picks, n - 1);
    }
  }

  lemma {:induction false} UnpickedIsIdle(picks: seq<nat>, w: nat)
    requires w !in picks
    ensures Occurrences(picks, w) == 0
  {
    if picks != [] {
      UnpickedIsIdle(picks[..|picks| - 1], w);
    }
  }

  /** While slots suffice, there is a candidate for the next task. */
  lemma CandidateExists(caps: seq<Capacity>, n: nat, earlier: seq<nat>)
    requires Usable(caps) && |earlier| < n
    requires FreeAfter(caps, earlier, |caps|) > 0
    ensures exists w :: IsCandidate(caps, n, earlier, w)
  {
    hide IsCandidate, Usable, FreeAfter, Load;
    var w := SomeoneIsFree(caps, earlier, |caps|);
    if |earlier| == 1 && w == earlier[0] && |caps| >= 2 {
      OtherIsCandidate(caps, n, earlier, if w == 0 then 1 else 0);
    } else {
      FreeIsCandidate(caps, n, earlier, w);
    }
  }

  lemma OtherIsCandidate(caps: seq<Capacity>, n: nat, earlier: seq<nat>, w: nat)
    requires Usable(caps) && w < |caps| && w !in earlier
    ensures IsCandidate(caps, n, earlier, w)
  {
    UnpickedIsIdle(earlier, w);
  }

  lemma FreeIsCandidate(caps: seq<Capacity>, n: nat, earlier: seq<nat>, w: nat)
    requires w < |caps| && Load(caps, earlier, w) < caps[w].total
    requires |earlier| == 1 ==> w != earlier[0] || |caps| < 2
    ensures IsCandidate(caps, n, earlier, w)
  {
    hide Load;
    assert |earlier| == 1 && w in earlier ==> w == earlier[0];
  }

  /** The planning loop: each task in turn goes to the least loaded candidate. */
  method PlanTasks(caps: seq<Capacity>, tasks: seq<string>) returns (planned: seq<seq<string>>, ghost picks: seq<nat>)
    requires Usable(caps) && TotalFree(caps) >= |tasks|
    ensures |picks| == |tasks| && Greedy(caps, |tasks|, picks)
    ensures |planned| == |caps| && forall w :: 0 <= w < |caps| ==> planned[w] == PlannedFor(tasks, picks, w)
  {
    hide Usable, IsChoice;
    planned, picks := seq(|caps|, _ => []), [];
    var loads := seq(|caps|, w requires 0 <= w < |caps| => caps[w].used);
    var jobWorkers: set<nat> := {};
    FreeAtFirst(caps, |caps|);
    assert caps[..|caps|] == caps;
    for k := 0 to |tasks|
      invariant |picks| == k && |planned| == |loads| == |caps|
      invariant Greedy(caps, |tasks|, picks)
      invariant FreeAfter(caps, picks, |caps|) == TotalFree(caps) - k
      invariant forall w :: 0 <= w < |caps| ==> loads[w] == Load(caps, picks, w)
      invariant forall w :: 0 <= w < |caps| ==> planned[w] == PlannedFor(tasks, picks, w)
      invariant forall w :: w in jobWorkers <==> w in picks
    {
      CandidateExists(caps, |tasks|, picks);
      var selected := SelectLeast(caps, |tasks|, loads, picks, jobWorkers, k);
      ChoiceInRange(caps, |tasks|, picks, selected);
      PickTakesOne(caps, picks, selected, |caps|);
      GreedyExtends(caps, |tasks|, picks, selected);
      assert (picks + [selected])[..k] == picks;
      picks := picks + [selected];
      planned := planned[selected := planned[selected] + [tasks[k]]];
      loads := loads[selected := loads[selected] + 1];
      jobWorkers := jobWorkers + {selected};
    }
  }

  lemma ChoiceInRange(caps: seq<Capacity>, n: nat, earlier: seq<nat>, w: nat)
    requires IsChoice(caps, n, earlier, w)
    ensures w < |caps|
  {
  }

  lemma GreedyExtends(caps: seq<Capacity>, n: nat, picks: seq<nat>, w: nat)
    requires Greedy(caps, n, picks) && IsChoice(caps, n, picks, w) && |picks| < n
    ensures Greedy(caps, n, picks + [w])
  {
    hide IsChoice;
    var longer := picks + [w];
    forall k | 0 <= k < |longer| ensures IsChoice(caps, n, longer[..k], longer[k]) {
      assert longer[..k] == if k < |picks| then picks[..k] else picks;
    }
  }

  // ----- what the plan guarantees -----

  lemma {:induction false} OccurrencesSplit(picks: seq<nat>, k: nat, w: nat)
    requires k <= |picks|
    ensures Occurrences(picks, w) == Occurrences(picks[..k], w) + Occurrences(picks[k..], w)
  {
    if k == |picks| {
      assert picks[..k] == picks;
    } else {
      var init := picks[..|picks| - 1];
      OccurrencesSplit(init, k, w);
      assert init[..k] == picks[..k] && picks[k..][..|picks[k..]| - 1] == init[k..];
    }
  }

  /** No Worker is planned beyond its slots. */
  lemma {:induction false} PlanFits(caps: seq<Capacity>, n: nat, picks: seq<nat>, w: nat)
    requires Usable(caps) && Greedy(caps, n, picks) && w < |caps|
    ensures Load(caps, picks, w) <= caps[w].total
  {
    if picks != [] {
      var init := picks[..|picks| - 1];
      PrefixIsGreedy(caps, n, picks);
      PlanFits(caps, n, init, w);
      assert IsChoice(caps, n, picks[..|init|], picks[|init|]);
    }
  }

  /** Scheduling is deterministic: the Workers' ids and loads leave no choice at all. */
  lemma {:induction false} PlanIsDetermined(caps: seq<Capacity>, n: nat, p: seq<nat>, q: seq<nat>)
    requires Usable(caps) && Greedy(caps, n, p) && Greedy(caps, n, q) && |p| == |q|
    ensures p == q
  {
    if p != [] {
      var k := |p| - 1;
      hide Usable, IsChoice, Greedy, Before;
      PrefixIsGreedy(caps, n, p);
      PrefixIsGreedy(caps, n, q);
      PlanIsDetermined(caps, n, p[..k], q[..k]);
      ChoiceIsUnique(caps, n, p[..k], p[k], q[k]);
      SameLast(p, q, k);
    }
  }

  lemma SameLast(p: seq<nat>, q: seq<nat>, k: nat)
    requires |p| == |q| == k + 1 && p[..k] == q[..k] && p[k] == q[k]
    ensures p == q
  {
    assert p == p[..k] + [p[k]] && q == q[..k] + [q[k]];
  }

  lemma PrefixIsGreedy(caps: seq<Capacity>, n: nat, picks: seq<nat>)
    requires Greedy(caps, n, picks) && picks != []
    ensures Greedy(caps, n, picks[..|picks| - 1])
    ensures IsChoice(caps, n, picks[..|picks| - 1], picks[|picks| - 1])
  {
    hide IsChoice;
    var init := picks[..|picks| - 1];
    forall j | 0 <= j < |init| ensures IsChoice(caps, n, init[..j], init[j]) {
      assert init[..j] == picks[..j];
    }
  }

  lemma ChoiceIsUnique(caps: seq<Capacity>, n: nat, earlier: seq<nat>, v: nat, w: nat)
    requires Usable(caps) && IsChoice(caps, n, earlier, v) && IsChoice(caps, n, earlier, w)
    ensures v == w
  {
    hide Before, Load;
    if v != w {
      BeforeTotal(caps[v], Load(caps, earlier, v), caps[w], Load(caps, earlier, w));
    }
  }

  /** Two tasks and two usable Workers: the first two tasks go to different ones. */
  lemma FirstTwoSpread(caps: seq<Capacity>, n: nat, picks: seq<nat>)
    requires Greedy(caps, n, picks) && |picks| >= 2 && |caps| >= 2
    ensures picks[0] != picks[1]
  {
    assert IsChoice(caps, n, picks[..1], picks[1]);
    assert picks[..1][0] == picks[0];
  }

  /** The last task that a Worker got was task k. */
  predicate IsLastPick(picks: seq<nat>, w: nat, k: nat) {
    k < |picks| && picks[k] == w && forall j :: k < j < |picks| ==> picks[j] != w
  }

  /**
   Balance. Let a Worker's last task be any but the second of a job that had to be spread. Without that task it
   was at most as full, as a fraction of its slots, as any considered Worker that still has a free slot.
   */
  lemma BalanceBound(caps: seq<Capacity>, n: nat, picks: seq<nat>, w: nat, v: nat, k: nat)
    requires Usable(caps) && Greedy(caps, n, picks) && w < |caps| && v < |caps|
    requires IsLastPick(picks, w, k) && (k == 1 ==> SpreadTarget(n, |caps|) < 2)
    requires Load(caps, picks, v) < caps[v].total
    ensures (Load(caps, picks, w) - 1) * caps[v].total <= Load(caps, picks, v) * caps[w].total
  {
    var earlier := picks[..k];
    assert IsChoice(caps, n, earlier, picks[k]);
    OccurrencesSplit(picks, k, v);
    OccurrencesSplit(picks, k + 1, w);
    OccurrencesSplit(picks[..k + 1], k, w);
    assert picks[..k + 1][..k] == earlier && picks[..k + 1][k..] == [w];
    UnpickedIsIdle(picks[k + 1..], w);
    assert Occurrences([w], w) == 1;
    assert Load(caps, earlier, w) == Load(caps, picks, w) - 1;
    if v != w {
      assert IsCandidate(caps, n, earlier, v);
      ScaleAtMost(Load(caps, earlier, v), Load(caps, picks, v), caps[w].total);
    } else {
      ScaleAtMost(Load(caps, earlier, w), Load(caps, picks, w), caps[w].total);
    }
  }

  lemma ScaleAtMost(a: nat, b: nat, n: nat)
    requires a <= b
    ensures a * n <= b * n
  {
  }

  /** From idle Workers of equal size, loads differ by at most one. */
  lemma {:induction false} IdleWorkersStayLevel(caps: seq<Capacity>, n: nat, picks: seq<nat>, v: nat, w: nat)
    requires Usable(caps) && Greedy(caps, n, picks) && v < |caps| && w < |caps|
    requires forall i :: 0 <= i < |caps| ==> caps[i].used == 0 && caps[i].total == caps[0].total
    ensures Load(caps, picks, w) <= Load(caps, picks, v) + 1
  {
    if picks != [] {
      var k := |picks| - 1;
      var init := picks[..k];
      PrefixIsGreedy(caps, n, picks);
      IdleWorkersStayLevel(caps, n, init, v, w);
      assert IsChoice(caps, n, init, picks[k]);
      if picks[k] == w != v {
        ChosenIsLowest(caps, n, init, v, w);
      }
    }
  }

  lemma ChosenIsLowest(caps: seq<Capacity>, n: nat, earlier: seq<nat>, v: nat, w: nat)
    requires Usable(caps) && Greedy(caps, n, earlier) && v < |caps| && w < |caps| && v != w
    requires forall i :: 0 <= i < |caps| ==> caps[i].used == 0 && caps[i].total == caps[0].total
    requires IsChoice(caps, n, earlier, w)
    ensures Load(caps, earlier, w) <= Load(caps, earlier, v)
  {
    var total := caps[0].total;
    if IsCandidate(caps, n, earlier, v) {
      ScaleLess(Load(caps, earlier, v), Load(caps, earlier, w), total);
    } else if Load(caps, earlier, v) < total {
      // v already has the first task, and w may not have it too
      assert w !in earlier;
      UnpickedIsIdle(earlier, w);
    }
  }
}
