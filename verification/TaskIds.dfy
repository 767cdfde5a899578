/** Physical task ids: how they are printed (control/execution.py) and taken apart again (runtime/task.py). */
module TaskIds {
  import opened Wrappers

  function Digit(d: nat): char
    requires d < 10
  {
    "0123456789"[d]
  }

  function Decimal(n: nat): (s: string)
    ensures s != "" && forall i :: 0 <= i < |s| ==> '0' <= s[i] <= '9'
  {
    if n < 10 then [Digit(n)] else Decimal(n / 10) + [Digit(n % 10)]
  }

  /** The value of some digits, most significant first. */
  function Value(digits: string): nat
    requires forall i :: 0 <= i < |digits| ==> '0' <= digits[i] <= '9'
  {
    if digits == "" then 0
    else Value(digits[..|digits| - 1]) * 10 + (digits[|digits| - 1] as nat - '0' as nat)
  }

  /** The decimal notation of a number: its digits are those of the number, and it has no leading zero. */
  lemma {:induction false} DecimalIs(n: nat)
    ensures Value(Decimal(n)) == n && (n > 0 ==> Decimal(n)[0] != '0') && (n == 0 ==> Decimal(n) == "0")
  {
    if n >= 10 {
      DecimalIs(n / 10);
      hide Decimal;
      LastDigit(n);
      FirstDigit(n);
    }
  }

  lemma FirstDigit(n: nat)
    requires n >= 10
    ensures Decimal(n)[0] == Decimal(n / 10)[0]
  {
  }

  /** int() on plain decimal digits; None is its ValueError. */
  function ParseDecimal(s: string): Option<nat> {
    if s == "" then None
    else
      var last := s[|s| - 1];
      if !('0' <= last <= '9') then None
      else
        var d := last as nat - '0' as nat;
        if |s| == 1 then Some(d)
        else
          match ParseDecimal(s[..|s| - 1])
          case None => None
          case Some(n) => Some(10 * n + d)
  }

  lemma LastDigit(n: nat)
    requires n >= 10
    ensures Decimal(n)[..|Decimal(n)| - 1] == Decimal(n / 10)
    ensures Decimal(n)[|Decimal(n)| - 1] as nat - '0' as nat == n % 10 && |Decimal(n)| > 1
  {
  }

  lemma {:induction false} DecimalRoundTrip(n: nat)
    ensures ParseDecimal(Decimal(n)) == Some(n)
  {
    if n >= 10 {
      DecimalRoundTrip(n / 10);
      hide Decimal;
      LastDigit(n);
    }
  }

  predicate NoColon(s: string) {
    forall i :: 0 <= i < |s| ==> s[i] != ':'
  }

  function LastColon(s: string): (i: Option<nat>)
    ensures i.Some? ==> i.value < |s| && s[i.value] == ':'
  {
    if s == "" then None
    else if s[|s| - 1] == ':' then Some(|s| - 1)
    else LastColon(s[..|s| - 1])
  }

  /** rsplit(":", 1): the parts around the last colon. */
  function SplitLast(s: string): Option<(string, string)> {
    match LastColon(s)
    case None => None
    case Some(i) => Some((s[..i], s[i + 1..]))
  }

  lemma {:induction false} SplitJoined(head: string, tail: string)
    requires NoColon(tail)
    ensures SplitLast(head + ":" + tail) == Some((head, tail))
  {
    LastColonOf(head, tail);
    var s := head + ":" + tail;
    assert s[..|head|] == head && s[|head| + 1..] == tail;
  }

  lemma {:induction false} LastColonOf(head: string, tail: string)
    requires NoColon(tail)
    ensures LastColon(head + ":" + tail) == Some(|head|)
  {
    var s := head + ":" + tail;
    if tail != "" {
      var init := tail[..|tail| - 1];
      assert s[|s| - 1] == tail[|tail| - 1] && s[..|s| - 1] == head + ":" + init;
      LastColonOf(head, init);
    }
  }

  function TaskId(jobId: string, operatorId: string, subtask: nat): string {
    jobId + ":" + operatorId + ":" + Decimal(subtask)
  }

  /** The operator and subtask that a task id names; None is the error on a malformed id. */
  function TaskCoordinates(taskId: string): Option<(string, nat)> {
    match SplitLast(taskId)
    case None => None
    case Some((rest, rawSubtask)) =>
      match SplitLast(rest)
      case None => None
      case Some((_, operatorId)) =>
        match ParseDecimal(rawSubtask)
        case None => None
        case Some(subtask) => if operatorId == "" then None else Some((operatorId, subtask))
  }

  lemma IdsSplit(jobId: string, operatorId: string, subtask: nat)
    requires NoColon(operatorId)
    ensures SplitLast(TaskId(jobId, operatorId, subtask)) == Some((jobId + ":" + operatorId, Decimal(subtask)))
    ensures SplitLast(jobId + ":" + operatorId) == Some((jobId, operatorId))
  {
    SplitJoined(jobId + ":" + operatorId, Decimal(subtask));
    SplitJoined(jobId, operatorId);
  }

  /** Whatever the job id, even with colons in it, the coordinates come back. */
  lemma CoordinatesRoundTrip(jobId: string, operatorId: string, subtask: nat)
    requires operatorId != "" && NoColon(operatorId)
    ensures TaskCoordinates(TaskId(jobId, operatorId, subtask)) == Some((operatorId, subtask))
  {
    IdsSplit(jobId, operatorId, subtask);
    DecimalRoundTrip(subtask);
  }

  /** Task ids are injective, so the ids of different jobs never collide. */
  lemma TaskIdInjective(jobA: string, operatorA: string, subtaskA: nat,
                        jobB: string, operatorB: string, subtaskB: nat)
    requires NoColon(operatorA) && NoColon(operatorB)
    requires TaskId(jobA, operatorA, subtaskA) == TaskId(jobB, operatorB, subtaskB)
    ensures jobA == jobB && operatorA == operatorB && subtaskA == subtaskB
  {
    IdsSplit(jobA, operatorA, subtaskA);
    IdsSplit(jobB, operatorB, subtaskB);
    DecimalRoundTrip(subtaskA);
    DecimalRoundTrip(subtaskB);
  }
}
