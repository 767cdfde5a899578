/**
 The word count's reduce (examples/wordcount/wordcount_udfs.py) as a UDF of the stage theorems: it fails on most
 payloads, and is lawful on those of one word.
 */
module WordCount {
  import opened Wrappers
  import opened Records
  import opened Sequences
  import opened Window
  import opened WindowRuns
  import opened Parallel
  import opened Protocol

  /** Python's dict.get, for which a missing entry and null are alike. */
  function Get(fields: map<string, Json>, name: string): Json {
    if name in fields then fields[name] else Null
  }

  function AddCounts(left: Json, right: Json): Option<Json> {
    if !left.Object? || !right.Object? then None
    else if Get(left.fields, "word") != Get(right.fields, "word") then None
    else if !Get(left.fields, "count").Number? || !Get(right.fields, "count").Number? then None
    else if "word" !in left.fields then None
    else
      var sum := Get(left.fields, "count").number + Get(right.fields, "count").number;
      Some(Object(map["word" := left.fields["word"], "count" := Number(sum)]))
  }

  /** What normalize produces for a word. */
  function WordPayload(word: string, count: int): Json {
    Object(map["word" := String(word), "count" := Number(count)])
  }

  /** The payloads of one word; others may be added to them only by mistake, and the reduce then raises. */
  predicate OfWord(word: string, p: Json) {
    p.Object? && Get(p.fields, "word") == String(word) && Get(p.fields, "count").Number?
  }

  function WordDomain(word: string): Domain {
    p => OfWord(word, p)
  }

  function CountOf(p: Json): int
    requires p.Object? && Get(p.fields, "count").Number?
  {
    Get(p.fields, "count").number
  }

  lemma AddingOfWord(word: string, a: Json, b: Json)
    requires OfWord(word, a) && OfWord(word, b)
    ensures AddCounts(a, b) == Some(WordPayload(word, CountOf(a) + CountOf(b)))
  {
  }

  lemma PayloadIsOfWord(word: string, count: int)
    ensures OfWord(word, WordPayload(word, count)) && CountOf(WordPayload(word, count)) == count
  {
  }

  lemma SumIsOfWord(word: string, a: Json, b: Json)
    requires OfWord(word, a) && OfWord(word, b)
    ensures AddCounts(a, b).Some? && OfWord(word, AddCounts(a, b).value) && AddCounts(a, b) == AddCounts(b, a)
  {
    hide AddCounts, WordPayload;
    AddingOfWord(word, a, b);
    AddingOfWord(word, b, a);
    PayloadIsOfWord(word, CountOf(a) + CountOf(b));
  }

  /** On the payloads of one word the reduce succeeds, associates and commutes. */
  lemma AddCountsIsLawful(word: string)
    ensures Succeeds(AddCounts, WordDomain(word))
    ensures Associative(AddCounts, WordDomain(word)) && Commutative(AddCounts, WordDomain(word))
  {
    hide AddCounts, OfWord, WordPayload, Get;
    forall a, b | OfWord(word, a) && OfWord(word, b)
      ensures AddCounts(a, b) == AddCounts(b, a)
      ensures AddCounts(a, b).Some? && OfWord(word, AddCounts(a, b).value)
    {
      SumIsOfWord(word, a, b);
    }
    forall a, b, c | OfWord(word, a) && OfWord(word, b) && OfWord(word, c)
      ensures AddCounts(AddCounts(a, b).value, c) == AddCounts(a, AddCounts(b, c).value)
    {
      AddingThree(word, a, b, c);
    }
  }

  lemma AddingThree(word: string, a: Json, b: Json, c: Json)
    requires OfWord(word, a) && OfWord(word, b) && OfWord(word, c)
    ensures AddCounts(a, b).Some? && AddCounts(b, c).Some?
    ensures AddCounts(AddCounts(a, b).value, c) == AddCounts(a, AddCounts(b, c).value)
  {
    hide AddCounts, WordPayload;
    AddingOfWord(word, a, b);
    AddingOfWord(word, b, c);
    var x, y, z := CountOf(a), CountOf(b), CountOf(c);
    PayloadIsOfWord(word, x + y);
    PayloadIsOfWord(word, y + z);
    AddingOfWord(word, WordPayload(word, x + y), c);
    AddingOfWord(word, a, WordPayload(word, y + z));
  }

  /** It is no total function: it raises on other values, and across words. */
  lemma AddCountsIsPartial(word: string, other: string, count: int)
    requires word != other
    ensures AddCounts(Null, Null) == None && AddCounts(WordPayload(word, count), Null) == None
    ensures AddCounts(WordPayload(word, count), WordPayload(other, count)) == None
    ensures !Succeeds(AddCounts, _ => true)
  {
    assert AddCounts(Null, Null) == None;
  }

  function Total(counts: seq<int>): int {
    if counts == [] then 0 else Total(counts[..|counts| - 1]) + counts[|counts| - 1]
  }

  function Payloads(word: string, counts: seq<int>): (r: seq<Json>)
    ensures |r| == |counts| && forall i :: 0 <= i < |r| ==> r[i] == WordPayload(word, counts[i])
  {
    seq(|counts|, i requires 0 <= i < |counts| => WordPayload(word, counts[i]))
  }

  /** Folding the counts of a word gives their sum. */
  lemma {:induction false} FoldIsTotal(word: string, counts: seq<int>)
    requires counts != []
    ensures Combine(AddCounts, Payloads(word, counts)) == Some(WordPayload(word, Total(counts)))
  {
    var n := |counts| - 1;
    assert Payloads(word, counts)[..n] == Payloads(word, counts[..n]);
    if n > 0 {
      FoldIsTotal(word, counts[..n]);
    }
  }

  /**
   Counting in parallel is counting: if the records of a word in a window carry these counts, then what all
   reducers emitted for it, together with what they still hold, adds up to their sum.
   */
  lemma WordCountsAddUp(s: Stage, ids: seq<seq<ChannelIdentity>>, logs: seq<seq<(ChannelIdentity, Record)>>,
                        runs: seq<seq<Event>>, g: StateKey, word: string, counts: seq<int>)
    requires s.Valid() && s.c.reduce == AddCounts && StageRun(s, ids, logs, runs)
    requires GroupPayloads(s.c, Flatten(s.upstream), g) == Payloads(word, counts) && counts != []
    ensures Combine(AddCounts, StageResults(s.c, runs, g, s.reducers)) == Some(WordPayload(word, Total(counts)))
  {
    hide Run, Results, StageResults, ReducerRun, Flatten;
    AddCountsIsLawful(word);
    FoldIsTotal(word, counts);
    ResultsUpTo(s, ids, logs, runs, g, WordDomain(word), s.reducers);
  }
}
