/**
  The streaming group-and-reduce engine. Its state is an insertion-ordered
  dictionary from group key to accumulator, modelled as a map together with
  the list of its keys in first-seen order.
*/
module Aggregation {
  import opened Wrappers
  import opened Records
  import opened Schemes
  import opened Report

  datatype State = State(coll: map<string, Acc>, order: seq<string>)

  /** The state of a freshly constructed parser. */
  const Empty := State(map[], [])

  predicate NoDuplicates(xs: seq<string>) {
    forall i, j :: 0 <= i < j < |xs| ==> xs[i] != xs[j]
  }

  /** The key list lists every key of the map exactly once. */
  ghost predicate StateValid(st: State) {
    && NoDuplicates(st.order)
    && forall k :: k in st.coll <==> k in st.order
  }

  predicate IsPrefix(xs: seq<string>, ys: seq<string>) {
    |xs| <= |ys| && ys[..|xs|] == xs
  }

  /** Python's `dict.get`: None for a key not yet seen. */
  function Get(m: map<string, Acc>, k: string): (r: Option<Acc>)
    ensures r.Some? <==> k in m
    ensures r.Some? ==> m[k] == r.value
  {
    if k in m then Some(m[k]) else None
  }

  predicate AllAdmissible(s: Scheme, logs: seq<Record>) {
    forall i :: 0 <= i < |logs| ==> Admissible(s, logs[i])
  }

  /**
    One iteration of the parse loop: a rejected record is skipped; any other
    record's accumulator is fetched by its key, reduced, and stored back. A key
    seen for the first time goes to the end of the key order; an existing key
    keeps its place.
  */
  function Step(s: Scheme, st: State, log: Record): (r: State)
    requires Admissible(s, log)
    ensures !Passes(s, log) ==> r == st
    ensures Passes(s, log) ==>
      Get(r.coll, KeyOf(s, log)) == Some(Reduce(s.reduce, Get(st.coll, KeyOf(s, log)), log))
    ensures Passes(s, log) ==> forall k :: k != KeyOf(s, log) ==> Get(r.coll, k) == Get(st.coll, k)
    ensures Passes(s, log) ==>
      r.order == st.order + (if KeyOf(s, log) in st.coll then [] else [KeyOf(s, log)])
    ensures StateValid(st) ==> StateValid(r)
  {
    if !Passes(s, log) then st
    else
      var key := KeyOf(s, log);
      var akk := Get(st.coll, key);
      State(st.coll[key := Reduce(s.reduce, akk, log)], if key in st.coll then st.order else st.order + [key])
  }

  /** The state after the parse loop has consumed `logs`, starting from `st`. */
  function Run(s: Scheme, st: State, logs: seq<Record>): State
    requires AllAdmissible(s, logs)
    decreases logs
  {
    if logs == [] then st else Run(s, Step(s, st, logs[0]), logs[1..])
  }

  /** Parsing one record is one step. */
  lemma RunOne(s: Scheme, st: State, log: Record)
    requires Admissible(s, log)
    ensures AllAdmissible(s, [log])
    ensures Run(s, st, [log]) == Step(s, st, log)
  {
    assert AllAdmissible(s, [log]);
    assert [log][1..] == [];
  }

  lemma TakeOneMore(xs: seq<Record>, i: nat)
    requires i < |xs|
    ensures xs[..i + 1] == xs[..i] + [xs[i]]
  {
  }

  /** The group keys of the records that pass the predicate, in input order, repeats included. */
  function PassingKeys(s: Scheme, logs: seq<Record>): seq<string>
    requires AllAdmissible(s, logs)
  {
    if logs == [] then []
    else (if Passes(s, logs[0]) then [KeyOf(s, logs[0])] else []) + PassingKeys(s, logs[1..])
  }

  /** The records that pass the predicate and have group key `k`, in input order. */
  function Matching(s: Scheme, logs: seq<Record>, k: string): (rs: seq<Record>)
    requires AllAdmissible(s, logs)
    ensures forall i :: 0 <= i < |rs| ==> HasReduceFields(rs[i])
  {
    if logs == [] then []
    else (if Passes(s, logs[0]) && KeyOf(s, logs[0]) == k then [logs[0]] else []) + Matching(s, logs[1..], k)
  }

  /**
    Every element of `ks` at its first occurrence, in order: the distinct
    values of `ks` in first-seen order.
  */
  function FirstSeen(ks: seq<string>): (r: seq<string>)
    ensures NoDuplicates(r)
    ensures forall k :: k in r <==> k in ks
  {
    if ks == [] then []
    else
      var init := ks[..|ks| - 1];
      var last := ks[|ks| - 1];
      FirstSeen(init) + if last in init then [] else [last]
  }

  /** A list without repeats is its own first-seen list. */
  lemma {:induction false} FirstSeenDistinct(ks: seq<string>)
    requires NoDuplicates(ks)
    ensures FirstSeen(ks) == ks
  {
    if ks != [] {
      var init := ks[..|ks| - 1];
      FirstSeenDistinct(init);
      assert ks[|ks| - 1] !in init;
      assert init + [ks[|ks| - 1]] == ks;
    }
  }

  lemma {:induction false} AdmissibleAppend(s: Scheme, a: seq<Record>, b: seq<Record>)
    requires AllAdmissible(s, a) && AllAdmissible(s, b)
    ensures AllAdmissible(s, a + b)
  {
    assert forall i :: 0 <= i < |a + b| ==> (a + b)[i] == if i < |a| then a[i] else b[i - |a|];
  }

  /**
    Parsing `a` and then `b` into the same state gives what parsing `a + b`
    at once gives: the state is carried over, not reset, between calls.
  */
  lemma {:induction false} RunAppend(s: Scheme, st: State, a: seq<Record>, b: seq<Record>)
    requires AllAdmissible(s, a) && AllAdmissible(s, b)
    ensures AllAdmissible(s, a + b)
    ensures Run(s, st, a + b) == Run(s, Run(s, st, a), b)
    decreases a
  {
    AdmissibleAppend(s, a, b);
    if a == [] {
      assert a + b == b;
    } else {
      assert (a + b)[1..] == a[1..] + b;
      RunAppend(s, Step(s, st, a[0]), a[1..], b);
    }
  }

  lemma {:induction false} PassingKeysAppend(s: Scheme, a: seq<Record>, b: seq<Record>)
    requires AllAdmissible(s, a) && AllAdmissible(s, b)
    ensures AllAdmissible(s, a + b)
    ensures PassingKeys(s, a + b) == PassingKeys(s, a) + PassingKeys(s, b)
    decreases a
  {
    AdmissibleAppend(s, a, b);
    if a == [] {
      assert a + b == b;
    } else {
      assert (a + b)[1..] == a[1..] + b;
      PassingKeysAppend(s, a[1..], b);
    }
  }

  /**
    Parsing keeps the state well formed and never removes or moves a key:
    the old key order is a prefix of the new one.
  */
  lemma {:induction false} RunValid(s: Scheme, st: State, logs: seq<Record>)
    requires AllAdmissible(s, logs) && StateValid(st)
    ensures StateValid(Run(s, st, logs))
    ensures IsPrefix(st.order, Run(s, st, logs).order)
    decreases logs
  {
    if logs != [] {
      var st' := Step(s, st, logs[0]);
      RunValid(s, st', logs[1..]);
      assert IsPrefix(st.order, st'.order);
      PrefixTrans(st.order, st'.order, Run(s, st', logs[1..]).order);
    }
  }

  lemma PrefixTrans(a: seq<string>, b: seq<string>, c: seq<string>)
    requires IsPrefix(a, b) && IsPrefix(b, c)
    ensures IsPrefix(a, c)
  {
    assert c[..|a|] == c[..|b|][..|a|];
  }

  lemma ConcatAssoc(a: seq<string>, b: seq<string>, c: seq<string>)
    ensures a + (b + c) == (a + b) + c
  {
  }

  /**
    The key order after parsing is the first-seen order of the old keys
    followed by the keys of the passing records.
  */
  lemma {:induction false} RunOrder(s: Scheme, st: State, logs: seq<Record>)
    requires AllAdmissible(s, logs) && StateValid(st)
    ensures Run(s, st, logs).order == FirstSeen(st.order + PassingKeys(s, logs))
    decreases |logs|
  {
    if logs == [] {
      assert st.order + [] == st.order;
      FirstSeenDistinct(st.order);
    } else {
      var init, last := logs[..|logs| - 1], logs[|logs| - 1];
      assert logs == init + [last];
      assert AllAdmissible(s, init);
      assert AllAdmissible(s, [last]);
      RunAppend(s, st, init, [last]);
      PassingKeysAppend(s, init, [last]);
      var mid := Run(s, st, init);
      var ks := st.order + PassingKeys(s, init);
      RunOrder(s, st, init);
      RunValid(s, st, init);
      assert Admissible(s, last) && StateValid(mid) && mid.order == FirstSeen(ks);
      StepOrder(s, mid, last, ks);
      var pk, pl := PassingKeys(s, init), PassingKeys(s, [last]);
      assert PassingKeys(s, logs) == pk + pl;
      ConcatAssoc(st.order, pk, pl);
    }
  }

  /** One more record extends the first-seen order of the keys processed so far. */
  lemma StepOrder(s: Scheme, mid: State, last: Record, ks: seq<string>)
    requires Admissible(s, last) && StateValid(mid) && mid.order == FirstSeen(ks)
    ensures AllAdmissible(s, [last])
    ensures Run(s, mid, [last]).order == FirstSeen(ks + PassingKeys(s, [last]))
  {
    assert AllAdmissible(s, [last]);
    assert Run(s, mid, [last]) == Step(s, mid, last);
    if Passes(s, last) {
      var key := KeyOf(s, last);
      assert PassingKeys(s, [last]) == [key];
      assert (ks + [key])[..|ks + [key]| - 1] == ks;
      assert key in mid.coll <==> key in ks;
    } else {
      assert PassingKeys(s, [last]) == [];
      assert ks + [] == ks;
    }
  }

  /**
    Key set and key order: parsing `logs` into a fresh parser leaves exactly
    the distinct keys of the passing records, in first-seen order.
  */
  lemma KeysFirstSeen(s: Scheme, logs: seq<Record>)
    requires AllAdmissible(s, logs)
    ensures Run(s, Empty, logs).order == FirstSeen(PassingKeys(s, logs))
    ensures forall k :: k in Run(s, Empty, logs).coll <==> k in PassingKeys(s, logs)
  {
    RunOrder(s, Empty, logs);
    RunValid(s, Empty, logs);
    assert Empty.order + PassingKeys(s, logs) == PassingKeys(s, logs);
  }

  /**
    Grouping: after parsing, a key's accumulator is its old accumulator
    reduced, in order, by exactly the passing records with that key.
  */
  lemma {:induction false} RunPerKey(s: Scheme, st: State, logs: seq<Record>, k: string)
    requires AllAdmissible(s, logs)
    ensures Get(Run(s, st, logs).coll, k) == ReduceAll(s.reduce, Get(st.coll, k), Matching(s, logs, k))
    decreases logs
  {
    if logs != [] {
      var st' := Step(s, st, logs[0]);
      RunPerKey(s, st', logs[1..], k);
      var m := Matching(s, logs, k);
      var rest := Matching(s, logs[1..], k);
      if Passes(s, logs[0]) && KeyOf(s, logs[0]) == k {
        assert m == [logs[0]] + rest;
        assert m[0] == logs[0] && m[1..] == rest;
      } else {
        assert m == rest;
      }
    }
  }

  /**
    Count invariant, for either reducer: a fresh parser's accumulator for a key
    exists exactly when some passing record has that key, and its count is
    the number of such records.
  */
  lemma GroupCounts(s: Scheme, logs: seq<Record>, k: string)
    requires AllAdmissible(s, logs)
    ensures k in Run(s, Empty, logs).coll <==> |Matching(s, logs, k)| > 0
    ensures k in Run(s, Empty, logs).coll ==> Run(s, Empty, logs).coll[k].count == |Matching(s, logs, k)|
  {
    RunPerKey(s, Empty, logs, k);
  }

  /**
    The default scheme's accumulator for a key is [first url seen, number of
    passing records with that key, sum of their response times].
  */
  lemma DefaultTotals(s: Scheme, logs: seq<Record>, k: string)
    requires AllAdmissible(s, logs) && s.reduce == SumCount
    requires k in Run(s, Empty, logs).coll
    ensures var m := Matching(s, logs, k);
      |m| > 0 && Run(s, Empty, logs).coll[k] == Acc(m[0]["url"], |m|, SumResponseTimes(m))
  {
    RunPerKey(s, Empty, logs, k);
    SumCountFold(Matching(s, logs, k));
  }

  /**
    The average scheme's accumulator for a key is [first url seen, number of
    passing records with that key, arithmetic mean of their response times].
  */
  lemma AverageMeans(s: Scheme, logs: seq<Record>, k: string)
    requires AllAdmissible(s, logs) && s.reduce == RunningMean
    requires k in Run(s, Empty, logs).coll
    ensures var m := Matching(s, logs, k);
      |m| > 0 && Run(s, Empty, logs).coll[k] == Acc(m[0]["url"], |m|, MeanResponseTime(m))
  {
    RunPerKey(s, Empty, logs, k);
    RunningMeanFold(Matching(s, logs, k));
  }

  /** A list without repeats has as many distinct elements as entries. */
  lemma {:induction false} DistinctCount(xs: seq<string>)
    requires NoDuplicates(xs)
    ensures |set x | x in xs| == |xs|
  {
    if xs != [] {
      var init, last := xs[..|xs| - 1], xs[|xs| - 1];
      assert NoDuplicates(init);
      DistinctCount(init);
      assert (set x | x in xs) == (set x | x in init) + {last};
      assert last !in (set x | x in init);
    }
  }

  /**
    `coll.values()`: one accumulator per key of the dictionary, each exactly
    once, in first-seen key order.
  */
  function Values(st: State): (vs: seq<Acc>)
    requires StateValid(st)
    ensures |vs| == |st.order| == |st.coll|
    ensures forall i :: 0 <= i < |vs| ==> st.order[i] in st.coll && vs[i] == st.coll[st.order[i]]
    ensures forall k :: k in st.coll ==> exists i :: 0 <= i < |vs| && st.order[i] == k && vs[i] == st.coll[k]
  {
    DistinctCount(st.order);
    assert st.coll.Keys == set x | x in st.order;
    seq(|st.order|, i requires 0 <= i < |st.order| => st.coll[st.order[i]])
  }

  /** The parser: a scheme and the dictionary it folds every parsed record into. */
  class Parser {
    const scheme: Scheme
    var coll: map<string, Acc>
    var order: seq<string>

    function Current(): State
      reads this
    {
      State(coll, order)
    }

    ghost predicate Valid()
      reads this
    {
      StateValid(Current())
    }

    /** A new parser starts with an empty dictionary. */
    constructor (scheme: Scheme)
      ensures this.scheme == scheme && Current() == Empty && Valid()
    {
      this.scheme := scheme;
      coll := map[];
      order := [];
    }

    /** Folds `logs` into the dictionary, one record at a time, without resetting it. */
    method Parse(logs: seq<Record>)
      requires Valid() && AllAdmissible(scheme, logs)
      modifies this
      ensures Valid()
      ensures Current() == Run(scheme, old(Current()), logs)
    {
      ghost var start := Current();
      for i := 0 to |logs|
        invariant Valid()
        invariant Current() == Run(scheme, start, logs[..i])
      {
        var log := logs[i];
        TakeOneMore(logs, i);
        RunAppend(scheme, start, logs[..i], [log]);
        if scheme.filter.Some? && !Accepts(scheme.filter.value, log) {
          continue;
        }
        var key := KeyOf(scheme, log);
        var akk := Get(coll, key);
        if key !in coll {
          order := order + [key];
        }
        coll := coll[key := Reduce(scheme.reduce, akk, log)];
      }
      assert logs[..|logs|] == logs;
    }
  }

  /** All records of the given files, in order. */
  function Concat(files: seq<seq<Record>>): seq<Record> {
    if files == [] then [] else Concat(files[..|files| - 1]) + files[|files| - 1]
  }

  /**
    The driver: one parser for the chosen scheme, every file parsed into it in
    order, then the values in the scheme's report order. The rows are those of
    one parse over all the files' records.
  */
  method Aggregate(s: Scheme, files: seq<seq<Record>>) returns (rows: seq<Acc>)
    requires forall i :: 0 <= i < |files| ==> AllAdmissible(s, files[i])
    ensures AllAdmissible(s, Concat(files))
    ensures StateValid(Run(s, Empty, Concat(files)))
    ensures rows == Rows(s.sorting, Values(Run(s, Empty, Concat(files))))
  {
    var p := new Parser(s);
    for i := 0 to |files|
      invariant p.Valid() && p.scheme == s
      invariant AllAdmissible(s, Concat(files[..i]))
      invariant p.Current() == Run(s, Empty, Concat(files[..i]))
    {
      assert files[..i + 1][..i] == files[..i];
      RunAppend(s, Empty, Concat(files[..i]), files[i]);
      p.Parse(files[i]);
    }
    assert files[..|files|] == files;
    rows := Rows(s.sorting, Values(p.Current()));
  }
}
