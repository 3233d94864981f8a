/**
  The behaviour the repository's tests check, restated over exact reals: the
  tests compare binary floating-point results, the model states the exact sums
  and means they approximate.
*/
module Scenarios {
  import opened Wrappers
  import opened Records
  import opened Schemes
  import opened Aggregation

  function Log(url: string, rt: real): Record {
    map["url" := Str(url), "response_time" := Float(rt)]
  }

  function Stamped(url: string, rt: real, ts: string): Record {
    Log(url, rt)["@timestamp" := Str(ts)]
  }

  /** What the scheme's key and reducers read from a test record. */
  lemma StampedFields(s: Scheme, url: string, rt: real, ts: string)
    requires s.groupByKey == "url"
    ensures var log := Stamped(url, rt, ts);
      && HasReduceFields(log) && log["url"] == Str(url) && ResponseTime(log) == rt
      && s.groupByKey in log && Stringable(log[s.groupByKey]) && KeyOf(s, log) == url
      && "@timestamp" in log && log["@timestamp"] == Str(ts)
  {
  }

  lemma LogFields(s: Scheme, url: string, rt: real)
    requires s.groupByKey == "url" && s.filter.None?
    ensures var log := Log(url, rt);
      && HasReduceFields(log) && log["url"] == Str(url) && ResponseTime(log) == rt
      && Passes(s, log) && Admissible(s, log) && KeyOf(s, log) == url
  {
  }

  /** A passing record with a key not seen yet starts a new group at the end. */
  lemma StepNew(s: Scheme, st: State, log: Record)
    requires Admissible(s, log) && Passes(s, log) && KeyOf(s, log) !in st.coll
    ensures Step(s, st, log) == State(st.coll[KeyOf(s, log) := Reduce(s.reduce, None, log)], st.order + [KeyOf(s, log)])
  {
  }

  /** A passing record with a known key updates that group in place. */
  lemma StepKnown(s: Scheme, st: State, log: Record)
    requires Admissible(s, log) && Passes(s, log) && KeyOf(s, log) in st.coll
    ensures Step(s, st, log) == State(st.coll[KeyOf(s, log) := Reduce(s.reduce, Some(st.coll[KeyOf(s, log)]), log)], st.order)
  {
    assert Get(st.coll, KeyOf(s, log)) == Some(st.coll[KeyOf(s, log)]);
  }

  /** Parsing a record and then the rest. */
  lemma RunCons(s: Scheme, st: State, a: Record, rest: seq<Record>)
    requires Admissible(s, a) && AllAdmissible(s, rest)
    ensures AllAdmissible(s, [a] + rest)
    ensures Run(s, st, [a] + rest) == Run(s, Step(s, st, a), rest)
  {
    assert AllAdmissible(s, [a] + rest) by {
      forall i | 0 <= i < |[a] + rest|
        ensures Admissible(s, ([a] + rest)[i])
      {
        if i > 0 {
          assert ([a] + rest)[i] == rest[i - 1];
        }
      }
    }
    assert ([a] + rest)[1..] == rest;
  }

  lemma RunThree(s: Scheme, st: State, a: Record, b: Record, c: Record)
    requires Admissible(s, a) && Admissible(s, b) && Admissible(s, c)
    ensures AllAdmissible(s, [a, b, c])
    ensures Run(s, st, [a, b, c]) == Step(s, Step(s, Step(s, st, a), b), c)
  {
    RunOne(s, Step(s, Step(s, st, a), b), c);
    RunCons(s, Step(s, st, a), b, [c]);
    assert [b] + [c] == [b, c];
    RunCons(s, st, a, [b, c]);
    assert [a] + [b, c] == [a, b, c];
  }

  lemma RunFour(s: Scheme, st: State, a: Record, b: Record, c: Record, d: Record)
    requires Admissible(s, a) && Admissible(s, b) && Admissible(s, c) && Admissible(s, d)
    ensures AllAdmissible(s, [a, b, c, d])
    ensures Run(s, st, [a, b, c, d]) == Step(s, Step(s, Step(s, Step(s, st, a), b), c), d)
  {
    RunThree(s, Step(s, st, a), b, c, d);
    RunCons(s, st, a, [b, c, d]);
    assert [a] + [b, c, d] == [a, b, c, d];
  }

  const Plain: seq<Record> := [Log("x", 0.1), Log("x", 1.0), Log("y", 2.0)]

  const Dated: seq<Record> := [
    Stamped("x", 0.1, "2025-06-22T13:57:47+00:00"),
    Stamped("x", 0.9, "2025-06-22T13:57:47+00:00"),
    Stamped("x", 1.0, "2025-06-23T14:57:47+00:00"),
    Stamped("y", 2.0, "2025-06-23T15:57:47+00:00")]

  /** The last step of the plain input: "y" is new and goes after "x". */
  lemma PlainLastStep(s: Scheme, a2: Acc)
    requires s.groupByKey == "url" && s.filter.None?
    ensures Admissible(s, Log("y", 2.0))
    ensures Step(s, State(map["x" := a2], ["x"]), Log("y", 2.0))
         == State(map["x" := a2, "y" := Acc(Str("y"), 1, 2.0)], ["x", "y"])
  {
    LogFields(s, "y", 2.0);
    StepNew(s, State(map["x" := a2], ["x"]), Log("y", 2.0));
  }

  /** The first two records of the plain input both go to group "x". */
  lemma PlainFirstTwo(s: Scheme, a1: Acc, a2: Acc)
    requires s.groupByKey == "url" && s.filter.None?
    requires a1 == Acc(Str("x"), 1, 0.1) && a2 == Reduce(s.reduce, Some(a1), Log("x", 1.0))
    ensures Admissible(s, Log("x", 0.1)) && Admissible(s, Log("x", 1.0))
    ensures Step(s, Step(s, Empty, Log("x", 0.1)), Log("x", 1.0)) == State(map["x" := a2], ["x"])
  {
    LogFields(s, "x", 0.1);
    LogFields(s, "x", 1.0);
    var st1 := State(map["x" := a1], ["x"]);
    assert Step(s, Empty, Log("x", 0.1)) == st1 by {
      StepNew(s, Empty, Log("x", 0.1));
    }
    StepKnown(s, st1, Log("x", 1.0));
  }

  /** The steps of the plain input under a scheme without predicate that groups by url. */
  lemma PlainSteps(s: Scheme, a1: Acc, a2: Acc)
    requires s.groupByKey == "url" && s.filter.None?
    requires a1 == Acc(Str("x"), 1, 0.1) && a2 == Reduce(s.reduce, Some(a1), Log("x", 1.0))
    ensures AllAdmissible(s, Plain)
    ensures Run(s, Empty, Plain) == State(map["x" := a2, "y" := Acc(Str("y"), 1, 2.0)], ["x", "y"])
  {
    PlainFirstTwo(s, a1, a2);
    PlainLastStep(s, a2);
    RunThree(s, Empty, Log("x", 0.1), Log("x", 1.0), Log("y", 2.0));
  }

  /** The default scheme counts and sums per url. */
  lemma DefaultSchemeScenario()
    ensures AllAdmissible(CreateScheme(None, None), Plain)
    ensures Run(CreateScheme(None, None), Empty, Plain)
         == State(map["x" := Acc(Str("x"), 2, 1.1), "y" := Acc(Str("y"), 1, 2.0)], ["x", "y"])
  {
    var s := CreateScheme(None, None);
    LogFields(s, "x", 1.0);
    PlainSteps(s, Acc(Str("x"), 1, 0.1), Acc(Str("x"), 2, 1.1));
  }

  /** The average scheme counts and averages per url. */
  lemma AverageSchemeScenario()
    ensures AllAdmissible(CreateScheme(Some("average"), None), Plain)
    ensures Run(CreateScheme(Some("average"), None), Empty, Plain)
         == State(map["x" := Acc(Str("x"), 2, 0.55), "y" := Acc(Str("y"), 1, 2.0)], ["x", "y"])
  {
    var s := CreateScheme(Some("average"), None);
    LogFields(s, "x", 1.0);
    assert RunningMeanReduce(Some(Acc(Str("x"), 1, 0.1)), Log("x", 1.0)) == Acc(Str("x"), 2, 0.55);
    PlainSteps(s, Acc(Str("x"), 1, 0.1), Acc(Str("x"), 2, 0.55));
  }

  const Narrow := CreateScheme(Some("average"), Some("2025-06-22"))
  const Broad := CreateScheme(None, Some("2025"))

  /** A scheme that groups by url and keeps the records whose timestamp starts with `date`. */
  predicate DatedScheme(s: Scheme, date: string) {
    s.groupByKey == "url" && s.filter == Some(TimestampPrefix(date))
  }

  /** `log` passes, belongs to group `url` and has response time `rt`. */
  predicate Counted(s: Scheme, log: Record, url: string, rt: real) {
    && Admissible(s, log) && Passes(s, log) && KeyOf(s, log) == url
    && HasReduceFields(log) && log["url"] == Str(url) && ResponseTime(log) == rt
  }

  /** `log` is processable and rejected by the predicate. */
  predicate Skipped(s: Scheme, log: Record) {
    Admissible(s, log) && !Passes(s, log)
  }

  /** A stamped record whose timestamp has the scheme's prefix is counted in its url's group. */
  lemma StampedPasses(s: Scheme, date: string, url: string, rt: real, ts: string)
    requires DatedScheme(s, date) && ts != "" && StartsWith(ts, date)
    ensures Counted(s, Stamped(url, rt, ts), url, rt)
  {
    StampedFields(s, url, rt, ts);
  }

  /** Only the two records of 2025-06-22 pass the full-day prefix. */
  lemma NarrowFilter(s: Scheme)
    requires DatedScheme(s, "2025-06-22")
    ensures Counted(s, Dated[0], "x", 0.1) && Counted(s, Dated[1], "x", 0.9)
    ensures Skipped(s, Dated[2]) && Skipped(s, Dated[3])
  {
    assert "2025-06-22T13:57:47+00:00"[..10] == "2025-06-22";
    StampedPasses(s, "2025-06-22", "x", 0.1, "2025-06-22T13:57:47+00:00");
    StampedPasses(s, "2025-06-22", "x", 0.9, "2025-06-22T13:57:47+00:00");
    StampedFields(s, "x", 1.0, "2025-06-23T14:57:47+00:00");
    StampedFields(s, "y", 2.0, "2025-06-23T15:57:47+00:00");
    assert "2025-06-23T14:57:47+00:00"[..10] != "2025-06-22" by {
      assert "2025-06-23T14:57:47+00:00"[9] != "2025-06-22"[9];
    }
    assert "2025-06-23T15:57:47+00:00"[..10] != "2025-06-22" by {
      assert "2025-06-23T15:57:47+00:00"[9] != "2025-06-22"[9];
    }
  }

  /** Every record passes the year prefix. */
  lemma BroadFilter(s: Scheme)
    requires DatedScheme(s, "2025")
    ensures Counted(s, Dated[0], "x", 0.1) && Counted(s, Dated[1], "x", 0.9)
    ensures Counted(s, Dated[2], "x", 1.0) && Counted(s, Dated[3], "y", 2.0)
  {
    assert "2025-06-22T13:57:47+00:00"[..4] == "2025";
    assert "2025-06-23T14:57:47+00:00"[..4] == "2025";
    assert "2025-06-23T15:57:47+00:00"[..4] == "2025";
    StampedPasses(s, "2025", "x", 0.1, "2025-06-22T13:57:47+00:00");
    StampedPasses(s, "2025", "x", 0.9, "2025-06-22T13:57:47+00:00");
    StampedPasses(s, "2025", "x", 1.0, "2025-06-23T14:57:47+00:00");
    StampedPasses(s, "2025", "y", 2.0, "2025-06-23T15:57:47+00:00");
  }

  /** Under the running mean, the two records of group "x" average 0.5. */
  lemma NarrowFirstTwo(s: Scheme, l0: Record, l1: Record)
    requires s.reduce == RunningMean && Counted(s, l0, "x", 0.1) && Counted(s, l1, "x", 0.9)
    ensures Step(s, Step(s, Empty, l0), l1) == State(map["x" := Acc(Str("x"), 2, 0.5)], ["x"])
  {
    StepNew(s, Empty, l0);
    StepKnown(s, State(map["x" := Acc(Str("x"), 1, 0.1)], ["x"]), l1);
  }

  /** Under the running mean, two counted records averaging 0.5 and two skipped ones. */
  lemma NarrowSteps(s: Scheme, l0: Record, l1: Record, l2: Record, l3: Record)
    requires s.reduce == RunningMean
    requires Counted(s, l0, "x", 0.1) && Counted(s, l1, "x", 0.9) && Skipped(s, l2) && Skipped(s, l3)
    ensures AllAdmissible(s, [l0, l1, l2, l3])
    ensures Run(s, Empty, [l0, l1, l2, l3]) == State(map["x" := Acc(Str("x"), 2, 0.5)], ["x"])
  {
    RunFour(s, Empty, l0, l1, l2, l3);
    NarrowFirstTwo(s, l0, l1);
  }

  /** A full-day date prefix keeps only that day's records. */
  lemma NarrowDateScenario()
    ensures AllAdmissible(Narrow, Dated)
    ensures Run(Narrow, Empty, Dated) == State(map["x" := Acc(Str("x"), 2, 0.5)], ["x"])
  {
    NarrowFilter(Narrow);
    NarrowSteps(Narrow, Dated[0], Dated[1], Dated[2], Dated[3]);
    assert Dated == [Dated[0], Dated[1], Dated[2], Dated[3]];
  }

  /** Under sum/count, the first two records of group "x". */
  lemma BroadFirstTwo(s: Scheme, l0: Record, l1: Record)
    requires s.reduce == SumCount && Counted(s, l0, "x", 0.1) && Counted(s, l1, "x", 0.9)
    ensures Step(s, Step(s, Empty, l0), l1) == State(map["x" := Acc(Str("x"), 2, 1.0)], ["x"])
  {
    StepNew(s, Empty, l0);
    StepKnown(s, State(map["x" := Acc(Str("x"), 1, 0.1)], ["x"]), l1);
  }

  /** Under sum/count, a third record for "x". */
  lemma BroadThird(s: Scheme, l2: Record)
    requires s.reduce == SumCount && Counted(s, l2, "x", 1.0)
    ensures Step(s, State(map["x" := Acc(Str("x"), 2, 1.0)], ["x"]), l2)
         == State(map["x" := Acc(Str("x"), 3, 2.0)], ["x"])
  {
    StepKnown(s, State(map["x" := Acc(Str("x"), 2, 1.0)], ["x"]), l2);
  }

  /** A record for the new group "y" starts it after "x". */
  lemma BroadFourth(s: Scheme, l3: Record)
    requires Counted(s, l3, "y", 2.0)
    ensures Step(s, State(map["x" := Acc(Str("x"), 3, 2.0)], ["x"]), l3)
         == State(map["x" := Acc(Str("x"), 3, 2.0), "y" := Acc(Str("y"), 1, 2.0)], ["x", "y"])
  {
    StepNew(s, State(map["x" := Acc(Str("x"), 3, 2.0)], ["x"]), l3);
  }

  /** A year prefix keeps every record of that year. */
  lemma BroadDateScenario()
    ensures AllAdmissible(Broad, Dated)
    ensures Run(Broad, Empty, Dated) == State(map["x" := Acc(Str("x"), 3, 2.0), "y" := Acc(Str("y"), 1, 2.0)], ["x", "y"])
  {
    BroadFilter(Broad);
    BroadFirstTwo(Broad, Dated[0], Dated[1]);
    BroadThird(Broad, Dated[2]);
    BroadFourth(Broad, Dated[3]);
    RunFour(Broad, Empty, Dated[0], Dated[1], Dated[2], Dated[3]);
    assert Dated == [Dated[0], Dated[1], Dated[2], Dated[3]];
  }
}
