/**
  Report schemes: which field groups the records, which records are kept, how
  a group's accumulator is reduced, how the final rows are ordered and what the
  columns are called. The two built-in schemes are "sum/count" (the default)
  and "average".
*/
module Schemes {
  import opened Wrappers
  import opened Records

  /** A group's accumulator, the source's three-element list [url, count, aggregate]. */
  datatype Acc = Acc(url: Value, count: nat, agg: real)

  /** The built-in reduce functions. */
  datatype Reducer = SumCount | RunningMean

  /** The only predicate the source builds: a prefix test on the `@timestamp` field. */
  datatype Predicate = TimestampPrefix(date: string)

  /** The only ordering the source builds: by count, descending, stable. */
  datatype Sorting = ByCountDescending

  datatype Scheme = Scheme(
    groupByKey: string,
    filter: Option<Predicate>,
    reduce: Reducer,
    sorting: Option<Sorting>,
    headers: seq<string>)

  /**
    The timestamp predicate: the field is present and truthy (a non-empty
    string) and starts with the date as a plain string prefix.
  */
  predicate Accepts(p: Predicate, log: Record): (b: bool)
    ensures b ==> "@timestamp" in log && log["@timestamp"].Str?
    ensures p.date != "" ==>
      (b <==> "@timestamp" in log && log["@timestamp"].Str? && StartsWith(log["@timestamp"].s, p.date))
  {
    && "@timestamp" in log
    && log["@timestamp"].Str?
    && log["@timestamp"].s != ""
    && StartsWith(log["@timestamp"].s, p.date)
  }

  /**
    The predicate does not raise: a truthy `@timestamp` that is not a string
    has no `startswith` method.
  */
  predicate PredicateDefined(p: Predicate, log: Record) {
    "@timestamp" !in log || log["@timestamp"].Str? || !Truthy(log["@timestamp"])
  }

  /** A record is kept when no predicate is configured or the predicate accepts it. */
  predicate Passes(s: Scheme, log: Record) {
    s.filter.None? || Accepts(s.filter.value, log)
  }

  /** The fields both built-in reduce functions read are present and usable. */
  predicate HasReduceFields(log: Record) {
    "url" in log && "response_time" in log && Numeric(log["response_time"])
  }

  /**
    Processing the record raises no lookup or type error: the predicate is
    defined on it, and a record that passes has a printable group field and the
    fields the reduce function reads.
  */
  predicate Admissible(s: Scheme, log: Record) {
    && (s.filter.Some? ==> PredicateDefined(s.filter.value, log))
    && (Passes(s, log) ==>
          s.groupByKey in log && Stringable(log[s.groupByKey]) && HasReduceFields(log))
  }

  /**
    The group key `str(log[group_by_key])`: a string field is its own key, an
    integer field is keyed by its decimal spelling.
  */
  function KeyOf(s: Scheme, log: Record): (k: string)
    requires s.groupByKey in log && Stringable(log[s.groupByKey])
    ensures log[s.groupByKey].Str? ==> k == log[s.groupByKey].s
    ensures log[s.groupByKey].Int? ==> Spells(k, log[s.groupByKey].i)
  {
    ToString(log[s.groupByKey])
  }

  function ResponseTime(log: Record): real
    requires HasReduceFields(log)
  {
    AsReal(log["response_time"])
  }

  /** The default reduce: count the records and sum their response times. */
  function SumCountReduce(akk: Option<Acc>, log: Record): (r: Acc)
    requires HasReduceFields(log)
    ensures akk.None? ==> r.url == log["url"] && r.count == 1 && r.agg == ResponseTime(log)
    ensures akk.Some? ==> r.url == akk.value.url && r.count == akk.value.count + 1
    ensures akk.Some? ==> r.agg - akk.value.agg == ResponseTime(log)
  {
    match akk
    case None => Acc(log["url"], 1, ResponseTime(log))
    case Some(prev) => Acc(prev.url, prev.count + 1, prev.agg + ResponseTime(log))
  }

  /**
    The average reduce: count the records and keep the running mean
    `avg * n/(n+1) + v/(n+1)`, where n is the count before this record.
  */
  function RunningMeanReduce(akk: Option<Acc>, log: Record): (r: Acc)
    requires HasReduceFields(log)
    ensures akk.None? ==> r.url == log["url"] && r.count == 1 && r.agg == ResponseTime(log)
    ensures akk.Some? ==> r.url == akk.value.url && r.count == akk.value.count + 1
    ensures akk.Some? ==> Weighted(r) == Weighted(akk.value) + ResponseTime(log)
  {
    match akk
    case None => Acc(log["url"], 1, ResponseTime(log))
    case Some(prev) =>
      var n := prev.count as real;
      MeanStep(prev.agg, n, ResponseTime(log));
      Acc(prev.url, prev.count + 1, prev.agg * (n / (n + 1.0)) + ResponseTime(log) / (n + 1.0))
  }

  /** Scaling the updated mean back by n+1 gives the old total plus the new value. */
  lemma MeanStep(avg: real, n: real, v: real)
    requires n >= 0.0
    ensures (avg * (n / (n + 1.0)) + v / (n + 1.0)) * (n + 1.0) == avg * n + v
  {
    var d := n + 1.0;
    calc {
      (avg * (n / d) + v / d) * d;
      avg * (n / d) * d + (v / d) * d;
      { assert (n / d) * d == n; assert (v / d) * d == v; }
      avg * n + v;
    }
  }

  /**
    The scheme's reduce call. Either reducer keeps the group's first url and
    counts the records folded into it.
  */
  function Reduce(r: Reducer, akk: Option<Acc>, log: Record): (a: Acc)
    requires HasReduceFields(log)
    ensures a.url == (if akk.Some? then akk.value.url else log["url"])
    ensures a.count == (if akk.Some? then akk.value.count else 0) + 1
  {
    match r
    case SumCount => SumCountReduce(akk, log)
    case RunningMean => RunningMeanReduce(akk, log)
  }

  /**
    The accumulator a group holds after reducing the records `rs` in order,
    starting from `akk` (None: the group has not been seen yet).
  */
  function ReduceAll(r: Reducer, akk: Option<Acc>, rs: seq<Record>): (res: Option<Acc>)
    requires forall i {:trigger rs[i]} :: 0 <= i < |rs| ==> HasReduceFields(rs[i])
    ensures rs == [] ==> res == akk
    ensures rs != [] ==> res.Some? && res.value.count == |rs| + (if akk.Some? then akk.value.count else 0)
    ensures rs != [] && akk.Some? ==> res.value.url == akk.value.url
    ensures rs != [] && akk.None? ==> HasReduceFields(rs[0]) && res.value.url == rs[0]["url"]
    decreases rs
  {
    if rs == [] then akk else ReduceAll(r, Some(Reduce(r, akk, rs[0])), rs[1..])
  }

  /** What an average accumulator stands for: mean times count, the total of its response times. */
  function Weighted(a: Acc): real {
    a.agg * a.count as real
  }

  /** The sum of the response times of `rs`. */
  function SumResponseTimes(rs: seq<Record>): real
    requires forall i {:trigger rs[i]} :: 0 <= i < |rs| ==> HasReduceFields(rs[i])
  {
    if rs == [] then 0.0 else ResponseTime(rs[0]) + SumResponseTimes(rs[1..])
  }

  /** The arithmetic mean of the response times of the non-empty `rs`. */
  function MeanResponseTime(rs: seq<Record>): real
    requires |rs| > 0 && forall i {:trigger rs[i]} :: 0 <= i < |rs| ==> HasReduceFields(rs[i])
  {
    SumResponseTimes(rs) / |rs| as real
  }

  /** Continuing a sum/count group adds the count and the response times of the new records. */
  lemma {:induction false} SumCountFromSome(a: Acc, rs: seq<Record>)
    requires forall i {:trigger rs[i]} :: 0 <= i < |rs| ==> HasReduceFields(rs[i])
    ensures ReduceAll(SumCount, Some(a), rs) == Some(Acc(a.url, a.count + |rs|, a.agg + SumResponseTimes(rs)))
    decreases rs
  {
    if rs != [] {
      SumCountFromSome(Reduce(SumCount, Some(a), rs[0]), rs[1..]);
    }
  }

  /**
    A sum/count group built from the records `rs` holds the first record's url,
    the number of records and the exact sum of their response times.
  */
  lemma {:induction false} SumCountFold(rs: seq<Record>)
    requires |rs| > 0 && forall i {:trigger rs[i]} :: 0 <= i < |rs| ==> HasReduceFields(rs[i])
    ensures ReduceAll(SumCount, None, rs) == Some(Acc(rs[0]["url"], |rs|, SumResponseTimes(rs)))
  {
    SumCountFromSome(Reduce(SumCount, None, rs[0]), rs[1..]);
  }

  /**
    Continuing an average group: the new mean times the new count is the old
    mean times the old count plus the new response times.
  */
  lemma {:induction false} RunningMeanFromSome(a: Acc, rs: seq<Record>)
    requires forall i {:trigger rs[i]} :: 0 <= i < |rs| ==> HasReduceFields(rs[i])
    ensures var res := ReduceAll(RunningMean, Some(a), rs);
      && res.Some? && res.value.url == a.url && res.value.count == a.count + |rs|
      && Weighted(res.value) == Weighted(a) + SumResponseTimes(rs)
    decreases rs
  {
    if rs != [] {
      var a' := RunningMeanReduce(Some(a), rs[0]);
      assert a' == Reduce(RunningMean, Some(a), rs[0]);
      RunningMeanFromSome(a', rs[1..]);
      var res := ReduceAll(RunningMean, Some(a'), rs[1..]);
      assert ReduceAll(RunningMean, Some(a), rs) == res;
      assert Weighted(a') == Weighted(a) + ResponseTime(rs[0]);
    }
  }

  /**
    The incremental mean agrees exactly with the arithmetic mean: an average
    group built from `rs` holds the first url, the number of records and
    sum / count of their response times.
  */
  lemma {:induction false} RunningMeanFold(rs: seq<Record>)
    requires |rs| > 0 && forall i {:trigger rs[i]} :: 0 <= i < |rs| ==> HasReduceFields(rs[i])
    ensures ReduceAll(RunningMean, None, rs) == Some(Acc(rs[0]["url"], |rs|, MeanResponseTime(rs)))
  {
    var a := Acc(rs[0]["url"], 1, ResponseTime(rs[0]));
    assert Reduce(RunningMean, None, rs[0]) == a;
    RunningMeanFromSome(a, rs[1..]);
    var res := ReduceAll(RunningMean, Some(a), rs[1..]).value;
    assert Weighted(a) == ResponseTime(rs[0]);
    assert SumResponseTimes(rs) == ResponseTime(rs[0]) + SumResponseTimes(rs[1..]);
    DivideBack(res.agg, |rs| as real, SumResponseTimes(rs));
  }

  lemma DivideBack(x: real, n: real, total: real)
    requires n > 0.0 && x * n == total
    ensures x == total / n
  {
  }

  /** `create_def_scheme`: group by url, sum/count reduce, sorted by count. */
  function DefaultScheme(): (s: Scheme)
    ensures s.groupByKey == "url" && s.reduce == SumCount && s.sorting == Some(ByCountDescending)
    ensures forall log: Record :: Passes(s, log)
    ensures forall log: Record :: Admissible(s, log) <==> "url" in log && Stringable(log["url"]) && HasReduceFields(log)
  {
    Scheme("url", None, SumCount, Some(ByCountDescending), ["url", "total", "total_response_time"])
  }

  /** `create_avg_scheme`: group by url, running-mean reduce, sorted by count. */
  function AverageScheme(): (s: Scheme)
    ensures s.groupByKey == "url" && s.reduce == RunningMean && s.sorting == Some(ByCountDescending)
    ensures forall log: Record :: Passes(s, log)
    ensures forall log: Record :: Admissible(s, log) <==> "url" in log && Stringable(log["url"]) && HasReduceFields(log)
  {
    Scheme("url", None, RunningMean, Some(ByCountDescending), ["url", "total", "avg_response_time"])
  }

  /**
    `create_scheme`: "average" selects the average scheme and every other
    report kind, absent included, the default one; a non-empty date adds the
    timestamp prefix predicate.
  */
  function CreateScheme(report: Option<string>, date: Option<string>): (s: Scheme)
    ensures s.groupByKey == "url" && s.sorting == Some(ByCountDescending)
    ensures s.reduce == (if report == Some("average") then RunningMean else SumCount)
    ensures s.headers == ["url", "total", if report == Some("average") then "avg_response_time" else "total_response_time"]
    ensures s.filter.None? <==> date.None? || date == Some("")
    ensures date.None? || date == Some("") ==> forall log: Record :: Passes(s, log)
    ensures date.Some? && date.value != "" ==>
      forall log: Record :: Passes(s, log) <==>
        "@timestamp" in log && log["@timestamp"].Str? && StartsWith(log["@timestamp"].s, date.value)
  {
    var res := if report == Some("average") then AverageScheme() else DefaultScheme();
    if date.Some? && date.value != "" then res.(filter := Some(TimestampPrefix(date.value))) else res
  }
}
