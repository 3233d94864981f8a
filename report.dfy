/**
  Report ordering: both built-in schemes sort the groups by count, descending,
  and Python's `sorted` is stable, so groups with equal counts keep their
  first-seen order.
*/
module Report {
  import opened Wrappers
  import opened Schemes

  /** Counts never increase along `s`. */
  predicate Descending(s: seq<Acc>) {
    forall i, j :: 0 <= i < j < |s| ==> s[i].count >= s[j].count
  }

  /** The entries of `s` with count `c`, in their order in `s`. */
  function WithCount(s: seq<Acc>, c: nat): seq<Acc> {
    if s == [] then [] else (if s[0].count == c then [s[0]] else []) + WithCount(s[1..], c)
  }

  /** Inserts `x` before the first entry whose count is not larger. */
  function Insert(x: Acc, t: seq<Acc>): (r: seq<Acc>)
    requires Descending(t)
    ensures Descending(r)
    ensures multiset(r) == multiset(t) + multiset{x}
    ensures r[0] == x || (t != [] && r[0] == t[0])
  {
    if t == [] || t[0].count <= x.count then
      assert ([x] + t)[1..] == t;
      [x] + t
    else
      var ins := Insert(x, t[1..]);
      assert t == [t[0]] + t[1..];
      assert t[0].count >= ins[0].count;
      PrependDescending(t[0], ins);
      assert multiset([t[0]] + ins) == multiset{t[0]} + multiset(ins);
      assert multiset(t) == multiset{t[0]} + multiset(t[1..]);
      [t[0]] + ins
  }

  lemma PrependDescending(y: Acc, s: seq<Acc>)
    requires Descending(s) && s != [] && y.count >= s[0].count
    ensures Descending([y] + s)
  {
    assert forall j :: 0 <= j < |s| ==> s[0].count >= s[j].count;
  }

  /** Inserting `x` puts it in front of the entries of its own count and leaves the others. */
  lemma {:induction false} InsertWithCount(x: Acc, t: seq<Acc>, c: nat)
    requires Descending(t)
    ensures WithCount(Insert(x, t), c) == (if x.count == c then [x] else []) + WithCount(t, c)
    decreases t
  {
    if t == [] || t[0].count <= x.count {
      WithCountCons(x, t, c);
    } else {
      var ins := Insert(x, t[1..]);
      assert Insert(x, t) == [t[0]] + ins;
      WithCountCons(t[0], ins, c);
      InsertWithCount(x, t[1..], c);
      assert t == [t[0]] + t[1..];
      WithCountCons(t[0], t[1..], c);
      var px, pt := if x.count == c then [x] else [], if t[0].count == c then [t[0]] else [];
      assert px == [] || pt == [];
      assert WithCount(Insert(x, t), c) == pt + (px + WithCount(t[1..], c));
      SwapEmpty(px, pt, WithCount(t[1..], c));
    }
  }

  /** Of two prefixes at least one of which is empty, the order does not matter. */
  lemma SwapEmpty(px: seq<Acc>, pt: seq<Acc>, w: seq<Acc>)
    requires px == [] || pt == []
    ensures pt + (px + w) == px + (pt + w)
  {
    if px == [] {
      assert px + w == w && px + (pt + w) == pt + w;
    } else {
      assert pt + w == w && pt + (px + w) == px + w;
    }
  }

  lemma WithCountCons(x: Acc, s: seq<Acc>, c: nat)
    ensures WithCount([x] + s, c) == (if x.count == c then [x] else []) + WithCount(s, c)
  {
    assert ([x] + s)[0] == x && ([x] + s)[1..] == s;
  }

  /**
    `sorted(values, key=lambda t: t[1], reverse=True)`: a permutation of the
    input with non-increasing counts, in which the entries of each count appear
    in the same order as in the input.
  */
  function SortByCount(values: seq<Acc>): (r: seq<Acc>)
    ensures Descending(r)
    ensures multiset(r) == multiset(values)
    ensures forall c :: WithCount(r, c) == WithCount(values, c)
  {
    if values == [] then []
    else
      assert values == [values[0]] + values[1..];
      var rest := SortByCount(values[1..]);
      forall c ensures WithCount(Insert(values[0], rest), c) == WithCount(values, c) {
        InsertWithCount(values[0], rest, c);
      }
      Insert(values[0], rest)
  }

  lemma {:induction false} WithCountElems(s: seq<Acc>, c: nat, x: Acc)
    ensures x in WithCount(s, c) <==> x in s && x.count == c
    decreases s
  {
    if s != [] {
      WithCountElems(s[1..], c, x);
      assert s == [s[0]] + s[1..];
    }
  }

  /**
    Two count-descending sequences with the same entries of every count, in
    the same order, are equal.
  */
  lemma {:induction false} DescendingStableUnique(a: seq<Acc>, b: seq<Acc>)
    requires Descending(a) && Descending(b)
    requires forall c :: WithCount(a, c) == WithCount(b, c)
    ensures a == b
    decreases |a| + |b|
  {
    if a == [] || b == [] {
      var nonEmpty := if a == [] then b else a;
      if nonEmpty != [] {
        var c := nonEmpty[0].count;
        WithCountElems(nonEmpty, c, nonEmpty[0]);
        assert false;
      }
    } else {
      var ca, cb := a[0].count, b[0].count;
      if ca > cb {
        WithCountElems(a, ca, a[0]);
        var y := WithCount(b, ca)[0];
        WithCountElems(b, ca, y);
        assert false;
      } else if cb > ca {
        WithCountElems(b, cb, b[0]);
        var y := WithCount(a, cb)[0];
        WithCountElems(a, cb, y);
        assert false;
      } else {
        assert WithCount(a, ca) == WithCount(b, ca);
        forall c ensures WithCount(a[1..], c) == WithCount(b[1..], c) {
          var wa, wb := WithCount(a, c), WithCount(b, c);
          assert wa == wb;
          if c == ca {
            assert wa == [a[0]] + WithCount(a[1..], c) && wa[1..] == WithCount(a[1..], c);
            assert wb == [b[0]] + WithCount(b[1..], c) && wb[1..] == WithCount(b[1..], c);
          } else {
            assert wa == WithCount(a[1..], c) && wb == WithCount(b[1..], c);
          }
        }
        assert a[0] == WithCount(a, ca)[0] == WithCount(b, ca)[0] == b[0];
        DescendingStableUnique(a[1..], b[1..]);
        assert a == [a[0]] + a[1..] && b == [b[0]] + b[1..];
      }
    }
  }

  /**
    The sorted order is determined by its three properties: any count-descending
    sequence that keeps each count's entries in input order, as Python's stable
    `sorted` does, is the result of SortByCount.
  */
  lemma SortByCountUnique(values: seq<Acc>, r: seq<Acc>)
    requires Descending(r) && forall c :: WithCount(r, c) == WithCount(values, c)
    ensures r == SortByCount(values)
  {
    DescendingStableUnique(r, SortByCount(values));
  }

  /** The rows to print: sorted by the scheme's ordering, or as given when it has none. */
  function Rows(sorting: Option<Sorting>, values: seq<Acc>): (r: seq<Acc>)
    ensures multiset(r) == multiset(values)
    ensures sorting.None? ==> r == values
    ensures sorting.Some? ==> Descending(r) && forall c :: WithCount(r, c) == WithCount(values, c)
  {
    match sorting
    case None => values
    case Some(ByCountDescending) => SortByCount(values)
  }
}
