/**
  Log records: one JSON object per line of a log file, already parsed into a
  mapping from field names to scalar values.
*/
module Records {

  /** The scalar JSON values a log field holds in this model. */
  datatype Value = Str(s: string) | Int(i: int) | Float(f: real)

  /** One parsed log line. */
  type Record = map<string, Value>

  /** Python's truthiness of a scalar: the empty string and zero are false. */
  predicate Truthy(v: Value) {
    match v
    case Str(s) => s != ""
    case Int(i) => i != 0
    case Float(f) => f != 0.0
  }

  /** Values Python's `+`, `*` and `/` accept as numbers. */
  predicate Numeric(v: Value) {
    v.Int? || v.Float?
  }

  function AsReal(v: Value): real
    requires Numeric(v)
  {
    if v.Int? then v.i as real else v.f
  }

  /** Values whose `str()` this model renders: strings and integers. */
  predicate Stringable(v: Value) {
    !v.Float?
  }

  /** The decimal digit character for `d`. */
  function DigitChar(d: nat): (c: char)
    requires d < 10
    ensures '0' <= c <= '9' && c as int - '0' as int == d
  {
    ('0' as int + d) as char
  }

  predicate AllDigits(ds: string) {
    forall i :: 0 <= i < |ds| ==> '0' <= ds[i] <= '9'
  }

  /** The number a string of decimal digits denotes, as Python's `int()` reads it. */
  function DecimalValue(ds: string): nat
    requires AllDigits(ds)
  {
    if ds == [] then 0
    else DecimalValue(ds[..|ds| - 1]) * 10 + (ds[|ds| - 1] as int - '0' as int)
  }

  /** The decimal digits of `n`, most significant first, read back as `n`. */
  function NatToString(n: nat): (r: string)
    ensures |r| > 0 && AllDigits(r) && DecimalValue(r) == n
    ensures |r| == 1 || r[0] != '0'
  {
    if n < 10 then [DigitChar(n)]
    else
      var init := NatToString(n / 10);
      var r := init + [DigitChar(n % 10)];
      assert r[..|r| - 1] == init;
      r
  }

  /**
    `r` is the canonical decimal spelling of `i`: an optional minus sign, then
    digits without a leading zero (only 0 itself is "0") that read back as |i|.
  */
  predicate Spells(r: string, i: int) {
    if i >= 0 then |r| > 0 && AllDigits(r) && DecimalValue(r) == i && (|r| == 1 || r[0] != '0')
    else |r| > 1 && r[0] == '-' && AllDigits(r[1..]) && DecimalValue(r[1..]) == -i && r[1] != '0'
  }

  /** Python's `str()` of a string or an integer. */
  function ToString(v: Value): (r: string)
    requires Stringable(v)
    ensures v.Str? ==> r == v.s
    ensures v.Int? ==> Spells(r, v.i)
  {
    if v.Str? then v.s
    else if v.i < 0 then
      var digits := NatToString(-v.i);
      assert ("-" + digits)[1..] == digits;
      assert digits[0] != '0' by {
        if |digits| == 1 {
          assert digits[..0] == [];
        }
      }
      "-" + digits
    else NatToString(v.i)
  }

  /** Distinct integers have distinct spellings, so `str()` never merges two integer keys. */
  lemma SpellsUnique(r: string, a: int, b: int)
    requires Spells(r, a) && Spells(r, b)
    ensures a == b
  {
  }

  /** A digit string without a leading zero and other than "0" denotes a positive number. */
  lemma {:induction false} PositiveValue(x: string)
    requires |x| > 0 && AllDigits(x) && x[0] != '0'
    ensures DecimalValue(x) > 0
    decreases |x|
  {
    if |x| > 1 {
      var init := x[..|x| - 1];
      assert init[0] == x[0];
      PositiveValue(init);
    }
  }

  /** Two canonical digit strings with the same value are the same string. */
  lemma {:induction false} DigitsUnique(a: string, b: string)
    requires |a| > 0 && AllDigits(a) && (|a| == 1 || a[0] != '0')
    requires |b| > 0 && AllDigits(b) && (|b| == 1 || b[0] != '0')
    requires DecimalValue(a) == DecimalValue(b)
    ensures a == b
    decreases |a|
  {
    var ia, ib := a[..|a| - 1], b[..|b| - 1];
    var la, lb := a[|a| - 1] as int - '0' as int, b[|b| - 1] as int - '0' as int;
    assert DecimalValue(a) == DecimalValue(ia) * 10 + la;
    assert DecimalValue(b) == DecimalValue(ib) * 10 + lb;
    assert la == lb && DecimalValue(ia) == DecimalValue(ib);
    if |ia| == 0 && |ib| > 0 {
      assert ib[0] == b[0];
      PositiveValue(ib);
    } else if |ia| > 0 && |ib| == 0 {
      assert ia[0] == a[0];
      PositiveValue(ia);
    } else if |ia| > 0 {
      assert ia[0] == a[0] && ib[0] == b[0];
      DigitsUnique(ia, ib);
      assert a == ia + [a[|a| - 1]] && b == ib + [b[|b| - 1]];
    } else {
      assert a == [a[0]] && b == [b[0]];
    }
  }

  /** An integer has only one canonical spelling, so `str()` of an integer is fixed by `Spells`. */
  lemma SpellingUnique(r1: string, r2: string, i: int)
    requires Spells(r1, i) && Spells(r2, i)
    ensures r1 == r2
  {
    if i >= 0 {
      DigitsUnique(r1, r2);
    } else {
      DigitsUnique(r1[1..], r2[1..]);
      assert r1 == [r1[0]] + r1[1..] && r2 == [r2[0]] + r2[1..];
    }
  }

  /** A zero-padded string is not the key of the integer it pads: "07" and 7 are two groups. */
  lemma PaddedNotSameKey()
    ensures ToString(Str("07")) != ToString(Int(7))
  {
    assert !Spells("07", 7);
  }

  /** A string key and an integer key with the same spelling are one key: "7" and 7 share a group. */
  lemma StrIntSameKey()
    ensures ToString(Str("7")) == ToString(Int(7))
  {
    assert NatToString(7) == ['7'];
  }

  /** Python's `str.startswith`: a plain prefix test. */
  predicate StartsWith(s: string, prefix: string) {
    |prefix| <= |s| && s[..|prefix|] == prefix
  }

  /** Python's `str.endswith`: a plain suffix test. */
  predicate EndsWith(s: string, suffix: string) {
    |suffix| <= |s| && s[|s| - |suffix|..] == suffix
  }
}
