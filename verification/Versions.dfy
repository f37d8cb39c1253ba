/** Stable versions and their order. */
module Versions {
  import opened Text

  predicate IsDigit(c: char) { '0' <= c <= '9' }

  /** One version field: decimal digits without a leading zero. */
  predicate IsNumber(s: string) {
    && |s| > 0
    && (forall i :: 0 <= i < |s| ==> IsDigit(s[i]))
    && (s[0] == '0' ==> |s| == 1)
  }

  /** Exactly vMAJOR.MINOR.PATCH. */
  predicate IsStable(s: string) {
    && |s| > 0 && s[0] == 'v'
    && var fields := Split(s[1..], '.');
    && |fields| == 3
    && IsNumber(fields[0]) && IsNumber(fields[1]) && IsNumber(fields[2])
  }

  /** Byte-wise order of strings. */
  predicate LexLess(x: string, y: string) {
    |y| > 0 && (|x| == 0 || x[0] < y[0] || (x[0] == y[0] && LexLess(x[1..], y[1..])))
  }

  /** Order of two fields as the semver package decides it: by length, then byte-wise. */
  function CompareNumbers(x: string, y: string): int {
    if x == y then 0
    else if |x| < |y| then -1
    else if |x| > |y| then 1
    else if LexLess(x, y) then -1
    else 1
  }

  function Compare(v: string, w: string): int
    requires IsStable(v) && IsStable(w)
  {
    var x, y := Split(v[1..], '.'), Split(w[1..], '.');
    if CompareNumbers(x[0], y[0]) != 0 then CompareNumbers(x[0], y[0])
    else if CompareNumbers(x[1], y[1]) != 0 then CompareNumbers(x[1], y[1])
    else CompareNumbers(x[2], y[2])
  }

  /*** What the order means: versions are triples of natural numbers ***/

  datatype Triple = Triple(major: nat, minor: nat, patch: nat)

  predicate Before(t: Triple, u: Triple) {
    || t.major < u.major
    || (t.major == u.major && t.minor < u.minor)
    || (t.major == u.major && t.minor == u.minor && t.patch < u.patch)
  }

  predicate AllDigits(s: string) { forall i :: 0 <= i < |s| ==> IsDigit(s[i]) }

  function Digit(c: char): (d: nat)
    requires IsDigit(c)
    ensures d < 10
  {
    c as int - '0' as int
  }

  function Power10(n: nat): (r: nat)
    ensures r >= 1
  {
    if n == 0 then 1 else 10 * Power10(n - 1)
  }

  /** The number a digit string denotes. */
  function Value(s: string): nat
    requires AllDigits(s)
  {
    if s == "" then 0 else Digit(s[0]) * Power10(|s| - 1) + Value(s[1..])
  }

  lemma Scale(a: nat, b: nat, p: nat)
    requires a <= b
    ensures a * p <= b * p
  {
  }

  lemma {:induction false} ValueBound(s: string)
    requires AllDigits(s)
    ensures Value(s) < Power10(|s|)
  {
    if s != "" {
      ValueBound(s[1..]);
      Scale(Digit(s[0]), 9, Power10(|s| - 1));
    }
  }

  lemma {:induction false} PowerGrows(m: nat, n: nat)
    requires m <= n
    ensures Power10(m) <= Power10(n)
  {
    if m < n {
      PowerGrows(m, n - 1);
    }
  }

  /** Of two digit strings of one length, the byte-wise smaller denotes the smaller number. */
  lemma {:induction false} LexLessIsLess(x: string, y: string)
    requires AllDigits(x) && AllDigits(y) && |x| == |y| && LexLess(x, y)
    ensures Value(x) < Value(y)
  {
    var p := Power10(|x| - 1);
    if x[0] == y[0] {
      LexLessIsLess(x[1..], y[1..]);
    } else {
      ValueBound(x[1..]);
      Scale(Digit(x[0]) + 1, Digit(y[0]), p);
      assert (Digit(x[0]) + 1) * p == Digit(x[0]) * p + p;
    }
  }

  lemma {:induction false} LexTotal(x: string, y: string)
    ensures x == y || LexLess(x, y) || LexLess(y, x)
  {
    if x != "" && y != "" && x[0] == y[0] {
      LexTotal(x[1..], y[1..]);
      assert x == [x[0]] + x[1..] && y == [y[0]] + y[1..];
    }
  }

  /** A longer number without a leading zero is larger. */
  lemma ShorterIsLess(x: string, y: string)
    requires IsNumber(x) && IsNumber(y) && |x| < |y|
    ensures Value(x) < Value(y)
  {
    ValueBound(x);
    PowerGrows(|x|, |y| - 1);
    Scale(1, Digit(y[0]), Power10(|y| - 1));
  }

  /** Comparing by length and then byte by byte is comparing numbers. */
  lemma NumbersCompare(x: string, y: string)
    requires IsNumber(x) && IsNumber(y)
    ensures CompareNumbers(x, y) < 0 <==> Value(x) < Value(y)
    ensures CompareNumbers(x, y) > 0 <==> Value(x) > Value(y)
    ensures Value(x) == Value(y) <==> x == y
  {
    if |x| < |y| {
      ShorterIsLess(x, y);
    } else if |y| < |x| {
      ShorterIsLess(y, x);
    } else if LexLess(x, y) {
      LexLessIsLess(x, y);
    } else if x != y {
      LexTotal(x, y);
      LexLessIsLess(y, x);
    }
  }

  function Fields(s: string): (t: Triple)
    requires IsStable(s)
  {
    var f := Split(s[1..], '.');
    Triple(Value(f[0]), Value(f[1]), Value(f[2]))
  }

  /** The order of the install gate is the numeric precedence of section 11 of Semantic Versioning 2.0.0. */
  lemma CompareIsPrecedence(v: string, w: string)
    requires IsStable(v) && IsStable(w)
    ensures Compare(v, w) < 0 <==> Before(Fields(v), Fields(w))
    ensures Compare(v, w) > 0 <==> Before(Fields(w), Fields(v))
    ensures Compare(v, w) == 0 <==> v == w
    ensures Fields(v) == Fields(w) <==> v == w
  {
    var x, y := Split(v[1..], '.'), Split(w[1..], '.');
    NumbersCompare(x[0], y[0]);
    NumbersCompare(x[1], y[1]);
    NumbersCompare(x[2], y[2]);
    JoinSplit(v[1..], '.');
    JoinSplit(w[1..], '.');
    assert v == ['v'] + v[1..] && w == ['v'] + w[1..];
    if x[0] == y[0] && x[1] == y[1] && x[2] == y[2] {
      assert x == y;
    }
  }

  /** The gate's order is transitive. */
  lemma CompareTransitive(u: string, v: string, w: string)
    requires IsStable(u) && IsStable(v) && IsStable(w)
    requires Compare(u, v) < 0 && Compare(v, w) < 0
    ensures Compare(u, w) < 0
  {
    CompareIsPrecedence(u, v);
    CompareIsPrecedence(v, w);
    CompareIsPrecedence(u, w);
  }

  /*** Stable versions and triples are the same thing ***/

  function Decimal(n: nat): (s: string) {
    if n < 10 then [('0' as int + n) as char] else Decimal(n / 10) + [('0' as int + n % 10) as char]
  }

  lemma {:induction false} ValueOfAppended(s: string, c: char)
    requires AllDigits(s) && IsDigit(c)
    ensures Value(s + [c]) == Value(s) * 10 + Digit(c)
  {
    var t := s + [c];
    if s == "" {
      assert t[1..] == "";
    } else {
      assert t[1..] == s[1..] + [c];
      ValueOfAppended(s[1..], c);
      var d, p := Digit(s[0]), Power10(|s| - 1);
      assert Power10(|s|) == 10 * p;
      assert d * (10 * p) == (d * p) * 10;
    }
  }

  lemma {:induction false} DecimalIsNumber(n: nat)
    ensures IsNumber(Decimal(n)) && Value(Decimal(n)) == n
    ensures Decimal(n)[0] == '0' <==> n == 0
  {
    if n < 10 {
      assert Decimal(n)[1..] == "";
    } else {
      DecimalIsNumber(n / 10);
      ValueOfAppended(Decimal(n / 10), ('0' as int + n % 10) as char);
    }
  }

  function Render(t: Triple): string {
    "v" + Join([Decimal(t.major), Decimal(t.minor), Decimal(t.patch)], '.')
  }

  lemma NumbersHaveNoDots(s: string)
    requires IsNumber(s)
    ensures '.' !in s
  {
  }

  /** Every triple is the fields of exactly one stable version. */
  lemma StableVersionsAreTriples(t: Triple, v: string)
    ensures IsStable(Render(t)) && Fields(Render(t)) == t
    ensures IsStable(v) ==> Render(Fields(v)) == v
  {
    var parts := [Decimal(t.major), Decimal(t.minor), Decimal(t.patch)];
    DecimalIsNumber(t.major);
    DecimalIsNumber(t.minor);
    DecimalIsNumber(t.patch);
    NumbersHaveNoDots(parts[0]);
    NumbersHaveNoDots(parts[1]);
    NumbersHaveNoDots(parts[2]);
    SplitJoin(parts, '.');
    assert Render(t)[1..] == Join(parts, '.');
    if IsStable(v) {
      RenderOfFields(v);
    }
  }

  lemma RenderOfFields(v: string)
    requires IsStable(v)
    ensures Render(Fields(v)) == v
  {
    var f := Split(v[1..], '.');
    JoinSplit(v[1..], '.');
    DecimalOfValue(f[0]);
    DecimalOfValue(f[1]);
    DecimalOfValue(f[2]);
    assert f == [f[0], f[1], f[2]];
    assert v == ['v'] + v[1..];
  }

  lemma DecimalOfValue(s: string)
    requires IsNumber(s)
    ensures Decimal(Value(s)) == s
  {
    DecimalIsNumber(Value(s));
    NumbersCompare(Decimal(Value(s)), s);
  }
}
