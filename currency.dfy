/**
 * The money helpers every sum in the app goes through (`Currency.add`, `subtract`,
 * `multiply`, `divide`, `fromString`), modelled over exact rationals: each helper
 * computes exactly and then rounds to two decimals the way `toFixed(2)` does.
 * Also `toFixed(2)`, which the store uses to write amounts, and `parseFloat`,
 * which reads them back.
 */
module Currency {
  import opened Wrappers
  import Text

  // ---------------------------------------------------------------------------
  // Rounding to cents
  // ---------------------------------------------------------------------------

  /** The whole number of cents `toFixed(2)` keeps: the nearest one, half a cent rounding away from zero. */
  function RoundCents(x: real): int {
    if x >= 0.0 then (x * 100.0 + 0.5).Floor else -((-x) * 100.0 + 0.5).Floor
  }

  /** `Number(x.toFixed(2))` in exact arithmetic. */
  function Round2(x: real): real {
    RoundCents(x) as real / 100.0
  }

  /** `x` is a whole number of cents. */
  predicate TwoDecimals(x: real) {
    (x * 100.0).Floor as real == x * 100.0
  }

  /** Rounding lands on a whole number of cents at most half a cent from `x`. */
  lemma Round2Nearest(x: real)
    ensures TwoDecimals(Round2(x))
    ensures -0.005 <= Round2(x) - x <= 0.005
  {
    var c := RoundCents(x);
    assert Round2(x) * 100.0 == c as real;
  }

  /** Rounding a whole number of cents leaves it unchanged. */
  lemma Round2Exact(x: real)
    requires TwoDecimals(x)
    ensures Round2(x) == x
  {
    var n := (x * 100.0).Floor;
    if x < 0.0 {
      assert (-x) * 100.0 + 0.5 == (-n) as real + 0.5;
      assert ((-x) * 100.0 + 0.5).Floor == -n;
    } else {
      assert (x * 100.0 + 0.5).Floor == n;
    }
  }

  /** Rounding twice is rounding once. */
  lemma Round2Idempotent(x: real)
    ensures Round2(Round2(x)) == Round2(x)
  {
    Round2Nearest(x);
    Round2Exact(Round2(x));
  }

  /** Whole numbers of cents are closed under addition, subtraction and negation. */
  lemma TwoDecimalsArithmetic(a: real, b: real)
    requires TwoDecimals(a) && TwoDecimals(b)
    ensures TwoDecimals(a + b) && TwoDecimals(a - b) && TwoDecimals(-a)
  {
    var na, nb := (a * 100.0).Floor, (b * 100.0).Floor;
    assert a * 100.0 == na as real && b * 100.0 == nb as real;
    assert (a + b) * 100.0 == a * 100.0 + b * 100.0;
    assert (a - b) * 100.0 == a * 100.0 - b * 100.0;
    assert (-a) * 100.0 == -(a * 100.0);
    assert ((na + nb) as real).Floor == na + nb;
    assert ((na - nb) as real).Floor == na - nb;
    assert ((-na) as real).Floor == -na;
  }

  lemma TwoDecimalsOfInt(n: int)
    ensures TwoDecimals(n as real)
  {
    assert (n as real) * 100.0 == (100 * n) as real;
  }

  // ---------------------------------------------------------------------------
  // The four helpers
  // ---------------------------------------------------------------------------

  /** `Currency.add`. */
  function Add(a: real, b: real): (r: real)
    ensures TwoDecimals(r)
    ensures -0.005 <= r - (a + b) <= 0.005
  {
    Round2Nearest(a + b);
    Round2(a + b)
  }

  /** `Currency.subtract`. */
  function Subtract(a: real, b: real): (r: real)
    ensures TwoDecimals(r)
    ensures -0.005 <= r - (a - b) <= 0.005
  {
    Round2Nearest(a - b);
    Round2(a - b)
  }

  /** `Currency.multiply`. */
  function Multiply(a: real, b: real): (r: real)
    ensures TwoDecimals(r)
    ensures -0.005 <= r - a * b <= 0.005
  {
    Round2Nearest(a * b);
    Round2(a * b)
  }

  /** `Currency.divide`; JavaScript would give an infinity or NaN for a zero divisor, which no caller passes. */
  function Divide(a: real, b: real): (r: real)
    requires b != 0.0
    ensures TwoDecimals(r)
    ensures -0.005 <= r - a / b <= 0.005
  {
    Round2Nearest(a / b);
    Round2(a / b)
  }

  /** On whole numbers of cents, adding and subtracting are exact. */
  lemma AddSubtractExact(a: real, b: real)
    requires TwoDecimals(a) && TwoDecimals(b)
    ensures Add(a, b) == a + b
    ensures Subtract(a, b) == a - b
  {
    TwoDecimalsArithmetic(a, b);
    Round2Exact(a + b);
    Round2Exact(a - b);
  }

  /** `subtract(add(a, b), b) == a` and `add(a, 0) == a` for two-decimal inputs. */
  lemma SubtractUndoesAdd(a: real, b: real)
    requires TwoDecimals(a) && TwoDecimals(b)
    ensures Subtract(Add(a, b), b) == a
    ensures Add(a, 0.0) == a
  {
    AddSubtractExact(a, b);
    TwoDecimalsArithmetic(a + b, b);
    AddSubtractExact(a + b, b);
    TwoDecimalsOfInt(0);
    AddSubtractExact(a, 0.0);
  }

  /** `add` is commutative and `subtract(a, a)` is zero, for every input. */
  lemma AddCommutesSubtractSelf(a: real, b: real)
    ensures Add(a, b) == Add(b, a)
    ensures Subtract(a, a) == 0.0
  {
    assert a + b == b + a;
    assert Round2(0.0) == 0.0;
  }

  /** `multiply(x, 100)` of a whole number of cents is exact and a whole number. */
  lemma MultiplyByHundred(x: real)
    requires TwoDecimals(x)
    ensures Multiply(x, 100.0) == x * 100.0
    ensures Multiply(x, 100.0) == (x * 100.0).Floor as real
  {
    var n := (x * 100.0).Floor;
    TwoDecimalsOfInt(n);
    Round2Exact(x * 100.0);
  }

  // ---------------------------------------------------------------------------
  // Rounded running sums
  // ---------------------------------------------------------------------------

  /** `xs.reduce((acc, x) => Currency.add(acc, x), 0)`. */
  function MoneySum(xs: seq<real>): (r: real)
    ensures TwoDecimals(r)
  {
    if xs == [] then TwoDecimalsOfInt(0); 0.0 else Add(MoneySum(xs[..|xs| - 1]), xs[|xs| - 1])
  }

  /** The exact sum, in the same left-to-right order. */
  function ExactSum(xs: seq<real>): real {
    if xs == [] then 0.0 else ExactSum(xs[..|xs| - 1]) + xs[|xs| - 1]
  }

  predicate AllTwoDecimals(xs: seq<real>) {
    forall i :: 0 <= i < |xs| ==> TwoDecimals(xs[i])
  }

  /** When every term is a whole number of cents, the rounded running sum is the exact sum. */
  lemma {:induction false} MoneySumExact(xs: seq<real>)
    requires AllTwoDecimals(xs)
    ensures MoneySum(xs) == ExactSum(xs)
  {
    if xs != [] {
      var init := xs[..|xs| - 1];
      MoneySumExact(init);
      AddSubtractExact(MoneySum(init), xs[|xs| - 1]);
    }
  }

  lemma ExactSumSnoc(xs: seq<real>, x: real)
    ensures ExactSum(xs + [x]) == ExactSum(xs) + x
  {
    assert (xs + [x])[..|xs + [x]| - 1] == xs;
  }

  lemma MoneySumSnoc(xs: seq<real>, x: real)
    ensures MoneySum(xs + [x]) == Add(MoneySum(xs), x)
  {
    assert (xs + [x])[..|xs + [x]| - 1] == xs;
  }

  lemma {:induction false} ExactSumAppend(a: seq<real>, b: seq<real>)
    ensures ExactSum(a + b) == ExactSum(a) + ExactSum(b)
    decreases |b|
  {
    if b == [] {
      assert a + b == a;
    } else {
      var b', x := b[..|b| - 1], b[|b| - 1];
      assert a + b == (a + b') + [x];
      ExactSumAppend(a, b');
      ExactSumSnoc(a + b', x);
    }
  }

  // ---------------------------------------------------------------------------
  // toFixed(2) and parseFloat
  // ---------------------------------------------------------------------------

  /** `x.toFixed(2)`: an optional minus sign, the whole part, a point and exactly two digits. */
  function ToFixed2(x: real): (s: string)
    ensures |s| >= 4
  {
    (if x < 0.0 then "-" else "") + FixedBody(CentsMagnitude(x))
  }

  /** The number of cents in `|x|` after rounding. */
  function CentsMagnitude(x: real): nat {
    var c := RoundCents(x);
    if c < 0 then -c else c
  }

  /** The unsigned text `toFixed(2)` writes for `m` cents. */
  function FixedBody(m: nat): (s: string)
    ensures |s| >= 4 && Text.IsDigit(s[0])
  {
    Text.DigitString(m / 100) + "." + CentText(m % 100)
  }

  /** The two digits of a number of cents below 100. */
  function CentText(r: nat): (s: string)
    requires r < 100
    ensures |s| == 2 && Text.IsDigit(s[0]) && Text.IsDigit(s[1])
  {
    [Text.DigitChar(r / 10), Text.DigitChar(r % 10)]
  }

  /** How many decimal digits `s` starts with. */
  function DigitPrefix(s: string): (n: nat)
    ensures n <= |s|
    ensures forall i :: 0 <= i < n ==> Text.IsDigit(s[i])
    ensures n < |s| ==> !Text.IsDigit(s[n])
  {
    if s != [] && Text.IsDigit(s[0]) then 1 + DigitPrefix(s[1..]) else 0
  }

  function Pow10(n: nat): (p: nat)
    ensures p >= 1
  {
    if n == 0 then 1 else 10 * Pow10(n - 1)
  }

  /** The number an unsigned decimal prefix `ddd[.ddd]` or `.ddd` denotes; `None` when there is none (NaN). */
  function ParseUnsigned(s: string): Option<real> {
    var i := DigitPrefix(s);
    var rest := s[i..];
    var frac := if rest != [] && rest[0] == '.' then rest[1..][..DigitPrefix(rest[1..])] else [];
    if i + |frac| == 0 then None else Some(PointValue(s[..i], frac))
  }

  /** The value of the decimal literal `w.f`. */
  function PointValue(w: string, f: string): real
    requires forall i :: 0 <= i < |w| ==> Text.IsDigit(w[i])
    requires forall i :: 0 <= i < |f| ==> Text.IsDigit(f[i])
  {
    Text.DigitsValue(w) as real + Text.DigitsValue(f) as real / Pow10(|f|) as real
  }

  /** `parseFloat(s)`: leading white space, an optional sign, then the longest decimal prefix. */
  function ParseFloat(s: string): Option<real> {
    var t := s[Text.LeadingSpaces(s)..];
    if t != [] && (t[0] == '-' || t[0] == '+') then
      match ParseUnsigned(t[1..])
      case None => None
      case Some(v) => Some(if t[0] == '-' then -v else v)
    else ParseUnsigned(t)
  }

  /** `Currency.fromString`: `parseFloat` rounded to two decimals; `None` where JavaScript gives NaN. */
  function FromString(s: string): (r: Option<real>)
    ensures r.Some? <==> ParseFloat(s).Some?
    ensures r.Some? ==> TwoDecimals(r.value) && -0.005 <= r.value - ParseFloat(s).value <= 0.005
  {
    match ParseFloat(s)
    case None => None
    case Some(v) => Round2Nearest(v); Some(Round2(v))
  }

  lemma {:induction false} DigitPrefixOfDigits(d: string, rest: string)
    requires forall i :: 0 <= i < |d| ==> Text.IsDigit(d[i])
    requires rest == [] || !Text.IsDigit(rest[0])
    ensures DigitPrefix(d + rest) == |d|
  {
    if d != [] {
      assert (d + rest)[1..] == d[1..] + rest;
      DigitPrefixOfDigits(d[1..], rest);
    }
  }

  /** A literal `www.fff` reads as its whole part plus its fraction. */
  lemma ParsePointForm(w: string, f: string)
    requires forall i :: 0 <= i < |w| ==> Text.IsDigit(w[i])
    requires forall i :: 0 <= i < |f| ==> Text.IsDigit(f[i])
    requires |w| + |f| > 0
    ensures ParseUnsigned(w + "." + f) == Some(PointValue(w, f))
  {
    var s := w + "." + f;
    var tail := "." + f;
    assert s == w + tail;
    DigitPrefixOfDigits(w, tail);
    var i := DigitPrefix(s);
    assert i == |w|;
    assert s[..i] == w;
    var rest := s[i..];
    assert rest == tail;
    assert rest != [] && rest[0] == '.';
    assert rest[1..] == f;
    DigitPrefixOfDigits(f, []);
    assert f + [] == f;
    assert DigitPrefix(rest[1..]) == |f|;
    assert rest[1..][..DigitPrefix(rest[1..])] == f;
  }

  /** The two cent digits read back as the number of cents. */
  lemma CentDigits(r: nat)
    requires r < 100
    ensures Text.DigitsValue(CentText(r)) == r
  {
    var cents := CentText(r);
    assert cents[..|cents| - 1] == [cents[0]];
    assert [cents[0]][..0] == [];
    assert Text.DigitsValue([cents[0]]) == r / 10;
  }

  lemma CentsSplit(m: nat)
    ensures (m / 100) as real + (m % 100) as real / 100.0 == m as real / 100.0
  {
    assert m == 100 * (m / 100) + m % 100;
    assert (m as real) == 100.0 * (m / 100) as real + (m % 100) as real;
  }

  /** The unsigned part of `toFixed(2)` reads back as the rounded magnitude. */
  lemma UnsignedRoundTrip(m: nat)
    ensures ParseUnsigned(FixedBody(m)) == Some(m as real / 100.0)
  {
    var whole, cents := Text.DigitString(m / 100), CentText(m % 100);
    assert FixedBody(m) == whole + "." + cents;
    ParsePointForm(whole, cents);
    CentsPointValue(m);
  }

  /** `parseFloat` of text starting with a digit is its unsigned reading. */
  lemma ParseDigitFirst(body: string)
    requires body != [] && Text.IsDigit(body[0])
    ensures ParseFloat(body) == ParseUnsigned(body)
  {
    assert Text.LeadingSpaces(body) == 0;
  }

  /** `parseFloat` of a minus sign followed by text starting with a digit negates the reading. */
  lemma ParseMinus(t: string, body: string, v: real)
    requires t == "-" + body
    requires body != [] && Text.IsDigit(body[0])
    requires ParseUnsigned(body) == Some(v)
    ensures ParseFloat(t) == Some(-v)
  {
    assert Text.LeadingSpaces(t) == 0;
    assert t[0..] == t;
    assert t[1..] == body;
  }

  /** The amount the sign and the cents `toFixed(2)` writes stand for. */
  function SignedValue(x: real): real {
    if x < 0.0 then -(CentsMagnitude(x) as real / 100.0) else CentsMagnitude(x) as real / 100.0
  }

  /** The magnitude written by `toFixed(2)`, signed, is the rounded amount. */
  lemma SignedCents(x: real)
    ensures Round2(x) == SignedValue(x)
  {
  }

  /** `parseFloat` reads the text `toFixed(2)` writes as its signed number of cents. */
  lemma ParseFixedText(x: real)
    ensures ParseFloat(ToFixed2(x)) == Some(SignedValue(x))
  {
    if x < 0.0 {
      ParseNegativeFixed(x);
    } else {
      ParseNonNegativeFixed(x);
    }
  }

  lemma ParseNegativeFixed(x: real)
    requires x < 0.0
    ensures ParseFloat(ToFixed2(x)) == Some(-(CentsMagnitude(x) as real / 100.0))
  {
    FixedShape(x);
    ParseMinusFixedBody(ToFixed2(x), CentsMagnitude(x));
  }

  lemma ParseNonNegativeFixed(x: real)
    requires x >= 0.0
    ensures ParseFloat(ToFixed2(x)) == Some(CentsMagnitude(x) as real / 100.0)
  {
    FixedShape(x);
    ParseFixedBody(ToFixed2(x), CentsMagnitude(x));
  }

  /** `parseFloat` of the unsigned `toFixed(2)` text of `m` cents. */
  lemma ParseFixedBody(t: string, m: nat)
    requires t == FixedBody(m)
    ensures ParseFloat(t) == Some(m as real / 100.0)
  {
    UnsignedRoundTrip(m);
    ParseDigitFirst(FixedBody(m));
  }

  /** `parseFloat` of a minus sign and the unsigned `toFixed(2)` text of `m` cents. */
  lemma ParseMinusFixedBody(t: string, m: nat)
    requires t == "-" + FixedBody(m)
    ensures ParseFloat(t) == Some(-(m as real / 100.0))
  {
    UnsignedRoundTrip(m);
    ParseMinus(t, FixedBody(m), m as real / 100.0);
  }

  /** The text `toFixed(2)` writes: the body, after a minus sign for a negative amount. */
  lemma FixedShape(x: real)
    ensures ToFixed2(x) == if x < 0.0 then "-" + FixedBody(CentsMagnitude(x)) else FixedBody(CentsMagnitude(x))
  {
    if x >= 0.0 {
      assert "" + FixedBody(CentsMagnitude(x)) == FixedBody(CentsMagnitude(x));
    }
  }

  /** `parseFloat(x.toFixed(2))` is `x` rounded to cents. */
  lemma ParseToFixed(x: real)
    ensures ParseFloat(ToFixed2(x)) == Some(Round2(x))
  {
    ParseFixedText(x);
    SignedCents(x);
  }

  /** `Currency.fromString` of what `toFixed(2)` wrote gives the amount rounded to cents. */
  lemma ToFixedRoundTrip(x: real)
    ensures FromString(ToFixed2(x)) == Some(Round2(x))
  {
    ParseToFixed(x);
    Round2Idempotent(x);
  }

  // ---------------------------------------------------------------------------
  // String(x)
  // ---------------------------------------------------------------------------

  /** `String(x)` (and `x.toString()`) for an amount: no trailing zeros in the fraction and no point for a whole number. */
  function NumberText(x: real): (s: string)
    ensures |s| >= 1
  {
    (if x < 0.0 then "-" else "") + NumberBody(CentsMagnitude(x))
  }

  /** The unsigned shortest text of `m` cents. */
  function NumberBody(m: nat): (s: string)
    ensures |s| >= 1 && Text.IsDigit(s[0])
  {
    var r := m % 100;
    Text.DigitString(m / 100) +
    (if r == 0 then "" else if r % 10 == 0 then "." + [Text.DigitChar(r / 10)] else "." + CentText(r))
  }

  /** Digits with nothing after them read as their value. */
  lemma ParseWhole(w: string)
    requires forall i :: 0 <= i < |w| ==> Text.IsDigit(w[i])
    requires |w| > 0
    ensures ParseUnsigned(w) == Some(Text.DigitsValue(w) as real)
  {
    DigitPrefixOfDigits(w, []);
    assert w + [] == w;
    assert w[..|w|] == w;
    assert w[|w|..] == [];
  }

  lemma TenthsSplit(m: nat)
    requires m % 100 % 10 == 0
    ensures (m / 100) as real + (m % 100 / 10) as real / 10.0 == m as real / 100.0
  {
    var r := m % 100;
    assert r == 10 * (r / 10);
    CentsSplit(m);
  }

  lemma WholeBodyValue(m: nat)
    requires m % 100 == 0
    ensures ParseUnsigned(NumberBody(m)) == Some(m as real / 100.0)
  {
    var q := m / 100;
    var w := Text.DigitString(q);
    assert NumberBody(m) == w + "" == w;
    Text.DigitStringValue(q);
    ParseWhole(w);
    WholeHundreds(m, q);
  }

  lemma WholeHundreds(m: nat, q: nat)
    requires m % 100 == 0 && q == m / 100
    ensures q as real == m as real / 100.0
  {
    assert m == 100 * q;
  }

  lemma TenthsBodyValue(m: nat)
    requires m % 100 != 0 && m % 100 % 10 == 0
    ensures ParseUnsigned(NumberBody(m)) == Some(m as real / 100.0)
  {
    var w := Text.DigitString(m / 100);
    var r := m % 100;
    var f := [Text.DigitChar(r / 10)];
    assert NumberBody(m) == w + "." + f;
    ParsePointForm(w, f);
    TenthsPointValue(m);
  }

  lemma TenthsPointValue(m: nat)
    requires m % 100 % 10 == 0
    ensures PointValue(Text.DigitString(m / 100), [Text.DigitChar(m % 100 / 10)]) == m as real / 100.0
  {
    var q, t := m / 100, m % 100 / 10;
    var f := [Text.DigitChar(t)];
    Text.DigitStringValue(q);
    assert f[..0] == [];
    assert Text.DigitsValue(f) == t;
    assert Pow10(1) == 10;
    PointParts(Text.DigitString(q), f, q, t, 10);
    TenthsSplit(m);
  }

  /** The value of a point form from the values of its two digit runs. */
  lemma PointParts(w: string, f: string, a: nat, b: nat, k: nat)
    requires forall i :: 0 <= i < |w| ==> Text.IsDigit(w[i])
    requires forall i :: 0 <= i < |f| ==> Text.IsDigit(f[i])
    requires Text.DigitsValue(w) == a && Text.DigitsValue(f) == b && Pow10(|f|) == k
    ensures PointValue(w, f) == a as real + b as real / k as real
  {
  }

  lemma CentsBodyValue(m: nat)
    requires m % 100 % 10 != 0
    ensures ParseUnsigned(NumberBody(m)) == Some(m as real / 100.0)
  {
    var w := Text.DigitString(m / 100);
    var r := m % 100;
    assert NumberBody(m) == w + "." + CentText(r);
    ParsePointForm(w, CentText(r));
    CentsPointValue(m);
  }

  lemma CentsPointValue(m: nat)
    ensures PointValue(Text.DigitString(m / 100), CentText(m % 100)) == m as real / 100.0
  {
    var q, r := m / 100, m % 100;
    Text.DigitStringValue(q);
    CentDigits(r);
    assert Pow10(2) == 100;
    PointParts(Text.DigitString(q), CentText(r), q, r, 100);
    CentsSplit(m);
  }

  /** The shortest text of `m` cents reads back as `m / 100`. */
  lemma NumberBodyValue(m: nat)
    ensures ParseUnsigned(NumberBody(m)) == Some(m as real / 100.0)
  {
    if m % 100 == 0 {
      WholeBodyValue(m);
    } else if m % 100 % 10 == 0 {
      TenthsBodyValue(m);
    } else {
      CentsBodyValue(m);
    }
  }

  /** `parseFloat(String(x))` gives back every whole number of cents. */
  lemma NumberTextRoundTrip(x: real)
    requires TwoDecimals(x)
    ensures ParseFloat(NumberText(x)) == Some(x)
  {
    var m := CentsMagnitude(x);
    var body := NumberBody(m);
    NumberBodyValue(m);
    SignedCents(x);
    Round2Exact(x);
    if x < 0.0 {
      ParseMinus(NumberText(x), body, m as real / 100.0);
    } else {
      assert NumberText(x) == body;
      ParseDigitFirst(body);
    }
  }
}
