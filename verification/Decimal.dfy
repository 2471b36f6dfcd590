/** JSON number literals (section 6 of RFC 8259) and the rational numbers they denote. */
module Decimal {
  import opened Wrappers

  datatype Exponent = Exponent(mark: char, sign: string, digits: string)

  /** The pieces of a literal. */
  datatype Literal = Literal(negative: bool, whole: string, fraction: string, exponent: Option<Exponent>)

  predicate Digit(c: char) {
    '0' <= c <= '9'
  }

  predicate Digits(s: string) {
    forall i :: 0 <= i < |s| ==> Digit(s[i])
  }

  predicate Signlike(e: Exponent) {
    (e.sign == "" || e.sign == "+" || e.sign == "-") && e.digits != "" && Digits(e.digits)
  }

  predicate Grammatical(l: Literal) {
    && Digits(l.whole) && l.whole != "" && (|l.whole| > 1 ==> l.whole[0] != '0')
    && Digits(l.fraction)
    && match l.exponent
       case None => true
       case Some(e) => (e.mark == 'e' || e.mark == 'E') && Signlike(e)
  }

  function ExponentText(e: Option<Exponent>): string {
    match e
    case None => ""
    case Some(x) => [x.mark] + x.sign + x.digits
  }

  function FractionText(fraction: string): string {
    if fraction == "" then "" else "." + fraction
  }

  function Text(l: Literal): string {
    (if l.negative then "-" else "") + (l.whole + (FractionText(l.fraction) + ExponentText(l.exponent)))
  }

  // ---- Values ----

  function DigitsValue(s: string): (n: nat)
    requires Digits(s)
  {
    if s == "" then 0 else DigitsValue(s[..|s| - 1]) * 10 + (s[|s| - 1] as int - '0' as int)
  }

  function Power(k: nat): (p: nat)
    ensures p > 0
  {
    if k == 0 then 1 else 10 * Power(k - 1)
  }

  /** Ten to a possibly negative power. */
  function Scale(k: int): (r: real)
    ensures r > 0.0
  {
    if k >= 0 then Power(k) as real else 1.0 / Power(-k) as real
  }

  function Signed(negative: bool, r: real): real {
    if negative then -r else r
  }

  function ExponentValue(e: Option<Exponent>): int
    requires e.Some? ==> Digits(e.value.digits)
  {
    match e
    case None => 0
    case Some(x) =>
      var n: int := DigitsValue(x.digits);
      if x.sign == "-" then -n else n
  }

  /** The number a literal denotes. */
  function Value(l: Literal): real
    requires Grammatical(l)
  {
    Signed(l.negative,
           (DigitsValue(l.whole) as real + DigitsValue(l.fraction) as real * Scale(-|l.fraction|))
           * Scale(ExponentValue(l.exponent)))
  }

  // ---- A literal is read back from its text in one way ----

  predicate Stops(s: string) {
    s == "" || !Digit(s[0])
  }

  /** The number of leading digits. */
  function Run(s: string): nat {
    if Stops(s) then 0 else 1 + Run(s[1..])
  }

  lemma {:induction false} RunOf(a: string, x: string)
    requires Digits(a) && Stops(x)
    ensures Run(a + x) == |a|
    decreases |a|
  {
    if a == "" {
      assert a + x == x;
    } else {
      assert (a + x)[0] == a[0] && (a + x)[1..] == a[1..] + x;
      RunOf(a[1..], x);
    }
  }

  lemma DigitRun(a: string, x: string, b: string, y: string)
    requires Digits(a) && Digits(b) && Stops(x) && Stops(y) && a + x == b + y
    ensures a == b && x == y
  {
    RunOf(a, x);
    RunOf(b, y);
    assert a == (a + x)[..|a|] && x == (a + x)[|a|..];
    assert b == (b + y)[..|b|] && y == (b + y)[|b|..];
  }

  lemma ExponentShape(e: Exponent)
    requires Signlike(e)
    ensures var s := ExponentText(Some(e));
            && |s| > 1 && e.mark == s[0]
            && e.sign == (if Digit(s[1]) then "" else [s[1]])
            && e.digits == s[1 + |e.sign|..]
  {
    var s := ExponentText(Some(e));
    if e.sign == "" {
      assert [e.mark] + e.sign == [e.mark];
      assert s[1] == e.digits[0];
    } else {
      assert e.sign == [e.sign[0]];
      assert s[1] == e.sign[0];
    }
  }

  lemma ExponentTextUnique(a: Option<Exponent>, b: Option<Exponent>)
    requires (a.Some? ==> Signlike(a.value)) && (b.Some? ==> Signlike(b.value))
    requires ExponentText(a) == ExponentText(b)
    ensures a == b
  {
    if a.Some? {
      ExponentShape(a.value);
    }
    if b.Some? {
      ExponentShape(b.value);
    }
  }

  lemma TailStops(l: Literal)
    requires Grammatical(l)
    ensures Stops(FractionText(l.fraction) + ExponentText(l.exponent)) && Stops(ExponentText(l.exponent))
  {
    if l.fraction != "" {
      assert (FractionText(l.fraction) + ExponentText(l.exponent))[0] == '.';
    }
  }

  lemma TextUnique(a: Literal, b: Literal)
    requires Grammatical(a) && Grammatical(b) && Text(a) == Text(b)
    ensures a == b
  {
    var s, t := Text(a), Text(b);
    var p := a.whole + (FractionText(a.fraction) + ExponentText(a.exponent));
    var q := b.whole + (FractionText(b.fraction) + ExponentText(b.exponent));
    assert p[0] == a.whole[0] && q[0] == b.whole[0];
    assert s[0] == if a.negative then '-' else a.whole[0];
    assert t[0] == if b.negative then '-' else b.whole[0];
    assert a.negative == b.negative;
    assert p == if a.negative then s[1..] else s;
    assert q == if b.negative then t[1..] else t;
    TailStops(a);
    TailStops(b);
    DigitRun(a.whole, FractionText(a.fraction) + ExponentText(a.exponent), b.whole, FractionText(b.fraction) + ExponentText(b.exponent));
    FractionUnique(a, b);
    ExponentTextUnique(a.exponent, b.exponent);
  }

  lemma FractionUnique(a: Literal, b: Literal)
    requires Grammatical(a) && Grammatical(b)
    requires FractionText(a.fraction) + ExponentText(a.exponent) == FractionText(b.fraction) + ExponentText(b.exponent)
    ensures a.fraction == b.fraction && ExponentText(a.exponent) == ExponentText(b.exponent)
  {
    FractionShape(a);
    FractionShape(b);
    TailStops(a);
    TailStops(b);
    DigitRun(a.fraction, ExponentText(a.exponent), b.fraction, ExponentText(b.exponent));
  }

  lemma FractionShape(l: Literal)
    requires Grammatical(l)
    ensures var u := FractionText(l.fraction) + ExponentText(l.exponent);
            && (l.fraction != "" <==> u != "" && u[0] == '.')
            && l.fraction + ExponentText(l.exponent) == if u != "" && u[0] == '.' then u[1..] else u
  {
    var u, x := FractionText(l.fraction) + ExponentText(l.exponent), ExponentText(l.exponent);
    if l.fraction == "" {
      assert u == x && l.fraction + x == x;
    } else {
      assert u[0] == '.' && u[1..] == l.fraction + x;
    }
  }

  // ---- Powers of ten ----

  lemma {:induction false} PowerAdd(a: nat, b: nat)
    ensures Power(a + b) == Power(a) * Power(b)
  {
    if a > 0 {
      PowerAdd(a - 1, b);
      assert Power(a + b) == 10 * (Power(a - 1) * Power(b));
    }
  }

  lemma ScaleStep(k: int)
    ensures Scale(k + 1) == 10.0 * Scale(k)
  {
    if k < -1 {
      assert Power(-k) == 10 * Power(-k - 1);
      var p, q := Power(-k) as real, Power(-k - 1) as real;
      assert p == 10.0 * q && 1.0 / q == 10.0 / p;
    }
  }

  lemma PowerNext(n: nat)
    ensures Power(n + 1) as real == 10.0 * Power(n) as real
  {
  }

  lemma {:induction false} ScaleAdd(k: int, n: nat)
    ensures Scale(k + n) == Power(n) as real * Scale(k)
    decreases n
  {
    hide Scale;
    if n == 0 {
      assert Power(0) as real == 1.0;
    } else {
      hide Power;
      var m := n - 1;
      ScaleAdd(k, m);
      ScaleStep(k + m);
      PowerNext(m);
      assert k + n == k + m + 1;
      TimesTen(Power(m) as real, Scale(k));
    }
  }

  lemma TimesTen(p: real, x: real)
    ensures 10.0 * (p * x) == (10.0 * p) * x
  {
  }

  lemma {:induction false} DigitsValueJoin(a: string, b: string)
    requires Digits(a) && Digits(b)
    ensures Digits(a + b) && DigitsValue(a + b) == DigitsValue(a) * Power(|b|) + DigitsValue(b)
    decreases |b|
  {
    if b == "" {
      assert a + b == a;
    } else {
      var n := |b| - 1;
      DigitsValueJoin(a, b[..n]);
      assert (a + b)[..|a + b| - 1] == a + b[..n];
      Shifted(DigitsValue(a), Power(n), DigitsValue(b[..n]));
      assert Power(|b|) == 10 * Power(n);
    }
  }

  lemma Shifted(x: nat, p: nat, y: nat)
    ensures (x * p + y) * 10 == x * (10 * p) + y * 10
  {
  }
}
