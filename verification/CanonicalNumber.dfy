/** The canonical spelling of a JSON number: sign, significant digits without
    outer zeros, and a decimal exponent when it is not zero. */
module CanonicalNumber {
  import opened Wrappers
  import opened Decimal

  // ---- The rewriting, on text ----

  function IndexMark(s: string): int {
    if s == "" then -1
    else if s[0] == 'e' || s[0] == 'E' then 0
    else
      var i := IndexMark(s[1..]);
      if i < 0 then -1 else i + 1
  }

  function IndexPoint(s: string): int {
    if s == "" then -1
    else if s[0] == '.' then 0
    else
      var i := IndexPoint(s[1..]);
      if i < 0 then -1 else i + 1
  }

  function TrimLeft(s: string): string {
    if s != "" && s[0] == '0' then TrimLeft(s[1..]) else s
  }

  function TrimRight(s: string): string {
    if s != "" && s[|s| - 1] == '0' then TrimRight(s[..|s| - 1]) else s
  }

  /** Base ten into 32 bits, an optional sign first. */
  function ParseInt(s: string): Option<int> {
    var signed := s != "" && (s[0] == '-' || s[0] == '+');
    var digits := if signed then s[1..] else s;
    if digits == "" || !Digits(digits) then None
    else
      var n: int := DigitsValue(digits);
      var k := if signed && s[0] == '-' then -n else n;
      if -0x8000_0000 <= k < 0x8000_0000 then Some(k) else None
  }

  function FormatNat(n: nat): (s: string)
    ensures Digits(s) && s != "" && (|s| > 1 ==> s[0] != '0')
  {
    var last := ['0' + (n % 10) as char];
    if n < 10 then last else FormatNat(n / 10) + last
  }

  function FormatInt(k: int): string {
    if k < 0 then "-" + FormatNat(-k) else FormatNat(k)
  }

  function Digital(negative: bool, mantissa: string, given: int): string {
    var j := IndexPoint(mantissa);
    var pointed := 0 <= j < |mantissa|;
    var exponent := if pointed then given - (|mantissa| - j - 1) else given;
    var digits := TrimLeft(if pointed then mantissa[..j] + mantissa[j + 1..] else mantissa);
    if digits == "" then "0"
    else
      var trimmed := TrimRight(digits);
      var e := exponent + (|digits| - |trimmed|);
      (if negative then "-" else "") + (trimmed + if e != 0 then "e" + FormatInt(e) else "")
  }

  /** None is the refusal of an exponent outside the numeric range. */
  function NumberText(text: string): Option<string> {
    var negative := text != "" && text[0] == '-';
    var s := if negative then text[1..] else text;
    var i := IndexMark(s);
    var marked := 0 <= i < |s|;
    var given := if marked then ParseInt(s[i + 1..]) else Some(0);
    if given.None? || given.value > 131072 || given.value < -16383 then None
    else Some(Digital(negative, if marked then s[..i] else s, given.value))
  }

  // ---- The rewriting, on literals ----

  predicate InRange(l: Literal)
    requires Grammatical(l)
  {
    -16383 <= ExponentValue(l.exponent) <= 131072
  }

  function ExponentOf(e: int): Option<Exponent> {
    if e == 0 then None else Some(Exponent('e', if e < 0 then "-" else "", FormatNat(if e < 0 then -e else e)))
  }

  const ZERO := Literal(false, "0", "", None)

  function Significant(l: Literal): string {
    TrimRight(TrimLeft(l.whole + l.fraction))
  }

  function FinalExponent(l: Literal): int
    requires Grammatical(l)
  {
    ExponentValue(l.exponent) - |l.fraction| + (|TrimLeft(l.whole + l.fraction)| - |Significant(l)|)
  }

  function Normal(l: Literal): Literal
    requires Grammatical(l)
  {
    if TrimLeft(l.whole + l.fraction) == "" then ZERO
    else Literal(l.negative, Significant(l), "", ExponentOf(FinalExponent(l)))
  }

  lemma {:induction false} IndexMarkAfter(a: string, x: string)
    requires forall i :: 0 <= i < |a| ==> a[i] != 'e' && a[i] != 'E'
    requires x != "" ==> x[0] == 'e' || x[0] == 'E'
    ensures IndexMark(a + x) == if x == "" then -1 else |a|
  {
    if a == "" {
      assert a + x == x;
    } else {
      assert (a + x)[0] == a[0] && (a + x)[1..] == a[1..] + x;
      IndexMarkAfter(a[1..], x);
    }
  }

  lemma {:induction false} IndexPointAfter(a: string, x: string)
    requires Digits(a)
    requires x != "" ==> x[0] == '.'
    ensures IndexPoint(a + x) == if x == "" then -1 else |a|
  {
    if a == "" {
      assert a + x == x;
    } else {
      assert (a + x)[0] == a[0] && (a + x)[1..] == a[1..] + x;
      IndexPointAfter(a[1..], x);
    }
  }

  lemma ParseExponent(e: Exponent)
    requires Signlike(e)
    ensures ParseInt(e.sign + e.digits) ==
            var k := ExponentValue(Some(e)); if -0x8000_0000 <= k < 0x8000_0000 then Some(k) else None
  {
    var s := e.sign + e.digits;
    if e.sign == "" {
      assert s == e.digits;
    } else {
      assert s[0] == e.sign[0] && s[1..] == e.digits;
    }
  }

  /** What the rewriting does to a literal's text. */
  lemma NumberOfText(l: Literal)
    requires Grammatical(l)
    ensures NumberText(Text(l)) == if InRange(l) then Some(Text(Normal(l))) else None
  {
    hide Digital, Normal, DigitsValue, ExponentValue, Grammatical, ParseInt, Text, IndexMark;
    var mantissa, x := l.whole + FractionText(l.fraction), ExponentText(l.exponent);
    var s, text := mantissa + x, Text(l);
    Unsigned(l, s);
    MarkAt(l, mantissa);
    ExponentRead(l, s, mantissa);
    DigitalOf(l);
  }

  lemma Unsigned(l: Literal, s: string)
    requires Grammatical(l) && s == l.whole + FractionText(l.fraction) + ExponentText(l.exponent)
    ensures var text := Text(l);
            text != "" && (text[0] == '-' <==> l.negative) && s == if l.negative then text[1..] else text
  {
    hide FractionText, ExponentText, Digits;
    assert s[0] == l.whole[0] && Digit(s[0]) by {
      FirstDigit(l);
    }
    hide Grammatical, Digit;
    Associative(l.whole, FractionText(l.fraction), ExponentText(l.exponent));
    WithSign(l.negative, s);
  }

  lemma FirstDigit(l: Literal)
    requires Grammatical(l)
    ensures l.whole != "" && Digit(l.whole[0])
  {
  }

  lemma Associative(a: string, b: string, c: string)
    ensures a + b + c == a + (b + c)
  {
  }

  lemma WithSign(negative: bool, s: string)
    requires s != "" && s[0] != '-'
    ensures var text := (if negative then "-" else "") + s;
            text != "" && (text[0] == '-' <==> negative) && s == if negative then text[1..] else text
  {
  }

  lemma MarkAt(l: Literal, mantissa: string)
    requires Grammatical(l) && mantissa == l.whole + FractionText(l.fraction)
    ensures IndexMark(mantissa + ExponentText(l.exponent)) == if l.exponent.None? then -1 else |mantissa|
  {
    MantissaMarkless(l);
    IndexMarkAfter(mantissa, ExponentText(l.exponent));
  }

  lemma MantissaMarkless(l: Literal)
    requires Grammatical(l)
    ensures var m := l.whole + FractionText(l.fraction);
            forall i :: 0 <= i < |m| ==> m[i] != 'e' && m[i] != 'E'
  {
  }

  lemma ExponentRead(l: Literal, s: string, mantissa: string)
    requires Grammatical(l) && s == mantissa + ExponentText(l.exponent)
    ensures if l.exponent.None? then s == mantissa && ExponentValue(l.exponent) == 0
            else && |mantissa| < |s| && s[..|mantissa|] == mantissa
                 && ParseInt(s[|mantissa| + 1..]) ==
                    var k := ExponentValue(l.exponent); if -0x8000_0000 <= k < 0x8000_0000 then Some(k) else None
  {
    if l.exponent.Some? {
      var e := l.exponent.value;
      assert s[|mantissa| + 1..] == e.sign + e.digits;
      ParseExponent(e);
    }
  }

  lemma DigitalOf(l: Literal)
    requires Grammatical(l)
    ensures Digital(l.negative, l.whole + FractionText(l.fraction), ExponentValue(l.exponent)) == Text(Normal(l))
  {
    hide TrimLeft, TrimRight, FormatNat, DigitsValue, Text, ExponentOf, FormatInt;
    IndexPointAfter(l.whole, FractionText(l.fraction));
    MantissaDigits(l);
    if TrimLeft(l.whole + l.fraction) != "" {
      NormalText(l);
    } else {
      assert Text(ZERO) == "0" by { ZeroText(); }
    }
  }

  lemma ZeroText()
    ensures Text(ZERO) == "0"
  {
  }

  lemma MantissaDigits(l: Literal)
    requires Grammatical(l)
    ensures var m, j := l.whole + FractionText(l.fraction), |l.whole|;
            if l.fraction == "" then m == l.whole && l.whole + l.fraction == m
            else j < |m| && m[..j] + m[j + 1..] == l.whole + l.fraction && |m| - j - 1 == |l.fraction|
  {
    var m, j := l.whole + FractionText(l.fraction), |l.whole|;
    if l.fraction != "" {
      assert m[..j] == l.whole && m[j + 1..] == l.fraction;
    }
  }

  lemma NormalText(l: Literal)
    requires Grammatical(l) && TrimLeft(l.whole + l.fraction) != ""
    ensures var e := FinalExponent(l);
            Text(Normal(l)) ==
            (if l.negative then "-" else "") + (Significant(l) + if e != 0 then "e" + FormatInt(e) else "")
  {
    hide TrimLeft, TrimRight, ExponentOf, ExponentText, FormatInt, Significant, FinalExponent;
    var e := FinalExponent(l);
    ExponentOfText(e);
    var tail := ExponentText(ExponentOf(e));
    assert FractionText("") + tail == tail;
  }

  lemma ExponentOfText(e: int)
    ensures ExponentText(ExponentOf(e)) == if e != 0 then "e" + FormatInt(e) else ""
  {
    var n := FormatNat(if e < 0 then -e else e);
    assert ['e'] + "-" + n == "e" + ("-" + n);
    assert ['e'] + "" + n == "e" + n;
  }

  // ---- Trimming and values ----

  lemma {:induction false} TrimLeftValue(s: string)
    requires Digits(s)
    ensures var t := TrimLeft(s);
            && Digits(t) && DigitsValue(t) == DigitsValue(s)
            && (t != "" ==> t[0] != '0')
  {
    if s != "" && s[0] == '0' {
      TrimLeftValue(s[1..]);
      assert s == ['0'] + s[1..];
      assert DigitsValue(['0']) == 0 by {
        assert ['0'][..0] == "";
      }
      DigitsValueJoin(['0'], s[1..]);
    }
  }

  lemma {:induction false} TrimRightValue(s: string)
    requires Digits(s)
    ensures var t := TrimRight(s);
            && |t| <= |s| && Digits(t) && DigitsValue(s) == DigitsValue(t) * Power(|s| - |t|)
            && (t != "" ==> t[|t| - 1] != '0')
            && (s != "" && s[0] != '0' ==> t != "" && t[0] == s[0])
    decreases |s|
  {
    if s != "" && s[|s| - 1] == '0' {
      var front := s[..|s| - 1];
      TrimRightValue(front);
      var t := TrimRight(front);
      assert Power(|s| - |t|) == 10 * Power(|front| - |t|);
      Shifted(DigitsValue(t), Power(|front| - |t|), 0);
    }
  }

  lemma {:induction false} LeadingPositive(s: string)
    requires Digits(s) && s != "" && s[0] != '0'
    ensures DigitsValue(s) > 0
    decreases |s|
  {
    if |s| > 1 {
      LeadingPositive(s[..|s| - 1]);
    }
  }

  /** Without leading zeros, digits are determined by their value. */
  lemma {:induction false} DigitsUnique(a: string, b: string)
    requires Digits(a) && a != "" && a[0] != '0' && Digits(b) && b != "" && b[0] != '0'
    requires DigitsValue(a) == DigitsValue(b)
    ensures a == b
    decreases |a|
  {
    var m, n := |a| - 1, |b| - 1;
    assert a == a[..m] + [a[m]] && b == b[..n] + [b[n]];
    assert DigitsValue(a[..m]) == DigitsValue(b[..n]) && a[m] == b[n];
    if m > 0 {
      LeadingPositive(a[..m]);
    }
    if n > 0 {
      LeadingPositive(b[..n]);
    }
    if m > 0 && n > 0 {
      DigitsUnique(a[..m], b[..n]);
    }
  }

  lemma {:induction false} FormatNatValue(n: nat)
    ensures DigitsValue(FormatNat(n)) == n
  {
    var s, last := FormatNat(n), ['0' + (n % 10) as char];
    if n >= 10 {
      FormatNatValue(n / 10);
      assert s[..|s| - 1] == FormatNat(n / 10);
    } else {
      assert s[..|s| - 1] == "";
    }
  }

  lemma ExponentOfValue(e: int)
    ensures ExponentOf(e).Some? ==> Signlike(ExponentOf(e).value)
    ensures ExponentValue(ExponentOf(e)) == e
  {
    FormatNatValue(if e < 0 then -e else e);
  }

  lemma NormalGrammatical(l: Literal)
    requires Grammatical(l)
    ensures Grammatical(Normal(l))
  {
    hide DigitsValue, Power;
    TrimLeftValue(l.whole + l.fraction);
    TrimRightValue(TrimLeft(l.whole + l.fraction));
    ExponentOfValue(FinalExponent(l));
  }

  lemma ScaleSum(a: int, b: int)
    ensures Scale(a + b) == Scale(a) * Scale(b)
  {
    hide Power;
    if b >= 0 {
      hide Scale;
      ScaleAdd(a, b);
      ScalePower(b);
      Commute(Power(b) as real, Scale(a));
    } else {
      hide Scale;
      ScaleAdd(a + b, -b);
      ScalePower(b);
      assert a + b + -b == a;
      Divided(Scale(a), Power(-b) as real, Scale(a + b));
    }
  }

  lemma ScalePower(b: int)
    ensures Scale(b) == if b >= 0 then Power(b) as real else 1.0 / Power(-b) as real
  {
  }

  lemma Commute(x: real, y: real)
    ensures x * y == y * x
  {
  }

  lemma Divided(x: real, p: real, y: real)
    requires p > 0.0 && x == p * y
    ensures y == x * (1.0 / p)
  {
    assert y == x / p;
  }

  /** `n` times ten to the `e`. */
  function Decimals(n: nat, e: int): real {
    n as real * Scale(e)
  }

  /** A literal's value from all its digits at once. */
  lemma ValueOfDigits(l: Literal)
    requires Grammatical(l)
    ensures Digits(l.whole + l.fraction)
    ensures Value(l) == Signed(l.negative, Decimals(DigitsValue(l.whole + l.fraction), ExponentValue(l.exponent) - |l.fraction|))
  {
    hide DigitsValue, Power, Scale;
    var n, e := |l.fraction|, ExponentValue(l.exponent);
    var w, f, p, x, y := DigitsValue(l.whole), DigitsValue(l.fraction), Power(n), Scale(-n), Scale(e);
    DigitsValueJoin(l.whole, l.fraction);
    ScaleAdd(-n, n);
    ScaleSum(e, -n);
    ScaleZero();
    assert -n + n == 0 && e + -n == e - n;
    assert DigitsValue(l.whole + l.fraction) == w * p + f;
    Spread(w, f, p, x, y);
    assert Value(l) == Signed(l.negative, (w as real + f as real * x) * y);
    assert Scale(e - n) == y * x;
    assert (w * p + f) as real * (y * x) == DigitsValue(l.whole + l.fraction) as real * Scale(e - n);
  }

  lemma DecimalsShift(d: nat, k: nat, e: int)
    ensures Decimals(d * Power(k), e) == Decimals(d, e + k)
  {
    hide Power, Scale;
    ScaleAdd(e, k);
    Regroup(d, Power(k), Scale(e));
  }

  lemma DecimalsZero(e: int)
    ensures Decimals(0, e) == 0.0
  {
  }

  lemma DecimalsPositive(n: nat, e: int)
    requires n > 0
    ensures Decimals(n, e) > 0.0
  {
  }

  lemma ScaleZero()
    ensures Scale(0) == 1.0
  {
  }

  lemma Spread(w: nat, f: nat, p: nat, x: real, y: real)
    requires p as real * x == 1.0
    ensures (w as real + f as real * x) * y == (w * p + f) as real * (y * x)
  {
    var a, b, c := w as real, f as real, p as real;
    CastProduct(w, p);
    Commute(y, x);
    Distribute(a, b * x, y);
    Distribute(a * c, b, x * y);
    Associate(a, c, x * y);
    Associate(c, x, y);
    Associate(b, x, y);
    One(c * x, y);
  }

  lemma One(z: real, y: real)
    requires z == 1.0
    ensures z * y == y
  {
  }

  lemma Distribute(a: real, b: real, y: real)
    ensures (a + b) * y == a * y + b * y
  {
  }

  lemma Associate(a: real, b: real, c: real)
    ensures (a * b) * c == a * (b * c)
  {
  }

  lemma {:induction false} CastProduct(a: nat, b: nat)
    ensures (a * b) as real == a as real * b as real
  {
  }

  /** The canonical spelling keeps the value. */
  lemma NormalValue(l: Literal)
    requires Grammatical(l)
    ensures Grammatical(Normal(l)) && Value(Normal(l)) == Value(l)
    ensures if Normal(l) == ZERO then Value(l) == 0.0
            else Digits(Significant(l)) && Value(l) == Signed(l.negative, Decimals(DigitsValue(Significant(l)), FinalExponent(l)))
  {
    hide DigitsValue, Power, Decimals, TrimLeft, TrimRight, Value, ExponentOf;
    NormalGrammatical(l);
    ValueOfDigits(l);
    ValueOfDigits(Normal(l));
    var all := l.whole + l.fraction;
    var t := TrimLeft(all);
    TrimLeftValue(all);
    if t == "" {
      ZeroDigits(all);
      DecimalsZero(ExponentValue(l.exponent) - |l.fraction|);
      DecimalsZero(0);
    } else {
      TrimRightValue(t);
      var d, k := Significant(l), |t| - |Significant(l)|;
      var e := ExponentValue(l.exponent) - |l.fraction|;
      assert Normal(l).whole + Normal(l).fraction == d;
      ExponentOfValue(e + k);
      DecimalsShift(DigitsValue(d), k, e);
    }
  }

  lemma ZeroDigits(all: string)
    requires Digits(all) && DigitsValue(all) == DigitsValue("")
    ensures DigitsValue(all) == 0 && DigitsValue("0" + "") == 0
  {
    assert "0" + "" == "0" && "0"[..0] == "";
  }

  lemma Regroup(d: nat, p: nat, x: real)
    ensures (d * p) as real * x == d as real * (p as real * x)
  {
    CastProduct(d, p);
  }

  // ---- One spelling per number ----

  lemma LastDigit(s: string)
    requires Digits(s) && s != "" && s[|s| - 1] != '0'
    ensures DigitsValue(s) % 10 != 0
  {
  }

  /** A number's significant digits and exponent are determined by it. */
  lemma DecimalsUnique(m: nat, i: int, n: nat, j: int)
    requires m % 10 != 0 && n % 10 != 0 && i >= j && Decimals(m, i) == Decimals(n, j)
    ensures m == n && i == j
  {
    hide Power, Scale;
    var k := i - j;
    DecimalsShift(m, k, j);
    assert j + k == i;
    SameFactor((m * Power(k)) as real, n as real, Scale(j));
    assert m * Power(k) == n;
    if k > 0 {
      PowerEven(m, k);
    } else {
      PowerZero();
    }
  }

  lemma SameFactor(x: real, y: real, z: real)
    requires z > 0.0 && x * z == y * z
    ensures x == y
  {
    assert (x - y) * z == 0.0;
  }

  lemma PowerEven(m: nat, k: nat)
    requires k > 0
    ensures (m * Power(k)) % 10 == 0
  {
    TenTimes(m, Power(k - 1));
  }

  lemma TenTimes(m: nat, p: nat)
    ensures (m * (10 * p)) % 10 == 0
  {
    var x := m * p;
    assert m * (10 * p) == 10 * x;
  }

  lemma PowerZero()
    ensures Power(0) == 1
  {
  }

  lemma SignificantShape(l: Literal)
    requires Grammatical(l) && Normal(l) != ZERO
    ensures var d := Significant(l);
            Digits(d) && d != "" && d[0] != '0' && DigitsValue(d) > 0 && DigitsValue(d) % 10 != 0
  {
    hide DigitsValue, Power, TrimLeft, TrimRight, ExponentOf;
    var all := l.whole + l.fraction;
    TrimLeftValue(all);
    TrimRightValue(TrimLeft(all));
    LastDigit(Significant(l));
  }

  lemma SignedUnique(p: bool, x: real, q: bool, y: real)
    requires x > 0.0 && y > 0.0 && Signed(p, x) == Signed(q, y)
    ensures p == q && x == y
  {
  }

  lemma NonzeroUnique(a: Literal, b: Literal)
    requires Grammatical(a) && Grammatical(b) && Value(a) == Value(b)
    requires Normal(a) != ZERO && Normal(b) != ZERO
    ensures a.negative == b.negative && Significant(a) == Significant(b) && FinalExponent(a) == FinalExponent(b)
  {
    hide DigitsValue, Decimals, Significant, FinalExponent, Value, Normal, Signed;
    NormalValue(a);
    NormalValue(b);
    SignificantShape(a);
    SignificantShape(b);
    var m, n, i, j := Significant(a), Significant(b), FinalExponent(a), FinalExponent(b);
    var x, y := DigitsValue(m), DigitsValue(n);
    DecimalsPositive(x, i);
    DecimalsPositive(y, j);
    SignedUnique(a.negative, Decimals(x, i), b.negative, Decimals(y, j));
    if i >= j {
      DecimalsUnique(x, i, y, j);
    } else {
      DecimalsUnique(y, j, x, i);
    }
    DigitsUnique(m, n);
  }

  lemma ZeroIffZero(l: Literal)
    requires Grammatical(l)
    ensures Normal(l) == ZERO <==> Value(l) == 0.0
  {
    hide DigitsValue, Decimals, Significant, FinalExponent, Value, Normal;
    NormalValue(l);
    if Normal(l) != ZERO {
      SignificantShape(l);
      DecimalsPositive(DigitsValue(Significant(l)), FinalExponent(l));
    }
  }

  lemma NormalUnique(a: Literal, b: Literal)
    requires Grammatical(a) && Grammatical(b) && Value(a) == Value(b)
    ensures Normal(a) == Normal(b)
  {
    hide TrimLeft, Significant, FinalExponent, Value, ExponentOf;
    ZeroIffZero(a);
    ZeroIffZero(b);
    if Normal(a) != ZERO {
      NonzeroUnique(a, b);
    }
  }

  /** Two accepted spellings are rewritten to the same text exactly when they denote the same number. */
  lemma SameTextIffSameNumber(a: Literal, b: Literal)
    requires Grammatical(a) && Grammatical(b)
    requires NumberText(Text(a)).Some? && NumberText(Text(b)).Some?
    ensures NumberText(Text(a)) == NumberText(Text(b)) <==> Value(a) == Value(b)
  {
    hide NumberText, Text, Value, Normal, Grammatical, InRange;
    NumberOfText(a);
    NumberOfText(b);
    NormalValue(a);
    NormalValue(b);
    if NumberText(Text(a)) == NumberText(Text(b)) {
      TextUnique(Normal(a), Normal(b));
    }
    if Value(a) == Value(b) {
      NormalUnique(a, b);
    }
  }

  /** The rewriting accepts exactly the exponents in range, and keeps the number. */
  lemma RewritingKeepsNumber(l: Literal)
    requires Grammatical(l)
    ensures NumberText(Text(l)).Some? <==> -16383 <= ExponentValue(l.exponent) <= 131072
    ensures NumberText(Text(l)).Some? ==>
              exists r :: Grammatical(r) && NumberText(Text(l)) == Some(Text(r)) && Value(r) == Value(l) && Plain(r)
  {
    NumberOfText(l);
    NormalValue(l);
    NormalPlain(l);
  }

  /** No fraction, no outer zeros, and an exponent only where there is one, written with a small e
      and no plus sign. */
  predicate Plain(r: Literal)
    requires Grammatical(r)
  {
    && r.fraction == ""
    && (r == Literal(false, "0", "", None) || (r.whole[0] != '0' && r.whole[|r.whole| - 1] != '0'))
    && match r.exponent
       case None => true
       case Some(x) => x.mark == 'e' && x.sign != "+" && x.digits[0] != '0'
  }

  lemma NormalPlain(l: Literal)
    requires Grammatical(l)
    ensures Grammatical(Normal(l)) && Plain(Normal(l))
  {
    hide DigitsValue, Power;
    NormalGrammatical(l);
    TrimLeftValue(l.whole + l.fraction);
    TrimRightValue(TrimLeft(l.whole + l.fraction));
    var e := FinalExponent(l);
    if e != 0 {
      LeadingDigit(if e < 0 then -e else e);
    }
  }

  lemma {:induction false} LeadingDigit(n: nat)
    requires n > 0
    ensures FormatNat(n)[0] != '0'
  {
  }

  predicate AllZero(l: Literal) {
    forall i :: 0 <= i < |l.whole + l.fraction| ==> (l.whole + l.fraction)[i] == '0'
  }

  lemma {:induction false} TrimLeftEmpty(s: string)
    ensures TrimLeft(s) == "" <==> forall i :: 0 <= i < |s| ==> s[i] == '0'
  {
    if s != "" && s[0] == '0' {
      TrimLeftEmpty(s[1..]);
      forall i | 0 < i < |s| ensures s[i] == s[1..][i - 1] {
      }
    }
  }

  lemma NormalInRange(l: Literal)
    requires Grammatical(l)
    ensures Grammatical(Normal(l)) && (InRange(Normal(l)) <==> AllZero(l) || -16383 <= FinalExponent(l) <= 131072)
  {
    hide TrimLeft, ExponentOf, Significant, FinalExponent, ExponentValue;
    NormalGrammatical(l);
    TrimLeftEmpty(l.whole + l.fraction);
    ExponentOfValue(FinalExponent(l));
    assert ExponentValue(None) == 0 by { ExponentOfValue(0); NoExponent(); }
  }

  lemma NoExponent()
    ensures ExponentOf(0) == None
  {
  }

  /** Rewriting an accepted number again changes nothing, exactly when all its digits are zero or
      its exponent over its significant digits is in range; otherwise the rewritten text is refused. */
  lemma IdempotentIffInRange(l: Literal)
    requires Grammatical(l) && NumberText(Text(l)).Some?
    ensures NumberText(NumberText(Text(l)).value) ==
            if AllZero(l) || -16383 <= FinalExponent(l) <= 131072 then NumberText(Text(l)) else None
  {
    hide NumberText, Text, Value, Normal, AllZero, FinalExponent;
    NumberOfText(l);
    NormalValue(l);
    NormalInRange(l);
    NumberOfText(Normal(l));
    NormalUnique(Normal(l), l);
  }

  /** An accepted number whose canonical spelling is refused: 1.5e-16383 becomes 15e-16384. */
  lemma NotIdempotent()
    ensures var l := Literal(false, "1", "5", Some(Exponent('e', "-", "16383")));
            && Grammatical(l) && Text(l) == "1.5e-16383"
            && NumberText(Text(l)) == Some("15e-16384") && NumberText("15e-16384") == None
  {
    hide NumberText, Normal;
    var l := Literal(false, "1", "5", Some(Exponent('e', "-", "16383")));
    var r := Literal(false, "15", "", Some(Exponent('e', "-", "16384")));
    SmallDigits();
    NormalOfSample(l, r);
    NumberOfText(l);
    NumberOfText(r);
    assert Text(l) == "1.5e-16383" && Text(r) == "15e-16384";
  }

  lemma NormalOfSample(l: Literal, r: Literal)
    requires l == Literal(false, "1", "5", Some(Exponent('e', "-", "16383")))
    requires r == Literal(false, "15", "", Some(Exponent('e', "-", "16384")))
    ensures Normal(l) == r
  {
    hide DigitsValue, FormatNat;
    SmallDigits();
    assert l.whole + l.fraction == "15" && TrimLeft("15") == "15" && TrimRight("15") == "15";
    assert FinalExponent(l) == -16384;
    FormatNatValue(16384);
    var n := FormatNat(16384);
    NotZeroText(n);
    DigitsUnique(n, "16384");
  }

  lemma NotZeroText(n: string)
    requires Digits(n) && n != "" && (|n| > 1 ==> n[0] != '0') && DigitsValue(n) > 0
    ensures n[0] != '0'
  {
    if |n| == 1 {
      assert n[..0] == "";
    }
  }

  lemma SmallDigits()
    ensures DigitsValue("16383") == 16383 && DigitsValue("16384") == 16384
  {
    assert "16383"[..4] == "1638" && "16384"[..4] == "1638" && "1638"[..3] == "163" && "163"[..2] == "16";
    assert "16"[..1] == "1" && "1"[..0] == "";
    assert DigitsValue("1") == 1 && DigitsValue("16") == 16 && DigitsValue("163") == 163 && DigitsValue("1638") == 1638;
  }
}
