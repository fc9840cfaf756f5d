/** Percentile specs: `parse_percentile_spec` of src/main.rs. */
module Percentile {
  import opened Basics
  import opened Decimal

  /** A quantile is the fraction `num / den`. */
  datatype Spec = Max | Mean | Quantile(name: string, num: nat, den: nat)

  datatype Error = NoDigits | TooManyDigits | NotANumber | PowerOverflow | OutOfRange | UnknownSpec

  datatype Result = Ok(spec: Spec) | Err(error: Error)

  const U64_LIMIT := 0x1_0000_0000_0000_0000
  const MAX_DIGITS := 15

  function Pow10(k: nat): (p: nat)
    ensures p > 0
  {
    if k == 0 then 1 else 10 * Pow10(k - 1)
  }

  /** The digits of a numeral; Rust's integer parser lets one `+` stand before them. */
  function Numeral(s: string): string {
    if s != [] && s[0] == '+' then s[1..] else s
  }

  /** `str::parse::<u64>`. */
  function ParseU64(s: string): Option<nat> {
    var ds := Numeral(s);
    if ds == [] || !AllDigits(ds) then None
    else if Parse(ds) >= U64_LIMIT then None
    else Some(Parse(ds))
  }

  function CheckedPow10(k: nat): Option<nat> {
    if Pow10(k) >= U64_LIMIT then None else Some(Pow10(k))
  }

  function ParseSpec(s: string): Result {
    if s == "max" then Ok(Max)
    else if s == "mean" then Ok(Mean)
    else if s != [] && s[0] == 'p' then
      var digits := s[1..];
      if digits == [] then Err(NoDigits)
      else if |digits| > MAX_DIGITS then Err(TooManyDigits)
      else match ParseU64(digits)
        case None => Err(NotANumber)
        case Some(n) =>
          match CheckedPow10(|digits|)
          case None => Err(PowerOverflow)
          case Some(divisor) =>
            if 0 < n && n <= divisor then Ok(Quantile(s, n, divisor)) else Err(OutOfRange)
    else Err(UnknownSpec)
  }

  lemma {:induction false} Pow10Monotone(j: nat, k: nat)
    requires j <= k
    ensures Pow10(j) <= Pow10(k)
  {
    if j == k {
    } else {
      Pow10Monotone(j, k - 1);
    }
  }

  lemma {:induction false} ParseBound(s: string)
    requires AllDigits(s)
    ensures Parse(s) < Pow10(|s|)
  {
    if s == [] {
    } else {
      ParseBound(s[..|s| - 1]);
    }
  }

  /** A digit string is worth something as soon as one digit is. */
  lemma {:induction false} ParsePositive(s: string)
    requires AllDigits(s)
    ensures Parse(s) > 0 <==> exists i :: 0 <= i < |s| && s[i] != '0'
  {
    if s == [] {
    } else {
      var t := s[..|s| - 1];
      ParsePositive(t);
      if i :| 0 <= i < |t| && t[i] != '0' {
        assert s[i] != '0';
      }
      if i :| 0 <= i < |s| && s[i] != '0' {
        assert i < |t| ==> t[i] != '0';
      }
    }
  }

  /** A non-zero digit string of at most 15 characters, with or without a leading plus. */
  ghost predicate IsQuantileBody(digits: string) {
    && 1 <= |digits| <= 15
    && AllDigits(Numeral(digits))
    && exists i :: 0 <= i < |Numeral(digits)| && Numeral(digits)[i] != '0'
  }

  lemma SmallPowers(k: nat)
    requires k <= MAX_DIGITS
    ensures Pow10(k) <= 1_000_000_000_000_000 < U64_LIMIT
  {
    Pow10Monotone(k, 15);
    assert Pow10(5) == 100_000;
    assert Pow10(10) == 10_000_000_000;
    assert Pow10(15) == 1_000_000_000_000_000;
  }

  /**
    Exactly which specs are accepted. An accepted quantile is the numeral over a power of
    ten that does not overflow, strictly between 0 and 1.
    */
  lemma {:induction false} AcceptedSpecs(s: string)
    ensures ParseSpec(s).Ok? <==> s == "max" || s == "mean" || (s != [] && s[0] == 'p' && IsQuantileBody(s[1..]))
    ensures ParseSpec(s).Ok? && ParseSpec(s).spec.Quantile? ==>
              var q := ParseSpec(s).spec;
              && q.name == s && q.den == Pow10(|s| - 1) < U64_LIMIT
              && AllDigits(Numeral(s[1..])) && q.num == Parse(Numeral(s[1..]))
              && 0 < q.num < q.den
  {
    if s != [] && s[0] == 'p' && 1 <= |s[1..]| <= MAX_DIGITS {
      var digits := s[1..];
      SmallPowers(|digits|);
      if AllDigits(Numeral(digits)) {
        ParseBound(Numeral(digits));
        Pow10Monotone(|Numeral(digits)|, |digits|);
        ParsePositive(Numeral(digits));
      }
    }
  }

  /** The two names that are no quantiles, and nothing else, mean what they say. */
  lemma NamedSpecs(s: string)
    ensures ParseSpec(s) == Ok(Max) <==> s == "max"
    ensures ParseSpec(s) == Ok(Mean) <==> s == "mean"
  {
  }

  // ---- Quantiles as decimal fractions ----------------------------------------------

  predicate Below(p: Spec, q: Spec)
    requires p.Quantile? && q.Quantile?
  {
    p.num * q.den < q.num * p.den
  }

  predicate SameQuantile(p: Spec, q: Spec)
    requires p.Quantile? && q.Quantile?
  {
    p.num * q.den == q.num * p.den
  }

  predicate IsQuantile(r: Result) { r.Ok? && r.spec.Quantile? }

  /** The digit string after the `p`, when there is no plus sign. */
  ghost predicate PlainBody(s: string) {
    s != [] && s[0] == 'p' && AllDigits(s[1..])
  }

  lemma ParseAppend(s: string, c: char)
    requires AllDigits(s) && IsDigit(c)
    ensures AllDigits(s + [c]) && Parse(s + [c]) == 10 * Parse(s) + DigitValue(c)
  {
    assert (s + [c])[..|s|] == s;
  }

  lemma AnotherDigitParses(s: string, c: char)
    requires IsQuantile(ParseSpec(s)) && |s| <= MAX_DIGITS && IsDigit(c)
    ensures IsQuantile(ParseSpec(s + [c]))
    ensures var p, q := ParseSpec(s).spec, ParseSpec(s + [c]).spec;
            p.den > 0 && q.den == 10 * p.den && q.num == 10 * p.num + DigitValue(c)
  {
    AcceptedSpecs(s);
    AcceptedSpecs(s + [c]);
    assert (s + [c])[1..] == s[1..] + [c];
    BodyDigit(s[1..], c);
  }

  lemma BodyDigit(body: string, c: char)
    requires IsQuantileBody(body) && |body| < MAX_DIGITS && IsDigit(c)
    ensures IsQuantileBody(body + [c])
    ensures Parse(Numeral(body + [c])) == 10 * Parse(Numeral(body)) + DigitValue(c)
  {
    var ds := Numeral(body);
    assert Numeral(body + [c]) == ds + [c];
    ParseAppend(ds, c);
    var i :| 0 <= i < |ds| && ds[i] != '0';
    assert (ds + [c])[i] != '0';
  }

  /** One more digit: a zero keeps the quantile, any other digit raises it. */
  lemma AnotherDigit(s: string, c: char)
    requires IsQuantile(ParseSpec(s)) && |s| <= MAX_DIGITS && IsDigit(c)
    ensures IsQuantile(ParseSpec(s + [c]))
    ensures c == '0' <==> SameQuantile(ParseSpec(s).spec, ParseSpec(s + [c]).spec)
    ensures c != '0' <==> Below(ParseSpec(s).spec, ParseSpec(s + [c]).spec)
  {
    AnotherDigitParses(s, c);
    var p := ParseSpec(s).spec;
    FractionDigit(p.num, p.den, DigitValue(c));
  }

  /** (10 n + x) / (10 d) against n / d. */
  lemma FractionDigit(n: nat, d: nat, x: nat)
    requires d > 0
    ensures x == 0 <==> n * (10 * d) == (10 * n + x) * d
    ensures x > 0 <==> n * (10 * d) < (10 * n + x) * d
  {
    assert (10 * n + x) * d == n * (10 * d) + x * d;
    if x > 0 {
      MulGap(0, x, d);
    }
  }

  /** Strict lexicographic order of equally long strings. */
  predicate LexLess(a: string, b: string)
    requires |a| == |b|
  {
    |a| > 0 &&
    (LexLess(a[..|a| - 1], b[..|b| - 1]) || (a[..|a| - 1] == b[..|b| - 1] && a[|a| - 1] < b[|b| - 1]))
  }

  /** Which is the usual one: they agree up to some position, and there `a` is smaller. */
  lemma {:induction false} LexLessMeans(a: string, b: string)
    requires |a| == |b|
    ensures LexLess(a, b) <==> exists k :: 0 <= k < |a| && a[..k] == b[..k] && a[k] < b[k]
  {
    if |a| == 0 {
    } else {
      var a', b' := a[..|a| - 1], b[..|b| - 1];
      LexLessMeans(a', b');
      if k :| 0 <= k < |a'| && a'[..k] == b'[..k] && a'[k] < b'[k] {
        assert a[..k] == a'[..k] && b[..k] == b'[..k];
        assert a[..k] == b[..k] && a[k] < b[k];
      }
      if k :| 0 <= k < |a| && a[..k] == b[..k] && a[k] < b[k] {
        if k < |a'| {
          assert a'[..k] == a[..k] && b'[..k] == b[..k];
        }
      }
    }
  }

  /** The last digit decides only between equal heads. */
  lemma LastDigit(x: nat, y: nat, c: nat, d: nat)
    requires c < 10 && d < 10
    ensures 10 * x + c < 10 * y + d <==> x < y || (x == y && c < d)
    ensures 10 * x + c == 10 * y + d <==> x == y && c == d
  {
  }

  lemma {:induction false} LexIsNumeric(a: string, b: string)
    requires |a| == |b| && AllDigits(a) && AllDigits(b)
    ensures LexLess(a, b) <==> Parse(a) < Parse(b)
    ensures a == b <==> Parse(a) == Parse(b)
  {
    if |a| == 0 {
    } else {
      var a', b', c, d := a[..|a| - 1], b[..|b| - 1], a[|a| - 1], b[|b| - 1];
      LexIsNumeric(a', b');
      LastDigit(Parse(a'), Parse(b'), DigitValue(c), DigitValue(d));
      assert a == a' + [c] && b == b' + [d];
    }
  }

  function Pad(s: string, k: nat): (t: string)
    ensures |t| == |s| + k
  {
    if k == 0 then s else Pad(s, k - 1) + ['0']
  }

  /** `n` with `k` zeros appended. */
  function Scale(n: nat, k: nat): nat {
    if k == 0 then n else 10 * Scale(n, k - 1)
  }

  lemma {:induction false} PadScales(s: string, k: nat)
    requires AllDigits(s)
    ensures AllDigits(Pad(s, k)) && Parse(Pad(s, k)) == Scale(Parse(s), k)
  {
    if k == 0 {
    } else {
      PadScales(s, k - 1);
      ParseAppend(Pad(s, k - 1), '0');
    }
  }

  lemma {:induction false} ScaleIsProduct(n: nat, k: nat)
    ensures Scale(n, k) == n * Pow10(k)
  {
    if k == 0 {
    } else {
      ScaleIsProduct(n, k - 1);
      MulTen(n, Pow10(k - 1));
    }
  }

  lemma MulTen(a: nat, b: nat)
    ensures a * (10 * b) == 10 * (a * b)
  {
  }

  lemma {:induction false} ScaleAdd(n: nat, d: nat, e: nat)
    ensures Scale(Scale(n, d), e) == Scale(n, d + e)
  {
    if e == 0 {
    } else {
      ScaleAdd(n, d, e - 1);
    }
  }

  lemma {:induction false} ScaleOrder(x: nat, y: nat, e: nat)
    ensures x < y <==> Scale(x, e) < Scale(y, e)
    ensures x == y <==> Scale(x, e) == Scale(y, e)
  {
    if e == 0 {
    } else {
      ScaleOrder(x, y, e - 1);
    }
  }

  lemma ScaleShift(n: nat, m: nat, a: nat, k: nat, d: nat)
    ensures Scale(n, d + a) < Scale(m, a) <==> Scale(n, d + k) < Scale(m, k)
    ensures Scale(n, d + a) == Scale(m, a) <==> Scale(n, d + k) == Scale(m, k)
    ensures Scale(m, a) < Scale(n, d + a) <==> Scale(m, k) < Scale(n, d + k)
  {
    var x := Scale(n, d);
    ScaleAdd(n, d, a);
    ScaleAdd(n, d, k);
    ScaleOrder(x, m, a);
    ScaleOrder(x, m, k);
  }

  /** n / 10^a against m / 10^b is n 10^j against m 10^k when a + j = b + k. */
  lemma {:induction false} ScaleCross(n: nat, m: nat, a: nat, b: nat, j: nat, k: nat)
    requires a + j == b + k
    ensures Scale(n, b) < Scale(m, a) <==> Scale(n, j) < Scale(m, k)
    ensures Scale(n, b) == Scale(m, a) <==> Scale(n, j) == Scale(m, k)
  {
    if j >= k {
      var d := j - k;
      assert b == d + a && j == d + k;
      ScaleShift(n, m, a, k, d);
    } else {
      var d := k - j;
      assert a == d + b && k == d + j;
      ScaleShift(m, n, b, j, d);
    }
  }

  lemma CompareByScale(p: Spec, q: Spec, a: nat, b: nat)
    requires p.Quantile? && q.Quantile? && p.den == Pow10(a) && q.den == Pow10(b)
    ensures Below(p, q) <==> Scale(p.num, b) < Scale(q.num, a)
    ensures SameQuantile(p, q) <==> Scale(p.num, b) == Scale(q.num, a)
  {
    ScaleIsProduct(p.num, b);
    ScaleIsProduct(q.num, a);
  }

  /**
    Quantiles are ordered as their digit strings are, once padded with zeros to 15 digits:
    "p5" and "p50" are the same, "p50" < "p999" < "p9999".
    */
  lemma QuantileOrderIsDigitOrder(s: string, t: string)
    requires IsQuantile(ParseSpec(s)) && IsQuantile(ParseSpec(t)) && PlainBody(s) && PlainBody(t)
    ensures |s| <= 16 && |t| <= 16
    ensures Below(ParseSpec(s).spec, ParseSpec(t).spec)
       <==> LexLess(Pad(s[1..], 16 - |s|), Pad(t[1..], 16 - |t|))
    ensures SameQuantile(ParseSpec(s).spec, ParseSpec(t).spec)
       <==> Pad(s[1..], 16 - |s|) == Pad(t[1..], 16 - |t|)
  {
    QuantileOf(s);
    QuantileOf(t);
    DigitOrder(ParseSpec(s).spec, ParseSpec(t).spec, s[1..], t[1..], 16 - |s|, 16 - |t|);
  }

  lemma QuantileOf(s: string)
    requires IsQuantile(ParseSpec(s)) && PlainBody(s)
    ensures 2 <= |s| <= 16 && AllDigits(s[1..])
    ensures var q := ParseSpec(s).spec; q.num == Parse(s[1..]) && q.den == Pow10(|s[1..]|)
  {
    AcceptedSpecs(s);
    assert Numeral(s[1..]) == s[1..];
  }

  lemma DigitOrder(p: Spec, q: Spec, a: string, b: string, j: nat, k: nat)
    requires p.Quantile? && q.Quantile? && AllDigits(a) && AllDigits(b) && |a| + j == |b| + k
    requires p.num == Parse(a) && p.den == Pow10(|a|) && q.num == Parse(b) && q.den == Pow10(|b|)
    ensures Below(p, q) <==> LexLess(Pad(a, j), Pad(b, k))
    ensures SameQuantile(p, q) <==> Pad(a, j) == Pad(b, k)
  {
    CompareByScale(p, q, |a|, |b|);
    PadScales(a, j);
    PadScales(b, k);
    LexIsNumeric(Pad(a, j), Pad(b, k));
    ScaleCross(Parse(a), Parse(b), |a|, |b|, j, k);
  }

  lemma MulOrder(x: nat, y: nat, f: nat)
    requires f > 0
    ensures x < y <==> x * f < y * f
    ensures x == y <==> x * f == y * f
  {
    if x < y {
      MulGap(x, y, f);
    } else if y < x {
      MulGap(y, x, f);
    }
  }

  /** An accepted body makes a quantile of its numeral. */
  lemma BodyMakesQuantile(s: string)
    requires s != [] && s[0] == 'p' && IsQuantileBody(s[1..])
    ensures IsQuantile(ParseSpec(s))
    ensures var q := ParseSpec(s).spec; q.num == Parse(Numeral(s[1..])) > 0 && q.den == Pow10(|s| - 1)
  {
    AcceptedSpecs(s);
  }

  lemma TenfoldDenominator(p: Spec, q: Spec)
    requires p.Quantile? && q.Quantile? && q.num == p.num > 0 && q.den == 10 * p.den && p.den > 0
    ensures Below(q, p)
  {
    MulOrder(p.den, 10 * p.den, p.num);
  }

  /** A plus sign passes the parser but counts as a digit: "p+5" is the 5th percentile, "p5" the 50th. */
  lemma PlusSignShiftsTheQuantile(s: string)
    requires IsQuantile(ParseSpec(s)) && PlainBody(s) && |s| <= MAX_DIGITS
    ensures var t := "p+" + s[1..];
            IsQuantile(ParseSpec(t)) && Below(ParseSpec(t).spec, ParseSpec(s).spec)
            && ParseSpec(t).spec.num == ParseSpec(s).spec.num && ParseSpec(t).spec.den == 10 * ParseSpec(s).spec.den
  {
    var t := "p+" + s[1..];
    assert t[1..] == "+" + s[1..];
    AcceptedSpecs(s);
    PlusBody(s[1..]);
    BodyMakesQuantile(s);
    BodyMakesQuantile(t);
    TenfoldDenominator(ParseSpec(s).spec, ParseSpec(t).spec);
  }

  lemma PlusBody(body: string)
    requires IsQuantileBody(body) && AllDigits(body) && |body| < MAX_DIGITS
    ensures IsQuantileBody("+" + body) && Numeral("+" + body) == body == Numeral(body)
  {
    assert ("+" + body)[1..] == body;
  }
}
