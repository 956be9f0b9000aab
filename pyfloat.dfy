/** Python floats as far as `_fmt_number` meets them: `float(v)` of an int, a
    bool or a str holding an integer, `inf`, `infinity` or `nan`, and the
    fixed-point rendering `f"{x:.{nd}f}"` of the result. */
module PyFloat {
  import opened Wrappers
  import opened PyText

  /** A float value reached from an integer or from special text. Every
      `Integral` value is a double that happens to be an integer; `Integral(0)`
      is +0.0. */
  datatype Float =
    | Integral(n: int)
    | NegativeZero
    | Infinity(negative: bool)
    | NaN

  /** 2^53: every integer of at most this magnitude is a double. */
  const ExactLimit: nat := 0x20_0000_0000_0000

  /** 2^1024 - 2^970, halfway between the largest double (2^1024 - 2^971) and
      2^1024. An integer of at least this magnitude rounds to 2^1024, which is
      out of range: `float(n)` raises OverflowError, `float("<digits>")` gives
      infinity. */
  const OverflowThreshold: nat := 0xfffffffffffffc00_0000000000000000_0000000000000000_0000000000000000_0000000000000000_0000000000000000_0000000000000000_0000000000000000_0000000000000000_0000000000000000_0000000000000000_0000000000000000_0000000000000000_0000000000000000_0000000000000000_0000000000000000

  function Pow2(e: nat): (p: nat)
    ensures p >= 1
  {
    if e == 0 then 1 else 2 * Pow2(e - 1)
  }

  /** How many low bits of `m` do not fit in a 53-bit significand. */
  function Excess(m: nat): nat
    decreases m
  {
    if m < ExactLimit then 0 else 1 + Excess(m / 2)
  }

  /** `m` rounded to a multiple of `p`, half to an even multiple. */
  function RoundToMultiple(m: nat, p: nat): nat
    requires p >= 1
  {
    if 2 * (m % p) > p || (2 * (m % p) == p && (m / p) % 2 == 1) then (m / p + 1) * p else (m / p) * p
  }

  /** Rounding to a multiple of `p` gives one of the two multiples of `p`
      around `m`, within half of `p` of it, and at a tie the even one. */
  lemma RoundToMultipleNearest(m: nat, p: nat)
    requires p >= 1
    ensures var r := RoundToMultiple(m, p); r == (m / p) * p || r == (m / p + 1) * p
    ensures var r := RoundToMultiple(m, p); 2 * (if r >= m then r - m else m - r) <= p
    ensures var r := RoundToMultiple(m, p); 2 * (m % p) == p ==>
      (r == (m / p) * p && (m / p) % 2 == 0) || (r == (m / p + 1) * p && (m / p + 1) % 2 == 0)
  {
    DivisionParts(m, p);
    var lo, rest := (m / p) * p, m % p;
    assert m == lo + rest;
    if 2 * rest > p || (2 * rest == p && (m / p) % 2 == 1) {
      assert RoundToMultiple(m, p) == lo + p;
    } else {
      assert RoundToMultiple(m, p) == lo;
    }
  }

  /** The double nearest to `m`, ties to an even significand, ignoring range:
      `m` cut to 53 significant bits, rounded half to even. The result is one
      of the two multiples of the last kept bit around `m`, within half a unit
      of `m`, and at a tie the one whose significand is even. */
  function RoundMagnitude(m: nat): (r: nat)
    ensures var p := Pow2(Excess(m)); r == (m / p) * p || r == (m / p + 1) * p
    ensures 2 * (if r >= m then r - m else m - r) <= Pow2(Excess(m))
    ensures var p := Pow2(Excess(m)); 2 * (m % p) == p ==>
      (r == (m / p) * p && (m / p) % 2 == 0) || (r == (m / p + 1) * p && (m / p + 1) % 2 == 0)
  {
    RoundToMultipleNearest(m, Pow2(Excess(m)));
    RoundToMultiple(m, Pow2(Excess(m)))
  }

  /** `m` splits into a multiple of `p` and a remainder below `p`. */
  lemma DivisionParts(m: nat, p: nat)
    requires p >= 1
    ensures m == (m / p) * p + m % p && 0 <= m % p < p
    ensures (m / p + 1) * p == (m / p) * p + p
  {
  }

  function Abs(i: int): nat {
    if i < 0 then -i else i
  }

  /** `float(i)` for a Python int: the nearest double, or None when it
      raises OverflowError. */
  function IntToFloat(i: int): Option<Float> {
    var m := Abs(i);
    if m >= OverflowThreshold then None
    else
      var r: int := RoundMagnitude(m);
      Some(Integral(if i < 0 then -r else r))
  }

  function AsciiLower(c: char): char {
    if 'A' <= c <= 'Z' then (c as int + 32) as char else c
  }

  /** `t` is the lower-case word `w`, in any mix of cases. */
  predicate IsWord(t: string, w: string) {
    |t| == |w| && forall k :: 0 <= k < |t| ==> AsciiLower(t[k]) == w[k]
  }

  /** `float(s)` for a Python str holding an optionally signed integer in
      ASCII digits or one of the special words; None when it raises
      ValueError. A negative zero keeps its sign; digits beyond range give an
      infinity. */
  function TextToFloat(s: string): Option<Float> {
    var t := NumStrip(s);
    var negative := t != [] && t[0] == '-';
    var body := if t != [] && (t[0] == '+' || t[0] == '-') then t[1..] else t;
    if body != [] && AllDigits(body) then DigitsFloat(negative, DigitsValue(body))
    else SpecialWord(negative, body)
  }

  /** What `float()` makes of a run of digits of value `m` after the sign: the
      nearest double, a negative zero, or an infinity beyond range. */
  function DigitsFloat(negative: bool, m: nat): Option<Float> {
    if m >= OverflowThreshold then Some(Infinity(negative))
    else if !negative then Some(Integral(RoundMagnitude(m)))
    else if m == 0 then Some(NegativeZero)
    else
      var r: int := RoundMagnitude(m);
      Some(Integral(-r))
  }

  /** What `float()` makes of unsigned text that is not a run of digits: an
      infinity with the given sign, NaN, or None when it raises ValueError. */
  function SpecialWord(negative: bool, body: string): Option<Float> {
    if IsWord(body, "inf") || IsWord(body, "infinity") then Some(Infinity(negative))
    else if IsWord(body, "nan") then Some(NaN)
    else None
  }

  function Zeros(n: nat): (z: string)
    ensures |z| == n && forall k :: 0 <= k < n ==> z[k] == '0'
  {
    if n == 0 then "" else Zeros(n - 1) + "0"
  }

  /** `f"{float(n):.{nd}f}"` for an integral double `n`: its digits, then, when
      `nd > 0`, a point and `nd` zeros. */
  function FmtDec(n: int, nd: nat): string {
    IntText(n) + (if nd == 0 then "" else "." + Zeros(nd))
  }

  /** `f"{x:.{nd}f}"`. A negative zero keeps its sign; infinities and NaN
      print as words, without places. */
  function FormatFixed(x: Float, nd: nat): string {
    match x
    case Integral(n) => FmtDec(n, nd)
    case NegativeZero => "-" + FmtDec(0, nd)
    case Infinity(negative) => if negative then "-inf" else "inf"
    case NaN => "nan"
  }

  // ---------------------------------------------------------------- properties

  /** Integers up to 2^53 in magnitude convert exactly. */
  lemma RoundExact(i: int)
    requires Abs(i) <= ExactLimit
    ensures IntToFloat(i) == Some(Integral(i))
  {
    if Abs(i) == ExactLimit {
      assert Excess(ExactLimit) == 1 by {
        assert Excess(ExactLimit / 2) == 0;
      }
    }
  }

  /** 2^53 + 1 is the first integer that is not a double: it rounds down to 2^53. */
  lemma RoundAbove53()
    ensures IntToFloat(ExactLimit + 1) == Some(Integral(ExactLimit))
  {
    assert Excess(ExactLimit + 1) == 1 by {
      assert Excess((ExactLimit + 1) / 2) == 0;
    }
  }

  /** The bits of `m` that `RoundMagnitude` keeps fit a 53-bit significand:
      with its first ensures, the result is `k * 2^Excess(m)` for some
      `k <= 2^53`, which is a double. */
  lemma {:induction false} SignificandFits(m: nat)
    ensures m / Pow2(Excess(m)) < ExactLimit
    decreases m
  {
    if m >= ExactLimit {
      SignificandFits(m / 2);
      HalveQuotient(m, Pow2(Excess(m / 2)));
    }
  }

  /** Halving and then dividing by `p` is dividing by `2 * p`. */
  lemma HalveQuotient(m: nat, p: nat)
    requires p >= 1
    ensures m / (2 * p) == (m / 2) / p
  {
    var a := m / 2;
    var b := a / p;
    DivisionParts(a, p);
    assert m == b * (2 * p) + (2 * (a % p) + m % 2);
    DivUnique(m, 2 * p, b, 2 * (a % p) + m % 2);
  }

  /** The quotient is the only factor that leaves a remainder below the divisor. */
  lemma DivUnique(n: nat, d: nat, q: nat, rest: nat)
    requires d >= 1 && n == q * d + rest && rest < d
    ensures n / d == q
  {
    DivisionParts(n, d);
    var q' := n / d;
    if q' > q {
      MulMono(q + 1, q', d);
    } else if q' < q {
      MulMono(q' + 1, q, d);
    }
  }

  lemma MulMono(a: nat, b: nat, d: nat)
    requires a <= b
    ensures a * d <= b * d
  {
    assert b * d == a * d + (b - a) * d;
  }

  /** The rendering of an integral value: its digits, then, when `nd > 0`, a
      point and exactly `nd` zeros. */
  lemma FmtDecShape(n: int, nd: nat)
    ensures var r := FmtDec(n, nd);
      && r[..|IntText(n)|] == IntText(n)
      && |r| == |IntText(n)| + (if nd == 0 then 0 else nd + 1)
      && (nd > 0 ==> r[|IntText(n)|] == '.' && forall k :: |IntText(n)| < k < |r| ==> r[k] == '0')
  {
    var t := IntText(n);
    var tail := if nd == 0 then "" else "." + Zeros(nd);
    var r := t + tail;
    assert r[..|t|] == t;
    if nd > 0 {
      forall k | |t| < k < |r|
        ensures r[k] == '0'
      {
        assert r[k] == tail[k - |t|] == Zeros(nd)[k - |t| - 1];
      }
    }
  }

  /** `float("-0")` is a negative zero. */
  lemma NegativeZeroText()
    ensures TextToFloat("-0") == Some(NegativeZero)
  {
    assert NumStrip("-0") == "-0";
    assert "-0"[1..] == "0";
    assert DigitsValue("0") == 0 by {
      assert "0"[..0] == "";
    }
  }

  /** ASCII letters and the minus sign are not whitespace. */
  lemma LettersNoSpace(t: string)
    requires forall k :: 0 <= k < |t| ==> 'A' <= t[k] <= 'z' || t[k] == '-'
    ensures NoSpace(t)
  {
  }

  /** `float()` of unsigned text that is not a number reads the special words. */
  lemma WordFloat(t: string)
    requires NoSpace(t) && t != [] && !IsDigit(t[0]) && t[0] != '+' && t[0] != '-'
    ensures IsWord(t, "inf") ==> TextToFloat(t) == Some(Infinity(false))
    ensures IsWord(t, "nan") ==> TextToFloat(t) == Some(NaN)
  {
    NumStripNoSpace(t);
    assert !AllDigits(t);
    assert TextToFloat(t) == SpecialWord(false, t);
    if IsWord(t, "nan") {
      assert AsciiLower(t[0]) == 'n';
    }
  }

  /** `float("inf")` is positive infinity. */
  lemma InfinityText()
    ensures TextToFloat("inf") == Some(Infinity(false))
  {
    var t := "inf";
    assert IsWord(t, t) by {
      assert forall k :: 0 <= k < |t| ==> AsciiLower(t[k]) == t[k];
    }
    LettersNoSpace(t);
    WordFloat(t);
  }

  /** `float()` of negated text that is not a number reads the special words
      with their sign. */
  lemma NegatedWordFloat(t: string)
    requires NoSpace(t) && |t| >= 2 && t[0] == '-' && !IsDigit(t[1])
    ensures IsWord(t[1..], "infinity") ==> TextToFloat(t) == Some(Infinity(true))
  {
    NumStripNoSpace(t);
    var body := t[1..];
    assert !AllDigits(body);
    assert TextToFloat(t) == SpecialWord(true, body);
  }

  /** `float` reads the words in any case: `float("-Infinity")` is negative
      infinity. */
  lemma NegativeInfinityText()
    ensures TextToFloat("-Infinity") == Some(Infinity(true))
  {
    var t := "-Infinity";
    var body := t[1..];
    assert body == "Infinity";
    assert IsWord(body, "infinity") by {
      assert AsciiLower(body[0]) == 'i';
      assert forall k :: 1 <= k < |body| ==> AsciiLower(body[k]) == body[k];
    }
    LettersNoSpace(t);
    NegatedWordFloat(t);
  }

  /** `float("nan")` is NaN. */
  lemma NanText()
    ensures TextToFloat("nan") == Some(NaN)
  {
    var t := "nan";
    assert IsWord(t, t) by {
      assert forall k :: 0 <= k < |t| ==> AsciiLower(t[k]) == t[k];
    }
    LettersNoSpace(t);
    WordFloat(t);
  }
}
