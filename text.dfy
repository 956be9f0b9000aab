/** The few pieces of Python's string and integer behaviour the bot relies on:
    `str.isspace`, `str.strip`, `str.split()`, `str(int)` and `int(str)`. */
module PyText {
  import opened Wrappers

  /** Python's `str.isspace()` for a single character (also what `\s` matches in
      a `re` pattern over text). */
  predicate IsSpace(c: char) {
    c == ' ' || c == '\t' || c == '\n' || c == '\r' || c == '\U{000B}' || c == '\U{000C}'
    || ('\U{001C}' <= c <= '\U{001F}') || c == '\U{0085}' || c == '\U{00A0}' || c == '\U{1680}'
    || ('\U{2000}' <= c <= '\U{200A}') || c == '\U{2028}' || c == '\U{2029}'
    || c == '\U{202F}' || c == '\U{205F}' || c == '\U{3000}'
  }

  predicate NoSpace(s: string) {
    forall k :: 0 <= k < |s| ==> !IsSpace(s[k])
  }

  predicate AllSpace(s: string) {
    forall k :: 0 <= k < |s| ==> IsSpace(s[k])
  }

  predicate IsDigit(c: char) {
    '0' <= c <= '9'
  }

  predicate AllDigits(s: string) {
    forall k :: 0 <= k < |s| ==> IsDigit(s[k])
  }

  // ---------------------------------------------------------------- strip

  function LStrip(s: string): (r: string)
    ensures |r| <= |s| && r == s[|s| - |r|..]
    ensures r == [] || !IsSpace(r[0])
    ensures AllSpace(s[..|s| - |r|])
  {
    if s != [] && IsSpace(s[0]) then LStrip(s[1..]) else s
  }

  function RStrip(s: string): (r: string)
    ensures |r| <= |s| && r == s[..|r|]
    ensures r == [] || !IsSpace(r[|r| - 1])
    ensures AllSpace(s[|r|..])
  {
    if s != [] && IsSpace(s[|s| - 1]) then RStrip(s[..|s| - 1]) else s
  }

  /** `s.strip()`: `s` without its leading and trailing whitespace. */
  function Strip(s: string): string {
    RStrip(LStrip(s))
  }

  /** The stripped text is empty exactly when the text is all whitespace, and
      otherwise it starts and ends with a non-space character. */
  lemma StripEmpty(s: string)
    ensures Strip(s) == [] <==> AllSpace(s)
    ensures Strip(s) != [] ==> !IsSpace(Strip(s)[0]) && !IsSpace(Strip(s)[|Strip(s)| - 1])
  {
    var l := LStrip(s);
    var r := RStrip(l);
    if r == [] {
      assert l[|r|..] == l;
      assert s[..|s| - |l|] == s;
    } else {
      assert r[0] == l[0];
      assert !IsSpace(s[|s| - |l|]);
    }
  }

  /** Text without any whitespace is left as it is by `strip()`. */
  lemma StripNoSpace(s: string)
    requires NoSpace(s)
    ensures Strip(s) == s
  {
    assert s == [] || !IsSpace(s[0]);
    assert LStrip(s) == s;
    assert s == [] || !IsSpace(s[|s| - 1]);
  }

  // ---------------------------------------------------------------- split

  /** The length of the run of non-space characters that `s` starts with. */
  function WordLength(s: string): (n: nat)
    ensures n <= |s|
    ensures NoSpace(s[..n])
    ensures n == |s| || IsSpace(s[n])
  {
    if s == [] || IsSpace(s[0]) then 0 else 1 + WordLength(s[1..])
  }

  /** `s.split()` with no separator: the maximal runs of non-space characters, in order. */
  function Split(s: string): seq<string>
    decreases |s|
  {
    if s == [] then []
    else if IsSpace(s[0]) then Split(s[1..])
    else
      var n := WordLength(s);
      [s[..n]] + Split(s[n..])
  }

  /** Every word `split()` gives is non-empty and holds no whitespace. */
  lemma {:induction false} SplitWords(s: string)
    ensures forall k :: 0 <= k < |Split(s)| ==> Split(s)[k] != [] && NoSpace(Split(s)[k])
    decreases |s|
  {
    if s == [] {
    } else if IsSpace(s[0]) {
      SplitWords(s[1..]);
    } else {
      var n := WordLength(s);
      SplitWords(s[n..]);
      assert Split(s) == [s[..n]] + Split(s[n..]);
    }
  }

  /** `split()` finds a word exactly when the text is not all whitespace, and for a
      text that starts with a non-space character the first word is its leading run. */
  lemma {:induction false} SplitFirst(s: string)
    ensures Split(s) != [] <==> !AllSpace(s)
    ensures s != [] && !IsSpace(s[0]) ==> Split(s) != [] && Split(s)[0] == s[..WordLength(s)]
    decreases |s|
  {
    if s == [] {
    } else if IsSpace(s[0]) {
      SplitFirst(s[1..]);
      if !AllSpace(s) {
        var k :| 0 <= k < |s| && !IsSpace(s[k]);
        assert s[1..][k - 1] == s[k];
      }
      if !AllSpace(s[1..]) {
        var k :| 0 <= k < |s[1..]| && !IsSpace(s[1..][k]);
        assert s[k + 1] == s[1..][k];
      }
    } else {
    }
  }

  /** The first word of a text that has one (Python `text.split()[0]`). */
  function FirstWord(s: string): (w: string)
    requires !AllSpace(s)
    ensures w != [] && NoSpace(w)
  {
    SplitFirst(s);
    SplitWords(s);
    Split(s)[0]
  }

  // ---------------------------------------------------------------- str(int)

  function DigitChar(d: int): (c: char)
    requires 0 <= d < 10
    ensures IsDigit(c)
  {
    (48 + d) as char
  }

  function DigitValue(c: char): (d: nat)
    requires IsDigit(c)
    ensures d < 10
  {
    (c as int) - 48
  }

  /** The decimal digits of `n`, without leading zeros. */
  function NatText(n: nat): (s: string)
    ensures s != [] && AllDigits(s)
    decreases n
  {
    if n < 10 then [DigitChar(n)] else NatText(n / 10) + [DigitChar(n % 10)]
  }

  /** `str(i)` for a Python int. */
  function IntText(i: int): (s: string)
    ensures s != [] && NoSpace(s)
  {
    if i < 0 then "-" + NatText(-i) else NatText(i)
  }

  /** Python's `str(n)` never starts with a superfluous zero. */
  lemma {:induction false} NatTextCanonical(n: nat)
    ensures NatText(n)[0] == '0' <==> n == 0
    decreases n
  {
    if n >= 10 {
      NatTextCanonical(n / 10);
    }
  }

  // ---------------------------------------------------------------- int(str)

  /** The value of a run of decimal digits, leading zeros allowed. */
  function DigitsValue(s: string): nat
    requires AllDigits(s)
    decreases |s|
  {
    if s == [] then 0 else DigitsValue(s[..|s| - 1]) * 10 + DigitValue(s[|s| - 1])
  }

  /** The whitespace `int()` and `float()` skip around a number: `isspace()`
      without the four separators U+001C..U+001F, which `str.strip()` and
      `str.split()` do treat as whitespace. */
  predicate IsNumSpace(c: char) {
    IsSpace(c) && !('\U{001C}' <= c <= '\U{001F}')
  }

  function NumLStrip(s: string): (r: string)
    ensures |r| <= |s| && r == s[|s| - |r|..]
    ensures r == [] || !IsNumSpace(r[0])
    ensures forall k :: 0 <= k < |s| - |r| ==> IsNumSpace(s[k])
  {
    if s != [] && IsNumSpace(s[0]) then NumLStrip(s[1..]) else s
  }

  function NumRStrip(s: string): (r: string)
    ensures |r| <= |s| && r == s[..|r|]
    ensures r == [] || !IsNumSpace(r[|r| - 1])
    ensures forall k :: |r| <= k < |s| ==> IsNumSpace(s[k])
  {
    if s != [] && IsNumSpace(s[|s| - 1]) then NumRStrip(s[..|s| - 1]) else s
  }

  /** The text of a number without the whitespace `int()` and `float()` skip. */
  function NumStrip(s: string): string {
    NumRStrip(NumLStrip(s))
  }

  /** Text without any whitespace is a number's text as it stands. */
  lemma NumStripNoSpace(s: string)
    requires NoSpace(s)
    ensures NumStrip(s) == s
  {
    assert s == [] || !IsNumSpace(s[0]);
    assert NumLStrip(s) == s;
    assert s == [] || !IsNumSpace(s[|s| - 1]);
  }

  /** An optionally signed run of one or more ASCII digits, and its value. */
  function SignedDigits(t: string): Option<int> {
    if t == [] then None
    else if t[0] == '+' || t[0] == '-' then
      if |t| >= 2 && AllDigits(t[1..]) then
        var v: int := DigitsValue(t[1..]);
        Some(if t[0] == '-' then -v else v)
      else None
    else if AllDigits(t) then Some(DigitsValue(t))
    else None
  }

  /** `int(s)` for a Python str: optional surrounding whitespace, an optional
      sign, then one or more ASCII digits; anything else raises ValueError (None). */
  function ParseInt(s: string): Option<int> {
    SignedDigits(NumStrip(s))
  }

  lemma {:induction false} DigitsOfNatText(n: nat)
    ensures DigitsValue(NatText(n)) == n
    decreases n
  {
    if n >= 10 {
      DigitsOfNatText(n / 10);
      var s := NatText(n / 10) + [DigitChar(n % 10)];
      assert s[..|s| - 1] == NatText(n / 10);
    }
  }

  /** `int(str(i)) == i`: the decimal text of an integer parses back to it. */
  lemma ParseIntText(i: int)
    ensures ParseInt(IntText(i)) == Some(i)
  {
    NumStripNoSpace(IntText(i));
    if i < 0 {
      var t := IntText(i);
      assert t[1..] == NatText(-i);
      DigitsOfNatText(-i);
    } else {
      DigitsOfNatText(i);
    }
  }

  /** Text without a single decimal digit is never an integer. */
  lemma ParseIntNeedsDigit(s: string)
    requires forall k :: 0 <= k < |s| ==> !IsDigit(s[k])
    ensures ParseInt(s) == None
  {
    var l := NumLStrip(s);
    var t := NumStrip(s);
    if t != [] {
      assert t[0] == l[0] == s[|s| - |l|];
      if |t| >= 2 {
        assert t[1] == l[1] == s[|s| - |l| + 1];
      }
    }
  }

  /** A number may be preceded by a space: `int(" 5")` is 5. */
  lemma ParseIntAfterSpace(i: int)
    ensures ParseInt(" " + IntText(i)) == Some(i)
  {
    var x := IntText(i);
    assert (" " + x)[1..] == x;
    assert NumLStrip(" " + x) == NumLStrip(x);
    NumStripNoSpace(x);
    assert NumStrip(" " + x) == NumStrip(x);
    ParseIntText(i);
  }

  /** A separator character is not skipped: `int("\x1c5")` raises ValueError. */
  lemma ParseIntAfterSeparator(c: char, t: string)
    requires '\U{001C}' <= c <= '\U{001F}'
    ensures ParseInt([c] + t) == None
  {
    NumStripKeepsHead([c] + t);
    var r := NumStrip([c] + t);
    assert !IsDigit(r[0]);
  }

  /** A text that starts with a character `int()` does not skip keeps it first. */
  lemma NumStripKeepsHead(u: string)
    requires u != [] && !IsNumSpace(u[0])
    ensures NumStrip(u) != [] && NumStrip(u)[0] == u[0]
  {
    assert NumLStrip(u) == u;
  }

  // ---------------------------------------------------------------- joining

  /** `sep.join(parts)`. */
  function JoinWith(sep: string, parts: seq<string>): string
    decreases |parts|
  {
    if parts == [] then ""
    else if |parts| == 1 then parts[0]
    else parts[0] + sep + JoinWith(sep, parts[1..])
  }

  /** Joining one more part appends the separator and that part. */
  lemma {:induction false} JoinWithSnoc(sep: string, parts: seq<string>, p: string)
    requires parts != []
    ensures JoinWith(sep, parts + [p]) == JoinWith(sep, parts) + sep + p
    decreases |parts|
  {
    if |parts| == 1 {
      assert parts + [p] == [parts[0], p];
    } else {
      assert (parts + [p])[1..] == parts[1..] + [p];
      JoinWithSnoc(sep, parts[1..], p);
    }
  }

  /** A join begins with its first part. */
  lemma JoinWithHead(sep: string, parts: seq<string>)
    requires parts != []
    ensures StartsWith(JoinWith(sep, parts), parts[0])
  {
    if |parts| > 1 {
      var rest := sep + JoinWith(sep, parts[1..]);
      assert JoinWith(sep, parts) == parts[0] + rest;
      ConcatStartsWith(parts[0], rest);
    }
  }

  // ---------------------------------------------------------------- prefixes

  /** `s.startswith(p)`. */
  predicate StartsWith(s: string, p: string) {
    |s| >= |p| && s[..|p|] == p
  }

  lemma ConcatStartsWith(a: string, b: string)
    ensures StartsWith(a + b, a)
  {
    assert (a + b)[..|a|] == a;
  }

  lemma StartsWithTrans(s: string, p: string, q: string)
    requires StartsWith(s, p) && StartsWith(p, q)
    ensures StartsWith(s, q)
  {
    assert s[..|q|] == s[..|p|][..|q|];
  }

  /** Texts whose first characters differ do not start one with the other. */
  lemma FirstCharDiffers(s: string, p: string)
    requires s != [] && p != [] && s[0] != p[0]
    ensures !StartsWith(s, p)
  {
    if |s| >= |p| {
      assert s[..|p|][0] == s[0];
    }
  }
}
