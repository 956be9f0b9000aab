/** JSON values as the bot sees them after `resp.json()`, and the value helpers
    of the plugin: truthiness, `dict.get`, `str()`, `_to_int` and `_fmt_number`. */
module JsonValue {
  import opened Wrappers
  import opened PyText
  import opened PyFloat

  /** A decoded JSON value. Numbers are integers only; an object keeps its
      members in the order of the document. */
  datatype Json =
    | JNull
    | JBool(b: bool)
    | JInt(i: int)
    | JStr(s: string)
    | JArr(items: seq<Json>)
    | JObj(fields: seq<(string, Json)>)

  /** Python truthiness of the decoded value (`if x:`, `x or y`). */
  predicate Truthy(v: Json) {
    match v
    case JNull => false
    case JBool(b) => b
    case JInt(i) => i != 0
    case JStr(s) => s != []
    case JArr(xs) => xs != []
    case JObj(fs) => fs != []
  }

  /** Python's `x or fallback`. */
  function Or(x: Json, fallback: Json): (r: Json)
    ensures Truthy(x) ==> r == x
    ensures !Truthy(x) ==> r == fallback
  {
    if Truthy(x) then x else fallback
  }

  /** The index of the last member of `fields[..hi]` bound to `key`, or -1
      when there is none. */
  function LastAt(fields: seq<(string, Json)>, key: string, hi: nat): (k: int)
    requires hi <= |fields|
    ensures -1 <= k < hi
    ensures k >= 0 ==> fields[k].0 == key && forall j :: k < j < hi ==> fields[j].0 != key
    ensures k == -1 ==> forall j :: 0 <= j < hi ==> fields[j].0 != key
  {
    if hi == 0 then -1
    else if fields[hi - 1].0 == key then hi - 1
    else LastAt(fields, key, hi - 1)
  }

  /** `d.get(key)` on a decoded object: the value bound last to `key`
      (the one `json.loads` keeps), or JNull (Python None) when absent. */
  function Get(fields: seq<(string, Json)>, key: string): (r: Json)
    ensures (forall k :: 0 <= k < |fields| ==> fields[k].0 != key) ==> r == JNull
    ensures fields != [] && fields[|fields| - 1].0 == key ==> r == fields[|fields| - 1].1
    decreases |fields|
  {
    if fields == [] then JNull
    else if fields[|fields| - 1].0 == key then fields[|fields| - 1].1
    else Get(fields[..|fields| - 1], key)
  }

  /** Whatever the earlier members, `d.get(key)` is the value of the last
      binding of `key`. */
  lemma {:induction false} GetLastBinding(fields: seq<(string, Json)>, key: string, k: nat)
    requires k < |fields| && fields[k].0 == key
    requires forall j :: k < j < |fields| ==> fields[j].0 != key
    ensures Get(fields, key) == fields[k].1
    decreases |fields|
  {
    if k < |fields| - 1 {
      var init := fields[..|fields| - 1];
      GetLastBinding(init, key, k);
    }
  }

  /** A value other than None that `d.get(key)` returns is bound to `key` in `d`. */
  lemma {:induction false} GetFound(fields: seq<(string, Json)>, key: string)
    requires Get(fields, key) != JNull
    ensures exists k :: 0 <= k < |fields| && fields[k] == (key, Get(fields, key))
    decreases |fields|
  {
    if fields[|fields| - 1].0 != key {
      var init := fields[..|fields| - 1];
      GetFound(init, key);
      var k :| 0 <= k < |init| && init[k] == (key, Get(init, key));
      assert fields[k] == init[k];
    }
  }

  // ---------------------------------------------------------------- str()

  /** `str(v)`, which is what an f-string shows for `{v}`. */
  function PyStr(v: Json): string {
    match v
    case JStr(s) => s
    case _ => Repr(v)
  }

  /** `repr(v)`: how a value shows inside `str()` of a list or dict. */
  function Repr(v: Json): string
    decreases v, 1
  {
    match v
    case JNull => "None"
    case JBool(b) => if b then "True" else "False"
    case JInt(i) => IntText(i)
    case JStr(s) => "'" + s + "'"
    case JArr(xs) => "[" + ReprItems(v, 0) + "]"
    case JObj(fs) => "{" + ReprFields(v, 0) + "}"
  }

  function ReprItems(v: Json, from: nat): string
    requires v.JArr? && from <= |v.items|
    decreases v, 0, |v.items| - from
  {
    if from == |v.items| then ""
    else (if from == 0 then "" else ", ") + Repr(v.items[from]) + ReprItems(v, from + 1)
  }

  /** The members of a dict from `from` on, as `repr` lists them: `json.loads`
      keeps one entry per key, at the place where the key first occurs and
      holding the value bound to it last. */
  function ReprFields(v: Json, from: nat): string
    requires v.JObj? && from <= |v.fields|
    decreases v, 0, |v.fields| - from
  {
    if from == |v.fields| then ""
    else
      var key := v.fields[from].0;
      if LastAt(v.fields, key, from) >= 0 then ReprFields(v, from + 1)
      else
        var f := v.fields[LastAt(v.fields, key, |v.fields|)];
        assert f < v;
        (if from == 0 then "" else ", ") + "'" + key + "': " + Repr(f.1) + ReprFields(v, from + 1)
  }

  /** The entry a dict shows for a key holds the value `d.get` returns for it. */
  lemma LastAtIsGet(fields: seq<(string, Json)>, key: string)
    requires LastAt(fields, key, |fields|) >= 0
    ensures fields[LastAt(fields, key, |fields|)].1 == Get(fields, key)
  {
    GetLastBinding(fields, key, LastAt(fields, key, |fields|));
  }

  /** A key bound twice shows once, with its last value: `{'a': 2}`. */
  lemma ReprDuplicateKey()
    ensures PyStr(JObj([("a", JInt(1)), ("a", JInt(2))])) == "{'a': 2}"
  {
    var v := JObj([("a", JInt(1)), ("a", JInt(2))]);
    assert LastAt(v.fields, "a", 0) == -1;
    assert LastAt(v.fields, "a", 2) == 1;
    assert LastAt(v.fields, "a", 1) == 0;
    assert ReprFields(v, 2) == "";
    assert ReprFields(v, 1) == "";
  }

  // ---------------------------------------------------------------- _to_int

  /** `_to_int(v, default)`: `int(v)`, or `default` when `int(v)` raises
      TypeError (None, a list, a dict) or ValueError (a non-numeric string). */
  function ToInt(v: Json, default: int): int {
    match v
    case JInt(i) => i
    case JBool(b) => if b then 1 else 0
    case JStr(s) => (match ParseInt(s) case Some(n) => n case None => default)
    case _ => default
  }

  /** An integer comes back unchanged, whatever the default. */
  lemma ToIntOfInt(i: int, default: int)
    ensures ToInt(JInt(i), default) == i
  {
  }

  /** The decimal text of an integer converts to that integer, whatever the default. */
  lemma ToIntOfText(i: int, default: int)
    ensures ToInt(JStr(IntText(i)), default) == i
  {
    ParseIntText(i);
  }

  /** None, lists, dicts and text without a digit give the default. */
  lemma ToIntFallback(v: Json, default: int)
    requires v.JNull? || v.JArr? || v.JObj? || (v.JStr? && forall k :: 0 <= k < |v.s| ==> !IsDigit(v.s[k]))
    ensures ToInt(v, default) == default
  {
    if v.JStr? {
      ParseIntNeedsDigit(v.s);
    }
  }

  /** The example `_to_int("3") == 3`. */
  lemma ToIntExample()
    ensures ToInt(JStr("3"), 0) == 3
  {
    assert NatText(3) == [DigitChar(3)];
    ToIntOfText(3, 0);
  }

  // ---------------------------------------------------------------- _fmt_number

  /** `float(v)`: None when it raises (TypeError for None, lists and dicts,
      ValueError for other text, OverflowError for an int out of range). */
  function ToFloat(v: Json): Option<Float> {
    match v
    case JBool(b) => Some(Integral(if b then 1 else 0))
    case JInt(i) => IntToFloat(i)
    case JStr(s) => TextToFloat(s)
    case _ => None
  }

  /** `_fmt_number(v, nd, suffix)`: "未知" for None, `str(v)` when `float(v)`
      raises, otherwise the `nd`-place rendering followed by `suffix` (an
      absent suffix is passed as ""). */
  function FmtNumber(v: Json, nd: nat, suffix: string): string {
    if v == JNull then "未知"
    else match ToFloat(v)
      case None => PyStr(v)
      case Some(x) => FormatFixed(x, nd) + suffix
  }

  /** None renders as "未知"; a value `float()` rejects renders as its own
      text, without the suffix; anything else renders as its float with `nd`
      places, then the suffix. */
  lemma FmtNumberCases(v: Json, nd: nat, suffix: string)
    ensures v == JNull ==> FmtNumber(v, nd, suffix) == "未知"
    ensures v != JNull && ToFloat(v).None? ==> FmtNumber(v, nd, suffix) == PyStr(v)
    ensures ToFloat(v).Some? ==> FmtNumber(v, nd, suffix) == FormatFixed(ToFloat(v).value, nd) + suffix
    ensures v.JArr? || v.JObj? || (v.JInt? && Abs(v.i) >= OverflowThreshold) ==> FmtNumber(v, nd, suffix) == PyStr(v)
  {
  }

  /** An int of at most 2^53 in magnitude converts exactly, so it renders as
      its own digits with `nd` places (see `FmtDecShape`), then the suffix. */
  lemma FmtNumberOfInt(i: int, nd: nat, suffix: string)
    requires Abs(i) <= ExactLimit
    ensures FmtNumber(JInt(i), nd, suffix) == FmtDec(i, nd) + suffix
  {
    RoundExact(i);
  }

  /** Above 2^53 an int is shown as the double it rounds to: 2^53 + 1 reads as
      2^53. From the overflow threshold on, `float()` raises and the int is shown
      as `str(v)`, without places or suffix. */
  lemma FmtNumberOfLargeInt(i: int, nd: nat, suffix: string)
    ensures FmtNumber(JInt(ExactLimit + 1), nd, suffix) == FmtNumber(JInt(ExactLimit), nd, suffix)
    ensures Abs(i) >= OverflowThreshold ==> FmtNumber(JInt(i), nd, suffix) == IntText(i)
  {
    RoundAbove53();
    RoundExact(ExactLimit);
  }

  /** Text is converted as `float()` reads it: "-0" keeps its sign, and the
      special words print as words followed by the suffix. */
  lemma FmtNumberOfSpecialText(nd: nat, suffix: string)
    ensures FmtNumber(JStr("-0"), nd, suffix) == "-" + FmtDec(0, nd) + suffix
    ensures FmtNumber(JStr("inf"), nd, suffix) == "inf" + suffix
    ensures FmtNumber(JStr("-Infinity"), nd, suffix) == "-inf" + suffix
    ensures FmtNumber(JStr("nan"), nd, suffix) == "nan" + suffix
  {
    NegativeZeroText();
    InfinityText();
    NegativeInfinityText();
    NanText();
  }

  /** The example `_fmt_number(12, 2, "%") == "12.00%"`. */
  lemma FmtNumberExample()
    ensures FmtNumber(JInt(12), 2, "%") == "12.00%"
  {
    FmtNumberOfInt(12, 2, "%");
    assert IntText(12) == "12" by {
      assert NatText(1) == "1";
      assert NatText(12) == NatText(1) + [DigitChar(2)];
    }
    assert FmtDec(12, 2) == "12.00" by {
      assert Zeros(2) == "00";
    }
  }
}
