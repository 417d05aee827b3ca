/** Shared vocabulary of the model: optional values, the three-way analyst
    signal, a JSON-like dynamic value with Python truthiness, the string
    operations the source relies on (ASCII-only case mapping and digit tests),
    decimal rendering of integers and Python's round-half-even. */
module Common {

  datatype Option<T> = None | Some(value: T)

  /** The outcome of an operation that raises in the source: `Failure` names the exception. */
  datatype Result<T> = Success(value: T) | Failure(error: string)

  /** The direction every analyst agent reports. */
  datatype Signal = Bullish | Bearish | Neutral

  function SignalName(s: Signal): string {
    match s
    case Bullish => "bullish"
    case Bearish => "bearish"
    case Neutral => "neutral"
  }

  /** Bullish and bearish swapped. */
  function Opposite(s: Signal): Signal {
    match s
    case Bullish => Bearish
    case Bearish => Bullish
    case Neutral => Neutral
  }

  /** Python's `signals.count(x)`. */
  function CountSignal(s: seq<Signal>, x: Signal): (n: nat)
    ensures n <= |s|
    decreases |s|
  {
    if s == [] then 0
    else CountSignal(s[..|s| - 1], x) + (if s[|s| - 1] == x then 1 else 0)
  }

  /** Every element is one of the three signals, so the three counts add up to the length. */
  lemma {:induction false} CountSignalPartition(s: seq<Signal>)
    ensures CountSignal(s, Bullish) + CountSignal(s, Bearish) + CountSignal(s, Neutral) == |s|
    decreases |s|
  {
    if s != [] {
      CountSignalPartition(s[..|s| - 1]);
    }
  }

  /** Python truthiness of an optional number: present and non-zero. */
  predicate TruthyNum(x: Option<real>) { x.Some? && x.value != 0.0 }

  /** Python's `x or 0` on an optional number: a missing value reads as 0. */
  function OrZero(x: Option<real>): (r: real)
    ensures x.Some? ==> r == x.value
    ensures x.None? ==> r == 0.0
  {
    if TruthyNum(x) then x.value else 0.0
  }

  /** A dynamically typed value as it arrives from JSON, an API payload or a
      Python dict. Objects keep their members in insertion order. */
  datatype Json =
    | JNull
    | JBool(b: bool)
    | JInt(i: int)
    | JReal(r: real)
    | JStr(s: string)
    | JArr(elems: seq<Json>)
    | JObj(members: seq<(string, Json)>)

  /** Python truthiness: None, False, 0, 0.0, "" and empty containers are false. */
  predicate Truthy(v: Json) {
    match v
    case JNull => false
    case JBool(b) => b
    case JInt(i) => i != 0
    case JReal(r) => r != 0.0
    case JStr(s) => s != ""
    case JArr(e) => e != []
    case JObj(m) => m != []
  }

  /** `a or b` in Python: the first operand when it is truthy, else the second. */
  function PyOr(a: Json, b: Json): (r: Json)
    ensures Truthy(a) ==> r == a
    ensures !Truthy(a) ==> r == b
  {
    if Truthy(a) then a else b
  }

  /** `d.get(key)` on a dict kept as an ordered list of (key, value) pairs: the value
      of the last pair with that key, since a dict built from the pairs keeps that one. */
  function AssocGet<V>(members: seq<(string, V)>, key: string): (r: Option<V>)
    ensures r.None? <==> forall i :: 0 <= i < |members| ==> members[i].0 != key
    ensures r.Some? ==> exists i :: 0 <= i < |members| && members[i] == (key, r.value) &&
                                    forall j :: i < j < |members| ==> members[j].0 != key
    decreases |members|
  {
    if |members| == 0 then None
    else if members[|members| - 1].0 == key then Some(members[|members| - 1].1)
    else
      var init := members[..|members| - 1];
      var r := AssocGet(init, key);
      assert forall i :: 0 <= i < |init| ==> members[i] == init[i];
      r
  }

  /** `key in d` for an ordered dict. */
  predicate HasKey<V>(members: seq<(string, V)>, key: string) {
    AssocGet(members, key).Some?
  }

  /** A JSON object's members as a dict: a repeated key keeps its last value. */
  function ObjMap(members: seq<(string, Json)>): (m: map<string, Json>)
    ensures forall k :: k in m <==> HasKeyAnywhere(members, k)
    decreases |members|
  {
    if members == [] then map[]
    else ObjMap(members[..|members| - 1])[members[|members| - 1].0 := members[|members| - 1].1]
  }

  predicate HasKeyAnywhere(members: seq<(string, Json)>, k: string) {
    exists i :: 0 <= i < |members| && members[i].0 == k
  }

  /** `obj.get(key)` where a missing key reads as None. */
  function GetOrNull(members: seq<(string, Json)>, key: string): Json {
    match AssocGet(members, key)
    case None => JNull
    case Some(v) => v
  }

  /** Reading a key through the dict and through `d.get` gives the same value. */
  lemma {:induction false} ObjMapAgreesWithGet(members: seq<(string, Json)>, k: string)
    requires HasKeyAnywhere(members, k)
    ensures ObjMap(members)[k] == GetOrNull(members, k)
    decreases |members|
  {
    var init := members[..|members| - 1];
    if members[|members| - 1].0 != k {
      var i :| 0 <= i < |members| && members[i].0 == k;
      assert init[i] == members[i];
      ObjMapAgreesWithGet(init, k);
    }
  }

  /** A dict's keys, `list(d)`: each key once, in the order of its first pair. */
  function Keys(members: seq<(string, Json)>): (ks: seq<string>)
    ensures |ks| <= |members|
    ensures forall k :: k in ks <==> HasKeyAnywhere(members, k)
    ensures forall i, j :: 0 <= i < j < |ks| ==> ks[i] != ks[j]
    decreases |members|
  {
    if members == [] then []
    else
      var init := members[..|members| - 1];
      var ks := Keys(init);
      var k := members[|members| - 1].0;
      assert forall x :: HasKeyAnywhere(members, x) <==> HasKeyAnywhere(init, x) || x == k by {
        forall x ensures HasKeyAnywhere(members, x) <==> HasKeyAnywhere(init, x) || x == k {
          if HasKeyAnywhere(init, x) {
            var i :| 0 <= i < |init| && init[i].0 == x;
            assert members[i] == init[i];
          }
          if HasKeyAnywhere(members, x) && x != k {
            var i :| 0 <= i < |members| && members[i].0 == x;
            assert init[i] == members[i];
          }
        }
      }
      if k in ks then ks else ks + [k]
  }

  predicate DistinctKeys(members: seq<(string, Json)>) {
    forall i, j :: 0 <= i < j < |members| ==> members[i].0 != members[j].0
  }

  /** `list(d.values())`: one value per key, in the order of `Keys`, each the value
      the dict holds for it. */
  function Values(members: seq<(string, Json)>): (r: seq<Json>)
    ensures |r| == |Keys(members)| && |r| <= |members|
    ensures forall i :: 0 <= i < |r| ==> HasKeyAnywhere(members, Keys(members)[i]) && r[i] == GetOrNull(members, Keys(members)[i])
  {
    var ks := Keys(members);
    seq(|ks|, i requires 0 <= i < |ks| => GetOrNull(members, ks[i]))
  }

  /** Without repeated keys the keys are the pairs' keys in order. */
  lemma {:induction false} KeysOfDistinct(members: seq<(string, Json)>)
    requires DistinctKeys(members)
    ensures |Keys(members)| == |members|
    ensures forall i :: 0 <= i < |members| ==> Keys(members)[i] == members[i].0
    decreases |members|
  {
    if members != [] {
      var init := members[..|members| - 1];
      KeysOfDistinct(init);
      var k := members[|members| - 1].0;
      assert !HasKeyAnywhere(init, k) by {
        forall i | 0 <= i < |init| ensures init[i].0 != k {
          assert init[i] == members[i];
        }
      }
    }
  }

  /** Without repeated keys `values()` lists the pairs' values in order. */
  lemma ValuesOfDistinct(members: seq<(string, Json)>)
    requires DistinctKeys(members)
    ensures |Values(members)| == |members|
    ensures forall i :: 0 <= i < |members| ==> Values(members)[i] == members[i].1
  {
    KeysOfDistinct(members);
    forall i | 0 <= i < |members| ensures Values(members)[i] == members[i].1 {
      var key := members[i].0;
      var r := AssocGet(members, key);
      var i' :| 0 <= i' < |members| && members[i'] == (key, r.value) && forall j :: i' < j < |members| ==> members[j].0 != key;
      assert i' == i;
    }
  }

  // ---------------------------------------------------------------- numbers

  function MinInt(a: int, b: int): int { if a <= b then a else b }
  function MaxInt(a: int, b: int): int { if a >= b then a else b }
  function MinReal(a: real, b: real): real { if a <= b then a else b }
  function MaxReal(a: real, b: real): real { if a >= b then a else b }
  function AbsReal(x: real): real { if x < 0.0 then -x else x }

  /** Python's `x // y` on floats followed by `int(...)`: the floor of the quotient. */
  function FloorDiv(x: real, y: real): (r: int)
    requires y != 0.0
    ensures r as real <= x / y < r as real + 1.0
  {
    (x / y).Floor
  }

  /** An integer is at most the floored quotient exactly when its product with
      the (positive) divisor does not exceed the dividend. */
  lemma FloorDivIff(x: real, y: real, n: int)
    requires y > 0.0
    ensures n <= FloorDiv(x, y) <==> n as real * y <= x
  {
    var q := x / y;
    assert q * y == x;
    assert n as real <= q <==> n as real * y <= q * y;
  }

  /** Comparing a quotient by a positive divisor is comparing the dividend with the scaled bound. */
  lemma DivCompare(x: real, d: real, c: real)
    requires d > 0.0
    ensures x / d > c <==> x > c * d
    ensures x / d < c <==> x < c * d
  {
    var q := x / d;
    assert x == q * d;
    assert x - c * d == (q - c) * d;
    MulSign(q - c, d);
  }

  lemma MulSign(a: real, d: real)
    requires d > 0.0
    ensures a > 0.0 <==> a * d > 0.0
    ensures a < 0.0 <==> a * d < 0.0
  {
  }

  /** Python 3 `round(x)`: to the nearest integer, ties to the even one. */
  function RoundHalfEven(x: real): (r: int)
    ensures x - 0.5 <= r as real <= x + 0.5
    ensures x == x.Floor as real ==> r == x.Floor
    ensures r as real == x - 0.5 || r as real == x + 0.5 ==> r % 2 == 0
  {
    var f := x.Floor;
    var d := x - f as real;
    if d < 0.5 then f
    else if d > 0.5 then f + 1
    else if f % 2 == 0 then f
    else f + 1
  }

  /** Python `round(x, 2)`, read on exact reals. */
  function Round2(x: real): real {
    RoundHalfEven(x * 100.0) as real / 100.0
  }

  lemma Round2OfCents(k: int)
    ensures Round2(k as real / 100.0) == k as real / 100.0
  {
    assert (k as real / 100.0) * 100.0 == k as real;
    assert (k as real).Floor == k;
  }

  // ---------------------------------------------------------------- strings

  predicate IsAsciiDigit(c: char) { '0' <= c <= '9' }

  /** Python `str.isdigit()` restricted to ASCII: non-empty and all digits. */
  predicate AllDigits(s: string) {
    |s| > 0 && forall i :: 0 <= i < |s| ==> IsAsciiDigit(s[i])
  }

  function UpperChar(c: char): char {
    if 'a' <= c <= 'z' then (c as int - 32) as char else c
  }

  function LowerChar(c: char): char {
    if 'A' <= c <= 'Z' then (c as int + 32) as char else c
  }

  /** `str.upper()` on ASCII letters. */
  function Upper(s: string): (r: string)
    ensures |r| == |s|
    ensures forall i :: 0 <= i < |s| ==> r[i] == UpperChar(s[i])
  {
    if |s| == 0 then [] else [UpperChar(s[0])] + Upper(s[1..])
  }

  /** `str.lower()` on ASCII letters. */
  function Lower(s: string): (r: string)
    ensures |r| == |s|
    ensures forall i :: 0 <= i < |s| ==> r[i] == LowerChar(s[i])
  {
    if |s| == 0 then [] else [LowerChar(s[0])] + Lower(s[1..])
  }

  lemma UpperLowerChar(c: char)
    ensures UpperChar(LowerChar(c)) == UpperChar(c)
  {
  }

  /** Upper-casing forgets the case of the input. */
  lemma UpperOfLower(s: string)
    ensures Upper(Lower(s)) == Upper(s)
  {
    forall i | 0 <= i < |s| ensures Upper(Lower(s))[i] == Upper(s)[i] {
      UpperLowerChar(s[i]);
    }
  }

  /** `UpperOfLower`'s counterpart for upper-casing twice. */
  lemma UpperIdempotent(s: string)
    ensures Upper(Upper(s)) == Upper(s)
  {
  }

  predicate StartsWith(s: string, p: string) { |p| <= |s| && s[..|p|] == p }
  predicate EndsWith(s: string, p: string) { |p| <= |s| && s[|s| - |p|..] == p }

  predicate OccursAt(s: string, pat: string, i: int) {
    0 <= i && i + |pat| <= |s| && s[i..i + |pat|] == pat
  }

  /** `s.find(pat, start)`: the least index at or after `start` where `pat` occurs, or -1. */
  function FindFrom(s: string, pat: string, start: nat): (r: int)
    requires start <= |s|
    ensures r == -1 || start <= r
    ensures r != -1 ==> OccursAt(s, pat, r)
    ensures r != -1 ==> forall j :: start <= j < r ==> !OccursAt(s, pat, j)
    ensures r == -1 ==> forall j :: start <= j <= |s| ==> !OccursAt(s, pat, j)
    decreases |s| - start
  {
    if OccursAt(s, pat, start) then start
    else if start == |s| then -1
    else FindFrom(s, pat, start + 1)
  }

  /** `s.find(pat)`. */
  function Find(s: string, pat: string): (r: int)
    ensures r == -1 || 0 <= r
    ensures r != -1 ==> OccursAt(s, pat, r) && forall j :: 0 <= j < r ==> !OccursAt(s, pat, j)
    ensures r == -1 <==> forall j :: 0 <= j <= |s| ==> !OccursAt(s, pat, j)
  {
    FindFrom(s, pat, 0)
  }

  /** `pat in s` for strings. */
  predicate Contains(s: string, pat: string) { Find(s, pat) != -1 }

  /** The text before the first occurrence of `sep`: Python `s.split(sep)[0]`. */
  function BeforeFirst(s: string, sep: string): (r: string)
    requires |sep| > 0
    ensures Find(s, sep) == -1 ==> r == s
    ensures Find(s, sep) != -1 ==> r == s[..Find(s, sep)] && !Contains(r, sep)
  {
    var k := Find(s, sep);
    if k == -1 then s
    else
      var r := s[..k];
      assert forall j :: 0 <= j <= |r| ==> !OccursAt(r, sep, j) by {
        forall j | 0 <= j <= |r| ensures !OccursAt(r, sep, j) {
          if OccursAt(r, sep, j) {
            assert r[j..j + |sep|] == s[j..j + |sep|];
            assert OccursAt(s, sep, j);
            assert false;
          }
        }
      }
      r
  }

  /** The text after the last occurrence of the character `c`: Python `s.split(c)[-1]`. */
  function AfterLast(s: string, c: char): (r: string)
    ensures |r| <= |s| && r == s[|s| - |r|..]
    ensures forall i :: 0 <= i < |r| ==> r[i] != c
    ensures |r| < |s| ==> s[|s| - |r| - 1] == c
  {
    if |s| == 0 then ""
    else if s[|s| - 1] == c then ""
    else AfterLast(s[..|s| - 1], c) + [s[|s| - 1]]
  }

  /** `s.replace(pat, "")`: removes the non-overlapping occurrences, scanning left to right. */
  function RemoveAll(s: string, pat: string): (r: string)
    requires |pat| > 0
    ensures |r| <= |s|
    decreases |s|
  {
    if |s| < |pat| then s
    else if s[..|pat|] == pat then RemoveAll(s[|pat|..], pat)
    else [s[0]] + RemoveAll(s[1..], pat)
  }

  /** `s.replace(c, "")` for a single character: every `c` is dropped. */
  function RemoveChar(s: string, c: char): (r: string)
    ensures forall i :: 0 <= i < |r| ==> r[i] != c
    ensures |r| <= |s|
    ensures (forall i :: 0 <= i < |s| ==> s[i] != c) ==> r == s
  {
    if |s| == 0 then ""
    else if s[0] == c then RemoveChar(s[1..], c)
    else [s[0]] + RemoveChar(s[1..], c)
  }

  /** Whitespace for Python's argument-less `str.strip()` (ASCII and Latin-1 part). */
  predicate IsSpace(c: char) {
    (c as int) in {9, 10, 11, 12, 13, 28, 29, 30, 31, 32, 133, 160}
  }

  function StripLeft(s: string): (r: string)
    ensures |r| <= |s| && r == s[|s| - |r|..]
    ensures |r| > 0 ==> !IsSpace(r[0])
    ensures forall i :: 0 <= i < |s| - |r| ==> IsSpace(s[i])
  {
    if |s| > 0 && IsSpace(s[0]) then StripLeft(s[1..]) else s
  }

  function StripRight(s: string): (r: string)
    ensures |r| <= |s| && r == s[..|r|]
    ensures |r| > 0 ==> !IsSpace(r[|r| - 1])
    ensures forall i :: |r| <= i < |s| ==> IsSpace(s[i])
  {
    if |s| > 0 && IsSpace(s[|s| - 1]) then StripRight(s[..|s| - 1]) else s
  }

  /** `s.strip()`. */
  function Strip(s: string): (r: string)
    ensures |r| <= |s|
    ensures |r| > 0 ==> !IsSpace(r[0]) && !IsSpace(r[|r| - 1])
  {
    StripRight(StripLeft(s))
  }

  /** `sep.join(parts)`. */
  function Join(parts: seq<string>, sep: string): (r: string)
    ensures |parts| == 1 ==> r == parts[0]
    ensures |parts| == 0 ==> r == ""
    ensures |parts| == 2 ==> r == parts[0] + sep + parts[1]
  {
    if |parts| == 0 then ""
    else if |parts| == 1 then parts[0]
    else parts[0] + sep + Join(parts[1..], sep)
  }

  function DigitChar(d: int): (c: char)
    requires 0 <= d < 10
    ensures IsAsciiDigit(c)
  {
    ('0' as int + d) as char
  }

  /** Decimal rendering of a natural number, as Python's `str(n)`. */
  function NatToString(n: nat): (r: string)
    ensures AllDigits(r)
    ensures |r| == 1 <==> n < 10
    ensures r[0] != '0' || n == 0
  {
    if n < 10 then [DigitChar(n)]
    else NatToString(n / 10) + [DigitChar(n % 10)]
  }

  /** Decimal rendering of an integer, as Python's `str(i)`. */
  function IntToString(i: int): (r: string)
    ensures i >= 0 ==> AllDigits(r)
    ensures i < 0 ==> |r| >= 2 && r[0] == '-' && AllDigits(r[1..])
  {
    if i >= 0 then NatToString(i) else "-" + NatToString(-i)
  }

  /** NatToString is injective: distinct counts render as distinct text. */
  lemma {:induction false} NatToStringInjective(a: nat, b: nat)
    requires NatToString(a) == NatToString(b)
    ensures a == b
  {
    if a >= 10 && b >= 10 {
      var sa, sb := NatToString(a), NatToString(b);
      assert sa[..|sa| - 1] == NatToString(a / 10);
      assert sb[..|sb| - 1] == NatToString(b / 10);
      NatToStringInjective(a / 10, b / 10);
      assert DigitChar(a % 10) == sa[|sa| - 1] == DigitChar(b % 10);
    }
  }

  /** A prefix extended by the next element. */
  lemma TakeSnoc<T>(s: seq<T>, i: nat)
    requires i < |s|
    ensures s[..i + 1] == s[..i] + [s[i]]
  {
  }

  /** The prefix of a longer prefix. */
  lemma TakeTake<T>(s: seq<T>, i: nat)
    requires i < |s|
    ensures s[..i + 1][..i] == s[..i]
  {
  }

  /** The present values of a sequence of optionals, in order: Python's
      `[x for x in xs if x is not None]`. */
  function Present<T>(xs: seq<Option<T>>): (r: seq<T>)
    ensures |r| <= |xs|
    ensures |r| == 0 <==> forall i :: 0 <= i < |xs| ==> xs[i].None?
    ensures forall i :: 0 <= i < |xs| && xs[i].Some? ==> xs[i].value in r
    ensures forall v :: v in r ==> Some(v) in xs
  {
    if |xs| == 0 then []
    else
      var rest := Present(xs[1..]);
      assert forall i :: 1 <= i < |xs| ==> xs[i] == xs[1..][i - 1];
      (if xs[0].Some? then [xs[0].value] else []) + rest
  }

  lemma PresentAppend<T>(xs: seq<Option<T>>, x: Option<T>)
    ensures Present(xs + [x]) == Present(xs) + (if x.Some? then [x.value] else [])
  {
    if |xs| > 0 {
      assert (xs + [x])[1..] == xs[1..] + [x];
      PresentAppend(xs[1..], x);
    }
  }
}
