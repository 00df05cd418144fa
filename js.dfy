/**
 * The few JavaScript value semantics the rest of the model relies on:
 * absent values, truthiness, `String.prototype.slice`, `Array.prototype.join`,
 * `String.prototype.trim`, `toUpperCase` on ASCII text and the decimal
 * rendering of integers by template literals.
 *
 * Strings are `seq<char>`. JavaScript measures and slices strings in UTF-16
 * code units; the model counts characters, which agrees on text made of
 * characters from the Basic Multilingual Plane.
 */
module Js {

  /** A value that may be `undefined`/`null` (None) or present (Some). */
  datatype Option<+T> = None | Some(value: T)

  /** JavaScript truthiness of an optional string: present and not "". */
  predicate TruthyStr(o: Option<string>) {
    o.Some? && o.value != ""
  }

  /** JavaScript truthiness of an optional integer: present and not 0. */
  predicate TruthyInt(o: Option<int>) {
    o.Some? && o.value != 0
  }

  /** JavaScript truthiness of an optional number: present and not 0. */
  predicate TruthyReal(o: Option<real>) {
    o.Some? && o.value != 0.0
  }

  /** `o || d` for an optional string and a string default. */
  function StrOr(o: Option<string>, d: string): (r: string)
    ensures TruthyStr(o) ==> r == o.value
    ensures !TruthyStr(o) ==> r == d
  {
    if TruthyStr(o) then o.value else d
  }

  /** r is what `o || null` gives for an optional string: present exactly when o is truthy, and then o. */
  predicate KeptIfTruthy(r: Option<string>, o: Option<string>) {
    (r.Some? <==> TruthyStr(o)) && (r.Some? ==> r == o)
  }

  /** The same for an optional integer. */
  predicate KeptIfTruthyInt(r: Option<int>, o: Option<int>) {
    (r.Some? <==> TruthyInt(o)) && (r.Some? ==> r == o)
  }

  /** `o || null` for an optional string: a falsy value becomes null. */
  function StrOrNull(o: Option<string>): (r: Option<string>)
    ensures KeptIfTruthy(r, o)
    ensures r.Some? ==> r.value != ""
  {
    if TruthyStr(o) then o else None
  }

  /** `o || null` for an optional integer. */
  function IntOrNull(o: Option<int>): (r: Option<int>)
    ensures KeptIfTruthyInt(r, o)
    ensures r.Some? ==> r.value != 0
  {
    if TruthyInt(o) then o else None
  }

  /** `s.slice(0, k)` for k >= 0, on a string or a list: the first k elements, or all of s when it is shorter. */
  function Prefix<T>(s: seq<T>, k: nat): (r: seq<T>)
    ensures |r| == if |s| < k then |s| else k
    ensures r <= s
  {
    if |s| <= k then s else s[..k]
  }

  /** `xs.join(sep)`. */
  function Join(xs: seq<string>, sep: string): (r: string)
    ensures xs == [] ==> r == ""
    ensures |xs| == 1 ==> r == xs[0]
    ensures |xs| > 0 ==> xs[0] <= r
  {
    if xs == [] then ""
    else if |xs| == 1 then xs[0]
    else xs[0] + sep + Join(xs[1..], sep)
  }

  /**
   * Joining one more element adds the separator and the element at the end.
   * With the empty and one-element cases this fixes every joined string.
   */
  lemma {:induction false} JoinSnoc(xs: seq<string>, x: string, sep: string)
    requires xs != []
    ensures Join(xs + [x], sep) == Join(xs, sep) + sep + x
    decreases |xs|
  {
    if |xs| == 1 {
      assert (xs + [x])[1..] == [x];
    } else {
      assert (xs + [x])[1..] == xs[1..] + [x];
      JoinSnoc(xs[1..], x, sep);
    }
  }

  /** Sum of the lengths of the strings in xs. */
  function TotalLength(xs: seq<string>): nat {
    if xs == [] then 0 else |xs[0]| + TotalLength(xs[1..])
  }

  /** A joined string is made of its parts and one separator between each two. */
  lemma {:induction false} JoinLength(xs: seq<string>, sep: string)
    requires xs != []
    ensures |Join(xs, sep)| == TotalLength(xs) + (|xs| - 1) * |sep|
  {
    if |xs| > 1 {
      JoinLength(xs[1..], sep);
    }
  }

  /** `xs.map(f)`: f applied to each element, in order. */
  function Map<A, B>(f: A -> B, xs: seq<A>): (ys: seq<B>)
    ensures |ys| == |xs|
  {
    if xs == [] then [] else Map(f, xs[..|xs| - 1]) + [f(xs[|xs| - 1])]
  }

  /** The element at i of a mapped list is f applied to the element at i. */
  lemma {:induction false} MapAt<A, B>(f: A -> B, xs: seq<A>, i: nat)
    requires i < |xs|
    ensures Map(f, xs)[i] == f(xs[i])
    decreases |xs|
  {
    var init := xs[..|xs| - 1];
    if i < |init| {
      MapAt(f, init, i);
      assert init[i] == xs[i];
    }
  }

  /** A mapped list keeps the order: each element is f of the element in the same place. */
  lemma MapElements<A, B>(f: A -> B, xs: seq<A>)
    ensures forall i :: 0 <= i < |xs| ==> Map(f, xs)[i] == f(xs[i])
  {
    forall i | 0 <= i < |xs| ensures Map(f, xs)[i] == f(xs[i]) {
      MapAt(f, xs, i);
    }
  }

  /** Mapping distributes over concatenation, so a list mapped in pieces is the list mapped whole. */
  lemma MapAppend<A, B>(f: A -> B, xs: seq<A>, ys: seq<A>)
    ensures Map(f, xs + ys) == Map(f, xs) + Map(f, ys)
  {
    var l, r := Map(f, xs + ys), Map(f, xs) + Map(f, ys);
    MapElements(f, xs + ys);
    MapElements(f, xs);
    MapElements(f, ys);
    forall i | 0 <= i < |l| ensures l[i] == r[i] {
      if i < |xs| {
        assert (xs + ys)[i] == xs[i];
      } else {
        assert (xs + ys)[i] == ys[i - |xs|];
      }
    }
  }

  /** Mapping one more element of a list: the step of a loop that maps a list element by element. */
  lemma MapSnoc<A, B>(f: A -> B, xs: seq<A>, i: nat)
    requires i < |xs|
    ensures Map(f, xs[..i + 1]) == Map(f, xs[..i]) + [f(xs[i])]
  {
    assert xs[..i + 1][..i] == xs[..i];
  }

  // ---------------------------------------------------------------------
  // Decimal rendering of integers (`${n}` in a template literal)

  predicate IsDigit(c: char) {
    '0' <= c <= '9'
  }

  function DigitChar(d: nat): (c: char)
    requires d < 10
    ensures IsDigit(c)
  {
    ['0', '1', '2', '3', '4', '5', '6', '7', '8', '9'][d]
  }

  function DigitValue(c: char): (d: nat)
    requires IsDigit(c)
    ensures d < 10
  {
    c as int - '0' as int
  }

  /** The decimal digits of n, most significant first, with no leading zero. */
  function NatToString(n: nat): (s: string)
    ensures s != []
    ensures forall i :: 0 <= i < |s| ==> IsDigit(s[i])
    ensures |s| > 1 ==> s[0] != '0'
    decreases n
  {
    if n < 10 then [DigitChar(n)] else NatToString(n / 10) + [DigitChar(n % 10)]
  }

  /** `${n}` for an integer n: a minus sign for negative numbers, then the digits. */
  function IntToString(n: int): (s: string)
    ensures s != []
    ensures (s[0] == '-') <==> n < 0
  {
    if n < 0 then "-" + NatToString(-n) else NatToString(n)
  }

  /** The value of a string of decimal digits. */
  function ParseNat(s: string): nat
    requires forall i :: 0 <= i < |s| ==> IsDigit(s[i])
  {
    if s == [] then 0 else 10 * ParseNat(s[..|s| - 1]) + DigitValue(s[|s| - 1])
  }

  /** Reading the digits back gives the number: the rendering loses nothing. */
  lemma {:induction false} ParseNatToString(n: nat)
    ensures ParseNat(NatToString(n)) == n
    decreases n
  {
    var s := NatToString(n);
    if n >= 10 {
      ParseNatToString(n / 10);
      assert s[..|s| - 1] == NatToString(n / 10);
    }
  }

  /** Two different natural numbers never render to the same digits. */
  lemma NatToStringInjective(a: nat, b: nat)
    requires NatToString(a) == NatToString(b)
    ensures a == b
  {
    ParseNatToString(a);
    ParseNatToString(b);
  }

  /** Two different integers never render to the same text. */
  lemma IntToStringInjective(m: int, n: int)
    requires IntToString(m) == IntToString(n)
    ensures m == n
  {
    if m < 0 && n < 0 {
      DropSign(NatToString(-m));
      DropSign(NatToString(-n));
      NatToStringInjective(-m, -n);
    } else if m >= 0 && n >= 0 {
      NatToStringInjective(m, n);
    }
  }

  /** The digits after the minus sign. */
  lemma DropSign(t: string)
    ensures ("-" + t)[1..] == t
  {
  }

  // ---------------------------------------------------------------------
  // Upper-casing (`toUpperCase`) on ASCII letters

  function UpperChar(c: char): (u: char)
    ensures 'a' <= c <= 'z' ==> u as int == c as int - 32
    ensures !('a' <= c <= 'z') ==> u == c
  {
    if 'a' <= c <= 'z' then (c as int - 32) as char else c
  }

  /** `s.toUpperCase()` for text whose lower-case letters are ASCII. */
  function ToUpper(s: string): (r: string)
    ensures |r| == |s|
    ensures forall i :: 0 <= i < |s| ==> r[i] == UpperChar(s[i])
  {
    if s == [] then [] else [UpperChar(s[0])] + ToUpper(s[1..])
  }

  /** Upper-casing twice is upper-casing once. */
  lemma ToUpperIdempotent(s: string)
    ensures ToUpper(ToUpper(s)) == ToUpper(s)
  {
    var once := ToUpper(s);
    var twice := ToUpper(once);
    assert |twice| == |once|;
    forall i | 0 <= i < |s| ensures twice[i] == once[i] {
      assert twice[i] == UpperChar(once[i]);
    }
  }

  // ---------------------------------------------------------------------
  // `String.prototype.trim`

  /** The WhiteSpace and LineTerminator characters outside the U+2000 to U+200A block. */
  const SpaceChars: set<char> := {'\t', '\n', '\U{B}', '\U{C}', '\r', ' ', '\U{A0}', '\U{1680}',
                                  '\U{2028}', '\U{2029}', '\U{202F}', '\U{205F}', '\U{3000}', '\U{FEFF}'}

  /** The characters ECMAScript's `trim` removes: WhiteSpace and LineTerminator. */
  predicate IsWhitespace(c: char) {
    c in SpaceChars || '\U{2000}' <= c <= '\U{200A}'
  }

  predicate AllWhitespace(s: string) {
    forall i :: 0 <= i < |s| ==> IsWhitespace(s[i])
  }

  /** The index of the first character at or after lo that is not whitespace, or |s| when there is none. */
  function SkipLeading(s: string, lo: nat): (i: nat)
    requires lo <= |s|
    ensures lo <= i <= |s|
    ensures forall k :: lo <= k < i ==> IsWhitespace(s[k])
    ensures i < |s| ==> !IsWhitespace(s[i])
    decreases |s| - lo
  {
    if lo == |s| || !IsWhitespace(s[lo]) then lo else SkipLeading(s, lo + 1)
  }

  /** The index just after the last character before hi, and not before lo, that is not whitespace, or lo when there is none. */
  function SkipTrailing(s: string, lo: nat, hi: nat): (j: nat)
    requires lo <= hi <= |s|
    ensures lo <= j <= hi
    ensures forall k :: j <= k < hi ==> IsWhitespace(s[k])
    ensures j > lo ==> !IsWhitespace(s[j - 1])
    decreases hi
  {
    if hi == lo || !IsWhitespace(s[hi - 1]) then hi else SkipTrailing(s, lo, hi - 1)
  }

  /** The facts about the cut that Trim makes at i and j. */
  lemma TrimCut(s: string, i: nat, j: nat)
    requires i == SkipLeading(s, 0) && i <= |s|
    requires j == SkipTrailing(s, i, |s|)
    ensures AllWhitespace(s[..i]) && AllWhitespace(s[j..])
    ensures i < j ==> !IsWhitespace(s[i..j][0]) && !IsWhitespace(s[i..j][j - i - 1])
    ensures i == j <==> AllWhitespace(s)
  {
    forall k | 0 <= k < i ensures IsWhitespace(s[..i][k]) {
      assert s[..i][k] == s[k];
    }
    forall k | 0 <= k < |s| - j ensures IsWhitespace(s[j..][k]) {
      assert s[j..][k] == s[j + k];
    }
    if i < j {
      assert s[i..j][0] == s[i] && s[i..j][j - i - 1] == s[j - 1];
      assert !IsWhitespace(s[i]);
    } else {
      assert forall k :: 0 <= k < |s| ==> IsWhitespace(s[k]);
    }
  }

  /** `s.trim()`: s without its leading and trailing whitespace. */
  function Trim(s: string): (r: string)
    ensures exists i, j :: 0 <= i <= j <= |s| && r == s[i..j]
                           && AllWhitespace(s[..i]) && AllWhitespace(s[j..])
    ensures r != [] ==> !IsWhitespace(r[0]) && !IsWhitespace(r[|r| - 1])
    ensures r == [] <==> AllWhitespace(s)
  {
    var i := SkipLeading(s, 0);
    var j := SkipTrailing(s, i, |s|);
    TrimCut(s, i, j);
    s[i..j]
  }
}
