/**
 * The few pieces of JavaScript semantics that the application's logic relies on:
 * truthiness and the value-returning `&&` / `||` operators, `Array.prototype.every(Boolean)`,
 * `slice(0, end)` with a possibly negative `end`, and the decimal rendering of a
 * non-negative integer inside a template literal.
 */
module Js {

  /** The JavaScript values that the validators combine: strings, objects (file handles), null and booleans. */
  datatype Value = Str(s: string) | Object | Null | Bool(b: bool)

  /** JavaScript truthiness: the empty string, null and false are falsy; every object is truthy. */
  predicate Truthy(v: Value) {
    match v
    case Str(s) => s != ""
    case Object => true
    case Null => false
    case Bool(b) => b
  }

  /** `v0 && v1 && ... && vn`: the first falsy operand, or the last operand when all are truthy. */
  function AndChain(vs: seq<Value>): (r: Value)
    requires vs != []
    ensures r in vs
    decreases |vs|
  {
    if |vs| == 1 || !Truthy(vs[0]) then vs[0] else AndChain(vs[1..])
  }

  /** An `&&` chain is truthy exactly when every operand is. */
  lemma {:induction false} AndChainTruthy(vs: seq<Value>)
    requires vs != []
    ensures Truthy(AndChain(vs)) <==> forall i :: 0 <= i < |vs| ==> Truthy(vs[i])
    ensures Truthy(AndChain(vs)) <==> forall v :: v in vs ==> Truthy(v)
    decreases |vs|
  {
    if |vs| > 1 && Truthy(vs[0]) {
      AndChainTruthy(vs[1..]);
      assert forall i :: 1 <= i < |vs| ==> vs[i] == vs[1..][i - 1];
      assert vs == [vs[0]] + vs[1..];
    }
  }

  /** `a || b`: `a` when it is truthy, otherwise `b`. */
  function Or(a: Value, b: Value): (r: Value)
    ensures Truthy(r) <==> Truthy(a) || Truthy(b)
    ensures r == a || r == b
  {
    if Truthy(a) then a else b
  }

  /** `bs.every(Boolean)` on an array of booleans. */
  function Every(bs: seq<bool>): bool
    decreases |bs|
  {
    if bs == [] then true else bs[0] && Every(bs[1..])
  }

  lemma {:induction false} EveryIff(bs: seq<bool>)
    ensures Every(bs) <==> forall i :: 0 <= i < |bs| ==> bs[i]
    decreases |bs|
  {
    if bs != [] {
      EveryIff(bs[1..]);
      assert forall i :: 1 <= i < |bs| ==> bs[i] == bs[1..][i - 1];
    }
  }

  /**
   * `s.slice(0, end)`: a negative `end` counts from the end of `s` (and stops at 0),
   * an `end` beyond the length stops at the length.
   */
  function SliceTo<T>(s: seq<T>, end: int): (r: seq<T>)
    ensures r <= s
    ensures 0 <= end ==> |r| == if end <= |s| then end else |s|
    ensures end < 0 ==> |r| == if |s| + end < 0 then 0 else |s| + end
  {
    var stop := if end < 0 then (if |s| + end < 0 then 0 else |s| + end)
                else if end <= |s| then end else |s|;
    s[..stop]
  }

  /**
   * `s.length`: the number of UTF-16 code units, one for a character of the Basic Multilingual
   * Plane and two (a surrogate pair) for any character above U+FFFF.
   */
  function Utf16Length(s: string): (n: nat)
    ensures |s| <= n <= 2 * |s|
    decreases |s|
  {
    if s == [] then 0 else (if s[0] as int < 0x1_0000 then 1 else 2) + Utf16Length(s[1..])
  }

  /** A string of Basic Multilingual Plane characters (ASCII, say) has one code unit per character. */
  lemma {:induction false} Utf16LengthOfBmp(s: string)
    requires forall i :: 0 <= i < |s| ==> s[i] as int < 0x1_0000
    ensures Utf16Length(s) == |s|
    decreases |s|
  {
    if s != [] {
      assert forall i :: 0 <= i < |s[1..]| ==> s[1..][i] == s[i + 1];
      Utf16LengthOfBmp(s[1..]);
    }
  }

  /** The code units of a concatenation are those of its parts. */
  lemma {:induction false} Utf16LengthAppend(a: string, b: string)
    ensures Utf16Length(a + b) == Utf16Length(a) + Utf16Length(b)
    decreases |a|
  {
    if a == [] {
      assert a + b == b;
    } else {
      assert (a + b)[0] == a[0] && (a + b)[1..] == a[1..] + b;
      Utf16LengthAppend(a[1..], b);
    }
  }

  predicate IsDigit(c: char) {
    '0' <= c <= '9'
  }

  predicate AllDigits(s: string) {
    forall i :: 0 <= i < |s| ==> IsDigit(s[i])
  }

  function DigitChar(d: nat): (c: char)
    requires d < 10
    ensures IsDigit(c) && c as int - '0' as int == d
  {
    (d + '0' as int) as char
  }

  /**
   * `${n}` for a non-negative integer `n`: its decimal digits, without leading zeros.
   * (`Date.now()` and loop indices are integers far below 2^53, where JavaScript
   * prints every integer this way.)
   */
  function NatToString(n: nat): (s: string)
    ensures s != [] && AllDigits(s)
    ensures s[0] == '0' ==> s == "0"
    decreases n
  {
    if n < 10 then [DigitChar(n)] else NatToString(n / 10) + [DigitChar(n % 10)]
  }

  /** The number a string of decimal digits denotes. */
  function DigitsValue(s: string): nat
    requires AllDigits(s)
    decreases |s|
  {
    if s == [] then 0 else DigitsValue(s[..|s| - 1]) * 10 + (s[|s| - 1] as int - '0' as int)
  }

  /** Reading back the rendered digits gives the number: the rendering loses nothing. */
  lemma {:induction false} NatToStringRoundTrip(n: nat)
    ensures DigitsValue(NatToString(n)) == n
    decreases n
  {
    if n >= 10 {
      NatToStringRoundTrip(n / 10);
      var s := NatToString(n);
      assert s[..|s| - 1] == NatToString(n / 10);
    }
  }

  /** Distinct numbers render as distinct strings. */
  lemma NatToStringInjective(m: nat, n: nat)
    requires NatToString(m) == NatToString(n)
    ensures m == n
  {
    NatToStringRoundTrip(m);
    NatToStringRoundTrip(n);
  }
}
