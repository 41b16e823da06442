/**
 The few JavaScript values and Array built-ins that the post route handlers
 rely on, with the meaning ECMAScript gives them on the inputs they receive.
 */
module Js {

  /** A JavaScript value as far as the handlers compare them: a string or `undefined`. */
  datatype JsValue = JsString(s: string) | JsUndefined

  /** `a === b`: strings are equal when their characters are, `undefined` only equals itself. */
  function StrictEquals(a: JsValue, b: JsValue): (r: bool)
    ensures a.JsString? && b.JsUndefined? ==> !r
    ensures a.JsString? && b.JsString? ==> (r <==> a.s == b.s)
  {
    a == b
  }

  /** `s.filter(p)`: the elements of `s` that satisfy `p`. */
  function Filter<T>(s: seq<T>, p: T -> bool): (r: seq<T>)
    ensures |r| <= |s|
    ensures forall i :: 0 <= i < |r| ==> r[i] in s && p(r[i])
    ensures forall i :: 0 <= i < |s| && p(s[i]) ==> s[i] in r
    ensures |r| == 0 <==> forall i :: 0 <= i < |s| ==> !p(s[i])
  {
    if s == [] then []
    else if p(s[0]) then [s[0]] + Filter(s[1..], p)
    else Filter(s[1..], p)
  }

  /** `s.map(f)`. */
  function Map<T, U>(s: seq<T>, f: T -> U): (r: seq<U>)
    ensures |r| == |s|
    ensures forall i :: 0 <= i < |s| ==> r[i] == f(s[i])
  {
    if s == [] then [] else [f(s[0])] + Map(s[1..], f)
  }

  /** `s.indexOf(x)`: the first position holding `x`, or -1 when none does. */
  function IndexOf<T(==)>(s: seq<T>, x: T): (r: int)
    ensures -1 <= r < |s|
    ensures r == -1 <==> x !in s
    ensures 0 <= r ==> s[r] == x && forall j :: 0 <= j < r ==> s[j] != x
  {
    if s == [] then -1
    else if s[0] == x then 0
    else
      var k := IndexOf(s[1..], x);
      if k == -1 then -1 else k + 1
  }

  /**
   The array that `s.splice(start, 1)` leaves behind. A negative `start`
   counts from the end (clamped at 0); a `start` past the end removes nothing.
   */
  function Splice<T>(s: seq<T>, start: int): (r: seq<T>)
    ensures 0 <= start < |s| ==> r == s[..start] + s[start + 1..]
    ensures -|s| <= start < 0 ==> r == s[..|s| + start] + s[|s| + start + 1..]
    ensures |s| <= start ==> r == s
    ensures start < -|s| ==> r == if s == [] then s else s[1..]
    ensures |r| == if s == [] || |s| <= start then |s| else |s| - 1
  {
    var first := if start < 0 then (if |s| + start < 0 then 0 else |s| + start) else start;
    if first < |s| then s[..first] + s[first + 1..] else s
  }
}
