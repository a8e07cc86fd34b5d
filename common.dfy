/** Numeric helpers shared by every component: the source's `Math.abs`,
    `Math.round` and `Math.PI`, and an option type for JavaScript's
    `undefined`. */
module Common {

  datatype Option<+T> = None | Some(value: T)

  /** JavaScript's `Math.PI` (the double nearest to pi). */
  const PI: real := 3.141592653589793

  function Abs(x: real): (r: real)
    ensures r >= 0.0
    ensures r == x || r == -x
  {
    if x < 0.0 then -x else x
  }

  /** `Math.round(v)`: the integer nearest to `v`, halves rounded up. */
  function Round(v: real): (r: int)
    ensures v - 0.5 < r as real <= v + 0.5
  {
    (v + 0.5).Floor
  }

  /** A caller-supplied stand-in for `Math.random()`. */
  predicate Unit(r: real)
  {
    0.0 <= r < 1.0
  }

  /** `a[i] = v` on a JavaScript array filled from index 0 upwards: an
      overwrite inside the array, an append just past its end. */
  function Put<T>(s: seq<T>, i: nat, v: T): (r: seq<T>)
    requires i <= |s|
    ensures |r| == if i < |s| then |s| else |s| + 1
    ensures r[i] == v
    ensures forall k :: 0 <= k < |s| && k != i ==> r[k] == s[k]
  {
    if i < |s| then s[i := v] else s + [v]
  }
}
