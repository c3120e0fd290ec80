/** Number helpers shared by the three pages: `Math.min`/`Math.max` clamping,
    `Math.round`, and the uniform draws of `Math.random()`, which the model
    receives as parameters instead of generating them. */
module Numbers {

  function Min(a: int, b: int): (m: int)
    ensures m <= a && m <= b && (m == a || m == b)
  {
    if a <= b then a else b
  }

  function MinReal(a: real, b: real): (m: real)
    ensures m <= a && m <= b && (m == a || m == b)
  {
    if a <= b then a else b
  }

  function Abs(x: real): (y: real)
    ensures 0.0 <= y && (y == x || y == -x)
  {
    if x < 0.0 then -x else x
  }

  /** `Math.max(lo, Math.min(hi, x))`: x kept within [lo, hi]. */
  function Clamp(lo: real, hi: real, x: real): (v: real)
    requires lo <= hi
    ensures lo <= v <= hi
    ensures lo <= x <= hi ==> v == x
    ensures x < lo ==> v == lo
    ensures hi < x ==> v == hi
  {
    var capped := if hi < x then hi else x;
    if capped < lo then lo else capped
  }

  /** `Math.round(x)`: the nearest integer, halves rounded up. */
  function Round(x: real): (n: int)
    ensures x - 0.5 < n as real <= x + 0.5
  {
    (x + 0.5).Floor
  }

  /** A value `Math.random()` can return. */
  predicate IsDraw(r: real) {
    0.0 <= r < 1.0
  }

  /** `Math.floor(r * n)` for a draw `r`: an index into a pool of `n` items. */
  function ScaledIndex(r: real, n: nat): (i: nat)
    requires IsDraw(r) && n > 0
    ensures i < n
    ensures i as real <= r * n as real < i as real + 1.0
  {
    assert 0.0 <= r * n as real < n as real by {
      assert r * n as real <= 1.0 * n as real;
      assert (1.0 - r) * n as real > 0.0;
    }
    (r * n as real).Floor
  }

  /** `pool[Math.floor(Math.random() * pool.length)]`. */
  function Pick<T>(pool: seq<T>, r: real): (x: T)
    requires IsDraw(r) && |pool| > 0
    ensures x in pool
  {
    pool[ScaledIndex(r, |pool|)]
  }

  /** The draw chooses uniformly: element `i` of `n` is picked exactly for
      draws in [i / n, (i + 1) / n). */
  lemma PickAt<T>(pool: seq<T>, r: real, i: nat)
    requires IsDraw(r) && i < |pool|
    requires i as real <= r * |pool| as real < i as real + 1.0
    ensures Pick(pool, r) == pool[i]
  {
    var j := ScaledIndex(r, |pool|);
    assert j as real <= r * |pool| as real < j as real + 1.0;
    assert j == i;
  }
}
