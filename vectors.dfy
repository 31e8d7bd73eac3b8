/** Integer 2-vectors in (row, column) order: the shifts, offsets, extents and
    displacement bounds of frame_align.py are all numpy int arrays of length 2. */
module Vectors {

  datatype Vec = Vec(y: int, x: int)

  const Zero := Vec(0, 0)

  function Add(a: Vec, b: Vec): Vec { Vec(a.y + b.y, a.x + b.x) }

  function Sub(a: Vec, b: Vec): Vec { Vec(a.y - b.y, a.x - b.x) }

  function Scale(k: int, a: Vec): Vec { Vec(k * a.y, k * a.x) }

  /** Componentwise `a <= b`, as `np.all(a <= b)`. */
  predicate LessEq(a: Vec, b: Vec) { a.y <= b.y && a.x <= b.x }

  /** Componentwise `np.minimum` and `np.maximum`. */
  function Min(a: Vec, b: Vec): Vec {
    Vec(if a.y <= b.y then a.y else b.y, if a.x <= b.x then a.x else b.x)
  }

  function Max(a: Vec, b: Vec): Vec {
    Vec(if a.y >= b.y then a.y else b.y, if a.x >= b.x then a.x else b.x)
  }

  function AbsInt(n: int): nat { if n < 0 then -n else n }

  /** `np.all(abs(d) <= m)`: every component of `d` is at most `m` in magnitude. */
  predicate Within(d: Vec, m: Vec) { AbsInt(d.y) <= m.y && AbsInt(d.x) <= m.x }

  /** `np.all(m > 0)`. */
  predicate Positive(m: Vec) { m.y > 0 && m.x > 0 }

  /** Squared Euclidean distance, `np.sum((a - b)**2)`. */
  function SqDist(a: Vec, b: Vec): nat {
    var d := Sub(a, b);
    d.y * d.y + d.x * d.x
  }

  /** `np.min(v, axis=0)`: the componentwise minimum of a non-empty list of vectors.
      Each component is a lower bound and is attained by some element. */
  function MinOf(v: seq<Vec>): (m: Vec)
    requires |v| > 0
    ensures forall k :: 0 <= k < |v| ==> LessEq(m, v[k])
    ensures exists k :: 0 <= k < |v| && v[k].y == m.y
    ensures exists k :: 0 <= k < |v| && v[k].x == m.x
  {
    if |v| == 1 then v[0] else Min(MinOf(v[..|v| - 1]), v[|v| - 1])
  }

  /** `np.max(v, axis=0)`: the componentwise maximum of a non-empty list of vectors. */
  function MaxOf(v: seq<Vec>): (m: Vec)
    requires |v| > 0
    ensures forall k :: 0 <= k < |v| ==> LessEq(v[k], m)
    ensures exists k :: 0 <= k < |v| && v[k].y == m.y
    ensures exists k :: 0 <= k < |v| && v[k].x == m.x
  {
    if |v| == 1 then v[0] else Max(MaxOf(v[..|v| - 1]), v[|v| - 1])
  }

  /** `(a / b).astype(int)` for an exact quotient: division truncated toward zero. */
  function TruncDiv(a: int, b: int): (q: int)
    requires b > 0
    ensures AbsInt(a - b * q) < b
    ensures a >= 0 ==> 0 <= a - b * q
    ensures a <= 0 ==> a - b * q <= 0
  {
    if a >= 0 then a / b else -((-a) / b)
  }
}
