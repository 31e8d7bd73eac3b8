/** The per-(cycle, frame, plane) records that a run keeps: `namespace.shifts`
    (a list over cycles of int arrays of shape (frames, planes, 2)) and
    `namespace.correlations`, their flattening `list(it.chain(*it.chain(*shifts)))`,
    and the translation of every record by one vector. */
module Records {
  import opened Vectors

  /** Records indexed [cycle][frame][plane]. */
  type Shifts = seq<seq<seq<Vec>>>
  type Scores = seq<seq<seq<real>>>

  /** `s` has `layout[c]` frames in cycle `c` and `planes` entries per frame. */
  predicate Shaped<T>(s: seq<seq<seq<T>>>, layout: seq<nat>, planes: nat) {
    && |s| == |layout|
    && (forall c | 0 <= c < |s| :: |s[c]| == layout[c])
    && (forall c, f | 0 <= c < |s| && 0 <= f < |s[c]| :: |s[c][f]| == planes)
  }

  /** A record of the given shape with every entry `v` (`np.zeros`, line 160). */
  function Filled<T>(layout: seq<nat>, planes: nat, v: T): (s: seq<seq<seq<T>>>)
    ensures Shaped(s, layout, planes)
    ensures forall c, f, p | 0 <= c < |s| && 0 <= f < |s[c]| && 0 <= p < |s[c][f]| :: s[c][f][p] == v
  {
    seq(|layout|, c requires 0 <= c < |layout| => seq(layout[c], f => seq(planes, p => v)))
  }

  /** `s[c][f][p] = v`, one entry rewritten. */
  function Set3<T>(s: seq<seq<seq<T>>>, c: nat, f: nat, p: nat, v: T): seq<seq<seq<T>>>
    requires c < |s| && f < |s[c]| && p < |s[c][f]|
  {
    s[c := s[c][f := s[c][f][p := v]]]
  }

  lemma Set3Shaped<T>(s: seq<seq<seq<T>>>, layout: seq<nat>, planes: nat, c: nat, f: nat, p: nat, v: T)
    requires Shaped(s, layout, planes) && c < |s| && f < |s[c]| && p < |s[c][f]|
    ensures Shaped(Set3(s, c, f, p, v), layout, planes)
    ensures Set3(s, c, f, p, v)[c][f][p] == v
  {
  }

  /** Rewriting an entry with its own value changes nothing. */
  lemma Set3Same<T>(s: seq<seq<seq<T>>>, c: nat, f: nat, p: nat)
    requires c < |s| && f < |s[c]| && p < |s[c][f]|
    ensures Set3(s, c, f, p, s[c][f][p]) == s
  {
    assert s[c][f][p := s[c][f][p]] == s[c][f];
    assert s[c][f := s[c][f]] == s[c];
  }

  /** `list(it.chain(*x))`: the lists of `x` joined in order. */
  function Concat<T>(x: seq<seq<T>>): seq<T> {
    if x == [] then [] else Concat(x[..|x| - 1]) + x[|x| - 1]
  }

  /** Every record of every cycle, frame and plane, in that order. */
  function Flatten(s: Shifts): seq<Vec> {
    Concat(Concat(s))
  }

  lemma {:induction false} ConcatContains<T>(x: seq<seq<T>>, w: seq<T>, j: nat)
    requires w in x && j < |w|
    ensures w[j] in Concat(x)
  {
    var n := |x| - 1;
    if w != x[n] {
      assert w in x[..n] by {
        var i :| 0 <= i < |x| && x[i] == w;
        assert x[..n][i] == w;
      }
      ConcatContains(x[..n], w, j);
    }
  }

  /** Two records of one shape that agree entry by entry are equal. */
  lemma ShapedEqual<T>(a: seq<seq<seq<T>>>, b: seq<seq<seq<T>>>, layout: seq<nat>, planes: nat)
    requires Shaped(a, layout, planes) && Shaped(b, layout, planes)
    requires forall c, f, p | 0 <= c < |a| && 0 <= f < |a[c]| && 0 <= p < planes :: a[c][f][p] == b[c][f][p]
    ensures a == b
  {
    forall c | 0 <= c < |a|
      ensures a[c] == b[c]
    {
      forall f | 0 <= f < |a[c]|
        ensures a[c][f] == b[c][f]
      {
      }
    }
  }

  /** Every record is one of the flattened records. */
  lemma FlattenContains(s: Shifts, c: nat, f: nat, p: nat)
    requires c < |s| && f < |s[c]| && p < |s[c][f]|
    ensures s[c][f][p] in Flatten(s)
  {
    assert s[c] in s;
    ConcatContains(s, s[c], f);
    ConcatContains(Concat(s), s[c][f], p);
  }

  lemma {:induction false} ConcatUniform<T>(x: seq<seq<T>>, k: nat)
    requires forall i | 0 <= i < |x| :: |x[i]| == k
    ensures |Concat(x)| == |x| * k
  {
    if x != [] {
      ConcatUniform(x[..|x| - 1], k);
    }
  }

  lemma {:induction false} ConcatSameLengths<T, U>(x: seq<seq<T>>, y: seq<seq<U>>)
    requires |x| == |y| && forall i | 0 <= i < |x| :: |x[i]| == |y[i]|
    ensures |Concat(x)| == |Concat(y)|
  {
    if x != [] {
      ConcatSameLengths(x[..|x| - 1], y[..|y| - 1]);
    }
  }

  /** The number of frames over all cycles. */
  function FrameCount(layout: seq<nat>): nat {
    if layout == [] then 0 else FrameCount(layout[..|layout| - 1]) + layout[|layout| - 1]
  }

  lemma {:induction false} ConcatFrames<T>(s: seq<seq<seq<T>>>, layout: seq<nat>, planes: nat)
    requires Shaped(s, layout, planes)
    ensures |Concat(s)| == FrameCount(layout)
    ensures forall k | 0 <= k < |Concat(s)| :: |Concat(s)[k]| == planes
  {
    if s != [] {
      var n := |s| - 1;
      assert Shaped(s[..n], layout[..n], planes);
      ConcatFrames(s[..n], layout[..n], planes);
    }
  }

  /** There is one flattened record per (cycle, frame, plane). */
  lemma FlattenLength(s: Shifts, layout: seq<nat>, planes: nat)
    requires Shaped(s, layout, planes)
    ensures |Flatten(s)| == FrameCount(layout) * planes
  {
    ConcatFrames(s, layout, planes);
    ConcatUniform(Concat(s), planes);
  }

  /** `v - a` for every vector of a list. */
  function Translate(v: seq<Vec>, a: Vec): (r: seq<Vec>)
    ensures |r| == |v|
  {
    seq(|v|, k requires 0 <= k < |v| => Sub(v[k], a))
  }

  function TranslateAll(x: seq<seq<Vec>>, a: Vec): (r: seq<seq<Vec>>)
    ensures |r| == |x|
  {
    seq(|x|, i requires 0 <= i < |x| => Translate(x[i], a))
  }

  /** Every record of every cycle, frame and plane minus `a`. */
  function Translate3(s: Shifts, a: Vec): (r: Shifts)
    ensures |r| == |s|
  {
    seq(|s|, c requires 0 <= c < |s| => TranslateAll(s[c], a))
  }

  lemma Translate3Shaped(s: Shifts, a: Vec, layout: seq<nat>, planes: nat)
    requires Shaped(s, layout, planes)
    ensures Shaped(Translate3(s, a), layout, planes)
  {
  }

  lemma TranslateAppend(u: seq<Vec>, v: seq<Vec>, a: Vec)
    ensures Translate(u + v, a) == Translate(u, a) + Translate(v, a)
  {
  }

  lemma {:induction false} ConcatTranslate(x: seq<seq<Vec>>, a: Vec)
    ensures Concat(TranslateAll(x, a)) == Translate(Concat(x), a)
  {
    if x != [] {
      var n := |x| - 1;
      assert TranslateAll(x, a)[..n] == TranslateAll(x[..n], a);
      ConcatTranslate(x[..n], a);
      TranslateAppend(Concat(x[..n]), x[n], a);
    }
  }

  lemma {:induction false} ConcatTranslateAll(s: Shifts, a: Vec)
    ensures Concat(Translate3(s, a)) == TranslateAll(Concat(s), a)
  {
    if s != [] {
      var n := |s| - 1;
      assert Translate3(s, a)[..n] == Translate3(s[..n], a);
      ConcatTranslateAll(s[..n], a);
      assert TranslateAll(Concat(s[..n]) + s[n], a) == TranslateAll(Concat(s[..n]), a) + TranslateAll(s[n], a);
    }
  }

  /** Translating every record translates the flattened list. */
  lemma FlattenTranslate(s: Shifts, a: Vec)
    ensures Flatten(Translate3(s, a)) == Translate(Flatten(s), a)
  {
    ConcatTranslateAll(s, a);
    ConcatTranslate(Concat(s), a);
  }

  /** Componentwise sum of a list of vectors. */
  function SumOf(v: seq<Vec>): Vec {
    if v == [] then Zero else Add(SumOf(v[..|v| - 1]), v[|v| - 1])
  }

  /** Subtracting `a` from each of n vectors subtracts n * a from their sum. */
  lemma {:induction false} SumTranslate(v: seq<Vec>, a: Vec)
    ensures SumOf(Translate(v, a)) == Sub(SumOf(v), Scale(|v|, a))
  {
    if v != [] {
      var n := |v| - 1;
      assert Translate(v, a)[..n] == Translate(v[..n], a);
      SumTranslate(v[..n], a);
      ScaleNext(n, a);
      calc {
        SumOf(Translate(v, a));
        Add(Sub(SumOf(v[..n]), Scale(n, a)), Sub(v[n], a));
        Sub(Add(SumOf(v[..n]), v[n]), Add(Scale(n, a), a));
      }
    }
  }

  lemma ScaleNext(n: int, a: Vec)
    ensures Scale(n + 1, a) == Add(Scale(n, a), a)
  {
    assert (n + 1) * a.y == n * a.y + a.y;
    assert (n + 1) * a.x == n * a.x + a.x;
  }
}
