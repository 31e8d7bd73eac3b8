/** The running reference of one tile run: the state `_frame_alignment_base`
    keeps in its namespace (frame_align.py:154-161) and the two helpers of
    `_align_frame` that change it, `_update_sums_and_counts` (231-244) and
    `_resize_arrays` (246-277). */
module Reference {
  import opened Vectors
  import opened Frames
  import opened Records

  /** Is the rectangle [at, at + (rows, cols)) inside a gridRows x gridCols grid? */
  predicate Fits(at: Vec, rows: nat, cols: nat, gridRows: int, gridCols: int) {
    0 <= at.y && at.y + rows <= gridRows && 0 <= at.x && at.x + cols <= gridCols
  }

  /** The zero padding `_resize_arrays` adds above/left (`l`) and below/right (`r`). */
  datatype Padding = Padding(before: Vec, after: Vec)

  /** Lines 248-253 for a plane placed at `at` (that is, `offset + shift`). The
      padding is never negative, it is zero exactly when the placement already
      fits, and after it the placement fits. */
  function Growth(at: Vec, rows: nat, cols: nat, gridRows: nat, gridCols: nat): (g: Padding)
    ensures LessEq(Zero, g.before) && LessEq(Zero, g.after)
    ensures g == Padding(Zero, Zero) <==> Fits(at, rows, cols, gridRows, gridCols)
    ensures Fits(Add(at, g.before), rows, cols,
                 gridRows + g.before.y + g.after.y, gridCols + g.before.x + g.after.x)
  {
    var l := Vec(if at.y < 0 then -at.y else 0, if at.x < 0 then -at.x else 0);
    var r := Vec(if at.y + rows - gridRows > 0 then at.y + rows - gridRows else 0,
                 if at.x + cols - gridCols > 0 then at.x + cols - gridCols else 0);
    Padding(l, r)
  }

  /** The padding is the least that makes the placement fit. */
  lemma GrowthIsLeast(at: Vec, rows: nat, cols: nat, gridRows: nat, gridCols: nat, l: Vec, r: Vec)
    requires LessEq(Zero, l) && LessEq(Zero, r)
    requires Fits(Add(at, l), rows, cols, gridRows + l.y + r.y, gridCols + l.x + r.x)
    ensures LessEq(Growth(at, rows, cols, gridRows, gridCols).before, l)
    ensures LessEq(Growth(at, rows, cols, gridRows, gridCols).after, r)
  {
  }

  /** Assertion 276: the accumulator holds fewer cells than four frames. */
  predicate AreaBound(planes: nat, rows: nat, cols: nat, gridRows: nat, gridCols: nat) {
    planes * gridRows * gridCols < 4 * (planes * rows * cols)
  }

  /** The frame-sized grid a run starts from passes assertion 276 exactly when
      the frame has at least one sample. */
  lemma AreaBoundInitial(planes: nat, rows: nat, cols: nat)
    ensures AreaBound(planes, rows, cols, rows, cols) <==> planes * rows * cols > 0
  {
  }

  /** Every record, placed at `offset`, lies inside a gridRows x gridCols grid:
      each plane already added can still be found where its record says. */
  predicate AllFit(s: Shifts, offset: Vec, rows: nat, cols: nat, gridRows: int, gridCols: int) {
    forall c, f, q | 0 <= c < |s| && 0 <= f < |s[c]| && 0 <= q < |s[c][f]| ::
      Fits(Add(offset, s[c][f][q]), rows, cols, gridRows, gridCols)
  }

  /** Padding by `l` before and `r` after, with the offset moved by `l`, keeps
      every placement inside. */
  lemma AllFitPadded(s: Shifts, offset: Vec, rows: nat, cols: nat, gridRows: int, gridCols: int, l: Vec, r: Vec)
    requires AllFit(s, offset, rows, cols, gridRows, gridCols) && LessEq(Zero, l) && LessEq(Zero, r)
    ensures AllFit(s, Add(offset, l), rows, cols, gridRows + l.y + r.y, gridCols + l.x + r.x)
  {
  }

  /** Zero records at a zero offset lie inside a frame-sized grid. */
  lemma AllFitFilled(layout: seq<nat>, planes: nat, rows: nat, cols: nat)
    ensures AllFit(Filled(layout, planes, Zero), Zero, rows, cols, rows, cols)
  {
    var s := Filled(layout, planes, Zero);
    forall c, f, q | 0 <= c < |s| && 0 <= f < |s[c]| && 0 <= q < |s[c][f]|
      ensures Fits(Add(Zero, s[c][f][q]), rows, cols, rows, cols)
    {
      assert s[c][f][q] == Zero;
    }
  }

  /** Storing a record that fits keeps every placement inside. */
  lemma AllFitSet3(s: Shifts, offset: Vec, rows: nat, cols: nat, gridRows: int, gridCols: int,
                   c: nat, f: nat, q: nat, v: Vec)
    requires c < |s| && f < |s[c]| && q < |s[c][f]|
    requires AllFit(s, offset, rows, cols, gridRows, gridCols) && Fits(Add(offset, v), rows, cols, gridRows, gridCols)
    ensures AllFit(Set3(s, c, f, q, v), offset, rows, cols, gridRows, gridCols)
  {
  }

  /** Plane `p` of the sums and counts, handed to the correlation primitive as
      its reference (the quotient `p_sums / p_counts` is left to the primitive). */
  datatype RefView = RefView(sums: seq<seq<real>>, counts: seq<seq<int>>)

  /** Some cell of plane `p` of the counts is not zero. */
  predicate GridSeeded(n: array3<int>, p: nat)
    reads n
    requires p < n.Length0
  {
    exists i, j | 0 <= i < n.Length1 && 0 <= j < n.Length2 :: n[p, i, j] != 0
  }

  /** Plane `p` of a grid, row by row. */
  function Layer<T>(a: array3<T>, p: nat): (g: seq<seq<T>>)
    reads a
    requires p < a.Length0
    ensures |g| == a.Length1 && forall i | 0 <= i < |g| :: |g[i]| == a.Length2
  {
    seq(a.Length1, i requires 0 <= i < a.Length1 reads a =>
      seq(a.Length2, j requires 0 <= j < a.Length2 reads a => a[p, i, j]))
  }

  /** A plane of a grid that holds `z` in every cell is rows of `z`. */
  lemma LayerFilled<T>(a: array3<T>, p: nat, z: T)
    requires p < a.Length0
    requires forall i, j | 0 <= i < a.Length1 && 0 <= j < a.Length2 :: a[p, i, j] == z
    ensures Layer(a, p) == seq(a.Length1, i => seq(a.Length2, j => z))
  {
    forall i | 0 <= i < a.Length1
      ensures Layer(a, p)[i] == seq(a.Length2, j => z)
    {
    }
  }

  /** Plane `p` of grids `s` and `n` as a view. */
  function GridView(s: array3<real>, n: array3<int>, p: nat): (v: RefView)
    reads s, n
    requires p < s.Length0 && p < n.Length0
    ensures s.Length1 == n.Length1 && s.Length2 == n.Length2 ==> Rect(v, s.Length1, s.Length2)
  {
    RefView(Layer(s, p), Layer(n, p))
  }

  /** Both grids of the view are rows x cols. */
  predicate Rect(v: RefView, rows: nat, cols: nat) {
    && |v.sums| == rows && |v.counts| == rows
    && forall i | 0 <= i < rows :: |v.sums[i]| == cols && |v.counts[i]| == cols
  }

  /** Cell (i, j) of `g` zero-padded by `l` before: the old cell moved by `l`,
      `zero` in the padding. */
  function PadCell<T>(g: seq<seq<T>>, l: Vec, i: int, j: int, zero: T): T {
    if l.y <= i < l.y + |g| && l.x <= j < l.x + |g[i - l.y]| then g[i - l.y][j - l.x] else zero
  }

  /** A plane's reference after `_resize_arrays` padded it by `l` before, to a
      rows x cols grid. */
  function PadView(v: RefView, l: Vec, rows: nat, cols: nat): (w: RefView)
    ensures Rect(w, rows, cols)
  {
    RefView(seq(rows, i => seq(cols, j => PadCell(v.sums, l, i, j, 0.0))),
            seq(rows, i => seq(cols, j => PadCell(v.counts, l, i, j, 0))))
  }

  /** No padding leaves a view as it was. */
  lemma PadViewZero(v: RefView, rows: nat, cols: nat)
    requires Rect(v, rows, cols)
    ensures PadView(v, Zero, rows, cols) == v
  {
    var w := PadView(v, Zero, rows, cols);
    forall i | 0 <= i < rows
      ensures w.sums[i] == v.sums[i] && w.counts[i] == v.counts[i]
    {
    }
  }

  /** A sequence that agrees with `a` everywhere but at `p`, where it holds
      `x`, is `a` updated at `p`. */
  lemma Updated<T>(a: seq<T>, b: seq<T>, p: nat, x: T)
    requires |a| == |b| && p < |a| && b[p] == x
    requires forall q | 0 <= q < |a| && q != p :: b[q] == a[q]
    ensures b == a[p := x]
  {
  }

  /** Every view of `vs` padded by `l` to rows x cols. */
  function PadViews(vs: seq<RefView>, l: Vec, rows: nat, cols: nat): (ws: seq<RefView>)
    ensures |ws| == |vs| && forall q | 0 <= q < |vs| :: ws[q] == PadView(vs[q], l, rows, cols)
  {
    seq(|vs|, q requires 0 <= q < |vs| => PadView(vs[q], l, rows, cols))
  }

  /** Padding views that are all rows x cols by nothing leaves them. */
  lemma PadViewsZero(vs: seq<RefView>, rows: nat, cols: nat)
    requires forall q | 0 <= q < |vs| :: Rect(vs[q], rows, cols)
    ensures PadViews(vs, Zero, rows, cols) == vs
  {
    forall q | 0 <= q < |vs|
      ensures PadView(vs[q], Zero, rows, cols) == vs[q]
    {
      PadViewZero(vs[q], rows, cols);
    }
  }

  /** A rows x cols view that agrees with `v` padded by `l` cell by cell is
      that padded view. */
  lemma PadViewCells(a: RefView, v: RefView, l: Vec, rows: nat, cols: nat)
    requires Rect(a, rows, cols)
    requires forall i, j | 0 <= i < rows && 0 <= j < cols ::
               a.sums[i][j] == PadCell(v.sums, l, i, j, 0.0) && a.counts[i][j] == PadCell(v.counts, l, i, j, 0)
    ensures a == PadView(v, l, rows, cols)
  {
    var w := PadView(v, l, rows, cols);
    forall i | 0 <= i < rows
      ensures a.sums[i] == w.sums[i] && a.counts[i] == w.counts[i]
    {
    }
  }

  /** Grids that hold the old ones padded by `l` show each plane's old view
      padded by `l`. */
  lemma PaddedGridView(s0: array3<real>, n0: array3<int>, s1: array3<real>, n1: array3<int>, l: Vec, p: nat)
    requires p < s0.Length0 && p < n0.Length0 && p < s1.Length0 && p < n1.Length0
    requires s0.Length1 == n0.Length1 && s0.Length2 == n0.Length2
    requires s1.Length1 == n1.Length1 && s1.Length2 == n1.Length2
    requires forall i, j | 0 <= i < s1.Length1 && 0 <= j < s1.Length2 ::
               s1[p, i, j] == PaddedSum(s0, l, p, i, j) && n1[p, i, j] == PaddedCount(n0, l, p, i, j)
    ensures GridView(s1, n1, p) == PadView(GridView(s0, n0, p), l, s1.Length1, s1.Length2)
  {
    var a, v := GridView(s1, n1, p), GridView(s0, n0, p);
    forall i, j | 0 <= i < s1.Length1 && 0 <= j < s1.Length2
      ensures a.sums[i][j] == PadCell(v.sums, l, i, j, 0.0) && a.counts[i][j] == PadCell(v.counts, l, i, j, 0)
    {
      assert s1[p, i, j] == PaddedSum(s0, l, p, i, j) && n1[p, i, j] == PaddedCount(n0, l, p, i, j);
    }
    PadViewCells(a, v, l, s1.Length1, s1.Length2);
  }

  /** Padding the counts with zeros seeds no plane and unseeds none. */
  lemma PaddedSeeded(n0: array3<int>, n1: array3<int>, l: Vec, p: nat)
    requires p < n0.Length0 && p < n1.Length0 && LessEq(Zero, l)
    requires n0.Length1 + l.y <= n1.Length1 && n0.Length2 + l.x <= n1.Length2
    requires forall i, j | 0 <= i < n1.Length1 && 0 <= j < n1.Length2 :: n1[p, i, j] == PaddedCount(n0, l, p, i, j)
    ensures GridSeeded(n1, p) == GridSeeded(n0, p)
  {
    if GridSeeded(n1, p) {
      var i, j :| 0 <= i < n1.Length1 && 0 <= j < n1.Length2 && n1[p, i, j] != 0;
      assert n0[p, i - l.y, j - l.x] != 0;
    }
    if GridSeeded(n0, p) {
      var i, j :| 0 <= i < n0.Length1 && 0 <= j < n0.Length2 && n0[p, i, j] != 0;
      assert n1[p, i + l.y, j + l.x] == PaddedCount(n0, l, p, i + l.y, j + l.x);
    }
  }

  /** A grid whose origin moved from `a` to `b` and then to `e` is the grid
      padded once for the move from `a` to `e`, as long as each padding keeps
      the grid it pads. */
  lemma PadViewTwice(v: RefView, a: Vec, r0: nat, c0: nat, b: Vec, r1: nat, c1: nat, e: Vec, r2: nat, c2: nat)
    requires Rect(v, r0, c0) && LessEq(a, b) && LessEq(b, e)
    requires r0 + (b.y - a.y) <= r1 && c0 + (b.x - a.x) <= c1 && r1 + (e.y - b.y) <= r2 && c1 + (e.x - b.x) <= c2
    ensures PadView(PadView(v, Sub(b, a), r1, c1), Sub(e, b), r2, c2) == PadView(v, Sub(e, a), r2, c2)
  {
    var d, l := Sub(b, a), Sub(e, b);
    assert Add(d, l) == Sub(e, a);
    var u, w := PadView(PadView(v, d, r1, c1), l, r2, c2), PadView(v, Add(d, l), r2, c2);
    forall i | 0 <= i < r2
      ensures u.sums[i] == w.sums[i] && u.counts[i] == w.counts[i]
    {
      forall j | 0 <= j < c2
        ensures u.sums[i][j] == w.sums[i][j] && u.counts[i][j] == w.counts[i][j]
      {
        if l.y <= i < l.y + r1 && l.x <= j < l.x + c1 {
          assert u.sums[i][j] == PadCell(v.sums, d, i - l.y, j - l.x, 0.0);
          assert u.counts[i][j] == PadCell(v.counts, d, i - l.y, j - l.x, 0);
        }
      }
    }
  }

  /** Cell (i, j) of the grid lies under sample (i - at.y, j - at.x) of `plane`,
      and that sample is among the first `di` rows, or the first `dj` samples
      of row `di`, of the plane. */
  predicate Placed(plane: Plane, at: Vec, di: int, dj: int, i: int, j: int) {
    var a := i - at.y;
    var b := j - at.x;
    0 <= a < |plane| && 0 <= b < |plane[a]| && (a < di || (a == di && b < dj))
  }

  function PartialSum(plane: Plane, p: nat, at: Vec, di: int, dj: int, q: int, i: int, j: int): real {
    if q == p && Placed(plane, at, di, dj, i, j) then NanToNum(plane[i - at.y][j - at.x]) else 0.0
  }

  function PartialCount(plane: Plane, p: nat, at: Vec, di: int, dj: int, q: int, i: int, j: int): nat {
    if q == p && Placed(plane, at, di, dj, i, j) then FiniteCount(plane[i - at.y][j - at.x]) else 0
  }

  /** What adding `plane` as plane `p` at `at` adds to cell (q, i, j) of the sums
      and of the counts: the sample's `nan_to_num` and `isfinite` under the
      placement rectangle of plane `p`, nothing elsewhere. */
  function SumDelta(plane: Plane, p: nat, at: Vec, q: int, i: int, j: int): real {
    PartialSum(plane, p, at, |plane|, 0, q, i, j)
  }

  function CountDelta(plane: Plane, p: nat, at: Vec, q: int, i: int, j: int): nat {
    PartialCount(plane, p, at, |plane|, 0, q, i, j)
  }

  /** A rows x cols view of plane `p` after `_update_sums_and_counts` added
      `plane` at `at`: each cell rises by that plane's delta. */
  function AddView(v: RefView, plane: Plane, p: nat, at: Vec, rows: nat, cols: nat): (w: RefView)
    requires Rect(v, rows, cols)
    ensures Rect(w, rows, cols)
  {
    RefView(seq(rows, i requires 0 <= i < rows => seq(cols, j requires 0 <= j < cols =>
              v.sums[i][j] + SumDelta(plane, p, at, p, i, j))),
            seq(rows, i requires 0 <= i < rows => seq(cols, j requires 0 <= j < cols =>
              v.counts[i][j] + CountDelta(plane, p, at, p, i, j))))
  }

  /** A rows x cols view that exceeds `v` by plane `p`'s delta cell by cell is
      `v` with the plane added. */
  lemma AddViewCells(a: RefView, v: RefView, plane: Plane, p: nat, at: Vec, rows: nat, cols: nat)
    requires Rect(a, rows, cols) && Rect(v, rows, cols)
    requires forall i, j | 0 <= i < rows && 0 <= j < cols ::
               && a.sums[i][j] == v.sums[i][j] + SumDelta(plane, p, at, p, i, j)
               && a.counts[i][j] == v.counts[i][j] + CountDelta(plane, p, at, p, i, j)
    ensures a == AddView(v, plane, p, at, rows, cols)
  {
    var w := AddView(v, plane, p, at, rows, cols);
    forall i | 0 <= i < rows
      ensures a.sums[i] == w.sums[i] && a.counts[i] == w.counts[i]
    {
    }
  }

  /** Padding commutes with an added plane that fits: padding by `l` a view
      to which `plane` was added at `at` gives the padded view with `plane`
      added at `at + l`, since the padding only holds cells the plane never
      reached. */
  lemma {:induction false} PadAddView(v: RefView, plane: Plane, p: nat, at: Vec, rows: nat, cols: nat,
                                      r1: nat, c1: nat, l: Vec, r2: nat, c2: nat)
    requires Rect(v, r1, c1) && IsPlane(plane, rows, cols) && Fits(at, rows, cols, r1, c1)
    requires LessEq(Zero, l) && r1 + l.y <= r2 && c1 + l.x <= c2
    ensures PadView(AddView(v, plane, p, at, r1, c1), l, r2, c2)
            == AddView(PadView(v, l, r2, c2), plane, p, Add(at, l), r2, c2)
  {
    var u, w := PadView(AddView(v, plane, p, at, r1, c1), l, r2, c2), PadView(v, l, r2, c2);
    forall i, j | 0 <= i < r2 && 0 <= j < c2
      ensures && u.sums[i][j] == w.sums[i][j] + SumDelta(plane, p, Add(at, l), p, i, j)
              && u.counts[i][j] == w.counts[i][j] + CountDelta(plane, p, Add(at, l), p, i, j)
    {
      if l.y <= i < l.y + r1 && l.x <= j < l.x + c1 {
        assert Placed(plane, Add(at, l), |plane|, 0, i, j) == Placed(plane, at, |plane|, 0, i - l.y, j - l.x);
      } else {
        assert !Placed(plane, Add(at, l), |plane|, 0, i, j);
      }
    }
    AddViewCells(u, w, plane, p, Add(at, l), r2, c2);
  }

  /** Plane `q`'s view `v` holds `v0` padded by `moved` with `plane` added at
      `at`, where the rows x cols plane lies inside the gridRows x gridCols grid. */
  predicate LayerAdded(v: RefView, v0: RefView, moved: Vec, plane: Plane, q: nat, at: Vec,
                       rows: nat, cols: nat, gridRows: nat, gridCols: nat)
  {
    && Fits(at, rows, cols, gridRows, gridCols)
    && v == AddView(PadView(v0, moved, gridRows, gridCols), plane, q, at, gridRows, gridCols)
  }

  /** A later padding by `l` keeps a layer added: the start view is padded by
      the two moves together and the plane sits `l` further on. */
  lemma LayerPadded(v: RefView, v0: RefView, moved: Vec, plane: Plane, q: nat, at: Vec,
                    rows: nat, cols: nat, r0: nat, c0: nat, r1: nat, c1: nat, l: Vec, r2: nat, c2: nat)
    requires LayerAdded(v, v0, moved, plane, q, at, rows, cols, r1, c1)
    requires IsPlane(plane, rows, cols) && Rect(v0, r0, c0)
    requires LessEq(Zero, moved) && r0 + moved.y <= r1 && c0 + moved.x <= c1
    requires LessEq(Zero, l) && r1 + l.y <= r2 && c1 + l.x <= c2
    ensures LayerAdded(PadView(v, l, r2, c2), v0, Add(moved, l), plane, q, Add(at, l), rows, cols, r2, c2)
  {
    PadAddView(PadView(v0, moved, r1, c1), plane, q, at, rows, cols, r1, c1, l, r2, c2);
    assert Sub(moved, Zero) == moved && Sub(Add(moved, l), moved) == l && Sub(Add(moved, l), Zero) == Add(moved, l);
    PadViewTwice(v0, Zero, r0, c0, moved, r1, c1, Add(moved, l), r2, c2);
  }

  /** Cell (q, i, j) of grid `a` zero-padded by `l` before: the old cell moved
      by `l`, zero in the padding. */
  function PaddedSum(a: array3<real>, l: Vec, q: int, i: int, j: int): real
    reads a
  {
    if 0 <= q < a.Length0 && l.y <= i < l.y + a.Length1 && l.x <= j < l.x + a.Length2
    then a[q, i - l.y, j - l.x] else 0.0
  }

  function PaddedCount(a: array3<int>, l: Vec, q: int, i: int, j: int): int
    reads a
  {
    if 0 <= q < a.Length0 && l.y <= i < l.y + a.Length1 && l.x <= j < l.x + a.Length2
    then a[q, i - l.y, j - l.x] else 0
  }

  /** No count of the grid is negative. */
  ghost predicate NonNegative(counts: array3<int>)
    reads counts
  {
    forall q, i, j | 0 <= q < counts.Length0 && 0 <= i < counts.Length1 && 0 <= j < counts.Length2 ::
      counts[q, i, j] >= 0
  }

  /** Some count of the layer is not zero. */
  predicate CountsSeeded(g: seq<seq<int>>) {
    exists i, j | 0 <= i < |g| && 0 <= j < |g[i]| :: g[i][j] != 0
  }

  /** A plane of the grid is seeded exactly when its layer is. */
  lemma SeededLayer(n: array3<int>, q: nat)
    requires q < n.Length0
    ensures GridSeeded(n, q) == CountsSeeded(Layer(n, q))
  {
    if GridSeeded(n, q) {
      var i, j :| 0 <= i < n.Length1 && 0 <= j < n.Length2 && n[q, i, j] != 0;
      assert Layer(n, q)[i][j] != 0;
    }
  }

  /** Adding `plane` to a view whose counts are never negative seeds it
      exactly when it was seeded or the plane holds a finite sample. */
  lemma SeededAddView(v: RefView, plane: Plane, p: nat, at: Vec, rows: nat, cols: nat, gridRows: nat, gridCols: nat)
    requires Rect(v, gridRows, gridCols) && IsPlane(plane, rows, cols) && Fits(at, rows, cols, gridRows, gridCols)
    requires forall i, j | 0 <= i < gridRows && 0 <= j < gridCols :: v.counts[i][j] >= 0
    ensures CountsSeeded(AddView(v, plane, p, at, gridRows, gridCols).counts) <==> CountsSeeded(v.counts) || HasFinite(plane)
  {
    var w := AddView(v, plane, p, at, gridRows, gridCols).counts;
    if CountsSeeded(w) && !CountsSeeded(v.counts) {
      var i, j :| 0 <= i < |w| && 0 <= j < |w[i]| && w[i][j] != 0;
      AddViewCount(v, plane, p, at, gridRows, gridCols, i, j);
    }
    if CountsSeeded(v.counts) {
      var i, j :| 0 <= i < gridRows && 0 <= j < gridCols && v.counts[i][j] != 0;
      AddViewCount(v, plane, p, at, gridRows, gridCols, i, j);
    }
    if HasFinite(plane) {
      var a, b :| 0 <= a < |plane| && 0 <= b < |plane[a]| && plane[a][b].Finite?;
      AddViewCount(v, plane, p, at, gridRows, gridCols, at.y + a, at.x + b);
    }
  }

  /** Cell (i, j) of the counts of an added view: its count rises by one
      exactly when it lies under a finite sample of the plane. */
  lemma AddViewCount(v: RefView, plane: Plane, p: nat, at: Vec, gridRows: nat, gridCols: nat, i: nat, j: nat)
    requires Rect(v, gridRows, gridCols) && i < gridRows && j < gridCols
    ensures var a, b := i - at.y, j - at.x;
            AddView(v, plane, p, at, gridRows, gridCols).counts[i][j]
            == v.counts[i][j] + (if 0 <= a < |plane| && 0 <= b < |plane[a]| && plane[a][b].Finite? then 1 else 0)
  {
  }

  /** Line 237-239: `pixel_counts[p][rectangle] += np.isfinite(plane)`. */
  method AddCounts(counts: array3<int>, p: nat, at: Vec, plane: Plane, rows: nat, cols: nat)
    requires p < counts.Length0 && IsPlane(plane, rows, cols)
    requires Fits(at, rows, cols, counts.Length1, counts.Length2)
    modifies counts
    ensures forall q, i, j | 0 <= q < counts.Length0 && 0 <= i < counts.Length1 && 0 <= j < counts.Length2 ::
              counts[q, i, j] == old(counts[q, i, j]) + CountDelta(plane, p, at, q, i, j)
    ensures forall q | 0 <= q < counts.Length0 && q != p :: Layer(counts, q) == old(Layer(counts, q))
  {
    var i := 0;
    while i < rows
      invariant 0 <= i <= rows
      invariant forall q, y, x | 0 <= q < counts.Length0 && 0 <= y < counts.Length1 && 0 <= x < counts.Length2 ::
                  counts[q, y, x] == old(counts[q, y, x]) + PartialCount(plane, p, at, i, 0, q, y, x)
    {
      var j := 0;
      while j < cols
        invariant 0 <= j <= cols
        invariant forall q, y, x | 0 <= q < counts.Length0 && 0 <= y < counts.Length1 && 0 <= x < counts.Length2 ::
                    counts[q, y, x] == old(counts[q, y, x]) + PartialCount(plane, p, at, i, j, q, y, x)
      {
        counts[p, at.y + i, at.x + j] := counts[p, at.y + i, at.x + j] + FiniteCount(plane[i][j]);
        j := j + 1;
      }
      i := i + 1;
    }
    forall q | 0 <= q < counts.Length0 && q != p
      ensures Layer(counts, q) == old(Layer(counts, q))
    {
      forall i | 0 <= i < counts.Length1
        ensures Layer(counts, q)[i] == old(Layer(counts, q))[i]
      {
      }
    }
  }

  /** Line 240-242: `pixel_sums[p][rectangle] += np.nan_to_num(plane)`. */
  method AddSums(sums: array3<real>, p: nat, at: Vec, plane: Plane, rows: nat, cols: nat)
    requires p < sums.Length0 && IsPlane(plane, rows, cols)
    requires Fits(at, rows, cols, sums.Length1, sums.Length2)
    modifies sums
    ensures forall q, i, j | 0 <= q < sums.Length0 && 0 <= i < sums.Length1 && 0 <= j < sums.Length2 ::
              sums[q, i, j] == old(sums[q, i, j]) + SumDelta(plane, p, at, q, i, j)
    ensures forall q | 0 <= q < sums.Length0 && q != p :: Layer(sums, q) == old(Layer(sums, q))
  {
    var i := 0;
    while i < rows
      invariant 0 <= i <= rows
      invariant forall q, y, x | 0 <= q < sums.Length0 && 0 <= y < sums.Length1 && 0 <= x < sums.Length2 ::
                  sums[q, y, x] == old(sums[q, y, x]) + PartialSum(plane, p, at, i, 0, q, y, x)
    {
      var j := 0;
      while j < cols
        invariant 0 <= j <= cols
        invariant forall q, y, x | 0 <= q < sums.Length0 && 0 <= y < sums.Length1 && 0 <= x < sums.Length2 ::
                    sums[q, y, x] == old(sums[q, y, x]) + PartialSum(plane, p, at, i, j, q, y, x)
      {
        sums[p, at.y + i, at.x + j] := sums[p, at.y + i, at.x + j] + NanToNum(plane[i][j]);
        j := j + 1;
      }
      i := i + 1;
    }
    forall q | 0 <= q < sums.Length0 && q != p
      ensures Layer(sums, q) == old(Layer(sums, q))
    {
      forall i | 0 <= i < sums.Length1
        ensures Layer(sums, q)[i] == old(Layer(sums, q))[i]
      {
      }
    }
  }

  /** Lines 257-273 on one grid: zeros before and after along rows and along
      columns, the old cells moved by the leading padding `l`. */
  method PadSums(a: array3<real>, l: Vec, r: Vec) returns (b: array3<real>)
    requires LessEq(Zero, l) && LessEq(Zero, r)
    ensures fresh(b)
    ensures b.Length0 == a.Length0 && b.Length1 == a.Length1 + l.y + r.y && b.Length2 == a.Length2 + l.x + r.x
    ensures forall q, i, j | 0 <= q < b.Length0 && 0 <= i < b.Length1 && 0 <= j < b.Length2 ::
              b[q, i, j] == PaddedSum(a, l, q, i, j)
  {
    b := new real[a.Length0, a.Length1 + l.y + r.y, a.Length2 + l.x + r.x]((q, i, j) reads a =>
      PaddedSum(a, l, q, i, j));
  }

  method PadCounts(a: array3<int>, l: Vec, r: Vec) returns (b: array3<int>)
    requires LessEq(Zero, l) && LessEq(Zero, r)
    ensures fresh(b)
    ensures NonNegative(a) ==> NonNegative(b)
    ensures b.Length0 == a.Length0 && b.Length1 == a.Length1 + l.y + r.y && b.Length2 == a.Length2 + l.x + r.x
    ensures forall q, i, j | 0 <= q < b.Length0 && 0 <= i < b.Length1 && 0 <= j < b.Length2 ::
              b[q, i, j] == PaddedCount(a, l, q, i, j)
  {
    b := new int[a.Length0, a.Length1 + l.y + r.y, a.Length2 + l.x + r.x]((q, i, j) reads a =>
      PaddedCount(a, l, q, i, j));
  }

  /** The namespace of one run: per-plane pixel sums and counts sharing one
      offset, and the shift and correlation records. */
  class RunState {
    const planes: nat
    const rows: nat
    const cols: nat
    const layout: seq<nat>
    var sums: array3<real>
    var counts: array3<int>
    var offset: Vec
    var shifts: Shifts
    var correlations: Scores
    /** Each plane's reference and seeding, as values. */
    ghost var layers: seq<RefView>
    ghost var seeds: seq<bool>

    /** The grids have one layer per plane and one shape; the frame placed at
        `offset` lies inside them; counts are never negative; the records have
        the run's shape. */
    ghost predicate Sized()
      reads this, counts
    {
      && sums.Length0 == planes && counts.Length0 == planes
      && sums.Length1 == counts.Length1 && sums.Length2 == counts.Length2
      && Fits(offset, rows, cols, sums.Length1, sums.Length2)
      && NonNegative(counts)
      && Shaped(shifts, layout, planes) && Shaped(correlations, layout, planes)
    }

    /** `Sized`, and `layers` and `seeds` are what the grids hold. */
    ghost predicate Valid()
      reads this, sums, counts
    {
      && Sized()
      && |layers| == planes && |seeds| == planes
      && forall q | 0 <= q < planes :: layers[q] == View(q) && seeds[q] == Seeded(q)
    }

    /** `np.any(pixel_counts[p])` (line 284): some pixel of plane `p` has been counted. */
    predicate Seeded(p: nat)
      reads this`counts, counts
      requires p < counts.Length0
    {
      GridSeeded(counts, p)
    }

    function View(p: nat): (v: RefView)
      reads this`sums, this`counts, sums, counts
      requires p < sums.Length0 && p < counts.Length0
      ensures sums.Length1 == counts.Length1 && sums.Length2 == counts.Length2 ==> Rect(v, sums.Length1, sums.Length2)
    {
      GridView(sums, counts, p)
    }

    /** The padding a resize for a plane recorded at `record` would add. */
    function PaddingFor(record: Vec): Padding
      reads this
    {
      Growth(Add(offset, record), rows, cols, sums.Length1, sums.Length2)
    }

    /** Every stored record, placed at the offset, lies inside the grids. */
    predicate AllPlaced()
      reads this
    {
      AllFit(shifts, offset, rows, cols, sums.Length1, sums.Length2)
    }

    /** The grids, grown for a plane recorded at `record`, still pass assertion 276. */
    predicate RoomFor(record: Vec)
      reads this
    {
      var g := PaddingFor(record);
      AreaBound(planes, rows, cols, sums.Length1 + g.before.y + g.after.y, sums.Length2 + g.before.x + g.after.x)
    }

    /** Lines 155-161: zero grids of the frame's shape, offset zero, zero shift
        records (and correlation records, which every step overwrites). */
    constructor (planes: nat, rows: nat, cols: nat, layout: seq<nat>)
      ensures Valid()
      ensures this.planes == planes && this.rows == rows && this.cols == cols && this.layout == layout
      ensures fresh(sums) && fresh(counts)
      ensures offset == Zero && sums.Length1 == rows && sums.Length2 == cols
      ensures forall q, i, j | 0 <= q < planes && 0 <= i < rows && 0 <= j < cols ::
                sums[q, i, j] == 0.0 && counts[q, i, j] == 0
      ensures shifts == Filled(layout, planes, Zero)
      ensures correlations == Filled(layout, planes, 0.0)
      ensures AllPlaced()
    {
      this.planes := planes;
      this.rows := rows;
      this.cols := cols;
      this.layout := layout;
      sums := new real[planes, rows, cols]((q, i, j) => 0.0);
      counts := new int[planes, rows, cols]((q, i, j) => 0);
      offset := Zero;
      shifts := Filled(layout, planes, Zero);
      correlations := Filled(layout, planes, 0.0);
      AllFitFilled(layout, planes, rows, cols);
      new;
      layers := seq(planes, q requires 0 <= q < sums.Length0 && q < counts.Length0 reads this, sums, counts => View(q));
      seeds := seq(planes, q requires 0 <= q < counts.Length0 reads this, counts => Seeded(q));
    }

    /** `_update_sums_and_counts`: add `plane` into layer `p` over the rectangle
        [at, at + (rows, cols)). Inside it each sum rises by the sample's
        `nan_to_num` and each count by 1 exactly where the sample is finite;
        every other cell and every other plane is unchanged. Plane `p` is
        seeded afterwards exactly when it was before or the plane has a
        finite sample. */
    method AddPlane(p: nat, at: Vec, plane: Plane)
      requires Valid() && p < planes && IsPlane(plane, rows, cols)
      requires Fits(at, rows, cols, sums.Length1, sums.Length2)
      modifies this`layers, this`seeds, sums, counts
      ensures Valid()
      ensures forall q, i, j | 0 <= q < sums.Length0 && 0 <= i < sums.Length1 && 0 <= j < sums.Length2 ::
                sums[q, i, j] == old(sums[q, i, j]) + SumDelta(plane, p, at, q, i, j)
      ensures forall q, i, j | 0 <= q < counts.Length0 && 0 <= i < counts.Length1 && 0 <= j < counts.Length2 ::
                counts[q, i, j] == old(counts[q, i, j]) + CountDelta(plane, p, at, q, i, j)
      ensures Seeded(p) <==> old(Seeded(p)) || HasFinite(plane)
      ensures forall q | 0 <= q < planes && q != p :: Seeded(q) == old(Seeded(q))
      ensures forall q | 0 <= q < planes && q != p :: View(q) == old(View(q))
      ensures View(p) == AddView(old(View(p)), plane, p, at, sums.Length1, sums.Length2)
      ensures seeds == old(seeds)[p := old(seeds[p]) || HasFinite(plane)]
      ensures layers == old(layers)[p := AddView(old(layers[p]), plane, p, at, sums.Length1, sums.Length2)]
    {
      AddCells(p, at, plane);
      layers := layers[p := View(p)];
      seeds := seeds[p := Seeded(p)];
    }

    /** The cells of `AddPlane`, one grid at a time. */
    method AddCells(p: nat, at: Vec, plane: Plane)
      requires Valid() && p < planes && IsPlane(plane, rows, cols)
      requires Fits(at, rows, cols, sums.Length1, sums.Length2)
      modifies sums, counts
      ensures Sized()
      ensures forall q, i, j | 0 <= q < sums.Length0 && 0 <= i < sums.Length1 && 0 <= j < sums.Length2 ::
                sums[q, i, j] == old(sums[q, i, j]) + SumDelta(plane, p, at, q, i, j)
      ensures forall q, i, j | 0 <= q < counts.Length0 && 0 <= i < counts.Length1 && 0 <= j < counts.Length2 ::
                counts[q, i, j] == old(counts[q, i, j]) + CountDelta(plane, p, at, q, i, j)
      ensures Seeded(p) <==> old(Seeded(p)) || HasFinite(plane)
      ensures forall q | 0 <= q < planes && q != p :: Seeded(q) == old(Seeded(q))
      ensures forall q | 0 <= q < planes && q != p :: View(q) == old(View(q))
      ensures View(p) == AddView(old(View(p)), plane, p, at, sums.Length1, sums.Length2)
    {
      ghost var v := View(p);
      forall q | 0 <= q < planes {
        SeededLayer(counts, q);
      }
      AddCounts(counts, p, at, plane, rows, cols);
      AddSums(sums, p, at, plane, rows, cols);
      AddViewCells(View(p), v, plane, p, at, sums.Length1, sums.Length2);
      SeededAddView(v, plane, p, at, rows, cols, sums.Length1, sums.Length2);
      forall q | 0 <= q < planes {
        SeededLayer(counts, q);
      }
    }

    /** Lines 330-335: record (c, f, p) and its score are set; nothing else
        of the run changes, and a record that fits keeps every record placed. */
    method Store(c: nat, f: nat, p: nat, record: Vec, corr: real)
      requires Valid() && c < |layout| && f < layout[c] && p < planes
      modifies this`shifts, this`correlations
      ensures Valid()
      ensures shifts == Set3(old(shifts), c, f, p, record)
      ensures correlations == Set3(old(correlations), c, f, p, corr)
      ensures old(AllPlaced()) && Fits(Add(offset, record), rows, cols, sums.Length1, sums.Length2) ==> AllPlaced()
    {
      if AllPlaced() && Fits(Add(offset, record), rows, cols, sums.Length1, sums.Length2) {
        AllFitSet3(shifts, offset, rows, cols, sums.Length1, sums.Length2, c, f, p, record);
      }
      Set3Shaped(shifts, layout, planes, c, f, p, record);
      Set3Shaped(correlations, layout, planes, c, f, p, corr);
      shifts := Set3(shifts, c, f, p, record);
      correlations := Set3(correlations, c, f, p, corr);
    }

    /** Lines 255-274 once growth is needed: both grids padded by `l` before
        and `r` after, and `offset += l`. */
    method Pad(l: Vec, r: Vec)
      requires Valid() && LessEq(Zero, l) && LessEq(Zero, r)
      modifies this
      ensures Valid()
      ensures shifts == old(shifts) && correlations == old(correlations)
      ensures fresh(sums) && fresh(counts) && offset == Add(old(offset), l)
      ensures sums.Length1 == old(sums.Length1) + l.y + r.y && sums.Length2 == old(sums.Length2) + l.x + r.x
      ensures forall q, i, j | 0 <= q < sums.Length0 && 0 <= i < sums.Length1 && 0 <= j < sums.Length2 ::
                sums[q, i, j] == old(PaddedSum(sums, l, q, i, j))
      ensures forall q, i, j | 0 <= q < counts.Length0 && 0 <= i < counts.Length1 && 0 <= j < counts.Length2 ::
                counts[q, i, j] == old(PaddedCount(counts, l, q, i, j))
      ensures forall q | 0 <= q < planes :: Seeded(q) == old(Seeded(q))
      ensures old(AllPlaced()) ==> AllPlaced()
      ensures forall q | 0 <= q < planes :: View(q) == PadView(old(View(q)), l, sums.Length1, sums.Length2)
      ensures seeds == old(seeds) && layers == PadViews(old(layers), l, sums.Length1, sums.Length2)
    {
      if AllPlaced() {
        AllFitPadded(shifts, offset, rows, cols, sums.Length1, sums.Length2, l, r);
      }
      sums := PadSums(sums, l, r);
      counts := PadCounts(counts, l, r);
      offset := Add(offset, l);
      forall q | 0 <= q < planes
        ensures View(q) == PadView(old(View(q)), l, sums.Length1, sums.Length2)
        ensures Seeded(q) == old(Seeded(q))
      {
        PaddedGridView(old(sums), old(counts), sums, counts, l, q);
        PaddedSeeded(old(counts), counts, l, q);
      }
      layers := PadViews(layers, l, sums.Length1, sums.Length2);
    }

    /** Lines 248-274: the grids padded by exactly `PaddingFor(record)`
        (nothing at all if it is zero); every old cell moves by the leading
        padding, the new cells are zero, `offset` moves by the leading padding
        (so stored records still address the same data), and the plane
        recorded at `record` fits. */
    method Grow(record: Vec)
      requires Valid()
      modifies this
      ensures Valid()
      ensures shifts == old(shifts) && correlations == old(correlations)
      ensures old(PaddingFor(record)) == Padding(Zero, Zero) ==>
                sums == old(sums) && counts == old(counts) && offset == old(offset)
      ensures Fits(Add(offset, record), rows, cols, sums.Length1, sums.Length2)
      ensures var g := old(PaddingFor(record));
        && offset == Add(old(offset), g.before)
        && sums.Length1 == old(sums.Length1) + g.before.y + g.after.y
        && sums.Length2 == old(sums.Length2) + g.before.x + g.after.x
      ensures var l := old(PaddingFor(record)).before;
        forall q, i, j | 0 <= q < sums.Length0 && 0 <= i < sums.Length1 && 0 <= j < sums.Length2 ::
          sums[q, i, j] == old(PaddedSum(sums, l, q, i, j))
      ensures var l := old(PaddingFor(record)).before;
        forall q, i, j | 0 <= q < counts.Length0 && 0 <= i < counts.Length1 && 0 <= j < counts.Length2 ::
          counts[q, i, j] == old(PaddedCount(counts, l, q, i, j))
      ensures forall q | 0 <= q < planes :: Seeded(q) == old(Seeded(q))
      ensures old(AllPlaced()) ==> AllPlaced()
      ensures (sums == old(sums) || fresh(sums)) && (counts == old(counts) || fresh(counts))
      ensures forall q | 0 <= q < planes ::
                View(q) == PadView(old(View(q)), Sub(offset, old(offset)), sums.Length1, sums.Length2)
      ensures seeds == old(seeds)
      ensures layers == PadViews(old(layers), Sub(offset, old(offset)), sums.Length1, sums.Length2)
    {
      var g := PaddingFor(record);
      if g != Padding(Zero, Zero) {
        Pad(g.before, g.after);
      } else {
        forall q | 0 <= q < planes {
          PadViewZero(View(q), sums.Length1, sums.Length2);
        }
        PadViewsZero(layers, sums.Length1, sums.Length2);
      }
    }

    /** `_resize_arrays` for a plane recorded at `record`. The area assertion
        (276) decides `ok`; when it fails nothing changes, and when it holds
        the grids are grown as `Grow` states. */
    method Resize(record: Vec) returns (ok: bool)
      requires Valid()
      modifies this
      ensures Valid()
      ensures shifts == old(shifts) && correlations == old(correlations)
      ensures ok == old(RoomFor(record))
      ensures ok ==> AreaBound(planes, rows, cols, sums.Length1, sums.Length2)
      ensures !ok || old(PaddingFor(record)) == Padding(Zero, Zero) ==>
                sums == old(sums) && counts == old(counts) && offset == old(offset)
      ensures ok ==> Fits(Add(offset, record), rows, cols, sums.Length1, sums.Length2)
      ensures var g := old(PaddingFor(record));
        ok ==> && offset == Add(old(offset), g.before)
               && sums.Length1 == old(sums.Length1) + g.before.y + g.after.y
               && sums.Length2 == old(sums.Length2) + g.before.x + g.after.x
      ensures var l := old(PaddingFor(record)).before;
        ok ==> forall q, i, j | 0 <= q < sums.Length0 && 0 <= i < sums.Length1 && 0 <= j < sums.Length2 ::
          sums[q, i, j] == old(PaddedSum(sums, l, q, i, j))
      ensures var l := old(PaddingFor(record)).before;
        ok ==> forall q, i, j | 0 <= q < counts.Length0 && 0 <= i < counts.Length1 && 0 <= j < counts.Length2 ::
          counts[q, i, j] == old(PaddedCount(counts, l, q, i, j))
      ensures forall q | 0 <= q < planes :: Seeded(q) == old(Seeded(q))
      ensures old(AllPlaced()) ==> AllPlaced()
      ensures (sums == old(sums) || fresh(sums)) && (counts == old(counts) || fresh(counts))
      ensures forall q | 0 <= q < planes ::
                View(q) == PadView(old(View(q)), Sub(offset, old(offset)), sums.Length1, sums.Length2)
      ensures seeds == old(seeds)
      ensures layers == PadViews(old(layers), Sub(offset, old(offset)), sums.Length1, sums.Length2)
    {
      ok := RoomFor(record);
      if ok {
        Grow(record);
      } else {
        forall q | 0 <= q < planes {
          PadViewZero(View(q), sums.Length1, sums.Length2);
        }
        PadViewsZero(layers, sums.Length1, sums.Length2);
      }
    }
  }
}
