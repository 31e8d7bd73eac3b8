/** `PlaneTranslation2D._estimate` (frame_align.py:50-120): the frame is cut
    into a grid of tiles, each tile is aligned on its own, and from the second
    tile on the two best-scoring tiles of every (cycle, frame, plane) are
    compared; the estimate stops as soon as they agree. */
module Partition {
  import opened Vectors
  import opened Frames
  import opened Records
  import opened FrameAlign

  // ---------------------------------------------------------------------------
  // Tiling (lines 77-87)
  // ---------------------------------------------------------------------------

  /** Lines 77-78: the partition grid, (1, 1) when none is given. */
  function Grid(partitions: Option<(int, int)>): (int, int) {
    if partitions.None? then (1, 1) else partitions.value
  }

  /** Without partitions there is a single tile, and it is the whole dataset. */
  lemma DefaultTileIsWholeFrame(ds: Dataset)
    requires WellFormed(ds)
    ensures Grid(None) == (1, 1)
    ensures Tile(ds, 1, 1, 0) == ds
  {
    var t := Tile(ds, 1, 1, 0);
    assert TileOrigin(ds.rows, ds.cols, 1, 1, 0) == (0, 0);
    forall c | 0 <= c < |ds.cycles|
      ensures t.cycles[c] == ds.cycles[c]
    {
      forall f | 0 <= f < |ds.cycles[c]|
        ensures t.cycles[c][f] == ds.cycles[c][f]
      {
        var frame := ds.cycles[c][f];
        forall p | 0 <= p < ds.planes
          ensures CropPlane(frame[p], 0, ds.rows, 0, ds.cols) == frame[p]
        {
          forall i | 0 <= i < ds.rows
            ensures frame[p][i][0..ds.cols] == frame[p][i]
          {
          }
        }
      }
    }
  }

  lemma MulMonotone(a: nat, b: nat, d: nat)
    requires a <= b
    ensures a * d <= b * d
  {
  }

  /** Lines 79-80 and 86: with `d = extent div k`, tile `n < k` spans
      [n*d, (n+1)*d), which lies inside the extent. */
  lemma TileInside(extent: nat, k: nat, n: nat)
    requires n < k
    ensures 0 <= n * (extent / k) && n * (extent / k) + extent / k <= extent
  {
    var d := extent / k;
    MulMonotone(n + 1, k, d);
    assert (n + 1) * d == n * d + d;
    assert k * d <= extent;
  }

  /** Distinct tiles of one axis do not overlap: tile n1 ends before tile n2 starts. */
  lemma TilesDisjoint(d: nat, n1: nat, n2: nat)
    requires n1 < n2
    ensures (n1 + 1) * d <= n2 * d
  {
    MulMonotone(n1 + 1, n2, d);
  }

  /** A pixel index is covered by one of the k tiles exactly when it is below
      k*d: the `extent mod k` remainder pixels are never aligned. */
  lemma TileCover(extent: nat, k: nat, i: nat)
    requires k > 0
    ensures var d := extent / k;
      (exists n: nat | n < k :: n * d <= i < (n + 1) * d) <==> i < k * d
  {
    var d := extent / k;
    if i < k * d {
      var n := i / d;
      assert n * d <= i < (n + 1) * d;
      if n >= k {
        MulMonotone(k, n, d);
        assert false;
      }
    } else {
      forall n: nat | n < k
        ensures !(n * d <= i < (n + 1) * d)
      {
        MulMonotone(n + 1, k, d);
      }
    }
  }

  /** `plane[y0:y0+h, x0:x0+w]` within bounds. */
  function CropPlane(plane: Plane, y0: nat, h: nat, x0: nat, w: nat): (r: Plane)
    requires y0 + h <= |plane| && forall i | 0 <= i < |plane| :: x0 + w <= |plane[i]|
    ensures IsPlane(r, h, w)
    ensures forall i, j | 0 <= i < h && 0 <= j < w :: r[i][j] == plane[y0 + i][x0 + j]
  {
    seq(h, i requires 0 <= i < h => plane[y0 + i][x0..x0 + w])
  }

  function CropFrame(frame: Frame, planes: nat, rows: nat, cols: nat, y0: nat, h: nat, x0: nat, w: nat): (r: Frame)
    requires IsFrame(frame, planes, rows, cols) && y0 + h <= rows && x0 + w <= cols
    ensures IsFrame(r, planes, h, w)
    ensures forall p | 0 <= p < planes :: r[p] == CropPlane(frame[p], y0, h, x0, w)
  {
    seq(planes, p requires 0 <= p < planes => CropPlane(frame[p], y0, h, x0, w))
  }

  /** Line 86: `s[:, :, y0:y0+h, x0:x0+w]` for every sequence of the dataset.
      The tile keeps every cycle, frame and plane. */
  function Crop(ds: Dataset, y0: nat, h: nat, x0: nat, w: nat): (r: Dataset)
    requires WellFormed(ds) && y0 + h <= ds.rows && x0 + w <= ds.cols
    ensures WellFormed(r) && r.planes == ds.planes && r.rows == h && r.cols == w
    ensures Layout(r) == Layout(ds)
    ensures forall c, f | 0 <= c < |ds.cycles| && 0 <= f < |ds.cycles[c]| ::
              r.cycles[c][f] == CropFrame(ds.cycles[c][f], ds.planes, ds.rows, ds.cols, y0, h, x0, w)
  {
    Dataset(ds.planes, h, w,
      seq(|ds.cycles|, c requires 0 <= c < |ds.cycles| =>
        seq(|ds.cycles[c]|, f requires 0 <= f < |ds.cycles[c]| =>
          CropFrame(ds.cycles[c][f], ds.planes, ds.rows, ds.cols, y0, h, x0, w))))
  }

  // ---------------------------------------------------------------------------
  // Consensus (lines 93-116)
  // ---------------------------------------------------------------------------

  /** `second, first = np.argpartition(corrs, -2, axis=0)[-2:]` for one entry:
      two distinct tiles, `first` scoring highest and `second` at least as high
      as every other tile. */
  function TopTwo(v: seq<real>): (r: (nat, nat))
    requires |v| >= 2
    ensures r.0 < |v| && r.1 < |v| && r.0 != r.1
    ensures v[r.0] >= v[r.1]
    ensures forall k | 0 <= k < |v| && k != r.0 && k != r.1 :: v[r.1] >= v[k]
  {
    if |v| == 2 then
      (if v[1] >= v[0] then (1, 0) else (0, 1))
    else
      var t := TopTwo(v[..|v| - 1]);
      var n := |v| - 1;
      if v[n] > v[t.0] then (n, t.0)
      else if v[n] > v[t.1] then (t.0, n)
      else t
  }

  /** The scores of entry (c, f, p) over the tiles so far. */
  function Column(cr: seq<Scores>, c: nat, f: nat, p: nat): (v: seq<real>)
    ensures |v| == |cr|
  {
    seq(|cr|, t requires 0 <= t < |cr| =>
      if c < |cr[t]| && f < |cr[t][c]| && p < |cr[t][c][f]| then cr[t][c][f][p] else 0.0)
  }

  /** The records and scores of every tile so far have the dataset's shape. */
  predicate TileRecords(sr: seq<Shifts>, cr: seq<Scores>, layout: seq<nat>, planes: nat) {
    |sr| == |cr| && forall t | 0 <= t < |sr| :: Shaped(sr[t], layout, planes) && Shaped(cr[t], layout, planes)
  }

  /** Lines 105-111 for cycle c: per frame and plane, the record of the first
      (or, with `second`, the runner-up) tile. */
  function PickCycle(sr: seq<Shifts>, cr: seq<Scores>, c: nat, layout: seq<nat>, planes: nat, second: bool)
    : (r: seq<seq<Vec>>)
    requires |sr| >= 2 && TileRecords(sr, cr, layout, planes) && c < |layout|
    ensures |r| == layout[c] && forall f | 0 <= f < |r| :: |r[f]| == planes
  {
    seq(layout[c], f requires 0 <= f < layout[c] =>
      seq(planes, p requires 0 <= p < planes =>
        var t := TopTwo(Column(cr, c, f, p));
        sr[if second then t.1 else t.0][c][f][p]))
  }

  /** `first_shifts` (or `second_shifts`) over all cycles. */
  function Pick(sr: seq<Shifts>, cr: seq<Scores>, layout: seq<nat>, planes: nat, second: bool): (r: Shifts)
    requires |sr| >= 2 && TileRecords(sr, cr, layout, planes)
    ensures Shaped(r, layout, planes)
  {
    seq(|layout|, c requires 0 <= c < |layout| => PickCycle(sr, cr, c, layout, planes, second))
  }

  /** Every picked record comes from two distinct tiles `a` (first) and `b`
      (second), the pair the partition chose, with score(a) >= score(b) >= the
      score of every other tile. */
  lemma PickIsTopTwo(sr: seq<Shifts>, cr: seq<Scores>, layout: seq<nat>, planes: nat, c: nat, f: nat, p: nat)
    requires |sr| >= 2 && TileRecords(sr, cr, layout, planes)
    requires c < |layout| && f < layout[c] && p < planes
    ensures var (a, b) := TopTwo(Column(cr, c, f, p));
      && a < |sr| && b < |sr| && a != b
      && Pick(sr, cr, layout, planes, false)[c][f][p] == sr[a][c][f][p]
      && Pick(sr, cr, layout, planes, true)[c][f][p] == sr[b][c][f][p]
      && cr[a][c][f][p] >= cr[b][c][f][p]
      && forall t | 0 <= t < |sr| && t != a && t != b :: cr[b][c][f][p] >= cr[t][c][f][p]
  {
    var v := Column(cr, c, f, p);
    forall u | 0 <= u < |cr|
      ensures v[u] == cr[u][c][f][p]
    {
      assert Shaped(cr[u], layout, planes);
    }
    assert Pick(sr, cr, layout, planes, false)[c] == PickCycle(sr, cr, c, layout, planes, false);
    assert Pick(sr, cr, layout, planes, true)[c] == PickCycle(sr, cr, c, layout, planes, true);
  }

  /** `np.sum((first - second)**2)` over the records, pairwise. */
  function SqDistSum(u: seq<Vec>, v: seq<Vec>): nat
    requires |u| == |v|
  {
    if u == [] then 0 else SqDistSum(u[..|u| - 1], v[..|v| - 1]) + SqDist(u[|u| - 1], v[|v| - 1])
  }

  /** Lines 113-115 in integers: there is at least one record and the squared
      distances sum to less than 4 per record. */
  predicate Agree(first: Shifts, second: Shifts)
    requires |Flatten(first)| == |Flatten(second)|
  {
    var n := |Flatten(first)|;
    n > 0 && SqDistSum(Flatten(first), Flatten(second)) < 4 * n
  }

  /** The integer test is the source's: the mean squared distance is below
      `DIST_CRITERION ** 2` (a mean of nothing is NaN, which is never below). */
  lemma AgreeIsMeanBelowCriterion(first: Shifts, second: Shifts)
    requires |Flatten(first)| == |Flatten(second)|
    ensures var n := |Flatten(first)|;
      Agree(first, second) <==> n > 0 && (SqDistSum(Flatten(first), Flatten(second)) as real) / (n as real) < 2.0 * 2.0
  {
    var n := |Flatten(first)|;
    if n > 0 {
      MeanBelow(SqDistSum(Flatten(first), Flatten(second)), n, 4);
    }
  }

  /** For integers, s / n < k in the reals exactly when s < k * n. */
  lemma MeanBelow(s: nat, n: nat, k: nat)
    requires n > 0
    ensures (s as real) / (n as real) < k as real <==> s < k * n
  {
    var a, m := s as real, n as real;
    var q := a / m;
    assert a == q * m;
    assert (k * n) as real == (k as real) * m;
    if q < k as real {
      assert (k as real - q) * m > 0.0;
    } else {
      assert (q - k as real) * m >= 0.0;
    }
  }

  lemma {:induction false} SqDistSumSelf(u: seq<Vec>)
    ensures SqDistSum(u, u) == 0
  {
    if u != [] {
      SqDistSumSelf(u[..|u| - 1]);
    }
  }

  lemma {:induction false} SqDistSumAtLeast(u: seq<Vec>, v: seq<Vec>, k: nat)
    requires |u| == |v|
    requires forall i | 0 <= i < |u| :: SqDist(u[i], v[i]) >= k
    ensures SqDistSum(u, v) >= k * |u|
  {
    if u != [] {
      var n := |u| - 1;
      SqDistSumAtLeast(u[..n], v[..n], k);
      assert k * |u| == k * n + k;
    }
  }

  /** Identical first and second records always agree. */
  lemma IdenticalAgree(first: Shifts)
    requires |Flatten(first)| > 0
    ensures Agree(first, first)
  {
    SqDistSumSelf(Flatten(first));
  }

  /** If every first record is at least 2 pixels from its second, they never agree. */
  lemma FarApartDisagree(first: Shifts, second: Shifts)
    requires |Flatten(first)| == |Flatten(second)|
    requires forall i | 0 <= i < |Flatten(first)| :: SqDist(Flatten(first)[i], Flatten(second)[i]) >= 4
    ensures !Agree(first, second)
  {
    SqDistSumAtLeast(Flatten(first), Flatten(second), 4);
  }

  /** The stopping test after at least two tiles. */
  predicate Stops(sr: seq<Shifts>, cr: seq<Scores>, layout: seq<nat>, planes: nat)
    requires |sr| >= 2 && TileRecords(sr, cr, layout, planes)
  {
    var first, second := Pick(sr, cr, layout, planes, false), Pick(sr, cr, layout, planes, true);
    FlattenLength(first, layout, planes);
    FlattenLength(second, layout, planes);
    Agree(first, second)
  }

  /** Tiles that all report the same records stop the estimate at the first
      comparison, whatever their scores, as long as there is a record. */
  lemma SameRecordsStop(sr: seq<Shifts>, cr: seq<Scores>, layout: seq<nat>, planes: nat)
    requires |sr| >= 2 && TileRecords(sr, cr, layout, planes)
    requires forall t | 0 <= t < |sr| :: sr[t] == sr[0]
    requires FrameCount(layout) * planes > 0
    ensures Stops(sr, cr, layout, planes)
  {
    var first, second := Pick(sr, cr, layout, planes, false), Pick(sr, cr, layout, planes, true);
    forall c, f, p | 0 <= c < |first| && 0 <= f < |first[c]| && 0 <= p < planes
      ensures first[c][f][p] == second[c][f][p]
    {
      PickIsTopTwo(sr, cr, layout, planes, c, f, p);
    }
    ShapedEqual(first, second, layout, planes);
    FlattenLength(first, layout, planes);
    IdenticalAgree(first);
  }

  /** Lines 98-112: the first and second records, built cycle by cycle. */
  method Consensus(sr: seq<Shifts>, cr: seq<Scores>, layout: seq<nat>, planes: nat)
    returns (first: Shifts, second: Shifts)
    requires |sr| >= 2 && TileRecords(sr, cr, layout, planes)
    ensures first == Pick(sr, cr, layout, planes, false)
    ensures second == Pick(sr, cr, layout, planes, true)
  {
    first, second := [], [];
    for c := 0 to |layout|
      invariant |first| == c && |second| == c
      invariant forall k | 0 <= k < c :: first[k] == PickCycle(sr, cr, k, layout, planes, false)
      invariant forall k | 0 <= k < c :: second[k] == PickCycle(sr, cr, k, layout, planes, true)
    {
      first := first + [PickCycle(sr, cr, c, layout, planes, false)];
      second := second + [PickCycle(sr, cr, c, layout, planes, true)];
    }
  }

  /** Lines 97-116 after a tile: build the first and second records and test
      them; `stop` is the agreement that ends the estimate. */
  method Compare(sr: seq<Shifts>, cr: seq<Scores>, layout: seq<nat>, planes: nat)
    returns (stop: bool, first: Shifts)
    requires |sr| >= 2 && TileRecords(sr, cr, layout, planes)
    ensures stop == Stops(sr, cr, layout, planes)
    ensures first == Pick(sr, cr, layout, planes, false)
  {
    var second;
    first, second := Consensus(sr, cr, layout, planes);
    FlattenLength(first, layout, planes);
    FlattenLength(second, layout, planes);
    stop := Agree(first, second);
  }

  // ---------------------------------------------------------------------------
  // The estimate (lines 74-120)
  // ---------------------------------------------------------------------------

  /** Row-major order (`it.product`) puts tile `k` at (k div px, k mod px). */
  lemma TileIndex(k: nat, py: nat, px: nat)
    requires k < py * px
    ensures px > 0 && k / px < py && k % px < px
  {
    if k / px >= py {
      MulMonotone(py, k / px, px);
      assert false;
    }
  }

  /** Lines 79-80 and 86: the top-left pixel (ny*dy, nx*dx) of tile `k` of a
      `py` x `px` grid over a rows x cols frame, with room for a dy x dx tile. */
  function TileOrigin(rows: nat, cols: nat, py: nat, px: nat, k: nat): (o: (nat, nat))
    requires k < py * px
    ensures o.0 + rows / py <= rows && o.1 + cols / px <= cols
  {
    TileIndex(k, py, px);
    var ny, nx := k / px, k % px;
    TileInside(rows, py, ny);
    TileInside(cols, px, nx);
    (ny * (rows / py), nx * (cols / px))
  }

  /** Line 86 for tile `k`: its dy x dx window of every frame. */
  function Tile(ds: Dataset, py: nat, px: nat, k: nat): (tile: Dataset)
    requires WellFormed(ds) && k < py * px
    ensures WellFormed(tile) && tile.planes == ds.planes && Layout(tile) == Layout(ds)
    ensures tile.rows == ds.rows / py && tile.cols == ds.cols / px
  {
    var o := TileOrigin(ds.rows, ds.cols, py, px, k);
    Crop(ds, o.0, ds.rows / py, o.1, ds.cols / px)
  }

  /** `ndarray.choose` takes at most 31 choice arrays: NumPy before 2.0 caps
      the arrays it broadcasts together at 32, the index array included. */
  const MaxChoices := 31

  /** Tile `k` aligned on its own (lines 86-90). */
  method AlignTile(ds: Dataset, py: nat, px: nat, k: nat, maxDisp: Option<Vec>,
                   alignMethod: string, align: Correlator)
    returns (run: Result<TileRun>, ghost raw: Shifts, ghost at: Placement, ghost halt: Halt,
             ghost cycles: seq<CycleRun>)
    requires WellFormed(ds) && k < py * px
    ensures run.Err? ==> run.error in {EmptyDataset, NotImplemented, UnrecognizedMethod, ShiftOutOfWindow,
                                       GridTooLarge, NoRecords}
    ensures run == Err(EmptyDataset) <==> |ds.cycles| == 0
    ensures run == Err(NoRecords) <==> |ds.cycles| > 0 && FrameCount(Layout(ds)) * ds.planes == 0
    ensures run == Err(NotImplemented) ==> alignMethod == "ECC"
    ensures run == Err(UnrecognizedMethod) ==> alignMethod != "ECC" && alignMethod != "correlation"
    ensures run == Err(ShiftOutOfWindow) ==> Bounded(maxDisp)
    ensures run.Ok? ==> TileAligned(Tile(ds, py, px, k), maxDisp, run.value, raw, at)
    ensures run.Ok? ==> Shaped(run.value.shifts, Layout(ds), ds.planes) && Shaped(run.value.correlations, Layout(ds), ds.planes)
    ensures run.Err? && run.error !in {EmptyDataset, NoRecords} ==>
              RunFailed(Tile(ds, py, px, k), maxDisp, alignMethod, align, run.error, halt, cycles)
    ensures run.Ok? ==>
              RunPassed(Tile(ds, py, px, k), maxDisp, alignMethod, align, cycles, raw, run.value.correlations, at)
  {
    var tile := Tile(ds, py, px, k);
    run, raw, at, halt, cycles := RunTile(tile, maxDisp, alignMethod, align);
  }

  /** Each kept tile t ran as `TileAligned` states of tile t's crop: its
      records and scores are the run's, from the records `raws[t]` before
      re-anchoring and the reference's final placement `ats[t]`. */
  ghost predicate KeptAligned(ds: Dataset, py: nat, px: nat, maxDisp: Option<Vec>, sr: seq<Shifts>, cr: seq<Scores>,
                              raws: seq<Shifts>, ats: seq<Placement>)
    requires WellFormed(ds)
  {
    && |cr| == |sr| && |raws| == |sr| && |ats| == |sr| && |sr| <= py * px
    && forall t | 0 <= t < |sr| :: TileKept(ds, py, px, maxDisp, sr, cr, raws, ats, t)
  }

  /** Kept tile `t` ran as `TileAligned` states of tile t's crop. */
  ghost predicate TileKept(ds: Dataset, py: nat, px: nat, maxDisp: Option<Vec>, sr: seq<Shifts>, cr: seq<Scores>,
                           raws: seq<Shifts>, ats: seq<Placement>, t: nat)
    requires WellFormed(ds)
  {
    && t < |sr| && t < |cr| && t < |raws| && t < |ats| && t < py * px
    && TileAligned(Tile(ds, py, px, t), maxDisp, TileRun(sr[t], cr[t]), raws[t], ats[t])
  }

  /** One more tile that ran as `TileAligned` states extends the kept tiles. */
  lemma KeptExtend(ds: Dataset, py: nat, px: nat, maxDisp: Option<Vec>, sr: seq<Shifts>, cr: seq<Scores>,
                   raws: seq<Shifts>, ats: seq<Placement>, run: TileRun, raw: Shifts, at: Placement)
    requires WellFormed(ds) && KeptAligned(ds, py, px, maxDisp, sr, cr, raws, ats) && |sr| < py * px
    requires TileAligned(Tile(ds, py, px, |sr|), maxDisp, run, raw, at)
    ensures KeptAligned(ds, py, px, maxDisp, sr + [run.shifts], cr + [run.correlations], raws + [raw], ats + [at])
  {
    var sr', cr', raws', ats' := sr + [run.shifts], cr + [run.correlations], raws + [raw], ats + [at];
    forall t | 0 <= t < |sr'|
      ensures TileKept(ds, py, px, maxDisp, sr', cr', raws', ats', t)
    {
      if t == |sr| {
        assert TileRun(sr'[t], cr'[t]) == run;
      } else {
        assert TileKept(ds, py, px, maxDisp, sr, cr, raws, ats, t);
      }
    }
  }

  /** No comparison among the first `upto` tiles agreed. */
  ghost predicate NeverStopped(sr: seq<Shifts>, cr: seq<Scores>, layout: seq<nat>, planes: nat, upto: nat)
    requires TileRecords(sr, cr, layout, planes) && upto <= |sr|
  {
    forall k | 2 <= k < upto :: !Stops(sr[..k], cr[..k], layout, planes)
  }

  /** Appending one more tile that did not stop the estimate keeps the records
      well shaped and extends the run of tiles that never stopped it. */
  lemma RecordsExtend(sr: seq<Shifts>, cr: seq<Scores>, layout: seq<nat>, planes: nat, s: Shifts, c: Scores)
    requires TileRecords(sr, cr, layout, planes) && Shaped(s, layout, planes) && Shaped(c, layout, planes)
    requires NeverStopped(sr, cr, layout, planes, |sr|)
    requires |sr| >= 2 ==> !Stops(sr, cr, layout, planes)
    ensures TileRecords(sr + [s], cr + [c], layout, planes)
    ensures NeverStopped(sr + [s], cr + [c], layout, planes, |sr| + 1)
  {
    var sr', cr' := sr + [s], cr + [c];
    assert sr'[..|sr|] == sr && cr'[..|sr|] == cr;
    forall k | 2 <= k < |sr|
      ensures sr'[..k] == sr[..k] && cr'[..k] == cr[..k]
    {
    }
  }

  /** Tile `|sr|` of the py x px grid failed with `err`, as `RunFailed`
      states of its crop, after the tiles before it ran with records `sr` and
      scores `cr` and no comparison among them agreed. */
  ghost predicate TileFailed(ds: Dataset, py: nat, px: nat, maxDisp: Option<Vec>, alignMethod: string,
                             align: Correlator, sr: seq<Shifts>, cr: seq<Scores>, err: Failure, halt: Halt,
                             cycles: seq<CycleRun>)
    requires WellFormed(ds)
  {
    && |sr| < py * px
    && TileRecords(sr, cr, Layout(ds), ds.planes)
    && NeverStopped(sr, cr, Layout(ds), ds.planes, |sr|)
    && (|sr| >= 2 ==> !Stops(sr, cr, Layout(ds), ds.planes))
    && RunFailed(Tile(ds, py, px, |sr|), maxDisp, alignMethod, align, err, halt, cycles)
  }

  /** Lines 86-91 for tile `|sr|`, after tiles that kept records `sr` and
      scores `cr` without an agreement: the tile is aligned; a failure
      leaves the records as they were and, for a step error, is explained
      by `TileFailed`; otherwise the tile's records and scores are appended
      and it ran as `TileAligned` states. */
  method KeepTile(ds: Dataset, py: nat, px: nat, maxDisp: Option<Vec>, alignMethod: string, align: Correlator,
                  sr: seq<Shifts>, cr: seq<Scores>, ghost raws: seq<Shifts>, ghost ats: seq<Placement>)
    returns (run: Result<TileRun>, sr': seq<Shifts>, cr': seq<Scores>, ghost raws': seq<Shifts>,
             ghost ats': seq<Placement>, ghost halt: Halt, ghost cycles: seq<CycleRun>)
    requires WellFormed(ds) && |sr| < py * px
    requires TileRecords(sr, cr, Layout(ds), ds.planes) && NeverStopped(sr, cr, Layout(ds), ds.planes, |sr|)
    requires |sr| >= 2 ==> !Stops(sr, cr, Layout(ds), ds.planes)
    requires KeptAligned(ds, py, px, maxDisp, sr, cr, raws, ats)
    ensures run.Err? ==> run.error in {EmptyDataset, NotImplemented, UnrecognizedMethod, ShiftOutOfWindow,
                                       GridTooLarge, NoRecords}
    ensures run == Err(EmptyDataset) <==> |ds.cycles| == 0
    ensures run == Err(NoRecords) <==> |ds.cycles| > 0 && FrameCount(Layout(ds)) * ds.planes == 0
    ensures run == Err(NotImplemented) ==> alignMethod == "ECC"
    ensures run == Err(UnrecognizedMethod) ==> alignMethod != "ECC" && alignMethod != "correlation"
    ensures run == Err(ShiftOutOfWindow) ==> Bounded(maxDisp)
    ensures run.Err? ==> sr' == sr && cr' == cr && raws' == raws && ats' == ats
    ensures run.Err? && run.error in {NotImplemented, UnrecognizedMethod, ShiftOutOfWindow, GridTooLarge} ==>
              TileFailed(ds, py, px, maxDisp, alignMethod, align, sr, cr, run.error, halt, cycles)
    ensures run.Ok? ==>
              && sr' == sr + [run.value.shifts] && cr' == cr + [run.value.correlations]
              && TileRecords(sr', cr', Layout(ds), ds.planes) && NeverStopped(sr', cr', Layout(ds), ds.planes, |sr'|)
              && KeptAligned(ds, py, px, maxDisp, sr', cr', raws', ats')
  {
    ghost var raw, at;
    run, raw, at, halt, cycles := AlignTile(ds, py, px, |sr|, maxDisp, alignMethod, align);
    sr', cr', raws', ats' := sr, cr, raws, ats;
    if run.Ok? {
      RecordsExtend(sr, cr, Layout(ds), ds.planes, run.value.shifts, run.value.correlations);
      KeptExtend(ds, py, px, maxDisp, sr, cr, raws, ats, run.value, raw, at);
      sr', cr' := sr + [run.value.shifts], cr + [run.value.correlations];
      raws', ats' := raws + [raw], ats + [at];
    }
  }

  /** The loop at line 84 over the tiles of a py x px grid, in row-major
      order: a failing tile fails the estimate, and since every tile has the
      dataset's shape, the first tile fails for an empty dataset and for one
      without records, and no other tile does. Each tile's records and scores
      are kept in `shiftsRecord`/`corrRecord`; from the second tile on the
      estimate stops at the first agreement, and a comparison among more than
      `MaxChoices` tiles fails in `choose` (lines 105, 109, 112). A step
      error is explained by `TileFailed`: the tiles before the failing one
      kept records among which nothing agreed. The result is
      the only tile's records, or the first records of the last comparison;
      it never stops early without an agreement, and never runs on past one. */
  method EstimateTiles(ds: Dataset, py: nat, px: nat, maxDisp: Option<Vec>,
                       alignMethod: string, align: Correlator)
    returns (res: Result<Shifts>, shiftsRecord: seq<Shifts>, corrRecord: seq<Scores>,
             ghost raws: seq<Shifts>, ghost ats: seq<Placement>, ghost halt: Halt, ghost cycles: seq<CycleRun>)
    requires WellFormed(ds) && 0 < py && 0 < px
    ensures KeptAligned(ds, py, px, maxDisp, shiftsRecord, corrRecord, raws, ats)
    ensures res.Err? && res.error in {NotImplemented, UnrecognizedMethod, ShiftOutOfWindow, GridTooLarge} ==>
              TileFailed(ds, py, px, maxDisp, alignMethod, align, shiftsRecord, corrRecord, res.error, halt, cycles)
    ensures res.Err? && res.error in {EmptyDataset, NoRecords} ==> |shiftsRecord| == 0
    ensures res.Err? ==> res.error in {EmptyDataset, NotImplemented, UnrecognizedMethod, ShiftOutOfWindow,
                                       GridTooLarge, NoRecords, TooManyTiles}
    ensures res == Err(EmptyDataset) <==> |ds.cycles| == 0
    ensures res == Err(NoRecords) <==> |ds.cycles| > 0 && FrameCount(Layout(ds)) * ds.planes == 0
    ensures res == Err(TooManyTiles) ==>
              && MaxChoices < py * px
              && |shiftsRecord| == MaxChoices + 1
              && TileRecords(shiftsRecord, corrRecord, Layout(ds), ds.planes)
              && NeverStopped(shiftsRecord, corrRecord, Layout(ds), ds.planes, |shiftsRecord|)
    ensures res == Err(NotImplemented) ==> alignMethod == "ECC"
    ensures res == Err(UnrecognizedMethod) ==> alignMethod != "ECC" && alignMethod != "correlation"
    ensures res == Err(ShiftOutOfWindow) ==> Bounded(maxDisp)
    ensures res.Ok? ==>
              && 1 <= |shiftsRecord| <= py * px && |shiftsRecord| <= MaxChoices
              && TileRecords(shiftsRecord, corrRecord, Layout(ds), ds.planes)
              && (|shiftsRecord| == 1 ==> res.value == shiftsRecord[0])
              && (|shiftsRecord| >= 2 ==> res.value == Pick(shiftsRecord, corrRecord, Layout(ds), ds.planes, false))
              && NeverStopped(shiftsRecord, corrRecord, Layout(ds), ds.planes, |shiftsRecord|)
              && (|shiftsRecord| < py * px ==> |shiftsRecord| >= 2 && Stops(shiftsRecord, corrRecord, Layout(ds), ds.planes))
  {
    shiftsRecord, corrRecord, raws, ats := [], [], [], [];
    halt := NoHalt;
    cycles := [];
    var layout := Layout(ds);
    var k := 0;
    while k < py * px
      invariant 0 <= k <= py * px
      invariant |shiftsRecord| == k
      invariant TileRecords(shiftsRecord, corrRecord, layout, ds.planes)
      invariant NeverStopped(shiftsRecord, corrRecord, layout, ds.planes, k)
      invariant k >= 2 ==> !Stops(shiftsRecord, corrRecord, layout, ds.planes)
      invariant k <= MaxChoices
      invariant k > 0 ==> |ds.cycles| > 0 && FrameCount(layout) * ds.planes != 0
      invariant KeptAligned(ds, py, px, maxDisp, shiftsRecord, corrRecord, raws, ats)
    {
      var run;
      run, shiftsRecord, corrRecord, raws, ats, halt, cycles :=
        KeepTile(ds, py, px, maxDisp, alignMethod, align, shiftsRecord, corrRecord, raws, ats);
      if run.Err? {
        return Err(run.error), shiftsRecord, corrRecord, raws, ats, halt, cycles;
      }
      if k + 1 > MaxChoices {
        return Err(TooManyTiles), shiftsRecord, corrRecord, raws, ats, halt, cycles;
      }
      if k + 1 >= 2 {
        var stop, first := Compare(shiftsRecord, corrRecord, layout, ds.planes);
        if stop {
          return Ok(first), shiftsRecord, corrRecord, raws, ats, halt, cycles;
        }
      }
      k := k + 1;
    }
    if k == 1 {
      return Ok(shiftsRecord[0]), shiftsRecord, corrRecord, raws, ats, halt, cycles;
    }
    var _, first := Compare(shiftsRecord, corrRecord, layout, ds.planes);
    return Ok(first), shiftsRecord, corrRecord, raws, ats, halt, cycles;
  }

  /** `_estimate` (lines 50-120). A zero partition count fails (division by
      zero); a negative one leaves no tile and fails. Otherwise the tiles run
      as `EstimateTiles` states; without partitions there is one tile, and
      the result is its records. */
  method Estimate(ds: Dataset, partitions: Option<(int, int)>, maxDisp: Option<Vec>,
                  alignMethod: string, align: Correlator)
    returns (res: Result<Shifts>, shiftsRecord: seq<Shifts>, corrRecord: seq<Scores>,
             ghost raws: seq<Shifts>, ghost ats: seq<Placement>, ghost halt: Halt, ghost cycles: seq<CycleRun>)
    requires WellFormed(ds)
    ensures res.Err? && res.error in {NotImplemented, UnrecognizedMethod, ShiftOutOfWindow, GridTooLarge} ==>
              && 0 < Grid(partitions).0 && 0 < Grid(partitions).1
              && TileFailed(ds, Grid(partitions).0, Grid(partitions).1, maxDisp, alignMethod, align,
                            shiftsRecord, corrRecord, res.error, halt, cycles)
    ensures 0 < Grid(partitions).0 && 0 < Grid(partitions).1 ==>
              KeptAligned(ds, Grid(partitions).0, Grid(partitions).1, maxDisp, shiftsRecord, corrRecord, raws, ats)
    ensures var (py, px) := Grid(partitions);
      && (res == Err(ZeroPartitions) <==> py == 0 || px == 0)
      && (res == Err(NoTiles) <==> py != 0 && px != 0 && (py < 0 || px < 0))
      && (res.Ok? ==> 0 < py && 0 < px && 1 <= |shiftsRecord| <= py * px && |shiftsRecord| <= MaxChoices)
      && (res == Err(TooManyTiles) ==> MaxChoices < py * px)
      && (0 < py && 0 < px ==>
            && (res == Err(EmptyDataset) <==> |ds.cycles| == 0)
            && (res == Err(NoRecords) <==> |ds.cycles| > 0 && FrameCount(Layout(ds)) * ds.planes == 0))
    ensures res.Err? ==> res.error in {ZeroPartitions, NoTiles, EmptyDataset, NotImplemented,
                                       UnrecognizedMethod, ShiftOutOfWindow, GridTooLarge, NoRecords, TooManyTiles}
    ensures res == Err(EmptyDataset) ==> |ds.cycles| == 0
    ensures res == Err(NoRecords) ==> FrameCount(Layout(ds)) * ds.planes == 0
    ensures partitions.None? && res.Ok? ==> |shiftsRecord| == 1 && res.value == shiftsRecord[0]
    ensures res == Err(TooManyTiles) ==>
              && |shiftsRecord| == MaxChoices + 1
              && TileRecords(shiftsRecord, corrRecord, Layout(ds), ds.planes)
              && NeverStopped(shiftsRecord, corrRecord, Layout(ds), ds.planes, |shiftsRecord|)
    ensures res == Err(NotImplemented) ==> alignMethod == "ECC"
    ensures res == Err(UnrecognizedMethod) ==> alignMethod != "ECC" && alignMethod != "correlation"
    ensures res == Err(ShiftOutOfWindow) ==> Bounded(maxDisp)
    ensures res.Ok? ==>
              && TileRecords(shiftsRecord, corrRecord, Layout(ds), ds.planes)
              && (|shiftsRecord| == 1 ==> res.value == shiftsRecord[0])
              && (|shiftsRecord| >= 2 ==> res.value == Pick(shiftsRecord, corrRecord, Layout(ds), ds.planes, false))
              && NeverStopped(shiftsRecord, corrRecord, Layout(ds), ds.planes, |shiftsRecord|)
              && (|shiftsRecord| < Grid(partitions).0 * Grid(partitions).1 ==>
                    |shiftsRecord| >= 2 && Stops(shiftsRecord, corrRecord, Layout(ds), ds.planes))
  {
    var py, px := Grid(partitions).0, Grid(partitions).1;
    halt := NoHalt;
    if py == 0 || px == 0 {
      return Err(ZeroPartitions), [], [], [], [], halt, [];
    }
    if py < 0 || px < 0 {
      return Err(NoTiles), [], [], [], [], halt, [];
    }
    res, shiftsRecord, corrRecord, raws, ats, halt, cycles := EstimateTiles(ds, py, px, maxDisp, alignMethod, align);
  }
}
