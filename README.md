# Whole-frame plane translation in SIMA, modelled in Dafny

This project models the alignment engine of `sima/motion/frame_align.py`. The
engine estimates one integer (row, column) shift per plane of every frame of a
set of imaging cycles. It does so against a running reference image that
grows as frames arrive.

- **Reference accumulator** (`Reference`). Per-plane pixel sums and counts
  live in a class `RunState`, as `array3` grids that share one `offset`.
  - `AddPlane` is `_update_sums_and_counts`. It adds a plane over its
    placement rectangle: `nan_to_num` into the sums, `isfinite` into the
    counts.
  - `Resize` is `_resize_arrays`. It pads the grids with zeros before and
    after and moves the offset by the leading padding.
  - The class invariant `Valid` states that the frame placed at the offset
    always lies inside the grids.
- **Per-plane step** (`FrameAlign`).
  - A plane whose reference is still empty is bootstrapped: record zero,
    score 1, added at the offset.
  - Any other plane is matched by the correlation primitive inside the
    search window built from all records. The answer is validated as the
    source's assertions do, stored as `shift - offset`, and the grids grow
    before the plane is added.
  - The primitive is a function-typed parameter.
  - Frames run in order over cycles (`AlignFrame`, `AlignCycle`). `RunTile`
    is `_frame_alignment_base` run sequentially: the frame loop followed by
    `_align_planes` exactly as written.
- **Plane re-anchoring** (`PlaneAlign`). `_align_planes` is modelled twice:
  as written (one alteration for every record), which is what `RunTile`
  and the partition consensus use; and as evidently intended (one
  alteration per plane), with its own properties proved (see Findings).
- **Partition consensus** (`Partition`). This is `PlaneTranslation2D._estimate`:
  - the frame is cut into a grid of tiles, and each tile is run in row-major
    order;
  - from the second tile on, for every (cycle, frame, plane) the two
    best-scoring tiles are picked and their records compared;
  - the estimate stops at the first agreement (mean squared distance below
    2²);
  - a single tile returns its own records.

Shared types:
- `Vectors`: integer 2-vectors, componentwise min/max, truncating division.
- `Frames`: samples with NaN and ±inf, planes, frames, the dataset, failures.
- `Records`: the nested shift records, their flattening, and translation.

Exceptions become values:
- `Failure`, inside `Result` or `Outcome`.
- `EmptyDataset` is the `sequences[0]` index error.
- `NotImplemented` is method `'ECC'`; `UnrecognizedMethod` is any method
  other than `'correlation'`.
- `ShiftOutOfWindow` is assertions 322-324 failing; `GridTooLarge` is
  assertion 276 failing.
- `NoRecords` is the as-written re-anchoring of an empty record list.
- `ZeroPartitions` is the division by zero at 79-80.
- `TooManyTiles` is `choose` (105, 109, 112) given more than 31 tiles, the
  most choice arrays NumPy accepted before 2.0.
- `NoTiles` is a negative partition count. It leaves the tile loop empty, so
  `return shifts` at 120 raises an unbound-local error.

The samples follow the code, not its prose. A NaN sample contributes 0 to
the sums and 0 to the counts. An infinite sample contributes ±`MaxFloat` to
the sums, which is what `np.nan_to_num` returns for it, and 0 to the counts.

## Model

| member | source | states |
|---|---|---|
| Vectors.MinOf | sima/motion/frame_align.py:310-311 | `np.min(..., axis=0)` of a non-empty list is below every record componentwise, and each component is attained by some record |
| Vectors.MaxOf | sima/motion/frame_align.py:312-313 | `np.max(..., axis=0)`: above every record, each component attained |
| Vectors.TruncDiv | sima/motion/frame_align.py:194 | `astype(int)` of an exact quotient truncates toward zero: the remainder is smaller than the divisor and has the dividend's sign |
| Records.Filled | sima/motion/frame_align.py:159-161 | the initial records have one entry per (cycle, frame, plane) of each cycle's shape, all equal to the fill value |
| Records.FlattenContains | sima/motion/frame_align.py:310-313 | every record of every cycle, frame and plane is among `list(it.chain(*it.chain(*shifts)))` |
| Records.FlattenLength | sima/motion/frame_align.py:192 | the flattened list holds exactly frames × planes records |
| Records.FlattenTranslate | sima/motion/frame_align.py:195-196 | subtracting one vector from every record subtracts it from every flattened record |
| Records.SumTranslate | sima/motion/frame_align.py:192-196 | subtracting `a` from each of n records lowers their sum by n·a |
| Reference.Growth | sima/motion/frame_align.py:248-253 | the padding `l`, `r` is never negative, is zero exactly when the placement already fits the grid, and after it the placement fits |
| Reference.AreaBoundInitial | sima/motion/frame_align.py:276 | the frame-sized grid a run starts from passes assertion 276 exactly when the frame has a sample |
| Reference.GrowthIsLeast | sima/motion/frame_align.py:248-253 | any padding that makes the placement fit is at least `l`, `r` componentwise |
| Reference.AllFitPadded | sima/motion/frame_align.py:255-274 | padding the grids by `l` before and `r` after and moving the offset by `l` keeps every stored record's placement inside the grids, so old records still address their data |
| Reference.AddCounts | sima/motion/frame_align.py:237-239 | every count cell rises by `isfinite` of the sample over it in plane p's rectangle and by nothing elsewhere |
| Reference.AddSums | sima/motion/frame_align.py:240-242 | every sum cell rises by `nan_to_num` of the sample over it in plane p's rectangle and by nothing elsewhere |
| Reference.PadSums | sima/motion/frame_align.py:255-273 | the padded grid is larger by `l + r` on each axis, old cells are moved by `l`, new cells are zero |
| Reference.PadCounts | sima/motion/frame_align.py:262-273 | as for the sums; counts stay non-negative |
| Reference.RunState.constructor | sima/motion/frame_align.py:155-161 | the grids have the frame's shape and are zero, the offset is zero, the records are zero with the run's shape, every record places its plane inside the grids, and the invariant holds |
| Reference.RunState.AddPlane | sima/motion/frame_align.py:231-244 | the cellwise sum and count deltas of the update and the invariant; plane p becomes seeded exactly when it was or the plane has a finite sample; `layers[p]` becomes its old reference with the plane added at `at` (`AddView`) and `seeds[p]` its new seeding; no other plane's seeding or reference changes |
| Reference.RunState.AddCells | sima/motion/frame_align.py:231-244 | the update on the grids alone: the cellwise sum and count deltas, plane p seeded exactly when it was or the plane has a finite sample, plane p's reference is `AddView` of its old one, every other plane's reference and seeding unchanged |
| Reference.SeededAddView | sima/motion/frame_align.py:237-239 | after adding a plane, a layer has a counted pixel exactly when it had one before or the plane has a finite sample |
| Reference.PaddedGridView | sima/motion/frame_align.py:255-273 | the reference read from the padded grids is the old reference padded by `l`: old cells moved by `l`, new cells zero |
| Reference.PadViewTwice | sima/motion/frame_align.py:255-273 | padding a reference by `l1` and then by `l2` is padding it once by `l1 + l2` |
| Reference.LayerPadded | sima/motion/frame_align.py:240-274 | a reference that holds its start padded plus a plane added at `at` still does after a later padding by `l`: the start is padded by both moves and the plane sits at `at + l` |
| Reference.RunState.Pad | sima/motion/frame_align.py:255-274 | both grids padded by `l`, `r` with old cells moved by `l`, `offset += l`, records untouched, every plane keeps its seeding and its reference padded by `l` (`layers` becomes `PadViews` of the old ones), every placed record stays placed, invariant kept |
| Reference.RunState.Grow | sima/motion/frame_align.py:246-274 | no padding leaves grids and offset unchanged; otherwise the axes grow by `l + r`, the offset by `l`, old cells move by `l`, new cells are zero, and the new placement fits; seeding is kept, `layers` is the old one padded by the offset's move, and every placed record stays placed |
| Reference.RunState.Resize | sima/motion/frame_align.py:246-277 | succeeds exactly when the grown grid passes assertion 276, and then keeps the area bound and grows as `Grow`; on failure nothing changes; seeding is kept, every plane's reference is its old one padded, and every placed record stays placed |
| Reference.RunState.Store | sima/motion/frame_align.py:330-335 | record (c, f, p) and its score are set and nothing else of the run changes; a record that fits the grids keeps every record placed |
| FrameAlign.SearchWindow | sima/motion/frame_align.py:308-318 | the window's lower corner is below its upper corner and it contains `offset + record` for every record |
| FrameAlign.WindowCoversCommonReach | sima/motion/frame_align.py:310-316 | every shift within the displacement bound of every placed record lies inside the window |
| FrameAlign.WindowFor | sima/motion/frame_align.py:307-318 | there is no window exactly when the bound is absent or not positive everywhere, or there is no record; a window's lower corner is below its upper corner and it holds `offset + record` for every record |
| FrameAlign.UnboundedAcceptsEveryShift | sima/motion/frame_align.py:308-324 | without a positive displacement bound no assertion runs, so every answer of the primitive is accepted |
| FrameAlign.CommonReachAccepted | sima/motion/frame_align.py:310-324 | a shift within the bound of the offset and of every placed record passes all three assertions |
| FrameAlign.Bootstrap | sima/motion/frame_align.py:283-296 | record (c, f, p) becomes zero and its score 1; the plane is added at the offset with the update's deltas; p is seeded exactly when the plane has a finite sample; the plane is laid down as `LaidBetween` states with no growth: other planes keep their seeding and references, plane p's reference gains the plane at the offset; every placed record stays placed |
| FrameAlign.Place | sima/motion/frame_align.py:338-348 | succeeds exactly when the resize passes assertion 276; then the plane is laid down as `LaidBetween` states: the placement advances as `Advance` says, every reference is its old one padded for the offset's move, plane p's reference gains the plane at the new `offset + record`, and p is seeded when it was or the plane has a finite sample; on failure the grids and offset are untouched; the records are not touched |
| FrameAlign.Advance | sima/motion/frame_align.py:246-274 | the placement after one plane: the offset never moves back, and each grid axis grows at least by the offset's move |
| FrameAlign.Commit | sima/motion/frame_align.py:330-348 | the record and score are stored; the step succeeds exactly when the resize passes assertion 276, and then the plane is laid down at the record as `LaidBetween` states (placement advanced by `Advance`, references padded, plane p added at `offset + record`); on failure the grids and offset are untouched; no other plane's seeding changes, and a committed record keeps every record placed |
| FrameAlign.Register | sima/motion/frame_align.py:297-348 | 'ECC' fails with NotImplemented and any other non-'correlation' method with UnrecognizedMethod, records untouched; 'correlation' goes as `Correlated` states; every failure leaves the grids and offset untouched and is what `Rejected` explains; only entry (c, f, p) changes; a displacement bound is kept by all records; on success the plane `Passed`: record and score are those `Traced` gives for the primitive's answer on the old reference and window, and the plane is laid down as `LaidBetween` states |
| FrameAlign.Correlate | sima/motion/frame_align.py:317-348 | as `Correlated`: ShiftOutOfWindow exactly when assertions 322-324 reject the primitive's shift, with nothing stored; otherwise `shift - offset` and the score are stored, and GridTooLarge exactly when the grown grid fails 276; a failure is what `Rejected` explains and leaves the reference untouched; a pass is what `Passed` states |
| FrameAlign.MatchPlane | sima/motion/frame_align.py:317-329 | the primitive's answer on plane p's reference and `WindowFor` of all records: `accepted` is exactly the assertions' verdict, the record is `shift - offset` with the primitive's score, and an accepted record keeps a positive displacement bound |
| FrameAlign.AlignPlane | sima/motion/frame_align.py:279-348 | a plane whose counts are all zero (284-285) is bootstrapped: it passes with record zero and score 1 and is added at the offset cell by cell; a plane already seeded is registered with every consequence `Register` states; only entry (c, f, p) changes and no other plane's seeding does; a pass is what `Passed` states from what the plane met (its seeding, its reference and the records at its turn), and a failure what `Rejected` explains |
| FrameAlign.AlignFrameTurn | sima/motion/frame_align.py:279-348 | one turn of the plane loop: a failing plane p leaves the frame `Halted` at p (the planes before it explained, p seeded at the frame's start and rejected as `Rejected` says); a passing one extends the explained prefix and the layers so far (`LayersAt`) by one plane |
| FrameAlign.LayersStep | sima/motion/frame_align.py:279-348 | one plane laid down takes every earlier plane's reference, padded once more, and its own, with the plane added at its record, from plane p to plane p + 1 of `LayersAt` |
| FrameAlign.AlignFramePlanes | sima/motion/frame_align.py:279-348 | the plane loop stops at the first failing plane n, and the frame is `Halted` at n: planes before n explained, plane n seeded on entry and rejected as `Rejected` says; when no plane fails, all planes are explained and their references and seeding are as `LayersAt` states |
| FrameAlign.AlignFrame | sima/motion/frame_align.py:279-348 | planes in order; on failure the frame is `Halted` at plane n: the planes before n are explained and n was seeded on entry and rejected as `Rejected` says; only frame (c, f) changes; on success every plane unseeded on entry holds record zero and score 1, the whole frame is `Explained` (each plane q got the record and score `Traced` gives from its seeding on entry, its reference on entry padded for how far the offset had moved, and the records with planes before q already stored), each plane is seeded exactly when it was on entry or has a finite sample, and each plane's reference is its reference on entry padded to the final placement with the plane added at `offset + record`; with a method other than 'correlation' the frame passes exactly when no plane was seeded on entry; against an empty reference every plane is bootstrapped; every placed record stays placed; the frame starts from the run as the state holds it on entry, and when it passes it ran from that run to the run it leaves as `FrameRan` states (every plane explained from it, the placement the last plane left, every other frame's records and scores kept, the references and seeding as above) |
| FrameAlign.HaltedCause | sima/motion/frame_align.py:283-329 | a frame halted at plane n failed because n was seeded on entry: with 'ECC' as NotImplemented, with a method other than 'correlation' as UnrecognizedMethod, with 'correlation' as ShiftOutOfWindow (which needs a displacement bound) or GridTooLarge |
| FrameAlign.AlignCycleFrame | sima/motion/frame_align.py:166-185 | frame f of a cycle run from where the frames before it left the run: a failure halts the cycle there (`CycleHalt`: the frame `Halted` from the run those frames left, later frames and other cycles kept, not the first frame against an empty reference); a pass extends the frames run so far by one (`CycleSoFar`) |
| FrameAlign.AlignCycle | sima/motion/frame_align.py:166-185 | the frames of one cycle in order from the run on entry; a pass ran every frame, each from the run the frame before it left to the run it leaves as `FrameRan` states, ending at the run the state holds (`CycleSoFar`), with every other cycle kept, a displacement bound kept, the first frame bootstrapped against an empty reference and every placed record kept placed; a failure needs a frame and a plane, has a step error kind, and halts at frame f after frames 0..f-1 ran that way, the frame `Halted` from the run they left, every later frame and other cycle kept, and f > 0 against an empty reference (`CycleHalt`) |
| FrameAlign.NewRun | sima/motion/frame_align.py:155-161 | a fresh reference of the frame's shape with no plane seeded, blank references, zero records and the offset zero: the run's value is `InitialRun`; every record is placed |
| FrameAlign.RunCycle | sima/motion/frame_align.py:166-185 | cycle c run from where the cycles before it left the run (`RunAt`): a failure fails the run as `RunFailed` states, not on the run's first frame, with records kept and within a displacement bound; a pass extends the run by the cycle (`RunAt` for c + 1) |
| FrameAlign.RunFailedNotFirst | sima/motion/frame_align.py:283-292 | a run never fails on its first frame: that frame meets the initial run, where no plane is seeded, so every plane is bootstrapped |
| FrameAlign.AlignCycles | sima/motion/frame_align.py:155-188 | from a fresh reference, the cycles in order, each frame run from the run the frame before it left, starting at `InitialRun`; a pass ran every frame of every cycle and returns the records, scores and placement of the run the last frame left (`RunPassed`); a failure halts at frame (c, f) after every earlier frame ran that way, the frame `Halted` from the run they left, every later record and score still the initial zero (`RunFailed`), never at the first frame, and with a non-empty record list; the records and scores keep the run's shape and a displacement bound holds for every record; on success cycle 0's first frame is the bootstrap and every record places its plane inside the final grids |
| FrameAlign.RunTile | sima/motion/frame_align.py:155-200 | an empty dataset fails with EmptyDataset and a dataset with no frame or no plane with NoRecords (each exactly then); otherwise the error kinds are those of the steps, and a step error comes with the run that led to it (`RunFailed`: every frame before the failing one ran in order from the initial run, the failing frame `Halted` from where they left it, later records untouched); on success the run ran every frame in order from the initial run to the raw records, scores and placement returned (`RunPassed`), and (`TileAligned`) the records and scores have the run's shape, every raw record keeps the displacement bound and places its plane inside the final grids, the first frame is bootstrapped, and the returned records are the raw records less the one as-written alteration, so every row component is kept |
| PlaneAlign.AsWrittenAlteration | sima/motion/frame_align.py:192-194 | as written, the alteration's row component is always zero |
| PlaneAlign.AlignPlanesAsWritten | sima/motion/frame_align.py:190-196 | as written: no records fails (`mean_shift[0]` of a scalar), exactly then; otherwise every record of every cycle loses the same alteration, and every row component is kept |
| PlaneAlign.TranslatePreservesDifferences | sima/motion/frame_align.py:195-196 | subtracting one alteration keeps the difference between any two records |
| PlaneAlign.AsWrittenEqualisesAxes | sima/motion/frame_align.py:192-196 | as written, the row sum is unchanged and the column sum ends within one record count of the row sum, whatever the planes |
| PlaneAlign.AsWrittenMovesSinglePlane | sima/motion/frame_align.py:192-196 | as written, a lone record (5, 0) becomes (5, 5) |
| PlaneAlign.AsWrittenKeepsPlanesApart | sima/motion/frame_align.py:192-196 | as written, two planes at (0, 0) and (0, 4) become (0, -2) and (0, 2): still 4 apart |
| PlaneAlign.AlignPlanes | sima/motion/frame_align.py:190-196 | the intended re-anchoring: each plane's records lose that plane's alteration |
| PlaneAlign.PlaneAlterations | sima/motion/frame_align.py:192-194 | the intended alterations: one per plane; their values are stated by `AnchorAlterationZero` and `AlignedPlanesShareMean` |
| PlaneAlign.AlignedPlanesShareMean | sima/motion/frame_align.py:191-194 | afterwards plane 0 is unchanged and every plane's record sum is within one record count of plane 0's, so the plane means agree up to truncation |
| PlaneAlign.AnchorAlterationZero | sima/motion/frame_align.py:193-194 | plane 0's alteration is zero |
| PlaneAlign.AlignedPlaneZeroUnmoved | sima/motion/frame_align.py:193-196 | plane 0's records are unchanged by the re-anchoring |
| PlaneAlign.AlignedPlanesKeepVariation | sima/motion/frame_align.py:195-196 | within a plane, the difference between any two frames' records is kept |
| PlaneAlign.AlignedOneFrame | sima/motion/frame_align.py:191-196 | with one frame, every plane is moved onto plane 0's record |
| PlaneAlign.AlignedSinglePlaneUnmoved | sima/motion/frame_align.py:191-196 | a lone record (5, 0) is left alone |
| PlaneAlign.AlignedPlanesCoincide | sima/motion/frame_align.py:191-196 | two planes at (0, 0) and (0, 4) both end at (0, 0) |
| Partition.TileInside | sima/motion/frame_align.py:79-86 | tile n of k, of size `extent div k`, starts at a non-negative index and ends inside the extent |
| Partition.TilesDisjoint | sima/motion/frame_align.py:86 | an earlier tile ends before a later one starts |
| Partition.TileCover | sima/motion/frame_align.py:79-86 | a pixel lies in some tile exactly when it is below k·(extent div k): the remainder pixels are never aligned |
| Partition.TileIndex | sima/motion/frame_align.py:84-85 | for k < py·px, the row-major pair (k div px, k mod px) that `it.product` yields k-th is a tile of the grid |
| Partition.TileOrigin | sima/motion/frame_align.py:79-86 | the origin of tile k leaves room for a full tile inside the frame |
| Partition.DefaultTileIsWholeFrame | sima/motion/frame_align.py:77-87 | without partitions the grid is (1, 1) and its one tile is the whole dataset |
| Partition.Crop | sima/motion/frame_align.py:86-87 | the cropped dataset keeps every cycle, frame and plane, has the tile's shape, and holds the samples of the window |
| Partition.Tile | sima/motion/frame_align.py:86-87 | tile k is a well-formed dataset of shape (rows div py, cols div px) with the same cycles, frames and planes |
| Partition.AlignTile | sima/motion/frame_align.py:84-90 | the tile run on the crop of tile k: its error kinds, EmptyDataset exactly for no cycles and NoRecords exactly for no frame or plane; a step error comes with the crop's `RunFailed`; on success everything `RunTile` states (`TileAligned`, `RunPassed`) holds of the cropped dataset, and the records and scores have the dataset's shape |
| Partition.KeepTile | sima/motion/frame_align.py:84-91 | one turn of the tile loop after tiles that never agreed: a failure leaves the records as they were and a step error is explained by `TileFailed`; otherwise the tile's records and scores are appended, still well shaped, still without an agreement among earlier tiles, and the tile ran as `TileAligned` states |
| Partition.TopTwo | sima/motion/frame_align.py:102-103 | two distinct tiles; `first` scores at least `second`, which scores at least every other tile |
| Partition.PickCycle | sima/motion/frame_align.py:104-111 | the picked records of one cycle have one entry per (frame, plane) |
| Partition.Pick | sima/motion/frame_align.py:102-111 | `first_shifts` / `second_shifts` have the run's shape; which tile each entry comes from is `PickIsTopTwo` |
| Partition.PickIsTopTwo | sima/motion/frame_align.py:102-111 | every picked first and second record comes from those two tiles, with their score order |
| Partition.Consensus | sima/motion/frame_align.py:94-111 | the first and second records built cycle by cycle are the picks of every entry |
| Partition.Compare | sima/motion/frame_align.py:93-116 | after a tile, `stop` is exactly the agreement test on the picked records, and `first` is the first pick |
| Partition.EstimateTiles | sima/motion/frame_align.py:84-120 | for a positive grid: the tiles run in row-major order, and each kept tile t ran as `TileAligned` states of tile t's crop (`KeptAligned`); a step error fails the estimate at the tile after the kept ones, with fewer tiles kept than the grid holds; the kept tiles' records are well shaped and among which no comparison agreed, with that tile's `RunFailed` (`TileFailed`); EmptyDataset and NoRecords exactly when the dataset has no cycle, or no frame or plane, and then no tile was kept; more than 31 tiles to choose among fail as `choose` does; otherwise one tile returns its records and more return the first pick; it never stopped before an agreement and, when it ran fewer tiles than the grid, it stopped at one |
| Partition.AgreeIsMeanBelowCriterion | sima/motion/frame_align.py:113-115 | `Agree`, the integer test `sum < 4n`, is exactly: some record exists and the mean squared distance is below `DIST_CRITERION ** 2` (line 76) |
| Partition.IdenticalAgree | sima/motion/frame_align.py:113-116 | identical first and second records satisfy `Agree` whenever there is a record |
| Partition.FarApartDisagree | sima/motion/frame_align.py:113-116 | records at least 2 pixels apart everywhere never satisfy `Agree` |
| Partition.SameRecordsStop | sima/motion/frame_align.py:102-116 | tiles that all report the same records satisfy `Stops` at the first comparison, whatever their scores, when there is a record |
| Partition.Estimate | sima/motion/frame_align.py:74-120 | a zero partition count fails and a negative one leaves no tile; with a positive grid, EmptyDataset and NoRecords hold exactly when the dataset has no cycle, or no frame or plane, and each kept tile ran as `TileAligned` states of its crop; a step error comes with `TileFailed` for the grid: no comparison among the kept tiles agreed and the next tile failed as its crop's `RunFailed` states; more than 31 tiles to choose among fail as `choose` does; otherwise between 1 and py·px (and at most 31) tiles ran in row-major order; without partitions the one tile's records are returned; more tiles return the first pick; it never stopped before an agreement and, when it ran fewer tiles than the grid, it stopped at one |

## Left out

- Multiprocessing: the pool, the shared `Manager` namespace, the global lock and the pool-size arithmetic (15-17, 145-188). Frames run sequentially, which is also the path taken when `n_processes` is `None`. The races between workers are not modelled.
- `align_cross_correlation` (11, 319) is not part of this model. It is a function-typed parameter of the run, and its answers are checked exactly as 321-324 check them.
- The reference image `p_sums / p_counts` (304-306) is floating-point division, with NaN where the count is zero. The primitive receives the sums and counts of plane p instead.
- Floating point:
  - sums are exact reals;
  - the means of `_align_planes` and of the consensus test are exact rationals, and are truncated or compared exactly;
  - rounding is not modelled.
- The channel axis (the trailing axis of every frame) is dropped: a plane is rows × cols samples.
- `np.argpartition` leaves ties in an unspecified order. `TopTwo` fixes one choice; the lemmas hold for any pair with the stated score order.
- `np.mean` over cycles of different lengths (113-115) builds a ragged list. The model takes the mean over all entries.
- A `max_displacement` given as a plain Python list compares oddly in Python 2. It is modelled as an integer array.
- The `Struct` parameter holder, `__init__` and the unused `out_corrs` (20-22, 44-48, 112).
- The `nanmean` import fallback (6-9) and the dataset slicing API (75, 86-87) are not part of this model: a cropped sequence is a given grid.
- The correlation records start as `np.empty` (161). They start at 0.0 here, since every step overwrites its entry before it is read.

## Findings

| source | as written | input that shows it | evidently intended | confidence | as-written member | corrected member |
|---|---|---|---|---|---|---|
| sima/motion/frame_align.py:192-194 | `mean_shift` is the mean of all records of all cycles, frames and planes: a single 2-vector. The alteration is therefore (0, trunc(mean column − mean row)), the same for every record | one frame, two planes recorded at (0, 0) and (0, 4): both move by (0, 2) and stay 4 columns apart. A single plane at (5, 0) moves to (5, 5) | one alteration per plane, trunc(mean of plane p − mean of plane 0), as the docstring at 191 and the comment at 193 say. Plane 0 stays put and every plane's mean meets plane 0's | not executed | PlaneAlign.AlignPlanesAsWritten, PlaneAlign.AsWrittenKeepsPlanesApart | PlaneAlign.AlignPlanes, PlaneAlign.AlignedPlanesShareMean |
