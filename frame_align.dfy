/** One tile run of whole-frame alignment: `_align_frame` (frame_align.py:203-348)
    applied to every frame of every cycle in order, over the running reference
    of `_frame_alignment_base` (123-200), followed by the re-anchoring of the
    planes. */
module FrameAlign {
  import opened Vectors
  import opened Frames
  import opened Records
  import opened Reference
  import PlaneAlign

  /** `displacement_bounds`: the inclusive range of absolute shifts the
      correlation primitive may return. */
  datatype Window = Window(lower: Vec, upper: Vec)

  predicate InWindow(v: Vec, w: Window) {
    LessEq(w.lower, v) && LessEq(v, w.upper)
  }

  /** What `align_cross_correlation` returns: an absolute shift and its score. */
  datatype Match = Match(shift: Vec, corr: real)

  /** `align_cross_correlation(reference, plane, displacement_bounds)`, whose
      body is not part of this model. It sees the reference of one plane, the
      new plane and the optional window, and nothing else. */
  type Correlator = (RefView, Plane, Option<Window>) -> Match

  /** Line 308: a window is used only when a maximum displacement is given and
      all of its components are positive. */
  predicate Bounded(maxDisp: Option<Vec>) {
    maxDisp.Some? && Positive(maxDisp.value)
  }

  /** Lines 310-316. The window spans from `offset + min(max - m, min)` to
      `offset + max(min + m, max)` over all records `min`..`max` so far; it is
      never empty and it holds the placement of every record. */
  function SearchWindow(offset: Vec, records: seq<Vec>, m: Vec): (w: Window)
    requires |records| > 0
    ensures LessEq(w.lower, w.upper)
    ensures forall k | 0 <= k < |records| :: InWindow(Add(offset, records[k]), w)
  {
    var lo, hi := MinOf(records), MaxOf(records);
    Window(Add(offset, Min(Sub(hi, m), lo)), Add(offset, Max(Add(lo, m), hi)))
  }

  /** Any shift within `m` of the placement of every record lies in the window,
      so the window never rejects a shift consistent with all frames so far. */
  lemma WindowCoversCommonReach(offset: Vec, records: seq<Vec>, m: Vec, v: Vec)
    requires |records| > 0
    requires forall k | 0 <= k < |records| :: Within(Sub(v, Add(offset, records[k])), m)
    ensures InWindow(v, SearchWindow(offset, records, m))
  {
    AboveLower(offset, records, m, v);
    BelowUpper(offset, records, m, v);
  }

  /** v is no lower than `offset + max - m`, hence above the window's lower corner. */
  lemma AboveLower(offset: Vec, records: seq<Vec>, m: Vec, v: Vec)
    requires |records| > 0
    requires forall k | 0 <= k < |records| :: Within(Sub(v, Add(offset, records[k])), m)
    ensures LessEq(SearchWindow(offset, records, m).lower, v)
  {
    var hi := MaxOf(records);
    var a :| 0 <= a < |records| && records[a].y == hi.y;
    var b :| 0 <= b < |records| && records[b].x == hi.x;
    assert Within(Sub(v, Add(offset, records[a])), m);
    assert Within(Sub(v, Add(offset, records[b])), m);
  }

  /** v is no higher than `offset + min + m`, hence below the window's upper corner. */
  lemma BelowUpper(offset: Vec, records: seq<Vec>, m: Vec, v: Vec)
    requires |records| > 0
    requires forall k | 0 <= k < |records| :: Within(Sub(v, Add(offset, records[k])), m)
    ensures LessEq(v, SearchWindow(offset, records, m).upper)
  {
    var lo := MinOf(records);
    var d :| 0 <= d < |records| && records[d].y == lo.y;
    var e :| 0 <= e < |records| && records[e].x == lo.x;
    assert Within(Sub(v, Add(offset, records[d])), m);
    assert Within(Sub(v, Add(offset, records[e])), m);
  }

  /** Lines 307-318 on all records, the current (still zero) one included, so
      the list is never empty when a plane is registered. There is a window
      exactly when the bound is positive and there is a record, and then it
      holds the placement of every record. */
  function WindowFor(offset: Vec, shifts: Shifts, maxDisp: Option<Vec>): (w: Option<Window>)
    ensures w.None? <==> !Bounded(maxDisp) || |Flatten(shifts)| == 0
    ensures w.Some? ==>
              && LessEq(w.value.lower, w.value.upper)
              && forall k | 0 <= k < |Flatten(shifts)| :: InWindow(Add(offset, Flatten(shifts)[k]), w.value)
  {
    if Bounded(maxDisp) && |Flatten(shifts)| > 0
    then Some(SearchWindow(offset, Flatten(shifts), maxDisp.value))
    else None
  }

  /** Assertions 321-324: with a window, the shift lies in it and moves the
      plane at most `m` from the offset. */
  predicate Accepted(w: Option<Window>, maxDisp: Option<Vec>, offset: Vec, shift: Vec) {
    w.Some? ==> maxDisp.Some? && InWindow(shift, w.value) && Within(Sub(shift, offset), maxDisp.value)
  }

  /** Without a positive bound (none, or a zero component) there is no window
      and every answer of the primitive is taken. */
  lemma UnboundedAcceptsEveryShift(offset: Vec, shifts: Shifts, maxDisp: Option<Vec>, shift: Vec)
    requires !Bounded(maxDisp)
    ensures Accepted(WindowFor(offset, shifts, maxDisp), maxDisp, offset, shift)
  {
  }

  /** With a positive bound `m`, a shift within `m` of the offset and of the
      placement of every record so far passes the assertions. */
  lemma CommonReachAccepted(offset: Vec, shifts: Shifts, m: Vec, shift: Vec)
    requires Positive(m) && Within(Sub(shift, offset), m)
    requires forall k | 0 <= k < |Flatten(shifts)| :: Within(Sub(shift, Add(offset, Flatten(shifts)[k])), m)
    ensures Accepted(WindowFor(offset, shifts, Some(m)), Some(m), offset, shift)
  {
    if |Flatten(shifts)| > 0 {
      WindowCoversCommonReach(offset, Flatten(shifts), m, shift);
    }
  }

  /** Every record is within `m` of the origin. */
  predicate AllWithin(s: Shifts, m: Vec) {
    forall c, f, p | 0 <= c < |s| && 0 <= f < |s[c]| && 0 <= p < |s[c][f]| :: Within(s[c][f][p], m)
  }

  /** Every plane of frame (c, f) was bootstrapped: record zero, score 1. */
  predicate Bootstrapped(s: Shifts, corr: Scores, c: nat, f: nat, planes: nat) {
    forall q | 0 <= q < planes ::
      && c < |s| && f < |s[c]| && q < |s[c][f]| && s[c][f][q] == Zero
      && c < |corr| && f < |corr[c]| && q < |corr[c][f]| && corr[c][f][q] == 1.0
  }

  /** Rewriting one record with a vector within `m` keeps every record within `m`. */
  lemma Set3Within(s: Shifts, c: nat, f: nat, p: nat, v: Vec, m: Vec)
    requires c < |s| && f < |s[c]| && p < |s[c][f]|
    requires AllWithin(s, m) && Within(v, m)
    ensures AllWithin(Set3(s, c, f, p, v), m)
  {
  }

  /** The reference is untouched: the same grids, cell for cell, and the same offset. */
  twostate predicate ReferenceUnchanged(st: RunState)
    reads st`offset, st`sums, st`counts, st.sums, st.counts
  {
    && st.sums == old(st.sums) && st.counts == old(st.counts) && st.offset == old(st.offset)
    && unchanged(st.sums) && unchanged(st.counts)
  }

  /** Plane `p` was added at the offset into the same grids (lines 292-296):
      every cell rose by the update's delta and nothing else moved. */
  twostate predicate AddedAtOffset(st: RunState, p: nat, plane: Plane)
    reads st, st.sums, st.counts
  {
    && st.sums == old(st.sums) && st.counts == old(st.counts) && st.offset == old(st.offset)
    && (forall q, i, j | 0 <= q < st.sums.Length0 && 0 <= i < st.sums.Length1 && 0 <= j < st.sums.Length2 ::
          st.sums[q, i, j] == old(st.sums[q, i, j]) + SumDelta(plane, p, st.offset, q, i, j))
    && (forall q, i, j | 0 <= q < st.counts.Length0 && 0 <= i < st.counts.Length1 && 0 <= j < st.counts.Length2 ::
          st.counts[q, i, j] == old(st.counts[q, i, j]) + CountDelta(plane, p, st.offset, q, i, j))
  }

  /** Plane `p` laid down at `record` (seeded: committed, lines 338-348) or
      at the offset (unseeded: bootstrapped, lines 286-296), as
      `LaidBetween` states of the run before and after. */
  twostate predicate Laid(st: RunState, p: nat, plane: Plane, record: Vec, seeded: bool)
    requires old(st.Valid()) && st.Valid()
    reads st, st.sums, st.counts
  {
    LaidBetween(old(ValueOf(st)), ValueOf(st), p, plane, record, seeded, st.rows, st.cols)
  }

  /** Lines 286-296: plane `p` has no counted pixel yet, so its record is zero,
      its score 1, and it is added to the reference at the offset. */
  method Bootstrap(st: RunState, c: nat, f: nat, p: nat, plane: Plane)
    requires st.Valid() && c < |st.layout| && f < st.layout[c] && p < st.planes
    requires IsPlane(plane, st.rows, st.cols) && !st.Seeded(p)
    modifies st, st.sums, st.counts
    ensures st.Valid()
    ensures st.shifts == Set3(old(st.shifts), c, f, p, Zero)
    ensures st.correlations == Set3(old(st.correlations), c, f, p, 1.0)
    ensures AddedAtOffset(st, p, plane)
    ensures st.seeds[p] <==> HasFinite(plane)
    ensures forall q | 0 <= q < st.planes && q != p :: st.seeds[q] == old(st.seeds[q])
    ensures old(st.AllPlaced()) ==> st.AllPlaced()
    ensures Laid(st, p, plane, Zero, false)
  {
    ghost var before := ValueOf(st);
    PadViewsZero(st.layers, st.sums.Length1, st.sums.Length2);
    if st.AllPlaced() {
      AllFitSet3(st.shifts, st.offset, st.rows, st.cols, st.sums.Length1, st.sums.Length2, c, f, p, Zero);
    }
    Set3Shaped(st.shifts, st.layout, st.planes, c, f, p, Zero);
    Set3Shaped(st.correlations, st.layout, st.planes, c, f, p, 1.0);
    st.shifts := Set3(st.shifts, c, f, p, Zero);
    st.correlations := Set3(st.correlations, c, f, p, 1.0);
    st.AddPlane(p, st.offset, plane);
    assert Sub(st.offset, before.at.offset) == Zero && Add(st.offset, Zero) == st.offset;
    assert LaidBetween(before, ValueOf(st), p, plane, Zero, false, st.rows, st.cols);
  }

  /** Lines 338-348: the grids grow to hold the plane at `offset + record`
      (failing, with the reference untouched, when they would reach four
      frames), and the plane is added there. The records are not touched. */
  method Place(st: RunState, p: nat, plane: Plane, record: Vec) returns (ok: bool)
    requires st.Valid() && p < st.planes && IsPlane(plane, st.rows, st.cols)
    modifies st, st.sums, st.counts
    ensures st.Valid()
    ensures (st.sums == old(st.sums) || fresh(st.sums)) && (st.counts == old(st.counts) || fresh(st.counts))
    ensures st.shifts == old(st.shifts) && st.correlations == old(st.correlations)
    ensures ok == old(st.RoomFor(record))
    ensures ok ==> Laid(st, p, plane, record, true)
    ensures !ok ==> ReferenceUnchanged(st)
    ensures forall q | 0 <= q < st.planes && q != p :: st.seeds[q] == old(st.seeds[q])
  {
    ok := st.Resize(record);
    if ok {
      st.AddPlane(p, Add(st.offset, record), plane);
    }
  }

  /** Lines 331-348 once a shift is accepted: the record and score are stored,
      then the plane is placed as `Place` does. Only plane `p` can change its
      seeding, a committed record lies inside the grown grids with every
      other one, the placement advances by the record's padding, and every
      other plane's reference is its old one padded. */
  method Commit(st: RunState, c: nat, f: nat, p: nat, plane: Plane, record: Vec, corr: real)
    returns (ok: bool)
    requires st.Valid() && c < |st.layout| && f < st.layout[c] && p < st.planes
    requires IsPlane(plane, st.rows, st.cols)
    modifies st, st.sums, st.counts
    ensures st.Valid()
    ensures (st.sums == old(st.sums) || fresh(st.sums)) && (st.counts == old(st.counts) || fresh(st.counts))
    ensures st.shifts == Set3(old(st.shifts), c, f, p, record)
    ensures st.correlations == Set3(old(st.correlations), c, f, p, corr)
    ensures ok == old(st.RoomFor(record))
    ensures ok ==> Laid(st, p, plane, record, true)
    ensures !ok ==> ReferenceUnchanged(st)
    ensures forall q | 0 <= q < st.planes && q != p :: st.seeds[q] == old(st.seeds[q])
    ensures ok && old(st.AllPlaced()) ==> st.AllPlaced()
  {
    ghost var placed := st.AllPlaced();
    st.Store(c, f, p, record, corr);
    assert st.PaddingFor(record) == old(st.PaddingFor(record));
    assert st.RoomFor(record) == old(st.RoomFor(record));
    ok := Place(st, p, plane, record);
    if ok && placed {
      var g := old(st.PaddingFor(record));
      AllFitPadded(old(st.shifts), old(st.offset), st.rows, st.cols, old(st.sums.Length1), old(st.sums.Length2),
                   g.before, g.after);
      AllFitSet3(old(st.shifts), st.offset, st.rows, st.cols, st.sums.Length1, st.sums.Length2, c, f, p, record);
    }
  }

  /** What a registration of plane `p` of frame (c, f) leaves behind (lines
      297-348). 'ECC' fails with NotImplemented and any other method but
      'correlation' with UnrecognizedMethod, storing nothing; 'correlation'
      goes as `Correlated` states. Every failure leaves the reference
      untouched. */
  twostate predicate Registered(st: RunState, c: nat, f: nat, p: nat, plane: Plane, maxDisp: Option<Vec>,
                                alignMethod: string, align: Correlator, out: Outcome)
    requires old(st.Valid()) && st.Valid() && c < |st.layout| && f < st.layout[c] && p < st.planes
    reads st, st.sums, st.counts
  {
    && (out.Fail? ==> out.error in {NotImplemented, UnrecognizedMethod, ShiftOutOfWindow, GridTooLarge})
    && (alignMethod == "ECC" <==> out == Fail(NotImplemented))
    && (alignMethod != "ECC" && alignMethod != "correlation" <==> out == Fail(UnrecognizedMethod))
    && (alignMethod != "correlation" ==> st.shifts == old(st.shifts) && st.correlations == old(st.correlations))
    && (out.Fail? ==> ReferenceUnchanged(st))
    && (alignMethod == "correlation" ==>
          Correlated(old(ValueOf(st)), ValueOf(st), c, f, p, plane, maxDisp, align, out, st.planes, st.rows, st.cols))
  }

  /** Lines 317-348: the primitive sees the window of all records so far and
      plane `p`'s reference; a shift the assertions reject fails with nothing
      stored; an accepted one stores `shift - offset` and the score, and then
      either the grown grid fails assertion 276 or the plane is committed. */
  predicate Correlated(before: RunValue, after: RunValue, c: nat, f: nat, p: nat, plane: Plane,
                      maxDisp: Option<Vec>, align: Correlator, out: Outcome, planes: nat, rows: nat, cols: nat)
  {
    && c < |before.shifts| && f < |before.shifts[c]| && p < |before.shifts[c][f]|
    && c < |before.corrs| && f < |before.corrs[c]| && p < |before.corrs[c][f]| && p < |before.views|
    && var w := WindowFor(before.at.offset, before.shifts, maxDisp);
       var m := align(before.views[p], plane, w);
       var record := Sub(m.shift, before.at.offset);
       && (out == Fail(ShiftOutOfWindow) <==> !Accepted(w, maxDisp, before.at.offset, m.shift))
       && (out == Fail(ShiftOutOfWindow) ==> after.shifts == before.shifts && after.corrs == before.corrs)
       && (out != Fail(ShiftOutOfWindow) ==>
             && after.shifts == Set3(before.shifts, c, f, p, record)
             && after.corrs == Set3(before.corrs, c, f, p, m.corr))
       && (out == Fail(GridTooLarge) <==> Accepted(w, maxDisp, before.at.offset, m.shift) && !RoomAt(before.at, record, planes, rows, cols))
  }

  /** Lines 297-348: plane `p` is matched against its reference, as
      `Registered` states. Only entry (c, f, p) of the records changes, only
      plane `p` can change its seeding, and a displacement bound that every
      record kept is still kept. */
  method Register(st: RunState, c: nat, f: nat, p: nat, plane: Plane,
                  maxDisp: Option<Vec>, alignMethod: string, align: Correlator)
    returns (out: Outcome)
    requires st.Valid() && c < |st.layout| && f < st.layout[c] && p < st.planes
    requires IsPlane(plane, st.rows, st.cols)
    modifies st, st.sums, st.counts
    ensures st.Valid()
    ensures (st.sums == old(st.sums) || fresh(st.sums)) && (st.counts == old(st.counts) || fresh(st.counts))
    ensures Registered(st, c, f, p, plane, maxDisp, alignMethod, align, out)
    ensures Bounded(maxDisp) && AllWithin(old(st.shifts), maxDisp.value) ==> AllWithin(st.shifts, maxDisp.value)
    ensures st.shifts == Set3(old(st.shifts), c, f, p, st.shifts[c][f][p])
    ensures st.correlations == Set3(old(st.correlations), c, f, p, st.correlations[c][f][p])
    ensures forall q | 0 <= q < st.planes && q != p :: st.seeds[q] == old(st.seeds[q])
    ensures out.Pass? && old(st.AllPlaced()) ==> st.AllPlaced()
    ensures out.Pass? ==> Passed(old(ValueOf(st)), ValueOf(st), c, f, p, plane, maxDisp, align,
                                 Step(true, old(st.layers[p]), old(st.shifts)), st.rows, st.cols)
    ensures out.Fail? ==>
              Rejected(align, maxDisp, alignMethod, plane, Step(true, old(st.layers[p]), old(st.shifts)),
                       old(PlacementOf(st)), st.planes, st.rows, st.cols, out.error)
  {
    Set3Same(st.shifts, c, f, p);
    Set3Same(st.correlations, c, f, p);
    if alignMethod == "correlation" {
      out := Correlate(st, c, f, p, plane, maxDisp, align);
    } else if alignMethod == "ECC" {
      return Fail(NotImplemented);
    } else {
      return Fail(UnrecognizedMethod);
    }
  }

  /** Lines 317-329: the primitive's answer on plane `p`'s reference and the
      window of all records so far, whether the assertions accept its shift,
      and the record `shift - offset` with its score. Nothing changes. */
  method MatchPlane(st: RunState, c: nat, f: nat, p: nat, plane: Plane, maxDisp: Option<Vec>, align: Correlator)
    returns (accepted: bool, record: Vec, corr: real)
    requires st.Valid() && c < |st.layout| && f < st.layout[c] && p < st.planes
    ensures var w := WindowFor(st.offset, st.shifts, maxDisp);
            var m := align(st.layers[p], plane, w);
            && accepted == Accepted(w, maxDisp, st.offset, m.shift)
            && record == Sub(m.shift, st.offset) && corr == m.corr
            && (accepted ==> (st.RoomFor(record) <==> RoomAt(PlacementOf(st), record, st.planes, st.rows, st.cols)))
    ensures accepted && Bounded(maxDisp) ==> Within(record, maxDisp.value)
  {
    var offset := st.offset;
    FlattenContains(st.shifts, c, f, p);
    var w := WindowFor(offset, st.shifts, maxDisp);
    var m := align(st.View(p), plane, w);
    accepted := Accepted(w, maxDisp, offset, m.shift);
    record, corr := Sub(m.shift, offset), m.corr;
  }

  /** Lines 317-348, the 'correlation' branch of `Register`, as `Correlated`
      states; a failure is what `Rejected` explains and a pass what `Passed`
      states. */
  method Correlate(st: RunState, c: nat, f: nat, p: nat, plane: Plane, maxDisp: Option<Vec>, align: Correlator)
    returns (out: Outcome)
    requires st.Valid() && c < |st.layout| && f < st.layout[c] && p < st.planes
    requires IsPlane(plane, st.rows, st.cols)
    modifies st, st.sums, st.counts
    ensures st.Valid()
    ensures (st.sums == old(st.sums) || fresh(st.sums)) && (st.counts == old(st.counts) || fresh(st.counts))
    ensures Correlated(old(ValueOf(st)), ValueOf(st), c, f, p, plane, maxDisp, align, out, st.planes, st.rows, st.cols)
    ensures out.Fail? ==> out.error in {ShiftOutOfWindow, GridTooLarge} && ReferenceUnchanged(st)
    ensures Bounded(maxDisp) && AllWithin(old(st.shifts), maxDisp.value) ==> AllWithin(st.shifts, maxDisp.value)
    ensures st.shifts == Set3(old(st.shifts), c, f, p, st.shifts[c][f][p])
    ensures st.correlations == Set3(old(st.correlations), c, f, p, st.correlations[c][f][p])
    ensures forall q | 0 <= q < st.planes && q != p :: st.seeds[q] == old(st.seeds[q])
    ensures out.Pass? && old(st.AllPlaced()) ==> st.AllPlaced()
    ensures out.Pass? ==> Passed(old(ValueOf(st)), ValueOf(st), c, f, p, plane, maxDisp, align,
                                 Step(true, old(st.layers[p]), old(st.shifts)), st.rows, st.cols)
    ensures out.Fail? ==>
              Rejected(align, maxDisp, "correlation", plane, Step(true, old(st.layers[p]), old(st.shifts)),
                       old(PlacementOf(st)), st.planes, st.rows, st.cols, out.error)
  {
    Set3Same(st.shifts, c, f, p);
    Set3Same(st.correlations, c, f, p);
    ghost var before := ValueOf(st);
    var accepted, record, corr := MatchPlane(st, c, f, p, plane, maxDisp, align);
    if !accepted {
      return Fail(ShiftOutOfWindow);
    }
    if Bounded(maxDisp) && AllWithin(st.shifts, maxDisp.value) {
      Set3Within(st.shifts, c, f, p, record, maxDisp.value);
    }
    var ok := Commit(st, c, f, p, plane, record, corr);
    assert st.shifts[c][f][p] == record && st.correlations[c][f][p] == corr;
    if ok {
      assert LaidBetween(before, ValueOf(st), p, plane, record, true, st.rows, st.cols);
    }
    return if ok then Pass else Fail(GridTooLarge);
  }

  /** No plane of the reference has a counted pixel. */
  predicate NothingSeeded(st: RunState)
    reads st, st.counts
  {
    forall q | 0 <= q < st.counts.Length0 :: !st.Seeded(q)
  }

  /** Where the reference stands: its offset and the size of its grids. */
  datatype Placement = Placement(offset: Vec, gridRows: nat, gridCols: nat)

  function PlacementOf(st: RunState): Placement
    reads st`offset, st`sums
  {
    Placement(st.offset, st.sums.Length1, st.sums.Length2)
  }

  /** The placement after one plane: a bootstrap leaves it; a committed record
      pads the grids as `_resize_arrays` does and moves the offset by the
      leading padding. The offset never goes back, and the grids grow at
      least by its move. */
  function Advance(at: Placement, seeded: bool, record: Vec, rows: nat, cols: nat): (next: Placement)
    ensures LessEq(at.offset, next.offset)
    ensures at.gridRows + (next.offset.y - at.offset.y) <= next.gridRows
    ensures at.gridCols + (next.offset.x - at.offset.x) <= next.gridCols
  {
    if !seeded then at
    else
      var g := Growth(Add(at.offset, record), rows, cols, at.gridRows, at.gridCols);
      Placement(Add(at.offset, g.before), at.gridRows + g.before.y + g.after.y, at.gridCols + g.before.x + g.after.x)
  }

  /** Assertion 276 at placement `at`: the grids grown for a plane recorded at
      `record` still hold fewer cells than four frames. */
  predicate RoomAt(at: Placement, record: Vec, planes: nat, rows: nat, cols: nat) {
    var next := Advance(at, true, record, rows, cols);
    AreaBound(planes, rows, cols, next.gridRows, next.gridCols)
  }

  /** What plane `q` of a frame met when its turn came: whether its reference
      was seeded, that reference, and the records of the run at that moment. */
  datatype Step = Step(seeded: bool, view: RefView, seen: Shifts)

  /** The record and score plane `plane` got at placement `at`: record zero
      and score 1 for a bootstrap; otherwise the primitive's answer on the
      reference and the window of the records seen, accepted by the
      assertions, stored as `shift - offset` with its score, with room for
      the grids grown for it. */
  predicate Traced(align: Correlator, maxDisp: Option<Vec>, plane: Plane, s: Step, at: Placement,
                   record: Vec, corr: real, planes: nat, rows: nat, cols: nat)
  {
    if s.seeded then
      var w := WindowFor(at.offset, s.seen, maxDisp);
      var m := align(s.view, plane, w);
      && Accepted(w, maxDisp, at.offset, m.shift) && record == Sub(m.shift, at.offset) && corr == m.corr
      && RoomAt(at, record, planes, rows, cols)
    else
      record == Zero && corr == 1.0
  }

  /** Why plane `plane` failed with `err` at placement `at`, having met `s`
      (lines 297-348): its reference was seeded, so it was registered; 'ECC'
      is not implemented; a method other than 'correlation' is not
      recognised; with 'correlation' the assertions rejected the primitive's
      shift, or accepted it and the grids grown for it fail assertion 276. */
  predicate Rejected(align: Correlator, maxDisp: Option<Vec>, alignMethod: string, plane: Plane, s: Step,
                     at: Placement, planes: nat, rows: nat, cols: nat, err: Failure)
  {
    && s.seeded
    && if alignMethod == "ECC" then err == NotImplemented
       else if alignMethod != "correlation" then err == UnrecognizedMethod
       else
         var w := WindowFor(at.offset, s.seen, maxDisp);
         var m := align(s.view, plane, w);
         if !Accepted(w, maxDisp, at.offset, m.shift) then err == ShiftOutOfWindow
         else err == GridTooLarge && !RoomAt(at, Sub(m.shift, at.offset), planes, rows, cols)
  }

  /** The records plane `q` of frame (c, f) saw: those of the frame's earlier
      planes as they ended, every other one as it was when the frame began. */
  predicate SeenBy(seen: Shifts, before: Shifts, after: Shifts, c: nat, f: nat, q: nat, layout: seq<nat>, planes: nat) {
    && Shaped(seen, layout, planes) && Shaped(before, layout, planes) && Shaped(after, layout, planes)
    && forall c2, f2, q2 | 0 <= c2 < |layout| && 0 <= f2 < layout[c2] && 0 <= q2 < planes ::
         seen[c2][f2][q2] == if c2 == c && f2 == f && q2 < q then after[c2][f2][q2] else before[c2][f2][q2]
  }

  /** Storing plane `p`'s record: the records plane `p` saw are those before
      the store, and the records after it are what plane `p + 1` sees. */
  lemma SeenByStep(prev: Shifts, before: Shifts, next: Shifts, c: nat, f: nat, p: nat,
                   layout: seq<nat>, planes: nat, v: Vec)
    requires c < |layout| && f < layout[c] && p < planes
    requires SeenBy(prev, before, prev, c, f, p, layout, planes)
    requires next == Set3(prev, c, f, p, v)
    ensures SeenBy(prev, before, next, c, f, p, layout, planes)
    ensures SeenBy(next, before, next, c, f, p + 1, layout, planes)
  {
    Set3Shaped(prev, layout, planes, c, f, p, v);
  }

  /** A later plane's store leaves what an earlier plane saw as it was. */
  lemma SeenByKept(seen: Shifts, before: Shifts, after: Shifts, next: Shifts, c: nat, f: nat, q: nat, p: nat,
                   layout: seq<nat>, planes: nat, v: Vec)
    requires c < |layout| && f < layout[c] && q <= p < planes
    requires SeenBy(seen, before, after, c, f, q, layout, planes)
    requires next == Set3(after, c, f, p, v)
    ensures SeenBy(seen, before, next, c, f, q, layout, planes)
  {
    Set3Shaped(after, layout, planes, c, f, p, v);
  }

  /** A frame's run as it started: which planes were seeded, their
      references, the records, and the placement. */
  datatype FrameStart = FrameStart(seeded: seq<bool>, views: seq<RefView>, shifts: Shifts, at: Placement)

  /** The first `n` planes of frame (c, f) are explained from `start`: plane
      `q` met its seeding and its reference as they were at the start, padded
      as the placement had moved by then, saw the records of the planes before
      it, got the record and score `Traced` gives at its placement, and moved
      the placement on by `Advance`. */
  ghost predicate Explained(align: Correlator, maxDisp: Option<Vec>, frame: Frame, c: nat, f: nat,
                            layout: seq<nat>, rows: nat, cols: nat, start: FrameStart,
                            steps: seq<Step>, places: seq<Placement>, shifts: Shifts, corrs: Scores, n: nat)
  {
    && n <= |frame| && |start.seeded| == |frame| && |start.views| == |frame|
    && c < |layout| && f < layout[c]
    && Shaped(shifts, layout, |frame|) && Shaped(corrs, layout, |frame|)
    && |steps| == n && |places| == n + 1 && places[0] == start.at
    && forall q | 0 <= q < n ::
         && steps[q].seeded == start.seeded[q]
         && steps[q].view == PadView(start.views[q], Sub(places[q].offset, start.at.offset),
                                     places[q].gridRows, places[q].gridCols)
         && SeenBy(steps[q].seen, start.shifts, shifts, c, f, q, layout, |frame|)
         && Traced(align, maxDisp, frame[q], steps[q], places[q], shifts[c][f][q], corrs[c][f][q], |frame|, rows, cols)
         && places[q + 1] == Advance(places[q], steps[q].seeded, shifts[c][f][q], rows, cols)
  }

  /** Plane `n` explained on top of the first `n`: with the records it saw and
      the records after its store, the first `n + 1` planes are explained. */
  lemma ExplainedStep(align: Correlator, maxDisp: Option<Vec>, frame: Frame, c: nat, f: nat,
                      layout: seq<nat>, rows: nat, cols: nat, start: FrameStart,
                      steps: seq<Step>, places: seq<Placement>, shifts: Shifts, corrs: Scores, n: nat,
                      step: Step, next: Placement, record: Vec, corr: real, shifts2: Shifts, corrs2: Scores)
    requires Explained(align, maxDisp, frame, c, f, layout, rows, cols, start, steps, places, shifts, corrs, n)
    requires n < |frame| && SeenBy(shifts, start.shifts, shifts, c, f, n, layout, |frame|)
    requires shifts2 == Set3(shifts, c, f, n, record) && corrs2 == Set3(corrs, c, f, n, corr)
    requires step == Step(start.seeded[n], PadView(start.views[n], Sub(places[n].offset, start.at.offset),
                                                   places[n].gridRows, places[n].gridCols), shifts)
    requires Traced(align, maxDisp, frame[n], step, places[n], record, corr, |frame|, rows, cols)
    requires next == Advance(places[n], step.seeded, record, rows, cols)
    ensures Explained(align, maxDisp, frame, c, f, layout, rows, cols, start, steps + [step], places + [next],
                      shifts2, corrs2, n + 1)
    ensures SeenBy(shifts2, start.shifts, shifts2, c, f, n + 1, layout, |frame|)
  {
    var planes := |frame|;
    SeenByStep(shifts, start.shifts, shifts2, c, f, n, layout, planes, record);
    Set3Shaped(corrs, layout, planes, c, f, n, corr);
    var steps2, places2 := steps + [step], places + [next];
    forall q | 0 <= q < n + 1
      ensures && steps2[q].seeded == start.seeded[q]
              && steps2[q].view == PadView(start.views[q], Sub(places2[q].offset, start.at.offset),
                                           places2[q].gridRows, places2[q].gridCols)
              && SeenBy(steps2[q].seen, start.shifts, shifts2, c, f, q, layout, planes)
              && Traced(align, maxDisp, frame[q], steps2[q], places2[q], shifts2[c][f][q], corrs2[c][f][q], planes, rows, cols)
              && places2[q + 1] == Advance(places2[q], steps2[q].seeded, shifts2[c][f][q], rows, cols)
    {
      if q < n {
        SeenByKept(steps[q].seen, start.shifts, shifts, shifts2, c, f, q, n, layout, planes, record);
        assert shifts2[c][f][q] == shifts[c][f][q] && corrs2[c][f][q] == corrs[c][f][q];
      }
    }
  }

  /** A store into plane `n`'s record and score, after the first `n` planes
      were explained, leaves them explained. */
  lemma ExplainedKept(align: Correlator, maxDisp: Option<Vec>, frame: Frame, c: nat, f: nat,
                      layout: seq<nat>, rows: nat, cols: nat, start: FrameStart,
                      steps: seq<Step>, places: seq<Placement>, shifts: Shifts, corrs: Scores, n: nat,
                      record: Vec, corr: real)
    requires Explained(align, maxDisp, frame, c, f, layout, rows, cols, start, steps, places, shifts, corrs, n)
    requires n < |frame|
    ensures Explained(align, maxDisp, frame, c, f, layout, rows, cols, start, steps, places,
                      Set3(shifts, c, f, n, record), Set3(corrs, c, f, n, corr), n)
  {
    var planes := |frame|;
    var shifts2, corrs2 := Set3(shifts, c, f, n, record), Set3(corrs, c, f, n, corr);
    Set3Shaped(shifts, layout, planes, c, f, n, record);
    Set3Shaped(corrs, layout, planes, c, f, n, corr);
    forall q | 0 <= q < n
      ensures && SeenBy(steps[q].seen, start.shifts, shifts2, c, f, q, layout, planes)
              && shifts2[c][f][q] == shifts[c][f][q] && corrs2[c][f][q] == corrs[c][f][q]
    {
      SeenByKept(steps[q].seen, start.shifts, shifts, shifts2, c, f, q, n, layout, planes, record);
    }
  }

  /** Frame (c, f) stopped at plane `n` with `err`: the planes before it are
      explained, and plane `n`, meeting its seeding and reference from the
      start padded as the placement had moved, and the records of the planes
      before it, was rejected as `Rejected` says. */
  ghost predicate Halted(align: Correlator, maxDisp: Option<Vec>, alignMethod: string, frame: Frame, c: nat, f: nat,
                         layout: seq<nat>, rows: nat, cols: nat, start: FrameStart,
                         steps: seq<Step>, places: seq<Placement>, shifts: Shifts, corrs: Scores, n: nat,
                         failed: Step, err: Failure)
  {
    && Explained(align, maxDisp, frame, c, f, layout, rows, cols, start, steps, places, shifts, corrs, n)
    && n < |frame|
    && failed.seeded == start.seeded[n]
    && failed.view == PadView(start.views[n], Sub(places[n].offset, start.at.offset), places[n].gridRows, places[n].gridCols)
    && SeenBy(failed.seen, start.shifts, shifts, c, f, n, layout, |frame|)
    && Rejected(align, maxDisp, alignMethod, frame[n], failed, places[n], |frame|, rows, cols, err)
  }

  /** The run as values: each plane's seeding and reference, the records
      and scores, and the placement. */
  datatype RunValue = RunValue(seeded: seq<bool>, views: seq<RefView>, shifts: Shifts, corrs: Scores, at: Placement)

  ghost function ValueOf(st: RunState): (v: RunValue)
    requires st.Valid()
    reads st, st.sums, st.counts
    ensures |v.seeded| == st.planes && |v.views| == st.planes
    ensures v.shifts == st.shifts && v.corrs == st.correlations && v.at == PlacementOf(st)
  {
    RunValue(st.seeds, st.layers, st.shifts, st.correlations, PlacementOf(st))
  }

  /** Plane `p` laid down from run `before` to run `after`, at `record` when
      its reference was seeded and at the offset otherwise: the placement
      advances by `Advance` and the plane fits there; plane `p` is seeded
      exactly when it was or the plane holds a finite sample, every other
      plane keeps its seeding; every reference is the old one padded for the
      offset's move, and plane `p`'s has the plane added at
      `offset + record`. */
  predicate LaidBetween(before: RunValue, after: RunValue, p: nat, plane: Plane, record: Vec, seeded: bool,
                        rows: nat, cols: nat)
  {
    var moved, at := Sub(after.at.offset, before.at.offset), Add(after.at.offset, record);
    var padded := PadViews(before.views, moved, after.at.gridRows, after.at.gridCols);
    && |before.seeded| == |before.views| && p < |before.views|
    && after.at == Advance(before.at, seeded, record, rows, cols)
    && Fits(at, rows, cols, after.at.gridRows, after.at.gridCols)
    && after.seeded == before.seeded[p := before.seeded[p] || HasFinite(plane)]
    && after.views == padded[p := AddView(padded[p], plane, p, at, after.at.gridRows, after.at.gridCols)]
  }

  /** Plane `p` of frame (c, f), having met `step`, passed from run `before`
      to run `after` (lines 286-348): it got the record and score `Traced`
      gives and was laid down as `LaidBetween` states. */
  predicate Passed(before: RunValue, after: RunValue, c: nat, f: nat, p: nat, plane: Plane,
                   maxDisp: Option<Vec>, align: Correlator, step: Step, rows: nat, cols: nat)
  {
    && c < |after.shifts| && f < |after.shifts[c]| && p < |after.shifts[c][f]|
    && c < |after.corrs| && f < |after.corrs[c]| && p < |after.corrs[c][f]|
    && Traced(align, maxDisp, plane, step, before.at, after.shifts[c][f][p], after.corrs[c][f][p],
              |after.views|, rows, cols)
    && LaidBetween(before, after, p, plane, after.shifts[c][f][p], step.seeded, rows, cols)
  }

  /** The body of the loop at line 279 for plane `p` of frame (c, f): a
      bootstrap when the plane's reference is empty, which always passes,
      writes record zero and score 1 and adds the plane at the offset; a
      registration, as `Registered` states, otherwise. At most record
      (c, f, p) and its score change, and no other plane changes its
      seeding. */
  method AlignPlane(st: RunState, c: nat, f: nat, p: nat, plane: Plane,
                    maxDisp: Option<Vec>, alignMethod: string, align: Correlator)
    returns (out: Outcome, ghost step: Step)
    requires st.Valid() && c < |st.layout| && f < st.layout[c] && p < st.planes
    requires IsPlane(plane, st.rows, st.cols)
    modifies st, st.sums, st.counts
    ensures st.Valid()
    ensures (st.sums == old(st.sums) || fresh(st.sums)) && (st.counts == old(st.counts) || fresh(st.counts))
    ensures st.shifts == Set3(old(st.shifts), c, f, p, st.shifts[c][f][p])
    ensures st.correlations == Set3(old(st.correlations), c, f, p, st.correlations[c][f][p])
    ensures out.Fail? ==> out.error in {NotImplemented, UnrecognizedMethod, ShiftOutOfWindow, GridTooLarge}
    ensures Bounded(maxDisp) && AllWithin(old(st.shifts), maxDisp.value) ==> AllWithin(st.shifts, maxDisp.value)
    ensures forall q | 0 <= q < st.planes && q != p :: st.seeds[q] == old(st.seeds[q])
    ensures !old(st.seeds[p]) ==>
              && out.Pass? && st.shifts[c][f][p] == Zero && st.correlations[c][f][p] == 1.0
              && AddedAtOffset(st, p, plane)
    ensures old(st.seeds[p]) ==> Registered(st, c, f, p, plane, maxDisp, alignMethod, align, out)
    ensures step == Step(old(st.seeds[p]), old(st.layers[p]), old(st.shifts))
    ensures out.Pass? ==> Passed(old(ValueOf(st)), ValueOf(st), c, f, p, plane, maxDisp, align, step, st.rows, st.cols)
    ensures out.Pass? && old(st.AllPlaced()) ==> st.AllPlaced()
    ensures out.Fail? ==>
              Rejected(align, maxDisp, alignMethod, plane, step, old(PlacementOf(st)), st.planes, st.rows, st.cols, out.error)
  {
    step := Step(st.seeds[p], st.layers[p], st.shifts);
    if !st.Seeded(p) {
      if Bounded(maxDisp) && AllWithin(st.shifts, maxDisp.value) {
        Set3Within(st.shifts, c, f, p, Zero, maxDisp.value);
      }
      Bootstrap(st, c, f, p, plane);
      return Pass, step;
    }
    out := Register(st, c, f, p, plane, maxDisp, alignMethod, align);
  }

  /** The records and scores part-way through frame (c, f), at plane `p`,
      against the records `start.shifts` and scores `corrs0` the frame began
      with: those outside the frame are as they were, and stay within a bound
      they were within; the first `p` planes hold record zero and score 1 where
      they were unseeded, and were all unseeded unless the method is
      'correlation'. */
  predicate RecordsSoFar(shifts: Shifts, corrs: Scores, layout: seq<nat>, planes: nat, c: nat, f: nat,
                         maxDisp: Option<Vec>, alignMethod: string, start: FrameStart, corrs0: Scores, p: nat)
  {
    && c < |layout| && f < layout[c] && p <= planes && |start.seeded| == planes
    && Shaped(shifts, layout, planes) && Shaped(corrs, layout, planes)
    && Shaped(start.shifts, layout, planes) && Shaped(corrs0, layout, planes)
    && (forall c2, f2 | 0 <= c2 < |layout| && 0 <= f2 < layout[c2] && (c2 != c || f2 != f) ::
          shifts[c2][f2] == start.shifts[c2][f2] && corrs[c2][f2] == corrs0[c2][f2])
    && (Bounded(maxDisp) && AllWithin(start.shifts, maxDisp.value) ==> AllWithin(shifts, maxDisp.value))
    && (forall q | 0 <= q < p && !start.seeded[q] :: shifts[c][f][q] == Zero && corrs[c][f][q] == 1.0)
    && (alignMethod != "correlation" ==> forall q | 0 <= q < p :: !start.seeded[q])
  }

  /** Storing plane `p`'s record and score keeps the records so far at plane
      `p`, and takes them to plane `p + 1` when the store is a bootstrap's
      zero and 1 for an unseeded plane, and when a method other than
      'correlation' met only unseeded planes. */
  lemma RecordsStep(shifts: Shifts, corrs: Scores, layout: seq<nat>, planes: nat, c: nat, f: nat,
                    maxDisp: Option<Vec>, alignMethod: string, start: FrameStart, corrs0: Scores, p: nat,
                    record: Vec, corr: real)
    requires RecordsSoFar(shifts, corrs, layout, planes, c, f, maxDisp, alignMethod, start, corrs0, p)
    requires p < planes
    requires Bounded(maxDisp) && AllWithin(shifts, maxDisp.value) ==>
               AllWithin(Set3(shifts, c, f, p, record), maxDisp.value)
    ensures RecordsSoFar(Set3(shifts, c, f, p, record), Set3(corrs, c, f, p, corr), layout, planes, c, f,
                         maxDisp, alignMethod, start, corrs0, p)
    ensures (start.seeded[p] || (record == Zero && corr == 1.0)) && (alignMethod != "correlation" ==> !start.seeded[p]) ==>
              RecordsSoFar(Set3(shifts, c, f, p, record), Set3(corrs, c, f, p, corr), layout, planes, c, f,
                           maxDisp, alignMethod, start, corrs0, p + 1)
  {
    Set3Shaped(shifts, layout, planes, c, f, p, record);
    Set3Shaped(corrs, layout, planes, c, f, p, corr);
  }

  /** The reference part-way through frame (c, f), at plane `p`, as run `v`:
      the offset has moved on from the start and the grids have grown at
      least by that move; each of the first `p` planes is seeded when it was
      at the start or has a finite sample, and its reference is the start one
      padded for the move with the plane added where its record places it;
      each later plane has its seeding and its reference from the start,
      padded. */
  predicate LayersAt(v: RunValue, c: nat, f: nat, frame: Frame, start: FrameStart, p: nat, rows: nat, cols: nat) {
    && p <= |frame| && |v.seeded| == |frame| && |v.views| == |frame|
    && |start.seeded| == |frame| && |start.views| == |frame|
    && c < |v.shifts| && f < |v.shifts[c]| && |v.shifts[c][f]| == |frame|
    && LessEq(start.at.offset, v.at.offset)
    && start.at.gridRows + (v.at.offset.y - start.at.offset.y) <= v.at.gridRows
    && start.at.gridCols + (v.at.offset.x - start.at.offset.x) <= v.at.gridCols
    && (forall q | 0 <= q < |frame| :: Rect(start.views[q], start.at.gridRows, start.at.gridCols))
    && (forall q | 0 <= q < p ::
          && v.seeded[q] == (start.seeded[q] || HasFinite(frame[q]))
          && LayerAdded(v.views[q], start.views[q], Sub(v.at.offset, start.at.offset), frame[q], q,
                        Add(v.at.offset, v.shifts[c][f][q]), rows, cols, v.at.gridRows, v.at.gridCols))
    && forall q | p <= q < |frame| ::
         && v.seeded[q] == start.seeded[q]
         && v.views[q] == PadView(start.views[q], Sub(v.at.offset, start.at.offset), v.at.gridRows, v.at.gridCols)
  }

  /** Plane `p` laid down takes the layers so far from plane `p` to plane
      `p + 1`: every earlier plane keeps its record and has its reference
      padded once more, which composes with the padding so far. */
  lemma LayersStep(before: RunValue, after: RunValue, c: nat, f: nat, frame: Frame, start: FrameStart, p: nat,
                   rows: nat, cols: nat, seeded: bool)
    requires LayersAt(before, c, f, frame, start, p, rows, cols) && p < |frame|
    requires IsFrame(frame, |frame|, rows, cols)
    requires c < |after.shifts| && f < |after.shifts[c]| && p < |after.shifts[c][f]|
    requires after.shifts == Set3(before.shifts, c, f, p, after.shifts[c][f][p])
    requires LaidBetween(before, after, p, frame[p], after.shifts[c][f][p], seeded, rows, cols)
    ensures LayersAt(after, c, f, frame, start, p + 1, rows, cols)
  {
    var l := Sub(after.at.offset, before.at.offset);
    assert Sub(after.at.offset, start.at.offset) == Add(Sub(before.at.offset, start.at.offset), l);
    forall q | 0 <= q < p
      ensures LayerAdded(after.views[q], start.views[q], Sub(after.at.offset, start.at.offset), frame[q], q,
                         Add(after.at.offset, after.shifts[c][f][q]), rows, cols, after.at.gridRows, after.at.gridCols)
    {
      LayerPadded(before.views[q], start.views[q], Sub(before.at.offset, start.at.offset), frame[q], q,
                  Add(before.at.offset, before.shifts[c][f][q]), rows, cols, start.at.gridRows, start.at.gridCols,
                  before.at.gridRows, before.at.gridCols, l, after.at.gridRows, after.at.gridCols);
      assert Add(Add(before.at.offset, before.shifts[c][f][q]), l) == Add(after.at.offset, after.shifts[c][f][q]);
    }
    forall q | p <= q < |frame|
      ensures PadView(before.views[q], l, after.at.gridRows, after.at.gridCols)
              == PadView(start.views[q], Sub(after.at.offset, start.at.offset), after.at.gridRows, after.at.gridCols)
    {
      PadViewTwice(start.views[q], start.at.offset, start.at.gridRows, start.at.gridCols,
                   before.at.offset, before.at.gridRows, before.at.gridCols,
                   after.at.offset, after.at.gridRows, after.at.gridCols);
    }
  }

  /** What stays fixed while frame (c, f) is aligned: the run's layout and
      frame shape, the frame, the method and primitive, and the run as the
      frame found it (`start`, with scores `corrs0` and whether every record
      was placed, `placed0`). */
  datatype FrameJob = FrameJob(layout: seq<nat>, rows: nat, cols: nat, c: nat, f: nat, frame: Frame,
                               maxDisp: Option<Vec>, alignMethod: string, align: Correlator,
                               corrs0: Scores, placed0: bool, start: FrameStart)

  /** Run `v` part-way through frame (c, f), at plane `p`, having taken
      `steps` through `places`: its records so far; the first `p` planes
      explained from the start; the layers so far; and records that all
      fitted the reference still do. */
  ghost predicate FrameSoFar(job: FrameJob, v: RunValue, steps: seq<Step>, places: seq<Placement>, p: nat) {
    var planes := |job.frame|;
    && p <= planes
    && Explained(job.align, job.maxDisp, job.frame, job.c, job.f, job.layout, job.rows, job.cols, job.start,
                 steps, places, v.shifts, v.corrs, p)
    && SeenBy(v.shifts, job.start.shifts, v.shifts, job.c, job.f, p, job.layout, planes)
    && RecordsSoFar(v.shifts, v.corrs, job.layout, planes, job.c, job.f, job.maxDisp, job.alignMethod,
                    job.start, job.corrs0, p)
    && (job.placed0 ==> AllFit(v.shifts, v.at.offset, job.rows, job.cols, v.at.gridRows, v.at.gridCols))
    && places[p] == v.at
    && LayersAt(v, job.c, job.f, job.frame, job.start, p, job.rows, job.cols)
  }

  /** Plane `p` passing from run `before` to run `after`, as `AlignPlane`
      states, takes the frame so far from plane `p` to plane `p + 1`. */
  lemma TurnPassed(job: FrameJob, before: RunValue, after: RunValue, steps: seq<Step>, places: seq<Placement>,
                   p: nat, step: Step)
    requires FrameSoFar(job, before, steps, places, p) && p < |job.frame|
    requires IsFrame(job.frame, |job.frame|, job.rows, job.cols)
    requires Shaped(after.shifts, job.layout, |job.frame|) && Shaped(after.corrs, job.layout, |job.frame|)
    requires after.shifts == Set3(before.shifts, job.c, job.f, p, after.shifts[job.c][job.f][p])
    requires after.corrs == Set3(before.corrs, job.c, job.f, p, after.corrs[job.c][job.f][p])
    requires Bounded(job.maxDisp) && AllWithin(before.shifts, job.maxDisp.value) ==>
               AllWithin(after.shifts, job.maxDisp.value)
    requires AllFit(before.shifts, before.at.offset, job.rows, job.cols, before.at.gridRows, before.at.gridCols) ==>
               AllFit(after.shifts, after.at.offset, job.rows, job.cols, after.at.gridRows, after.at.gridCols)
    requires job.alignMethod != "correlation" ==> !before.seeded[p]
    requires step == Step(before.seeded[p], before.views[p], before.shifts)
    requires Passed(before, after, job.c, job.f, p, job.frame[p], job.maxDisp, job.align, step, job.rows, job.cols)
    ensures FrameSoFar(job, after, steps + [step], places + [after.at], p + 1)
  {
    var c, f, record, corr := job.c, job.f, after.shifts[job.c][job.f][p], after.corrs[job.c][job.f][p];
    RecordsStep(before.shifts, before.corrs, job.layout, |job.frame|, c, f, job.maxDisp, job.alignMethod,
                job.start, job.corrs0, p, record, corr);
    ExplainedStep(job.align, job.maxDisp, job.frame, c, f, job.layout, job.rows, job.cols, job.start, steps, places,
                  before.shifts, before.corrs, p, step, after.at, record, corr, after.shifts, after.corrs);
    LayersStep(before, after, c, f, job.frame, job.start, p, job.rows, job.cols, step.seeded);
  }

  /** Plane `p` failing from run `before`, having met `step`, with the
      records and scores of run `after`: the records so far stay at plane `p`
      and the frame halts there. */
  lemma TurnFailed(job: FrameJob, before: RunValue, after: RunValue, steps: seq<Step>, places: seq<Placement>,
                   p: nat, step: Step, err: Failure)
    requires FrameSoFar(job, before, steps, places, p) && p < |job.frame|
    requires Shaped(after.shifts, job.layout, |job.frame|) && Shaped(after.corrs, job.layout, |job.frame|)
    requires after.shifts == Set3(before.shifts, job.c, job.f, p, after.shifts[job.c][job.f][p])
    requires after.corrs == Set3(before.corrs, job.c, job.f, p, after.corrs[job.c][job.f][p])
    requires Bounded(job.maxDisp) && AllWithin(before.shifts, job.maxDisp.value) ==>
               AllWithin(after.shifts, job.maxDisp.value)
    requires step == Step(before.seeded[p], before.views[p], before.shifts)
    requires Rejected(job.align, job.maxDisp, job.alignMethod, job.frame[p], step, before.at, |job.frame|,
                      job.rows, job.cols, err)
    ensures RecordsSoFar(after.shifts, after.corrs, job.layout, |job.frame|, job.c, job.f, job.maxDisp,
                         job.alignMethod, job.start, job.corrs0, p)
    ensures Halted(job.align, job.maxDisp, job.alignMethod, job.frame, job.c, job.f, job.layout, job.rows, job.cols,
                   job.start, steps, places, after.shifts, after.corrs, p, step, err)
  {
    var c, f, record, corr := job.c, job.f, after.shifts[job.c][job.f][p], after.corrs[job.c][job.f][p];
    RecordsStep(before.shifts, before.corrs, job.layout, |job.frame|, c, f, job.maxDisp, job.alignMethod,
                job.start, job.corrs0, p, record, corr);
    ExplainedKept(job.align, job.maxDisp, job.frame, c, f, job.layout, job.rows, job.cols, job.start, steps, places,
                  before.shifts, before.corrs, p, record, corr);
    SeenByKept(before.shifts, job.start.shifts, before.shifts, after.shifts, c, f, p, p, job.layout, |job.frame|,
               record);
  }

  /** One turn of the loop at line 279: `AlignPlane` on plane `p` of frame
      (c, f). A plane that fails halts the frame as `Halted` states, with
      the records so far at plane `p`; a plane that passes carries the frame
      on to plane `p + 1`. */
  method AlignFrameTurn(st: RunState, c: nat, f: nat, p: nat, ghost job: FrameJob, ghost steps: seq<Step>, ghost places: seq<Placement>,
                        frame: Frame, maxDisp: Option<Vec>, alignMethod: string, align: Correlator)
    returns (out: Outcome, ghost step: Step)
    requires st.Valid() && p < st.planes
    requires job == FrameJob(st.layout, st.rows, st.cols, c, f, frame, maxDisp, alignMethod, align,
                             job.corrs0, job.placed0, job.start)
    requires c < |st.layout| && f < st.layout[c] && IsFrame(frame, st.planes, st.rows, st.cols)
    requires FrameSoFar(job, ValueOf(st), steps, places, p)
    modifies st, st.sums, st.counts
    ensures st.Valid()
    ensures (st.sums == old(st.sums) || fresh(st.sums)) && (st.counts == old(st.counts) || fresh(st.counts))
    ensures out.Fail? ==>
              && out.error in {NotImplemented, UnrecognizedMethod, ShiftOutOfWindow, GridTooLarge}
              && RecordsSoFar(st.shifts, st.correlations, st.layout, st.planes, c, f, maxDisp, alignMethod,
                              job.start, job.corrs0, p)
              && Halted(align, maxDisp, alignMethod, frame, c, f, st.layout, st.rows, st.cols, job.start,
                        steps, places, st.shifts, st.correlations, p, step, out.error)
    ensures out.Pass? ==> FrameSoFar(job, ValueOf(st), steps + [step], places + [PlacementOf(st)], p + 1)
  {
    ghost var before := ValueOf(st);
    out, step := AlignPlane(st, c, f, p, frame[p], maxDisp, alignMethod, align);
    ghost var after := ValueOf(st);
    if out.Fail? {
      TurnFailed(job, before, after, steps, places, p, step, out.error);
    } else {
      TurnPassed(job, before, after, steps, places, p, step);
    }
  }

  /** The run as frame (c, f) finds it, and the frame at its first plane. */
  ghost method FrameStartOf(st: RunState, c: nat, f: nat, frame: Frame, maxDisp: Option<Vec>,
                            alignMethod: string, align: Correlator)
    returns (job: FrameJob)
    requires st.Valid() && c < |st.layout| && f < st.layout[c]
    requires IsFrame(frame, st.planes, st.rows, st.cols)
    ensures job == FrameJob(st.layout, st.rows, st.cols, c, f, frame, maxDisp, alignMethod, align,
                            st.correlations, st.AllPlaced(), job.start)
    ensures var v := ValueOf(st); job.start == FrameStart(v.seeded, v.views, v.shifts, v.at)
    ensures FrameSoFar(job, ValueOf(st), [], [PlacementOf(st)], 0)
  {
    var v := ValueOf(st);
    job := FrameJob(st.layout, st.rows, st.cols, c, f, frame, maxDisp, alignMethod, align,
                    st.correlations, st.AllPlaced(), FrameStart(v.seeded, v.views, v.shifts, v.at));
    forall q | 0 <= q < st.planes
      ensures Rect(v.views[q], v.at.gridRows, v.at.gridCols)
      ensures v.views[q] == PadView(v.views[q], Sub(v.at.offset, v.at.offset), v.at.gridRows, v.at.gridCols)
    {
      PadViewZero(v.views[q], v.at.gridRows, v.at.gridCols);
    }
  }

  /** The loop at line 279 over the planes of frame (c, f), from the frame's
      start: it stops at the first plane `n` that fails, halting the frame
      there as `Halted` states, with the records so far at `n`; when every
      plane passes, the whole frame is explained. */
  method AlignFramePlanes(st: RunState, c: nat, f: nat, ghost job: FrameJob,
                          frame: Frame, maxDisp: Option<Vec>, alignMethod: string, align: Correlator)
    returns (out: Outcome, n: nat, ghost steps: seq<Step>, ghost places: seq<Placement>, ghost failed: Step)
    requires st.Valid()
    requires job == FrameJob(st.layout, st.rows, st.cols, c, f, frame, maxDisp, alignMethod, align,
                             job.corrs0, job.placed0, job.start)
    requires c < |st.layout| && f < st.layout[c] && IsFrame(frame, st.planes, st.rows, st.cols)
    requires FrameSoFar(job, ValueOf(st), [], [PlacementOf(st)], 0)
    modifies st, st.sums, st.counts
    ensures st.Valid() && n <= st.planes
    ensures (st.sums == old(st.sums) || fresh(st.sums)) && (st.counts == old(st.counts) || fresh(st.counts))
    ensures out.Fail? ==>
              && n < st.planes
              && out.error in {NotImplemented, UnrecognizedMethod, ShiftOutOfWindow, GridTooLarge}
              && RecordsSoFar(st.shifts, st.correlations, st.layout, st.planes, c, f, maxDisp, alignMethod,
                              job.start, job.corrs0, n)
              && Halted(align, maxDisp, alignMethod, frame, c, f, st.layout, st.rows, st.cols, job.start,
                        steps, places, st.shifts, st.correlations, n, failed, out.error)
    ensures out.Pass? ==> n == st.planes && FrameSoFar(job, ValueOf(st), steps, places, n)
  {
    steps, places, failed := [], [PlacementOf(st)], Step(false, RefView([], []), []);
    n := 0;
    while n < st.planes
      invariant st.Valid() && 0 <= n <= st.planes
      invariant (st.sums == old(st.sums) || fresh(st.sums)) && (st.counts == old(st.counts) || fresh(st.counts))
      invariant FrameSoFar(job, ValueOf(st), steps, places, n)
    {
      ghost var step;
      out, step := AlignFrameTurn(st, c, f, n, job, steps, places, frame, maxDisp, alignMethod, align);
      if out.Fail? {
        failed := step;
        return;
      }
      steps, places := steps + [step], places + [PlacementOf(st)];
      n := n + 1;
    }
    out := Pass;
  }

  /** `_align_frame` (lines 279-348): the planes of frame (c, f) in order; the
      first failure aborts the frame, at the plane `n` that `Halted`
      explains: a plane seeded on entry, registered after the `n` planes
      before it, every one of which is explained. Only the records of frame
      (c, f) change. When the frame passes, every plane is explained, every
      plane that was unseeded on entry holds record zero and score 1, each
      plane is seeded when it was on entry or has a finite sample, and each
      plane's reference is its reference on entry, padded to the final
      placement, with the plane added where its record places it. With a
      method other than 'correlation' the frame passes exactly when no plane
      was seeded on entry: the first seeded plane reaches the method check
      and fails. */
  method AlignFrame(st: RunState, c: nat, f: nat, frame: Frame,
                    maxDisp: Option<Vec>, alignMethod: string, align: Correlator)
    returns (out: Outcome, ghost start: FrameStart, ghost steps: seq<Step>, ghost places: seq<Placement>,
             ghost n: nat, ghost failed: Step)
    requires st.Valid() && c < |st.layout| && f < st.layout[c]
    requires IsFrame(frame, st.planes, st.rows, st.cols)
    modifies st, st.sums, st.counts
    ensures st.Valid()
    ensures (st.sums == old(st.sums) || fresh(st.sums)) && (st.counts == old(st.counts) || fresh(st.counts))
    ensures forall c2, f2 | 0 <= c2 < |st.layout| && 0 <= f2 < st.layout[c2] && (c2 != c || f2 != f) ::
              st.shifts[c2][f2] == old(st.shifts)[c2][f2] && st.correlations[c2][f2] == old(st.correlations)[c2][f2]
    ensures out.Fail? ==> out.error in {NotImplemented, UnrecognizedMethod, ShiftOutOfWindow, GridTooLarge}
    ensures out.Fail? ==> st.planes > 0
    ensures out == Fail(NotImplemented) ==> alignMethod == "ECC"
    ensures out == Fail(UnrecognizedMethod) ==> alignMethod != "ECC" && alignMethod != "correlation"
    ensures out == Fail(ShiftOutOfWindow) ==> Bounded(maxDisp)
    ensures Bounded(maxDisp) && AllWithin(old(st.shifts), maxDisp.value) ==> AllWithin(st.shifts, maxDisp.value)
    ensures out.Pass? ==>
              forall q | 0 <= q < st.planes && !old(st.seeds[q]) ::
                st.shifts[c][f][q] == Zero && st.correlations[c][f][q] == 1.0
    ensures alignMethod != "correlation" ==> (out.Pass? <==> old(NothingSeeded(st)))
    ensures old(NothingSeeded(st)) ==> out.Pass? && Bootstrapped(st.shifts, st.correlations, c, f, st.planes)
    ensures out.Pass? && old(st.AllPlaced()) ==> st.AllPlaced()
    ensures |start.seeded| == st.planes && |start.views| == st.planes
    ensures forall q | 0 <= q < st.planes :: start.seeded[q] == old(st.seeds[q]) && start.views[q] == old(st.layers[q])
    ensures start.shifts == old(st.shifts) && start.at == old(PlacementOf(st))
    ensures start == FrameStart(old(st.seeds), old(st.layers), old(st.shifts), old(PlacementOf(st)))
    ensures out.Fail? ==>
              Halted(align, maxDisp, alignMethod, frame, c, f, st.layout, st.rows, st.cols, start, steps, places,
                     st.shifts, st.correlations, n, failed, out.error)
    ensures out.Pass? ==>
              FrameRan(align, maxDisp, alignMethod, frame, c, f, st.layout, st.rows, st.cols,
                       old(ValueOf(st)), ValueOf(st), Trace(steps, places))
  {
    ghost var v0 := ValueOf(st);
    ghost var job := FrameStartOf(st, c, f, frame, maxDisp, alignMethod, align);
    start := job.start;
    out, n, steps, places, failed := AlignFramePlanes(st, c, f, job, frame, maxDisp, alignMethod, align);
    if out.Pass? {
      FrameRanOf(job, v0, ValueOf(st), Trace(steps, places));
    }
  }

  /** A frame halted at plane `n` failed there because the plane was seeded:
      with 'ECC' as NotImplemented, with a method other than 'correlation'
      as UnrecognizedMethod, and with 'correlation' as ShiftOutOfWindow, which
      needs a displacement bound, or GridTooLarge. */
  lemma HaltedCause(align: Correlator, maxDisp: Option<Vec>, alignMethod: string, frame: Frame, c: nat, f: nat,
                    layout: seq<nat>, rows: nat, cols: nat, start: FrameStart,
                    steps: seq<Step>, places: seq<Placement>, shifts: Shifts, corrs: Scores, n: nat,
                    failed: Step, err: Failure)
    requires Halted(align, maxDisp, alignMethod, frame, c, f, layout, rows, cols, start, steps, places,
                    shifts, corrs, n, failed, err)
    ensures n < |frame| && start.seeded[n]
    ensures err in {NotImplemented, UnrecognizedMethod, ShiftOutOfWindow, GridTooLarge}
    ensures err == NotImplemented ==> alignMethod == "ECC"
    ensures err == UnrecognizedMethod ==> alignMethod != "ECC" && alignMethod != "correlation"
    ensures err == ShiftOutOfWindow ==> Bounded(maxDisp)
  {
    if !Bounded(maxDisp) {
      UnboundedAcceptsEveryShift(places[n].offset, failed.seen, maxDisp, align(failed.view, frame[n],
                                 WindowFor(places[n].offset, failed.seen, maxDisp)).shift);
    }
  }

  /** What the planes of a frame met, in order (`steps`), and the placement
      before each and after the last (`places`). */
  datatype Trace = Trace(steps: seq<Step>, places: seq<Placement>)

  /** Frame (c, f) ran in full from run `v0` to run `v1` through `t`: every
      plane is explained from `v0` as `Explained` states, the placement ends
      where the last plane left it, the records and scores of every other
      frame are those of `v0`, each plane is seeded when it was in `v0` or has
      a finite sample and its reference is its `v0` one padded to the final
      placement with the plane added where its record places it; with a
      method other than 'correlation' no plane was seeded in `v0`. */
  ghost predicate FrameRan(align: Correlator, maxDisp: Option<Vec>, alignMethod: string, frame: Frame, c: nat, f: nat,
                           layout: seq<nat>, rows: nat, cols: nat, v0: RunValue, v1: RunValue, t: Trace)
  {
    var start := FrameStart(v0.seeded, v0.views, v0.shifts, v0.at);
    && Shaped(v0.shifts, layout, |frame|) && Shaped(v0.corrs, layout, |frame|)
    && Explained(align, maxDisp, frame, c, f, layout, rows, cols, start, t.steps, t.places, v1.shifts, v1.corrs,
                 |frame|)
    && t.places[|frame|] == v1.at
    && (forall c2, f2 | 0 <= c2 < |layout| && 0 <= f2 < layout[c2] && (c2 != c || f2 != f) ::
          v1.shifts[c2][f2] == v0.shifts[c2][f2] && v1.corrs[c2][f2] == v0.corrs[c2][f2])
    && LayersAt(v1, c, f, frame, start, |frame|, rows, cols)
    && (alignMethod != "correlation" ==> forall q | 0 <= q < |frame| :: !v0.seeded[q])
  }

  /** A frame whose planes all passed from `job.start`, with the scores of
      `v0`, ran in full from `v0`. */
  lemma FrameRanOf(job: FrameJob, v0: RunValue, v1: RunValue, t: Trace)
    requires FrameSoFar(job, v1, t.steps, t.places, |job.frame|)
    requires job.start == FrameStart(v0.seeded, v0.views, v0.shifts, v0.at) && job.corrs0 == v0.corrs
    ensures FrameRan(job.align, job.maxDisp, job.alignMethod, job.frame, job.c, job.f, job.layout, job.rows, job.cols,
                     v0, v1, t)
  {
  }

  /** Where a run stopped: frame (c, f), the run as that frame found it
      (`start`), what its planes met (`steps`, `places`), the failing plane
      `n` and what it met (`failed`), and the records and scores left. */
  datatype Halt = Halt(c: nat, f: nat, start: FrameStart, steps: seq<Step>, places: seq<Placement>,
                       n: nat, failed: Step, shifts: Shifts, corrs: Scores)

  /** The `Halt` of a run that did not halt. */
  const NoHalt := Halt(0, 0, FrameStart([], [], [], Placement(Zero, 0, 0)), [], [], 0,
                       Step(false, RefView([], []), []), [], [])

  /** `h` explains a failure with `err` on `frame`, as `Halted` states. */
  ghost predicate HaltedBy(h: Halt, frame: Frame, align: Correlator, maxDisp: Option<Vec>, alignMethod: string,
                           layout: seq<nat>, rows: nat, cols: nat, err: Failure)
  {
    Halted(align, maxDisp, alignMethod, frame, h.c, h.f, layout, rows, cols, h.start, h.steps, h.places,
           h.shifts, h.corrs, h.n, h.failed, err)
  }

  /** The frames of a cycle run so far: the run before each frame and after
      the last (`runs`), and each frame's trace (`trail`). */
  datatype CycleRun = CycleRun(runs: seq<RunValue>, trail: seq<Trace>)

  /** The first `|r.trail|` frames of cycle `c` ran one after the other:
      frame `f` took run `r.runs[f]` to run `r.runs[f + 1]` as `FrameRan`
      states. */
  ghost predicate CycleRan(align: Correlator, maxDisp: Option<Vec>, alignMethod: string, frames: seq<Frame>, c: nat,
                           layout: seq<nat>, rows: nat, cols: nat, r: CycleRun)
  {
    && |r.runs| == |r.trail| + 1 && |r.trail| <= |frames|
    && forall f | 0 <= f < |r.trail| :: FrameRanAt(align, maxDisp, alignMethod, frames, c, layout, rows, cols, r, f)
  }

  /** Frame `f` of cycle `c` took run `r.runs[f]` to run `r.runs[f + 1]`. */
  ghost predicate FrameRanAt(align: Correlator, maxDisp: Option<Vec>, alignMethod: string, frames: seq<Frame>, c: nat,
                             layout: seq<nat>, rows: nat, cols: nat, r: CycleRun, f: nat)
  {
    && f < |r.trail| && f + 1 < |r.runs| && f < |frames|
    && FrameRan(align, maxDisp, alignMethod, frames[f], c, f, layout, rows, cols, r.runs[f], r.runs[f + 1], r.trail[f])
  }

  /** The first `f` frames of cycle `c` ran as `CycleRan` states, from run
      `v0` to run `v`. */
  ghost predicate CycleAt(align: Correlator, maxDisp: Option<Vec>, alignMethod: string, frames: seq<Frame>, c: nat,
                          layout: seq<nat>, rows: nat, cols: nat, r: CycleRun, f: nat, v0: RunValue, v: RunValue)
  {
    && CycleRan(align, maxDisp, alignMethod, frames, c, layout, rows, cols, r)
    && |r.trail| == f && r.runs[0] == v0 && r.runs[f] == v
  }

  /** One more frame run from where the cycle stands extends it. */
  lemma CycleExtend(align: Correlator, maxDisp: Option<Vec>, alignMethod: string, frames: seq<Frame>, c: nat,
                    layout: seq<nat>, rows: nat, cols: nat, r: CycleRun, v: RunValue, t: Trace)
    requires CycleRan(align, maxDisp, alignMethod, frames, c, layout, rows, cols, r) && |r.trail| < |frames|
    requires FrameRan(align, maxDisp, alignMethod, frames[|r.trail|], c, |r.trail|, layout, rows, cols,
                      r.runs[|r.trail|], v, t)
    ensures CycleRan(align, maxDisp, alignMethod, frames, c, layout, rows, cols, CycleRun(r.runs + [v], r.trail + [t]))
  {
    var r2 := CycleRun(r.runs + [v], r.trail + [t]);
    forall f | 0 <= f < |r2.trail|
      ensures FrameRanAt(align, maxDisp, alignMethod, frames, c, layout, rows, cols, r2, f)
    {
      if f < |r.trail| {
        assert FrameRanAt(align, maxDisp, alignMethod, frames, c, layout, rows, cols, r, f);
        assert r2.runs[f] == r.runs[f] && r2.runs[f + 1] == r.runs[f + 1] && r2.trail[f] == r.trail[f];
      } else {
        assert r2.runs[f] == r.runs[f] && r2.runs[f + 1] == v && r2.trail[f] == t;
      }
    }
  }

  /** What one cycle run is about: cycle `c`, with `frames`, of a run with
      `layout` and `planes` planes of rows x cols, the aligner's settings,
      and the run `v0` the cycle starts from. */
  datatype CycleJob = CycleJob(align: Correlator, maxDisp: Option<Vec>, alignMethod: string, frames: seq<Frame>,
                               c: nat, layout: seq<nat>, planes: nat, rows: nat, cols: nat, v0: RunValue)

  /** No plane of run `v` is seeded. */
  predicate NoneSeeded(v: RunValue) {
    forall q | 0 <= q < |v.seeded| :: !v.seeded[q]
  }

  /** Every record of run `v`, placed at its offset, lies inside its grids. */
  predicate Placed(v: RunValue, rows: nat, cols: nat) {
    AllFit(v.shifts, v.at.offset, rows, cols, v.at.gridRows, v.at.gridCols)
  }

  /** The seeding of `ValueOf` is that of the grids. */
  lemma NoneSeededOf(st: RunState)
    requires st.Valid()
    ensures NoneSeeded(ValueOf(st)) <==> NothingSeeded(st)
  {
    assert forall q | 0 <= q < st.planes :: ValueOf(st).seeded[q] == st.Seeded(q);
  }

  /** Run `v` holds the records and scores of `j.v0` in every other cycle
      and from frame `f` of cycle `j.c` on. */
  predicate KeptFrom(j: CycleJob, v: RunValue, f: nat) {
    && Shaped(v.shifts, j.layout, j.planes) && Shaped(v.corrs, j.layout, j.planes)
    && Shaped(j.v0.shifts, j.layout, j.planes) && Shaped(j.v0.corrs, j.layout, j.planes)
    && forall c2, f2 | 0 <= c2 < |j.layout| && 0 <= f2 < j.layout[c2] && (c2 != j.c || f2 >= f) ::
         v.shifts[c2][f2] == j.v0.shifts[c2][f2] && v.corrs[c2][f2] == j.v0.corrs[c2][f2]
  }

  /** The first `f` frames of cycle `j.c` ran from `j.v0` to run `v`
      through `r`, as `CycleAt` states; every other record and score is
      still that of `j.v0`; records within a displacement bound stay within
      it; against an empty reference the cycle's first frame was
      bootstrapped; and records placed inside the grids stay inside them. */
  ghost predicate CycleSoFar(j: CycleJob, r: CycleRun, f: nat, v: RunValue) {
    && j.c < |j.layout| && |j.frames| == j.layout[j.c] && f <= |j.frames| && |v.seeded| == j.planes
    && CycleAt(j.align, j.maxDisp, j.alignMethod, j.frames, j.c, j.layout, j.rows, j.cols, r, f, j.v0, v)
    && KeptFrom(j, v, f)
    && (Bounded(j.maxDisp) && AllWithin(j.v0.shifts, j.maxDisp.value) ==> AllWithin(v.shifts, j.maxDisp.value))
    && (f > 0 && NoneSeeded(j.v0) ==> Bootstrapped(v.shifts, v.corrs, j.c, 0, j.planes))
    && (Placed(j.v0, j.rows, j.cols) ==> Placed(v, j.rows, j.cols))
  }

  /** Cycle `j.c` halted at frame `f` with `err`, leaving run `v`, as `h`
      says: the frames before it ran from `j.v0` through `r` as `CycleRan`
      states; frame `f` halted as `HaltedBy` states from the run they left;
      the later frames and the other cycles keep the records and scores of
      `j.v0`; records within a displacement bound stay within it; and
      against an empty reference it was not the first frame. */
  ghost predicate CycleHalt(j: CycleJob, r: CycleRun, f: nat, h: Halt, v: RunValue, err: Failure) {
    && j.c < |j.layout| && |j.frames| == j.layout[j.c] && f < |j.frames|
    && CycleRan(j.align, j.maxDisp, j.alignMethod, j.frames, j.c, j.layout, j.rows, j.cols, r)
    && |r.trail| == f && r.runs[0] == j.v0
    && h.c == j.c && h.f == f && h.shifts == v.shifts && h.corrs == v.corrs
    && HaltedBy(h, j.frames[f], j.align, j.maxDisp, j.alignMethod, j.layout, j.rows, j.cols, err)
    && h.start == FrameStart(r.runs[f].seeded, r.runs[f].views, r.runs[f].shifts, r.runs[f].at)
    && KeptFrom(j, v, f + 1)
    && (Bounded(j.maxDisp) && AllWithin(j.v0.shifts, j.maxDisp.value) ==> AllWithin(v.shifts, j.maxDisp.value))
    && (NoneSeeded(j.v0) ==> f > 0)
  }

  /** Frame `f` of cycle `c` (one turn of the loop at line 166): `AlignFrame`
      from where the frames before it left the run. A failure halts the
      cycle there as `CycleHalt` states; a pass extends the frames run so
      far by this one, as `CycleSoFar` states. */
  method AlignCycleFrame(st: RunState, c: nat, f: nat, frames: seq<Frame>, maxDisp: Option<Vec>,
                         alignMethod: string, align: Correlator, ghost j: CycleJob, ghost run: CycleRun)
    returns (out: Outcome, ghost halt: Halt, ghost next: CycleRun)
    requires st.Valid() && f < |frames| && IsFrame(frames[f], st.planes, st.rows, st.cols)
    requires j == CycleJob(align, maxDisp, alignMethod, frames, c, st.layout, st.planes, st.rows, st.cols, j.v0)
    requires CycleSoFar(j, run, f, ValueOf(st))
    modifies st, st.sums, st.counts
    ensures st.Valid()
    ensures (st.sums == old(st.sums) || fresh(st.sums)) && (st.counts == old(st.counts) || fresh(st.counts))
    ensures out.Fail? ==> out.error in {NotImplemented, UnrecognizedMethod, ShiftOutOfWindow, GridTooLarge}
    ensures out.Fail? ==> st.planes > 0
    ensures out == Fail(NotImplemented) ==> alignMethod == "ECC"
    ensures out == Fail(UnrecognizedMethod) ==> alignMethod != "ECC" && alignMethod != "correlation"
    ensures out == Fail(ShiftOutOfWindow) ==> Bounded(maxDisp)
    ensures out.Fail? ==> CycleHalt(j, run, f, halt, ValueOf(st), out.error)
    ensures out.Pass? ==> CycleSoFar(j, next, f + 1, ValueOf(st))
  {
    NoneSeededOf(st);
    ghost var v := ValueOf(st);
    ghost var start, steps, places, n, failed;
    out, start, steps, places, n, failed := AlignFrame(st, c, f, frames[f], maxDisp, alignMethod, align);
    halt, next := Halt(c, f, start, steps, places, n, failed, st.shifts, st.correlations), run;
    if out.Pass? {
      CycleStepPass(j, run, f, v, ValueOf(st), Trace(steps, places));
      next := CycleRun(run.runs + [ValueOf(st)], run.trail + [Trace(steps, places)]);
    } else {
      CycleStepFail(j, run, f, v, ValueOf(st), halt, out.error);
    }
  }

  /** A frame that ran in full from where the cycle stands extends it. */
  lemma CycleStepPass(j: CycleJob, run: CycleRun, f: nat, v: RunValue, w: RunValue, t: Trace)
    requires CycleSoFar(j, run, f, v) && f < |j.frames|
    requires FrameRan(j.align, j.maxDisp, j.alignMethod, j.frames[f], j.c, f, j.layout, j.rows, j.cols, v, w, t)
    requires |w.seeded| == j.planes && Shaped(w.shifts, j.layout, j.planes) && Shaped(w.corrs, j.layout, j.planes)
    requires Bounded(j.maxDisp) && AllWithin(v.shifts, j.maxDisp.value) ==> AllWithin(w.shifts, j.maxDisp.value)
    requires NoneSeeded(v) ==> Bootstrapped(w.shifts, w.corrs, j.c, f, j.planes)
    requires Placed(v, j.rows, j.cols) ==> Placed(w, j.rows, j.cols)
    ensures CycleSoFar(j, CycleRun(run.runs + [w], run.trail + [t]), f + 1, w)
  {
    CycleExtend(j.align, j.maxDisp, j.alignMethod, j.frames, j.c, j.layout, j.rows, j.cols, run, w, t);
    if f > 0 && NoneSeeded(j.v0) {
      assert w.shifts[j.c][0] == v.shifts[j.c][0] && w.corrs[j.c][0] == v.corrs[j.c][0];
    }
  }

  /** A frame that halted where the cycle stands halts the cycle. */
  lemma CycleStepFail(j: CycleJob, run: CycleRun, f: nat, v: RunValue, w: RunValue, h: Halt, err: Failure)
    requires CycleSoFar(j, run, f, v) && f < |j.frames|
    requires h.c == j.c && h.f == f && h.shifts == w.shifts && h.corrs == w.corrs
    requires HaltedBy(h, j.frames[f], j.align, j.maxDisp, j.alignMethod, j.layout, j.rows, j.cols, err)
    requires h.start == FrameStart(v.seeded, v.views, v.shifts, v.at)
    requires Shaped(w.shifts, j.layout, j.planes) && Shaped(w.corrs, j.layout, j.planes)
    requires forall c2, f2 | 0 <= c2 < |j.layout| && 0 <= f2 < j.layout[c2] && (c2 != j.c || f2 != f) ::
               w.shifts[c2][f2] == v.shifts[c2][f2] && w.corrs[c2][f2] == v.corrs[c2][f2]
    requires Bounded(j.maxDisp) && AllWithin(v.shifts, j.maxDisp.value) ==> AllWithin(w.shifts, j.maxDisp.value)
    requires !NoneSeeded(v)
    ensures CycleHalt(j, run, f, h, w, err)
  {
  }

  /** Lines 163-186 for cycle `c`: its frames in order from the run as it
      stands; the first failure aborts the cycle, as `CycleHalt` states, and
      a cycle that passes ran every frame, as `CycleSoFar` states. */
  method AlignCycle(st: RunState, c: nat, frames: seq<Frame>,
                    maxDisp: Option<Vec>, alignMethod: string, align: Correlator)
    returns (out: Outcome, ghost halt: Halt, ghost run: CycleRun)
    requires st.Valid() && c < |st.layout| && |frames| == st.layout[c]
    requires forall f | 0 <= f < |frames| :: IsFrame(frames[f], st.planes, st.rows, st.cols)
    modifies st, st.sums, st.counts
    ensures st.Valid()
    ensures (st.sums == old(st.sums) || fresh(st.sums)) && (st.counts == old(st.counts) || fresh(st.counts))
    ensures out.Fail? ==> out.error in {NotImplemented, UnrecognizedMethod, ShiftOutOfWindow, GridTooLarge}
    ensures out.Fail? ==> |frames| > 0 && st.planes > 0
    ensures out == Fail(NotImplemented) ==> alignMethod == "ECC"
    ensures out == Fail(UnrecognizedMethod) ==> alignMethod != "ECC" && alignMethod != "correlation"
    ensures out == Fail(ShiftOutOfWindow) ==> Bounded(maxDisp)
    ensures out.Pass? ==>
              CycleSoFar(CycleJob(align, maxDisp, alignMethod, frames, c, st.layout, st.planes, st.rows, st.cols,
                                  old(ValueOf(st))), run, |frames|, ValueOf(st))
    ensures out.Fail? ==>
              CycleHalt(CycleJob(align, maxDisp, alignMethod, frames, c, st.layout, st.planes, st.rows, st.cols,
                                 old(ValueOf(st))), run, halt.f, halt, ValueOf(st), out.error)
  {
    ghost var j := CycleJob(align, maxDisp, alignMethod, frames, c, st.layout, st.planes, st.rows, st.cols,
                            ValueOf(st));
    run := CycleRun([ValueOf(st)], []);
    halt := NoHalt;
    for f := 0 to |frames|
      invariant st.Valid()
      invariant (st.sums == old(st.sums) || fresh(st.sums)) && (st.counts == old(st.counts) || fresh(st.counts))
      invariant CycleSoFar(j, run, f, ValueOf(st))
    {
      ghost var next;
      out, halt, next := AlignCycleFrame(st, c, f, frames, maxDisp, alignMethod, align, j, run);
      if out.Fail? {
        return;
      }
      run := next;
    }
    out := Pass;
  }

  /** A reference of rows x cols cells that holds nothing. */
  function Blank(rows: nat, cols: nat): (v: RefView)
    ensures Rect(v, rows, cols)
  {
    RefView(seq(rows, i => seq(cols, j => 0.0)), seq(rows, i => seq(cols, j => 0)))
  }

  /** The run before its first frame (lines 155-161): no plane seeded, every
      reference blank, every record zero and every score 0, the offset zero
      on grids of the frame's shape. */
  function InitialRun(ds: Dataset): RunValue
    requires WellFormed(ds)
  {
    RunValue(seq(ds.planes, q => false), seq(ds.planes, q => Blank(ds.rows, ds.cols)),
             Filled(Layout(ds), ds.planes, Zero), Filled(Layout(ds), ds.planes, 0.0), Placement(Zero, ds.rows, ds.cols))
  }

  /** Where the cycles run so far left the run: the last run of the last
      cycle, or the initial run before any. */
  function RunEnd(ds: Dataset, cycles: seq<CycleRun>): RunValue
    requires WellFormed(ds)
  {
    if |cycles| == 0 || |cycles[|cycles| - 1].runs| == 0 then InitialRun(ds)
    else
      var r := cycles[|cycles| - 1].runs;
      r[|r| - 1]
  }

  /** The cycles of `ds` run so far, one after the other from `InitialRun`:
      cycle `c` ran its frames as `CycleRan` states from where the cycles
      before it left the run, and every cycle but the last ran all its
      frames. */
  ghost predicate RunSoFar(ds: Dataset, maxDisp: Option<Vec>, alignMethod: string, align: Correlator,
                           cycles: seq<CycleRun>)
    requires WellFormed(ds)
  {
    && |cycles| <= |ds.cycles|
    && forall c | 0 <= c < |cycles| :: CycleRanAt(ds, maxDisp, alignMethod, align, cycles, c)
  }

  /** Cycle `c` ran as `CycleRan` states from where the cycles before it
      left the run, and ran all its frames unless it is the last. */
  ghost predicate CycleRanAt(ds: Dataset, maxDisp: Option<Vec>, alignMethod: string, align: Correlator,
                             cycles: seq<CycleRun>, c: nat)
    requires WellFormed(ds)
  {
    && c < |cycles| && c < |ds.cycles|
    && CycleRan(align, maxDisp, alignMethod, ds.cycles[c], c, Layout(ds), ds.rows, ds.cols, cycles[c])
    && cycles[c].runs[0] == RunEnd(ds, cycles[..c])
    && (c + 1 < |cycles| ==> |cycles[c].trail| == |ds.cycles[c]|)
  }

  /** Every cycle of `ds` ran all its frames. */
  predicate RanAll(ds: Dataset, cycles: seq<CycleRun>)
    requires WellFormed(ds)
  {
    |cycles| == |ds.cycles| && forall c | 0 <= c < |cycles| :: |cycles[c].trail| == |ds.cycles[c]|
  }

  /** Cycle `|cycles|` run from where the run stands, after cycles that all
      ran in full, extends the run, and the run then stands where it left. */
  lemma RunExtend(ds: Dataset, maxDisp: Option<Vec>, alignMethod: string, align: Correlator,
                  cycles: seq<CycleRun>, r: CycleRun)
    requires WellFormed(ds) && RunSoFar(ds, maxDisp, alignMethod, align, cycles) && |cycles| < |ds.cycles|
    requires forall c | 0 <= c < |cycles| :: |cycles[c].trail| == |ds.cycles[c]|
    requires CycleRan(align, maxDisp, alignMethod, ds.cycles[|cycles|], |cycles|, Layout(ds), ds.rows, ds.cols, r)
    requires r.runs[0] == RunEnd(ds, cycles)
    ensures RunSoFar(ds, maxDisp, alignMethod, align, cycles + [r])
    ensures RunEnd(ds, cycles + [r]) == r.runs[|r.runs| - 1]
  {
    var cs := cycles + [r];
    assert cs[..|cycles|] == cycles;
    forall c | 0 <= c < |cs|
      ensures CycleRanAt(ds, maxDisp, alignMethod, align, cs, c)
    {
      if c < |cycles| {
        assert CycleRanAt(ds, maxDisp, alignMethod, align, cycles, c);
        assert cs[..c] == cycles[..c] && cs[c] == cycles[c];
      }
    }
  }

  /** The run of `ds` failed with `err` where `halt` says, having run
      `cycles`: the frame there halted as `Halted` states, from the run the
      cycles before it left, and every later record and score is still the
      zero and 0 the run started with. */
  ghost predicate RunFailed(ds: Dataset, maxDisp: Option<Vec>, alignMethod: string, align: Correlator, err: Failure,
                            halt: Halt, cycles: seq<CycleRun>)
    requires WellFormed(ds)
  {
    && halt.c < |ds.cycles| && halt.f < |ds.cycles[halt.c]|
    && HaltedBy(halt, ds.cycles[halt.c][halt.f], align, maxDisp, alignMethod, Layout(ds), ds.rows, ds.cols, err)
    && Untouched(halt.shifts, halt.corrs, ds, halt.c, halt.f + 1)
    && RunSoFar(ds, maxDisp, alignMethod, align, cycles)
    && |cycles| == halt.c + 1 && |cycles[halt.c].trail| == halt.f && |cycles[halt.c].runs| == halt.f + 1
    && var v := cycles[halt.c].runs[halt.f];
       halt.start == FrameStart(v.seeded, v.views, v.shifts, v.at)
  }

  /** Lines 163-186 for cycle `c` after the cycles before it ran in full
      from the initial run and left run `v`: its records are within a
      displacement bound; before any cycle no plane is seeded, and after one
      cycle 0's first frame is the bootstrap; every record places its plane
      inside the grids; and from cycle `c` on every record and score is
      still the initial zero and 0. */
  ghost predicate RunAt(ds: Dataset, maxDisp: Option<Vec>, alignMethod: string, align: Correlator,
                        cycles: seq<CycleRun>, c: nat, v: RunValue)
    requires WellFormed(ds)
  {
    && c <= |ds.cycles| && |cycles| == c
    && RunSoFar(ds, maxDisp, alignMethod, align, cycles)
    && (forall c2 | 0 <= c2 < c :: |cycles[c2].trail| == |ds.cycles[c2]|)
    && v == RunEnd(ds, cycles) && |v.seeded| == ds.planes
    && (c == 0 ==> NoneSeeded(v))
    && (Bounded(maxDisp) ==> AllWithin(v.shifts, maxDisp.value))
    && (c > 0 && |ds.cycles[0]| > 0 ==> Bootstrapped(v.shifts, v.corrs, 0, 0, ds.planes))
    && Placed(v, ds.rows, ds.cols)
    && Untouched(v.shifts, v.corrs, ds, c, 0)
  }

  /** The cycle `CycleJob` of cycle `c` of `ds` from run `v`. */
  function CycleOf(ds: Dataset, maxDisp: Option<Vec>, alignMethod: string, align: Correlator, c: nat,
                   v: RunValue): (j: CycleJob)
    requires c < |ds.cycles|
    ensures j.c == c && j.frames == ds.cycles[c] && j.layout == Layout(ds) && j.v0 == v
  {
    CycleJob(align, maxDisp, alignMethod, ds.cycles[c], c, Layout(ds), ds.planes, ds.rows, ds.cols, v)
  }

  /** Records and scores that were initial from cycle `j.c` on, and that the
      cycle kept from its frame `f` on, are initial from there on and from the
      next cycle on. */
  lemma UntouchedKept(ds: Dataset, j: CycleJob, w: RunValue, f: nat)
    requires WellFormed(ds) && j.c < |ds.cycles| && j.layout == Layout(ds) && j.planes == ds.planes
    requires Untouched(j.v0.shifts, j.v0.corrs, ds, j.c, 0) && KeptFrom(j, w, f)
    ensures Untouched(w.shifts, w.corrs, ds, j.c, f) && Untouched(w.shifts, w.corrs, ds, j.c + 1, 0)
  {
  }

  /** A cycle that ran every frame from where the run stands extends the run
      by one cycle. */
  lemma RunStepPass(ds: Dataset, maxDisp: Option<Vec>, alignMethod: string, align: Correlator,
                    cycles: seq<CycleRun>, r: CycleRun, w: RunValue)
    requires WellFormed(ds) && |cycles| < |ds.cycles|
    requires RunAt(ds, maxDisp, alignMethod, align, cycles, |cycles|, RunEnd(ds, cycles))
    requires CycleSoFar(CycleOf(ds, maxDisp, alignMethod, align, |cycles|, RunEnd(ds, cycles)), r,
                        |ds.cycles[|cycles|]|, w)
    ensures RunAt(ds, maxDisp, alignMethod, align, cycles + [r], |cycles| + 1, w)
  {
    var c, j := |cycles|, CycleOf(ds, maxDisp, alignMethod, align, |cycles|, RunEnd(ds, cycles));
    RunExtend(ds, maxDisp, alignMethod, align, cycles, r);
    UntouchedKept(ds, j, w, |ds.cycles[c]|);
    if c > 0 && |ds.cycles[0]| > 0 {
      assert w.shifts[0][0] == j.v0.shifts[0][0] && w.corrs[0][0] == j.v0.corrs[0][0];
    }
  }

  /** A cycle that halted where the run stands fails the run there. */
  lemma RunStepFail(ds: Dataset, maxDisp: Option<Vec>, alignMethod: string, align: Correlator,
                    cycles: seq<CycleRun>, r: CycleRun, w: RunValue, h: Halt, err: Failure)
    requires WellFormed(ds) && |cycles| < |ds.cycles|
    requires RunAt(ds, maxDisp, alignMethod, align, cycles, |cycles|, RunEnd(ds, cycles))
    requires CycleHalt(CycleOf(ds, maxDisp, alignMethod, align, |cycles|, RunEnd(ds, cycles)), r, h.f, h, w, err)
    ensures RunFailed(ds, maxDisp, alignMethod, align, err, h, cycles + [r]) && (h.c > 0 || h.f > 0)
    ensures Bounded(maxDisp) ==> AllWithin(w.shifts, maxDisp.value)
  {
    var j := CycleOf(ds, maxDisp, alignMethod, align, |cycles|, RunEnd(ds, cycles));
    RunExtend(ds, maxDisp, alignMethod, align, cycles, r);
    UntouchedKept(ds, j, w, h.f + 1);
    assert (cycles + [r])[|cycles|] == r;
    RunFailedNotFirst(ds, maxDisp, alignMethod, align, err, h, cycles + [r]);
  }

  /** Cycle `c` of `ds` (one turn of the loop at line 166): `AlignCycle`
      from where the cycles before it left the run. A failure fails the run
      there, as `RunFailed` states, with the records within a displacement
      bound; a pass extends the run by this cycle, as `RunAt` states. */
  method RunCycle(st: RunState, ds: Dataset, c: nat, maxDisp: Option<Vec>, alignMethod: string, align: Correlator,
                  ghost cycles: seq<CycleRun>)
    returns (out: Outcome, ghost halt: Halt, ghost next: seq<CycleRun>)
    requires WellFormed(ds) && st.Valid() && c < |ds.cycles|
    requires st.planes == ds.planes && st.rows == ds.rows && st.cols == ds.cols && st.layout == Layout(ds)
    requires RunAt(ds, maxDisp, alignMethod, align, cycles, c, ValueOf(st))
    modifies st, st.sums, st.counts
    ensures st.Valid()
    ensures (st.sums == old(st.sums) || fresh(st.sums)) && (st.counts == old(st.counts) || fresh(st.counts))
    ensures out.Fail? ==> out.error in {NotImplemented, UnrecognizedMethod, ShiftOutOfWindow, GridTooLarge}
    ensures out == Fail(NotImplemented) ==> alignMethod == "ECC"
    ensures out == Fail(UnrecognizedMethod) ==> alignMethod != "ECC" && alignMethod != "correlation"
    ensures out == Fail(ShiftOutOfWindow) ==> Bounded(maxDisp)
    ensures out.Fail? ==>
              && halt.shifts == st.shifts && halt.corrs == st.correlations && |Flatten(st.shifts)| > 0
              && (Bounded(maxDisp) ==> AllWithin(st.shifts, maxDisp.value))
              && RunFailed(ds, maxDisp, alignMethod, align, out.error, halt, next) && (halt.c > 0 || halt.f > 0)
    ensures out.Pass? ==> RunAt(ds, maxDisp, alignMethod, align, next, c + 1, ValueOf(st))
  {
    ghost var r;
    out, halt, r := AlignCycle(st, c, ds.cycles[c], maxDisp, alignMethod, align);
    next := cycles + [r];
    if out.Pass? {
      RunStepPass(ds, maxDisp, alignMethod, align, cycles, r, ValueOf(st));
    } else {
      RunStepFail(ds, maxDisp, alignMethod, align, cycles, r, ValueOf(st), halt, out.error);
      FlattenContains(st.shifts, c, 0, 0);
    }
  }

  /** A run that failed did not fail on its first frame: that frame meets
      the initial run, where no plane is seeded, and bootstraps every plane. */
  lemma {:induction false} RunFailedNotFirst(ds: Dataset, maxDisp: Option<Vec>, alignMethod: string, align: Correlator,
                                             err: Failure, halt: Halt, cycles: seq<CycleRun>)
    requires WellFormed(ds) && RunFailed(ds, maxDisp, alignMethod, align, err, halt, cycles)
    ensures halt.c > 0 || halt.f > 0
  {
    HaltedCause(align, maxDisp, alignMethod, ds.cycles[halt.c][halt.f], halt.c, halt.f, Layout(ds), ds.rows, ds.cols,
                halt.start, halt.steps, halt.places, halt.shifts, halt.corrs, halt.n, halt.failed, err);
    assert CycleRanAt(ds, maxDisp, alignMethod, align, cycles, halt.c);
    if halt.c == 0 {
      assert cycles[..0] == [];
    }
  }

  /** The run of `ds` ran every frame of every cycle, one after the other
      from the initial run, and ended with records `raw`, scores `corrs` and
      placement `at`. */
  ghost predicate RunPassed(ds: Dataset, maxDisp: Option<Vec>, alignMethod: string, align: Correlator,
                            cycles: seq<CycleRun>, raw: Shifts, corrs: Scores, at: Placement)
    requires WellFormed(ds)
  {
    && RunSoFar(ds, maxDisp, alignMethod, align, cycles) && RanAll(ds, cycles)
    && raw == RunEnd(ds, cycles).shifts && corrs == RunEnd(ds, cycles).corrs && at == RunEnd(ds, cycles).at
  }

  /** Lines 155-161: a fresh reference of the frame's shape for `ds`, with
      no plane seeded, every record zero and so placed inside the grids. */
  method NewRun(ds: Dataset) returns (st: RunState)
    requires WellFormed(ds)
    ensures fresh(st) && fresh(st.sums) && fresh(st.counts) && st.Valid()
    ensures st.planes == ds.planes && st.rows == ds.rows && st.cols == ds.cols && st.layout == Layout(ds)
    ensures NothingSeeded(st) && st.AllPlaced()
    ensures st.shifts == Filled(Layout(ds), ds.planes, Zero) && st.correlations == Filled(Layout(ds), ds.planes, 0.0)
    ensures ValueOf(st) == InitialRun(ds)
  {
    st := new RunState(ds.planes, ds.rows, ds.cols, Layout(ds));
    assert NothingSeeded(st);
    forall q | 0 <= q < ds.planes
      ensures st.seeds[q] == false && st.layers[q] == Blank(ds.rows, ds.cols)
    {
      assert !st.Seeded(q);
      LayerFilled(st.sums, q, 0.0);
      LayerFilled(st.counts, q, 0);
    }
  }

  /** Every record and score from frame (c, f) on, in row-major order, is
      still the zero record and score 0 the run started with. */
  predicate Untouched(shifts: Shifts, corrs: Scores, ds: Dataset, c: nat, f: nat)
    requires WellFormed(ds)
  {
    && Shaped(shifts, Layout(ds), ds.planes) && Shaped(corrs, Layout(ds), ds.planes)
    && forall c2, f2 | c <= c2 < |ds.cycles| && 0 <= f2 < |ds.cycles[c2]| && (c2 > c || f2 >= f) ::
         shifts[c2][f2] == Filled(Layout(ds), ds.planes, Zero)[c2][f2]
         && corrs[c2][f2] == Filled(Layout(ds), ds.planes, 0.0)[c2][f2]
  }

  /** Lines 155-188: a fresh reference of the frame's shape with zero records
      (155-161), then the loop at line 166 over the cycles of `ds`. The first
      failing cycle aborts it, as `RunFailed` states, never at the first
      frame, and a failure comes from a cycle with a frame and a plane, so
      records were kept. The records and scores keep the run's shape and stay
      within a displacement bound. When every cycle passes, the run is as
      `RunPassed` states, cycle 0's first frame is the bootstrap, and every
      record places its plane inside the grids the reference ended with,
      `at`. */
  method AlignCycles(ds: Dataset, maxDisp: Option<Vec>, alignMethod: string, align: Correlator)
    returns (out: Outcome, records: Shifts, corrs: Scores, ghost at: Placement, ghost halt: Halt,
             ghost cycles: seq<CycleRun>)
    requires WellFormed(ds)
    ensures Shaped(records, Layout(ds), ds.planes) && Shaped(corrs, Layout(ds), ds.planes)
    ensures Bounded(maxDisp) ==> AllWithin(records, maxDisp.value)
    ensures out.Fail? ==> out.error in {NotImplemented, UnrecognizedMethod, ShiftOutOfWindow, GridTooLarge}
    ensures out.Fail? ==> |Flatten(records)| > 0
    ensures out == Fail(NotImplemented) ==> alignMethod == "ECC"
    ensures out == Fail(UnrecognizedMethod) ==> alignMethod != "ECC" && alignMethod != "correlation"
    ensures out == Fail(ShiftOutOfWindow) ==> Bounded(maxDisp)
    ensures out.Pass? ==> AllFit(records, at.offset, ds.rows, ds.cols, at.gridRows, at.gridCols)
    ensures out.Pass? && |ds.cycles| > 0 && |ds.cycles[0]| > 0 ==> Bootstrapped(records, corrs, 0, 0, ds.planes)
    ensures out.Fail? ==>
              halt.shifts == records && halt.corrs == corrs && RunFailed(ds, maxDisp, alignMethod, align, out.error, halt,
                                                                         cycles)
    ensures out.Pass? ==> RunPassed(ds, maxDisp, alignMethod, align, cycles, records, corrs, at)
    ensures out.Fail? ==> halt.c > 0 || halt.f > 0
  {
    var st := NewRun(ds);
    RunAtStart(ds, maxDisp, alignMethod, align);
    out := Pass;
    cycles := [];
    halt := NoHalt;
    for c := 0 to |ds.cycles|
      invariant st.Valid() && fresh(st) && fresh(st.sums) && fresh(st.counts)
      invariant st.planes == ds.planes && st.rows == ds.rows && st.cols == ds.cols && st.layout == Layout(ds)
      invariant out.Pass?
      invariant RunAt(ds, maxDisp, alignMethod, align, cycles, c, ValueOf(st))
    {
      out, halt, cycles := RunCycle(st, ds, c, maxDisp, alignMethod, align, cycles);
      if out.Fail? {
        records, corrs, at := st.shifts, st.correlations, PlacementOf(st);
        return;
      }
    }
    records, corrs, at := st.shifts, st.correlations, PlacementOf(st);
    RunEndPassed(ds, maxDisp, alignMethod, align, cycles, ValueOf(st));
  }

  /** The initial run stands before the first cycle. */
  lemma RunAtStart(ds: Dataset, maxDisp: Option<Vec>, alignMethod: string, align: Correlator)
    requires WellFormed(ds)
    ensures RunAt(ds, maxDisp, alignMethod, align, [], 0, InitialRun(ds))
  {
    AllFitFilled(Layout(ds), ds.planes, ds.rows, ds.cols);
  }

  /** A run that stands after its last cycle passed, with the records, scores
      and placement it ended with. */
  lemma RunEndPassed(ds: Dataset, maxDisp: Option<Vec>, alignMethod: string, align: Correlator,
                     cycles: seq<CycleRun>, v: RunValue)
    requires WellFormed(ds) && RunAt(ds, maxDisp, alignMethod, align, cycles, |ds.cycles|, v)
    ensures RunPassed(ds, maxDisp, alignMethod, align, cycles, v.shifts, v.corrs, v.at)
    ensures AllFit(v.shifts, v.at.offset, ds.rows, ds.cols, v.at.gridRows, v.at.gridCols)
    ensures |ds.cycles| > 0 && |ds.cycles[0]| > 0 ==> Bootstrapped(v.shifts, v.corrs, 0, 0, ds.planes)
    ensures Bounded(maxDisp) ==> AllWithin(v.shifts, maxDisp.value)
  {
  }

  /** The result of one tile run: the re-anchored records and the scores. */
  datatype TileRun = TileRun(shifts: Shifts, correlations: Scores)

  /** What a tile run that succeeds promises about `ds`, its records `raw`
      before re-anchoring and the reference's final placement `at`: the
      records are well shaped and not empty; the returned ones are the raw
      ones less the one as-written alteration, so every row component is
      kept; with a displacement bound every raw record is within it; the
      first frame is the bootstrap (record zero, score 1); and every raw
      record places its plane inside the reference's grids. */
  predicate TileAligned(ds: Dataset, maxDisp: Option<Vec>, run: TileRun, raw: Shifts, at: Placement)
    requires WellFormed(ds)
  {
    && |ds.cycles| > 0
    && Shaped(raw, Layout(ds), ds.planes)
    && Shaped(run.shifts, Layout(ds), ds.planes)
    && Shaped(run.correlations, Layout(ds), ds.planes)
    && |Flatten(raw)| > 0
    && run.shifts == Translate3(raw, PlaneAlign.AsWrittenAlteration(raw))
    && (forall c, f, q | 0 <= c < |raw| && 0 <= f < |raw[c]| && 0 <= q < |raw[c][f]| ::
          run.shifts[c][f][q].y == raw[c][f][q].y)
    && (Bounded(maxDisp) ==> AllWithin(raw, maxDisp.value))
    && (|ds.cycles[0]| > 0 ==> Bootstrapped(raw, run.correlations, 0, 0, ds.planes))
    && AllFit(raw, at.offset, ds.rows, ds.cols, at.gridRows, at.gridCols)
  }

  /** A run whose records `raw` are well shaped, not empty, within a bound,
      bootstrapped on the first frame and all placed at `at`, and whose
      result is `raw` less the as-written alteration, is `TileAligned`. */
  lemma TileAlignedOf(ds: Dataset, maxDisp: Option<Vec>, run: TileRun, raw: Shifts, at: Placement)
    requires WellFormed(ds) && |ds.cycles| > 0
    requires Shaped(raw, Layout(ds), ds.planes) && Shaped(run.correlations, Layout(ds), ds.planes)
    requires |Flatten(raw)| > 0 && run.shifts == Translate3(raw, PlaneAlign.AsWrittenAlteration(raw))
    requires Bounded(maxDisp) ==> AllWithin(raw, maxDisp.value)
    requires |ds.cycles[0]| > 0 ==> Bootstrapped(raw, run.correlations, 0, 0, ds.planes)
    requires AllFit(raw, at.offset, ds.rows, ds.cols, at.gridRows, at.gridCols)
    ensures TileAligned(ds, maxDisp, run, raw, at)
  {
    Translate3Shaped(raw, PlaneAlign.AsWrittenAlteration(raw), Layout(ds), ds.planes);
  }

  /** `_frame_alignment_base` (lines 123-200) run sequentially, with
      `_align_planes` as written. An empty dataset fails; the first failing
      frame aborts the run; a dataset with no frame or no plane leaves no
      record, and the re-anchoring fails on it. Otherwise the run is as
      `TileAligned` states, with `raw` the record list before re-anchoring
      and `at` where the reference ended. */
  method RunTile(ds: Dataset, maxDisp: Option<Vec>, alignMethod: string, align: Correlator)
    returns (res: Result<TileRun>, ghost raw: Shifts, ghost at: Placement, ghost halt: Halt,
             ghost cycles: seq<CycleRun>)
    requires WellFormed(ds)
    ensures |ds.cycles| == 0 <==> res == Err(EmptyDataset)
    ensures res == Err(NoRecords) <==> |ds.cycles| > 0 && FrameCount(Layout(ds)) * ds.planes == 0
    ensures res.Err? ==> res.error in {EmptyDataset, NotImplemented, UnrecognizedMethod, ShiftOutOfWindow,
                                       GridTooLarge, NoRecords}
    ensures res == Err(NotImplemented) ==> alignMethod == "ECC"
    ensures res == Err(UnrecognizedMethod) ==> alignMethod != "ECC" && alignMethod != "correlation"
    ensures res == Err(ShiftOutOfWindow) ==> Bounded(maxDisp)
    ensures res.Ok? ==> TileAligned(ds, maxDisp, res.value, raw, at)
    ensures res.Err? && res.error !in {EmptyDataset, NoRecords} ==>
              halt.shifts == raw && RunFailed(ds, maxDisp, alignMethod, align, res.error, halt, cycles)
    ensures res.Ok? ==> RunPassed(ds, maxDisp, alignMethod, align, cycles, raw, res.value.correlations, at)
  {
    if |ds.cycles| == 0 {
      return Err(EmptyDataset), [], Placement(Zero, 0, 0),
             NoHalt,
             [];
    }
    var out, records, corrs;
    out, records, corrs, at, halt, cycles := AlignCycles(ds, maxDisp, alignMethod, align);
    raw := records;
    FlattenLength(raw, Layout(ds), ds.planes);
    if out.Fail? {
      assert FrameCount(Layout(ds)) * ds.planes != 0;
      return Err(out.error), raw, at, halt, cycles;
    }
    var aligned := PlaneAlign.AlignPlanesAsWritten(records);
    if aligned.Err? {
      return Err(NoRecords), raw, at, halt, cycles;
    }
    res := Ok(TileRun(aligned.value, corrs));
    TileAlignedOf(ds, maxDisp, res.value, raw, at);
  }
}
