/** `_align_planes` (frame_align.py:190-196), run after all frames of a tile
    are aligned. As written it subtracts one and the same alteration from
    every record of every plane (see `AlignPlanesAsWritten`); its docstring
    and comments describe one alteration per plane, which `AlignPlanes`
    models. */
module PlaneAlign {
  import opened Vectors
  import opened Frames
  import opened Records

  // ---------------------------------------------------------------------------
  // As written: line 192 flattens cycles, frames AND planes, so `mean_shift` is
  // one 2-vector and the alteration is (0, trunc(mean_x - mean_y)) for everyone.
  // ---------------------------------------------------------------------------

  /** Lines 192-194 as written: `mean_shift - mean_shift[0]`, truncated, where
      `mean_shift` is the mean of all records. Its row component is always 0. */
  function AsWrittenAlteration(s: Shifts): (a: Vec)
    requires |Flatten(s)| > 0
    ensures a.y == 0
  {
    var n := |Flatten(s)|;
    var total := SumOf(Flatten(s));
    Vec(TruncDiv(total.y - total.y, n), TruncDiv(total.x - total.y, n))
  }

  /** Lines 190-196 as written: every record of every cycle loses the same
      alteration. An empty record list makes `nanmean` return a scalar, and
      `mean_shift[0]` then fails. */
  method AlignPlanesAsWritten(s: Shifts) returns (r: Result<Shifts>)
    ensures |Flatten(s)| == 0 <==> r == Err(NoRecords)
    ensures |Flatten(s)| > 0 ==> r == Ok(Translate3(s, AsWrittenAlteration(s)))
    ensures r.Ok? ==> forall c, f, q | 0 <= c < |s| && 0 <= f < |s[c]| && 0 <= q < |s[c][f]| ::
                        |r.value[c]| == |s[c]| && |r.value[c][f]| == |s[c][f]| && r.value[c][f][q].y == s[c][f][q].y
  {
    if |Flatten(s)| == 0 {
      return Err(NoRecords);
    }
    var a := AsWrittenAlteration(s);
    var t := s;
    for c := 0 to |s|
      invariant |t| == |s|
      invariant forall k | 0 <= k < c :: t[k] == TranslateAll(s[k], a)
      invariant forall k | c <= k < |s| :: t[k] == s[k]
    {
      t := t[c := TranslateAll(t[c], a)];
    }
    assert t == Translate3(s, a);
    return Ok(t);
  }

  /** Subtracting one vector from every record keeps the difference between
      any two records. */
  lemma TranslatePreservesDifferences(s: Shifts, a: Vec, c1: nat, f1: nat, p1: nat, c2: nat, f2: nat, p2: nat)
    requires c1 < |s| && f1 < |s[c1]| && p1 < |s[c1][f1]|
    requires c2 < |s| && f2 < |s[c2]| && p2 < |s[c2][f2]|
    ensures var t := Translate3(s, a);
      Sub(t[c1][f1][p1], t[c2][f2][p2]) == Sub(s[c1][f1][p1], s[c2][f2][p2])
  {
  }

  /** What the code as written achieves: the row sum is untouched and the
      column mean is brought within one pixel of the row mean, whatever the
      planes. */
  lemma AsWrittenEqualisesAxes(s: Shifts)
    requires |Flatten(s)| > 0
    ensures var t := Flatten(Translate3(s, AsWrittenAlteration(s)));
      var total := SumOf(t);
      && |t| == |Flatten(s)|
      && total.y == SumOf(Flatten(s)).y
      && AbsInt(total.x - total.y) < |t|
  {
    var a := AsWrittenAlteration(s);
    FlattenTranslate(s, a);
    SumTranslate(Flatten(s), a);
  }

  /** With a single plane there is nothing to re-anchor, yet as written a
      record (5, 0) becomes (5, 5): the column shift is moved by the row mean. */
  lemma AsWrittenMovesSinglePlane()
    ensures var s: Shifts := [[[Vec(5, 0)]]];
      && |Flatten(s)| > 0
      && Translate3(s, AsWrittenAlteration(s)) == [[[Vec(5, 5)]]]
  {
    var w := [Vec(5, 0)];
    var s: Shifts := [[w]];
    FlattenOneFrame(w);
    SumOne(Vec(5, 0));
    var a := AsWrittenAlteration(s);
    assert a == Vec(0, -5);
    Translate3OneFrame(w, a);
    assert Translate(w, a) == [Vec(5, 5)];
  }

  /** Re-anchored per plane, a single plane is left alone. */
  lemma AlignedSinglePlaneUnmoved()
    ensures var s: Shifts := [[[Vec(5, 0)]]];
      TranslatePlanes(s, PlaneAlterations(s, 1)) == s
  {
    var w := [Vec(5, 0)];
    var alt := PlaneAlterations([[w]], 1);
    AlterationsOneFrame(w);
    TranslatePlanesOneFrame(w, alt);
    assert TranslateFrames([w], alt)[0] == w;
  }

  /** Two planes recorded 4 columns apart stay 4 apart as written, both moved
      by (0, 2). */
  lemma AsWrittenKeepsPlanesApart()
    ensures var s: Shifts := [[[Vec(0, 0), Vec(0, 4)]]];
      && |Flatten(s)| > 0
      && Translate3(s, AsWrittenAlteration(s)) == [[[Vec(0, -2), Vec(0, 2)]]]
  {
    var w := [Vec(0, 0), Vec(0, 4)];
    var s: Shifts := [[w]];
    FlattenOneFrame(w);
    SumTwo(Vec(0, 0), Vec(0, 4));
    var a := AsWrittenAlteration(s);
    assert a == Vec(0, 2);
    Translate3OneFrame(w, a);
    assert Translate(w, a) == [Vec(0, -2), Vec(0, 2)];
  }

  /** Re-anchored per plane, the same two planes coincide. */
  lemma AlignedPlanesCoincide()
    ensures var s: Shifts := [[[Vec(0, 0), Vec(0, 4)]]];
      TranslatePlanes(s, PlaneAlterations(s, 2)) == [[[Vec(0, 0), Vec(0, 0)]]]
  {
    var w := [Vec(0, 0), Vec(0, 4)];
    AlignedOneFrame(w);
    assert seq(|w|, p => w[0]) == [Vec(0, 0), Vec(0, 0)];
  }

  /** With a single frame, every plane is moved onto plane 0's record. */
  lemma AlignedOneFrame(w: seq<Vec>)
    requires |w| > 0
    ensures TranslatePlanes([[w]], PlaneAlterations([[w]], |w|)) == [[seq(|w|, p => w[0])]]
  {
    var alt := PlaneAlterations([[w]], |w|);
    AlterationsOneFrame(w);
    TranslatePlanesOneFrame(w, alt);
    var r := TranslateFrames([w], alt)[0];
    forall p | 0 <= p < |w|
      ensures r[p] == w[0]
    {
      assert r[p] == Sub(w[p], alt[p]);
    }
    assert r == seq(|w|, p => w[0]);
  }

  /** For a single frame, plane p is moved by its offset from plane 0. */
  lemma AlterationsOneFrame(w: seq<Vec>)
    requires |w| > 0
    ensures forall p | 0 <= p < |w| :: PlaneAlterations([[w]], |w|)[p] == Sub(w[p], w[0])
  {
    forall p | 0 <= p < |w|
      ensures PlaneAlterations([[w]], |w|)[p] == Sub(w[p], w[0])
    {
      ColumnsOneFrame(w, 0);
      ColumnsOneFrame(w, p);
    }
  }

  lemma Translate3OneFrame(w: seq<Vec>, a: Vec)
    ensures Translate3([[w]], a) == [[Translate(w, a)]]
  {
    assert TranslateAll([w], a) == [Translate(w, a)];
  }

  lemma TranslatePlanesOneFrame(w: seq<Vec>, alt: seq<Vec>)
    ensures TranslatePlanes([[w]], alt) == [[TranslateFrames([w], alt)[0]]]
  {
    assert TranslatePlanes([[w]], alt)[0] == TranslateFrames([w], alt);
    assert TranslateFrames([w], alt) == [TranslateFrames([w], alt)[0]];
  }

  lemma FlattenOneFrame(w: seq<Vec>)
    ensures Flatten([[w]]) == w
  {
    ConcatOne([w]);
    ConcatOne(w);
  }

  lemma ConcatOne<T>(w: seq<T>)
    ensures Concat([w]) == w
  {
    assert [w][..0] == [];
  }

  lemma ColumnsOneFrame(w: seq<Vec>, p: nat)
    requires p < |w|
    ensures PlaneRecords([[w]], p) == [w[p]]
    ensures SumOf(PlaneRecords([[w]], p)) == w[p]
  {
    assert PlaneColumn([w], p) == [w[p]];
    var cols := seq(1, c requires 0 <= c < 1 => PlaneColumn([[w]][c], p));
    assert cols == [[w[p]]];
    ConcatOne([w[p]]);
    SumOne(w[p]);
  }

  lemma SumTwo(u: Vec, v: Vec)
    ensures SumOf([u, v]) == Add(u, v)
  {
    assert [u, v][..1] == [u];
    SumOne(u);
  }

  lemma SumOne(v: Vec)
    ensures SumOf([v]) == v
  {
    assert [v][..0] == [];
  }

  // ---------------------------------------------------------------------------
  // As intended (docstring at 191, comment at 193): per-plane mean shifts,
  // each plane moved by its truncated difference from plane 0's mean.
  // ---------------------------------------------------------------------------

  /** The records of plane `p` of each frame of a cycle. */
  function PlaneColumn(frames: seq<seq<Vec>>, p: nat): seq<Vec> {
    seq(|frames|, f requires 0 <= f < |frames| => if p < |frames[f]| then frames[f][p] else Zero)
  }

  /** The records of plane `p` over all cycles and frames, in order. */
  function PlaneRecords(s: Shifts, p: nat): seq<Vec> {
    Concat(seq(|s|, c requires 0 <= c < |s| => PlaneColumn(s[c], p)))
  }

  /** Every plane has one record per (cycle, frame). */
  lemma PlaneRecordsLength(s: Shifts, p: nat)
    ensures |PlaneRecords(s, p)| == |Concat(s)|
  {
    ConcatSameLengths(seq(|s|, c requires 0 <= c < |s| => PlaneColumn(s[c], p)), s);
  }

  /** Per plane `p`: the truncated difference between the mean record of
      plane `p` and that of plane 0 (nothing to move when there are no frames). */
  function PlaneAlterations(s: Shifts, planes: nat): (alt: seq<Vec>)
    ensures |alt| == planes
  {
    var n := |PlaneRecords(s, 0)|;
    var base := SumOf(PlaneRecords(s, 0));
    seq(planes, p requires 0 <= p < planes =>
      if n == 0 then Zero
      else var total := SumOf(PlaneRecords(s, p));
           Vec(TruncDiv(total.y - base.y, n), TruncDiv(total.x - base.x, n)))
  }

  /** `seq -= alteration` with one alteration per plane, broadcast over frames. */
  function TranslateFrames(frames: seq<seq<Vec>>, alt: seq<Vec>): (r: seq<seq<Vec>>)
    ensures |r| == |frames|
  {
    seq(|frames|, f requires 0 <= f < |frames| =>
      seq(|frames[f]|, p requires 0 <= p < |frames[f]| =>
        if p < |alt| then Sub(frames[f][p], alt[p]) else frames[f][p]))
  }

  function TranslatePlanes(s: Shifts, alt: seq<Vec>): (r: Shifts)
    ensures |r| == |s|
  {
    seq(|s|, c requires 0 <= c < |s| => TranslateFrames(s[c], alt))
  }

  lemma TranslatePlanesShaped(s: Shifts, alt: seq<Vec>, layout: seq<nat>, planes: nat)
    requires Shaped(s, layout, planes)
    ensures Shaped(TranslatePlanes(s, alt), layout, planes)
  {
  }

  /** Moving each plane by its own vector moves that plane's records by it. */
  lemma PlaneRecordsTranslate(s: Shifts, layout: seq<nat>, planes: nat, alt: seq<Vec>, p: nat)
    requires Shaped(s, layout, planes) && p < planes && |alt| == planes
    ensures PlaneRecords(TranslatePlanes(s, alt), p) == Translate(PlaneRecords(s, p), alt[p])
  {
    var t := TranslatePlanes(s, alt);
    var cs := seq(|s|, c requires 0 <= c < |s| => PlaneColumn(s[c], p));
    var ct := seq(|t|, c requires 0 <= c < |t| => PlaneColumn(t[c], p));
    forall c | 0 <= c < |s|
      ensures ct[c] == TranslateAll(cs, alt[p])[c]
    {
      assert forall f | 0 <= f < |s[c]| :: p < |s[c][f]|;
    }
    assert ct == TranslateAll(cs, alt[p]);
    ConcatTranslate(cs, alt[p]);
  }

  /** The intended re-anchoring: afterwards every plane's record sum (so its
      mean, dividing by the common count n) is within n of plane 0's in each
      component, that is, the means agree up to truncation; plane 0 is
      unchanged. */
  lemma AlignedPlanesShareMean(s: Shifts, layout: seq<nat>, planes: nat, p: nat)
    requires Shaped(s, layout, planes) && 0 < p < planes
    ensures var t := TranslatePlanes(s, PlaneAlterations(s, planes));
      var n := |Concat(s)|;
      var d := Sub(SumOf(PlaneRecords(t, p)), SumOf(PlaneRecords(t, 0)));
      && PlaneRecords(t, 0) == PlaneRecords(s, 0)
      && (n > 0 ==> AbsInt(d.y) < n && AbsInt(d.x) < n)
  {
    var alt := PlaneAlterations(s, planes);
    var t := TranslatePlanes(s, alt);
    AlignedPlaneZeroUnmoved(s, layout, planes);
    var n := |Concat(s)|;
    if n > 0 {
      var r0, rp := PlaneRecords(s, 0), PlaneRecords(s, p);
      PlaneRecordsLength(s, 0);
      PlaneRecordsLength(s, p);
      var base, total := SumOf(r0), SumOf(rp);
      var ap := alt[p];
      assert ap == Vec(TruncDiv(total.y - base.y, n), TruncDiv(total.x - base.x, n));
      PlaneRecordsTranslate(s, layout, planes, alt, p);
      SumTranslate(rp, ap);
      assert SumOf(PlaneRecords(t, p)) == Sub(total, Scale(n, ap));
    }
  }

  /** Plane 0 is the anchor: its alteration is zero. */
  lemma AnchorAlterationZero(s: Shifts, planes: nat)
    requires 0 < planes
    ensures PlaneAlterations(s, planes)[0] == Zero
  {
    var n := |PlaneRecords(s, 0)|;
    if n > 0 {
      assert TruncDiv(0, n) == 0;
    }
  }

  lemma AlignedPlaneZeroUnmoved(s: Shifts, layout: seq<nat>, planes: nat)
    requires Shaped(s, layout, planes) && 0 < planes
    ensures PlaneRecords(TranslatePlanes(s, PlaneAlterations(s, planes)), 0) == PlaneRecords(s, 0)
  {
    var alt := PlaneAlterations(s, planes);
    AnchorAlterationZero(s, planes);
    PlaneRecordsTranslate(s, layout, planes, alt, 0);
    assert Translate(PlaneRecords(s, 0), Zero) == PlaneRecords(s, 0);
  }

  /** Re-anchoring per plane keeps the frame-to-frame variation of each plane. */
  lemma AlignedPlanesKeepVariation(s: Shifts, alt: seq<Vec>, p: nat, c1: nat, f1: nat, c2: nat, f2: nat)
    requires c1 < |s| && f1 < |s[c1]| && p < |s[c1][f1]|
    requires c2 < |s| && f2 < |s[c2]| && p < |s[c2][f2]|
    ensures var t := TranslatePlanes(s, alt);
      Sub(t[c1][f1][p], t[c2][f2][p]) == Sub(s[c1][f1][p], s[c2][f2][p])
  {
  }

  /** `_align_planes` as intended, in place over the cycles. */
  method AlignPlanes(s: Shifts, planes: nat) returns (t: Shifts)
    ensures t == TranslatePlanes(s, PlaneAlterations(s, planes))
  {
    var alt := PlaneAlterations(s, planes);
    t := s;
    for c := 0 to |s|
      invariant |t| == |s|
      invariant forall k | 0 <= k < c :: t[k] == TranslateFrames(s[k], alt)
      invariant forall k | c <= k < |s| :: t[k] == s[k]
    {
      t := t[c := TranslateFrames(t[c], alt)];
    }
    assert t == TranslatePlanes(s, alt);
  }
}
