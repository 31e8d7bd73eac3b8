/** Imaging data as the alignment engine sees it: samples, planes, frames,
    cycles, the dataset, and the ways a run can fail. */
module Frames {

  /** One float64 sample. Non-finite values are kept apart because
      `np.isfinite` and `np.nan_to_num` treat them specially. */
  datatype Sample = Finite(value: real) | NotANumber | PosInfinity | NegInfinity

  /** The largest finite float64, which `np.nan_to_num` substitutes for +inf. */
  const MaxFloat: real := 179769313486231570814527423731704356798070567525844996598917476803157260780028538760589558632766878171540458953514382464234321326889464182768467546703537516986049910576551282076245490090389328944075868508455133942304583236903222948165808559332123348274797826204144723168738177180919299881250404026184124858368.0

  /** `np.nan_to_num` of one sample. */
  function NanToNum(s: Sample): real {
    match s
    case Finite(v) => v
    case NotANumber => 0.0
    case PosInfinity => MaxFloat
    case NegInfinity => -MaxFloat
  }

  /** `np.isfinite` of one sample, as the 0/1 that `+=` adds to a count. */
  function FiniteCount(s: Sample): nat {
    if s.Finite? then 1 else 0
  }

  /** A plane is rows x cols samples; a frame is a list of planes. */
  type Plane = seq<seq<Sample>>
  type Frame = seq<Plane>

  predicate IsPlane(plane: Plane, rows: nat, cols: nat) {
    |plane| == rows && forall i | 0 <= i < |plane| :: |plane[i]| == cols
  }

  /** Some sample of the plane is finite, so adding it counts at least one pixel. */
  predicate HasFinite(plane: Plane) {
    exists a, b | 0 <= a < |plane| && 0 <= b < |plane[a]| :: plane[a][b].Finite?
  }

  predicate IsFrame(frame: Frame, planes: nat, rows: nat, cols: nat) {
    |frame| == planes && forall p | 0 <= p < |frame| :: IsPlane(frame[p], rows, cols)
  }

  /** A list of cycles (sequences), each a list of frames, all of one frame
      shape (planes, rows, cols), which a dataset exposes as `frame_shape`. */
  datatype Dataset = Dataset(planes: nat, rows: nat, cols: nat, cycles: seq<seq<Frame>>)

  predicate WellFormed(ds: Dataset) {
    forall c, f | 0 <= c < |ds.cycles| && 0 <= f < |ds.cycles[c]| ::
      IsFrame(ds.cycles[c][f], ds.planes, ds.rows, ds.cols)
  }

  /** The number of frames of each cycle: the first axis of each shift record. */
  function Layout(ds: Dataset): (layout: seq<nat>)
    ensures |layout| == |ds.cycles|
    ensures forall c | 0 <= c < |layout| :: layout[c] == |ds.cycles[c]|
  {
    seq(|ds.cycles|, c requires 0 <= c < |ds.cycles| => |ds.cycles[c]|)
  }

  /** The exceptions that abort a run. */
  datatype Failure =
    | EmptyDataset        // `sequences[0]` of an empty list
    | NotImplemented      // method 'ECC'
    | UnrecognizedMethod  // any other method but 'correlation'
    | ShiftOutOfWindow    // the correlation result fails its assertions
    | GridTooLarge        // the accumulator reaches 4x the frame area
    | NoRecords           // re-anchoring an empty shift record, as written
    | ZeroPartitions      // a partition count of 0 divides by zero
    | NoTiles             // a negative partition count leaves no tile
    | TooManyTiles        // `choose` among more tiles than NumPy allows

  datatype Option<T> = None | Some(value: T)

  datatype Result<T> = Ok(value: T) | Err(error: Failure)

  datatype Outcome = Pass | Fail(error: Failure)
}
