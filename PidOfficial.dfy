/** The lane-following loop of 5g-car-python/test/pid_official.py: each
    frame, resized to 600x400 and reduced to an edge image, is scanned on
    rows 370 down to 271; each row yields a left line (its first bright
    pixel) and a right line (the first bright pixel more than 100 columns
    further right); each row's midpoint is corrected by the row after it
    and summed; the PD law with gains 0.25 and 0.11 turns the offset of the
    average from column 300 into a servo angle in [60, 130]. The camera,
    the image filters and the 1-second sleep are not modelled. */
module PidOfficial {
  import opened Common
  import opened ServoMaps

  const Width := 600
  const Height := 400
  /** The scanned band: rows 370 down to 271, one list slot per row. */
  const TopRow := 370
  const BandRows := 100
  const White := 255
  /** A right line must lie more than this many columns right of the left. */
  const MinLaneWidth := 100
  /** Gains, output limits and servo centre of the script. */
  const Kp: real := 0.25
  const Kd: real := 0.11
  const AngleOutMax: real := 25.0
  const AngleOutMin: real := -45.0
  const CentreColumn: real := 300.0
  const ServoCentre: real := 85.0

  /** A frame after resizing: 400 rows of 600 pixels. */
  predicate Shaped(img: seq<seq<int>>)
  {
    |img| == Height && forall r :: 0 <= r < |img| ==> |img[r]| == Width
  }

  /** The first bright column at or after `from`, or 600 when there is none. */
  function FirstBright(row: seq<int>, from: int): (z: int)
    requires |row| == Width && 0 <= from
    ensures from <= Width ==> from <= z <= Width
    ensures from > Width ==> z == from
    ensures z < Width ==> row[z] == White
    ensures forall k :: from <= k < z && k < Width ==> row[k] != White
    decreases Width - from
  {
    if from >= Width then from
    else if row[from] == White then from
    else FirstBright(row, from + 1)
  }

  /** The lines one row reports: left and right columns, and whether a
      right line was found (`flag_right`). */
  datatype RowLines = RowLines(left: int, right: int, paired: bool)

  /** One row, where `slot` is the value the right-line slot held before
      the row was scanned. A row without a bright pixel reports (0, 599).
      Otherwise the left line is the first bright pixel z and the right
      line the first bright pixel past z+100; without one the slot keeps
      599 written while skipping dark pixels, or its previous value when
      z is 0 and no dark pixel was skipped. */
  function ScanLine(row: seq<int>, slot: int): (s: RowLines)
    requires |row| == Width
    ensures 0 <= s.left < Width
    ensures s.paired ==> s.left + MinLaneWidth < s.right < Width
    ensures !s.paired && s.left > 0 ==> s.right == Width - 1
  {
    var z := FirstBright(row, 0);
    if z == Width then RowLines(0, Width - 1, false)
    else
      var j := FirstBright(row, z + MinLaneWidth + 1);
      if j < Width then RowLines(z, j, true)
      else if z == 0 then RowLines(0, slot, false)
      else RowLines(z, Width - 1, false)
  }

  /** The initial right-line slots: 0 for the first row, -1 for the others. */
  function InitialSlot(t: int): int
  {
    if t == 0 then 0 else -1
  }

  /** The lines of band row t (image row 370 - t) as scanned. */
  function Raw(img: seq<seq<int>>, t: int): RowLines
    requires Shaped(img) && 0 <= t < BandRows
  {
    ScanLine(img[TopRow - t], InitialSlot(t))
  }

  /** Midpoint of a row once the next row has been scanned: when the next
      row has no right line and its left line lies further left, the row's
      lines are rewritten as (599 - right, left) before averaging. */
  function RowMid(upper: RowLines, lower: RowLines): (m: real)
    ensures !(!lower.paired && upper.left > lower.left) ==>
              m == (upper.left + upper.right) as real / 2.0
    ensures !lower.paired && upper.left > lower.left ==>
              m == (Width - 1 - upper.right + upper.left) as real / 2.0
  {
    if !lower.paired && upper.left - lower.left > 0 then
      (Width - 1 - upper.right + upper.left) as real / 2.0
    else
      (upper.left + upper.right) as real / 2.0
  }

  /** The lines of the whole band, top row first. */
  function BandLines(img: seq<seq<int>>): (lines: seq<RowLines>)
    requires Shaped(img)
    ensures |lines| == BandRows
    ensures forall k :: 0 <= k < BandRows ==> lines[k] == Raw(img, k)
  {
    seq(BandRows, k requires 0 <= k < BandRows => Raw(img, k))
  }

  /** Sum of the midpoints of rows 0 .. t-2 of a band, each fixed by the
      row after it. */
  function SumMids(lines: seq<RowLines>, t: int): real
    requires 0 <= t <= |lines|
  {
    if t <= 1 then 0.0 else SumMids(lines, t - 1) + RowMid(lines[t - 2], lines[t - 1])
  }

  /** `mid_sum` after scanning band rows 0 .. t-1. */
  function MidSum(img: seq<seq<int>>, t: int): real
    requires Shaped(img) && 0 <= t <= BandRows
  {
    SumMids(BandLines(img), t)
  }

  /** `mid_final`: 99 midpoints divided by 100. */
  function MidFinal(img: seq<seq<int>>): real
    requires Shaped(img)
  {
    MidSum(img, BandRows) / BandRows as real
  }

  /** `error_angle`: the PD output limited to [-45, 25]. */
  function ErrorAngle(error: real, lastError: real): (a: real)
    ensures AngleOutMin <= a <= AngleOutMax
    ensures AngleOutMin <= Kp * error + Kd * (error - lastError) <= AngleOutMax ==>
              a == Kp * error + Kd * (error - lastError)
  {
    ClampReal(Kp * error + Kd * (error - lastError), AngleOutMin, AngleOutMax)
  }

  /** `angle = 85 - error_angle`. */
  function ServoAngle(midFinal: real, lastError: real): (angle: real)
    ensures 60.0 <= angle <= 130.0
  {
    ServoCentre - ErrorAngle(midFinal - CentreColumn, lastError)
  }

  /** The script's globals `last_error` and `error`, and the servo trace. */
  class LaneLoop {
    var lastError: real
    var error: real
    var servoWrites: seq<real>

    constructor ()
      ensures lastError == 0.0 && error == 0.0 && servoWrites == []
    {
      lastError, error := 0.0, 0.0;
      servoWrites := [];
    }

    /** One iteration of `main` on an edge image: scan the band, steer,
      remember the error, write the servo. */
    method Iterate(img: seq<seq<int>>) returns (angle: real)
      requires Shaped(img)
      modifies this
      ensures angle == ServoAngle(MidFinal(img), old(lastError))
      ensures 60.0 <= angle <= 130.0
      ensures error == MidFinal(img) - CentreColumn && lastError == error
      ensures servoWrites == old(servoWrites) + [PulseWidth(angle)]
    {
      var midFinal := ScanBand(img);
      error := midFinal - CentreColumn;
      var errorAngle := Kp * error + Kd * (error - lastError);
      if errorAngle > AngleOutMax {
        errorAngle := AngleOutMax;
      }
      if errorAngle < AngleOutMin {
        errorAngle := AngleOutMin;
      }
      angle := ServoCentre - errorAngle;
      lastError := error;
      SetDuo(angle);
    }

    /** `set_duo`: clamp to [0, 180] and write the pulse width. */
    method SetDuo(angle: real)
      modifies this
      ensures servoWrites == old(servoWrites) + [PulseWidth(angle)]
      ensures lastError == old(lastError) && error == old(error)
    {
      var a := if angle > 180.0 then 180.0 else angle;
      a := if a < 0.0 then 0.0 else a;
      var pulsewidth := 500.0 + (a / 180.0) * 2000.0;
      servoWrites := servoWrites + [pulsewidth];
    }
  }

  /** The band scan of `main`: the `left`/`right` lists, the row loop and
      the running `mid_sum`. */
  method ScanBand(img: seq<seq<int>>) returns (midFinal: real)
    requires Shaped(img)
    ensures midFinal == MidFinal(img)
  {
    var left := seq(BandRows, k => -1);
    var right := seq(BandRows, k => -1);
    left := left[0 := 0];
    right := right[0 := 0];
    var midSum := 0.0;
    var t := 0;
    var i := TopRow;
    while i > TopRow - BandRows
      invariant 0 <= t <= BandRows && i == TopRow - t
      invariant |left| == BandRows && |right| == BandRows
      invariant forall k :: t <= k < BandRows ==> right[k] == InitialSlot(k)
      invariant t > 0 ==> RowLines(left[t - 1], right[t - 1], Raw(img, t - 1).paired) == Raw(img, t - 1)
      invariant midSum == MidSum(img, t)
      decreases i
    {
      left, right, midSum := BandRow(img, t, left, right, midSum);
      t := t + 1;
      i := i - 1;
    }
    midFinal := midSum / BandRows as real;
  }

  /** One pass of the row loop: scan band row t into slot t, rewrite slot
      t-1 when the new row calls for it, and add the midpoint of row t-1. */
  method BandRow(img: seq<seq<int>>, t: int, left: seq<int>, right: seq<int>, midSum: real)
    returns (left': seq<int>, right': seq<int>, midSum': real)
    requires Shaped(img) && 0 <= t < BandRows
    requires |left| == BandRows && |right| == BandRows
    requires forall k :: t <= k < BandRows ==> right[k] == InitialSlot(k)
    requires t > 0 ==> RowLines(left[t - 1], right[t - 1], Raw(img, t - 1).paired) == Raw(img, t - 1)
    requires midSum == MidSum(img, t)
    ensures |left'| == BandRows && |right'| == BandRows
    ensures forall k :: t + 1 <= k < BandRows ==> right'[k] == InitialSlot(k)
    ensures RowLines(left'[t], right'[t], Raw(img, t).paired) == Raw(img, t)
    ensures midSum' == MidSum(img, t + 1)
  {
    var l, r, flagRight := ScanRow(img[TopRow - t], left[t], right[t]);
    assert RowLines(l, r, flagRight) == Raw(img, t);
    left', right' := left[t := l], right[t := r];
    midSum' := midSum;
    ghost var lines := BandLines(img);
    if t > 0 {
      if !flagRight {
        if left'[t - 1] - left'[t] > 0 {
          var n := left'[t - 1];
          left' := left'[t - 1 := Width - 1 - right'[t - 1]];
          right' := right'[t - 1 := n];
        }
      }
      var mid := (left'[t - 1] + right'[t - 1]) as real / 2.0;
      assert lines[t - 1] == Raw(img, t - 1) && lines[t] == Raw(img, t);
      assert mid == RowMid(lines[t - 1], lines[t]);
      midSum' := mid + midSum;
    }
  }


  /** The scan of one row, writing the row's list slots as the script
      does: both are reset on every dark pixel skipped, and the search
      stops at the first bright pixel. */
  method ScanRow(row: seq<int>, left0: int, right0: int) returns (l: int, r: int, flagRight: bool)
    requires |row| == Width
    ensures RowLines(l, r, flagRight) == ScanLine(row, right0)
  {
    l, r := left0, right0;
    var flagLeft := false;
    flagRight := false;
    var z := 0;
    while z < Width
      invariant 0 <= z <= Width && !flagLeft && !flagRight
      invariant forall k :: 0 <= k < z ==> row[k] != White
      invariant z > 0 ==> l == 0 && r == Width - 1
      invariant z == 0 ==> r == right0
      decreases Width - z
    {
      if row[z] == White {
        flagLeft := true;
        l := z;
        r, flagRight := FindRight(row, z, r);
        break;
      }
      if !flagLeft {
        l, r := 0, Width - 1;
      }
      z := z + 1;
    }
  }

  /** The inner search: the first bright column j with j - z > 100; the
      slot keeps `slot` when there is none. */
  method FindRight(row: seq<int>, z: int, slot: int) returns (r: int, flagRight: bool)
    requires |row| == Width && 0 <= z < Width
    ensures var j := FirstBright(row, z + MinLaneWidth + 1);
            (flagRight <==> j < Width) && r == (if j < Width then j else slot)
  {
    r, flagRight := slot, false;
    var j := z;
    while j < Width
      invariant z <= j <= Width && r == slot && !flagRight
      invariant FirstBright(row, z + MinLaneWidth + 1) == FirstBright(row, MaxInt(j, z + MinLaneWidth + 1))
      decreases Width - j
    {
      if row[j] == White && j - z > MinLaneWidth {
        flagRight := true;
        r := j;
        return;
      }
      j := j + 1;
    }
  }

  /** A band in which every row reads as the same lines p has every
      midpoint equal to RowMid(p, p); the running sum after t rows holds
      t-1 of them. */
  lemma {:induction false} ConstantLane(lines: seq<RowLines>, p: RowLines, t: int)
    requires 1 <= t <= |lines|
    requires forall k :: 0 <= k < |lines| ==> lines[k] == p
    ensures SumMids(lines, t) == (t - 1) as real * RowMid(p, p)
  {
    var c := RowMid(p, p);
    if t > 1 {
      ConstantLane(lines, p, t - 1);
      AddOneMore(SumMids(lines, t - 1), (t - 1) as real, c);
    }
  }

  lemma AddOneMore(prev: real, n: real, c: real)
    requires prev == (n - 1.0) * c
    ensures prev + c == n * c
  {
  }

  /** A row whose only bright pixels left of b are at a, and which is
      bright at b. */
  predicate LanePair(row: seq<int>, a: int, b: int)
    requires |row| == Width && 0 <= a < b < Width
  {
    row[a] == White && row[b] == White &&
    (forall k :: 0 <= k < b && k != a ==> row[k] != White)
  }

  /** Such a row reads as the pair (a, b), whatever its slot held. */
  lemma LanePairScan(row: seq<int>, a: int, b: int, slot: int)
    requires |row| == Width && 0 <= a && a + MinLaneWidth < b < Width
    requires LanePair(row, a, b)
    ensures ScanLine(row, slot) == RowLines(a, b, true)
  {
    assert FirstBright(row, 0) == a;
    assert FirstBright(row, a + MinLaneWidth + 1) == b;
  }

  /** With every scanned row showing the lane lines at columns a and b,
      the reading is 99/100 of the lane centre (a+b)/2, since 99 midpoints
      are divided by 100: a lane centred on column 300 reads 297, and with
      the previous error equal to this reading's the car steers to 85.75
      degrees instead of straight ahead (85). */
  lemma StraightLane(img: seq<seq<int>>, a: int, b: int)
    requires Shaped(img) && 0 <= a && a + MinLaneWidth < b < Width
    requires forall r :: TopRow - BandRows < r <= TopRow ==> LanePair(img[r], a, b)
    ensures MidFinal(img) == 0.99 * (a + b) as real / 2.0
    ensures a + b == 600 ==> MidFinal(img) == 297.0 && ServoAngle(MidFinal(img), -3.0) == 85.75
  {
    forall k | 0 <= k < BandRows
      ensures Raw(img, k) == RowLines(a, b, true)
    {
      LanePairScan(img[TopRow - k], a, b, InitialSlot(k));
    }
    ConstantLane(BandLines(img), RowLines(a, b, true), BandRows);
  }
}
