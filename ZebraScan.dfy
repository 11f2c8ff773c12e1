/** Zebra-crossing detection of 5g-car-python/src/test_stream.py: the mask
    scan of `LineTracker.detect_zebra_in_roi` and the frame-level streak kept
    by `LineTracker.tracking_thread`. The input of the scan is the white mask
    after dilation and erosion (the colour conversion and morphology are not
    modelled). */
module ZebraScan {
  import opened Common

  /** `BANMA_WIDTH`, the exclusive upper run width, `BANMA_NUMS`,
      `BANMA_FLAG_THRESHOLD` and `BANMA_CONSECUTIVE_FRAMES`. */
  const MinStripe := 6
  const MaxStripe := 40
  const StripesPerRow := 3
  const RowsNeeded := 3
  const FramesNeeded := 3
  /** Columns skipped at each side of the scanned rows. */
  const Margin := 10
  /** Only every fifth frame is examined. */
  const SampleEvery := 5
  const White := 255

  /** Number of consecutive white pixels from column j, stopping at `end`. */
  function WhiteRun(row: seq<int>, j: int, end: int): (w: nat)
    requires 0 <= j && end <= |row|
    ensures j + w <= end || w == 0
    ensures forall k :: j <= k < j + w ==> row[k] == White
    ensures j + w < end ==> row[j + w] != White
    decreases end - j
  {
    if j < end && row[j] == White then 1 + WhiteRun(row, j + 1, end) else 0
  }

  /** Stripes counted by the scan of one row from column j to `end`: a run
      of white counts only when it follows a black pixel, and only when its
      width is in [6, 40). */
  function Stripes(row: seq<int>, j: int, end: int): nat
    requires 0 <= j && end <= |row|
    decreases end - j
  {
    if j >= end then 0
    else if row[j] == 0 then
      var w := WhiteRun(row, j + 1, end);
      (if MinStripe <= w < MaxStripe then 1 else 0) + Stripes(row, j + 1 + w, end)
    else Stripes(row, j + 1, end)
  }

  /** A row holds at least three stripes between columns 10 and cols-11. */
  predicate RowQualifies(row: seq<int>)
  {
    Stripes(row, Margin, if |row| >= Margin then |row| - Margin else 0) >= StripesPerRow
  }

  /** The lower half of the mask. */
  function Roi(mask: seq<seq<int>>): seq<seq<int>>
  {
    mask[|mask| / 2..]
  }

  /** The row loop from ROI row i with `streak` qualifying rows seen just
      before: true as soon as the streak reaches three. */
  function ZebraFrom(roi: seq<seq<int>>, i: nat, streak: nat): bool
    decreases |roi| - i
  {
    if i >= |roi| then false
    else if RowQualifies(roi[i]) then streak + 1 >= RowsNeeded || ZebraFrom(roi, i + 2, streak + 1)
    else ZebraFrom(roi, i + 2, 0)
  }

  /** The scan's answer on a mask. */
  function ZebraInMask(mask: seq<seq<int>>): bool
  {
    ZebraFrom(Roi(mask), |Roi(mask)| / 2, 0)
  }

  /** The mask-scan part of `detect_zebra_in_roi`. */
  method DetectZebra(mask: seq<seq<int>>) returns (found: bool)
    ensures found == ZebraInMask(mask)
  {
    var roi := mask[|mask| / 2..];
    var consecutiveRows := 0;
    var i := |roi| / 2;
    while i < |roi|
      invariant consecutiveRows < RowsNeeded
      invariant ZebraFrom(roi, i, consecutiveRows) == ZebraInMask(mask)
      decreases |roi| - i
    {
      var q := ScanZebraRow(roi[i]);
      if q {
        consecutiveRows := consecutiveRows + 1;
        if consecutiveRows >= RowsNeeded {
          return true;
        }
      } else {
        consecutiveRows := 0;
      }
      i := i + 2;
    }
    return false;
  }

  /** The column loop over one ROI row: counts stripes until the third one
      (where the row loop breaks out) or the end of the scanned columns. */
  method ScanZebraRow(row: seq<int>) returns (qualifies: bool)
    ensures qualifies == RowQualifies(row)
  {
    var end := if |row| >= Margin then |row| - Margin else 0;
    var cout1 := 0;
    var j := Margin;
    while j < |row| - Margin
      invariant Margin <= j && cout1 < StripesPerRow
      invariant j < end ==> cout1 + Stripes(row, j, end) == Stripes(row, Margin, end)
      invariant j >= end ==> cout1 == Stripes(row, Margin, end)
      decreases |row| - j
    {
      var cout2 := 0;
      if row[j] == 0 {
        ghost var j0 := j;
        j := j + 1;
        while j < |row| - Margin && row[j] == White
          invariant j0 + 1 <= j <= end
          invariant cout2 == j - (j0 + 1)
          invariant WhiteRun(row, j0 + 1, end) == cout2 + WhiteRun(row, j, end)
          decreases |row| - j
        {
          j := j + 1;
          cout2 := cout2 + 1;
        }
        if MinStripe <= cout2 < MaxStripe {
          cout1 := cout1 + 1;
        }
      } else {
        j := j + 1;
      }
      if cout1 >= StripesPerRow {
        return true;
      }
    }
    return false;
  }

  /** ROI row k exists and qualifies. */
  predicate Q(roi: seq<seq<int>>, k: nat)
  {
    k < |roi| && RowQualifies(roi[k])
  }

  /** Three sampled rows k, k+2, k+4 in a row qualify. */
  predicate Triple(roi: seq<seq<int>>, k: nat)
  {
    Q(roi, k) && Q(roi, k + 2) && Q(roi, k + 4)
  }

  /** Some sampled row at or after i (same parity) starts a qualifying
      triple. */
  ghost predicate TripleFrom(roi: seq<seq<int>>, i: nat)
  {
    exists k: nat :: i <= k && (k - i) % 2 == 0 && Triple(roi, k)
  }

  lemma TripleFromStep(roi: seq<seq<int>>, i: nat)
    ensures TripleFrom(roi, i) <==> Triple(roi, i) || TripleFrom(roi, i + 2)
  {
    if TripleFrom(roi, i) {
      var k: nat :| i <= k && (k - i) % 2 == 0 && Triple(roi, k);
      if k != i {
        assert i + 2 <= k && (k - (i + 2)) % 2 == 0;
      }
    }
    if TripleFrom(roi, i + 2) {
      var k: nat :| i + 2 <= k && (k - (i + 2)) % 2 == 0 && Triple(roi, k);
      assert i <= k && (k - i) % 2 == 0;
    }
    if Triple(roi, i) {
      assert i <= i && (i - i) % 2 == 0;
    }
  }

  lemma TripleFromPastEnd(roi: seq<seq<int>>, i: nat)
    requires i >= |roi|
    ensures !TripleFrom(roi, i)
  {
  }

  /** The scan from row i with a streak of s (below three) finds a crossing
      exactly when the streak completes on the next rows or some later
      sampled row starts three qualifying sampled rows in a row. */
  lemma {:induction false} ZebraFromMeaning(roi: seq<seq<int>>, i: nat, s: nat)
    requires s < RowsNeeded
    ensures ZebraFrom(roi, i, s) <==>
              (s == 2 && Q(roi, i)) || (s >= 1 && Q(roi, i) && Q(roi, i + 2)) || TripleFrom(roi, i)
    decreases |roi| - i
  {
    TripleFromStep(roi, i);
    if i >= |roi| {
      TripleFromPastEnd(roi, i);
    } else if RowQualifies(roi[i]) {
      if s < 2 {
        ZebraFromMeaning(roi, i + 2, s + 1);
        TripleFromStep(roi, i + 2);
      }
    } else {
      ZebraFromMeaning(roi, i + 2, 0);
    }
  }

  /** The scan reports a crossing exactly when three sampled rows k, k+2,
      k+4 of the lower half of the ROI (k at or after its middle, stepping
      by 2) each contain at least three stripes; an empty mask has none. */
  lemma ZebraInMaskMeaning(mask: seq<seq<int>>)
    ensures ZebraInMask(mask) <==> TripleFrom(Roi(mask), |Roi(mask)| / 2)
    ensures mask == [] ==> !ZebraInMask(mask)
  {
    ZebraFromMeaning(Roi(mask), |Roi(mask)| / 2, 0);
  }

  /** The frame-level streak of `tracking_thread`. `samples` records the
      scan result of every examined frame. */
  class ZebraWatch {
    var frameCount: nat
    var zebraConsecutive: nat
    ghost var samples: seq<bool>

    /** The streak is the number of detections ending the sample history,
      modulo 3 because it restarts after each confirmed crossing. */
    ghost predicate Valid()
      reads this
    {
      zebraConsecutive == Trailing(samples, true) % FramesNeeded &&
      |samples| == frameCount / SampleEvery
    }

    constructor ()
      ensures Valid() && frameCount == 0 && zebraConsecutive == 0 && samples == []
    {
      frameCount, zebraConsecutive := 0, 0;
      samples := [];
    }

    /** One iteration: a failed read is retried without counting; otherwise
      the frame is counted and every fifth one is examined; a detection
      extends the streak and the third in a row reports the crossing (stop
      and announce) and restarts the streak, a miss clears it. */
    static lemma ModThreeStep(t: nat, z: nat)
      requires z == t % FramesNeeded
      ensures (t + 1) % FramesNeeded == if z + 1 >= FramesNeeded then 0 else z + 1
    {
    }

    method OnFrame(readOk: bool, zebra: bool) returns (crossing: bool)
      requires Valid()
      modifies this
      ensures Valid()
      ensures !readOk ==> frameCount == old(frameCount) && samples == old(samples) &&
                          zebraConsecutive == old(zebraConsecutive) && !crossing
      ensures readOk ==> frameCount == old(frameCount) + 1
      ensures readOk && frameCount % SampleEvery != 0 ==>
                samples == old(samples) && zebraConsecutive == old(zebraConsecutive) && !crossing
      ensures readOk && frameCount % SampleEvery == 0 ==>
                samples == old(samples) + [zebra] &&
                (crossing <==> zebra && old(zebraConsecutive) == FramesNeeded - 1) &&
                (crossing ==> zebraConsecutive == 0)
    {
      crossing := false;
      if !readOk {
        return;
      }
      FifthFrameStep(frameCount);
      frameCount := frameCount + 1;
      if frameCount % SampleEvery == 0 {
        TrailingAppend(samples, zebra, true);
        ModThreeStep(Trailing(samples, true), zebraConsecutive);
        samples := samples + [zebra];
        if zebra {
          zebraConsecutive := zebraConsecutive + 1;
          if zebraConsecutive >= FramesNeeded {
            crossing := true;
            zebraConsecutive := 0;
          }
        } else {
          zebraConsecutive := 0;
        }
      }
    }
  }
}
