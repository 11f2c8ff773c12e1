/** `LineTracker.tracking` and `LineTracker.calculate_steering` of
    5g-car-python/src/test_stream.py: a pixel scanner over the dilated edge
    image that walks outward from a running seed column to the nearest pair
    of bright pixels on each side, row by row from the bottom to the middle
    of the image, and averages the midpoints of the rows nearest the middle
    of that band. Drawing, printing and saving the annotated frame are not
    modelled. */
module LaneScan {
  import opened Common
  import opened MidWindow

  const CenterX := 160
  const BoundaryLeft := 1
  const BoundaryRight := 318
  /** Bright pixel value of the binary image. */
  const White := 255

  /** Every row is wide enough for the right search, which reads up to
      column 318 (the camera delivers 320 columns). */
  predicate WideEnough(img: seq<seq<int>>)
  {
    forall r :: 0 <= r < |img| ==> |img[r]| > BoundaryRight
  }

  /** Left line at c: pixels c and c+1 both bright (c+1 inside the row). */
  predicate LeftPair(row: seq<int>, c: int)
    requires 0 <= c < |row|
  {
    row[c] == White && c + 1 < |row| && row[c + 1] == White
  }

  /** Right line at c: pixels c-1 and c both bright (c-1 inside the row). */
  predicate RightPair(row: seq<int>, c: int)
    requires 0 <= c < |row|
  {
    row[c] == White && c - 1 >= 0 && row[c - 1] == White
  }

  /** Where the left cursor stops when it starts at c: the largest column
      in [1, c] holding a left pair, or 0 when there is none (c itself when
      c < 1, where the search does not start). */
  function LeftCursor(row: seq<int>, c: int): (r: int)
    requires c < |row|
    ensures r <= c
    ensures c < BoundaryLeft ==> r == c
    ensures c >= BoundaryLeft ==> 0 <= r
    ensures r >= BoundaryLeft ==> LeftPair(row, r)
    ensures c >= BoundaryLeft && r < BoundaryLeft ==> r == 0
    ensures forall k :: MaxInt(r + 1, BoundaryLeft) <= k <= c ==> !LeftPair(row, k)
    decreases c
  {
    if c < BoundaryLeft then c
    else if LeftPair(row, c) then c
    else LeftCursor(row, c - 1)
  }

  /** Where the right cursor stops when it starts at c >= 0: the smallest
      column in [c, 318] holding a right pair, or 319 when there is none. */
  function RightCursor(row: seq<int>, c: int): (r: int)
    requires 0 <= c && |row| > BoundaryRight
    ensures c <= r
    ensures c <= BoundaryRight + 1 ==> r <= BoundaryRight + 1
    ensures c > BoundaryRight ==> r == c
    ensures r <= BoundaryRight ==> RightPair(row, r)
    ensures forall k :: c <= k < r && k <= BoundaryRight ==> !RightPair(row, k)
    decreases BoundaryRight + 1 - c
  {
    if c > BoundaryRight then c
    else if RightPair(row, c) then c
    else RightCursor(row, c + 1)
  }

  /** Outcome of scanning one row from seed `begin`. */
  datatype RowScan = RowScan(mid: int, keep: bool, next: int)

  /** One row: the reported lines (boundaries when not found), their floor
      midpoint, whether it is kept (dropped only when the lines were found
      exactly at columns 1 and 318), and the next seed from the raw
      cursors. */
  function ScanRow(row: seq<int>, begin: int): (s: RowScan)
    requires 0 <= begin <= BoundaryRight && |row| > BoundaryRight
    ensures BoundaryLeft <= s.mid <= BoundaryRight
    ensures 0 <= s.next <= BoundaryRight
  {
    var tl := LeftCursor(row, begin);
    var tr := RightCursor(row, begin);
    var left := if tl >= BoundaryLeft then tl else BoundaryLeft;
    var right := if tr <= BoundaryRight then tr else BoundaryRight;
    RowScan((left + right) / 2, !(tl == BoundaryLeft && tr == BoundaryRight), (tl + tr) / 2)
  }

  /** Midpoints kept while scanning rows i, i-1, ..., lo from seed `begin`. */
  function Mids(img: seq<seq<int>>, i: int, lo: int, begin: int): (m: seq<int>)
    requires WideEnough(img) && 0 <= lo && lo - 1 <= i < |img|
    requires 0 <= begin <= BoundaryRight
    ensures |m| <= i - lo + 1
    decreases i - lo + 1
  {
    if i < lo then []
    else
      var s := ScanRow(img[i], begin);
      (if s.keep then [s.mid] else []) + Mids(img, i - 1, lo, s.next)
  }

  /** Every kept midpoint lies between the two boundary columns. */
  lemma {:induction false} MidsBounds(img: seq<seq<int>>, i: int, lo: int, begin: int)
    requires WideEnough(img) && 0 <= lo && lo - 1 <= i < |img|
    requires 0 <= begin <= BoundaryRight
    ensures forall k :: 0 <= k < |Mids(img, i, lo, begin)| ==>
              BoundaryLeft <= Mids(img, i, lo, begin)[k] <= BoundaryRight
    decreases i - lo + 1
  {
    if i >= lo {
      var s := ScanRow(img[i], begin);
      MidsBounds(img, i - 1, lo, s.next);
    }
  }

  /** The midpoints of the whole scan: rows rows-1 down to rows//2, seed 160. */
  function AllMids(img: seq<seq<int>>): seq<int>
    requires WideEnough(img)
  {
    Mids(img, |img| - 1, |img| / 2, CenterX)
  }

  /** The tracker's answer: 160 without midpoints, else the floor mean of
      the window. */
  function TrackResult(img: seq<seq<int>>): int
    requires WideEnough(img)
  {
    var m := AllMids(img);
    if m == [] then CenterX else Sum(Window(m)) / |Window(m)|
  }

  /** `tracking`. */
  method Tracking(img: seq<seq<int>>) returns (midFinal: int)
    requires WideEnough(img)
    ensures midFinal == TrackResult(img)
  {
    var mid := ScanRows(img);
    if mid == [] {
      return CenterX;
    }
    midFinal := WindowFloorMean(mid);
  }

  /** The row loop of `tracking`: rows rows-1 down to rows//2 from seed 160. */
  method ScanRows(img: seq<seq<int>>) returns (mid: seq<int>)
    requires WideEnough(img)
    ensures mid == AllMids(img)
  {
    var rows := |img|;
    var lo := rows / 2;
    mid := [];
    var begin := CenterX;
    var i := rows - 1;
    ghost var all := AllMids(img);
    while i >= lo
      invariant lo - 1 <= i <= rows - 1
      invariant 0 <= begin <= BoundaryRight
      invariant mid + Mids(img, i, lo, begin) == all
      decreases i
    {
      mid, begin := ScanStep(img, i, lo, begin, mid);
      i := i - 1;
    }
    assert Mids(img, i, lo, begin) == [];
  }

  /** One pass of the row loop: row i's midpoint joins the list and the
      rows still to scan start from the new seed, so the list collected so
      far followed by the midpoints still to come is unchanged. */
  method ScanStep(img: seq<seq<int>>, i: int, lo: int, begin: int, mid: seq<int>)
    returns (mid': seq<int>, begin': int)
    requires WideEnough(img) && 0 <= lo <= i < |img|
    requires 0 <= begin <= BoundaryRight
    ensures 0 <= begin' <= BoundaryRight
    ensures mid' + Mids(img, i - 1, lo, begin') == mid + Mids(img, i, lo, begin)
  {
    ghost var s := ScanRow(img[i], begin);
    ghost var x := if s.keep then [s.mid] else [];
    MidsStep(img, i, lo, begin);
    mid', begin' := TrackRow(img[i], begin, mid);
    AppendAssoc(mid, x, Mids(img, i - 1, lo, begin'));
  }

  /** Scanning row i contributes its kept midpoint ahead of the rows above. */
  lemma MidsStep(img: seq<seq<int>>, i: int, lo: int, begin: int)
    requires WideEnough(img) && 0 <= lo <= i < |img|
    requires 0 <= begin <= BoundaryRight
    ensures var s := ScanRow(img[i], begin);
            Mids(img, i, lo, begin) == (if s.keep then [s.mid] else []) + Mids(img, i - 1, lo, s.next)
  {
  }

  lemma AppendAssoc(a: seq<int>, b: seq<int>, c: seq<int>)
    ensures (a + b) + c == a + (b + c)
  {
  }

  /** The body of the row loop: both searches, the midpoint appended and
      popped again when the lines sit exactly at columns 1 and 318, and the
      next seed. */
  method TrackRow(row: seq<int>, begin: int, mid: seq<int>) returns (mid': seq<int>, next: int)
    requires 0 <= begin <= BoundaryRight < |row|
    ensures var s := ScanRow(row, begin);
            mid' == mid + (if s.keep then [s.mid] else []) && next == s.next
  {
    var toLeft, findL := SearchLeft(row, begin);
    var toRight, findR := SearchRight(row, begin);
    var midx1 := if findL then toLeft else BoundaryLeft;
    var midx2 := if findR then toRight else BoundaryRight;
    ghost var s := ScanRow(row, begin);
    assert s == RowScan((midx1 + midx2) / 2, !(toLeft == BoundaryLeft && toRight == BoundaryRight),
                        (toLeft + toRight) / 2);
    mid' := mid + [(midx1 + midx2) / 2];
    next := (toLeft + toRight) / 2;
    if toLeft == BoundaryLeft && toRight == BoundaryRight {
      if mid' != [] {
        mid' := mid'[..|mid'| - 1];
        assert mid' == mid;
      }
    }
  }

  /** The left search of one row: step left from `begin` while column 1
      has not been passed and no left pair is found. */
  method SearchLeft(row: seq<int>, begin: int) returns (toLeft: int, findL: bool)
    requires 0 <= begin < |row|
    ensures toLeft == LeftCursor(row, begin)
    ensures findL <==> toLeft >= BoundaryLeft
  {
    findL := false;
    toLeft := begin;
    while toLeft >= BoundaryLeft
      invariant 0 <= toLeft <= begin && !findL
      invariant LeftCursor(row, toLeft) == LeftCursor(row, begin)
      decreases toLeft
    {
      if row[toLeft] == White && (toLeft + 1 < |row| && row[toLeft + 1] == White) {
        findL := true;
        break;
      }
      toLeft := toLeft - 1;
    }
  }

  /** The right search of one row: step right from `begin` while column
      318 has not been passed and no right pair is found. */
  method SearchRight(row: seq<int>, begin: int) returns (toRight: int, findR: bool)
    requires 0 <= begin <= BoundaryRight < |row|
    ensures toRight == RightCursor(row, begin)
    ensures findR <==> toRight <= BoundaryRight
  {
    findR := false;
    toRight := begin;
    while toRight <= BoundaryRight
      invariant begin <= toRight <= BoundaryRight + 1 && !findR
      invariant RightCursor(row, toRight) == RightCursor(row, begin)
      decreases BoundaryRight + 1 - toRight
    {
      if row[toRight] == White && (toRight - 1 >= 0 && row[toRight - 1] == White) {
        findR := true;
        break;
      }
      toRight := toRight + 1;
    }
  }

  /** The sampling loop: add up mid[half .. min(half + 5, n)) and floor-
      divide by the number of samples. */
  method WindowFloorMean(mid: seq<int>) returns (r: int)
    requires mid != []
    ensures r == Sum(Window(mid)) / |Window(mid)|
  {
    var sizeMid := |mid|;
    var half := sizeMid / 2;
    var sampleSize := MinInt(half + SampleOffset, sizeMid);
    var total := 0;
    for j := half to sampleSize
      invariant total == Sum(mid[half..j])
    {
      WindowSumStep(mid, j);
      total := total + mid[j];
    }
    assert mid[half..sampleSize] == Window(mid);
    r := total / (sampleSize - half);
  }

  /** The result is 160 without midpoints and otherwise lies between the
      smallest and largest midpoint of the window; every midpoint, and so
      the result, lies in [1, 318]. */
  lemma TrackResultBounds(img: seq<seq<int>>, lo: int, hi: int)
    requires WideEnough(img)
    requires forall k :: 0 <= k < |Window(AllMids(img))| ==> lo <= Window(AllMids(img))[k] <= hi
    ensures AllMids(img) == [] ==> TrackResult(img) == CenterX
    ensures AllMids(img) != [] ==> lo <= TrackResult(img) <= hi
    ensures BoundaryLeft <= TrackResult(img) <= BoundaryRight
  {
    var m := AllMids(img);
    if m != [] {
      var w := Window(m);
      SumBounds(w, lo, hi);
      DivBounds(Sum(w), |w|, lo, hi);
      MidsBounds(img, |img| - 1, |img| / 2, CenterX);
      WindowMeanBounds(m, BoundaryLeft, BoundaryRight);
    }
  }

  predicate Dark(row: seq<int>)
  {
    forall c :: 0 <= c < |row| ==> row[c] != White
  }

  /** In a row with no bright pixel both searches run to the end: the left
      cursor stops at 0, the right one at 319. */
  lemma DarkRowCursors(row: seq<int>, c: int)
    requires Dark(row) && |row| > BoundaryRight && 0 <= c <= BoundaryRight
    ensures LeftCursor(row, c) == 0 && RightCursor(row, c) == BoundaryRight + 1
  {
  }

  /** A row without foreground is not dropped: it yields midpoint 159, and
      the next seed is 159 too. */
  lemma DarkRowScan(row: seq<int>, begin: int)
    requires Dark(row) && |row| > BoundaryRight && 0 <= begin <= BoundaryRight
    ensures ScanRow(row, begin) == RowScan(159, true, 159)
  {
    DarkRowCursors(row, begin);
  }

  /** Over dark rows every scanned row contributes midpoint 159. */
  lemma {:induction false} DarkMids(img: seq<seq<int>>, i: int, lo: int, begin: int)
    requires WideEnough(img) && 0 <= lo && lo - 1 <= i < |img|
    requires 0 <= begin <= BoundaryRight
    requires forall r :: 0 <= r < |img| ==> Dark(img[r])
    ensures |Mids(img, i, lo, begin)| == i - lo + 1
    ensures forall k :: 0 <= k < |Mids(img, i, lo, begin)| ==> Mids(img, i, lo, begin)[k] == 159
    decreases i - lo + 1
  {
    if i >= lo {
      DarkRowScan(img[i], begin);
      MidsStep(img, i, lo, begin);
      DarkMids(img, i - 1, lo, 159);
      assert Mids(img, i, lo, begin) == [159] + Mids(img, i - 1, lo, 159);
    }
  }

  /** An image without foreground gives 159, not the centre 160, as soon as
      it has a row; only the empty image gives 160. */
  lemma DarkImage(img: seq<seq<int>>)
    requires WideEnough(img)
    requires forall r :: 0 <= r < |img| ==> Dark(img[r])
    ensures |img| >= 1 ==> TrackResult(img) == 159
    ensures |img| == 0 ==> TrackResult(img) == CenterX
  {
    DarkMids(img, |img| - 1, |img| / 2, CenterX);
    if |img| >= 1 {
      WindowMeanConstant(AllMids(img), 159);
    }
  }

  /** `calculate_steering`: straight at the centre, otherwise
      trunc((160 - mid) * 0.1875) clipped to [-30, 30]. */
  function Steering(midFinal: int): (a: int)
    ensures -30 <= a <= 30
    ensures midFinal == CenterX ==> a == 0
  {
    if midFinal == CenterX then 0
    else ClampInt(Trunc((CenterX - midFinal) as real * 0.1875), -30, 30)
  }

  /** The steering has the sign of 160 - mid, is zero exactly when the
      offset is below 6 pixels, equals 3/16 of the offset truncated toward
      zero inside the clip range, and saturates at +-30 from an offset of
      160 pixels. */
  lemma SteeringFacts(midFinal: int)
    ensures var e := CenterX - midFinal;
            (e > 0 ==> Steering(midFinal) >= 0) &&
            (e < 0 ==> Steering(midFinal) <= 0) &&
            (Steering(midFinal) == 0 <==> -6 < e < 6) &&
            (e >= 160 ==> Steering(midFinal) == 30) &&
            (e <= -160 ==> Steering(midFinal) == -30) &&
            (-160 < e < 160 ==> Steering(midFinal) == Trunc(e as real * 0.1875))
  {
    var e := CenterX - midFinal;
    var t := Trunc(e as real * 0.1875);
    if e >= 6 {
      assert e as real * 0.1875 >= 1.125;
    } else if e <= -6 {
      assert e as real * 0.1875 <= -1.125;
    }
    if -160 < e < 160 {
      assert -30.0 < e as real * 0.1875 < 30.0;
    }
  }

  /** Steering never increases as the line moves right. */
  lemma SteeringMonotone(m1: int, m2: int)
    requires m1 <= m2
    ensures Steering(m2) <= Steering(m1)
  {
    var e1, e2 := (CenterX - m1) as real * 0.1875, (CenterX - m2) as real * 0.1875;
    assert e2 <= e1;
    SteeringFacts(m1);
    SteeringFacts(m2);
  }
}
