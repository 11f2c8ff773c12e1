/** `ImageProcessor::trackMidLine` of old/test/all_in_one.cpp: the C++
    ancestor of the pixel lane scanner. Rows rows-1 down to rows/2 are
    searched outward from a running seed column; a row's midpoint is kept
    only when a line was found on both sides, and the answer is the exact
    mean of at most five midpoints starting at the middle of the list.

    The binary image is a continuous single-channel matrix whose rows all
    hold `cols` pixels. The right search reads two columns to the left of
    its cursor, which is column -1 when the seed has reached column 1; on
    a continuous matrix that is the last pixel of the row before. */
module OldTrackMidLine {
  import opened Common
  import opened MidWindow

  const Seed := 160
  const White := 255
  /** Answer when no row produced a midpoint. */
  const NoLine: real := 160.0

  /** Rows of `cols` pixels, wide enough for the seed and its neighbour. */
  predicate Shaped(img: seq<seq<int>>, cols: int)
  {
    cols >= Seed + 2 && forall r :: 0 <= r < |img| ==> |img[r]| == cols
  }

  /** `binary.at<uchar>(i, c)` for c >= -1 (see the module comment). */
  function Px(img: seq<seq<int>>, cols: int, i: int, c: int): int
    requires Shaped(img, cols) && 0 <= i < |img| && -1 <= c < cols
    requires c >= 0 || i >= 1
  {
    if c >= 0 then img[i][c] else img[i - 1][cols - 1]
  }

  /** Left line at c: pixels c and c+1 bright. */
  predicate LeftPair(img: seq<seq<int>>, cols: int, i: int, c: int)
    requires Shaped(img, cols) && 0 <= i < |img| && 0 <= c < cols - 1
  {
    img[i][c] == White && img[i][c + 1] == White
  }

  /** Right line at c: pixels c and c-2 bright. */
  predicate RightPair(img: seq<seq<int>>, cols: int, i: int, c: int)
    requires Shaped(img, cols) && 0 <= i < |img| && 1 <= c < cols
    requires c >= 2 || i >= 1
  {
    img[i][c] == White && Px(img, cols, i, c - 2) == White
  }

  /** Where the left cursor stops from c: the largest column in (1, c]
      holding a left pair, or 1 when there is none. */
  function LeftStop(img: seq<seq<int>>, cols: int, i: int, c: int): (r: int)
    requires Shaped(img, cols) && 0 <= i < |img| && 1 <= c <= cols - 2
    ensures 1 <= r <= c
    ensures r > 1 ==> LeftPair(img, cols, i, r)
    ensures forall k :: r < k <= c ==> !LeftPair(img, cols, i, k)
    decreases c
  {
    if c <= 1 then c
    else if LeftPair(img, cols, i, c) then c
    else LeftStop(img, cols, i, c - 1)
  }

  /** Where the right cursor stops from c: the smallest column in
      [c, cols-1) holding a right pair, or cols-1 when there is none. */
  function RightStop(img: seq<seq<int>>, cols: int, i: int, c: int): (r: int)
    requires Shaped(img, cols) && 0 <= i < |img| && 1 <= c <= cols - 1
    requires c >= 2 || i >= 1
    ensures c <= r <= cols - 1
    ensures r < cols - 1 ==> RightPair(img, cols, i, r)
    ensures forall k :: c <= k < r ==> !RightPair(img, cols, i, k)
    decreases cols - c
  {
    if c >= cols - 1 then c
    else if RightPair(img, cols, i, c) then c
    else RightStop(img, cols, i, c + 1)
  }

  /** Outcome of one row from seed `begin`: the next seed, the middle of
      the two cursors, and whether it is recorded as a midpoint (both lines
      found). */
  datatype RowScan = RowScan(keep: bool, next: int)

  function ScanRow(img: seq<seq<int>>, cols: int, i: int, begin: int): (s: RowScan)
    requires Shaped(img, cols) && 0 <= i < |img|
    requires 1 <= begin <= cols - 2 && (begin >= 2 || i >= 1)
    ensures 1 <= s.next <= cols - 2
    ensures s.keep ==> 2 <= s.next
  {
    var tl := LeftStop(img, cols, i, begin);
    var tr := RightStop(img, cols, i, begin);
    RowScan(tl > 1 && tr < cols - 1, (tl + tr) / 2)
  }

  /** Midpoints kept while scanning rows i, i-1, ..., lo from seed `begin`.
      Every row moves the seed to the middle of its two cursors, whether or
      not its midpoint is kept. */
  function Mids(img: seq<seq<int>>, cols: int, i: int, lo: int, begin: int): (m: seq<int>)
    requires Shaped(img, cols) && 0 <= lo && lo - 1 <= i < |img|
    requires 1 <= begin <= cols - 2
    requires i >= lo ==> begin >= 2 || i >= 1
    requires lo >= 1 || |img| <= 1
    ensures |m| <= i - lo + 1
    ensures forall k :: 0 <= k < |m| ==> 2 <= m[k] <= cols - 2
    decreases i - lo + 1
  {
    if i < lo then []
    else
      var s := ScanRow(img, cols, i, begin);
      (if s.keep then [s.next] else []) + Mids(img, cols, i - 1, lo, s.next)
  }

  /** The midpoints of the whole scan: rows rows-1 down to rows/2, seed 160. */
  function AllMids(img: seq<seq<int>>, cols: int): seq<int>
    requires Shaped(img, cols)
  {
    Mids(img, cols, |img| - 1, |img| / 2, Seed)
  }

  /** The answer: 160.0 without midpoints, else the exact window mean. */
  function TrackResult(img: seq<seq<int>>, cols: int): real
    requires Shaped(img, cols)
  {
    var m := AllMids(img, cols);
    if m == [] then NoLine else Sum(Window(m)) as real / |Window(m)| as real
  }

  /** `trackMidLine`. */
  method TrackMidLine(img: seq<seq<int>>, cols: int) returns (r: real)
    requires Shaped(img, cols)
    ensures r == TrackResult(img, cols)
  {
    var mid := ScanRows(img, cols);
    if mid == [] {
      return NoLine;
    }
    r := WindowMean(mid);
  }

  /** The row loop of `trackMidLine`. */
  method ScanRows(img: seq<seq<int>>, cols: int) returns (mid: seq<int>)
    requires Shaped(img, cols)
    ensures mid == AllMids(img, cols)
  {
    var rows := |img|;
    var lo := rows / 2;
    mid := [];
    var begin := Seed;
    var i := rows - 1;
    while i >= lo
      invariant lo - 1 <= i <= rows - 1
      invariant 1 <= begin <= cols - 2
      invariant i >= lo ==> begin >= 2 || i >= 1
      invariant mid + Mids(img, cols, i, lo, begin) == AllMids(img, cols)
      decreases i
    {
      ghost var before := mid;
      ghost var s := ScanRow(img, cols, i, begin);
      ghost var x := if s.keep then [s.next] else [];
      MidsStep(img, cols, i, lo, begin);
      mid, begin := TrackRow(img, cols, i, begin, mid);
      AppendAssoc(before, x, Mids(img, cols, i - 1, lo, begin));
      i := i - 1;
    }
    assert Mids(img, cols, i, lo, begin) == [];
  }

  /** Scanning row i contributes its kept midpoint ahead of the rows above. */
  lemma MidsStep(img: seq<seq<int>>, cols: int, i: int, lo: int, begin: int)
    requires Shaped(img, cols) && 0 <= lo <= i < |img|
    requires 1 <= begin <= cols - 2 && (begin >= 2 || i >= 1)
    requires lo >= 1 || |img| <= 1
    ensures var s := ScanRow(img, cols, i, begin);
            Mids(img, cols, i, lo, begin) ==
              (if s.keep then [s.next] else []) + Mids(img, cols, i - 1, lo, s.next)
  {
  }

  lemma AppendAssoc(a: seq<int>, b: seq<int>, c: seq<int>)
    ensures (a + b) + c == a + (b + c)
  {
  }

  /** The body of the row loop: both searches, the midpoint recorded when
      both lines were found, and the next seed from the raw cursors. */
  method TrackRow(img: seq<seq<int>>, cols: int, i: int, begin: int, mid: seq<int>)
    returns (mid': seq<int>, next: int)
    requires Shaped(img, cols) && 0 <= i < |img|
    requires 1 <= begin <= cols - 2 && (begin >= 2 || i >= 1)
    ensures var s := ScanRow(img, cols, i, begin);
            next == s.next && mid' == mid + (if s.keep then [next] else [])
  {
    var toLeft := SearchLeft(img, cols, i, begin);
    var leftX := if toLeft > 1 then toLeft else 1;
    var toRight := SearchRight(img, cols, i, begin);
    var rightX := if toRight < cols - 1 then toRight else cols - 1;
    mid' := mid;
    if leftX > 1 && rightX < cols - 1 {
      mid' := mid' + [(leftX + rightX) / 2];
    }
    next := (toLeft + toRight) / 2;
  }

  /** `while (to_left > 1 && !pair) --to_left`. */
  method SearchLeft(img: seq<seq<int>>, cols: int, i: int, begin: int) returns (toLeft: int)
    requires Shaped(img, cols) && 0 <= i < |img| && 1 <= begin <= cols - 2
    ensures toLeft == LeftStop(img, cols, i, begin)
  {
    toLeft := begin;
    while toLeft > 1 && !(img[i][toLeft] == White && img[i][toLeft + 1] == White)
      invariant 1 <= toLeft <= begin
      invariant LeftStop(img, cols, i, toLeft) == LeftStop(img, cols, i, begin)
      decreases toLeft
    {
      toLeft := toLeft - 1;
    }
  }

  /** `while (to_right < cols - 1 && !pair) ++to_right`. */
  method SearchRight(img: seq<seq<int>>, cols: int, i: int, begin: int) returns (toRight: int)
    requires Shaped(img, cols) && 0 <= i < |img| && 1 <= begin <= cols - 2
    requires begin >= 2 || i >= 1
    ensures toRight == RightStop(img, cols, i, begin)
  {
    toRight := begin;
    while toRight < cols - 1 && !(img[i][toRight] == White && Px(img, cols, i, toRight - 2) == White)
      invariant begin <= toRight <= cols - 1
      invariant RightStop(img, cols, i, toRight) == RightStop(img, cols, i, begin)
      decreases cols - toRight
    {
      toRight := toRight + 1;
    }
  }

  /** The averaging loop: add up mid[half .. min(n, half + 5)) as a double
      and divide by the number of samples. */
  method WindowMean(mid: seq<int>) returns (r: real)
    requires mid != []
    ensures r == Sum(Window(mid)) as real / |Window(mid)| as real
  {
    var total := 0;
    var half := |mid| / 2;
    var size := MinInt(|mid|, half + SampleOffset);
    for j := half to size
      invariant total == Sum(mid[half..j])
    {
      WindowSumStep(mid, j);
      total := total + mid[j];
    }
    assert mid[half..size] == Window(mid);
    r := total as real / (size - half) as real;
  }

  /** The answer is 160.0 without midpoints; otherwise it lies between the
      smallest and largest midpoint, and always in [2, cols-2], the columns
      a midpoint of two found lines can take. */
  lemma TrackResultBounds(img: seq<seq<int>>, cols: int, lo: int, hi: int)
    requires Shaped(img, cols)
    requires forall k :: 0 <= k < |AllMids(img, cols)| ==> lo <= AllMids(img, cols)[k] <= hi
    ensures AllMids(img, cols) == [] ==> TrackResult(img, cols) == NoLine
    ensures AllMids(img, cols) != [] ==> lo as real <= TrackResult(img, cols) <= hi as real
    ensures 2.0 <= TrackResult(img, cols) <= (cols - 2) as real
  {
    var m := AllMids(img, cols);
    if m != [] {
      WindowRealMeanBounds(m, lo, hi);
      WindowRealMeanBounds(m, 2, cols - 2);
    }
  }

  /** With a left line at a and a right line at b around the seed, and no
      other line between them, the row's cursors stop exactly on the lines,
      so its midpoint (a+b)/2 is recorded. */
  lemma RowBetweenLines(img: seq<seq<int>>, cols: int, i: int, begin: int, a: int, b: int)
    requires Shaped(img, cols) && 0 <= i < |img|
    requires 1 < a <= begin <= b < cols - 1 && begin <= cols - 2
    requires LeftPair(img, cols, i, a) && RightPair(img, cols, i, b)
    requires forall k :: a < k <= begin ==> !LeftPair(img, cols, i, k)
    requires forall k :: begin <= k < b ==> !RightPair(img, cols, i, k)
    ensures LeftStop(img, cols, i, begin) == a && RightStop(img, cols, i, begin) == b
  {
  }

  predicate Dark(row: seq<int>)
  {
    forall c :: 0 <= c < |row| ==> row[c] != White
  }

  /** Over rows without foreground no midpoint is ever recorded: the left
      cursor always runs down to column 1. */
  lemma {:induction false} DarkMids(img: seq<seq<int>>, cols: int, i: int, lo: int, begin: int)
    requires Shaped(img, cols) && 0 <= lo && lo - 1 <= i < |img|
    requires 1 <= begin <= cols - 2
    requires i >= lo ==> begin >= 2 || i >= 1
    requires lo >= 1 || |img| <= 1
    requires forall r :: 0 <= r < |img| ==> Dark(img[r])
    ensures Mids(img, cols, i, lo, begin) == []
    decreases i - lo + 1
  {
    if i >= lo {
      var tl := LeftStop(img, cols, i, begin);
      assert !LeftPair(img, cols, i, tl) by { assert img[i][tl] != White; }
      DarkMids(img, cols, i - 1, lo, ScanRow(img, cols, i, begin).next);
    }
  }

  /** An image without foreground yields the centre 160.0 (unlike the
      Python successor, which yields 159). */
  lemma DarkImage(img: seq<seq<int>>, cols: int)
    requires Shaped(img, cols)
    requires forall r :: 0 <= r < |img| ==> Dark(img[r])
    ensures TrackResult(img, cols) == NoLine
  {
    DarkMids(img, cols, |img| - 1, |img| / 2, Seed);
  }
}
