/** The sampling window both pixel trackers average over: starting at the
    middle of the list of row midpoints (the rows nearest the middle of the
    scanned band) and at most five entries long. */
module MidWindow {
  import opened Common

  /** `MID_SAMPLE_OFFSET` / the `+ 5` of the C++ tracker. */
  const SampleOffset := 5

  function Window(mids: seq<int>): (w: seq<int>)
    ensures mids != [] ==> 1 <= |w| <= SampleOffset
    ensures mids == [] ==> w == []
    ensures |mids| / 2 + |w| <= |mids|
    ensures forall k :: 0 <= k < |w| ==> w[k] == mids[|mids| / 2 + k]
  {
    mids[|mids| / 2 .. MinInt(|mids| / 2 + SampleOffset, |mids|)]
  }

  /** Sum of the window, as accumulated by a loop over j in [half, size). */
  lemma WindowSumStep(mids: seq<int>, j: int)
    requires |mids| / 2 <= j < MinInt(|mids| / 2 + SampleOffset, |mids|)
    ensures Sum(mids[|mids| / 2 .. j + 1]) == Sum(mids[|mids| / 2 .. j]) + mids[j]
  {
    var h := |mids| / 2;
    SumStep(mids[h..], j - h);
    assert mids[h..][..j - h + 1] == mids[h .. j + 1];
    assert mids[h..][..j - h] == mids[h .. j];
  }

  /** When every midpoint lies in [lo, hi], so does the floor mean of the
      (never empty) window. */
  lemma WindowMeanBounds(mids: seq<int>, lo: int, hi: int)
    requires mids != []
    requires forall k :: 0 <= k < |mids| ==> lo <= mids[k] <= hi
    ensures lo <= Sum(Window(mids)) / |Window(mids)| <= hi
  {
    var w := Window(mids);
    SumBounds(w, lo, hi);
    DivBounds(Sum(w), |w|, lo, hi);
  }

  /** The same for the exact mean of the window. */
  lemma WindowRealMeanBounds(mids: seq<int>, lo: int, hi: int)
    requires mids != []
    requires forall k :: 0 <= k < |mids| ==> lo <= mids[k] <= hi
    ensures lo as real <= Sum(Window(mids)) as real / |Window(mids)| as real <= hi as real
  {
    var w := Window(mids);
    SumBounds(w, lo, hi);
    RealDivBounds(Sum(w) as real, |w| as real, lo as real, hi as real);
  }

  /** A constant list of midpoints averages to that constant. */
  lemma WindowMeanConstant(mids: seq<int>, v: int)
    requires mids != []
    requires forall k :: 0 <= k < |mids| ==> mids[k] == v
    ensures Sum(Window(mids)) / |Window(mids)| == v
    ensures Sum(Window(mids)) as real / |Window(mids)| as real == v as real
  {
    var w := Window(mids);
    SumConstant(w, v);
    assert Sum(w) as real == |w| as real * v as real;
  }
}
