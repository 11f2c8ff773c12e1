/** The barrier checks of 5g-car-python/src/find_baffle.py. The colour
    conversion, thresholding, morphology and contour extraction are OpenCV
    work that is not modelled: the mask they produce is an input array, and
    the contour areas found in it are an input list. An exception anywhere
    in a check (an empty frame, an OpenCV error) is the outcome `None`. */
module FindBaffle {
  import opened Common

  /** `BLUE_AREA_THRESHOLD`, `MIN_ROW` and `MAX_ROW`. */
  const BlueAreaThreshold: real := 10000.0
  const MinRow := 70
  const MaxRow := 120

  /** `mask[lo:hi, :] = 0` on a mask of at least `hi` rows. */
  method ZeroRows(mask: array2<int>, lo: int, hi: int)
    requires 0 <= lo <= hi <= mask.Length0
    modifies mask
    ensures forall r, c :: 0 <= r < mask.Length0 && 0 <= c < mask.Length1 ==>
              mask[r, c] == if lo <= r < hi then 0 else old(mask[r, c])
  {
    var r := lo;
    while r < hi
      invariant lo <= r <= hi
      invariant forall i, c :: 0 <= i < mask.Length0 && 0 <= c < mask.Length1 ==>
                  mask[i, c] == if lo <= i < r then 0 else old(mask[i, c])
    {
      var c := 0;
      while c < mask.Length1
        invariant 0 <= c <= mask.Length1
        invariant forall i, k :: 0 <= i < mask.Length0 && 0 <= k < mask.Length1 ==>
                    mask[i, k] == if lo <= i < r || (i == r && k < c) then 0 else old(mask[i, k])
      {
        mask[r, c] := 0;
        c := c + 1;
      }
      r := r + 1;
    }
  }

  /** The last step of `process_blue_area`, after an empty-frame check:
      `frameSize` is `frame.size` (`None` when there is no frame). An
      empty frame raises (false, mask untouched); otherwise every row
      above 70 and from 120 on is cleared and the band in between kept. */
  method ProcessBlueArea(frameSize: Option<nat>, mask: array2<int>) returns (ok: bool)
    modifies mask
    ensures ok <==> frameSize.Some? && frameSize.value > 0
    ensures !ok ==> forall r, c :: 0 <= r < mask.Length0 && 0 <= c < mask.Length1 ==>
                      mask[r, c] == old(mask[r, c])
    ensures ok ==> forall r, c :: 0 <= r < mask.Length0 && 0 <= c < mask.Length1 ==>
                     mask[r, c] == if r < MinRow || r >= MaxRow then 0 else old(mask[r, c])
  {
    if frameSize == None || frameSize.value == 0 {
      return false;
    }
    var rows := mask.Length0;
    ZeroRows(mask, 0, MinInt(MinRow, rows));
    ZeroRows(mask, MinInt(MaxRow, rows), rows);
    ok := true;
  }

  /** `find_blue_card`: false on an exception or without contours,
      otherwise whether the largest contour exceeds 10000. */
  function FindBlueCard(areas: Option<seq<real>>): (found: bool)
    ensures found <==> areas.Some? &&
                       exists k :: 0 <= k < |areas.value| && areas.value[k] > BlueAreaThreshold
  {
    match areas
    case None => false
    case Some(a) => if a == [] then false else MaxOf(a) > BlueAreaThreshold
  }

  /** `is_blue_card_removed`: true on an exception or without contours,
      otherwise whether the largest contour is below 10000. */
  function IsBlueCardRemoved(areas: Option<seq<real>>): (removed: bool)
    ensures removed <==> areas.None? ||
                         forall k :: 0 <= k < |areas.value| ==> areas.value[k] < BlueAreaThreshold
  {
    match areas
    case None => true
    case Some(a) => if a == [] then true else MaxOf(a) < BlueAreaThreshold
  }

  /** `calculate_blue_area`: 0.0 on an exception, else the summed areas. */
  function CalculateBlueArea(areas: Option<seq<real>>): (total: real)
    ensures areas.None? ==> total == 0.0
    ensures areas.Some? ==> total == SumReal(areas.value)
  {
    match areas
    case None => 0.0
    case Some(a) => SumReal(a)
  }

  /** The two checks never both hold, and they fail together exactly when
      the largest contour is exactly 10000. */
  lemma FoundAndRemovedExclusive(areas: Option<seq<real>>)
    ensures !(FindBlueCard(areas) && IsBlueCardRemoved(areas))
    ensures !FindBlueCard(areas) && !IsBlueCardRemoved(areas) <==>
              areas.Some? && areas.value != [] && MaxOf(areas.value) == BlueAreaThreshold
  {
    if areas.Some? && areas.value != [] {
      var m := MaxOf(areas.value);
      var k :| 0 <= k < |areas.value| && areas.value[k] == m;
    }
  }

  /** Areas are never negative, so the total area is at least the largest
      contour's: a card found by `find_blue_card` means a total above 10000. */
  lemma {:induction false} TotalAtLeastLargest(a: seq<real>)
    requires a != []
    requires forall k :: 0 <= k < |a| ==> a[k] >= 0.0
    ensures SumReal(a) >= MaxOf(a)
    ensures FindBlueCard(Some(a)) ==> CalculateBlueArea(Some(a)) > BlueAreaThreshold
  {
    if |a| > 1 {
      var p := a[..|a| - 1];
      assert forall k :: 0 <= k < |p| ==> p[k] == a[k];
      TotalAtLeastLargest(p);
      SumNonNegative(p);
    }
  }

  lemma {:induction false} SumNonNegative(a: seq<real>)
    requires forall k :: 0 <= k < |a| ==> a[k] >= 0.0
    ensures SumReal(a) >= 0.0
  {
    if a != [] {
      var p := a[..|a| - 1];
      assert forall k :: 0 <= k < |p| ==> p[k] == a[k];
      SumNonNegative(p);
    }
  }
}
