/** The miss counter of `Baffle.detection_thread` in
    5g-car-python/src/test_stream.py: the barrier counts as removed after ten
    examined frames in a row without it. The blue-card decision of each
    examined frame is an input here. */
module BaffleWatch {
  import opened Common

  /** `max_no_detection`. */
  const MaxNoDetection := 10
  /** Only every fifth frame is examined. */
  const SampleEvery := 5

  class BaffleWatch {
    var frameCount: nat
    var consecutiveNoDetection: nat
    var detectionComplete: bool
    /** The decisions of the examined frames, oldest first. */
    ghost var samples: seq<bool>

    /** The counter is the number of misses ending the sample history, and
      the watch completes exactly when it reaches ten (after which the loop
      stops, so it never goes past ten). */
    ghost predicate Valid()
      reads this
    {
      consecutiveNoDetection == Trailing(samples, false) &&
      consecutiveNoDetection <= MaxNoDetection &&
      (detectionComplete <==> consecutiveNoDetection == MaxNoDetection) &&
      |samples| == frameCount / SampleEvery
    }

    constructor ()
      ensures Valid() && frameCount == 0 && consecutiveNoDetection == 0
      ensures !detectionComplete && samples == []
    {
      frameCount, consecutiveNoDetection := 0, 0;
      detectionComplete := false;
      samples := [];
    }

    /** One loop iteration. Once complete the loop has exited and nothing
      changes; a failed read is retried without counting; every fifth
      counted frame is examined: a sighting clears the counter, a miss
      increments it and the tenth miss in a row completes the watch. */
    method OnFrame(readOk: bool, found: bool)
      requires Valid()
      modifies this
      ensures Valid()
      ensures old(detectionComplete) || !readOk ==>
                frameCount == old(frameCount) && samples == old(samples) &&
                consecutiveNoDetection == old(consecutiveNoDetection) &&
                detectionComplete == old(detectionComplete)
      ensures !old(detectionComplete) && readOk ==> frameCount == old(frameCount) + 1
      ensures !old(detectionComplete) && readOk && frameCount % SampleEvery != 0 ==>
                samples == old(samples) &&
                consecutiveNoDetection == old(consecutiveNoDetection) && !detectionComplete
      ensures !old(detectionComplete) && readOk && frameCount % SampleEvery == 0 ==>
                samples == old(samples) + [found] &&
                (found ==> consecutiveNoDetection == 0 && !detectionComplete) &&
                (!found ==> consecutiveNoDetection == old(consecutiveNoDetection) + 1)
    {
      if detectionComplete || !readOk {
        return;
      }
      FifthFrameStep(frameCount);
      frameCount := frameCount + 1;
      if frameCount % SampleEvery == 0 {
        TrailingAppend(samples, found, false);
        samples := samples + [found];
        if found {
          consecutiveNoDetection := 0;
        } else {
          consecutiveNoDetection := consecutiveNoDetection + 1;
          if consecutiveNoDetection >= MaxNoDetection {
            detectionComplete := true;
          }
        }
      }
    }
  }

  /** Completion needs no sighting at all: ten examined frames without the
      barrier complete the watch even if it was never seen. */
  lemma CompletesWithoutSighting(samples: seq<bool>)
    requires |samples| == MaxNoDetection
    requires forall k :: 0 <= k < |samples| ==> !samples[k]
    ensures Trailing(samples, false) == MaxNoDetection
  {
  }
}
