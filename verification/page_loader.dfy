/**
 * The page loader: an overlay shown on first load with a simulated progress
 * percentage. A 150 ms interval raises the percentage by 10 up to 100; the
 * first tick that finds it at 100 stops the interval and schedules, 500 ms
 * later, the one-shot removal of the overlay.
 */
module PageLoader {

  const Step := 10
  const Full := 100

  /** The progress a tick computes from the previous value. */
  function NextProgress(prev: int): int {
    if prev >= Full then Full else prev + Step
  }

  /** The progress after `n` ticks of a running interval, starting from 0. */
  function ProgressAfter(n: nat): (r: int)
    ensures r == if n <= 10 then Step * n else Full
    ensures 0 <= r <= Full && r % Step == 0
  {
    if n == 0 then 0 else NextProgress(ProgressAfter(n - 1))
  }

  /**
   * Progress first reaches 100 on tick 10, but the interval stops only on
   * tick 11, the first tick that finds the progress already at 100.
   */
  lemma StopsOnEleventhTick(n: nat)
    ensures ProgressAfter(n) == Full <==> n >= 10
    ensures (n >= 1 && ProgressAfter(n - 1) >= Full) <==> n >= 11
  {
  }

  class PageLoader {
    /** The overlay is shown. */
    var loading: bool
    var progress: int
    /** The 150 ms interval is running. */
    var intervalActive: bool
    /** The 500 ms timeout that hides the overlay is scheduled and has not fired. */
    var hideScheduled: bool
    /** Ticks delivered so far. */
    ghost var ticks: nat

    ghost predicate Valid()
      reads this
    {
      ticks <= 11
      && progress == ProgressAfter(if ticks <= 10 then ticks else 10)
      && (intervalActive ==> ticks <= 10)
      && (hideScheduled ==> ticks == 11 && loading)
      && (!loading ==> ticks == 11 && !hideScheduled && !intervalActive)
    }

    /** Mount: the overlay is shown at 0% and the interval starts. */
    constructor ()
      ensures Valid()
      ensures loading && progress == 0 && intervalActive && !hideScheduled && ticks == 0
    {
      loading, progress, intervalActive, hideScheduled := true, 0, true, false;
      ticks := 0;
    }

    /** The interval fires; once it is cleared nothing happens. */
    method Tick()
      requires Valid()
      modifies this
      ensures Valid()
      ensures !old(intervalActive) ==>
        progress == old(progress) && !intervalActive && hideScheduled == old(hideScheduled)
        && ticks == old(ticks)
      ensures old(intervalActive) ==> progress == NextProgress(old(progress)) && ticks == old(ticks) + 1
      ensures old(intervalActive) ==> (intervalActive <==> old(progress) < Full)
      ensures old(intervalActive) ==> (hideScheduled <==> old(progress) >= Full)
      ensures old(progress) <= progress && progress % Step == 0 && 0 <= progress <= Full
      ensures loading == old(loading)
    {
      if intervalActive {
        if progress >= Full {
          intervalActive := false;
          hideScheduled := true;
          progress := Full;
        } else {
          progress := progress + Step;
        }
        ticks := ticks + 1;
      }
    }

    /** The hide timeout fires: the overlay goes, once and for good. */
    method HideTimeout()
      requires Valid()
      modifies this
      ensures Valid()
      ensures loading == (old(loading) && !old(hideScheduled))
      ensures !hideScheduled
      ensures progress == old(progress) && intervalActive == old(intervalActive)
    {
      if hideScheduled {
        hideScheduled := false;
        loading := false;
      }
    }

    /**
     * Teardown clears the interval. The hide timeout, once scheduled, is not
     * cancelled.
     */
    method Unmount()
      requires Valid()
      modifies this
      ensures Valid()
      ensures !intervalActive
      ensures loading == old(loading) && progress == old(progress) && hideScheduled == old(hideScheduled)
    {
      intervalActive := false;
    }

    /** The overlay, and the percentage text inside it, is drawn only while loading. */
    predicate OverlayShown()
      reads this
    {
      loading
    }
  }
}
