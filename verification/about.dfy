/**
 * The statistic counter of the About section. Once its element has been seen
 * half on screen, it counts from 0 up to `end` over `duration` seconds, one
 * animation frame at a time, then shows exactly `end` and stops.
 *
 * Time is in whole milliseconds: frame timestamps are integers and the
 * duration is given as `durationMs`, the component's `duration * 1000`.
 */
module About {

  /** The duration used when none is given: 2 seconds. */
  const DefaultDurationMs: nat := 2 * 1000

  /** The shipped statistics' targets: years coding, projects, technologies, cups of coffee. */
  const statTargets: seq<int> := [3, 20, 15, 999]

  /**
   * The value a frame shows `elapsed` ms after the first frame:
   * `floor(end * elapsed / durationMs)` while the time is not up, `end` after.
   * A zero duration is up at once (the component divides by zero and gets a
   * quotient that is not below 1).
   */
  function CountAt(end: int, durationMs: nat, elapsed: int): (r: int)
    ensures end >= 0 && elapsed >= 0 ==> 0 <= r <= end
    ensures elapsed >= durationMs ==> r == end
    ensures end > 0 && 0 <= elapsed < durationMs ==> r < end
  {
    if durationMs > 0 && elapsed < durationMs then
      ScaledBelow(end, elapsed, durationMs);
      (end * elapsed) / durationMs
    else end
  }

  /** `floor(end * e / d)` lies in [0, end] for e <= d, and below `end` for e < d. */
  lemma ScaledBelow(end: int, e: int, d: int)
    requires d > 0
    ensures end >= 0 && 0 <= e <= d ==> 0 <= (end * e) / d <= end
    ensures end > 0 && 0 <= e < d ==> (end * e) / d < end
  {
    if end >= 0 && 0 <= e <= d {
      MulMonotone(end, 0, e);
      MulMonotone(end, e, d);
      DivMonotone(0, end * e, d);
      DivMonotone(end * e, end * d, d);
      MulDiv(end, d);
    }
    if end > 0 && 0 <= e < d {
      var q := (end * e) / d;
      MulMonotone(end, e, d - 1);
      assert end * (d - 1) == end * d - end;
      assert q * d <= end * e;
      if q >= end {
        MulMonotone(d, end, q);
        assert false;
      }
    }
  }

  /** Multiplying by a non-negative factor keeps the order. */
  lemma MulMonotone(a: int, x: int, y: int)
    requires a >= 0 && x <= y
    ensures a * x <= a * y
  {
    var k := y - x;
    assert a * y == a * x + a * k;
    NonNegProduct(a, k);
  }

  lemma {:induction false} NonNegProduct(a: nat, k: nat)
    ensures a * k >= 0
  {
    if a > 0 {
      NonNegProduct(a - 1, k);
      assert a * k == (a - 1) * k + k;
    }
  }

  /** `(a * d) / d == a` for a positive divisor. */
  lemma MulDiv(a: int, d: int)
    requires d > 0
    ensures (a * d) / d == a
  {
    var q, r := (a * d) / d, (a * d) % d;
    assert a * d == q * d + r && 0 <= r < d;
    if q > a {
      MulMonotone(d, a + 1, q);
      assert false;
    } else if q < a {
      MulMonotone(d, q + 1, a);
      assert false;
    }
  }

  /** Flooring division by a positive divisor keeps the order. */
  lemma DivMonotone(x: int, y: int, d: int)
    requires d > 0 && x <= y
    ensures x / d <= y / d
  {
    var qx, qy := x / d, y / d;
    assert x == qx * d + x % d && 0 <= x % d < d;
    assert y == qy * d + y % d && 0 <= y % d < d;
    if qx > qy {
      MulMonotone(d, qy + 1, qx);
      assert false;
    }
  }

  /** With the time measured from the same start, a later frame never shows a smaller value. */
  lemma CountMonotone(end: int, durationMs: nat, e1: int, e2: int)
    requires end >= 0 && 0 <= e1 <= e2
    ensures CountAt(end, durationMs, e1) <= CountAt(end, durationMs, e2)
  {
    if durationMs > 0 && e2 < durationMs {
      MulMonotone(end, e1, e2);
      DivMonotone(end * e1, end * e2, durationMs);
    }
  }

  /**
   * Each shipped statistic, counted with the default duration, shows its own
   * target from the moment the 2 seconds are up, and less than it before.
   */
  lemma ShippedStatsSettle(i: nat, elapsed: int)
    requires i < |statTargets|
    ensures elapsed >= DefaultDurationMs ==> CountAt(statTargets[i], DefaultDurationMs, elapsed) == statTargets[i]
    ensures 0 <= elapsed < DefaultDurationMs ==> CountAt(statTargets[i], DefaultDurationMs, elapsed) < statTargets[i]
  {
    assert statTargets[i] > 0;
  }

  /** The first frame measures no time, so it shows 0 unless the duration is zero. */
  lemma FirstFrameShowsZero(end: int, durationMs: nat)
    requires durationMs > 0
    ensures CountAt(end, durationMs, 0) == 0
  {
  }

  class Counter {
    const end: int
    const durationMs: nat
    /** The displayed value. */
    var count: int
    /** Latched once the observer reports the element on screen. */
    var isVisible: bool
    /** The first frame's timestamp; 0 stands for "not yet set", as the frame step's falsy check does. */
    var startTime: int
    /** An animation frame has been requested and not yet run or cancelled. */
    var framePending: bool
    /** Between mount and teardown. */
    var mounted: bool
    /** Whether a frame has run, and the timestamp of the latest one. */
    ghost var ran: bool
    ghost var lastFrame: int

    ghost predicate Valid()
      reads this
    {
      (framePending ==> isVisible && mounted)
      && (!ran ==> count == 0 && startTime == 0)
      && (ran ==> isVisible && startTime <= lastFrame
                  && count == CountAt(end, durationMs, lastFrame - startTime))
      && (ran && startTime == 0 ==> lastFrame == 0)
      && (isVisible && mounted && !framePending ==> ran && count == end)
    }

    constructor (end: int, durationMs: nat := DefaultDurationMs)
      ensures Valid()
      ensures this.end == end && this.durationMs == durationMs
      ensures count == 0 && !isVisible && !framePending && mounted && !ran
    {
      this.end, this.durationMs := end, durationMs;
      count, isVisible, startTime, framePending, mounted := 0, false, 0, false, true;
      ran, lastFrame := false, 0;
    }

    /**
     * An intersection report. The first report that the element is on screen
     * latches `isVisible` and requests the first frame; later reports, and
     * reports that it is off screen, change nothing.
     */
    method Observe(isIntersecting: bool)
      requires Valid()
      modifies this
      ensures Valid()
      ensures isVisible == (old(isVisible) || (mounted && isIntersecting))
      ensures framePending == (old(framePending) || (!old(isVisible) && isVisible))
      ensures count == old(count) && startTime == old(startTime) && mounted == old(mounted)
      ensures ran == old(ran) && lastFrame == old(lastFrame)
    {
      if mounted && isIntersecting && !isVisible {
        isVisible := true;
        framePending := true;
      }
    }

    /**
     * An animation frame at `timestamp`. It runs only if one was requested;
     * frames arrive in timestamp order.
     */
    method Frame(timestamp: int)
      requires Valid()
      requires ran ==> timestamp >= lastFrame
      modifies this
      ensures Valid()
      ensures !old(framePending) ==> count == old(count) && !framePending && startTime == old(startTime)
      ensures !old(framePending) ==> ran == old(ran) && lastFrame == old(lastFrame)
      ensures old(framePending) ==> ran && lastFrame == timestamp
      ensures old(framePending) ==>
        startTime == (if old(startTime) == 0 then timestamp else old(startTime))
        && count == CountAt(end, durationMs, timestamp - startTime)
        && framePending == (durationMs > 0 && timestamp - startTime < durationMs)
      ensures end >= 0 ==> old(count) <= count <= end
      ensures isVisible == old(isVisible) && mounted == old(mounted)
    {
      if framePending {
        ghost var oldStart := startTime;
        if startTime == 0 {
          startTime := timestamp;
        }
        var elapsed := timestamp - startTime;
        if durationMs > 0 && elapsed < durationMs {
          count := (end * elapsed) / durationMs;
          framePending := true;
        } else {
          count := end;
          framePending := false;
        }
        assert count == CountAt(end, durationMs, elapsed);
        if end >= 0 {
          if !ran || oldStart == 0 {
            assert elapsed == 0;
          } else {
            CountMonotone(end, durationMs, lastFrame - startTime, elapsed);
          }
        }
        ran, lastFrame := true, timestamp;
      }
    }

    /** Teardown: the pending frame is cancelled and the observer disconnected. */
    method Unmount()
      requires Valid()
      modifies this
      ensures Valid()
      ensures !mounted && !framePending
      ensures count == old(count) && isVisible == old(isVisible) && startTime == old(startTime)
      ensures ran == old(ran) && lastFrame == old(lastFrame)
    {
      mounted, framePending := false, false;
    }
  }

  /** A shipped statistic's counter, created with its target and no duration, so with the default one. */
  method MountStat(i: nat) returns (c: Counter)
    requires i < |statTargets|
    ensures c.end == statTargets[i] && c.durationMs == DefaultDurationMs == 2000
    ensures c.count == 0 && !c.isVisible && !c.framePending && c.mounted && c.Valid()
  {
    c := new Counter(statTargets[i]);
  }
}
