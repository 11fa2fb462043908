/** Deadlines in 32-bit ticks: block times that are re-checked after each wake-up, and delays until
a periodic wake time. */
module Timeouts {
  import opened Ticks

  // ----- xTaskCheckForTimeOut -----

  /** The verdict of xTaskCheckForTimeOut and, if the time is not up, the ticks still to wait. */
  datatype Verdict = TimedOut | Remaining(ticks: Tick)

  /** Its comparisons, for a finite block time entered when the overflow count and tick count were
  `overflows0` and `entered`. */
  function Check(overflows0: int, entered: Tick, overflows: int, tick: Tick, wait: Tick): Verdict {
    var elapsed := Wrap(tick - entered);
    if overflows != overflows0 && tick >= entered then TimedOut
    else if elapsed < wait then Remaining(wait - elapsed)
    else TimedOut
  }

  /** The same, in absolute times. */
  function CheckAt(entered: int, now: int, wait: Tick): Verdict {
    Check(Epoch(entered), Wrap(entered), Epoch(now), Wrap(now), wait)
  }

  /** The case the two counts cannot tell: the tick count has wrapped at least twice, is below the
  value it was entered with, and shows fewer ticks than the block time. */
  predicate Confused(entered: int, now: int, wait: Tick) {
    now - entered >= TICK_MODULUS && Wrap(now) < Wrap(entered) && Wrap(now - entered) < wait
  }

  /** The verdict is right exactly unless that happens. */
  lemma CheckIsExactIff(entered: int, now: int, wait: Tick)
    requires entered <= now
    ensures (CheckAt(entered, now, wait) == TimedOut <==> now - entered >= wait) <==> !Confused(entered, now, wait)
  {
    WrapOfDifference(now, entered);
    if now - entered < TICK_MODULUS {
      EpochAfter(entered, now - entered);
    } else {
      EpochsApart(entered, now);
    }
  }

  /** Called 2^32 + 15 ticks after a wait of 20 ticks began, it says that 5 are left. */
  lemma TwoWrapsAreConfusing()
    ensures var entered, now := TICK_MODULUS - 10, 2 * TICK_MODULUS + 5;
            && Confused(entered, now, 20) && now - entered >= 20 && CheckAt(entered, now, 20) == Remaining(5)
  {
  }

  lemma EpochsApart(x: int, y: int)
    requires y - x >= TICK_MODULUS
    ensures Epoch(y) > Epoch(x)
  {
  }

  /** Re-checking conserves the deadline, so any number of early wake-ups neither shortens nor
  lengthens the wait. */
  lemma DeadlineIsConserved(entered: int, now: int, wait: Tick)
    requires 0 <= now - entered < TICK_MODULUS
    ensures match CheckAt(entered, now, wait)
            case Remaining(ticks) => now + ticks == entered + wait && ticks > 0
            case TimedOut => now >= entered + wait
  {
    WrapOfDifference(now, entered);
    EpochAfter(entered, now - entered);
  }

  /** TimeOut_t, with the ticks still to wait. */
  class TimeOut {
    var xOverflowCount: int
    var xTimeOnEntering: Tick
    var xTicksToWait: Tick
    ghost var entered: int

    ghost predicate Valid()
      reads this
    {
      xOverflowCount == Epoch(entered) && xTimeOnEntering == Wrap(entered)
    }

    /** vTaskInternalSetTimeOutState. */
    constructor (xNumOfOverflows: int, xTickCount: Tick, ticks: Tick, ghost now: int)
      requires xNumOfOverflows == Epoch(now) && xTickCount == Wrap(now)
      ensures Valid() && entered == now && xTicksToWait == ticks
    {
      xOverflowCount, xTimeOnEntering, xTicksToWait := xNumOfOverflows, xTickCount, ticks;
      entered := now;
    }

    /** xTaskCheckForTimeOut.  A block time of portMAX_DELAY never runs out; ucDelayAborted ends any
    wait. */
    method CheckForTimeOut(aborted: bool, xNumOfOverflows: int, xTickCount: Tick, ghost now: int) returns (timedOut: bool)
      requires Valid() && xNumOfOverflows == Epoch(now) && xTickCount == Wrap(now) && 0 <= now - entered < TICK_MODULUS
      modifies this
      ensures Valid()
      ensures aborted ==> timedOut
      ensures !aborted && old(xTicksToWait) == MAX_DELAY ==> !timedOut && xTicksToWait == MAX_DELAY
      ensures !aborted && old(xTicksToWait) != MAX_DELAY ==>
                && timedOut == (now >= old(entered) + old(xTicksToWait))
                && (timedOut ==> xTicksToWait == 0)
                && (!timedOut ==> entered == now && entered + xTicksToWait == old(entered) + old(xTicksToWait))
    {
      hide Wrap, Epoch;
      DeadlineIsConserved(entered, now, xTicksToWait);
      var xElapsedTime := Wrap(xTickCount - xTimeOnEntering);
      if aborted {
        timedOut := true;
      } else if xTicksToWait == MAX_DELAY {
        timedOut := false;
      } else if xNumOfOverflows != xOverflowCount && xTickCount >= xTimeOnEntering {
        timedOut := true;
        xTicksToWait := 0;
      } else if xElapsedTime < xTicksToWait {
        xTicksToWait := xTicksToWait - xElapsedTime;
        xOverflowCount, xTimeOnEntering := xNumOfOverflows, xTickCount;
        entered := now;
        timedOut := false;
      } else {
        xTicksToWait := 0;
        timedOut := true;
      }
    }
  }

  // ----- xTaskDelayUntil -----

  /** The comparisons of xTaskDelayUntil. */
  predicate ShouldDelay(previous: Tick, wake: Tick, tick: Tick) {
    if tick < previous then wake < previous && wake > tick
    else wake < previous || wake > tick
  }

  /** Called less than 2^32 ticks after the previous wake time, the task delays exactly if the next
  one is still to come, and then for exactly the ticks that are left. */
  lemma DelaysUntilNextWake(previous: int, increment: Tick, now: int)
    requires 0 <= now - previous < TICK_MODULUS && increment > 0
    ensures ShouldDelay(Wrap(previous), Wrap(previous + increment), Wrap(now)) <==> previous + increment > now
    ensures previous + increment > now ==> now + Wrap(Wrap(previous + increment) - Wrap(now)) == previous + increment
  {
    EpochAfter(previous, increment);
    EpochAfter(previous, now - previous);
    WrapEpoch(previous);
    WrapEpoch(now);
    WrapEpoch(previous + increment);
    WrapOfDifference(previous + increment, now);
  }
}
