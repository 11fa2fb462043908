/** What the scheduler promises, for every run. */
module KernelTheorems {
  import opened Ticks
  import opened ListModel
  import opened ItemLists
  import opened Kernel
  import opened KernelProofs
  import opened KernelSteps

  /** Some run gets there. */
  ghost predicate Reachable(k: Kernel) {
    exists ks, steps, n: nat :: IsRun(ks, steps) && n < |ks| && ks[n] == k
  }

  lemma ReachableIsSound(k: Kernel)
    requires Reachable(k)
    ensures Inv(k)
  {
    var ks: seq<Kernel>, steps: seq<Step>, n: nat :| IsRun(ks, steps) && n < |ks| && ks[n] == k;
    EveryStateIsSound(ks, steps, n);
  }

  // ----- the lists partition the tasks -----

  /** In every reachable state each task's state item is in exactly one list, once; a ready task
  is in the list of its present priority; and uxTopReadyPriority bounds every ready priority. */
  lemma ListsPartitionTasks(k: Kernel, t: Task)
    requires Reachable(k) && t in k.tcb
    ensures exists p :: k.state.Holds(p, t) && forall q :: k.state.Holds(q, t) ==> q == p
    ensures forall p :: NoDuplicates(k.state.Of(p).items)
    ensures forall p | k.state.Holds(Ready(p), t) :: p == k.tcb[t].priority <= k.top < MAX_PRIORITIES
  {
    hide InEpoch, InOrder, CacheIsLow;
    ReachableIsSound(k);
    assert k.state.Holds(k.state.container[t], t);
    assert InPlace(k, t);
    forall p
      ensures NoDuplicates(k.state.Of(p).items)
    {
      assert ListOk(k.state, p);
    }
  }

  /** In every reachable state the scan of vTaskSwitchContext ends at a non-empty list, and that is
  the list of the highest ready priority. */
  lemma SelectionIsHighest(k: Kernel)
    requires Reachable(k) && k.suspended == 0
    ensures WellFormed(k) && ScanSucceeds(k)
    ensures var r := SwitchInterrupt(k); r.IsReady(r.current) && TopRuns(r)
  {
    ReachableIsSound(k);
    SelectionSucceeds(k);
    SwitchKeepsInv(k);
  }

  // ----- time -----

  /** The assertion made when the delayed lists are switched never fails, and every wake time is on
  the list of its epoch. */
  lemma EpochsNeverMix(k: Kernel, t: Task)
    requires Reachable(k) && t in k.tcb
    ensures SwitchIsSafe(k)
    ensures t in k.state.container && t in k.sleep
    ensures k.state.container[t] == k.Delayed() ==> Epoch(k.sleep[t].due) == k.clock.overflows
    ensures k.state.container[t] == k.Overflow() ==> Epoch(k.sleep[t].due) == k.clock.overflows + 1
  {
    ReachableIsSound(k);
  }

  /** Number of ticks a step adds to those that have happened. */
  function TicksOf(s: Step): nat {
    match s
    case TickIsr => 1
    case DoCatchUp(n) => n
    case _ => 0
  }

  function TicksIn(steps: seq<Step>): nat {
    if steps == [] then 0 else TicksIn(steps[..|steps| - 1]) + TicksOf(steps[|steps| - 1])
  }

  ghost predicate SameCounts(k: Kernel, r: Kernel) {
    r.clock.interrupts == k.clock.interrupts && r.clock.dropped == k.clock.dropped
  }

  lemma StepCountsInterrupts(k: Kernel, s: Step)
    requires Inv(k) && Allowed(k, s)
    ensures Next(k, s).clock.interrupts == k.clock.interrupts + TicksOf(s)
  {
    hide Settled, EpochsAreRight, CacheIsLow, SwitchIsSafe, Consistent, WellFormed, Wrap;
    hide ResumeAll, BlockCurrent, RemoveFromEventList, Notify, NotifyFromISR, MoveToReady, Resume, ResumeFromISR,
      AbortDelay, PrioritySet, NextMutex, RemoveFromUnorderedEventList, CountTick, Suspend;
    match s
    case TickIsr =>
      if k.suspended == 0 {
        var j := k.(clock := k.clock.(interrupts := k.clock.interrupts + 1));
        SameButFlags(k, j);
        OneTick(j);
      }
    case DoResumeAll => ResumeAllCounts(k);
    case DoMutex(m) =>
    case _ => OthersKeepCounts(k, s);
  }

  lemma ResumeAllCounts(k: Kernel)
    requires Inv(k) && k.suspended > 0
    ensures SameCounts(k, ResumeAll(k))
  {
    hide Settled, EpochsAreRight, CacheIsLow, Consistent, AllLater, SwitchIsSafe;
    var j := k.(suspended := k.suspended - 1);
    SameButFlags(k, j);
    if j.suspended == 0 {
      AfterDrainKeeps(j);
      CountTicksKeeps(AfterDrain(j), k.clock.pended);
    }
  }

  lemma OthersKeepCounts(k: Kernel, s: Step)
    requires WellFormed(k) && Allowed(k, s) && !s.TickIsr? && !s.DoResumeAll? && !s.DoMutex?
    ensures Next(k, s).clock.interrupts == k.clock.interrupts + TicksOf(s)
  {
    hide WellFormed, Wrap, MoveToReady, RemoveFromEventList, RemoveFromUnorderedEventList, Notify, NotifyFromISR,
      Suspend, Resume, ResumeFromISR, AbortDelay, PrioritySet, BlockCurrent, BlockOnEvent, NotifyWait, ResetNextUnblock;
  }

  /** The ticks counted, pended and dropped are all the ticks there were. */
  lemma {:induction false} NoTickIsLost(ks: seq<Kernel>, steps: seq<Step>)
    requires IsRun(ks, steps)
    ensures var c := ks[|steps|].clock;
            c.now + c.pended + c.dropped == TicksIn(steps)
  {
    hide Next, Allowed, WellFormed, Core;
    EveryStateIsSound(ks, steps, |steps|);
    if steps != [] {
      var n := |steps| - 1;
      EveryStateIsSound(ks, steps, n);
      assert StepsTo(ks[n], steps[n], ks[n + 1]);
      StepCountsInterrupts(ks[n], steps[n]);
      RunPrefix(ks, steps, n);
      NoTickIsLost(ks[..n + 1], steps[..n]);
    }
  }

  /** The step adds to xPendedTicks more than its 32 bits hold. */
  predicate PendedOverflows(k: Kernel, s: Step) {
    match s
    case TickIsr => k.suspended > 0 && k.clock.pended == MAX_DELAY
    case DoCatchUp(n) => k.clock.pended + n > MAX_DELAY
    case _ => false
  }

  /** Ticks are dropped exactly when that happens: a tick interrupt or xTaskCatchUpTicks with the
  scheduler suspended for so long. */
  lemma DropsExactly(k: Kernel, s: Step)
    requires Inv(k) && Allowed(k, s)
    ensures Next(k, s).clock.dropped != k.clock.dropped <==> PendedOverflows(k, s)
  {
    hide Settled, EpochsAreRight, CacheIsLow, SwitchIsSafe, Consistent, WellFormed;
    hide ResumeAll, BlockCurrent, RemoveFromEventList, Notify, NotifyFromISR, MoveToReady, Resume, ResumeFromISR,
      AbortDelay, PrioritySet, NextMutex, RemoveFromUnorderedEventList, CountTick, Suspend;
    match s
    case TickIsr =>
      if k.suspended == 0 {
        var j := k.(clock := k.clock.(interrupts := k.clock.interrupts + 1));
        SameButFlags(k, j);
        OneTick(j);
      }
    case DoResumeAll => ResumeAllCounts(k);
    case DoMutex(m) =>
    case _ => OthersDropNothing(k, s);
  }

  lemma OthersDropNothing(k: Kernel, s: Step)
    requires WellFormed(k) && Allowed(k, s) && !s.TickIsr? && !s.DoResumeAll? && !s.DoMutex?
    ensures Next(k, s).clock.dropped != k.clock.dropped <==> PendedOverflows(k, s)
  {
    hide WellFormed, MoveToReady, RemoveFromEventList, RemoveFromUnorderedEventList, Notify, NotifyFromISR,
      Suspend, Resume, ResumeFromISR, AbortDelay, PrioritySet, BlockCurrent, BlockOnEvent, NotifyWait, ResetNextUnblock;
  }

  /** In a run in which that never happens, the ticks counted and pended are all there were. */
  lemma {:induction false} NoneDropped(ks: seq<Kernel>, steps: seq<Step>, n: nat)
    requires IsRun(ks, steps) && n < |ks|
    requires forall i | 0 <= i < n :: !PendedOverflows(ks[i], steps[i])
    ensures ks[n].clock.dropped == 0 && ks[n].clock.now + ks[n].clock.pended == TicksIn(steps[..n])
  {
    hide Next, Allowed, WellFormed, Core, PendedOverflows;
    RunPrefix(ks, steps, n);
    NoTickIsLost(ks[..n + 1], steps[..n]);
    if n > 0 {
      NoneDropped(ks, steps, n - 1);
      EveryStateIsSound(ks, steps, n - 1);
      assert StepsTo(ks[n - 1], steps[n - 1], ks[n]);
      DropsExactly(ks[n - 1], steps[n - 1]);
    }
  }

  lemma RunPrefix(ks: seq<Kernel>, steps: seq<Step>, n: nat)
    requires IsRun(ks, steps) && n < |ks|
    ensures IsRun(ks[..n + 1], steps[..n])
  {
    hide StepsTo, Initial;
    assert forall i | 0 <= i < n :: StepsTo(ks[i], steps[i], ks[i + 1]);
  }

  // ----- exact wake-up -----

  /** The steps with which the running task goes to sleep, and for how long. */
  predicate Blocks(s: Step) {
    s.DoBlock? || s.DoBlockOnEvent? || (s.DoNotifyWait? && s.ticks > 0)
  }

  function BlockTime(s: Step): Tick
    requires Blocks(s)
  {
    s.ticks
  }

  /** Either no tick is counted, or all sleepers are due later. */
  lemma StepTime(k: Kernel, s: Step)
    requires Inv(k) && Allowed(k, s)
    ensures Next(k, s).clock.now == k.clock.now || AllLater(Next(k, s))
    ensures forall t | t in k.sleep && !(Blocks(s) && t == k.current) ::
              t in Next(k, s).sleep && Next(k, s).sleep[t] == k.sleep[t]
  {
    hide Settled, EpochsAreRight, CacheIsLow, SwitchIsSafe, Consistent, WellFormed, AllLater, Wrap;
    match s
    case TickIsr =>
      TickKeepsInv(k);
      TickTime(k);
    case DoResumeAll => ResumeTime(k);
    case _ => OtherTime(k, s);
  }

  lemma TickTime(k: Kernel)
    requires Inv(k)
    ensures TickInterrupt(k).sleep == k.sleep
    ensures k.suspended > 0 ==> TickInterrupt(k).clock.now == k.clock.now
  {
    hide Settled, EpochsAreRight, CacheIsLow, SwitchIsSafe, WellFormed, AllLater, Wrap, CountTick;
    if k.suspended == 0 {
      var j := k.(clock := k.clock.(interrupts := k.clock.interrupts + 1));
      SameButFlags(k, j);
      OneTick(j);
    }
  }

  lemma ResumeTime(k: Kernel)
    requires Inv(k) && k.suspended > 0
    ensures ResumeAll(k).sleep == k.sleep
    ensures ResumeAll(k).clock.now == k.clock.now || AllLater(ResumeAll(k))
  {
    hide Settled, EpochsAreRight, CacheIsLow, Consistent, AllLater, SwitchIsSafe;
    ResumeAllKeepsInv(k);
    var j := k.(suspended := k.suspended - 1);
    SameButFlags(k, j);
    if j.suspended == 0 {
      AfterDrainKeeps(j);
      CountTicksKeeps(AfterDrain(j), k.clock.pended);
    }
  }

  lemma OtherTime(k: Kernel, s: Step)
    requires WellFormed(k) && Allowed(k, s) && !s.TickIsr? && !s.DoResumeAll?
    ensures Next(k, s).clock.now == k.clock.now
    ensures forall t | t in k.sleep && !(Blocks(s) && t == k.current) ::
              t in Next(k, s).sleep && Next(k, s).sleep[t] == k.sleep[t]
  {
    hide WellFormed, Wrap, MoveToReady, RemoveFromEventList, RemoveFromUnorderedEventList, Notify, NotifyFromISR,
      Suspend, Resume, ResumeFromISR, AbortDelay, PrioritySet, NextMutex, ToSuspended, InsertByWake;
  }

  lemma TickWakes(k: Kernel, t: Task)
    requires Inv(k) && k.suspended == 0 && Asleep(k, t) && t in k.sleep && k.sleep[t].due > k.clock.now
    ensures var r := TickInterrupt(k);
            && r.clock.now == k.clock.now + 1
            && (!Asleep(r, t) <==> r.clock.now == k.sleep[t].due)
            && (!Asleep(r, t) ==> r.IsReady(t))
  {
    hide Settled, EpochsAreRight, CacheIsLow, SwitchIsSafe, WellFormed, AllLater, CountTick;
    var c := k.(clock := k.clock.(interrupts := k.clock.interrupts + 1));
    SameButFlags(k, c);
    OneTickWakes(c, t);
  }

  /** The same, for every tick that is counted, be it in the interrupt or when ticks held back
  are made up for. */
  lemma OneTickWakes(k: Kernel, t: Task)
    requires Core(k) && SwitchIsSafe(k) && Asleep(k, t) && t in k.sleep && k.sleep[t].due > k.clock.now
    ensures var r := CountTick(k).0;
            && r.clock.now == k.clock.now + 1
            && (!Asleep(r, t) <==> r.clock.now == k.sleep[t].due)
            && (!Asleep(r, t) ==> r.IsReady(t))
  {
    hide Settled, EpochsAreRight, CacheIsLow, SwitchIsSafe, Consistent, AllLater;
    CountTickKeeps(k);
  }
}
