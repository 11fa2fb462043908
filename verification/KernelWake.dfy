/** Blocking for a time, and waking exactly when it is over. */
module KernelWake {
  import opened Ticks
  import opened ListModel
  import opened ItemLists
  import opened Kernel
  import opened KernelProofs
  import opened KernelSteps
  import opened KernelTheorems
  import opened KernelGuarantee

  // ----- what blocking does -----

  /** From k to r the running task left its ready list, and nobody else moved. */
  ghost predicate OnlyCurrentMoved(k: Kernel, r: Kernel) {
    && k.current in r.state.container && r.current == k.current && r.clock.now == k.clock.now && r.tcb.Keys == k.tcb.Keys
    && (forall t | t in k.tcb && t != k.current ::
          t in k.state.container && t in r.state.container && r.state.container[t] == k.state.container[t]
          && t in k.sleep && t in r.sleep && r.sleep[t] == k.sleep[t])
  }

  /** A wait of the maximal length that may be indefinite puts the running task on the suspended list.
  Every other one puts it on the list of the epoch in which `ticks` ticks from now will be, to be
  woken then. */
  ghost predicate Waits(k: Kernel, r: Kernel, ticks: Tick, indefinitely: bool) {
    && OnlyCurrentMoved(k, r)
    && (r.state.container[k.current] == SuspendedList <==> ticks == MAX_DELAY && indefinitely)
    && (!(ticks == MAX_DELAY && indefinitely) ==>
          && Asleep(r, k.current)
          && k.current in r.sleep && r.sleep[k.current].due == k.clock.now + ticks
          && (r.state.container[k.current] == k.Delayed() <==> Epoch(k.clock.now + ticks) == Epoch(k.clock.now))
          && (r.state.container[k.current] == k.Overflow() <==> Epoch(k.clock.now + ticks) == Epoch(k.clock.now) + 1))
  }

  lemma BlockMeans(k: Kernel, ticks: Tick, indefinitely: bool)
    requires Inv(k)
    ensures Waits(k, BlockCurrent(k, ticks, indefinitely), ticks, indefinitely)
    ensures var r := BlockCurrent(k, ticks, indefinitely); r.event == k.event && r.tcb == k.tcb
  {
    hide Settled, EpochsAreRight, CacheIsLow, SwitchIsSafe, Consistent, SleepUntil, SleepForever;
    SleepForeverEffect(k);
    SleepUntilEffect(k, ticks);
    NewSleepEpoch(k, ticks);
  }

  /** Waiting on an event list: the running task is on it, at its place, and waits as said; the other
  event lists and everyone else are as they were. */
  lemma BlockOnEventMeans(k: Kernel, list: nat, i: nat, ticks: Tick, indefinitely: bool)
    requires Inv(k) && k.current !in k.event.container && i <= |k.event.Of(WaitingFor(list)).items|
    ensures var r, s := BlockOnEvent(k, list, i, ticks, indefinitely), k.event.Of(WaitingFor(list)).items;
            && Waits(k, r, ticks, indefinitely) && r.tcb == k.tcb
            && r.event.Of(WaitingFor(list)).items == s[..i] + [k.current] + s[i..]
            && r.event.container == k.event.container[k.current := WaitingFor(list)]
            && forall p | p != WaitingFor(list) :: r.event.Of(p) == k.event.Of(p)
  {
    hide Settled, EpochsAreRight, CacheIsLow, SwitchIsSafe, Consistent, BlockCurrent;
    PlaceKeepsInv(k, list, i);
    InsertAtKeeps(k.event, WaitingFor(list), i, k.current);
    BlockMeans(PlaceOnEventList(k, list, i), ticks, indefinitely);
  }

  /** Waiting for a notification: the task is marked as waiting for one; and if it has time it waits,
  if need be for ever, and a switch is asked for. */
  lemma NotifyWaitMeans(k: Kernel, ticks: Tick)
    requires Inv(k)
    ensures var r := NotifyWait(k, ticks);
            && r.tcb == k.tcb[k.current := k.tcb[k.current].(notify := WaitingNotification)] && r.event == k.event
            && (ticks > 0 ==> Waits(k, r, ticks, true) && r.yieldRequested)
            && (ticks == 0 ==> r.state == k.state && r.sleep == k.sleep && r.yieldRequested == k.yieldRequested)
  {
    hide Settled, EpochsAreRight, CacheIsLow, SwitchIsSafe, Consistent, BlockCurrent;
    NotifyStateKeepsInv(k, k.current, WaitingNotification);
    BlockMeans(SetNotify(k, k.current, WaitingNotification), ticks, true);
  }

  // ----- what wakes a sleeper -----

  /** A step with which the running task goes to sleep for a time. */
  predicate TimedBlock(s: Step) {
    match s
    case DoBlock(ticks, indefinitely) => ticks > 0 && !(ticks == MAX_DELAY && indefinitely)
    case DoBlockOnEvent(_, _, ticks, indefinitely) => ticks > 0 && !(ticks == MAX_DELAY && indefinitely)
    case DoNotifyWait(ticks) => 0 < ticks < MAX_DELAY
    case _ => false
  }

  /** The step concerns task t: it blocks or gives a mutex, is woken as the head of an event list, is
  notified, suspended or made to abort its delay, or was woken while the scheduler was suspended. */
  predicate Concerns(k: Kernel, s: Step, t: Task) {
    match s
    case DoBlock(_, _) => k.current == t
    case DoBlockOnEvent(_, _, _, _) => k.current == t
    case DoNotifyWait(ticks) => k.current == t && ticks > 0
    case DoRemoveFromEventList(list) => IsHead(k, list, t)
    case DoMutex(DoGive(list)) => k.current == t || IsHead(k, list, t)
    case DoRemoveFromUnordered(u) => u == t
    case DoNotify(u) => u == t
    case DoNotifyFromISR(u) => u == t
    case DoSuspend(u) => u == t
    case DoAbortDelay(u) => u == t
    case DoResumeAll => k.suspended == 1 && t in k.event.container && k.event.container[t] == PendingReady
    case _ => false
  }

  predicate IsHead(k: Kernel, list: nat, t: Task) {
    var s := k.event.Of(WaitingFor(list)).items;
    s != [] && s[0] == t
  }

  lemma TimedBlockMeans(k: Kernel, s: Step)
    requires Inv(k) && Allowed(k, s) && TimedBlock(s)
    ensures Waits(k, Next(k, s), BlockTime(s), false)
  {
    hide Settled, EpochsAreRight, CacheIsLow, SwitchIsSafe, Consistent, BlockCurrent, BlockOnEvent, NotifyWait;
    match s
    case DoBlock(ticks, indefinitely) => BlockMeans(k, ticks, indefinitely);
    case DoBlockOnEvent(list, i, ticks, indefinitely) => BlockOnEventMeans(k, list, i, ticks, indefinitely);
    case DoNotifyWait(ticks) => NotifyWaitMeans(k, ticks);
  }

  /** From k to r task t stayed on its delayed list, or stayed off them. */
  ghost predicate Undisturbed(k: Kernel, r: Kernel, t: Task) {
    && r.clock.swapped == k.clock.swapped && (Asleep(k, t) <==> Asleep(r, t))
  }

  lemma SameContainers(k: Kernel, r: Kernel, t: Task)
    requires r.state.container == k.state.container && r.clock.swapped == k.clock.swapped
    ensures Undisturbed(k, r, t)
  {
  }

  /** Only task u moved, and not to a delayed list; if it is t it was on none. */
  lemma OneMoved(k: Kernel, r: Kernel, u: Task, p: StatePlace, t: Task)
    requires r.state.container == k.state.container[u := p] && r.clock.swapped == k.clock.swapped
    requires (p.Ready? || p == SuspendedList) && (u == t ==> !Asleep(k, t))
    ensures Undisturbed(k, r, t)
  {
  }

  lemma WakingOther(k: Kernel, u: Task, t: Task)
    requires WellFormed(k) && u in k.tcb && u != t
    ensures Undisturbed(k, MoveToReady(DropEvent(k, u), u), t) && Undisturbed(k, MoveToReady(k, u), t)
    ensures Undisturbed(k, ReadyOrPend(DropEvent(k, u), u), t)
    ensures u !in k.event.container ==> Undisturbed(k, ReadyOrPend(k, u), t)
  {
    hide Consistent, MoveToReady, Undisturbed;
    DropEventEffect(k, u);
    MoveToReadyEffect(DropEvent(k, u), u);
    MoveToReadyEffect(k, u);
    OneMoved(k, MoveToReady(DropEvent(k, u), u), u, Ready(k.tcb[u].priority), t);
    OneMoved(k, MoveToReady(k, u), u, Ready(k.tcb[u].priority), t);
    SameContainers(k, Pend(DropEvent(k, u), u), t);
    if u !in k.event.container {
      SameContainers(k, Pend(k, u), t);
    }
  }

  lemma Through(k: Kernel, j: Kernel, r: Kernel, t: Task)
    requires Undisturbed(k, j, t) && r.state == j.state && r.clock.swapped == j.clock.swapped
    ensures Undisturbed(k, r, t)
  {
  }

  lemma Started(k: Kernel, j: Kernel, r: Kernel, t: Task)
    requires Undisturbed(j, r, t) && k.state == j.state && k.clock.swapped == j.clock.swapped
    ensures Undisturbed(k, r, t)
  {
  }

  lemma BlockingOther(k: Kernel, s: Step, t: Task)
    requires Inv(k) && Allowed(k, s) && t in k.tcb && !Concerns(k, s, t) && (s.DoBlock? || s.DoBlockOnEvent? || s.DoNotifyWait?)
    ensures Undisturbed(k, Next(k, s), t)
  {
    hide Settled, EpochsAreRight, CacheIsLow, SwitchIsSafe, Consistent, BlockCurrent, BlockOnEvent, NotifyWait;
    match s
    case DoBlock(ticks, indefinitely) => BlockMeans(k, ticks, indefinitely);
    case DoBlockOnEvent(list, i, ticks, indefinitely) => BlockOnEventMeans(k, list, i, ticks, indefinitely);
    case DoNotifyWait(ticks) => NotifyWaitMeans(k, ticks);
  }

  lemma RemovingOther(k: Kernel, list: nat, t: Task)
    requires WellFormed(k) && k.event.Of(WaitingFor(list)).items != [] && !IsHead(k, list, t)
    ensures Undisturbed(k, RemoveFromEventList(k, list), t)
  {
    hide Consistent, Undisturbed, ReadyOrPend;
    EventHeadIsTask(k, WaitingFor(list));
    var u := k.event.Of(WaitingFor(list)).items[0];
    WakingOther(k, u, t);
    Through(k, ReadyOrPend(DropEvent(k, u), u), RemoveFromEventList(k, list), t);
  }

  lemma NotifyingOther(k: Kernel, u: Task, t: Task)
    requires WellFormed(k) && u in k.tcb && u != t && NotifyAssertHolds(k, u)
    ensures Undisturbed(k, Notify(k, u), t) && Undisturbed(k, NotifyFromISR(k, u), t)
  {
    hide Consistent, Undisturbed, MoveToReady, ReadyOrPend;
    var j := SetNotify(k, u, Received);
    SameContainers(k, j, t);
    WakingOther(j, u, t);
    if k.tcb[u].notify == WaitingNotification {
      Started(k, j, MoveToReady(j, u), t);
      Started(k, j, ReadyOrPend(j, u), t);
      Through(k, MoveToReady(j, u), Notify(k, u), t);
      Through(k, ReadyOrPend(j, u), NotifyFromISR(k, u), t);
    }
  }

  lemma SuspendingOther(k: Kernel, u: Task, t: Task)
    requires WellFormed(k) && u in k.tcb && u != t
    ensures Undisturbed(k, Suspend(k, u), t)
  {
    hide Consistent, Undisturbed, ToSuspended;
    DropEventEffect(k, u);
    ToSuspendedEffect(DropEvent(k, u), u);
    OneMoved(k, Suspend(k, u), u, SuspendedList, t);
  }

  lemma Resuming(k: Kernel, u: Task, t: Task)
    requires WellFormed(k) && u in k.tcb
    ensures Undisturbed(k, Resume(k, u), t) && Undisturbed(k, ResumeFromISR(k, u), t)
  {
    hide Consistent, Undisturbed, MoveToReady;
    MoveToReadyEffect(k, u);
    SameContainers(k, k, t);
    if IsSuspended(k, u) {
      OneMoved(k, MoveToReady(k, u), u, Ready(k.tcb[u].priority), t);
      if u != k.current {
        Through(k, MoveToReady(k, u), Resume(k, u), t);
      }
      if k.suspended == 0 {
        Through(k, MoveToReady(k, u), ResumeFromISR(k, u), t);
      } else {
        SameContainers(k, Pend(k, u), t);
      }
    }
  }

  lemma ChangingPriority(k: Kernel, u: Task, p: nat, t: Task)
    requires Settled(k) && u in k.tcb && p < MAX_PRIORITIES
    ensures Undisturbed(k, ChangePriority(k, u, p), t)
  {
    hide ChangePriority, Settled;
    ChangePriorityEffect(k, u, p);
  }

  lemma SettingPriority(k: Kernel, u: Task, p: nat, t: Task)
    requires Inv(k) && u in k.tcb && p < MAX_PRIORITIES
    ensures Undisturbed(k, PrioritySet(k, u, p), t)
  {
    hide Settled, EpochsAreRight, CacheIsLow, SwitchIsSafe, Consistent, ChangePriority, Undisturbed;
    PrioritiesAreBounded(k, u);
    SetBaseKeepsInv(k, u, p);
    SameContainers(k, k, t);
    if k.tcb[u].base != p {
      var used := if k.tcb[u].base == k.tcb[u].priority then p else k.tcb[u].priority;
      ChangingPriority(SetBase(k, u, p), u, used, t);
      Started(k, SetBase(k, u, p), ChangePriority(SetBase(k, u, p), u, used), t);
      Through(k, ChangePriority(SetBase(k, u, p), u, used), PrioritySet(k, u, p), t);
    }
  }

  lemma MutexLeavesAlone(k: Kernel, m: MutexStep, t: Task)
    requires Inv(k) && IsTask(k, k.current) && MutexAllowed(k, m) && t in k.tcb && !Concerns(k, DoMutex(m), t)
    ensures Undisturbed(k, NextMutex(k, m), t)
  {
    hide Settled, EpochsAreRight, CacheIsLow, SwitchIsSafe, Consistent, ChangePriority, Undisturbed, Disinherit, RemoveFromEventList;
    SameContainers(k, k, t);
    match m
    case DoInherit(h) =>
      PrioritiesAreBounded(k, k.current);
      ChangingPriority(k, h, k.tcb[k.current].priority, t);
    case DoDisinheritAfterTimeout(h, p) =>
      PrioritiesAreBounded(k, h);
      ChangingPriority(k, h, PriorityToUse(k, h, p), t);
    case DoTake => SameContainers(k, TakeMutex(k), t);
    case DoGive(list) => GivingOther(k, list, t);
  }

  lemma GivingOther(k: Kernel, list: nat, t: Task)
    requires WellFormed(k) && k.tcb[k.current].held > 0 && k.current != t && !IsHead(k, list, t)
    ensures Undisturbed(k, GiveMutex(k, list), t)
  {
    hide Consistent, Undisturbed, MoveToReady, RemoveFromEventList;
    var j := Disinherit(k).0;
    DisinheritingOther(k, t);
    if j.event.Of(WaitingFor(list)).items != [] {
      RemovingOther(j, list, t);
      Joined(k, j, RemoveFromEventList(j, list), t);
      Through(k, RemoveFromEventList(j, list), GiveMutex(k, list), t);
    } else {
      Through(k, j, GiveMutex(k, list), t);
    }
  }

  lemma DisinheritingOther(k: Kernel, t: Task)
    requires WellFormed(k) && k.tcb[k.current].held > 0 && k.current != t
    ensures Undisturbed(k, Disinherit(k).0, t) && Disinherit(k).0.event == k.event
  {
    hide Consistent, MoveToReady;
    var (u, j) := (k.current, SetHeld(k, k.current, k.tcb[k.current].held - 1));
    MoveToReadyEffect(j.(tcb := j.tcb[u := j.tcb[u].(priority := k.tcb[u].base)]), u);
  }

  lemma Joined(k: Kernel, j: Kernel, r: Kernel, t: Task)
    requires Undisturbed(k, j, t) && Undisturbed(j, r, t)
    ensures Undisturbed(k, r, t)
  {
  }

  predicate WakesSomeone(s: Step) {
    || s.DoRemoveFromEventList? || s.DoRemoveFromUnordered? || s.DoNotify? || s.DoNotifyFromISR?
    || s.DoResume? || s.DoResumeFromISR? || s.DoAbortDelay?
  }

  lemma WakingLeavesAlone(k: Kernel, s: Step, t: Task)
    requires WellFormed(k) && Allowed(k, s) && t in k.tcb && !Concerns(k, s, t) && WakesSomeone(s)
    ensures Undisturbed(k, Next(k, s), t)
  {
    hide Consistent, Undisturbed, RemoveFromEventList, Notify, NotifyFromISR, Resume, ResumeFromISR, AbortDelay,
      RemoveFromUnorderedEventList;
    match s
    case DoRemoveFromEventList(list) => RemovingOther(k, list, t);
    case DoRemoveFromUnordered(u) => WakingAtOnce(k, u, t);
    case DoNotify(u) => NotifyingOther(k, u, t);
    case DoNotifyFromISR(u) => NotifyingOther(k, u, t);
    case DoResume(u) => Resuming(k, u, t);
    case DoResumeFromISR(u) => Resuming(k, u, t);
    case DoAbortDelay(u) => WakingAtOnce(k, u, t);
  }

  lemma WakingAtOnce(k: Kernel, u: Task, t: Task)
    requires WellFormed(k) && u in k.tcb && u in k.state.container && u != t
    ensures Undisturbed(k, AbortDelay(k, u), t)
    ensures u in k.event.container ==> Undisturbed(k, RemoveFromUnorderedEventList(k, u), t)
  {
    hide Consistent, Undisturbed, MoveToReady;
    var j := MoveToReady(DropEvent(k, u), u);
    SameContainers(k, k, t);
    WakingOther(k, u, t);
    Through(k, j, PendYield(j, Higher(k, u)), t);
  }

  lemma FlagsLeaveAlone(k: Kernel, s: Step, t: Task)
    requires WellFormed(k) && Allowed(k, s)
    requires s.DoYield? || s.DoSuspendAll? || s.DoCatchUp? || s.DoNotifyDone? || s.DoResetUnblock?
    ensures Undisturbed(k, Next(k, s), t)
  {
    hide Consistent;
    SameContainers(k, Next(k, s), t);
  }

  /** A step that does not concern t and counts no tick leaves t asleep or awake. */
  lemma OthersLeaveAlone(k: Kernel, s: Step, t: Task)
    requires Inv(k) && Allowed(k, s) && t in k.tcb && !Concerns(k, s, t) && !s.TickIsr? && !s.DoResumeAll?
    ensures Undisturbed(k, Next(k, s), t)
  {
    hide Settled, EpochsAreRight, CacheIsLow, SwitchIsSafe, Consistent, Undisturbed;
    hide BlockCurrent, BlockOnEvent, NotifyWait, Suspend, PrioritySet, NextMutex, MoveToReady, SwitchInterrupt;
    if WakesSomeone(s) {
      WakingLeavesAlone(k, s, t);
    } else if s.DoBlock? || s.DoBlockOnEvent? || s.DoNotifyWait? {
      BlockingOther(k, s, t);
    } else if s.SwitchIsr? {
      SwitchingLeavesAlone(k, t);
    } else if s.DoSuspend? {
      SuspendingOther(k, s.task, t);
    } else if s.DoPrioritySet? {
      SettingPriority(k, s.task, s.priority, t);
    } else if s.DoMutex? {
      MutexLeavesAlone(k, s.m, t);
    } else {
      FlagsLeaveAlone(k, s, t);
    }
  }

  lemma SwitchingLeavesAlone(k: Kernel, t: Task)
    requires WellFormed(k)
    ensures Undisturbed(k, SwitchInterrupt(k), t)
  {
  }

  // ----- waking on time -----

  lemma TickLeavesAwake(k: Kernel, t: Task)
    requires Core(k) && SwitchIsSafe(k) && t in k.tcb && !Asleep(k, t)
    ensures !Asleep(CountTick(k).0, t)
  {
    hide Settled, EpochsAreRight, CacheIsLow, SwitchIsSafe, Consistent, AllLater, CountTick;
    CountTickKeeps(k);
  }

  /** A tick interrupt, or the resuming of the scheduler, wakes a sleeper exactly if its time has come;
  and it puts nobody to sleep. */
  lemma TimeWakes(k: Kernel, s: Step, t: Task)
    requires Inv(k) && Allowed(k, s) && t in k.tcb && !Concerns(k, s, t) && (s.TickIsr? || s.DoResumeAll?)
    requires Asleep(k, t) ==> t in k.sleep && k.sleep[t].due > k.clock.now
    ensures var r := Next(k, s);
            && (Asleep(r, t) <==> Asleep(k, t) && t in k.sleep && k.sleep[t].due > r.clock.now)
            && (Asleep(k, t) && !Asleep(r, t) ==> r.IsReady(t)) && r.clock.now >= k.clock.now
  {
    hide Settled, EpochsAreRight, CacheIsLow, SwitchIsSafe, Consistent, AllLater, CountTick, ResumeAll, WellFormed;
    if s.TickIsr? {
      if k.suspended == 0 {
        var c := k.(clock := k.clock.(interrupts := k.clock.interrupts + 1));
        SameButFlags(k, c);
        OneTick(c);
        if Asleep(k, t) {
          OneTickWakes(c, t);
        } else {
          TickLeavesAwake(c, t);
        }
      }
    } else {
      ResumeWakes(k, t);
    }
  }

  lemma ResumeWakes(k: Kernel, t: Task)
    requires Inv(k) && k.suspended > 0 && t in k.tcb && !Concerns(k, DoResumeAll, t)
    requires Asleep(k, t) ==> t in k.sleep && k.sleep[t].due > k.clock.now
    ensures var r := ResumeAll(k);
            && (Asleep(r, t) <==> Asleep(k, t) && t in k.sleep && k.sleep[t].due > r.clock.now)
            && (Asleep(k, t) && !Asleep(r, t) ==> r.IsReady(t)) && r.clock.now >= k.clock.now
  {
    hide Settled, EpochsAreRight, CacheIsLow, SwitchIsSafe, Consistent, AllLater, CountTicks, AfterDrain;
    if k.suspended == 1 {
      ResumingMakesUp(k);
      if Asleep(k, t) {
        WokenSleeper(k, ResumeAll(k), t);
      }
    }
  }

  /** A task that blocks for d > 0 ticks at time T, in whatever way, and that no step concerns before,
  is on the delayed lists exactly until time T + d has been counted, across any number of
  overflows, and whether ticks are counted as they come or made up for. */
  lemma {:induction false} WakesOnTime(ks: seq<Kernel>, steps: seq<Step>, i: nat, j: nat, t: Task)
    requires IsRun(ks, steps) && i < j < |ks| && TimedBlock(steps[i]) && t == ks[i].current
    requires forall m | i < m < j :: !Concerns(ks[m], steps[m], t)
    ensures t in ks[j].tcb && t in ks[j].sleep && ks[j].sleep[t].due == ks[i].clock.now + BlockTime(steps[i])
    ensures Asleep(ks[j], t) <==> ks[j].clock.now < ks[i].clock.now + BlockTime(steps[i])
  {
    hide Inv, Next, Allowed, WellFormed, Asleep, Concerns, Initial;
    EveryStateIsSound(ks, steps, j - 1);
    assert StepsTo(ks[j - 1], steps[j - 1], ks[j]);
    if j == i + 1 {
      FallsAsleep(ks[i], steps[i]);
    } else {
      WakesOnTime(ks, steps, i, j - 1, t);
      OneStepOn(ks[j - 1], steps[j - 1], t);
    }
  }

  lemma FallsAsleep(k: Kernel, s: Step)
    requires Inv(k) && Allowed(k, s) && TimedBlock(s)
    ensures var r, t := Next(k, s), k.current;
            && t in r.tcb && t in r.sleep && r.sleep[t].due == k.clock.now + BlockTime(s) && Asleep(r, t)
            && r.clock.now == k.clock.now
  {
    hide Settled, EpochsAreRight, CacheIsLow, SwitchIsSafe, Consistent, Next;
    TimedBlockMeans(k, s);
  }

  lemma NotItsBlock(k: Kernel, s: Step, t: Task)
    requires !Concerns(k, s, t)
    ensures !(Blocks(s) && t == k.current)
  {
  }

  lemma OneStepOn(k: Kernel, s: Step, t: Task)
    requires Inv(k) && Allowed(k, s) && t in k.tcb && t in k.sleep && !Concerns(k, s, t)
    requires Asleep(k, t) <==> k.clock.now < k.sleep[t].due
    ensures var r := Next(k, s);
            && t in r.tcb && t in r.sleep && r.sleep[t] == k.sleep[t]
            && (Asleep(r, t) <==> r.clock.now < r.sleep[t].due)
            && (Asleep(k, t) && !Asleep(r, t) ==> r.IsReady(t)) && r.clock.now >= k.clock.now
  {
    hide Settled, EpochsAreRight, CacheIsLow, SwitchIsSafe, Consistent, Asleep, Next, Allowed;
    StepTime(k, s);
    NotItsBlock(k, s, t);
    if s.TickIsr? || s.DoResumeAll? {
      TimeWakes(k, s, t);
    } else {
      OthersLeaveAlone(k, s, t);
      OtherTime(k, s);
    }
  }

  /** It leaves the delayed lists in exactly the step that counts tick T + d, be it that tick's
  interrupt or the outermost resume, and is ready then. */
  lemma ExactWake(ks: seq<Kernel>, steps: seq<Step>, i: nat, j: nat, t: Task)
    requires IsRun(ks, steps) && i < j < |steps| && TimedBlock(steps[i]) && t == ks[i].current
    requires forall m | i < m <= j :: !Concerns(ks[m], steps[m], t)
    ensures Asleep(ks[j], t) && !Asleep(ks[j + 1], t) <==>
              ks[j].clock.now < ks[i].clock.now + BlockTime(steps[i]) <= ks[j + 1].clock.now
    ensures Asleep(ks[j], t) && !Asleep(ks[j + 1], t) ==> ks[j + 1].IsReady(t)
  {
    hide Inv, Next, Allowed, WellFormed, Asleep, Concerns, Initial;
    WakesOnTime(ks, steps, i, j, t);
    WakesOnTime(ks, steps, i, j + 1, t);
    EveryStateIsSound(ks, steps, j);
    assert StepsTo(ks[j], steps[j], ks[j + 1]);
    OneStepOn(ks[j], steps[j], t);
  }
}
