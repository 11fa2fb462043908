/** Who runs: the scheduler's guarantee. */
module KernelGuarantee {
  /// Also what suspending the scheduler holds back, and where a mutex breaks the guarantee.

  import opened Ticks
  import opened ListModel
  import opened ItemLists
  import opened Kernel
  import opened KernelProofs
  import opened KernelSteps
  import opened KernelTheorems

  /** Unless a switch is pending or requested, no ready task outranks the running one. */
  ghost predicate Guarantee(k: Kernel) {
    k.yieldPending || k.yieldRequested || TopRuns(k)
  }

  // ----- building blocks -----

  lemma WakeKeepsTop(k: Kernel, t: Task)
    requires WellFormed(k) && t in k.tcb && TopRuns(k) && k.tcb[t].priority <= k.tcb[k.current].priority
    ensures TopRuns(MoveToReady(DropEvent(k, t), t))
  {
    DropEventEffect(k, t);
    MoveToReadyEffect(DropEvent(k, t), t);
  }

  /** Waking a task keeps the guarantee if outranking the running task asks for a switch. */
  lemma WakeKeepsGuarantee(k: Kernel, t: Task, wanted: bool)
    requires WellFormed(k) && t in k.tcb && Guarantee(k)
    requires k.tcb[t].priority > k.tcb[k.current].priority ==> wanted
    ensures Guarantee(PendYield(MoveToReady(DropEvent(k, t), t), wanted))
    ensures Guarantee(Yield(MoveToReady(DropEvent(k, t), t), wanted))
    ensures Guarantee(PendYield(ReadyOrPend(DropEvent(k, t), t), wanted))
  {
    hide WellFormed;
    DropEventEffect(k, t);
    MoveToReadyEffect(DropEvent(k, t), t);
    if TopRuns(k) && !wanted {
      WakeKeepsTop(k, t);
    }
  }

  lemma SameReadyKeepsGuarantee(k: Kernel, r: Kernel)
    requires Guarantee(k) && r.current == k.current && r.yieldPending == k.yieldPending && r.yieldRequested == k.yieldRequested
    requires forall t | r.IsReady(t) :: k.IsReady(t)
    requires r.tcb.Keys == k.tcb.Keys && forall t | t in k.tcb :: r.tcb[t].priority == k.tcb[t].priority
    ensures Guarantee(r)
  {
  }

  // ----- ticks -----

  /** xTaskIncrementTick asks for a switch exactly if a task it readied may run, a task of the same
  priority waits for its turn, or a yield was held back. */
  lemma TickAsksForSwitch(k: Kernel)
    requires Core(k) && SwitchIsSafe(k)
    ensures CountTick(k).1 <==>
              || (exists t :: WakesNext(k, t) && t in k.tcb && k.tcb[t].priority >= k.tcb[k.current].priority)
              || ReadyPeers(CountTick(k).0) > 1
              || CountTick(k).0.yieldPending
  {
    hide Settled, EpochsAreRight, CacheIsLow, SwitchIsSafe, Consistent, AllLater;
    var a := Advance(k);
    AdvanceKeeps(k);
    CountedIsSettled(a);
    ExpireCounted(a);
    ExpireIsFullScan(a, false);
    DueIsWaking(k, a);
  }

  lemma CountedIsSettled(a: Kernel)
    requires Counted(a)
    ensures Settled(a)
  {
  }

  lemma DueIsWaking(k: Kernel, a: Kernel)
    requires OnlyCounted(k, a) && k.current in k.tcb
    requires forall t :: IsDue(a, t) <==> WakesNext(k, t)
    ensures SomeoneDueOutranks(a)
            <==> exists t :: WakesNext(k, t) && t in k.tcb && k.tcb[t].priority >= k.tcb[k.current].priority
  {
    if SomeoneDueOutranks(a) {
      var t :| IsDue(a, t) && t in a.tcb && a.tcb[t].priority >= a.tcb[a.current].priority;
      assert WakesNext(k, t);
    }
    if t :| WakesNext(k, t) && t in k.tcb && k.tcb[t].priority >= k.tcb[k.current].priority {
      assert IsDue(a, t);
    }
  }

  lemma TickKeepsGuarantee(k: Kernel)
    requires Core(k) && SwitchIsSafe(k) && Guarantee(k)
    ensures var (c, s) := CountTick(k); Guarantee(PendYield(c, s)) && Guarantee(Yield(c, s))
  {
    hide Settled, EpochsAreRight, CacheIsLow, SwitchIsSafe, Consistent, AllLater;
    TickAsksForSwitch(k);
    CountTickKeeps(k);
    TickKeepsTop(k, CountTick(k).0);
  }

  lemma TickKeepsTop(k: Kernel, c: Kernel)
    requires WellFormed(k) && WellFormed(c) && TickReadied(k, c)
    ensures TopRuns(k) && !TopRuns(c) ==>
              exists t :: WakesNext(k, t) && t in k.tcb && k.tcb[t].priority >= k.tcb[k.current].priority
  {
    if TopRuns(k) && !TopRuns(c) {
      var t :| c.IsReady(t) && !(t in c.tcb && c.tcb[t].priority <= c.tcb[c.current].priority);
      assert t in k.tcb;
      assert WakesNext(k, t) || k.IsReady(t);
    }
  }

  lemma {:induction false} DrainKeepsGuarantee(k: Kernel)
    requires Core(k) && Guarantee(k)
    ensures Guarantee(DrainPending(k))
    decreases |k.Pending()|
  {
    hide Settled, EpochsAreRight, CacheIsLow, SwitchIsSafe, Consistent, TopRuns;
    if k.Pending() != [] {
      EventHeadIsTask(k, PendingReady);
      var t := k.Pending()[0];
      WakeKeepsGuarantee(k, t, k.tcb[t].priority >= k.tcb[k.current].priority);
      DrainOneKeeps(k);
      DrainKeepsGuarantee(DrainOne(k));
    }
  }

  lemma {:induction false} CountTicksKeepGuarantee(k: Kernel, n: nat)
    requires Core(k) && SwitchIsSafe(k) && Guarantee(k)
    ensures Guarantee(CountTicks(k, n))
    decreases n
  {
    hide Settled, EpochsAreRight, CacheIsLow, SwitchIsSafe, Consistent, TopRuns, Guarantee, CountTick;
    if n > 0 {
      TickKeepsGuarantee(k);
      OneTick(k);
      var (c, s) := CountTick(k);
      SameButFlags(c, PendYield(c, s));
      CountTicksKeepGuarantee(PendYield(c, s), n - 1);
    }
  }

  lemma ResumeKeepsGuarantee(k: Kernel)
    requires Inv(k) && k.suspended > 0 && Guarantee(k)
    ensures Guarantee(ResumeAll(k))
  {
    hide Settled, EpochsAreRight, CacheIsLow, SwitchIsSafe, Consistent, AllLater;
    var j := k.(suspended := k.suspended - 1);
    SameButFlags(k, j);
    SameReadyKeepsGuarantee(k, j);
    if j.suspended == 0 {
      AfterDrainKeeps(j);
      AfterDrainKeepsGuarantee(j);
      var d := AfterDrain(j);
      CountTicksKeepGuarantee(d, d.clock.pended);
      var c := CountTicks(d, d.clock.pended);
      var e := c.(clock := c.clock.(pended := 0));
      SameReadyKeepsGuarantee(c, e);
      assert ResumeAll(k) == Yield(e, c.yieldPending);
      YieldKeepsGuarantee(e, c.yieldPending);
    }
  }

  lemma YieldKeepsGuarantee(k: Kernel, wanted: bool)
    requires Guarantee(k)
    ensures Guarantee(Yield(k, wanted)) && Guarantee(PendYield(k, wanted))
  {
  }

  lemma AfterDrainKeepsGuarantee(j: Kernel)
    requires Core(j) && Guarantee(j)
    ensures Guarantee(AfterDrain(j))
  {
    hide Settled, EpochsAreRight, CacheIsLow, SwitchIsSafe, Consistent, AllLater;
    DrainKeepsGuarantee(j);
    DrainKeepsCore(j);
    ResetKeeps(DrainPending(j));
    SameReadyKeepsGuarantee(DrainPending(j), ResetNextUnblock(DrainPending(j)));
  }

  // ----- every step that involves no mutex -----

  lemma BlockKeepsGuarantee(k: Kernel, ticks: Tick, indefinitely: bool)
    requires WellFormed(k) && Guarantee(k)
    ensures Guarantee(BlockCurrent(k, ticks, indefinitely))
  {
    hide WellFormed, BlockCurrent;
    BlockEffect(k, ticks, indefinitely);
    SameReadyKeepsGuarantee(k, BlockCurrent(k, ticks, indefinitely));
  }

  lemma NotifyKeepsGuarantee(k: Kernel, t: Task)
    requires WellFormed(k) && Guarantee(k) && IsTask(k, t) && NotifyAssertHolds(k, t)
    ensures Guarantee(Notify(k, t)) && Guarantee(NotifyFromISR(k, t))
  {
    hide Consistent, TopRuns, MoveToReady, Pend;
    var j := SetNotify(k, t, Received);
    SameReady(k, j);
    WakeKeepsGuarantee(j, t, Higher(k, t));
  }

  lemma SameReady(k: Kernel, j: Kernel)
    requires Guarantee(k) && j == k.(tcb := j.tcb, event := j.event)
    requires j.tcb.Keys == k.tcb.Keys && forall t | t in k.tcb :: j.tcb[t].priority == k.tcb[t].priority
    ensures Guarantee(j)
  {
    SameReadyKeepsGuarantee(k, j);
  }

  lemma SuspendKeepsGuarantee(k: Kernel, t: Task)
    requires WellFormed(k) && Guarantee(k) && t in k.tcb
    ensures Guarantee(Suspend(k, t))
  {
    hide Consistent;
    DropEventEffect(k, t);
    ToSuspendedEffect(DropEvent(k, t), t);
    SameReadyKeepsGuarantee(k, Suspend(k, t));
  }

  lemma ResumeOneKeepsGuarantee(k: Kernel, t: Task)
    requires WellFormed(k) && Guarantee(k) && IsTask(k, t)
    ensures Guarantee(Resume(k, t)) && Guarantee(ResumeFromISR(k, t)) && Guarantee(AbortDelay(k, t))
  {
    hide Consistent, TopRuns, MoveToReady;
    WakeKeepsGuarantee(k, t, k.tcb[t].priority >= k.tcb[k.current].priority);
    WakeKeepsGuarantee(k, t, Higher(k, t));
    if IsSuspended(k, t) {
      PendKeepsTop(k, t);
    }
  }

  lemma PendKeepsTop(k: Kernel, t: Task)
    requires WellFormed(k) && t in k.tcb && t !in k.event.container && Guarantee(k)
    ensures Guarantee(Pend(k, t))
  {
    SameReadyKeepsGuarantee(k, Pend(k, t));
  }

  lemma RemoveKeepsGuarantee(k: Kernel, list: nat)
    requires WellFormed(k) && Guarantee(k) && k.event.Of(WaitingFor(list)).items != []
    ensures Guarantee(RemoveFromEventList(k, list))
  {
    hide Consistent, TopRuns, MoveToReady, Pend;
    EventHeadIsTask(k, WaitingFor(list));
    var t := k.event.Of(WaitingFor(list)).items[0];
    WakeKeepsGuarantee(k, t, Higher(k, t));
    DropEventEffect(k, t);
  }

  /** Changing a priority keeps the guarantee unless another ready task is raised above the running
  one, or the running one is lowered, without a switch being asked for. */
  lemma ChangeKeepsGuarantee(k: Kernel, t: Task, p: nat, wanted: bool)
    requires Settled(k) && Guarantee(k) && t in k.tcb && p < MAX_PRIORITIES
    requires t != k.current && p > k.tcb[t].priority && p > k.tcb[k.current].priority ==> wanted
    requires t == k.current && p < k.tcb[t].priority ==> wanted
    ensures Guarantee(Yield(ChangePriority(k, t, p), wanted))
  {
    hide Settled, ChangePriority;
    ChangePriorityEffect(k, t, p);
  }

  lemma PrioritySetKeepsGuarantee(k: Kernel, t: Task, p: nat)
    requires Inv(k) && Guarantee(k) && t in k.tcb && p < MAX_PRIORITIES
    ensures Guarantee(PrioritySet(k, t, p))
  {
    hide Settled, EpochsAreRight, CacheIsLow, SwitchIsSafe, Consistent, ChangePriority, TopRuns;
    PrioritiesAreBounded(k, t);
    SetBaseKeepsInv(k, t, p);
    var j := SetBase(k, t, p);
    SameReady(k, j);
    var used := if k.tcb[t].base == k.tcb[t].priority then p else k.tcb[t].priority;
    var mustSwitch :=
      if p > k.tcb[t].base then t != k.current && p >= k.tcb[k.current].priority else t == k.current;
    ChangeKeepsGuarantee(j, t, used, mustSwitch);
  }

  /** Every step but those of a mutex keeps the guarantee. */
  lemma StepKeepsGuarantee(k: Kernel, s: Step)
    requires Inv(k) && Allowed(k, s) && Guarantee(k) && !s.DoMutex?
    ensures Guarantee(Next(k, s))
  {
    hide Settled, EpochsAreRight, CacheIsLow, SwitchIsSafe, Consistent, TopRuns;
    hide SwitchInterrupt, ResumeAll, BlockCurrent, RemoveFromEventList, CountTick,
      Notify, NotifyFromISR, Suspend, ResetNextUnblock, Resume, ResumeFromISR, AbortDelay, PrioritySet, MoveToReady;
    match s
    case TickIsr => TickInterruptKeepsGuarantee(k);
    case SwitchIsr => SwitchEstablishesGuarantee(k);
    case DoYield => YieldKeepsGuarantee(k, true);
    case DoResumeAll => ResumeKeepsGuarantee(k);
    case DoBlock(ticks, indefinitely) => BlockKeepsGuarantee(k, ticks, indefinitely);
    case DoBlockOnEvent(list, i, ticks, indefinitely) =>
      SameReadyKeepsGuarantee(k, PlaceOnEventList(k, list, i));
      BlockKeepsGuarantee(PlaceOnEventList(k, list, i), ticks, indefinitely);
    case DoRemoveFromEventList(list) => RemoveKeepsGuarantee(k, list);
    case DoRemoveFromUnordered(t) => WakeKeepsGuarantee(k, t, Higher(k, t));
    case DoNotifyWait(ticks) => SameReady(k, SetNotify(k, k.current, WaitingNotification));
    case DoNotify(t) => NotifyKeepsGuarantee(k, t);
    case DoNotifyFromISR(t) => NotifyKeepsGuarantee(k, t);
    case DoSuspend(t) => SuspendKeepsGuarantee(k, t);
    case DoResume(t) => ResumeOneKeepsGuarantee(k, t);
    case DoResumeFromISR(t) => ResumeOneKeepsGuarantee(k, t);
    case DoAbortDelay(t) => ResumeOneKeepsGuarantee(k, t);
    case DoPrioritySet(t, p) => PrioritySetKeepsGuarantee(k, t, p);
    case _ => ClockStepsKeepGuarantee(k, s);
  }

  lemma ClockStepsKeepGuarantee(k: Kernel, s: Step)
    requires Inv(k) && Allowed(k, s) && Guarantee(k)
    requires s.DoSuspendAll? || s.DoCatchUp? || s.DoResetUnblock? || s.DoNotifyDone?
    ensures Guarantee(Next(k, s))
  {
    hide Settled, EpochsAreRight, CacheIsLow, SwitchIsSafe, Consistent;
    ResetKeeps(k);
    SameReadyKeepsGuarantee(k, Next(k, s));
  }

  lemma TickInterruptKeepsGuarantee(k: Kernel)
    requires Inv(k) && Guarantee(k)
    ensures Guarantee(TickInterrupt(k))
  {
    hide Settled, EpochsAreRight, CacheIsLow, SwitchIsSafe, Consistent, CountTick;
    var j := k.(clock := k.clock.(interrupts := k.clock.interrupts + 1));
    SameButFlags(k, j);
    SameReadyKeepsGuarantee(k, j);
    if k.suspended == 0 {
      TickKeepsGuarantee(j);
    } else {
      SameReadyKeepsGuarantee(k, TickInterrupt(k));
    }
  }

  lemma SwitchEstablishesGuarantee(k: Kernel)
    requires Inv(k) && Guarantee(k)
    ensures Guarantee(SwitchInterrupt(k))
  {
    SwitchKeepsInv(k);
  }

  // ----- mutexes -----

  /** Boosting a holder to the running task's own priority is harmless. */
  lemma InheritKeepsGuarantee(k: Kernel, holder: Task)
    requires Inv(k) && Guarantee(k) && holder in k.tcb
    ensures Guarantee(Inherit(k, holder))
  {
    hide Settled, EpochsAreRight, CacheIsLow, SwitchIsSafe, Consistent, ChangePriority, TopRuns;
    var p := k.tcb[k.current].priority;
    PrioritiesAreBounded(k, k.current);
    ChangeKeepsGuarantee(k, holder, p, false);
    UnYield(ChangePriority(k, holder, p));
  }

  lemma UnYield(k: Kernel)
    requires Guarantee(Yield(k, false))
    ensures Guarantee(k)
  {
    SameReadyKeepsGuarantee(Yield(k, false), k);
  }

  /** The case in which the code ignores that giving the mutex lowered the giver: it was boosted,
  this was its last mutex, and a waiter is there to be woken that does not outrank it any more
  (the `else if` of line 919 of queue.c is then not reached). */
  predicate GiveForgetsYield(k: Kernel, list: nat)
    requires WellFormed(k)
  {
    var me := k.tcb[k.current];
    && me.priority != me.base && me.held == 1
    && k.event.Of(WaitingFor(list)).items != []
    && var w := k.event.Of(WaitingFor(list)).items[0];
       w in k.tcb && k.tcb[w].priority <= me.base
  }

  /** Giving a mutex keeps the guarantee exactly unless the code forgets the yield while some other
  ready task outranks the giver's base priority. */
  lemma GiveKeepsGuaranteeIff(k: Kernel, list: nat)
    requires Inv(k) && Guarantee(k) && k.tcb[k.current].held > 0 && k.current !in k.event.container
    ensures Guarantee(GiveMutex(k, list)) <==>
              || k.yieldPending || k.yieldRequested
              || !GiveForgetsYield(k, list)
              || forall t | k.IsReady(t) && t != k.current && t in k.tcb :: k.tcb[t].priority <= k.tcb[k.current].base
  {
    hide Settled, EpochsAreRight, CacheIsLow, SwitchIsSafe, Consistent, Disinherit, RemoveFromEventList;
    DisinheritKeepsInv(k);
    DisinheritEffect(k);
    var (j, moved) := Disinherit(k);
    if j.event.Of(WaitingFor(list)).items != [] {
      EventHeadIsTask(j, WaitingFor(list));
      EventHeadIsTask(k, WaitingFor(list));
      RemoveEffect(j, list);
    }
  }

  /** The case in which a time-out raises the holder of the mutex above the running task: it is
  ready, and lower than a task that waits since before it took the mutex. */
  predicate TimeoutRaises(k: Kernel, holder: Task, highest: nat)
    requires holder in k.tcb && k.current in k.tcb
  {
    && DisinheritMoves(k, holder, highest) && holder != k.current && k.IsReady(holder)
    && PriorityToUse(k, holder, highest) > k.tcb[k.current].priority
  }

  /** Lowering the holder after a time-out keeps the guarantee exactly unless it is raised above the
  running task instead. */
  lemma AfterTimeoutKeepsGuaranteeIff(k: Kernel, holder: Task, highest: nat)
    requires Inv(k) && Guarantee(k) && IsTask(k, k.current) && MutexAllowed(k, DoDisinheritAfterTimeout(holder, highest))
    ensures Guarantee(DisinheritAfterTimeout(k, holder, highest)) <==>
              k.yieldPending || k.yieldRequested || !TimeoutRaises(k, holder, highest)
  {
    hide Settled, EpochsAreRight, CacheIsLow, SwitchIsSafe, Consistent, ChangePriority;
    PrioritiesAreBounded(k, holder);
    if DisinheritMoves(k, holder, highest) {
      ChangePriorityEffect(k, holder, PriorityToUse(k, holder, highest));
    }
  }

  /** Is this none of the cases in which a mutex breaks the guarantee?  The giver is running, so it
  is on no event list. */
  predicate Harmless(k: Kernel, s: Step)
    requires WellFormed(k) && Allowed(k, s)
  {
    match s
    case DoMutex(DoGive(list)) => k.current !in k.event.container && !GiveForgetsYield(k, list)
    case DoMutex(DoDisinheritAfterTimeout(h, p)) => !TimeoutRaises(k, h, p)
    case _ => true
  }

  lemma HarmlessKeepsGuarantee(k: Kernel, s: Step)
    requires Inv(k) && Allowed(k, s) && Guarantee(k) && Harmless(k, s)
    ensures Guarantee(Next(k, s))
  {
    hide Settled, EpochsAreRight, CacheIsLow, SwitchIsSafe, Consistent, TopRuns, Inherit, DisinheritAfterTimeout, GiveMutex;
    match s
    case DoMutex(DoInherit(h)) => InheritKeepsGuarantee(k, h);
    case DoMutex(DoDisinheritAfterTimeout(h, p)) => AfterTimeoutKeepsGuaranteeIff(k, h, p);
    case DoMutex(DoGive(list)) => GiveKeepsGuaranteeIff(k, list);
    case DoMutex(DoTake) => SameReady(k, TakeMutex(k));
    case _ => StepKeepsGuarantee(k, s);
  }

  ghost predicate HarmlessRun(ks: seq<Kernel>, steps: seq<Step>) {
    |ks| == |steps| + 1
    && forall i | 0 <= i < |steps| :: StepsTo(ks[i], steps[i], ks[i + 1]) && Harmless(ks[i], steps[i])
  }

  /** Whenever no switch is pending or requested the running task has at least the priority of every
  ready task: in every run without mutexes, and in every run in which no mutex forgets a yield. */
  lemma {:induction false} HighestPriorityRuns(ks: seq<Kernel>, steps: seq<Step>, n: nat)
    requires IsRun(ks, steps) && HarmlessRun(ks, steps) && n < |ks|
    ensures ks[n].yieldPending || ks[n].yieldRequested || TopRuns(ks[n])
  {
    hide Inv, Next, Allowed, WellFormed, TopRuns, Harmless, Initial;
    if n > 0 {
      HighestPriorityRuns(ks, steps, n - 1);
      EveryStateIsSound(ks, steps, n - 1);
      assert StepsTo(ks[n - 1], steps[n - 1], ks[n]);
      HarmlessKeepsGuarantee(ks[n - 1], steps[n - 1]);
    } else {
      InitialIsSound(ks[0]);
    }
  }

  lemma MutexFreeIsHarmless(ks: seq<Kernel>, steps: seq<Step>)
    requires IsRun(ks, steps) && forall i | 0 <= i < |steps| :: !steps[i].DoMutex?
    ensures HarmlessRun(ks, steps)
  {
    hide Next, WellFormed, Allowed;
  }

  lemma RemoveEffect(j: Kernel, list: nat)
    requires WellFormed(j) && j.event.Of(WaitingFor(list)).items != []
    ensures var r, w := RemoveFromEventList(j, list), j.event.Of(WaitingFor(list)).items[0];
            && w in j.tcb
            && r.tcb == j.tcb && r.current == j.current && r.yieldRequested == j.yieldRequested
            && r.yieldPending == (j.yieldPending || Higher(j, w))
            && (forall t | t != w :: r.IsReady(t) <==> j.IsReady(t))
            && (r.IsReady(w) <==> j.IsReady(w) || j.suspended == 0)
  {
    hide Consistent;
    EventHeadIsTask(j, WaitingFor(list));
    var w := j.event.Of(WaitingFor(list)).items[0];
    DropEventEffect(j, w);
    MoveToReadyEffect(DropEvent(j, w), w);
  }

  // ----- suspending the scheduler is transparent -----

  /** The steps of interrupts. */
  predicate IsInterrupt(s: Step) {
    s.TickIsr? || s.SwitchIsr? || s.DoRemoveFromEventList? || s.DoNotifyFromISR? || s.DoResumeFromISR?
  }

  ghost predicate ListsAlone(k: Kernel, r: Kernel) {
    && r.state == k.state && r.sleep == k.sleep && r.current == k.current && r.top == k.top
    && r.clock.tick == k.clock.tick && r.clock.now == k.clock.now && r.suspended == k.suspended
  }

  /** While the scheduler is suspended interrupts move no task between state lists, change no wake
  time and do not touch the tick count or the running task. */
  lemma InterruptsLeaveListsAlone(k: Kernel, s: Step)
    requires WellFormed(k) && Allowed(k, s) && IsInterrupt(s) && k.suspended > 0
    ensures ListsAlone(k, Next(k, s))
  {
    hide Consistent, MoveToReady, CountTick, RemoveFromEventList, NotifyFromISR;
    match s
    case DoRemoveFromEventList(list) => RemoveLeavesAlone(k, list);
    case DoNotifyFromISR(t) => NotifyLeavesAlone(k, t);
    case _ =>
  }

  lemma RemoveLeavesAlone(k: Kernel, list: nat)
    requires WellFormed(k) && k.event.Of(WaitingFor(list)).items != [] && k.suspended > 0
    ensures ListsAlone(k, RemoveFromEventList(k, list))
  {
    hide Consistent, MoveToReady;
    EventHeadIsTask(k, WaitingFor(list));
  }

  lemma NotifyLeavesAlone(k: Kernel, t: Task)
    requires WellFormed(k) && IsTask(k, t) && NotifyAssertHolds(k, t) && k.suspended > 0
    ensures ListsAlone(k, NotifyFromISR(k, t))
  {
    hide Consistent, MoveToReady;
  }

  /** The tasks held pending. */
  ghost function PendingTasks(k: Kernel): iset<Task> {
    iset t | t in k.event.container && k.event.container[t] == PendingReady
  }

  /** The sleepers whose wake time comes in the next n ticks. */
  ghost function DueTasks(k: Kernel, n: nat): iset<Task> {
    iset t | t in k.sleep && Asleep(k, t) && n > 0 && k.sleep[t].due <= k.clock.now + n
  }

  /** From k to r the tasks of `woken` became ready and left the event lists; nobody else moved. */
  ghost predicate OnlyWoken(k: Kernel, r: Kernel, woken: iset<Task>) {
    && r.tcb == k.tcb && r.sleep == k.sleep
    && (forall t | t in k.tcb :: t in r.state.container && t in k.state.container
          && r.state.container[t] == if t in woken then Ready(k.tcb[t].priority) else k.state.container[t])
    && (forall t :: t in r.event.container <==> t in k.event.container && t !in woken)
    && (forall t | t in r.event.container :: r.event.container[t] == k.event.container[t])
  }

  lemma WokenThen(k: Kernel, d: Kernel, r: Kernel, a: iset<Task>, b: iset<Task>)
    requires OnlyWoken(k, d, a) && OnlyWoken(d, r, b)
    ensures OnlyWoken(k, r, a + b)
  {
  }

  lemma DrainOneWakes(k: Kernel)
    requires WellFormed(k) && k.Pending() != []
    ensures OnlyWoken(k, DrainOne(k), iset{k.Pending()[0]})
    ensures PendingTasks(k) == iset{k.Pending()[0]} + PendingTasks(DrainOne(k))
  {
    hide Consistent;
    EventHeadIsTask(k, PendingReady);
    var t := k.Pending()[0];
    MoveToReadyEffect(DropEvent(k, t), t);
    DropEventEffect(k, t);
  }

  lemma NobodyPending(k: Kernel)
    requires WellFormed(k) && k.Pending() == []
    ensures PendingTasks(k) == iset{}
  {
    assert forall t | t in PendingTasks(k) :: k.event.Holds(PendingReady, t);
  }

  lemma NobodyWoken(k: Kernel)
    requires WellFormed(k)
    ensures OnlyWoken(k, k, iset{})
  {
    hide Consistent;
  }

  lemma {:induction false} DrainWakes(k: Kernel)
    requires Core(k)
    ensures OnlyWoken(k, DrainPending(k), PendingTasks(k))
    decreases |k.Pending()|
  {
    hide Settled, EpochsAreRight, CacheIsLow, SwitchIsSafe, WellFormed, AllLater, OnlyWoken, PendingTasks, DrainOne;
    if k.Pending() == [] {
      NobodyPending(k);
      NobodyWoken(k);
    } else {
      DrainOneKeeps(k);
      DrainOneWakes(k);
      DrainWakes(DrainOne(k));
      WokenThen(k, DrainOne(k), DrainPending(k), iset{k.Pending()[0]}, PendingTasks(DrainOne(k)));
    }
  }

  lemma AfterDrainWakes(k: Kernel)
    requires Core(k)
    ensures OnlyWoken(k, AfterDrain(k), PendingTasks(k))
  {
    hide Settled, EpochsAreRight, CacheIsLow, SwitchIsSafe, WellFormed, AllLater, OnlyWoken, PendingTasks;
    DrainWakes(k);
    DrainKeepsCore(k);
    ResetKeeps(DrainPending(k));
    SameTasks(k, DrainPending(k), AfterDrain(k), PendingTasks(k));
  }

  lemma SameTasks(k: Kernel, c: Kernel, r: Kernel, woken: iset<Task>)
    requires OnlyWoken(k, c, woken) && r.state == c.state && r.event == c.event && r.tcb == c.tcb && r.sleep == c.sleep
    ensures OnlyWoken(k, r, woken)
  {
  }

  lemma TickWakes(k: Kernel)
    requires Core(k) && SwitchIsSafe(k)
    ensures var (c, s) := CountTick(k);
            OnlyWoken(k, PendYield(c, s), DueTasks(k, 1))
  {
    hide Settled, EpochsAreRight, CacheIsLow, SwitchIsSafe, AllLater, CountTick;
    CountTickKeeps(k);
  }

  lemma DueLater(k: Kernel, d: Kernel, n: nat)
    requires WellFormed(k) && WellFormed(d) && n > 0 && d.clock.now == k.clock.now + 1
    requires OnlyWoken(k, d, DueTasks(k, 1))
    ensures DueTasks(k, n) == DueTasks(k, 1) + DueTasks(d, n - 1)
  {
    hide Consistent;
  }

  lemma {:induction false} TicksWake(k: Kernel, n: nat)
    requires Core(k) && SwitchIsSafe(k)
    ensures OnlyWoken(k, CountTicks(k, n), DueTasks(k, n))
    decreases n
  {
    hide Settled, EpochsAreRight, CacheIsLow, SwitchIsSafe, WellFormed, AllLater, CountTick, OnlyWoken;
    if n == 0 {
      NobodyWoken(k);
      assert DueTasks(k, n) == iset{};
    } else {
      hide DueTasks;
      var (c, s) := CountTick(k);
      OneTick(k);
      SameButFlags(c, PendYield(c, s));
      TickWakes(k);
      TicksWake(PendYield(c, s), n - 1);
      DueLater(k, PendYield(c, s), n);
      WokenThen(k, PendYield(c, s), CountTicks(k, n), DueTasks(k, 1), DueTasks(PendYield(c, s), n - 1));
    }
  }

  lemma HeldBack(k: Kernel, d: Kernel, n: nat)
    requires WellFormed(k) && WellFormed(d) && d.clock.now == k.clock.now
    requires OnlyWoken(k, d, PendingTasks(k))
    ensures PendingTasks(k) + DueTasks(k, n) == PendingTasks(k) + DueTasks(d, n)
  {
    hide Consistent;
  }

  /** And when it is resumed everything held back is made up for: the ticks counted are those held
  back, the tasks that were pending or whose time came in those ticks are ready, at their
  priorities, and nobody else has moved. */
  lemma ResumingMakesUp(k: Kernel)
    requires Inv(k) && k.suspended == 1
    ensures var r := ResumeAll(k);
            && r.Pending() == [] && r.clock.pended == 0 && r.suspended == 0
            && r.clock.now == k.clock.now + k.clock.pended
            && OnlyWoken(k, r, PendingTasks(k) + DueTasks(k, k.clock.pended))
  {
    ResumeAllKeepsInv(k);
    ResumingWakes(k);
  }

  lemma ResumingWakes(k: Kernel)
    requires Inv(k) && k.suspended == 1
    ensures OnlyWoken(k, ResumeAll(k), PendingTasks(k) + DueTasks(k, k.clock.pended))
  {
    hide Settled, EpochsAreRight, CacheIsLow, SwitchIsSafe, WellFormed, AllLater, CountTicks, AfterDrain, OnlyWoken;
    var j := k.(suspended := 0);
    SameButFlags(k, j);
    assert PendingTasks(j) == PendingTasks(k) && DueTasks(j, k.clock.pended) == DueTasks(k, k.clock.pended);
    hide PendingTasks, DueTasks;
    AfterDrainKeeps(j);
    AfterDrainWakes(j);
    var d := AfterDrain(j);
    TicksWake(d, d.clock.pended);
    HeldBack(j, d, d.clock.pended);
    WokenThen(j, d, CountTicks(d, d.clock.pended), PendingTasks(j), DueTasks(d, d.clock.pended));
    SameTasks(j, CountTicks(d, d.clock.pended), ResumeAll(k), PendingTasks(k) + DueTasks(k, k.clock.pended));
    SameStart(k, j, ResumeAll(k), PendingTasks(k) + DueTasks(k, k.clock.pended));
  }

  lemma SameStart(k: Kernel, j: Kernel, r: Kernel, woken: iset<Task>)
    requires OnlyWoken(j, r, woken) && j == k.(suspended := 0)
    ensures OnlyWoken(k, r, woken)
  {
  }

  lemma WokenSleeper(k: Kernel, r: Kernel, t: Task)
    requires Inv(k) && Asleep(k, t) && t in k.sleep && k.sleep[t].due > k.clock.now
    requires r.clock.now == k.clock.now + k.clock.pended
    requires OnlyWoken(k, r, PendingTasks(k) + DueTasks(k, k.clock.pended))
    ensures !Asleep(r, t) <==> t in PendingTasks(k) || k.sleep[t].due <= r.clock.now
    ensures !Asleep(r, t) ==> r.IsReady(t)
  {
    hide Settled, EpochsAreRight, CacheIsLow, SwitchIsSafe, Consistent;
  }

  // ----- an assertion that interrupts can trip -----

  /** Resuming, from an interrupt and with the scheduler suspended, a task that is not suspended
  but waits indefinitely for a notification puts its event item on the pending list; notifying it
  then fails the assertion that it is on no event list.  That is the only way resuming it can. */
  lemma ResumeCanTripNotifyAssert(k: Kernel, t: Task)
    requires Inv(k) && IsTask(k, t) && NotifyAssertHolds(k, t)
    ensures NotifyAssertHolds(ResumeFromISR(k, t), t) <==>
              !(k.suspended > 0 && k.tcb[t].notify == WaitingNotification && k.state.container[t] == SuspendedList)
  {
    hide Settled, EpochsAreRight, CacheIsLow, SwitchIsSafe;
    DropEventEffect(k, t);
    MoveToReadyEffect(k, t);
  }
}
