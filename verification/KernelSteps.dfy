/** Every run of the scheduler: which steps there are, and what all of them keep. */
module KernelSteps {
  import opened Ticks
  import opened ListModel
  import opened ItemLists
  import opened Kernel
  import opened KernelProofs

  // ----- steps -----

  /** The atomic steps: critical sections of tasks, stretches with the scheduler suspended, and
  interrupts. */
  datatype Step =
    | TickIsr
    | SwitchIsr
    | DoYield
    | DoSuspendAll
    | DoResumeAll
    | DoCatchUp(n: Tick)
    | DoBlock(ticks: Tick, indefinitely: bool)
    | DoBlockOnEvent(list: nat, position: nat, ticks: Tick, indefinitely: bool)
    | DoRemoveFromEventList(list: nat)
    | DoRemoveFromUnordered(task: Task)
    | DoNotifyWait(ticks: Tick)
    | DoNotifyDone
    | DoNotify(task: Task)
    | DoNotifyFromISR(task: Task)
    | DoSuspend(task: Task)
    | DoResetUnblock
    | DoResume(task: Task)
    | DoResumeFromISR(task: Task)
    | DoAbortDelay(task: Task)
    | DoPrioritySet(task: Task, priority: nat)
    | DoMutex(m: MutexStep)

  /** What a mutex does to priorities: a blocked taker boosts the holder, a taker that timed out
  lowers it again, and taking and giving count. */
  datatype MutexStep =
    | DoInherit(holder: Task)
    | DoDisinheritAfterTimeout(holder: Task, highest: nat)
    | DoTake
    | DoGive(list: nat)

  predicate IsTask(k: Kernel, t: Task) {
    t in k.tcb && t in k.state.container
  }

  /** What callers owe and the kernel's assertions check; the idle task neither blocks nor is
  suspended; and a zero-length block does not fall on the last tick before the count wraps. */
  predicate Allowed(k: Kernel, s: Step) {
    && IsTask(k, k.current)
    && match s
       case SwitchIsr => k.yieldRequested
       case DoResumeAll => k.suspended > 0
       case DoCatchUp(_) => k.suspended > 0
       case DoBlock(ticks, _) => k.current != k.idle && (ticks > 0 || k.clock.tick != MAX_DELAY)
       case DoBlockOnEvent(list, i, ticks, _) =>
         && k.current != k.idle && (ticks > 0 || k.clock.tick != MAX_DELAY)
         && k.current !in k.event.container && i <= |k.event.Of(WaitingFor(list)).items|
       case DoRemoveFromEventList(list) => k.event.Of(WaitingFor(list)).items != []
       case DoRemoveFromUnordered(t) => k.suspended > 0 && t in k.event.container && k.event.container[t] != PendingReady
       case DoNotifyWait(ticks) => ticks > 0 ==> k.current != k.idle
       case DoNotify(t) => IsTask(k, t) && NotifyAssertHolds(k, t)
       case DoNotifyFromISR(t) => IsTask(k, t) && NotifyAssertHolds(k, t)
       case DoSuspend(t) => IsTask(k, t) && t != k.idle
       case DoResume(t) => IsTask(k, t)
       case DoResumeFromISR(t) => IsTask(k, t)
       case DoAbortDelay(t) => IsTask(k, t) && k.suspended > 0
       case DoPrioritySet(t, p) => IsTask(k, t) && p < MAX_PRIORITIES
       case DoMutex(m) => MutexAllowed(k, m)
       case _ => true
  }

  predicate MutexAllowed(k: Kernel, m: MutexStep)
    requires IsTask(k, k.current)
  {
    match m
    case DoInherit(h) => IsTask(k, h)
    case DoDisinheritAfterTimeout(h, p) => IsTask(k, h) && p < MAX_PRIORITIES
    case DoTake => true
    case DoGive(_) => k.tcb[k.current].held > 0
  }

  /** "The task should not have been on an event list." */
  predicate NotifyAssertHolds(k: Kernel, t: Task)
    requires t in k.tcb
  {
    k.tcb[t].notify == WaitingNotification ==> t !in k.event.container
  }

  /** The software interrupt; a failing assertion stops the system where it is. */
  function SwitchInterrupt(k: Kernel): (r: Kernel)
    requires WellFormed(k)
    ensures WellFormed(r)
  {
    if k.suspended > 0 || ScanSucceeds(k) then SwitchContext(k) else k
  }

  function Next(k: Kernel, s: Step): (r: Kernel)
    requires WellFormed(k) && Allowed(k, s)
    ensures WellFormed(r)
  {
    match s
    case TickIsr => TickInterrupt(k)
    case SwitchIsr => SwitchInterrupt(k)
    case DoYield => Yield(k, true)
    case DoSuspendAll => SuspendAll(k)
    case DoResumeAll => ResumeAll(k)
    case DoCatchUp(n) => CatchUp(k, n)
    case DoBlock(ticks, indefinitely) => BlockCurrent(k, ticks, indefinitely)
    case DoBlockOnEvent(list, i, ticks, indefinitely) => BlockOnEvent(k, list, i, ticks, indefinitely)
    case DoRemoveFromEventList(list) => RemoveFromEventList(k, list)
    case DoRemoveFromUnordered(t) => RemoveFromUnorderedEventList(k, t)
    case DoNotifyWait(ticks) => NotifyWait(k, ticks)
    case DoNotifyDone => SetNotify(k, k.current, NotWaiting)
    case DoNotify(t) => Notify(k, t)
    case DoNotifyFromISR(t) => NotifyFromISR(k, t)
    case DoSuspend(t) => Suspend(k, t)
    case DoResetUnblock => ResetNextUnblock(k)
    case DoResume(t) => Resume(k, t)
    case DoResumeFromISR(t) => ResumeFromISR(k, t)
    case DoAbortDelay(t) => AbortDelay(k, t)
    case DoPrioritySet(t, p) => PrioritySet(k, t, p)
    case DoMutex(m) => NextMutex(k, m)
  }

  function NextMutex(k: Kernel, m: MutexStep): (r: Kernel)
    requires WellFormed(k) && MutexAllowed(k, m)
    ensures WellFormed(r) && r.clock == k.clock && r.sleep == k.sleep
  {
    match m
    case DoInherit(h) => Inherit(k, h)
    case DoDisinheritAfterTimeout(h, p) => DisinheritAfterTimeout(k, h, p)
    case DoTake => TakeMutex(k)
    case DoGive(list) => GiveMutex(k, list)
  }

  // ----- selection -----

  /** The scan terminates at the highest priority that has a ready task: uxTopReadyPriority bounds
  them all and the idle task is always ready. */
  lemma SelectionSucceeds(k: Kernel)
    requires Core(k)
    ensures ScanSucceeds(k)
    ensures forall t | k.IsReady(t) :: k.tcb[t].priority <= ScanDown(k.state, k.top)
  {
    var q := ScanDown(k.state, k.top);
    forall t | k.IsReady(t)
      ensures k.tcb[t].priority <= q && (q == 0 ==> k.state.Of(Ready(0)).items != [])
    {
      assert InPlace(k, t);
      assert k.state.Holds(Ready(k.tcb[t].priority), t);
    }
  }

  /** No ready task outranks the running one. */
  ghost predicate TopRuns(k: Kernel) {
    k.current in k.tcb
    && forall t | k.IsReady(t) :: t in k.tcb && k.tcb[t].priority <= k.tcb[k.current].priority
  }

  // ----- lemmas about blocks -----

  predicate SameTime(c: Clock, d: Clock) {
    && c.tick == d.tick && c.now == d.now && c.overflows == d.overflows && c.nextUnblock == d.nextUnblock
    && c.swapped == d.swapped
  }

  /** The invariant looks at the lists, the control blocks and the clock only. */
  lemma SameLists(k: Kernel, r: Kernel)
    requires Settled(k) && WellFormed(r)
    requires r.state == k.state && r.tcb == k.tcb && r.sleep == k.sleep && r.idle == k.idle && r.top == k.top
    requires r.clock.swapped == k.clock.swapped
    ensures Settled(r)
    ensures Core(k) && SameTime(k.clock, r.clock) ==> Core(r)
  {
    forall u | u in r.tcb
      ensures InPlace(r, u)
    {
      assert InPlace(k, u);
    }
  }

  lemma FewerSleepers(k: Kernel, r: Kernel)
    requires Core(k) && Settled(r) && NoNewSleepers(k, r)
    ensures Core(r) && (SwitchIsSafe(k) ==> SwitchIsSafe(r)) && (AllLater(k) ==> AllLater(r))
  {
    if SwitchIsSafe(k) && r.clock.tick == MAX_DELAY && r.DelayedTasks() != [] {
      HeadIsTask(r, r.Delayed());
      NobodyIn(k, k.Delayed());
    }
  }

  /** Waking a task: off its event list, if it is on one, and into its ready list. */
  lemma WakeKeeps(k: Kernel, t: Task)
    requires Core(k) && t in k.tcb
    ensures var r := MoveToReady(DropEvent(k, t), t);
            && Core(r) && (SwitchIsSafe(k) ==> SwitchIsSafe(r)) && (AllLater(k) ==> AllLater(r))
            && (k.Pending() == [] ==> r.Pending() == [])
  {
    ReadyKeepsSettled(k, t);
    FewerSleepers(k, MoveToReady(DropEvent(k, t), t));
    DropEventEffect(k, t);
  }

  // ----- time -----

  /** From k to r, n ticks were counted and nothing else was. */
  ghost predicate OnlyTicks(k: Kernel, r: Kernel, n: nat) {
    && r == k.(state := r.state, event := r.event, top := r.top, clock := r.clock, yieldPending := r.yieldPending)
    && r.clock.now == k.clock.now + n && r.clock.pended == k.clock.pended
    && r.clock.interrupts == k.clock.interrupts && r.clock.dropped == k.clock.dropped
    && (k.Pending() == [] ==> r.Pending() == [])
  }

  lemma OneTick(k: Kernel)
    requires Core(k) && SwitchIsSafe(k)
    ensures var c := CountTick(k).0; Core(c) && SwitchIsSafe(c) && AllLater(c) && OnlyTicks(k, c, 1)
  {
    hide Settled, EpochsAreRight, CacheIsLow, Consistent;
    CountTickKeeps(k);
  }

  /** The invariant does not look at the yield flags, nor most of it at the suspension count. */
  lemma SameButFlags(k: Kernel, r: Kernel)
    requires Core(k) && r == k.(suspended := r.suspended, yieldPending := r.yieldPending, yieldRequested := r.yieldRequested,
                                clock := k.clock.(pended := r.clock.pended, interrupts := r.clock.interrupts,
                                                  dropped := r.clock.dropped))
    ensures Core(r) && (SwitchIsSafe(k) <==> SwitchIsSafe(r)) && (AllLater(k) <==> AllLater(r)) && r.Pending() == k.Pending()
  {
    SameLists(k, r);
  }

  /** The tick interrupt either counts the tick or, with the scheduler suspended, pends it. */
  lemma TickKeepsInv(k: Kernel)
    requires Inv(k)
    ensures Inv(TickInterrupt(k))
    ensures k.suspended == 0 ==> AllLater(TickInterrupt(k))
  {
    hide Settled, EpochsAreRight, CacheIsLow, WellFormed, AllLater, SwitchIsSafe;
    if k.suspended == 0 {
      TickCounted(k);
    } else {
      SameButFlags(k, TickInterrupt(k));
    }
  }

  lemma TickCounted(k: Kernel)
    requires Inv(k) && k.suspended == 0
    ensures Inv(TickInterrupt(k)) && AllLater(TickInterrupt(k))
  {
    hide Settled, EpochsAreRight, CacheIsLow, WellFormed, AllLater, SwitchIsSafe;
    var j := k.(clock := k.clock.(interrupts := k.clock.interrupts + 1));
    SameButFlags(k, j);
    OneTick(j);
    YieldKeepsInv(CountTick(j).0, CountTick(j).1);
  }

  lemma YieldKeepsInv(k: Kernel, wanted: bool)
    requires Core(k)
    ensures Inv(k) ==> Inv(Yield(k, wanted)) && Inv(PendYield(k, wanted))
    ensures AllLater(k) ==> AllLater(Yield(k, wanted)) && AllLater(PendYield(k, wanted))
  {
    hide Settled, EpochsAreRight, CacheIsLow, WellFormed, AllLater, SwitchIsSafe;
    SameButFlags(k, Yield(k, wanted));
    SameButFlags(k, PendYield(k, wanted));
  }

  lemma CatchUpKeepsInv(k: Kernel, n: Tick)
    requires Inv(k) && k.suspended > 0
    ensures Inv(CatchUp(k, n))
  {
    SameLists(k, CatchUp(k, n));
  }

  lemma {:induction false} DrainKeepsCore(k: Kernel)
    requires Core(k)
    ensures var r := DrainPending(k);
            Core(r) && (SwitchIsSafe(k) ==> SwitchIsSafe(r)) && (AllLater(k) ==> AllLater(r))
    ensures var r := DrainPending(k);
            r == k.(state := r.state, event := r.event, top := r.top, yieldPending := r.yieldPending)
    ensures forall t | k.event.Holds(PendingReady, t) :: DrainPending(k).IsReady(t)
    ensures forall t | k.IsReady(t) :: DrainPending(k).IsReady(t)
    decreases |k.Pending()|
  {
    if k.Pending() != [] {
      DrainOneKeeps(k);
      DrainOneReadies(k);
      DrainKeepsCore(DrainOne(k));
    }
  }

  lemma DrainOneKeeps(k: Kernel)
    requires Core(k) && k.Pending() != []
    ensures var r := DrainOne(k);
            && Core(r) && (SwitchIsSafe(k) ==> SwitchIsSafe(r)) && (AllLater(k) ==> AllLater(r))
            && r == k.(state := r.state, event := r.event, top := r.top, yieldPending := r.yieldPending)
            && DrainPending(k) == DrainPending(r) && |r.Pending()| < |k.Pending()|
  {
    hide Settled, EpochsAreRight, CacheIsLow, Consistent, AllLater, SwitchIsSafe;
    EventHeadIsTask(k, PendingReady);
    var t := k.Pending()[0];
    WakeKeeps(k, t);
    MoveToReadyEffect(DropEvent(k, t), t);
    DropEventEffect(k, t);
    SameButFlags(MoveToReady(DropEvent(k, t), t), DrainOne(k));
    DrainOneTakesHead(k);
  }

  lemma DrainOneReadies(k: Kernel)
    requires WellFormed(k) && k.Pending() != []
    ensures forall t | k.event.Holds(PendingReady, t) :: DrainOne(k).IsReady(t) || DrainOne(k).event.Holds(PendingReady, t)
    ensures forall t | k.IsReady(t) :: DrainOne(k).IsReady(t)
  {
    EventHeadIsTask(k, PendingReady);
    var t := k.Pending()[0];
    MoveToReadyEffect(DropEvent(k, t), t);
    DropEventEffect(k, t);
    DrainOneTakesHead(k);
  }

  lemma DrainOneTakesHead(k: Kernel)
    requires WellFormed(k) && k.Pending() != []
    ensures DrainOne(k).Pending() == k.Pending()[1..]
    ensures forall t | k.event.Holds(PendingReady, t) :: t == k.Pending()[0] || DrainOne(k).event.Holds(PendingReady, t)
  {
    EventHeadIsTask(k, PendingReady);
    UnlinkKeeps(k.event, k.Pending()[0]);
    assert k.Pending() == [k.Pending()[0]] + k.Pending()[1..];
  }

  lemma {:induction false} CountTicksKeeps(k: Kernel, n: nat)
    requires Core(k) && SwitchIsSafe(k)
    ensures var r := CountTicks(k, n);
            Core(r) && SwitchIsSafe(r) && (n > 0 || AllLater(k) ==> AllLater(r)) && OnlyTicks(k, r, n)
    decreases n
  {
    hide Settled, EpochsAreRight, CacheIsLow, AllLater, WellFormed;
    if n > 0 {
      OneTick(k);
      var (c, s) := CountTick(k);
      SameButFlags(c, PendYield(c, s));
      CountTicksKeeps(PendYield(c, s), n - 1);
    }
  }

  /** After the outermost resume nothing is held back any more: no task is pending, no tick is
  pending, the ticks counted are all that happened, and nobody sleeps past its time. */
  lemma ResumeAllKeepsInv(k: Kernel)
    requires Inv(k) && k.suspended > 0
    ensures Inv(ResumeAll(k)) && ResumeAll(k).suspended == k.suspended - 1
    ensures k.suspended == 1 ==>
              var r := ResumeAll(k);
              && r.Pending() == [] && r.clock.pended == 0
              && r.clock.now == k.clock.now + k.clock.pended && r.clock.now + r.clock.dropped == r.clock.interrupts
              && r.clock.interrupts == k.clock.interrupts
              && (k.clock.pended > 0 || AllLater(k) ==> AllLater(r))
  {
    hide Settled, EpochsAreRight, CacheIsLow, Consistent, AllLater, SwitchIsSafe;
    var j := k.(suspended := k.suspended - 1);
    SameButFlags(k, j);
    if j.suspended == 0 {
      var d := AfterDrain(j);
      AfterDrainKeeps(j);
      var c := CountTicks(d, d.clock.pended);
      CountTicksKeeps(d, d.clock.pended);
      SameButFlags(c, ResumeAll(k));
    }
  }

  lemma AfterDrainKeeps(j: Kernel)
    requires Core(j) && SwitchIsSafe(j)
    ensures var d := AfterDrain(j);
            && Core(d) && SwitchIsSafe(d) && d.Pending() == []
            && d == j.(state := d.state, event := d.event, top := d.top, yieldPending := d.yieldPending,
                       clock := j.clock.(nextUnblock := d.clock.nextUnblock))
            && (AllLater(j) ==> AllLater(d))
  {
    hide Settled, EpochsAreRight, CacheIsLow, Consistent;
    DrainKeepsCore(j);
    ResetKeeps(DrainPending(j));
  }

  lemma ResetKeeps(k: Kernel)
    requires Core(k)
    ensures var r := ResetNextUnblock(k);
            && Core(r) && (SwitchIsSafe(k) ==> SwitchIsSafe(r)) && (AllLater(k) ==> AllLater(r))
            && r == k.(clock := k.clock.(nextUnblock := r.clock.nextUnblock))
  {
    ResetEffect(k);
  }

  // ----- switching -----

  lemma SwitchKeepsInv(k: Kernel)
    requires Inv(k)
    ensures Inv(SwitchInterrupt(k))
    ensures k.suspended == 0 ==> SwitchInterrupt(k).IsReady(SwitchInterrupt(k).current) && TopRuns(SwitchInterrupt(k))
  {
    SelectionSucceeds(k);
    if k.suspended > 0 {
      SameButFlags(k, SwitchInterrupt(k));
    } else {
      SelectionKeeps(k);
    }
  }

  lemma SelectionKeeps(k: Kernel)
    requires Inv(k) && k.suspended == 0 && ScanSucceeds(k)
    requires forall t | k.IsReady(t) :: k.tcb[t].priority <= ScanDown(k.state, k.top)
    ensures var r := SwitchContext(k); Inv(r) && r.IsReady(r.current) && TopRuns(r)
  {
    var q := ScanDown(k.state, k.top);
    assert ListOk(k.state, Ready(q));
    var i := k.state.Of(Ready(q)).Next();
    IndexKeeps(k.state, Ready(q), i);
    var r := SwitchContext(k);
    assert r.state == SetIndex(k.state, Ready(q), i);
    forall t | t in r.tcb
      ensures InPlace(r, t)
    {
      assert InPlace(k, t);
    }
    assert InPlace(k, r.current);
  }

  // ----- blocking -----

  /** What blocking leaves alone. */
  ghost predicate OnlyBlocked(k: Kernel, r: Kernel) {
    && r == k.(state := r.state, sleep := r.sleep, clock := k.clock.(nextUnblock := r.clock.nextUnblock))
    && (forall t | t != k.current :: r.IsReady(t) <==> k.IsReady(t))
    && !r.IsReady(k.current)
  }

  /** The new wake time goes to the list of its epoch, behind every earlier or equal one. */
  lemma BlockKeepsCore(k: Kernel, ticks: Tick, indefinitely: bool)
    requires Core(k) && k.current != k.idle
    ensures Core(BlockCurrent(k, ticks, indefinitely)) && OnlyBlocked(k, BlockCurrent(k, ticks, indefinitely))
  {
    hide Settled, EpochsAreRight, CacheIsLow, WellFormed;
    if ticks == MAX_DELAY && indefinitely {
      SleepForeverKeeps(k);
    } else {
      SleepUntilKeeps(k, ticks);
    }
  }

  lemma SleepForeverEffect(k: Kernel)
    requires WellFormed(k)
    ensures var r := SleepForever(k);
            && r == k.(state := r.state) && OnlyBlocked(k, r)
            && r.state.container == k.state.container[k.current := SuspendedList]
            && (forall p: StatePlace | p != SuspendedList :: r.state.Of(p) == k.state.Unlink(k.current).Of(p))
  {
    UnlinkKeeps(k.state, k.current);
    AppendKeeps(k.state.Unlink(k.current), SuspendedList, k.current);
  }

  lemma SleepForeverKeeps(k: Kernel)
    requires Core(k) && k.current != k.idle
    ensures Core(SleepForever(k)) && OnlyBlocked(k, SleepForever(k))
  {
    hide SleepForever, InOrder, Consistent;
    SleepForeverEffect(k);
    RemovedInOrder(k, k.current);
    var r := SleepForever(k);
    forall u | u in r.tcb
      ensures InPlace(r, u)
    {
      assert InPlace(k, u);
    }
  }

  lemma RemovedInOrder(k: Kernel, t: Task)
    requires Settled(k) && t in k.state.container
    ensures InOrder(k.state.Unlink(t).Of(k.Delayed()).items, k.sleep)
    ensures InOrder(k.state.Unlink(t).Of(k.Overflow()).items, k.sleep)
  {
    UnlinkKeeps(k.state, t);
    var q := k.state.container[t];
    if q == k.Delayed() || q == k.Overflow() {
      InOrderRemove(k.state.Of(q).items, k.sleep, Position(k.state.Of(q).items, t));
    }
  }

  ghost predicate Ascending(w: seq<Tick>) {
    forall i, j | 0 <= i < j < |w| :: w[i] <= w[j]
  }

  lemma AscendingInsert(w: seq<Tick>, v: Tick)
    requires Ascending(w)
    ensures var p := UpperBound(w, v); Ascending(w[..p] + [v] + w[p..])
  {
  }

  lemma AscendingIsInOrder(s: seq<Task>, sleep: map<Task, Sleep>)
    requires forall t | t in s :: t in sleep
    ensures InOrder(s, sleep) <==> Ascending(Wakes(s, sleep))
  {
    var w := Wakes(s, sleep);
    if InOrder(s, sleep) {
      forall i, j | 0 <= i < j < |w|
        ensures w[i] <= w[j]
      {
        assert w[i] == sleep[s[i]].wake && w[j] == sleep[s[j]].wake;
      }
    }
    if Ascending(w) {
      forall i, j | 0 <= i < j < |s|
        ensures sleep[s[i]].wake <= sleep[s[j]].wake
      {
        assert w[i] <= w[j];
      }
    }
  }

  lemma InOrderInsert(s: seq<Task>, sleep: map<Task, Sleep>, t: Task)
    requires InOrder(s, sleep) && t in sleep
    ensures var p := UpperBound(Wakes(s, sleep), sleep[t].wake); InOrder(s[..p] + [t] + s[p..], sleep)
  {
    hide InOrder, Ascending;
    AllAsleep(s, sleep);
    var w, v := Wakes(s, sleep), sleep[t].wake;
    var p := UpperBound(w, v);
    var r := s[..p] + [t] + s[p..];
    assert forall u | u in r :: u in s || u == t;
    assert Wakes(r, sleep) == w[..p] + [v] + w[p..];
    AscendingIsInOrder(s, sleep);
    AscendingInsert(w, v);
    AscendingIsInOrder(r, sleep);
  }

  lemma AllAsleep(s: seq<Task>, sleep: map<Task, Sleep>)
    requires InOrder(s, sleep)
    ensures forall t | t in s :: t in sleep
  {
  }

  lemma InOrderUpdate(s: seq<Task>, sleep: map<Task, Sleep>, t: Task, v: Sleep)
    requires InOrder(s, sleep) && t !in s
    ensures InOrder(s, sleep[t := v])
  {
    var m := sleep[t := v];
    forall i | 0 <= i < |s|
      ensures m[s[i]] == sleep[s[i]]
    {
      assert s[i] != t;
    }
  }

  /** Where the running task sleeps. */
  lemma SleepUntilEffect(k: Kernel, ticks: Tick)
    requires WellFormed(k)
    ensures OnlyBlocked(k, SleepUntil(k, ticks))
    ensures var r := SleepUntil(k, ticks);
            && r.sleep == k.sleep[k.current := NewSleep(k, ticks)]
            && r.state.container == k.state.container[k.current := NewPlace(k, ticks)]
            && r.clock.nextUnblock == NewNextUnblock(k, ticks)
  {
    UnlinkKeeps(k.state, k.current);
    var r := SleepUntil(k, ticks);
    assert r.state.container == k.state.container[k.current := NewPlace(k, ticks)];
  }

  /** The delayed lists stay in order of wake time. */
  lemma SleepUntilOrder(k: Kernel, ticks: Tick, q: StatePlace)
    requires Settled(k) && (q == k.Delayed() || q == k.Overflow())
    ensures var r := SleepUntil(k, ticks); InOrder(r.state.Of(q).items, r.sleep)
  {
    hide ReadyInPlace, InOrder, Consistent;
    var t := k.current;
    UnlinkKeeps(k.state, t);
    RemovedInOrder(k, t);
    ItemsAreTasks(k, t, q);
    var l := k.state.Unlink(t);
    var sleep := k.sleep[t := NewSleep(k, ticks)];
    InOrderUpdate(l.Of(q).items, k.sleep, t, NewSleep(k, ticks));
    if q == NewPlace(k, ticks) {
      InOrderInsert(l.Of(q).items, sleep, t);
    }
  }

  lemma SleepUntilKeeps(k: Kernel, ticks: Tick)
    requires Core(k) && k.current != k.idle
    ensures Core(SleepUntil(k, ticks)) && OnlyBlocked(k, SleepUntil(k, ticks))
  {
    hide InOrder, SleepUntil, Consistent;
    SleepUntilEffect(k, ticks);
    SleepUntilOrder(k, ticks, k.Delayed());
    SleepUntilOrder(k, ticks, k.Overflow());
    var r := SleepUntil(k, ticks);
    SleepUntilTimes(k, ticks, r);
    forall u | u in r.tcb
      ensures InPlace(r, u)
    {
      assert InPlace(k, u);
    }
  }

  lemma SleepUntilTimes(k: Kernel, ticks: Tick, r: Kernel)
    requires EpochsAreRight(k) && CacheIsLow(k) && k.clock.tick == Wrap(k.clock.now)
    requires r == k.(state := r.state, sleep := r.sleep, clock := k.clock.(nextUnblock := NewNextUnblock(k, ticks)))
    requires r.sleep == k.sleep[k.current := NewSleep(k, ticks)]
    requires r.state.container == k.state.container[k.current := NewPlace(k, ticks)]
    ensures EpochsAreRight(r) && CacheIsLow(r)
  {
    NewSleepEpoch(k, ticks);
    var v := NewSleep(k, ticks);
    assert v.due >= k.clock.now;
  }

  lemma NewSleepEpoch(k: Kernel, ticks: Tick)
    requires k.clock.tick == Wrap(k.clock.now)
    ensures var v := NewSleep(k, ticks);
            v.wake == Wrap(v.due)
            && Epoch(v.due) == if v.wake < k.clock.tick then Epoch(k.clock.now) + 1 else Epoch(k.clock.now)
  {
    WrapAdd(k.clock.now, ticks);
    EpochAfter(k.clock.now, ticks);
  }

  /** A zero-length block is the one that can defeat the assertion made when the delayed lists are
  switched, and only on the last tick before the count wraps. */
  lemma BlockIsSwitchSafeIff(k: Kernel, ticks: Tick, indefinitely: bool)
    requires Inv(k)
    ensures SwitchIsSafe(BlockCurrent(k, ticks, indefinitely)) <==> ticks > 0 || k.clock.tick != MAX_DELAY
  {
    hide Settled, EpochsAreRight, CacheIsLow;
    var r := BlockCurrent(k, ticks, indefinitely);
    if k.clock.tick == MAX_DELAY {
      NobodyIn(k, k.Delayed());
      if ticks == MAX_DELAY && indefinitely {
        SleepForeverEffect(k);
      } else {
        SleepUntilEffect(k, ticks);
        NewSleepAtMax(k, ticks);
      }
      if r.DelayedTasks() != [] {
        HeadIsTask(r, r.Delayed());
      }
      assert r.state.container[k.current] == r.Delayed() ==> r.state.Holds(r.Delayed(), k.current);
    } else {
      BlockEffect(k, ticks, indefinitely);
    }
  }

  lemma NewSleepAtMax(k: Kernel, ticks: Tick)
    requires k.clock.tick == MAX_DELAY
    ensures NewPlace(k, ticks) == k.Delayed() <==> ticks == 0
  {
  }

  lemma BlockEffect(k: Kernel, ticks: Tick, indefinitely: bool)
    requires WellFormed(k)
    ensures OnlyBlocked(k, BlockCurrent(k, ticks, indefinitely))
  {
    SleepForeverEffect(k);
    SleepUntilEffect(k, ticks);
  }

  // ----- event lists, notifications, suspension -----

  /** Changes of event items and of the fields of a control block that say nothing about
  priorities. */
  lemma SameSchedule(k: Kernel, r: Kernel)
    requires Core(k) && WellFormed(r)
    requires r == k.(event := r.event, tcb := r.tcb)
    requires forall t | t in k.tcb :: t in r.tcb && r.tcb[t].priority == k.tcb[t].priority && r.tcb[t].base < MAX_PRIORITIES
    ensures Core(r) && (SwitchIsSafe(k) ==> SwitchIsSafe(r)) && (AllLater(k) ==> AllLater(r))
  {
    forall u | u in r.tcb
      ensures InPlace(r, u)
    {
      assert InPlace(k, u);
    }
  }

  lemma BlockKeepsInv(k: Kernel, ticks: Tick, indefinitely: bool)
    requires Inv(k) && k.current != k.idle && (ticks > 0 || k.clock.tick != MAX_DELAY)
    ensures Inv(BlockCurrent(k, ticks, indefinitely))
  {
    hide Settled, EpochsAreRight, CacheIsLow, WellFormed, SwitchIsSafe, BlockCurrent;
    BlockKeepsCore(k, ticks, indefinitely);
    BlockIsSwitchSafeIff(k, ticks, indefinitely);
  }

  lemma PlaceKeepsInv(k: Kernel, list: nat, i: nat)
    requires Inv(k) && k.current !in k.event.container && i <= |k.event.Of(WaitingFor(list)).items|
    ensures Inv(PlaceOnEventList(k, list, i))
  {
    InsertAtKeeps(k.event, WaitingFor(list), i, k.current);
    SameSchedule(k, PlaceOnEventList(k, list, i));
  }

  lemma BlockOnEventKeepsInv(k: Kernel, list: nat, i: nat, ticks: Tick, indefinitely: bool)
    requires Inv(k) && k.current != k.idle && (ticks > 0 || k.clock.tick != MAX_DELAY)
    requires k.current !in k.event.container && i <= |k.event.Of(WaitingFor(list)).items|
    ensures Inv(BlockOnEvent(k, list, i, ticks, indefinitely))
  {
    hide Settled, EpochsAreRight, CacheIsLow, SwitchIsSafe, Consistent;
    PlaceKeepsInv(k, list, i);
    BlockKeepsInv(PlaceOnEventList(k, list, i), ticks, indefinitely);
  }

  /** Waking one task at once. */
  lemma WakeKeepsInv(k: Kernel, t: Task)
    requires Inv(k) && t in k.tcb
    ensures Inv(MoveToReady(DropEvent(k, t), t)) && Inv(DropEvent(k, t))
  {
    hide Settled, EpochsAreRight, CacheIsLow, SwitchIsSafe, Consistent;
    WakeKeeps(k, t);
    DropEventEffect(k, t);
    DropEventKeepsInv(k, t);
  }

  lemma DropEventKeepsInv(k: Kernel, t: Task)
    requires Inv(k) && t in k.tcb
    ensures Inv(DropEvent(k, t))
  {
    DropEventEffect(k, t);
    SameSchedule(k, DropEvent(k, t));
  }

  lemma PendKeepsInv(k: Kernel, t: Task)
    requires Inv(k) && t in k.tcb && t !in k.event.container && k.suspended > 0
    ensures Inv(Pend(k, t))
  {
    AppendKeeps(k.event, PendingReady, t);
    SameSchedule(k, Pend(k, t));
  }

  lemma ReadyOrPendKeepsInv(k: Kernel, t: Task)
    requires Inv(k) && t in k.tcb && t !in k.event.container
    ensures Inv(ReadyOrPend(k, t))
  {
    hide Settled, EpochsAreRight, CacheIsLow, SwitchIsSafe, Consistent;
    if k.suspended == 0 {
      WakeKeepsInv(k, t);
    } else {
      PendKeepsInv(k, t);
    }
  }

  lemma RemoveFromEventListKeepsInv(k: Kernel, list: nat)
    requires Inv(k) && k.event.Of(WaitingFor(list)).items != []
    ensures Inv(RemoveFromEventList(k, list))
  {
    hide Settled, EpochsAreRight, CacheIsLow, SwitchIsSafe, Consistent, MoveToReady, Pend;
    EventHeadIsTask(k, WaitingFor(list));
    var t := k.event.Of(WaitingFor(list)).items[0];
    WakeKeepsInv(k, t);
    ReadyOrPendKeepsInv(DropEvent(k, t), t);
    YieldKeepsInv(ReadyOrPend(DropEvent(k, t), t), Higher(k, t));
  }

  lemma WakeAndPendYieldKeepsInv(k: Kernel, t: Task, wanted: bool)
    requires Inv(k) && t in k.tcb
    ensures Inv(PendYield(MoveToReady(DropEvent(k, t), t), wanted))
    ensures Inv(Yield(MoveToReady(DropEvent(k, t), t), wanted))
  {
    hide Settled, EpochsAreRight, CacheIsLow, SwitchIsSafe, Consistent, MoveToReady;
    WakeKeepsInv(k, t);
    YieldKeepsInv(MoveToReady(DropEvent(k, t), t), wanted);
  }

  lemma NotifyStateKeepsInv(k: Kernel, t: Task, n: NotifyState)
    requires Inv(k) && t in k.tcb
    ensures Inv(SetNotify(k, t, n))
  {
    SameSchedule(k, SetNotify(k, t, n));
  }

  lemma NotifyWaitKeepsInv(k: Kernel, ticks: Tick)
    requires Inv(k) && (ticks > 0 ==> k.current != k.idle)
    ensures Inv(NotifyWait(k, ticks))
  {
    hide Settled, EpochsAreRight, CacheIsLow, SwitchIsSafe, Consistent, BlockCurrent;
    var j := SetNotify(k, k.current, WaitingNotification);
    NotifyStateKeepsInv(k, k.current, WaitingNotification);
    if ticks > 0 {
      BlockKeepsInv(j, ticks, true);
      YieldKeepsInv(BlockCurrent(j, ticks, true), true);
    }
  }

  lemma NotifyKeepsInv(k: Kernel, t: Task)
    requires Inv(k) && IsTask(k, t) && NotifyAssertHolds(k, t)
    ensures Inv(Notify(k, t)) && Inv(NotifyFromISR(k, t))
  {
    hide Settled, EpochsAreRight, CacheIsLow, SwitchIsSafe, Consistent, MoveToReady, Pend;
    var j := SetNotify(k, t, Received);
    NotifyStateKeepsInv(k, t, Received);
    if k.tcb[t].notify == WaitingNotification {
      WakeAndPendYieldKeepsInv(j, t, Higher(k, t));
      ReadyOrPendKeepsInv(j, t);
      YieldKeepsInv(ReadyOrPend(j, t), Higher(k, t));
    }
  }

  lemma ToSuspendedEffect(k: Kernel, t: Task)
    requires WellFormed(k) && t in k.tcb
    ensures var r := ToSuspended(k, t);
            && r == k.(state := r.state) && r.state.container == k.state.container[t := SuspendedList]
            && (forall p: StatePlace | p != SuspendedList :: r.state.Of(p) == k.state.Unlink(t).Of(p))
  {
    UnlinkKeeps(k.state, t);
    AppendKeeps(k.state.Unlink(t), SuspendedList, t);
  }

  lemma ToSuspendedKeepsCore(k: Kernel, t: Task)
    requires Core(k) && t in k.tcb && t != k.idle
    ensures Core(ToSuspended(k, t)) && NoNewSleepers(k, ToSuspended(k, t))
  {
    hide InOrder, Consistent, ToSuspended;
    ToSuspendedEffect(k, t);
    RemovedInOrder(k, t);
    var r := ToSuspended(k, t);
    forall u | u in r.tcb
      ensures InPlace(r, u)
    {
      assert InPlace(k, u);
    }
  }

  lemma ToSuspendedKeepsInv(k: Kernel, t: Task)
    requires Inv(k) && t in k.tcb && t != k.idle
    ensures Inv(ToSuspended(k, t))
  {
    hide Settled, EpochsAreRight, CacheIsLow, SwitchIsSafe, Consistent;
    ToSuspendedKeepsCore(k, t);
    ToSuspendedEffect(k, t);
    FewerSleepers(k, ToSuspended(k, t));
  }

  lemma SuspendKeepsInv(k: Kernel, t: Task)
    requires Inv(k) && t in k.tcb && t != k.idle
    ensures Inv(Suspend(k, t))
  {
    hide Settled, EpochsAreRight, CacheIsLow, SwitchIsSafe, Consistent, ToSuspended;
    DropEventKeepsInv(k, t);
    DropEventEffect(k, t);
    var s := ToSuspended(DropEvent(k, t), t);
    ToSuspendedKeepsInv(DropEvent(k, t), t);
    ToSuspendedEffect(DropEvent(k, t), t);
    if k.tcb[t].notify == WaitingNotification {
      NotifyStateKeepsInv(s, t, NotWaiting);
    }
  }

  lemma ResumeKeepsInv(k: Kernel, t: Task)
    requires Inv(k) && IsTask(k, t)
    ensures Inv(Resume(k, t)) && Inv(ResumeFromISR(k, t)) && Inv(AbortDelay(k, t))
  {
    hide Settled, EpochsAreRight, CacheIsLow, SwitchIsSafe, Consistent, MoveToReady, Pend;
    WakeAndPendYieldKeepsInv(k, t, k.tcb[t].priority >= k.tcb[k.current].priority);
    WakeAndPendYieldKeepsInv(k, t, Higher(k, t));
    if IsSuspended(k, t) && k.suspended > 0 {
      PendKeepsInv(k, t);
    }
  }

  // ----- priorities -----

  /** A change of priority moves a ready task to the list of its new priority. */
  lemma ChangePriorityKeepsSettled(k: Kernel, t: Task, p: nat)
    requires Settled(k) && t in k.tcb && p < MAX_PRIORITIES
    ensures Settled(ChangePriority(k, t, p))
  {
    hide Consistent, InOrder;
    var j := k.(tcb := k.tcb[t := k.tcb[t].(priority := p)]);
    OthersInPlace(k, j, t);
    if k.state.container[t] == Ready(k.tcb[t].priority) {
      MoveToReadyKeeps(j, t);
    } else {
      assert InPlace(k, t);
    }
  }

  lemma ChangePriorityEffect(k: Kernel, t: Task, p: nat)
    requires Settled(k) && t in k.tcb && p < MAX_PRIORITIES
    ensures var r := ChangePriority(k, t, p); OnlyPriority(k, r, t, p) && NoNewSleepers(k, r)
  {
    hide Consistent, InOrder;
    assert InPlace(k, t);
    MoveToReadyEffect(k.(tcb := k.tcb[t := k.tcb[t].(priority := p)]), t);
  }

  lemma OthersInPlace(k: Kernel, j: Kernel, t: Task)
    requires ReadyInPlace(k) && t in k.tcb && j.state == k.state && j.top == k.top && j.tcb.Keys == k.tcb.Keys
    requires forall u | u in k.tcb && u != t :: j.tcb[u] == k.tcb[u]
    ensures forall u | u in j.tcb && u != t :: InPlace(j, u)
    ensures !k.IsReady(t) ==> InPlace(j, t)
  {
    assert InPlace(k, t);
    forall u | u in j.tcb && u != t
      ensures InPlace(j, u)
    {
      assert InPlace(k, u);
    }
  }

  ghost predicate OnlyPriority(k: Kernel, r: Kernel, t: Task, p: nat) {
    && t in k.tcb && t in k.state.container
    && r == k.(state := r.state, tcb := k.tcb[t := k.tcb[t].(priority := p)], top := r.top)
    && r.state.container == k.state.container[t := if k.IsReady(t) then Ready(p) else k.state.container[t]]
  }

  lemma ChangePriorityKeepsInv(k: Kernel, t: Task, p: nat)
    requires Inv(k) && t in k.tcb && p < MAX_PRIORITIES
    ensures Inv(ChangePriority(k, t, p)) && OnlyPriority(k, ChangePriority(k, t, p), t, p)
  {
    hide Settled, EpochsAreRight, CacheIsLow, SwitchIsSafe, Consistent, ChangePriority;
    ChangePriorityKeepsSettled(k, t, p);
    ChangePriorityEffect(k, t, p);
    FewerSleepers(k, ChangePriority(k, t, p));
  }

  lemma SetBaseKeepsInv(k: Kernel, t: Task, b: nat)
    requires Inv(k) && t in k.tcb && b < MAX_PRIORITIES
    ensures Inv(SetBase(k, t, b))
  {
    SameSchedule(k, SetBase(k, t, b));
  }

  lemma SetHeldKeepsInv(k: Kernel, t: Task, n: nat)
    requires Inv(k) && t in k.tcb
    ensures Inv(SetHeld(k, t, n))
  {
    SameSchedule(k, SetHeld(k, t, n));
  }

  lemma PrioritiesAreBounded(k: Kernel, t: Task)
    requires Settled(k) && t in k.tcb
    ensures k.tcb[t].priority < MAX_PRIORITIES && k.tcb[t].base < MAX_PRIORITIES
  {
  }

  lemma PrioritySetKeepsInv(k: Kernel, t: Task, p: nat)
    requires Inv(k) && t in k.tcb && p < MAX_PRIORITIES
    ensures Inv(PrioritySet(k, t, p))
  {
    hide Settled, EpochsAreRight, CacheIsLow, SwitchIsSafe, Consistent, ChangePriority;
    PrioritiesAreBounded(k, t);
    SetBaseKeepsInv(k, t, p);
    var used := if k.tcb[t].base == k.tcb[t].priority then p else k.tcb[t].priority;
    ChangePriorityKeepsInv(SetBase(k, t, p), t, used);
    YieldKeepsInv(ChangePriority(SetBase(k, t, p), t, used), true);
  }

  lemma DisinheritKeepsInv(k: Kernel)
    requires Inv(k) && k.tcb[k.current].held > 0
    ensures Inv(Disinherit(k).0)
  {
    var t := k.current;
    SetHeldKeepsInv(k, t, k.tcb[t].held - 1);
    if Disinherit(k).1 {
      DisinheritMovesCurrent(k);
    }
  }

  /** The giver is put in the ready list of its base priority, wherever it was. */
  lemma DisinheritMovesCurrent(k: Kernel)
    requires Inv(k) && k.tcb[k.current].held > 0 && Disinherit(k).1
    ensures Inv(Disinherit(k).0)
  {
    hide Consistent, InOrder;
    var t := k.current;
    var j := SetHeld(k, t, k.tcb[t].held - 1);
    var i := j.(tcb := j.tcb[t := j.tcb[t].(priority := k.tcb[t].base)]);
    OthersInPlace(k, i, t);
    MoveToReadyKeeps(i, t);
    MoveToReadyEffect(i, t);
    FewerSleepers(k, Disinherit(k).0);
  }

  /** Only the giver's control block and place change. */
  lemma DisinheritEffect(k: Kernel)
    requires WellFormed(k) && k.tcb[k.current].held > 0
    ensures var (r, moved) := Disinherit(k);
            var t := k.current;
            && moved == (k.tcb[t].priority != k.tcb[t].base && k.tcb[t].held == 1)
            && r == k.(state := r.state, tcb := r.tcb, top := r.top)
            && r.tcb == k.tcb[t := k.tcb[t].(held := k.tcb[t].held - 1,
                                             priority := if moved then k.tcb[t].base else k.tcb[t].priority)]
            && (forall u | u != t :: r.IsReady(u) <==> k.IsReady(u))
  {
    var t := k.current;
    var j := SetHeld(k, t, k.tcb[t].held - 1);
    if Disinherit(k).1 {
      MoveToReadyEffect(j.(tcb := j.tcb[t := j.tcb[t].(priority := k.tcb[t].base)]), t);
    }
  }

  lemma GiveMutexKeepsInv(k: Kernel, list: nat)
    requires Inv(k) && k.tcb[k.current].held > 0
    ensures Inv(GiveMutex(k, list))
  {
    hide Settled, EpochsAreRight, CacheIsLow, SwitchIsSafe, Consistent, Disinherit, RemoveFromEventList;
    DisinheritKeepsInv(k);
    DisinheritEffect(k);
    var (j, moved) := Disinherit(k);
    YieldKeepsInv(j, moved);
    if j.event.Of(WaitingFor(list)).items != [] {
      RemoveFromEventListKeepsInv(j, list);
      EventHeadIsTask(j, WaitingFor(list));
      YieldKeepsInv(RemoveFromEventList(j, list), Higher(j, j.event.Of(WaitingFor(list)).items[0]));
    }
  }

  lemma MutexKeepsInv(k: Kernel, m: MutexStep)
    requires Inv(k) && IsTask(k, k.current) && MutexAllowed(k, m)
    ensures Inv(NextMutex(k, m))
  {
    hide Settled, EpochsAreRight, CacheIsLow, SwitchIsSafe, Consistent, ChangePriority, GiveMutex;
    match m
    case DoInherit(h) =>
      PrioritiesAreBounded(k, k.current);
      ChangePriorityKeepsInv(k, h, k.tcb[k.current].priority);
    case DoDisinheritAfterTimeout(h, p) =>
      PrioritiesAreBounded(k, h);
      ChangePriorityKeepsInv(k, h, PriorityToUse(k, h, p));
    case DoTake => SetHeldKeepsInv(k, k.current, k.tcb[k.current].held + 1);
    case DoGive(list) => GiveMutexKeepsInv(k, list);
  }

  // ----- runs -----

  /** Every step keeps the invariant. */
  lemma StepKeepsInv(k: Kernel, s: Step)
    requires Inv(k) && Allowed(k, s)
    ensures Inv(Next(k, s))
  {
    hide Settled, EpochsAreRight, CacheIsLow, SwitchIsSafe, Consistent;
    hide TickInterrupt, SwitchInterrupt, ResumeAll, BlockCurrent, BlockOnEvent, RemoveFromEventList,
      NotifyWait, Notify, NotifyFromISR, Suspend, ResetNextUnblock, Resume, ResumeFromISR, AbortDelay, PrioritySet,
      NextMutex, MoveToReady;
    match s
    case TickIsr => TickKeepsInv(k);
    case SwitchIsr => SwitchKeepsInv(k);
    case DoYield => YieldKeepsInv(k, true);
    case DoSuspendAll => SuspendAllKeepsInv(k);
    case DoResumeAll => ResumeAllKeepsInv(k);
    case DoCatchUp(n) => CatchUpKeepsInv(k, n);
    case DoBlock(ticks, indefinitely) => BlockKeepsInv(k, ticks, indefinitely);
    case DoBlockOnEvent(list, i, ticks, indefinitely) => BlockOnEventKeepsInv(k, list, i, ticks, indefinitely);
    case DoRemoveFromEventList(list) => RemoveFromEventListKeepsInv(k, list);
    case DoRemoveFromUnordered(t) => WakeAndPendYieldKeepsInv(k, t, Higher(k, t));
    case DoNotifyWait(ticks) => NotifyWaitKeepsInv(k, ticks);
    case DoNotifyDone => NotifyStateKeepsInv(k, k.current, NotWaiting);
    case DoNotify(t) => NotifyKeepsInv(k, t);
    case DoNotifyFromISR(t) => NotifyKeepsInv(k, t);
    case DoSuspend(t) => SuspendKeepsInv(k, t);
    case DoResetUnblock => ResetKeepsInv(k);
    case DoResume(t) => ResumeKeepsInv(k, t);
    case DoResumeFromISR(t) => ResumeKeepsInv(k, t);
    case DoAbortDelay(t) => ResumeKeepsInv(k, t);
    case DoPrioritySet(t, p) => PrioritySetKeepsInv(k, t, p);
    case DoMutex(m) => MutexKeepsInv(k, m);
  }

  lemma SuspendAllKeepsInv(k: Kernel)
    requires Inv(k)
    ensures Inv(SuspendAll(k))
  {
    SameButFlags(k, SuspendAll(k));
  }

  lemma ResetKeepsInv(k: Kernel)
    requires Inv(k)
    ensures Inv(ResetNextUnblock(k))
  {
    ResetKeeps(k);
  }

  ghost predicate StepsTo(k: Kernel, s: Step, r: Kernel) {
    WellFormed(k) && Allowed(k, s) && r == Next(k, s)
  }

  /** What vTaskStartScheduler leaves: every task ready at its base priority, the running one among
  the highest, nobody waiting, and no tick yet. */
  ghost predicate Initial(k: Kernel) {
    && WellFormed(k)
    && (forall t | t in k.tcb :: k.state.container[t] == Ready(k.tcb[t].base) && IsFresh(k.tcb[t]) && k.tcb[t].base <= k.top)
    && k.event.container == map[]
    && k.clock == Clock(0, MAX_DELAY, 0, 0, false, 0, 0, 0)
    && k.top == k.tcb[k.current].base < MAX_PRIORITIES
    && k.suspended == 0 && !k.yieldPending && !k.yieldRequested
  }

  predicate IsFresh(t: Tcb) {
    t.priority == t.base && t.held == 0 && t.notify == NotWaiting
  }

  lemma InitialIsSound(k: Kernel)
    requires Initial(k)
    ensures Inv(k) && TopRuns(k)
  {
    InitialIsSettled(k);
    if k.Pending() != [] {
      EventHeadIsTask(k, PendingReady);
    }
  }

  lemma InitialIsSettled(k: Kernel)
    requires Initial(k)
    ensures Settled(k) && k.DelayedTasks() == []
  {
    forall p | p == k.Delayed() || p == k.Overflow()
      ensures k.state.Of(p).items == []
    {
      if k.state.Of(p).items != [] {
        HeadIsTask(k, p);
      }
    }
    assert forall t | t in k.tcb :: InPlace(k, t);
  }

  ghost predicate IsRun(ks: seq<Kernel>, steps: seq<Step>) {
    && |ks| == |steps| + 1 && Initial(ks[0])
    && forall i | 0 <= i < |steps| :: StepsTo(ks[i], steps[i], ks[i + 1])
  }

  lemma {:induction false} EveryStateIsSound(ks: seq<Kernel>, steps: seq<Step>, n: nat)
    requires IsRun(ks, steps) && n < |ks|
    ensures Inv(ks[n])
  {
    hide Inv, Next, Allowed, WellFormed, Initial;
    if n > 0 {
      EveryStateIsSound(ks, steps, n - 1);
      assert StepsTo(ks[n - 1], steps[n - 1], ks[n]);
      StepKeepsInv(ks[n - 1], steps[n - 1]);
    } else {
      InitialIsSound(ks[0]);
    }
  }
}
