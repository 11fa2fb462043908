/** What the scheduler's operations achieve, beyond what they keep. */
module KernelEffects {
  import opened Ticks
  import opened ListModel
  import opened ItemLists
  import opened Kernel
  import opened KernelProofs
  import opened KernelSteps
  import opened KernelTheorems
  import opened KernelGuarantee
  import opened KernelWake

  // ----- waking -----

  /** The first task on an event list leaves it, and is ready at once, or pending while the
  scheduler is suspended; the others stay, in order. */
  lemma RemoveWakesHead(k: Kernel, list: nat)
    requires WellFormed(k) && k.event.Of(WaitingFor(list)).items != []
    ensures var r, w := RemoveFromEventList(k, list), k.event.Of(WaitingFor(list)).items[0];
            && w in k.tcb
            && r.event.Of(WaitingFor(list)).items == k.event.Of(WaitingFor(list)).items[1..]
            && (if k.suspended == 0 then r.IsReady(w) && w !in r.event.container
                else r.event.Holds(PendingReady, w) && r.state == k.state)
            && (k.tcb[w].priority > k.tcb[k.current].priority ==> r.yieldPending)
  {
    hide Consistent;
    EventHeadIsTask(k, WaitingFor(list));
    var w := k.event.Of(WaitingFor(list)).items[0];
    var j := DropEvent(k, w);
    DropEventEffect(k, w);
    UnlinkKeeps(k.event, w);
    MoveToReadyEffect(j, w);
    AppendKeeps(j.event, PendingReady, w);
    PendHolds(j, w);
  }

  lemma PendHolds(j: Kernel, w: Task)
    requires WellFormed(j) && w in j.tcb && w !in j.event.container
    ensures Pend(j, w).event.Holds(PendingReady, w)
    ensures forall p | p != PendingReady :: Pend(j, w).event.Of(p) == j.event.Of(p)
  {
    AppendKeeps(j.event, PendingReady, w);
  }

  /** The given task leaves its event list and is ready at once, the last of its priority; the others on
  that list stay, in order, and nobody else moves. */
  lemma RemoveUnorderedWakes(k: Kernel, t: Task)
    requires WellFormed(k) && t in k.event.container
    ensures var r := RemoveFromUnorderedEventList(k, t);
            && t in k.tcb && t in r.state.container && r.state.container[t] == Ready(k.tcb[t].priority)
            && t !in r.event.container
            && (forall u | u != t :: u in r.event.container <==> u in k.event.container)
            && OthersStay(k, r, t)
            && (k.tcb[t].priority > k.tcb[k.current].priority ==> r.yieldPending)
  {
    hide Consistent;
    DropEventEffect(k, t);
    MoveToReadyEffect(DropEvent(k, t), t);
  }

  /** Everyone but t is in the same state list, with the same control block. */
  ghost predicate OthersStay(k: Kernel, r: Kernel, t: Task) {
    r.current == k.current && r.tcb.Keys == k.tcb.Keys
    && forall u | u in k.tcb && u != t ::
         u in r.state.container && u in k.state.container && r.state.container[u] == k.state.container[u] && r.tcb[u] == k.tcb[u]
  }

  /** A task that is made ready is at the end of its list: by InsertedLastIsPickedLast it runs after
  all the others of its priority. */
  lemma ReadiedIsLast(k: Kernel, t: Task)
    requires WellFormed(k) && t in k.tcb
    ensures var r, p := MoveToReady(k, t), Ready(k.tcb[t].priority);
            t in k.state.container && k.state.Holds(k.state.container[t], t) && k.state.Unlink(t).Of(p).Valid()
            && r.state.Of(p) == k.state.Unlink(t).Of(p).InsertEnd(t)
  {
    UnlinkKeeps(k.state, t);
    AppendKeeps(k.state.Unlink(t), Ready(k.tcb[t].priority), t);
  }

  /** A notification wakes the task it is for exactly if that task waits for one; it is never lost,
  as the state says that it was received. */
  lemma NotifyWakes(k: Kernel, t: Task)
    requires WellFormed(k) && IsTask(k, t) && NotifyAssertHolds(k, t)
    ensures var r, i := Notify(k, t), NotifyFromISR(k, t);
            && r.tcb[t].notify == Received && i.tcb[t].notify == Received
            && (k.tcb[t].notify == WaitingNotification ==>
                  && r.IsReady(t)
                  && (if k.suspended == 0 then i.IsReady(t) else i.event.Holds(PendingReady, t)))
            && (k.tcb[t].notify != WaitingNotification ==>
                  r.state == k.state && i.state == k.state && r.event == k.event && i.event == k.event)
  {
    hide Consistent;
    var j := SetNotify(k, t, Received);
    MoveToReadyEffect(j, t);
    if k.tcb[t].notify == WaitingNotification {
      PendHolds(j, t);
    }
  }

  /** A task that is suspended is off every event list, is not ready and waits for no notification;
  nobody else moves. */
  lemma SuspendMeans(k: Kernel, t: Task)
    requires WellFormed(k) && t in k.tcb
    ensures var s := Suspend(k, t);
            && IsSuspended(s, t) && !s.IsReady(t) && s.tcb[t].notify != WaitingNotification
            && s.tcb[t].priority == k.tcb[t].priority
            && (forall u | u in k.tcb && u != t :: s.state.container[u] == k.state.container[u] && s.tcb[u] == k.tcb[u])
            && s.state.container.Keys == k.state.container.Keys && s.current == k.current
  {
    hide Consistent;
    DropEventEffect(k, t);
    ToSuspendedEffect(DropEvent(k, t), t);
  }

  /** Suspending another task and resuming it makes it ready at its priority, wherever it was. */
  lemma SuspendThenResume(k: Kernel, t: Task)
    requires WellFormed(k) && t in k.tcb && t != k.current
    ensures var r := Resume(Suspend(k, t), t);
            && t in r.state.container && r.state.container[t] == Ready(k.tcb[t].priority)
            && (forall u | u in k.tcb && u != t :: u in r.state.container && r.state.container[u] == k.state.container[u])
            && (k.tcb[t].priority >= k.tcb[k.current].priority ==> r.yieldRequested)
  {
    hide Consistent, Suspend;
    SuspendMeans(k, t);
    MoveToReadyEffect(Suspend(k, t), t);
  }

  /** vTaskResume readies exactly a task that is suspended (and is not the running one); and it asks
  for a switch if that task may run. */
  lemma ResumeMeans(k: Kernel, t: Task)
    requires WellFormed(k) && t in k.tcb
    ensures var r := Resume(k, t);
            if t != k.current && IsSuspended(k, t) then
              && r.IsReady(t) && r.state.container[t] == Ready(k.tcb[t].priority) && OthersStay(k, r, t) && r.event == k.event
              && (k.tcb[t].priority >= k.tcb[k.current].priority ==> r.yieldRequested)
            else r == k
  {
    hide Consistent;
    MoveToReadyEffect(k, t);
  }

  /** xTaskResumeFromISR readies such a task too, or holds it pending while the scheduler is suspended,
  to be readied when it resumes. */
  lemma ResumeFromISRMeans(k: Kernel, t: Task)
    requires WellFormed(k) && t in k.tcb
    ensures var r := ResumeFromISR(k, t);
            if !IsSuspended(k, t) then r == k
            else if k.suspended == 0 then
              && r.IsReady(t) && r.state.container[t] == Ready(k.tcb[t].priority) && OthersStay(k, r, t) && r.event == k.event
              && (k.tcb[t].priority >= k.tcb[k.current].priority ==> r.yieldPending)
            else r.state == k.state && r.event.Holds(PendingReady, t)
                 && forall p | p != PendingReady :: r.event.Of(p) == k.event.Of(p)
  {
    hide Consistent;
    MoveToReadyEffect(k, t);
    if IsSuspended(k, t) {
      PendHolds(k, t);
    }
  }

  // ----- aborting a delay -----

  /** The same state once another task runs. */
  function RunBy(k: Kernel, other: Task): Kernel {
    k.(current := other)
  }

  /** xTaskAbortDelay undoes any kind of waiting: on an event list or for a notification, for a time or
  for ever, and delaying for a time.  The task is then ready and on no event list. */
  lemma AbortUndoesWaiting(k: Kernel, s: Step, other: Task)
    requires Inv(k) && Allowed(k, s) && other in k.tcb && other != k.current
    requires TimedBlock(s) || s.DoBlockOnEvent? || (s.DoNotifyWait? && s.ticks > 0)
    ensures var (r, t) := (RunBy(Next(k, s), other), k.current);
            && WellFormed(r) && t in r.tcb && t in r.state.container && IsBlocked(r, t)
            && AbortDelay(r, t).IsReady(t) && t !in AbortDelay(r, t).event.container
  {
    hide Settled, EpochsAreRight, CacheIsLow, SwitchIsSafe, Consistent, BlockCurrent, BlockOnEvent, NotifyWait;
    match s
    case DoBlock(ticks, indefinitely) => BlockMeans(k, ticks, indefinitely);
    case DoBlockOnEvent(list, i, ticks, indefinitely) => BlockOnEventMeans(k, list, i, ticks, indefinitely);
    case DoNotifyWait(ticks) => NotifyWaitMeans(k, ticks);
    AbortReadies(RunBy(Next(k, s), other), k.current);
  }

  lemma AbortReadies(k: Kernel, t: Task)
    requires WellFormed(k) && t in k.tcb && t in k.state.container
    ensures IsBlocked(k, t) ==> AbortDelay(k, t).IsReady(t) && t !in AbortDelay(k, t).event.container
    ensures !IsBlocked(k, t) ==> AbortDelay(k, t) == k
  {
    hide Consistent;
    DropEventEffect(k, t);
    MoveToReadyEffect(DropEvent(k, t), t);
  }

  /** It does nothing to a task that was suspended, or that is ready. */
  lemma AbortLeavesSuspended(k: Kernel, t: Task)
    requires WellFormed(k) && t in k.tcb
    ensures AbortDelay(Suspend(k, t), t) == Suspend(k, t)
    ensures k.IsReady(t) ==> AbortDelay(k, t) == k
  {
    hide Consistent, Suspend;
    SuspendMeans(k, t);
    AbortReadies(Suspend(k, t), t);
  }

  // ----- time -----

  /** A tick interrupt asks for a switch exactly if one was asked for already, or the scheduler runs and
  the tick readies a task that may run, a task of the same priority waits for its turn, or a yield was
  held back. */
  lemma TickInterruptRequests(k: Kernel)
    requires Inv(k)
    ensures TickInterrupt(k).yieldRequested <==>
              || k.yieldRequested
              || (k.suspended == 0
                  && (|| (exists t :: WakesNext(k, t) && t in k.tcb && k.tcb[t].priority >= k.tcb[k.current].priority)
                      || ReadyPeers(TickInterrupt(k)) > 1 || TickInterrupt(k).yieldPending))
  {
    hide Settled, EpochsAreRight, CacheIsLow, SwitchIsSafe, Consistent, CountTick;
    if k.suspended == 0 {
      var c := k.(clock := k.clock.(interrupts := k.clock.interrupts + 1));
      SameButFlags(k, c);
      CountTickKeeps(c);
      TickAsksForSwitch(c);
      SameWaking(k, c);
    }
  }

  lemma SameWaking(k: Kernel, c: Kernel)
    requires c == k.(clock := c.clock) && c.clock.now == k.clock.now && c.clock.swapped == k.clock.swapped
    ensures forall t :: WakesNext(k, t) <==> WakesNext(c, t)
  {
  }

  /** Resuming asks for a switch exactly when it is the outermost and one is pending; an inner one only
  counts. */
  lemma ResumeRequests(k: Kernel)
    requires Inv(k) && k.suspended > 0
    ensures k.suspended > 1 ==> ResumeAll(k) == k.(suspended := k.suspended - 1)
    ensures k.suspended == 1 ==> (ResumeAll(k).yieldRequested <==> k.yieldRequested || ResumeAll(k).yieldPending)
    ensures k.suspended == 1 && k.yieldPending ==> ResumeAll(k).yieldPending
  {
    hide Settled, EpochsAreRight, CacheIsLow, SwitchIsSafe, Consistent, AllLater, CountTicks, AfterDrain;
    var j := k.(suspended := k.suspended - 1);
    SameButFlags(k, j);
    AfterDrainKeeps(j);
    CountTicksKeeps(AfterDrain(j), k.clock.pended);
    DrainKeepsYield(j);
    TicksKeepYield(AfterDrain(j), k.clock.pended);
  }

  /** Suspensions nest: an inner one and its resume change nothing; and an outermost one in which nothing
  happens changes nothing either, unless a yield was pending before. */
  lemma SuspensionsNest(k: Kernel)
    requires Inv(k)
    ensures k.suspended > 0 ==> ResumeAll(SuspendAll(k)) == k
    ensures k.suspended == 0 && !k.yieldPending ==> SuspendAll(k).suspended == 1 && ResumeAll(SuspendAll(k)) == k
  {
    hide Settled, EpochsAreRight, CacheIsLow, SwitchIsSafe, Consistent;
  }

  lemma {:induction false} DrainKeepsYield(k: Kernel)
    requires WellFormed(k)
    ensures k.yieldPending ==> DrainPending(k).yieldPending && AfterDrain(k).yieldPending
    decreases |k.Pending()|
  {
    hide WellFormed, MoveToReady, DropEvent;
    if k.Pending() != [] {
      DrainOneTakesHead(k);
      EventHeadIsTask(k, PendingReady);
      DrainOneYields(k);
      DrainKeepsYield(DrainOne(k));
    }
  }

  /** And one is pending then if a task that was held pending may run. */
  lemma {:induction false} PendingMayRun(k: Kernel, t: Task)
    requires Core(k) && k.event.Holds(PendingReady, t) && t in k.tcb && k.tcb[t].priority >= k.tcb[k.current].priority
    ensures DrainPending(k).yieldPending && AfterDrain(k).yieldPending
    decreases |k.Pending()|
  {
    hide Settled, EpochsAreRight, CacheIsLow, SwitchIsSafe, WellFormed, MoveToReady, DropEvent;
    DrainOneKeeps(k);
    DrainOneTakesHead(k);
    DrainOneYields(k);
    if t == k.Pending()[0] {
      DrainKeepsYield(DrainOne(k));
    } else {
      PendingMayRun(DrainOne(k), t);
    }
  }

  lemma DrainOneYields(k: Kernel)
    requires WellFormed(k) && k.Pending() != []
    ensures k.yieldPending ==> DrainOne(k).yieldPending
    ensures var t := k.Pending()[0];
            t in k.tcb && (k.tcb[t].priority >= k.tcb[k.current].priority ==> DrainOne(k).yieldPending)
    ensures DrainOne(k).tcb == k.tcb && DrainOne(k).current == k.current
    ensures DrainPending(k) == DrainPending(DrainOne(k))
  {
    hide Consistent;
    EventHeadIsTask(k, PendingReady);
    DropEventEffect(k, k.Pending()[0]);
    MoveToReadyEffect(DropEvent(k, k.Pending()[0]), k.Pending()[0]);
    UnlinkKeeps(k.event, k.Pending()[0]);
  }

  lemma {:induction false} TicksKeepYield(k: Kernel, n: nat)
    requires Core(k) && SwitchIsSafe(k)
    ensures k.yieldPending ==> CountTicks(k, n).yieldPending
    decreases n
  {
    hide Settled, EpochsAreRight, CacheIsLow, SwitchIsSafe, WellFormed, AllLater, CountTick;
    if n > 0 {
      var (c, s) := CountTick(k);
      OneTick(k);
      SameButFlags(c, PendYield(c, s));
      CountTickKeeps(k);
      TicksKeepYield(PendYield(c, s), n - 1);
    }
  }

  /** The cached unblock time, when it is computed afresh, is that of the first sleeper of this epoch. */
  lemma ResetIsExact(k: Kernel)
    requires Core(k)
    ensures var n := ResetNextUnblock(k).clock.nextUnblock;
            && (k.DelayedTasks() == [] ==> n == MAX_DELAY)
            && (k.DelayedTasks() != [] ==> exists t :: IsDelayed(k, t) && n == k.sleep[t].wake)
            && forall t | IsDelayed(k, t) :: n <= k.sleep[t].wake
  {
    hide EpochsAreRight;
    ResetEffect(k);
    if k.DelayedTasks() != [] {
      HeadIsTask(k, k.Delayed());
      assert IsDelayed(k, k.DelayedTasks()[0]);
    }
    var r := ResetNextUnblock(k);
    assert forall t | IsDelayed(k, t) :: t in r.state.container && r.state.container[t] == r.Delayed();
  }

  ghost predicate IsDelayed(k: Kernel, t: Task) {
    t in k.state.container && k.state.container[t] == k.Delayed() && t in k.sleep
  }

  // ----- priorities -----

  /** vTaskPrioritySet sets the base priority, and the priority in use unless that is inherited; a
  ready task is then in the list of the priority in use, and nobody else changes. */
  lemma PrioritySetMeans(k: Kernel, t: Task, p: nat)
    requires Inv(k) && t in k.tcb && p < MAX_PRIORITIES
    ensures var r := PrioritySet(k, t, p);
            && r.tcb[t].base == p
            && r.tcb[t].priority == (if k.tcb[t].priority == k.tcb[t].base then p else k.tcb[t].priority)
            && (k.IsReady(t) ==> r.state.container[t] == Ready(r.tcb[t].priority))
            && (forall u | u in k.tcb && u != t :: r.tcb[u] == k.tcb[u] && r.state.container[u] == k.state.container[u])
            && (t != k.current && p > k.tcb[t].base && p >= k.tcb[k.current].priority ==> r.yieldRequested)
            && (t == k.current && p < k.tcb[t].base ==> r.yieldRequested)
  {
    hide Settled, EpochsAreRight, CacheIsLow, SwitchIsSafe, Consistent, ChangePriority;
    PrioritiesAreBounded(k, t);
    SetBaseKeepsInv(k, t, p);
    var used := if k.tcb[t].base == k.tcb[t].priority then p else k.tcb[t].priority;
    ChangePriorityEffect(SetBase(k, t, p), t, used);
    ReadyAtPriority(k, t);
  }

  lemma ReadyAtPriority(k: Kernel, t: Task)
    requires Settled(k) && t in k.tcb
    ensures k.IsReady(t) ==> k.state.container[t] == Ready(k.tcb[t].priority)
  {
    assert InPlace(k, t);
  }

  /** Inheritance raises the holder to the running task's priority if it was lower, moves it to that
  ready list if it is ready, and changes nobody else. */
  lemma InheritMeans(k: Kernel, holder: Task)
    requires Inv(k) && holder in k.tcb
    ensures var r := Inherit(k, holder);
            var p := k.tcb[k.current].priority;
            && r.tcb[holder].priority == (if k.tcb[holder].priority < p then p else k.tcb[holder].priority)
            && r.tcb[holder].base == k.tcb[holder].base
            && (k.IsReady(holder) ==> r.state.container[holder] == Ready(r.tcb[holder].priority))
            && (forall u | u in k.tcb && u != holder :: r.tcb[u] == k.tcb[u] && r.state.container[u] == k.state.container[u])
  {
    hide Settled, EpochsAreRight, CacheIsLow, SwitchIsSafe, Consistent, ChangePriority;
    PrioritiesAreBounded(k, k.current);
    ChangePriorityEffect(k, holder, k.tcb[k.current].priority);
    ReadyAtPriority(k, holder);
  }

  /** The priority is the greater of two. */
  predicate IsMaximum(p: nat, a: nat, b: nat) {
    p >= a && p >= b && (p == a || p == b)
  }

  /** A time-out sets the holder of exactly one mutex, unless it is the running task, to the greater of
  its base priority and the highest one still waiting, in the right list if it is ready; it changes
  nothing else, and nothing at all for any other holder. */
  lemma AfterTimeoutMeans(k: Kernel, holder: Task, highest: nat)
    requires Inv(k) && holder in k.tcb && highest < MAX_PRIORITIES
    ensures var r := DisinheritAfterTimeout(k, holder, highest);
            if k.tcb[holder].held == 1 && holder != k.current then
              && holder in r.tcb && IsMaximum(r.tcb[holder].priority, k.tcb[holder].base, highest)
              && r.tcb[holder] == k.tcb[holder].(priority := r.tcb[holder].priority)
              && (k.IsReady(holder) ==> r.IsReady(holder) && r.state.container[holder] == Ready(r.tcb[holder].priority))
              && (!k.IsReady(holder) ==> r.state.container == k.state.container)
              && OthersStay(k, r, holder) && r.event == k.event
            else r == k
  {
    hide Settled, EpochsAreRight, CacheIsLow, SwitchIsSafe, Consistent, ChangePriority;
    PrioritiesAreBounded(k, holder);
    ReadyAtPriority(k, holder);
    ChangePriorityEffect(k, holder, PriorityToUse(k, holder, highest));
  }

  /** Giving a mutex: the giver holds one less, and with its last one it is back at its base priority;
  the first waiter, if there is one, leaves the list and is ready or pending, and the others stay. */
  lemma GiveMeans(k: Kernel, list: nat)
    requires Inv(k) && k.tcb[k.current].held > 0 && k.current !in k.event.container
    ensures var r, me, s := GiveMutex(k, list), k.tcb[k.current], k.event.Of(WaitingFor(list)).items;
            && r.tcb == k.tcb[k.current := me.(held := me.held - 1, priority := if me.held == 1 then me.base else me.priority)]
            && (s == [] ==> r.event == k.event)
            && (s != [] ==>
                  && r.event.Of(WaitingFor(list)).items == s[1..]
                  && (if k.suspended == 0 then r.IsReady(s[0]) && s[0] !in r.event.container
                      else r.event.Holds(PendingReady, s[0])))
  {
    hide Settled, EpochsAreRight, CacheIsLow, SwitchIsSafe, Consistent, Disinherit, RemoveFromEventList;
    DisinheritKeepsInv(k);
    DisinheritEffect(k);
    var j := Disinherit(k).0;
    if k.event.Of(WaitingFor(list)).items != [] {
      RemoveWakesHead(j, list);
      RemoveEffect(j, list);
    }
  }

  // ----- taking turns -----

  /** A switch picks the next entry of the highest non-empty ready list and moves the index of that
  list on by one, so as long as that list does not change its tasks take turns: by
  PicksVisitEachOnce each runs once in as many switches as there are. */
  lemma SwitchPicksNext(k: Kernel)
    requires Inv(k) && k.suspended == 0
    ensures var q := ScanDown(k.state, k.top);
            var ring, r := k.state.Of(Ready(q)), SwitchInterrupt(k);
            && ring.items != [] && ring.Valid()
            && r.current == ring.Pick(1) && r.state.Of(Ready(q)) == ring.After(1)
            && (forall p: StatePlace | p != Ready(q) :: r.state.Of(p) == k.state.Of(p))
            && !r.yieldPending && !r.yieldRequested
  {
    SelectionSucceeds(k);
    var q := ScanDown(k.state, k.top);
    var ring := k.state.Of(Ready(q));
    assert ListOk(k.state, Ready(q));
    IndexKeeps(k.state, Ready(q), ring.Next());
    assert ring.After(0) == ring && ring.After(1) == ring.(index := ring.Next()).After(0);
  }
}
