/** The scheduler's code: the variables of tasks.c and the functions that update them, each proved
to do what its function in module Kernel says.  The lists are those of module ItemLists; that the
pointers behind them behave so is proved in module IntrusiveList. */
module Scheduler {
  import opened Ticks
  import opened ListModel
  import opened ItemLists
  import opened K = Kernel

  class Tasks {
    var stateLists: Lists<StatePlace>    // pxReadyTasksLists, the delayed lists, xSuspendedTaskList
    var eventLists: Lists<EventPlace>    // the event lists of queues and groups, xPendingReadyList
    var tcbs: map<Task, Tcb>
    var sleeps: map<Task, Sleep>         // item values of the state list items
    var xTickCount: Tick
    var xNextTaskUnblockTime: Tick
    var xNumOfOverflows: nat
    var xPendedTicks: Tick
    var listsSwapped: bool               // what pxDelayedTaskList points to
    var pxCurrentTCB: Task
    var uxTopReadyPriority: nat
    var uxSchedulerSuspended: nat
    var xYieldPending: bool
    var softwareInterrupt: bool          // what portYIELD sets
    var assertFailed: bool               // set by the assertions that are not the caller's duty
    const xIdleTask: Task
    // Absolute counts the program does not keep, to state what its 32-bit ones mean.
    var now: nat
    var interrupts: nat
    var dropped: nat

    ghost function Time(): Clock
      reads `xTickCount, `xNextTaskUnblockTime, `xNumOfOverflows, `xPendedTicks, `listsSwapped, `now, `interrupts, `dropped
    {
      Clock(xTickCount, xNextTaskUnblockTime, xNumOfOverflows, xPendedTicks, listsSwapped, now, interrupts, dropped)
    }

    ghost function State(): Kernel
      reads this
    {
      K.Kernel(stateLists, eventLists, tcbs, sleeps, Time(), pxCurrentTCB, xIdleTask, uxTopReadyPriority,
                    uxSchedulerSuspended, xYieldPending, softwareInterrupt)
    }

    function Delayed(): StatePlace
      reads `listsSwapped
    {
      if listsSwapped then DelayedTwo else DelayedOne
    }

    function Overflow(): StatePlace
      reads `listsSwapped
    {
      if listsSwapped then DelayedOne else DelayedTwo
    }

    // ----- list handling -----

    /** Unlink the state item, then prvAddTaskToReadyList. */
    method MoveTaskToReady(t: Task)
      requires WellFormed(State()) && t in tcbs
      modifies `stateLists, `uxTopReadyPriority
      ensures State() == MoveToReady(old(State()), t)
    {
      UnlinkKeeps(stateLists, t);
      AppendKeeps(stateLists.Unlink(t), Ready(tcbs[t].priority), t);
      stateLists := stateLists.Unlink(t);
      if tcbs[t].priority > uxTopReadyPriority {
        uxTopReadyPriority := tcbs[t].priority;
      }
      stateLists := stateLists.Append(Ready(tcbs[t].priority), t);
    }

    method RemoveEventItem(t: Task)
      requires WellFormed(State()) && t in tcbs
      modifies `eventLists
      ensures State() == DropEvent(old(State()), t)
    {
      if t in eventLists.container {
        UnlinkKeeps(eventLists, t);
        eventLists := eventLists.Unlink(t);
      }
    }

    /** prvResetNextTaskUnblockTime. */
    method ResetNextTaskUnblockTime()
      requires WellFormed(State())
      modifies `xNextTaskUnblockTime
      ensures State() == ResetNextUnblock(old(State()))
    {
      var d := stateLists.Of(Delayed()).items;
      if d == [] {
        xNextTaskUnblockTime := MAX_DELAY;
      } else {
        HeadIsTask(State(), State().Delayed());
        xNextTaskUnblockTime := sleeps[d[0]].wake;
      }
    }

    // ----- the tick -----

    /** taskSWITCH_DELAYED_LISTS. */
    method SwitchDelayedLists()
      requires WellFormed(State())
      modifies `listsSwapped, `xNumOfOverflows, `xNextTaskUnblockTime
      ensures State() == ResetNextUnblock(old(State()).(clock := old(Time()).(swapped := !old(listsSwapped),
                                                                             overflows := old(xNumOfOverflows) + 1)))
    {
      listsSwapped := !listsSwapped;
      xNumOfOverflows := xNumOfOverflows + 1;
      ResetNextTaskUnblockTime();
    }

    method CountOne()
      requires WellFormed(State())
      modifies `xTickCount, `listsSwapped, `xNumOfOverflows, `xNextTaskUnblockTime, `now
      ensures State() == Advance(old(State()))
    {
      xTickCount := Wrap(xTickCount + 1);
      now := now + 1;
      if xTickCount == 0 {
        SwitchDelayedLists();
      }
    }

    /** The loop over the delayed list in xTaskIncrementTick. */
    method UnblockExpired() returns (xSwitchRequired: bool)
      requires WellFormed(State())
      modifies `stateLists, `eventLists, `uxTopReadyPriority, `xNextTaskUnblockTime
      ensures (State(), xSwitchRequired) == Expire(old(State()), false)
    {
      hide WellFormed, MoveToReady, DropEvent;
      xSwitchRequired := false;
      while true
        invariant WellFormed(State()) && xTickCount == old(xTickCount)
        invariant Expire(State(), xSwitchRequired) == Expire(old(State()), false)
        decreases |State().DelayedTasks()|
      {
        var d := stateLists.Of(Delayed()).items;
        if d == [] {
          xNextTaskUnblockTime := MAX_DELAY;
          break;
        }
        var xItemValue := ItemValue(d[0]);
        if xTickCount < xItemValue {
          xNextTaskUnblockTime := xItemValue;
          break;
        }
        ExpireStep(State(), xSwitchRequired);
        var mayRun := UnblockTask(d[0]);
        xSwitchRequired := xSwitchRequired || mayRun;
      }
    }

    /** listGET_LIST_ITEM_VALUE of the state item of the head of the delayed list. */
    method ItemValue(t: Task) returns (value: Tick)
      requires WellFormed(State()) && State().DelayedTasks() != [] && t == State().DelayedTasks()[0]
      ensures t in sleeps && t in tcbs && value == sleeps[t].wake
    {
      HeadIsTask(State(), State().Delayed());
      value := sleeps[t].wake;
    }

    /** Out of the blocked state: off the event list, if on one, and into the ready list. */
    method UnblockTask(t: Task) returns (mayRun: bool)
      requires WellFormed(State()) && t in tcbs
      modifies `stateLists, `eventLists, `uxTopReadyPriority
      ensures State() == MoveToReady(DropEvent(old(State()), t), t)
      ensures pxCurrentTCB in tcbs && mayRun == (tcbs[t].priority >= tcbs[pxCurrentTCB].priority)
    {
      RemoveEventItem(t);
      MoveTaskToReady(t);
      mayRun := tcbs[t].priority >= tcbs[pxCurrentTCB].priority;
    }

    /** xTaskIncrementTick. */
    method IncrementTick() returns (xSwitchRequired: bool)
      requires WellFormed(State())
      modifies this
      ensures old(uxSchedulerSuspended) == 0 ==> (State(), xSwitchRequired) == CountTick(old(State()))
      ensures old(uxSchedulerSuspended) > 0 ==>
                State() == old(State()).(clock := AddPended(old(Time()), 1)) && !xSwitchRequired
    {
      xSwitchRequired := false;
      if uxSchedulerSuspended == 0 {
        CountOne();
        if xTickCount >= xNextTaskUnblockTime {
          xSwitchRequired := UnblockExpired();
        }
        if |stateLists.Of(Ready(tcbs[pxCurrentTCB].priority)).items| > 1 {
          xSwitchRequired := true;
        }
        if xYieldPending {
          xSwitchRequired := true;
        }
      } else {
        dropped := dropped + (xPendedTicks + 1 - Wrap(xPendedTicks + 1));
        xPendedTicks := Wrap(xPendedTicks + 1);
      }
    }

    /** SysTick_Handler. */
    method SysTickHandler()
      requires WellFormed(State())
      modifies this
      ensures State() == TickInterrupt(old(State()))
    {
      hide Consistent, CountTick;
      interrupts := interrupts + 1;
      var xSwitchRequired := IncrementTick();
      if xSwitchRequired {
        softwareInterrupt := true;
      }
    }

    // ----- suspending the scheduler -----

    /** The first loop of xTaskResumeAll. */
    method DrainPendingReady() returns (any: bool)
      requires WellFormed(State())
      modifies `stateLists, `eventLists, `uxTopReadyPriority, `xYieldPending
      ensures State() == DrainPending(old(State())) && any == (old(State()).Pending() != [])
      ensures !any ==> State() == old(State())
    {
      hide WellFormed, MoveToReady, DropEvent;
      any := false;
      while eventLists.Of(PendingReady).items != []
        invariant WellFormed(State()) && DrainPending(State()) == DrainPending(old(State()))
        invariant any ==> old(State()).Pending() != []
        invariant !any ==> State() == old(State())
        decreases |State().Pending()|
      {
        var pxTCB := eventLists.Of(PendingReady).items[0];
        HeadIsDrained(State());
        any := true;
        var mayRun := UnblockTask(pxTCB);
        if mayRun {
          xYieldPending := true;
        }
      }
    }

    lemma HeadIsDrained(k: K.Kernel)
      requires WellFormed(k) && k.Pending() != []
      ensures var t := k.Pending()[0];
              && t in k.tcb && k.current in k.tcb
              && DrainPending(k) == DrainPending(DrainOne(k))
              && |DrainOne(k).Pending()| < |k.Pending()|
              && DrainOne(k) == PendYield(MoveToReady(DropEvent(k, t), t), k.tcb[t].priority >= k.tcb[k.current].priority)
    {
      EventHeadIsTask(k, PendingReady);
      UnlinkKeeps(k.event, k.Pending()[0]);
    }

    /** The second loop of xTaskResumeAll. */
    method CountPendedTicks(xPendedCounts: nat)
      requires WellFormed(State()) && uxSchedulerSuspended == 0
      modifies this
      ensures State() == CountTicks(old(State()), xPendedCounts) && uxSchedulerSuspended == 0
    {
      hide WellFormed, CountTick;
      var left := xPendedCounts;
      while left > 0
        invariant WellFormed(State()) && uxSchedulerSuspended == 0
        invariant CountTicks(State(), left) == CountTicks(old(State()), xPendedCounts)
      {
        ghost var c := CountTick(State());
        CountTickKeepsSuspended(State());
        var switchRequired := IncrementTick();
        if switchRequired {
          xYieldPending := true;
        }
        assert State() == PendYield(c.0, c.1);
        left := left - 1;
      }
    }

    lemma CountTickKeepsSuspended(k: K.Kernel)
      requires WellFormed(k)
      ensures CountTick(k).0.suspended == k.suspended
    {
      hide WellFormed, MoveToReady, DropEvent;
      ExpireKeepsSuspended(Advance(k), false);
    }

    lemma {:induction false} ExpireKeepsSuspended(k: K.Kernel, s: bool)
      requires WellFormed(k)
      ensures Expire(k, s).0.suspended == k.suspended
      decreases |k.DelayedTasks()|
    {
      var d := k.DelayedTasks();
      if d != [] {
        HeadIsTask(k, k.Delayed());
        if k.sleep[d[0]].wake <= k.clock.tick {
          ExpireStep(k, s);
          ExpireKeepsSuspended(MoveToReady(DropEvent(k, d[0]), d[0]),
                               s || k.tcb[d[0]].priority >= k.tcb[k.current].priority);
        }
      }
    }

    /** vTaskSuspendAll. */
    method SuspendTasks()
      modifies `uxSchedulerSuspended
      ensures State() == SuspendAll(old(State()))
    {
      uxSchedulerSuspended := uxSchedulerSuspended + 1;
    }

    method DrainAndReset()
      requires WellFormed(State())
      modifies `stateLists, `eventLists, `uxTopReadyPriority, `xYieldPending, `xNextTaskUnblockTime
      ensures State() == AfterDrain(old(State()))
    {
      hide Consistent, DrainPending;
      var any := DrainPendingReady();
      if any {
        ResetNextTaskUnblockTime();
      }
    }

    /** xTaskResumeAll. */
    method ResumeTasks() returns (xAlreadyYielded: bool)
      requires WellFormed(State()) && uxSchedulerSuspended > 0
      modifies this
      ensures State() == ResumeAll(old(State()))
      ensures xAlreadyYielded == (uxSchedulerSuspended == 0 && xYieldPending)
    {
      hide Consistent, CountTicks, AfterDrain;
      xAlreadyYielded := false;
      uxSchedulerSuspended := uxSchedulerSuspended - 1;
      if uxSchedulerSuspended == 0 {
        AfterDrainKeepsSuspended(State());
        DrainAndReset();
        CountPended();
        if xYieldPending {
          xAlreadyYielded := true;
          softwareInterrupt := true;
        }
      }
    }

    method CountPended()
      requires WellFormed(State()) && uxSchedulerSuspended == 0
      modifies this
      ensures var c := CountTicks(old(State()), old(xPendedTicks)); State() == c.(clock := c.clock.(pended := 0))
      ensures uxSchedulerSuspended == 0
    {
      hide Consistent, CountTick;
      if xPendedTicks > 0 {
        CountPendedTicks(xPendedTicks);
        xPendedTicks := 0;
      }
    }

    lemma AfterDrainKeepsSuspended(k: K.Kernel)
      requires WellFormed(k)
      ensures AfterDrain(k).suspended == k.suspended
    {
      hide WellFormed;
      DrainKeepsSuspended(k);
    }

    lemma {:induction false} DrainKeepsSuspended(k: K.Kernel)
      requires WellFormed(k)
      ensures DrainPending(k).suspended == k.suspended
      decreases |k.Pending()|
    {
      hide MoveToReady, DropEvent, WellFormed;
      if k.Pending() != [] {
        HeadIsDrained(k);
        DrainKeepsSuspended(DrainOne(k));
      }
    }

    // ----- switching -----

    /** taskSELECT_HIGHEST_PRIORITY_TASK. */
    method SelectHighestPriorityTask()
      requires WellFormed(State()) && ScanSucceeds(State())
      modifies `stateLists, `pxCurrentTCB, `uxTopReadyPriority
      ensures var k := old(State());
              var q := ScanDown(k.state, k.top);
              && ListOk(k.state, Ready(q))
              && var i := k.state.Of(Ready(q)).Next();
                 State() == k.(state := SetIndex(k.state, Ready(q), i), current := k.state.Of(Ready(q)).items[i], top := q)
    {
      var uxTopPriority := uxTopReadyPriority;
      while stateLists.Of(Ready(uxTopPriority)).items == []
        invariant ScanDown(stateLists, uxTopPriority) == ScanDown(stateLists, uxTopReadyPriority)
        decreases uxTopPriority
      {
        assert uxTopPriority > 0;
        uxTopPriority := uxTopPriority - 1;
      }
      assert uxTopPriority == ScanDown(stateLists, uxTopReadyPriority);
      assert ListOk(stateLists, Ready(uxTopPriority));
      var ring := stateLists.Of(Ready(uxTopPriority));
      var pxIndex := if ring.index + 1 == |ring.items| then 0 else ring.index + 1;
      pxCurrentTCB := ring.items[pxIndex];
      stateLists := SetIndex(stateLists, Ready(uxTopPriority), pxIndex);
      uxTopReadyPriority := uxTopPriority;
    }

    /** vTaskSwitchContext, entered from the software interrupt. */
    method SwitchTask()
      requires WellFormed(State()) && (uxSchedulerSuspended > 0 || ScanSucceeds(State()))
      modifies this
      ensures State() == SwitchContext(old(State()))
    {
      softwareInterrupt := false;
      if uxSchedulerSuspended > 0 {
        xYieldPending := true;
      } else {
        xYieldPending := false;
        SelectHighestPriorityTask();
      }
    }

    // ----- blocking -----

    /** prvAddCurrentTaskToDelayedList. */
    method AddCurrentTaskToDelayedList(xTicksToWait: Tick, xCanBlockIndefinitely: bool)
      requires WellFormed(State())
      modifies `stateLists, `sleeps, `xNextTaskUnblockTime
      ensures State() == BlockCurrent(old(State()), xTicksToWait, xCanBlockIndefinitely)
    {
      if xTicksToWait == MAX_DELAY && xCanBlockIndefinitely {
        UnlinkKeeps(stateLists, pxCurrentTCB);
        AppendKeeps(stateLists.Unlink(pxCurrentTCB), SuspendedList, pxCurrentTCB);
        stateLists := stateLists.Unlink(pxCurrentTCB);
        stateLists := stateLists.Append(SuspendedList, pxCurrentTCB);
      } else {
        AddToDelayedList(xTicksToWait);
      }
    }

    lemma SleepUntilFields(k: K.Kernel, ticks: Tick)
      requires WellFormed(k)
      ensures k.current in k.state.container && k.state.Holds(k.state.container[k.current], k.current)
      ensures var sleep := k.sleep[k.current := NewSleep(k, ticks)];
              var l := k.state.Unlink(k.current);
              && (forall u | u in l.Of(NewPlace(k, ticks)).items :: u in sleep)
              && SleepUntil(k, ticks) == k.(state := InsertByWake(l, NewPlace(k, ticks), sleep, k.current), sleep := sleep,
                                            clock := k.clock.(nextUnblock := NewNextUnblock(k, ticks)))
    {
      UnlinkKeeps(k.state, k.current);
      ItemsAreTasks(k, k.current, NewPlace(k, ticks));
    }

    method AddToDelayedList(xTicksToWait: Tick)
      requires WellFormed(State())
      modifies `stateLists, `sleeps, `xNextTaskUnblockTime
      ensures State() == SleepUntil(old(State()), xTicksToWait)
    {
      hide WellFormed, InsertByWake, SleepUntil;
      ghost var k := State();
      SleepUntilFields(k, xTicksToWait);
      var xTimeToWake := Wrap(xTickCount + xTicksToWait);
      sleeps := sleeps[pxCurrentTCB := Sleep(xTimeToWake, now + xTicksToWait)];
      var overflowed := xTimeToWake < xTickCount;
      stateLists := InsertByWake(stateLists.Unlink(pxCurrentTCB), if overflowed then Overflow() else Delayed(),
                                 sleeps, pxCurrentTCB);
      if !overflowed && xTimeToWake < xNextTaskUnblockTime {
        xNextTaskUnblockTime := xTimeToWake;
      }
    }

    /** vTaskPlaceOnEventList and its kin; `position` is where the list's order puts the event item. */
    method PlaceOnEventList(pxEventList: nat, position: nat, xTicksToWait: Tick, indefinitely: bool)
      requires WellFormed(State()) && pxCurrentTCB !in eventLists.container
      requires position <= |eventLists.Of(WaitingFor(pxEventList)).items|
      modifies `eventLists, `stateLists, `sleeps, `xNextTaskUnblockTime
      ensures State() == BlockOnEvent(old(State()), pxEventList, position, xTicksToWait, indefinitely)
    {
      hide Consistent, BlockCurrent;
      InsertAtKeeps(eventLists, WaitingFor(pxEventList), position, pxCurrentTCB);
      eventLists := eventLists.InsertAt(WaitingFor(pxEventList), position, pxCurrentTCB);
      AddCurrentTaskToDelayedList(xTicksToWait, indefinitely);
    }

    // ----- waking -----

    method ReadyOrHold(t: Task)
      requires WellFormed(State()) && t in tcbs && t !in eventLists.container
      modifies `stateLists, `eventLists, `uxTopReadyPriority
      ensures State() == ReadyOrPend(old(State()), t)
    {
      if uxSchedulerSuspended == 0 {
        MoveTaskToReady(t);
      } else {
        HoldPending(t);
      }
    }

    /** Into xPendingReadyList. */
    method HoldPending(t: Task)
      requires WellFormed(State()) && t in tcbs && t !in eventLists.container
      modifies `eventLists
      ensures State() == Pend(old(State()), t)
    {
      AppendKeeps(eventLists, PendingReady, t);
      eventLists := eventLists.Append(PendingReady, t);
    }

    /** xTaskRemoveFromEventList. */
    method RemoveTaskFromEventList(pxEventList: nat) returns (xReturn: bool)
      requires WellFormed(State()) && eventLists.Of(WaitingFor(pxEventList)).items != []
      modifies `stateLists, `eventLists, `uxTopReadyPriority, `xYieldPending
      ensures State() == K.RemoveFromEventList(old(State()), pxEventList)
      ensures var w := old(eventLists.Of(WaitingFor(pxEventList)).items[0]);
              w in tcbs && pxCurrentTCB in tcbs && xReturn == (tcbs[w].priority > tcbs[pxCurrentTCB].priority)
    {
      hide Consistent;
      EventHeadIsTask(State(), WaitingFor(pxEventList));
      var pxUnblockedTCB := eventLists.Of(WaitingFor(pxEventList)).items[0];
      RemoveEventItem(pxUnblockedTCB);
      ReadyOrHold(pxUnblockedTCB);
      xReturn := tcbs[pxUnblockedTCB].priority > tcbs[pxCurrentTCB].priority;
      if xReturn {
        xYieldPending := true;
      }
    }

    /** vTaskRemoveFromUnorderedEventList; the caller has the scheduler suspended. */
    method RemoveTaskFromUnorderedEventList(t: Task)
      requires WellFormed(State()) && t in eventLists.container && t in tcbs
      modifies `stateLists, `eventLists, `uxTopReadyPriority, `xYieldPending
      ensures State() == K.RemoveFromUnorderedEventList(old(State()), t)
    {
      hide Consistent, MoveToReady, DropEvent;
      var _ := UnblockTask(t);
      if tcbs[t].priority > tcbs[pxCurrentTCB].priority {
        xYieldPending := true;
      }
    }

    /** The stretch of xTaskAbortDelay with the scheduler suspended. */
    method AbortTaskDelay(t: Task) returns (aborted: bool)
      requires WellFormed(State()) && t in tcbs && t in stateLists.container
      modifies `stateLists, `eventLists, `uxTopReadyPriority, `xYieldPending
      ensures State() == AbortDelay(old(State()), t) && aborted == IsBlocked(old(State()), t)
    {
      hide Consistent, MoveToReady, DropEvent;
      aborted := IsTaskBlocked(t);
      if aborted {
        var _ := UnblockTask(t);
        if tcbs[t].priority > tcbs[pxCurrentTCB].priority {
          xYieldPending := true;
        }
      }
    }

    /** eTaskGetState == eBlocked. */
    method IsTaskBlocked(t: Task) returns (blocked: bool)
      requires WellFormed(State()) && t in tcbs && t in stateLists.container
      ensures blocked == IsBlocked(State(), t)
    {
      var pxStateList := stateLists.container[t];
      if t == pxCurrentTCB {
        blocked := false;
      } else if pxStateList == DelayedOne || pxStateList == DelayedTwo {
        blocked := true;
      } else if pxStateList == SuspendedList {
        blocked := t in eventLists.container || tcbs[t].notify == WaitingNotification;
      } else {
        blocked := false;
      }
    }

    /** prvTaskIsTaskSuspended. */
    method IsTaskSuspended(t: Task) returns (suspended: bool)
      ensures suspended == IsSuspended(State(), t)
    {
      suspended := false;
      if t in stateLists.container && stateLists.container[t] == SuspendedList {
        suspended := t !in eventLists.container;
      }
    }

    /** vTaskResume. */
    method ResumeTask(t: Task)
      requires WellFormed(State()) && t in tcbs
      modifies `stateLists, `uxTopReadyPriority, `softwareInterrupt
      ensures State() == Resume(old(State()), t)
    {
      hide Consistent, MoveToReady;
      if t != pxCurrentTCB {
        var suspended := IsTaskSuspended(t);
        if suspended {
          MoveTaskToReady(t);
          if tcbs[t].priority >= tcbs[pxCurrentTCB].priority {
            softwareInterrupt := true;
          }
        }
      }
    }

    /** xTaskResumeFromISR; true if a switch is wanted. */
    method ResumeTaskFromISR(t: Task) returns (xYieldRequired: bool)
      requires WellFormed(State()) && t in tcbs
      modifies `stateLists, `eventLists, `uxTopReadyPriority, `xYieldPending
      ensures State() == ResumeFromISR(old(State()), t)
      ensures pxCurrentTCB in tcbs
      ensures xYieldRequired == (old(IsSuspended(State(), t)) && uxSchedulerSuspended == 0
                                 && tcbs[t].priority >= tcbs[pxCurrentTCB].priority)
    {
      hide Consistent;
      xYieldRequired := false;
      var suspended := IsTaskSuspended(t);
      if suspended {
        if uxSchedulerSuspended == 0 {
          if tcbs[t].priority >= tcbs[pxCurrentTCB].priority {
            xYieldRequired := true;
            xYieldPending := true;
          }
          MoveTaskToReady(t);
        } else {
          HoldPending(t);
        }
      }
    }

    // ----- notifications -----

    /** The first critical section of ulTaskGenericNotifyTake and xTaskGenericNotifyWait, when no
    notification is there yet. */
    method WaitForNotification(xTicksToWait: Tick)
      requires WellFormed(State())
      modifies `tcbs, `stateLists, `sleeps, `xNextTaskUnblockTime, `softwareInterrupt
      ensures State() == K.NotifyWait(old(State()), xTicksToWait)
    {
      hide Consistent, BlockCurrent;
      tcbs := tcbs[pxCurrentTCB := tcbs[pxCurrentTCB].(notify := WaitingNotification)];
      if xTicksToWait > 0 {
        AddCurrentTaskToDelayedList(xTicksToWait, true);
        softwareInterrupt := true;
      }
    }

    /** xTaskGenericNotify. */
    method NotifyTask(t: Task)
      requires WellFormed(State()) && t in tcbs
      modifies `tcbs, `stateLists, `uxTopReadyPriority, `softwareInterrupt
      ensures State() == K.Notify(old(State()), t)
    {
      hide Consistent, MoveToReady;
      var ucOriginalNotifyState := tcbs[t].notify;
      tcbs := tcbs[t := tcbs[t].(notify := Received)];
      if ucOriginalNotifyState == WaitingNotification {
        MoveTaskToReady(t);
        if tcbs[t].priority > tcbs[pxCurrentTCB].priority {
          softwareInterrupt := true;
        }
      }
    }

    /** xTaskGenericNotifyFromISR. */
    method NotifyTaskFromISR(t: Task)
      requires WellFormed(State()) && t in tcbs
      requires tcbs[t].notify == WaitingNotification ==> t !in eventLists.container
      modifies `tcbs, `stateLists, `eventLists, `uxTopReadyPriority, `xYieldPending
      ensures State() == K.NotifyFromISR(old(State()), t)
    {
      hide Consistent, MoveToReady;
      var ucOriginalNotifyState := tcbs[t].notify;
      tcbs := tcbs[t := tcbs[t].(notify := Received)];
      if ucOriginalNotifyState == WaitingNotification {
        ReadyOrHold(t);
        if tcbs[t].priority > tcbs[pxCurrentTCB].priority {
          xYieldPending := true;
        }
      }
    }

    /** vTaskSuspend, its first critical section. */
    method SuspendTask(t: Task)
      requires WellFormed(State()) && t in tcbs
      modifies `stateLists, `eventLists, `tcbs
      ensures State() == Suspend(old(State()), t)
    {
      RemoveEventItem(t);
      UnlinkKeeps(stateLists, t);
      AppendKeeps(stateLists.Unlink(t), SuspendedList, t);
      stateLists := stateLists.Unlink(t);
      stateLists := stateLists.Append(SuspendedList, t);
      if tcbs[t].notify == WaitingNotification {
        tcbs := tcbs[t := tcbs[t].(notify := NotWaiting)];
      }
    }

    // ----- priorities -----

    /** Give a task a new priority and, if it is ready, move it to the list of that priority. */
    method ChangeTaskPriority(t: Task, uxNewPriority: nat)
      requires WellFormed(State()) && t in tcbs
      modifies `stateLists, `tcbs, `uxTopReadyPriority
      ensures State() == ChangePriority(old(State()), t, uxNewPriority)
    {
      var uxPriorityUsedOnEntry := tcbs[t].priority;
      tcbs := tcbs[t := tcbs[t].(priority := uxNewPriority)];
      if stateLists.container[t] == Ready(uxPriorityUsedOnEntry) {
        MoveTaskToReady(t);
      }
    }

    method SetBasePriority(t: Task, uxNewPriority: nat)
      requires t in tcbs
      modifies `tcbs
      ensures State() == SetBase(old(State()), t, uxNewPriority)
    {
      tcbs := tcbs[t := tcbs[t].(base := uxNewPriority)];
    }

    /** vTaskPrioritySet. */
    method SetTaskPriority(t: Task, uxNewPriority: nat)
      requires WellFormed(State()) && t in tcbs && uxNewPriority < MAX_PRIORITIES
      modifies `stateLists, `tcbs, `uxTopReadyPriority, `softwareInterrupt
      ensures State() == PrioritySet(old(State()), t, uxNewPriority)
    {
      hide Consistent, ChangePriority;
      var uxCurrentBasePriority := tcbs[t].base;
      var xYieldRequired := false;
      if uxCurrentBasePriority != uxNewPriority {
        if uxNewPriority > uxCurrentBasePriority {
          if t != pxCurrentTCB {
            if uxNewPriority >= tcbs[pxCurrentTCB].priority {
              xYieldRequired := true;
            }
          }
        } else if t == pxCurrentTCB {
          xYieldRequired := true;
        }
        var used := if tcbs[t].base == tcbs[t].priority then uxNewPriority else tcbs[t].priority;
        SetBasePriority(t, uxNewPriority);
        ChangeTaskPriority(t, used);
        assert State() == ChangePriority(SetBase(old(State()), t, uxNewPriority), t, used);
        softwareInterrupt := softwareInterrupt || xYieldRequired;
      }
    }

    /** xTaskPriorityInherit; true if the holder runs at an inherited priority. */
    method PriorityInherit(pxMutexHolder: Task) returns (xReturn: bool)
      requires WellFormed(State()) && pxMutexHolder in tcbs
      modifies `stateLists, `tcbs, `uxTopReadyPriority
      ensures State() == Inherit(old(State()), pxMutexHolder)
      ensures var k := old(State());
              xReturn == (k.tcb[pxMutexHolder].priority < k.tcb[k.current].priority
                          || k.tcb[pxMutexHolder].base < k.tcb[k.current].priority)
    {
      xReturn := false;
      if tcbs[pxMutexHolder].priority < tcbs[pxCurrentTCB].priority {
        ChangeTaskPriority(pxMutexHolder, tcbs[pxCurrentTCB].priority);
        xReturn := true;
      } else if tcbs[pxMutexHolder].base < tcbs[pxCurrentTCB].priority {
        xReturn := true;
      }
    }

    /** xTaskPriorityDisinherit, for the running task. */
    method PriorityDisinherit() returns (xReturn: bool)
      requires WellFormed(State()) && tcbs[pxCurrentTCB].held > 0
      modifies `stateLists, `tcbs, `uxTopReadyPriority
      ensures (State(), xReturn) == Disinherit(old(State()))
    {
      var pxTCB := pxCurrentTCB;
      xReturn := false;
      tcbs := tcbs[pxTCB := tcbs[pxTCB].(held := tcbs[pxTCB].held - 1)];
      if tcbs[pxTCB].priority != tcbs[pxTCB].base {
        if tcbs[pxTCB].held == 0 {
          tcbs := tcbs[pxTCB := tcbs[pxTCB].(priority := tcbs[pxTCB].base)];
          MoveTaskToReady(pxTCB);
          xReturn := true;
        }
      }
    }

    /** vTaskPriorityDisinheritAfterTimeout, with its two assertions: the holder holds a mutex, and
    is not the running task if it is lowered. */
    method PriorityDisinheritAfterTimeout(pxMutexHolder: Task, uxHighestPriorityWaitingTask: nat)
      requires WellFormed(State()) && pxMutexHolder in tcbs
      modifies `stateLists, `tcbs, `uxTopReadyPriority, `assertFailed
      ensures State() == DisinheritAfterTimeout(old(State()), pxMutexHolder, uxHighestPriorityWaitingTask)
      ensures var k := old(State());
              assertFailed <==>
                || old(assertFailed) || k.tcb[pxMutexHolder].held == 0
                || (pxMutexHolder == k.current && DisinheritMoves(k, pxMutexHolder, uxHighestPriorityWaitingTask))
    {
      if tcbs[pxMutexHolder].held == 0 {
        assertFailed := true;
        return;
      }
      var uxPriorityToUse := tcbs[pxMutexHolder].base;
      if uxPriorityToUse < uxHighestPriorityWaitingTask {
        uxPriorityToUse := uxHighestPriorityWaitingTask;
      }
      if tcbs[pxMutexHolder].priority != uxPriorityToUse {
        if tcbs[pxMutexHolder].held == 1 {
          if pxMutexHolder == pxCurrentTCB {
            assertFailed := true;
          } else {
            ChangeTaskPriority(pxMutexHolder, uxPriorityToUse);
          }
        }
      }
    }
  }
}
