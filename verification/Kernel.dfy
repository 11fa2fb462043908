/** The scheduler's state and what each of its operations does to it.

Each function is one critical section of the kernel (or one stretch with the scheduler
suspended); interrupts fall between them.  portYIELD only makes the software interrupt pending, and
the switch is a function of its own.  List items are in families of lists: one for state items, one
for event items.  Absolute times are kept beside the 32-bit ones, to say what those mean.
*/
module Kernel {
  import opened Ticks
  import opened ListModel
  import opened ItemLists

  /// configMAX_PRIORITIES.
  const MAX_PRIORITIES := 15

  /** The lists a state list item can be in: the ready list of a priority, one of the two delayed
  lists, or the suspended list. */
  datatype StatePlace = Ready(priority: nat) | DelayedOne | DelayedTwo | SuspendedList

  /** The lists an event list item can be in. */
  datatype EventPlace = WaitingFor(list: nat) | PendingReady

  datatype NotifyState = NotWaiting | WaitingNotification | Received

  datatype Tcb = Tcb(priority: nat, base: nat, held: nat, notify: NotifyState)

  /** The value of a state list item, and the absolute time it was meant for. */
  datatype Sleep = Sleep(wake: Tick, due: int)

  /** `now` counts the ticks processed, `interrupts` those that happened or were caught up with;
  `dropped` counts the ticks lost when the 32-bit count of pended ticks wraps. */
  datatype Clock = Clock(tick: Tick, nextUnblock: Tick, overflows: nat, pended: Tick, swapped: bool,
                         now: nat, interrupts: nat, dropped: nat)

  datatype Kernel = Kernel(
    state: Lists<StatePlace>, event: Lists<EventPlace>, tcb: map<Task, Tcb>, sleep: map<Task, Sleep>,
    clock: Clock, current: Task, idle: Task, top: nat, suspended: nat,
    yieldPending: bool, yieldRequested: bool)
  {
    /** pxDelayedTaskList. */
    function Delayed(): StatePlace {
      if clock.swapped then DelayedTwo else DelayedOne
    }

    /** pxOverflowDelayedTaskList. */
    function Overflow(): StatePlace {
      if clock.swapped then DelayedOne else DelayedTwo
    }

    function DelayedTasks(): seq<Task> {
      state.Of(Delayed()).items
    }

    function Pending(): seq<Task> {
      event.Of(PendingReady).items
    }

    predicate IsReady(t: Task) {
      t in state.container && state.container[t].Ready?
    }
  }

  /** Both families of lists are consistent, and every task is in exactly one state list. */
  ghost predicate WellFormed(k: Kernel) {
    && Consistent(k.state) && Consistent(k.event)
    && k.tcb.Keys == k.state.container.Keys && k.sleep.Keys == k.state.container.Keys
    && k.event.container.Keys <= k.state.container.Keys
    && k.current in k.tcb && k.idle in k.tcb
  }

  lemma HeadIsTask(k: Kernel, p: StatePlace)
    requires WellFormed(k) && k.state.Of(p).items != []
    ensures var t := k.state.Of(p).items[0];
            && t in k.tcb && k.state.container[t] == p && Position(k.state.Of(p).items, t) == 0
  {
    assert k.state.Holds(p, k.state.Of(p).items[0]);
  }

  lemma EventHeadIsTask(k: Kernel, p: EventPlace)
    requires WellFormed(k) && k.event.Of(p).items != []
    ensures var t := k.event.Of(p).items[0];
            && t in k.tcb && t in k.event.container && k.event.container[t] == p
            && Position(k.event.Of(p).items, t) == 0
  {
    assert k.event.Holds(p, k.event.Of(p).items[0]);
  }

  // ----- building blocks -----

  /** Unlink a task's state item, then prvAddTaskToReadyList. */
  function MoveToReady(k: Kernel, t: Task): (r: Kernel)
    requires WellFormed(k) && t in k.tcb
    ensures WellFormed(r)
    ensures r.clock == k.clock && r.sleep == k.sleep && r.suspended == k.suspended && r.tcb == k.tcb
  {
    UnlinkKeeps(k.state, t);
    var p := k.tcb[t].priority;
    AppendKeeps(k.state.Unlink(t), Ready(p), t);
    k.(state := k.state.Unlink(t).Append(Ready(p), t), top := if p > k.top then p else k.top)
  }

  /** If the task waits on an event list too, unlink it there. */
  function DropEvent(k: Kernel, t: Task): (r: Kernel)
    requires WellFormed(k) && t in k.tcb
    ensures WellFormed(r) && t !in r.event.container
    ensures r.clock == k.clock && r.sleep == k.sleep && r.suspended == k.suspended
  {
    if t in k.event.container then
      UnlinkKeeps(k.event, t);
      k.(event := k.event.Unlink(t))
    else k
  }

  function Pend(k: Kernel, t: Task): (r: Kernel)
    requires WellFormed(k) && t in k.tcb && t !in k.event.container
    ensures WellFormed(r)
    ensures r.clock == k.clock && r.sleep == k.sleep
  {
    AppendKeeps(k.event, PendingReady, t);
    k.(event := k.event.Append(PendingReady, t))
  }

  /** prvResetNextTaskUnblockTime. */
  function ResetNextUnblock(k: Kernel): (r: Kernel)
    requires WellFormed(k)
    ensures WellFormed(r)
    ensures r.clock == k.clock.(nextUnblock := r.clock.nextUnblock)
  {
    var d := k.DelayedTasks();
    if d == [] then k.(clock := k.clock.(nextUnblock := MAX_DELAY))
    else
      HeadIsTask(k, k.Delayed());
      k.(clock := k.clock.(nextUnblock := k.sleep[d[0]].wake))
  }

  /** portYIELD: the software interrupt that runs vTaskSwitchContext is made pending. */
  function Yield(k: Kernel, wanted: bool): (r: Kernel)
    ensures WellFormed(k) ==> WellFormed(r)
  {
    k.(yieldRequested := k.yieldRequested || wanted)
  }

  function PendYield(k: Kernel, wanted: bool): (r: Kernel)
    ensures WellFormed(k) ==> WellFormed(r)
  {
    k.(yieldPending := k.yieldPending || wanted)
  }

  // ----- the tick -----

  /** The loop of xTaskIncrementTick that readies the tasks whose time has come. */
  function Expire(k: Kernel, switchRequired: bool): (r: (Kernel, bool))
    requires WellFormed(k)
    ensures WellFormed(r.0)
    decreases |k.DelayedTasks()|
  {
    var d := k.DelayedTasks();
    if d == [] then (k.(clock := k.clock.(nextUnblock := MAX_DELAY)), switchRequired)
    else
      HeadIsTask(k, k.Delayed());
      var t := d[0];
      if k.clock.tick < k.sleep[t].wake then
        (k.(clock := k.clock.(nextUnblock := k.sleep[t].wake)), switchRequired)
      else
        var r := MoveToReady(DropEvent(k, t), t);
        MoveToReadyFrom(DropEvent(k, t), t);
        Expire(r, switchRequired || k.tcb[t].priority >= k.tcb[k.current].priority)
  }

  /** Moving the head of the delayed list shortens it. */
  lemma MoveToReadyFrom(k: Kernel, t: Task)
    requires WellFormed(k) && k.DelayedTasks() != [] && t == k.DelayedTasks()[0]
    ensures t in k.tcb && MoveToReady(k, t).DelayedTasks() == k.DelayedTasks()[1..]
  {
    HeadIsTask(k, k.Delayed());
    UnlinkKeeps(k.state, t);
    AppendKeeps(k.state.Unlink(t), Ready(k.tcb[t].priority), t);
  }

  /** One round of the loop. */
  lemma ExpireStep(k: Kernel, switchRequired: bool)
    requires WellFormed(k) && k.DelayedTasks() != []
    requires k.DelayedTasks()[0] in k.sleep && k.sleep[k.DelayedTasks()[0]].wake <= k.clock.tick
    ensures var t := k.DelayedTasks()[0];
            && t in k.tcb
            && var r := MoveToReady(DropEvent(k, t), t);
            && r.DelayedTasks() == k.DelayedTasks()[1..]
            && Expire(k, switchRequired)
               == Expire(r, switchRequired || k.tcb[t].priority >= k.tcb[k.current].priority)
  {
    HeadIsTask(k, k.Delayed());
    MoveToReadyFrom(DropEvent(k, k.DelayedTasks()[0]), k.DelayedTasks()[0]);
  }

  /** Counting one tick; at zero taskSWITCH_DELAYED_LISTS. */
  function Advance(k: Kernel): (r: Kernel)
    requires WellFormed(k)
    ensures WellFormed(r)
  {
    var c := k.clock.(tick := Wrap(k.clock.tick + 1), now := k.clock.now + 1);
    if c.tick == 0 then
      ResetNextUnblock(k.(clock := c.(swapped := !c.swapped, overflows := c.overflows + 1)))
    else k.(clock := c)
  }

  /** What the assertion in taskSWITCH_DELAYED_LISTS demands when the next tick is counted. */
  predicate SwitchIsSafe(k: Kernel) {
    k.clock.tick == MAX_DELAY ==> k.DelayedTasks() == []
  }

  /** The part of xTaskIncrementTick that runs when the scheduler is not suspended. */
  function CountTick(k: Kernel): (r: (Kernel, bool))
    requires WellFormed(k)
    ensures WellFormed(r.0)
  {
    var a := Advance(k);
    var (e, s) := if a.clock.tick >= a.clock.nextUnblock then Expire(a, false) else (a, false);
    (e, s || ReadyPeers(e) > 1 || e.yieldPending)
  }

  /** Number of tasks ready at the priority of the running task. */
  function ReadyPeers(k: Kernel): nat
    requires k.current in k.tcb
  {
    |k.state.Of(Ready(k.tcb[k.current].priority)).items|
  }

  /** The tick interrupt: SysTick_Handler around xTaskIncrementTick. */
  function TickInterrupt(k: Kernel): (r: Kernel)
    requires WellFormed(k)
    ensures WellFormed(r)
  {
    var j := k.(clock := k.clock.(interrupts := k.clock.interrupts + 1));
    if k.suspended == 0 then
      var (c, s) := CountTick(j);
      Yield(c, s)
    else j.(clock := AddPended(j.clock, 1))
  }

  /** xPendedTicks is 32 bits wide. */
  function AddPended(c: Clock, n: Tick): Clock {
    var p := c.pended + n;
    c.(pended := Wrap(p), dropped := c.dropped + (p - Wrap(p)))
  }

  // ----- suspending the scheduler -----

  function SuspendAll(k: Kernel): Kernel {
    k.(suspended := k.suspended + 1)
  }

  /** The first loop of xTaskResumeAll. */
  function DrainPending(k: Kernel): (r: Kernel)
    requires WellFormed(k)
    ensures WellFormed(r) && r.Pending() == []
    decreases |k.Pending()|
  {
    if k.Pending() == [] then k
    else
      EventHeadIsTask(k, PendingReady);
      UnlinkKeeps(k.event, k.Pending()[0]);
      DrainPending(DrainOne(k))
  }

  function DrainOne(k: Kernel): (r: Kernel)
    requires WellFormed(k) && k.Pending() != []
    ensures WellFormed(r)
  {
    EventHeadIsTask(k, PendingReady);
    var t := k.Pending()[0];
    PendYield(MoveToReady(DropEvent(k, t), t), k.tcb[t].priority >= k.tcb[k.current].priority)
  }

  /** If any task was pending the next unblock time is computed afresh. */
  function AfterDrain(k: Kernel): (r: Kernel)
    requires WellFormed(k)
    ensures WellFormed(r)
  {
    if k.Pending() == [] then k else ResetNextUnblock(DrainPending(k))
  }

  /** The second loop of xTaskResumeAll. */
  function CountTicks(k: Kernel, n: nat): (r: Kernel)
    requires WellFormed(k)
    ensures WellFormed(r)
    decreases n
  {
    if n == 0 then k
    else
      var (c, s) := CountTick(k);
      CountTicks(PendYield(c, s), n - 1)
  }

  /** xTaskResumeAll. */
  function ResumeAll(k: Kernel): (r: Kernel)
    requires WellFormed(k) && k.suspended > 0
    ensures WellFormed(r)
  {
    var j := k.(suspended := k.suspended - 1);
    if j.suspended > 0 then j
    else
      var d := AfterDrain(j);
      var c := CountTicks(d, d.clock.pended);
      Yield(c.(clock := c.clock.(pended := 0)), c.yieldPending)
  }

  /** The step of xTaskCatchUpTicks between suspending and resuming. */
  function CatchUp(k: Kernel, n: Tick): Kernel {
    k.(clock := AddPended(k.clock.(interrupts := k.clock.interrupts + n), n))
  }

  // ----- choosing the next task -----

  /** The scan of taskSELECT_HIGHEST_PRIORITY_TASK down from the recorded top priority. */
  function ScanDown(l: Lists<StatePlace>, p: nat): (q: nat)
    ensures q <= p && (q > 0 ==> l.Of(Ready(q)).items != [])
    ensures forall r | q < r <= p :: l.Of(Ready(r)).items == []
  {
    if p == 0 || l.Of(Ready(p)).items != [] then p else ScanDown(l, p - 1)
  }

  /** What the assertion inside the scan demands. */
  predicate ScanSucceeds(k: Kernel) {
    k.state.Of(Ready(ScanDown(k.state, k.top))).items != []
  }

  /** The software interrupt: vTaskSwitchContext. */
  function SwitchContext(k: Kernel): (r: Kernel)
    requires WellFormed(k) && (k.suspended > 0 || ScanSucceeds(k))
    ensures WellFormed(r)
  {
    if k.suspended > 0 then k.(yieldPending := true, yieldRequested := false)
    else
      var q := ScanDown(k.state, k.top);
      var ring := k.state.Of(Ready(q));
      assert ListOk(k.state, Ready(q));
      var next := ring.Next();
      IndexKeeps(k.state, Ready(q), next);
      k.(state := SetIndex(k.state, Ready(q), next), current := ring.items[next], top := q,
         yieldPending := false, yieldRequested := false)
  }

  function SetIndex(l: Lists<StatePlace>, p: StatePlace, i: nat): Lists<StatePlace> {
    l.(at := l.at[p := l.Of(p).(index := i)])
  }

  lemma IndexKeeps(l: Lists<StatePlace>, p: StatePlace, i: nat)
    requires Consistent(l) && i < |l.Of(p).items|
    ensures Consistent(SetIndex(l, p, i))
    ensures l.Of(p).items[i] in l.container && l.container[l.Of(p).items[i]] == p
    ensures forall q :: SetIndex(l, p, i).Of(q).items == l.Of(q).items
    ensures forall q | q != p :: SetIndex(l, p, i).Of(q) == l.Of(q)
  {
    var m := SetIndex(l, p, i);
    assert l.Holds(p, l.Of(p).items[i]);
    forall q
      ensures ListOk(m, q)
    {
      assert ListOk(l, q);
    }
    forall q, u
      ensures m.Holds(q, u) <==> u in m.container && m.container[u] == q
    {
      assert m.Holds(q, u) <==> l.Holds(q, u);
    }
  }

  // ----- blocking the running task -----

  function Wakes(s: seq<Task>, sleep: map<Task, Sleep>): (r: seq<Tick>)
    requires forall t | t in s :: t in sleep
    ensures |r| == |s| && forall i | 0 <= i < |s| :: r[i] == sleep[s[i]].wake
  {
    seq(|s|, i requires 0 <= i < |s| => sleep[s[i]].wake)
  }

  /** vListInsert of a state item into a delayed list. */
  function InsertByWake(l: Lists<StatePlace>, p: StatePlace, sleep: map<Task, Sleep>, t: Task): Lists<StatePlace>
    requires t in sleep && forall u | u in l.Of(p).items :: u in sleep
  {
    l.InsertAt(p, UpperBound(Wakes(l.Of(p).items, sleep), sleep[t].wake), t)
  }

  lemma ItemsAreTasks(k: Kernel, t: Task, p: StatePlace)
    requires WellFormed(k) && t in k.tcb
    ensures k.state.Holds(k.state.container[t], t)
    ensures forall u | u in k.state.Unlink(t).Of(p).items :: u in k.sleep && u != t
  {
    UnlinkKeeps(k.state, t);
    forall u | u in k.state.Unlink(t).Of(p).items
      ensures u in k.sleep && u != t
    {
      assert k.state.Unlink(t).Holds(p, u);
    }
  }

  function NewSleep(k: Kernel, ticks: Tick): Sleep {
    Sleep(Wrap(k.clock.tick + ticks), k.clock.now + ticks)
  }

  /** A wake time below the tick count has overflowed. */
  function NewPlace(k: Kernel, ticks: Tick): StatePlace {
    if NewSleep(k, ticks).wake < k.clock.tick then k.Overflow() else k.Delayed()
  }

  /** Only a wake time that has not overflowed can be the next one. */
  function NewNextUnblock(k: Kernel, ticks: Tick): Tick {
    var wake := NewSleep(k, ticks).wake;
    if wake >= k.clock.tick && wake < k.clock.nextUnblock then wake else k.clock.nextUnblock
  }

  function SleepUntil(k: Kernel, ticks: Tick): (r: Kernel)
    requires WellFormed(k)
    ensures WellFormed(r)
    ensures r.clock == k.clock.(nextUnblock := r.clock.nextUnblock)
  {
    var t, p := k.current, NewPlace(k, ticks);
    UnlinkKeeps(k.state, t);
    var l := k.state.Unlink(t);
    var sleep := k.sleep[t := NewSleep(k, ticks)];
    ItemsAreTasks(k, t, p);
    InsertAtKeeps(l, p, UpperBound(Wakes(l.Of(p).items, sleep), sleep[t].wake), t);
    k.(state := InsertByWake(l, p, sleep, t), sleep := sleep,
       clock := k.clock.(nextUnblock := NewNextUnblock(k, ticks)))
  }

  function SleepForever(k: Kernel): (r: Kernel)
    requires WellFormed(k)
    ensures WellFormed(r)
  {
    ToSuspended(k, k.current)
  }

  /** prvAddCurrentTaskToDelayedList. */
  function BlockCurrent(k: Kernel, ticks: Tick, indefinitely: bool): (r: Kernel)
    requires WellFormed(k)
    ensures WellFormed(r)
    ensures r.clock == k.clock.(nextUnblock := r.clock.nextUnblock)
  {
    if ticks == MAX_DELAY && indefinitely then SleepForever(k) else SleepUntil(k, ticks)
  }

  /** Insertion of the running task's event item; where it goes depends on the kind of list. */
  function PlaceOnEventList(k: Kernel, list: nat, i: nat): (r: Kernel)
    requires WellFormed(k) && k.current !in k.event.container
    requires i <= |k.event.Of(WaitingFor(list)).items|
    ensures WellFormed(r)
  {
    InsertAtKeeps(k.event, WaitingFor(list), i, k.current);
    k.(event := k.event.InsertAt(WaitingFor(list), i, k.current))
  }

  /** Waiting on an event list: the event item first, then the state item. */
  function BlockOnEvent(k: Kernel, list: nat, i: nat, ticks: Tick, indefinitely: bool): (r: Kernel)
    requires WellFormed(k) && k.current !in k.event.container
    requires i <= |k.event.Of(WaitingFor(list)).items|
    ensures WellFormed(r)
    ensures r.clock == k.clock.(nextUnblock := r.clock.nextUnblock)
  {
    BlockCurrent(PlaceOnEventList(k, list, i), ticks, indefinitely)
  }

  // ----- waking another task -----

  /** A woken task goes to its ready list, or is held pending while the scheduler is suspended. */
  function ReadyOrPend(k: Kernel, t: Task): (r: Kernel)
    requires WellFormed(k) && t in k.tcb && t !in k.event.container
    ensures WellFormed(r)
    ensures r.clock == k.clock && r.sleep == k.sleep
  {
    if k.suspended == 0 then MoveToReady(k, t) else Pend(k, t)
  }

  predicate Higher(k: Kernel, t: Task)
    requires t in k.tcb && k.current in k.tcb
  {
    k.tcb[t].priority > k.tcb[k.current].priority
  }

  /** xTaskRemoveFromEventList. */
  function RemoveFromEventList(k: Kernel, list: nat): (r: Kernel)
    requires WellFormed(k) && k.event.Of(WaitingFor(list)).items != []
    ensures WellFormed(r)
    ensures r.clock == k.clock && r.sleep == k.sleep
  {
    EventHeadIsTask(k, WaitingFor(list));
    var t := k.event.Of(WaitingFor(list)).items[0];
    PendYield(ReadyOrPend(DropEvent(k, t), t), Higher(k, t))
  }

  /** vTaskRemoveFromUnorderedEventList. */
  function RemoveFromUnorderedEventList(k: Kernel, t: Task): (r: Kernel)
    requires WellFormed(k) && t in k.event.container
    ensures WellFormed(r)
    ensures r.clock == k.clock && r.sleep == k.sleep
  {
    PendYield(MoveToReady(DropEvent(k, t), t), Higher(k, t))
  }

  // ----- notifications -----

  function SetNotify(k: Kernel, t: Task, n: NotifyState): (r: Kernel)
    requires t in k.tcb
    ensures WellFormed(k) ==> WellFormed(r)
    ensures r.clock == k.clock && r.sleep == k.sleep
  {
    k.(tcb := k.tcb[t := k.tcb[t].(notify := n)])
  }

  /** The first critical section of ulTaskGenericNotifyTake and xTaskGenericNotifyWait, when no
  notification is there yet. */
  function NotifyWait(k: Kernel, ticks: Tick): (r: Kernel)
    requires WellFormed(k)
    ensures WellFormed(r)
    ensures r.clock == k.clock.(nextUnblock := r.clock.nextUnblock)
  {
    var j := SetNotify(k, k.current, WaitingNotification);
    if ticks > 0 then Yield(BlockCurrent(j, ticks, true), true) else j
  }

  /** xTaskGenericNotify. */
  function Notify(k: Kernel, t: Task): (r: Kernel)
    requires WellFormed(k) && t in k.tcb
    ensures WellFormed(r)
    ensures r.clock == k.clock && r.sleep == k.sleep
  {
    var j := SetNotify(k, t, Received);
    if k.tcb[t].notify == WaitingNotification then Yield(MoveToReady(j, t), Higher(k, t)) else j
  }

  /** xTaskGenericNotifyFromISR. */
  function NotifyFromISR(k: Kernel, t: Task): (r: Kernel)
    requires WellFormed(k) && t in k.tcb
    requires k.tcb[t].notify == WaitingNotification ==> t !in k.event.container
    ensures WellFormed(r)
    ensures r.clock == k.clock && r.sleep == k.sleep
  {
    var j := SetNotify(k, t, Received);
    if k.tcb[t].notify == WaitingNotification then PendYield(ReadyOrPend(j, t), Higher(k, t)) else j
  }

  // ----- suspending and resuming one task -----

  function ToSuspended(k: Kernel, t: Task): (r: Kernel)
    requires WellFormed(k) && t in k.tcb
    ensures WellFormed(r)
    ensures r.clock == k.clock && r.sleep == k.sleep
  {
    UnlinkKeeps(k.state, t);
    AppendKeeps(k.state.Unlink(t), SuspendedList, t);
    k.(state := k.state.Unlink(t).Append(SuspendedList, t))
  }

  /** The first critical section of vTaskSuspend; the yield if the task suspends itself. */
  function Suspend(k: Kernel, t: Task): (r: Kernel)
    requires WellFormed(k) && t in k.tcb
    ensures WellFormed(r)
    ensures r.clock == k.clock && r.sleep == k.sleep
  {
    var s := ToSuspended(DropEvent(k, t), t);
    if k.tcb[t].notify == WaitingNotification then SetNotify(s, t, NotWaiting) else s
  }

  /** prvTaskIsTaskSuspended. */
  predicate IsSuspended(k: Kernel, t: Task) {
    t in k.state.container && k.state.container[t] == SuspendedList && t !in k.event.container
  }

  /** vTaskResume. */
  function Resume(k: Kernel, t: Task): (r: Kernel)
    requires WellFormed(k) && t in k.tcb
    ensures WellFormed(r)
    ensures r.clock == k.clock && r.sleep == k.sleep
  {
    if t != k.current && IsSuspended(k, t) then
      Yield(MoveToReady(k, t), k.tcb[t].priority >= k.tcb[k.current].priority)
    else k
  }

  /** xTaskResumeFromISR. */
  function ResumeFromISR(k: Kernel, t: Task): (r: Kernel)
    requires WellFormed(k) && t in k.tcb
    ensures WellFormed(r)
    ensures r.clock == k.clock && r.sleep == k.sleep
  {
    if !IsSuspended(k, t) then k
    else if k.suspended == 0 then PendYield(MoveToReady(k, t), k.tcb[t].priority >= k.tcb[k.current].priority)
    else Pend(k, t)
  }

  /** eTaskGetState == eBlocked, for a task that is not running. */
  predicate IsBlocked(k: Kernel, t: Task)
    requires t in k.tcb && t in k.state.container
  {
    t != k.current
    && match k.state.container[t]
       case Ready(_) => false
       case SuspendedList => t in k.event.container || k.tcb[t].notify == WaitingNotification
       case _ => true
  }

  /** The stretch of xTaskAbortDelay between suspending and resuming the scheduler. */
  function AbortDelay(k: Kernel, t: Task): (r: Kernel)
    requires WellFormed(k) && t in k.tcb
    ensures WellFormed(r)
    ensures r.clock == k.clock && r.sleep == k.sleep
  {
    if IsBlocked(k, t) then PendYield(MoveToReady(DropEvent(k, t), t), Higher(k, t)) else k
  }

  // ----- priorities -----

  /** Give a task another priority; if it is ready it moves to the list of that priority. */
  function ChangePriority(k: Kernel, t: Task, p: nat): (r: Kernel)
    requires WellFormed(k) && t in k.tcb
    ensures WellFormed(r)
    ensures r.clock == k.clock && r.sleep == k.sleep
  {
    var j := k.(tcb := k.tcb[t := k.tcb[t].(priority := p)]);
    if k.state.container[t] == Ready(k.tcb[t].priority) then MoveToReady(j, t) else j
  }

  function SetBase(k: Kernel, t: Task, b: nat): (r: Kernel)
    requires t in k.tcb
    ensures WellFormed(k) ==> WellFormed(r)
    ensures r.clock == k.clock && r.sleep == k.sleep
  {
    k.(tcb := k.tcb[t := k.tcb[t].(base := b)])
  }

  function SetHeld(k: Kernel, t: Task, n: nat): (r: Kernel)
    requires t in k.tcb
    ensures WellFormed(k) ==> WellFormed(r)
    ensures r.clock == k.clock && r.sleep == k.sleep
  {
    k.(tcb := k.tcb[t := k.tcb[t].(held := n)])
  }

  /** vTaskPrioritySet. */
  function PrioritySet(k: Kernel, t: Task, p: nat): (r: Kernel)
    requires WellFormed(k) && t in k.tcb && p < MAX_PRIORITIES
    ensures WellFormed(r)
    ensures r.clock == k.clock && r.sleep == k.sleep
  {
    var base := k.tcb[t].base;
    if base == p then k
    else
      var mustSwitch := if p > base then t != k.current && p >= k.tcb[k.current].priority else t == k.current;
      var used := if base == k.tcb[t].priority then p else k.tcb[t].priority;
      Yield(ChangePriority(SetBase(k, t, p), t, used), mustSwitch)
  }

  /** xTaskPriorityInherit, called by the running task for the holder of a mutex it wants. */
  function Inherit(k: Kernel, holder: Task): (r: Kernel)
    requires WellFormed(k) && holder in k.tcb
    ensures WellFormed(r)
    ensures r.clock == k.clock && r.sleep == k.sleep
  {
    var p := k.tcb[k.current].priority;
    if k.tcb[holder].priority < p then ChangePriority(k, holder, p) else k
  }

  /** pvTaskIncrementMutexHeldCount. */
  function TakeMutex(k: Kernel): (r: Kernel)
    requires WellFormed(k)
    ensures WellFormed(r)
    ensures r.clock == k.clock && r.sleep == k.sleep
  {
    SetHeld(k, k.current, k.tcb[k.current].held + 1)
  }

  /** xTaskPriorityDisinherit, called by the running task when it gives a mutex.  The flag asks
  for a context switch. */
  function Disinherit(k: Kernel): (r: (Kernel, bool))
    requires WellFormed(k) && k.tcb[k.current].held > 0
    ensures WellFormed(r.0)
    ensures r.0.clock == k.clock && r.0.sleep == k.sleep
  {
    var t := k.current;
    var j := SetHeld(k, t, k.tcb[t].held - 1);
    if k.tcb[t].priority != k.tcb[t].base && k.tcb[t].held == 1 then
      (MoveToReady(j.(tcb := j.tcb[t := j.tcb[t].(priority := k.tcb[t].base)]), t), true)
    else (j, false)
  }

  /** The greater of the holder's base priority and the highest one still waiting. */
  function PriorityToUse(k: Kernel, holder: Task, highest: nat): nat
    requires holder in k.tcb
  {
    if k.tcb[holder].base < highest then highest else k.tcb[holder].base
  }

  predicate DisinheritMoves(k: Kernel, holder: Task, highest: nat)
    requires holder in k.tcb
  {
    k.tcb[holder].priority != PriorityToUse(k, holder, highest) && k.tcb[holder].held == 1
  }

  /** vTaskPriorityDisinheritAfterTimeout.  A failing assertion (the running task would be lowered
  itself) stops the system where it is. */
  function DisinheritAfterTimeout(k: Kernel, holder: Task, highest: nat): (r: Kernel)
    requires WellFormed(k) && holder in k.tcb
    ensures WellFormed(r)
    ensures r.clock == k.clock && r.sleep == k.sleep
  {
    if DisinheritMoves(k, holder, highest) && holder != k.current then
      ChangePriority(k, holder, PriorityToUse(k, holder, highest))
    else k
  }

  /** The critical section of xQueueGenericSend that gives a mutex nobody queues behind in a set:
  disinherit, then wake the first waiter, and yield as lines 905-933 of queue.c decide. */
  function GiveMutex(k: Kernel, list: nat): (r: Kernel)
    requires WellFormed(k) && k.tcb[k.current].held > 0
    ensures WellFormed(r)
    ensures r.clock == k.clock && r.sleep == k.sleep
  {
    var (j, yieldRequired) := Disinherit(k);
    if j.event.Of(WaitingFor(list)).items != [] then
      EventHeadIsTask(j, WaitingFor(list));
      Yield(RemoveFromEventList(j, list), Higher(j, j.event.Of(WaitingFor(list)).items[0]))
    else Yield(j, yieldRequired)
  }
}
