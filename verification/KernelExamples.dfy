/** Concrete states in which the scheduler does less than one would expect.  Each of them satisfies the
invariant and the guarantee before the step that spoils something, and has as few tasks as the case needs. */
module KernelExamples {
  import opened Ticks
  import opened ListModel
  import opened ItemLists
  import opened Kernel
  import opened KernelProofs
  import opened KernelSteps
  import opened KernelTheorems
  import opened KernelGuarantee

  // ----- a start -----

  /** A system of the idle task alone, as its scheduler starts. */
  function Alone(): Kernel {
    Kernel(Lists(map[Ready(0) := Ring([0], -1)], map[0 := Ready(0)]), NobodyWaits(), map[0 := Tcb(0, 0, 0, NotWaiting)],
           map[0 := Sleep(0, 0)], ClockAt(0), 0, 0, 0, 0, false, false)
  }

  /** So there are runs. */
  lemma AloneStarts()
    ensures Initial(Alone()) && Reachable(Alone())
  {
    AloneListsAgree();
    assert IsRun([Alone()], []);
    assert [Alone()][0] == Alone();
  }

  lemma AloneListsAgree()
    ensures Consistent(Alone().state) && Consistent(Alone().event)
  {
    var l := Alone().state;
    forall p
      ensures l.Of(p).items == if p == Ready(0) then [0] else []
      ensures ListOk(l, p)
    {
    }
    EventListsAgree();
  }

  // ----- four tasks -----

  /** Task 0 is idle, task 1 runs at priority 3, task 2 is suspended or waits indefinitely, and task 3
  is ready at priority 2. */
  function Four(tcb: map<Task, Tcb>, event: Lists<EventPlace>, clock: Clock, suspended: nat): Kernel {
    Kernel(Lists(map[Ready(0) := Ring([0], -1), Ready(3) := Ring([1], 0), SuspendedList := Ring([2], -1),
                     Ready(2) := Ring([3], -1)],
                 map[0 := Ready(0), 1 := Ready(3), 2 := SuspendedList, 3 := Ready(2)]),
           event, tcb, map[0 := Sleep(0, 0), 1 := Sleep(0, 0), 2 := Sleep(0, 0), 3 := Sleep(0, 0)],
           clock, 1, 0, 3, suspended, false, false)
  }

  predicate FourRanks(tcb: map<Task, Tcb>) {
    && tcb.Keys == {0, 1, 2, 3} && tcb[0].priority == 0 && tcb[1].priority == 3 && tcb[3].priority == 2
    && forall t | t in tcb :: tcb[t].priority < MAX_PRIORITIES && tcb[t].base < MAX_PRIORITIES
  }

  /** Control blocks of base priorities and held counts as given. */
  function Ranks(base1: nat, held1: nat, priority2: nat, notify2: NotifyState, held3: nat): (tcb: map<Task, Tcb>)
    requires base1 < MAX_PRIORITIES && priority2 < MAX_PRIORITIES
    ensures FourRanks(tcb)
  {
    map[0 := Tcb(0, 0, 0, NotWaiting), 1 := Tcb(3, base1, held1, NotWaiting), 2 := Tcb(priority2, priority2, 0, notify2),
        3 := Tcb(2, 2, held3, NotWaiting)]
  }

  /** Task 2 waits on event list 0. */
  function TwoWaits(): Lists<EventPlace> {
    Lists(map[WaitingFor(0) := Ring([2], -1)], map[2 := WaitingFor(0)])
  }

  function NobodyWaits(): Lists<EventPlace> {
    Lists(map[], map[])
  }

  function ClockAt(now: nat): Clock {
    Clock(Wrap(now), MAX_DELAY, Epoch(now), 0, false, now, now, 0)
  }

  lemma FourIsSound(tcb: map<Task, Tcb>, event: Lists<EventPlace>, now: nat, suspended: nat)
    requires FourRanks(tcb) && (event == TwoWaits() || event == NobodyWaits())
    ensures var k := Four(tcb, event, ClockAt(now), suspended); WellFormed(k) && Inv(k) && Guarantee(k)
  {
    hide WellFormed, Settled, EpochsAreRight, CacheIsLow, TopRuns, Four, FourRanks;
    FourIsWellFormed(tcb, event, ClockAt(now), suspended);
    FourIsSettled(tcb, event, ClockAt(now), suspended);
    FourTimes(tcb, event, now, suspended);
    FourRuns(tcb, event, ClockAt(now), suspended);
  }

  lemma FourTimes(tcb: map<Task, Tcb>, event: Lists<EventPlace>, now: nat, suspended: nat)
    requires event == TwoWaits() || event == NobodyWaits()
    ensures var k := Four(tcb, event, ClockAt(now), suspended);
            && EpochsAreRight(k) && CacheIsLow(k) && ClockIsTrue(k.clock) && k.DelayedTasks() == []
            && k.Pending() == [] && k.clock == ClockAt(now)
  {
    var k := Four(tcb, event, ClockAt(now), suspended);
    assert forall t | t in k.state.container :: k.state.container[t] != k.Delayed() && k.state.container[t] != k.Overflow();
  }

  lemma FourRuns(tcb: map<Task, Tcb>, event: Lists<EventPlace>, clock: Clock, suspended: nat)
    requires FourRanks(tcb)
    ensures TopRuns(Four(tcb, event, clock, suspended))
  {
    var k := Four(tcb, event, clock, suspended);
    assert forall t | k.IsReady(t) :: t in {0, 1, 3};
  }

  lemma FourIsWellFormed(tcb: map<Task, Tcb>, event: Lists<EventPlace>, clock: Clock, suspended: nat)
    requires FourRanks(tcb) && (event == TwoWaits() || event == NobodyWaits())
    ensures WellFormed(Four(tcb, event, clock, suspended))
  {
    hide Consistent;
    var k := Four(tcb, event, clock, suspended);
    StateListsAgree(k.state);
    EventListsAgree();
    assert k.state.container.Keys == k.sleep.Keys == {0, 1, 2, 3};
  }

  lemma FourIsSettled(tcb: map<Task, Tcb>, event: Lists<EventPlace>, clock: Clock, suspended: nat)
    requires FourRanks(tcb) && WellFormed(Four(tcb, event, clock, suspended))
    ensures Settled(Four(tcb, event, clock, suspended))
  {
    hide Consistent;
    var k := Four(tcb, event, clock, suspended);
    assert k.state.Of(k.Delayed()).items == [] && k.state.Of(k.Overflow()).items == [];
    forall t | t in k.tcb
      ensures InPlace(k, t)
    {
      assert t in {0, 1, 2, 3};
    }
  }

  lemma StateListsAgree(l: Lists<StatePlace>)
    requires l == Lists(map[Ready(0) := Ring([0], -1), Ready(3) := Ring([1], 0), SuspendedList := Ring([2], -1),
                            Ready(2) := Ring([3], -1)],
                        map[0 := Ready(0), 1 := Ready(3), 2 := SuspendedList, 3 := Ready(2)])
    ensures Consistent(l)
  {
    forall p
      ensures l.Of(p).items == match p
                case Ready(r) => if r == 0 then [0] else if r == 2 then [3] else if r == 3 then [1] else []
                case SuspendedList => [2]
                case _ => []
      ensures ListOk(l, p)
    {
    }
  }

  lemma EventListsAgree()
    ensures Consistent(TwoWaits()) && Consistent(NobodyWaits())
  {
    var l := TwoWaits();
    forall p
      ensures l.Of(p).items == if p == WaitingFor(0) then [2] else []
      ensures ListOk(l, p)
    {
    }
  }

  // ----- giving a mutex -----

  /** Task 1, of base priority 1, inherited priority 3 through a mutex it has given back already; it
  still holds another one, for which task 2 of priority 1 waits. */
  function Boosted(): Kernel {
    Four(Ranks(1, 1, 1, NotWaiting, 0), TwoWaits(), ClockAt(7), 0)
  }

  /** After giving the second mutex task 1 runs on at priority 1 while task 3 is ready. */
  lemma GivingCanBreakGuarantee()
    ensures var k := Boosted();
            && Inv(k) && Guarantee(k) && Allowed(k, DoMutex(DoGive(0)))
            && !Guarantee(Next(k, DoMutex(DoGive(0))))
  {
    hide Inv, Guarantee, GiveMutex, WellFormed, GiveForgetsYield, Four, Ranks, TwoWaits, Allowed;
    FourIsSound(Ranks(1, 1, 1, NotWaiting, 0), TwoWaits(), 7, 0);
    BoostedForgets();
    GiveIsAllowed(Boosted());
    GiveKeepsGuaranteeIff(Boosted(), 0);
  }

  lemma BoostedForgets()
    requires WellFormed(Boosted())
    ensures var k := Boosted();
            && k.current in k.tcb && k.tcb[k.current].held > 0 && k.current !in k.event.container
            && !k.yieldPending && !k.yieldRequested && GiveForgetsYield(k, 0)
            && k.IsReady(3) && 3 != k.current && 3 in k.tcb && k.tcb[3].priority > k.tcb[k.current].base
            && IsTask(k, k.current)
  {
    hide Consistent;
    assert Boosted().event.Of(WaitingFor(0)).items[0] == 2;
  }

  lemma GiveIsAllowed(k: Kernel)
    requires WellFormed(k) && IsTask(k, k.current) && k.tcb[k.current].held > 0
    ensures Allowed(k, DoMutex(DoGive(0))) && Next(k, DoMutex(DoGive(0))) == GiveMutex(k, 0)
  {
    hide GiveMutex, WellFormed;
  }

  // ----- a time-out -----

  /** Task 3 holds a mutex, for which task 2 of priority 4 has waited since before task 3 took it. */
  function Overtaken(): Kernel {
    Four(Ranks(3, 0, 4, NotWaiting, 1), TwoWaits(), ClockAt(7), 0)
  }

  /** When task 1 times out on that mutex, task 3 is raised above it and no switch is asked for. */
  lemma TimingOutCanBreakGuarantee()
    ensures var k := Overtaken();
            && Inv(k) && Guarantee(k) && Allowed(k, DoMutex(DoDisinheritAfterTimeout(3, 4)))
            && !Guarantee(Next(k, DoMutex(DoDisinheritAfterTimeout(3, 4))))
  {
    hide Inv, Guarantee, DisinheritAfterTimeout, WellFormed;
    FourIsSound(Ranks(3, 0, 4, NotWaiting, 1), TwoWaits(), 7, 0);
    AfterTimeoutKeepsGuaranteeIff(Overtaken(), 3, 4);
  }

  // ----- resuming from an interrupt -----

  /** Task 2 waits indefinitely for a notification, and the scheduler is suspended. */
  function Notifiable(): Kernel {
    Four(Ranks(3, 0, 1, WaitingNotification, 0), NobodyWaits(), ClockAt(7), 1)
  }

  /** An interrupt that resumes task 2 trips the assertion of the next one that notifies it. */
  lemma ResumingTripsNotifyAssert()
    ensures var k := Notifiable();
            && Inv(k) && Allowed(k, DoResumeFromISR(2)) && Allowed(k, DoNotifyFromISR(2))
            && !NotifyAssertHolds(ResumeFromISR(k, 2), 2)
  {
    hide Inv, ResumeFromISR, WellFormed;
    FourIsSound(Ranks(3, 0, 1, WaitingNotification, 0), NobodyWaits(), 7, 1);
    ResumeCanTripNotifyAssert(Notifiable(), 2);
  }

  // ----- blocking for no time -----

  /** The tick count is about to wrap. */
  function AboutToWrap(): Kernel {
    Four(Ranks(3, 0, 1, NotWaiting, 0), NobodyWaits(), ClockAt(0xFFFF_FFFF), 0)
  }

  /** If task 1 blocks for no ticks, the next tick finds it on the delayed list. */
  lemma BlockingTripsSwitchAssert()
    ensures var k := AboutToWrap(); Inv(k) && SwitchIsSafe(k) && !SwitchIsSafe(BlockCurrent(k, 0, false))
  {
    hide WellFormed, Settled, EpochsAreRight, CacheIsLow, BlockCurrent, Consistent;
    FourIsSound(Ranks(3, 0, 1, NotWaiting, 0), NobodyWaits(), 0xFFFF_FFFF, 0);
    BlockIsSwitchSafeIff(AboutToWrap(), 0, false);
  }
}
