/** What every step of the scheduler keeps. */
module KernelProofs {
  import opened Ticks
  import opened ListModel
  import opened ItemLists
  import opened Kernel

  // ----- the invariant -----

  ghost predicate InPlace(k: Kernel, t: Task) {
    t in k.state.container && t in k.tcb
    && (k.state.container[t].Ready? ==> k.state.container[t].priority == k.tcb[t].priority <= k.top)
  }

  /** A ready task is in the list of its current priority, and uxTopReadyPriority bounds them all. */
  ghost predicate ReadyInPlace(k: Kernel) {
    && k.top < MAX_PRIORITIES
    && (forall t | t in k.tcb :: k.tcb[t].priority < MAX_PRIORITIES && k.tcb[t].base < MAX_PRIORITIES)
    && (forall t | t in k.tcb :: InPlace(k, t))
  }

  /** Every task in list `p` sleeps until a time in the given epoch, and not before `from`. */
  ghost predicate InEpoch(l: Lists<StatePlace>, p: StatePlace, sleep: map<Task, Sleep>, from: int, epoch: int) {
    forall t | t in l.container && l.container[t] == p ::
      t in sleep && sleep[t].wake == Wrap(sleep[t].due) && Epoch(sleep[t].due) == epoch && sleep[t].due >= from
  }

  ghost predicate InOrder(s: seq<Task>, sleep: map<Task, Sleep>) {
    && (forall t | t in s :: t in sleep)
    && (forall i, j | 0 <= i < j < |s| :: sleep[s[i]].wake <= sleep[s[j]].wake)
  }

  /** The delayed list holds this epoch's wake times, the overflow list the next one's. */
  ghost predicate EpochsAreRight(k: Kernel) {
    && InEpoch(k.state, k.Delayed(), k.sleep, k.clock.now, Epoch(k.clock.now))
    && InEpoch(k.state, k.Overflow(), k.sleep, k.clock.now, Epoch(k.clock.now) + 1)
  }

  ghost predicate ClockIsTrue(c: Clock) {
    && c.tick == Wrap(c.now) && c.overflows == Epoch(c.now)
    && c.now + c.pended + c.dropped == c.interrupts
  }

  /** xNextTaskUnblockTime never exceeds a wake time on the delayed list. */
  ghost predicate CacheIsLow(k: Kernel) {
    forall t | t in k.state.container && k.state.container[t] == k.Delayed() ::
      t in k.sleep && k.clock.nextUnblock <= k.sleep[t].wake
  }

  ghost predicate NothingHeldBack(k: Kernel) {
    k.suspended == 0 ==> k.Pending() == [] && k.clock.pended == 0
  }

  /** The part of the invariant that does not speak of the time. */
  ghost predicate Settled(k: Kernel) {
    && WellFormed(k) && ReadyInPlace(k) && k.IsReady(k.idle)
    && InOrder(k.state.Of(k.Delayed()).items, k.sleep)
    && InOrder(k.state.Of(k.Overflow()).items, k.sleep)
  }

  ghost predicate Core(k: Kernel) {
    && WellFormed(k) && Settled(k) && EpochsAreRight(k) && CacheIsLow(k)
    && k.clock.tick == Wrap(k.clock.now) && k.clock.overflows == Epoch(k.clock.now)
  }

  ghost predicate Inv(k: Kernel) {
    && Core(k) && ClockIsTrue(k.clock) && SwitchIsSafe(k) && NothingHeldBack(k)
  }

  // ----- the building blocks -----

  lemma InOrderRemove(s: seq<Task>, sleep: map<Task, Sleep>, i: nat)
    requires InOrder(s, sleep) && i < |s|
    ensures InOrder(s[..i] + s[i + 1..], sleep)
  {
    var r := s[..i] + s[i + 1..];
    forall a, b | 0 <= a < b < |r|
      ensures sleep[r[a]].wake <= sleep[r[b]].wake
    {
      var c, d := if a < i then a else a + 1, if b < i then b else b + 1;
      assert r[a] == s[c] && r[b] == s[d];
    }
  }

  /** What unlinking and readying changes: only where this task is. */
  lemma MoveToReadyEffect(k: Kernel, t: Task)
    requires WellFormed(k) && t in k.tcb
    ensures var r := MoveToReady(k, t);
            && r == k.(state := r.state, top := r.top)
            && r.state.container == k.state.container[t := Ready(k.tcb[t].priority)]
            && (forall p: StatePlace | !p.Ready? && p != k.state.container[t] :: r.state.Of(p) == k.state.Of(p))
            && (forall p: StatePlace | !p.Ready? && InOrder(k.state.Of(p).items, k.sleep) :: InOrder(r.state.Of(p).items, k.sleep))
  {
    var q := k.state.container[t];
    UnlinkKeeps(k.state, t);
    var l := k.state.Unlink(t);
    AppendKeeps(l, Ready(k.tcb[t].priority), t);
    var r := MoveToReady(k, t);
    assert r.state.container == k.state.container[t := Ready(k.tcb[t].priority)];
    forall p: StatePlace | !p.Ready? && InOrder(k.state.Of(p).items, k.sleep)
      ensures InOrder(r.state.Of(p).items, k.sleep)
    {
      if p == q {
        InOrderRemove(k.state.Of(q).items, k.sleep, Position(k.state.Of(q).items, t));
      }
    }
  }

  lemma MoveToReadyKeeps(k: Kernel, t: Task)
    requires WellFormed(k) && t in k.tcb && k.top < MAX_PRIORITIES
    requires forall u | u in k.tcb :: k.tcb[u].priority < MAX_PRIORITIES && k.tcb[u].base < MAX_PRIORITIES
    requires forall u | u in k.tcb && u != t :: InPlace(k, u)
    requires k.IsReady(k.idle)
    requires InOrder(k.state.Of(k.Delayed()).items, k.sleep) && InOrder(k.state.Of(k.Overflow()).items, k.sleep)
    ensures Settled(MoveToReady(k, t))
  {
    var r := MoveToReady(k, t);
    MoveToReadyEffect(k, t);
    forall u | u in r.tcb
      ensures InPlace(r, u)
    {
      assert u != t ==> InPlace(k, u);
    }
  }

  /** Nobody new on the delayed lists: the facts about their times stay. */
  ghost predicate NoNewSleepers(k: Kernel, r: Kernel) {
    && r.clock == k.clock && r.sleep == k.sleep
    && (forall t | t in r.state.container && !r.state.container[t].Ready? && r.state.container[t] != SuspendedList ::
          t in k.state.container && k.state.container[t] == r.state.container[t])
  }

  lemma DropEventEffect(k: Kernel, t: Task)
    requires WellFormed(k) && t in k.tcb
    ensures var r := DropEvent(k, t);
            && r == k.(event := r.event) && r.event.container == k.event.container - {t}
            && (k.Pending() == [] ==> r.Pending() == [])
  {
    if t in k.event.container {
      UnlinkKeeps(k.event, t);
      assert k.event.Holds(k.event.container[t], t);
    }
  }

  /** Readying one more task keeps everything. */
  lemma ReadyKeepsSettled(k: Kernel, t: Task)
    requires Settled(k) && t in k.tcb
    ensures Settled(MoveToReady(DropEvent(k, t), t))
    ensures NoNewSleepers(k, MoveToReady(DropEvent(k, t), t))
  {
    DropEventEffect(k, t);
    var j := DropEvent(k, t);
    forall u | u in j.tcb
      ensures InPlace(j, u)
    {
      assert InPlace(k, u);
    }
    MoveToReadyKeeps(j, t);
    MoveToReadyEffect(j, t);
  }

  // ----- the tick -----

  /** The task's time has come. */
  ghost predicate IsDue(k: Kernel, t: Task) {
    t in k.state.container && k.state.container[t] == k.Delayed() && t in k.sleep && k.sleep[t].wake <= k.clock.tick
  }

  /** What a full scan of the delayed list would do. */
  ghost predicate ScannedAll(k: Kernel, r: Kernel) {
    && r == k.(state := r.state, event := r.event, top := r.top, clock := k.clock.(nextUnblock := r.clock.nextUnblock))
    && ScannedStates(k, r) && ScannedEvents(k, r)
    && (k.Pending() == [] ==> r.Pending() == [])
  }

  ghost predicate ScannedStates(k: Kernel, r: Kernel) {
    forall t | t in k.tcb :: t in r.state.container && t in k.state.container
      && r.state.container[t] == if IsDue(k, t) then Ready(k.tcb[t].priority) else k.state.container[t]
  }

  ghost predicate ScannedEvents(k: Kernel, r: Kernel) {
    && (forall t :: t in r.event.container <==> t in k.event.container && !IsDue(k, t))
    && (forall t | t in r.event.container :: r.event.container[t] == k.event.container[t])
  }

  ghost predicate SomeoneDueOutranks(k: Kernel)
    requires k.current in k.tcb
  {
    exists t :: IsDue(k, t) && t in k.tcb && k.tcb[t].priority >= k.tcb[k.current].priority
  }

  /** The loop stops at the first task that is not due, and still readies exactly the due tasks;
  it asks for a switch exactly if one of them may run; and it leaves the next wake time in the
  cache. */
  lemma {:induction false} ExpireIsFullScan(k: Kernel, s: bool)
    requires Settled(k)
    ensures Settled(Expire(k, s).0) && ScannedAll(k, Expire(k, s).0)
    ensures Expire(k, s).1 <==> s || SomeoneDueOutranks(k)
    ensures CacheIsLow(Expire(k, s).0)
    decreases |k.DelayedTasks()|
  {
    var d := k.DelayedTasks();
    if d == [] || k.clock.tick < k.sleep[d[0]].wake {
      ExpireStops(k, s);
    } else {
      var m := ExpireOne(k);
      ExpireOneEffect(k);
      ExpireContinues(k, s);
      var s' := s || k.tcb[d[0]].priority >= k.tcb[k.current].priority;
      ExpireIsFullScan(m, s');
      ScanOneMore(k, Expire(m, s').0);
      SwitchOneMore(k);
    }
  }

  /** One round of the loop. */
  function ExpireOne(k: Kernel): (m: Kernel)
    requires WellFormed(k) && k.DelayedTasks() != []
    ensures WellFormed(m)
  {
    HeadIsTask(k, k.Delayed());
    MoveToReady(DropEvent(k, k.DelayedTasks()[0]), k.DelayedTasks()[0])
  }

  lemma ExpireStops(k: Kernel, s: bool)
    requires Settled(k) && (k.DelayedTasks() == [] || k.clock.tick < k.sleep[k.DelayedTasks()[0]].wake)
    ensures Settled(Expire(k, s).0) && CacheIsLow(Expire(k, s).0) && Expire(k, s).1 == s
    ensures ScannedAll(k, Expire(k, s).0) && !SomeoneDueOutranks(k)
  {
    NothingDue(k);
    var r := Expire(k, s).0;
    assert r == k.(clock := k.clock.(nextUnblock := r.clock.nextUnblock));
    forall u | u in r.tcb
      ensures InPlace(r, u)
    {
      assert InPlace(k, u);
    }
  }

  lemma ExpireContinues(k: Kernel, s: bool)
    requires Settled(k) && k.DelayedTasks() != [] && k.sleep[k.DelayedTasks()[0]].wake <= k.clock.tick
    ensures k.DelayedTasks()[0] in k.tcb
    ensures Expire(k, s)
         == Expire(ExpireOne(k), s || k.tcb[k.DelayedTasks()[0]].priority >= k.tcb[k.current].priority)
  {
    HeadIsTask(k, k.Delayed());
  }

  lemma ExpireOneEffect(k: Kernel)
    requires Settled(k) && k.DelayedTasks() != []
    ensures Settled(ExpireOne(k)) && ExpireOne(k).DelayedTasks() == k.DelayedTasks()[1..]
    ensures var t, m := k.DelayedTasks()[0], ExpireOne(k);
            && t in k.tcb && k.state.container[t] == k.Delayed()
            && m == k.(state := m.state, event := m.event, top := m.top)
            && m.state.container == k.state.container[t := Ready(k.tcb[t].priority)]
            && m.event.container == k.event.container - {t}
            && (k.Pending() == [] ==> m.Pending() == [])
  {
    HeadIsTask(k, k.Delayed());
    var t := k.DelayedTasks()[0];
    DropEventEffect(k, t);
    ReadyKeepsSettled(k, t);
    MoveToReadyFrom(DropEvent(k, t), t);
    MoveToReadyEffect(DropEvent(k, t), t);
  }

  lemma DueOneMore(k: Kernel)
    requires Settled(k) && k.DelayedTasks() != [] && k.sleep[k.DelayedTasks()[0]].wake <= k.clock.tick
    ensures forall u :: IsDue(k, u) <==> IsDue(ExpireOne(k), u) || u == k.DelayedTasks()[0]
  {
    ExpireOneEffect(k);
  }

  lemma ScanOneMore(k: Kernel, r: Kernel)
    requires Settled(k) && k.DelayedTasks() != [] && k.sleep[k.DelayedTasks()[0]].wake <= k.clock.tick
    requires ScannedAll(ExpireOne(k), r)
    ensures ScannedAll(k, r)
  {
    ExpireOneEffect(k);
    ScanOneMoreState(k, r);
    ScanOneMoreEvent(k, r);
  }

  lemma ScanOneMoreState(k: Kernel, r: Kernel)
    requires Settled(k) && k.DelayedTasks() != [] && k.sleep[k.DelayedTasks()[0]].wake <= k.clock.tick
    requires ScannedStates(ExpireOne(k), r)
    ensures ScannedStates(k, r)
  {
    var t, m := k.DelayedTasks()[0], ExpireOne(k);
    ExpireOneEffect(k);
    DueOneMore(k);
    forall u | u in k.tcb
      ensures u in r.state.container && u in k.state.container
      ensures r.state.container[u] == if IsDue(k, u) then Ready(k.tcb[u].priority) else k.state.container[u]
    {
      assert u in m.state.container && !IsDue(m, t);
    }
  }

  lemma ScanOneMoreEvent(k: Kernel, r: Kernel)
    requires Settled(k) && k.DelayedTasks() != [] && k.sleep[k.DelayedTasks()[0]].wake <= k.clock.tick
    requires ScannedEvents(ExpireOne(k), r)
    ensures ScannedEvents(k, r)
  {
    ExpireOneEffect(k);
    DueOneMore(k);
  }

  lemma SwitchOneMore(k: Kernel)
    requires Settled(k) && k.DelayedTasks() != [] && k.sleep[k.DelayedTasks()[0]].wake <= k.clock.tick
    ensures var t := k.DelayedTasks()[0];
            t in k.tcb
            && (SomeoneDueOutranks(k) <==>
                k.tcb[t].priority >= k.tcb[k.current].priority || SomeoneDueOutranks(ExpireOne(k)))
  {
    var t, m := k.DelayedTasks()[0], ExpireOne(k);
    ExpireOneEffect(k);
    DueOneMore(k);
    if SomeoneDueOutranks(k) {
      var u :| IsDue(k, u) && u in k.tcb && k.tcb[u].priority >= k.tcb[k.current].priority;
      assert u == t || IsDue(m, u);
    }
    if SomeoneDueOutranks(m) {
      var u :| IsDue(m, u) && u in m.tcb && m.tcb[u].priority >= m.tcb[m.current].priority;
      assert IsDue(k, u);
    }
    assert IsDue(k, t);
  }

  lemma NothingDue(k: Kernel)
    requires Settled(k)
    requires k.DelayedTasks() != [] ==> k.clock.tick < k.sleep[k.DelayedTasks()[0]].wake
    ensures forall t :: !IsDue(k, t)
    ensures forall t | t in k.state.container && k.state.container[t] == k.Delayed() ::
              k.DelayedTasks() != [] && k.sleep[k.DelayedTasks()[0]].wake <= k.sleep[t].wake
  {
    var d := k.DelayedTasks();
    forall t | t in k.state.container && k.state.container[t] == k.Delayed()
      ensures d != [] && k.sleep[d[0]].wake <= k.sleep[t].wake
    {
      assert k.state.Holds(k.Delayed(), t);
      var i :| 0 <= i < |d| && d[i] == t;
    }
  }

  /** On one of the two delayed lists. */
  predicate Asleep(k: Kernel, t: Task) {
    t in k.state.container && (k.state.container[t] == k.Delayed() || k.state.container[t] == k.Overflow())
  }

  /** The state between counting a tick and readying tasks: some may be due. */
  ghost predicate Counted(k: Kernel) {
    && Settled(k) && CacheIsLow(k)
    && k.clock.tick == Wrap(k.clock.now) && k.clock.overflows == Epoch(k.clock.now)
    && InEpoch(k.state, k.Delayed(), k.sleep, k.clock.now - 1, Epoch(k.clock.now))
    && InEpoch(k.state, k.Overflow(), k.sleep, k.clock.now, Epoch(k.clock.now) + 1)
  }

  lemma NextEpoch(now: int)
    ensures Wrap(Wrap(now) + 1) == Wrap(now + 1)
    ensures Wrap(now + 1) == 0 <==> Wrap(now) == MAX_DELAY
    ensures Epoch(now + 1) == if Wrap(now + 1) == 0 then Epoch(now) + 1 else Epoch(now)
    ensures forall due | Epoch(due) == Epoch(now + 1) && Wrap(now + 1) == 0 :: due >= now + 1
  {
  }

  lemma ResetEffect(k: Kernel)
    requires Settled(k)
    ensures var r := ResetNextUnblock(k);
            r == k.(clock := k.clock.(nextUnblock := r.clock.nextUnblock)) && Settled(r) && CacheIsLow(r)
  {
    var r := ResetNextUnblock(k);
    assert r == k.(clock := k.clock.(nextUnblock := r.clock.nextUnblock));
    SameButClock(k, r);
    forall t | t in k.state.container && k.state.container[t] == k.Delayed()
      ensures k.DelayedTasks() != [] && k.sleep[k.DelayedTasks()[0]].wake <= k.sleep[t].wake
    {
      assert k.state.Holds(k.Delayed(), t);
      var i :| 0 <= i < |k.DelayedTasks()| && k.DelayedTasks()[i] == t;
    }
  }

  lemma SameButClock(k: Kernel, r: Kernel)
    requires Settled(k) && r == k.(clock := r.clock)
    ensures Settled(r)
  {
    forall u | u in r.tcb
      ensures InPlace(r, u)
    {
      assert InPlace(k, u);
    }
  }

  /** Counting a tick turns the overflow list into the delayed list exactly when the 32-bit count
  wraps, and then the list it replaces is empty. */
  lemma AdvanceKeeps(k: Kernel)
    requires Core(k) && SwitchIsSafe(k)
    ensures Counted(Advance(k)) && OnlyCounted(k, Advance(k))
    ensures forall t :: IsDue(Advance(k), t) <==> WakesNext(k, t)
  {
    NextEpoch(k.clock.now);
    if Wrap(k.clock.tick + 1) == 0 {
      AdvanceWraps(k);
    } else {
      AdvanceStays(k);
    }
    AdvanceDue(k, Advance(k));
  }

  ghost predicate OnlyCounted(k: Kernel, a: Kernel) {
    && a == k.(clock := a.clock)
    && a.clock == k.clock.(tick := a.clock.tick, nextUnblock := a.clock.nextUnblock, overflows := a.clock.overflows,
                           swapped := a.clock.swapped, now := k.clock.now + 1)
    && a.clock.swapped == (if a.clock.tick == 0 then !k.clock.swapped else k.clock.swapped)
  }

  lemma AdvanceStays(k: Kernel)
    requires Core(k) && SwitchIsSafe(k) && Wrap(k.clock.tick + 1) != 0
    ensures Counted(Advance(k)) && OnlyCounted(k, Advance(k))
  {
    NextEpoch(k.clock.now);
    SameButClock(k, Advance(k));
  }

  lemma AdvanceWraps(k: Kernel)
    requires Core(k) && SwitchIsSafe(k) && Wrap(k.clock.tick + 1) == 0
    ensures Counted(Advance(k)) && OnlyCounted(k, Advance(k))
  {
    var c := k.clock.(tick := 0, now := k.clock.now + 1);
    var b := k.(clock := c.(swapped := !c.swapped, overflows := c.overflows + 1));
    SameButClock(k, b);
    ResetEffect(b);
    assert Advance(k) == ResetNextUnblock(b);
    WrapIsCounted(k, b, ResetNextUnblock(b));
  }

  lemma WrapIsCounted(k: Kernel, b: Kernel, r: Kernel)
    requires Core(k) && SwitchIsSafe(k) && Wrap(k.clock.tick + 1) == 0
    requires var c := k.clock.(tick := 0, now := k.clock.now + 1);
             b == k.(clock := c.(swapped := !c.swapped, overflows := c.overflows + 1))
    requires r == b.(clock := b.clock.(nextUnblock := r.clock.nextUnblock)) && Settled(r) && CacheIsLow(r)
    ensures Counted(r) && OnlyCounted(k, r)
  {
    SwappedEpochs(k, b);
  }

  lemma SwappedEpochs(k: Kernel, b: Kernel)
    requires Core(k) && SwitchIsSafe(k) && Wrap(k.clock.tick + 1) == 0
    requires b == k.(clock := b.clock) && b.clock.swapped == !k.clock.swapped && b.clock.now == k.clock.now + 1
    ensures Wrap(b.clock.now) == 0 && Epoch(b.clock.now) == k.clock.overflows + 1
    ensures InEpoch(b.state, b.Delayed(), b.sleep, b.clock.now - 1, Epoch(b.clock.now))
    ensures InEpoch(b.state, b.Overflow(), b.sleep, b.clock.now, Epoch(b.clock.now) + 1)
  {
    NextEpoch(k.clock.now);
    NobodyIn(k, k.Delayed());
  }

  lemma AdvanceDue(k: Kernel, a: Kernel)
    requires Core(k) && SwitchIsSafe(k) && Counted(a) && OnlyCounted(k, a)
    requires a.clock.tick == 0 <==> k.clock.tick == MAX_DELAY
    ensures forall t :: IsDue(a, t) <==> WakesNext(k, t)
  {
    forall t
      ensures IsDue(a, t) <==> WakesNext(k, t)
    {
      if Asleep(k, t) {
        WakeOrder(a.sleep[t].due, a.clock.now);
        if a.state.container[t] == a.Overflow() {
          assert Epoch(a.sleep[t].due) > Epoch(a.clock.now);
        }
      }
    }
  }

  lemma NobodyIn(k: Kernel, p: StatePlace)
    requires Settled(k) && k.state.Of(p).items == []
    ensures forall t | t in k.state.container :: k.state.container[t] != p
  {
    forall t | t in k.state.container
      ensures k.state.container[t] != p
    {
      assert k.state.Holds(k.state.container[t], t);
    }
  }

  /** Within an epoch tick values order times; across epochs the epochs do. */
  lemma WakeOrder(due: int, now: int)
    ensures Epoch(due) == Epoch(now) ==> (Wrap(due) <= Wrap(now) <==> due <= now)
    ensures Epoch(due) > Epoch(now) ==> due > now
    ensures Epoch(due) == Epoch(now) && Wrap(now) == MAX_DELAY ==> due <= now
  {
  }

  /** The tasks a tick makes ready are exactly those whose time is at most the new time. */
  ghost predicate TickReadied(k: Kernel, r: Kernel) {
    && r == k.(state := r.state, event := r.event, top := r.top, clock := r.clock)
    && OnlyCounted(k, k.(clock := r.clock))
    && (forall t | t in k.tcb :: t in r.state.container && t in k.state.container
          && r.state.container[t] == if WakesNext(k, t) then Ready(k.tcb[t].priority) else k.state.container[t])
    && (forall t :: t in r.event.container <==> t in k.event.container && !WakesNext(k, t))
    && (forall t | t in r.event.container :: r.event.container[t] == k.event.container[t])
    && (k.Pending() == [] ==> r.Pending() == [])
  }

  /** Its wake time is the next tick or has passed. */
  ghost predicate WakesNext(k: Kernel, t: Task) {
    Asleep(k, t) && t in k.sleep && k.sleep[t].due <= k.clock.now + 1
  }

  /** All sleepers are due later than now. */
  ghost predicate AllLater(k: Kernel) {
    forall t | Asleep(k, t) :: t in k.sleep && k.sleep[t].due > k.clock.now
  }

  lemma ExpireCounted(a: Kernel)
    requires Counted(a)
    ensures var e := Expire(a, false).0; Core(e) && SwitchIsSafe(e) && AllLater(e) && ScannedAll(a, e)
    ensures a.clock.tick < a.clock.nextUnblock ==>
              (forall t :: !IsDue(a, t)) && Core(a) && SwitchIsSafe(a) && AllLater(a) && !SomeoneDueOutranks(a)
  {
    ExpireIsFullScan(a, false);
    var e := Expire(a, false).0;
    Undue(a, e);
    if a.clock.tick < a.clock.nextUnblock {
      Undue(a, a);
    }
  }

  /** Once nobody is due, everybody is later. */
  lemma Undue(a: Kernel, e: Kernel)
    requires Counted(a) && Settled(e) && CacheIsLow(e)
    requires e.clock == a.clock.(nextUnblock := e.clock.nextUnblock) && e.sleep == a.sleep
    requires forall t | t in e.state.container && (e.state.container[t] == e.Delayed() || e.state.container[t] == e.Overflow())
               :: t in a.state.container && a.state.container[t] == e.state.container[t] && !IsDue(a, t)
    ensures Core(e) && SwitchIsSafe(e) && AllLater(e)
  {
    forall t | Asleep(e, t)
      ensures t in e.sleep && e.sleep[t].due > e.clock.now
      ensures e.state.container[t] == e.Delayed() ==> e.clock.tick != MAX_DELAY
    {
      WakeOrder(a.sleep[t].due, a.clock.now);
    }
    if e.DelayedTasks() != [] {
      HeadIsTask(e, e.Delayed());
      assert Asleep(e, e.DelayedTasks()[0]);
    }
  }

  lemma ScanIsReadied(k: Kernel, a: Kernel, e: Kernel)
    requires WellFormed(k) && OnlyCounted(k, a) && ScannedAll(a, e)
    requires forall t :: IsDue(a, t) <==> WakesNext(k, t)
    ensures TickReadied(k, e)
  {
    forall t | t in k.tcb
      ensures t in e.state.container && t in k.state.container
      ensures e.state.container[t] == if WakesNext(k, t) then Ready(k.tcb[t].priority) else k.state.container[t]
    {
      assert t in a.tcb;
    }
  }

  lemma NothingIsScanned(a: Kernel)
    requires WellFormed(a) && forall t :: !IsDue(a, t)
    ensures ScannedAll(a, a)
  {
  }

  /** One tick, with the cached unblock time deciding whether to look at the delayed list at all,
  readies exactly the tasks whose absolute wake time has come. */
  lemma CountTickKeeps(k: Kernel)
    requires Core(k) && SwitchIsSafe(k)
    ensures var r := CountTick(k).0; Core(r) && SwitchIsSafe(r) && AllLater(r) && TickReadied(k, r)
  {
    var a := Advance(k);
    AdvanceKeeps(k);
    ExpireCounted(a);
    if a.clock.tick >= a.clock.nextUnblock {
      ScanIsReadied(k, a, Expire(a, false).0);
    } else {
      NothingIsScanned(a);
      ScanIsReadied(k, a, a);
    }
  }
}
