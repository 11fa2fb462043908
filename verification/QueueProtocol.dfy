/** Blocking on a queue, in every interleaving of tasks and interrupts. */
module QueueProtocol {
  import opened ListModel
  import opened ItemLists
  import opened Options

  /// queueUNLOCKED, queueLOCKED_UNMODIFIED and queueINT8_MAX.
  const UNLOCKED := -1
  const LOCKED_UNMODIFIED := 0
  const LOCK_MAX := 127

  /** One waiting list, and, as an auxiliary, those taken off it that have not run since. */
  datatype Side = Side(waiting: seq<Task>, woken: set<Task>)

  /** A queue without its storage: `receivers` wait in xTasksWaitingToReceive, `senders` in
  xTasksWaitingToSend.  `failed` is set by the assertion that a lock count has not reached its
  maximum, which stops the system. */
  datatype Queue = Queue(
    length: nat, count: nat, rxLock: int, txLock: int, receivers: Side, senders: Side, failed: bool)

  // ----- the critical sections -----

  /** xTaskRemoveFromEventList, if the list is not empty. */
  function WakeOne(s: Side): Side {
    if s.waiting == [] then s else Side(s.waiting[1..], s.woken + {s.waiting[0]})
  }

  function WakeReceiver(q: Queue): Queue {
    q.(receivers := WakeOne(q.receivers))
  }

  function WakeSender(q: Queue): Queue {
    q.(senders := WakeOne(q.senders))
  }

  predicate CanSend(q: Queue, overwrite: bool) {
    q.count < q.length || overwrite
  }

  /** prvCopyDataToQueue, for the count. */
  function Sent(q: Queue, overwrite: bool): Queue {
    q.(count := if overwrite && q.count > 0 then q.count else q.count + 1)
  }

  /** xQueueGenericSend when there is room. */
  function SendNow(q: Queue, overwrite: bool): Queue {
    WakeReceiver(Sent(q, overwrite))
  }

  /** xQueueReceive and xQueueSemaphoreTake when there is an item. */
  function ReceiveNow(q: Queue): Queue
    requires q.count > 0
  {
    WakeSender(q.(count := q.count - 1))
  }

  /** xQueuePeek when there is an item: the item stays, so another waiter may have it. */
  function PeekNow(q: Queue): Queue {
    WakeReceiver(q)
  }

  /** xQueueGenericSendFromISR, xQueueGiveFromISR. */
  function SendFromISR(q: Queue, overwrite: bool): Queue {
    if !CanSend(q, overwrite) then q
    else
      var s := Sent(q, overwrite);
      if q.txLock == UNLOCKED then WakeReceiver(s)
      else if q.txLock == LOCK_MAX then s.(failed := true)
      else s.(txLock := q.txLock + 1)
  }

  /** xQueueReceiveFromISR. */
  function ReceiveFromISR(q: Queue): Queue {
    if q.count == 0 then q
    else
      var s := q.(count := q.count - 1);
      if q.rxLock == UNLOCKED then WakeSender(s)
      else if q.rxLock == LOCK_MAX then s.(failed := true)
      else s.(rxLock := q.rxLock + 1)
  }

  /** prvLockQueue. */
  function Lock(q: Queue): Queue {
    q.(rxLock := if q.rxLock == UNLOCKED then LOCKED_UNMODIFIED else q.rxLock,
       txLock := if q.txLock == UNLOCKED then LOCKED_UNMODIFIED else q.txLock)
  }

  /** The loops of prvUnlockQueue: one wake for each count, as long as anybody waits. */
  function WakeUpTo(s: Side, n: int): Side
    decreases n
  {
    if n > LOCKED_UNMODIFIED && s.waiting != [] then WakeUpTo(WakeOne(s), n - 1) else s
  }

  /** The first critical section of prvUnlockQueue. */
  function UnlockTx(q: Queue): Queue {
    q.(receivers := WakeUpTo(q.receivers, q.txLock), txLock := UNLOCKED)
  }

  /** The second one. */
  function UnlockRx(q: Queue): Queue {
    q.(senders := WakeUpTo(q.senders, q.rxLock), rxLock := UNLOCKED)
  }

  /** vListInsert by priority: behind every waiter of the same or a higher one. */
  function PriorityPosition(waiting: seq<Task>, priority: Task -> nat, p: nat): (i: nat)
    ensures i <= |waiting|
    ensures forall j | 0 <= j < i :: priority(waiting[j]) >= p
    ensures i < |waiting| ==> priority(waiting[i]) < p
  {
    if waiting == [] || priority(waiting[0]) < p then 0 else 1 + PriorityPosition(waiting[1..], priority, p)
  }

  function InsertByPriority(waiting: seq<Task>, priority: Task -> nat, t: Task): seq<Task> {
    var i := PriorityPosition(waiting, priority, priority(t));
    waiting[..i] + [t] + waiting[i..]
  }

  // ----- tasks -----

  datatype Op = Send(overwrite: bool) | Receive | Peek

  /** What a task does after unlocking: try once more, wait to be woken, or report the time-out. */
  datatype After = Retry | Wait | GiveUp

  /** Where in xQueueGenericSend, xQueueReceive, xQueueSemaphoreTake or xQueuePeek a task is.  From
  Locking to Resuming it has the scheduler suspended. */
  datatype Pc =
    | Outside
    | Trying(op: Op)
    | Suspending(op: Op)
    | Locking(op: Op)
    | Checking(op: Op)
    | Testing(op: Op)
    | Placing(op: Op)
    | UnlockingTx(op: Op, after: After)
    | UnlockingRx(op: Op, after: After)
    | Resuming(op: Op, after: After)
    | Parked(op: Op)
    | LastLook(op: Op)

  /** `owner` is the task that has the scheduler suspended. */
  datatype System = System(q: Queue, pc: map<Task, Pc>, owner: Option<Task>, priority: Task -> nat)

  datatype Step =
    | Start(t: Task, op: Op)
    | Try(t: Task, mayBlock: bool)
    | SuspendAll(t: Task)
    | WaitRestricted(t: Task)
    | DoLock(t: Task)
    | Check(t: Task, expired: bool)
    | Test(t: Task)
    | Place(t: Task)
    | DoUnlockTx(t: Task)
    | DoUnlockRx(t: Task)
    | ResumeAll(t: Task)
    | Rerun(t: Task)
    | Look(t: Task)
    | Expire(t: Task)
    | IsrSend(overwrite: bool)
    | IsrReceive

  /** The task of a step, if it is not an interrupt's. */
  predicate IsTaskStep(s: Step) {
    !s.IsrSend? && !s.IsrReceive? && !s.Expire?
  }

  predicate OpAllowed(length: nat, op: Op) {
    op.Send? && op.overwrite ==> length == 1
  }

  predicate IsAt(m: System, s: Step)
    requires IsTaskStep(s) && s.t in m.pc
  {
    match s
    case Start(t, op) => m.pc[t].Outside? && OpAllowed(m.q.length, op)
    case Try(t, _) => m.pc[t].Trying?
    case SuspendAll(t) => m.pc[t].Suspending?
    case WaitRestricted(t) => m.pc[t].Outside? && m.q.receivers.waiting == []
    case DoLock(t) => m.pc[t].Locking?
    case Check(t, _) => m.pc[t].Checking?
    case Test(t) => m.pc[t].Testing?
    case Place(t) => m.pc[t].Placing?
    case DoUnlockTx(t) => m.pc[t].UnlockingTx?
    case DoUnlockRx(t) => m.pc[t].UnlockingRx?
    case ResumeAll(t) => m.pc[t].Resuming?
    case Rerun(t) => m.pc[t].Parked? && t !in m.q.receivers.waiting && t !in m.q.senders.waiting
    case Look(t) => m.pc[t].LastLook?
  }

  /** WaitRestricted is the timer daemon, which suspends the scheduler and then waits for a command
  by vQueueWaitForMessageRestricted without having tried to receive one; it is the only receiver.
  A task step needs the scheduler running, or suspended by that task; a time-out (or
  xTaskAbortDelay) takes a waiting task off its list only while the scheduler runs; interrupts come
  at any time.  Nothing happens after a failed assertion. */
  predicate Enabled(m: System, s: Step) {
    && !m.q.failed
    && match s
       case IsrSend(overwrite) => overwrite ==> m.q.length == 1
       case IsrReceive => true
       case Expire(t) => m.owner == None && (t in m.q.receivers.waiting || t in m.q.senders.waiting)
       case _ => s.t in m.pc && (m.owner == None || m.owner == Some(s.t)) && IsAt(m, s)
  }

  /** The tick takes a task off the list it waits in. */
  function Dropped(s: Side, t: Task): Side {
    if t in s.waiting then
      var i := Position(s.waiting, t);
      s.(waiting := s.waiting[..i] + s.waiting[i + 1..])
    else s
  }

  function Move(m: System, t: Task, p: Pc): System {
    m.(pc := m.pc[t := p])
  }

  /** A task that runs again is no longer a woken one. */
  function Ran(s: Side, t: Task): Side {
    s.(woken := s.woken - {t})
  }

  function Awake(q: Queue, t: Task): Queue {
    q.(receivers := Ran(q.receivers, t), senders := Ran(q.senders, t))
  }

  predicate Succeeds(q: Queue, op: Op) {
    if op.Send? then CanSend(q, op.overwrite) else q.count > 0
  }

  function Perform(q: Queue, op: Op): Queue
    requires Succeeds(q, op)
  {
    match op
    case Send(overwrite) => SendNow(q, overwrite)
    case Receive => ReceiveNow(q)
    case Peek => PeekNow(q)
  }

  /** prvIsQueueFull or prvIsQueueEmpty. */
  predicate MustWait(q: Queue, op: Op) {
    if op.Send? then q.count == q.length else q.count == 0
  }

  function Enlisted(s: Side, priority: Task -> nat, t: Task): Side {
    s.(waiting := InsertByPriority(s.waiting, priority, t))
  }

  /** vTaskPlaceOnEventList. */
  function Enlist(m: System, t: Task, op: Op): Queue {
    if op.Send? then m.q.(senders := Enlisted(m.q.senders, m.priority, t))
    else m.q.(receivers := Enlisted(m.q.receivers, m.priority, t))
  }

  function Next(m: System, s: Step): System
    requires Enabled(m, s)
  {
    match s
    case Start(t, op) => Move(m, t, Trying(op))
    case Try(t, mayBlock) =>
      var op, q := m.pc[t].op, Awake(m.q, t);
      if Succeeds(q, op) then Move(m.(q := Perform(q, op)), t, Outside)
      else Move(m.(q := q), t, if mayBlock then Suspending(op) else Outside)
    case SuspendAll(t) => Move(m.(owner := Some(t)), t, Locking(m.pc[t].op))
    case WaitRestricted(t) => Move(m.(owner := Some(t)), t, Locking(Receive))
    case DoLock(t) => Move(m.(q := Lock(m.q)), t, Checking(m.pc[t].op))
    case Check(t, expired) =>
      var op := m.pc[t].op;
      Move(m, t, if expired then UnlockingTx(op, GiveUp) else Testing(op))
    case Test(t) =>
      var op := m.pc[t].op;
      Move(m, t, if MustWait(m.q, op) then Placing(op) else UnlockingTx(op, Retry))
    case Place(t) => Move(m.(q := Enlist(m, t, m.pc[t].op)), t, UnlockingTx(m.pc[t].op, Wait))
    case DoUnlockTx(t) => Move(m.(q := UnlockTx(m.q)), t, UnlockingRx(m.pc[t].op, m.pc[t].after))
    case DoUnlockRx(t) => Move(m.(q := UnlockRx(m.q)), t, Resuming(m.pc[t].op, m.pc[t].after))
    case ResumeAll(t) =>
      var op := m.pc[t].op;
      Move(m.(owner := None), t,
           match m.pc[t].after
           case Retry => Trying(op)
           case Wait => Parked(op)
           case GiveUp => if op.Send? then Outside else LastLook(op))
    case Rerun(t) => Move(m, t, Trying(m.pc[t].op))
    case Look(t) => Move(m, t, if MustWait(m.q, m.pc[t].op) then Outside else Trying(m.pc[t].op))
    case Expire(t) => m.(q := m.q.(receivers := Dropped(m.q.receivers, t), senders := Dropped(m.q.senders, t)))
    case IsrSend(overwrite) => m.(q := SendFromISR(m.q, overwrite))
    case IsrReceive => m.(q := ReceiveFromISR(m.q))
  }

  // ----- no lost wake-up -----

  function Positive(n: int): nat {
    if n > 0 then n else 0
  }

  /** If anybody waits, each of the `available` items (or free slots) is spoken for: by a task that
  was woken and has not run since, or by the lock count, which the unlocking task will turn into
  wakes. */
  ghost predicate Covered(s: Side, available: int, lock: int) {
    s.waiting != [] ==> available <= |s.woken| + Positive(lock)
  }

  ghost predicate NoLostWakeup(q: Queue) {
    && Covered(q.receivers, q.count, q.txLock)
    && Covered(q.senders, q.length - q.count, q.rxLock)
  }

  predicate HasScheduler(p: Pc) {
    p.Locking? || p.Checking? || p.Testing? || p.Placing? || p.UnlockingTx? || p.UnlockingRx? || p.Resuming?
  }

  /** May a task at p be on a waiting list, and for which operation? */
  predicate MayWait(p: Pc) {
    p.Parked? || ((p.UnlockingTx? || p.UnlockingRx? || p.Resuming?) && p.after == Wait)
  }

  /** May it be woken but not have run? */
  predicate MayBeWoken(p: Pc) {
    MayWait(p) || p.Trying?
  }

  /** The lock counts at each point of the task that has the scheduler suspended. */
  predicate LocksAgree(q: Queue, p: Pc) {
    match p
    case Locking(_) => q.txLock == UNLOCKED && q.rxLock == UNLOCKED
    case Checking(_) => q.txLock >= 0 && q.rxLock >= 0
    case Testing(_) => q.txLock >= 0 && q.rxLock >= 0
    case Placing(op) =>
      && q.txLock >= 0 && q.rxLock >= 0
      && (if op.Send? then q.length - q.count <= q.rxLock else q.count <= q.txLock)
    case UnlockingTx(_, _) => q.txLock >= 0 && q.rxLock >= 0
    case UnlockingRx(_, _) => q.txLock == UNLOCKED && q.rxLock >= 0
    case Resuming(_, _) => q.txLock == UNLOCKED && q.rxLock == UNLOCKED
    case _ => false
  }

  ghost predicate Inv(m: System) {
    var q := m.q;
    && 0 < q.length && q.count <= q.length
    && UNLOCKED <= q.txLock <= LOCK_MAX && UNLOCKED <= q.rxLock <= LOCK_MAX
    && (m.owner == None ==> q.txLock == UNLOCKED && q.rxLock == UNLOCKED)
    && (m.owner.Some? ==> m.owner.value in m.pc && HasScheduler(m.pc[m.owner.value]) && LocksAgree(q, m.pc[m.owner.value]))
    && PcsOk(q.length, m.pc, m.owner)
    && SideOk(q.receivers, m.pc, false) && SideOk(q.senders, m.pc, true)
    && NoLostWakeup(q)
  }

  /** Only the task that has the scheduler suspended is at a point where it must have. */
  ghost predicate PcsOk(length: nat, pc: map<Task, Pc>, owner: Option<Task>) {
    && (forall t | t in pc :: HasScheduler(pc[t]) ==> owner == Some(t))
    && (forall t | t in pc && !pc[t].Outside? :: OpAllowed(length, pc[t].op))
  }

  lemma PcMoved(length: nat, pc: map<Task, Pc>, owner: Option<Task>, t: Task, p: Pc)
    requires PcsOk(length, pc, owner) && (HasScheduler(p) ==> owner == Some(t))
    requires !p.Outside? ==> OpAllowed(length, p.op)
    ensures PcsOk(length, pc[t := p], owner)
  {
  }

  /** Nobody waits twice, nobody waits and is woken, and nobody waits for the wrong thing. */
  ghost predicate SideOk(s: Side, pc: map<Task, Pc>, sending: bool) {
    && NoDuplicates(s.waiting)
    && (forall t | t in s.waiting :: t in pc && MayWait(pc[t]) && pc[t].op.Send? == sending && t !in s.woken)
    && (forall t | t in s.woken :: t in pc && MayBeWoken(pc[t]) && pc[t].op.Send? == sending)
  }

  // ----- one side -----

  lemma WakeOneFacts(s: Side, pc: map<Task, Pc>, sending: bool, available: int, lock: int)
    requires SideOk(s, pc, sending) && Covered(s, available, lock)
    ensures SideOk(WakeOne(s), pc, sending)
    ensures Covered(WakeOne(s), available + 1, lock)
    ensures lock > 0 ==> Covered(WakeOne(s), available, lock - 1)
  {
    if s.waiting != [] {
      WakeOneOk(s, pc, sending);
      WakeOneCounts(s, s.waiting[0]);
    }
  }

  lemma WakeOneOk(s: Side, pc: map<Task, Pc>, sending: bool)
    requires SideOk(s, pc, sending) && s.waiting != []
    ensures SideOk(WakeOne(s), pc, sending) && s.waiting[0] !in s.woken
  {
    hide NoDuplicates;
    TheOthersWait(s.waiting);
    assert s.waiting[0] in s.waiting;
  }

  lemma TheOthersWait(waiting: seq<Task>)
    requires waiting != [] && NoDuplicates(waiting)
    ensures NoDuplicates(waiting[1..]) && forall t | t in waiting[1..] :: t in waiting && t != waiting[0]
  {
    NoDuplicatesRemove(waiting, 0);
    assert waiting[..0] + waiting[1..] == waiting[1..];
    forall t | t in waiting[1..]
      ensures t in waiting && t != waiting[0]
    {
      var i :| 0 <= i < |waiting| - 1 && waiting[1..][i] == t;
      assert waiting[i + 1] == t && Differ(waiting, 0, i + 1);
    }
  }

  lemma WakeOneCounts(s: Side, t: Task)
    requires s.waiting != [] && t == s.waiting[0] && t !in s.woken
    ensures |WakeOne(s).woken| == |s.woken| + 1
  {
  }

  /** What the loop of the unlocking task leaves: each item posted while the queue was locked has
  its wake, or nobody waits any more. */
  lemma {:induction false} WakeUpToFacts(s: Side, pc: map<Task, Pc>, sending: bool, available: int, lock: int)
    requires SideOk(s, pc, sending) && Covered(s, available, lock)
    ensures SideOk(WakeUpTo(s, lock), pc, sending)
    ensures Covered(WakeUpTo(s, lock), available, 0)
    decreases lock
  {
    if lock > 0 && s.waiting != [] {
      WakeOneFacts(s, pc, sending, available, lock);
      WakeUpToFacts(WakeOne(s), pc, sending, available, lock - 1);
    }
  }

  /** A woken task that runs gives up its claim to one item. */
  lemma RanFacts(s: Side, pc: map<Task, Pc>, sending: bool, t: Task, p: Pc, available: int, lock: int)
    requires SideOk(s, pc, sending) && Covered(s, available, lock) && t !in s.waiting
    ensures SideOk(Ran(s, t), pc[t := p], sending)
    ensures Covered(Ran(s, t), available - 1, lock)
    ensures t !in s.woken ==> Ran(s, t) == s
  {
    if t in s.woken {
      assert s.woken == (s.woken - {t}) + {t};
      assert |s.woken| == |s.woken - {t}| + 1;
    } else {
      assert s.woken - {t} == s.woken;
    }
  }

  lemma DroppedFacts(s: Side, pc: map<Task, Pc>, sending: bool, t: Task, available: int, lock: int)
    requires SideOk(s, pc, sending) && Covered(s, available, lock)
    ensures SideOk(Dropped(s, t), pc, sending) && Covered(Dropped(s, t), available, lock)
  {
    if t in s.waiting {
      NoDuplicatesRemove(s.waiting, Position(s.waiting, t));
    }
  }

  lemma EnlistedFacts(s: Side, pc: map<Task, Pc>, sending: bool, priority: Task -> nat, t: Task, p: Pc)
    requires SideOk(s, pc, sending) && t !in s.waiting && t !in s.woken
    requires MayWait(p) && p.op.Send? == sending
    ensures SideOk(Enlisted(s, priority, t), pc[t := p], sending)
  {
    var i := PriorityPosition(s.waiting, priority, priority(t));
    NoDuplicatesInsert(s.waiting, i, t);
    assert s.waiting == s.waiting[..i] + s.waiting[i..];
  }

  /** A step of a task that concerns the other side only. */
  lemma MovedFacts(s: Side, pc: map<Task, Pc>, sending: bool, t: Task, p: Pc)
    requires SideOk(s, pc, sending)
    requires t in s.waiting ==> MayWait(p) && p.op.Send? == sending
    requires t in s.woken ==> MayBeWoken(p) && p.op.Send? == sending
    ensures SideOk(s, pc[t := p], sending)
  {
  }

  // ----- each step -----

  /** A task that tries is on no waiting list. */
  lemma TryingWaitsNowhere(m: System, t: Task)
    requires Inv(m) && t in m.pc && !MayWait(m.pc[t])
    ensures t !in m.q.receivers.waiting && t !in m.q.senders.waiting
    ensures !MayBeWoken(m.pc[t]) ==> t !in m.q.receivers.woken && t !in m.q.senders.woken
    ensures m.pc[t].Trying? ==> (m.pc[t].op.Send? ==> t !in m.q.receivers.woken)
                                && (!m.pc[t].op.Send? ==> t !in m.q.senders.woken)
  {
  }

  lemma OpIsAllowed(m: System, t: Task)
    requires Inv(m) && t in m.pc && !m.pc[t].Outside?
    ensures OpAllowed(m.q.length, m.pc[t].op)
  {
  }

  lemma CoveredLess(s: Side, available: int, fewer: int, lock: int)
    requires Covered(s, available, lock) && fewer <= available
    ensures Covered(s, fewer, lock)
  {
  }

  lemma CoveredByNone(s: Side, available: int, lock: int)
    requires available <= 0
    ensures Covered(s, available, lock)
  {
  }

  /** A step of one task while no one has the scheduler suspended keeps the invariant if it keeps both
  sides right. */
  lemma SidesSuffice(m: System, q: Queue, t: Task, p: Pc)
    requires Inv(m) && m.owner == None && q == m.q.(count := q.count, receivers := q.receivers, senders := q.senders)
    requires PcsOk(q.length, m.pc[t := p], m.owner) && q.count <= q.length
    requires SideOk(q.receivers, m.pc[t := p], false) && Covered(q.receivers, q.count, q.txLock)
    requires SideOk(q.senders, m.pc[t := p], true) && Covered(q.senders, q.length - q.count, q.rxLock)
    ensures Inv(Move(m.(q := q), t, p))
  {
    hide PcsOk, SideOk, Covered;
  }

  lemma SendKeeps(m: System, t: Task, overwrite: bool)
    requires Inv(m) && m.owner == None && t in m.pc && m.pc[t] == Trying(Send(overwrite)) && CanSend(m.q, overwrite)
    ensures Inv(Move(m.(q := SendNow(Awake(m.q, t), overwrite)), t, Outside))
  {
    hide PcsOk, SideOk, Covered, WakeOne, Ran;
    OpIsAllowed(m, t);
    TryingWaitsNowhere(m, t);
    PcMoved(m.q.length, m.pc, m.owner, t, Outside);
    SentSides(m, t, overwrite);
    hide Inv;
    SidesSuffice(m, SendNow(Awake(m.q, t), overwrite), t, Outside);
  }

  lemma SentSides(m: System, t: Task, overwrite: bool)
    requires Inv(m) && t in m.pc && m.pc[t] == Trying(Send(overwrite)) && CanSend(m.q, overwrite) && (overwrite ==> m.q.length == 1)
    requires t !in m.q.senders.waiting && t !in m.q.receivers.waiting && t !in m.q.receivers.woken
    ensures var (q, pc, n) := (m.q, m.pc[t := Outside], Sent(m.q, overwrite).count);
            && n <= q.length
            && SideOk(Ran(q.senders, t), pc, true) && Covered(Ran(q.senders, t), q.length - n, q.rxLock)
            && SideOk(WakeOne(Ran(q.receivers, t)), pc, false) && Covered(WakeOne(Ran(q.receivers, t)), n, q.txLock)
  {
    hide PcsOk, SideOk, Covered, WakeOne, Ran;
    var q := m.q;
    RanFacts(q.senders, m.pc, true, t, Outside, q.length - q.count, q.rxLock);
    RanFacts(q.receivers, m.pc, false, t, Outside, q.count, q.txLock);
    WakeOneFacts(q.receivers, m.pc[t := Outside], false, q.count, q.txLock);
    CoveredLess(WakeOne(q.receivers), q.count + 1, q.count, q.txLock);
    if overwrite {
      CoveredByNone(Ran(q.senders, t), q.length - Sent(q, true).count, q.rxLock);
    }
  }

  lemma ReceiveKeeps(m: System, t: Task)
    requires Inv(m) && m.owner == None && t in m.pc && m.pc[t] == Trying(Receive) && m.q.count > 0
    ensures Inv(Move(m.(q := ReceiveNow(Awake(m.q, t))), t, Outside))
  {
    hide PcsOk, SideOk, Covered, WakeOne, Ran;
    TryingWaitsNowhere(m, t);
    PcMoved(m.q.length, m.pc, m.owner, t, Outside);
    FetchedSides(m, t);
    hide Inv;
    SidesSuffice(m, ReceiveNow(Awake(m.q, t)), t, Outside);
  }

  lemma FetchedSides(m: System, t: Task)
    requires Inv(m) && t in m.pc && m.pc[t] == Trying(Receive) && m.q.count > 0
    requires t !in m.q.senders.waiting && t !in m.q.receivers.waiting && t !in m.q.senders.woken
    ensures var (q, pc, n) := (m.q, m.pc[t := Outside], m.q.count - 1);
            && SideOk(Ran(q.receivers, t), pc, false) && Covered(Ran(q.receivers, t), n, q.txLock)
            && SideOk(WakeOne(Ran(q.senders, t)), pc, true) && Covered(WakeOne(Ran(q.senders, t)), q.length - n, q.rxLock)
  {
    hide PcsOk, SideOk, Covered, WakeOne, Ran;
    var q := m.q;
    RanFacts(q.receivers, m.pc, false, t, Outside, q.count, q.txLock);
    RanFacts(q.senders, m.pc, true, t, Outside, q.length - q.count, q.rxLock);
    WakeOneFacts(q.senders, m.pc[t := Outside], true, q.length - q.count, q.rxLock);
  }

  /** Peeking uses up a wake but no item, so it passes the wake on. */
  lemma PeekKeeps(m: System, t: Task)
    requires Inv(m) && m.owner == None && t in m.pc && m.pc[t] == Trying(Peek) && m.q.count > 0
    ensures Inv(Move(m.(q := PeekNow(Awake(m.q, t))), t, Outside))
  {
    hide PcsOk;
    var q := m.q;
    PcMoved(q.length, m.pc, m.owner, t, Outside);
    TryingWaitsNowhere(m, t);
    RanFacts(q.receivers, m.pc, false, t, Outside, q.count, q.txLock);
    RanFacts(q.senders, m.pc, true, t, Outside, q.length - q.count, q.rxLock);
    WakeOneFacts(Ran(q.receivers, t), m.pc[t := Outside], false, q.count - 1, q.txLock);
  }

  /** A task that finds nothing gives up its claim, but then there is nothing to claim. */
  lemma FailKeeps(m: System, t: Task, p: Pc)
    requires Inv(m) && m.owner == None && t in m.pc && m.pc[t].Trying? && !Succeeds(m.q, m.pc[t].op)
    requires p == Outside || p == Suspending(m.pc[t].op)
    ensures Inv(Move(m.(q := Awake(m.q, t)), t, p))
  {
    OpIsAllowed(m, t);
    TryingWaitsNowhere(m, t);
    hide PcsOk, SideOk, Ran;
    var q := m.q;
    PcMoved(q.length, m.pc, m.owner, t, p);
    RanFacts(q.receivers, m.pc, false, t, p, q.count, q.txLock);
    RanFacts(q.senders, m.pc, true, t, p, q.length - q.count, q.rxLock);
  }

  lemma IsrSendKeeps(m: System, overwrite: bool)
    requires Inv(m) && (overwrite ==> m.q.length == 1)
    ensures !SendFromISR(m.q, overwrite).failed ==> Inv(m.(q := SendFromISR(m.q, overwrite)))
  {
    var q := m.q;
    WakeOneFacts(q.receivers, m.pc, false, q.count, q.txLock);
  }

  lemma IsrReceiveKeeps(m: System)
    requires Inv(m)
    ensures !ReceiveFromISR(m.q).failed ==> Inv(m.(q := ReceiveFromISR(m.q)))
  {
    var q := m.q;
    WakeOneFacts(q.senders, m.pc, true, q.length - q.count, q.rxLock);
  }

  lemma UnlockTxKeeps(m: System, t: Task)
    requires Inv(m) && Enabled(m, DoUnlockTx(t))
    ensures Inv(Next(m, DoUnlockTx(t)))
  {
    var q, p := m.q, UnlockingRx(m.pc[t].op, m.pc[t].after);
    WakeUpToFacts(q.receivers, m.pc, false, q.count, q.txLock);
    MovedFacts(WakeUpTo(q.receivers, q.txLock), m.pc, false, t, p);
    MovedFacts(q.senders, m.pc, true, t, p);
  }

  lemma UnlockRxKeeps(m: System, t: Task)
    requires Inv(m) && Enabled(m, DoUnlockRx(t))
    ensures Inv(Next(m, DoUnlockRx(t)))
  {
    var q, p := m.q, Resuming(m.pc[t].op, m.pc[t].after);
    WakeUpToFacts(q.senders, m.pc, true, q.length - q.count, q.rxLock);
    MovedFacts(WakeUpTo(q.senders, q.rxLock), m.pc, true, t, p);
    MovedFacts(q.receivers, m.pc, false, t, p);
  }

  /** A task enlists after seeing an empty (or full) queue; whatever came since is in the lock
  count. */
  lemma PlaceKeeps(m: System, t: Task)
    requires Inv(m) && Enabled(m, Place(t))
    ensures Inv(Next(m, Place(t)))
  {
    var q, p := m.q, UnlockingTx(m.pc[t].op, Wait);
    TryingWaitsNowhere(m, t);
    if p.op.Send? {
      EnlistedFacts(q.senders, m.pc, true, m.priority, t, p);
      MovedFacts(q.receivers, m.pc, false, t, p);
    } else {
      EnlistedFacts(q.receivers, m.pc, false, m.priority, t, p);
      MovedFacts(q.senders, m.pc, true, t, p);
    }
  }

  lemma ExpireKeeps(m: System, t: Task)
    requires Inv(m) && Enabled(m, Expire(t))
    ensures Inv(Next(m, Expire(t)))
  {
    var q := m.q;
    DroppedFacts(q.receivers, m.pc, false, t, q.count, q.txLock);
    DroppedFacts(q.senders, m.pc, true, t, q.length - q.count, q.rxLock);
  }

  lemma StepKeepsInv(m: System, s: Step)
    requires Inv(m) && Enabled(m, s) && !Next(m, s).q.failed
    ensures Inv(Next(m, s))
  {
    hide Inv;
    match s
    case Try(t, mayBlock) => TryKeeps(m, t, mayBlock);
    case Place(t) => PlaceKeeps(m, t);
    case DoUnlockTx(t) => UnlockTxKeeps(m, t);
    case DoUnlockRx(t) => UnlockRxKeeps(m, t);
    case Expire(t) => ExpireKeeps(m, t);
    case IsrSend(overwrite) => IsrSendKeeps(m, overwrite);
    case IsrReceive => IsrReceiveKeeps(m);
    case _ => QuietStepKeeps(m, s);
  }

  lemma TryKeeps(m: System, t: Task, mayBlock: bool)
    requires Inv(m) && Enabled(m, Try(t, mayBlock))
    ensures Inv(Next(m, Try(t, mayBlock)))
  {
    var op := m.pc[t].op;
    assert m.owner == None;
    if !Succeeds(m.q, op) {
      FailKeeps(m, t, if mayBlock then Suspending(op) else Outside);
    } else {
      match op
      case Send(overwrite) => SendKeeps(m, t, overwrite);
      case Receive => ReceiveKeeps(m, t);
      case Peek => PeekKeeps(m, t);
    }
  }

  /** Steps that move a task on without touching the waiting lists. */
  lemma QuietStepKeeps(m: System, s: Step)
    requires Inv(m) && Enabled(m, s)
    requires s.Start? || s.SuspendAll? || s.WaitRestricted? || s.DoLock? || s.Check? || s.Test? || s.ResumeAll? || s.Rerun?
             || s.Look?
    ensures Inv(Next(m, s))
  {
    var p := Next(m, s).pc[s.t];
    MovedFacts(m.q.receivers, m.pc, false, s.t, p);
    MovedFacts(m.q.senders, m.pc, true, s.t, p);
  }

  // ----- runs -----

  /** Nobody has called anything yet. */
  predicate Initial(m: System) {
    && 0 < m.q.length && m.q.count <= m.q.length
    && m.q == Queue(m.q.length, m.q.count, UNLOCKED, UNLOCKED, Side([], {}), Side([], {}), false)
    && m.owner == None && (forall t | t in m.pc :: m.pc[t] == Outside)
  }

  ghost predicate IsRun(ms: seq<System>, steps: seq<Step>) {
    && |ms| == |steps| + 1 && Initial(ms[0])
    && forall i | 0 <= i < |steps| :: StepsTo(ms[i], steps[i], ms[i + 1])
  }

  ghost predicate StepsTo(m: System, s: Step, r: System) {
    Enabled(m, s) && r == Next(m, s)
  }

  /** In every state of every run, however tasks and interrupts interleave: as long as no lock count
  overflowed, no wake-up is lost. */
  lemma {:induction false} NoWakeupIsLost(ms: seq<System>, steps: seq<Step>, n: nat)
    requires IsRun(ms, steps) && n < |ms| && !ms[n].q.failed
    ensures Inv(ms[n]) && NoLostWakeup(ms[n].q)
  {
    hide SideOk, Covered, Next;
    if n > 0 {
      assert StepsTo(ms[n - 1], steps[n - 1], ms[n]);
      NoWakeupIsLost(ms, steps, n - 1);
      StepKeepsInv(ms[n - 1], steps[n - 1]);
    } else {
      InitialIsSound(ms[0]);
    }
  }

  lemma InitialIsSound(m: System)
    requires Initial(m)
    ensures Inv(m)
  {
  }

  /** Once the woken tasks have run and no task has the scheduler suspended, tasks wait to receive
  only on an empty queue and to send only on a full one. */
  lemma WaitersWaitForAReason(ms: seq<System>, steps: seq<Step>, n: nat)
    requires IsRun(ms, steps) && n < |ms| && !ms[n].q.failed && ms[n].owner == None
    ensures var q := ms[n].q;
            && (q.receivers.woken == {} && q.receivers.waiting != [] ==> q.count == 0)
            && (q.senders.woken == {} && q.senders.waiting != [] ==> q.count == q.length)
  {
    NoWakeupIsLost(ms, steps, n);
  }

  /** The assertion fails only for an operation of an interrupt on a locked queue whose count is
  127: with fewer such operations in each lock window it never does. */
  lemma OverflowIsTheOnlyFailure(m: System, s: Step)
    requires Inv(m) && Enabled(m, s)
    ensures Next(m, s).q.failed <==>
              || (s.IsrSend? && CanSend(m.q, s.overwrite) && m.q.txLock == LOCK_MAX)
              || (s.IsrReceive? && m.q.count > 0 && m.q.rxLock == LOCK_MAX)
  {
    hide SideOk, Covered, Inv;
  }

  // ----- what the steps do to the waiting lists -----

  function Fewer(n: int, length: nat): nat {
    if n <= 0 then 0 else if n < length then n else length
  }

  /** The first m of the waiting tasks are woken, and no more. */
  ghost predicate FirstWoken(s: Side, r: Side, m: nat) {
    && m <= |s.waiting| && r.waiting == s.waiting[m..]
    && forall t :: t in r.woken <==> t in s.woken || t in s.waiting[..m]
  }

  lemma OneMoreWoken(s: Side, r: Side, m: nat)
    requires s.waiting != [] && FirstWoken(WakeOne(s), r, m)
    ensures FirstWoken(s, r, m + 1)
  {
    var tail := s.waiting[1..];
    assert tail[m..] == s.waiting[m + 1..];
    assert s.waiting[..m + 1] == [s.waiting[0]] + tail[..m];
  }

  /** Unlocking wakes one task for each count, or all if there are fewer. */
  lemma {:induction false} WakeUpToMeans(s: Side, n: int)
    ensures FirstWoken(s, WakeUpTo(s, n), Fewer(n, |s.waiting|))
    decreases n
  {
    hide FirstWoken;
    if n > LOCKED_UNMODIFIED && s.waiting != [] {
      WakeUpToMeans(WakeOne(s), n - 1);
      OneMoreWoken(s, WakeUpTo(s, n), Fewer(n - 1, |s.waiting| - 1));
    } else {
      NoneWoken(s);
    }
  }

  lemma NoneWoken(s: Side)
    ensures FirstWoken(s, s, 0)
  {
    assert s.waiting[0..] == s.waiting;
  }

  /** Placing puts exactly the one task on the list of its operation, and on no other. */
  lemma PlaceMeans(m: System, t: Task)
    requires Enabled(m, Place(t))
    ensures var (q, r) := (m.q, Next(m, Place(t)).q);
            && r == q.(receivers := r.receivers, senders := r.senders)
            && (if m.pc[t].op.Send? then r.receivers == q.receivers && IsAdded(q.senders, r.senders, t)
                else r.senders == q.senders && IsAdded(q.receivers, r.receivers, t))
  {
    hide PriorityPosition;
    AddedOnce(if m.pc[t].op.Send? then m.q.senders else m.q.receivers, m.priority, t);
  }

  ghost predicate IsAdded(s: Side, r: Side, t: Task) {
    r.woken == s.woken && multiset(r.waiting) == multiset(s.waiting) + multiset{t}
  }

  lemma AddedOnce(s: Side, priority: Task -> nat, t: Task)
    ensures IsAdded(s, Enlisted(s, priority, t), t)
  {
    var i := PriorityPosition(s.waiting, priority, priority(t));
    assert s.waiting == s.waiting[..i] + s.waiting[i..];
  }

  /** A time-out takes exactly that task off; the others stay in order. */
  lemma DroppedMeans(s: Side, t: Task)
    requires NoDuplicates(s.waiting)
    ensures var r := Dropped(s, t);
            && t !in r.waiting && r.woken == s.woken && (forall u | u != t :: u in r.waiting <==> u in s.waiting)
            && (t !in s.waiting ==> r == s)
  {
    if t in s.waiting {
      var i := Position(s.waiting, t);
      NoDuplicatesRemove(s.waiting, i);
      assert s.waiting == s.waiting[..i] + [t] + s.waiting[i + 1..];
    }
  }

  /** A task that tries does its operation exactly if it can: sending needs a free slot or overwrites,
  receiving and peeking need an item.  Otherwise it goes on to wait, or leaves, as its time allows. */
  lemma TryMeans(m: System, t: Task, mayBlock: bool)
    requires Inv(m) && Enabled(m, Try(t, mayBlock))
    ensures var (op, q, r) := (m.pc[t].op, m.q, Next(m, Try(t, mayBlock)));
            var possible := if op.Send? then q.count < q.length || op.overwrite else q.count > 0;
            && r.pc == m.pc[t := if possible || !mayBlock then Outside else Suspending(op)]
            && r.q.count - q.count == (if !possible || op.Peek? then 0 else if op.Receive? then -1
                                       else if op.overwrite && q.count > 0 then 0 else 1)
            && (possible && op.Receive? && q.senders.waiting != [] ==> r.q.senders.waiting == q.senders.waiting[1..])
            && (possible && !op.Receive? && q.receivers.waiting != [] ==> r.q.receivers.waiting == q.receivers.waiting[1..])
            && (!possible ==> r.q.senders.waiting == q.senders.waiting && r.q.receivers.waiting == q.receivers.waiting)
  {
    hide SideOk, Covered, PcsOk, LocksAgree;
  }

  /** Once the queue is locked, a task goes to wait exactly if its operation still cannot be done, and a
  receiver whose time is up gives up exactly then; otherwise they try again. */
  lemma WaitsIfItMust(m: System, t: Task)
    requires Inv(m) && t in m.pc
    ensures Enabled(m, Test(t)) && m.pc[t].op != Send(true) ==>
              && Next(m, Test(t)).q == m.q
              && Next(m, Test(t)).pc[t] ==
                   if Succeeds(m.q, m.pc[t].op) then UnlockingTx(m.pc[t].op, Retry) else Placing(m.pc[t].op)
    ensures Enabled(m, Look(t)) && m.pc[t].op != Send(true) ==>
              && Next(m, Look(t)).q == m.q
              && Next(m, Look(t)).pc[t] == if Succeeds(m.q, m.pc[t].op) then Trying(m.pc[t].op) else Outside
  {
    hide SideOk, Covered, PcsOk, LocksAgree;
  }

  /** Unlocking both sides and resuming the scheduler, if nothing comes in between. */
  function Unlocking(m: System, t: Task): System
    requires !m.q.failed && t in m.pc && m.pc[t].UnlockingTx? && (m.owner == None || m.owner == Some(t))
  {
    Next(Next(Next(m, DoUnlockTx(t)), DoUnlockRx(t)), ResumeAll(t))
  }

  /** A task whose time is up unlocks the queue and resumes; then a sender returns and a receiver looks
  once more. */
  lemma ExpiredLeaves(m: System, t: Task)
    requires Enabled(m, Check(t, true))
    ensures var op := m.pc[t].op;
            Unlocking(Next(m, Check(t, true)), t) ==
              m.(q := Unlocked(m.q), owner := None, pc := m.pc[t := if op.Send? then Outside else LastLook(op)])
  {
    var p := if m.pc[t].op.Send? then Outside else LastLook(m.pc[t].op);
    assert Unlocking(Next(m, Check(t, true)), t).pc == m.pc[t := p];
  }

  /** A task with time left is parked on its list exactly if its operation cannot be done now, and tries
  again otherwise; either way the queue is unlocked and the scheduler runs. */
  lemma StaysToWait(m: System, t: Task)
    requires Inv(m) && Enabled(m, Check(t, false)) && m.pc[t].op != Send(true)
    ensures var (op, d) := (m.pc[t].op, Next(Next(m, Check(t, false)), Test(t)));
            if Succeeds(m.q, op) then
              d.pc[t].UnlockingTx?
              && Unlocking(d, t) == m.(q := Unlocked(m.q), owner := None, pc := m.pc[t := Trying(op)])
            else
              Enabled(d, Place(t))
              && Unlocking(Next(d, Place(t)), t) ==
                   m.(q := Unlocked(Enlist(m, t, op)), owner := None, pc := m.pc[t := Parked(op)])
  {
    hide SideOk, Covered, PcsOk, LocksAgree, Enlist, WakeUpTo;
    var (op, d) := (m.pc[t].op, Next(Next(m, Check(t, false)), Test(t)));
    if Succeeds(m.q, op) {
      assert Unlocking(d, t).pc == m.pc[t := Trying(op)];
    } else {
      EnlistFrame(m, d, t, op);
      assert Unlocking(Next(d, Place(t)), t).pc == m.pc[t := Parked(op)];
    }
  }

  lemma EnlistFrame(m: System, d: System, t: Task, op: Op)
    requires d == m.(pc := d.pc)
    ensures Enlist(d, t, op) == Enlist(m, t, op) && Enlist(m, t, op).failed == m.q.failed
  {
  }

  // ----- interrupts while the queue is locked -----

  datatype Interrupt = Posting(overwrite: bool) | Fetching

  function Interrupted(q: Queue, i: Interrupt): Queue {
    match i
    case Posting(overwrite) => SendFromISR(q, overwrite)
    case Fetching => ReceiveFromISR(q)
  }

  /** The queue after some interrupts, in order. */
  function InterruptedBy(q: Queue, calls: seq<Interrupt>): Queue {
    if calls == [] then q else Interrupted(InterruptedBy(q, calls[..|calls| - 1]), calls[|calls| - 1])
  }

  function Unlocked(q: Queue): Queue {
    UnlockRx(UnlockTx(q))
  }

  /** An interrupt on a queue that is not locked posts or fetches exactly if there is room or an item,
  wakes the first waiter of the other side, and touches nothing else. */
  lemma InterruptMeans(q: Queue, i: Interrupt)
    requires q.txLock == UNLOCKED && q.rxLock == UNLOCKED
    ensures var r := Interrupted(q, i);
            match i
            case Posting(overwrite) =>
              if q.count < q.length || overwrite then
                && r == q.(count := r.count, receivers := r.receivers)
                && r.count == (if q.count > 0 && overwrite then q.count else q.count + 1)
                && FirstWoken(q.receivers, r.receivers, Fewer(1, |q.receivers.waiting|))
              else r == q
            case Fetching =>
              if q.count > 0 then
                && r == q.(count := q.count - 1, senders := r.senders)
                && FirstWoken(q.senders, r.senders, Fewer(1, |q.senders.waiting|))
              else r == q
  {
    OneWoken(q.receivers);
    OneWoken(q.senders);
  }

  lemma OneWoken(s: Side)
    ensures FirstWoken(s, WakeOne(s), Fewer(1, |s.waiting|))
  {
    if s.waiting != [] {
      NoneWoken(WakeOne(s));
      OneMoreWoken(s, WakeOne(s), 0);
    } else {
      NoneWoken(s);
    }
  }

  lemma {:induction false} OneMoreWake(s: Side, n: nat)
    ensures WakeUpTo(s, n + 1) == WakeOne(WakeUpTo(s, n))
    decreases n
  {
    if n > 0 && s.waiting != [] {
      OneMoreWake(WakeOne(s), n - 1);
    }
  }

  /** Locking only defers: whatever interrupts come while the queue is locked, and however many, after
  unlocking the queue is as if it had never been locked (unless a lock count overflowed). */
  lemma {:induction false} LockingOnlyDefers(q: Queue, calls: seq<Interrupt>)
    requires q.txLock == UNLOCKED && q.rxLock == UNLOCKED && !q.failed
    requires !InterruptedBy(Lock(q), calls).failed
    ensures Unlocked(InterruptedBy(Lock(q), calls)) == InterruptedBy(q, calls)
    ensures var l := InterruptedBy(Lock(q), calls); l.txLock >= LOCKED_UNMODIFIED && l.rxLock >= LOCKED_UNMODIFIED
  {
    if calls != [] {
      LockingOnlyDefers(q, calls[..|calls| - 1]);
      DefersOne(InterruptedBy(Lock(q), calls[..|calls| - 1]), calls[|calls| - 1]);
    }
  }

  lemma DefersOne(l: Queue, i: Interrupt)
    requires l.txLock >= LOCKED_UNMODIFIED && l.rxLock >= LOCKED_UNMODIFIED && !l.failed
    ensures !Interrupted(l, i).failed ==>
              && Unlocked(Interrupted(l, i)) == Interrupted(Unlocked(l), i)
              && Interrupted(l, i).txLock >= LOCKED_UNMODIFIED && Interrupted(l, i).rxLock >= LOCKED_UNMODIFIED
  {
    OneMoreWake(l.receivers, l.txLock);
    OneMoreWake(l.senders, l.rxLock);
  }

  // ----- who is woken -----

  /** Waiting lists are in order of priority. */
  ghost predicate ByPriority(waiting: seq<Task>, priority: Task -> nat) {
    forall i, j | 0 <= i < j < |waiting| :: priority(waiting[i]) >= priority(waiting[j])
  }

  ghost predicate Ordered(m: System) {
    ByPriority(m.q.receivers.waiting, m.priority) && ByPriority(m.q.senders.waiting, m.priority)
  }

  lemma InsertKeepsOrder(waiting: seq<Task>, priority: Task -> nat, t: Task)
    requires ByPriority(waiting, priority)
    ensures ByPriority(InsertByPriority(waiting, priority, t), priority)
  {
    var i := PriorityPosition(waiting, priority, priority(t));
    var r := InsertByPriority(waiting, priority, t);
    forall a, b | 0 <= a < b < |r|
      ensures priority(r[a]) >= priority(r[b])
    {
      if a > i {
        assert r[a] == waiting[a - 1];
      }
      if b > i {
        assert r[b] == waiting[b - 1];
      }
    }
  }

  lemma {:induction false} WakeUpToIsSuffix(s: Side, n: int)
    ensures exists k :: 0 <= k <= |s.waiting| && WakeUpTo(s, n).waiting == s.waiting[k..]
    decreases n
  {
    if n > 0 && s.waiting != [] {
      WakeUpToIsSuffix(WakeOne(s), n - 1);
      var k :| 0 <= k <= |s.waiting[1..]| && WakeUpTo(s, n).waiting == s.waiting[1..][k..];
      assert s.waiting[1..][k..] == s.waiting[k + 1..];
    } else {
      assert s.waiting == s.waiting[0..];
    }
  }

  lemma SuffixKeepsOrder(waiting: seq<Task>, priority: Task -> nat, k: nat)
    requires ByPriority(waiting, priority) && k <= |waiting|
    ensures ByPriority(waiting[k..], priority)
  {
  }

  lemma StepKeepsOrder(m: System, s: Step)
    requires Ordered(m) && Enabled(m, s)
    ensures Ordered(Next(m, s))
  {
    var rs, ss := m.q.receivers, m.q.senders;
    if rs.waiting != [] {
      SuffixKeepsOrder(rs.waiting, m.priority, 1);
    }
    if ss.waiting != [] {
      SuffixKeepsOrder(ss.waiting, m.priority, 1);
    }
    match s
    case Place(t) =>
      InsertKeepsOrder(rs.waiting, m.priority, t);
      InsertKeepsOrder(ss.waiting, m.priority, t);
    case DoUnlockTx(t) => UnlockKeepsOrder(rs, m.priority, m.q.txLock);
    case DoUnlockRx(t) => UnlockKeepsOrder(ss, m.priority, m.q.rxLock);
    case Expire(t) =>
      DropKeepsOrder(rs, m.priority, t);
      DropKeepsOrder(ss, m.priority, t);
    case _ =>
  }

  lemma UnlockKeepsOrder(s: Side, priority: Task -> nat, n: int)
    requires ByPriority(s.waiting, priority)
    ensures ByPriority(WakeUpTo(s, n).waiting, priority)
  {
    WakeUpToIsSuffix(s, n);
    var k :| 0 <= k <= |s.waiting| && WakeUpTo(s, n).waiting == s.waiting[k..];
    SuffixKeepsOrder(s.waiting, priority, k);
  }

  lemma DropKeepsOrder(s: Side, priority: Task -> nat, t: Task)
    requires ByPriority(s.waiting, priority)
    ensures ByPriority(Dropped(s, t).waiting, priority)
  {
    var r := Dropped(s, t).waiting;
    if t in s.waiting {
      var p := Position(s.waiting, t);
      forall a, b | 0 <= a < b < |r|
        ensures priority(r[a]) >= priority(r[b])
      {
        assert r[a] == s.waiting[if a < p then a else a + 1] && r[b] == s.waiting[if b < p then b else b + 1];
      }
    }
  }

  /** In every run the task a wake takes off a list is one of the highest priority waiting there. */
  lemma {:induction false} HighestPriorityIsWoken(ms: seq<System>, steps: seq<Step>, n: nat)
    requires IsRun(ms, steps) && n < |ms|
    ensures Ordered(ms[n])
    ensures forall t | t in ms[n].q.receivers.waiting ::
              ms[n].priority(ms[n].q.receivers.waiting[0]) >= ms[n].priority(t)
    ensures forall t | t in ms[n].q.senders.waiting ::
              ms[n].priority(ms[n].q.senders.waiting[0]) >= ms[n].priority(t)
  {
    if n > 0 {
      hide Next, Enabled;
      assert StepsTo(ms[n - 1], steps[n - 1], ms[n]);
      HighestPriorityIsWoken(ms, steps, n - 1);
      StepKeepsOrder(ms[n - 1], steps[n - 1]);
    }
    HeadIsHighest(ms[n].q.receivers.waiting, ms[n].priority);
    HeadIsHighest(ms[n].q.senders.waiting, ms[n].priority);
  }

  lemma HeadIsHighest(waiting: seq<Task>, priority: Task -> nat)
    requires ByPriority(waiting, priority)
    ensures forall t | t in waiting :: priority(waiting[0]) >= priority(t)
  {
    forall t | t in waiting
      ensures priority(waiting[0]) >= priority(t)
    {
      var i :| 0 <= i < |waiting| && waiting[i] == t;
    }
  }
}
