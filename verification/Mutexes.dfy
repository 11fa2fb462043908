/** Mutexes: who holds them, and how waiting for one raises its holder's priority. */
module Mutexes {
  import opened ListModel
  import opened ItemLists
  import QP = QueueProtocol
  import K = Kernel
  import opened Options

  /** The part of a task control block that mutexes touch. */
  datatype Rank = Rank(priority: nat, base: nat, held: nat)

  type Ranks = map<Task, Rank>

  /** A mutex: uxMessagesWaiting, xMutexHolder, uxRecursiveCallCount and xTasksWaitingToReceive.
  `boosters` are the waiters that blocked since the present holder took it. */
  datatype Mutex = Mutex(count: nat, holder: Option<Task>, depth: nat, waiting: seq<Task>, boosters: set<Task>,
                         recursive: bool)

  /** Where in xQueueSemaphoreTake a task is: nowhere; waiting (`inherited` is what
  xTaskPriorityInherit said); off the waiting list again, woken or timed out, and about to try once
  more; past its deadline, about to look whether the mutex is free; about to try a last time, with no
  time left; or about to leave with nothing. */
  datatype Phase =
    | Free
    | Waiting(m: nat, inherited: bool)
    | Woken(m: nat, inherited: bool)
    | TimedOut(m: nat, inherited: bool)
    | Late(m: nat, inherited: bool)
    | LastTry(m: nat, inherited: bool)
    | Leaving(m: nat, inherited: bool)

  /** `failed` is set by the two assertions on the way out of xQueueSemaphoreTake, which stop the
  system. */
  datatype System = System(mutexes: map<nat, Mutex>, ranks: Ranks, phase: map<Task, Phase>, failed: bool)

  // ----- priorities -----

  function PriorityOf(ranks: Ranks, t: Task): nat {
    if t in ranks then ranks[t].priority else 0
  }

  function Priorities(ranks: Ranks): Task -> nat {
    u => PriorityOf(ranks, u)
  }

  /** xTaskPriorityInherit by a task of priority p. */
  function Boost(ranks: Ranks, holder: Task, p: nat): Ranks
    requires holder in ranks
  {
    if ranks[holder].priority < p then ranks[holder := ranks[holder].(priority := p)] else ranks
  }

  /** Its result: the holder runs, now or already, at an inherited priority. */
  predicate BoostReported(ranks: Ranks, holder: Task, p: nat)
    requires holder in ranks
  {
    ranks[holder].priority < p || ranks[holder].base < p
  }

  /** pvTaskIncrementMutexHeldCount. */
  function CountTake(ranks: Ranks, t: Task): Ranks
    requires t in ranks
  {
    ranks[t := ranks[t].(held := ranks[t].held + 1)]
  }

  /** xTaskPriorityDisinherit. */
  function CountGive(ranks: Ranks, t: Task): Ranks
    requires t in ranks && ranks[t].held > 0
  {
    var r := ranks[t].(held := ranks[t].held - 1);
    ranks[t := if r.priority != r.base && r.held == 0 then r.(priority := r.base) else r]
  }

  /** vTaskPriorityDisinheritAfterTimeout. */
  function Lower(ranks: Ranks, holder: Task, highest: nat): Ranks
    requires holder in ranks
  {
    var p := if ranks[holder].base < highest then highest else ranks[holder].base;
    if ranks[holder].priority != p && ranks[holder].held == 1 then ranks[holder := ranks[holder].(priority := p)]
    else ranks
  }

  /** The task that runs vTaskPriorityDisinheritAfterTimeout holds the mutex itself, as its only one,
  and would be lowered: what the assertion in line 4282 of tasks.c excludes. */
  predicate LowersItself(ranks: Ranks, runner: Task, holder: Task, highest: nat)
    requires holder in ranks
  {
    && holder == runner && ranks[holder].held == 1
    && ranks[holder].priority != if ranks[holder].base < highest then highest else ranks[holder].base
  }

  /** The scheduler's own functions change priorities in just this way. */
  function RanksOf(k: K.Kernel): Ranks {
    map t | t in k.tcb :: Rank(k.tcb[t].priority, k.tcb[t].base, k.tcb[t].held)
  }

  lemma InheritAgrees(k: K.Kernel, holder: Task)
    requires K.WellFormed(k) && holder in k.tcb
    ensures RanksOf(K.Inherit(k, holder)) == Boost(RanksOf(k), holder, k.tcb[k.current].priority)
  {
    hide Consistent, K.MoveToReady;
  }

  lemma AfterTimeoutAgrees(k: K.Kernel, holder: Task, highest: nat)
    requires K.WellFormed(k) && holder in k.tcb
    ensures RanksOf(K.DisinheritAfterTimeout(k, holder, highest)) ==
            if LowersItself(RanksOf(k), k.current, holder, highest) then RanksOf(k) else Lower(RanksOf(k), holder, highest)
  {
    hide Consistent, K.MoveToReady;
  }

  lemma TakeAgrees(k: K.Kernel)
    requires K.WellFormed(k)
    ensures RanksOf(K.TakeMutex(k)) == CountTake(RanksOf(k), k.current)
  {
  }

  lemma GiveAgrees(k: K.Kernel)
    requires K.WellFormed(k) && k.tcb[k.current].held > 0
    ensures RanksOf(K.Disinherit(k).0) == CountGive(RanksOf(k), k.current)
  {
    hide Consistent, K.MoveToReady;
    var r := K.Disinherit(k).0;
    assert r.tcb.Keys == k.tcb.Keys;
    assert forall t | t in k.tcb && t != k.current :: r.tcb[t] == k.tcb[t];
  }

  // ----- steps -----

  datatype Step =
    | Take(t: Task, m: nat)
    | TakeAgain(t: Task, m: nat)
    | Block(t: Task, m: nat)
    | Give(t: Task, m: nat)
    | GiveInner(t: Task, m: nat)
    | Expire(t: Task)
    | PassDeadline(t: Task)
    | Look(t: Task)
    | GiveUp(t: Task)
    | ReturnEmpty(t: Task)

  predicate Known(s: System, t: Task, m: nat) {
    t in s.ranks && t in s.phase && m in s.mutexes
  }

  predicate MayTry(p: Phase, m: nat) {
    p == Free || ((p.Woken? || p.TimedOut? || p.LastTry?) && p.m == m)
  }

  /** Off the waiting list, with the time-out still to be checked. */
  predicate IsBack(p: Phase) {
    p.Woken? || p.TimedOut?
  }

  /** Take: xQueueSemaphoreTake when the count is not zero, and for a recursive mutex the first
  level of xQueueTakeMutexRecursive; TakeAgain: a further level.  Block: the count is zero and there
  is time left; the holder inherits and the task is placed on the waiting list.  Give and GiveInner:
  the holder gives the mutex, or one level of a recursive one.  Expire: the tick takes a task off its
  list.  PassDeadline: the count is zero and xTaskCheckForTimeOut says that the time is up.  Look: is
  the mutex free now?  GiveUp: it was not; disinherit.  ReturnEmpty: it was, but was taken before the
  last try. */
  predicate Enabled(s: System, step: Step) {
    && !s.failed
    && match step
       case Take(t, m) => Known(s, t, m) && MayTry(s.phase[t], m) && s.mutexes[m].count > 0
       case TakeAgain(t, m) =>
         Known(s, t, m) && s.phase[t] == Free && s.mutexes[m].recursive && s.mutexes[m].holder == Some(t)
       case Block(t, m) =>
         && Known(s, t, m) && (s.phase[t] == Free || (s.phase[t].Woken? && s.phase[t].m == m)) && s.mutexes[m].count == 0
         && (s.mutexes[m].recursive ==> s.mutexes[m].holder != Some(t))
       case Give(t, m) =>
         && Known(s, t, m) && s.phase[t] == Free && s.mutexes[m].holder == Some(t)
         && (s.mutexes[m].recursive ==> s.mutexes[m].depth == 1)
       case GiveInner(t, m) =>
         && Known(s, t, m) && s.phase[t] == Free && s.mutexes[m].holder == Some(t)
         && s.mutexes[m].recursive && s.mutexes[m].depth > 1
       case Expire(t) => InCall(s, t) && s.phase[t].Waiting?
       case PassDeadline(t) => InCall(s, t) && IsBack(s.phase[t]) && s.mutexes[s.phase[t].m].count == 0
       case Look(t) => InCall(s, t) && s.phase[t].Late?
       case GiveUp(t) => InCall(s, t) && s.phase[t].Leaving?
       case ReturnEmpty(t) => InCall(s, t) && s.phase[t].LastTry? && s.mutexes[s.phase[t].m].count == 0
  }

  predicate InCall(s: System, t: Task) {
    t in s.phase && s.phase[t] != Free && s.phase[t].m in s.mutexes
  }

  function Taken(x: Mutex, t: Task): Mutex
    requires x.count > 0
  {
    x.(count := x.count - 1, holder := Some(t), depth := if x.recursive then 1 else 0, boosters := {})
  }

  function Given(x: Mutex): Mutex {
    x.(count := x.count + 1, holder := None, depth := 0, boosters := {},
       waiting := if x.waiting == [] then [] else x.waiting[1..])
  }

  function Joined(x: Mutex, ranks: Ranks, t: Task): Mutex {
    x.(waiting := QP.InsertByPriority(x.waiting, Priorities(ranks), t), boosters := x.boosters + {t})
  }

  function Left(x: Mutex, t: Task): Mutex {
    x.(waiting := if t in x.waiting then
                    x.waiting[..Position(x.waiting, t)] + x.waiting[Position(x.waiting, t) + 1..]
                  else x.waiting,
       boosters := x.boosters - {t})
  }

  /** prvGetDisinheritPriorityAfterTimeout. */
  function HighestWaiting(x: Mutex, ranks: Ranks): nat {
    if x.waiting == [] then 0 else PriorityOf(ranks, x.waiting[0])
  }

  function Next(s: System, step: Step): System
    requires Enabled(s, step) && HoldersKnown(s)
  {
    match step
    case Take(t, m) =>
      s.(mutexes := s.mutexes[m := Taken(s.mutexes[m], t)], ranks := CountTake(s.ranks, t), phase := s.phase[t := Free])
    case TakeAgain(t, m) =>
      s.(mutexes := s.mutexes[m := s.mutexes[m].(depth := s.mutexes[m].depth + 1)])
    case Block(t, m) =>
      var x, p := s.mutexes[m], s.ranks[t].priority;
      var ranks := if x.holder.Some? then Boost(s.ranks, x.holder.value, p) else s.ranks;
      var reported := x.holder.Some? && BoostReported(s.ranks, x.holder.value, p);
      s.(mutexes := s.mutexes[m := Joined(x, ranks, t)], ranks := ranks, phase := s.phase[t := Waiting(m, reported)])
    case Give(t, m) =>
      var x := s.mutexes[m];
      s.(mutexes := s.mutexes[m := Given(x)], ranks := if s.ranks[t].held > 0 then CountGive(s.ranks, t) else s.ranks,
         phase := if x.waiting == [] then s.phase else Wake(s.phase, x.waiting[0], m))
    case GiveInner(t, m) =>
      s.(mutexes := s.mutexes[m := s.mutexes[m].(depth := s.mutexes[m].depth - 1)])
    case Expire(t) =>
      var m := s.phase[t].m;
      s.(mutexes := s.mutexes[m := Left(s.mutexes[m], t)], phase := s.phase[t := TimedOut(m, s.phase[t].inherited)])
    case PassDeadline(t) => s.(phase := s.phase[t := Late(s.phase[t].m, s.phase[t].inherited)])
    case Look(t) =>
      var (m, inherited) := (s.phase[t].m, s.phase[t].inherited);
      s.(phase := s.phase[t := if s.mutexes[m].count == 0 then Leaving(m, inherited) else LastTry(m, inherited)])
    case GiveUp(t) =>
      var x := s.mutexes[s.phase[t].m];
      var highest := HighestWaiting(x, s.ranks);
      if s.phase[t].inherited && x.holder.Some? then
        if LowersItself(s.ranks, t, x.holder.value, highest) then s.(failed := true)
        else s.(ranks := Lower(s.ranks, x.holder.value, highest), phase := s.phase[t := Free])
      else s.(phase := s.phase[t := Free])
    case ReturnEmpty(t) =>
      if s.phase[t].inherited then s.(failed := true) else s.(phase := s.phase[t := Free])
  }

  function Wake(phase: map<Task, Phase>, w: Task, m: nat): map<Task, Phase> {
    if w in phase then phase[w := Woken(m, phase[w].Waiting? && phase[w].inherited)] else phase
  }

  predicate HoldersKnown(s: System) {
    forall m | m in s.mutexes :: s.mutexes[m].holder.Some? ==> s.mutexes[m].holder.value in s.ranks
  }

  // ----- accounting -----

  function HeldBy(mutexes: map<nat, Mutex>, t: Task): set<nat> {
    set m | m in mutexes && mutexes[m].holder == Some(t)
  }

  /** A mutex has a holder exactly while its count is zero, and a recursive one exactly while it has
  been taken more often than given. */
  predicate MutexOk(x: Mutex) {
    && x.count <= 1 && (x.count == 0 <==> x.holder.Some?)
    && (if x.recursive then x.depth > 0 <==> x.holder.Some? else x.depth == 0)
    && (x.holder == None ==> x.boosters == {})
  }

  /** uxMutexesHeld counts the mutexes that name the task as holder, and a task holding none runs at
  its base priority. */
  ghost predicate Accounting(s: System) {
    && HoldersKnown(s)
    && (forall m | m in s.mutexes :: MutexOk(s.mutexes[m]))
    && (forall t | t in s.ranks :: s.ranks[t].held == |HeldBy(s.mutexes, t)|)
    && (forall t | t in s.ranks :: s.ranks[t].priority >= s.ranks[t].base)
    && (forall t | t in s.ranks && s.ranks[t].held == 0 :: s.ranks[t].priority == s.ranks[t].base)
  }

  lemma HeldChanges(mutexes: map<nat, Mutex>, m: nat, x: Mutex, t: Task)
    requires m in mutexes
    ensures |HeldBy(mutexes[m := x], t)| == |HeldBy(mutexes, t)|
              + (if x.holder == Some(t) then 1 else 0) - (if mutexes[m].holder == Some(t) then 1 else 0)
  {
    var rest := HeldBy(mutexes, t) - {m};
    OneMore(rest, m);
    assert HeldBy(mutexes, t) == if mutexes[m].holder == Some(t) then rest + {m} else rest;
    HeldAfter(mutexes, m, x, t);
  }

  lemma HeldAfter(mutexes: map<nat, Mutex>, m: nat, x: Mutex, t: Task)
    requires m in mutexes
    ensures var rest := HeldBy(mutexes, t) - {m};
            HeldBy(mutexes[m := x], t) == if x.holder == Some(t) then rest + {m} else rest
  {
  }

  lemma OneMore(rest: set<nat>, m: nat)
    requires m !in rest
    ensures |rest + {m}| == |rest| + 1
  {
  }

  lemma HolderHolds(s: System, t: Task, m: nat)
    requires Accounting(s) && t in s.ranks && m in s.mutexes && s.mutexes[m].holder == Some(t)
    ensures s.ranks[t].held > 0
  {
    assert m in HeldBy(s.mutexes, t);
  }

  lemma StepKeepsAccounting(s: System, step: Step)
    requires Accounting(s) && Enabled(s, step)
    ensures Accounting(Next(s, step))
  {
    match step
    case Take(t, m) => TakeKeepsAccounting(s, t, m);
    case Block(t, m) => BlockKeepsAccounting(s, t, m);
    case Give(t, m) => GiveKeepsAccounting(s, t, m);
    case GiveUp(t) => GiveUpKeepsAccounting(s, t);
    case PassDeadline(t) =>
    case Look(t) =>
    case ReturnEmpty(t) =>
    case _ => SameHolderKeepsAccounting(s, step);
  }

  lemma TakeKeepsAccounting(s: System, t: Task, m: nat)
    requires Accounting(s) && Enabled(s, Take(t, m))
    ensures Accounting(Next(s, Take(t, m)))
  {
    CountsChange(s, Next(s, Take(t, m)), m);
  }

  lemma GiveKeepsAccounting(s: System, t: Task, m: nat)
    requires Accounting(s) && Enabled(s, Give(t, m))
    ensures Accounting(Next(s, Give(t, m)))
  {
    HolderHolds(s, t, m);
    CountsChange(s, Next(s, Give(t, m)), m);
  }

  lemma BlockKeepsAccounting(s: System, t: Task, m: nat)
    requires Accounting(s) && Enabled(s, Block(t, m))
    ensures Accounting(Next(s, Block(t, m)))
  {
    HolderHolds(s, s.mutexes[m].holder.value, m);
    CountsChange(s, Next(s, Block(t, m)), m);
  }

  lemma GiveUpKeepsAccounting(s: System, t: Task)
    requires Accounting(s) && Enabled(s, GiveUp(t))
    ensures Accounting(Next(s, GiveUp(t)))
  {
    var m := s.phase[t].m;
    if s.mutexes[m].holder.Some? {
      HolderHolds(s, s.mutexes[m].holder.value, m);
    }
  }

  lemma SameHolderKeepsAccounting(s: System, step: Step)
    requires Accounting(s) && Enabled(s, step) && (step.TakeAgain? || step.GiveInner? || step.Expire?)
    ensures Accounting(Next(s, step))
  {
    var m := if step.Expire? then s.phase[step.t].m else step.m;
    SameHolder(s, step, m);
    var r := Next(s, step);
    CountsChange(s, r, m);
    hide HeldBy, Enabled, Next, MutexOk;
  }

  lemma SameHolder(s: System, step: Step, m: nat)
    requires HoldersKnown(s) && Enabled(s, step) && (step.TakeAgain? || step.GiveInner? || step.Expire?)
    requires m == if step.Expire? then s.phase[step.t].m else step.m
    ensures var r := Next(s, step);
            && m in s.mutexes && r.ranks == s.ranks && r.mutexes == s.mutexes[m := r.mutexes[m]]
            && r.mutexes[m].holder == s.mutexes[m].holder && (MutexOk(s.mutexes[m]) ==> MutexOk(r.mutexes[m]))
  {
  }

  lemma CountsChange(s: System, r: System, m: nat)
    requires m in s.mutexes && m in r.mutexes && r.mutexes == s.mutexes[m := r.mutexes[m]]
    ensures forall t: Task :: |HeldBy(r.mutexes, t)| == |HeldBy(s.mutexes, t)|
              + (if r.mutexes[m].holder == Some(t) then 1 else 0) - (if s.mutexes[m].holder == Some(t) then 1 else 0)
  {
    forall t: Task
      ensures |HeldBy(r.mutexes, t)| == |HeldBy(s.mutexes, t)|
              + (if r.mutexes[m].holder == Some(t) then 1 else 0) - (if s.mutexes[m].holder == Some(t) then 1 else 0)
    {
      HeldChanges(s.mutexes, m, r.mutexes[m], t);
    }
  }

  // ----- inheritance -----

  /** The waiting list of mutex m agrees with the phases and is in order of priority, only waiters
  boost, and the holder runs at no lower priority than any task that blocked on the mutex since the
  holder took it and still waits. */
  ghost predicate Fits(x: Mutex, m: nat, phase: map<Task, Phase>, ranks: Ranks) {
    && NoDuplicates(x.waiting)
    && (forall t | t in x.waiting :: t in phase && t in ranks && phase[t].Waiting? && phase[t].m == m)
    && (forall t | t in x.boosters :: t in x.waiting)
    && QP.ByPriority(x.waiting, Priorities(ranks))
    && (x.holder.Some? ==> forall w | w in x.boosters :: PriorityOf(ranks, x.holder.value) >= PriorityOf(ranks, w))
  }

  /** No task holds a mutex while it is in xQueueSemaphoreTake for another. */
  ghost predicate NoNesting(s: System) {
    forall t | t in s.phase && s.phase[t] != Free :: t in s.ranks && s.ranks[t].held == 0
  }

  ghost predicate AllFit(s: System) {
    forall m | m in s.mutexes :: Fits(s.mutexes[m], m, s.phase, s.ranks)
  }

  ghost predicate Inv(s: System) {
    Accounting(s) && NoNesting(s) && AllFit(s)
  }

  lemma SameOrder(waiting: seq<Task>, ranks: Ranks, after: Ranks)
    requires QP.ByPriority(waiting, Priorities(ranks))
    requires forall t | t in waiting :: PriorityOf(after, t) == PriorityOf(ranks, t)
    ensures QP.ByPriority(waiting, Priorities(after))
  {
    forall i, j | 0 <= i < j < |waiting|
      ensures Priorities(after)(waiting[i]) >= Priorities(after)(waiting[j])
    {
      assert Priorities(ranks)(waiting[i]) >= Priorities(ranks)(waiting[j]);
    }
  }

  /** A mutex is not concerned by what happens to tasks that do not wait for it, nor by its holder
  being raised. */
  lemma StillFits(x: Mutex, m: nat, phase: map<Task, Phase>, ranks: Ranks, phase': map<Task, Phase>, ranks': Ranks)
    requires Fits(x, m, phase, ranks)
    requires forall t | t in x.waiting ::
               t in phase' && phase'[t] == phase[t] && t in ranks' && PriorityOf(ranks', t) == PriorityOf(ranks, t)
    requires x.holder.Some? ==> PriorityOf(ranks', x.holder.value) >= PriorityOf(ranks, x.holder.value)
    ensures Fits(x, m, phase', ranks')
  {
    SameOrder(x.waiting, ranks, ranks');
  }

  /** From s to r nobody who waits for a mutex other than m changes, and no holder of one is
  lowered. */
  ghost predicate Undisturbed(s: System, r: System, m: nat) {
    && m in s.mutexes && m in r.mutexes && r.mutexes == s.mutexes[m := r.mutexes[m]] && r.ranks.Keys == s.ranks.Keys
    && (forall u | u in s.phase && s.phase[u].Waiting? && s.phase[u].m != m ::
          u in r.phase && r.phase[u] == s.phase[u] && PriorityOf(r.ranks, u) == PriorityOf(s.ranks, u))
    && (forall n | n in s.mutexes && n != m && s.mutexes[n].holder.Some? ::
          PriorityOf(r.ranks, s.mutexes[n].holder.value) >= PriorityOf(s.ranks, s.mutexes[n].holder.value))
  }

  lemma OthersFit(s: System, r: System, m: nat)
    requires AllFit(s) && Undisturbed(s, r, m) && Fits(r.mutexes[m], m, r.phase, r.ranks)
    ensures AllFit(r)
  {
    forall n | n in r.mutexes
      ensures Fits(r.mutexes[n], n, r.phase, r.ranks)
    {
      if n != m {
        assert Fits(s.mutexes[n], n, s.phase, s.ranks);
        StillFits(s.mutexes[n], n, s.phase, s.ranks, r.phase, r.ranks);
      }
    }
  }

  /** Nobody who waits for m changes. */
  ghost predicate WaitersStay(s: System, r: System, m: nat) {
    forall u | u in s.phase && s.phase[u].Waiting? && s.phase[u].m == m ::
      u in r.phase && r.phase[u] == s.phase[u] && PriorityOf(r.ranks, u) == PriorityOf(s.ranks, u)
  }

  lemma OwnFits(s: System, r: System, m: nat)
    requires AllFit(s) && WaitersStay(s, r, m) && m in s.mutexes && m in r.mutexes && r.ranks.Keys == s.ranks.Keys
    requires r.mutexes[m].waiting == s.mutexes[m].waiting && r.mutexes[m].boosters <= s.mutexes[m].boosters
    requires r.mutexes[m].boosters == {}
             || (r.mutexes[m].holder == s.mutexes[m].holder && s.mutexes[m].holder.Some?
                 && PriorityOf(r.ranks, s.mutexes[m].holder.value) >= PriorityOf(s.ranks, s.mutexes[m].holder.value))
    ensures Fits(r.mutexes[m], m, r.phase, r.ranks)
  {
    assert Fits(s.mutexes[m], m, s.phase, s.ranks);
    SameOrder(s.mutexes[m].waiting, s.ranks, r.ranks);
  }

  lemma TakeDisturbsNobody(s: System, t: Task, m: nat)
    requires HoldersKnown(s) && Enabled(s, Take(t, m))
    ensures Undisturbed(s, Next(s, Take(t, m)), m) && WaitersStay(s, Next(s, Take(t, m)), m)
  {
  }

  lemma TakeKeepsInv(s: System, t: Task, m: nat)
    requires Inv(s) && Enabled(s, Take(t, m))
    ensures Inv(Next(s, Take(t, m)))
  {
    StepKeepsAccounting(s, Take(t, m));
    TakeDisturbsNobody(s, t, m);
    TakeKeepsNoNesting(s, t, m);
    var r := Next(s, Take(t, m));
    hide Accounting, Fits, AllFit, Undisturbed, WaitersStay, NoNesting;
    OwnFits(s, r, m);
    OthersFit(s, r, m);
  }

  lemma TakeKeepsNoNesting(s: System, t: Task, m: nat)
    requires HoldersKnown(s) && NoNesting(s) && Enabled(s, Take(t, m))
    ensures NoNesting(Next(s, Take(t, m)))
  {
  }

  lemma QuietKeepsInv(s: System, step: Step)
    requires Inv(s) && Enabled(s, step) && (step.TakeAgain? || step.GiveInner?)
    ensures Inv(Next(s, step))
  {
    StepKeepsAccounting(s, step);
    var r := Next(s, step);
    assert Undisturbed(s, r, step.m) && WaitersStay(s, r, step.m);
    hide Accounting, Fits, AllFit, Undisturbed, WaitersStay;
    OwnFits(s, r, step.m);
    OthersFit(s, r, step.m);
  }

  /** A task that is off the waiting list moves on in xQueueSemaphoreTake. */
  lemma MoveOnKeepsInv(s: System, step: Step)
    requires Inv(s) && Enabled(s, step) && (step.PassDeadline? || step.Look? || step.ReturnEmpty?)
    ensures Inv(Next(s, step))
  {
    StepKeepsAccounting(s, step);
    MoveOnDisturbsNobody(s, step);
    var r, m := Next(s, step), s.phase[step.t].m;
    hide Accounting, Fits, AllFit, Undisturbed, WaitersStay, NoNesting;
    OwnFits(s, r, m);
    OthersFit(s, r, m);
  }

  lemma MoveOnDisturbsNobody(s: System, step: Step)
    requires HoldersKnown(s) && NoNesting(s) && Enabled(s, step) && (step.PassDeadline? || step.Look? || step.ReturnEmpty?)
    ensures var r, m := Next(s, step), s.phase[step.t].m;
            && Undisturbed(s, r, m) && WaitersStay(s, r, m) && NoNesting(r)
            && r.mutexes == s.mutexes && r.ranks == s.ranks
  {
  }

  lemma BlockDisturbsNobody(s: System, t: Task, m: nat)
    requires HoldersKnown(s) && NoNesting(s) && Enabled(s, Block(t, m)) && s.ranks[t].held == 0
    requires s.mutexes[m].holder.Some? && s.ranks[s.mutexes[m].holder.value].held > 0
    ensures var r := Next(s, Block(t, m));
            Undisturbed(s, r, m) && WaitersStay(s, r, m) && NoNesting(r)
  {
  }

  /** A task blocks: the holder is boosted if it is lower, and nobody else changes. */
  lemma BlockKeepsInv(s: System, t: Task, m: nat)
    requires Inv(s) && Enabled(s, Block(t, m)) && s.ranks[t].held == 0
    ensures Inv(Next(s, Block(t, m)))
  {
    StepKeepsAccounting(s, Block(t, m));
    HolderHolds(s, s.mutexes[m].holder.value, m);
    BlockDisturbsNobody(s, t, m);
    BlockedFits(s, t, m);
    hide Accounting, Fits, AllFit, Undisturbed, WaitersStay, NoNesting;
    OthersFit(s, Next(s, Block(t, m)), m);
  }

  lemma BlockedFits(s: System, t: Task, m: nat)
    requires HoldersKnown(s) && AllFit(s) && Enabled(s, Block(t, m)) && s.mutexes[m].holder.Some?
    requires WaitersStay(s, Next(s, Block(t, m)), m)
    ensures var r := Next(s, Block(t, m)); Fits(r.mutexes[m], m, r.phase, r.ranks)
  {
    hide Fits, WaitersStay, AllFit;
    var r := Next(s, Block(t, m));
    var i := r.(mutexes := s.mutexes);
    WaiterIsNotFree(s, t, m);
    assert WaitersStay(s, i, m) by { SameWaiters(s, r, i, m); }
    assert PriorityOf(r.ranks, s.mutexes[m].holder.value) >= PriorityOf(s.ranks, s.mutexes[m].holder.value);
    OwnFits(s, i, m);
    JoinedFits(s.mutexes[m], m, r.phase, r.ranks, t);
  }

  lemma SameWaiters(s: System, r: System, i: System, m: nat)
    requires WaitersStay(s, r, m) && i.phase == r.phase && i.ranks == r.ranks
    ensures WaitersStay(s, i, m)
  {
  }

  lemma WaiterIsNotFree(s: System, t: Task, m: nat)
    requires AllFit(s) && m in s.mutexes && t in s.phase && !s.phase[t].Waiting?
    ensures t !in s.mutexes[m].waiting
  {
    assert Fits(s.mutexes[m], m, s.phase, s.ranks);
  }

  lemma JoinedFits(x: Mutex, m: nat, phase: map<Task, Phase>, ranks: Ranks, t: Task)
    requires Fits(x, m, phase, ranks) && t !in x.waiting
    requires t in phase && t in ranks && phase[t].Waiting? && phase[t].m == m
    requires x.holder.Some? && PriorityOf(ranks, x.holder.value) >= PriorityOf(ranks, t)
    ensures Fits(Joined(x, ranks, t), m, phase, ranks)
  {
    QP.InsertKeepsOrder(x.waiting, Priorities(ranks), t);
    InsertedAmong(x.waiting, Priorities(ranks), t);
    hide NoDuplicates, QP.ByPriority, QP.InsertByPriority;
  }

  lemma InsertedAmong(waiting: seq<Task>, priority: Task -> nat, t: Task)
    requires NoDuplicates(waiting) && t !in waiting
    ensures var r := QP.InsertByPriority(waiting, priority, t);
            NoDuplicates(r) && forall u :: u in r <==> u in waiting || u == t
  {
    hide QP.PriorityPosition;
    var i := QP.PriorityPosition(waiting, priority, priority(t));
    NoDuplicatesInsert(waiting, i, t);
    assert waiting == waiting[..i] + waiting[i..];
  }

  lemma GiveDisturbsNobody(s: System, t: Task, m: nat)
    requires HoldersKnown(s) && NoNesting(s) && AllFit(s) && Enabled(s, Give(t, m)) && HoldsCounted(s, m)
    ensures var r := Next(s, Give(t, m)); Undisturbed(s, r, m) && NoNesting(r)
  {
    assert Fits(s.mutexes[m], m, s.phase, s.ranks);
  }

  /** Giving lowers the giver only if it holds nothing else, and nobody boosts it any more. */
  lemma GiveKeepsInv(s: System, t: Task, m: nat)
    requires Inv(s) && Enabled(s, Give(t, m))
    ensures Inv(Next(s, Give(t, m)))
  {
    StepKeepsAccounting(s, Give(t, m));
    HolderCounts(s, m);
    GiveDisturbsNobody(s, t, m);
    GivenFits(s, t, m);
    hide Accounting, Fits, AllFit, Undisturbed, NoNesting;
    OthersFit(s, Next(s, Give(t, m)), m);
  }

  lemma HoldsTwo(s: System, t: Task, m: nat, n: nat)
    requires Accounting(s) && t in s.ranks && m in s.mutexes && n in s.mutexes && m != n
    requires s.mutexes[m].holder == Some(t) && s.mutexes[n].holder == Some(t)
    ensures s.ranks[t].held > 1
  {
    var rest := HeldBy(s.mutexes, t) - {m};
    assert n in rest;
    OneMore(rest, m);
    assert HeldBy(s.mutexes, t) == rest + {m};
  }

  lemma GivenFits(s: System, t: Task, m: nat)
    requires AllFit(s) && NoNesting(s) && HoldersKnown(s) && Enabled(s, Give(t, m)) && s.ranks[t].held > 0
    ensures var r := Next(s, Give(t, m)); Fits(r.mutexes[m], m, r.phase, r.ranks)
  {
    var x, r := s.mutexes[m], Next(s, Give(t, m));
    assert Fits(x, m, s.phase, s.ranks);
    SameOrder(x.waiting, s.ranks, r.ranks);
    if x.waiting != [] {
      TailFits(x.waiting);
      QP.SuffixKeepsOrder(x.waiting, Priorities(r.ranks), 1);
    }
  }

  lemma TailFits(waiting: seq<Task>)
    requires NoDuplicates(waiting) && waiting != []
    ensures NoDuplicates(waiting[1..]) && forall t | t in waiting[1..] :: t in waiting && t != waiting[0]
  {
    NoDuplicatesRemove(waiting, 0);
    assert waiting[..0] + waiting[1..] == waiting[1..];
    forall t | t in waiting[1..]
      ensures t in waiting
    {
      assert waiting == [waiting[0]] + waiting[1..];
    }
  }

  // ----- time-outs -----

  lemma ExpireKeepsInv(s: System, t: Task)
    requires Inv(s) && Enabled(s, Expire(t))
    ensures Inv(Next(s, Expire(t)))
  {
    StepKeepsAccounting(s, Expire(t));
    LeftFits(s, t);
    ExpireDisturbsNobody(s, t);
    hide Accounting, Fits, AllFit, Undisturbed, NoNesting;
    OthersFit(s, Next(s, Expire(t)), s.phase[t].m);
  }

  lemma ExpireDisturbsNobody(s: System, t: Task)
    requires HoldersKnown(s) && NoNesting(s) && Enabled(s, Expire(t))
    ensures var r := Next(s, Expire(t)); Undisturbed(s, r, s.phase[t].m) && NoNesting(r)
  {
  }

  lemma LeftFits(s: System, t: Task)
    requires AllFit(s) && HoldersKnown(s) && Enabled(s, Expire(t))
    ensures var m, r := s.phase[t].m, Next(s, Expire(t)); Fits(r.mutexes[m], m, r.phase, r.ranks)
  {
    hide NoDuplicates, QP.ByPriority;
    var m := s.phase[t].m;
    var x := s.mutexes[m];
    assert Fits(x, m, s.phase, s.ranks);
    if t in x.waiting {
      RemovedFits(x.waiting, s.ranks, Position(x.waiting, t));
    }
  }

  lemma RemovedFits(waiting: seq<Task>, ranks: Ranks, i: nat)
    requires NoDuplicates(waiting) && QP.ByPriority(waiting, Priorities(ranks)) && i < |waiting|
    ensures var rest := waiting[..i] + waiting[i + 1..];
            && NoDuplicates(rest) && QP.ByPriority(rest, Priorities(ranks))
            && (forall u :: u in rest <==> u in waiting && u != waiting[i])
  {
    var rest := waiting[..i] + waiting[i + 1..];
    NoDuplicatesRemove(waiting, i);
    assert waiting == waiting[..i] + [waiting[i]] + waiting[i + 1..];
    forall a, b | 0 <= a < b < |rest|
      ensures Priorities(ranks)(rest[a]) >= Priorities(ranks)(rest[b])
    {
      assert rest[a] == waiting[if a < i then a else a + 1] && rest[b] == waiting[if b < i then b else b + 1];
    }
  }

  /** A holder of just one mutex is lowered no further than the highest task still waiting for it. */
  lemma GiveUpKeepsInv(s: System, t: Task)
    requires Inv(s) && Enabled(s, GiveUp(t))
    ensures Inv(Next(s, GiveUp(t)))
  {
    var m := s.phase[t].m;
    var r := Next(s, GiveUp(t));
    StepKeepsAccounting(s, GiveUp(t));
    if s.mutexes[m].holder.Some? {
      HolderCounts(s, m);
    }
    GiveUpDisturbsNobody(s, t);
    LoweredFits(s, t);
    hide Accounting, Fits, AllFit, Undisturbed, NoNesting;
    OthersFit(s, r, m);
  }

  /** The holder of m holds it, and more than one mutex if it holds another. */
  ghost predicate HoldsCounted(s: System, m: nat)
    requires m in s.mutexes && s.mutexes[m].holder.Some?
  {
    var h := s.mutexes[m].holder.value;
    && h in s.ranks && s.ranks[h].held > 0
    && forall n | n in s.mutexes && n != m && s.mutexes[n].holder == Some(h) :: s.ranks[h].held > 1
  }

  lemma HolderCounts(s: System, m: nat)
    requires Accounting(s) && m in s.mutexes && s.mutexes[m].holder.Some?
    ensures HoldsCounted(s, m)
  {
    var h := s.mutexes[m].holder.value;
    HolderHolds(s, h, m);
    forall n | n in s.mutexes && n != m && s.mutexes[n].holder == Some(h)
      ensures s.ranks[h].held > 1
    {
      HoldsTwo(s, h, m, n);
    }
  }

  lemma GiveUpDisturbsNobody(s: System, t: Task)
    requires HoldersKnown(s) && NoNesting(s) && Enabled(s, GiveUp(t))
    requires s.mutexes[s.phase[t].m].holder.Some? ==> HoldsCounted(s, s.phase[t].m)
    ensures var r := Next(s, GiveUp(t)); Undisturbed(s, r, s.phase[t].m) && NoNesting(r)
  {
  }

  lemma LoweredFits(s: System, t: Task)
    requires HoldersKnown(s) && AllFit(s) && NoNesting(s) && Enabled(s, GiveUp(t))
    requires s.mutexes[s.phase[t].m].holder.Some? ==> HoldsCounted(s, s.phase[t].m)
    ensures var m, r := s.phase[t].m, Next(s, GiveUp(t)); Fits(r.mutexes[m], m, r.phase, r.ranks)
  {
    var m, r := s.phase[t].m, Next(s, GiveUp(t));
    var x := s.mutexes[m];
    assert Fits(x, m, s.phase, s.ranks);
    SameOrder(x.waiting, s.ranks, r.ranks);
    HeadIsHighestRank(x, s.ranks);
  }

  lemma HeadIsHighestRank(x: Mutex, ranks: Ranks)
    requires QP.ByPriority(x.waiting, Priorities(ranks))
    ensures forall w | w in x.waiting :: HighestWaiting(x, ranks) >= PriorityOf(ranks, w)
  {
    QP.HeadIsHighest(x.waiting, Priorities(ranks));
    forall w | w in x.waiting
      ensures HighestWaiting(x, ranks) >= PriorityOf(ranks, w)
    {
      assert Priorities(ranks)(x.waiting[0]) >= Priorities(ranks)(w);
    }
  }

  // ----- what the steps do -----

  /** From s to r only the priority of task h changed, to p. */
  ghost predicate OnlyRanked(s: System, r: System, h: Task, p: nat) {
    h in s.ranks && r.ranks == s.ranks[h := s.ranks[h].(priority := p)]
  }

  /** Blocking gives the holder the greater of its own and the blocker's priority; the blocker waits,
  in its place, and remembers an inheritance exactly if the holder's base priority is below its own. */
  lemma BlockSettles(s: System, t: Task, m: nat)
    requires Accounting(s) && Enabled(s, Block(t, m))
    ensures s.mutexes[m].holder.Some?
    ensures var r, h, x := Next(s, Block(t, m)), s.mutexes[m].holder.value, s.mutexes[m];
            && h in s.ranks && h in r.ranks && OnlyRanked(s, r, h, r.ranks[h].priority)
            && r.ranks[h].priority >= s.ranks[h].priority && r.ranks[h].priority >= s.ranks[t].priority
            && (r.ranks[h].priority == s.ranks[h].priority || r.ranks[h].priority == s.ranks[t].priority)
            && r.phase == s.phase[t := Waiting(m, s.ranks[h].base < s.ranks[t].priority)]
            && r.mutexes == s.mutexes[m := x.(waiting := r.mutexes[m].waiting, boosters := x.boosters + {t})]
            && multiset(r.mutexes[m].waiting) == multiset(x.waiting) + multiset{t}
  {
    hide HeldBy, QP.InsertByPriority;
    var x, r := s.mutexes[m], Next(s, Block(t, m));
    assert x.holder.value in s.ranks;
    InsertedOnce(x.waiting, Priorities(r.ranks), t);
  }

  lemma InsertedOnce(waiting: seq<Task>, priority: Task -> nat, t: Task)
    ensures multiset(QP.InsertByPriority(waiting, priority, t)) == multiset(waiting) + multiset{t}
  {
    hide QP.PriorityPosition;
    var i := QP.PriorityPosition(waiting, priority, priority(t));
    assert waiting == waiting[..i] + waiting[i..];
  }

  /** Giving wakes the first waiter, which keeps its place in xQueueSemaphoreTake and what it knows of
  its inheritance; the mutex is free, and the others wait on, in order. */
  lemma GiveSettles(s: System, t: Task, m: nat)
    requires Accounting(s) && ListsAgree(s) && Enabled(s, Give(t, m))
    ensures var r, x := Next(s, Give(t, m)), s.mutexes[m];
            && r.mutexes == s.mutexes[m := r.mutexes[m]] && r.mutexes[m].count == 1 && r.mutexes[m].holder == None
            && (x.waiting == [] ==> r.mutexes[m].waiting == [] && r.phase == s.phase)
            && (x.waiting != [] ==>
                  && r.mutexes[m].waiting == x.waiting[1..] && x.waiting[0] in s.phase && s.phase[x.waiting[0]].Waiting?
                  && r.phase == s.phase[x.waiting[0] := Woken(m, s.phase[x.waiting[0]].inherited)])
  {
    hide HeldBy;
    assert ListAgrees(s.mutexes[m].waiting, m, s.phase);
    if s.mutexes[m].waiting != [] {
      assert s.mutexes[m].waiting[0] in s.mutexes[m].waiting;
    }
  }

  /** A time-out takes the task off its list, and nobody else. */
  lemma ExpireSettles(s: System, t: Task)
    requires ListsAgree(s) && HoldersKnown(s) && Enabled(s, Expire(t))
    ensures var m, r := s.phase[t].m, Next(s, Expire(t));
            && t !in r.mutexes[m].waiting && (forall u | u != t :: u in r.mutexes[m].waiting <==> u in s.mutexes[m].waiting)
            && r.phase == s.phase[t := TimedOut(m, s.phase[t].inherited)] && r.ranks == s.ranks
  {
    var x := s.mutexes[s.phase[t].m];
    assert ListAgrees(x.waiting, s.phase[t].m, s.phase);
    LeftAmong(x, t);
  }

  /** A task that inherited and gives up leaves the holder, if that holds just this mutex, at exactly the
  greatest of its base priority and the priorities of those who still wait: what the inheritance of the
  task added is undone, no more and no less.  A holder of several mutexes stays as it is, as does
  everyone if nothing was inherited. */
  lemma GiveUpSettles(s: System, t: Task)
    requires Accounting(s) && Enabled(s, GiveUp(t))
    requires var x := s.mutexes[s.phase[t].m]; QP.ByPriority(x.waiting, Priorities(s.ranks))
    requires forall w | w in s.mutexes[s.phase[t].m].waiting :: w in s.ranks
    ensures var r, x := Next(s, GiveUp(t)), s.mutexes[s.phase[t].m];
            !r.failed ==>
              && r.phase == s.phase[t := Free] && r.mutexes == s.mutexes
              && (if s.phase[t].inherited && x.holder.Some? && x.holder.value in s.ranks && s.ranks[x.holder.value].held == 1
                  then
                    var h := x.holder.value;
                    && h in r.ranks && OnlyRanked(s, r, h, r.ranks[h].priority)
                    && r.ranks[h].priority >= s.ranks[h].base
                    && (forall w | w in x.waiting :: r.ranks[h].priority >= s.ranks[w].priority)
                    && (r.ranks[h].priority == s.ranks[h].base
                        || exists w :: w in x.waiting && r.ranks[h].priority == s.ranks[w].priority)
                  else r.ranks == s.ranks)
  {
    hide HeldBy;
    var x := s.mutexes[s.phase[t].m];
    HeadIsHighestRank(x, s.ranks);
    if x.waiting != [] {
      assert x.waiting[0] in x.waiting && HighestWaiting(x, s.ranks) == s.ranks[x.waiting[0]].priority;
    }
    if x.holder.Some? {
      assert x.holder.value in s.ranks;
    }
  }

  // ----- runs -----

  lemma StepKeepsInv(s: System, step: Step)
    requires Inv(s) && Enabled(s, step) && (step.Block? ==> s.ranks[step.t].held == 0)
    ensures Inv(Next(s, step))
  {
    hide Fits, AllFit, NoNesting;
    match step
    case Take(t, m) => TakeKeepsInv(s, t, m);
    case Block(t, m) => BlockKeepsInv(s, t, m);
    case Give(t, m) => GiveKeepsInv(s, t, m);
    case Expire(t) => ExpireKeepsInv(s, t);
    case GiveUp(t) => GiveUpKeepsInv(s, t);
    case TakeAgain(t, m) => QuietKeepsInv(s, step);
    case GiveInner(t, m) => QuietKeepsInv(s, step);
    case _ => MoveOnKeepsInv(s, step);
  }

  /** All mutexes are free and all tasks at their base priorities. */
  predicate Initial(s: System) {
    && (forall m | m in s.mutexes :: s.mutexes[m] == Mutex(1, None, 0, [], {}, s.mutexes[m].recursive))
    && (forall t | t in s.ranks :: s.ranks[t].held == 0 && s.ranks[t].priority == s.ranks[t].base)
    && (forall t | t in s.phase :: s.phase[t] == Free) && !s.failed
  }

  ghost predicate StepsTo(s: System, step: Step, r: System) {
    Enabled(s, step) && HoldersKnown(s) && r == Next(s, step)
  }

  ghost predicate IsRun(ss: seq<System>, steps: seq<Step>) {
    && |ss| == |steps| + 1 && Initial(ss[0])
    && forall i | 0 <= i < |steps| :: StepsTo(ss[i], steps[i], ss[i + 1])
  }

  /** No task of the run blocks on a mutex while it holds another. */
  predicate NeverNests(ss: seq<System>, steps: seq<Step>)
    requires |ss| == |steps| + 1
  {
    forall i | 0 <= i < |steps| && steps[i].Block? ::
      steps[i].t in ss[i].ranks && ss[i].ranks[steps[i].t].held == 0
  }

  /** In every run, nested or not: a mutex has a holder exactly while its count is zero, held counts
  are right, a task that holds nothing runs at its base priority. */
  lemma {:induction false} AccountsBalance(ss: seq<System>, steps: seq<Step>, n: nat)
    requires IsRun(ss, steps) && n < |ss|
    ensures Accounting(ss[n])
  {
    hide Next, Enabled;
    if n > 0 {
      AccountsBalance(ss, steps, n - 1);
      assert StepsTo(ss[n - 1], steps[n - 1], ss[n]);
      StepKeepsAccounting(ss[n - 1], steps[n - 1]);
    } else {
      InitialAccounts(ss[0]);
    }
  }

  lemma InitialAccounts(s: System)
    requires Initial(s)
    ensures Accounting(s)
  {
    forall t: Task
      ensures HeldBy(s.mutexes, t) == {}
    {
    }
  }

  lemma {:induction false} RunsKeepInv(ss: seq<System>, steps: seq<Step>, n: nat)
    requires IsRun(ss, steps) && NeverNests(ss, steps) && n < |ss|
    ensures Inv(ss[n])
  {
    hide Next, Enabled, Accounting, AllFit;
    if n > 0 {
      RunsKeepInv(ss, steps, n - 1);
      assert StepsTo(ss[n - 1], steps[n - 1], ss[n]);
      StepKeepsInv(ss[n - 1], steps[n - 1]);
    } else {
      InitialAccounts(ss[0]);
      InitialFits(ss[0]);
    }
  }

  lemma InitialFits(s: System)
    requires Initial(s)
    ensures AllFit(s)
  {
  }

  /** Inheritance lasts for the whole wait: from the moment w blocks on m until m is given or w
  leaves its waiting list, the mutex keeps its holder and the holder runs at no lower priority than
  w, whoever else times out and whatever else the holder holds. */
  lemma {:induction false} InheritanceHolds(ss: seq<System>, steps: seq<Step>, i: nat, j: nat, w: Task, m: nat)
    requires IsRun(ss, steps) && NeverNests(ss, steps) && i < j < |ss| && steps[i] == Block(w, m)
    requires forall k | i < k < j :: !(steps[k].Give? && steps[k].m == m) && steps[k] != Expire(w)
    ensures m in ss[i].mutexes && m in ss[j].mutexes
    ensures var x := ss[j].mutexes[m];
            && x.holder.Some? && x.holder == ss[i].mutexes[m].holder
            && w in x.boosters && w in x.waiting
            && PriorityOf(ss[j].ranks, x.holder.value) >= PriorityOf(ss[j].ranks, w)
  {
    hide Next, Enabled, Accounting, AllFit, NoNesting;
    RunsKeepInv(ss, steps, j - 1);
    RunsKeepInv(ss, steps, j);
    assert StepsTo(ss[j - 1], steps[j - 1], ss[j]);
    if j == i + 1 {
      BlockerBoosts(ss[i], w, m);
    } else {
      InheritanceHolds(ss, steps, i, j - 1, w, m);
      BoosterStays(ss[j - 1], steps[j - 1], w, m);
    }
    BoostersAreCovered(ss[j], w, m);
  }

  lemma BlockerBoosts(s: System, w: Task, m: nat)
    requires Inv(s) && Enabled(s, Block(w, m))
    ensures m in s.mutexes && m in Next(s, Block(w, m)).mutexes
    ensures var x := Next(s, Block(w, m)).mutexes[m];
            x.holder.Some? && x.holder == s.mutexes[m].holder && w in x.boosters
  {
  }

  lemma BoosterStays(s: System, step: Step, w: Task, m: nat)
    requires Inv(s) && Enabled(s, step) && m in s.mutexes
    requires w in s.mutexes[m].boosters && s.mutexes[m].holder.Some?
    requires !(step.Give? && step.m == m) && step != Expire(w)
    ensures m in Next(s, step).mutexes
    ensures var x := Next(s, step).mutexes[m]; x.holder == s.mutexes[m].holder && w in x.boosters
  {
    hide AllFit, NoNesting;
  }

  lemma BoostersAreCovered(s: System, w: Task, m: nat)
    requires Inv(s) && m in s.mutexes && w in s.mutexes[m].boosters && s.mutexes[m].holder.Some?
    ensures w in s.mutexes[m].waiting
    ensures PriorityOf(s.ranks, s.mutexes[m].holder.value) >= PriorityOf(s.ranks, w)
  {
    assert Fits(s.mutexes[m], m, s.phase, s.ranks);
  }

  // ----- nesting -----

  ghost predicate Inherited(s: System) {
    forall m | m in s.mutexes :: InheritedAt(s.mutexes[m], s.ranks)
  }

  ghost predicate InheritedAt(x: Mutex, ranks: Ranks) {
    x.holder.Some? ==> forall w | w in x.boosters :: PriorityOf(ranks, x.holder.value) >= PriorityOf(ranks, w)
  }

  /** The holder of m is itself waiting for a mutex whose holder is lower than the task that is
  about to block. */
  ghost predicate BoostStopsShort(s: System, t: Task, m: nat)
    requires m in s.mutexes && s.mutexes[m].holder.Some? && t in s.ranks
  {
    var h := s.mutexes[m].holder.value;
    && PriorityOf(s.ranks, h) < PriorityOf(s.ranks, t)
    && exists n :: n in s.mutexes && s.mutexes[n].holder.Some? && h in s.mutexes[n].boosters
         && s.mutexes[n].holder.value != h && PriorityOf(s.ranks, s.mutexes[n].holder.value) < PriorityOf(s.ranks, t)
  }

  /** Inheritance is not transitive: when a task blocks it stays true of all waiters exactly unless
  the boosted holder itself waits for a task that stays lower. */
  lemma BlockKeepsInheritedIff(s: System, t: Task, m: nat)
    requires Accounting(s) && Inherited(s) && Enabled(s, Block(t, m))
    ensures s.mutexes[m].holder.Some?
    ensures Inherited(Next(s, Block(t, m))) <==> !BoostStopsShort(s, t, m)
  {
    HolderHolds(s, s.mutexes[m].holder.value, m);
    if BoostStopsShort(s, t, m) {
      StoppingShortBreaks(s, t, m);
    } else {
      forall n | n in s.mutexes
        ensures InheritedAt(Next(s, Block(t, m)).mutexes[n], Next(s, Block(t, m)).ranks)
      {
        NotStoppingShortKeeps(s, t, m, n);
      }
    }
  }

  lemma StoppingShortBreaks(s: System, t: Task, m: nat)
    requires HoldersKnown(s) && Enabled(s, Block(t, m)) && s.mutexes[m].holder.Some? && BoostStopsShort(s, t, m)
    ensures !Inherited(Next(s, Block(t, m)))
  {
    var r, h := Next(s, Block(t, m)), s.mutexes[m].holder.value;
    var n :| n in s.mutexes && s.mutexes[n].holder.Some? && h in s.mutexes[n].boosters
             && s.mutexes[n].holder.value != h && PriorityOf(s.ranks, s.mutexes[n].holder.value) < PriorityOf(s.ranks, t);
    assert n in r.mutexes && h in r.mutexes[n].boosters && !InheritedAt(r.mutexes[n], r.ranks);
  }

  lemma NotStoppingShortKeeps(s: System, t: Task, m: nat, n: nat)
    requires HoldersKnown(s) && Inherited(s) && Enabled(s, Block(t, m)) && s.mutexes[m].holder.Some?
    requires !BoostStopsShort(s, t, m) && n in s.mutexes
    ensures InheritedAt(Next(s, Block(t, m)).mutexes[n], Next(s, Block(t, m)).ranks)
  {
    assert InheritedAt(s.mutexes[n], s.ranks);
  }

  /** Task 2 holds mutex 0 and waits for mutex 1, which task 1 holds. */
  function Nested(): System {
    System(map[0 := Mutex(0, Some(2), 0, [], {}, false), 1 := Mutex(0, Some(1), 0, [2], {2}, false)],
           map[1 := Rank(2, 1, 1), 2 := Rank(2, 2, 1), 3 := Rank(3, 3, 0)],
           map[1 := Free, 2 := Waiting(1, true), 3 := Free], false)
  }

  /** When task 3 blocks on mutex 0, task 2 is boosted above task 1, for which it waits. */
  lemma NestingBreaksInheritance()
    ensures Accounting(Nested()) && Inherited(Nested()) && Enabled(Nested(), Block(3, 0))
    ensures !Inherited(Next(Nested(), Block(3, 0)))
  {
    NestedAccounts();
    NestedStopsShort();
    hide Accounting, Inherited, BoostStopsShort;
    StoppingShortBreaks(Nested(), 3, 0);
  }

  lemma NestedStopsShort()
    ensures Inherited(Nested()) && BoostStopsShort(Nested(), 3, 0)
  {
    var s := Nested();
    assert 1 in s.mutexes && s.mutexes[1].holder.Some? && 2 in s.mutexes[1].boosters;
  }

  lemma NestedAccounts()
    ensures Accounting(Nested())
  {
    var s := Nested();
    assert HeldBy(s.mutexes, 1) == {1} && HeldBy(s.mutexes, 2) == {0} && HeldBy(s.mutexes, 3) == {};
  }

  // ----- two assertions that can fail -----

  /** The two assertions fail for exactly these steps: a task whose blocking was reported as an
  inheritance gives up a mutex that it holds itself, as its only one, and would get another priority;
  and such a task finds the mutex taken on its last try. */
  lemma FailsExactly(s: System, step: Step)
    requires Accounting(s) && Enabled(s, step)
    ensures Next(s, step).failed <==>
              || (step.GiveUp? && s.phase[step.t].inherited && Owns(s, step.t) && WouldChange(s, step.t))
              || (step.ReturnEmpty? && s.phase[step.t].inherited)
  {
    hide HeldBy;
    if step.GiveUp? {
      var x := s.mutexes[s.phase[step.t].m];
      if x.holder.Some? {
        assert x.holder.value in s.ranks;
      }
    }
  }

  /** The mutex the task waits for is held by itself, and is the only one it holds. */
  predicate Owns(s: System, t: Task)
    requires InCall(s, t)
  {
    s.mutexes[s.phase[t].m].holder == Some(t) && t in s.ranks && s.ranks[t].held == 1
  }

  predicate WouldChange(s: System, t: Task)
    requires InCall(s, t) && t in s.ranks
  {
    var highest := HighestWaiting(s.mutexes[s.phase[t].m], s.ranks);
    s.ranks[t].priority != if s.ranks[t].base < highest then highest else s.ranks[t].base
  }

  /** Waiting lists and phases agree. */
  ghost predicate ListsAgree(s: System) {
    forall m | m in s.mutexes :: ListAgrees(s.mutexes[m].waiting, m, s.phase)
  }

  ghost predicate ListAgrees(waiting: seq<Task>, m: nat, phase: map<Task, Phase>) {
    NoDuplicates(waiting) && forall t | t in waiting :: t in phase && phase[t].Waiting? && phase[t].m == m
  }

  /** Nobody is in xQueueSemaphoreTake for a mutex that it holds. */
  ghost predicate NobodyWaitsForItself(s: System) {
    forall t | InCall(s, t) :: s.mutexes[s.phase[t].m].holder != Some(t)
  }

  lemma OthersAgree(s: System, r: System, m: nat)
    requires ListsAgree(s) && m in s.mutexes && m in r.mutexes && r.mutexes == s.mutexes[m := r.mutexes[m]]
    requires ListAgrees(r.mutexes[m].waiting, m, r.phase)
    requires forall u | u in s.phase && s.phase[u].Waiting? && s.phase[u].m != m :: u in r.phase && r.phase[u] == s.phase[u]
    ensures ListsAgree(r)
  {
    forall n | n in r.mutexes
      ensures ListAgrees(r.mutexes[n].waiting, n, r.phase)
    {
      assert ListAgrees(s.mutexes[n].waiting, n, s.phase);
    }
  }

  lemma OwnListAgrees(s: System, step: Step, m: nat)
    requires ListsAgree(s) && Enabled(s, step) && HoldersKnown(s) && m in s.mutexes
    requires m == if step.Take? || step.TakeAgain? || step.Block? || step.Give? || step.GiveInner? then step.m else s.phase[step.t].m
    ensures m in Next(s, step).mutexes && ListAgrees(Next(s, step).mutexes[m].waiting, m, Next(s, step).phase)
  {
    hide NoDuplicates, QP.InsertByPriority, Position;
    var x := s.mutexes[m];
    assert ListAgrees(x.waiting, m, s.phase);
    match step
    case Block(t, _) => InsertedAmong(x.waiting, Priorities(Next(s, step).ranks), t);
    case Give(_, _) =>
      if x.waiting != [] {
        TailFits(x.waiting);
      }
    case Expire(t) => LeftAmong(x, t);
    case _ =>
  }

  lemma LeftAmong(x: Mutex, t: Task)
    requires NoDuplicates(x.waiting)
    ensures var r := Left(x, t).waiting; NoDuplicates(r) && forall u :: u in r <==> u in x.waiting && u != t
  {
    if t in x.waiting {
      var i := Position(x.waiting, t);
      NoDuplicatesRemove(x.waiting, i);
      assert x.waiting == x.waiting[..i] + [t] + x.waiting[i + 1..];
    }
  }

  lemma StepKeepsListsAgree(s: System, step: Step)
    requires ListsAgree(s) && Enabled(s, step) && HoldersKnown(s)
    ensures ListsAgree(Next(s, step))
  {
    var m := if step.Take? || step.TakeAgain? || step.Block? || step.Give? || step.GiveInner? then step.m else s.phase[step.t].m;
    OwnListAgrees(s, step, m);
    if step.Give? && s.mutexes[m].waiting != [] {
      assert ListAgrees(s.mutexes[m].waiting, m, s.phase);
      assert s.mutexes[m].waiting[0] in s.mutexes[m].waiting;
    }
    hide ListsAgree, ListAgrees, HoldersKnown;
    OthersAgree(s, Next(s, step), m);
  }

  lemma StepKeepsNobodyWaitsForItself(s: System, step: Step)
    requires ListsAgree(s) && NobodyWaitsForItself(s) && Enabled(s, step) && HoldersKnown(s)
    requires step.Block? ==> s.mutexes[step.m].holder != Some(step.t)
    ensures NobodyWaitsForItself(Next(s, step))
  {
    if step.Give? && s.mutexes[step.m].waiting != [] {
      assert ListAgrees(s.mutexes[step.m].waiting, step.m, s.phase);
      assert s.mutexes[step.m].waiting[0] in s.mutexes[step.m].waiting;
    }
  }

  /** No task of the run blocks on a mutex that it holds itself. */
  predicate NeverBlocksOnOwn(ss: seq<System>, steps: seq<Step>)
    requires |ss| == |steps| + 1
  {
    forall i | 0 <= i < |steps| && steps[i].Block? && steps[i].m in ss[i].mutexes ::
      ss[i].mutexes[steps[i].m].holder != Some(steps[i].t)
  }

  lemma {:induction false} RunsKeepListsAgree(ss: seq<System>, steps: seq<Step>, n: nat)
    requires IsRun(ss, steps) && NeverBlocksOnOwn(ss, steps) && n < |ss|
    ensures ListsAgree(ss[n]) && NobodyWaitsForItself(ss[n])
  {
    hide Next, Enabled, ListsAgree, NobodyWaitsForItself;
    if n > 0 {
      RunsKeepListsAgree(ss, steps, n - 1);
      assert StepsTo(ss[n - 1], steps[n - 1], ss[n]);
      StepKeepsListsAgree(ss[n - 1], steps[n - 1]);
      BlocksOnAnother(ss[n - 1], steps[n - 1]);
      StepKeepsNobodyWaitsForItself(ss[n - 1], steps[n - 1]);
    } else {
      NobodyWaitsYet(ss[0]);
    }
  }

  lemma BlocksOnAnother(s: System, step: Step)
    requires Enabled(s, step)
    ensures step.Block? ==> step.m in s.mutexes
  {
  }

  lemma NobodyWaitsYet(s: System)
    requires Initial(s)
    ensures ListsAgree(s) && NobodyWaitsForItself(s)
  {
  }

  /** In a run in which no task blocks on a mutex that it holds, the only assertion that can fail is
  the one on the last try; and it fails exactly if the task inherited when it blocked. */
  lemma OnlyTheLastTryFails(ss: seq<System>, steps: seq<Step>, n: nat)
    requires IsRun(ss, steps) && NeverBlocksOnOwn(ss, steps) && n < |steps|
    ensures ss[n + 1].failed <==>
              steps[n].ReturnEmpty? && steps[n].t in ss[n].phase
              && ss[n].phase[steps[n].t] != Free && ss[n].phase[steps[n].t].inherited
  {
    hide Next, Accounting, ListsAgree;
    RunsKeepListsAgree(ss, steps, n);
    AccountsBalance(ss, steps, n);
    assert StepsTo(ss[n], steps[n], ss[n + 1]);
    FailsExactly(ss[n], steps[n]);
  }

  /** Never nesting is more than enough for that. */
  lemma NestingIncludesOwn(ss: seq<System>, steps: seq<Step>)
    requires IsRun(ss, steps) && NeverNests(ss, steps)
    ensures NeverBlocksOnOwn(ss, steps)
  {
    hide Next, Enabled, Accounting;
    forall i | 0 <= i < |steps| && steps[i].Block? && steps[i].m in ss[i].mutexes
      ensures ss[i].mutexes[steps[i].m].holder != Some(steps[i].t)
    {
      AccountsBalance(ss, steps, i);
      if ss[i].mutexes[steps[i].m].holder == Some(steps[i].t) {
        HolderHolds(ss[i], steps[i].t, steps[i].m);
      }
    }
  }

  /** One mutex and three tasks. */
  function Three(holder: Option<Task>, waiting: seq<Task>, boosters: set<Task>, ranks: (Rank, Rank, Rank),
                 first: Phase, second: Phase): System {
    System(map[0 := Mutex(if holder.None? then 1 else 0, holder, 0, waiting, boosters, false)],
           map[1 := ranks.0, 2 := ranks.1, 3 := ranks.2], map[1 := first, 2 := second, 3 := Free], false)
  }

  /** Task 1 takes the mutex, task 2 blocks on it and boosts task 1, which then blocks on the mutex
  too, although it holds it; both time out. */
  function OwnSteps(): seq<Step> {
    [Take(1, 0), Block(2, 0), Block(1, 0), Expire(2), PassDeadline(2), Look(2), GiveUp(2),
     Expire(1), PassDeadline(1), Look(1), GiveUp(1)]
  }

  function OwnState(waiting: seq<Task>, boosters: set<Task>, first: Phase, second: Phase): System {
    Three(Some(1), waiting, boosters, (Rank(5, 1, 1), Rank(5, 5, 0), Rank(3, 3, 0)), first, second)
  }

  function OwnStart(first: Rank): System {
    Three(if first.held == 0 then None else Some(1), [], {}, (first, Rank(5, 5, 0), Rank(3, 3, 0)), Free, Free)
  }

  function OwnRun(): seq<System> {
    [OwnStart(Rank(1, 1, 0)),
     OwnStart(Rank(1, 1, 1)),
     OwnState([2], {2}, Free, Waiting(0, true)),
     OwnState([2, 1], {1, 2}, Waiting(0, true), Waiting(0, true)),
     OwnState([1], {1}, Waiting(0, true), TimedOut(0, true)),
     OwnState([1], {1}, Waiting(0, true), Late(0, true)),
     OwnState([1], {1}, Waiting(0, true), Leaving(0, true)),
     OwnState([1], {1}, Waiting(0, true), Free),
     OwnState([], {}, TimedOut(0, true), Free),
     OwnState([], {}, Late(0, true), Free),
     OwnState([], {}, Leaving(0, true), Free),
     OwnState([], {}, Leaving(0, true), Free).(failed := true)]
  }

  /** The assertion that the running task is not lowered itself fails. */
  lemma BlockingOnOwnFails()
    ensures IsRun(OwnRun(), OwnSteps()) && OwnRun()[11].failed
  {
    hide StepsTo, OwnState, OwnStart, Three, Initial;
    OwnTake();
    OwnBlock();
    OwnBlockAgain();
    OwnExpire();
    OwnPass();
    OwnLook();
    OwnGiveUp();
    OwnExpireAgain();
    OwnPassAgain();
    OwnLookAgain();
    OwnFails();
  }

  lemma InsertFirst(priority: Task -> nat, t: Task)
    ensures QP.InsertByPriority([], priority, t) == [t]
  {
  }

  lemma InsertBehind(priority: Task -> nat, u: Task, t: Task)
    requires priority(u) >= priority(t)
    ensures QP.InsertByPriority([u], priority, t) == [u, t]
  {
    assert QP.PriorityPosition([u], priority, priority(t)) == 1;
  }

  lemma OwnTake()
    ensures Initial(OwnStart(Rank(1, 1, 0)))
    ensures StepsTo(OwnStart(Rank(1, 1, 0)), Take(1, 0), OwnStart(Rank(1, 1, 1)))
  {
  }

  lemma OwnBlock()
    ensures StepsTo(OwnStart(Rank(1, 1, 1)), Block(2, 0), OwnState([2], {2}, Free, Waiting(0, true)))
  {
    hide QP.InsertByPriority, QP.PriorityPosition;
    var s := OwnStart(Rank(1, 1, 1));
    assert Enabled(s, Block(2, 0)) && HoldersKnown(s);
    InsertFirst(Priorities(Next(s, Block(2, 0)).ranks), 2);
    assert s.mutexes[0].boosters + {2} == {2};
  }

  lemma OwnBlockAgain()
    ensures StepsTo(OwnState([2], {2}, Free, Waiting(0, true)), Block(1, 0),
                    OwnState([2, 1], {1, 2}, Waiting(0, true), Waiting(0, true)))
  {
    hide QP.InsertByPriority, QP.PriorityPosition;
    var s := OwnState([2], {2}, Free, Waiting(0, true));
    assert Enabled(s, Block(1, 0)) && HoldersKnown(s);
    InsertBehind(Priorities(Next(s, Block(1, 0)).ranks), 2, 1);
    assert {2} + {1} == {1, 2};
  }

  lemma OwnExpire()
    ensures StepsTo(OwnState([2, 1], {1, 2}, Waiting(0, true), Waiting(0, true)), Expire(2),
                    OwnState([1], {1}, Waiting(0, true), TimedOut(0, true)))
  {
    assert [2, 1][..0] + [2, 1][1..] == [1];
    assert {1, 2} - {2} == {1};
  }

  lemma OwnPass()
    ensures StepsTo(OwnState([1], {1}, Waiting(0, true), TimedOut(0, true)), PassDeadline(2),
                    OwnState([1], {1}, Waiting(0, true), Late(0, true)))
  {
  }

  lemma OwnLook()
    ensures StepsTo(OwnState([1], {1}, Waiting(0, true), Late(0, true)), Look(2),
                    OwnState([1], {1}, Waiting(0, true), Leaving(0, true)))
  {
  }

  lemma OwnGiveUp()
    ensures StepsTo(OwnState([1], {1}, Waiting(0, true), Leaving(0, true)), GiveUp(2),
                    OwnState([1], {1}, Waiting(0, true), Free))
  {
  }

  lemma OwnExpireAgain()
    ensures StepsTo(OwnState([1], {1}, Waiting(0, true), Free), Expire(1), OwnState([], {}, TimedOut(0, true), Free))
  {
    assert [1][..0] + [1][1..] == [];
    assert {1} - {1} == {};
  }

  lemma OwnPassAgain()
    ensures StepsTo(OwnState([], {}, TimedOut(0, true), Free), PassDeadline(1), OwnState([], {}, Late(0, true), Free))
  {
  }

  lemma OwnLookAgain()
    ensures StepsTo(OwnState([], {}, Late(0, true), Free), Look(1), OwnState([], {}, Leaving(0, true), Free))
  {
  }

  lemma OwnFails()
    ensures StepsTo(OwnState([], {}, Leaving(0, true), Free), GiveUp(1),
                    OwnState([], {}, Leaving(0, true), Free).(failed := true))
  {
  }

  /** Task 2 blocks and boosts task 1, is woken, but task 3 takes the mutex first; past its deadline
  task 2 finds the mutex free, and task 3 takes it again before task 2 does. */
  function LateSteps(): seq<Step> {
    [Take(1, 0), Block(2, 0), Give(1, 0), Take(3, 0), PassDeadline(2), Give(3, 0), Look(2), Take(3, 0), ReturnEmpty(2)]
  }

  function LateState(third: nat, second: Phase): System {
    Three(if third == 1 then Some(3) else None, [], {}, (Rank(1, 1, 0), Rank(3, 3, 0), Rank(5, 5, third)), Free, second)
  }

  function LateBoosts(waiting: seq<Task>, boosters: set<Task>, priority: nat, second: Phase): System {
    Three(Some(1), waiting, boosters, (Rank(priority, 1, 1), Rank(3, 3, 0), Rank(5, 5, 0)), Free, second)
  }

  function LateRun(): seq<System> {
    [LateState(0, Free),
     LateBoosts([], {}, 1, Free),
     LateBoosts([2], {2}, 3, Waiting(0, true)),
     LateState(0, Woken(0, true)),
     LateState(1, Woken(0, true)),
     LateState(1, Late(0, true)),
     LateState(0, Late(0, true)),
     LateState(0, LastTry(0, true)),
     LateState(1, LastTry(0, true)),
     LateState(1, LastTry(0, true)).(failed := true)]
  }

  /** The assertion that no inheritance occurred if no time is left fails, although no task blocks
  while it holds a mutex. */
  lemma TheLastTryFails()
    ensures IsRun(LateRun(), LateSteps()) && NeverNests(LateRun(), LateSteps()) && LateRun()[9].failed
  {
    hide StepsTo, LateState, LateBoosts, Three, Initial;
    LateTake();
    LateBlock();
    LateGive();
    LateTaken(Woken(0, true));
    LatePass();
    LateGiven();
    LateLook();
    LateTaken(LastTry(0, true));
    LateFails();
  }

  lemma LateTake()
    ensures Initial(LateState(0, Free)) && StepsTo(LateState(0, Free), Take(1, 0), LateBoosts([], {}, 1, Free))
  {
  }

  lemma LateBlock()
    ensures StepsTo(LateBoosts([], {}, 1, Free), Block(2, 0), LateBoosts([2], {2}, 3, Waiting(0, true)))
    ensures var s := LateBoosts([], {}, 1, Free); 2 in s.ranks && s.ranks[2].held == 0
  {
    hide QP.InsertByPriority, QP.PriorityPosition;
    var s := LateBoosts([], {}, 1, Free);
    assert Enabled(s, Block(2, 0)) && HoldersKnown(s);
    InsertFirst(Priorities(Next(s, Block(2, 0)).ranks), 2);
    assert s.mutexes[0].boosters + {2} == {2};
  }

  lemma LateGive()
    ensures StepsTo(LateBoosts([2], {2}, 3, Waiting(0, true)), Give(1, 0), LateState(0, Woken(0, true)))
  {
    var s := LateBoosts([2], {2}, 3, Waiting(0, true));
    assert Enabled(s, Give(1, 0)) && HoldersKnown(s);
    var r := Next(s, Give(1, 0));
    assert [2][1..] == [];
    assert r.mutexes == LateState(0, Woken(0, true)).mutexes;
    assert r.ranks == LateState(0, Woken(0, true)).ranks;
  }

  lemma LateTaken(second: Phase)
    ensures StepsTo(LateState(0, second), Take(3, 0), LateState(1, second))
  {
  }

  lemma LatePass()
    ensures StepsTo(LateState(1, Woken(0, true)), PassDeadline(2), LateState(1, Late(0, true)))
  {
  }

  lemma LateGiven()
    ensures StepsTo(LateState(1, Late(0, true)), Give(3, 0), LateState(0, Late(0, true)))
  {
  }

  lemma LateLook()
    ensures StepsTo(LateState(0, Late(0, true)), Look(2), LateState(0, LastTry(0, true)))
  {
  }

  lemma LateFails()
    ensures StepsTo(LateState(1, LastTry(0, true)), ReturnEmpty(2), LateState(1, LastTry(0, true)).(failed := true))
  {
  }

  // ----- recursive mutexes -----

  /** How a step by the holder changes the balance of takes and gives. */
  function Balance(step: Step, t: Task, m: nat): int {
    match step
    case Take(u, n) => if u == t && n == m then 1 else 0
    case TakeAgain(u, n) => if u == t && n == m then 1 else 0
    case Give(u, n) => if u == t && n == m then -1 else 0
    case GiveInner(u, n) => if u == t && n == m then -1 else 0
    case _ => 0
  }

  function TotalBalance(steps: seq<Step>, i: nat, j: nat, t: Task, m: nat): int
    requires i <= j <= |steps|
  {
    if i == j then 0 else TotalBalance(steps, i, j - 1, t, m) + Balance(steps[j - 1], t, m)
  }

  /** While a task keeps a recursive mutex its takes exceed its gives, by the recursion depth; so
  the give that releases the mutex is the one that makes them equal. */
  lemma {:induction false} DepthIsBalance(ss: seq<System>, steps: seq<Step>, i: nat, j: nat, t: Task, m: nat)
    requires IsRun(ss, steps) && i < j < |ss| && steps[i] == Take(t, m)
    requires m in ss[i].mutexes && ss[i].mutexes[m].recursive
    requires forall k | i < k <= j :: m in ss[k].mutexes && ss[k].mutexes[m].holder == Some(t)
    ensures ss[j].mutexes[m].recursive && ss[j].mutexes[m].depth == TotalBalance(steps, i, j, t, m) > 0
  {
    hide Next, Enabled, Accounting;
    AccountsBalance(ss, steps, j - 1);
    AccountsBalance(ss, steps, j);
    assert StepsTo(ss[j - 1], steps[j - 1], ss[j]);
    if j > i + 1 {
      DepthIsBalance(ss, steps, i, j - 1, t, m);
    }
    DepthStep(ss[j - 1], steps[j - 1], t, m);
    assert j == i + 1 ==> TotalBalance(steps, i, i, t, m) == 0;
  }

  lemma DepthStep(s: System, step: Step, t: Task, m: nat)
    requires Accounting(s) && Enabled(s, step) && m in s.mutexes && s.mutexes[m].recursive
    requires m in Next(s, step).mutexes && Next(s, step).mutexes[m].holder == Some(t)
    requires s.mutexes[m].holder == Some(t) || step == Take(t, m)
    ensures var x := Next(s, step).mutexes[m];
            && x.recursive && x.depth > 0
            && x.depth == (if step == Take(t, m) then 1 else s.mutexes[m].depth + Balance(step, t, m))
    ensures s.mutexes[m].holder == Some(t) ==> step != Take(t, m)
  {
  }

  /** The holder's give releases a recursive mutex exactly when it matches the last open take. */
  lemma ReleasedWhenBalanced(ss: seq<System>, steps: seq<Step>, i: nat, j: nat, t: Task, m: nat)
    requires IsRun(ss, steps) && i < j < |steps| && steps[i] == Take(t, m)
    requires m in ss[i].mutexes && ss[i].mutexes[m].recursive
    requires forall k | i < k <= j :: m in ss[k].mutexes && ss[k].mutexes[m].holder == Some(t)
    ensures m in ss[j + 1].mutexes
    ensures ss[j + 1].mutexes[m].holder == None <==> TotalBalance(steps, i, j + 1, t, m) == 0
  {
    hide Next, Enabled, Accounting;
    DepthIsBalance(ss, steps, i, j, t, m);
    AccountsBalance(ss, steps, j);
    assert StepsTo(ss[j], steps[j], ss[j + 1]);
    ReleaseStep(ss[j], steps[j], t, m);
  }

  lemma ReleaseStep(s: System, step: Step, t: Task, m: nat)
    requires Accounting(s) && Enabled(s, step) && m in s.mutexes && s.mutexes[m].recursive && s.mutexes[m].holder == Some(t)
    ensures m in Next(s, step).mutexes
    ensures Next(s, step).mutexes[m].holder == None <==> s.mutexes[m].depth + Balance(step, t, m) == 0
  {
  }
}
