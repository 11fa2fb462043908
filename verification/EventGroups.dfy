/** Event groups: tasks wait for combinations of bits. */
module EventGroups {
  /// A waiter's event list item carries the bits it waits for and its options in one 32-bit word.

  import opened ItemLists

  type Bit = i: nat | i < 32

  /// A 32-bit word as the set of positions of its one bits: C's `|` is union, `&` is
  /// intersection, and `&` with a complement is difference.
  type Bits = set<Bit>

  const CLEAR_EVENTS_ON_EXIT: Bit := 24
  const UNBLOCKED_DUE_TO_BIT_SET: Bit := 25
  const WAIT_FOR_ALL: Bit := 26
  const ITEM_VALUE_IN_USE: Bit := 31
  const CONTROL: Bits := {24, 25, 26, 27, 28, 29, 30, 31}

  /** The event list item of a task: who waits, and the word it waits with. */
  datatype Waiter = Waiter(task: Task, word: Bits)

  datatype Group = Group(bits: Bits, waiting: seq<Waiter>)

  // ----- conditions -----

  /** prvTestWaitCondition. */
  predicate TestWaitCondition(current: Bits, waitFor: Bits, all: bool) {
    if all then current * waitFor == waitFor else current * waitFor != {}
  }

  /** The condition a waiter's word encodes. */
  predicate Satisfied(w: Waiter, current: Bits) {
    TestWaitCondition(current, w.word - CONTROL, WAIT_FOR_ALL in w.word)
  }

  predicate ClearsOnExit(w: Waiter) {
    CLEAR_EVENTS_ON_EXIT in w.word
  }

  /** The word stored when a task blocks. */
  function BlockWord(waitFor: Bits, clear: bool, all: bool): Bits {
    waitFor + (if clear then {CLEAR_EVENTS_ON_EXIT} else {}) + (if all then {WAIT_FOR_ALL} else {})
    + {ITEM_VALUE_IN_USE}
  }

  /** Packing options and bits in one word loses nothing. */
  lemma BlockWordMeaning(task: Task, waitFor: Bits, clear: bool, all: bool)
    requires waitFor !! CONTROL
    ensures var w := Waiter(task, BlockWord(waitFor, clear, all));
            && w.word - CONTROL == waitFor
            && (ClearsOnExit(w) <==> clear)
            && (WAIT_FOR_ALL in w.word <==> all)
            && UNBLOCKED_DUE_TO_BIT_SET !in w.word
  {
    assert CLEAR_EVENTS_ON_EXIT in CONTROL && WAIT_FOR_ALL in CONTROL && UNBLOCKED_DUE_TO_BIT_SET in CONTROL;
    assert BlockWord(waitFor, clear, all) - CONTROL == waitFor;
  }

  // ----- what setting bits does to the waiters -----

  function Woken(ws: seq<Waiter>, current: Bits): seq<Waiter> {
    if ws == [] then []
    else
      var n := |ws| - 1;
      Woken(ws[..n], current) + if Satisfied(ws[n], current) then [ws[n]] else []
  }

  function StillWaiting(ws: seq<Waiter>, current: Bits): seq<Waiter> {
    if ws == [] then []
    else
      var n := |ws| - 1;
      StillWaiting(ws[..n], current) + if Satisfied(ws[n], current) then [] else [ws[n]]
  }

  /** Union of the bits the woken waiters asked to clear. */
  function ClearMask(ws: seq<Waiter>, current: Bits): Bits {
    if ws == [] then {}
    else
      var n := |ws| - 1;
      ClearMask(ws[..n], current)
      + if Satisfied(ws[n], current) && ClearsOnExit(ws[n]) then ws[n].word - CONTROL else {}
  }

  /** The word a woken task finds in its item: the bits at that moment, marked as a match. */
  function Answer(current: Bits): Bits {
    current + {UNBLOCKED_DUE_TO_BIT_SET} + {ITEM_VALUE_IN_USE}
  }

  /** The woken waiters, each with the answer in its item. */
  function Answered(ws: seq<Waiter>, current: Bits): (r: seq<Waiter>)
    ensures |r| == |Woken(ws, current)|
    ensures forall i | 0 <= i < |r| :: r[i] == Waiter(Woken(ws, current)[i].task, Answer(current))
  {
    if ws == [] then []
    else
      var n := |ws| - 1;
      Answered(ws[..n], current) + if Satisfied(ws[n], current) then [Waiter(ws[n].task, Answer(current))] else []
  }

  /** Setting bits splits the waiters: woken are exactly the satisfied ones. */
  lemma {:induction false} WokenAreTheSatisfied(ws: seq<Waiter>, current: Bits)
    ensures forall w :: w in Woken(ws, current) <==> w in ws && Satisfied(w, current)
    ensures forall w :: w in StillWaiting(ws, current) <==> w in ws && !Satisfied(w, current)
    ensures multiset(Woken(ws, current)) + multiset(StillWaiting(ws, current)) == multiset(ws)
  {
    hide Satisfied;
    if ws != [] {
      var (most, last) := (ws[..|ws| - 1], ws[|ws| - 1]);
      WokenAreTheSatisfied(most, current);
      assert ws == most + [last];
      OneMoreWaiter(Woken(most, current), StillWaiting(most, current), most, last, Satisfied(last, current));
    }
  }

  /** A last waiter joins those woken or those who wait on. */
  lemma OneMoreWaiter(woken: seq<Waiter>, still: seq<Waiter>, most: seq<Waiter>, last: Waiter, satisfied: bool)
    requires multiset(woken) + multiset(still) == multiset(most)
    ensures var (w, s) := (woken + if satisfied then [last] else [], still + if satisfied then [] else [last]);
            && multiset(w) + multiset(s) == multiset(most + [last])
            && (forall v :: v in w <==> v in woken || (satisfied && v == last))
            && (forall v :: v in s <==> v in still || (!satisfied && v == last))
  {
  }

  /** A bit is cleared exactly if some woken waiter asked for it.  Nothing here depends on the
  order of the list. */
  lemma {:induction false} ClearMaskIsUnion(ws: seq<Waiter>, current: Bits, b: Bit)
    ensures b in ClearMask(ws, current) <==>
            exists w :: w in ws && Satisfied(w, current) && ClearsOnExit(w) && b in w.word - CONTROL
  {
    if ws != [] {
      ClearMaskIsUnion(ws[..|ws| - 1], current, b);
      assert ws == ws[..|ws| - 1] + [ws[|ws| - 1]];
    }
  }

  /** The bits left after setting do not depend on the order of the waiting list, and neither
  does who is woken. */
  lemma OrderDoesNotMatter(ws: seq<Waiter>, vs: seq<Waiter>, current: Bits)
    requires multiset(ws) == multiset(vs)
    ensures ClearMask(ws, current) == ClearMask(vs, current)
    ensures multiset(Woken(ws, current)) == multiset(Woken(vs, current))
  {
    assert forall w :: w in ws <==> w in multiset(ws);
    assert forall w :: w in vs <==> w in multiset(vs);
    forall b: Bit
      ensures b in ClearMask(ws, current) <==> b in ClearMask(vs, current)
    {
      ClearMaskIsUnion(ws, current, b);
      ClearMaskIsUnion(vs, current, b);
    }
    forall w
      ensures multiset(Woken(ws, current))[w] == multiset(Woken(vs, current))[w]
    {
      WokenCounts(ws, current, w);
      WokenCounts(vs, current, w);
    }
  }

  lemma {:induction false} WokenCounts(ws: seq<Waiter>, current: Bits, w: Waiter)
    ensures multiset(Woken(ws, current))[w] == if Satisfied(w, current) then multiset(ws)[w] else 0
  {
    if ws != [] {
      WokenCounts(ws[..|ws| - 1], current, w);
      assert ws == ws[..|ws| - 1] + [ws[|ws| - 1]];
    }
  }

  // ----- the operations on a group -----

  /** xEventGroupSetBits. */
  function AfterSetBits(g: Group, b: Bits): Group {
    var current := g.bits + b;
    Group(current - ClearMask(g.waiting, current), StillWaiting(g.waiting, current))
  }

  /** xEventGroupClearBits. */
  function AfterClearBits(g: Group, b: Bits): Group {
    g.(bits := g.bits - b)
  }

  datatype Outcome = Returned(value: Bits) | Blocked

  /** xEventGroupWaitBits up to the point where the task blocks or knows its result. */
  function AfterWaitBits(g: Group, task: Task, waitFor: Bits, clear: bool, all: bool, mayBlock: bool)
    : (Group, Outcome)
  {
    if TestWaitCondition(g.bits, waitFor, all) then
      (if clear then AfterClearBits(g, waitFor) else g, Returned(g.bits))
    else if !mayBlock then
      (g, Returned(g.bits))
    else
      (g.(waiting := g.waiting + [Waiter(task, BlockWord(waitFor, clear, all))]), Blocked)
  }

  /** xEventGroupSync up to the same point. */
  function AfterSync(g: Group, task: Task, b: Bits, waitFor: Bits, mayBlock: bool): (Group, Outcome) {
    var h := AfterSetBits(g, b);
    if (g.bits + b) * waitFor == waitFor then
      (AfterClearBits(h, waitFor), Returned(g.bits + b))
    else if mayBlock then
      (h.(waiting := h.waiting + [Waiter(task, BlockWord(waitFor, true, true))]), Blocked)
    else
      (h, Returned(h.bits))
  }

  /** A waiter whose block time runs out is taken off the list by the tick. */
  function AfterExpire(g: Group, i: nat): Group
    requires i < |g.waiting|
  {
    g.(waiting := g.waiting[..i] + g.waiting[i + 1..])
  }

  /** What a task does when it runs again after blocking, holding `word` in its item: a match
  returns the bits stored with it, a time out returns and possibly clears the bits of now. */
  function AfterResume(g: Group, word: Bits, waitFor: Bits, clear: bool, all: bool): (Group, Bits) {
    if UNBLOCKED_DUE_TO_BIT_SET in word then (g, word - CONTROL)
    else (if TestWaitCondition(g.bits, waitFor, all) && clear then AfterClearBits(g, waitFor) else g,
          g.bits - CONTROL)
  }

  // ----- what the operations do, bit by bit -----

  /** The condition of a task, spelled out: all the bits it waits for, or one of them, are set. */
  ghost predicate Holds(current: Bits, waitFor: Bits, all: bool) {
    if all then forall x | x in waitFor :: x in current else exists x :: x in waitFor && x in current
  }

  lemma ConditionMeans(current: Bits, waitFor: Bits, all: bool)
    ensures TestWaitCondition(current, waitFor, all) <==> Holds(current, waitFor, all)
  {
    var both := current * waitFor;
    assert forall x :: x in both <==> x in current && x in waitFor;
    if all {
      if Holds(current, waitFor, all) {
        assert both == waitFor;
      }
    } else if both != {} {
      var x :| x in both;
    }
  }

  /** Some waiter that the bits in `current` satisfy asked for x to be cleared. */
  ghost predicate SomeoneClears(ws: seq<Waiter>, current: Bits, x: Bit) {
    exists w :: w in ws && Satisfied(w, current) && ClearsOnExit(w) && x in w.word - CONTROL
  }

  /** After setting, a bit is set exactly if it was or is set now and no woken waiter clears it; and
  exactly those wait on who are not satisfied. */
  lemma SetMeans(g: Group, b: Bits)
    ensures var h := AfterSetBits(g, b);
            && (forall x: Bit :: x in h.bits <==> (x in g.bits || x in b) && !SomeoneClears(g.waiting, g.bits + b, x))
            && (forall w :: w in h.waiting <==> w in g.waiting && !Satisfied(w, g.bits + b))
            && multiset(h.waiting) <= multiset(g.waiting)
  {
    WokenAreTheSatisfied(g.waiting, g.bits + b);
    forall x: Bit
      ensures x in ClearMask(g.waiting, g.bits + b) <==> SomeoneClears(g.waiting, g.bits + b, x)
    {
      ClearMaskIsUnion(g.waiting, g.bits + b, x);
    }
  }

  /** Clearing clears just those bits and wakes nobody. */
  lemma ClearMeans(g: Group, b: Bits)
    ensures var h := AfterClearBits(g, b);
            h.waiting == g.waiting && forall x: Bit :: x in h.bits <==> x in g.bits && x !in b
  {
  }

  /** Waiting: if the condition holds the task returns the bits, and exactly the bits it waits for are
  cleared if it asks for that; otherwise nothing is cleared, and the task returns or is the last on the
  list, with a word that is satisfied exactly when its condition holds. */
  lemma WaitMeans(g: Group, task: Task, waitFor: Bits, clear: bool, all: bool, mayBlock: bool)
    requires waitFor !! CONTROL
    ensures var (h, outcome) := AfterWaitBits(g, task, waitFor, clear, all, mayBlock);
            if Holds(g.bits, waitFor, all) then
              && outcome == Returned(g.bits) && h.waiting == g.waiting
              && forall x: Bit :: x in h.bits <==> x in g.bits && !(clear && x in waitFor)
            else if !mayBlock then h == g && outcome == Returned(g.bits)
            else
              && outcome == Blocked && h.bits == g.bits && |h.waiting| == |g.waiting| + 1
              && h.waiting[..|g.waiting|] == g.waiting && WaitsFor(h.waiting[|g.waiting|], task, waitFor, clear, all)
  {
    ConditionMeans(g.bits, waitFor, all);
    BlockedWaits(task, waitFor, clear, all);
  }

  /** A waiter's word says what the task waits for and how. */
  ghost predicate WaitsFor(w: Waiter, task: Task, waitFor: Bits, clear: bool, all: bool) {
    && w.task == task && (ClearsOnExit(w) <==> clear) && w.word - CONTROL == waitFor
    && forall current: Bits {:trigger Satisfied(w, current)} :: Satisfied(w, current) <==> Holds(current, waitFor, all)
  }

  lemma BlockedWaits(task: Task, waitFor: Bits, clear: bool, all: bool)
    requires waitFor !! CONTROL
    ensures WaitsFor(Waiter(task, BlockWord(waitFor, clear, all)), task, waitFor, clear, all)
  {
    var w := Waiter(task, BlockWord(waitFor, clear, all));
    BlockWordMeaning(task, waitFor, clear, all);
    forall current: Bits
      ensures Satisfied(w, current) <==> Holds(current, waitFor, all)
    {
      ConditionMeans(current, waitFor, all);
    }
  }

  /** A rendezvous: the bits are set as by SetMeans; if then all are there the task returns the old and
  the new ones and those it waits for are cleared; otherwise it returns the bits of now or waits, last
  on the list, for all of them, to clear them. */
  lemma SyncMeans(g: Group, task: Task, b: Bits, waitFor: Bits, mayBlock: bool)
    requires waitFor !! CONTROL
    ensures var ((h, outcome), s) := (AfterSync(g, task, b, waitFor, mayBlock), AfterSetBits(g, b));
            if forall x | x in waitFor :: x in g.bits || x in b then
              && outcome == Returned(g.bits + b) && h.waiting == s.waiting
              && forall x: Bit :: x in h.bits <==> x in s.bits && x !in waitFor
            else if !mayBlock then h == s && outcome == Returned(s.bits)
            else
              && outcome == Blocked && h.bits == s.bits && |h.waiting| == |s.waiting| + 1
              && h.waiting[..|s.waiting|] == s.waiting && WaitsFor(h.waiting[|s.waiting|], task, waitFor, true, true)
  {
    ConditionMeans(g.bits + b, waitFor, true);
    BlockedWaits(task, waitFor, true, true);
  }

  /** A time-out takes one waiter off the list and leaves the others in order. */
  lemma ExpireMeans(g: Group, i: nat)
    requires i < |g.waiting|
    ensures var h := AfterExpire(g, i);
            && h.bits == g.bits && |h.waiting| == |g.waiting| - 1
            && forall j | 0 <= j < |h.waiting| :: h.waiting[j] == g.waiting[if j < i then j else j + 1]
  {
  }

  /** A task that timed out returns the bits of now; if they satisfy it after all, and it asks for that,
  exactly the bits it waits for are cleared. */
  lemma ResumeMeans(g: Group, waitFor: Bits, clear: bool, all: bool)
    requires waitFor !! CONTROL && g.bits !! CONTROL
    ensures var (h, value) := AfterResume(g, BlockWord(waitFor, clear, all), waitFor, clear, all);
            && value == g.bits && h.waiting == g.waiting
            && forall x: Bit :: x in h.bits <==> x in g.bits && !(clear && Holds(g.bits, waitFor, all) && x in waitFor)
  {
    ConditionMeans(g.bits, waitFor, all);
    TimedOutTaskSeesCurrentBits(g, waitFor, clear, all);
    BlockWordMeaning(0, waitFor, clear, all);
  }

  // ----- no satisfied waiter is left behind -----

  ghost predicate Inv(g: Group) {
    && g.bits !! CONTROL
    && (forall w | w in g.waiting :: !Satisfied(w, g.bits) && w.word - CONTROL != {})
  }

  /** Taking bits away satisfies nobody. */
  lemma FewerBitsSatisfyLess(w: Waiter, current: Bits, b: Bits)
    requires w.word - CONTROL != {} && !Satisfied(w, current)
    ensures !Satisfied(w, current - b)
  {
    var waitFor := w.word - CONTROL;
    if WAIT_FOR_ALL in w.word {
      var i :| i in waitFor && i !in current * waitFor;
      assert i !in (current - b) * waitFor;
    } else {
      assert (current - b) * waitFor <= current * waitFor;
    }
  }

  lemma ClearKeepsInv(g: Group, b: Bits)
    requires Inv(g)
    ensures Inv(AfterClearBits(g, b))
  {
    forall w | w in g.waiting
      ensures !Satisfied(w, g.bits - b)
    {
      FewerBitsSatisfyLess(w, g.bits, b);
    }
  }

  lemma SetKeepsInv(g: Group, b: Bits)
    requires Inv(g) && b !! CONTROL
    ensures Inv(AfterSetBits(g, b))
  {
    var current := g.bits + b;
    var h := AfterSetBits(g, b);
    WokenAreTheSatisfied(g.waiting, current);
    forall w | w in h.waiting
      ensures !Satisfied(w, h.bits) && w.word - CONTROL != {}
    {
      FewerBitsSatisfyLess(w, current, ClearMask(g.waiting, current));
    }
  }

  lemma BlockingKeepsInv(g: Group, task: Task, waitFor: Bits, clear: bool, all: bool)
    requires Inv(g) && waitFor !! CONTROL && waitFor != {}
    requires !TestWaitCondition(g.bits, waitFor, all)
    ensures Inv(g.(waiting := g.waiting + [Waiter(task, BlockWord(waitFor, clear, all))]))
  {
    BlockWordMeaning(task, waitFor, clear, all);
  }

  datatype Step =
    | DoSet(b: Bits)
    | DoClear(b: Bits)
    | DoWait(task: Task, waitFor: Bits, clear: bool, all: bool, mayBlock: bool)
    | DoSync(task: Task, b: Bits, waitFor: Bits, mayBlock: bool)
    | DoExpire(i: nat)
    | DoResume(word: Bits, waitFor: Bits, clear: bool, all: bool)

  /** What the operations assert about their arguments. */
  predicate Allowed(g: Group, s: Step) {
    match s
    case DoSet(b) => b !! CONTROL
    case DoClear(b) => b !! CONTROL
    case DoWait(_, waitFor, _, _, _) => waitFor !! CONTROL && waitFor != {}
    case DoSync(_, b, waitFor, _) => b !! CONTROL && waitFor !! CONTROL && waitFor != {}
    case DoExpire(i) => i < |g.waiting|
    case DoResume(_, _, _, _) => true
  }

  function Next(g: Group, s: Step): Group
    requires Allowed(g, s)
  {
    match s
    case DoSet(b) => AfterSetBits(g, b)
    case DoClear(b) => AfterClearBits(g, b)
    case DoWait(task, waitFor, clear, all, mayBlock) => AfterWaitBits(g, task, waitFor, clear, all, mayBlock).0
    case DoSync(task, b, waitFor, mayBlock) => AfterSync(g, task, b, waitFor, mayBlock).0
    case DoExpire(i) => AfterExpire(g, i)
    case DoResume(word, waitFor, clear, all) => AfterResume(g, word, waitFor, clear, all).0
  }

  lemma StepKeepsInv(g: Group, s: Step)
    requires Inv(g) && Allowed(g, s)
    ensures Inv(Next(g, s))
  {
    match s
    case DoSet(b) => SetKeepsInv(g, b);
    case DoClear(b) => ClearKeepsInv(g, b);
    case DoWait(task, waitFor, clear, all, mayBlock) =>
      if TestWaitCondition(g.bits, waitFor, all) {
        ClearKeepsInv(g, waitFor);
      } else {
        BlockingKeepsInv(g, task, waitFor, clear, all);
      }
    case DoSync(task, b, waitFor, mayBlock) =>
      SyncKeepsInv(g, task, b, waitFor, mayBlock);
    case DoExpire(i) =>
    case DoResume(word, waitFor, clear, all) => ClearKeepsInv(g, waitFor);
  }

  lemma SyncKeepsInv(g: Group, task: Task, b: Bits, waitFor: Bits, mayBlock: bool)
    requires Inv(g) && Allowed(g, DoSync(task, b, waitFor, mayBlock))
    ensures Inv(AfterSync(g, task, b, waitFor, mayBlock).0)
  {
    var h := AfterSetBits(g, b);
    SetKeepsInv(g, b);
    if (g.bits + b) * waitFor == waitFor {
      ClearKeepsInv(h, waitFor);
    } else {
      var i :| i in waitFor && i !in (g.bits + b) * waitFor;
      assert i !in h.bits * waitFor;
      BlockingKeepsInv(h, task, waitFor, true, true);
    }
  }

  ghost predicate IsRun(gs: seq<Group>, steps: seq<Step>) {
    && |gs| == |steps| + 1
    && forall i | 0 <= i < |steps| :: Allowed(gs[i], steps[i]) && gs[i + 1] == Next(gs[i], steps[i])
  }

  /** In every state of every run that starts with no waiters, nobody waits for bits that are
  set. */
  lemma {:induction false} NeverStranded(gs: seq<Group>, steps: seq<Step>, k: nat)
    requires IsRun(gs, steps) && gs[0].waiting == [] && gs[0].bits !! CONTROL
    requires k < |gs|
    ensures forall w | w in gs[k].waiting :: !Satisfied(w, gs[k].bits)
    ensures Inv(gs[k])
  {
    if k > 0 {
      NeverStranded(gs, steps, k - 1);
      StepKeepsInv(gs[k - 1], steps[k - 1]);
    }
  }

  /** A woken task returns bits for which its condition holds: the union of the old bits and the
  bits set, whatever has happened to the group since. */
  lemma WokenTaskSeesItsBits(g: Group, b: Bits, later: Group, w: Waiter, waitFor: Bits, clear: bool, all: bool)
    requires g.bits !! CONTROL && b !! CONTROL && waitFor !! CONTROL
    requires w in Woken(g.waiting, g.bits + b) && w.word == BlockWord(waitFor, clear, all)
    ensures AfterResume(later, Answer(g.bits + b), waitFor, clear, all) == (later, g.bits + b)
    ensures TestWaitCondition(g.bits + b, waitFor, all)
  {
    WokenAreTheSatisfied(g.waiting, g.bits + b);
    BlockWordMeaning(w.task, waitFor, clear, all);
    assert UNBLOCKED_DUE_TO_BIT_SET in CONTROL && ITEM_VALUE_IN_USE in CONTROL;
    assert Answer(g.bits + b) - CONTROL == g.bits + b;
  }

  /** A waiter that timed out is not taken for one that was woken: the word it blocked with
  reports the bits of now. */
  lemma TimedOutTaskSeesCurrentBits(later: Group, waitFor: Bits, clear: bool, all: bool)
    requires later.bits !! CONTROL && waitFor !! CONTROL
    ensures AfterResume(later, BlockWord(waitFor, clear, all), waitFor, clear, all).1 == later.bits
  {
    BlockWordMeaning(0, waitFor, clear, all);
    assert later.bits - CONTROL == later.bits;
  }

  // ----- the code -----

  /** The test inside the loop of xEventGroupSetBits, on the unpacked word. */
  predicate Matches(word: Bits, current: Bits)
    ensures Matches(word, current) <==> TestWaitCondition(current, word - CONTROL, WAIT_FOR_ALL in word)
  {
    var uxControlBits := word * CONTROL;
    var uxBitsWaitedFor := word - CONTROL;
    assert uxBitsWaitedFor * current == current * uxBitsWaitedFor;
    if WAIT_FOR_ALL !in uxControlBits then uxBitsWaitedFor * current != {}
    else uxBitsWaitedFor * current == uxBitsWaitedFor
  }

  /** One more item passed by the walk. */
  lemma PassOne(ws: seq<Waiter>, k: nat, current: Bits)
    requires k < |ws|
    ensures var w := ws[k];
            && StillWaiting(ws[..k + 1], current)
               == StillWaiting(ws[..k], current) + (if Satisfied(w, current) then [] else [w])
            && ClearMask(ws[..k + 1], current)
               == ClearMask(ws[..k], current)
                  + (if Satisfied(w, current) && ClearsOnExit(w) then w.word - CONTROL else {})
            && Answered(ws[..k + 1], current)
               == Answered(ws[..k], current)
                  + (if Satisfied(w, current) then [Waiter(w.task, Answer(current))] else [])
  {
    assert ws[..k + 1][..k] == ws[..k];
  }

  /** What the walk has done after k items of the original list `ws`: matches were handed over
  with their answers and their bits collected, the others stay before item i. */
  ghost predicate Walked(ws: seq<Waiter>, k: nat, current: Bits, s: seq<Waiter>, i: nat, clear: Bits,
                         handed: seq<Waiter>)
  {
    && k <= |ws|
    && s == StillWaiting(ws[..k], current) + ws[k..]
    && i == |StillWaiting(ws[..k], current)|
    && clear == ClearMask(ws[..k], current)
    && handed == Answered(ws[..k], current)
  }

  lemma WalkStarts(ws: seq<Waiter>, current: Bits)
    ensures Walked(ws, 0, current, ws, 0, {}, [])
  {
  }

  lemma PassMatch(ws: seq<Waiter>, k: nat, current: Bits, s: seq<Waiter>, i: nat, clear: Bits, handed: seq<Waiter>)
    requires Walked(ws, k, current, s, i, clear, handed) && i < |s| && Satisfied(s[i], current)
    ensures k < |ws|
    ensures Walked(ws, k + 1, current, s[..i] + s[i + 1..], i,
                   if ClearsOnExit(s[i]) then clear + (s[i].word - CONTROL) else clear,
                   handed + [Waiter(s[i].task, Answer(current))])
  {
    PassOne(ws, k, current);
    assert s[i + 1..] == ws[k + 1..];
  }

  lemma PassOther(ws: seq<Waiter>, k: nat, current: Bits, s: seq<Waiter>, i: nat, clear: Bits, handed: seq<Waiter>)
    requires Walked(ws, k, current, s, i, clear, handed) && i < |s| && !Satisfied(s[i], current)
    ensures k < |ws| && Walked(ws, k + 1, current, s, i + 1, clear, handed)
  {
    PassOne(ws, k, current);
  }

  lemma WalkDone(ws: seq<Waiter>, k: nat, current: Bits, s: seq<Waiter>, i: nat, clear: Bits, handed: seq<Waiter>)
    requires Walked(ws, k, current, s, i, clear, handed) && i >= |s|
    ensures s == StillWaiting(ws, current) && clear == ClearMask(ws, current) && handed == Answered(ws, current)
  {
    assert ws[..k] == ws;
  }

  class EventGroup {
    var uxEventBits: Bits
    var xTasksWaitingForBits: seq<Waiter>
    var unblocked: seq<Waiter>   // tasks handed back to the scheduler, with their answers

    function State(): Group
      reads this
    {
      Group(uxEventBits, xTasksWaitingForBits)
    }

    constructor ()
      ensures State() == Group({}, []) && unblocked == []
    {
      uxEventBits := {};
      xTasksWaitingForBits, unblocked := [], [];
    }

    /** vTaskRemoveFromUnorderedEventList: unlink the i-th waiter and hand it to the scheduler. */
    method RemoveFromUnorderedEventList(i: nat, value: Bits) returns (w: Waiter)
      requires i < |xTasksWaitingForBits|
      modifies `xTasksWaitingForBits, `unblocked
      ensures w == Waiter(old(xTasksWaitingForBits)[i].task, value + {ITEM_VALUE_IN_USE})
      ensures xTasksWaitingForBits == old(xTasksWaitingForBits)[..i] + old(xTasksWaitingForBits)[i + 1..]
      ensures unblocked == old(unblocked) + [w]
    {
      w := Waiter(xTasksWaitingForBits[i].task, value + {ITEM_VALUE_IN_USE});
      unblocked := unblocked + [w];
      xTasksWaitingForBits := xTasksWaitingForBits[..i] + xTasksWaitingForBits[i + 1..];
    }

    /** xEventGroupSetBits: walk the list once, unlinking every match. */
    method SetBits(uxBitsToSet: Bits) returns (r: Bits)
      modifies this
      ensures State() == AfterSetBits(old(State()), uxBitsToSet) && r == uxEventBits
      ensures unblocked == old(unblocked) + Answered(old(xTasksWaitingForBits), old(uxEventBits) + uxBitsToSet)
    {
      hide Walked, StillWaiting, ClearMask, Answered, Woken, TestWaitCondition;
      uxEventBits := uxEventBits + uxBitsToSet;
      var uxBitsToClear: Bits := {};
      ghost var ws, current := xTasksWaitingForBits, uxEventBits;
      ghost var handed: seq<Waiter> := [];
      var i := 0;        // the list item the walk is at
      ghost var k := 0;  // how many items of the original list it has passed
      WalkStarts(ws, current);
      while i < |xTasksWaitingForBits|
        invariant uxEventBits == current && unblocked == old(unblocked) + handed
        invariant Walked(ws, k, current, xTasksWaitingForBits, i, uxBitsToClear, handed)
        decreases |ws| - k
      {
        var w := xTasksWaitingForBits[i];
        if Matches(w.word, uxEventBits) {
          PassMatch(ws, k, current, xTasksWaitingForBits, i, uxBitsToClear, handed);
          if CLEAR_EVENTS_ON_EXIT in w.word * CONTROL {
            uxBitsToClear := uxBitsToClear + (w.word - CONTROL);
          }
          var answered := RemoveFromUnorderedEventList(i, uxEventBits + {UNBLOCKED_DUE_TO_BIT_SET});
          handed := handed + [answered];
        } else {
          PassOther(ws, k, current, xTasksWaitingForBits, i, uxBitsToClear, handed);
          i := i + 1;
        }
        k := k + 1;
      }
      WalkDone(ws, k, current, xTasksWaitingForBits, i, uxBitsToClear, handed);
      uxEventBits := uxEventBits - uxBitsToClear;
      r := uxEventBits;
    }

    /** xEventGroupClearBits. */
    method ClearBits(uxBitsToClear: Bits) returns (before: Bits)
      modifies `uxEventBits
      ensures State() == AfterClearBits(old(State()), uxBitsToClear) && before == old(uxEventBits)
    {
      before := uxEventBits;
      uxEventBits := uxEventBits - uxBitsToClear;
    }

    /** xEventGroupWaitBits, first part. */
    method WaitBits(task: Task, uxBitsToWaitFor: Bits, xClearOnExit: bool, xWaitForAllBits: bool, mayBlock: bool)
      returns (outcome: Outcome)
      modifies `uxEventBits, `xTasksWaitingForBits
      ensures (State(), outcome)
              == AfterWaitBits(old(State()), task, uxBitsToWaitFor, xClearOnExit, xWaitForAllBits, mayBlock)
    {
      var uxCurrentEventBits := uxEventBits;
      if TestWaitCondition(uxCurrentEventBits, uxBitsToWaitFor, xWaitForAllBits) {
        outcome := Returned(uxCurrentEventBits);
        if xClearOnExit {
          uxEventBits := uxEventBits - uxBitsToWaitFor;
        }
      } else if !mayBlock {
        outcome := Returned(uxCurrentEventBits);
      } else {
        var uxControlBits: Bits := {};
        if xClearOnExit {
          uxControlBits := uxControlBits + {CLEAR_EVENTS_ON_EXIT};
        }
        if xWaitForAllBits {
          uxControlBits := uxControlBits + {WAIT_FOR_ALL};
        }
        PlaceOnUnorderedEventList(task, uxBitsToWaitFor + uxControlBits);
        assert uxBitsToWaitFor + uxControlBits + {ITEM_VALUE_IN_USE}
            == BlockWord(uxBitsToWaitFor, xClearOnExit, xWaitForAllBits);
        outcome := Blocked;
      }
    }

    /** vTaskPlaceOnUnorderedEventList, as far as the group is concerned. */
    method PlaceOnUnorderedEventList(task: Task, value: Bits)
      modifies `xTasksWaitingForBits
      ensures xTasksWaitingForBits == old(xTasksWaitingForBits) + [Waiter(task, value + {ITEM_VALUE_IN_USE})]
    {
      xTasksWaitingForBits := xTasksWaitingForBits + [Waiter(task, value + {ITEM_VALUE_IN_USE})];
    }

    /** xEventGroupSync, first part. */
    method Sync(task: Task, uxBitsToSet: Bits, uxBitsToWaitFor: Bits, mayBlock: bool) returns (outcome: Outcome)
      modifies this
      ensures (State(), outcome) == AfterSync(old(State()), task, uxBitsToSet, uxBitsToWaitFor, mayBlock)
      ensures unblocked == old(unblocked) + Answered(old(xTasksWaitingForBits), old(uxEventBits) + uxBitsToSet)
    {
      var uxOriginalBitValue := uxEventBits;
      var _ := SetBits(uxBitsToSet);
      if (uxOriginalBitValue + uxBitsToSet) * uxBitsToWaitFor == uxBitsToWaitFor {
        outcome := Returned(uxOriginalBitValue + uxBitsToSet);
        uxEventBits := uxEventBits - uxBitsToWaitFor;
      } else if mayBlock {
        PlaceOnUnorderedEventList(task, uxBitsToWaitFor + {CLEAR_EVENTS_ON_EXIT} + {WAIT_FOR_ALL});
        outcome := Blocked;
      } else {
        outcome := Returned(uxEventBits);
      }
    }

    /** The last part of xEventGroupWaitBits; with both options set it is also the last part of
    xEventGroupSync. */
    method Resume(word: Bits, uxBitsToWaitFor: Bits, xClearOnExit: bool, xWaitForAllBits: bool) returns (uxReturn: Bits)
      modifies `uxEventBits
      ensures (State(), uxReturn) == AfterResume(old(State()), word, uxBitsToWaitFor, xClearOnExit, xWaitForAllBits)
    {
      uxReturn := word;
      if UNBLOCKED_DUE_TO_BIT_SET !in uxReturn {
        uxReturn := uxEventBits;
        if TestWaitCondition(uxReturn, uxBitsToWaitFor, xWaitForAllBits) {
          if xClearOnExit {
            uxEventBits := uxEventBits - uxBitsToWaitFor;
          }
        }
      }
      uxReturn := uxReturn - CONTROL;
    }
  }
}
