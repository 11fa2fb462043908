/** How a task waits on a stream buffer, and how it is woken. */
module Handshake {
  /// The same protocol runs both ways.  A reader waits for bytes: it needs one, and the writer
  /// notifies it once the trigger level is reached.  A writer waits for free space: it needs the
  /// space for its data, and the reader notifies it after every read, as if with trigger level zero.
  /// `amount` is what is waited for; only the waiting task itself takes any of it away.

  /** The waiting task: elsewhere; registered but not yet in xTaskNotifyWait; blocked there; past
  it, by a notification or a time-out; or about to clear its registration. */
  datatype Waiter = Away | Registered | Blocked | Past | Clearing

  /** The other task: elsewhere; having added to the amount; having seen that the trigger level is
  reached, about to run sbSEND_COMPLETED or sbRECEIVE_COMPLETED. */
  datatype Supplier = Idle | Added | Completing

  /** `registered` is xTaskWaitingToReceive or xTaskWaitingToSend; `notified` is the notification
  state of the waiting task; `failed` is set by the assertion that nobody is registered yet. */
  datatype System = System(amount: nat, need: nat, trigger: nat, registered: bool, notified: bool,
                           waiter: Waiter, supplier: Supplier, failed: bool)

  datatype Step =
    | Register(need: nat)
    | EnterWait
    | LeaveWait
    | TimeOut
    | Clear
    | Take(n: nat)
    | Add(n: nat)
    | Check
    | Complete

  predicate Enabled(s: System, step: Step) {
    && !s.failed
    && match step
       case Register(_) => s.waiter == Away
       case EnterWait => s.waiter == Registered
       case LeaveWait => s.waiter == Past
       case TimeOut => s.waiter == Blocked
       case Clear => s.waiter == Clearing
       case Take(n) => s.waiter == Away && n <= s.amount
       case Add(_) => s.supplier == Idle
       case Check => s.supplier == Added
       case Complete => s.supplier == Completing
  }

  function Next(s: System, step: Step): System
    requires Enabled(s, step)
  {
    match step
    case Register(need) =>
      // one critical section: look, clear the notification state, register
      if s.amount >= need then s
      else if s.registered then s.(failed := true)
      else s.(need := need, notified := false, registered := true, waiter := Registered)
    case EnterWait => s.(waiter := if s.notified then Past else Blocked)
    case LeaveWait => s.(notified := false, waiter := Clearing)
    case TimeOut => s.(waiter := Past)
    case Clear => s.(registered := false, waiter := Away)
    case Take(n) => s.(amount := s.amount - n)
    case Add(n) => s.(amount := s.amount + n, supplier := Added)
    case Check => s.(supplier := if s.amount >= s.trigger then Completing else Idle)
    case Complete =>
      // the scheduler is suspended: the waiting task does not run in between
      if s.registered then
        s.(notified := true, registered := false, supplier := Idle,
           waiter := if s.waiter == Blocked then Past else s.waiter)
      else s.(supplier := Idle)
  }

  /** A task that waits and was not notified is registered, and too little is there or the other
  task is about to look. */
  predicate Inv(s: System) {
    && !s.failed
    && (s.waiter == Away ==> !s.registered)
    && (s.waiter == Blocked ==> !s.notified)
    && ((s.waiter == Registered || s.waiter == Blocked) && !s.notified ==>
          s.registered && (s.amount < s.need || s.amount < s.trigger || s.supplier != Idle))
  }

  lemma StepKeepsInv(s: System, step: Step)
    requires Inv(s) && Enabled(s, step)
    ensures Inv(Next(s, step))
  {
  }

  /** The waiting task registers exactly if there is less than it needs, and then waits with its
  notification state cleared; entering the wait it blocks exactly if it was not notified since. */
  lemma RegistersIff(s: System, need: nat)
    requires Inv(s)
    ensures Enabled(s, Register(need)) ==>
              var r := Next(s, Register(need));
              if s.amount >= need then r == s
              else r == s.(need := need, waiter := Registered, registered := true, notified := false)
    ensures Enabled(s, EnterWait) ==>
              Next(s, EnterWait) == s.(waiter := if s.notified then Past else Blocked)
  {
  }

  /** A supply that reaches the trigger level ends the wait, and leaves the task unregistered; one that
  does not leaves it blocked. */
  lemma SupplyWakes(s: System, n: nat)
    requires Inv(s) && s.waiter == Blocked && s.registered && Enabled(s, Add(n))
    ensures var a := Next(s, Add(n));
            && a.amount == s.amount + n && Enabled(a, Check)
            && (if s.amount + n >= s.trigger then
                  Enabled(Next(a, Check), Complete)
                  && Next(Next(a, Check), Complete) == s.(amount := s.amount + n, waiter := Past, registered := false, notified := true)
                else Next(a, Check) == s.(amount := s.amount + n))
  {
  }

  /** Only a supply that was seen to reach the trigger level, or a time-out, ends a wait. */
  lemma OnlySupplyWakes(s: System, step: Step)
    requires Inv(s) && Enabled(s, step) && s.waiter == Blocked && Next(s, step).waiter != Blocked
    ensures step.TimeOut? || (step.Complete? && s.supplier == Completing && s.registered)
    ensures Next(s, step).waiter == Past
  {
  }

  ghost predicate StepsTo(s: System, step: Step, r: System) {
    Enabled(s, step) && r == Next(s, step)
  }

  ghost predicate IsRun(ss: seq<System>, steps: seq<Step>) {
    && |ss| == |steps| + 1
    && ss[0].waiter == Away && ss[0].supplier == Idle && !ss[0].registered && !ss[0].failed
    && forall i | 0 <= i < |steps| :: StepsTo(ss[i], steps[i], ss[i + 1])
  }

  /** No wake-up is lost: whenever the waiting task is blocked and the other task is not in the
  middle of its operation, there is less than the task needs or less than the trigger level.  And
  the assertion that nobody is registered twice never fails. */
  lemma {:induction false} NoWakeupIsLost(ss: seq<System>, steps: seq<Step>, n: nat)
    requires IsRun(ss, steps) && n < |ss|
    ensures Inv(ss[n])
    ensures ss[n].waiter == Blocked && ss[n].supplier == Idle ==>
              ss[n].amount < ss[n].need || ss[n].amount < ss[n].trigger
  {
    if n > 0 {
      assert StepsTo(ss[n - 1], steps[n - 1], ss[n]);
      NoWakeupIsLost(ss, steps, n - 1);
      StepKeepsInv(ss[n - 1], steps[n - 1]);
    }
  }
}
