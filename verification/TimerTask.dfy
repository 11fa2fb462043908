/** The timer service task's code, proved to do what module Timers says.  Times are 32-bit here; the
ghost arguments are the absolute times they stand for. */
module TimerTask {
  import opened Ticks
  import opened ListModel
  import opened Timers

  class TimerService {
    var pxCurrentTimerList: seq<Entry<TimerId>>
    var pxOverflowTimerList: seq<Entry<TimerId>>
    var timers: map<TimerId, Info>
    var xLastTime: Tick
    ghost var plan: map<TimerId, Plan>
    ghost var last: int

    ghost function State(): Daemon
      reads this
    {
      Daemon(pxCurrentTimerList, pxOverflowTimerList, timers, plan, last)
    }

    constructor ()
      ensures State() == Daemon([], [], map[], map[], 0) && xLastTime == Wrap(last) && Initial(State())
    {
      pxCurrentTimerList, pxOverflowTimerList := [], [];
      timers, plan := map[], map[];
      xLastTime, last := 0, 0;
    }

    /** prvInsertTimerInActiveList. */
    method InsertTimerInActiveList(t: TimerId, xNextExpiryTime: Tick, xTimeNow: Tick, xCommandTime: Tick,
                                   ghost command: int, ghost now: int)
      returns (xProcessTimerNow: bool)
      requires t in timers && t in plan
      requires xTimeNow == Wrap(now) && xCommandTime == Wrap(command)
      requires xNextExpiryTime == Wrap(command + timers[t].period)
      modifies `pxCurrentTimerList, `pxOverflowTimerList, `plan
      ensures (State(), xProcessTimerNow) == Insert(old(State()), t, command, now)
    {
      xProcessTimerNow := false;
      ghost var due := command + timers[t].period;
      if xNextExpiryTime <= xTimeNow {
        if Wrap(xTimeNow - xCommandTime) >= timers[t].period {
          xProcessTimerNow := true;
        } else {
          plan := plan[t := plan[t].(due := due)];
          pxOverflowTimerList := InsertSorted(pxOverflowTimerList, Entry(xNextExpiryTime, t));
        }
      } else {
        if xTimeNow < xCommandTime && xNextExpiryTime >= xCommandTime {
          xProcessTimerNow := true;
        } else {
          plan := plan[t := plan[t].(due := due)];
          pxCurrentTimerList := InsertSorted(pxCurrentTimerList, Entry(xNextExpiryTime, t));
        }
      }
    }

    /** traceTIMER_EXPIRED and the call of pxCallbackFunction. */
    ghost method Callback(t: TimerId)
      requires t in plan
      modifies `plan
      ensures State() == Fire(old(State()), t)
    {
      plan := plan[t := plan[t].(fires := plan[t].fires + 1)];
    }

    /** prvReloadTimer. */
    method ReloadTimer(t: TimerId, expired: Tick, xTimeNow: Tick, ghost expiry: int, ghost now: int)
      requires t in timers && t in plan && timers[t].period > 0
      requires expired == Wrap(expiry) && xTimeNow == Wrap(now) && 0 <= now - expiry < TICK_MODULUS
      modifies `pxCurrentTimerList, `pxOverflowTimerList, `plan
      ensures State() == Reload(old(State()), t, expiry, now)
    {
      hide Wrap, Insert, Reload;
      var xExpiredTime := expired;
      ghost var e := expiry;
      ReloadStep(State(), t, e, now);
      WrapAdd(e, timers[t].period);
      var late := InsertTimerInActiveList(t, Wrap(xExpiredTime + timers[t].period), xTimeNow, xExpiredTime, e, now);
      while late
        invariant t in plan && timers == old(timers) && xExpiredTime == Wrap(e) && expiry <= e
        invariant late ==> e + timers[t].period <= now
        invariant (if late then Reload(Fire(State(), t), t, e + timers[t].period, now) else State())
               == Reload(old(State()), t, expiry, now)
        decreases late, now - e
      {
        WrapAdd(e, timers[t].period);
        xExpiredTime := Wrap(xExpiredTime + timers[t].period);
        e := e + timers[t].period;
        Callback(t);
        ReloadStep(State(), t, e, now);
        WrapAdd(e, timers[t].period);
        late := InsertTimerInActiveList(t, Wrap(xExpiredTime + timers[t].period), xTimeNow, xExpiredTime, e, now);
      }
    }

    static lemma ReloadStep(d: Daemon, t: TimerId, e: int, now: int)
      requires t in d.info && t in d.plan && d.info[t].period > 0 && 0 <= now - e < TICK_MODULUS
      ensures var (i, late) := Insert(d, t, e, now);
              && (late <==> e + d.info[t].period <= now) && (late ==> i == d) && t in i.plan
              && Reload(d, t, e, now) == if late then Reload(Fire(d, t), t, e + d.info[t].period, now) else i
    {
      ClassifyIsExact(e, d.info[t].period, now);
    }

    /** prvProcessExpiredTimer. */
    method ProcessExpiredTimer(xNextExpireTime: Tick, xTimeNow: Tick, ghost now: int)
      requires pxCurrentTimerList != [] && HeadIsExpired(State(), now) && xTimeNow == Wrap(now)
      requires xNextExpireTime == Wrap(plan[pxCurrentTimerList[0].owner].due)
      modifies `pxCurrentTimerList, `pxOverflowTimerList, `plan, `timers
      ensures State() == ProcessExpired(old(State()), now)
    {
      hide Wrap;
      var pxTimer := pxCurrentTimerList[0].owner;
      pxCurrentTimerList := pxCurrentTimerList[1..];
      if timers[pxTimer].autoReload {
        ReloadTimer(pxTimer, xNextExpireTime, xTimeNow, plan[pxTimer].due, now);
      } else {
        timers := timers[pxTimer := timers[pxTimer].(active := false)];
      }
      Callback(pxTimer);
    }

    /** prvSwitchTimerLists. */
    method SwitchTimerLists(ghost loose: set<TimerId>)
      requires GoodBut(State(), loose)
      modifies `pxCurrentTimerList, `pxOverflowTimerList, `plan, `timers
      ensures var e := Drain(old(State()), loose); State() == e.(current := e.overflow, overflow := e.current)
    {
      hide Wrap, Epoch, EndOfEpoch, GoodBut, ProcessExpired;
      while pxCurrentTimerList != []
        invariant GoodBut(State(), loose) && Drain(State(), loose) == Drain(old(State()), loose)
        decreases |pxCurrentTimerList|
      {
        HeadExpiresInEpoch(State(), loose);
        TakeHead(State(), loose);
        EndOfEpochFacts(last, 0);
        DrainShrinks(State(), loose);
        var xNextExpireTime := pxCurrentTimerList[0].value;
        ProcessExpiredTimer(xNextExpireTime, MAX_DELAY, EndOfEpoch(last));
      }
      var pxTemp := pxCurrentTimerList;
      pxCurrentTimerList := pxOverflowTimerList;
      pxOverflowTimerList := pxTemp;
    }

    /** prvSampleTimeNow, given the tick count. */
    method SampleTimeNow(xTimeNow: Tick, ghost loose: set<TimerId>, ghost now: int) returns (switched: bool)
      requires GoodBut(State(), loose) && xLastTime == Wrap(last) && xTimeNow == Wrap(now)
      modifies this
      ensures (State(), switched) == Sample(old(State()), loose, now) && xLastTime == Wrap(last) && last == now
    {
      hide Wrap, Epoch, GoodBut, Drain;
      switched := xTimeNow < xLastTime;
      if switched {
        SwitchTimerLists(loose);
      }
      xLastTime := xTimeNow;
      last := now;
    }

    /** prvGetNextExpireTime, then prvProcessTimerOrBlockTask.  Without a timer to process the task
    blocks: until the next expiry, or else until the count next wraps, or for ever if no timer is
    active. */
    method ProcessTimerOrBlockTask(xTimeNow: Tick, ghost now: int) returns (blocks: bool, ticks: Tick, forever: bool)
      requires Good(State()) && xLastTime == Wrap(last) && xTimeNow == Wrap(now) && SampleInTime(State(), now)
      modifies this
      ensures State() == AfterWake(old(State()), now) && xLastTime == Wrap(last)
      ensures blocks <==> && Epoch(now) == Epoch(old(last))
                          && (old(pxCurrentTimerList) == [] || old(pxCurrentTimerList)[0].value > xTimeNow)
      ensures blocks ==> forall t | t in timers && timers[t].active :: t in plan && plan[t].due > now
      ensures blocks && pxCurrentTimerList != [] ==>
                && !forever && pxCurrentTimerList[0].owner in plan
                && now + ticks == plan[pxCurrentTimerList[0].owner].due > now
      ensures blocks && pxCurrentTimerList == [] ==> Wrap(now + ticks) == 0 && forever == (pxOverflowTimerList == [])
    {
      hide Wrap, Epoch, GoodBut, ProcessExpired;
      blocks, ticks, forever := false, 0, false;
      var xListWasEmpty := pxCurrentTimerList == [];
      var xNextExpireTime := if xListWasEmpty then 0 else pxCurrentTimerList[0].value;
      ghost var d := State();
      if !xListWasEmpty {
        TakeHead(d, {});
      }
      SampleKeeps(d, {}, now);
      var switched := SampleTimeNow(xTimeNow, {}, now);
      if !switched {
        if !xListWasEmpty && xNextExpireTime <= xTimeNow {
          WokenHead(d, now);
          ProcessExpiredTimer(xNextExpireTime, xTimeNow, now);
        } else {
          if xListWasEmpty {
            xListWasEmpty := pxOverflowTimerList == [];
            ToWrap(now);
          } else {
            WokenHead(d, now);
            UntilDue(plan[pxCurrentTimerList[0].owner].due, now);
          }
          forall t | t in timers && timers[t].active
            ensures t in plan && plan[t].due > now
          {
            NothingIsDue(d, now, t);
          }
          blocks, ticks, forever := true, Wrap(xNextExpireTime - xTimeNow), xListWasEmpty;
        }
      }
    }

    static lemma ToWrap(now: int)
      ensures Wrap(now + Wrap(0 - Wrap(now))) == 0
    {
    }

    static lemma UntilDue(due: int, now: int)
      requires Epoch(due) == Epoch(now) && due > now
      ensures now + Wrap(Wrap(due) - Wrap(now)) == due
    {
    }

    /** prvInitialiseNewTimer. */
    method InitialiseNewTimer(t: TimerId, xTimerPeriodInTicks: Tick, xAutoReload: bool)
      requires t !in timers && xTimerPeriodInTicks > 0
      modifies `timers, `plan
      ensures State() == Created(old(State()), t, xTimerPeriodInTicks, xAutoReload)
    {
      timers := timers[t := Info(xTimerPeriodInTicks, xAutoReload, false)];
      plan := plan[t := Plan(0, 0, 0)];
    }

    // ----- commands -----

    method RemoveFromLists(t: TimerId)
      modifies `pxCurrentTimerList, `pxOverflowTimerList
      ensures State() == Unlist(old(State()), t)
    {
      pxCurrentTimerList := Removed(pxCurrentTimerList, t);
      pxOverflowTimerList := Removed(pxOverflowTimerList, t);
    }

    /** tmrCOMMAND_START and tmrCOMMAND_RESET. */
    method StartTimer(t: TimerId, xMessageValue: Tick, xTimeNow: Tick, ghost command: int, ghost now: int)
      requires GoodBut(State(), {t}) && t in timers && xTimeNow == Wrap(now) && xMessageValue == Wrap(command)
      requires 0 <= now - command < TICK_MODULUS
      modifies `pxCurrentTimerList, `pxOverflowTimerList, `plan, `timers
      ensures State() == Obey(old(State()), t, Start(command), now)
    {
      hide Wrap, Insert, Reload;
      LooseTimer(State(), {t}, t);
      timers := timers[t := timers[t].(active := true)];
      plan := plan[t := Plan(plan[t].due, command, 0)];
      WrapAdd(command, timers[t].period);
      ReloadStep(State(), t, command, now);
      var late := InsertTimerInActiveList(t, Wrap(xMessageValue + timers[t].period), xTimeNow, xMessageValue, command, now);
      if late {
        if timers[t].autoReload {
          ReloadTimer(t, Wrap(xMessageValue + timers[t].period), xTimeNow, command + timers[t].period, now);
        } else {
          timers := timers[t := timers[t].(active := false)];
        }
        Callback(t);
      }
    }

    /** One timer command in prvProcessReceivedCommands. */
    method ProcessCommand(t: TimerId, c: Command, xTimeNow: Tick, ghost now: int)
      requires Good(State()) && xLastTime == Wrap(last) && xTimeNow == Wrap(now)
      requires Allowed(State(), Receive(t, c, now))
      modifies this
      ensures State() == Next(old(State()), Receive(t, c, now)) && xLastTime == Wrap(last)
    {
      hide Wrap, Epoch, GoodBut, Drain;
      UnlistKeeps(State(), t);
      RemoveFromLists(t);
      SampleKeeps(State(), {t}, now);
      var _ := SampleTimeNow(xTimeNow, {t}, now);
      LooseTimer(State(), {t}, t);
      match c {
        case Start(command) =>
          StartTimer(t, Wrap(command), xTimeNow, command, now);
        case Stop =>
          timers := timers[t := timers[t].(active := false)];
        case ChangePeriod(period) =>
          timers := timers[t := timers[t].(period := period, active := true)];
          plan := plan[t := Plan(plan[t].due, now, 0)];
          WrapAdd(now, period);
          var _ := InsertTimerInActiveList(t, Wrap(xTimeNow + period), xTimeNow, xTimeNow, now, now);
      }
    }
  }
}
