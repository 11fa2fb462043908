/** Software timers: the daemon's two lists, wrapping expiry times, and catching up. */
module Timers {
  import opened Ticks
  import opened ListModel

  type TimerId = nat

  /** The fields of a timer: xTimerPeriodInTicks and the bits of ucStatus. */
  datatype Info = Info(period: Tick, autoReload: bool, active: bool)

  /** What a timer is about in real time: the absolute time of its next expiry, the time it was
  started, and how often its callback has run since. */
  datatype Plan = Plan(due: int, origin: int, fires: nat)

  /** pxCurrentTimerList, pxOverflowTimerList, the timers, and the absolute time of xLastTime. */
  datatype Daemon = Daemon(
    current: seq<Entry<TimerId>>, overflow: seq<Entry<TimerId>>, info: map<TimerId, Info>, plan: map<TimerId, Plan>,
    last: int)

  // ----- classification -----

  datatype Verdict = Late | ToCurrent | ToOverflow

  /** The comparisons of prvInsertTimerInActiveList. */
  function Classify(next: Tick, now: Tick, command: Tick, period: Tick): Verdict {
    if next <= now then
      if Wrap(now - command) >= period then Late else ToOverflow
    else if now < command && next >= command then Late
    else ToCurrent
  }

  /** They are right in real time: for a command less than 2^32 ticks ago the timer is late exactly
  if command time + period is not after now, and otherwise goes to the list of the epoch of its
  true expiry. */
  lemma ClassifyIsExact(command: int, period: Tick, now: int)
    requires 0 <= now - command < TICK_MODULUS && period > 0
    ensures Classify(Wrap(command + period), Wrap(now), Wrap(command), period)
         == if command + period <= now then Late
            else if Epoch(command + period) == Epoch(now) then ToCurrent
            else ToOverflow
    ensures command + period > now ==> Epoch(now) <= Epoch(command + period) <= Epoch(now) + 1
  {
    WrapOfDifference(now, command);
    EpochAfter(command, period);
    EpochAfter(command, now - command);
    WrapEpoch(command);
    WrapEpoch(now);
    WrapEpoch(command + period);
  }

  // ----- catching up -----

  /** How many periods fit between an expiry and now. */
  function Missed(expiry: int, period: Tick, now: int): nat
    requires period > 0 && expiry <= now
  {
    (now - expiry) / period
  }

  /** The n-th expiry after `expiry` of a timer that never drifts. */
  function Nth(expiry: int, period: Tick, n: int): int {
    expiry + n * period
  }

  /** The closed form: of all expiries, number missed + 1 is the first after now. */
  lemma FirstAfter(expiry: int, period: Tick, now: int)
    requires period > 0 && expiry <= now
    ensures var k := Missed(expiry, period, now);
            Nth(expiry, period, k) <= now < Nth(expiry, period, k + 1)
  {
    var q := (now - expiry) / period;
    assert (now - expiry) == q * period + (now - expiry) % period;
    assert (q + 1) * period == q * period + period;
  }

  lemma NthZero(expiry: int, period: Tick)
    ensures Nth(expiry, period, 0) == expiry
  {
  }

  lemma NthShifts(expiry: int, period: Tick, n: int)
    ensures Nth(expiry + period, period, n) == Nth(expiry, period, n + 1)
  {
    assert (n + 1) * period == n * period + period;
  }

  lemma MissedOneMore(expiry: int, period: Tick, now: int)
    requires period > 0 && expiry + period <= now
    ensures Missed(expiry, period, now) == 1 + Missed(expiry + period, period, now)
  {
    FirstAfter(expiry, period, now);
    FirstAfter(expiry + period, period, now);
    NthShifts(expiry, period, Missed(expiry + period, period, now));
    NthShifts(expiry, period, Missed(expiry + period, period, now) + 1);
    QuotientIsUnique(now - expiry, period, Missed(expiry, period, now), 1 + Missed(expiry + period, period, now));
  }

  lemma Product(p: int, q: int, d: int)
    requires p < q && d > 0
    ensures p * d + d <= q * d
  {
    assert (p + 1) * d <= q * d;
  }

  lemma QuotientIsUnique(x: int, d: int, p: int, q: int)
    requires d > 0 && p * d <= x < p * d + d && q * d <= x < q * d + d
    ensures p == q
  {
    if p < q {
      Product(p, q, d);
    } else if q < p {
      Product(q, p, d);
    }
  }

  // ----- the daemon's lists -----

  function Owners(s: seq<Entry<TimerId>>): (r: seq<TimerId>)
    ensures |r| == |s| && forall i | 0 <= i < |s| :: r[i] == s[i].owner
  {
    seq(|s|, i requires 0 <= i < |s| => s[i].owner)
  }

  /** uxListRemove. */
  function Removed(s: seq<Entry<TimerId>>, t: TimerId): (r: seq<Entry<TimerId>>)
    ensures |r| <= |s|
  {
    if s == [] then []
    else if s[0].owner == t then s[1..]
    else [s[0]] + Removed(s[1..], t)
  }

  function SetPlan(d: Daemon, t: TimerId, p: Plan): Daemon {
    d.(plan := d.plan[t := p])
  }

  function SetInfo(d: Daemon, t: TimerId, i: Info): Daemon {
    d.(info := d.info[t := i])
  }

  /** prvInsertTimerInActiveList at absolute time `now`, for a timer whose period starts at
  `command`; the flag says that the expiry has passed already. */
  function Insert(d: Daemon, t: TimerId, command: int, now: int): (Daemon, bool)
    requires t in d.info && t in d.plan
  {
    var period := d.info[t].period;
    var e := Entry(Wrap(command + period), t);
    var p := SetPlan(d, t, d.plan[t].(due := command + period));
    match Classify(e.value, Wrap(now), Wrap(command), period)
    case Late => (d, true)
    case ToCurrent => (p.(current := InsertSorted(d.current, e)), false)
    case ToOverflow => (p.(overflow := InsertSorted(d.overflow, e)), false)
  }

  /** The callback. */
  function Fire(d: Daemon, t: TimerId): Daemon
    requires t in d.plan
  {
    SetPlan(d, t, d.plan[t].(fires := d.plan[t].fires + 1))
  }

  /** prvReloadTimer. */
  function Reload(d: Daemon, t: TimerId, expiry: int, now: int): (r: Daemon)
    requires t in d.info && t in d.plan && d.info[t].period > 0 && 0 <= now - expiry < TICK_MODULUS
    ensures r.info == d.info && r.plan.Keys == d.plan.Keys && r.last == d.last
    decreases now - expiry
  {
    var (i, late) := Insert(d, t, expiry, now);
    ClassifyIsExact(expiry, d.info[t].period, now);
    if late then Reload(Fire(d, t), t, expiry + d.info[t].period, now) else i
  }

  /** prvProcessExpiredTimer for the head of the current list. */
  function ProcessExpired(d: Daemon, now: int): (r: Daemon)
    requires d.current != [] && HeadIsExpired(d, now)
    ensures r.info.Keys == d.info.Keys && r.plan.Keys == d.plan.Keys && r.last == d.last
  {
    var t := d.current[0].owner;
    var e := d.(current := d.current[1..]);
    var f := if d.info[t].autoReload then Reload(e, t, d.plan[t].due, now)
             else SetInfo(e, t, d.info[t].(active := false));
    Fire(f, t)
  }

  /** The head's expiry has passed, by less than 2^32 ticks. */
  predicate HeadIsExpired(d: Daemon, now: int)
    requires d.current != []
  {
    var t := d.current[0].owner;
    t in d.info && t in d.plan && d.info[t].period > 0 && 0 <= now - d.plan[t].due < TICK_MODULUS
  }

  // ----- what the daemon keeps -----

  ghost predicate Listed(s: seq<Entry<TimerId>>, t: TimerId) {
    t in Owners(s)
  }

  /** An entry shows the low 32 bits of its timer's next expiry, which is in the given epoch. */
  ghost predicate EntryFits(e: Entry<TimerId>, d: Daemon, epoch: int) {
    && e.owner in d.info && e.owner in d.plan
    && e.value == Wrap(d.plan[e.owner].due) && Epoch(d.plan[e.owner].due) == epoch
  }

  ghost predicate ListFits(s: seq<Entry<TimerId>>, d: Daemon, epoch: int) {
    Sorted(s) && NoDuplicates(Owners(s)) && forall i | 0 <= i < |s| :: EntryFits(s[i], d, epoch)
  }

  /** A timer is active exactly if it is listed; and an active timer's next expiry is a whole number
  of periods, one more than it has fired, after it was started. */
  ghost predicate TimerFits(d: Daemon, t: TimerId) {
    && t in d.info && t in d.plan
    && (d.info[t].active <==> Listed(d.current, t) || Listed(d.overflow, t))
    && (d.info[t].active ==> d.plan[t].due == Nth(d.plan[t].origin, d.info[t].period, d.plan[t].fires + 1))
  }

  ghost predicate Unlisted(d: Daemon, t: TimerId) {
    !Listed(d.current, t) && !Listed(d.overflow, t)
  }

  /** The daemon's invariant, but for timers it has taken off its lists to work on. */
  ghost predicate GoodBut(d: Daemon, loose: set<TimerId>) {
    && ListFits(d.current, d, Epoch(d.last)) && ListFits(d.overflow, d, Epoch(d.last) + 1)
    && d.plan.Keys == d.info.Keys
    && (forall t | t in d.info :: d.info[t].period > 0)
    && (forall t | t in d.info && t !in loose :: TimerFits(d, t))
    && (forall t | t in loose :: Unlisted(d, t))
  }

  /** The invariant at the head of the daemon's loop. */
  ghost predicate Good(d: Daemon) {
    GoodBut(d, {})
  }

  // ----- list handling -----

  lemma TailOwners(o: seq<TimerId>)
    requires NoDuplicates(o) && o != []
    ensures NoDuplicates(o[1..]) && o[0] !in o[1..] && forall t | t != o[0] :: t in o[1..] <==> t in o
  {
    NoDuplicatesRemove(o, 0);
    assert o[..0] + o[1..] == o[1..];
    assert o == [o[0]] + o[1..];
  }

  lemma TailFits(s: seq<Entry<TimerId>>, d: Daemon, epoch: int)
    requires ListFits(s, d, epoch) && s != []
    ensures ListFits(s[1..], d, epoch) && !Listed(s[1..], s[0].owner)
    ensures forall t | t != s[0].owner :: Listed(s[1..], t) <==> Listed(s, t)
  {
    hide NoDuplicates;
    TailOwners(Owners(s));
    assert Owners(s[1..]) == Owners(s)[1..];
  }

  lemma {:induction false} RemovedFits(s: seq<Entry<TimerId>>, d: Daemon, epoch: int, t: TimerId)
    requires ListFits(s, d, epoch)
    ensures ListFits(Removed(s, t), d, epoch) && !Listed(Removed(s, t), t)
    ensures forall u | u != t :: Listed(Removed(s, t), u) <==> Listed(s, u)
    ensures forall i | 0 <= i < |Removed(s, t)| :: Removed(s, t)[i] in s
  {
    if s != [] {
      TailFits(s, d, epoch);
      if s[0].owner != t {
        RemovedFits(s[1..], d, epoch, t);
        ConsFits(s, Removed(s[1..], t), d, epoch);
      }
    }
  }

  lemma ConsFits(s: seq<Entry<TimerId>>, r: seq<Entry<TimerId>>, d: Daemon, epoch: int)
    requires ListFits(s, d, epoch) && s != [] && ListFits(r, d, epoch) && !Listed(r, s[0].owner)
    requires forall i | 0 <= i < |r| :: r[i] in s[1..]
    ensures ListFits([s[0]] + r, d, epoch)
    ensures forall u :: Listed([s[0]] + r, u) <==> u == s[0].owner || Listed(r, u)
    ensures forall i | 0 <= i < |[s[0]] + r| :: ([s[0]] + r)[i] in s
  {
    var c := [s[0]] + r;
    assert Owners(c) == [s[0].owner] + Owners(r);
    NoDuplicatesInsert(Owners(r), 0, s[0].owner);
    assert Owners(r)[..0] + [s[0].owner] + Owners(r)[0..] == Owners(c);
  }

  lemma InsertedOwners(o: seq<TimerId>, p: nat, t: TimerId)
    requires NoDuplicates(o) && p <= |o| && t !in o
    ensures NoDuplicates(o[..p] + [t] + o[p..]) && forall u :: u in o[..p] + [t] + o[p..] <==> u == t || u in o
  {
    NoDuplicatesInsert(o, p, t);
    assert o == o[..p] + o[p..];
  }

  lemma InsertedFits(s: seq<Entry<TimerId>>, d: Daemon, epoch: int, e: Entry<TimerId>)
    requires ListFits(s, d, epoch) && !Listed(s, e.owner) && EntryFits(e, d, epoch)
    ensures ListFits(InsertSorted(s, e), d, epoch)
    ensures forall u :: Listed(InsertSorted(s, e), u) <==> u == e.owner || Listed(s, u)
  {
    hide NoDuplicates, Sorted;
    var p := UpperBound(Values(s), e.value);
    InsertSortedKeepsSorted(s, e);
    InsertedOwners(Owners(s), p, e.owner);
    assert Owners(InsertSorted(s, e)) == Owners(s)[..p] + [e.owner] + Owners(s)[p..];
  }

  /** A list is not concerned by changes of timers that are not in it. */
  lemma SameFits(s: seq<Entry<TimerId>>, d: Daemon, r: Daemon, epoch: int, t: TimerId)
    requires ListFits(s, d, epoch) && !Listed(s, t)
    requires d.info.Keys <= r.info.Keys && d.plan.Keys <= r.plan.Keys
    requires forall u | u in d.plan && u != t :: r.plan[u] == d.plan[u]
    ensures ListFits(s, r, epoch)
  {
    forall i | 0 <= i < |s|
      ensures EntryFits(s[i], r, epoch)
    {
      assert Owners(s)[i] == s[i].owner;
    }
  }

  // ----- inserting and reloading -----

  /** From d to r only timer t moved. */
  ghost predicate OnlyMoved(d: Daemon, r: Daemon, t: TimerId) {
    && r.last == d.last && r.info.Keys == d.info.Keys && r.plan.Keys == d.plan.Keys
    && (forall u | u in d.info && u != t :: r.info[u] == d.info[u])
    && (forall u | u in d.plan && u != t :: r.plan[u] == d.plan[u])
    && (forall u | u != t :: (Listed(r.current, u) <==> Listed(d.current, u))
                             && (Listed(r.overflow, u) <==> Listed(d.overflow, u)))
  }

  /** Timer t was put on the list of the epoch of its expiry `due`, and nothing else changed. */
  ghost predicate Placed(d: Daemon, r: Daemon, t: TimerId, due: int, fires: nat, now: int) {
    && ListFits(r.current, r, Epoch(r.last)) && ListFits(r.overflow, r, Epoch(r.last) + 1)
    && OnlyMoved(d, r, t) && r.info == d.info
    && t in d.plan && r.plan[t] == Plan(due, d.plan[t].origin, fires)
    && (Listed(r.current, t) || Listed(r.overflow, t))
    && (Epoch(due) > Epoch(now) ==> r.current == d.current)
  }

  lemma PlaceInCurrent(d: Daemon, loose: set<TimerId>, t: TimerId, due: int, now: int)
    requires GoodBut(d, loose) && t in loose && t in d.info && Epoch(due) == Epoch(now) == Epoch(d.last)
    ensures var r := SetPlan(d, t, d.plan[t].(due := due)).(current := InsertSorted(d.current, Entry(Wrap(due), t)));
            Placed(d, r, t, due, d.plan[t].fires, now)
  {
    hide Sorted, NoDuplicates;
    var p := SetPlan(d, t, d.plan[t].(due := due));
    var e := Entry(Wrap(due), t);
    var r := p.(current := InsertSorted(d.current, e));
    SameFits(d.current, d, p, Epoch(d.last), t);
    SameFits(d.overflow, d, p, Epoch(d.last) + 1, t);
    InsertedFits(d.current, p, Epoch(d.last), e);
    SameEntries(r.current, p, r, Epoch(d.last));
    SameEntries(d.overflow, p, r, Epoch(d.last) + 1);
    hide InsertSorted, ListFits, Owners;
  }

  lemma PlaceInOverflow(d: Daemon, loose: set<TimerId>, t: TimerId, due: int, now: int)
    requires GoodBut(d, loose) && t in loose && t in d.info
    requires Epoch(now) == Epoch(d.last) && Epoch(due) == Epoch(d.last) + 1
    ensures var r := SetPlan(d, t, d.plan[t].(due := due)).(overflow := InsertSorted(d.overflow, Entry(Wrap(due), t)));
            Placed(d, r, t, due, d.plan[t].fires, now)
  {
    hide Sorted, NoDuplicates;
    var p := SetPlan(d, t, d.plan[t].(due := due));
    var e := Entry(Wrap(due), t);
    var r := p.(overflow := InsertSorted(d.overflow, e));
    SameFits(d.current, d, p, Epoch(d.last), t);
    SameFits(d.overflow, d, p, Epoch(d.last) + 1, t);
    InsertedFits(d.overflow, p, Epoch(d.last) + 1, e);
    SameEntries(r.overflow, p, r, Epoch(d.last) + 1);
    SameEntries(d.current, p, r, Epoch(d.last));
    hide InsertSorted, ListFits, Owners;
  }

  lemma LooseTimer(d: Daemon, loose: set<TimerId>, t: TimerId)
    requires GoodBut(d, loose) && t in loose && t in d.info
    ensures t in d.plan && d.info[t].period > 0
  {
  }

  /** Where an insertion that is not late puts the timer. */
  lemma InsertPlaces(d: Daemon, loose: set<TimerId>, t: TimerId, command: int, now: int)
    requires GoodBut(d, loose) && t in loose && t in d.info && t in d.plan
    requires 0 <= now - command < TICK_MODULUS && Epoch(now) == Epoch(d.last)
    ensures var (r, late) := Insert(d, t, command, now);
            && (late <==> command + d.info[t].period <= now)
            && (late ==> r == d)
            && (!late ==> Placed(d, r, t, command + d.info[t].period, d.plan[t].fires, now))
  {
    hide Classify, Placed, Wrap, Epoch, GoodBut;
    LooseTimer(d, loose, t);
    ClassifyIsExact(command, d.info[t].period, now);
    var due := command + d.info[t].period;
    if due > now {
      if Epoch(due) == Epoch(now) {
        PlaceInCurrent(d, loose, t, due, now);
      } else {
        PlaceInOverflow(d, loose, t, due, now);
      }
    }
  }

  lemma SameEntries(s: seq<Entry<TimerId>>, d: Daemon, r: Daemon, epoch: int)
    requires ListFits(s, d, epoch) && r.info.Keys == d.info.Keys && r.plan == d.plan
    ensures ListFits(s, r, epoch)
  {
    forall i | 0 <= i < |s|
      ensures EntryFits(s[i], r, epoch)
    {
      assert EntryFits(s[i], d, epoch);
    }
  }

  lemma FireKeeps(d: Daemon, loose: set<TimerId>, t: TimerId)
    requires GoodBut(d, loose) && t in loose && t in d.plan
    ensures GoodBut(Fire(d, t), loose) && OnlyMoved(d, Fire(d, t), t)
  {
    var r := Fire(d, t);
    SameFits(d.current, d, r, Epoch(d.last), t);
    SameFits(d.overflow, d, r, Epoch(d.last) + 1, t);
  }

  lemma PlacedAfterFire(d: Daemon, r: Daemon, t: TimerId, due: int, fires: nat, now: int)
    requires t in d.plan && Placed(Fire(d, t), r, t, due, fires, now)
    ensures Placed(d, r, t, due, fires, now)
  {
    hide ListFits;
  }

  /** Reloading runs the callback once for every further period that has passed and schedules the
  timer for the first one that has not: no period is lost and none drifts. */
  lemma {:induction false} ReloadIsExact(d: Daemon, loose: set<TimerId>, t: TimerId, expiry: int, now: int)
    requires GoodBut(d, loose) && t in loose && t in d.info && t in d.plan && d.info[t].period > 0
    requires 0 <= now - expiry < TICK_MODULUS && Epoch(now) == Epoch(d.last)
    ensures var k := Missed(expiry, d.info[t].period, now);
            && Placed(d, Reload(d, t, expiry, now), t, Nth(expiry, d.info[t].period, k + 1), d.plan[t].fires + k, now)
            && Nth(expiry, d.info[t].period, k) <= now < Nth(expiry, d.info[t].period, k + 1)
    decreases now - expiry
  {
    hide Wrap, Epoch, Missed, Nth, GoodBut, Placed, Insert;
    var period := d.info[t].period;
    InsertPlaces(d, loose, t, expiry, now);
    FirstAfter(expiry, period, now);
    if expiry + period <= now {
      FireKeeps(d, loose, t);
      ReloadIsExact(Fire(d, t), loose, t, expiry + period, now);
      MissedOneMore(expiry, period, now);
      var k := Missed(expiry, period, now);
      NthShifts(expiry, period, k - 1);
      NthShifts(expiry, period, k);
      PlacedAfterFire(d, Reload(d, t, expiry, now), t, Nth(expiry, period, k + 1), d.plan[t].fires + k, now);
    } else {
      NoneMissed(expiry, period, now);
    }
  }

  lemma NoneMissed(expiry: int, period: Tick, now: int)
    requires period > 0 && expiry <= now < expiry + period
    ensures Missed(expiry, period, now) == 0 && Nth(expiry, period, 1) == expiry + period
  {
    FirstAfter(expiry, period, now);
    QuotientIsUnique(now - expiry, period, Missed(expiry, period, now), 0);
  }

  // ----- expiry -----

  lemma NthAdds(origin: int, period: Tick, m: int, n: int)
    ensures Nth(Nth(origin, period, m), period, n) == Nth(origin, period, m + n)
  {
    assert (m + n) * period == m * period + n * period;
  }

  /** The head is off the list while it is worked on. */
  lemma TakeHead(d: Daemon, loose: set<TimerId>)
    requires GoodBut(d, loose) && d.current != []
    ensures var t := d.current[0].owner;
            && t in d.info && t in d.plan && t !in loose && TimerFits(d, t) && d.info[t].active
            && d.current[0].value == Wrap(d.plan[t].due) && Epoch(d.plan[t].due) == Epoch(d.last)
            && GoodBut(d.(current := d.current[1..]), loose + {t})
  {
    var t := d.current[0].owner;
    var r := d.(current := d.current[1..]);
    assert EntryFits(d.current[0], d, Epoch(d.last));
    assert Owners(d.current)[0] == t;
    TailFits(d.current, d, Epoch(d.last));
    SameEntries(d.current[1..], d, r, Epoch(d.last));
    SameEntries(d.overflow, d, r, Epoch(d.last) + 1);
    ListsApart(d, loose, t);
    forall u | u in r.info && u !in loose + {t}
      ensures TimerFits(r, u)
    {
      assert TimerFits(d, u);
    }
  }

  /** No timer is in both lists: their epochs differ. */
  lemma ListsApart(d: Daemon, loose: set<TimerId>, t: TimerId)
    requires GoodBut(d, loose) && Listed(d.current, t)
    ensures !Listed(d.overflow, t) && t !in loose
  {
    ListedEpoch(d.current, d, Epoch(d.last), t);
    if Listed(d.overflow, t) {
      ListedEpoch(d.overflow, d, Epoch(d.last) + 1, t);
    }
  }

  lemma ListedEpoch(s: seq<Entry<TimerId>>, d: Daemon, epoch: int, t: TimerId)
    requires ListFits(s, d, epoch) && Listed(s, t)
    ensures t in d.info && t in d.plan && Epoch(d.plan[t].due) == epoch
  {
    var i :| 0 <= i < |s| && Owners(s)[i] == t;
    assert EntryFits(s[i], d, epoch);
  }

  /** A timer that was worked on goes back among the others. */
  lemma PutBack(d: Daemon, r: Daemon, loose: set<TimerId>, t: TimerId)
    requires GoodBut(d, loose + {t}) && t !in loose && OnlyMoved(d, r, t) && t in d.info
    requires ListFits(r.current, r, Epoch(r.last)) && ListFits(r.overflow, r, Epoch(r.last) + 1)
    requires r.info[t].period > 0 && TimerFits(r, t)
    ensures GoodBut(r, loose)
  {
    hide ListFits, Listed;
    forall u | u in r.info && u !in loose
      ensures TimerFits(r, u)
    {
      if u != t {
        assert TimerFits(d, u);
      }
    }
    forall u | u in loose
      ensures Unlisted(r, u)
    {
      assert Unlisted(d, u);
    }
  }

  /** What processing an expired timer does: the callback has run once for every expiry up to now,
  and the timer is scheduled for the first expiry after now, or inactive. */
  ghost predicate Processed(d: Daemon, r: Daemon, t: TimerId, now: int)
    requires t in d.info && t in d.plan && t in r.plan && t in r.info && d.info[t].period > 0 && d.plan[t].due <= now
    requires d.current != []
  {
    var k := if d.info[t].autoReload then Missed(d.plan[t].due, d.info[t].period, now) else 0;
    && r.plan[t].fires == d.plan[t].fires + 1 + k
    && r.info[t] == d.info[t].(active := d.info[t].autoReload)
    && (d.info[t].autoReload ==> r.plan[t].due == Nth(d.plan[t].due, d.info[t].period, k + 1) > now)
    && OnlyMoved(d, r, t)
    && (!d.info[t].autoReload || Epoch(r.plan[t].due) > Epoch(now) ==> r.current == d.current[1..])
  }

  lemma FireFits(s: seq<Entry<TimerId>>, d: Daemon, t: TimerId, epoch: int)
    requires ListFits(s, d, epoch) && t in d.plan
    ensures ListFits(s, Fire(d, t), epoch)
  {
    forall i | 0 <= i < |s|
      ensures EntryFits(s[i], Fire(d, t), epoch)
    {
      assert EntryFits(s[i], d, epoch);
    }
  }

  lemma AutoReloadKeeps(d: Daemon, loose: set<TimerId>, now: int)
    requires GoodBut(d, loose) && d.current != [] && HeadIsExpired(d, now) && Epoch(now) == Epoch(d.last)
    requires d.info[d.current[0].owner].autoReload
    ensures GoodBut(ProcessExpired(d, now), loose)
    ensures Processed(d, ProcessExpired(d, now), d.current[0].owner, now)
  {
    TakeHead(d, loose);
    TailMoves(d, loose);
    hide GoodBut, OnlyMoved, Processed;
    ReloadHead(d, d.(current := d.current[1..]), loose, d.current[0].owner, now);
  }

  lemma ReloadHead(d: Daemon, e: Daemon, loose: set<TimerId>, t: TimerId, now: int)
    requires t in d.info && t in d.plan && d.info[t].autoReload && d.info[t].active && d.info[t].period > 0
    requires 0 <= now - d.plan[t].due < TICK_MODULUS && Epoch(now) == Epoch(d.last)
    requires GoodBut(e, loose + {t}) && t !in loose
    requires OnlyMoved(d, e, t) && e.info == d.info && e.plan == d.plan && e.last == d.last
    requires d.current != [] && e.current == d.current[1..]
    requires d.plan[t].due == Nth(d.plan[t].origin, d.info[t].period, d.plan[t].fires + 1)
    ensures var f := Reload(e, t, d.plan[t].due, now);
            t in f.plan && t in f.info && GoodBut(Fire(f, t), loose) && Processed(d, Fire(f, t), t, now)
  {
    hide GoodBut, Wrap, Epoch, Missed, Nth, Reload, Placed, OnlyMoved, Processed, Fire;
    var k := Missed(d.plan[t].due, d.info[t].period, now);
    var f := Reload(e, t, d.plan[t].due, now);
    ReloadIsExact(e, loose + {t}, t, d.plan[t].due, now);
    ReloadedIsProcessed(d, e, f, t, now, k);
    NthAdds(d.plan[t].origin, d.info[t].period, d.plan[t].fires + 1, k + 1);
    ReloadedIsGood(e, f, loose, t, Nth(d.plan[t].due, d.info[t].period, k + 1), d.plan[t].fires + k, now);
  }

  lemma ReloadedIsProcessed(d: Daemon, e: Daemon, f: Daemon, t: TimerId, now: int, k: nat)
    requires t in d.info && t in d.plan && d.info[t].autoReload && d.info[t].active
    requires d.info[t].period > 0 && d.plan[t].due <= now
    requires k == Missed(d.plan[t].due, d.info[t].period, now)
    requires OnlyMoved(d, e, t) && e.info == d.info && e.plan == d.plan && d.current != [] && e.current == d.current[1..]
    requires Placed(e, f, t, Nth(d.plan[t].due, d.info[t].period, k + 1), d.plan[t].fires + k, now)
    requires now < Nth(d.plan[t].due, d.info[t].period, k + 1)
    ensures t in f.plan && t in f.info && Processed(d, Fire(f, t), t, now)
  {
    hide Missed, Nth, ListFits, OnlyMoved;
    assert OnlyMoved(e, f, t);
    MovedKeys(e, f, t);
    FireMoves(e, f, t);
    MovedTwice(d, e, Fire(f, t), t);
  }

  lemma MovedKeys(d: Daemon, r: Daemon, t: TimerId)
    requires OnlyMoved(d, r, t)
    ensures r.info.Keys == d.info.Keys && r.plan.Keys == d.plan.Keys && r.last == d.last
  {
  }

  lemma ReloadedIsGood(e: Daemon, f: Daemon, loose: set<TimerId>, t: TimerId, due: int, fires: nat, now: int)
    requires GoodBut(e, loose + {t}) && t !in loose && t in e.info && e.info[t].period > 0 && e.info[t].active
    requires Placed(e, f, t, due, fires, now)
    requires due == Nth(e.plan[t].origin, e.info[t].period, fires + 2)
    ensures t in f.plan && GoodBut(Fire(f, t), loose)
  {
    hide Wrap, Epoch, Nth, ListFits, Listed;
    FireFits(f.current, f, t, Epoch(f.last));
    FireFits(f.overflow, f, t, Epoch(f.last) + 1);
    FireMoves(e, f, t);
    PutBack(e, Fire(f, t), loose, t);
  }

  lemma FireMoves(e: Daemon, f: Daemon, t: TimerId)
    requires OnlyMoved(e, f, t) && t in f.plan
    ensures OnlyMoved(e, Fire(f, t), t)
  {
  }

  lemma MovedTwice(d: Daemon, e: Daemon, f: Daemon, t: TimerId)
    requires OnlyMoved(d, e, t) && OnlyMoved(e, f, t)
    ensures OnlyMoved(d, f, t)
  {
  }

  lemma TailMoves(d: Daemon, loose: set<TimerId>)
    requires GoodBut(d, loose) && d.current != []
    ensures OnlyMoved(d, d.(current := d.current[1..]), d.current[0].owner)
  {
    TailFits(d.current, d, Epoch(d.last));
  }

  lemma OneShotKeeps(d: Daemon, loose: set<TimerId>, now: int)
    requires GoodBut(d, loose) && d.current != [] && HeadIsExpired(d, now) && Epoch(now) == Epoch(d.last)
    requires !d.info[d.current[0].owner].autoReload
    ensures GoodBut(ProcessExpired(d, now), loose)
    ensures Processed(d, ProcessExpired(d, now), d.current[0].owner, now)
  {
    var t := d.current[0].owner;
    var e := d.(current := d.current[1..]);
    TakeHead(d, loose);
    TailMoves(d, loose);
    var f := SetInfo(e, t, d.info[t].(active := false));
    LooseLists(e, f, loose, t);
    hide Wrap, Epoch, Missed, Nth, ListFits, Listed;
    FireFits(f.current, f, t, Epoch(f.last));
    FireFits(f.overflow, f, t, Epoch(f.last) + 1);
    PutBack(e, Fire(f, t), loose, t);
  }

  lemma LooseLists(e: Daemon, f: Daemon, loose: set<TimerId>, t: TimerId)
    requires GoodBut(e, loose + {t}) && f == e.(info := f.info) && f.info.Keys == e.info.Keys
    ensures ListFits(f.current, f, Epoch(f.last)) && ListFits(f.overflow, f, Epoch(f.last) + 1)
    ensures Unlisted(f, t)
  {
    SameEntries(e.current, e, f, Epoch(e.last));
    SameEntries(e.overflow, e, f, Epoch(e.last) + 1);
  }

  lemma ProcessExpiredKeeps(d: Daemon, loose: set<TimerId>, now: int)
    requires GoodBut(d, loose) && d.current != [] && HeadIsExpired(d, now) && Epoch(now) == Epoch(d.last)
    ensures GoodBut(ProcessExpired(d, now), loose)
    ensures Processed(d, ProcessExpired(d, now), d.current[0].owner, now)
  {
    TakeHead(d, loose);
    var t := d.current[0].owner;
    if d.info[t].autoReload {
      AutoReloadKeeps(d, loose, now);
    } else {
      OneShotKeeps(d, loose, now);
    }
  }

  // ----- switching the lists -----

  /** The last tick before the count wraps, which prvSwitchTimerLists passes as the time. */
  function EndOfEpoch(x: int): int {
    (Epoch(x) + 1) * TICK_MODULUS - 1
  }

  lemma EndOfEpochFacts(x: int, e: int)
    ensures Epoch(EndOfEpoch(x)) == Epoch(x) && Wrap(EndOfEpoch(x)) == MAX_DELAY
    ensures Epoch(e) == Epoch(x) ==> 0 <= EndOfEpoch(x) - e < TICK_MODULUS
    ensures e > EndOfEpoch(x) ==> Epoch(e) > Epoch(x)
  {
  }

  lemma HeadExpiresInEpoch(d: Daemon, loose: set<TimerId>)
    requires GoodBut(d, loose) && d.current != []
    ensures HeadIsExpired(d, EndOfEpoch(d.last)) && Epoch(EndOfEpoch(d.last)) == Epoch(d.last)
  {
    TakeHead(d, loose);
    EndOfEpochFacts(d.last, d.plan[d.current[0].owner].due);
  }

  /** The loop of prvSwitchTimerLists terminates: a timer reloaded with this time goes to the
  overflow list, never back to the list being drained. */
  lemma DrainShrinks(d: Daemon, loose: set<TimerId>)
    requires GoodBut(d, loose) && d.current != []
    ensures HeadIsExpired(d, EndOfEpoch(d.last))
    ensures var r := ProcessExpired(d, EndOfEpoch(d.last)); GoodBut(r, loose) && r.current == d.current[1..]
  {
    var end := EndOfEpoch(d.last);
    HeadExpiresInEpoch(d, loose);
    ProcessExpiredKeeps(d, loose, end);
    EndOfEpochFacts(d.last, ProcessExpired(d, end).plan[d.current[0].owner].due);
  }

  ghost function Drain(d: Daemon, loose: set<TimerId>): (r: Daemon)
    requires GoodBut(d, loose)
    ensures GoodBut(r, loose) && r.current == [] && r.last == d.last
    ensures r.info.Keys == d.info.Keys && r.plan.Keys == d.plan.Keys
    decreases |d.current|
  {
    if d.current == [] then d
    else
      DrainShrinks(d, loose);
      Drain(ProcessExpired(d, EndOfEpoch(d.last)), loose)
  }

  /** The daemon samples the tick count less than 2^32 ticks after it last did. */
  predicate SampleInTime(d: Daemon, now: int) {
    0 <= now - d.last < TICK_MODULUS
  }

  /** prvSampleTimeNow: a smaller value than last time means that the count has wrapped. */
  ghost function Sample(d: Daemon, loose: set<TimerId>, now: int): (r: (Daemon, bool))
    requires GoodBut(d, loose)
    ensures r.0.info.Keys == d.info.Keys && r.0.plan.Keys == d.plan.Keys
  {
    if Wrap(now) < Wrap(d.last) then
      var e := Drain(d, loose);
      (e.(current := e.overflow, overflow := e.current, last := now), true)
    else (d.(last := now), false)
  }

  lemma SampleKeeps(d: Daemon, loose: set<TimerId>, now: int)
    requires GoodBut(d, loose) && SampleInTime(d, now)
    ensures GoodBut(Sample(d, loose, now).0, loose)
    ensures Sample(d, loose, now).1 <==> Epoch(now) != Epoch(d.last)
    ensures Sample(d, loose, now).0.last == now
  {
    EpochAfter(d.last, now - d.last);
    if Wrap(now) < Wrap(d.last) {
      SwapKeeps(Drain(d, loose), loose, now);
    } else {
      LaterKeeps(d, loose, now);
    }
  }

  lemma LaterKeeps(d: Daemon, loose: set<TimerId>, now: int)
    requires GoodBut(d, loose) && Epoch(now) == Epoch(d.last)
    ensures GoodBut(d.(last := now), loose)
  {
    var r := d.(last := now);
    SameEntries(d.current, d, r, Epoch(now));
    SameEntries(d.overflow, d, r, Epoch(now) + 1);
    forall t | t in r.info && t !in loose
      ensures TimerFits(r, t)
    {
      assert TimerFits(d, t);
    }
  }

  lemma SwapKeeps(d: Daemon, loose: set<TimerId>, now: int)
    requires GoodBut(d, loose) && d.current == [] && Epoch(now) == Epoch(d.last) + 1
    ensures GoodBut(d.(current := d.overflow, overflow := d.current, last := now), loose)
  {
    var r := d.(current := d.overflow, overflow := d.current, last := now);
    SameEntries(d.overflow, d, r, Epoch(now));
    SameEntries(d.current, d, r, Epoch(now) + 1);
    hide ListFits;
    forall t | t in r.info && t !in loose
      ensures TimerFits(r, t)
    {
      assert TimerFits(d, t);
    }
    assert forall t | t in loose :: Unlisted(d, t);
  }

  // ----- the daemon's steps -----

  /** One round of the daemon without commands: prvGetNextExpireTime, then
  prvProcessTimerOrBlockTask. */
  ghost function AfterWake(d: Daemon, now: int): Daemon
    requires Good(d) && SampleInTime(d, now)
  {
    var (s, switched) := Sample(d, {}, now);
    if !switched && d.current != [] && d.current[0].value <= Wrap(now) then
      WokenHead(d, now);
      ProcessExpired(s, now)
    else s
  }

  /** Comparing the head's value with the tick count tells whether its time has come. */
  lemma WokenHead(d: Daemon, now: int)
    requires Good(d) && SampleInTime(d, now) && d.current != [] && !Sample(d, {}, now).1
    ensures Sample(d, {}, now).0 == d.(last := now)
    ensures var t := d.current[0].owner;
            && t in d.info && t in d.plan && d.info[t].period > 0
            && (d.current[0].value <= Wrap(now) <==> d.plan[t].due <= now)
            && now - d.plan[t].due < TICK_MODULUS
  {
    var t := d.current[0].owner;
    TakeHead(d, {});
    SampleKeeps(d, {}, now);
    SameEpochOrder(d.plan[t].due, now);
  }

  lemma SameEpochOrder(x: int, y: int)
    requires Epoch(x) == Epoch(y)
    ensures Wrap(x) <= Wrap(y) <==> x <= y
    ensures y - x < TICK_MODULUS
  {
  }

  datatype Command = Start(command: int) | Stop | ChangePeriod(period: Tick)

  /** The head of the list is removed from whichever list it is in. */
  function Unlist(d: Daemon, t: TimerId): Daemon {
    d.(current := Removed(d.current, t), overflow := Removed(d.overflow, t))
  }

  function Restarted(d: Daemon, t: TimerId, period: Tick, origin: int): Daemon
    requires t in d.info && t in d.plan
  {
    d.(info := d.info[t := d.info[t].(period := period, active := true)],
       plan := d.plan[t := Plan(d.plan[t].due, origin, 0)])
  }

  /** One command: prvProcessReceivedCommands after taking the timer off its list and sampling. */
  ghost function Obey(s: Daemon, t: TimerId, c: Command, now: int): Daemon
    requires GoodBut(s, {t}) && t in s.info
    requires c.Start? ==> 0 <= now - c.command < TICK_MODULUS
    requires c.ChangePeriod? ==> c.period > 0
  {
    match c
    case Stop => SetInfo(s, t, s.info[t].(active := false))
    case ChangePeriod(period) => Insert(Restarted(s, t, period, now), t, now, now).0
    case Start(command) =>
      var a := Restarted(s, t, s.info[t].period, command);
      var (i, late) := Insert(a, t, command, now);
      if !late then i
      else
        var expiry := command + s.info[t].period;
        ClassifyIsExact(command, s.info[t].period, now);
        Fire(if s.info[t].autoReload then Reload(a, t, expiry, now)
             else SetInfo(a, t, a.info[t].(active := false)), t)
  }

  lemma UnlistKeeps(d: Daemon, t: TimerId)
    requires Good(d) && t in d.info
    ensures GoodBut(Unlist(d, t), {t})
  {
    hide ListFits, Listed, Epoch, Wrap, Nth, Removed;
    var r := Unlist(d, t);
    RemovedFits(d.current, d, Epoch(d.last), t);
    RemovedFits(d.overflow, d, Epoch(d.last) + 1, t);
    SameEntries(r.current, d, r, Epoch(d.last));
    SameEntries(r.overflow, d, r, Epoch(d.last) + 1);
    forall u | u in r.info && u !in {t}
      ensures TimerFits(r, u)
    {
      assert TimerFits(d, u);
    }
  }

  lemma RestartKeeps(s: Daemon, t: TimerId, period: Tick, origin: int)
    requires GoodBut(s, {t}) && t in s.info && period > 0
    ensures GoodBut(Restarted(s, t, period, origin), {t})
  {
    var a := Restarted(s, t, period, origin);
    SameFits(s.current, s, a, Epoch(s.last), t);
    SameFits(s.overflow, s, a, Epoch(s.last) + 1, t);
    hide ListFits, Listed;
    forall u | u in a.info && u !in {t}
      ensures TimerFits(a, u)
    {
      assert TimerFits(s, u);
    }
    assert Unlisted(s, t);
  }

  /** A timer that was placed with no firing yet is a good one. */
  lemma PlacedIsGood(a: Daemon, i: Daemon, t: TimerId, due: int, now: int)
    requires GoodBut(a, {t}) && t in a.info && a.info[t].active && Placed(a, i, t, due, 0, now)
    requires t in a.plan && due == Nth(a.plan[t].origin, a.info[t].period, 1)
    ensures Good(i)
  {
    hide Wrap, Epoch, Nth, ListFits, Listed;
    assert {} + {t} == {t};
    PutBack(a, i, {}, t);
  }

  lemma StopKeeps(s: Daemon, t: TimerId)
    requires GoodBut(s, {t}) && t in s.info
    ensures Good(SetInfo(s, t, s.info[t].(active := false)))
  {
    var f := SetInfo(s, t, s.info[t].(active := false));
    assert {} + {t} == {t};
    LooseLists(s, f, {}, t);
    hide Wrap, Epoch, ListFits, Listed;
    PutBack(s, f, {}, t);
  }

  lemma FireKeepsGood(s: Daemon, t: TimerId)
    requires Good(s) && t in s.plan && t in s.info && !s.info[t].active
    ensures Good(Fire(s, t))
  {
    var f := Fire(s, t);
    FireFits(s.current, s, t, Epoch(s.last));
    FireFits(s.overflow, s, t, Epoch(s.last) + 1);
    hide ListFits, Listed;
    forall u | u in f.info
      ensures TimerFits(f, u)
    {
      assert TimerFits(s, u);
    }
  }

  lemma NthFirst(origin: int, period: Tick, k: int)
    ensures Nth(origin, period, 1) == origin + period
    ensures Nth(origin + period, period, k) == Nth(origin, period, k + 1)
  {
    NthShifts(origin, period, k);
  }

  lemma StartKeeps(s: Daemon, t: TimerId, command: int, now: int)
    requires GoodBut(s, {t}) && t in s.info && Epoch(now) == Epoch(s.last)
    requires 0 <= now - command < TICK_MODULUS
    ensures Good(Obey(s, t, Start(command), now))
  {
    hide Wrap, Epoch, Nth, Insert, Reload;
    var period := s.info[t].period;
    var a := Restarted(s, t, period, command);
    RestartKeeps(s, t, period, command);
    LooseTimer(a, {t}, t);
    hide GoodBut, Placed;
    InsertPlaces(a, {t}, t, command, now);
    if command + period > now {
      NthFirst(command, period, 0);
      PlacedIsGood(a, Insert(a, t, command, now).0, t, command + period, now);
    } else {
      StartedLate(a, t, command, now);
    }
  }

  lemma StartedLate(a: Daemon, t: TimerId, command: int, now: int)
    requires GoodBut(a, {t}) && t in a.info && t in a.plan && Epoch(now) == Epoch(a.last)
    requires a.info[t].period > 0 && a.info[t].active && a.plan[t].origin == command && a.plan[t].fires == 0
    requires 0 <= now - command < TICK_MODULUS && command + a.info[t].period <= now
    ensures Good(Fire(if a.info[t].autoReload then Reload(a, t, command + a.info[t].period, now)
                      else SetInfo(a, t, a.info[t].(active := false)), t))
  {
    hide Wrap, Epoch, Nth, Missed, GoodBut, Placed, Insert, Reload;
    var period := a.info[t].period;
    if a.info[t].autoReload {
      var k := Missed(command + period, period, now);
      ReloadIsExact(a, {t}, t, command + period, now);
      NthFirst(command, period, k + 1);
      assert {} + {t} == {t};
      ReloadedIsGood(a, Reload(a, t, command + period, now), {}, t, Nth(command + period, period, k + 1), k, now);
    } else {
      StopKeeps(a, t);
      FireKeepsGood(SetInfo(a, t, a.info[t].(active := false)), t);
    }
  }

  lemma ChangeKeeps(s: Daemon, t: TimerId, period: Tick, now: int)
    requires GoodBut(s, {t}) && t in s.info && Epoch(now) == Epoch(s.last) && period > 0
    ensures Good(Obey(s, t, ChangePeriod(period), now))
  {
    var a := Restarted(s, t, period, now);
    RestartKeeps(s, t, period, now);
    hide Wrap, Epoch, Nth, GoodBut, Placed, Insert;
    LooseTimer(a, {t}, t);
    InsertPlaces(a, {t}, t, now, now);
    NthFirst(now, period, 0);
    PlacedIsGood(a, Insert(a, t, now, now).0, t, now + period, now);
  }

  lemma ObeyKeeps(s: Daemon, t: TimerId, c: Command, now: int)
    requires GoodBut(s, {t}) && t in s.info && Epoch(now) == Epoch(s.last)
    requires c.Start? ==> 0 <= now - c.command < TICK_MODULUS
    requires c.ChangePeriod? ==> c.period > 0
    ensures Good(Obey(s, t, c, now))
  {
    hide GoodBut, Obey;
    match c
    case Stop => StopObeyed(s, t, now);
    case ChangePeriod(period) => ChangeKeeps(s, t, period, now);
    case Start(command) => StartKeeps(s, t, command, now);
  }

  lemma StopObeyed(s: Daemon, t: TimerId, now: int)
    requires GoodBut(s, {t}) && t in s.info
    ensures Good(Obey(s, t, Stop, now))
  {
    StopKeeps(s, t);
  }

  lemma WakeKeeps(d: Daemon, now: int)
    requires Good(d) && SampleInTime(d, now)
    ensures Good(AfterWake(d, now))
  {
    SampleKeeps(d, {}, now);
    if !Sample(d, {}, now).1 && d.current != [] && d.current[0].value <= Wrap(now) {
      WokenHead(d, now);
      ProcessExpiredKeeps(d.(last := now), {}, now);
    }
  }

  // ----- runs -----

  /** What happens between two heads of the daemon's loop: a round, a command, or another task
  creating a timer or changing its reload mode. */
  datatype Step =
    | Wake(now: int)
    | Receive(t: TimerId, c: Command, now: int)
    | Create(t: TimerId, period: Tick, autoReload: bool)
    | SetReloadMode(t: TimerId, autoReload: bool)

  predicate Allowed(d: Daemon, s: Step) {
    match s
    case Wake(now) => SampleInTime(d, now)
    case Receive(t, c, now) =>
      && t in d.info && SampleInTime(d, now)
      && (c.Start? ==> 0 <= now - c.command < TICK_MODULUS)
      && (c.ChangePeriod? ==> c.period > 0)
    case Create(t, period, _) => t !in d.info && period > 0
    case SetReloadMode(t, _) => t in d.info
  }

  ghost function Next(d: Daemon, s: Step): Daemon
    requires Good(d) && Allowed(d, s)
  {
    match s
    case Wake(now) => AfterWake(d, now)
    case Receive(t, c, now) =>
      UnlistKeeps(d, t);
      SampleKeeps(Unlist(d, t), {t}, now);
      Obey(Sample(Unlist(d, t), {t}, now).0, t, c, now)
    case Create(t, period, autoReload) => Created(d, t, period, autoReload)
    case SetReloadMode(t, autoReload) => SetInfo(d, t, d.info[t].(autoReload := autoReload))
  }

  /** prvInitialiseNewTimer: a new timer is not active. */
  function Created(d: Daemon, t: TimerId, period: Tick, autoReload: bool): Daemon {
    SetPlan(SetInfo(d, t, Info(period, autoReload, false)), t, Plan(0, 0, 0))
  }

  lemma CreateKeeps(d: Daemon, t: TimerId, period: Tick, autoReload: bool)
    requires Good(d) && t !in d.info && period > 0
    ensures Good(Created(d, t, period, autoReload))
  {
    var f := Created(d, t, period, autoReload);
    NewIsUnlisted(d, t);
    SameFits(d.current, d, f, Epoch(d.last), t);
    SameFits(d.overflow, d, f, Epoch(d.last) + 1, t);
    hide ListFits, Listed;
    forall u | u in f.info
      ensures TimerFits(f, u)
    {
      if u != t {
        assert TimerFits(d, u);
      }
    }
  }

  lemma NewIsUnlisted(d: Daemon, t: TimerId)
    requires Good(d) && t !in d.info
    ensures Unlisted(d, t)
  {
    if Listed(d.current, t) {
      ListedEpoch(d.current, d, Epoch(d.last), t);
    }
    if Listed(d.overflow, t) {
      ListedEpoch(d.overflow, d, Epoch(d.last) + 1, t);
    }
  }

  lemma ModeKeeps(d: Daemon, t: TimerId, autoReload: bool)
    requires Good(d) && t in d.info
    ensures Good(SetInfo(d, t, d.info[t].(autoReload := autoReload)))
  {
    var f := SetInfo(d, t, d.info[t].(autoReload := autoReload));
    SameEntries(d.current, d, f, Epoch(d.last));
    SameEntries(d.overflow, d, f, Epoch(d.last) + 1);
    hide ListFits, Listed;
    forall u | u in f.info
      ensures TimerFits(f, u)
    {
      assert TimerFits(d, u);
    }
  }

  lemma StepKeepsGood(d: Daemon, s: Step)
    requires Good(d) && Allowed(d, s)
    ensures Good(Next(d, s))
  {
    match s
    case Wake(now) => WakeKeeps(d, now);
    case Receive(t, c, now) =>
      UnlistKeeps(d, t);
      SampleKeeps(Unlist(d, t), {t}, now);
      ObeyKeeps(Sample(Unlist(d, t), {t}, now).0, t, c, now);
    case Create(t, period, autoReload) => CreateKeeps(d, t, period, autoReload);
    case SetReloadMode(t, autoReload) => ModeKeeps(d, t, autoReload);
  }

  /** No timer is active yet. */
  predicate Initial(d: Daemon) {
    && d.current == [] && d.overflow == [] && d.last == 0 && d.plan.Keys == d.info.Keys
    && forall t | t in d.info :: d.info[t].period > 0 && !d.info[t].active
  }

  lemma InitialIsGood(d: Daemon)
    requires Initial(d)
    ensures Good(d)
  {
    forall t | t in d.info
      ensures TimerFits(d, t)
    {
      assert Owners(d.current) == [];
    }
  }

  ghost predicate StepsTo(d: Daemon, s: Step, r: Daemon) {
    Good(d) && Allowed(d, s) && r == Next(d, s)
  }

  ghost predicate IsRun(ds: seq<Daemon>, steps: seq<Step>) {
    && |ds| == |steps| + 1 && Initial(ds[0])
    && forall i | 0 <= i < |steps| :: StepsTo(ds[i], steps[i], ds[i + 1])
  }

  /** At every head of the daemon's loop the invariant holds: both lists are sorted, each holds the
  timers of its epoch, a timer is active exactly if it is listed, and its next expiry is exactly
  `fires + 1` periods after its start, across any number of overflows. */
  lemma {:induction false} DaemonIsSound(ds: seq<Daemon>, steps: seq<Step>, n: nat)
    requires IsRun(ds, steps) && n < |ds|
    ensures Good(ds[n])
  {
    hide GoodBut, Next, Allowed, Initial;
    if n > 0 {
      DaemonIsSound(ds, steps, n - 1);
      assert StepsTo(ds[n - 1], steps[n - 1], ds[n]);
      StepKeepsGood(ds[n - 1], steps[n - 1]);
    } else {
      InitialIsGood(ds[0]);
    }
  }

  /** The invariant, spelled out for one timer. */
  lemma NoDrift(ds: seq<Daemon>, steps: seq<Step>, n: nat, t: TimerId)
    requires IsRun(ds, steps) && n < |ds| && t in ds[n].info
    ensures var d := ds[n];
            && (d.info[t].active <==> Listed(d.current, t) || Listed(d.overflow, t))
            && (d.info[t].active ==>
                  && t in d.plan
                  && d.plan[t].due == d.plan[t].origin + (d.plan[t].fires + 1) * d.info[t].period
                  && Epoch(d.plan[t].due) == (if Listed(d.current, t) then Epoch(d.last) else Epoch(d.last) + 1))
  {
    DaemonIsSound(ds, steps, n);
    var d := ds[n];
    assert TimerFits(d, t);
    if Listed(d.current, t) {
      ListedEpoch(d.current, d, Epoch(d.last), t);
    } else if Listed(d.overflow, t) {
      ListedEpoch(d.overflow, d, Epoch(d.last) + 1, t);
    }
  }

  // ----- never early -----

  /** Every callback a timer ran between d and r was for an expiry at or before `now`. */
  ghost predicate OnTime(d: Daemon, r: Daemon, t: TimerId, now: int)
    requires t in d.info && t in d.plan && t in r.plan
  {
    || r.plan[t] == d.plan[t]
    || (r.plan[t].fires > d.plan[t].fires
        && Nth(d.plan[t].due, d.info[t].period, r.plan[t].fires - d.plan[t].fires - 1) <= now)
  }

  lemma ProcessedOnTime(d: Daemon, loose: set<TimerId>, now: int, u: TimerId)
    requires GoodBut(d, loose) && d.current != [] && HeadIsExpired(d, now) && Epoch(now) == Epoch(d.last)
    requires u in d.info && u in d.plan
    ensures u in ProcessExpired(d, now).plan && OnTime(d, ProcessExpired(d, now), u, now)
    ensures u != d.current[0].owner ==>
              ProcessExpired(d, now).plan[u] == d.plan[u] && ProcessExpired(d, now).info[u] == d.info[u]
  {
    hide Wrap, Epoch, Nth, Missed, ProcessExpired, GoodBut;
    ProcessExpiredKeeps(d, loose, now);
    var t := d.current[0].owner;
    FirstAfter(d.plan[t].due, d.info[t].period, now);
    NthZero(d.plan[t].due, d.info[t].period);
  }

  /** One round of draining, as far as timer u is concerned. */
  lemma DrainOne(d: Daemon, loose: set<TimerId>, u: TimerId)
    requires GoodBut(d, loose) && d.current != [] && u in d.info && u in d.plan
    ensures HeadIsExpired(d, EndOfEpoch(d.last))
    ensures var p := ProcessExpired(d, EndOfEpoch(d.last));
            && GoodBut(p, loose) && |p.current| < |d.current|
            && Drain(d, loose) == Drain(p, loose)
            && u in p.info && u in p.plan && OnTime(d, p, u, EndOfEpoch(d.last))
            && (u == d.current[0].owner || !Listed(d.current, u) ==> !Listed(p.current, u))
            && (u != d.current[0].owner ==> p.plan[u] == d.plan[u] && p.info[u] == d.info[u])
    ensures !Listed(d.current, u) ==> u != d.current[0].owner
  {
    hide Nth, Epoch, Wrap, ProcessExpired, OnTime;
    DrainShrinks(d, loose);
    HeadExpiresInEpoch(d, loose);
    TailFits(d.current, d, Epoch(d.last));
    ProcessedOnTime(d, loose, EndOfEpoch(d.last), u);
    assert Owners(d.current)[0] == d.current[0].owner;
  }

  lemma {:induction false} DrainOnTime(d: Daemon, loose: set<TimerId>, u: TimerId)
    requires GoodBut(d, loose) && u in d.info && u in d.plan
    ensures u in Drain(d, loose).plan && OnTime(d, Drain(d, loose), u, EndOfEpoch(d.last))
    ensures !Listed(d.current, u) ==> Drain(d, loose).plan[u] == d.plan[u]
    decreases |d.current|
  {
    hide Epoch, Wrap, EndOfEpoch, GoodBut, Nth, ProcessExpired;
    if d.current == [] {
      return;
    }
    DrainOne(d, loose, u);
    hide Listed, Drain, HeadIsExpired;
    DrainOnTime(ProcessExpired(d, EndOfEpoch(d.last)), loose, u);
  }

  lemma EpochHasEnded(x: int, now: int)
    requires x <= now && Epoch(now) != Epoch(x)
    ensures EndOfEpoch(x) < now
  {
  }

  /** No timer fires early: each callback the daemon runs in a round is for an expiry that the tick
  count has reached. */
  lemma NeverEarly(d: Daemon, now: int, u: TimerId)
    requires Good(d) && SampleInTime(d, now) && u in d.info && u in d.plan
    ensures u in AfterWake(d, now).plan && OnTime(d, AfterWake(d, now), u, now)
  {
    hide Wrap, Epoch, EndOfEpoch, Nth, GoodBut, Drain, ProcessExpired;
    SampleKeeps(d, {}, now);
    if Sample(d, {}, now).1 {
      DrainOnTime(d, {}, u);
      EpochHasEnded(d.last, now);
    } else if d.current != [] && d.current[0].value <= Wrap(now) {
      WokenHead(d, now);
      ProcessedOnTime(d.(last := now), {}, now, u);
    }
  }

  // ----- what rounds and commands achieve -----

  /** The head of the current list is due, and the count has not wrapped: then the round runs its
  callback once for every expiry up to now and schedules it for the first one after now, or makes it
  inactive; and every other timer is as it was. */
  lemma RoundProcessesTheHead(d: Daemon, now: int)
    requires Good(d) && SampleInTime(d, now) && Epoch(now) == Epoch(d.last) && d.current != []
    ensures var (t, r) := (d.current[0].owner, AfterWake(d, now));
            && t in d.info && t in d.plan && d.info[t].period > 0 && t in r.info && t in r.plan
            && (d.plan[t].due <= now ==> Processed(d.(last := now), r, t, now))
            && (d.plan[t].due > now ==> r == d.(last := now))
  {
    hide Wrap, Epoch, GoodBut, ProcessExpired, Processed;
    SampleKeeps(d, {}, now);
    WokenHead(d, now);
    if d.plan[d.current[0].owner].due <= now {
      ProcessExpiredKeeps(d.(last := now), {}, now);
    }
  }

  /** From d to r timer u ran its callback for every expiry up to `end`, and is scheduled for the first
  one after, or inactive. */
  ghost predicate CaughtUp(d: Daemon, r: Daemon, u: TimerId, end: int)
    requires u in d.info && u in d.plan && u in r.info && u in r.plan && d.info[u].period > 0 && d.plan[u].due <= end
  {
    var k := if d.info[u].autoReload then Missed(d.plan[u].due, d.info[u].period, end) else 0;
    && r.plan[u].fires == d.plan[u].fires + 1 + k
    && r.info[u] == d.info[u].(active := d.info[u].autoReload)
    && (d.info[u].autoReload ==> r.plan[u].due == Nth(d.plan[u].due, d.info[u].period, k + 1) > end)
  }

  ghost predicate SameTimer(d: Daemon, r: Daemon, u: TimerId) {
    && u in d.info && u in d.plan && u in r.info && u in r.plan
    && r.info[u] == d.info[u] && r.plan[u] == d.plan[u]
  }

  lemma ListedIsDue(d: Daemon, loose: set<TimerId>, u: TimerId)
    requires GoodBut(d, loose) && Listed(d.current, u)
    ensures u in d.info && u in d.plan && d.info[u].period > 0 && d.plan[u].due <= EndOfEpoch(d.last)
  {
    ListedEpoch(d.current, d, Epoch(d.last), u);
    EndOfEpochFacts(d.last, d.plan[u].due);
  }

  /** Draining the current list catches up with every timer on it, and with no other. */
  lemma {:induction false} DrainCatchesUp(d: Daemon, loose: set<TimerId>, u: TimerId)
    requires GoodBut(d, loose) && u in d.info && u in d.plan
    ensures var r := Drain(d, loose);
            && u in r.info && u in r.plan
            && (!Listed(d.current, u) ==> SameTimer(d, r, u))
            && (Listed(d.current, u) ==>
                  && d.info[u].period > 0 && d.plan[u].due <= EndOfEpoch(d.last)
                  && CaughtUp(d, r, u, EndOfEpoch(d.last)))
    decreases |d.current|
  {
    hide Epoch, Wrap, EndOfEpoch, GoodBut, Nth, ProcessExpired, Missed;
    if d.current == [] {
      assert Owners(d.current) == [];
      return;
    }
    DrainOne(d, loose, u);
    DrainProcesses(d, loose, u);
    var p := ProcessExpired(d, EndOfEpoch(d.last));
    hide Listed, Drain, HeadIsExpired;
    DrainCatchesUp(p, loose, u);
    if Listed(d.current, u) {
      ListedIsDue(d, loose, u);
    }
  }

  /** One round of draining: the head is caught up with and leaves the list, the others stay. */
  lemma DrainProcesses(d: Daemon, loose: set<TimerId>, u: TimerId)
    requires GoodBut(d, loose) && d.current != [] && u in d.info && u in d.plan
    ensures HeadIsExpired(d, EndOfEpoch(d.last))
    ensures var (p, t) := (ProcessExpired(d, EndOfEpoch(d.last)), d.current[0].owner);
            && u in p.info && u in p.plan && p.last == d.last && Listed(d.current, t)
            && (u != t ==> SameTimer(d, p, u) && (Listed(p.current, u) <==> Listed(d.current, u)))
            && (u == t ==>
                  && !Listed(p.current, u) && d.info[u].period > 0 && d.plan[u].due <= EndOfEpoch(d.last)
                  && CaughtUp(d, p, u, EndOfEpoch(d.last)))
  {
    hide Nth, Epoch, Wrap, ProcessExpired, Missed;
    DrainShrinks(d, loose);
    HeadExpiresInEpoch(d, loose);
    ProcessExpiredKeeps(d, loose, EndOfEpoch(d.last));
    TailOwners(Owners(d.current));
    assert Owners(d.current[1..]) == Owners(d.current)[1..];
    assert Owners(d.current)[0] == d.current[0].owner;
  }

  /** When the count has wrapped, the round catches up with every timer of the old epoch to its end, and
  leaves the others as they were. */
  lemma RoundCatchesUp(d: Daemon, now: int, u: TimerId)
    requires Good(d) && SampleInTime(d, now) && Epoch(now) != Epoch(d.last) && u in d.info && u in d.plan
    ensures var r := AfterWake(d, now);
            && u in r.info && u in r.plan
            && (!Listed(d.current, u) ==> SameTimer(d, r, u))
            && (Listed(d.current, u) ==>
                  && d.info[u].period > 0 && d.plan[u].due <= EndOfEpoch(d.last) < now
                  && CaughtUp(d, r, u, EndOfEpoch(d.last)))
  {
    SampleKeeps(d, {}, now);
    DrainCatchesUp(d, {}, u);
    EndOfEpochFacts(d.last, now);
    hide GoodBut, Drain, Listed, Nth, Missed;
  }

  /** If the count has not wrapped and the head is not due, no active timer is. */
  lemma NothingIsDue(d: Daemon, now: int, t: TimerId)
    requires Good(d) && SampleInTime(d, now) && Epoch(now) == Epoch(d.last) && t in d.info && d.info[t].active
    requires d.current == [] || d.current[0].value > Wrap(now)
    ensures t in d.plan && d.plan[t].due > now
  {
    assert TimerFits(d, t);
    if Listed(d.current, t) {
      var i :| 0 <= i < |d.current| && Owners(d.current)[i] == t;
      ListedEpoch(d.current, d, Epoch(d.last), t);
      assert EntryFits(d.current[i], d, Epoch(d.last));
      assert Sorted(d.current) && d.current[0].value <= d.current[i].value;
      SameEpochOrder(d.plan[t].due, now);
    } else {
      ListedEpoch(d.overflow, d, Epoch(d.last) + 1, t);
      LaterEpoch(d.plan[t].due, now);
    }
  }

  lemma LaterEpoch(x: int, y: int)
    requires Epoch(x) > Epoch(y)
    ensures x > y
  {
  }

  /** What a command does to its timer. */
  ghost predicate Obeyed(s: Daemon, r: Daemon, t: TimerId, c: Command, now: int)
    requires t in s.info && t in s.plan && t in r.info && t in r.plan && s.info[t].period > 0
  {
    var (was, info, plan) := (s.info[t], r.info[t], r.plan[t]);
    match c
    case Stop => info == was.(active := false) && plan == s.plan[t]
    case ChangePeriod(period) => info == was.(period := period, active := true) && plan == Plan(now + period, now, 0)
    case Start(command) =>
      var e := command + was.period;
      if e > now then info == was.(active := true) && plan == Plan(e, command, 0)
      else if was.autoReload then
        var k := Missed(e, was.period, now);
        info == was.(active := true) && plan == Plan(Nth(e, was.period, k + 1), command, k + 1) && plan.due > now
      else info == was.(active := false) && plan.fires == 1
  }

  /** Stopping makes the timer inactive; changing the period starts it now with the new one; starting
  schedules it one period after the command, or, if that has passed, runs its callback for every expiry
  up to now, once for a one-shot.  No other timer changes. */
  lemma ObeyMeans(s: Daemon, t: TimerId, c: Command, now: int)
    requires GoodBut(s, {t}) && t in s.info && Epoch(now) == Epoch(s.last)
    requires c.Start? ==> 0 <= now - c.command < TICK_MODULUS
    requires c.ChangePeriod? ==> c.period > 0
    ensures var r := Obey(s, t, c, now);
            && t in s.plan && s.info[t].period > 0 && OnlyMoved(s, r, t) && t in r.info && t in r.plan
            && Obeyed(s, r, t, c, now)
  {
    LooseTimer(s, {t}, t);
    match c
    case Stop =>
    case ChangePeriod(period) => ChangeMeans(s, t, period, now);
    case Start(command) => StartMeans(s, t, command, now);
  }

  lemma RestartMoves(s: Daemon, t: TimerId, period: Tick, origin: int)
    requires t in s.info && t in s.plan
    ensures OnlyMoved(s, Restarted(s, t, period, origin), t)
  {
  }

  lemma ChangeMeans(s: Daemon, t: TimerId, period: Tick, now: int)
    requires GoodBut(s, {t}) && t in s.info && t in s.plan && Epoch(now) == Epoch(s.last) && period > 0 && s.info[t].period > 0
    ensures var r := Obey(s, t, ChangePeriod(period), now);
            OnlyMoved(s, r, t) && t in r.info && t in r.plan && Obeyed(s, r, t, ChangePeriod(period), now)
  {
    var a := Restarted(s, t, period, now);
    RestartKeeps(s, t, period, now);
    RestartMoves(s, t, period, now);
    hide Wrap, Epoch, Nth, GoodBut, Insert, ListFits, Listed;
    InsertPlaces(a, {t}, t, now, now);
    MovedTwice(s, a, Insert(a, t, now, now).0, t);
  }

  lemma StartMeans(s: Daemon, t: TimerId, command: int, now: int)
    requires GoodBut(s, {t}) && t in s.info && t in s.plan && Epoch(now) == Epoch(s.last) && s.info[t].period > 0
    requires 0 <= now - command < TICK_MODULUS
    ensures var r := Obey(s, t, Start(command), now);
            OnlyMoved(s, r, t) && t in r.info && t in r.plan && Obeyed(s, r, t, Start(command), now)
  {
    hide Wrap, Epoch, Nth, Missed, GoodBut, Insert, Reload, OnlyMoved, Placed;
    var a := Restarted(s, t, s.info[t].period, command);
    RestartKeeps(s, t, s.info[t].period, command);
    RestartMoves(s, t, s.info[t].period, command);
    InsertPlaces(a, {t}, t, command, now);
    if command + s.info[t].period > now {
      PlacedMeans(a, Insert(a, t, command, now).0, t, command + s.info[t].period, 0, now);
      MovedTwice(s, a, Insert(a, t, command, now).0, t);
    } else if s.info[t].autoReload {
      LateReload(a, t, command, now);
      MovedTwice(s, a, Fire(Reload(a, t, command + s.info[t].period, now), t), t);
    } else {
      LateOnce(a, t);
      MovedTwice(s, a, Fire(SetInfo(a, t, a.info[t].(active := false)), t), t);
    }
  }

  lemma PlacedMeans(a: Daemon, r: Daemon, t: TimerId, due: int, fires: nat, now: int)
    requires Placed(a, r, t, due, fires, now)
    ensures OnlyMoved(a, r, t) && r.info == a.info && t in a.plan && t in r.plan && r.plan[t] == Plan(due, a.plan[t].origin, fires)
  {
    hide ListFits, Listed, Epoch;
  }

  lemma LateReload(a: Daemon, t: TimerId, command: int, now: int)
    requires GoodBut(a, {t}) && t in a.info && t in a.plan && Epoch(now) == Epoch(a.last) && a.info[t].period > 0
    requires a.plan[t].fires == 0 && 0 <= now - command < TICK_MODULUS && command + a.info[t].period <= now
    ensures var (e, p) := (command + a.info[t].period, a.info[t].period);
            var (k, r) := (Missed(e, p, now), Fire(Reload(a, t, e, now), t));
            && OnlyMoved(a, r, t) && r.info == a.info && t in r.plan
            && r.plan[t] == Plan(Nth(e, p, k + 1), a.plan[t].origin, k + 1) && Nth(e, p, k + 1) > now
  {
    hide Wrap, Epoch, Nth, Missed, GoodBut, Insert, Reload, OnlyMoved, Placed;
    var e := command + a.info[t].period;
    ReloadIsExact(a, {t}, t, e, now);
    var (k, f) := (Missed(e, a.info[t].period, now), Reload(a, t, e, now));
    PlacedMeans(a, f, t, Nth(e, a.info[t].period, k + 1), k, now);
    FireMoves(a, f, t);
  }

  lemma LateOnce(a: Daemon, t: TimerId)
    requires t in a.info && t in a.plan
    ensures OnlyMoved(a, Fire(SetInfo(a, t, a.info[t].(active := false)), t), t)
  {
    var f := SetInfo(a, t, a.info[t].(active := false));
    FireMoves(a, f, t);
  }

  /** Before a command is obeyed its timer is taken off whichever list it is on, and no other. */
  lemma UnlistMeans(d: Daemon, t: TimerId)
    requires Good(d) && t in d.info
    ensures var r := Unlist(d, t); r == d.(current := r.current, overflow := r.overflow) && Unlisted(r, t) && OnlyMoved(d, r, t)
  {
    RemovedFits(d.current, d, Epoch(d.last), t);
    RemovedFits(d.overflow, d, Epoch(d.last) + 1, t);
  }
}
