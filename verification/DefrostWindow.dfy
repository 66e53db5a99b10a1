/** The on-time integrator of defrost.py: a level fed by two redundant sources,
    settled interval by interval. Stamps are exact instants in seconds. */
module DefrostWindowIntegrator {
  import opened Options
  import opened Reals

  /** The window's fields; `since` is when the level was last looked at. */
  datatype Fields = Fields(
    openedAt: Option<real>, secondsOn: real, events: nat, state: Option<bool>,
    since: Option<real>, observed: bool, dark: bool)

  const INITIAL := Fields(None, 0.0, 0, None, None, false, false)

  /** One settled interval. */
  datatype Observation = Observation(duty: real, events: nat, observed: bool, seconds: real)

  const NOTHING := Observation(0.0, 0, false, 0.0)

  function OpenFor(w: Fields, now: real): real {
    if w.state == Some(true) && w.since.Some? then AtLeastZero(now - w.since.value) else 0.0
  }

  function Accrued(w: Fields, now: real): Fields {
    w.(secondsOn := w.secondsOn + OpenFor(w, now), since := Some(now))
  }

  function Duty(on: real, total: real): real {
    if total <= 0.0 then 0.0 else if on >= total then 1.0 else on / total
  }

  function Peeked(w: Fields, now: real): Observation {
    if w.openedAt.None? then NOTHING
    else
      var total := AtLeastZero(now - w.openedAt.value);
      Observation(Duty(w.secondsOn + OpenFor(w, now), total), w.events, w.observed && !w.dark, total)
  }

  function Opened(w: Fields, now: real): Fields {
    if w.openedAt.None? then w.(openedAt := Some(now), since := Some(now)) else w
  }

  function Observed(w: Fields, now: real, flag: Option<bool>): Fields {
    var a := Accrued(Opened(w, now), now);
    if flag.None? then a.(state := None, dark := true)
    else a.(events := a.events + (if flag == Some(true) && a.state != Some(true) then 1 else 0),
            state := flag, observed := true)
  }

  function Restarted(w: Fields, now: real): Fields {
    Fields(Some(now), 0.0, 0, w.state, Some(now), false, false)
  }

  function Closed(w: Fields, now: real): (Fields, Observation) {
    var a := Accrued(w, now);
    (Restarted(a, now), Peeked(a, now))
  }

  // ----- the code ----------------------------------------------------------------------

  class DefrostWindow {
    var openedAt: Option<real>
    var secondsOn: real
    var events: nat
    var state: Option<bool>
    var since: Option<real>
    var observed: bool
    var dark: bool

    ghost function Abs(): Fields
      reads this
    {
      Fields(openedAt, secondsOn, events, state, since, observed, dark)
    }

    constructor ()
      ensures Abs() == INITIAL
    {
      openedAt, secondsOn, events, state := None, 0.0, 0, None;
      since, observed, dark := None, false, false;
    }

    method Accrue(now: real)
      modifies this
      ensures Abs() == Accrued(old(Abs()), now)
    {
      if state == Some(true) && since.Some? {
        var delta := now - since.value;
        if delta > 0.0 {
          secondsOn := secondsOn + delta;
        }
      }
      since := Some(now);
    }

    method Observe(now: real, flag: Option<bool>)
      modifies this
      ensures Abs() == Observed(old(Abs()), now, flag)
    {
      if openedAt.None? {
        openedAt := Some(now);
        since := Some(now);
      }
      Accrue(now);
      if flag.None? {
        state := None;
        dark := true;
        return;
      }
      if flag.value && state != Some(true) {
        events := events + 1;
      }
      state := flag;
      observed := true;
    }

    method Peek(now: real) returns (o: Observation)
      ensures o == Peeked(Abs(), now)
      ensures o == Closed(Abs(), now).1
    {
      PeekIsClose(Abs(), now);
      if openedAt.None? {
        return NOTHING;
      }
      var total := AtLeastZero(now - openedAt.value);
      var on := secondsOn;
      if state == Some(true) && since.Some? {
        on := on + AtLeastZero(now - since.value);
      }
      return Observation(Duty(on, total), events, observed && !dark, total);
    }

    method Close(now: real) returns (o: Observation)
      modifies this
      ensures Abs() == Closed(old(Abs()), now).0
      ensures o == Closed(old(Abs()), now).1 == Peeked(old(Abs()), now)
    {
      PeekIsClose(Abs(), now);
      Accrue(now);
      o := Peek(now);
      openedAt := Some(now);
      secondsOn, events := 0.0, 0;
      since := Some(now);
      observed, dark := false, false;
    }
  }

  /** Peeking answers what closing would. */
  lemma PeekIsClose(w: Fields, now: real)
    ensures Peeked(w, now) == Closed(w, now).1
  {
    var a := Accrued(w, now);
    assert OpenFor(a, now) == 0.0;
    assert a.secondsOn == w.secondsOn + OpenFor(w, now);
  }

  // ----- whole traces ---------------------------------------------------------------------

  /** A reading from either source, or a settlement. */
  datatype Event = Read(at: real, flag: Option<bool>) | Settle(at: real)

  type Trace = seq<Event>

  function Front(trace: Trace): Trace
    requires trace != []
  {
    trace[..|trace| - 1]
  }

  function Last(trace: Trace): Event
    requires trace != []
  {
    trace[|trace| - 1]
  }

  function After(trace: Trace): Fields {
    if trace == [] then INITIAL
    else match Last(trace)
      case Read(at, flag) => Observed(After(Front(trace)), at, flag)
      case Settle(at) => Closed(After(Front(trace)), at).0
  }

  /** The settled intervals of a trace, in order. */
  function Results(trace: Trace): seq<Observation> {
    if trace == [] then []
    else Results(Front(trace))
         + if Last(trace).Settle? then [Closed(After(Front(trace)), Last(trace).at).1] else []
  }

  predicate Ordered(trace: Trace) {
    forall i, j | 0 <= i < j < |trace| :: trace[i].at <= trace[j].at
  }

  // The reference: the level as a function of the trace alone.

  function Level(trace: Trace): Option<bool> {
    if trace == [] then None
    else match Last(trace)
      case Read(_, flag) => flag
      case Settle(_) => Level(Front(trace))
  }

  /** How long the level was on, from the first event to the last. */
  function OnTime(trace: Trace): real {
    if |trace| < 2 then 0.0
    else OnTime(Front(trace))
         + if Level(Front(trace)) == Some(true) then Last(trace).at - Last(Front(trace)).at else 0.0
  }

  /** How often the level rose to on. */
  function RisingEdges(trace: Trace): nat {
    if trace == [] then 0
    else RisingEdges(Front(trace))
         + if Last(trace).Read? && Last(trace).flag == Some(true) && Level(Front(trace)) != Some(true) then 1 else 0
  }

  /** Where the open interval starts: after the last settlement. */
  function IntervalStart(trace: Trace): (i: nat)
    ensures i <= |trace|
  {
    if trace == [] then 0 else if Last(trace).Settle? then |trace| else IntervalStart(Front(trace))
  }

  predicate SawLegible(trace: Trace, from: nat) {
    exists i :: from <= i < |trace| && trace[i].Read? && trace[i].flag.Some?
  }

  predicate SawUnreadable(trace: Trace, from: nat) {
    exists i :: from <= i < |trace| && trace[i].Read? && trace[i].flag.None?
  }

  function SumOn(results: seq<Observation>): real {
    if results == [] then 0.0
    else SumOn(results[..|results| - 1]) + results[|results| - 1].duty * results[|results| - 1].seconds
  }

  function SumEvents(results: seq<Observation>): nat {
    if results == [] then 0
    else SumEvents(results[..|results| - 1]) + results[|results| - 1].events
  }

  predicate Consistent(w: Fields, trace: Trace) {
    && w.state == Level(trace)
    && (trace == [] ==> w == INITIAL)
    && (trace != [] ==> w.openedAt.Some? && w.since == Some(Last(trace).at)
                        && w.openedAt.value <= Last(trace).at)
    && 0.0 <= w.secondsOn <= (if trace == [] then 0.0 else Last(trace).at - w.openedAt.value)
    && (w.observed <==> SawLegible(trace, IntervalStart(trace)))
    && (w.dark <==> SawUnreadable(trace, IntervalStart(trace)))
  }

  lemma SawMore(trace: Trace, ev: Event, from: nat)
    requires from <= |trace|
    ensures SawLegible(trace + [ev], from) <==> SawLegible(trace, from) || (ev.Read? && ev.flag.Some?)
    ensures SawUnreadable(trace + [ev], from) <==> SawUnreadable(trace, from) || (ev.Read? && ev.flag.None?)
  {
    var all := trace + [ev];
    assert all[|trace|] == ev && forall i | 0 <= i < |trace| :: all[i] == trace[i];
  }

  lemma TraceGrows(trace: Trace, ev: Event)
    ensures Front(trace + [ev]) == trace && Last(trace + [ev]) == ev
    ensures Level(trace + [ev]) == if ev.Read? then ev.flag else Level(trace)
    ensures IntervalStart(trace + [ev]) == if ev.Read? then IntervalStart(trace) else |trace| + 1
    ensures After(trace + [ev]) ==
      if ev.Read? then Observed(After(trace), ev.at, ev.flag) else Closed(After(trace), ev.at).0
  {
    hide Observed, Closed;
    assert (trace + [ev])[..|trace|] == trace;
  }

  lemma ReadConsistent(w: Fields, trace: Trace, at: real, flag: Option<bool>)
    requires Consistent(w, trace) && (trace != [] ==> Last(trace).at <= at)
    ensures Consistent(Observed(w, at, flag), trace + [Read(at, flag)])
  {
    hide Level, IntervalStart, SawLegible, SawUnreadable, After;
    TraceGrows(trace, Read(at, flag));
    SawMore(trace, Read(at, flag), IntervalStart(trace));
    NothingSeen(trace);
  }

  lemma SettleConsistent(w: Fields, trace: Trace, at: real)
    requires Consistent(w, trace) && (trace != [] ==> Last(trace).at <= at)
    ensures Consistent(Closed(w, at).0, trace + [Settle(at)])
  {
    hide Level, IntervalStart, SawLegible, SawUnreadable, After, Peeked;
    TraceGrows(trace, Settle(at));
    NothingSeen(trace + [Settle(at)]);
  }

  lemma NothingSeen(trace: Trace)
    ensures !SawLegible(trace, |trace|) && !SawUnreadable(trace, |trace|)
    ensures trace == [] ==> Level(trace) == None
  {
  }

  lemma {:induction false} AfterIsConsistent(trace: Trace)
    requires Ordered(trace)
    ensures Consistent(After(trace), trace)
  {
    hide Consistent, Observed, Closed, Level;
    if trace == [] {
      InitialConsistent();
    } else {
      var prefix, ev := Front(trace), Last(trace);
      assert trace == prefix + [ev];
      assert prefix != [] ==> Last(prefix).at <= ev.at;
      TraceGrows(prefix, ev);
      AfterIsConsistent(prefix);
      match ev
      case Read(at, flag) => ReadConsistent(After(prefix), prefix, at, flag);
      case Settle(at) => SettleConsistent(After(prefix), prefix, at);
    }
  }

  lemma InitialConsistent()
    ensures Consistent(INITIAL, [])
  {
    NothingSeen([]);
  }

  lemma DutyTimesTotal(on: real, total: real)
    requires 0.0 <= on <= total
    ensures Duty(on, total) * total == on
    ensures 0.0 <= Duty(on, total) <= 1.0 && (total == 0.0 ==> Duty(on, total) == 0.0)
  {
    if 0.0 < total && on < total {
      var q := on / total;
      assert q * total == on;
      if q > 1.0 { Stretch(q, total); }
    }
  }

  lemma Stretch(q: real, total: real)
    requires total > 0.0
    ensures q > 1.0 ==> q * total > total
  {
  }

  /** What a settlement reports, in terms of the fields it settles. */
  lemma SettledFields(trace: Trace, at: real)
    requires Ordered(trace) && (trace != [] ==> Last(trace).at <= at)
    ensures var w, o := After(trace), Closed(After(trace), at).1;
            && o.duty * o.seconds
               == (if trace == [] then 0.0
                   else w.secondsOn + if Level(trace) == Some(true) then at - Last(trace).at else 0.0)
            && 0.0 <= o.duty <= 1.0 && o.seconds >= 0.0 && (o.seconds == 0.0 ==> o.duty == 0.0)
            && o.events == w.events
            && (o.observed <==> SawLegible(trace, IntervalStart(trace)) && !SawUnreadable(trace, IntervalStart(trace)))
  {
    hide Duty, SawLegible, SawUnreadable, Ordered, IntervalStart, Level, After;
    AfterIsConsistent(trace);
    PeekIsClose(After(trace), at);
    var w := After(trace);
    if trace != [] {
      DutyTimesTotal(w.secondsOn + OpenFor(w, at), at - w.openedAt.value);
    }
  }

  lemma SumOnAppend(results: seq<Observation>, o: Observation)
    ensures SumOn(results + [o]) == SumOn(results) + o.duty * o.seconds
    ensures SumEvents(results + [o]) == SumEvents(results) + o.events
  {
    assert (results + [o])[..|results|] == results;
  }

  lemma TraceStep(prefix: Trace, ev: Event)
    ensures Front(prefix + [ev]) == prefix && Last(prefix + [ev]) == ev
    ensures OnTime(prefix + [ev]) == OnTime(prefix)
              + if prefix != [] && Level(prefix) == Some(true) then ev.at - Last(prefix).at else 0.0
    ensures RisingEdges(prefix + [ev]) == RisingEdges(prefix)
              + if ev.Read? && ev.flag == Some(true) && Level(prefix) != Some(true) then 1 else 0
  {
    var trace := prefix + [ev];
    assert Front(trace) == prefix && Last(trace) == ev;
  }

  lemma PrefixOrdered(prefix: Trace, ev: Event)
    requires Ordered(prefix + [ev])
    ensures Ordered(prefix) && (prefix != [] ==> Last(prefix).at <= ev.at)
  {
    var trace := prefix + [ev];
    assert trace[|prefix|] == ev && forall i | 0 <= i < |prefix| :: prefix[i] == trace[i];
  }

  /** Nothing is lost and nothing counted twice: the closed intervals' on-times and
      the open one's add up to the time the level was on, and their events to the
      rising edges of the whole trace. */
  lemma {:induction false} NothingIsLost(trace: Trace)
    requires Ordered(trace)
    ensures SumOn(Results(trace)) + After(trace).secondsOn == OnTime(trace)
    ensures SumEvents(Results(trace)) + After(trace).events == RisingEdges(trace)
  {
    hide SumOn, SumEvents, Ordered, Results, After, OnTime, RisingEdges;
    if trace == [] {
      EmptyTrace();
    } else {
      var prefix, ev := Front(trace), Last(trace);
      assert trace == prefix + [ev];
      PrefixOrdered(prefix, ev);
      NothingIsLost(prefix);
      OneMoreEvent(prefix, ev);
    }
  }

  lemma EmptyTrace()
    ensures SumOn(Results([])) + After([]).secondsOn == OnTime([])
    ensures SumEvents(Results([])) + After([]).events == RisingEdges([])
  {
  }

  /** One event moves both sides of the balance by the same amount. */
  lemma OneMoreEvent(prefix: Trace, ev: Event)
    requires Ordered(prefix + [ev])
    ensures var trace := prefix + [ev];
            && SumOn(Results(trace)) + After(trace).secondsOn
               == SumOn(Results(prefix)) + After(prefix).secondsOn + (OnTime(trace) - OnTime(prefix))
            && SumEvents(Results(trace)) + After(trace).events
               == SumEvents(Results(prefix)) + After(prefix).events + (RisingEdges(trace) - RisingEdges(prefix))
  {
    TraceStep(prefix, ev);
    PrefixOrdered(prefix, ev);
    AfterIsConsistent(prefix);
    if ev.Settle? {
      SettleBalances(prefix, ev.at);
    } else {
      ReadBalances(prefix, ev.at, ev.flag);
    }
  }

  lemma SettleBalances(prefix: Trace, at: real)
    requires Ordered(prefix) && (prefix != [] ==> Last(prefix).at <= at)
    ensures var trace := prefix + [Settle(at)];
            && SumOn(Results(trace)) + After(trace).secondsOn
               == SumOn(Results(prefix)) + After(prefix).secondsOn
                  + (if prefix != [] && Level(prefix) == Some(true) then at - Last(prefix).at else 0.0)
            && SumEvents(Results(trace)) + After(trace).events == SumEvents(Results(prefix)) + After(prefix).events
  {
    hide SumOn, SumEvents, Peeked, Accrued, Ordered, SawLegible, SawUnreadable, IntervalStart, Level;
    var trace := prefix + [Settle(at)];
    assert Front(trace) == prefix && Last(trace) == Settle(at);
    SettledFields(prefix, at);
    SumOnAppend(Results(prefix), Closed(After(prefix), at).1);
    if prefix == [] {
      assert After(prefix).secondsOn == 0.0;
    }
  }

  lemma ReadBalances(prefix: Trace, at: real, flag: Option<bool>)
    requires Consistent(After(prefix), prefix) && (prefix != [] ==> Last(prefix).at <= at)
    ensures var trace := prefix + [Read(at, flag)];
            && Results(trace) == Results(prefix)
            && After(trace).secondsOn == After(prefix).secondsOn
                 + (if prefix != [] && Level(prefix) == Some(true) then at - Last(prefix).at else 0.0)
            && After(trace).events == After(prefix).events
                 + if flag == Some(true) && Level(prefix) != Some(true) then 1 else 0
  {
    hide SumOn, SumEvents, SawLegible, SawUnreadable, IntervalStart, Level, Closed;
    var trace := prefix + [Read(at, flag)];
    assert Front(trace) == prefix && Last(trace) == Read(at, flag);
    assert Results(prefix) + [] == Results(prefix);
  }

  /** When the open interval of a trace began. */
  function OpenedAt(trace: Trace): Option<real> {
    if trace == [] then None
    else if IntervalStart(trace) == 0 then Some(trace[0].at) else Some(trace[IntervalStart(trace) - 1].at)
  }

  /** The fields hold what happened since the last settlement. */
  lemma {:induction false} SinceLastSettlement(trace: Trace)
    requires Ordered(trace)
    ensures var w, settled := After(trace), trace[..IntervalStart(trace)];
            && w.secondsOn == OnTime(trace) - OnTime(settled)
            && w.events == RisingEdges(trace) - RisingEdges(settled)
            && w.openedAt == OpenedAt(trace)
  {
    hide OnTime, RisingEdges, After, Level, Ordered, IntervalStart, Observed, Closed;
    if trace == [] {
      NothingSettled();
    } else {
      var prefix, ev := Front(trace), Last(trace);
      assert trace == prefix + [ev];
      TraceGrows(prefix, ev);
      if ev.Settle? {
        assert trace[..|trace|] == trace;
        JustSettled(After(prefix), ev.at);
      } else {
        PrefixOrdered(prefix, ev);
        SinceLastSettlement(prefix);
        AfterIsConsistent(prefix);
        ReadBalances(prefix, ev.at, ev.flag);
        TraceStep(prefix, ev);
        assert trace[..IntervalStart(prefix)] == prefix[..IntervalStart(prefix)];
        ReadOpens(After(prefix), ev.at, ev.flag);
        if prefix == [] { NothingSettled(); }
      }
    }
  }

  lemma NothingSettled()
    ensures After([]) == INITIAL && OnTime([]) == 0.0 && RisingEdges([]) == 0 && IntervalStart([]) == 0
  {
  }

  lemma JustSettled(w: Fields, at: real)
    ensures var n := Closed(w, at).0; n.secondsOn == 0.0 && n.events == 0 && n.openedAt == Some(at)
  {
  }

  lemma ReadOpens(w: Fields, at: real, flag: Option<bool>)
    ensures Observed(w, at, flag).openedAt == if w.openedAt.None? then Some(at) else w.openedAt
  {
  }

  /** What a settlement reports of its interval, in terms of the trace alone: its length
      since the last settlement, the time the level was on in it, its rising edges, and
      "observed" exactly with a legible and without an unreadable reading in it. */
  lemma CloseReports(trace: Trace, at: real)
    requires Ordered(trace + [Settle(at)])
    ensures var o, start := Closed(After(trace), at).1, IntervalStart(trace);
            && o.duty * o.seconds == OnTime(trace + [Settle(at)]) - OnTime(trace[..start])
            && o.events == RisingEdges(trace + [Settle(at)]) - RisingEdges(trace[..start])
            && o.seconds == (if OpenedAt(trace).Some? then at - OpenedAt(trace).value else 0.0)
            && 0.0 <= o.duty <= 1.0 && (o.seconds == 0.0 ==> o.duty == 0.0)
            && (o.observed <==> SawLegible(trace, start) && !SawUnreadable(trace, start))
  {
    hide OnTime, RisingEdges, After, Level, Ordered, IntervalStart, Duty, SawLegible, SawUnreadable;
    PrefixOrdered(trace, Settle(at));
    SettledFields(trace, at);
    SinceLastSettlement(trace);
    AfterIsConsistent(trace);
    TraceStep(trace, Settle(at));
    if trace == [] { NothingSettled(); }
  }

  // ----- redundant readings -----------------------------------------------------------------

  /** Equal but for having been seen in this interval. */
  predicate Alike(v: Fields, w: Fields) { v == w.(observed := v.observed) }

  predicate SameButSeen(a: Observation, b: Observation) { a == b.(observed := a.observed) }

  function Stepped(w: Fields, ev: Event): Fields {
    match ev
    case Read(at, flag) => Observed(w, at, flag)
    case Settle(at) => Closed(w, at).0
  }

  /** An extra reading of the level the window already holds, between two events,
      changes neither duty nor events nor length: not of a peek, not of the next
      settlement, and not of anything after it. */
  lemma ExtraReadIsInvisible(w: Fields, t: real, ev: Event, now: real)
    requires w.openedAt.Some? && w.since.Some? && w.since.value <= t <= ev.at && t <= now && w.state.Some?
    ensures var v := Observed(w, t, w.state);
            && SameButSeen(Peeked(v, now), Peeked(w, now))
            && Alike(Stepped(v, ev), Stepped(w, ev))
            && SameButSeen(Closed(v, ev.at).1, Closed(w, ev.at).1)
  {
    hide Duty;
    var v := Observed(w, t, w.state);
    assert v.secondsOn + OpenFor(v, now) == w.secondsOn + OpenFor(w, now);
    assert v.secondsOn + OpenFor(v, ev.at) == w.secondsOn + OpenFor(w, ev.at);
    PeekIsClose(v, ev.at);
    PeekIsClose(w, ev.at);
  }

  lemma AlikeStays(v: Fields, w: Fields, ev: Event)
    requires Alike(v, w)
    ensures Alike(Stepped(v, ev), Stepped(w, ev))
    ensures SameButSeen(Closed(v, ev.at).1, Closed(w, ev.at).1)
  {
    hide Duty;
  }

  predicate ResultsAlike(a: seq<Observation>, b: seq<Observation>) {
    |a| == |b| && forall i | 0 <= i < |a| :: SameButSeen(a[i], b[i])
  }

  /** So a redundant reading inserted anywhere in a trace leaves every settled
      interval's duty, events and length as they were. */
  lemma {:induction false} ExtraReadAnywhere(a: Trace, t: real, b: Trace)
    requires Level(a).Some? && b != [] && Ordered(a + [Read(t, Level(a))] + b)
    ensures Alike(After(a + [Read(t, Level(a))] + b), After(a + b))
    ensures ResultsAlike(Results(a + [Read(t, Level(a))] + b), Results(a + b))
    decreases |b|
  {
    hide Observed, Closed, Level, Ordered, Alike, SameButSeen;
    var extra := Read(t, Level(a));
    var long, init, ev := a + [extra] + b, Front(b), Last(b);
    var longInit := a + [extra] + init;
    assert long == longInit + [ev] && a + b == (a + init) + [ev];
    assert Front(long) == longInit && Last(long) == ev && Front(a + b) == a + init && Last(a + b) == ev;
    if init == [] {
      assert longInit == a + [extra] && a + init == a;
      assert Front(longInit) == a && Last(longInit) == extra;
      InsertedBefore(a, t, ev);
      assert Results(longInit) == Results(a) + [];
    } else {
      PrefixOrdered(longInit, ev);
      ExtraReadAnywhere(a, t, init);
      AlikeStays(After(longInit), After(a + init), ev);
    }
    SameItself(Results(a));
    OneMoreResult(long, a + b);
  }

  lemma SameItself(results: seq<Observation>)
    ensures ResultsAlike(results, results)
  {
  }

  lemma OneMoreResult(long: Trace, short: Trace)
    requires long != [] && short != [] && Last(long) == Last(short)
    requires ResultsAlike(Results(Front(long)), Results(Front(short)))
    requires SameButSeen(Closed(After(Front(long)), Last(long).at).1, Closed(After(Front(short)), Last(short).at).1)
    ensures ResultsAlike(Results(long), Results(short))
  {
    hide Closed, After, SameButSeen;
  }

  lemma NoLevelYet()
    ensures Level([]) == None
  {
  }

  lemma InsertedBefore(a: Trace, t: real, ev: Event)
    requires Level(a).Some? && Ordered(a + [Read(t, Level(a))] + [ev])
    ensures var v, w := Observed(After(a), t, Level(a)), After(a);
            && Alike(Stepped(v, ev), Stepped(w, ev))
            && SameButSeen(Closed(v, ev.at).1, Closed(w, ev.at).1)
  {
    hide Observed, Closed, Alike, SameButSeen, Stepped, SawLegible, SawUnreadable, IntervalStart;
    var extra := Read(t, Level(a));
    NoLevelYet();
    PrefixOrdered(a + [extra], ev);
    PrefixOrdered(a, extra);
    AfterIsConsistent(a);
    assert Last(a + [extra]) == extra;
    ExtraReadIsInvisible(After(a), t, ev, t);
  }
}
