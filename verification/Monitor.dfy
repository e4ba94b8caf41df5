/** The monitor thread on the connection objects themselves. While it sleeps the other threads run and the clock
    advances; what happens during each sleep is a parameter. */
module Monitor {
  import opened Wrappers
  import opened Connection
  import opened Redundancy

  /** How long the monitor asks to sleep between two looks at a connection, in milliseconds. */
  const SLEEP: nat := 10

  /** Everything but the monitor itself, a request to stop included. */
  predicate Background(events: seq<Event>) {
    forall k :: 0 <= k < |events| ==> !events[k].Monitor?
  }

  /** A sleep lasts at least as long as was asked and at most a given time, and only other threads run meanwhile. */
  predicate IsSleep(events: seq<Event>, longest: nat) {
    Background(events) && SLEEP <= Elapsed(events) <= longest
  }

  /** Between two steps of the monitor other threads may run, too, if only for a given time. */
  predicate IsPause(events: seq<Event>, pause: nat) {
    Background(events) && Elapsed(events) <= pause
  }

  /** What the other threads do during one attempt: before it asks for the connection, before its first look, between
      each look and the check of the clock that follows it, and during each sleep. */
  datatype Others = Others(
    before: seq<Event>, first: seq<Event>, between: nat -> seq<Event>, asleep: nat -> seq<Event>)

  /** How long the sleeps and the pauses last at most. */
  datatype Limits = Limits(sleep: nat, pause: nat)

  ghost predicate Within(others: Others, limits: Limits) {
    && IsPause(others.before, limits.pause) && IsPause(others.first, limits.pause)
    && forall k: nat :: IsSleep(others.asleep(k), limits.sleep) && IsPause(others.between(k), limits.pause)
  }

  /** The longest one connection may be waited for. */
  function WaitBound(g: Settings, limits: Limits): nat {
    (if g.timeout < 0 then 0 else g.timeout + limits.sleep) + 3 * limits.pause
  }

  lemma OthersFirst(others: Others, limits: Limits)
    requires Within(others, limits)
    ensures Background(others.before) && Elapsed(others.before) <= limits.pause
    ensures Background(others.first) && Elapsed(others.first) <= limits.pause
  {
  }

  lemma OthersLast(others: Others, limits: Limits, k: nat)
    requires Within(others, limits)
    ensures Background(others.asleep(k)) && SLEEP <= Elapsed(others.asleep(k)) <= limits.sleep
    ensures Background(others.between(k)) && Elapsed(others.between(k)) <= limits.pause
  {
    assert IsSleep(others.asleep(k), limits.sleep);
  }

  // ---- What the monitor sees ----

  /** One look of the monitor at a connection. */
  datatype Glance = Glance(at: nat, up: bool)

  function GlanceOf(s: Sys): seq<Glance> {
    if s.control.Waiting? && s.control.at < |s.conns|
    then [Glance(s.control.at, s.conns[s.control.at].connected)]
    else []
  }

  /** All looks of the monitor in a run, in order. */
  function Glances(g: Settings, s: Sys, events: seq<Event>): seq<Glance>
    decreases |events|
  {
    if events == [] then []
    else
      var before := events[..|events| - 1];
      Glances(g, s, before) + if events[|events| - 1].Monitor? then GlanceOf(Run(g, s, before)) else []
  }

  lemma {:induction false} GlancesAppend(g: Settings, s: Sys, a: seq<Event>, b: seq<Event>)
    ensures Glances(g, s, a + b) == Glances(g, s, a) + Glances(g, Run(g, s, a), b)
    decreases |b|
  {
    hide Run, GlanceOf;
    if b == [] {
      assert a + b == a;
    } else {
      var n := |b| - 1;
      GlancesAppend(g, s, a, b[..n]);
      RunAppend(g, s, a, b[..n]);
      assert (a + b)[..|a + b| - 1] == a + b[..n] && (a + b)[|a + b| - 1] == b[n];
    }
  }

  predicate InVain(glances: seq<Glance>, i: nat) {
    forall k :: 0 <= k < |glances| ==> glances[k] == Glance(i, false)
  }

  /** An attempt for connection i: it is looked at, and no look but the last one of a successful attempt finds it up. */
  predicate IsAttempt(glances: seq<Glance>, i: nat, ok: bool) {
    && glances != []
    && forall k :: 0 <= k < |glances| ==> glances[k] == Glance(i, ok && k == |glances| - 1)
  }

  predicate IsLookedAt(glances: seq<Glance>, i: nat) {
    exists k :: 0 <= k < |glances| && glances[k].at == i
  }

  /** A scan of so many connections: each of them is looked at, one after the other in the order of the configuration,
      and none is ever found up but the one that is found, which is the last. */
  predicate IsScan(glances: seq<Glance>, tried: nat, found: bool) {
    && (forall k :: 0 <= k < |glances| ==> glances[k].at < tried && (glances[k].up <==> found && k == |glances| - 1))
    && (forall k, l :: 0 <= k < l < |glances| ==> glances[k].at <= glances[l].at)
    && (forall i: nat :: i < tried ==> IsLookedAt(glances, i))
    && (found ==> glances != [] && glances[|glances| - 1].at + 1 == tried)
  }

  lemma OneMoreAttempt(glances: seq<Glance>, tried: nat, more: seq<Glance>, ok: bool)
    requires IsScan(glances, tried, false) && IsAttempt(more, tried, ok)
    ensures IsScan(glances + more, tried + 1, ok)
  {
    var all := glances + more;
    forall i: nat | i < tried + 1 ensures IsLookedAt(all, i) {
      if i < tried {
        assert IsLookedAt(glances, i);
        var k :| 0 <= k < |glances| && glances[k].at == i;
        assert all[k].at == i;
      } else {
        assert all[|glances|].at == i;
      }
    }
  }

  /** While the monitor sleeps it stays where it is, and the clock advances by what has elapsed. */
  lemma {:induction false} BackgroundKeeps(g: Settings, s: Sys, events: seq<Event>)
    requires Background(events)
    ensures var s' := Run(g, s, events);
            && s'.control == s.control && s'.active == s.active
            && s'.now == s.now + Elapsed(events)
    ensures Glances(g, s, events) == []
    decreases |events|
  {
    if events == [] {
    } else {
      var before := events[..|events| - 1];
      assert Background(before) by {
        assert forall k :: 0 <= k < |before| ==> before[k] == events[k];
      }
      BackgroundKeeps(g, s, before);
      assert !events[|events| - 1].Monitor?;
    }
  }

  class RedundantClient {
    const settings: Settings
    const connections: seq<ClientConnection>
    var active: ClientConnection?
    var clock: nat
    var started: bool
    var pollings: seq<Poll>

    constructor (g: Settings, cs: seq<ClientConnection>, now: nat)
      ensures settings == g && connections == cs && active == null && clock == now && started && pollings == []
    {
      settings, connections, active, clock, started, pollings := g, cs, null, now, true, [];
    }

    /** The connections are different objects. */
    predicate Valid()
      reads this
    {
      forall i, j :: 0 <= i < j < |connections| ==> connections[i] != connections[j]
    }

    ghost predicate HoldsConns(conns: seq<Conn>)
      reads this, connections
    {
      |conns| == |connections| && forall i :: 0 <= i < |conns| ==> connections[i].State() == conns[i]
    }

    predicate PointsTo(target: Option<nat>)
      reads this
    {
      match target
      case None => active == null
      case Some(i) => i < |connections| && active == connections[i]
    }

    /** These objects are in state s. */
    ghost predicate Represents(s: Sys)
      reads this, connections
    {
      && Valid() && HoldsConns(s.conns) && PointsTo(s.active)
      && clock == s.now && started == s.started && pollings == s.pollings
    }

    function ActiveSession(): Session
      reads this, connections
    {
      if active == null || active !in connections then NoSession else active.session
    }

    /** The thread of one connection takes a step; a round of polling goes to whatever connection is active. */
    method RunConnection(i: nat, o: Observation, ghost s: Sys)
      requires i < |connections| && Represents(s)
      modifies this`pollings, connections[i]
      ensures Represents(Step(settings, s, Thread(i, o)))
    {
      var c := connections[i];
      if Polls(c.State(), clock, o, settings.interval) {
        var target: Option<nat> := IndexOf(s);
        pollings := pollings + [Poll(i, target, ActiveSession())];
      }
      c.RunThread(clock, o, settings.interval);
    }

    /** Which connection is active. */
    method IndexOf(ghost s: Sys) returns (target: Option<nat>)
      requires Represents(s)
      ensures target == s.active
    {
      if active == null {
        return None;
      }
      var i := 0;
      while connections[i] != active
        invariant s.active.Some? && i <= s.active.value
        decreases |connections| - i
      {
        i := i + 1;
      }
      target := Some(i);
    }

    /** The other threads run while the monitor sleeps. */
    method Sleep(events: seq<Event>, ghost s: Sys)
      requires Background(events) && Represents(s)
      modifies this`pollings, this`clock, this`started, connections
      ensures Represents(Run(settings, s, events))
    {
      var k := 0;
      ghost var now := s;
      assert events[..0] == [];
      while k < |events|
        invariant k <= |events|
        invariant now == Run(settings, s, events[..k]) && Represents(now)
      {
        var e := events[k];
        assert events[..k + 1][..k] == events[..k] && events[..k + 1][k] == e;
        assert !e.Monitor?;
        match e {
          case Tick(d) => clock := clock + d;
          case StopRequest => started := false;
          case Thread(i, o) =>
            if i < |connections| {
              RunConnection(i, o, now);
            }
        }
        now := Step(settings, now, e);
        k := k + 1;
      }
      assert events[..k] == events;
    }

    /** The other threads run in the middle of a run. */
    method OthersRun(events: seq<Event>, ghost s: Sys, ghost trace: seq<Event>, ghost now: Sys)
      returns (ghost trace': seq<Event>, ghost now': Sys)
      requires Background(events) && Represents(now) && now == Run(settings, s, trace)
      modifies this`pollings, this`clock, this`started, connections
      ensures clock == old(clock) + Elapsed(events)
      ensures Represents(now') && now' == Run(settings, s, trace')
      ensures now'.control == now.control && now'.active == now.active
      ensures Glances(settings, s, trace') == Glances(settings, s, trace)
    {
      Sleep(events, now);
      BackgroundKeeps(settings, now, events);
      trace', now' := MoreEvents(settings, s, trace, now, events);
    }

    method BeginAttempt(i: nat, ghost s: Sys)
      requires i < |connections| && Represents(s) && s.control == Scan(i)
      modifies this`active, connections[i]
      ensures Represents(MonitorStep(settings, s)) && active == connections[i]
      ensures clock == s.now
      ensures MonitorStep(settings, s)
              == s.(conns := MonitorStep(settings, s).conns, active := Some(i), control := Waiting(i, clock))
    {
      connections[i].Connect();
      active := connections[i];
    }

    method GiveUp(i: nat, ghost s: Sys)
      requires i < |connections| && Represents(s)
      requires s.control.Checking? && s.control.at == i && clock - s.control.since > settings.timeout
      modifies this`active, connections[i]
      ensures Represents(MonitorStep(settings, s)) && active == null
      ensures MonitorStep(settings, s).control == Scan(i + 1)
    {
      connections[i].Disconnect();
      active := null;
    }

    lemma Found(i: nat, s: Sys)
      requires i < |connections| && Represents(s) && connections[i].connected
      requires s.control.Waiting? && s.control.at == i && s.active == Some(i)
      ensures Represents(MonitorStep(settings, s)) && active == connections[i]
      ensures MonitorStep(settings, s).control == Outer && GlanceOf(s) == [Glance(i, true)]
    {
    }

    /** A look that changes nothing: connection i is not up yet, or its time is not over. */
    lemma LookedInVain(i: nat, s: Sys)
      requires i < |connections| && Represents(s) && (s.control.Waiting? || s.control.Checking?) && s.control.at == i
      requires if s.control.Waiting? then !connections[i].connected else clock - s.control.since <= settings.timeout
      ensures var control := if s.control.Waiting? then Checking(i, s.control.since) else Waiting(i, s.control.since);
              MonitorStep(settings, s) == s.(control := control) && Represents(s.(control := control))
      ensures GlanceOf(s) == if s.control.Waiting? then [Glance(i, false)] else []
    {
    }

    /** Such a look in the middle of a run. */
    lemma VainTurn(i: nat, s: Sys, trace: seq<Event>, now: Sys) returns (trace': seq<Event>, now': Sys)
      requires now == Run(settings, s, trace) && InVain(Glances(settings, s, trace), i)
      requires i < |connections| && Represents(now)
      requires (now.control.Waiting? || now.control.Checking?) && now.control.at == i
      requires if now.control.Waiting? then !connections[i].connected else clock - now.control.since <= settings.timeout
      ensures now' == Run(settings, s, trace') && Represents(now')
      ensures now' == now.(control := if now.control.Waiting? then Checking(i, now.control.since)
                                      else Waiting(i, now.control.since))
      ensures InVain(Glances(settings, s, trace'), i)
      ensures now.control.Waiting? || Glances(settings, s, trace) != [] ==> Glances(settings, s, trace') != []
    {
      hide Run, Represents, MonitorStep, Glances, GlanceOf;
      LookedInVain(i, now);
      trace', now' := MonitorTurn(settings, s, trace, now);
    }

    lemma NothingSeen(i: nat, s: Sys) returns (trace: seq<Event>)
      ensures trace == [] && Run(settings, s, trace) == s && Glances(settings, s, trace) == []
      ensures InVain(Glances(settings, s, trace), i)
    {
      trace := [];
    }

    /** The monitor has asked for connection i. */
    lemma AskedFor(i: nat, s: Sys, trace: seq<Event>, now: Sys) returns (trace': seq<Event>, now': Sys)
      requires now == Run(settings, s, trace) && now.control.Scan? && InVain(Glances(settings, s, trace), i)
      ensures now' == MonitorStep(settings, now) == Run(settings, s, trace')
      ensures InVain(Glances(settings, s, trace'), i)
    {
      hide Run, MonitorStep, Glances;
      trace', now' := MonitorTurn(settings, s, trace, now);
      assert Glances(settings, s, trace) + [] == Glances(settings, s, trace);
    }

    /** The last turn of an attempt: the connection is found up, or given up after looks in vain. */
    lemma LastTurn(i: nat, ok: bool, s: Sys, trace: seq<Event>, now: Sys) returns (trace': seq<Event>)
      requires now == Run(settings, s, trace) && InVain(Glances(settings, s, trace), i)
      requires if ok then GlanceOf(now) == [Glance(i, true)]
               else now.control.Checking? && Glances(settings, s, trace) != []
      ensures Run(settings, s, trace') == MonitorStep(settings, now)
      ensures IsAttempt(Glances(settings, s, trace'), i, ok)
    {
      hide Run, MonitorStep, Glances;
      ghost var now': Sys;
      trace', now' := MonitorTurn(settings, s, trace, now);
    }

    /** Connects connection i and waits until it is connected or its time is over. A connection that comes up after
        the last look at it is disconnected all the same. */
    method TryConnection(i: nat, others: Others, limits: Limits, ghost s: Sys)
      returns (ok: bool, ghost trace: seq<Event>)
      requires i < |connections| && Represents(s) && s.control == Scan(i)
      requires Within(others, limits)
      modifies this`active, this`pollings, this`clock, this`started, connections
      ensures var s' := Run(settings, s, trace);
              && Represents(s')
              && old(clock) <= clock <= old(clock) + WaitBound(settings, limits)
              && (ok ==> s'.control == Outer)
              && (!ok ==> s'.control == Scan(i + 1) && clock - old(clock) > settings.timeout)
              && ScanFound(ok, i + 1)
      ensures IsAttempt(Glances(settings, s, trace), i, ok)
    {
      hide Run, Step, MonitorStep, Glances, GlanceOf, InVain, IsAttempt, IsSleep, IsPause, Background, Represents;
      ghost var now := s;
      trace := NothingSeen(i, s);
      OthersFirst(others, limits);
      trace, now := OthersRun(others.before, s, trace, now);
      BeginAttempt(i, now);
      trace, now := AskedFor(i, s, trace, now);
      var start := clock;
      var k := 0;
      trace, now := OthersRun(others.first, s, trace, now);
      while !connections[i].connected
        invariant now == Run(settings, s, trace) && Represents(now)
        invariant now.control == Waiting(i, start) && now.active == Some(i)
        invariant old(clock) <= start <= clock && start - old(clock) <= limits.pause
        invariant clock - start <= if k == 0 then limits.pause else settings.timeout + limits.sleep
        invariant k == 0 || settings.timeout >= 0
        invariant InVain(Glances(settings, s, trace), i)
        decreases settings.timeout - (clock - start)
      {
        OthersLast(others, limits, k);
        trace, now := VainTurn(i, s, trace, now);
        trace, now := OthersRun(others.between(k), s, trace, now);
        if clock - start > settings.timeout {
          GiveUp(i, now);
          trace := LastTurn(i, false, s, trace, now);
          return false, trace;
        }
        trace, now := VainTurn(i, s, trace, now);
        trace, now := OthersRun(others.asleep(k), s, trace, now);
        k := k + 1;
      }
      Found(i, now);
      trace := LastTurn(i, true, s, trace, now);
      ok := true;
    }

    /** Which connection the scan has found, after so many attempts. */
    predicate ScanFound(found: bool, tried: nat)
      reads this, connections
    {
      if found then 0 < tried <= |connections| && active == connections[tried - 1] && active.connected
      else tried > 0 || connections == [] ==> active == null
    }

    /** Tries the connections in the order of the configuration until one is connected. */
    method ScanAll(others: nat -> Others, limits: Limits, ghost s: Sys)
      returns (waits: seq<nat>, found: bool, ghost trace: seq<Event>)
      requires Represents(s) && s.control == Scan(0)
      requires forall i: nat :: Within(others(i), limits)
      modifies this`active, this`pollings, this`clock, this`started, connections
      ensures var s' := Run(settings, s, trace);
              Represents(s') && s'.control == if found then Outer else Scan(|connections|)
      ensures ScanFound(found, |waits|) && (!found ==> |waits| == |connections|)
      ensures WaitsFollow(waits, found, settings.timeout, WaitBound(settings, limits))
      ensures clock == old(clock) + Sum(waits)
      ensures IsScan(Glances(settings, s, trace), |waits|, found)
    {
      hide Represents, Run, WaitsFollow, Sum, ScanFound, Within, Glances, IsScan, IsAttempt;
      waits, found, trace := [], false, [];
      ghost var now := s;
      NoneActive(s);
      while !found && |waits| < |connections|
        invariant |waits| <= |connections|
        invariant now == Run(settings, s, trace) && Represents(now)
        invariant now.control == if found then Outer else Scan(|waits|)
        invariant ScanFound(found, |waits|)
        invariant WaitsFollow(waits, found, settings.timeout, WaitBound(settings, limits))
        invariant clock == old(clock) + Sum(waits)
        invariant IsScan(Glances(settings, s, trace), |waits|, found)
      {
        var before := clock;
        ghost var more: seq<Event>;
        found, more := TryConnection(|waits|, others(|waits|), limits, now);
        OneMoreAttempt(Glances(settings, s, trace), |waits|, Glances(settings, now, more), found);
        trace, now := MoreEvents(settings, s, trace, now, more);
        OneMoreWait(waits, clock - before, found, settings.timeout, WaitBound(settings, limits));
        waits := waits + [clock - before];
      }
    }

    /** The active connection is up or on its way up. */
    predicate HasLiveConnection()
      reads this, active
    {
      active != null && (active.connecting || active.connected)
    }

    /** A whole scan, until the monitor is back in its outer loop. */
    method Look(others: nat -> Others, limits: Limits, ghost s: Sys)
      returns (waits: seq<nat>, ghost trace: seq<Event>)
      requires Represents(s) && s.control == Scan(0)
      requires forall i: nat :: Within(others(i), limits)
      modifies this`active, this`pollings, this`clock, this`started, connections
      ensures Represents(Run(settings, s, trace)) && Run(settings, s, trace).control == Outer
      ensures ScanFound(active != null, |waits|) && (active == null ==> |waits| == |connections|)
      ensures WaitsFollow(waits, active != null, settings.timeout, WaitBound(settings, limits))
      ensures |waits| <= |connections| && clock == old(clock) + Sum(waits)
      ensures IsScan(Glances(settings, s, trace), |waits|, active != null)
    {
      hide Represents, Run, MonitorStep, WaitsFollow, Sum, Glances, GlanceOf, IsScan, Within;
      var found: bool;
      waits, found, trace := ScanAll(others, limits, s);
      ghost var now := Run(settings, s, trace);
      if !found {
        ScanEnds(now, |waits|);
        assert Glances(settings, s, trace) + [] == Glances(settings, s, trace);
        trace, now := MonitorTurn(settings, s, trace, now);
      }
    }

    lemma ScanEnds(s: Sys, tried: nat)
      requires Represents(s) && s.control == Scan(|connections|) && ScanFound(false, tried) && tried == |connections|
      ensures active == null && Represents(MonitorStep(settings, s)) && MonitorStep(settings, s).control == Outer
      ensures GlanceOf(s) == []
    {
    }

    /** One round of the monitor: if there is no active connection, or it is lost for good, look for one. */
    method Round(others: nat -> Others, limits: Limits, ghost s: Sys)
      returns (waits: seq<nat>, ghost trace: seq<Event>)
      requires Represents(s) && s.control == Outer && started && Inv(s)
      requires forall i: nat :: Within(others(i), limits)
      modifies this`active, this`pollings, this`clock, this`started, connections
      // the round is a run of the transition system
      ensures Represents(Run(settings, s, trace)) && Inv(Run(settings, s, trace))
      ensures Run(settings, s, trace).control == Outer
      // a connection that is up or on its way up is left alone
      ensures old(HasLiveConnection()) ==> Run(settings, s, trace) == s && waits == [] && active == old(active)
      // otherwise the first connection of the configuration that came up in its time is the active one
      ensures !old(HasLiveConnection()) ==>
                && ScanFound(active != null, |waits|) && (active == null ==> |waits| == |connections|)
                && WaitsFollow(waits, active != null, settings.timeout, WaitBound(settings, limits))
      // and it is the only one that was seen to be up at any look; all before it were looked at in vain
      ensures if old(HasLiveConnection()) then Glances(settings, s, trace) == []
              else IsScan(Glances(settings, s, trace), |waits|, active != null)
      ensures forall i :: 0 <= i < |connections| && connections[i] != active ==> Clean(connections[i].State())
      ensures clock == old(clock) + Sum(waits) <= old(clock) + |connections| * WaitBound(settings, limits)
    {
      hide Represents, Run, MonitorStep, WaitsFollow, Sum, ScanFound, Inv, Glances, IsScan, Within, Clean;
      waits, trace := [], [Monitor];
      ghost var now := MonitorStep(settings, s);
      RoundBegins(s);
      if active == null || (!active.connecting && !active.connected) {
        ghost var more: seq<Event>;
        waits, more := Look(others, limits, now);
        assert [] + Glances(settings, now, more) == Glances(settings, now, more);
        trace, now := MoreEvents(settings, s, trace, now, more);
        WaitsAreBounded(waits, |connections|, settings.timeout, WaitBound(settings, limits), active != null);
      }
      RunKeepsInv(settings, s, trace);
      OthersAreClean(now);
    }

    lemma RoundBegins(s: Sys)
      requires Represents(s) && s.control == Outer && started
      ensures var s' := MonitorStep(settings, s);
              && Represents(s') && s' == Run(settings, s, [Monitor]) && Sum([]) == 0
              && Glances(settings, s, [Monitor]) == []
              && if HasLiveConnection() then s' == s else s'.control == Scan(0)
    {
    }

    /** Before the first attempt nothing has been found. */
    lemma NoneActive(s: Sys)
      requires Represents(s)
      ensures ScanFound(false, 0) && Run(settings, s, []) == s && Sum([]) == 0
      ensures IsScan(Glances(settings, s, []), 0, false)
      ensures forall timeout, bound :: WaitsFollow([], false, timeout, bound)
    {
    }

    lemma OthersAreClean(s: Sys)
      requires Represents(s) && Inv(s)
      ensures forall i :: 0 <= i < |connections| && connections[i] != active ==> Clean(connections[i].State())
    {
    }
  }

  /** More events at the end of a run. */
  lemma MoreEvents(g: Settings, s: Sys, trace: seq<Event>, now: Sys, more: seq<Event>)
    returns (trace': seq<Event>, now': Sys)
    requires now == Run(g, s, trace)
    ensures trace' == trace + more && now' == Run(g, now, more) == Run(g, s, trace')
    ensures Glances(g, s, trace') == Glances(g, s, trace) + Glances(g, now, more)
  {
    trace', now' := trace + more, Run(g, now, more);
    RunAppend(g, s, trace, more);
    GlancesAppend(g, s, trace, more);
  }

  function Sum(waits: seq<nat>): nat {
    if waits == [] then 0 else Sum(waits[..|waits| - 1]) + waits[|waits| - 1]
  }

  lemma {:induction false} SumBound(waits: seq<nat>, bound: nat)
    requires forall k :: 0 <= k < |waits| ==> waits[k] <= bound
    ensures Sum(waits) <= |waits| * bound
  {
    if waits == [] {
    } else {
      SumBound(waits[..|waits| - 1], bound);
      assert |waits| * bound == (|waits| - 1) * bound + bound;
    }
  }

  lemma WaitsAreBounded(waits: seq<nat>, n: nat, timeout: int, bound: nat, found: bool)
    requires |waits| <= n && WaitsFollow(waits, found, timeout, bound)
    ensures Sum(waits) <= n * bound
  {
    SumBound(waits, bound);
    MoreTimes(|waits|, n, bound);
  }

  lemma MoreTimes(m: nat, n: nat, bound: nat)
    requires m <= n
    ensures m * bound <= n * bound
  {
  }

  /** All but possibly the last wait ran out; a connection was found exactly if the last one did not have to. */
  predicate WaitsFollow(waits: seq<nat>, found: bool, timeout: int, bound: nat) {
    && (forall k :: 0 <= k < |waits| ==> waits[k] <= bound)
    && (forall k :: 0 <= k < |waits| - (if found then 1 else 0) ==> waits[k] > timeout)
  }

  lemma OneMoreWait(waits: seq<nat>, wait: nat, found: bool, timeout: int, bound: nat)
    requires WaitsFollow(waits, false, timeout, bound) && wait <= bound && (!found ==> wait > timeout)
    ensures WaitsFollow(waits + [wait], found, timeout, bound)
    ensures Sum(waits + [wait]) == Sum(waits) + wait
  {
  }

  lemma OneGlance(g: Settings, s: Sys)
    ensures Glances(g, s, [Monitor]) == GlanceOf(s)
  {
    assert [Monitor][..0] == [];
  }

  /** One more turn of the monitor at the end of a run. */
  lemma MonitorTurn(g: Settings, s: Sys, trace: seq<Event>, now: Sys) returns (trace': seq<Event>, now': Sys)
    requires now == Run(g, s, trace)
    ensures trace' == trace + [Monitor] && now' == MonitorStep(g, now) == Run(g, s, trace')
    ensures Glances(g, s, trace') == Glances(g, s, trace) + GlanceOf(now)
  {
    RunOne(g, now, Monitor);
    OneGlance(g, now);
    trace', now' := MoreEvents(g, s, trace, now, [Monitor]);
  }
}
