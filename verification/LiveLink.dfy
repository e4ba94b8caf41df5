/** What every step of a connection thread does to the phase and the handles, and that a live link is left alone. */
module LiveLink {
  import opened Wrappers
  import opened Connection
  import opened Redundancy
  import opened LostLink

  // ---- One step ----

  /** Where a running thread goes, by where it was and what the library answers. */
  lemma PhaseAfterStep(c: Conn, now: nat, o: Observation, interval: int)
    requires ConnInv(c) && c.thread == Running && c.started && c.connect
    ensures var c', expired := ThreadStep(c, now, o, interval), c.phase == Connecting && !o.linkUp && now > c.deadline;
            && (c'.phase == Connected <==> o.linkUp && (c.phase == Connecting || c.phase == Connected))
            && (c'.phase == Connecting <==>
                || (c.phase == Idle && o.preparation == Ready && o.startOk)
                || (c.phase == Connecting && !o.linkUp && now <= c.deadline))
            && (c'.phase == FatalError <==>
                c.phase == FatalError || (c.phase == Idle && !(o.preparation == Ready && o.startOk)))
            && (c'.phase == Idle <==> (c.phase == Connected && !o.linkUp) || expired)
            && (c'.connect <==> !expired)
            && (c'.connected <==> !expired && (c.connected || (c.phase == Connecting && o.linkUp)))
            && c'.thread == Running && c'.started
  {
  }

  /** A live link is left alone: only a round of polling may happen. */
  lemma LiveLinkStays(c: Conn, now: nat, o: Observation, interval: int)
    requires c.thread == Running && c.started && c.connect && c.phase == Connected && o.linkUp
    ensures var c' := ThreadStep(c, now, o, interval);
            c' == c.(polls := c'.polls, nextPoll := c'.nextPoll)
  {
  }

  /** An attempt makes its handles in order and keeps the endpoint even if there is no session for it. */
  lemma HandlesOfAnAttempt(c: Conn, now: nat, o: Observation, interval: int)
    requires ConnInv(c) && c.thread == Running && c.started && c.connect && c.phase == Idle
    ensures var c', n, m := ThreadStep(c, now, o, interval), c.ledger.endpointsMade, c.ledger.sessionsMade;
            && c'.endpoint == (if o.preparation == NoEndpoint then None else Some(n))
            && c'.ledger.endpointsMade == (if o.preparation == NoEndpoint then n else n + 1)
            && c'.ledger.sessionsMade == (if o.preparation == Ready then m + 1 else m)
            && (o.preparation == NoClient ==> c'.session == NoSession)
            && (o.preparation == Ready ==> c'.session == Open(m) && c'.deadline == now + 10000)
            && c'.ledger.endpointsGone == c.ledger.endpointsGone && c'.ledger.sessionsGone == c.ledger.sessionsGone
  {
  }

  /** A thread that has been told to stop gives everything back and exits; any other that is not asked to connect, or
      is not running, does nothing. */
  lemma IdleThreads(c: Conn, now: nat, o: Observation, interval: int)
    requires ConnInv(c)
    ensures var c' := ThreadStep(c, now, o, interval);
            && (c.thread == Running && !c.started ==>
                  c'.thread == Exited && c'.endpoint.None? && !c'.session.Open? && c'.phase == c.phase)
            && (c.thread != Running || (c.started && !c.connect) ==> c' == c)
  {
  }

  /** The two phases that are never entered would wait for a reconnect. */
  lemma ReconnectPhases(c: Conn, now: nat, o: Observation, interval: int)
    requires c.thread == Running && c.started && c.connect
    ensures var c' := ThreadStep(c, now, o, interval);
            && (c.phase == Closed ==> c' == c.(phase := WaitForReconnect, deadline := now + 10000))
            && (c.phase == WaitForReconnect ==> c' == c.(phase := if now < c.deadline then WaitForReconnect else Idle))
  {
  }

  // ---- What gives a handle back ----

  /** The thread of connection i, in a step of which it takes its handles back to the library: it has been told to stop,
      its link is down, or its attempt has run out of time. */
  predicate ThreadLetsGo(s: Sys, e: Event, i: nat) {
    && e.Thread? && e.i == i && i < |s.conns| && s.conns[i].thread == Running
    && var c := s.conns[i];
    || !c.started
    || (c.connect && !e.o.linkUp && (c.phase == Connected || (c.phase == Connecting && s.now > c.deadline)))
  }

  /** A check of the clock by the monitor that finds the time of connection i over. */
  predicate MonitorLetsGo(g: Settings, s: Sys, e: Event, i: nat) {
    e.Monitor? && s.control.Checking? && s.control.at == i && s.now - s.control.since > g.timeout
  }

  predicate GaveBack(c: Conn, c': Conn) {
    c'.ledger.endpointsGone != c.ledger.endpointsGone || c'.ledger.sessionsGone != c.ledger.sessionsGone
  }

  lemma ThreadGivesBackExactly(g: Settings, s: Sys, i: nat, o: Observation)
    requires i < |s.conns| && ConnInv(s.conns[i])
    ensures var c, c' := s.conns[i], ThreadStep(s.conns[i], s.now, o, g.interval);
            && (GaveBack(c, c') <==> c.endpoint.Some? && ThreadLetsGo(s, Thread(i, o), i))
            && (c.phase == Connected && c'.phase != Connected <==>
                c.phase == Connected && c.started && ThreadLetsGo(s, Thread(i, o), i))
  {
    var c := s.conns[i];
    MoreIsOther(c.ledger.endpointsGone, if c.endpoint.Some? then c.endpoint.value else 0);
    MoreIsOther(c.ledger.sessionsGone, c.session);
    hide EndpointsBalanced, SessionsBalanced;
  }

  lemma MoreIsOther<T>(m: multiset<T>, x: T)
    ensures m + multiset{x} != m
  {
    assert (m + multiset{x})[x] == m[x] + 1;
  }

  lemma MonitorGivesBackExactly(g: Settings, s: Sys, i: nat)
    requires Inv(s) && i < |s.conns|
    ensures var c, c' := s.conns[i], MonitorStep(g, s).conns[i];
            && (GaveBack(c, c') <==> c.endpoint.Some? && MonitorLetsGo(g, s, Event.Monitor, i))
            && (c.phase == Connected && c'.phase != Connected <==>
                c.phase == Connected && MonitorLetsGo(g, s, Event.Monitor, i))
  {
    hide ConnInv, AfterDisconnect, GaveBack, Inv;
    DisconnectGivesBack(s.conns[i]);
    if !MonitorLetsGo(g, s, Event.Monitor, i) {
      MonitorOnlyFlags(g, s, i);
    } else {
      assert MonitorStep(g, s).conns[i] == AfterDisconnect(s.conns[i]);
    }
  }

  lemma DisconnectGivesBack(c: Conn)
    ensures GaveBack(c, AfterDisconnect(c)) <==> c.endpoint.Some?
    ensures AfterDisconnect(c).phase == Idle
  {
    MoreIsOther(c.ledger.endpointsGone, if c.endpoint.Some? then c.endpoint.value else 0);
  }

  /** Otherwise the monitor at most sets the flags by which it asks for a connection, and starts or stops a thread. */
  lemma MonitorOnlyFlags(g: Settings, s: Sys, i: nat)
    requires i < |s.conns| && !MonitorLetsGo(g, s, Event.Monitor, i)
    ensures |MonitorStep(g, s).conns| == |s.conns|
    ensures var c, c' := s.conns[i], MonitorStep(g, s).conns[i];
            c' == c.(connect := c'.connect, started := c'.started, thread := c'.thread) && !GaveBack(c, c')
  {
    hide AfterDisconnect;
  }

  /** On every run: a step gives a handle of a connection back exactly if the connection holds an endpoint and its link
      is down, its attempt has run out of time, its thread has been told to stop, or the monitor finds its time over;
      and only such a step ends the connected phase. */
  lemma HandlesGoBackExactly(g: Settings, s: Sys, e: Event, i: nat)
    requires Inv(s) && i < |s.conns|
    ensures |Step(g, s, e).conns| == |s.conns|
    ensures var c, c' := s.conns[i], Step(g, s, e).conns[i];
            && (GaveBack(c, c') <==> c.endpoint.Some? && (ThreadLetsGo(s, e, i) || MonitorLetsGo(g, s, e, i)))
            && (c.phase == Connected && c'.phase != Connected <==>
                c.phase == Connected && ((c.started && ThreadLetsGo(s, e, i)) || MonitorLetsGo(g, s, e, i)))
  {
    hide ThreadStep, MonitorStep, ConnInv, GaveBack;
    StepKeepsSize(g, s, e);
    assert ConnInv(s.conns[i]);
    match e
    case Monitor => MonitorGivesBackExactly(g, s, i);
    case Thread(j, o) => if j == i { ThreadGivesBackExactly(g, s, i, o); } else { NothingGone(s.conns[i]); }
    case _ => NothingGone(s.conns[i]);
  }

  lemma NothingGone(c: Conn)
    ensures !GaveBack(c, c)
  {
  }

  // ---- A live link over a run ----

  /** In every reachable state before a stop a connection that is up is the active one. */
  lemma ConnectedIsActive(g: Settings, n: nat, s: Sys, i: nat)
    requires Reachable(g, n, s) && s.started && i < n
    ensures |s.conns| == n && (s.conns[i].phase == Connected ==> HoldsOn(s, i))
  {
    ReachableInv(g, n, s);
    assert ConnInv(s.conns[i]);
  }

  predicate StaysUp(events: seq<Event>, i: nat) {
    NoStop(events) && forall k :: 0 <= k < |events| && events[k].Thread? && events[k].i == i ==> events[k].o.linkUp
  }

  lemma LiveStep(g: Settings, s: Sys, e: Event, i: nat)
    requires HoldsOn(s, i) && s.conns[i].phase == Connected
    requires e != StopRequest && (e.Thread? && e.i == i ==> e.o.linkUp)
    requires e.Monitor? && s.control.Checking? ==> s.now - s.control.since <= g.timeout
    ensures var s' := Step(g, s, e);
            && HoldsOn(s', i) && s'.conns[i].phase == Connected
            && s'.conns[i].endpoint == s.conns[i].endpoint && s'.conns[i].session == s.conns[i].session
            && s'.control == ControlAfter(s.control, if e.Monitor? then 1 else 0)
  {
    StepKeepsInv(g, s, e);
    HoldsOnControl(s, i);
    assert ConnInv(s.conns[i]) && ThreadInv(s.conns[i], i, s.control, s.started);
    hide ConnInv, ConnsInv;
  }

  /** As long as its link is up, no stop is requested and no late check of the clock is to come, a connected connection
      stays active and connected over the same endpoint and the same session, whatever else happens. */
  lemma {:induction false} LiveLinkIsKept(g: Settings, s: Sys, events: seq<Event>, i: nat)
    requires HoldsOn(s, i) && s.conns[i].phase == Connected
    requires StaysUp(events, i) && ChecksInTime(g, s, events)
    ensures var s' := Run(g, s, events);
            && HoldsOn(s', i) && s'.conns[i].phase == Connected
            && s'.conns[i].endpoint == s.conns[i].endpoint && s'.conns[i].session == s.conns[i].session
            && s'.control == ControlAfter(s.control, MonitorSteps(events))
    decreases |events|
  {
    hide ChecksInTime, Inv, Step;
    if events == [] {
    } else {
      var before, e := events[..|events| - 1], events[|events| - 1];
      assert StaysUp(before, i) by {
        assert forall k :: 0 <= k < |before| ==> before[k] == events[k];
      }
      ChecksInTimeBefore(g, s, events);
      LiveLinkIsKept(g, s, before, i);
      LiveStep(g, Run(g, s, before), e, i);
    }
  }
}
