/** The whole client as a transition system: one monitor, any number of connection threads, a clock and a request
    to stop, interleaved in any order. Whatever the outside world decides is part of the event, so a step is a
    function and a run is a sequence of events. One turn of a connection thread, one look of the monitor at a
    connection or at the clock together with the Disconnect it may lead to, and one Connect together with the
    assignment of the active connection are each one step. */
module Redundancy {
  import opened Wrappers
  import opened Connection

  /** Where the monitor thread is. Waiting and Checking remember when it started to wait: the first looks whether the
      connection is up, the second, after it was not, whether its time is over. */
  datatype Control =
    | Starting
    | Outer
    | Scan(next: nat)
    | Waiting(at: nat, since: nat)
    | Checking(at: nat, since: nat)
    | Stopping(next: nat)
    | Joining(at: nat)
    | Done

  /** The two configured times, in milliseconds. */
  datatype Settings = Settings(timeout: int, interval: int)

  /** One round of polling: which connection asked, which one is read, and over which session. */
  datatype Poll = Poll(asker: nat, target: Option<nat>, over: Session)

  datatype Sys = Sys(control: Control, active: Option<nat>, conns: seq<Conn>, now: nat, started: bool,
                     pollings: seq<Poll>)

  datatype Event = Tick(elapsed: nat) | StopRequest | Monitor | Thread(i: nat, o: Observation)

  function Init(n: nat, now: nat): Sys {
    Sys(Starting, None, seq(n, i => NEW_CONNECTION), now, true, [])
  }

  predicate HasActive(s: Sys) {
    s.active.Some? && s.active.value < |s.conns|
  }

  function Started(c: Conn): Conn {
    if c.started then c else c.(started := true, thread := Running)
  }

  function MonitorStep(g: Settings, s: Sys): Sys {
    match s.control
    case Starting =>
      s.(control := Outer,
         conns := if s.started then seq(|s.conns|, i requires 0 <= i < |s.conns| => Started(s.conns[i])) else s.conns)
    case Outer =>
      if !s.started then s.(control := Stopping(0))
      else if HasActive(s) && !s.conns[s.active.value].Disconnected() then s
      else s.(control := Scan(0))
    case Scan(i) =>
      if i < |s.conns| then
        s.(conns := s.conns[i := s.conns[i].(connect := true)], active := Some(i), control := Waiting(i, s.now))
      else
        s.(control := Outer)
    case Waiting(i, since) =>
      s.(control := if i < |s.conns| && s.conns[i].connected then Outer else Checking(i, since))
    case Checking(i, since) =>
      if i < |s.conns| && s.now - since > g.timeout then
        s.(conns := s.conns[i := AfterDisconnect(s.conns[i])], active := None, control := Scan(i + 1))
      else s.(control := Waiting(i, since))
    case Stopping(i) =>
      if i >= |s.conns| then s.(control := Done)
      else if s.conns[i].started then
        s.(conns := s.conns[i := s.conns[i].(started := false)], control := Joining(i))
      else s.(control := Stopping(i + 1))
    case Joining(i) =>
      if i < |s.conns| && s.conns[i].thread == Exited then s.(control := Stopping(i + 1)) else s
    case Done => s
  }

  function ConnectionStep(g: Settings, s: Sys, i: nat, o: Observation): Sys
    requires i < |s.conns|
  {
    s.(conns := s.conns[i := ThreadStep(s.conns[i], s.now, o, g.interval)],
       pollings := if Polls(s.conns[i], s.now, o, g.interval)
                then s.pollings + [Poll(i, s.active,
                                        if HasActive(s) then s.conns[s.active.value].session else NoSession)]
                else s.pollings)
  }

  function Step(g: Settings, s: Sys, e: Event): Sys {
    match e
    case Tick(d) => s.(now := s.now + d)
    case StopRequest => s.(started := false)
    case Monitor => MonitorStep(g, s)
    case Thread(i, o) => if i < |s.conns| then ConnectionStep(g, s, i, o) else s
  }

  function Run(g: Settings, s: Sys, events: seq<Event>): Sys
    decreases |events|
  {
    if events == [] then s
    else Step(g, Run(g, s, events[..|events| - 1]), events[|events| - 1])
  }

  // ---- Runs ----

  predicate NoStop(events: seq<Event>) {
    forall k :: 0 <= k < |events| ==> events[k] != StopRequest
  }

  /** How much time passes. */
  function Elapsed(events: seq<Event>): nat {
    if events == [] then 0
    else Elapsed(events[..|events| - 1]) + if events[|events| - 1].Tick? then events[|events| - 1].elapsed else 0
  }

  /** How often the monitor takes a step. */
  function MonitorSteps(events: seq<Event>): nat {
    if events == [] then 0
    else MonitorSteps(events[..|events| - 1]) + if events[|events| - 1].Monitor? then 1 else 0
  }

  lemma RunOne(g: Settings, s: Sys, e: Event)
    ensures Run(g, s, [e]) == Step(g, s, e)
  {
  }

  lemma RunLast(g: Settings, s: Sys, before: seq<Event>, e: Event, events: seq<Event>)
    requires events == before + [e]
    ensures Run(g, s, events) == Step(g, Run(g, s, before), e)
  {
  }

  lemma {:induction false} RunAppend(g: Settings, s: Sys, a: seq<Event>, b: seq<Event>)
    ensures Run(g, s, a + b) == Run(g, Run(g, s, a), b)
    decreases |b|
  {
    if b == [] {
      assert a + b == a;
    } else {
      var b0, e := b[..|b| - 1], b[|b| - 1];
      RunAppend(g, s, a, b0);
      RunLast(g, s, a + b0, e, a + b);
      RunLast(g, Run(g, s, a), b0, e, b);
    }
  }

  // ---- The invariant ----

  predicate IsActive(s: Sys, i: nat) {
    s.active == Some(i)
  }

  predicate ControlInv(s: Sys) {
    match s.control
    case Starting => s.active.None? && forall i :: 0 <= i < |s.conns| ==> s.conns[i].thread == NotStarted
    case Outer => HasActive(s) ==> s.conns[s.active.value].connected || Clean(s.conns[s.active.value])
    case Scan(i) => i <= |s.conns| && (HasActive(s) ==> Clean(s.conns[s.active.value]))
    case Waiting(i, since) => i < |s.conns| && IsActive(s, i) && since <= s.now
    case Checking(i, since) => i < |s.conns| && IsActive(s, i) && since <= s.now
    case Stopping(i) => !s.started && i <= |s.conns| && forall j :: 0 <= j < i ==> s.conns[j].thread != Running
    case Joining(i) =>
      && !s.started && i < |s.conns| && s.conns[i].thread != NotStarted && !s.conns[i].started
      && forall j :: 0 <= j < i ==> s.conns[j].thread != Running
    case Done => !s.started && forall j :: 0 <= j < |s.conns| ==> s.conns[j].thread != Running
  }

  /** A thread runs from its start until it has been told to stop and joined. */
  predicate ThreadInv(c: Conn, i: nat, control: Control, started: bool) {
    && (c.started ==> c.thread == Running)
    && (c.thread == Running && !c.started ==> control == Joining(i))
    && (started && (control.Outer? || control.Scan? || control.Waiting? || control.Checking?) ==> c.started)
  }

  predicate ThreadsInv(s: Sys) {
    forall i: nat :: i < |s.conns| ==> ThreadInv(s.conns[i], i, s.control, s.started)
  }

  ghost predicate ConnsInv(conns: seq<Conn>) {
    forall i :: 0 <= i < |conns| ==> ConnInv(conns[i])
  }

  predicate OthersClean(s: Sys) {
    forall i :: 0 <= i < |s.conns| && !IsActive(s, i) ==> Clean(s.conns[i])
  }

  predicate PollingsInv(s: Sys) {
    forall k :: 0 <= k < |s.pollings| ==> s.pollings[k].target == Some(s.pollings[k].asker) && s.pollings[k].over.Open?
  }

  ghost predicate Inv(s: Sys) {
    && (s.active.Some? ==> HasActive(s))
    && ControlInv(s)
    && OthersClean(s)
    && PollingsInv(s)
    && ConnsInv(s.conns)
    && ThreadsInv(s)
  }

  lemma FlagKeepsBalance(c: Conn, c': Conn)
    requires ConnInv(c)
    requires c'.endpoint == c.endpoint && c'.session == c.session && c'.ledger == c.ledger
    requires PhaseInv(c') && HandleInv(c')
    ensures ConnInv(c')
  {
  }

  lemma UpdateKeepsConnsInv(conns: seq<Conn>, i: nat, c: Conn)
    requires i < |conns| && ConnsInv(conns) && ConnInv(c)
    ensures ConnsInv(conns[i := c])
  {
  }

  lemma InitInv(n: nat, now: nat)
    ensures Inv(Init(n, now))
  {
  }

  lemma ScanStepKeepsInv(g: Settings, s: Sys)
    requires Inv(s) && s.control.Scan? && s.control.next < |s.conns|
    ensures Inv(MonitorStep(g, s))
  {
    var i := s.control.next;
    FlagKeepsBalance(s.conns[i], s.conns[i].(connect := true));
    UpdateKeepsConnsInv(s.conns, i, s.conns[i].(connect := true));
  }

  /** Whatever the connection has done since the monitor last looked at it. */
  lemma CheckingStepKeepsInv(g: Settings, s: Sys)
    requires Inv(s) && s.control.Checking?
    ensures Inv(MonitorStep(g, s))
  {
    hide ConnInv;
    var i := s.control.at;
    assert ConnInv(s.conns[i]);
    DisconnectKeepsInv(s.conns[i]);
    UpdateKeepsConnsInv(s.conns, i, AfterDisconnect(s.conns[i]));
  }

  lemma StoppingStepKeepsInv(g: Settings, s: Sys)
    requires Inv(s) && s.control.Stopping? && s.control.next < |s.conns|
    ensures Inv(MonitorStep(g, s))
  {
    if s.conns[s.control.next].started {
      ToldToStopKeepsInv(s, s.control.next);
    } else {
      hide ConnInv;
      assert ThreadInv(s.conns[s.control.next], s.control.next, s.control, s.started);
    }
  }

  lemma ToldToStopKeepsInv(s: Sys, i: nat)
    requires Inv(s) && s.control == Stopping(i) && i < |s.conns| && s.conns[i].started
    ensures Inv(s.(conns := s.conns[i := s.conns[i].(started := false)], control := Joining(i)))
  {
    assert ThreadInv(s.conns[i], i, s.control, s.started);
    FlagKeepsBalance(s.conns[i], s.conns[i].(started := false));
    UpdateKeepsConnsInv(s.conns, i, s.conns[i].(started := false));
    hide ConnInv;
  }

  lemma JoiningStepKeepsInv(g: Settings, s: Sys)
    requires Inv(s) && s.control.Joining?
    ensures Inv(MonitorStep(g, s))
  {
    assert ThreadInv(s.conns[s.control.at], s.control.at, s.control, s.started);
  }

  lemma MonitorStepKeepsInv(g: Settings, s: Sys)
    requires Inv(s)
    ensures Inv(MonitorStep(g, s))
  {
    match s.control
    case Starting =>
      forall i | 0 <= i < |s.conns| ensures ConnInv(Started(s.conns[i])) {
        FlagKeepsBalance(s.conns[i], Started(s.conns[i]));
      }
    case Scan(i) => if i < |s.conns| { ScanStepKeepsInv(g, s); }
    case Checking(_, _) => CheckingStepKeepsInv(g, s);
    case Stopping(i) => if i < |s.conns| { StoppingStepKeepsInv(g, s); }
    case Joining(_) => JoiningStepKeepsInv(g, s);
    case _ =>
  }

  /** A clean connection stays clean until the monitor asks for it. */
  lemma CleanStays(c: Conn, now: nat, o: Observation, interval: int)
    requires Clean(c)
    ensures Clean(ThreadStep(c, now, o, interval)) && !Polls(c, now, o, interval)
  {
  }

  /** A thread never gives up a connection it has once had without cleaning it. */
  lemma ConnectedOrCleanStays(c: Conn, now: nat, o: Observation, interval: int)
    requires ConnInv(c) && (c.connected || Clean(c))
    ensures ThreadStep(c, now, o, interval).connected || Clean(ThreadStep(c, now, o, interval))
  {
  }

  /** Whose thread steps keeps its place in the control structure. */
  lemma ThreadStepKeepsThreadInv(g: Settings, s: Sys, i: nat, o: Observation)
    requires i < |s.conns| && ThreadsInv(s)
    ensures ThreadsInv(ConnectionStep(g, s, i, o))
  {
    assert ThreadInv(s.conns[i], i, s.control, s.started);
  }

  lemma ConnectionStepKeepsOthers(g: Settings, s: Sys, i: nat, o: Observation)
    requires i < |s.conns| && OthersClean(s) && PollingsInv(s) && ControlInv(s) && (s.active.Some? ==> HasActive(s))
    requires ConnInv(s.conns[i])
    ensures OthersClean(ConnectionStep(g, s, i, o)) && PollingsInv(ConnectionStep(g, s, i, o))
    ensures ControlInv(ConnectionStep(g, s, i, o))
  {
    var c := s.conns[i];
    if Clean(c) { CleanStays(c, s.now, o, g.interval); }
    if c.connected || Clean(c) { ConnectedOrCleanStays(c, s.now, o, g.interval); }
    assert Polls(c, s.now, o, g.interval) ==> IsActive(s, i) && c.session.Open?;
  }

  lemma ConnectionStepKeepsInv(g: Settings, s: Sys, i: nat, o: Observation)
    requires Inv(s) && i < |s.conns|
    ensures Inv(ConnectionStep(g, s, i, o))
  {
    ThreadStepKeepsInv(s.conns[i], s.now, o, g.interval);
    UpdateKeepsConnsInv(s.conns, i, ThreadStep(s.conns[i], s.now, o, g.interval));
    ThreadStepKeepsThreadInv(g, s, i, o);
    ConnectionStepKeepsOthers(g, s, i, o);
  }

  lemma OutsideKeepsInv(s: Sys, now: nat, started: bool)
    requires Inv(s) && s.now <= now && (started ==> s.started)
    ensures Inv(s.(now := now, started := started))
  {
  }

  lemma StepKeepsInv(g: Settings, s: Sys, e: Event)
    requires Inv(s)
    ensures Inv(Step(g, s, e))
  {
    hide Inv, MonitorStep, ConnectionStep;
    match e
    case Tick(d) => OutsideKeepsInv(s, s.now + d, s.started);
    case StopRequest => OutsideKeepsInv(s, s.now, false);
    case Monitor => MonitorStepKeepsInv(g, s);
    case Thread(i, o) => if i < |s.conns| { ConnectionStepKeepsInv(g, s, i, o); }
  }

  lemma StepKeepsSize(g: Settings, s: Sys, e: Event)
    ensures |Step(g, s, e).conns| == |s.conns|
  {
  }

  lemma {:induction false} RunKeepsInv(g: Settings, s: Sys, events: seq<Event>)
    requires Inv(s)
    ensures Inv(Run(g, s, events)) && |Run(g, s, events).conns| == |s.conns|
    decreases |events|
  {
    if events == [] {
    } else {
      var before := events[..|events| - 1];
      RunKeepsInv(g, s, before);
      StepKeepsInv(g, Run(g, s, before), events[|events| - 1]);
      StepKeepsSize(g, Run(g, s, before), events[|events| - 1]);
    }
  }

  // ---- What holds on every run ----

  ghost predicate Reachable(g: Settings, n: nat, s: Sys) {
    exists now: nat, events :: s == Run(g, Init(n, now), events)
  }

  lemma ReachableStep(g: Settings, n: nat, s: Sys, e: Event)
    requires Reachable(g, n, s)
    ensures Reachable(g, n, Step(g, s, e))
  {
    var now: nat, events :| s == Run(g, Init(n, now), events);
    RunLast(g, Init(n, now), events, e, events + [e]);
  }

  lemma ReachableInv(g: Settings, n: nat, s: Sys)
    requires Reachable(g, n, s)
    ensures Inv(s) && |s.conns| == n
  {
    var now: nat, events :| s == Run(g, Init(n, now), events);
    InitInv(n, now);
    RunKeepsInv(g, Init(n, now), events);
  }

  /** At most one association: only the active connection may hold anything or want anything. */
  lemma OnlyActiveHolds(g: Settings, n: nat, s: Sys, i: nat)
    requires Reachable(g, n, s) && i < n
    ensures |s.conns| == n
    ensures s.active != Some(i) ==> Clean(s.conns[i])
    ensures forall j: nat :: j < n && s.conns[i].endpoint.Some? && s.conns[j].endpoint.Some? ==> i == j
  {
    ReachableInv(g, n, s);
  }

  /** The flags of a connection follow its phase; two of the phases are never entered. */
  lemma FlagsFollowPhase(g: Settings, n: nat, s: Sys, i: nat)
    requires Reachable(g, n, s) && i < n
    ensures |s.conns| == n
    ensures s.conns[i].phase in {Idle, Connecting, Connected, FatalError}
    ensures s.conns[i].phase == Connected ==> s.conns[i].connected && !s.conns[i].connecting
    ensures s.conns[i].phase == Connecting ==> s.conns[i].connecting
    ensures s.conns[i].connecting ==> s.conns[i].phase in {Connecting, FatalError}
    ensures s.conns[i].phase == Idle ==> s.conns[i].endpoint.None?
    ensures s.conns[i].thread == Running && s.conns[i].phase in {Connecting, Connected}
            ==> s.conns[i].endpoint.Some? && s.conns[i].session.Open?
    ensures s.conns[i].session.Open? ==> s.conns[i].phase in {Connecting, Connected, FatalError}
  {
    ReachableInv(g, n, s);
    assert ConnInv(s.conns[i]);
  }

  /** Every handle the library ever gave out was destroyed exactly once or is the one still held; nothing else is
      ever handed back, and once a thread has ended its connection holds nothing. */
  lemma HandlesConserved(g: Settings, n: nat, s: Sys, i: nat, id: nat)
    requires Reachable(g, n, s) && i < n
    ensures |s.conns| == n
    ensures var c := s.conns[i];
            && c.ledger.endpointsGone[id] == (if id < c.ledger.endpointsMade && c.endpoint != Some(id) then 1 else 0)
            && c.ledger.sessionsGone[Open(id)] == (if id < c.ledger.sessionsMade && c.session != Open(id) then 1 else 0)
            && (c.endpoint == Some(id) ==> id < c.ledger.endpointsMade)
            && (c.session == Open(id) ==> id < c.ledger.sessionsMade)
            && c.ledger.sessionsGone[Uninitialised] == 0
            && (s.control == Done || c.thread == Exited ==> c.endpoint.None? && !c.session.Open?)
  {
    ReachableInv(g, n, s);
    var c := s.conns[i];
    assert ConnInv(c);
    assert c.ledger.endpointsGone[id] >= 0 && c.ledger.sessionsGone[Open(id)] >= 0;
    assert c.ledger.sessionsGone[Uninitialised] == 0;
  }

  /** The session that a control operation would be sent over: that of the active connection. */
  function OperationSession(s: Sys): Session
    requires HasActive(s)
  {
    s.conns[s.active.value].session
  }

  /** A connection is active from the moment the monitor asks for it, so an operation may come before there is a
      session. It has an open one exactly if the thread runs and an attempt is under way or the connection is up. */
  lemma OperationsHaveASessionExactly(g: Settings, n: nat, s: Sys)
    requires Reachable(g, n, s) && s.active.Some?
    ensures HasActive(s)
    ensures var c := s.conns[s.active.value];
            OperationSession(s).Open? <==> c.thread == Running && (c.connecting || c.phase == Connected)
  {
    ReachableInv(g, n, s);
    assert ConnInv(s.conns[s.active.value]);
  }

  /** Three steps from the start the first connection is active and its session pointer has no value. */
  lemma OperationBeforeTheFirstSession(g: Settings, n: nat, now: nat) returns (s: Sys)
    requires n > 0
    ensures Reachable(g, n, s) && s.active == Some(0) && HasActive(s) && OperationSession(s) == Uninitialised
  {
    var s0 := Init(n, now);
    assert s0 == Run(g, Init(n, now), []);
    var s1 := Step(g, s0, Monitor);
    ReachableStep(g, n, s0, Monitor);
    var s2 := Step(g, s1, Monitor);
    ReachableStep(g, n, s1, Monitor);
    s := Step(g, s2, Monitor);
    ReachableStep(g, n, s2, Monitor);
  }

  /** Every round of polling there has ever been read from the connection that asked for it, over an open session. */
  lemma PollsReadTheirOwn(g: Settings, n: nat, s: Sys, k: nat)
    requires Reachable(g, n, s) && k < |s.pollings|
    ensures s.pollings[k].target == Some(s.pollings[k].asker) && s.pollings[k].over.Open?
  {
    ReachableInv(g, n, s);
  }
}
