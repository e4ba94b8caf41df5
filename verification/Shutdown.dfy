/** The end of the client after a request to stop: a rank that no step raises, and that every round of steps lowers. */
module Shutdown {
  import opened Wrappers
  import opened Connection
  import opened Redundancy

  /** How far the monitor is from its end. A scan goes on to its end first; then every connection is told to stop and
      its thread is waited for. */
  function Rank(s: Sys): nat {
    var n := |s.conns|;
    match s.control
    case Starting => 3 * n + 3
    case Outer => 3 * n + 2
    case Scan(i) => 3 * n + 3 + 2 * (if i < n then n - i else 0)
    case Waiting(i, _) => 3 * n + 2 + 2 * (if i < n then n - i else 0)
    case Checking(i, _) => 3 * n + 2 + 2 * (if i < n then n - i else 0)
    case Stopping(i) => 1 + 3 * (if i < n then n - i else 0)
    case Joining(i) => if i >= n then 0 else 3 * (n - i) - (if s.conns[i].thread == Running then 0 else 1)
    case Done => 0
  }

  /** The client has been asked to stop. */
  ghost predicate IsEnding(s: Sys) {
    Inv(s) && !s.started
  }

  /** The monitor is at the same place, or between the two looks of the same wait. */
  predicate SamePlace(a: Control, b: Control) {
    || a == b
    || ((a.Waiting? || a.Checking?) && (b.Waiting? || b.Checking?) && a.at == b.at && a.since == b.since)
  }

  /** No step of the monitor raises the rank. It lowers it unless the client has ended, the thread that is waited for
      still runs, or the wait for a connection goes on. */
  lemma MonitorRank(g: Settings, s: Sys)
    requires IsEnding(s)
    ensures var s' := MonitorStep(g, s);
            && |s'.conns| == |s.conns| && Rank(s') <= Rank(s)
            && (Rank(s') == Rank(s) ==>
                  match s.control
                  case Done => s'.control == Done
                  case Joining(i) => s'.control == s.control && i < |s.conns| && s.conns[i].thread == Running
                  case Waiting(i, since) => s'.control == Checking(i, since)
                  case Checking(i, since) => s'.control == Waiting(i, since) && s.now - since <= g.timeout
                  case _ => false)
  {
    hide AfterDisconnect, ConnsInv, OthersClean, PollingsInv;
    if s.control.Joining? {
      assert ThreadInv(s.conns[s.control.at], s.control.at, s.control, s.started);
    } else if s.control.Stopping? && s.control.next < |s.conns| {
      assert ThreadInv(s.conns[s.control.next], s.control.next, s.control, s.started);
    }
  }

  /** Nor does any other step. The exit of the thread that is waited for lowers it. */
  lemma OtherRank(g: Settings, s: Sys, e: Event)
    requires IsEnding(s) && !e.Monitor?
    ensures var s' := Step(g, s, e);
            && |s'.conns| == |s.conns| && s'.control == s.control && Rank(s') <= Rank(s) && s'.now >= s.now
            && (s.control.Joining? && e.Thread? && e.i == s.control.at && s.conns[e.i].thread == Running ==>
                  Rank(s') < Rank(s))
  {
    hide ConnsInv, OthersClean, PollingsInv;
    if e.Thread? && s.control.Joining? && e.i == s.control.at {
      assert ThreadInv(s.conns[e.i], e.i, s.control, s.started);
      ThreadOnlyExits(s.conns[e.i], s.now, e.o, g.interval);
    }
  }

  lemma ThreadOnlyExits(c: Conn, now: nat, o: Observation, interval: int)
    ensures c.thread != Running ==> ThreadStep(c, now, o, interval).thread == c.thread
    ensures c.thread == Running && !c.started ==> ThreadStep(c, now, o, interval).thread == Exited
  {
  }

  lemma StepEnding(g: Settings, s: Sys, e: Event)
    requires IsEnding(s)
    ensures var s' := Step(g, s, e);
            && IsEnding(s') && |s'.conns| == |s.conns| && Rank(s') <= Rank(s) && s'.now >= s.now
            && (Rank(s') == Rank(s) ==> SamePlace(s.control, s'.control))
  {
    StepKeepsInv(g, s, e);
    hide Inv, Rank;
    if e.Monitor? {
      MonitorRank(g, s);
    } else {
      OtherRank(g, s, e);
    }
  }

  lemma {:induction false} RunEnding(g: Settings, s: Sys, events: seq<Event>)
    requires IsEnding(s)
    ensures var s' := Run(g, s, events);
            && IsEnding(s') && |s'.conns| == |s.conns| && Rank(s') <= Rank(s) && s'.now >= s.now + Elapsed(events)
            && (Rank(s') == Rank(s) ==> SamePlace(s.control, s'.control))
    decreases |events|
  {
    hide Inv, Rank, IsEnding;
    if events == [] {
    } else {
      var before, e := events[..|events| - 1], events[|events| - 1];
      RunEnding(g, s, before);
      StepEnding(g, Run(g, s, before), e);
      TimePasses(g, Run(g, s, before), e);
    }
  }

  lemma TimePasses(g: Settings, s: Sys, e: Event)
    ensures Step(g, s, e).now == s.now + if e.Tick? then e.elapsed else 0
  {
  }

  /** If a run does not lower the rank, neither does any part of it. */
  lemma NoneLowers(g: Settings, s: Sys, events: seq<Event>, k: nat)
    requires IsEnding(s) && k <= |events| && Rank(Run(g, s, events)) == Rank(s)
    ensures IsEnding(Run(g, s, events[..k])) && Rank(Run(g, s, events[..k])) == Rank(s)
    ensures Run(g, s, events) == Run(g, Run(g, s, events[..k]), events[k..])
    ensures k < |events| ==> Rank(Step(g, Run(g, s, events[..k]), events[k])) == Rank(s)
    ensures SamePlace(s.control, Run(g, s, events[..k]).control)
  {
    hide Inv, Rank, IsEnding, Step;
    assert events == events[..k] + events[k..];
    RunAppend(g, s, events[..k], events[k..]);
    RunEnding(g, s, events[..k]);
    RunEnding(g, Run(g, s, events[..k]), events[k..]);
    if k < |events| {
      assert events == events[..k + 1] + events[k + 1..] && events[..k + 1] == events[..k] + [events[k]];
      RunAppend(g, s, events[..k + 1], events[k + 1..]);
      RunLast(g, s, events[..k], events[k], events[..k + 1]);
      RunEnding(g, s, events[..k + 1]);
      RunEnding(g, Run(g, s, events[..k + 1]), events[k + 1..]);
    }
  }

  // ---- One round ----

  /** A round of steps: enough time passes for any wait to run out, then the monitor takes two steps, and at any time
      the thread of each connection takes a step. Anything else may happen in between. */
  predicate IsRound(g: Settings, n: nat, events: seq<Event>, k: nat) {
    && k <= |events|
    && Elapsed(events[..k]) > g.timeout
    && MonitorSteps(events[k..]) >= 2
    && forall i: nat :: i < n ==> Steps(events, i)
  }

  predicate Steps(events: seq<Event>, i: nat) {
    exists k :: 0 <= k < |events| && events[k].Thread? && events[k].i == i
  }

  lemma {:induction false} SomeMonitorStep(events: seq<Event>) returns (k: nat)
    requires MonitorSteps(events) > 0
    ensures k < |events| && events[k].Monitor?
  {
    var n := |events| - 1;
    if events[n].Monitor? {
      k := n;
    } else {
      k := SomeMonitorStep(events[..n]);
    }
  }

  /** With the time of a connection over, two steps of the monitor end the wait for it. */
  lemma {:induction false} LateLooks(g: Settings, s: Sys, events: seq<Event>)
    requires IsEnding(s) && (s.control.Waiting? || s.control.Checking?) && s.now - s.control.since > g.timeout
    ensures var s' := Run(g, s, events);
            || Rank(s') < Rank(s)
            || (MonitorSteps(events) == 0 && s'.control == s.control)
            || (&& MonitorSteps(events) == 1 && s.control.Waiting?
                && s'.control == Checking(s.control.at, s.control.since))
    decreases |events|
  {
    hide Inv, Rank, IsEnding;
    if events == [] {
    } else {
      var before, e := events[..|events| - 1], events[|events| - 1];
      LateLooks(g, s, before);
      RunEnding(g, s, before);
      StepEnding(g, Run(g, s, before), e);
      if e.Monitor? {
        MonitorRank(g, Run(g, s, before));
      } else {
        OtherRank(g, Run(g, s, before), e);
      }
    }
  }

  /** One round lowers the rank, unless the client has ended. */
  lemma RoundLowers(g: Settings, s: Sys, events: seq<Event>, k: nat)
    requires IsEnding(s) && s.control != Done && IsRound(g, |s.conns|, events, k)
    ensures Rank(Run(g, s, events)) < Rank(s)
  {
    hide Inv, Rank, IsEnding, Step, MonitorStep;
    RunEnding(g, s, events);
    if Rank(Run(g, s, events)) == Rank(s) {
      NoneLowers(g, s, events, k);
      var s1 := Run(g, s, events[..k]);
      RunEnding(g, s, events[..k]);
      if s.control.Waiting? || s.control.Checking? {
        WaitingSince(s);
        LateLooks(g, s1, events[k..]);
      } else if s.control.Joining? {
        JoiningEnds(g, s, events, k);
      } else {
        var m := SomeMonitorStep(events[k..]);
        assert events[k..][m] == events[k + m];
        NoneLowers(g, s, events, k + m);
        RunEnding(g, s, events[..k + m]);
        MonitorRank(g, Run(g, s, events[..k + m]));
        StepIsMonitor(g, Run(g, s, events[..k + m]));
        assert false;
      }
    }
  }

  lemma StepIsMonitor(g: Settings, s: Sys)
    ensures Step(g, s, Event.Monitor) == MonitorStep(g, s)
  {
  }

  lemma WaitingSince(s: Sys)
    requires IsEnding(s) && (s.control.Waiting? || s.control.Checking?)
    ensures s.control.since <= s.now
  {
  }

  lemma JoiningEnds(g: Settings, s: Sys, events: seq<Event>, k: nat)
    requires IsEnding(s) && s.control.Joining? && IsRound(g, |s.conns|, events, k)
    ensures Rank(Run(g, s, events)) < Rank(s)
  {
    hide Inv, Rank, IsEnding, Step, MonitorStep;
    RunEnding(g, s, events);
    if Rank(Run(g, s, events)) == Rank(s) {
      var i := s.control.at;
      JoiningIs(s);
      assert Steps(events, i);
      var t :| 0 <= t < |events| && events[t].Thread? && events[t].i == i;
      NoneLowers(g, s, events, t);
      RunEnding(g, s, events[..t]);
      OtherRank(g, Run(g, s, events[..t]), events[t]);
      JoiningIs(Run(g, s, events[..t]));
      JoiningRank(s, Run(g, s, events[..t]));
      var m := SomeMonitorStep(events[k..]);
      assert events[k..][m] == events[k + m];
      NoneLowers(g, s, events, k + m);
      RunEnding(g, s, events[..k + m]);
      JoiningRank(s, Run(g, s, events[..k + m]));
      MonitorRank(g, Run(g, s, events[..k + m]));
      StepIsMonitor(g, Run(g, s, events[..k + m]));
      assert false;
    }
  }

  lemma JoiningIs(s: Sys)
    requires IsEnding(s) && s.control.Joining?
    ensures s.control.at < |s.conns|
  {
  }

  /** At the same place with the same rank, the thread that is waited for still runs or has exited in both. */
  lemma JoiningRank(s: Sys, s': Sys)
    requires s.control.Joining? && s'.control == s.control && |s'.conns| == |s.conns| && Rank(s') == Rank(s)
    requires s.control.at < |s.conns|
    ensures s.conns[s.control.at].thread == Running <==> s'.conns[s.control.at].thread == Running
  {
  }

  // ---- The end ----

  function Concat(rounds: seq<seq<Event>>): seq<Event> {
    if rounds == [] then [] else Concat(rounds[..|rounds| - 1]) + rounds[|rounds| - 1]
  }

  ghost predicate IsSomeRound(g: Settings, n: nat, events: seq<Event>) {
    exists k: nat :: IsRound(g, n, events, k)
  }

  ghost predicate AreRounds(g: Settings, n: nat, rounds: seq<seq<Event>>) {
    forall r :: 0 <= r < |rounds| ==> IsSomeRound(g, n, rounds[r])
  }

  lemma {:induction false} RoundsLower(g: Settings, s: Sys, rounds: seq<seq<Event>>)
    requires IsEnding(s) && AreRounds(g, |s.conns|, rounds)
    ensures var s' := Run(g, s, Concat(rounds));
            && IsEnding(s') && |s'.conns| == |s.conns|
            && (s'.control == Done || Rank(s') + |rounds| <= Rank(s))
  {
    hide Inv, Rank, IsEnding, Run;
    if rounds == [] {
      RunNothing(g, s);
    } else {
      var n := |rounds| - 1;
      assert IsSomeRound(g, |s.conns|, rounds[n]);
      forall r | 0 <= r < n ensures IsSomeRound(g, |s.conns|, rounds[..n][r]) {
        assert rounds[..n][r] == rounds[r];
      }
      RoundsLower(g, s, rounds[..n]);
      RunAppend(g, s, Concat(rounds[..n]), rounds[n]);
      var s1 := Run(g, s, Concat(rounds[..n]));
      RunEnding(g, s1, rounds[n]);
      var k: nat :| IsRound(g, |s.conns|, rounds[n], k);
      if s1.control == Done {
        DoneStays(g, s1, rounds[n]);
      } else {
        RoundLowers(g, s1, rounds[n], k);
      }
    }
  }

  lemma RunNothing(g: Settings, s: Sys)
    ensures Run(g, s, []) == s
  {
  }

  lemma {:induction false} DoneStays(g: Settings, s: Sys, events: seq<Event>)
    requires s.control == Done
    ensures Run(g, s, events).control == Done
    decreases |events|
  {
    if events == [] {
    } else {
      DoneStays(g, s, events[..|events| - 1]);
    }
  }

  /** Nothing is left at the end: every thread has exited or was never started, and no handle is held. */
  predicate HasEnded(s: Sys) {
    && s.control == Done
    && forall i :: 0 <= i < |s.conns| ==>
         && s.conns[i].thread != Running && s.conns[i].endpoint.None? && !s.conns[i].session.Open?
  }

  lemma DoneHasEnded(s: Sys)
    requires Inv(s) && s.control == Done
    ensures HasEnded(s)
  {
    forall i | 0 <= i < |s.conns|
      ensures s.conns[i].thread != Running && s.conns[i].endpoint.None? && !s.conns[i].session.Open?
    {
      assert ConnInv(s.conns[i]);
    }
  }

  lemma ZeroIsDone(s: Sys)
    requires IsEnding(s) && Rank(s) == 0
    ensures s.control == Done
  {
  }

  /** From every reachable state: after a request to stop, as many rounds of steps as the rank says, in whatever order
      the steps come within them, end the client. */
  lemma ShutdownEnds(g: Settings, n: nat, s: Sys, rounds: seq<seq<Event>>)
    requires Reachable(g, n, s) && AreRounds(g, n, rounds) && |rounds| >= Rank(s)
    ensures HasEnded(Run(g, s, [StopRequest] + Concat(rounds)))
  {
    hide Inv, Rank, Run, AreRounds, HasEnded;
    ReachableInv(g, n, s);
    var s1 := Step(g, s, StopRequest);
    StepKeepsInv(g, s, StopRequest);
    RunOne(g, s, StopRequest);
    RunAppend(g, s, [StopRequest], Concat(rounds));
    SameRank(s, s1);
    RoundsLower(g, s1, rounds);
    var s2 := Run(g, s1, Concat(rounds));
    if s2.control != Done {
      ZeroIsDone(s2);
    }
    DoneHasEnded(s2);
  }

  lemma SameRank(s: Sys, s': Sys)
    requires s'.control == s.control && s'.conns == s.conns
    ensures Rank(s') == Rank(s)
  {
  }

  /** The rank is bounded by the number of connections alone. */
  lemma RankIsBounded(g: Settings, n: nat, s: Sys)
    requires Reachable(g, n, s)
    ensures Rank(s) <= 5 * n + 3
  {
    ReachableInv(g, n, s);
  }

  // ---- No end and no start without reason ----

  /** Without a request to stop no thread is ever told to stop and none ends. */
  lemma NoEndWithoutStop(g: Settings, n: nat, s: Sys, i: nat)
    requires Reachable(g, n, s) && i < n && s.started
    ensures |s.conns| == n && s.control != Done && s.conns[i].thread != Exited
    ensures s.control == Starting || (s.conns[i].thread == Running && s.conns[i].started)
  {
    ReachableInv(g, n, s);
    assert ThreadInv(s.conns[i], i, s.control, s.started);
  }

  /** A client that is asked to stop before it has started never starts a thread. */
  lemma {:induction false} StopBeforeStart(g: Settings, s: Sys, events: seq<Event>)
    requires !s.started && forall i :: 0 <= i < |s.conns| ==> s.conns[i] == NEW_CONNECTION
    requires s.control == Starting
    ensures var s' := Run(g, s, events);
            && !s'.started
            && (s'.control == Starting || s'.control == Outer || s'.control.Stopping? || s'.control == Done)
            && s'.conns == s.conns
    decreases |events|
  {
    if events == [] {
    } else {
      StopBeforeStart(g, s, events[..|events| - 1]);
    }
  }
}
