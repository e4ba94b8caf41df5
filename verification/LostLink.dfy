/** What becomes of the active connection after its link is lost. */
module LostLink {
  import opened Wrappers
  import opened Connection
  import opened Redundancy

  /** The link of connection a stays down, and its library calls otherwise succeed. */
  predicate DownFor(e: Event, a: nat) {
    e.Thread? && e.i == a ==> !e.o.linkUp && e.o.preparation.Ready? && e.o.startOk
  }

  predicate StaysDown(events: seq<Event>, a: nat) {
    NoStop(events) && forall k :: 0 <= k < |events| ==> DownFor(events[k], a)
  }

  /** The clock at each step of connection a. */
  function StepTimes(g: Settings, s: Sys, events: seq<Event>, a: nat): seq<nat>
    decreases |events|
  {
    if events == [] then [] else
      var before := events[..|events| - 1];
      var e := events[|events| - 1];
      StepTimes(g, s, before, a) + if e.Thread? && e.i == a then [Run(g, s, before).now] else []
  }

  /** The second step after the loss restarts the attempt and sets its deadline; none since has come after it. */
  predicate WithinDeadline(times: seq<nat>) {
    forall k :: 2 <= k < |times| ==> times[k] <= times[1] + CONNECT_TIMEOUT
  }

  /** Connection a is active and counts as connected. The monitor may be in its outer loop, about to look at the
      connection, or between its look and the check of the clock. */
  ghost predicate HoldsOn(s: Sys, a: nat) {
    Inv(s) && s.started && IsActive(s, a) && s.conns[a].connected
  }

  lemma HoldsOnControl(s: Sys, a: nat)
    requires HoldsOn(s, a)
    ensures s.control == Outer || ((s.control.Waiting? || s.control.Checking?) && s.control.at == a)
  {
  }

  /** Where the monitor is after some steps in which it found nothing to give up: from the check of the clock it goes
      back to look, and from the look to its outer loop. */
  function ControlAfter(control: Control, steps: nat): Control {
    if control.Checking? then
      if steps == 0 then control else if steps == 1 then Waiting(control.at, control.since) else Outer
    else if steps == 0 then control
    else Outer
  }

  /** If the monitor is about to check the clock, it does so before the time of the connection is over. */
  predicate ChecksInTime(g: Settings, s: Sys, events: seq<Event>) {
    s.control.Checking? ==>
      forall k :: 0 <= k < |events| && events[k].Monitor? && MonitorSteps(events[..k]) == 0 ==>
        Run(g, s, events[..k]).now - s.control.since <= g.timeout
  }

  lemma ChecksInTimeBefore(g: Settings, s: Sys, events: seq<Event>)
    requires events != [] && ChecksInTime(g, s, events)
    ensures var before := events[..|events| - 1];
            && ChecksInTime(g, s, before)
            && (s.control.Checking? && events[|events| - 1].Monitor? && MonitorSteps(before) == 0 ==>
                  Run(g, s, before).now - s.control.since <= g.timeout)
  {
    var before := events[..|events| - 1];
    if s.control.Checking? {
      forall k | 0 <= k < |before| && before[k].Monitor? && MonitorSteps(before[..k]) == 0
        ensures Run(g, s, before[..k]).now - s.control.since <= g.timeout
      {
        assert before[..k] == events[..k];
      }
    }
  }

  /** How far connection a has got after a loss, by the number of its steps since. */
  predicate AfterLoss(c: Conn, times: seq<nat>) {
    && c.connect && c.connected && c.started
    && c.phase == (if |times| == 0 then Connected else if |times| == 1 then Idle else Connecting)
    && (|times| >= 2 ==> c.deadline == times[1] + CONNECT_TIMEOUT)
  }

  lemma AfterLossStep(g: Settings, s: Sys, e: Event, a: nat, times: seq<nat>)
    requires HoldsOn(s, a) && AfterLoss(s.conns[a], times)
    requires e != StopRequest && DownFor(e, a)
    requires e.Thread? && e.i == a && |times| >= 2 ==> s.now <= times[1] + CONNECT_TIMEOUT
    requires e.Monitor? && s.control.Checking? ==> s.now - s.control.since <= g.timeout
    ensures HoldsOn(Step(g, s, e), a)
    ensures AfterLoss(Step(g, s, e).conns[a], if e.Thread? && e.i == a then times + [s.now] else times)
    ensures Step(g, s, e).control == ControlAfter(s.control, if e.Monitor? then 1 else 0)
  {
    StepKeepsInv(g, s, e);
    assert ThreadInv(s.conns[a], a, s.control, s.started);
  }

  lemma AfterLossStart(s: Sys, a: nat)
    requires HoldsOn(s, a) && s.conns[a].phase == Connected
    ensures AfterLoss(s.conns[a], [])
  {
  }

  lemma StaysDownPrefix(events: seq<Event>, a: nat, k: nat)
    requires StaysDown(events, a) && k <= |events|
    ensures StaysDown(events[..k], a)
  {
  }

  lemma WithinDeadlinePrefix(times: seq<nat>, more: seq<nat>)
    requires WithinDeadline(times + more)
    ensures WithinDeadline(times)
    ensures more != [] && |times| >= 2 ==> more[0] <= times[1] + CONNECT_TIMEOUT
  {
    assert forall k :: 0 <= k < |times| ==> times[k] == (times + more)[k];
    if more != [] {
      assert (times + more)[|times|] == more[0];
    }
  }

  /** Until a step comes after the deadline, or a check of the clock after the time of the connection, the monitor does
      not switch, whatever else happens. */
  lemma {:induction false} LostLinkWaits(g: Settings, s: Sys, events: seq<Event>, a: nat)
    requires HoldsOn(s, a) && s.conns[a].phase == Connected
    requires StaysDown(events, a) && WithinDeadline(StepTimes(g, s, events, a)) && ChecksInTime(g, s, events)
    ensures HoldsOn(Run(g, s, events), a)
    ensures AfterLoss(Run(g, s, events).conns[a], StepTimes(g, s, events, a))
    ensures Run(g, s, events).control == ControlAfter(s.control, MonitorSteps(events))
    decreases |events|
  {
    hide AfterLoss, Step, Inv, WithinDeadline, ChecksInTime;
    if events == [] {
      AfterLossStart(s, a);
    } else {
      var before, e := events[..|events| - 1], events[|events| - 1];
      var times := StepTimes(g, s, before, a);
      var s0 := Run(g, s, before);
      WithinDeadlinePrefix(times, if e.Thread? && e.i == a then [s0.now] else []);
      StaysDownPrefix(events, a, |before|);
      ChecksInTimeBefore(g, s, events);
      LostLinkWaits(g, s, before, a);
      AfterLossStep(g, s0, e, a, times);
      if !(e.Thread? && e.i == a) {
        assert times + [] == times;
      }
    }
  }

  /** A check of the clock that comes too late gives up the connection, though it is up or being restarted. */
  lemma LateCheckGivesUp(g: Settings, s: Sys, a: nat)
    requires HoldsOn(s, a) && s.control.Checking? && s.now - s.control.since > g.timeout
    ensures var s' := MonitorStep(g, s);
            s'.active.None? && s'.control == Scan(a + 1) && a < |s'.conns| && Clean(s'.conns[a])
  {
    hide ConnInv;
    assert ConnInv(s.conns[a]);
    DisconnectKeepsInv(s.conns[a]);
  }

  lemma {:induction false} WithinDeadlineBefore(g: Settings, s: Sys, events: seq<Event>, a: nat, k: nat)
    requires k <= |events| && WithinDeadline(StepTimes(g, s, events, a))
    ensures WithinDeadline(StepTimes(g, s, events[..k], a))
    decreases |events|
  {
    hide Run;
    if k == |events| {
      assert events[..k] == events;
    } else {
      var before, e := events[..|events| - 1], events[|events| - 1];
      WithinDeadlinePrefix(StepTimes(g, s, before, a), if e.Thread? && e.i == a then [Run(g, s, before).now] else []);
      WithinDeadlineBefore(g, s, before, a, k);
      assert before[..k] == events[..k];
    }
  }

  lemma ChecksInTimeUpTo(g: Settings, s: Sys, events: seq<Event>, k: nat)
    requires k <= |events| && ChecksInTime(g, s, events)
    ensures ChecksInTime(g, s, events[..k])
  {
    assert forall j :: 0 <= j < k ==> events[..k][..j] == events[..j];
  }

  /** Before the deadline of the restart the monitor keeps the lost connection active throughout exactly if it is not
      between its two looks with a check of the clock to come that is too late. */
  lemma LostLinkIsKeptExactly(g: Settings, s: Sys, events: seq<Event>, a: nat)
    requires HoldsOn(s, a) && s.conns[a].phase == Connected
    requires StaysDown(events, a) && WithinDeadline(StepTimes(g, s, events, a))
    ensures (forall k :: 0 <= k <= |events| ==> IsActive(Run(g, s, events[..k]), a)) <==> ChecksInTime(g, s, events)
  {
    hide Run, WithinDeadline, StaysDown, Inv;
    if ChecksInTime(g, s, events) {
      forall k | 0 <= k <= |events| ensures IsActive(Run(g, s, events[..k]), a) {
        StaysDownPrefix(events, a, k);
        WithinDeadlineBefore(g, s, events, a, k);
        ChecksInTimeUpTo(g, s, events, k);
        LostLinkWaits(g, s, events[..k], a);
      }
    } else {
      var k :| 0 <= k < |events| && events[k].Monitor? && MonitorSteps(events[..k]) == 0
               && Run(g, s, events[..k]).now - s.control.since > g.timeout;
      StaysDownPrefix(events, a, k);
      WithinDeadlineBefore(g, s, events, a, k);
      NoChecks(g, s, events[..k]);
      LostLinkWaits(g, s, events[..k], a);
      LateCheckGivesUp(g, Run(g, s, events[..k]), a);
      assert events[..k + 1] == events[..k] + [events[k]];
      RunLast(g, s, events[..k], events[k], events[..k + 1]);
      assert !IsActive(Run(g, s, events[..k + 1]), a);
    }
  }

  lemma {:induction false} NoChecks(g: Settings, s: Sys, events: seq<Event>)
    requires MonitorSteps(events) == 0
    ensures ChecksInTime(g, s, events) && forall k :: 0 <= k < |events| ==> !events[k].Monitor?
  {
    if events == [] {
    } else {
      NoChecks(g, s, events[..|events| - 1]);
      assert forall k :: 0 <= k < |events| - 1 ==> events[k] == events[..|events| - 1][k];
    }
  }

  /** Connection a is clean again, and the next round of the monitor starts at the first connection. */
  predicate IsGivenUp(g: Settings, s: Sys, a: nat) {
    && s.started && IsActive(s, a) && a < |s.conns| && Clean(s.conns[a])
    && (s.control == Outer ==>
          var s2 := MonitorStep(g, MonitorStep(g, s));
          && s2.control == Waiting(0, s.now) && IsActive(s2, 0)
          && s2.conns == s.conns[0 := s.conns[0].(connect := true)])
  }

  /** The first step after the deadline gives the connection up, and the monitor then starts again at the first
      connection of the configuration. */
  lemma LostLinkIsGivenUp(g: Settings, s: Sys, events: seq<Event>, a: nat, o: Observation)
    requires HoldsOn(s, a) && s.conns[a].phase == Connected
    requires StaysDown(events, a) && WithinDeadline(StepTimes(g, s, events, a)) && ChecksInTime(g, s, events)
    requires |StepTimes(g, s, events, a)| >= 2 && !o.linkUp
    requires Run(g, s, events).now > StepTimes(g, s, events, a)[1] + CONNECT_TIMEOUT
    ensures var s1 := Step(g, Run(g, s, events), Thread(a, o));
            && Inv(s1) && IsGivenUp(g, s1, a)
            && s1.control == ControlAfter(s.control, MonitorSteps(events))
  {
    LostLinkWaits(g, s, events, a);
    var s0 := Run(g, s, events);
    StepKeepsInv(g, s0, Thread(a, o));
    assert ConnInv(s0.conns[a]) && ThreadInv(s0.conns[a], a, s0.control, s0.started);
  }

  // ---- How soon ----

  /** The thread of connection a takes a step at least once in every period, from the start of the run on. */
  predicate Regular(g: Settings, s: Sys, events: seq<Event>, a: nat, period: nat) {
    forall k :: 0 <= k <= |events| ==>
      var times := StepTimes(g, s, events[..k], a);
      Run(g, s, events[..k]).now <= (if times == [] then s.now else times[|times| - 1]) + period
  }

  lemma {:induction false} StepTimesRegular(g: Settings, s: Sys, events: seq<Event>, a: nat, period: nat)
    requires Regular(g, s, events, a, period)
    ensures var times := StepTimes(g, s, events, a);
            && (|times| > 0 ==> times[0] <= s.now + period)
            && (|times| > 1 ==> times[1] <= s.now + 2 * period)
    decreases |events|
  {
    if events == [] {
    } else {
      var before := events[..|events| - 1];
      assert Regular(g, s, before, a, period) by {
        forall k | 0 <= k <= |before|
          ensures var times := StepTimes(g, s, before[..k], a);
                  Run(g, s, before[..k]).now <= (if times == [] then s.now else times[|times| - 1]) + period
        {
          assert before[..k] == events[..k];
        }
      }
      StepTimesRegular(g, s, before, a, period);
      assert events[..|before|] == before;
    }
  }

  /** Where the run first takes a step past the deadline. */
  lemma {:induction false} FirstLateStep(g: Settings, s: Sys, events: seq<Event>, a: nat) returns (k: nat)
    requires !WithinDeadline(StepTimes(g, s, events, a))
    ensures k < |events|
    ensures var times := StepTimes(g, s, events[..k], a);
            && events[k].Thread? && events[k].i == a
            && WithinDeadline(times) && |times| >= 2
            && Run(g, s, events[..k]).now > times[1] + CONNECT_TIMEOUT
    decreases |events|
  {
    var before := events[..|events| - 1];
    if WithinDeadline(StepTimes(g, s, before, a)) {
      k := |before|;
      var times, times' := StepTimes(g, s, before, a), StepTimes(g, s, events, a);
      assert forall j :: 0 <= j < |times| ==> times[j] == times'[j];
    } else {
      k := FirstLateStep(g, s, before, a);
      assert before[..k] == events[..k];
    }
  }

  /** If the thread keeps stepping once a period, the connection is given up within the connection timeout and
      three periods of the loss. */
  lemma LostLinkIsGivenUpInTime(g: Settings, s: Sys, events: seq<Event>, a: nat, period: nat)
    returns (k: nat)
    requires HoldsOn(s, a) && s.conns[a].phase == Connected
    requires StaysDown(events, a) && Regular(g, s, events, a, period) && ChecksInTime(g, s, events)
    requires Run(g, s, events).now > s.now + CONNECT_TIMEOUT + 3 * period
    ensures 0 < k <= |events|
    ensures var s1 := Run(g, s, events[..k]);
            && s1.now <= s.now + CONNECT_TIMEOUT + 3 * period && IsGivenUp(g, s1, a)
            && s1.control == ControlAfter(s.control, MonitorSteps(events[..k]))
  {
    hide Inv, Step, IsGivenUp, HoldsOn, Regular, ChecksInTime;
    RegularMeansLate(g, s, events, a, period);
    var j := FirstLateStep(g, s, events, a);
    k := j + 1;
    var before := events[..j];
    assert events[..k] == before + [events[j]];
    RunLast(g, s, before, events[j], events[..k]);
    StaysDownPrefix(events, a, j);
    ChecksInTimeUpTo(g, s, events, j);
    assert DownFor(events[j], a);
    LostLinkIsGivenUp(g, s, before, a, events[j].o);
    LateStepIsSoon(g, s, events, a, period, j);
    StepOfThread(g, Run(g, s, before), events[j]);
  }

  lemma StepOfThread(g: Settings, s: Sys, e: Event)
    requires e.Thread?
    ensures Step(g, s, e).now == s.now
  {
  }

  lemma RegularMeansLate(g: Settings, s: Sys, events: seq<Event>, a: nat, period: nat)
    requires Regular(g, s, events, a, period)
    requires Run(g, s, events).now > s.now + CONNECT_TIMEOUT + 3 * period
    ensures !WithinDeadline(StepTimes(g, s, events, a))
  {
    hide Run, StepTimes;
    var times := StepTimes(g, s, events, a);
    StepTimesRegular(g, s, events, a, period);
    assert events[..|events|] == events;
    assert |times| >= 3 && times[|times| - 1] > times[1] + CONNECT_TIMEOUT;
  }

  lemma LateStepIsSoon(g: Settings, s: Sys, events: seq<Event>, a: nat, period: nat, j: nat)
    requires Regular(g, s, events, a, period) && j <= |events|
    requires WithinDeadline(StepTimes(g, s, events[..j], a)) && |StepTimes(g, s, events[..j], a)| >= 2
    ensures Run(g, s, events[..j]).now <= s.now + CONNECT_TIMEOUT + 3 * period
  {
    PrefixRegular(g, s, events, a, period, j);
    StepTimesRegular(g, s, events[..j], a, period);
    assert events[..j][..j] == events[..j];
  }

  lemma PrefixRegular(g: Settings, s: Sys, events: seq<Event>, a: nat, period: nat, j: nat)
    requires j <= |events| && Regular(g, s, events, a, period)
    ensures Regular(g, s, events[..j], a, period)
  {
    forall k | 0 <= k <= j ensures events[..j][..k] == events[..k] {
    }
  }

  // ---- When the restart itself fails ----

  /** A lost connection whose restart failed is neither connecting nor disconnected: unless a check of the clock gives
      it up, nothing moves until a stop. */
  lemma {:induction false} FailedRestartIsForever(g: Settings, s: Sys, events: seq<Event>, a: nat)
    requires HoldsOn(s, a) && s.conns[a].phase == FatalError
    requires NoStop(events) && ChecksInTime(g, s, events)
    ensures var s' := Run(g, s, events);
            && HoldsOn(s', a) && s'.conns == s.conns
            && s'.control == ControlAfter(s.control, MonitorSteps(events))
    decreases |events|
  {
    hide ChecksInTime, Inv;
    if events == [] {
    } else {
      var before, e := events[..|events| - 1], events[|events| - 1];
      assert NoStop(before) by {
        assert forall k :: 0 <= k < |before| ==> before[k] == events[k];
      }
      ChecksInTimeBefore(g, s, events);
      FailedRestartIsForever(g, s, before, a);
      StuckStep(g, Run(g, s, before), e, a);
    }
  }

  lemma StuckStep(g: Settings, s: Sys, e: Event, a: nat)
    requires HoldsOn(s, a) && s.conns[a].phase == FatalError
    requires e != StopRequest && (e.Monitor? && s.control.Checking? ==> s.now - s.control.since <= g.timeout)
    ensures HoldsOn(Step(g, s, e), a) && Step(g, s, e).conns == s.conns
    ensures Step(g, s, e).control == ControlAfter(s.control, if e.Monitor? then 1 else 0)
  {
    StepKeepsInv(g, s, e);
    if e.Thread? && e.i < |s.conns| {
      assert ThreadInv(s.conns[e.i], e.i, s.control, s.started);
      assert ThreadStep(s.conns[e.i], s.now, e.o, g.interval) == s.conns[e.i];
    }
  }

  /** Some run without a stop leads from the one state to the other. */
  ghost predicate CanReach(g: Settings, s: Sys, s': Sys) {
    exists events :: NoStop(events) && Run(g, s, events) == s'
  }

  lemma CanReachMore(g: Settings, s: Sys, s': Sys, e: Event)
    requires s == s' || CanReach(g, s, s')
    requires e != StopRequest
    ensures CanReach(g, s, Step(g, s', e))
  {
    if s == s' {
      RunOne(g, s, e);
      assert NoStop([e]);
    } else {
      var events :| NoStop(events) && Run(g, s, events) == s';
      RunLast(g, s, events, e, events + [e]);
      assert NoStop(events + [e]);
    }
  }

  /** The monitor has turned to a connection other than a. */
  predicate HasTurnedFrom(s: Sys, a: nat) {
    s.active.Some? && s.active != Some(a)
  }

  /** A connection that was restarted in vain can be given up: the monitor sees that it is connected, the deadline
      passes, and the monitor looks again. */
  lemma RestartedIsGivenUp(g: Settings, s: Sys, a: nat) returns (s': Sys)
    requires HoldsOn(s, a) && s.conns[a].phase == Connecting && !s.control.Checking?
    ensures CanReach(g, s, s') && Inv(s') && s'.control == Scan(0) && |s'.conns| == |s.conns|
  {
    assert ThreadInv(s.conns[a], a, s.control, s.started);
    var s1 := Step(g, s, Monitor);
    CanReachMore(g, s, s, Monitor);
    StepKeepsInv(g, s, Monitor);
    var late := Tick(s1.conns[a].deadline + 1);
    var s2 := Step(g, s1, late);
    CanReachMore(g, s, s1, late);
    StepKeepsInv(g, s1, late);
    var down := Thread(a, Observation(false, Ready, true));
    var s3 := Step(g, s2, down);
    CanReachMore(g, s, s2, down);
    StepKeepsInv(g, s2, down);
    s' := Step(g, s3, Monitor);
    CanReachMore(g, s, s3, Monitor);
    StepKeepsInv(g, s3, Monitor);
  }

  /** From the start of a scan a connection other than a can become the active one, if there is one. */
  lemma ScanReachesAnother(g: Settings, s0: Sys, s: Sys, a: nat) returns (s': Sys)
    requires CanReach(g, s0, s) && Inv(s) && s.control == Scan(0) && |s.conns| > 1
    ensures CanReach(g, s0, s') && HasTurnedFrom(s', a)
  {
    hide CanReach, ConnsInv, PollingsInv, ThreadsInv;
    s' := Step(g, s, Monitor);
    CanReachMore(g, s0, s, Monitor);
    if a == 0 {
      assert !s.conns[0].connected;
      var late := Tick(if g.timeout < 0 then 0 else g.timeout + 1);
      var s2 := Step(g, s', late);
      CanReachMore(g, s0, s', late);
      var s3 := Step(g, s2, Monitor);
      CanReachMore(g, s0, s2, Monitor);
      var s4 := Step(g, s3, Monitor);
      CanReachMore(g, s0, s3, Monitor);
      s' := Step(g, s4, Monitor);
      CanReachMore(g, s0, s4, Monitor);
    }
  }

  /** From the check of the clock another connection can become the active one, whatever connection a does. */
  lemma CheckReachesAnother(g: Settings, s: Sys, a: nat) returns (scan: Sys, s': Sys)
    requires HoldsOn(s, a) && s.control.Checking?
    ensures CanReach(g, s, scan) && scan.control.Scan?
    ensures CanReach(g, s, s') && (|s.conns| > 1 ==> HasTurnedFrom(s', a))
  {
    var late := Tick(if g.timeout < 0 then 0 else g.timeout + 1);
    var s1 := Step(g, s, late);
    CanReachMore(g, s, s, late);
    StepKeepsInv(g, s, late);
    LateCheckGivesUp(g, s1, a);
    scan := Step(g, s1, Monitor);
    CanReachMore(g, s, s1, Monitor);
    StepKeepsInv(g, s1, Monitor);
    s' := scan;
    if |s.conns| > 1 {
      s' := AfterGivingUp(g, s, scan, a);
    }
  }

  /** With connection a given up the monitor turns to the next one, or scans again from the first. */
  lemma AfterGivingUp(g: Settings, s0: Sys, s: Sys, a: nat) returns (s': Sys)
    requires CanReach(g, s0, s) && Inv(s) && s.started && s.control == Scan(a + 1) && s.active.None? && |s.conns| > 1
    ensures CanReach(g, s0, s') && HasTurnedFrom(s', a)
  {
    var s1 := Step(g, s, Monitor);
    CanReachMore(g, s0, s, Monitor);
    StepKeepsInv(g, s, Monitor);
    s' := s1;
    if a + 1 == |s.conns| {
      var s2 := Step(g, s1, Monitor);
      CanReachMore(g, s0, s1, Monitor);
      StepKeepsInv(g, s1, Monitor);
      s' := ScanReachesAnother(g, s0, s2, a);
    }
  }

  /** After a lost link the monitor can ever scan again, and turn to another connection if there is one, exactly when
      the restart of the lost one got both of its handles and was accepted, or the monitor is still between its look
      at the connection and the check of the clock. Otherwise a failed restart blocks the failover for good. */
  lemma RestartDecidesFailover(g: Settings, s: Sys, a: nat, o: Observation)
    requires HoldsOn(s, a) && s.conns[a].phase == Idle
    ensures var s1, free := Step(g, s, Thread(a, o)), s.control.Checking? || (o.preparation.Ready? && o.startOk);
            && (free <==> exists s' :: CanReach(g, s1, s') && s'.control.Scan?)
            && (|s.conns| > 1 ==> (free <==> exists s' :: CanReach(g, s1, s') && HasTurnedFrom(s', a)))
  {
    var s1 := Step(g, s, Thread(a, o));
    StepKeepsInv(g, s, Thread(a, o));
    HoldsOnControl(s, a);
    assert ConnInv(s.conns[a]) && ThreadInv(s.conns[a], a, s.control, s.started);
    if s.control.Checking? {
      var s2, s3 := CheckReachesAnother(g, s1, a);
    } else if o.preparation.Ready? && o.startOk {
      var s2 := RestartedIsGivenUp(g, s1, a);
      if |s.conns| > 1 {
        var s3 := ScanReachesAnother(g, s1, s2, a);
      }
    } else {
      forall s' | CanReach(g, s1, s') ensures !s'.control.Scan? && !HasTurnedFrom(s', a) {
        var events :| NoStop(events) && Run(g, s1, events) == s';
        FailedRestartIsForever(g, s1, events, a);
        HoldsOnControl(s', a);
      }
    }
  }

  /** Such a restart does happen. With any number of connections and any settings there is a run from the start to a
      lost link of the first connection, and one failed restart later nothing moves any more. */
  lemma StuckClientIsReachable(g: Settings, n: nat, now: nat) returns (lost: Sys, stuck: Sys)
    requires n > 0
    ensures Reachable(g, n, lost) && HoldsOn(lost, 0) && lost.control == Outer && lost.conns[0].phase == Idle
    ensures stuck == Step(g, lost, Thread(0, Observation(false, NoEndpoint, true))) && Reachable(g, n, stuck)
    ensures forall s' :: CanReach(g, stuck, s') ==> s'.active == Some(0) && s'.conns == stuck.conns
  {
    hide Inv;
    lost := LostClient(g, n, now);
    var failed := Thread(0, Observation(false, NoEndpoint, true));
    stuck := Step(g, lost, failed);
    ReachableStep(g, n, lost, failed);
    ReachableInv(g, n, stuck);
    assert lost.conns[0].started && lost.conns[0].connect && lost.conns[0].thread == Running;
    forall s' | CanReach(g, stuck, s') ensures s'.active == Some(0) && s'.conns == stuck.conns {
      var events :| NoStop(events) && Run(g, stuck, events) == s';
      FailedRestartIsForever(g, stuck, events, 0);
    }
  }

  /** The monitor starts the threads, turns to the first connection and looks at it once, too early. */
  lemma FirstLook(g: Settings, n: nat, now: nat) returns (s: Sys)
    requires n > 0
    ensures Reachable(g, n, s) && s.control == Checking(0, now) && s.now == now && s.active == Some(0) && s.started
    ensures |s.conns| == n && s.conns[0] == NEW_CONNECTION.(started := true, thread := Running, connect := true)
  {
    var s0 := Init(n, now);
    assert s0 == Run(g, Init(n, now), []);
    var s1 := Step(g, s0, Monitor);
    ReachableStep(g, n, s0, Monitor);
    var s2 := Step(g, s1, Monitor);
    ReachableStep(g, n, s1, Monitor);
    var s3 := Step(g, s2, Monitor);
    ReachableStep(g, n, s2, Monitor);
    s := Step(g, s3, Monitor);
    ReachableStep(g, n, s3, Monitor);
  }

  /** Then the connection comes up and loses its link before the monitor checks the clock. */
  lemma LostBetweenTheLooks(g: Settings, n: nat, now: nat) returns (s: Sys)
    requires n > 0
    ensures Reachable(g, n, s) && HoldsOn(s, 0) && s.control == Checking(0, now) && s.now == now
    ensures var c := s.conns[0];
            c.phase == Idle && c.connected && c.started && c.connect && c.thread == Running
  {
    hide Inv;
    var up, down := Thread(0, Observation(true, Ready, true)), Thread(0, Observation(false, Ready, true));
    var s1 := FirstLook(g, n, now);
    var s2 := Step(g, s1, down);
    ReachableStep(g, n, s1, down);
    var s3 := Step(g, s2, up);
    ReachableStep(g, n, s2, up);
    s := Step(g, s3, down);
    ReachableStep(g, n, s3, down);
    ReachableInv(g, n, s);
  }

  /** There, with another connection, the monitor fails over even though the restart fails. */
  lemma FailoverDespiteFailedRestart(g: Settings, n: nat, now: nat) returns (lost: Sys, s: Sys)
    requires n > 1
    ensures Reachable(g, n, lost) && HoldsOn(lost, 0) && lost.conns[0].phase == Idle
    ensures CanReach(g, Step(g, lost, Thread(0, Observation(false, NoEndpoint, true))), s) && HasTurnedFrom(s, 0)
  {
    hide Step, CanReach;
    lost := LostBetweenTheLooks(g, n, now);
    ReachableInv(g, n, lost);
    var failed := Observation(false, NoEndpoint, true);
    RestartDecidesFailover(g, lost, 0, failed);
    s :| CanReach(g, Step(g, lost, Thread(0, failed)), s) && HasTurnedFrom(s, 0);
  }

  /** Or it comes up before the monitor first looks, is seen to be up, and then loses its link. */
  lemma LostClient(g: Settings, n: nat, now: nat) returns (s: Sys)
    requires n > 0
    ensures Reachable(g, n, s) && HoldsOn(s, 0) && s.control == Outer
    ensures var c := s.conns[0];
            c.phase == Idle && c.connected && c.started && c.connect && c.thread == Running
  {
    hide Inv;
    s := Init(n, now);
    assert s == Run(g, Init(n, now), []);
    var up, down := Thread(0, Observation(true, Ready, true)), Thread(0, Observation(false, Ready, true));
    var s1 := Step(g, s, Monitor);
    ReachableStep(g, n, s, Monitor);
    var s2 := Step(g, s1, Monitor);
    ReachableStep(g, n, s1, Monitor);
    var s3 := Step(g, s2, Monitor);
    ReachableStep(g, n, s2, Monitor);
    var s4 := Step(g, s3, down);
    ReachableStep(g, n, s3, down);
    var s5 := Step(g, s4, up);
    ReachableStep(g, n, s4, up);
    var s6 := Step(g, s5, Monitor);
    ReachableStep(g, n, s5, Monitor);
    s := Step(g, s6, down);
    ReachableStep(g, n, s6, down);
    ReachableInv(g, n, s);
  }
}
