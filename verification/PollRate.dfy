/** How often one connection polls, over any number of reconnects. */
module PollRate {
  import opened Connection
  import opened Redundancy

  predicate AllPollInv(g: Settings, s: Sys) {
    forall i :: 0 <= i < |s.conns| ==> PollInv(s.conns[i], s.now, g.interval)
  }

  lemma ThreadEventKeepsPollInv(g: Settings, s: Sys, i: nat, o: Observation)
    requires AllPollInv(g, s) && i < |s.conns|
    ensures AllPollInv(g, ConnectionStep(g, s, i, o))
  {
    PollingRecord(s.conns[i], s.now, o, g.interval);
    var s' := ConnectionStep(g, s, i, o);
    ThreadKeepsPollInv(s.conns[i], s'.conns[i], s.now, g.interval, Polls(s.conns[i], s.now, o, g.interval));
    assert forall j :: 0 <= j < |s'.conns| && j != i ==> s'.conns[j] == s.conns[j];
  }

  lemma TimeKeepsPollInv(g: Settings, s: Sys, s': Sys)
    requires AllPollInv(g, s) && s'.conns == s.conns && s'.now >= s.now
    ensures AllPollInv(g, s')
  {
  }

  lemma StepKeepsPollInv(g: Settings, s: Sys, e: Event)
    requires AllPollInv(g, s)
    ensures AllPollInv(g, Step(g, s, e))
  {
    match e
    case Monitor => MonitorKeepsPollInv(g, s);
    case Thread(i, o) =>
      if i < |s.conns| { ThreadEventKeepsPollInv(g, s, i, o); }
    case _ => TimeKeepsPollInv(g, s, Step(g, s, e));
  }

  lemma MonitorKeepsPollInv(g: Settings, s: Sys)
    requires AllPollInv(g, s)
    ensures AllPollInv(g, MonitorStep(g, s))
  {
    var s' := MonitorStep(g, s);
    forall i | 0 <= i < |s'.conns| ensures PollInv(s'.conns[i], s'.now, g.interval) {
      assert PollInv(s.conns[i], s.now, g.interval);
      assert s'.conns[i].polls == s.conns[i].polls && s'.conns[i].nextPoll == s.conns[i].nextPoll;
    }
  }

  lemma {:induction false} RunKeepsPollInv(g: Settings, s: Sys, events: seq<Event>)
    requires AllPollInv(g, s)
    ensures AllPollInv(g, Run(g, s, events))
    decreases |events|
  {
    if events == [] {
    } else {
      var before := events[..|events| - 1];
      RunKeepsPollInv(g, s, before);
      StepKeepsPollInv(g, Run(g, s, before), events[|events| - 1]);
    }
  }

  /** How many polls fall between two times. */
  function CountBetween(polls: seq<nat>, from: int, to: int): nat {
    if polls == [] then 0
    else
      CountBetween(polls[..|polls| - 1], from, to)
      + if from <= polls[|polls| - 1] <= to then 1 else 0
  }

  /** Moving the end of the window up to a poll's own time leaves out no earlier poll. */
  lemma {:induction false} CountEarlier(polls: seq<nat>, from: int, to: int, to': int)
    requires to' <= to && forall k :: 0 <= k < |polls| ==> polls[k] <= to'
    ensures CountBetween(polls, from, to) == CountBetween(polls, from, to')
  {
    if polls == [] {
    } else {
      CountEarlier(polls[..|polls| - 1], from, to, to');
    }
  }

  lemma {:induction false} SpacedSorted(polls: seq<nat>, interval: int, k: nat)
    requires Spaced(polls, interval) && interval > 0 && k + 1 < |polls|
    ensures polls[k] + interval <= polls[|polls| - 1]
    decreases |polls|
  {
    if k + 2 == |polls| {
    } else {
      SpacedSorted(polls[..|polls| - 1], interval, k);
    }
  }

  /** One more poll, at least an interval after the others, needs one more interval of room. */
  lemma OneMore(m: nat, interval: int, room: int)
    requires m >= 1 ==> (m - 1) * interval <= room - interval
    requires 0 <= room
    ensures m * interval <= room
  {
  }

  lemma {:induction false} SpacedCount(polls: seq<nat>, interval: int, from: int, to: int)
    requires Spaced(polls, interval) && interval > 0 && from <= to
    ensures CountBetween(polls, from, to) >= 1 ==> (CountBetween(polls, from, to) - 1) * interval <= to - from
    decreases |polls|
  {
    if polls == [] {
    } else {
      var rest, last := polls[..|polls| - 1], polls[|polls| - 1];
      if last < from || to < last {
        SpacedCount(rest, interval, from, to);
      } else {
        var m := CountBetween(rest, from, to);
        CountBeforeLast(polls, interval, from, to);
        if from <= last - interval {
          SpacedCount(rest, interval, from, last - interval);
        }
        OneMore(m, interval, last - from);
        assert CountBetween(polls, from, to) - 1 == m;
      }
    }
  }

  lemma CountBeforeLast(polls: seq<nat>, interval: int, from: int, to: int)
    requires Spaced(polls, interval) && interval > 0 && polls != []
    requires from <= polls[|polls| - 1] <= to
    ensures var rest, limit := polls[..|polls| - 1], polls[|polls| - 1] - interval;
            CountBetween(rest, from, to) == if from <= limit then CountBetween(rest, from, limit) else 0
  {
    var rest, limit := polls[..|polls| - 1], polls[|polls| - 1] - interval;
    forall k | 0 <= k < |rest| ensures rest[k] <= limit {
      SpacedSorted(polls, interval, k);
    }
    if from <= limit {
      CountEarlier(rest, from, to, limit);
    } else {
      NoneBetween(rest, from, to);
    }
  }

  lemma {:induction false} NoneBetween(polls: seq<nat>, from: int, to: int)
    requires forall k :: 0 <= k < |polls| ==> polls[k] < from
    ensures CountBetween(polls, from, to) == 0
  {
    if polls == [] {
    } else {
      NoneBetween(polls[..|polls| - 1], from, to);
    }
  }

  lemma ReachablePollInv(g: Settings, n: nat, s: Sys)
    requires Reachable(g, n, s)
    ensures |s.conns| == n && AllPollInv(g, s)
  {
    ReachableInv(g, n, s);
    var now: nat, events :| s == Run(g, Init(n, now), events);
    RunKeepsPollInv(g, Init(n, now), events);
  }

  /** On every run: successive polls of a connection are an interval apart however often it has reconnected, a
      window of a given width holds no more polls than fit, and an interval of zero never polls. */
  lemma PollsAreSpaced(g: Settings, n: nat, s: Sys, i: nat, from: int, width: nat)
    requires Reachable(g, n, s) && i < n
    ensures |s.conns| == n
    ensures Spaced(s.conns[i].polls, g.interval)
    ensures g.interval <= 0 ==> s.conns[i].polls == []
    ensures g.interval > 0 ==> (CountBetween(s.conns[i].polls, from, from + width) - 1) * g.interval <= width
  {
    ReachablePollInv(g, n, s);
    if g.interval > 0 {
      SpacedCount(s.conns[i].polls, g.interval, from, from + width);
    }
  }

  /** A connected thread with a live link polls exactly when a full interval has passed since its last poll. */
  lemma DuePollHappens(g: Settings, n: nat, s: Sys, i: nat, o: Observation)
    requires Reachable(g, n, s) && i < n && |s.conns| == n
    requires s.conns[i].started && s.conns[i].phase == Connected && o.linkUp
    ensures var polls := s.conns[i].polls;
            var due := g.interval > 0 && (polls == [] || s.now >= polls[|polls| - 1] + g.interval);
            var s' := Step(g, s, Thread(i, o));
            && s'.conns[i].polls == (if due then polls + [s.now] else polls)
            && |s'.pollings| == |s.pollings| + (if due then 1 else 0)
            && (due ==> s'.pollings[|s.pollings|].asker == i)
  {
    ReachableInv(g, n, s);
    ReachablePollInv(g, n, s);
    assert ConnInv(s.conns[i]);
    assert PollInv(s.conns[i], s.now, g.interval);
    assert ThreadInv(s.conns[i], i, s.control, s.started);
  }
}
