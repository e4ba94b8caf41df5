/** One redundant connection: the fields its thread updates, and the effect of every operation on them.
    The functions give the effect on a value; the class performs it step by step on its own fields. */
module Connection {
  import opened Wrappers

  /** How long one connection attempt may last, in milliseconds. */
  const CONNECT_TIMEOUT: nat := 10000

  datatype Phase = Idle | Connecting | Connected | Closed | WaitForReconnect | FatalError

  datatype ThreadStatus = NotStarted | Running | Exited

  /** A client session pointer. It is not initialised before the first connection attempt. */
  datatype Session = NoSession | Uninitialised | Open(id: nat)

  /** How far the preparation of an attempt gets: the library may refuse either handle. */
  datatype Preparation = NoEndpoint | NoClient | Ready

  /** What the library answers while a thread takes one step. */
  datatype Observation = Observation(linkUp: bool, preparation: Preparation, startOk: bool)

  /** Every handle the library has given out and taken back. Handles are numbered in order of creation. */
  datatype Ledger = Ledger(
    endpointsMade: nat, endpointsGone: multiset<nat>,
    sessionsMade: nat, sessionsGone: multiset<Session>)

  datatype Conn = Conn(
    phase: Phase,
    connect: bool,
    connecting: bool,
    connected: bool,
    started: bool,
    thread: ThreadStatus,
    endpoint: Option<nat>,
    session: Session,
    deadline: nat,
    nextPoll: nat,
    ledger: Ledger,
    polls: seq<nat>)
  {
    predicate Disconnected() {
      !connecting && !connected
    }
  }

  const NEW_CONNECTION := Conn(Idle, false, false, false, false, NotStarted, None, Uninitialised, 0, 0,
                               Ledger(0, multiset{}, 0, multiset{}), [])

  // ---- The effect of each operation ----

  function EndpointDestroyed(c: Conn): Conn
    requires c.endpoint.Some?
  {
    c.(endpoint := None,
       ledger := c.ledger.(endpointsGone := c.ledger.endpointsGone + multiset{c.endpoint.value}))
  }

  /** The library ignores a null session. */
  function SessionDestroyed(c: Conn): Conn {
    c.(session := NoSession,
       ledger := if c.session == NoSession then c.ledger else
                 c.ledger.(sessionsGone := c.ledger.sessionsGone + multiset{c.session}))
  }

  function CleanedUp(c: Conn): Conn {
    if c.endpoint.None? then c else EndpointDestroyed(SessionDestroyed(c))
  }

  function AfterDisconnect(c: Conn): Conn {
    CleanedUp(c.(connecting := false, connected := false, connect := false, phase := Idle))
  }

  function Prepared(c: Conn, p: Preparation): Conn {
    if p.NoEndpoint? then c.(endpoint := None) else
      var c1 := c.(endpoint := Some(c.ledger.endpointsMade),
                   ledger := c.ledger.(endpointsMade := c.ledger.endpointsMade + 1));
      if p.NoClient? then c1.(session := NoSession) else
        c1.(session := Open(c1.ledger.sessionsMade),
            ledger := c1.ledger.(sessionsMade := c1.ledger.sessionsMade + 1))
  }

  function IdleStep(c: Conn, now: nat, o: Observation): Conn {
    var c1 := Prepared(if c.endpoint.Some? then EndpointDestroyed(c) else c, o.preparation);
    if !o.preparation.Ready? then c1.(phase := FatalError) else
      c1.(phase := if o.startOk then Connecting else FatalError,
          connecting := true, deadline := now + CONNECT_TIMEOUT)
  }

  predicate PollDue(c: Conn, now: nat, interval: int) {
    interval > 0 && now >= c.nextPoll
  }

  function PeriodicTasks(c: Conn, now: nat, interval: int): Conn {
    if PollDue(c, now, interval) then c.(polls := c.polls + [now], nextPoll := now + interval) else c
  }

  function ConnectedStep(c: Conn, now: nat, o: Observation, interval: int): Conn {
    if !o.linkUp then CleanedUp(c).(phase := Idle) else PeriodicTasks(c, now, interval)
  }

  function ConnectingStep(c: Conn, now: nat, o: Observation): Conn {
    if o.linkUp then c.(phase := Connected, connecting := false, connected := true)
    else if now > c.deadline then AfterDisconnect(c)
    else c
  }

  /** One turn of the thread's loop, or its exit once it has been told to stop. */
  function ThreadStep(c: Conn, now: nat, o: Observation, interval: int): Conn {
    if c.thread != Running then c
    else if !c.started then CleanedUp(c).(thread := Exited)
    else if !c.connect then c
    else
      match c.phase
      case Idle => IdleStep(c, now, o)
      case Connecting => ConnectingStep(c, now, o)
      case Connected => ConnectedStep(c, now, o, interval)
      case Closed => c.(deadline := now + CONNECT_TIMEOUT, phase := WaitForReconnect)
      case WaitForReconnect => if now >= c.deadline then c.(phase := Idle) else c
      case FatalError => c
  }

  /** Whether this step reads the polled points. */
  predicate Polls(c: Conn, now: nat, o: Observation, interval: int) {
    c.thread == Running && c.started && c.connect && c.phase == Connected && o.linkUp && PollDue(c, now, interval)
  }

  // ---- What every operation keeps ----

  /** Nothing is held and nothing is wanted. */
  predicate Clean(c: Conn) {
    c.phase == Idle && c.endpoint.None? && !c.connect && !c.connecting && !c.connected
  }

  predicate PhaseInv(c: Conn) {
    && c.phase != Closed && c.phase != WaitForReconnect
    && (c.phase == Connected ==> c.connected && !c.connecting)
    && (c.phase == Connecting ==> c.connecting)
    && (c.connecting ==> c.phase == Connecting || c.phase == FatalError)
    && (!c.connect ==> Clean(c))
  }

  predicate HandleInv(c: Conn) {
    && (c.phase == Idle || c.thread != Running ==> c.endpoint.None?)
    && (c.session.Open? <==> c.thread == Running && (c.connecting || c.phase == Connected))
    && (c.session.Open? ==> c.endpoint.Some?)
    && (c.session == Uninitialised ==> c.endpoint.None?)
    && (c.thread == NotStarted ==> c.phase == Idle && !c.connecting && !c.connected)
  }

  /** Every endpoint ever made has been destroyed exactly once or is the one held. */
  ghost predicate EndpointsBalanced(c: Conn) {
    forall id: nat ::
      c.ledger.endpointsGone[id] + (if c.endpoint == Some(id) then 1 else 0)
      == if id < c.ledger.endpointsMade then 1 else 0
  }

  /** The same for sessions; in particular no uninitialised pointer is ever handed to the library to be destroyed. */
  ghost predicate SessionsBalanced(c: Conn) {
    forall h: Session | h != NoSession ::
      c.ledger.sessionsGone[h] + (if c.session == h && h != Uninitialised then 1 else 0)
      == if h.Open? && h.id < c.ledger.sessionsMade then 1 else 0
  }

  /** What is destroyed with an endpoint is its session, never an uninitialised pointer. */
  ghost predicate HandlesBalanced(c: Conn) {
    EndpointsBalanced(c) && SessionsBalanced(c) && (c.session == Uninitialised ==> c.endpoint.None?)
  }

  ghost predicate ConnInv(c: Conn) {
    PhaseInv(c) && HandleInv(c) && EndpointsBalanced(c) && SessionsBalanced(c)
  }

  lemma CleanUpKeepsBalance(c: Conn)
    requires HandlesBalanced(c)
    ensures HandlesBalanced(CleanedUp(c)) && CleanedUp(c).endpoint.None?
  {
  }

  lemma PrepareKeepsBalance(c: Conn, p: Preparation)
    requires HandlesBalanced(c) && c.endpoint.None? && !c.session.Open?
    ensures HandlesBalanced(Prepared(c, p))
  {
  }

  lemma SameHandlesSameBalance(c: Conn, c': Conn)
    requires EndpointsBalanced(c) && SessionsBalanced(c)
    requires c'.endpoint == c.endpoint && c'.session == c.session && c'.ledger == c.ledger
    ensures EndpointsBalanced(c') && SessionsBalanced(c')
  {
  }

  lemma DisconnectKeepsInv(c: Conn)
    requires ConnInv(c)
    ensures ConnInv(AfterDisconnect(c)) && Clean(AfterDisconnect(c))
  {
    var c1 := c.(connecting := false, connected := false, connect := false, phase := Idle);
    SameHandlesSameBalance(c, c1);
    CleanUpKeepsBalance(c1);
    hide EndpointsBalanced, SessionsBalanced;
  }

  /** What an idle step leaves of the flags and the handles. */
  lemma IdleStepFlags(c: Conn, now: nat, o: Observation)
    requires PhaseInv(c) && HandleInv(c) && c.phase == Idle && c.connect && c.thread == Running
    ensures PhaseInv(IdleStep(c, now, o)) && HandleInv(IdleStep(c, now, o))
    ensures var c1, c2 := Prepared(c, o.preparation), IdleStep(c, now, o);
            c2.endpoint == c1.endpoint && c2.session == c1.session && c2.ledger == c1.ledger
  {
  }

  lemma IdleStepKeepsInv(c: Conn, now: nat, o: Observation)
    requires ConnInv(c) && c.phase == Idle && c.connect && c.thread == Running
    ensures ConnInv(IdleStep(c, now, o))
  {
    hide EndpointsBalanced, SessionsBalanced, IdleStep, Prepared;
    PrepareKeepsBalance(c, o.preparation);
    IdleStepFlags(c, now, o);
    SameHandlesSameBalance(Prepared(c, o.preparation), IdleStep(c, now, o));
  }

  lemma ConnectedStepKeepsInv(c: Conn, now: nat, o: Observation, interval: int)
    requires ConnInv(c) && c.phase == Connected && c.connect && c.thread == Running
    ensures ConnInv(ConnectedStep(c, now, o, interval))
  {
  }

  lemma ExitKeepsInv(c: Conn)
    requires ConnInv(c)
    ensures ConnInv(CleanedUp(c).(thread := Exited))
  {
    CleanUpKeepsBalance(c);
    SameHandlesSameBalance(CleanedUp(c), CleanedUp(c).(thread := Exited));
    hide EndpointsBalanced, SessionsBalanced;
  }

  /** No step of the thread breaks the invariant, whatever the library answers. */
  lemma ThreadStepKeepsInv(c: Conn, now: nat, o: Observation, interval: int)
    requires ConnInv(c)
    ensures ConnInv(ThreadStep(c, now, o, interval))
  {
    if c.thread == Running {
      if !c.started {
        ExitKeepsInv(c);
      } else if c.connect {
        match c.phase
        case Idle => IdleStepKeepsInv(c, now, o);
        case Connecting =>
          DisconnectKeepsInv(c);
          if o.linkUp { SameHandlesSameBalance(c, ConnectingStep(c, now, o)); }
        case Connected => ConnectedStepKeepsInv(c, now, o, interval);
        case _ =>
      }
    }
  }

  // ---- The polling record ----

  /** Consecutive polls are at least one interval apart. */
  predicate Spaced(polls: seq<nat>, interval: int) {
    forall k :: 0 < k < |polls| ==> polls[k - 1] + interval <= polls[k]
  }

  predicate PollInv(c: Conn, now: nat, interval: int) {
    && (interval <= 0 ==> c.polls == [])
    && (c.polls == [] ==> c.nextPoll == 0)
    && (c.polls != [] ==> c.polls[|c.polls| - 1] <= now && c.nextPoll == c.polls[|c.polls| - 1] + interval)
    && Spaced(c.polls, interval)
  }

  /** What a step of the thread does to the polling record. */
  lemma PollingRecord(c: Conn, now: nat, o: Observation, interval: int)
    ensures var c', polls := ThreadStep(c, now, o, interval), Polls(c, now, o, interval);
            && c'.polls == (if polls then c.polls + [now] else c.polls)
            && c'.nextPoll == (if polls then now + interval else c.nextPoll)
  {
    if c.thread == Running && c.started && c.connect {
      match c.phase
      case Idle =>
        var c1 := Prepared(if c.endpoint.Some? then EndpointDestroyed(c) else c, o.preparation);
        assert c1.polls == c.polls && c1.nextPoll == c.nextPoll;
      case Connecting =>
        assert AfterDisconnect(c).polls == c.polls && AfterDisconnect(c).nextPoll == c.nextPoll;
      case _ =>
    }
  }

  lemma ThreadKeepsPollInv(c: Conn, c': Conn, now: nat, interval: int, polls: bool)
    requires PollInv(c, now, interval)
    requires c'.polls == if polls then c.polls + [now] else c.polls
    requires c'.nextPoll == if polls then now + interval else c.nextPoll
    requires polls ==> PollDue(c, now, interval)
    ensures PollInv(c', now, interval)
  {
  }

  lemma ThreadStepKeepsBoth(c: Conn, now: nat, o: Observation, interval: int)
    ensures ConnInv(c) ==> ConnInv(ThreadStep(c, now, o, interval))
    ensures PollInv(c, now, interval) ==> PollInv(ThreadStep(c, now, o, interval), now, interval)
  {
    hide ConnInv, PollInv, ThreadStep;
    if ConnInv(c) {
      ThreadStepKeepsInv(c, now, o, interval);
    }
    if PollInv(c, now, interval) {
      PollingRecord(c, now, o, interval);
      ThreadKeepsPollInv(c, ThreadStep(c, now, o, interval), now, interval, Polls(c, now, o, interval));
    }
  }

  // ---- The connection object ----

  class ClientConnection {
    var phase: Phase
    var connect: bool
    var connecting: bool
    var connected: bool
    var started: bool
    var thread: ThreadStatus
    var endpoint: Option<nat>
    var session: Session
    var deadline: nat
    var nextPoll: nat
    // what has happened outside the object
    var ledger: Ledger
    var polls: seq<nat>

    function State(): Conn
      reads this
    {
      Conn(phase, connect, connecting, connected, started, thread, endpoint, session, deadline, nextPoll, ledger, polls)
    }

    constructor ()
      ensures State() == NEW_CONNECTION
    {
      phase, connect, connecting, connected := Idle, false, false, false;
      started, thread, endpoint, session := false, NotStarted, None, Uninitialised;
      deadline, nextPoll, ledger, polls := 0, 0, Ledger(0, multiset{}, 0, multiset{}), [];
    }

    method Start()
      modifies this`started, this`thread
      ensures State() == if old(started) then old(State()) else old(State()).(started := true, thread := Running)
    {
      if !started {
        started := true;
        thread := Running;
      }
    }

    method DestroyEndpoint()
      requires endpoint.Some?
      modifies this`endpoint, this`ledger
      ensures State() == EndpointDestroyed(old(State()))
    {
      ledger := ledger.(endpointsGone := ledger.endpointsGone + multiset{endpoint.value});
      endpoint := None;
    }

    method CleanUp()
      modifies this`endpoint, this`session, this`ledger
      ensures State() == CleanedUp(old(State()))
      // nothing is held any more, and whatever was held has been given back once
      ensures old(HandlesBalanced(State())) ==> HandlesBalanced(State())
      ensures endpoint.None? && (old(endpoint.Some?) ==> session == NoSession)
    {
      hide HandlesBalanced;
      ghost var was := State();
      if HandlesBalanced(was) {
        CleanUpKeepsBalance(was);
      }
      if endpoint.Some? {
        if session != NoSession {
          ledger := ledger.(sessionsGone := ledger.sessionsGone + multiset{session});
        }
        DestroyEndpoint();
        session := NoSession;
      }
    }

    method Disconnect()
      modifies this
      ensures State() == AfterDisconnect(old(State()))
      ensures old(ConnInv(State())) ==> ConnInv(State()) && Clean(State())
    {
      hide ConnInv, HandlesBalanced;
      ghost var was := State();
      if ConnInv(was) {
        DisconnectKeepsInv(was);
      }
      connecting := false;
      connected := false;
      connect := false;
      phase := Idle;
      CleanUp();
    }

    method Connect()
      modifies this`connect
      ensures State() == old(State()).(connect := true)
    {
      connect := true;
    }

    method PrepareConnection(p: Preparation) returns (ok: bool)
      modifies this`endpoint, this`session, this`ledger
      ensures State() == Prepared(old(State()), p) && ok == p.Ready?
      // every handle that was made is the one held now, and on success both are held
      ensures old(HandlesBalanced(State()) && endpoint.None? && !session.Open?) ==> HandlesBalanced(State())
      ensures ok ==> endpoint.Some? && session.Open?
    {
      hide HandlesBalanced;
      ghost var was := State();
      if HandlesBalanced(was) && endpoint.None? && !session.Open? {
        PrepareKeepsBalance(was, p);
      }
      if p.NoEndpoint? {
        endpoint := None;
        return false;
      }
      endpoint := Some(ledger.endpointsMade);
      ledger := ledger.(endpointsMade := ledger.endpointsMade + 1);
      if p.NoClient? {
        session := NoSession;
      } else {
        session := Open(ledger.sessionsMade);
        ledger := ledger.(sessionsMade := ledger.sessionsMade + 1);
      }
      ok := session != NoSession;
    }

    method ExecutePeriodicTasks(now: nat, interval: int)
      modifies this`polls, this`nextPoll
      ensures State() == PeriodicTasks(old(State()), now, interval)
      // polls stay an interval apart, and one that was due has happened
      ensures old(PollInv(State(), now, interval)) ==> PollInv(State(), now, interval)
      ensures !PollDue(State(), now, interval)
    {
      if interval > 0 && now >= nextPoll {
        polls := polls + [now];
        nextPoll := now + interval;
      }
    }

    method RunIdle(now: nat, o: Observation)
      modifies this
      ensures State() == IdleStep(old(State()), now, o)
      ensures old(ConnInv(State()) && phase == Idle && connect && thread == Running) ==> ConnInv(State())
      ensures phase == if o.preparation.Ready? && o.startOk then Connecting else FatalError
    {
      hide ConnInv, HandlesBalanced, EndpointDestroyed, Prepared;
      ghost var was := State();
      if ConnInv(was) && was.phase == Idle && was.connect && was.thread == Running {
        IdleStepKeepsInv(was, now, o);
      }
      if endpoint.Some? {
        DestroyEndpoint();
      }
      var ok := PrepareConnection(o.preparation);
      if ok {
        phase := Connecting;
        connecting := true;
        deadline := now + CONNECT_TIMEOUT;
        if !o.startOk {
          phase := FatalError;
        }
      } else {
        phase := FatalError;
      }
    }

    /** One turn of the loop of the connection thread. */
    method RunThread(now: nat, o: Observation, interval: int)
      modifies this
      ensures State() == ThreadStep(old(State()), now, o, interval)
      ensures old(ConnInv(State())) ==> ConnInv(State())
      ensures old(PollInv(State(), now, interval)) ==> PollInv(State(), now, interval)
    {
      hide ConnInv, HandlesBalanced, PollInv, IdleStep, AfterDisconnect, CleanedUp;
      ThreadStepKeepsBoth(State(), now, o, interval);
      if thread != Running {
        return;
      }
      if !started {
        CleanUp();
        thread := Exited;
        return;
      }
      if connect {
        match phase {
          case Idle =>
            RunIdle(now, o);
          case Connecting =>
            if o.linkUp {
              phase := Connected;
              connecting := false;
              connected := true;
            } else if now > deadline {
              Disconnect();
            }
          case Connected =>
            if !o.linkUp {
              CleanUp();
              phase := Idle;
            } else {
              ExecutePeriodicTasks(now, interval);
            }
          case Closed =>
            deadline := now + CONNECT_TIMEOUT;
            phase := WaitForReconnect;
          case WaitForReconnect =>
            if now >= deadline {
              phase := Idle;
            }
          case FatalError =>
        }
      }
    }
  }
}
