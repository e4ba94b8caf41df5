/** What reaches the south service: polled values, reported values and acknowledgements of control operations. */
module DataPath {
  import opened Wrappers
  import opened Numerals
  import opened Json
  import opened Exchange
  import opened ClientConfig

  /** A value of a point: of a control operation, or as a device gave it. */
  datatype PointValue = Discrete(n: int) | Real(text: string) | FromDevice(id: int)

  datatype DataObject = DataObject(kind: int, domain: string, name: string, value: PointValue)

  datatype Reading = Reading(asset: string, data: DataObject)

  /** What the active connection has been asked to send to the device. */
  datatype Request =
    | Select(domain: string, name: string)
    | SendCommand(domain: string, name: string, n: int)
    | SendReal(domain: string, name: string, text: string)
    | SendDiscrete(domain: string, name: string, n: int)

  /** The plugin as a value: whether it has a client, whether that has an active connection, whether anybody listens
      for readings, and all readings and requests so far. */
  datatype PluginState = PluginState(
    config: Config, client: bool, active: bool, listening: bool, readings: seq<Reading>, requests: seq<Request>)

  /** The keys of both indices over references are the references of their definitions. */
  predicate IsSoundConfig(c: Config) {
    && (forall k :: k in c.byRef ==> c.byRef[k].ref == k && ':' in k)
    && (forall k :: k in c.polled ==> c.polled[k].ref == k && c.polled[k].kind < COMMAND)
    && PolledKnown(c)
  }

  lemma ConfiguredIsSound(exchange: Option<Json>, protocol: Option<Json>, validIp: string -> bool)
    ensures IsSoundConfig(Configured(exchange, protocol, validIp))
  {
    var c := Configured(exchange, protocol, validIp);
    ConfiguredIs(exchange, protocol, validIp);
    PolledAndReportedAreDisjoint(exchange, protocol, validIp, "", "");
    forall k | k in c.byRef ensures c.byRef[k].ref == k && ':' in k {
      IndexAgrees(exchange, ByRef, k);
    }
    forall k | k in c.polled ensures c.polled[k].ref == k && c.polled[k].kind < COMMAND {
      IndexAgrees(exchange, Polled, k);
    }
  }

  lemma TlsKeepsSound(c: Config, tls: Option<Json>)
    requires IsSoundConfig(c)
    ensures IsSoundConfig(WithTls(c, tls))
  {
  }

  function ObjectFor(def: Definition, value: PointValue): DataObject {
    var (domain, name) := Split(def.ref);
    DataObject(def.kind, domain, name, value)
  }

  // ---- Polling ----

  /** Every reference once. */
  ghost predicate IsEnumeration(order: seq<string>, keys: set<string>) {
    && (forall k :: k in order <==> k in keys)
    && (forall i, j :: 0 <= i < j < |order| ==> order[i] != order[j])
  }

  /** The definitions visited, for an order of the polled references. */
  function Visited(c: Config, order: seq<string>): seq<Definition>
    requires forall k :: k in order ==> k in c.polled
  {
    seq(|order|, i requires 0 <= i < |order| => c.polled[order[i]])
  }

  function Labels(defs: seq<Definition>): seq<string> {
    seq(|defs|, i requires 0 <= i < |defs| => defs[i].asset)
  }

  /** The data objects of the reads that gave a value. */
  function Points(defs: seq<Definition>, answer: string -> Option<int>): (points: seq<DataObject>)
    ensures |points| <= |defs|
  {
    if defs == [] then []
    else
      var last := defs[|defs| - 1];
      Points(defs[..|defs| - 1], answer)
      + match answer(last.ref)
        case None => []
        case Some(id) => [ObjectFor(last, FromDevice(id))]
  }

  lemma OneMoreVisit(defs: seq<Definition>, answer: string -> Option<int>, i: nat)
    requires i < |defs|
    ensures Labels(defs[..i + 1]) == Labels(defs[..i]) + [defs[i].asset]
    ensures Points(defs[..i + 1], answer) == Points(defs[..i], answer)
            + if answer(defs[i].ref).Some? then [ObjectFor(defs[i], FromDevice(answer(defs[i].ref).value))] else []
  {
    assert defs[..i + 1][..i] == defs[..i];
  }

  function Pair(labels: seq<string>, points: seq<DataObject>): seq<Reading>
    requires |points| <= |labels|
  {
    seq(|points|, i requires 0 <= i < |points| => Reading(labels[i], points[i]))
  }

  /** How many of the first k reads gave a value. */
  function Rank(defs: seq<Definition>, answer: string -> Option<int>, k: nat): nat
    requires k <= |defs|
  {
    if k == 0 then 0 else Rank(defs, answer, k - 1) + if answer(defs[k - 1].ref).Some? then 1 else 0
  }

  lemma {:induction false} RankPrefix(defs: seq<Definition>, more: seq<Definition>,
                                      answer: string -> Option<int>, k: nat)
    requires k <= |defs|
    ensures Rank(defs + more, answer, k) == Rank(defs, answer, k)
  {
    if k == 0 {
    } else {
      RankPrefix(defs, more, answer, k - 1);
    }
  }

  lemma OneMoreRank(defs: seq<Definition>, answer: string -> Option<int>, k: nat)
    requires k < |defs| && answer(defs[k].ref).Some?
    ensures Rank(defs, answer, k + 1) == Rank(defs, answer, k) + 1
  {
  }

  lemma {:induction false} PointCount(defs: seq<Definition>, answer: string -> Option<int>)
    ensures |Points(defs, answer)| == Rank(defs, answer, |defs|)
  {
    hide ObjectFor;
    if defs == [] {
    } else {
      var n := |defs| - 1;
      assert defs[..n] + [defs[n]] == defs;
      PointCount(defs[..n], answer);
      RankPrefix(defs[..n], [defs[n]], answer, n);
    }
  }

  lemma {:induction false} PointIsTheAnswer(defs: seq<Definition>, answer: string -> Option<int>, k: nat)
    requires k < |defs| && answer(defs[k].ref).Some?
    ensures Rank(defs, answer, k) < |Points(defs, answer)|
    ensures Points(defs, answer)[Rank(defs, answer, k)] == ObjectFor(defs[k], FromDevice(answer(defs[k].ref).value))
  {
    hide ObjectFor;
    var n := |defs| - 1;
    assert defs[..n] + [defs[n]] == defs;
    RankPrefix(defs[..n], [defs[n]], answer, k);
    if k == n {
      PointCount(defs[..n], answer);
    } else {
      PointIsTheAnswer(defs[..n], answer, k);
    }
  }

  /** One data object for each read that gave a value, in the order of the visit, with the domain and name of the
      reference that was read. */
  lemma PointsAreTheAnswers(defs: seq<Definition>, answer: string -> Option<int>)
    ensures |Points(defs, answer)| == Rank(defs, answer, |defs|) <= |defs|
    ensures forall k :: 0 <= k < |defs| && answer(defs[k].ref).Some? ==>
              && Rank(defs, answer, k) < |Points(defs, answer)|
              && Points(defs, answer)[Rank(defs, answer, k)]
                 == ObjectFor(defs[k], FromDevice(answer(defs[k].ref).value))
  {
    hide Points, ObjectFor, Rank;
    PointCount(defs, answer);
    forall k | 0 <= k < |defs| && answer(defs[k].ref).Some?
      ensures Rank(defs, answer, k) < |Points(defs, answer)|
      ensures Points(defs, answer)[Rank(defs, answer, k)] == ObjectFor(defs[k], FromDevice(answer(defs[k].ref).value))
    {
      PointIsTheAnswer(defs, answer, k);
    }
  }

  lemma {:induction false} RankBound(defs: seq<Definition>, answer: string -> Option<int>, k: nat)
    requires k <= |defs|
    ensures Rank(defs, answer, k) <= k
    ensures Rank(defs, answer, k) == k <==> forall j :: 0 <= j < k ==> answer(defs[j].ref).Some?
  {
    if k == 0 {
    } else {
      RankBound(defs, answer, k - 1);
    }
  }

  /** Labels are stored for every visit but data objects only for the reads that gave a value. So the value of a point
      is delivered under the label of a point as many places before it as reads before it have failed: under its own
      if none has failed and, if none of the labels before is the same, only then. */
  lemma PairingFailsAfterAFailedRead(defs: seq<Definition>, answer: string -> Option<int>, k: nat)
    requires k < |defs| && answer(defs[k].ref).Some?
    ensures var i := Rank(defs, answer, k);
            && i < |Points(defs, answer)| <= |defs|
            && var reading := Pair(Labels(defs), Points(defs, answer))[i];
            var noneFailed := forall j :: 0 <= j < k ==> answer(defs[j].ref).Some?;
            && reading == Reading(defs[i].asset, ObjectFor(defs[k], FromDevice(answer(defs[k].ref).value)))
            && (noneFailed ==> reading.asset == defs[k].asset)
            && ((forall j :: 0 <= j < k ==> defs[j].asset != defs[k].asset) ==>
                  (reading.asset == defs[k].asset <==> noneFailed))
  {
    PointsAreTheAnswers(defs, answer);
    RankBound(defs, answer, k);
  }

  /** The value of definition k is delivered under the label of definition k. */
  predicate IsPairedRight(defs: seq<Definition>, answer: string -> Option<int>, k: nat)
    requires k < |defs|
  {
    var i := Rank(defs, answer, k);
    && i < |Points(defs, answer)| <= |defs|
    && Pair(Labels(defs), Points(defs, answer))[i].asset == defs[k].asset
  }

  lemma {:induction false} NoneAnswers(defs: seq<Definition>, answer: string -> Option<int>, k: nat)
    requires k <= |defs| && forall j :: 0 <= j < k ==> answer(defs[j].ref).None?
    ensures Rank(defs, answer, k) == 0
  {
    if k == 0 {
    } else {
      NoneAnswers(defs, answer, k - 1);
    }
  }

  /** A round in which only point k answers delivers its value as the first. */
  lemma OnlyOneAnswers(defs: seq<Definition>, k: nat) returns (answer: string -> Option<int>)
    requires k < |defs| && forall i, j :: 0 <= i < j < |defs| ==> defs[i].ref != defs[j].ref
    ensures answer(defs[k].ref).Some? && (IsPairedRight(defs, answer, k) ==> defs[0].asset == defs[k].asset)
  {
    var ref := defs[k].ref;
    answer := r => if r == ref then Some(0) else None;
    NoneAnswers(defs, answer, k);
  }

  predicate HaveOneLabel(defs: map<string, Definition>) {
    forall a, b :: a in defs && b in defs ==> defs[a].asset == defs[b].asset
  }

  /** A configuration pairs values and labels right in every round, whatever reads fail, exactly when all of its polled
      points have the same label. This does not depend on the order of the visit. */
  lemma AlwaysPairedRightExactly(c: Config, order: seq<string>)
    requires IsSoundConfig(c) && IsEnumeration(order, c.polled.Keys)
    ensures var defs := Visited(c, order);
            (forall answer: string -> Option<int>, k: nat ::
               k < |defs| && answer(defs[k].ref).Some? ==> IsPairedRight(defs, answer, k))
            <==> HaveOneLabel(c.polled)
  {
    var defs := Visited(c, order);
    if HaveOneLabel(c.polled) {
      forall answer: string -> Option<int>, k: nat | k < |defs| && answer(defs[k].ref).Some?
        ensures IsPairedRight(defs, answer, k)
      {
        PairingFailsAfterAFailedRead(defs, answer, k);
        assert order[Rank(defs, answer, k)] in order && order[k] in order;
      }
    } else {
      var a, b :| a in c.polled && b in c.polled && c.polled[a].asset != c.polled[b].asset;
      assert a in order && b in order;
      var i :| 0 <= i < |order| && order[i] == a;
      var j :| 0 <= j < |order| && order[j] == b;
      var k := if defs[i].asset != defs[0].asset then i else j;
      var answer := OnlyOneAnswers(defs, k);
      assert !IsPairedRight(defs, answer, k);
    }
  }

  /** If every read gives a value, every reading is the value of the point whose label it carries. */
  lemma FullRoundPairsRight(defs: seq<Definition>, answer: string -> Option<int>, k: nat)
    requires k < |defs| && forall j :: 0 <= j < |defs| ==> answer(defs[j].ref).Some?
    ensures |Points(defs, answer)| == |defs|
    ensures Pair(Labels(defs), Points(defs, answer))[k]
            == Reading(defs[k].asset, ObjectFor(defs[k], FromDevice(answer(defs[k].ref).value)))
  {
    PointsAreTheAnswers(defs, answer);
    RankBound(defs, answer, k);
    RankBound(defs, answer, |defs|);
  }

  /** Two points are imported, and in a round of polling the first one visited does not answer: the only reading is the
      value of the second under the label of the first. */
  lemma MispairedRound(validIp: string -> bool)
    returns (exchange: Json, order: seq<string>, answer: string -> Option<int>)
    ensures var c := Configured(Some(exchange), None, validIp);
            && IsEnumeration(order, c.polled.Keys)
            && var defs := Visited(c, order);
            && |defs| == 2 && answer(defs[0].ref).None? && answer(defs[1].ref).Some?
            && defs[0].asset != defs[1].asset
            && |Points(defs, answer)| == 1
            && Pair(Labels(defs), Points(defs, answer))[0]
               == Reading(defs[0].asset, ObjectFor(defs[1], FromDevice(answer(defs[1].ref).value)))
  {
    hide Configured, DocumentFor, IsSoundConfig, Store, Rank, Points, Split;
    var first, second := Definition("d:a", "first", 0), Definition("d:b", "second", 0);
    var points := [first, second];
    exchange := DocumentFor(points);
    ImportedAlone(points, validIp);
    order := ["d:a", "d:b"];
    answer := ref => if ref == "d:b" then Some(7) else None;
    PolledOfTwo(first, second);
    var defs := Visited(Configured(Some(exchange), None, validIp), order);
    assert defs == points;
    PairingFailsAfterAFailedRead(defs, answer, 1);
    PointsAreTheAnswers(defs, answer);
    NoneAnswers(defs, answer, 1);
    OneMoreRank(defs, answer, 1);
  }

  /** What an exchange document for given points leaves when there is no protocol configuration. */
  lemma ImportedAlone(defs: seq<Definition>, validIp: string -> bool)
    requires forall i :: 0 <= i < |defs| ==> IsExchangeable(defs[i])
    ensures var c := Configured(Some(DocumentFor(defs)), None, validIp);
            && IsSoundConfig(c)
            && c.byRef == Store(map[], ByRef, defs) && c.polled == Store(map[], Polled, defs)
  {
    hide Configured, DocumentFor, AcceptedDefinitions, AcceptedDatasets, Store, IsSoundConfig, CoveredRefs,
         AcceptedTransferSets, ConnectionsOf;
    NothingAccepted(validIp);
    DefinitionsRoundTrip(defs);
    ConfiguredIs(Some(DocumentFor(defs)), None, validIp);
    ConfiguredIsSound(Some(DocumentFor(defs)), None, validIp);
  }

  lemma PolledOfTwo(a: Definition, b: Definition)
    requires a.kind < COMMAND && b.kind < COMMAND
    ensures Store(map[], Polled, [a, b]) == map[a.ref := a][b.ref := b]
  {
    assert [a, b][..1] == [a];
    StoreOne(map[], Polled, a);
  }

  // ---- Reports and acknowledgements ----

  function Delivered(p: PluginState, readings: seq<Reading>): PluginState {
    if p.listening then p.(readings := p.readings + readings) else p
  }

  /** A value that comes with its reference, from a report or as an acknowledgement. */
  function ValueHandled(p: PluginState, ref: string, value: PointValue): PluginState {
    if ref in p.config.byRef
    then Delivered(p, [Reading(p.config.byRef[ref].asset, ObjectFor(p.config.byRef[ref], value))])
    else p
  }

  /** One call of an operation, with the answer of the device to it. */
  datatype Call = Call(operation: string, params: seq<string>, accepted: bool)

  datatype Outcome = Returned(ok: bool) | Threw

  /** A quoted type name loses its quotes; of a single quote nothing is left. */
  function Unquoted(s: string): string {
    if s == "" || s[0] != '"' then s
    else if |s| == 1 then ""
    else s[1..|s| - 1]
  }

  const OPERATION := "TASE2Command"

  function CallKind(call: Call): int
    requires call.params != []
  {
    TypeFromName(Unquoted(call.params[0]))
  }

  predicate IsComplete(call: Call) {
    && call.operation == OPERATION && |call.params| > 6
    && CallKind(call) in {COMMAND, SETPOINT_REAL, SETPOINT_DISCRETE}
    && Stol(call.params[6]).Success?
  }

  function PointOf(call: Call): string
    requires IsComplete(call)
  {
    Compose(call.params[2], call.params[3])
  }

  function ValueOf(call: Call): PointValue
    requires IsComplete(call)
  {
    if CallKind(call) == SETPOINT_REAL then Real(call.params[4]) else Discrete(Atoi(call.params[4]))
  }

  function RequestOf(call: Call): Request
    requires IsComplete(call)
  {
    var domain, name, text := call.params[2], call.params[3], call.params[4];
    if Atoi(call.params[5]) != 0 then Select(domain, name)
    else if CallKind(call) == COMMAND then SendCommand(domain, name, Atoi(text))
    else if CallKind(call) == SETPOINT_REAL then SendReal(domain, name, text)
    else SendDiscrete(domain, name, Atoi(text))
  }

  /** The call gets as far as the device. */
  predicate ReachesDevice(p: PluginState, call: Call) {
    p.client && p.active && IsComplete(call) && PointOf(call) in p.config.byRef
  }

  /** A complete call ends with an exception only if its time is no number; everything else that is wrong with a call
      makes it return false. */
  function OutcomeOf(p: PluginState, call: Call): Outcome {
    if && p.client && call.operation == OPERATION && |call.params| > 6
       && CallKind(call) in {COMMAND, SETPOINT_REAL, SETPOINT_DISCRETE}
       && Stol(call.params[6]).Failure?
    then Threw
    else Returned(ReachesDevice(p, call) && call.accepted)
  }

  /** Whatever a call does: at most one request, and one reading exactly when it returns true. */
  function Called(p: PluginState, call: Call): PluginState {
    if !ReachesDevice(p, call) then p
    else
      var p1 := p.(requests := p.requests + [RequestOf(call)]);
      if call.accepted then ValueHandled(p1, PointOf(call), ValueOf(call)) else p1
  }

  /** What can happen to the data path: an operation comes, the monitor changes the active connection, a report brings a
      value, or the active connection has a round of polling. */
  datatype Happening =
    | Operated(call: Call)
    | Failover(active: bool)
    | Reported(ref: string, value: PointValue)
    | PolledAll(order: seq<string>, answer: string -> Option<int>)

  /** A round of polling visits every polled point once. */
  ghost predicate IsPossible(c: Config, h: Happening) {
    h.PolledAll? ==> IsEnumeration(h.order, c.polled.Keys)
  }

  ghost function Happened(p: PluginState, h: Happening): (p': PluginState)
    requires IsPossible(p.config, h)
    ensures p'.config == p.config && p'.listening == p.listening
  {
    match h
    case Operated(call) => Called(p, call)
    case Failover(active) => p.(active := active)
    case Reported(ref, value) => ValueHandled(p, ref, value)
    case PolledAll(order, answer) =>
      var defs := Visited(p.config, order);
      Delivered(p, Pair(Labels(defs), Points(defs, answer)))
  }

  ghost predicate ArePossible(c: Config, hs: seq<Happening>) {
    forall i :: 0 <= i < |hs| ==> IsPossible(c, hs[i])
  }

  ghost function AllHappened(p: PluginState, hs: seq<Happening>): (p': PluginState)
    requires ArePossible(p.config, hs)
    ensures p'.config == p.config && p'.listening == p.listening
  {
    if |hs| == 0 then p else Happened(AllHappened(p, hs[..|hs| - 1]), hs[|hs| - 1])
  }

  function ReadingFor(c: Config, ref: string, value: PointValue): Reading
    requires ref in c.byRef
  {
    Reading(c.byRef[ref].asset, DataObject(c.byRef[ref].kind, Split(ref).0, Split(ref).1, value))
  }

  /** The readings that one happening is due: one for a call that returns true, one for a report of a known point, and
      one for each read of a round that gives a value. */
  ghost function Due(p: PluginState, h: Happening): seq<Reading>
    requires IsPossible(p.config, h)
  {
    match h
    case Operated(call) =>
      if OutcomeOf(p, call) == Returned(true) then [ReadingFor(p.config, PointOf(call), ValueOf(call))] else []
    case Failover(_) => []
    case Reported(ref, value) => if ref in p.config.byRef then [ReadingFor(p.config, ref, value)] else []
    case PolledAll(order, answer) =>
      var defs := Visited(p.config, order);
      Pair(Labels(defs), Points(defs, answer))
  }

  ghost function AllDue(p: PluginState, hs: seq<Happening>): seq<Reading>
    requires ArePossible(p.config, hs)
  {
    if |hs| == 0 then []
    else AllDue(p, hs[..|hs| - 1]) + Due(AllHappened(p, hs[..|hs| - 1]), hs[|hs| - 1])
  }

  /** The request that one happening sends: one for each call that reaches the device. */
  ghost function Sent(p: PluginState, h: Happening): seq<Request> {
    if h.Operated? && ReachesDevice(p, h.call) then [RequestOf(h.call)] else []
  }

  ghost function AllSent(p: PluginState, hs: seq<Happening>): seq<Request>
    requires ArePossible(p.config, hs)
  {
    if |hs| == 0 then []
    else AllSent(p, hs[..|hs| - 1]) + Sent(AllHappened(p, hs[..|hs| - 1]), hs[|hs| - 1])
  }

  /** How many readings one happening is due. */
  ghost function Weight(p: PluginState, h: Happening): nat
    requires IsPossible(p.config, h)
  {
    match h
    case Operated(call) => if OutcomeOf(p, call) == Returned(true) then 1 else 0
    case Failover(_) => 0
    case Reported(ref, _) => if ref in p.config.byRef then 1 else 0
    case PolledAll(order, answer) => Rank(Visited(p.config, order), answer, |order|)
  }

  /** How many calls have returned true, how many reports were of known points, and how many reads gave a value. */
  ghost function CountDue(p: PluginState, hs: seq<Happening>): nat
    requires ArePossible(p.config, hs)
  {
    if |hs| == 0 then 0
    else CountDue(p, hs[..|hs| - 1]) + Weight(AllHappened(p, hs[..|hs| - 1]), hs[|hs| - 1])
  }

  /** The connection that is active after everything so far. */
  ghost function ActiveAfter(active: bool, hs: seq<Happening>): bool {
    if |hs| == 0 then active
    else if hs[|hs| - 1].Failover? then hs[|hs| - 1].active
    else ActiveAfter(active, hs[..|hs| - 1])
  }

  /** One happening adds what it is due. */
  lemma OneHappened(p: PluginState, h: Happening)
    requires IsSoundConfig(p.config) && IsPossible(p.config, h)
    ensures var p' := Happened(p, h);
            && p'.readings == p.readings + (if p.listening then Due(p, h) else [])
            && p'.requests == p.requests + Sent(p, h)
            && p'.active == (if h.Failover? then h.active else p.active)
            && p'.(readings := p.readings, requests := p.requests, active := p.active) == p
    ensures |Due(p, h)| == Weight(p, h)
  {
    if h.PolledAll? {
      PointsAreTheAnswers(Visited(p.config, h.order), h.answer);
    }
  }

  /** Over any sequence of operations, failovers, reports and rounds of polling the readings grow by exactly one
      acknowledgement for each call that returned true, one reading for each report of a known point and one for each
      read that gave a value, in order, if anybody listens, and not at all otherwise; the requests grow by exactly one
      for each call that reaches the device. Acknowledgements and reports carry the label stored for the point. */
  lemma {:induction false} AcknowledgementsMatch(p: PluginState, hs: seq<Happening>)
    requires IsSoundConfig(p.config) && ArePossible(p.config, hs)
    ensures var p' := AllHappened(p, hs);
            && p'.readings == p.readings + (if p.listening then AllDue(p, hs) else [])
            && |AllDue(p, hs)| == CountDue(p, hs)
            && p'.requests == p.requests + AllSent(p, hs)
            && p'.active == ActiveAfter(p.active, hs)
            && p'.(readings := p.readings, requests := p.requests, active := p.active) == p
  {
    hide Happened, Due, Sent, Weight, IsSoundConfig, IsPossible;
    if |hs| == 0 {
    } else {
      AcknowledgementsMatch(p, hs[..|hs| - 1]);
      OneHappened(AllHappened(p, hs[..|hs| - 1]), hs[|hs| - 1]);
    }
  }

  /** An acknowledgement names the domain and the name of its call exactly when that domain has no colon. */
  lemma AcknowledgementNamesItsPoint(p: PluginState, call: Call)
    requires IsSoundConfig(p.config) && p.listening && OutcomeOf(p, call) == Returned(true)
    ensures var readings := Called(p, call).readings;
            && |readings| == |p.readings| + 1
            && ((readings[|p.readings|].data.domain, readings[|p.readings|].data.name)
                == (call.params[2], call.params[3])
                <==> ':' !in call.params[2])
  {
    ComposeSplits(call.params[2], call.params[3]);
  }

  /** An imported point whose domain has a colon: a command for it returns true, and its acknowledgement names another
      domain and another point. */
  lemma MisnamedAcknowledgement(validIp: string -> bool) returns (exchange: Json, p: PluginState, call: Call)
    ensures p.config == Configured(Some(exchange), None, validIp) && p.listening
    ensures OutcomeOf(p, call) == Returned(true) && ':' in call.params[2]
    ensures var reading := Called(p, call).readings[0];
            && p.readings == [] && |Called(p, call).readings| == 1
            && (call.params[2], call.params[3]) == ("a:b", "c")
            && (reading.data.domain, reading.data.name) == ("a", "b:c")
  {
    hide Configured, DocumentFor, IsSoundConfig, Store, Split, TypeFromName, Stol;
    var point := Definition("a:b:c", "L", COMMAND);
    exchange := DocumentFor([point]);
    ImportedAlone([point], validIp);
    StoreOne(map[], ByRef, point);
    p := PluginState(Configured(Some(exchange), None, validIp), true, true, true, [], []);
    call := Call(OPERATION, ["Command", "", "a:b", "c", "1", "0", "0"], true);
    assert TYPE_NAMES[COMMAND] == "Command";
    KindOfName(COMMAND);
    ZeroIsANumber();
    assert Compose("a:b", "c") == "a:b:c" == Compose("a", "b:c");
    ComposeSplits("a", "b:c");
  }

  lemma ZeroIsANumber()
    ensures Stol("0") == Success(0)
  {
    SubjectOfDigits("0", Decimal);
  }
}
