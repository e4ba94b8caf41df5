/** The plugin object: it owns the configuration, hands readings on and dispatches control operations. */
module Plugin {
  import opened Wrappers
  import opened Numerals
  import opened Json
  import opened Exchange
  import opened ClientConfig
  import opened ConnectionList
  import opened DataPath

  class TASE2 {
    var config: TASE2ClientConfig
    var client: bool
    var active: bool
    var listening: bool
    // what has happened outside the object
    var readings: seq<Reading>
    var requests: seq<Request>

    function State(): PluginState
      reads this, config
    {
      PluginState(config.State(), client, active, listening, readings, requests)
    }

    constructor ()
      ensures fresh(config) && State() == PluginState(EMPTY_CONFIG, false, false, false, [], [])
    {
      config := new TASE2ClientConfig();
      client, active, listening, readings, requests := false, false, false, [], [];
    }

    /** A fresh configuration replaces the old one; the exchange configuration is read first. If reading the protocol
        configuration throws, the new configuration stays in place as it is by then, without the TLS configuration. */
    method SetJsonConfig(exchange: Option<Json>, protocol: Option<Json>, tls: Option<Json>, validIp: string -> bool)
      returns (thrown: Option<ConfigError>)
      modifies this`config
      ensures fresh(config) && IsSoundConfig(config.State()) && thrown == ThrownBy(protocol, validIp)
      ensures var c := Configured(exchange, protocol, validIp);
              State() == old(State()).(config := if thrown.Some? then c else WithTls(c, tls))
    {
      hide IsSoundConfig, AcceptedDefinitions, WithProtocol, WithTls, ThrownBy, Store;
      config := new TASE2ClientConfig();
      config.ImportExchangeConfig(exchange);
      PolledAreKnown(AcceptedDefinitions(exchange));
      thrown := config.ImportProtocolConfig(protocol, validIp);
      ConfiguredIsSound(exchange, protocol, validIp);
      if thrown.None? {
        TlsKeepsSound(config.State(), tls);
        config.ImportTlsConfig(tls);
      }
    }

    method Ingest(asset: string, data: DataObject)
      modifies this`readings
      ensures State() == Delivered(old(State()), [Reading(asset, data)])
    {
      if listening {
        readings := readings + [Reading(asset, data)];
      }
    }

    /** Data object i goes out under label i. */
    method SendData(points: seq<DataObject>, labels: seq<string>)
      requires |points| <= |labels|
      modifies this`readings
      ensures State() == Delivered(old(State()), Pair(labels, points))
    {
      var i := 0;
      ghost var was := State();
      while i < |points|
        invariant i <= |points|
        invariant State() == Delivered(was, Pair(labels, points)[..i])
      {
        Ingest(labels[i], points[i]);
        i := i + 1;
      }
      assert Pair(labels, points)[..i] == Pair(labels, points);
    }

    /** Adds the data object of a point, if it is known and there is a value for it: the given one, or else what the
        active connection reads. */
    method HandleMonitoringData(def: Definition, points: seq<DataObject>, given: Option<PointValue>,
                                answer: string -> Option<int>)
      returns (points': seq<DataObject>)
      requires given.None? ==> active
      ensures points' == points +
                         if def.ref !in config.byRef then []
                         else if given.Some? then [ObjectFor(def, given.value)]
                         else if answer(def.ref).Some? then [ObjectFor(def, FromDevice(answer(def.ref).value))]
                         else []
    {
      points' := points;
      var known := config.DefinitionByRef(def.ref);
      if known.None? {
        return;
      }
      var (domain, name) := Split(def.ref);
      var value: PointValue;
      if given.Some? {
        value := given.value;
      } else {
        var read := answer(def.ref);
        if read.None? {
          return;
        }
        value := FromDevice(read.value);
      }
      points' := points + [DataObject(def.kind, domain, name, value)];
    }

    /** The monitor changes the active connection. */
    method SetActive(active: bool)
      modifies this`active
      ensures State() == Happened(old(State()), Failover(active))
    {
      this.active := active;
    }

    /** One round of polling, in the order in which the polled points happen to be kept. */
    method HandleAllValues(order: seq<string>, answer: string -> Option<int>)
      requires active && IsSoundConfig(config.State()) && IsEnumeration(order, config.polled.Keys)
      modifies this`readings
      ensures var defs := Visited(config.State(), order);
              && |Points(defs, answer)| == Rank(defs, answer, |defs|) <= |defs|
              && State() == Happened(old(State()), PolledAll(order, answer))
    {
      var labels, points := [], [];
      var i := 0;
      ghost var defs := Visited(config.State(), order);
      assert Labels(defs[..0]) == [] && Points(defs[..0], answer) == [];
      hide Labels, Points, ObjectFor, Pair;
      while i < |order|
        invariant i <= |order|
        invariant readings == old(readings)
        invariant labels == Labels(defs[..i]) && points == Points(defs[..i], answer)
      {
        var def := config.polled[order[i]];
        assert order[i] in order && def == defs[i];
        OneMoreVisit(defs, answer, i);
        labels := labels + [def.asset];
        points := HandleMonitoringData(def, points, None, answer);
        i := i + 1;
      }
      assert defs[..i] == defs;
      PointsAreTheAnswers(defs, answer);
      SendData(points, labels);
    }

    /** A value that comes with its reference. */
    method HandleValue(ref: string, value: PointValue)
      requires IsSoundConfig(config.State())
      modifies this`readings
      ensures State() == Happened(old(State()), Reported(ref, value))
    {
      var def := config.DefinitionByRef(ref);
      if def.None? {
        return;
      }
      var points := HandleMonitoringData(def.value, [], Some(value), _ => None);
      SendData(points, [def.value.asset]);
      assert Pair([def.value.asset], points) == [Reading(def.value.asset, points[0])];
    }

    /** Sends a control request over the active connection and acknowledges it if the device accepts it. */
    method Send(kind: int, domain: string, name: string, text: string, select: bool, accepted: bool)
      returns (success: bool)
      requires IsSoundConfig(config.State()) && client
      requires kind in {COMMAND, SETPOINT_REAL, SETPOINT_DISCRETE}
      modifies this`readings, this`requests
      ensures var request := if select then Select(domain, name)
                             else if kind == COMMAND then SendCommand(domain, name, Atoi(text))
                             else if kind == SETPOINT_REAL then SendReal(domain, name, text)
                             else SendDiscrete(domain, name, Atoi(text));
              var value := if kind == SETPOINT_REAL then Real(text) else Discrete(Atoi(text));
              var p := old(State());
              if !active || Compose(domain, name) !in config.byRef then State() == p && !success
              else
                var p1 := p.(requests := p.requests + [request]);
                && success == accepted
                && State() == if accepted then ValueHandled(p1, Compose(domain, name), value) else p1
    {
      success := false;
      var def := config.DefinitionByRef(Compose(domain, name));
      if def.None? {
        return false;
      }
      if active {
        if select {
          requests := requests + [Select(domain, name)];
        } else if kind == COMMAND {
          requests := requests + [SendCommand(domain, name, Atoi(text))];
        } else if kind == SETPOINT_REAL {
          requests := requests + [SendReal(domain, name, text)];
        } else {
          requests := requests + [SendDiscrete(domain, name, Atoi(text))];
        }
        success := accepted;
      }
      if success {
        HandleValue(Compose(domain, name), if kind == SETPOINT_REAL then Real(text) else Discrete(Atoi(text)));
      }
    }

    /** Dispatches a control operation of the south service. */
    method Operation(call: Call) returns (r: Outcome)
      requires IsSoundConfig(config.State())
      requires call.operation == OPERATION ==> call.params != []
      modifies this`readings, this`requests
      ensures r == OutcomeOf(old(State()), call)
      ensures State() == Happened(old(State()), Operated(call))
    {
      hide TypeFromName, Stol, Atoi, Compose, IsSoundConfig, IsPossible, Visited, Pair;
      if !client || call.operation != OPERATION {
        return Returned(false);
      }
      var name := call.params[0];
      if name != "" && name[0] == '"' {
        name := if |name| == 1 then "" else name[1..|name| - 1];
      }
      var kind := TypeFromName(name);
      if kind != COMMAND && kind != SETPOINT_REAL && kind != SETPOINT_DISCRETE {
        return Returned(false);
      }
      if |call.params| <= 6 {
        return Returned(false);
      }
      var time := Stol(call.params[6]);
      if time.Failure? {
        return Threw;
      }
      var ok := Send(kind, call.params[2], call.params[3], call.params[4], Atoi(call.params[5]) != 0, call.accepted);
      r := Returned(ok);
    }
  }
}
