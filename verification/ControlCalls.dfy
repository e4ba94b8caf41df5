/** Control operations by the positions of their parameters: what a call that is written out sends and acknowledges. */
module ControlCalls {
  import opened Wrappers
  import opened Numerals
  import opened Exchange
  import opened ClientConfig
  import opened DataPath

  /** What is asked of a point. A real value stays the text it is. */
  datatype Control = Command(v: int) | SetPointReal(text: string) | SetPointDiscrete(v: int)
  {
    function TypeName(): string {
      match this
      case Command(_) => "Command"
      case SetPointReal(_) => "SetPointReal"
      case SetPointDiscrete(_) => "SetPointDiscrete"
    }

    function Text(): string {
      match this
      case Command(v) => IntText(v)
      case SetPointReal(text) => text
      case SetPointDiscrete(v) => IntText(v)
    }

    function Value(): PointValue {
      match this
      case Command(v) => Discrete(v)
      case SetPointReal(text) => Real(text)
      case SetPointDiscrete(v) => Discrete(v)
    }

    function Execution(domain: string, name: string): Request {
      match this
      case Command(v) => SendCommand(domain, name, v)
      case SetPointReal(text) => SendReal(domain, name, text)
      case SetPointDiscrete(v) => SendDiscrete(domain, name, v)
    }
  }

  /** A call written out: type, scope, domain, name, value, select flag and time, and anything behind them. The type may
      stand in quotes. */
  datatype Order = Order(
    control: Control, quoted: bool, scope: string, domain: string, name: string, select: int, time: string,
    more: seq<string>, accepted: bool)

  function CallFor(o: Order): Call {
    var kind := if o.quoted then "\"" + o.control.TypeName() + "\"" else o.control.TypeName();
    Call("TASE2Command",
         [kind, o.scope, o.domain, o.name, o.control.Text(), IntText(o.select), o.time] + o.more,
         o.accepted)
  }

  /** The reference of the point of an order. */
  function RefFor(o: Order): string {
    o.domain + ":" + o.name
  }

  lemma ParametersFor(o: Order)
    ensures var params := CallFor(o).params;
            && |params| > 6 && params[1] == o.scope && params[2] == o.domain && params[3] == o.name
            && params[4] == o.control.Text() && params[5] == IntText(o.select) && params[6] == o.time
            && Unquoted(params[0]) == o.control.TypeName()
  {
    var name := o.control.TypeName();
    if o.quoted {
      var kind := "\"" + name + "\"";
      assert kind[0] == '"' && |kind| == |name| + 2 && kind[1..|kind| - 1] == name;
    } else {
      assert name[0] != '"';
    }
  }

  lemma KindFor(o: Order)
    ensures CallKind(CallFor(o)) == match o.control
                                    case Command(_) => 16
                                    case SetPointReal(_) => 17
                                    case SetPointDiscrete(_) => 18
  {
    hide TypeFromName;
    ParametersFor(o);
    KindOfName(16);
    KindOfName(17);
    KindOfName(18);
    assert TYPE_NAMES[16] == "Command" && TYPE_NAMES[17] == "SetPointReal" && TYPE_NAMES[18] == "SetPointDiscrete";
  }

  /** A call whose time is a number sends one request of its own kind, for its own domain, name and value, or a
      selection exactly if its select flag is not zero; it does so exactly if there is a client with an active
      connection and the point is known. It returns what the device answers. If that is acceptance, and anybody
      listens, there is one reading, under the label of the point, of its own kind and with the value of the call. */
  lemma OrderIsCarriedOut(p: PluginState, o: Order)
    requires IsSoundConfig(p.config) && Stol(o.time).Success?
    ensures var call, p' := CallFor(o), Called(p, CallFor(o));
            if p.client && p.active && RefFor(o) in p.config.byRef then
              var def := p.config.byRef[RefFor(o)];
              && OutcomeOf(p, call) == Returned(o.accepted)
              && p'.requests == p.requests + [if o.select != 0 then Select(o.domain, o.name)
                                              else o.control.Execution(o.domain, o.name)]
              && (!o.accepted || !p.listening ==> p'.readings == p.readings)
              && (o.accepted && p.listening ==>
                    && |p'.readings| == |p.readings| + 1 && p'.readings[..|p.readings|] == p.readings
                    && var reading := p'.readings[|p.readings|];
                    && reading.asset == def.asset && reading.data.kind == def.kind
                    && reading.data.value == o.control.Value()
                    && (':' !in o.domain ==> reading.data.domain == o.domain && reading.data.name == o.name))
            else
              p' == p && OutcomeOf(p, call) == Returned(false)
  {
    hide TypeFromName, Stol, Atoi, IntText, CallFor, Split, CallKind;
    ParametersFor(o);
    KindFor(o);
    CallName(o);
    IntIsRead(o.select);
    if !o.control.SetPointReal? {
      IntIsRead(o.control.v);
    }
    ComposeSplits(o.domain, o.name);
  }

  lemma CallName(o: Order)
    ensures CallFor(o).operation == OPERATION && CallFor(o).accepted == o.accepted
  {
  }

  /** A complete call throws exactly if there is a client and its time is no number, and then does nothing. */
  lemma OrderThrowsExactly(p: PluginState, o: Order)
    ensures OutcomeOf(p, CallFor(o)) == Threw <==> p.client && Stol(o.time).Failure?
    ensures Stol(o.time).Failure? ==> Called(p, CallFor(o)) == p
  {
    hide TypeFromName, Stol, Atoi, IntText, CallFor, Split, CallKind;
    ParametersFor(o);
    KindFor(o);
    CallName(o);
  }

  /** Every other call returns false and does nothing: without a client, for another operation, of another type, or with
      too few parameters. */
  lemma OtherCallsFail(p: PluginState, call: Call)
    requires call.params != []
    requires || !p.client || call.operation != "TASE2Command" || |call.params| < 7
             || Unquoted(call.params[0]) !in {"Command", "SetPointReal", "SetPointDiscrete"}
    ensures OutcomeOf(p, call) == Returned(false) && Called(p, call) == p
  {
    hide TypeFromName, Stol, Atoi;
    var name := Unquoted(call.params[0]);
    TypeNamesAreKnown(name);
    assert TYPE_NAMES[16] == "Command" && TYPE_NAMES[17] == "SetPointReal" && TYPE_NAMES[18] == "SetPointDiscrete";
  }
}
