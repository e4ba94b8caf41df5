/** The list of connections in the protocol configuration, with the OSI section of each. */
module ConnectionList {
  import opened Wrappers
  import opened Numerals
  import opened OsiSelector
  import opened Json

  /** Why an OSI section is refused. This is thrown, and ends the whole import. */
  datatype ConfigError =
    | NotAnObject
    | BadFormat(name: string)
    | BadTitle(name: string)
    | BadSelector(reason: SelectorError)

  /** The parameters of an OSI section; a selector is the part of its buffer that is in use. */
  datatype Osi = Osi(
    localQualifier: int, remoteQualifier: int, localTitle: string, remoteTitle: string,
    localP: seq<byte>, localS: seq<byte>, localT: seq<byte>,
    remoteP: seq<byte>, remoteS: seq<byte>, remoteT: seq<byte>)

  /** A connection; a port that is absent or no number is one the library cannot read. */
  datatype RedGroup = RedGroup(ip: string, port: Option<int>, osi: Option<Osi>, tls: bool)

  const INT_LIMIT: int := 0x8000_0000
  /** The limit the code has, which is above the highest port there is. */
  const PORT_LIMIT: int := 65636
  const P_SIZE: nat := 16
  const S_SIZE: nat := 16
  const T_SIZE: nat := 4

  predicate IsInt(n: int) {
    -INT_LIMIT <= n < INT_LIMIT
  }

  /** The text of a JSON string as the C library sees it. */
  function Text(s: string): string {
    Content(s + "\0")
  }

  // ---- One parameter ----

  function Dotted(s: string): (r: string) {
    seq(|s|, i requires 0 <= i < |s| => if s[i] == ',' then '.' else s[i])
  }

  function WithoutDots(s: string): string {
    if s == [] then []
    else WithoutDots(s[..|s| - 1]) + if s[|s| - 1] == '.' then [] else [s[|s| - 1]]
  }

  /** Digits with dots or commas anywhere. */
  predicate IsTitle(s: string) {
    forall i :: 0 <= i < |s| ==> '0' <= s[i] <= '9' || s[i] == '.' || s[i] == ','
  }

  function ReadQualifier(section: Json, name: string): Result<int, ConfigError> {
    match Find(section, name)
    case None => Success(0)
    case Some(v) => if v.Number? && IsInt(v.n) then Success(v.n) else Failure(BadFormat(name))
  }

  function ReadTitle(section: Json, name: string): Result<string, ConfigError> {
    match Find(section, name)
    case None => Success("")
    case Some(v) =>
      if !v.String? then Failure(BadFormat(name))
      else if IsTitle(Text(v.s)) then Success(Dotted(Text(v.s)))
      else Failure(BadTitle(name))
  }

  function ReadSelector(section: Json, name: string, size: nat): Result<seq<byte>, ConfigError> {
    match Find(section, name)
    case None => Success([])
    case Some(v) =>
      if !v.String? then Failure(BadFormat(name))
      else
        var p := ParseSelector(Text(v.s), size);
        if p.error.None? then Success(p.bytes) else Failure(BadSelector(p.error.value))
  }

  // ---- A section and a list ----

  /** An OSI section. The first parameter that is refused decides. */
  function ReadOsi(section: Json): Result<Osi, ConfigError> {
    if !section.Object? then Failure(NotAnObject)
    else
      var localQualifier :- ReadQualifier(section, "local_ae_qualifier");
      var remoteQualifier :- ReadQualifier(section, "remote_ae_qualifier");
      var localTitle :- ReadTitle(section, "local_ap_title");
      var remoteTitle :- ReadTitle(section, "remote_ap_title");
      var localP :- ReadSelector(section, "local_psel", P_SIZE);
      var localS :- ReadSelector(section, "local_ssel", S_SIZE);
      var localT :- ReadSelector(section, "local_tsel", T_SIZE);
      var remoteP :- ReadSelector(section, "remote_psel", P_SIZE);
      var remoteS :- ReadSelector(section, "remote_ssel", S_SIZE);
      var remoteT :- ReadSelector(section, "remote_tsel", T_SIZE);
      Success(Osi(localQualifier, remoteQualifier, localTitle, remoteTitle,
                  localP, localS, localT, remoteP, remoteS, remoteT))
  }

  /** The address of an entry that is not passed over. */
  function AddressOf(v: Json, validIp: string -> bool): Option<string> {
    match StringOf(Find(v, "ip_addr"))
    case None => None
    case Some(ip) =>
      var port := PortOf(v);
      if !validIp(Text(ip)) || (port.Some? && !(0 < port.value < PORT_LIMIT)) then None else Some(Text(ip))
  }

  function PortOf(v: Json): Option<int> {
    match Find(v, "port")
    case Some(Number(n)) => Some(n)
    case _ => None
  }

  /** One entry of the list: passed over, stored, or refused for its OSI section. */
  function ReadConnection(v: Json, validIp: string -> bool): Result<Option<RedGroup>, ConfigError> {
    match AddressOf(v, validIp)
    case None => Success(None)
    case Some(ip) =>
      var tls := Find(v, "tls") == Some(Bool(true));
      match Find(v, "osi")
      case None => Success(Some(RedGroup(ip, PortOf(v), None, tls)))
      case Some(section) =>
        var osi :- ReadOsi(section);
        Success(Some(RedGroup(ip, PortOf(v), Some(osi), tls)))
  }

  /** The connections stored before the first entry that is refused, and why that one is. */
  datatype Stored = Stored(groups: seq<RedGroup>, error: Option<ConfigError>)

  function ReadConnections(items: seq<Json>, validIp: string -> bool): Stored {
    if items == [] then Stored([], None)
    else
      var before := ReadConnections(items[..|items| - 1], validIp);
      if before.error.Some? then before
      else
        match ReadConnection(items[|items| - 1], validIp)
        case Failure(e) => before.(error := Some(e))
        case Success(None) => before
        case Success(Some(g)) => before.(groups := before.groups + [g])
  }

  // ---- Which sections are accepted, and what is stored ----

  /** A selector parameter is absent, or a text of no more tokens than fit that each denote a byte. */
  predicate IsGoodSelector(section: Json, name: string, size: nat) {
    match Find(section, name)
    case None => true
    case Some(v) =>
      && v.String?
      && var tokens := Tokens(Text(v.s));
      |tokens| <= size && forall k :: 0 <= k < |tokens| ==> Denotes(tokens[k]).Some? && Denotes(tokens[k]).value <= 255
  }

  predicate IsGoodTitle(section: Json, name: string) {
    match Find(section, name)
    case None => true
    case Some(v) => v.String? && IsTitle(Text(v.s))
  }

  predicate IsGoodQualifier(section: Json, name: string) {
    match Find(section, name)
    case None => true
    case Some(v) => v.Number? && -2147483648 <= v.n <= 2147483647
  }

  predicate IsGoodOsi(section: Json) {
    && section.Object?
    && IsGoodQualifier(section, "local_ae_qualifier") && IsGoodQualifier(section, "remote_ae_qualifier")
    && IsGoodTitle(section, "local_ap_title") && IsGoodTitle(section, "remote_ap_title")
    && IsGoodSelector(section, "local_psel", 16) && IsGoodSelector(section, "remote_psel", 16)
    && IsGoodSelector(section, "local_ssel", 16) && IsGoodSelector(section, "remote_ssel", 16)
    && IsGoodSelector(section, "local_tsel", 4) && IsGoodSelector(section, "remote_tsel", 4)
  }

  /** Digits and dots only. */
  predicate IsDottedTitle(s: string) {
    forall i :: 0 <= i < |s| ==> '0' <= s[i] <= '9' || s[i] == '.'
  }

  predicate IsSoundOsi(osi: Osi) {
    && -2147483648 <= osi.localQualifier <= 2147483647 && -2147483648 <= osi.remoteQualifier <= 2147483647
    && IsDottedTitle(osi.localTitle) && IsDottedTitle(osi.remoteTitle)
    && |osi.localP| <= 16 && |osi.localS| <= 16 && |osi.localT| <= 4
    && |osi.remoteP| <= 16 && |osi.remoteS| <= 16 && |osi.remoteT| <= 4
  }

  lemma SelectorIsRead(section: Json, name: string, size: nat)
    ensures ReadSelector(section, name, size).Success? <==> IsGoodSelector(section, name, size)
    ensures var r := ReadSelector(section, name, size);
            r.Success? ==> |r.value| <= size
  {
    var v := Find(section, name);
    if v.Some? && v.value.String? {
      ParseSucceedsExactly(Text(v.value.s), size);
    }
  }

  lemma TitleIsRead(section: Json, name: string)
    ensures ReadTitle(section, name).Success? <==> IsGoodTitle(section, name)
    ensures var r := ReadTitle(section, name);
            r.Success? ==> IsDottedTitle(r.value)
    ensures var v, r := Find(section, name), ReadTitle(section, name);
            r.Success? && v.Some? ==>
              && v.value.String? && |r.value| == |Text(v.value.s)|
              && forall i :: 0 <= i < |r.value| ==>
                   r.value[i] == if Text(v.value.s)[i] == ',' then '.' else Text(v.value.s)[i]
  {
  }

  /** A section is accepted exactly when every parameter that is present has the right form; what is stored then has
      titles of digits and dots and selectors that fit their buffers. */
  lemma OsiIsReadExactly(section: Json)
    ensures ReadOsi(section).Success? <==> IsGoodOsi(section)
    ensures ReadOsi(section).Success? ==> IsSoundOsi(ReadOsi(section).value)
  {
    hide ReadSelector, ReadTitle, IsGoodSelector, IsGoodTitle, IsDottedTitle, Find;
    TitleIsRead(section, "local_ap_title");
    TitleIsRead(section, "remote_ap_title");
    SelectorIsRead(section, "local_psel", P_SIZE);
    SelectorIsRead(section, "local_ssel", S_SIZE);
    SelectorIsRead(section, "local_tsel", T_SIZE);
    SelectorIsRead(section, "remote_psel", P_SIZE);
    SelectorIsRead(section, "remote_ssel", S_SIZE);
    SelectorIsRead(section, "remote_tsel", T_SIZE);
    assert ReadQualifier(section, "local_ae_qualifier").Success? <==> IsGoodQualifier(section, "local_ae_qualifier");
    assert ReadQualifier(section, "remote_ae_qualifier").Success? <==> IsGoodQualifier(section, "remote_ae_qualifier");
  }

  /** An entry that ends the import: it would be stored, but for its OSI section. */
  predicate IsRefused(v: Json, validIp: string -> bool) {
    AddressOf(v, validIp).Some? && Find(v, "osi").Some? && !IsGoodOsi(Find(v, "osi").value)
  }

  predicate IsSoundGroup(g: RedGroup, validIp: string -> bool) {
    && validIp(g.ip)
    && (g.port.Some? ==> 1 <= g.port.value <= 65635)
    && (g.osi.Some? ==> IsSoundOsi(g.osi.value))
  }

  /** An entry is passed over exactly if it has no valid address or a port out of range. */
  lemma PassedOverExactly(v: Json, validIp: string -> bool)
    ensures ReadConnection(v, validIp) == Success(None) <==>
            var ip, port := StringOf(Find(v, "ip_addr")), Find(v, "port");
            || ip.None? || !validIp(Text(ip.value))
            || (port.Some? && port.value.Number? && (port.value.n < 1 || port.value.n > 65635))
  {
    hide ReadOsi, FindIn;
  }

  lemma ConnectionIsRead(v: Json, validIp: string -> bool)
    ensures ReadConnection(v, validIp).Failure? <==> IsRefused(v, validIp)
    ensures var r := ReadConnection(v, validIp);
            r.Success? && r.value.Some? ==> IsSoundGroup(r.value.value, validIp)
  {
    hide ReadOsi, IsGoodOsi, IsSoundOsi, Find;
    if Find(v, "osi").Some? {
      OsiIsReadExactly(Find(v, "osi").value);
    }
  }

  /** Reading the list throws exactly if some entry is refused; whatever has been stored by then has a valid address,
      a port in range and sound OSI parameters. */
  lemma {:induction false} ListThrowsExactly(items: seq<Json>, validIp: string -> bool)
    ensures var r := ReadConnections(items, validIp);
            && (r.error.Some? <==> exists v :: v in items && IsRefused(v, validIp))
            && forall g :: g in r.groups ==> IsSoundGroup(g, validIp)
  {
    hide ReadConnection, IsRefused, IsSoundGroup;
    if items == [] {
    } else {
      var before, last := items[..|items| - 1], items[|items| - 1];
      assert items == before + [last];
      ListThrowsExactly(before, validIp);
      ConnectionIsRead(last, validIp);
    }
  }

  /** What the entries before one leave is final; those behind a refused one change nothing. */
  lemma {:induction false} ConnectionsInOrder(a: seq<Json>, b: seq<Json>, validIp: string -> bool)
    ensures var first, second := ReadConnections(a, validIp), ReadConnections(b, validIp);
            ReadConnections(a + b, validIp)
            == if first.error.Some? then first else Stored(first.groups + second.groups, second.error)
    decreases |b|
  {
    hide ReadConnection;
    if b == [] {
      assert a + b == a;
    } else {
      var n := |b| - 1;
      assert (a + b)[..|a + b| - 1] == a + b[..n] && (a + b)[|a + b| - 1] == b[n];
      ConnectionsInOrder(a, b[..n], validIp);
    }
  }

  // ---- Writing a section ----

  /** Bytes in decimal, each behind a space. */
  function Spaced(bytes: seq<byte>): (items: seq<Item>)
    ensures forall k :: 0 <= k < |items| ==> Spells(items[k])
  {
    var items := seq(|bytes|, i requires 0 <= i < |bytes| => Item(" ", bytes[i], Plain(bytes[i], Decimal)));
    assert forall k :: 0 <= k < |items| ==> Spells(items[k]) by {
      forall k | 0 <= k < |items| ensures Spells(items[k]) {
        PlainIsWritten(bytes[k], Decimal);
      }
    }
    items
  }

  function Printed(bytes: seq<byte>): string {
    Print(Spaced(bytes), "")
  }

  const OSI_NAMES: seq<string> := [
    "local_ae_qualifier", "remote_ae_qualifier", "local_ap_title", "remote_ap_title",
    "local_psel", "local_ssel", "local_tsel", "remote_psel", "remote_ssel", "remote_tsel"]

  function OsiValues(osi: Osi): (values: seq<Json>)
    ensures |values| == |OSI_NAMES|
  {
    [Number(osi.localQualifier), Number(osi.remoteQualifier), String(osi.localTitle), String(osi.remoteTitle),
     String(Printed(osi.localP)), String(Printed(osi.localS)), String(Printed(osi.localT)),
     String(Printed(osi.remoteP)), String(Printed(osi.remoteS)), String(Printed(osi.remoteT))]
  }

  function SectionFor(osi: Osi): Json {
    Object(seq(|OSI_NAMES|, i requires 0 <= i < |OSI_NAMES| => Member(OSI_NAMES[i], OsiValues(osi)[i])))
  }

  lemma OsiNamesDiffer(i: nat, j: nat)
    requires i < j < |OSI_NAMES|
    ensures OSI_NAMES[i] != OSI_NAMES[j]
  {
  }

  lemma FindsParameter(osi: Osi, i: nat)
    requires i < |OSI_NAMES|
    ensures SectionFor(osi).Object? && Find(SectionFor(osi), OSI_NAMES[i]) == Some(OsiValues(osi)[i])
  {
    hide OsiValues, OSI_NAMES;
    forall j | 0 <= j < i ensures OSI_NAMES[j] != OSI_NAMES[i] {
      OsiNamesDiffer(j, i);
    }
    FindsFirst(SectionFor(osi).members, i);
  }

  lemma TextOfPlain(s: string)
    requires forall i :: 0 <= i < |s| ==> s[i] != '\0'
    ensures Text(s) == s
  {
    ContentIs(s + "\0", |s|);
  }

  lemma {:induction false} SpacedValues(bytes: seq<byte>)
    ensures Values(Spaced(bytes)) == bytes && WellSeparated(Spaced(bytes))
  {
    if bytes == [] {
    } else {
      SpacedValues(bytes[1..]);
      assert Spaced(bytes)[1..] == Spaced(bytes[1..]);
    }
  }

  lemma {:induction false} PrintedIsPlain(bytes: seq<byte>)
    ensures forall i :: 0 <= i < |Printed(bytes)| ==> Printed(bytes)[i] != '\0'
  {
    if bytes == [] {
    } else {
      PrintedIsPlain(bytes[1..]);
      var item := Spaced(bytes)[0];
      assert Spaced(bytes)[1..] == Spaced(bytes[1..]);
      assert Printed(bytes) == " " + Spelled(item.numeral) + Printed(bytes[1..]);
      forall i | 0 <= i < |CharsOf(item.numeral.digits)| ensures CharsOf(item.numeral.digits)[i] != '\0' {
        CharIsPlain(item.numeral.digits[i]);
      }
    }
  }

  lemma PrintedIsRead(bytes: seq<byte>, size: nat)
    requires |bytes| <= size
    ensures ParseSelector(Text(Printed(bytes)), size) == Parse(bytes, None)
  {
    PrintedIsPlain(bytes);
    TextOfPlain(Printed(bytes));
    SpacedValues(bytes);
    PrintRoundTrip(Spaced(bytes), "", size);
  }

  lemma TitleIsKept(s: string)
    requires IsDottedTitle(s)
    ensures IsTitle(Text(s)) && Dotted(Text(s)) == s
  {
    TextOfPlain(s);
  }

  /** Any sound OSI parameters, written out as a section, are read back unchanged. */
  lemma OsiRoundTrip(osi: Osi)
    requires IsSoundOsi(osi)
    ensures ReadOsi(SectionFor(osi)) == Success(osi)
  {
    hide Text, Find, SectionFor, Printed, ParseSelector, IsTitle, IsDottedTitle, Dotted;
    forall i | 0 <= i < |OSI_NAMES|
      ensures SectionFor(osi).Object? && Find(SectionFor(osi), OSI_NAMES[i]) == Some(OsiValues(osi)[i])
    {
      FindsParameter(osi, i);
    }
    assert OSI_NAMES[0] == "local_ae_qualifier" && OSI_NAMES[1] == "remote_ae_qualifier";
    assert OSI_NAMES[2] == "local_ap_title" && OSI_NAMES[3] == "remote_ap_title";
    assert OSI_NAMES[4] == "local_psel" && OSI_NAMES[5] == "local_ssel" && OSI_NAMES[6] == "local_tsel";
    assert OSI_NAMES[7] == "remote_psel" && OSI_NAMES[8] == "remote_ssel" && OSI_NAMES[9] == "remote_tsel";
    TitleIsKept(osi.localTitle);
    TitleIsKept(osi.remoteTitle);
    PrintedIsRead(osi.localP, P_SIZE);
    PrintedIsRead(osi.localS, S_SIZE);
    PrintedIsRead(osi.localT, T_SIZE);
    PrintedIsRead(osi.remoteP, P_SIZE);
    PrintedIsRead(osi.remoteS, S_SIZE);
    PrintedIsRead(osi.remoteT, T_SIZE);
  }

  // ---- The import itself ----

  method ImportQualifier(section: Json, name: string) returns (r: Result<int, ConfigError>)
    ensures r == ReadQualifier(section, name)
  {
    var v := Find(section, name);
    if v.None? {
      return Success(0);
    }
    if !v.value.Number? || !IsInt(v.value.n) {
      return Failure(BadFormat(name));
    }
    r := Success(v.value.n);
  }

  predicate AreDigits(s: string) {
    forall i :: 0 <= i < |s| ==> '0' <= s[i] <= '9'
  }

  lemma {:induction false} OnlyDigitsLeft(s: string)
    ensures AreDigits(WithoutDots(s)) <==> IsDottedTitle(s)
  {
    if s == [] {
    } else {
      var n := |s| - 1;
      OnlyDigitsLeft(s[..n]);
      var rest := WithoutDots(s[..n]);
      assert IsDottedTitle(s) <==> IsDottedTitle(s[..n]) && ('0' <= s[n] <= '9' || s[n] == '.');
      if s[n] == '.' {
        assert rest + [] == rest;
      } else {
        assert WithoutDots(s) == rest + [s[n]];
        assert AreDigits(rest + [s[n]]) <==> AreDigits(rest) && '0' <= s[n] <= '9' by {
          assert forall i :: 0 <= i < |rest| ==> (rest + [s[n]])[i] == rest[i];
          assert (rest + [s[n]])[|rest|] == s[n];
        }
      }
    }
  }

  lemma TitleInDots(s: string)
    ensures IsDottedTitle(Dotted(s)) <==> IsTitle(s)
  {
    if IsDottedTitle(Dotted(s)) {
      forall i | 0 <= i < |s| ensures '0' <= s[i] <= '9' || s[i] == '.' || s[i] == ',' {
        assert '0' <= Dotted(s)[i] <= '9' || Dotted(s)[i] == '.';
      }
    }
  }

  /** The title is stored with dots only; what is left without them must be digits. */
  method ImportTitle(section: Json, name: string) returns (r: Result<string, ConfigError>)
    ensures r == ReadTitle(section, name)
  {
    var v := Find(section, name);
    if v.None? {
      return Success("");
    }
    if !v.value.String? {
      return Failure(BadFormat(name));
    }
    var title := Dotted(Text(v.value.s));
    var rest := WithoutDots(title);
    OnlyDigitsLeft(title);
    TitleInDots(Text(v.value.s));
    if !AreDigits(rest) {
      return Failure(BadTitle(name));
    }
    r := Success(title);
  }

  /** Fills a fresh buffer of the given size and keeps the part in use. */
  method ImportSelector(section: Json, name: string, size: nat) returns (r: Result<seq<byte>, ConfigError>)
    ensures r == ReadSelector(section, name, size)
  {
    var v := Find(section, name);
    if v.None? {
      return Success([]);
    }
    if !v.value.String? {
      return Failure(BadFormat(name));
    }
    var s := v.value.s + "\0";
    var text := new char[|s|](i requires 0 <= i < |s| => s[i]);
    assert text[..] == s && s[|s| - 1] == '\0';
    var buffer := new byte[size](_ => 0);
    var parsed := ParseOsiSelector(text, buffer, size);
    if parsed.Failure? {
      return Failure(BadSelector(parsed.error));
    }
    assert buffer[..parsed.value] == ParseSelector(Text(v.value.s), size).bytes;
    r := Success(buffer[..parsed.value]);
  }

  method ImportOsiConfig(section: Json) returns (r: Result<Osi, ConfigError>)
    ensures r == ReadOsi(section)
    ensures r.Success? <==> IsGoodOsi(section)
    ensures r.Success? ==> IsSoundOsi(r.value)
  {
    hide ReadQualifier, ReadTitle, ReadSelector, IsGoodOsi, IsSoundOsi;
    OsiIsReadExactly(section);
    if !section.Object? {
      return Failure(NotAnObject);
    }
    var localQualifier :- ImportQualifier(section, "local_ae_qualifier");
    var remoteQualifier :- ImportQualifier(section, "remote_ae_qualifier");
    var localTitle :- ImportTitle(section, "local_ap_title");
    var remoteTitle :- ImportTitle(section, "remote_ap_title");
    var localP :- ImportSelector(section, "local_psel", P_SIZE);
    var localS :- ImportSelector(section, "local_ssel", S_SIZE);
    var localT :- ImportSelector(section, "local_tsel", T_SIZE);
    var remoteP :- ImportSelector(section, "remote_psel", P_SIZE);
    var remoteS :- ImportSelector(section, "remote_ssel", S_SIZE);
    var remoteT :- ImportSelector(section, "remote_tsel", T_SIZE);
    r := Success(Osi(localQualifier, remoteQualifier, localTitle, remoteTitle,
                     localP, localS, localT, remoteP, remoteS, remoteT));
  }

  method ImportConnection(v: Json, validIp: string -> bool) returns (r: Result<Option<RedGroup>, ConfigError>)
    ensures r == ReadConnection(v, validIp)
    ensures r.Failure? <==> IsRefused(v, validIp)
    ensures r.Success? && r.value.Some? ==> IsSoundGroup(r.value.value, validIp)
  {
    hide ReadOsi, IsGoodOsi, IsSoundOsi, IsRefused, IsSoundGroup;
    ConnectionIsRead(v, validIp);
    var address := Find(v, "ip_addr");
    if address.None? || !address.value.String? {
      return Success(None);
    }
    var ip := Text(address.value.s);
    if !validIp(ip) {
      return Success(None);
    }
    var port := Find(v, "port");
    if port.Some? && port.value.Number? && (port.value.n <= 0 || port.value.n >= PORT_LIMIT) {
      return Success(None);
    }
    var group := RedGroup(ip, PortOf(v), None, false);
    var section := Find(v, "osi");
    if section.Some? {
      var osi :- ImportOsiConfig(section.value);
      group := group.(osi := Some(osi));
    }
    var tls := Find(v, "tls");
    if tls.Some? && tls.value.Bool? {
      group := group.(tls := tls.value.b);
    }
    r := Success(Some(group));
  }
}
