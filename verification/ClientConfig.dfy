/** The client configuration: the indices over the exchanged points, the datasets, and their import. */
module ClientConfig {
  import opened Wrappers
  import opened Json
  import opened TypeCheck
  import opened Exchange
  import opened ConnectionList
  import opened TransferSets

  datatype Dataset = Dataset(domain: string, ref: string, entries: seq<string>, dynamic: bool)

  const DEFAULT_DOMAIN := "vcc"

  /** The files that the TLS configuration names. */
  datatype TlsFiles = TlsFiles(privateKey: string, ownCert: string, caCerts: seq<string>, remoteCerts: seq<string>)

  const NO_FILES := TlsFiles("", "", [], [])

  /** The whole configuration as a value. */
  datatype Config = Config(
    byLabel: map<string, Definition>,
    byRef: map<string, Definition>,
    polled: map<string, Definition>,
    datasets: map<string, Dataset>,
    transferSets: map<string, TransferSet>,
    connections: seq<RedGroup>,
    pollingInterval: int,
    backupTimeout: int,
    tls: TlsFiles)

  const EMPTY_CONFIG := Config(map[], map[], map[], map[], map[], [], 0, 5000, NO_FILES)

  // ---- The exchange configuration ----

  function WithDefinitions(c: Config, defs: seq<Definition>): Config {
    c.(byLabel := Store(c.byLabel, ByLabel, defs),
       byRef := Store(c.byRef, ByRef, defs),
       polled := Store(c.polled, Polled, defs))
  }

  // ---- The datasets of the protocol configuration ----

  function StringItems(items: seq<Json>): seq<string> {
    if items == [] then []
    else
      var last := items[|items| - 1];
      StringItems(items[..|items| - 1]) + if last.String? then [last.s] else []
  }

  function ReadDataset(v: Json): Option<Dataset> {
    var ref := StringOf(Find(v, "dataset_ref"));
    if ref.None? then None
    else
      var domain, entries, dynamic := StringOf(Find(v, "domain")), ItemsOf(Find(v, "entries")), Find(v, "dynamic");
      Some(Dataset(
             if domain.Some? then domain.value else DEFAULT_DOMAIN,
             ref.value,
             if entries.Some? then StringItems(entries.value) else [],
             dynamic.Some? && dynamic.value.Bool? && dynamic.value.b))
  }

  function ReadDatasets(items: seq<Json>): seq<Dataset> {
    if items == [] then []
    else
      var last := ReadDataset(items[|items| - 1]);
      ReadDatasets(items[..|items| - 1]) + if last.Some? then [last.value] else []
  }

  /** The references a dataset covers. */
  function EntryRefs(domain: string, entries: seq<string>): set<string> {
    set e | e in entries :: Compose(domain, e)
  }

  function CoveredRefs(datasets: seq<Dataset>): set<string> {
    set d, e | d in datasets && e in d.entries :: Compose(d.domain, e)
  }

  function RefOf(d: Dataset): string {
    d.ref
  }

  function WithDatasets(c: Config, datasets: seq<Dataset>): Config {
    c.(polled := c.polled - CoveredRefs(datasets), datasets := Insert(c.datasets, datasets, RefOf))
  }

  /** The transport and application layers, if the document passes the type check and has them. */
  function StackOf(document: Option<Json>): Option<Json> {
    if document.None? || !document.value.Object? || !AllCorrect("", document.value) then None
    else ObjectOf(Find(document.value, "protocol_stack"))
  }

  function DatasetsOf(layer: Json): seq<Dataset> {
    match ItemsOf(Find(layer, "datasets"))
    case None => []
    case Some(items) => ReadDatasets(items)
  }

  function TransferSetsOf(layer: Json): seq<TransferSet> {
    match ItemsOf(Find(layer, "dataset_transfer_sets"))
    case None => []
    case Some(items) => ReadTransferSets(items)
  }

  /** The application layer: a negative polling interval ends the import before the lists. */
  function WithApplication(c: Config, layer: Json): Config {
    var interval := NumberOf(Find(layer, "polling_interval"), c.pollingInterval);
    if Find(layer, "polling_interval").Some? && interval < 0 then c
    else
      var c1 := WithDatasets(c.(pollingInterval := interval), DatasetsOf(layer));
      c1.(transferSets := Insert(c1.transferSets, TransferSetsOf(layer), NameOf))
  }

  /** The list of connections, if the document has one. */
  function ConnectionsOf(document: Option<Json>): Option<seq<Json>> {
    match StackOf(document)
    case None => None
    case Some(stack) =>
      var transport := Find(stack, "transport_layer");
      if transport.None? then None else ItemsOf(Find(transport.value, "connections"))
  }

  /** What importing the protocol configuration throws. */
  function ThrownBy(document: Option<Json>, validIp: string -> bool): Option<ConfigError> {
    match ConnectionsOf(document)
    case None => None
    case Some(items) => ReadConnections(items, validIp).error
  }

  /** The protocol configuration. A refused connection throws and ends the import there. */
  function WithProtocol(c: Config, document: Option<Json>, validIp: string -> bool): Config {
    match ConnectionsOf(document)
    case None => c
    case Some(items) =>
      var read := ReadConnections(items, validIp);
      var c1 := c.(connections := c.connections + read.groups);
      if read.error.Some? then c1
      else
        var stack := StackOf(document).value;
        var transport, application := Find(stack, "transport_layer").value, Find(stack, "application_layer");
        var c2 := c1.(backupTimeout := NumberOf(Find(transport, "backupTimeout"), c1.backupTimeout));
        if application.None? then c2 else WithApplication(c2, application.value)
  }

  /** A complete configuration from its two documents, the exchange configuration first. */
  function Configured(exchange: Option<Json>, protocol: Option<Json>, validIp: string -> bool): Config {
    WithProtocol(WithDefinitions(EMPTY_CONFIG, AcceptedDefinitions(exchange)), protocol, validIp)
  }

  /** The application layer, if the import gets as far as its lists. */
  function LayerRead(document: Option<Json>, validIp: string -> bool): Option<Json> {
    if ConnectionsOf(document).None? || ThrownBy(document, validIp).Some? then None
    else
      match Find(StackOf(document).value, "application_layer")
      case None => None
      case Some(layer) =>
        var interval := Find(layer, "polling_interval");
        if interval.Some? && NumberOf(interval, 0) < 0 then None else Some(layer)
  }

  /** The datasets the protocol configuration accepts, duplicates included. */
  function AcceptedDatasets(document: Option<Json>, validIp: string -> bool): seq<Dataset> {
    match LayerRead(document, validIp)
    case None => []
    case Some(layer) => DatasetsOf(layer)
  }

  function AcceptedTransferSets(document: Option<Json>, validIp: string -> bool): seq<TransferSet> {
    match LayerRead(document, validIp)
    case None => []
    case Some(layer) => TransferSetsOf(layer)
  }

  // ---- The TLS configuration ----

  function CertificateFiles(items: seq<Json>): seq<string> {
    if items == [] then []
    else
      var file := StringOf(Find(items[|items| - 1], "cert_file"));
      CertificateFiles(items[..|items| - 1]) + if file.Some? then [file.value] else []
  }

  function FilesIn(list: Option<Json>): seq<string> {
    if list.Some? && list.value.Array? then CertificateFiles(list.value.items) else []
  }

  function WithTls(c: Config, document: Option<Json>): Config {
    match if document.None? then None else ObjectOf(Find(document.value, "tls_conf"))
    case None => c
    case Some(tls) =>
      c.(tls := TlsFiles(
           TextOr(Find(tls, "private_key"), c.tls.privateKey), TextOr(Find(tls, "own_cert"), c.tls.ownCert),
           c.tls.caCerts + FilesIn(Find(tls, "ca_certs")), c.tls.remoteCerts + FilesIn(Find(tls, "remote_certs"))))
  }

  // ---- What a configuration keeps ----

  /** Every polled reference is known. */
  predicate PolledKnown(c: Config) {
    c.polled.Keys <= c.byRef.Keys
  }

  /** The two documents leave exactly the imported polled points that no accepted dataset covers, and the first
      dataset and the first transfer set of each name; the indices by label and by reference are those of the
      exchange document. */
  lemma ConfiguredIs(exchange: Option<Json>, protocol: Option<Json>, validIp: string -> bool)
    ensures var c, defs := Configured(exchange, protocol, validIp), AcceptedDefinitions(exchange);
            var datasets := AcceptedDatasets(protocol, validIp);
            && c.byLabel == Store(map[], ByLabel, defs)
            && c.byRef == Store(map[], ByRef, defs)
            && c.polled == Store(map[], Polled, defs) - CoveredRefs(datasets)
            && c.datasets == Insert(map[], datasets, RefOf)
            && c.transferSets == Insert(map[], AcceptedTransferSets(protocol, validIp), NameOf)
            && c.connections == match ConnectionsOf(protocol)
                                case None => []
                                case Some(items) => ReadConnections(items, validIp).groups
  {
    hide StackOf, ReadConnections, AcceptedDefinitions, ReadDatasets, ReadTransferSets, Store, Find, CoveredRefs;
    var c0 := WithDefinitions(EMPTY_CONFIG, AcceptedDefinitions(exchange));
    var datasets := AcceptedDatasets(protocol, validIp);
    if datasets == [] {
      NoDatasets(c0);
    }
  }

  /** After any import no polled point is also covered by a stored dataset, and a point that is polled or covered by
      an accepted dataset is not lost: it is polled exactly when it was imported as such and is not covered. */
  lemma PolledAndReportedAreDisjoint(exchange: Option<Json>, protocol: Option<Json>, validIp: string -> bool,
                                     name: string, entry: string)
    ensures var c := Configured(exchange, protocol, validIp);
            name in c.datasets && entry in c.datasets[name].entries ==>
              Compose(c.datasets[name].domain, entry) !in c.polled
    ensures PolledKnown(Configured(exchange, protocol, validIp))
  {
    ConfiguredIs(exchange, protocol, validIp);
    PolledAreKnown(AcceptedDefinitions(exchange));
    InsertKeepsTheFirst(AcceptedDatasets(protocol, validIp), RefOf, name);
  }

  /** Every stored connection is sound. The import throws exactly if the list has an entry that is refused, and then
      the rest of the protocol configuration has no effect. */
  lemma RefusedConnectionEndsTheImport(exchange: Option<Json>, protocol: Option<Json>, validIp: string -> bool)
    ensures var c, thrown := Configured(exchange, protocol, validIp), ThrownBy(protocol, validIp);
            && (forall g :: g in c.connections ==> IsSoundGroup(g, validIp))
            && (thrown.Some? <==>
                && ConnectionsOf(protocol).Some?
                && exists v :: v in ConnectionsOf(protocol).value && IsRefused(v, validIp))
            && (thrown.Some? ==>
                  c == WithDefinitions(EMPTY_CONFIG, AcceptedDefinitions(exchange)).(connections := c.connections))
  {
    hide ConnectionsOf, IsSoundGroup, IsRefused, ReadConnections, AcceptedDefinitions, Store, AcceptedDatasets;
    ConfiguredIs(exchange, protocol, validIp);
    if ConnectionsOf(protocol).Some? {
      ListThrowsExactly(ConnectionsOf(protocol).value, validIp);
    }
  }

  /** A parameter of the wrong type at the first level keeps the whole protocol configuration out; deeper ones never
      do. */
  lemma OnlyFirstLevelTypesStopTheImport(c: Config, members: seq<Member>, validIp: string -> bool)
    requires forall i :: 0 <= i < |members| ==> members[i].name != ""
    ensures HasWrongParameter(members) ==>
              && WithProtocol(c, Some(Object(members)), validIp) == c
              && ThrownBy(Some(Object(members)), validIp).None?
    ensures !HasWrongParameter(members)
            ==> StackOf(Some(Object(members))) == ObjectOf(FindIn(members, "protocol_stack"))
  {
    hide HasWrongParameter, AllCorrect, WithApplication, FindIn;
    RejectsOnlyTheFirstLevel(members);
  }

  // ---- A refused connection ----

  /** A document with one connection, a polling interval and one dataset. */
  function DocumentWith(connection: Json): Json {
    var transport := Object([Member("connections", Array([connection]))]);
    var dataset := Object([Member("dataset_ref", String("ds"))]);
    var application := Object([Member("polling_interval", Number(1000)), Member("datasets", Array([dataset]))]);
    Object([Member("protocol_stack",
                   Object([Member("transport_layer", transport), Member("application_layer", application)]))])
  }

  function StackWith(connection: Json): Json {
    DocumentWith(connection).members[0].value
  }

  lemma StackIsFound(connection: Json)
    ensures StackOf(Some(DocumentWith(connection))) == Some(StackWith(connection))
  {
    hide AllCorrect;
    RejectsOnlyTheFirstLevel(DocumentWith(connection).members);
  }

  lemma LayersAreFound(connection: Json)
    ensures var document, stack := Some(DocumentWith(connection)), StackWith(connection);
            && ConnectionsOf(document) == Some([connection])
            && Find(stack, "application_layer") == Some(stack.members[1].value)
            && Find(stack.members[1].value, "polling_interval") == Some(Number(1000))
            && ItemsOf(Find(stack.members[1].value, "datasets"))
               == Some([Object([Member("dataset_ref", String("ds"))])])
  {
    hide StackOf;
    StackIsFound(connection);
    var stack := StackWith(connection);
    FindsFirst(stack.members, 0);
    FindsFirst(stack.members, 1);
    var transport, application := stack.members[0].value, stack.members[1].value;
    FindsFirst(transport.members, 0);
    FindsFirst(application.members, 0);
    FindsFirst(application.members, 1);
  }

  const GOOD_ENTRY := Object([Member("ip_addr", String("1.2.3.4")), Member("port", Number(102))])
  const REFUSED_ENTRY := Object([Member("ip_addr", String("1.2.3.4")), Member("port", Number(102)),
                                 Member("osi", Null)])

  lemma EntriesAreRead(validIp: string -> bool)
    requires validIp("1.2.3.4")
    ensures !IsRefused(GOOD_ENTRY, validIp) && IsRefused(REFUSED_ENTRY, validIp)
  {
    hide IsGoodSelector, IsGoodTitle, IsGoodQualifier;
    TextOfPlain("1.2.3.4");
    FindsFirst(GOOD_ENTRY.members, 0);
    FindsFirst(GOOD_ENTRY.members, 1);
    FindsFirst(REFUSED_ENTRY.members, 0);
    FindsFirst(REFUSED_ENTRY.members, 1);
    FindsFirst(REFUSED_ENTRY.members, 2);
  }

  lemma GoodEntryKeepsTheRest(exchange: Option<Json>, validIp: string -> bool)
    requires validIp("1.2.3.4")
    ensures var c := Configured(exchange, Some(DocumentWith(GOOD_ENTRY)), validIp);
            c.datasets.Keys == {"ds"} && c.pollingInterval == 1000
  {
    hide StackOf, IsRefused, ReadConnections, AcceptedDefinitions, Store, DocumentWith, StackWith, FindIn, AllCorrect,
         ReadDatasets, CoveredRefs, GOOD_ENTRY;
    EntriesAreRead(validIp);
    StackIsFound(GOOD_ENTRY);
    LayersAreFound(GOOD_ENTRY);
    ListThrowsExactly([GOOD_ENTRY], validIp);
    OneDatasetIsRead();
    OneDataset(map[], Dataset(DEFAULT_DOMAIN, "ds", [], false));
  }

  lemma OneDatasetIsRead()
    ensures ReadDatasets([Object([Member("dataset_ref", String("ds"))])]) == [Dataset(DEFAULT_DOMAIN, "ds", [], false)]
  {
    var v := Object([Member("dataset_ref", String("ds"))]);
    FindsFirst(v.members, 0);
    assert ReadDataset(v) == Some(Dataset(DEFAULT_DOMAIN, "ds", [], false));
    assert ReadDatasets([]) == [] && [v][..0] == [];
  }

  /** Such a document: without its OSI section the connection is stored, and so are the dataset and the interval; with
      a section that is no object nothing of them is. */
  lemma RefusedConnectionLosesTheDatasets(exchange: Option<Json>, validIp: string -> bool)
    requires validIp("1.2.3.4")
    ensures var c := Configured(exchange, Some(DocumentWith(GOOD_ENTRY)), validIp);
            c.datasets.Keys == {"ds"} && c.pollingInterval == 1000
    ensures var c := Configured(exchange, Some(DocumentWith(REFUSED_ENTRY)), validIp);
            && ThrownBy(Some(DocumentWith(REFUSED_ENTRY)), validIp).Some?
            && c.datasets == map[] && c.pollingInterval == 0
  {
    hide StackOf, ConnectionsOf, IsRefused, ReadConnections, AcceptedDefinitions, Store, DocumentWith, Find, Configured;
    EntriesAreRead(validIp);
    RefusedConnectionEndsTheImport(exchange, Some(DocumentWith(REFUSED_ENTRY)), validIp);
    LayersAreFound(REFUSED_ENTRY);
    assert REFUSED_ENTRY in [REFUSED_ENTRY];
    GoodEntryKeepsTheRest(exchange, validIp);
  }

  // ---- The configuration object ----

  class TASE2ClientConfig {
    var byLabel: map<string, Definition>
    var byRef: map<string, Definition>
    var polled: map<string, Definition>
    var datasets: map<string, Dataset>
    var transferSets: map<string, TransferSet>
    var connections: seq<RedGroup>
    var pollingInterval: int
    var backupTimeout: int
    var privateKey: string
    var ownCertificate: string
    var caCertificates: seq<string>
    var remoteCertificates: seq<string>

    function State(): Config
      reads this
    {
      Config(byLabel, byRef, polled, datasets, transferSets, connections, pollingInterval, backupTimeout,
             TlsFiles(privateKey, ownCertificate, caCertificates, remoteCertificates))
    }

    constructor ()
      ensures State() == EMPTY_CONFIG
    {
      byLabel, byRef, polled, datasets, transferSets := map[], map[], map[], map[], map[];
      connections, pollingInterval, backupTimeout := [], 0, 5000;
      privateKey, ownCertificate, caCertificates, remoteCertificates := "", "", [], [];
    }

    /** The definition of a reference, if there is one. */
    function DefinitionByRef(ref: string): Option<Definition>
      reads this
    {
      if ref in byRef then Some(byRef[ref]) else None
    }

    method AddDefinition(def: Definition)
      modifies this`byLabel, this`byRef, this`polled
      ensures State() == WithDefinitions(old(State()), [def])
    {
      StoreOne(byLabel, ByLabel, def);
      StoreOne(byRef, ByRef, def);
      StoreOne(polled, Polled, def);
      byLabel := byLabel[def.asset := def];
      byRef := byRef[def.ref := def];
      if def.kind < COMMAND {
        polled := polled[def.ref := def];
      }
    }

    method ImportProtocols(asset: string, protocols: seq<Json>) returns (aborted: bool)
      modifies this`byLabel, this`byRef, this`polled
      ensures var a := AcceptedProtocols(asset, protocols);
              aborted == a.aborted && State() == WithDefinitions(old(State()), a.defs)
    {
      var i := 0;
      ghost var was := State();
      while i < |protocols|
        invariant i <= |protocols|
        invariant AcceptedProtocols(asset, protocols[..i])
                  == Accepted(AcceptedProtocols(asset, protocols[..i]).defs, false)
        invariant State() == WithDefinitions(was, AcceptedProtocols(asset, protocols[..i]).defs)
      {
        assert protocols[..i + 1][..i] == protocols[..i];
        AcceptedAborts(asset, protocols, i);
        var protocol := protocols[i];
        var name := Find(protocol, "name");
        if name.None? || !name.value.String? {
          return true;
        }
        var ref := Find(protocol, "ref");
        if ref.None? || !ref.value.String? {
          return true;
        }
        var kind := Find(protocol, "typeid");
        if kind.None? || !kind.value.String? {
          return true;
        }
        ghost var before := AcceptedProtocols(asset, protocols[..i]).defs;
        if TypeFromName(kind.value.s) != UNKNOWN_TYPE && ':' in ref.value.s {
          var def := Definition(ref.value.s, asset, TypeFromName(kind.value.s));
          AddDefinition(def);
          WithMore(was, before, [def]);
        }
        i := i + 1;
      }
      assert protocols[..i] == protocols;
      aborted := false;
    }

    /** The import stops for good at the first entry that is not of the right form. */
    method ImportExchangeConfig(document: Option<Json>)
      modifies this`byLabel, this`byRef, this`polled
      ensures State() == WithDefinitions(old(State()), AcceptedDefinitions(document))
    {
      if document.None? || !document.value.Object? {
        return;
      }
      var data := Find(document.value, "exchanged_data");
      if data.None? || !data.value.Object? {
        return;
      }
      var points := Find(data.value, "datapoints");
      if points.None? || !points.value.Array? {
        return;
      }
      ImportPoints(points.value.items);
    }

    method ImportPoints(points: seq<Json>)
      modifies this`byLabel, this`byRef, this`polled
      ensures State() == WithDefinitions(old(State()), AcceptedPoints(points).defs)
    {
      var i := 0;
      ghost var was := State();
      while i < |points|
        invariant i <= |points|
        invariant !AcceptedPoints(points[..i]).aborted
        invariant State() == WithDefinitions(was, AcceptedPoints(points[..i]).defs)
      {
        assert points[..i + 1][..i] == points[..i];
        PointsAborted(points, i);
        assert AcceptedPoints(points[..i]).defs + [] == AcceptedPoints(points[..i]).defs;
        var point := points[i];
        if !point.Object? {
          return;
        }
        var name := Find(point, "label");
        if name.None? || !name.value.String? {
          return;
        }
        var protocols := Find(point, "protocols");
        if protocols.None? || !protocols.value.Array? {
          return;
        }
        ghost var before := AcceptedPoints(points[..i]).defs;
        var aborted := ImportProtocols(name.value.s, protocols.value.items);
        WithMore(was, before, AcceptedPoint(point).defs);
        if aborted {
          return;
        }
        i := i + 1;
      }
      assert points[..i] == points;
    }

    /** The names of a dataset's entries. A point that is covered is no longer polled. */
    method ImportEntries(domain: string, items: seq<Json>) returns (entries: seq<string>)
      requires PolledKnown(State())
      modifies this`polled
      ensures entries == StringItems(items)
      ensures State() == old(State()).(polled := old(polled) - EntryRefs(domain, entries))
    {
      entries := [];
      var i := 0;
      ghost var was := polled;
      while i < |items|
        invariant i <= |items| && entries == StringItems(items[..i])
        invariant polled == was - EntryRefs(domain, entries)
      {
        assert items[..i + 1][..i] == items[..i];
        if items[i].String? {
          var name := items[i].s;
          var def := DefinitionByRef(Compose(domain, name));
          MoreRefs(domain, entries, name);
          entries := entries + [name];
          if def.Some? {
            polled := polled - {Compose(domain, name)};
          }
        }
        i := i + 1;
      }
      assert items[..i] == items;
    }

    method ImportDataset(v: Json)
      requires PolledKnown(State())
      modifies this`polled, this`datasets
      ensures PolledKnown(State())
      ensures State() == match ReadDataset(v)
                         case None => old(State())
                         case Some(d) => WithDatasets(old(State()), [d])
    {
      var ref := Find(v, "dataset_ref");
      if !v.Object? || ref.None? || !ref.value.String? {
        return;
      }
      var domain := DEFAULT_DOMAIN;
      var named := Find(v, "domain");
      if named.Some? && named.value.String? {
        domain := named.value.s;
      }
      var entries := [];
      var listed := Find(v, "entries");
      if listed.Some? && listed.value.Array? {
        entries := ImportEntries(domain, listed.value.items);
      }
      var dynamic := false;
      var flag := Find(v, "dynamic");
      if flag.Some? && flag.value.Bool? {
        dynamic := flag.value.b;
      }
      var d := Dataset(domain, ref.value.s, entries, dynamic);
      OneDataset(datasets, d);
      if d.ref !in datasets {
        datasets := datasets[d.ref := d];
      }
    }

    method ImportDatasets(items: seq<Json>)
      requires PolledKnown(State())
      modifies this`polled, this`datasets
      ensures PolledKnown(State()) && State() == WithDatasets(old(State()), ReadDatasets(items))
    {
      var i := 0;
      ghost var was := State();
      NoDatasets(was);
      while i < |items|
        invariant i <= |items| && PolledKnown(State())
        invariant State() == WithDatasets(was, ReadDatasets(items[..i]))
      {
        assert items[..i + 1][..i] == items[..i];
        ghost var before := ReadDatasets(items[..i]);
        assert before + [] == before;
        ImportDataset(items[i]);
        if ReadDataset(items[i]).Some? {
          MoreDatasets(was, before, ReadDataset(items[i]).value);
        }
        i := i + 1;
      }
      assert items[..i] == items;
    }

    /** Connections are stored one by one, so those before a refused one are kept. */
    method ImportConnections(items: seq<Json>, validIp: string -> bool) returns (thrown: Option<ConfigError>)
      modifies this`connections
      ensures var read := ReadConnections(items, validIp);
              thrown == read.error && connections == old(connections) + read.groups
    {
      hide ReadConnection;
      var i := 0;
      assert items[..0] == [];
      while i < |items|
        invariant i <= |items|
        invariant ReadConnections(items[..i], validIp).error.None?
        invariant connections == old(connections) + ReadConnections(items[..i], validIp).groups
      {
        assert items[..i + 1][..i] == items[..i];
        ReadingStops(items, validIp, i);
        var group := ImportConnection(items[i], validIp);
        if group.Failure? {
          return Some(group.error);
        }
        if group.value.Some? {
          connections := connections + [group.value.value];
        }
        i := i + 1;
      }
      assert items[..i] == items;
      thrown := None;
    }

    /** The layers of the protocol stack, in the order they are read. */
    method ImportProtocolConfig(document: Option<Json>, validIp: string -> bool) returns (thrown: Option<ConfigError>)
      requires PolledKnown(State())
      modifies this`polled, this`datasets, this`transferSets, this`connections, this`pollingInterval, this`backupTimeout
      ensures PolledKnown(State()) && State() == WithProtocol(old(State()), document, validIp)
      ensures thrown == ThrownBy(document, validIp)
    {
      hide ReadConnections, Find, WithApplication;
      thrown := None;
      if document.None? || !document.value.Object? {
        return;
      }
      var typesOk := TraverseAndCheckTypes(document.value);
      if !typesOk {
        return;
      }
      var stack := Find(document.value, "protocol_stack");
      if stack.None? || !stack.value.Object? {
        return;
      }
      var transport := Find(stack.value, "transport_layer");
      if transport.None? {
        return;
      }
      var items := Find(transport.value, "connections");
      if items.None? || !items.value.Array? {
        return;
      }
      thrown := ImportConnections(items.value.items, validIp);
      if thrown.Some? {
        return;
      }
      var timeout := Find(transport.value, "backupTimeout");
      if timeout.Some? {
        backupTimeout := NumberOf(timeout, backupTimeout);
      }
      var application := Find(stack.value, "application_layer");
      if application.None? {
        return;
      }
      ImportApplication(application.value);
    }

    method ImportTransferSets(items: seq<Json>)
      modifies this`transferSets
      ensures transferSets == Insert(old(transferSets), ReadTransferSets(items), NameOf)
    {
      hide ReadTransferSet;
      var i := 0;
      while i < |items|
        invariant i <= |items|
        invariant transferSets == Insert(old(transferSets), ReadTransferSets(items[..i]), NameOf)
      {
        assert items[..i + 1][..i] == items[..i];
        ghost var before := ReadTransferSets(items[..i]);
        assert before + [] == before;
        var t := ImportTransferSet(items[i]);
        if t.Some? {
          InsertMore(old(transferSets), before, t.value, NameOf);
          if t.value.name !in transferSets {
            transferSets := transferSets[t.value.name := t.value];
          }
        }
        i := i + 1;
      }
      assert items[..i] == items;
    }

    method ImportApplication(layer: Json)
      requires PolledKnown(State())
      modifies this`polled, this`datasets, this`transferSets, this`pollingInterval
      ensures PolledKnown(State()) && State() == WithApplication(old(State()), layer)
    {
      var interval := Find(layer, "polling_interval");
      if interval.Some? {
        if NumberOf(interval, pollingInterval) < 0 {
          return;
        }
        pollingInterval := NumberOf(interval, pollingInterval);
      }
      NoDatasets(State());
      var items := Find(layer, "datasets");
      if items.Some? && items.value.Array? {
        ImportDatasets(items.value.items);
      }
      var sets := Find(layer, "dataset_transfer_sets");
      if sets.Some? && sets.value.Array? {
        ImportTransferSets(sets.value.items);
      }
    }

    /** The files of a list of certificates. */
    method CertificatesIn(items: seq<Json>) returns (files: seq<string>)
      ensures files == CertificateFiles(items)
    {
      files := [];
      var i := 0;
      while i < |items|
        invariant i <= |items| && files == CertificateFiles(items[..i])
      {
        assert items[..i + 1][..i] == items[..i];
        var file := Find(items[i], "cert_file");
        if file.Some? && file.value.String? {
          files := files + [file.value.s];
        }
        i := i + 1;
      }
      assert items[..i] == items;
    }

    method ImportTlsConfig(document: Option<Json>)
      modifies this`privateKey, this`ownCertificate, this`caCertificates, this`remoteCertificates
      ensures State() == WithTls(old(State()), document)
    {
      hide CertificateFiles, FindIn;
      if document.None? || !document.value.Object? {
        return;
      }
      var tls := Find(document.value, "tls_conf");
      if tls.None? || !tls.value.Object? {
        return;
      }
      privateKey := TextOr(Find(tls.value, "private_key"), privateKey);
      ownCertificate := TextOr(Find(tls.value, "own_cert"), ownCertificate);
      var list := Find(tls.value, "ca_certs");
      if list.Some? && list.value.Array? {
        var files := CertificatesIn(list.value.items);
        caCertificates := caCertificates + files;
      }
      list := Find(tls.value, "remote_certs");
      if list.Some? && list.value.Array? {
        var files := CertificatesIn(list.value.items);
        remoteCertificates := remoteCertificates + files;
      }
    }
  }

  lemma StoreOne(m: map<string, Definition>, ix: Index, def: Definition)
    ensures Store(m, ix, [def]) == if Covers(ix, def) then m[KeyOf(ix, def) := def] else m
  {
  }

  lemma MoreRefs(domain: string, entries: seq<string>, name: string)
    ensures EntryRefs(domain, entries + [name]) == EntryRefs(domain, entries) + {Compose(domain, name)}
  {
  }

  lemma OneDataset(m: map<string, Dataset>, d: Dataset)
    ensures Insert(m, [d], RefOf) == if d.ref in m then m else m[d.ref := d]
    ensures CoveredRefs([d]) == EntryRefs(d.domain, d.entries)
  {
  }

  lemma NothingAccepted(validIp: string -> bool)
    ensures AcceptedDatasets(None, validIp) == [] && CoveredRefs([]) == {}
  {
  }

  lemma NoDatasets(c: Config)
    ensures WithDatasets(c, []) == c
  {
  }

  lemma MoreDatasets(c: Config, datasets: seq<Dataset>, d: Dataset)
    ensures WithDatasets(WithDatasets(c, datasets), [d]) == WithDatasets(c, datasets + [d])
  {
    OneDataset(Insert(c.datasets, datasets, RefOf), d);
    InsertMore(c.datasets, datasets, d, RefOf);
    assert CoveredRefs(datasets + [d]) == CoveredRefs(datasets) + CoveredRefs([d]) by {
      assert forall x :: x in datasets + [d] <==> x in datasets || x in [d];
    }
    assert c.polled - CoveredRefs(datasets) - CoveredRefs([d]) == c.polled - CoveredRefs(datasets + [d]);
  }

  lemma {:induction false} PointsAborted(points: seq<Json>, i: nat)
    requires i < |points| && !AcceptedPoints(points[..i]).aborted
    ensures AcceptedPoint(points[i]).aborted ==>
              AcceptedPoints(points) == Accepted(AcceptedPoints(points[..i]).defs + AcceptedPoint(points[i]).defs, true)
    decreases |points|
  {
    var n := |points| - 1;
    if i == n {
    } else {
      assert points[..n][..i] == points[..i];
      PointsAborted(points[..n], i);
    }
  }

  /** An entry that is refused decides the whole list. */
  lemma {:induction false} ReadingStops(items: seq<Json>, validIp: string -> bool, i: nat)
    requires i < |items| && ReadConnections(items[..i], validIp).error.None?
    ensures var entry := ReadConnection(items[i], validIp);
            entry.Failure? ==>
              ReadConnections(items, validIp) == Stored(ReadConnections(items[..i], validIp).groups, Some(entry.error))
    decreases |items|
  {
    hide ReadConnection;
    var n := |items| - 1;
    if i == n {
    } else {
      assert items[..n][..i] == items[..i];
      ReadingStops(items[..n], validIp, i);
    }
  }

  lemma WithMore(c: Config, a: seq<Definition>, b: seq<Definition>)
    ensures WithDefinitions(WithDefinitions(c, a), b) == WithDefinitions(c, a + b)
  {
    StoreAppend(c.byLabel, ByLabel, a, b);
    StoreAppend(c.byRef, ByRef, a, b);
    StoreAppend(c.polled, Polled, a, b);
  }

  /** An entry that aborts decides the whole list. */
  lemma {:induction false} AcceptedAborts(asset: string, protocols: seq<Json>, i: nat)
    requires i < |protocols| && !AcceptedProtocols(asset, protocols[..i]).aborted
    ensures Judge(asset, protocols[i]).Abort? ==>
              AcceptedProtocols(asset, protocols) == AcceptedProtocols(asset, protocols[..i]).(aborted := true)
    decreases |protocols|
  {
    var n := |protocols| - 1;
    if i == n {
    } else {
      assert protocols[..n][..i] == protocols[..i];
      AcceptedAborts(asset, protocols[..n], i);
    }
  }
}
