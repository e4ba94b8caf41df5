/** Protocol configurations as they are written, and that the import reads back what was written. */
module ProtocolDocument {
  import opened Wrappers
  import opened Json
  import opened TypeCheck
  import opened Exchange
  import opened ConnectionList
  import opened TransferSets
  import opened ClientConfig

  // ---- Connections ----

  function PartsOfConnection(g: RedGroup): seq<Part> {
    [Part("ip_addr", Some(String(g.ip))),
     Part("port", match g.port case None => None case Some(n) => Some(Number(n))),
     Part("osi", match g.osi case None => None case Some(osi) => Some(SectionFor(osi))),
     Part("tls", Some(Bool(g.tls)))]
  }

  function ConnectionFor(g: RedGroup): Json {
    Object(MembersOf(PartsOfConnection(g)))
  }

  /** Addresses that are texts of the C library, and otherwise sound connections. */
  predicate IsWritable(g: RedGroup, validIp: string -> bool) {
    IsSoundGroup(g, validIp) && forall i :: 0 <= i < |g.ip| ==> g.ip[i] != '\0'
  }

  lemma ConnectionMembers(g: RedGroup)
    ensures var v := ConnectionFor(g);
            && Find(v, "ip_addr") == Some(String(g.ip))
            && Find(v, "port") == (match g.port case None => None case Some(n) => Some(Number(n)))
            && Find(v, "osi") == (match g.osi case None => None case Some(osi) => Some(SectionFor(osi)))
            && Find(v, "tls") == Some(Bool(g.tls))
  {
    hide MembersOf, FindIn, SectionFor;
    var parts := PartsOfConnection(g);
    forall k | 0 <= k < 4 ensures FindIn(MembersOf(parts), parts[k].name) == parts[k].value {
      FindsPart(parts, k);
    }
    assert parts[0].name == "ip_addr" && parts[1].name == "port" && parts[2].name == "osi" && parts[3].name == "tls";
  }

  /** A written connection is stored with its own address, port, parameters and flag. */
  lemma ConnectionRoundTrip(g: RedGroup, validIp: string -> bool)
    requires IsWritable(g, validIp)
    ensures ReadConnection(ConnectionFor(g), validIp) == Success(Some(g))
  {
    hide Find, ReadOsi, SectionFor, ConnectionFor, IsSoundOsi;
    ConnectionMembers(g);
    TextOfPlain(g.ip);
    if g.osi.Some? {
      OsiRoundTrip(g.osi.value);
    }
  }

  function ConnectionsFor(groups: seq<RedGroup>): seq<Json> {
    seq(|groups|, i requires 0 <= i < |groups| => ConnectionFor(groups[i]))
  }

  lemma {:induction false} ConnectionsRoundTrip(groups: seq<RedGroup>, validIp: string -> bool)
    requires forall i :: 0 <= i < |groups| ==> IsWritable(groups[i], validIp)
    ensures ReadConnections(ConnectionsFor(groups), validIp) == Stored(groups, None)
  {
    hide ReadConnection, ConnectionFor, IsWritable;
    if groups == [] {
    } else {
      var n := |groups| - 1;
      ConnectionsRoundTrip(groups[..n], validIp);
      ConnectionRoundTrip(groups[n], validIp);
      assert ConnectionsFor(groups)[..n] == ConnectionsFor(groups[..n]);
      assert groups[..n] + [groups[n]] == groups;
    }
  }

  // ---- Datasets ----

  function StringsFor(entries: seq<string>): seq<Json> {
    seq(|entries|, i requires 0 <= i < |entries| => String(entries[i]))
  }

  /** The domain is left out if it is the one a dataset has anyway. */
  function PartsOfDataset(d: Dataset): seq<Part> {
    [Part("dataset_ref", Some(String(d.ref))),
     Part("domain", if d.domain == "vcc" then None else Some(String(d.domain))),
     Part("entries", Some(Array(StringsFor(d.entries)))),
     Part("dynamic", Some(Bool(d.dynamic)))]
  }

  function DatasetFor(d: Dataset): Json {
    Object(MembersOf(PartsOfDataset(d)))
  }

  lemma {:induction false} StringsRoundTrip(entries: seq<string>)
    ensures StringItems(StringsFor(entries)) == entries
  {
    if entries == [] {
    } else {
      var n := |entries| - 1;
      StringsRoundTrip(entries[..n]);
      assert StringsFor(entries)[..n] == StringsFor(entries[..n]);
    }
  }

  /** A written dataset is read with its own domain, name, entries and flag. */
  lemma DatasetRoundTrip(d: Dataset)
    ensures ReadDataset(DatasetFor(d)) == Some(d)
  {
    hide MembersOf, FindIn, StringItems, StringsFor;
    var parts := PartsOfDataset(d);
    forall k | 0 <= k < 4 ensures FindIn(MembersOf(parts), parts[k].name) == parts[k].value {
      FindsPart(parts, k);
    }
    assert parts[0].name == "dataset_ref" && parts[1].name == "domain";
    assert parts[2].name == "entries" && parts[3].name == "dynamic";
    StringsRoundTrip(d.entries);
  }

  /** With nothing but its name it has the default domain, no entries, and is static. */
  lemma BareDataset(ref: string)
    ensures ReadDataset(Object([Member("dataset_ref", String(ref))])) == Some(Dataset("vcc", ref, [], false))
  {
    hide FindIn;
    OnlyMember(Member("dataset_ref", String(ref)));
  }

  function DatasetsFor(datasets: seq<Dataset>): seq<Json> {
    seq(|datasets|, i requires 0 <= i < |datasets| => DatasetFor(datasets[i]))
  }

  lemma {:induction false} DatasetsRoundTrip(datasets: seq<Dataset>)
    ensures ReadDatasets(DatasetsFor(datasets)) == datasets
  {
    hide ReadDataset, DatasetFor;
    if datasets == [] {
    } else {
      var n := |datasets| - 1;
      DatasetsRoundTrip(datasets[..n]);
      DatasetRoundTrip(datasets[n]);
      assert DatasetsFor(datasets)[..n] == DatasetsFor(datasets[..n]);
      assert datasets[..n] + [datasets[n]] == datasets;
    }
  }

  // ---- Transfer sets ----

  function Named(conditions: set<string>, name: string): seq<Json> {
    if name in conditions then [String(name)] else []
  }

  function ConditionsFor(conditions: set<string>): seq<Json> {
    Named(conditions, "interval") + Named(conditions, "integrity") + Named(conditions, "change")
    + Named(conditions, "operator_request") + Named(conditions, "external_event")
  }

  predicate AreKnown(conditions: set<string>) {
    conditions <= {"interval", "integrity", "change", "operator_request", "external_event"}
  }

  function PartsOfTransferSet(t: TransferSet): seq<Part> {
    [Part("domain", Some(String(t.domain))), Part("name", Some(String(t.name))),
     Part("dataset_ref", Some(String(t.dataset))), Part("dsConditions", Some(Array(ConditionsFor(t.conditions)))),
     Part("interval", Some(Number(t.interval))), Part("tle", Some(Number(t.tle))),
     Part("integrityCheck", Some(Number(t.integrityCheck))), Part("critical", Some(Bool(t.critical))),
     Part("rbe", Some(Bool(t.rbe))), Part("bufTm", Some(Number(t.bufferTime))),
     Part("startTime", Some(Number(t.startTime))), Part("allChangesReported", Some(Bool(t.allChanges)))]
  }

  function TransferSetFor(t: TransferSet): Json {
    Object(MembersOf(PartsOfTransferSet(t)))
  }

  lemma ConditionsRoundTrip(conditions: set<string>)
    requires AreKnown(conditions)
    ensures ConditionsIn(ConditionsFor(conditions)) == conditions
  {
    forall c | c in conditions ensures String(c) in ConditionsFor(conditions) {
      assert String(c) in Named(conditions, c);
    }
  }

  /** Conditions that are not known, and items that are no texts, are passed over. */
  lemma OthersArePassedOver(items: seq<Json>, other: Json)
    requires other.String? ==> !AreKnown({other.s})
    ensures ConditionsIn(items + [other]) == ConditionsIn(items)
  {
  }

  lemma TransferSetNamesDiffer(t: TransferSet)
    ensures DifferentNames(PartsOfTransferSet(t))
  {
  }

  lemma TransferSetMembers(t: TransferSet)
    ensures var v := TransferSetFor(t);
            && Find(v, "domain") == Some(String(t.domain)) && Find(v, "name") == Some(String(t.name))
            && Find(v, "dataset_ref") == Some(String(t.dataset))
            && Find(v, "dsConditions") == Some(Array(ConditionsFor(t.conditions)))
            && Find(v, "interval") == Some(Number(t.interval)) && Find(v, "tle") == Some(Number(t.tle))
            && Find(v, "integrityCheck") == Some(Number(t.integrityCheck))
            && Find(v, "critical") == Some(Bool(t.critical)) && Find(v, "rbe") == Some(Bool(t.rbe))
            && Find(v, "bufTm") == Some(Number(t.bufferTime)) && Find(v, "startTime") == Some(Number(t.startTime))
            && Find(v, "allChangesReported") == Some(Bool(t.allChanges))
  {
    hide MembersOf, FindIn, ConditionsFor, DifferentNames;
    var parts := PartsOfTransferSet(t);
    TransferSetNamesDiffer(t);
    forall k | 0 <= k < 12 ensures FindIn(MembersOf(parts), parts[k].name) == parts[k].value {
      FindsPart(parts, k);
    }
    assert parts[0].name == "domain" && parts[1].name == "name" && parts[2].name == "dataset_ref";
    assert parts[3].name == "dsConditions" && parts[4].name == "interval" && parts[5].name == "tle";
    assert parts[6].name == "integrityCheck" && parts[7].name == "critical" && parts[8].name == "rbe";
    assert parts[9].name == "bufTm" && parts[10].name == "startTime" && parts[11].name == "allChangesReported";
  }

  /** A written transfer set is read with every field from its own member. */
  lemma TransferSetRoundTrip(t: TransferSet)
    requires AreKnown(t.conditions)
    ensures ReadTransferSet(TransferSetFor(t)) == Some(t)
  {
    hide Find, TransferSetFor, ConditionsFor, ConditionsIn, AreKnown;
    TransferSetMembers(t);
    ConditionsRoundTrip(t.conditions);
  }

  /** With nothing but its name a transfer set has no conditions, no numbers and no flags. */
  lemma BareTransferSet(name: string)
    ensures ReadTransferSet(Object([Member("name", String(name))]))
            == Some(TransferSet(name, "", "", {}, 0, 0, 0, 0, 0, false, false, false))
  {
    hide FindIn;
    OnlyMember(Member("name", String(name)));
  }

  function TransferSetsFor(sets: seq<TransferSet>): seq<Json> {
    seq(|sets|, i requires 0 <= i < |sets| => TransferSetFor(sets[i]))
  }

  lemma {:induction false} TransferSetsRoundTrip(sets: seq<TransferSet>)
    requires forall i :: 0 <= i < |sets| ==> AreKnown(sets[i].conditions)
    ensures ReadTransferSets(TransferSetsFor(sets)) == sets
  {
    hide ReadTransferSet, TransferSetFor, AreKnown;
    if sets == [] {
    } else {
      var n := |sets| - 1;
      TransferSetsRoundTrip(sets[..n]);
      TransferSetRoundTrip(sets[n]);
      assert TransferSetsFor(sets)[..n] == TransferSetsFor(sets[..n]);
      assert sets[..n] + [sets[n]] == sets;
    }
  }

  // ---- The whole document ----

  /** What a protocol configuration says. */
  datatype Protocol = Protocol(
    connections: seq<RedGroup>, backup: Option<int>, interval: Option<int>,
    datasets: seq<Dataset>, transferSets: seq<TransferSet>)

  predicate IsProtocol(p: Protocol, validIp: string -> bool) {
    && (forall i :: 0 <= i < |p.connections| ==> IsWritable(p.connections[i], validIp))
    && (forall i :: 0 <= i < |p.transferSets| ==> AreKnown(p.transferSets[i].conditions))
  }

  function NumberFor(n: Option<int>): Option<Json> {
    match n
    case None => None
    case Some(i) => Some(Number(i))
  }

  function TransportFor(p: Protocol): Json {
    Object(MembersOf([Part("connections", Some(Array(ConnectionsFor(p.connections)))),
                      Part("backupTimeout", NumberFor(p.backup))]))
  }

  function ApplicationFor(p: Protocol): Json {
    Object(MembersOf([Part("polling_interval", NumberFor(p.interval)),
                      Part("datasets", Some(Array(DatasetsFor(p.datasets)))),
                      Part("dataset_transfer_sets", Some(Array(TransferSetsFor(p.transferSets))))]))
  }

  function StackFor(p: Protocol): Json {
    Object([Member("transport_layer", TransportFor(p)), Member("application_layer", ApplicationFor(p))])
  }

  function ProtocolFor(p: Protocol): Json {
    Object([Member("protocol_stack", StackFor(p))])
  }

  lemma StackIsRead(p: Protocol)
    ensures StackOf(Some(ProtocolFor(p))) == Some(StackFor(p))
    ensures Find(StackFor(p), "transport_layer") == Some(TransportFor(p))
    ensures Find(StackFor(p), "application_layer") == Some(ApplicationFor(p))
  {
    hide AllCorrect, TransportFor, ApplicationFor;
    RejectsOnlyTheFirstLevel(ProtocolFor(p).members);
    FindsFirst(StackFor(p).members, 0);
    FindsFirst(StackFor(p).members, 1);
  }

  lemma TransportIsRead(p: Protocol)
    ensures Find(TransportFor(p), "connections") == Some(Array(ConnectionsFor(p.connections)))
    ensures Find(TransportFor(p), "backupTimeout") == NumberFor(p.backup)
  {
    hide MembersOf, FindIn, ConnectionsFor;
    var parts := [Part("connections", Some(Array(ConnectionsFor(p.connections)))),
                  Part("backupTimeout", NumberFor(p.backup))];
    FindsPart(parts, 0);
    FindsPart(parts, 1);
    assert parts[0].name == "connections" && parts[1].name == "backupTimeout";
  }

  lemma ApplicationIsRead(p: Protocol)
    ensures Find(ApplicationFor(p), "polling_interval") == NumberFor(p.interval)
    ensures Find(ApplicationFor(p), "datasets") == Some(Array(DatasetsFor(p.datasets)))
    ensures Find(ApplicationFor(p), "dataset_transfer_sets") == Some(Array(TransferSetsFor(p.transferSets)))
  {
    hide MembersOf, FindIn, DatasetsFor, TransferSetsFor;
    var parts := [Part("polling_interval", NumberFor(p.interval)),
                  Part("datasets", Some(Array(DatasetsFor(p.datasets)))),
                  Part("dataset_transfer_sets", Some(Array(TransferSetsFor(p.transferSets))))];
    FindsPart(parts, 0);
    FindsPart(parts, 1);
    FindsPart(parts, 2);
    assert parts[0].name == "polling_interval" && parts[1].name == "datasets";
    assert parts[2].name == "dataset_transfer_sets";
  }

  lemma LayersAreRead(p: Protocol, validIp: string -> bool)
    requires IsProtocol(p, validIp)
    ensures ConnectionsOf(Some(ProtocolFor(p))) == Some(ConnectionsFor(p.connections))
    ensures ReadConnections(ConnectionsFor(p.connections), validIp) == Stored(p.connections, None)
    ensures DatasetsOf(ApplicationFor(p)) == p.datasets && TransferSetsOf(ApplicationFor(p)) == p.transferSets
  {
    hide StackOf, Find, ReadConnections, ReadDatasets, ReadTransferSets, ConnectionsFor, DatasetsFor, TransferSetsFor,
         StackFor, ProtocolFor, ApplicationFor, TransportFor;
    StackIsRead(p);
    TransportIsRead(p);
    ApplicationIsRead(p);
    ConnectionsRoundTrip(p.connections, validIp);
    DatasetsRoundTrip(p.datasets);
    TransferSetsRoundTrip(p.transferSets);
  }

  /** A written protocol configuration is accepted as it is: its connections, its two numbers or their defaults, and its
      datasets and transfer sets in order, duplicates included. */
  lemma ProtocolRoundTrip(exchange: Option<Json>, p: Protocol, validIp: string -> bool)
    requires IsProtocol(p, validIp) && (p.interval.Some? ==> p.interval.value >= 0)
    ensures var document := Some(ProtocolFor(p));
            var c := Configured(exchange, document, validIp);
            && ThrownBy(document, validIp).None?
            && c.connections == p.connections
            && c.backupTimeout == (if p.backup.Some? then p.backup.value else 5000)
            && c.pollingInterval == (if p.interval.Some? then p.interval.value else 0)
            && AcceptedDatasets(document, validIp) == p.datasets
            && AcceptedTransferSets(document, validIp) == p.transferSets
  {
    hide StackOf, ConnectionsOf, Find, ReadConnections, AcceptedDefinitions, Store, StackFor, ProtocolFor,
         ApplicationFor, TransportFor, ConnectionsFor, DatasetsOf, TransferSetsOf, CoveredRefs;
    StackIsRead(p);
    TransportIsRead(p);
    ApplicationIsRead(p);
    LayersAreRead(p, validIp);
  }

  /** A negative polling interval keeps the interval and both lists out, but not what the transport layer says. */
  lemma NegativeIntervalEndsTheImport(exchange: Option<Json>, p: Protocol, validIp: string -> bool)
    requires IsProtocol(p, validIp) && p.interval.Some? && p.interval.value < 0
    ensures var c := Configured(exchange, Some(ProtocolFor(p)), validIp);
            && ThrownBy(Some(ProtocolFor(p)), validIp).None?
            && c.connections == p.connections
            && c.backupTimeout == (if p.backup.Some? then p.backup.value else 5000)
            && c.pollingInterval == 0 && c.datasets == map[] && c.transferSets == map[]
  {
    hide StackOf, ConnectionsOf, Find, ReadConnections, AcceptedDefinitions, Store, StackFor, ProtocolFor,
         ApplicationFor, TransportFor, ConnectionsFor, DatasetsOf, TransferSetsOf, CoveredRefs;
    StackIsRead(p);
    TransportIsRead(p);
    ApplicationIsRead(p);
    LayersAreRead(p, validIp);
  }

  // ---- What a dataset takes out of polling ----

  /** The points that a written configuration leaves in polling are the imported ones whose reference is not the domain
      of a dataset, a colon and one of its entries. */
  lemma PolledExactly(exchange: Option<Json>, p: Protocol, validIp: string -> bool, ref: string)
    requires IsProtocol(p, validIp) && (p.interval.Some? ==> p.interval.value >= 0)
    ensures ref in Configured(exchange, Some(ProtocolFor(p)), validIp).polled <==>
            && ref in Store(map[], Polled, AcceptedDefinitions(exchange))
            && !exists d, e :: d in p.datasets && e in d.entries && ref == d.domain + ":" + e
  {
    hide Configured, AcceptedDefinitions, AcceptedDatasets, Store, ProtocolFor, IsProtocol, Insert;
    ProtocolRoundTrip(exchange, p, validIp);
    ConfiguredIs(exchange, Some(ProtocolFor(p)), validIp);
    assert ref in CoveredRefs(p.datasets) <==>
           exists d, e :: d in p.datasets && e in d.entries && ref == d.domain + ":" + e;
  }

  /** In any document: the domain of an accepted dataset, a colon and a text among its entries is never polled. */
  lemma EntryIsNotPolled(exchange: Option<Json>, protocol: Option<Json>, validIp: string -> bool, v: Json, e: string)
    requires LayerRead(protocol, validIp).Some?
    requires var items := ItemsOf(Find(LayerRead(protocol, validIp).value, "datasets"));
             items.Some? && v in items.value
    requires StringOf(Find(v, "dataset_ref")).Some?
    requires ItemsOf(Find(v, "entries")).Some? && String(e) in ItemsOf(Find(v, "entries")).value
    ensures var domain := match Find(v, "domain") case Some(String(s)) => s case _ => "vcc";
            domain + ":" + e !in Configured(exchange, protocol, validIp).polled
  {
    hide Configured, AcceptedDefinitions, LayerRead, Store, Find, Insert;
    ConfiguredIs(exchange, protocol, validIp);
    var d := ReadDataset(v).value;
    StringIsItem(ItemsOf(Find(v, "entries")).value, e);
    DatasetIsAccepted(ItemsOf(Find(LayerRead(protocol, validIp).value, "datasets")).value, v);
    assert d in AcceptedDatasets(protocol, validIp) && e in d.entries;
    assert Compose(d.domain, e) in CoveredRefs(AcceptedDatasets(protocol, validIp));
  }

  lemma {:induction false} StringIsItem(items: seq<Json>, e: string)
    requires String(e) in items
    ensures e in StringItems(items)
  {
    var n := |items| - 1;
    if items[n] == String(e) {
    } else {
      assert items == items[..n] + [items[n]];
      StringIsItem(items[..n], e);
    }
  }

  lemma {:induction false} DatasetIsAccepted(items: seq<Json>, v: Json)
    requires v in items && ReadDataset(v).Some?
    ensures ReadDataset(v).value in ReadDatasets(items)
  {
    hide ReadDataset;
    var n := |items| - 1;
    if items[n] == v {
    } else {
      assert items == items[..n] + [items[n]];
      DatasetIsAccepted(items[..n], v);
    }
  }

  // ---- The TLS configuration ----

  function CertificatesFor(files: seq<string>): seq<Json> {
    seq(|files|, i requires 0 <= i < |files| => Object([Member("cert_file", String(files[i]))]))
  }

  function PartsOfTls(t: TlsFiles): seq<Part> {
    [Part("private_key", Some(String(t.privateKey))), Part("own_cert", Some(String(t.ownCert))),
     Part("ca_certs", Some(Array(CertificatesFor(t.caCerts)))),
     Part("remote_certs", Some(Array(CertificatesFor(t.remoteCerts))))]
  }

  function TlsFor(t: TlsFiles): Json {
    Object([Member("tls_conf", Object(MembersOf(PartsOfTls(t))))])
  }

  lemma {:induction false} CertificatesRoundTrip(files: seq<string>)
    ensures CertificateFiles(CertificatesFor(files)) == files
  {
    if files == [] {
    } else {
      var n := |files| - 1;
      CertificatesRoundTrip(files[..n]);
      assert CertificatesFor(files)[..n] == CertificatesFor(files[..n]);
      FindsFirst(CertificatesFor(files)[n].members, 0);
    }
  }

  /** The files a TLS configuration names are those the client has; nothing else changes. */
  lemma TlsRoundTrip(c: Config, t: TlsFiles)
    requires c.tls == TlsFiles("", "", [], [])
    ensures WithTls(c, Some(TlsFor(t))) == c.(tls := t)
  {
    hide MembersOf, CertificateFiles, CertificatesFor;
    var parts := PartsOfTls(t);
    var v := Object(MembersOf(parts));
    FindsFirst(TlsFor(t).members, 0);
    TlsMembers(t);
    CertificatesRoundTrip(t.caCerts);
    CertificatesRoundTrip(t.remoteCerts);
    hide FindIn;
  }

  lemma TlsMembers(t: TlsFiles)
    ensures var v := Object(MembersOf(PartsOfTls(t)));
            && Find(v, "private_key") == Some(String(t.privateKey)) && Find(v, "own_cert") == Some(String(t.ownCert))
            && Find(v, "ca_certs") == Some(Array(CertificatesFor(t.caCerts)))
            && Find(v, "remote_certs") == Some(Array(CertificatesFor(t.remoteCerts)))
  {
    hide MembersOf, FindIn, CertificatesFor;
    var parts := PartsOfTls(t);
    forall k | 0 <= k < 4 ensures FindIn(MembersOf(parts), parts[k].name) == parts[k].value {
      FindsPart(parts, k);
    }
    assert parts[0].name == "private_key" && parts[1].name == "own_cert";
    assert parts[2].name == "ca_certs" && parts[3].name == "remote_certs";
  }
}
