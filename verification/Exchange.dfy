/** The exchanged data points and the indices over them. */
module Exchange {
  import opened Wrappers
  import opened Json

  /** The data point types in the order of their enumeration; those below COMMAND are monitored. */
  const TYPE_NAMES: seq<string> := [
    "Real", "RealQ", "RealQTime", "RealQTimeExt",
    "State", "StateQ", "StateQTime", "StateQTimeExt",
    "Discrete", "DiscreteQ", "DiscreteQTime", "DiscreteQTimeExt",
    "StateSup", "StateSupQ", "StateSupQTime", "StateSupQTimeExt",
    "Command", "SetPointReal", "SetPointDiscrete"]

  const COMMAND: int := 16
  const SETPOINT_REAL: int := 17
  const SETPOINT_DISCRETE: int := 18
  const UNKNOWN_TYPE: int := -1

  function TypeFromName(name: string): int {
    TypeFrom(name, 0)
  }

  function TypeFrom(name: string, i: nat): int
    requires i <= |TYPE_NAMES|
    decreases |TYPE_NAMES| - i
  {
    if i == |TYPE_NAMES| then UNKNOWN_TYPE
    else if TYPE_NAMES[i] == name then i
    else TypeFrom(name, i + 1)
  }

  lemma {:induction false} TypeFromIsIndex(name: string, i: nat)
    requires i <= |TYPE_NAMES|
    ensures TypeFrom(name, i) == UNKNOWN_TYPE <==> name !in TYPE_NAMES[i..]
    ensures TypeFrom(name, i) != UNKNOWN_TYPE
            ==> i <= TypeFrom(name, i) < |TYPE_NAMES| && TYPE_NAMES[TypeFrom(name, i)] == name
    decreases |TYPE_NAMES| - i
  {
    hide TYPE_NAMES;
    if i == |TYPE_NAMES| {
    } else {
      assert TYPE_NAMES[i..] == [TYPE_NAMES[i]] + TYPE_NAMES[i + 1..];
      TypeFromIsIndex(name, i + 1);
    }
  }

  /** The known type names are exactly those listed, and each is known by its position. */
  lemma TypeNamesAreKnown(name: string)
    ensures TypeFromName(name) != UNKNOWN_TYPE <==> name in TYPE_NAMES
    ensures name in TYPE_NAMES ==> 0 <= TypeFromName(name) < |TYPE_NAMES| && TYPE_NAMES[TypeFromName(name)] == name
  {
    assert TYPE_NAMES[0..] == TYPE_NAMES;
    TypeFromIsIndex(name, 0);
  }

  /** No name is listed twice. */
  lemma TypeNamesDiffer(i: nat, j: nat)
    requires i < j < |TYPE_NAMES|
    ensures TYPE_NAMES[i] != TYPE_NAMES[j]
  {
  }

  lemma KindOfName(kind: nat)
    requires kind < |TYPE_NAMES|
    ensures TypeFromName(TYPE_NAMES[kind]) == kind
  {
    hide TypeFromName;
    TypeNamesAreKnown(TYPE_NAMES[kind]);
    var k := TypeFromName(TYPE_NAMES[kind]);
    if k < kind {
      TypeNamesDiffer(k, kind);
    } else if kind < k {
      TypeNamesDiffer(kind, k);
    }
  }

  /** A data point. Its label names the asset of every reading of it. */
  datatype Definition = Definition(ref: string, asset: string, kind: int)

  // ---- References ----

  function Compose(domain: string, name: string): string {
    domain + ":" + name
  }

  function FirstColon(ref: string): (n: nat)
    ensures n <= |ref| && ':' !in ref[..n] && (n < |ref| ==> ref[n] == ':')
  {
    if ref == [] || ref[0] == ':' then 0
    else
      var n := 1 + FirstColon(ref[1..]);
      assert ref[..n] == [ref[0]] + ref[1..][..n - 1];
      n
  }

  /** The domain and the name of a reference. Without a colon both are the whole reference. */
  function Split(ref: string): (string, string) {
    var n := FirstColon(ref);
    if n == |ref| then (ref, ref) else (ref[..n], ref[n + 1..])
  }

  lemma FirstColonIs(ref: string, n: nat)
    requires n < |ref| && ref[n] == ':' && ':' !in ref[..n]
    ensures FirstColon(ref) == n
  {
  }

  /** A reference with a colon splits into a domain free of colons and a name that rejoin to it. */
  lemma SplitRejoins(ref: string)
    requires ':' in ref
    ensures var (domain, name) := Split(ref);
            ':' !in domain && Compose(domain, name) == ref
  {
  }

  /** Composing and splitting gives back the domain and the name exactly when the domain has no colon. */
  lemma ComposeSplits(domain: string, name: string)
    ensures Split(Compose(domain, name)) == (domain, name) <==> ':' !in domain
  {
    var ref := Compose(domain, name);
    if ':' !in domain {
      assert ref[..|domain|] == domain;
      FirstColonIs(ref, |domain|);
      assert ref[|domain| + 1..] == name;
    } else {
      SplitRejoins(ref);
    }
  }

  /** Different points never share a reference as long as no domain has a colon. */
  lemma ComposeIsInjective(d1: string, n1: string, d2: string, n2: string)
    requires ':' !in d1 && ':' !in d2 && Compose(d1, n1) == Compose(d2, n2)
    ensures d1 == d2 && n1 == n2
  {
    ComposeSplits(d1, n1);
    ComposeSplits(d2, n2);
  }

  // ---- Which entries of an exchange configuration count ----

  datatype Verdict = Abort | Skip | Accept(def: Definition)

  /** What becomes of one protocol entry of a data point. */
  function Judge(asset: string, protocol: Json): Verdict {
    if StringOf(Find(protocol, "name")).None? then Abort
    else
      var ref, kind := StringOf(Find(protocol, "ref")), StringOf(Find(protocol, "typeid"));
      if ref.None? || kind.None? then Abort
      else if TypeFromName(kind.value) == UNKNOWN_TYPE || ':' !in ref.value then Skip
      else Accept(Definition(ref.value, asset, TypeFromName(kind.value)))
  }

  /** The definitions accepted before the first entry that aborts the import, and whether one does. */
  datatype Accepted = Accepted(defs: seq<Definition>, aborted: bool)

  function AcceptedProtocols(asset: string, protocols: seq<Json>): Accepted {
    if protocols == [] then Accepted([], false)
    else
      var before := AcceptedProtocols(asset, protocols[..|protocols| - 1]);
      if before.aborted then before
      else
        match Judge(asset, protocols[|protocols| - 1])
        case Abort => before.(aborted := true)
        case Skip => before
        case Accept(def) => before.(defs := before.defs + [def])
  }

  function AcceptedPoint(point: Json): Accepted {
    var asset, protocols := StringOf(Find(point, "label")), ItemsOf(Find(point, "protocols"));
    if asset.None? || protocols.None? then Accepted([], true)
    else AcceptedProtocols(asset.value, protocols.value)
  }

  function AcceptedPoints(points: seq<Json>): Accepted {
    if points == [] then Accepted([], false)
    else
      var before := AcceptedPoints(points[..|points| - 1]);
      if before.aborted then before
      else
        var last := AcceptedPoint(points[|points| - 1]);
        Accepted(before.defs + last.defs, last.aborted)
  }

  /** The data points of a document, if it has such a section. No document means that the text did not parse. */
  function PointsOf(document: Option<Json>): Option<seq<Json>> {
    if document.None? then None
    else
      match ObjectOf(Find(document.value, "exchanged_data"))
      case None => None
      case Some(data) => ItemsOf(Find(data, "datapoints"))
  }

  function AcceptedDefinitions(document: Option<Json>): seq<Definition> {
    match PointsOf(document)
    case None => []
    case Some(points) => AcceptedPoints(points).defs
  }

  /** Going on after a list of entries, unless one of them has ended the import. */
  function Onwards(first: Accepted, second: Accepted): Accepted {
    if first.aborted then first else Accepted(first.defs + second.defs, second.aborted)
  }

  lemma OnwardsAssociates(a: Accepted, b: Accepted, c: Accepted)
    ensures Onwards(Onwards(a, b), c) == Onwards(a, Onwards(b, c))
  {
  }

  function AcceptedEntry(asset: string, protocol: Json): Accepted {
    match Judge(asset, protocol)
    case Abort => Accepted([], true)
    case Skip => Accepted([], false)
    case Accept(def) => Accepted([def], false)
  }

  lemma LastProtocol(asset: string, protocols: seq<Json>)
    requires protocols != []
    ensures var n := |protocols| - 1;
            AcceptedProtocols(asset, protocols)
            == Onwards(AcceptedProtocols(asset, protocols[..n]), AcceptedEntry(asset, protocols[n]))
  {
  }

  /** The protocol entries of a point are taken in order, each on its own, up to the first that aborts. */
  lemma {:induction false} ProtocolsInOrder(asset: string, a: seq<Json>, b: seq<Json>)
    ensures AcceptedProtocols(asset, a + b) == Onwards(AcceptedProtocols(asset, a), AcceptedProtocols(asset, b))
    decreases |b|
  {
    hide Judge;
    if b == [] {
      assert a + b == a;
      assert AcceptedProtocols(asset, a).defs + [] == AcceptedProtocols(asset, a).defs;
    } else {
      var n := |b| - 1;
      assert (a + b)[..|a + b| - 1] == a + b[..n] && (a + b)[|a + b| - 1] == b[n];
      LastProtocol(asset, a + b);
      LastProtocol(asset, b);
      ProtocolsInOrder(asset, a, b[..n]);
      OnwardsAssociates(AcceptedProtocols(asset, a), AcceptedProtocols(asset, b[..n]), AcceptedEntry(asset, b[n]));
    }
  }

  lemma LastPoint(points: seq<Json>)
    requires points != []
    ensures var n := |points| - 1;
            AcceptedPoints(points) == Onwards(AcceptedPoints(points[..n]), AcceptedPoint(points[n]))
  {
  }

  /** So are the points: those after the first that aborts change nothing. */
  lemma {:induction false} PointsInOrder(a: seq<Json>, b: seq<Json>)
    ensures AcceptedPoints(a + b) == Onwards(AcceptedPoints(a), AcceptedPoints(b))
    decreases |b|
  {
    hide AcceptedPoint;
    if b == [] {
      assert a + b == a;
      assert AcceptedPoints(a).defs + [] == AcceptedPoints(a).defs;
    } else {
      var n := |b| - 1;
      assert (a + b)[..|a + b| - 1] == a + b[..n] && (a + b)[|a + b| - 1] == b[n];
      LastPoint(a + b);
      LastPoint(b);
      PointsInOrder(a, b[..n]);
      OnwardsAssociates(AcceptedPoints(a), AcceptedPoints(b[..n]), AcceptedPoint(b[n]));
    }
  }

  /** Whatever is accepted has a known type and a reference with a colon. */
  predicate IsSound(def: Definition) {
    ':' in def.ref && def.kind != UNKNOWN_TYPE
  }

  lemma {:induction false} AcceptedProtocolsAreSound(asset: string, protocols: seq<Json>, def: Definition)
    requires def in AcceptedProtocols(asset, protocols).defs
    ensures IsSound(def) && def.asset == asset
  {
    if protocols == [] {
    } else {
      var before := protocols[..|protocols| - 1];
      if def in AcceptedProtocols(asset, before).defs {
        AcceptedProtocolsAreSound(asset, before, def);
      }
    }
  }

  lemma {:induction false} AcceptedPointsAreSound(points: seq<Json>, def: Definition)
    requires def in AcceptedPoints(points).defs
    ensures IsSound(def)
  {
    if points == [] {
    } else {
      var before, last := points[..|points| - 1], points[|points| - 1];
      if def in AcceptedPoints(before).defs {
        AcceptedPointsAreSound(before, def);
      } else {
        AcceptedProtocolsAreSound(StringOf(Find(last, "label")).value, ItemsOf(Find(last, "protocols")).value, def);
      }
    }
  }

  // ---- The indices ----

  datatype Index = ByLabel | ByRef | Polled

  predicate Covers(ix: Index, def: Definition) {
    ix.Polled? ==> def.kind < COMMAND
  }

  function KeyOf(ix: Index, def: Definition): string {
    if ix.ByLabel? then def.asset else def.ref
  }

  /** Storing definitions one after the other, a later one replacing an earlier one with the same key. */
  function Store(m: map<string, Definition>, ix: Index, defs: seq<Definition>): map<string, Definition> {
    if defs == [] then m
    else
      var before, def := Store(m, ix, defs[..|defs| - 1]), defs[|defs| - 1];
      if Covers(ix, def) then before[KeyOf(ix, def) := def] else before
  }

  /** Definition i is the last one the index keeps under a key. */
  predicate IsLast(ix: Index, defs: seq<Definition>, key: string, i: nat) {
    && i < |defs| && Covers(ix, defs[i]) && KeyOf(ix, defs[i]) == key
    && forall j :: i < j < |defs| && Covers(ix, defs[j]) ==> KeyOf(ix, defs[j]) != key
  }

  /** The index keeps definition i under this key. */
  predicate Keeps(ix: Index, defs: seq<Definition>, key: string, i: nat) {
    i < |defs| && Covers(ix, defs[i]) && KeyOf(ix, defs[i]) == key
  }

  lemma LastOfMore(ix: Index, defs: seq<Definition>, def: Definition, key: string, i: nat)
    requires !Keeps(ix, defs + [def], key, |defs|) && IsLast(ix, defs, key, i)
    ensures IsLast(ix, defs + [def], key, i)
  {
  }

  /** An index filled from nothing holds, under each key, the last definition with that key, and no other keys. */
  lemma {:induction false} IndexKeepsTheLast(ix: Index, defs: seq<Definition>, key: string)
    ensures key !in Store(map[], ix, defs) ==> forall i :: 0 <= i < |defs| ==> !Keeps(ix, defs, key, i)
    ensures key in Store(map[], ix, defs)
            ==> exists i: nat :: IsLast(ix, defs, key, i) && Store(map[], ix, defs)[key] == defs[i]
  {
    if defs == [] {
    } else {
      var n := |defs| - 1;
      var before, def := defs[..n], defs[n];
      assert defs == before + [def];
      IndexKeepsTheLast(ix, before, key);
      if Keeps(ix, defs, key, n) {
        assert IsLast(ix, defs, key, n);
      } else if key in Store(map[], ix, before) {
        var i: nat :| IsLast(ix, before, key, i) && Store(map[], ix, before)[key] == before[i];
        LastOfMore(ix, before, def, key, i);
      } else {
        assert forall i :: 0 <= i < n ==> !Keeps(ix, before, key, i);
        assert forall i :: 0 <= i < n && Keeps(ix, defs, key, i) ==> Keeps(ix, before, key, i);
      }
    }
  }

  lemma {:induction false} StoreAppend(m: map<string, Definition>, ix: Index, a: seq<Definition>, b: seq<Definition>)
    ensures Store(m, ix, a + b) == Store(Store(m, ix, a), ix, b)
  {
    if b == [] {
      assert a + b == a;
    } else {
      var n := |b| - 1;
      StoreAppend(m, ix, a, b[..n]);
      assert (a + b)[..|a + b| - 1] == a + b[..n];
    }
  }

  /** Where a reference occurs twice the two indices over references may differ, but every polled reference is known. */
  lemma PolledAreKnown(defs: seq<Definition>)
    ensures Store(map[], Polled, defs).Keys <= Store(map[], ByRef, defs).Keys
  {
  }

  /** Every index agrees with its own definitions, whatever document it was filled from. */
  lemma IndexAgrees(document: Option<Json>, ix: Index, key: string)
    requires key in Store(map[], ix, AcceptedDefinitions(document))
    ensures var def := Store(map[], ix, AcceptedDefinitions(document))[key];
            KeyOf(ix, def) == key && IsSound(def) && Covers(ix, def) && def in AcceptedDefinitions(document)
  {
    var defs := AcceptedDefinitions(document);
    IndexKeepsTheLast(ix, defs, key);
    var i: nat :| IsLast(ix, defs, key, i) && Store(map[], ix, defs)[key] == defs[i];
    AcceptedPointsAreSound(PointsOf(document).value, defs[i]);
  }

  // ---- The indices and the verdicts in plain terms ----

  lemma KeysExactly(ix: Index, defs: seq<Definition>, key: string)
    ensures key in Store(map[], ix, defs) <==> exists i: nat :: Keeps(ix, defs, key, i)
    ensures forall i: nat :: IsLast(ix, defs, key, i) ==>
              key in Store(map[], ix, defs) && Store(map[], ix, defs)[key] == defs[i]
  {
    hide Store, Covers, KeyOf;
    IndexKeepsTheLast(ix, defs, key);
    forall i: nat | IsLast(ix, defs, key, i)
      ensures key in Store(map[], ix, defs) && Store(map[], ix, defs)[key] == defs[i]
    {
      assert Keeps(ix, defs, key, i);
      var l: nat :| IsLast(ix, defs, key, l) && Store(map[], ix, defs)[key] == defs[l];
      OneIsLast(ix, defs, key, i, l);
    }
    if key in Store(map[], ix, defs) {
      var l: nat :| IsLast(ix, defs, key, l) && Store(map[], ix, defs)[key] == defs[l];
      assert Keeps(ix, defs, key, l);
    }
  }

  lemma OneIsLast(ix: Index, defs: seq<Definition>, key: string, i: nat, l: nat)
    requires IsLast(ix, defs, key, i) && IsLast(ix, defs, key, l)
    ensures i == l
  {
  }

  lemma LabelsLast(defs: seq<Definition>, key: string, i: nat)
    requires i < |defs| && defs[i].asset == key
    requires forall j :: i < j < |defs| ==> defs[j].asset != key
    ensures IsLast(ByLabel, defs, key, i)
  {
  }

  lemma LabelsKept(defs: seq<Definition>, key: string, i: nat)
    ensures Keeps(ByLabel, defs, key, i) <==> i < |defs| && defs[i].asset == key
  {
  }

  /** The index by label has exactly the labels as keys, and under each the last definition that has it. */
  lemma LabelsExactly(defs: seq<Definition>, key: string)
    ensures key in Store(map[], ByLabel, defs)
            <==> exists i :: 0 <= i < |defs| && defs[i].asset == key
    ensures forall i :: 0 <= i < |defs| && defs[i].asset == key
                        && (forall j :: i < j < |defs| ==> defs[j].asset != key)
              ==> Store(map[], ByLabel, defs)[key] == defs[i]
  {
    hide Store, IsLast, Keeps;
    KeysExactly(ByLabel, defs, key);
    forall i | 0 <= i < |defs| && defs[i].asset == key
      ensures key in Store(map[], ByLabel, defs)
    {
      LabelsKept(defs, key, i);
    }
    if key in Store(map[], ByLabel, defs) {
      var i: nat :| Keeps(ByLabel, defs, key, i);
      LabelsKept(defs, key, i);
      assert defs[i].asset == key;
    }
    forall i | 0 <= i < |defs| && defs[i].asset == key
               && (forall j :: i < j < |defs| ==> defs[j].asset != key)
      ensures Store(map[], ByLabel, defs)[key] == defs[i]
    {
      LabelsLast(defs, key, i);
    }
  }

  lemma RefsLast(defs: seq<Definition>, key: string, i: nat)
    requires i < |defs| && defs[i].ref == key
    requires forall j :: i < j < |defs| ==> defs[j].ref != key
    ensures IsLast(ByRef, defs, key, i)
  {
  }

  lemma RefsKept(defs: seq<Definition>, key: string, i: nat)
    ensures Keeps(ByRef, defs, key, i) <==> i < |defs| && defs[i].ref == key
  {
  }

  /** So has the index by reference the references. */
  lemma RefsExactly(defs: seq<Definition>, key: string)
    ensures key in Store(map[], ByRef, defs)
            <==> exists i :: 0 <= i < |defs| && defs[i].ref == key
    ensures forall i :: 0 <= i < |defs| && defs[i].ref == key
                        && (forall j :: i < j < |defs| ==> defs[j].ref != key)
              ==> Store(map[], ByRef, defs)[key] == defs[i]
  {
    hide Store, IsLast, Keeps;
    KeysExactly(ByRef, defs, key);
    forall i | 0 <= i < |defs| && defs[i].ref == key
      ensures key in Store(map[], ByRef, defs)
    {
      RefsKept(defs, key, i);
    }
    if key in Store(map[], ByRef, defs) {
      var i: nat :| Keeps(ByRef, defs, key, i);
      RefsKept(defs, key, i);
      assert defs[i].ref == key;
    }
    forall i | 0 <= i < |defs| && defs[i].ref == key
               && (forall j :: i < j < |defs| ==> defs[j].ref != key)
      ensures Store(map[], ByRef, defs)[key] == defs[i]
    {
      RefsLast(defs, key, i);
    }
  }

  lemma PolledRefsLast(defs: seq<Definition>, key: string, i: nat)
    requires i < |defs| && defs[i].ref == key && defs[i].kind < 16
    requires forall j :: i < j < |defs| && defs[j].kind < 16 ==> defs[j].ref != key
    ensures IsLast(Polled, defs, key, i)
  {
  }

  lemma PolledRefsKept(defs: seq<Definition>, key: string, i: nat)
    ensures Keeps(Polled, defs, key, i) <==> i < |defs| && defs[i].ref == key && defs[i].kind < 16
  {
  }

  /** And that of the polled points the references of all definitions that are no commands. */
  lemma PolledRefsExactly(defs: seq<Definition>, key: string)
    ensures key in Store(map[], Polled, defs)
            <==> exists i :: 0 <= i < |defs| && defs[i].ref == key && defs[i].kind < 16
    ensures forall i :: 0 <= i < |defs| && defs[i].ref == key && defs[i].kind < 16
                        && (forall j :: i < j < |defs| && defs[j].kind < 16 ==> defs[j].ref != key)
              ==> Store(map[], Polled, defs)[key] == defs[i]
  {
    hide Store, IsLast, Keeps;
    KeysExactly(Polled, defs, key);
    forall i | 0 <= i < |defs| && defs[i].ref == key && defs[i].kind < 16
      ensures key in Store(map[], Polled, defs)
    {
      PolledRefsKept(defs, key, i);
    }
    if key in Store(map[], Polled, defs) {
      var i: nat :| Keeps(Polled, defs, key, i);
      PolledRefsKept(defs, key, i);
      assert defs[i].ref == key && defs[i].kind < 16;
    }
    forall i | 0 <= i < |defs| && defs[i].ref == key && defs[i].kind < 16
               && (forall j :: i < j < |defs| && defs[j].kind < 16 ==> defs[j].ref != key)
      ensures Store(map[], Polled, defs)[key] == defs[i]
    {
      PolledRefsLast(defs, key, i);
    }
  }

  /** Only the three kinds of commands are never polled. */
  lemma CommandsByName(name: string)
    requires name in TYPE_NAMES
    ensures 0 <= TypeFromName(name) < 16 <==> name !in {"Command", "SetPointReal", "SetPointDiscrete"}
  {
    hide TypeFromName;
    TypeNamesAreKnown(name);
    var k := TypeFromName(name);
    if k < 16 {
      TypeNamesDiffer(k, 16);
      TypeNamesDiffer(k, 17);
      TypeNamesDiffer(k, 18);
    }
  }

  /** A protocol entry has its three texts. */
  predicate IsWellFormed(protocol: Json) {
    && StringOf(Find(protocol, "name")).Some?
    && StringOf(Find(protocol, "ref")).Some?
    && StringOf(Find(protocol, "typeid")).Some?
  }

  /** An entry that lacks one of them ends the import; what comes behind it changes nothing. */
  lemma MalformedEntryAborts(asset: string, a: seq<Json>, protocol: Json, b: seq<Json>)
    requires !IsWellFormed(protocol) && !AcceptedProtocols(asset, a).aborted
    ensures AcceptedProtocols(asset, a + [protocol] + b) == AcceptedProtocols(asset, a).(aborted := true)
  {
    assert (a + [protocol])[..|a|] == a;
    ProtocolsInOrder(asset, a + [protocol], b);
  }

  /** An entry of an unknown type or with a reference without a colon is passed over. */
  lemma UnknownEntryIsSkipped(asset: string, a: seq<Json>, protocol: Json, b: seq<Json>)
    requires IsWellFormed(protocol)
    requires Find(protocol, "typeid").value.s !in TYPE_NAMES || ':' !in Find(protocol, "ref").value.s
    ensures AcceptedProtocols(asset, a + [protocol] + b) == AcceptedProtocols(asset, a + b)
  {
    TypeNamesAreKnown(Find(protocol, "typeid").value.s);
    assert (a + [protocol])[..|a|] == a;
    ProtocolsInOrder(asset, a + [protocol], b);
    ProtocolsInOrder(asset, a, b);
  }

  /** A point that is no object, or lacks its label or its list of protocols, ends the import, too. */
  lemma MalformedPointAborts(a: seq<Json>, point: Json, b: seq<Json>)
    requires StringOf(Find(point, "label")).None? || ItemsOf(Find(point, "protocols")).None?
    requires !AcceptedPoints(a).aborted
    ensures AcceptedPoints(a + [point] + b) == AcceptedPoints(a).(aborted := true)
  {
    assert (a + [point])[..|a|] == a;
    assert AcceptedPoints(a).defs + [] == AcceptedPoints(a).defs;
    PointsInOrder(a + [point], b);
  }

  // ---- A document for any definitions ----

  predicate IsExchangeable(def: Definition) {
    ':' in def.ref && 0 <= def.kind < |TYPE_NAMES|
  }

  /** One data point with a single protocol entry. */
  function PointFor(def: Definition): Json
    requires IsExchangeable(def)
  {
    var entry := Object([Member("name", String("tase2")), Member("ref", String(def.ref)),
                         Member("typeid", String(TYPE_NAMES[def.kind]))]);
    Object([Member("label", String(def.asset)), Member("protocols", Array([entry]))])
  }

  function DocumentFor(defs: seq<Definition>): Json
    requires forall i :: 0 <= i < |defs| ==> IsExchangeable(defs[i])
  {
    var points := seq(|defs|, i requires 0 <= i < |defs| => PointFor(defs[i]));
    Object([Member("exchanged_data", Object([Member("datapoints", Array(points))]))])
  }

  lemma PointIsRead(def: Definition)
    requires IsExchangeable(def)
    ensures AcceptedPoint(PointFor(def)) == Accepted([def], false)
  {
    KindOfName(def.kind);
    var protocols := PointFor(def).members[1].value.items;
    var members := protocols[0].members;
    forall k | 0 <= k < 3 ensures FindIn(members, members[k].name) == Some(members[k].value) {
      FindsFirst(members, k);
    }
    assert members[0].name == "name" && members[1].name == "ref" && members[2].name == "typeid";
    assert Judge(def.asset, protocols[0]) == Accept(def);
    assert AcceptedProtocols(def.asset, protocols[..0]) == Accepted([], false);
    assert AcceptedProtocols(def.asset, protocols) == Accepted([def], false);
    FindsFirst(PointFor(def).members, 1);
    assert PointFor(def).members[1].name == "protocols";
  }

  lemma {:induction false} PointsAreRead(defs: seq<Definition>)
    requires forall i :: 0 <= i < |defs| ==> IsExchangeable(defs[i])
    ensures AcceptedPoints(seq(|defs|, i requires 0 <= i < |defs| => PointFor(defs[i]))) == Accepted(defs, false)
  {
    hide AcceptedPoint, PointFor;
    var points := seq(|defs|, i requires 0 <= i < |defs| => PointFor(defs[i]));
    if defs == [] {
      assert points == [];
    } else {
      var n := |defs| - 1;
      PointsAreRead(defs[..n]);
      assert points[..n] == seq(n, i requires 0 <= i < n => PointFor(defs[..n][i]));
      PointIsRead(defs[n]);
      assert defs == defs[..n] + [defs[n]];
    }
  }

  /** Writing any definitions into a document and importing it gives back the same definitions in the same order. */
  lemma DefinitionsRoundTrip(defs: seq<Definition>)
    requires forall i :: 0 <= i < |defs| ==> IsExchangeable(defs[i])
    ensures AcceptedDefinitions(Some(DocumentFor(defs))) == defs
  {
    hide PointFor, AcceptedPoints;
    PointsAreRead(defs);
  }
}
