/** The transfer sets of the protocol configuration, and maps in which the first entry of each name is kept. */
module TransferSets {
  import opened Wrappers
  import opened Json

  // ---- Keeping the first ----

  /** Keeping entries one after the other, the first of each name winning. */
  function Insert<T>(m: map<string, T>, entries: seq<T>, nameOf: T -> string): map<string, T> {
    if |entries| == 0 then m
    else
      var before, e := Insert(m, entries[..|entries| - 1], nameOf), entries[|entries| - 1];
      if nameOf(e) in before then before else before[nameOf(e) := e]
  }

  /** Under each name is the first entry of that name. */
  lemma {:induction false} InsertKeepsTheFirst<T>(entries: seq<T>, nameOf: T -> string, name: string)
    ensures var m := Insert(map[], entries, nameOf);
            && (name in m <==> exists i :: 0 <= i < |entries| && nameOf(entries[i]) == name)
            && (name in m ==>
                  && nameOf(m[name]) == name
                  && exists i :: 0 <= i < |entries| && entries[i] == m[name]
                                 && forall j :: 0 <= j < i ==> nameOf(entries[j]) != name)
  {
    if |entries| == 0 {
    } else {
      var n := |entries| - 1;
      InsertKeepsTheFirst(entries[..n], nameOf, name);
      var m0, m := Insert(map[], entries[..n], nameOf), Insert(map[], entries, nameOf);
      if name in m0 {
        var i :| 0 <= i < n && entries[..n][i] == m0[name]
                 && forall j :: 0 <= j < i ==> nameOf(entries[..n][j]) != name;
        assert entries[i] == m[name] && forall j :: 0 <= j < i ==> entries[j] == entries[..n][j];
      } else if nameOf(entries[n]) == name {
        assert forall j :: 0 <= j < n ==> entries[j] == entries[..n][j];
        assert entries[n] == m[name];
      }
    }
  }

  lemma InsertMore<T>(m: map<string, T>, entries: seq<T>, e: T, nameOf: T -> string)
    ensures var before := Insert(m, entries, nameOf);
            Insert(m, entries + [e], nameOf) == if nameOf(e) in before then before else before[nameOf(e) := e]
  {
    assert (entries + [e])[..|entries|] == entries;
  }

  // ---- Transfer sets ----

  const CONDITIONS: set<string> := {"interval", "integrity", "change", "operator_request", "external_event"}

  datatype TransferSet = TransferSet(
    name: string, domain: string, dataset: string, conditions: set<string>,
    interval: int, tle: int, integrityCheck: int, bufferTime: int, startTime: int,
    critical: bool, rbe: bool, allChanges: bool)

  function NameOf(t: TransferSet): string {
    t.name
  }

  function TextOr(v: Option<Json>, default: string): string {
    if v.Some? && v.value.String? then v.value.s else default
  }

  function NumberOf(v: Option<Json>, default: int): int {
    if v.Some? && v.value.Number? then v.value.n else default
  }

  predicate IsTrue(v: Option<Json>) {
    v == Some(Bool(true))
  }

  /** The known conditions that a list names; all others are passed over. */
  function ConditionsIn(items: seq<Json>): set<string> {
    set c | c in CONDITIONS && String(c) in items
  }

  function ReadTransferSet(v: Json): Option<TransferSet> {
    var name, listed := StringOf(Find(v, "name")), ItemsOf(Find(v, "dsConditions"));
    if name.None? then None
    else
      Some(TransferSet(
             name.value, TextOr(Find(v, "domain"), ""), TextOr(Find(v, "dataset_ref"), ""),
             if listed.Some? then ConditionsIn(listed.value) else {},
             NumberOf(Find(v, "interval"), 0), NumberOf(Find(v, "tle"), 0), NumberOf(Find(v, "integrityCheck"), 0),
             NumberOf(Find(v, "bufTm"), 0), NumberOf(Find(v, "startTime"), 0),
             IsTrue(Find(v, "critical")), IsTrue(Find(v, "rbe")), IsTrue(Find(v, "allChangesReported"))))
  }

  function ReadTransferSets(items: seq<Json>): seq<TransferSet> {
    if items == [] then []
    else
      var last := ReadTransferSet(items[|items| - 1]);
      ReadTransferSets(items[..|items| - 1]) + if last.Some? then [last.value] else []
  }

  method ImportConditions(items: seq<Json>) returns (conditions: set<string>)
    ensures conditions == ConditionsIn(items)
  {
    conditions := {};
    var i := 0;
    while i < |items|
      invariant i <= |items| && conditions == ConditionsIn(items[..i])
    {
      assert items[..i + 1] == items[..i] + [items[i]];
      if items[i].String? && items[i].s in CONDITIONS {
        conditions := conditions + {items[i].s};
      }
      i := i + 1;
    }
    assert items[..i] == items;
  }

  /** A transfer set without a name is passed over. */
  method ImportTransferSet(v: Json) returns (r: Option<TransferSet>)
    ensures r == ReadTransferSet(v)
  {
    hide ConditionsIn, FindIn;
    if !v.Object? {
      return None;
    }
    var name := Find(v, "name");
    if name.None? || !name.value.String? {
      return None;
    }
    var conditions := {};
    var listed := Find(v, "dsConditions");
    if listed.Some? && listed.value.Array? {
      conditions := ImportConditions(listed.value.items);
    }
    r := Some(TransferSet(
                name.value.s, TextOr(Find(v, "domain"), ""), TextOr(Find(v, "dataset_ref"), ""), conditions,
                NumberOf(Find(v, "interval"), 0), NumberOf(Find(v, "tle"), 0), NumberOf(Find(v, "integrityCheck"), 0),
                NumberOf(Find(v, "bufTm"), 0), NumberOf(Find(v, "startTime"), 0),
                IsTrue(Find(v, "critical")), IsTrue(Find(v, "rbe")), IsTrue(Find(v, "allChangesReported"))));
  }
}
