/** The check of the protocol configuration for parameters of the wrong type: a traversal with an explicit stack that
    builds the path of every value as a string. */
module TypeCheck {
  import opened Wrappers
  import opened Numerals
  import opened Json

  datatype Kind = NullKind | FalseKind | TrueKind | ObjectKind | ArrayKind | StringKind | NumberKind

  const LAYER_KIND: map<string, Kind> := map[
    "protocol_stack" := ObjectKind,
    "transport_layer" := ObjectKind,
    "application_layer" := ObjectKind,
    "datasets" := ArrayKind,
    "connections" := ArrayKind,
    "ip_addr" := StringKind,
    "port" := NumberKind,
    "tls" := TrueKind]

  const DATASET_KIND: map<string, Kind> := map[
    "dataset_ref" := StringKind,
    "entries" := ArrayKind,
    "polling_interval" := NumberKind,
    "dataset_transfer_sets" := ArrayKind,
    "name" := StringKind,
    "dsConditions" := ArrayKind,
    "interval" := NumberKind,
    "tle" := NumberKind]

  const TRANSFER_KIND: map<string, Kind> := map[
    "bufTm" := NumberKind,
    "integrityCheck" := NumberKind,
    "critical" := TrueKind,
    "rbe" := TrueKind,
    "allChangesReported" := TrueKind]

  const LOCAL_KIND: map<string, Kind> := map[
    "osi" := ObjectKind,
    "local_ap_title" := StringKind,
    "local_ae_qualifier" := NumberKind,
    "local_psel" := StringKind,
    "local_ssel" := StringKind,
    "local_tsel" := StringKind]

  const REMOTE_KIND: map<string, Kind> := map[
    "remote_ap_title" := StringKind,
    "remote_ae_qualifier" := NumberKind,
    "remote_psel" := StringKind,
    "remote_ssel" := StringKind,
    "remote_tsel" := StringKind]

  /** The type expected of each parameter. */
  const EXPECTED_KIND: map<string, Kind> := LAYER_KIND + DATASET_KIND + TRANSFER_KIND + LOCAL_KIND + REMOTE_KIND

  function KindOf(v: Json): Kind {
    match v
    case Null => NullKind
    case Bool(b) => if b then TrueKind else FalseKind
    case Number(_) => NumberKind
    case String(_) => StringKind
    case Array(_) => ArrayKind
    case Object(_) => ObjectKind
  }

  /** Either truth value counts as the kind expected of a flag. */
  predicate IsCorrectType(parameter: string, v: Json) {
    parameter in EXPECTED_KIND ==>
      EXPECTED_KIND[parameter] == if v.Bool? then TrueKind else KindOf(v)
  }

  // ---- Which types are wrong ----

  predicate IsText(parameter: string) {
    parameter in {"ip_addr", "dataset_ref", "name", "local_ap_title", "local_psel", "local_ssel", "local_tsel",
                  "remote_ap_title", "remote_psel", "remote_ssel", "remote_tsel"}
  }

  predicate IsNumber(parameter: string) {
    parameter in {"port", "polling_interval", "interval", "tle", "bufTm", "integrityCheck",
                  "local_ae_qualifier", "remote_ae_qualifier"}
  }

  predicate IsFlag(parameter: string) {
    parameter in {"tls", "critical", "rbe", "allChangesReported"}
  }

  predicate IsContainer(parameter: string) {
    parameter in {"protocol_stack", "transport_layer", "application_layer", "datasets", "connections",
                  "entries", "dataset_transfer_sets", "dsConditions", "osi"}
  }

  predicate IsSorted(parameter: string, kind: Kind) {
    && kind != NullKind && kind != FalseKind
    && (kind == StringKind <==> IsText(parameter)) && (kind == NumberKind <==> IsNumber(parameter))
    && (kind == TrueKind <==> IsFlag(parameter))
    && (kind == ArrayKind || kind == ObjectKind <==> IsContainer(parameter))
  }

  lemma LayerSorted(name: string)
    requires name in LAYER_KIND
    ensures IsSorted(name, LAYER_KIND[name])
  {
  }

  lemma DatasetSorted(name: string)
    requires name in DATASET_KIND
    ensures IsSorted(name, DATASET_KIND[name])
  {
  }

  lemma TransferSorted(name: string)
    requires name in TRANSFER_KIND
    ensures IsSorted(name, TRANSFER_KIND[name])
  {
  }

  lemma LocalSorted(name: string)
    requires name in LOCAL_KIND
    ensures IsSorted(name, LOCAL_KIND[name])
  {
  }

  lemma RemoteSorted(name: string)
    requires name in REMOTE_KIND
    ensures IsSorted(name, REMOTE_KIND[name])
  {
  }

  lemma ExpectedSorted(name: string)
    requires name in EXPECTED_KIND
    ensures IsSorted(name, EXPECTED_KIND[name])
  {
    hide LAYER_KIND, DATASET_KIND, TRANSFER_KIND, LOCAL_KIND, REMOTE_KIND, IsSorted;
    if name in REMOTE_KIND {
      RemoteSorted(name);
    } else if name in LOCAL_KIND {
      LocalSorted(name);
    } else if name in TRANSFER_KIND {
      TransferSorted(name);
    } else if name in DATASET_KIND {
      DatasetSorted(name);
    } else {
      LayerSorted(name);
    }
  }

  lemma TextsAreListed(name: string)
    requires IsText(name)
    ensures name in EXPECTED_KIND
  {
  }

  lemma NumbersAreListed(name: string)
    requires IsNumber(name)
    ensures name in EXPECTED_KIND
  {
  }

  lemma FlagsAreListed(name: string)
    requires IsFlag(name)
    ensures name in EXPECTED_KIND
  {
  }

  lemma ContainersAreListed(name: string)
    requires IsContainer(name)
    ensures name in EXPECTED_KIND
  {
  }

  /** A scalar is of the wrong type exactly if its parameter is a text, a number, a flag, or a list or object, and it is
      not. All other parameters may have any type. */
  lemma WrongTypeExactly(parameter: string, v: Json)
    requires v.IsScalar()
    ensures !IsCorrectType(parameter, v) <==>
            || (IsText(parameter) && !v.String?) || (IsNumber(parameter) && !v.Number?)
            || (IsFlag(parameter) && !v.Bool?) || IsContainer(parameter)
  {
    hide IsText, IsNumber, IsFlag, IsContainer, EXPECTED_KIND;
    if parameter in EXPECTED_KIND {
      ExpectedSorted(parameter);
    }
    if IsText(parameter) { TextsAreListed(parameter); }
    if IsNumber(parameter) { NumbersAreListed(parameter); }
    if IsFlag(parameter) { FlagsAreListed(parameter); }
    if IsContainer(parameter) { ContainersAreListed(parameter); }
  }

  function MemberPath(parent: string, name: string): string {
    if parent == "" then name else parent + "." + name
  }

  function ItemPath(parent: string, i: nat): string {
    parent + "[" + Digits(i, Decimal) + "]"
  }

  // ---- What the traversal decides ----

  /** A value on the stack, with its path. */
  datatype Entry = Entry(path: string, value: Json)

  function Children(e: Entry): seq<Entry> {
    match e.value
    case Object(members) =>
      seq(|members|, i requires 0 <= i < |members| => Entry(MemberPath(e.path, members[i].name), members[i].value))
    case Array(items) =>
      seq(|items|, i requires 0 <= i < |items| => Entry(ItemPath(e.path, i), items[i]))
    case _ => []
  }

  /** Every scalar at or below a value is of the type expected of its path. */
  predicate AllCorrect(path: string, v: Json)
    decreases v
  {
    match v
    case Object(members) =>
      forall i :: 0 <= i < |members| ==> AllCorrect(MemberPath(path, members[i].name), members[i].value)
    case Array(items) =>
      forall i :: 0 <= i < |items| ==> AllCorrect(ItemPath(path, i), items[i])
    case _ => IsCorrectType(path, v)
  }

  predicate StackCorrect(stack: seq<Entry>) {
    forall k :: 0 <= k < |stack| ==> AllCorrect(stack[k].path, stack[k].value)
  }

  lemma ChildrenDecide(e: Entry)
    requires !e.value.IsScalar()
    ensures AllCorrect(e.path, e.value) <==> StackCorrect(Children(e))
  {
    var children := Children(e);
    if e.value.Object? {
      assert forall i :: 0 <= i < |children| ==>
          children[i] == Entry(MemberPath(e.path, e.value.members[i].name), e.value.members[i].value);
    } else {
      assert forall i :: 0 <= i < |children| ==> children[i] == Entry(ItemPath(e.path, i), e.value.items[i]);
    }
  }

  /** How many values there are at or below a value. */
  function Size(v: Json): nat
    decreases v, 0
  {
    match v
    case Object(members) => 1 + MembersSize(members)
    case Array(items) => 1 + ItemsSize(items)
    case _ => 1
  }

  function MembersSize(members: seq<Member>): nat
    decreases members, 1
  {
    if members == [] then 0 else MembersSize(members[..|members| - 1]) + Size(members[|members| - 1].value)
  }

  function ItemsSize(items: seq<Json>): nat
    decreases items, 1
  {
    if items == [] then 0 else ItemsSize(items[..|items| - 1]) + Size(items[|items| - 1])
  }

  function StackSize(stack: seq<Entry>): nat {
    if stack == [] then 0 else StackSize(stack[..|stack| - 1]) + Size(stack[|stack| - 1].value)
  }

  /** Pushing the children of an object, one after the other, adds their sizes. */
  lemma {:induction false} PushedMembersSize(rest: seq<Entry>, e: Entry, n: nat)
    requires e.value.Object? && n <= |e.value.members|
    ensures StackSize(rest + Children(e)[..n]) == StackSize(rest) + MembersSize(e.value.members[..n])
  {
    hide Size, MemberPath;
    var stack, members := rest + Children(e)[..n], e.value.members[..n];
    if n == 0 {
      assert stack == rest;
    } else {
      PushedMembersSize(rest, e, n - 1);
      assert stack[..|stack| - 1] == rest + Children(e)[..n - 1];
      assert members[..n - 1] == e.value.members[..n - 1];
    }
  }

  lemma {:induction false} PushedItemsSize(rest: seq<Entry>, e: Entry, n: nat)
    requires e.value.Array? && n <= |e.value.items|
    ensures StackSize(rest + Children(e)[..n]) == StackSize(rest) + ItemsSize(e.value.items[..n])
  {
    hide Size, Digits, ItemPath;
    var stack, items := rest + Children(e)[..n], e.value.items[..n];
    if n == 0 {
      assert stack == rest;
    } else {
      PushedItemsSize(rest, e, n - 1);
      assert stack[..|stack| - 1] == rest + Children(e)[..n - 1];
      assert items[..n - 1] == e.value.items[..n - 1];
    }
  }

  lemma ExpandingShrinks(rest: seq<Entry>, e: Entry)
    ensures StackSize(rest + Children(e)) < StackSize(rest + [e])
  {
    assert (rest + [e])[..|rest|] == rest;
    var children := Children(e);
    assert children[..|children|] == children;
    match e.value
    case Object(members) =>
      PushedMembersSize(rest, e, |members|);
      assert members[..|members|] == members;
    case Array(items) =>
      PushedItemsSize(rest, e, |items|);
      assert items[..|items|] == items;
    case _ =>
      assert rest + children == rest;
  }

  method PushChildren(rest: seq<Entry>, e: Entry) returns (stack: seq<Entry>)
    requires !e.value.IsScalar()
    ensures stack == rest + Children(e)
  {
    stack := rest;
    var i := 0;
    if e.value.Object? {
      while i < |e.value.members|
        invariant i <= |e.value.members| && stack == rest + Children(e)[..i]
      {
        var member := e.value.members[i];
        stack := stack + [Entry(if e.path == "" then member.name else e.path + "." + member.name, member.value)];
        i := i + 1;
      }
    } else {
      while i < |e.value.items|
        invariant i <= |e.value.items| && stack == rest + Children(e)[..i]
      {
        stack := stack + [Entry(e.path + "[" + Digits(i, Decimal) + "]", e.value.items[i])];
        i := i + 1;
      }
    }
  }

  /** The iterative traversal ends and agrees with the structural definition. */
  method TraverseAndCheckTypes(v: Json) returns (result: bool)
    ensures result == AllCorrect("", v)
  {
    result := true;
    var stack := [Entry("", v)];
    while stack != []
      invariant AllCorrect("", v) <==> result && StackCorrect(stack)
      decreases StackSize(stack)
    {
      var e, rest := stack[|stack| - 1], stack[..|stack| - 1];
      assert stack == rest + [e];
      ExpandingShrinks(rest, e);
      SplitCorrect(rest, e);
      if !e.value.IsScalar() {
        stack := PushChildren(rest, e);
      } else {
        assert rest + Children(e) == rest;
        if !IsCorrectType(e.path, e.value) {
          result := false;
        }
        stack := rest;
      }
    }
  }

  lemma SplitCorrect(rest: seq<Entry>, e: Entry)
    ensures StackCorrect(rest + [e]) <==> StackCorrect(rest) && AllCorrect(e.path, e.value)
    ensures !e.value.IsScalar() ==> (StackCorrect(rest + [e]) <==> StackCorrect(rest + Children(e)))
  {
    AppendCorrect(rest, [e]);
    assert StackCorrect([e]) <==> AllCorrect([e][0].path, [e][0].value);
    if !e.value.IsScalar() {
      ChildrenDecide(e);
      AppendCorrect(rest, Children(e));
    }
  }

  lemma AppendCorrect(a: seq<Entry>, b: seq<Entry>)
    ensures StackCorrect(a + b) <==> StackCorrect(a) && StackCorrect(b)
  {
    hide AllCorrect;
    var s := a + b;
    assert forall k :: 0 <= k < |a| ==> s[k] == a[k];
    assert forall k :: 0 <= k < |b| ==> s[|a| + k] == b[k];
  }

  // ---- The same by the places of the document ----

  /** The value at a place, given by the position to go to at each level. */
  function ValueAt(v: Json, place: seq<nat>): Option<Json> {
    if place == [] then Some(v)
    else
      match v
      case Object(members) => if place[0] < |members| then ValueAt(members[place[0]].value, place[1..]) else None
      case Array(items) => if place[0] < |items| then ValueAt(items[place[0]], place[1..]) else None
      case _ => None
  }

  function PathAt(path: string, v: Json, place: seq<nat>): string
    requires ValueAt(v, place).Some?
    decreases place
  {
    if place == [] then path
    else
      match v
      case Object(members) =>
        PathAt(MemberPath(path, members[place[0]].name), members[place[0]].value, place[1..])
      case Array(items) => PathAt(ItemPath(path, place[0]), items[place[0]], place[1..])
      case _ => assert false; path
  }

  predicate CorrectAt(path: string, v: Json, place: seq<nat>) {
    var found := ValueAt(v, place);
    found.Some? && found.value.IsScalar() ==> IsCorrectType(PathAt(path, v, place), found.value)
  }

  lemma {:induction false} CorrectEverywhere(path: string, v: Json, place: seq<nat>)
    requires AllCorrect(path, v)
    ensures CorrectAt(path, v, place)
    decreases place
  {
    if place == [] || ValueAt(v, place).None? {
    } else {
      match v
      case Object(members) =>
        CorrectEverywhere(MemberPath(path, members[place[0]].name), members[place[0]].value, place[1..]);
      case Array(items) =>
        CorrectEverywhere(ItemPath(path, place[0]), items[place[0]], place[1..]);
    }
  }

  lemma {:induction false} WrongSomewhere(path: string, v: Json) returns (place: seq<nat>)
    requires !AllCorrect(path, v)
    ensures !CorrectAt(path, v, place)
    decreases v
  {
    hide IsCorrectType, Digits;
    match v
    case Object(members) =>
      var i: nat :| i < |members| && !AllCorrect(MemberPath(path, members[i].name), members[i].value);
      var below := WrongSomewhere(MemberPath(path, members[i].name), members[i].value);
      place := [i] + below;
    case Array(items) =>
      var i: nat :| i < |items| && !AllCorrect(ItemPath(path, i), items[i]);
      var below := WrongSomewhere(ItemPath(path, i), items[i]);
      place := [i] + below;
    case _ =>
      place := [];
  }

  /** The check accepts a document exactly when every scalar, wherever it is, has the type expected of its path. */
  lemma AcceptsExactlyCorrect(v: Json)
    ensures AllCorrect("", v) <==> forall place :: CorrectAt("", v, place)
  {
    if AllCorrect("", v) {
      forall place ensures CorrectAt("", v, place) {
        CorrectEverywhere("", v, place);
      }
    } else {
      var place := WrongSomewhere("", v);
    }
  }

  // ---- Which parameters are checked at all ----

  predicate IsNameChar(c: char) {
    'a' <= c <= 'z' || 'A' <= c <= 'Z' || c == '_'
  }

  predicate IsPlainName(s: string) {
    s != "" && forall i :: 0 <= i < |s| ==> IsNameChar(s[i])
  }

  lemma LayerNamesArePlain(name: string)
    requires name in LAYER_KIND
    ensures IsPlainName(name)
  {
  }

  lemma DatasetNamesArePlain(name: string)
    requires name in DATASET_KIND
    ensures IsPlainName(name)
  {
  }

  lemma TransferNamesArePlain(name: string)
    requires name in TRANSFER_KIND
    ensures IsPlainName(name)
  {
  }

  lemma LocalNamesArePlain(name: string)
    requires name in LOCAL_KIND
    ensures IsPlainName(name)
  {
  }

  lemma RemoteNamesArePlain(name: string)
    requires name in REMOTE_KIND
    ensures IsPlainName(name)
  {
  }

  lemma ParametersArePlain(name: string)
    requires name in EXPECTED_KIND
    ensures IsPlainName(name)
  {
    if name in LAYER_KIND {
      LayerNamesArePlain(name);
    } else if name in DATASET_KIND {
      DatasetNamesArePlain(name);
    } else if name in TRANSFER_KIND {
      TransferNamesArePlain(name);
    } else if name in LOCAL_KIND {
      LocalNamesArePlain(name);
    } else {
      RemoteNamesArePlain(name);
    }
  }

  /** A path below the first level: no parameter has such a name. */
  predicate IsDeep(path: string) {
    exists i :: 0 <= i < |path| && (path[i] == '.' || path[i] == '[')
  }

  lemma DeepIsNoParameter(path: string)
    requires IsDeep(path)
    ensures path !in EXPECTED_KIND
  {
    if path in EXPECTED_KIND {
      ParametersArePlain(path);
    }
  }

  lemma BelowIsDeep(parent: string, name: string, i: nat)
    ensures parent != "" ==> IsDeep(MemberPath(parent, name))
    ensures IsDeep(ItemPath(parent, i))
  {
    if parent != "" {
      assert MemberPath(parent, name)[|parent|] == '.';
    }
    assert ItemPath(parent, i)[|parent|] == '[';
  }

  lemma StillDeep(parent: string, name: string, i: nat)
    requires IsDeep(parent)
    ensures IsDeep(MemberPath(parent, name)) && IsDeep(ItemPath(parent, i))
  {
    BelowIsDeep(parent, name, i);
  }

  /** Nothing below the first level is ever rejected. */
  lemma {:induction false} DeepIsCorrect(path: string, v: Json)
    requires IsDeep(path)
    ensures AllCorrect(path, v)
    decreases v
  {
    match v
    case Object(members) =>
      forall i | 0 <= i < |members| ensures AllCorrect(MemberPath(path, members[i].name), members[i].value) {
        StillDeep(path, members[i].name, 0);
        DeepIsCorrect(MemberPath(path, members[i].name), members[i].value);
      }
    case Array(items) =>
      forall i | 0 <= i < |items| ensures AllCorrect(ItemPath(path, i), items[i]) {
        StillDeep(path, "", i);
        DeepIsCorrect(ItemPath(path, i), items[i]);
      }
    case _ =>
      DeepIsNoParameter(path);
  }

  /** At a named place only a scalar can be rejected. */
  lemma NamedIsCorrect(path: string, v: Json)
    requires path != ""
    ensures AllCorrect(path, v) <==> (v.IsScalar() ==> IsCorrectType(path, v))
  {
    match v
    case Object(members) =>
      forall i | 0 <= i < |members| ensures AllCorrect(MemberPath(path, members[i].name), members[i].value) {
        BelowIsDeep(path, members[i].name, 0);
        DeepIsCorrect(MemberPath(path, members[i].name), members[i].value);
      }
    case Array(items) =>
      forall i | 0 <= i < |items| ensures AllCorrect(ItemPath(path, i), items[i]) {
        BelowIsDeep(path, "", i);
        DeepIsCorrect(ItemPath(path, i), items[i]);
      }
    case _ =>
  }

  /** A member is rejected if it is a scalar of the wrong type, or if its name is empty and a member of it is. */
  predicate IsWrong(m: Member) {
    if m.value.IsScalar() then !IsCorrectType(m.name, m.value)
    else m.name == "" && m.value.Object? && exists i :: 0 <= i < |m.value.members| && IsWrong(m.value.members[i])
  }

  lemma {:induction false} WrongMember(m: Member)
    ensures AllCorrect(m.name, m.value) <==> !IsWrong(m)
    decreases m
  {
    if m.name != "" {
      NamedIsCorrect(m.name, m.value);
    } else {
      match m.value
      case Object(members) =>
        forall i | 0 <= i < |members|
          ensures AllCorrect(MemberPath("", members[i].name), members[i].value) <==> !IsWrong(members[i]) {
          WrongMember(members[i]);
        }
      case Array(items) =>
        forall i | 0 <= i < |items| ensures AllCorrect(ItemPath("", i), items[i]) {
          BelowIsDeep("", "", i);
          DeepIsCorrect(ItemPath("", i), items[i]);
        }
      case _ =>
    }
  }

  /** An object is rejected exactly when some member of it is; nothing below a named member matters. */
  lemma RejectsExactlyWrongMembers(members: seq<Member>)
    ensures !AllCorrect("", Object(members)) <==> exists i :: 0 <= i < |members| && IsWrong(members[i])
  {
    forall i | 0 <= i < |members|
      ensures AllCorrect(MemberPath("", members[i].name), members[i].value) <==> !IsWrong(members[i])
    {
      WrongMember(members[i]);
    }
  }

  /** Some scalar at the first level has the name of a parameter of another type. */
  predicate HasWrongParameter(members: seq<Member>) {
    exists i :: 0 <= i < |members| && members[i].value.IsScalar()
                && members[i].name in EXPECTED_KIND && !IsCorrectType(members[i].name, members[i].value)
  }

  /** If no member name is empty, only the scalars at the first level are ever rejected. */
  lemma RejectsOnlyTheFirstLevel(members: seq<Member>)
    requires forall i :: 0 <= i < |members| ==> members[i].name != ""
    ensures !AllCorrect("", Object(members)) <==> HasWrongParameter(members)
  {
    RejectsExactlyWrongMembers(members);
    if i: nat :| i < |members| && IsWrong(members[i]) {
      assert members[i].value.IsScalar() && members[i].name in EXPECTED_KIND;
    }
    forall i | 0 <= i < |members| && members[i].value.IsScalar()
               && members[i].name in EXPECTED_KIND && !IsCorrectType(members[i].name, members[i].value)
      ensures IsWrong(members[i])
    {
    }
  }
}
