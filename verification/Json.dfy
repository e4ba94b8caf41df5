/** A parsed JSON document. Members keep the order of the text, and a name may occur more than once. */
module Json {
  import opened Wrappers

  datatype Json =
    | Null
    | Bool(b: bool)
    | Number(n: int)
    | String(s: string)
    | Array(items: seq<Json>)
    | Object(members: seq<Member>)
  {
    predicate IsScalar() {
      !Array? && !Object?
    }
  }

  datatype Member = Member(name: string, value: Json)

  /** The first member of that name; a value that is no object has none. */
  function Find(v: Json, name: string): Option<Json> {
    if v.Object? then FindIn(v.members, name) else None
  }

  function FindIn(members: seq<Member>, name: string): Option<Json> {
    if members == [] then None
    else if members[0].name == name then Some(members[0].value)
    else FindIn(members[1..], name)
  }

  lemma {:induction false} FindsFirst(members: seq<Member>, k: nat)
    requires k < |members| && forall j :: 0 <= j < k ==> members[j].name != members[k].name
    ensures FindIn(members, members[k].name) == Some(members[k].value)
  {
    if k == 0 {
    } else {
      FindsFirst(members[1..], k - 1);
    }
  }

  // ---- Writing objects ----

  /** A member to be written, or left out. */
  datatype Part = Part(name: string, value: Option<Json>)

  function MembersOf(parts: seq<Part>): seq<Member> {
    if parts == [] then []
    else (if parts[0].value.Some? then [Member(parts[0].name, parts[0].value.value)] else []) + MembersOf(parts[1..])
  }

  predicate DifferentNames(parts: seq<Part>) {
    forall i, j :: 0 <= i < j < |parts| ==> parts[i].name != parts[j].name
  }

  lemma {:induction false} FindsNone(parts: seq<Part>, name: string)
    requires forall k :: 0 <= k < |parts| ==> parts[k].name != name
    ensures FindIn(MembersOf(parts), name) == None
  {
    if parts == [] {
    } else {
      FindsNone(parts[1..], name);
      FindBehind(parts, name);
    }
  }

  lemma FindBehind(parts: seq<Part>, name: string)
    requires parts != [] && parts[0].name != name
    ensures FindIn(MembersOf(parts), name) == FindIn(MembersOf(parts[1..]), name)
  {
    var rest := MembersOf(parts[1..]);
    if parts[0].value.Some? {
      assert ([Member(parts[0].name, parts[0].value.value)] + rest)[1..] == rest;
    } else {
      assert [] + rest == rest;
    }
  }

  /** Every part that was written is found under its name, and none that was left out. */
  lemma {:induction false} FindsPart(parts: seq<Part>, k: nat)
    requires k < |parts| && DifferentNames(parts)
    ensures FindIn(MembersOf(parts), parts[k].name) == parts[k].value
  {
    if k == 0 {
      if parts[0].value.None? {
        FindsNone(parts[1..], parts[0].name);
        assert [] + MembersOf(parts[1..]) == MembersOf(parts[1..]);
      }
    } else {
      FindBehind(parts, parts[k].name);
      FindsPart(parts[1..], k - 1);
    }
  }

  /** An object of one member has no other. */
  lemma OnlyMember(m: Member)
    ensures forall name :: Find(Object([m]), name) == if name == m.name then Some(m.value) else None
  {
    forall name ensures Find(Object([m]), name) == if name == m.name then Some(m.value) else None {
      assert FindIn([m][1..], name) == None;
    }
  }

  function StringOf(v: Option<Json>): Option<string> {
    if v.Some? && v.value.String? then Some(v.value.s) else None
  }

  function ItemsOf(v: Option<Json>): Option<seq<Json>> {
    if v.Some? && v.value.Array? then Some(v.value.items) else None
  }

  function ObjectOf(v: Option<Json>): Option<Json> {
    if v.Some? && v.value.Object? then v else None
  }
}
