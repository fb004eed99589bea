/**
  A JSON value as `encoding/json` produces it before it is written out as text.
  Objects keep their members in order, because Go writes struct fields in
  declaration order.
*/
module Json {
  import opened Wrappers

  datatype Json =
    | Null
    | Str(s: string)
    | Arr(items: seq<Json>)
    | Obj(members: seq<(string, Json)>)

  /** The keys of an object, in order; no keys for any other value. */
  function Keys(j: Json): (ks: seq<string>)
    ensures j.Obj? ==> |ks| == |j.members|
    ensures j.Obj? ==> forall i :: 0 <= i < |ks| ==> ks[i] == j.members[i].0
  {
    if j.Obj? then seq(|j.members|, i requires 0 <= i < |j.members| => j.members[i].0) else []
  }

  /** The value of the first member named `key`, if any. */
  function FindMember(members: seq<(string, Json)>, key: string): Option<Json>
  {
    if members == [] then None
    else if members[0].0 == key then Some(members[0].1)
    else FindMember(members[1..], key)
  }

  /** Looking a member up finds the first one with that key. */
  lemma {:induction false} FindMemberAt(members: seq<(string, Json)>, key: string, i: nat)
    requires i < |members| && members[i].0 == key
    requires forall j :: 0 <= j < i ==> members[j].0 != key
    ensures FindMember(members, key) == Some(members[i].1)
  {
    if i > 0 {
      FindMemberAt(members[1..], key, i - 1);
    }
  }

  /** A key that no member carries is not found. */
  lemma {:induction false} FindMemberAbsent(members: seq<(string, Json)>, key: string)
    requires forall j :: 0 <= j < |members| ==> members[j].0 != key
    ensures FindMember(members, key) == None
  {
    if members != [] {
      FindMemberAbsent(members[1..], key);
    }
  }

  function Field(j: Json, key: string): Option<Json>
  {
    if j.Obj? then FindMember(j.members, key) else None
  }
}
