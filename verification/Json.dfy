/** JSON documents; a dictionary is a list of members in insertion order. */
module Json {
  import opened Options

  datatype Json = Null | Bool(b: bool) | Num(n: real) | Str(s: string) | Arr(items: seq<Json>) | Obj(members: seq<Member>)

  datatype Member = Member(key: string, value: Json)

  function Get(members: seq<Member>, key: string): Option<Json> {
    if members == [] then None
    else if members[0].key == key then Some(members[0].value)
    else Get(members[1..], key)
  }

  function Keys(members: seq<Member>): set<string> {
    set i | 0 <= i < |members| :: members[i].key
  }

  /** Assigns a key: in place when it is there, at the end otherwise. */
  function Put(members: seq<Member>, key: string, value: Json): seq<Member> {
    if members == [] then [Member(key, value)]
    else if members[0].key == key then [Member(key, value)] + members[1..]
    else [members[0]] + Put(members[1..], key, value)
  }

  /** What `path`, a list of positions of members or items, leads to. */
  function Lookup(node: Json, path: seq<nat>): Option<Json>
    decreases path
  {
    if path == [] then Some(node)
    else match node
      case Obj(members) => if path[0] < |members| then Lookup(members[path[0]].value, path[1..]) else None
      case Arr(items) => if path[0] < |items| then Lookup(items[path[0]], path[1..]) else None
      case _ => None
  }

  lemma {:induction false} PutGets(members: seq<Member>, key: string, value: Json)
    ensures Get(Put(members, key, value), key) == Some(value)
    ensures forall k :: k != key ==> Get(Put(members, key, value), k) == Get(members, k)
  {
    if members != [] && members[0].key != key {
      PutGets(members[1..], key, value);
      assert Put(members, key, value)[1..] == Put(members[1..], key, value);
    } else if members == [] {
      assert Put(members, key, value)[1..] == [];
    } else {
      assert Put(members, key, value)[1..] == members[1..];
    }
  }

  lemma {:induction false} GetIsMember(members: seq<Member>, key: string) returns (i: nat)
    requires Get(members, key).Some?
    ensures i < |members| && members[i] == Member(key, Get(members, key).value)
  {
    if members[0].key == key { i := 0; } else {
      var j := GetIsMember(members[1..], key);
      i := j + 1;
    }
  }

  lemma {:induction false} KeyIsGot(members: seq<Member>, i: nat)
    requires i < |members|
    ensures Get(members, members[i].key).Some?
  {
    if members[0].key != members[i].key { KeyIsGot(members[1..], i - 1); }
  }
}
