/** Giving inline free-form members of anyOf/oneOf lists a named schema. */
module Sanitizer {
  import opened Options
  import opened Json

  const FREE_FORM := "FreeFormObject"
  const UNIONS := {"anyOf", "oneOf"}
  const REFERENCE := Obj([Member("$ref", Str("#/components/schemas/" + FREE_FORM))])
  const DESIRED := Obj([Member("type", Str("object")), Member("additionalProperties", Bool(true))])

  predicate IsFreeForm(node: Json) {
    node.Obj? && Get(node.members, "type") == Some(Str("object")) &&
    Keys(node.members) <= {"type", "additionalProperties"} &&
    Get(node.members, "additionalProperties") in {None, Some(Bool(true))}
  }

  predicate IsEmptySchema(node: Json) {
    node.Obj? && Keys(node.members) <= {"title", "description"}
  }

  predicate IsFreeFormArray(node: Json) {
    node.Obj? && Get(node.members, "type") == Some(Str("array")) &&
    Get(node.members, "items").Some? && IsFreeForm(Get(node.members, "items").value)
  }

  /** The members of a union that the generators cannot name. */
  predicate IsNameless(node: Json) {
    IsFreeFormArray(node) || IsEmptySchema(node)
  }

  /******* The shapes, spelled out; dictionaries have no key twice *******/

  const TYPE_OBJECT := Member("type", Str("object"))
  const OPEN := Member("additionalProperties", Bool(true))

  predicate UniqueKeys(members: seq<Member>) {
    forall i, j :: 0 <= i < j < |members| ==> members[i].key != members[j].key
  }

  lemma {:induction false} GetUnique(members: seq<Member>, i: nat)
    requires UniqueKeys(members) && i < |members|
    ensures Get(members, members[i].key) == Some(members[i].value)
  {
    if i > 0 {
      assert members[0].key != members[i].key;
      assert UniqueKeys(members[1..]);
      GetUnique(members[1..], i - 1);
    }
  }

  lemma {:induction false} GetNone(members: seq<Member>, key: string)
    ensures Get(members, key).None? <==> forall i :: 0 <= i < |members| ==> members[i].key != key
  {
    if members != [] { GetNone(members[1..], key); }
  }

  /** Among keys a and b only, a dictionary has at most both. */
  lemma TwoKeys(members: seq<Member>, a: string, b: string)
    requires UniqueKeys(members) && Keys(members) <= {a, b}
    ensures |members| <= 2 && forall i :: 0 <= i < |members| ==> members[i].key == a || members[i].key == b
  {
    ThreeKeys(members);
    forall i | 0 <= i < |members| ensures members[i].key in Keys(members) {}
  }

  lemma ThreeKeys(members: seq<Member>)
    requires UniqueKeys(members)
    ensures |members| > 2 ==> |{members[0].key, members[1].key, members[2].key}| == 3
    ensures |members| > 2 ==> members[0].key in Keys(members) && members[1].key in Keys(members) && members[2].key in Keys(members)
  {
    if |members| > 2 {
      assert members[0].key != members[1].key && members[0].key != members[2].key && members[1].key != members[2].key;
    }
  }

  /** Exactly {"type": "object"}, alone or with {"additionalProperties": true}. */
  lemma FreeFormIff(members: seq<Member>)
    requires UniqueKeys(members)
    ensures IsFreeForm(Obj(members)) <==> members == [TYPE_OBJECT] || members == [TYPE_OBJECT, OPEN] || members == [OPEN, TYPE_OBJECT]
  {
    if IsFreeForm(Obj(members)) {
      TwoKeys(members, "type", "additionalProperties");
      forall i | 0 <= i < |members| ensures members[i] == TYPE_OBJECT || members[i] == OPEN { GetUnique(members, i); }
      GetNone(members, "type");
      assert members != [];
      if |members| == 1 { assert members == [members[0]]; } else { assert members == [members[0], members[1]]; }
    }
    if members == [TYPE_OBJECT] || members == [TYPE_OBJECT, OPEN] || members == [OPEN, TYPE_OBJECT] {
      ShapeIsFreeForm(members);
    }
  }

  lemma ShapeIsFreeForm(members: seq<Member>)
    requires UniqueKeys(members)
    requires members == [TYPE_OBJECT] || members == [TYPE_OBJECT, OPEN] || members == [OPEN, TYPE_OBJECT]
    ensures IsFreeForm(Obj(members))
  {
    hide Get;
    forall i | 0 <= i < |members| ensures Get(members, members[i].key) == Some(members[i].value) { GetUnique(members, i); }
    GetNone(members, "additionalProperties");
    assert members[0] == TYPE_OBJECT || members[1] == TYPE_OBJECT;
  }

  /** No keys but "title" and "description". */
  lemma EmptyIff(members: seq<Member>)
    ensures IsEmptySchema(Obj(members)) <==>
      forall i :: 0 <= i < |members| ==> members[i].key == "title" || members[i].key == "description"
  {
    forall i | 0 <= i < |members| ensures members[i].key in Keys(members) {}
  }

  /** An array whose items have one of the free-form shapes. */
  lemma FreeFormArrayIff(members: seq<Member>)
    requires UniqueKeys(members)
    ensures IsFreeFormArray(Obj(members)) <==>
      Member("type", Str("array")) in members &&
      exists i :: 0 <= i < |members| && members[i].key == "items" && IsFreeForm(members[i].value)
  {
    hide IsFreeForm, Get;
    forall i | 0 <= i < |members| ensures Get(members, members[i].key) == Some(members[i].value) { GetUnique(members, i); }
    GetNone(members, "type");
    GetNone(members, "items");
  }

  /** At `path` there is a dictionary with a union that has a member which cannot be named. */
  ghost predicate NamelessAt(node: Json, path: seq<nat>) {
    match Lookup(node, path)
    case Some(Obj(members)) =>
      exists i, j :: 0 <= i < |members| && members[i].key in {"anyOf", "oneOf"} && members[i].value.Arr? &&
        0 <= j < |members[i].value.items| && IsNameless(members[i].value.items[j])
    case _ => false
  }

  lemma {:induction false} CleanHasNone(node: Json, path: seq<nat>)
    requires Clean(node)
    ensures !NamelessAt(node, path)
    decreases path
  {
    hide IsNameless;
    if path != [] && Lookup(node, path).Some? {
      var child := if node.Obj? then node.members[path[0]].value else node.items[path[0]];
      CleanHasNone(child, path[1..]);
      assert Lookup(node, path) == Lookup(child, path[1..]);
    }
  }

  lemma {:induction false} UncleanHasOne(node: Json) returns (path: seq<nat>)
    requires !Clean(node)
    ensures NamelessAt(node, path)
  {
    hide IsNameless;
    path := [];
    match node
    case Obj(members) =>
      if i: nat :| i < |members| && !Clean(members[i].value) {
        path := UncleanHasOne(members[i].value);
        Below(node, i, path);
        path := [i] + path;
      } else {
        var i :| 0 <= i < |members| && !UnionClean(members[i]);
        assert members[i].key in {"anyOf", "oneOf"};
      }
    case Arr(items) =>
      var i: nat :| i < |items| && !Clean(items[i]);
      path := UncleanHasOne(items[i]);
      Below(node, i, path);
      path := [i] + path;
  }

  lemma Below(node: Json, i: nat, path: seq<nat>)
    requires (node.Obj? && i < |node.members|) || (node.Arr? && i < |node.items|)
    ensures NamelessAt(node, [i] + path) <==> NamelessAt(if node.Obj? then node.members[i].value else node.items[i], path)
  {
    hide IsNameless;
    assert ([i] + path)[1..] == path;
  }

  /** A document is clean exactly when there is no such place. */
  lemma CleanIff(node: Json)
    ensures Clean(node) <==> forall path :: !NamelessAt(node, path)
  {
    hide NamelessAt, Clean;
    if Clean(node) {
      forall path ensures !NamelessAt(node, path) { CleanHasNone(node, path); }
    } else {
      var path := UncleanHasOne(node);
    }
  }

  function Rewrite(node: Json): Json {
    if IsFreeFormArray(node) then Obj(Put(node.members, "items", REFERENCE))
    else if IsEmptySchema(node) then REFERENCE
    else node
  }

  function RewriteAll(items: seq<Json>): (r: seq<Json>)
    ensures |r| == |items|
  {
    seq(|items|, i requires 0 <= i < |items| => Rewrite(items[i]))
  }

  predicate IsUnion(m: Member) {
    m.key in UNIONS && m.value.Arr?
  }

  function RewriteUnion(m: Member): Json {
    if IsUnion(m) then Arr(RewriteAll(m.value.items)) else m.value
  }

  /******* Height: what makes the walk end, although it descends into what it has rewritten *******/

  function Height(node: Json): nat {
    match node
    case Obj(members) => 1 + MembersHeight(members)
    case Arr(items) => 1 + ItemsHeight(items)
    case _ => 0
  }

  function MembersHeight(members: seq<Member>): (h: nat)
    ensures forall i :: 0 <= i < |members| ==> Height(members[i].value) <= h
  {
    if members == [] then 0 else
    Max(Height(members[0].value), MembersHeight(members[1..]))
  }

  function ItemsHeight(items: seq<Json>): (h: nat)
    ensures forall i :: 0 <= i < |items| ==> Height(items[i]) <= h
  {
    if items == [] then 0 else
    Max(Height(items[0]), ItemsHeight(items[1..]))
  }

  function Max(a: nat, b: nat): nat {
    if a < b then b else a
  }

  lemma {:induction false} MembersBound(members: seq<Member>, h: nat)
    requires forall i :: 0 <= i < |members| ==> Height(members[i].value) <= h
    ensures MembersHeight(members) <= h
  {
    if members != [] { MembersBound(members[1..], h); }
  }

  lemma {:induction false} ItemsBound(items: seq<Json>, h: nat)
    requires forall i :: 0 <= i < |items| ==> Height(items[i]) <= h
    ensures ItemsHeight(items) <= h
  {
    if items != [] { ItemsBound(items[1..], h); }
  }

  function FirstAt(members: seq<Member>, key: string): (i: nat)
    requires Get(members, key).Some?
    ensures i < |members| && members[i] == Member(key, Get(members, key).value)
  {
    if members[0].key == key then 0 else 1 + FirstAt(members[1..], key)
  }

  lemma UpdateHead(members: seq<Member>, m: Member)
    requires members != []
    ensures members[0 := m] == [m] + members[1..]
  {
  }

  lemma UpdateTail(members: seq<Member>, i: nat, m: Member)
    requires i + 1 < |members|
    ensures members[i + 1 := m] == [members[0]] + members[1..][i := m]
  {
  }

  lemma {:induction false} PutThere(members: seq<Member>, key: string, value: Json)
    requires Get(members, key).Some?
    ensures Put(members, key, value) == members[FirstAt(members, key) := Member(key, value)]
  {
    if members[0].key == key {
      UpdateHead(members, Member(key, value));
    } else {
      PutThere(members[1..], key, value);
      UpdateTail(members, FirstAt(members[1..], key), Member(key, value));
    }
  }

  lemma {:induction false} PutAtEnd(members: seq<Member>, key: string, value: Json)
    requires Get(members, key).None?
    ensures Put(members, key, value) == members + [Member(key, value)]
  {
    if members != [] {
      PutAtEnd(members[1..], key, value);
    }
  }

  lemma RewriteIsNoTaller(node: Json)
    ensures Height(Rewrite(node)) <= Height(node)
  {
    hide IsFreeForm, IsEmptySchema, Get, Put, MembersHeight;
    ReferenceHeight();
    if IsFreeFormArray(node) {
      var members := node.members;
      PutThere(members, "items", REFERENCE);
      var i := FirstAt(members, "items");
      assert Height(members[i].value) >= 1 by { FreeFormIsObj(members[i].value); }
      MembersBound(Put(members, "items", REFERENCE), MembersHeight(members));
    } else if IsEmptySchema(node) {
      EmptyIsObj(node);
    }
  }

  lemma ReferenceHeight()
    ensures Height(REFERENCE) == 1
  {
    MembersBound(REFERENCE.members, 0);
  }

  lemma FreeFormIsObj(node: Json)
    requires IsFreeForm(node)
    ensures node.Obj? && Height(node) >= 1
  {
  }

  lemma EmptyIsObj(node: Json)
    requires IsEmptySchema(node)
    ensures node.Obj? && Height(node) >= 1
  {
  }

  lemma UnionIsNoTaller(m: Member)
    ensures Height(RewriteUnion(m)) <= Height(m.value)
  {
    hide Rewrite, ItemsHeight, MembersHeight;
    if IsUnion(m) {
      var items := m.value.items;
      forall i | 0 <= i < |items| ensures Height(RewriteAll(items)[i]) <= ItemsHeight(items) {
        RewriteIsNoTaller(items[i]);
      }
      ItemsBound(RewriteAll(items), ItemsHeight(items));
    }
  }

  /******* The walk *******/

  /** At a dictionary, first rewrites its unions and then descends into what they have become. */
  function Walk(node: Json): Json
    decreases Height(node)
  {
    match node
    case Obj(members) => Obj(seq(|members|, i requires 0 <= i < |members| =>
      UnionIsNoTaller(members[i]); Member(members[i].key, Walk(RewriteUnion(members[i])))))
    case Arr(items) => Arr(seq(|items|, i requires 0 <= i < |items| => Walk(items[i])))
    case _ => node
  }

  /** No union below has a member that the generators cannot name. */
  predicate Clean(node: Json) {
    match node
    case Obj(members) => forall i :: 0 <= i < |members| ==> UnionClean(members[i]) && Clean(members[i].value)
    case Arr(items) => forall i :: 0 <= i < |items| ==> Clean(items[i])
    case _ => true
  }

  predicate UnionClean(m: Member) {
    IsUnion(m) ==> forall j :: 0 <= j < |m.value.items| ==> !IsNameless(m.value.items[j])
  }

  /******* What the walk keeps *******/

  ghost predicate WalkedMembers(members: seq<Member>, walked: seq<Member>) {
    |walked| == |members| &&
    forall i :: 0 <= i < |members| ==> walked[i] == Member(members[i].key, Walk(RewriteUnion(members[i])))
  }

  lemma WalkObj(members: seq<Member>)
    ensures Walk(Obj(members)).Obj? && WalkedMembers(members, Walk(Obj(members)).members)
    ensures Keys(Walk(Obj(members)).members) == Keys(members)
  {
    hide RewriteUnion, MembersHeight;
    var walked := Walk(Obj(members)).members;
    assert WalkedMembers(members, walked);
    SameKeys(members, walked);
  }

  lemma SameKeys(members: seq<Member>, walked: seq<Member>)
    requires |walked| == |members| && forall i :: 0 <= i < |members| ==> walked[i].key == members[i].key
    ensures Keys(walked) == Keys(members)
  {
    forall k | k in Keys(members) ensures k in Keys(walked) {
      var i :| 0 <= i < |members| && members[i].key == k;
      assert walked[i].key == k;
    }
    forall k | k in Keys(walked) ensures k in Keys(members) {
      var i :| 0 <= i < |walked| && walked[i].key == k;
      assert members[i].key == k;
    }
  }

  lemma {:induction false} WalkGet(members: seq<Member>, walked: seq<Member>, key: string)
    requires WalkedMembers(members, walked) && key !in UNIONS
    ensures Get(members, key).None? ==> Get(walked, key).None?
    ensures Get(members, key).Some? ==> Get(walked, key) == Some(Walk(Get(members, key).value))
  {
    hide Walk;
    if members != [] && members[0].key != key {
      assert walked[0].key != key;
      WalkGet(members[1..], walked[1..], key);
    }
  }

  lemma WalkKeepsShape(node: Json)
    ensures Walk(node).Obj? == node.Obj? && Walk(node).Arr? == node.Arr?
    ensures !node.Obj? && !node.Arr? ==> Walk(node) == node
    ensures node.Arr? ==> |Walk(node).items| == |node.items|
    ensures node.Arr? ==> forall i :: 0 <= i < |node.items| ==> Walk(node).items[i] == Walk(node.items[i])
  {
  }

  lemma WalkGets(members: seq<Member>, key: string)
    requires key !in UNIONS
    ensures Walk(Obj(members)).Obj?
    ensures Get(members, key).None? ==> Get(Walk(Obj(members)).members, key).None?
    ensures Get(members, key).Some? ==> Get(Walk(Obj(members)).members, key) == Some(Walk(Get(members, key).value))
  {
    hide Walk;
    WalkObj(members);
    WalkGet(members, Walk(Obj(members)).members, key);
  }

  lemma WalkKeepsFreeForm(node: Json)
    ensures IsFreeForm(Walk(node)) == IsFreeForm(node)
  {
    hide Walk, Get, Keys;
    WalkKeepsShape(node);
    if node.Obj? {
      WalkObj(node.members);
      WalkGets(node.members, "type");
      WalkGets(node.members, "additionalProperties");
      if Get(node.members, "type").Some? { WalkKeepsShape(Get(node.members, "type").value); }
      if Get(node.members, "additionalProperties").Some? { WalkKeepsShape(Get(node.members, "additionalProperties").value); }
    }
  }

  /** The walk below a union member neither cures nor spoils the member itself. */
  lemma WalkKeepsNameless(node: Json)
    ensures IsNameless(Walk(node)) == IsNameless(node)
  {
    hide Walk, Get, Keys, IsFreeForm;
    WalkKeepsShape(node);
    if node.Obj? {
      WalkObj(node.members);
      WalkGets(node.members, "type");
      WalkGets(node.members, "items");
      if Get(node.members, "type").Some? { WalkKeepsShape(Get(node.members, "type").value); }
      if Get(node.members, "items").Some? { WalkKeepsFreeForm(Get(node.members, "items").value); }
    }
  }

  lemma RewriteCures(node: Json)
    ensures !IsNameless(Rewrite(node))
  {
    hide Put;
    ReferenceIsNamed();
    if IsFreeFormArray(node) {
      PutGets(node.members, "items", REFERENCE);
      var i := FirstAt(Put(node.members, "items", REFERENCE), "items");
      assert "items" in Keys(Put(node.members, "items", REFERENCE));
    }
  }

  lemma ReferenceIsNamed()
    ensures !IsFreeForm(REFERENCE) && !IsNameless(REFERENCE)
  {
    var members := REFERENCE.members;
    assert members[0].key == "$ref" && members[1..] == [];
    assert "$ref" in Keys(members);
    assert Get(members, "type") == Get(members[1..], "type") == None;
  }

  /******* Main results *******/

  /** After the walk no union anywhere has a nameless member. */
  lemma {:induction false} WalkCleans(node: Json)
    ensures Clean(Walk(node))
    decreases Height(node)
  {
    match node
    case Obj(members) =>
      WalkObj(members);
      var walked := Walk(node).members;
      forall i | 0 <= i < |walked| ensures UnionClean(walked[i]) && Clean(walked[i].value) {
        UnionIsNoTaller(members[i]);
        WalkCleans(RewriteUnion(members[i]));
        WalkedUnionClean(members[i]);
      }
      CleanObj(walked);
    case Arr(items) =>
      WalkKeepsShape(node);
      forall i | 0 <= i < |items| ensures Clean(Walk(node).items[i]) { WalkCleans(items[i]); }
    case _ =>
  }

  lemma CleanObj(members: seq<Member>)
    requires forall i :: 0 <= i < |members| ==> UnionClean(members[i]) && Clean(members[i].value)
    ensures Clean(Obj(members))
  {
  }

  lemma WalkedUnionClean(m: Member)
    ensures UnionClean(Member(m.key, Walk(RewriteUnion(m))))
  {
    hide Walk, IsNameless, Rewrite;
    WalkKeepsShape(RewriteUnion(m));
    if IsUnion(m) {
      forall j | 0 <= j < |m.value.items| ensures !IsNameless(Walk(RewriteUnion(m)).items[j]) {
        RewriteCures(m.value.items[j]);
        WalkKeepsNameless(Rewrite(m.value.items[j]));
      }
    }
  }

  /** A document without nameless members is left as it is; so a second walk changes nothing. */
  lemma {:induction false} CleanIsFixed(node: Json)
    requires Clean(node)
    ensures Walk(node) == node
  {
    match node
    case Obj(members) =>
      WalkObj(members);
      var walked := Walk(node).members;
      forall i | 0 <= i < |members| ensures walked[i] == members[i] {
        CleanUnionIsFixed(members[i]);
        CleanIsFixed(members[i].value);
      }
      assert walked == members;
    case Arr(items) =>
      WalkKeepsShape(node);
      forall i | 0 <= i < |items| ensures Walk(node).items[i] == items[i] { CleanIsFixed(items[i]); }
      assert Walk(node).items == items;
    case _ =>
  }

  lemma WalkTwice(node: Json)
    ensures Walk(Walk(node)) == Walk(node)
  {
    WalkCleans(node);
    CleanIsFixed(Walk(node));
  }

  lemma CleanUnionIsFixed(m: Member)
    requires UnionClean(m)
    ensures RewriteUnion(m) == m.value
  {
    hide IsNameless;
    if IsUnion(m) {
      forall j | 0 <= j < |m.value.items| ensures RewriteAll(m.value.items)[j] == m.value.items[j] {
        NamedIsFixed(m.value.items[j]);
      }
      assert RewriteAll(m.value.items) == m.value.items;
    }
  }

  lemma NamedIsFixed(node: Json)
    requires !IsNameless(node)
    ensures Rewrite(node) == node
  {
  }

  /******* The loops *******/

  /** The inner loop over one union: every nameless member is replaced, and `found` tells whether there was one. */
  method RewriteMembers(items: seq<Json>) returns (rewritten: seq<Json>, found: bool)
    ensures rewritten == RewriteAll(items)
    ensures found <==> exists j :: 0 <= j < |items| && IsNameless(items[j])
  {
    rewritten, found := items, false;
    for index := 0 to |items|
      invariant |rewritten| == |items|
      invariant forall j :: 0 <= j < index ==> rewritten[j] == Rewrite(items[j])
      invariant forall j :: index <= j < |items| ==> rewritten[j] == items[j]
      invariant found <==> exists j :: 0 <= j < index && IsNameless(items[j])
    {
      var member := rewritten[index];
      if IsFreeFormArray(member) {
        rewritten := rewritten[index := Obj(Put(member.members, "items", REFERENCE))];
        found := true;
      } else if IsEmptySchema(member) {
        rewritten := rewritten[index := REFERENCE];
        found := true;
      }
    }
  }

  /** The first pass over a dictionary. */
  method RewriteUnions(members: seq<Member>) returns (unions: seq<Member>, used: bool)
    ensures |unions| == |members|
    ensures forall k :: 0 <= k < |members| ==> unions[k] == Member(members[k].key, RewriteUnion(members[k]))
    ensures used <==> exists k :: 0 <= k < |members| && !UnionClean(members[k])
  {
    hide IsNameless, RewriteAll;
    unions, used := members, false;
    for i := 0 to |members|
      invariant |unions| == |members|
      invariant forall k :: 0 <= k < i ==> unions[k] == Member(members[k].key, RewriteUnion(members[k]))
      invariant forall k :: i <= k < |members| ==> unions[k] == members[k]
      invariant used <==> exists k :: 0 <= k < i && !UnionClean(members[k])
    {
      if IsUnion(members[i]) {
        var rewritten, found := RewriteMembers(members[i].value.items);
        unions := unions[i := Member(members[i].key, Arr(rewritten))];
        used := used || found;
      }
    }
  }

  /** The walk of the program: a pass over the unions of a dictionary, then a pass over its values. */
  method Sanitize(node: Json) returns (walked: Json, used: bool)
    ensures walked == Walk(node)
    ensures used <==> !Clean(node)
    decreases Height(node)
  {
    hide IsNameless, RewriteUnion, UnionClean, Height;
    used := false;
    match node
    case Obj(members) =>
      var unions, dirty := RewriteUnions(members);
      used := dirty;
      var values := [];
      for i := 0 to |members|
        invariant |values| == i
        invariant forall k :: 0 <= k < i ==> values[k] == Member(members[k].key, Walk(RewriteUnion(members[k])))
        invariant used <==> dirty || exists k :: 0 <= k < i && !Clean(RewriteUnion(members[k]))
      {
        MemberIsLower(members, i);
        var value, found := Sanitize(unions[i].value);
        values := values + [Member(unions[i].key, value)];
        used := used || found;
      }
      walked := Obj(values);
      WalkObj(members);
      assert values == Walk(node).members;
      DirtyObj(members);
    case Arr(items) =>
      var values := [];
      for i := 0 to |items|
        invariant |values| == i
        invariant forall k :: 0 <= k < i ==> values[k] == Walk(items[k])
        invariant used <==> exists k :: 0 <= k < i && !Clean(items[k])
      {
        ItemIsLower(items, i);
        var value, found := Sanitize(items[i]);
        values := values + [value];
        used := used || found;
      }
      walked := Arr(values);
      WalkKeepsShape(node);
      assert values == Walk(node).items;
    case _ =>
      walked := node;
  }

  lemma MemberIsLower(members: seq<Member>, i: nat)
    requires i < |members|
    ensures Height(RewriteUnion(members[i])) < Height(Obj(members))
  {
    UnionIsNoTaller(members[i]);
  }

  lemma ItemIsLower(items: seq<Json>, i: nat)
    requires i < |items|
    ensures Height(items[i]) < Height(Arr(items))
  {
  }

  lemma DirtyObj(members: seq<Member>)
    ensures Clean(Obj(members)) <==>
      (forall k :: 0 <= k < |members| ==> UnionClean(members[k])) &&
      (forall k :: 0 <= k < |members| ==> Clean(RewriteUnion(members[k])))
  {
    hide IsNameless, RewriteUnion;
    forall k | 0 <= k < |members| && UnionClean(members[k]) ensures RewriteUnion(members[k]) == members[k].value {
      CleanUnionIsFixed(members[k]);
    }
  }

  /******* What stays: a place is kept unless it is a nameless member, or the items of a free-form array member *******/

  datatype Role = Plain | UnionList | UnionMember

  datatype Fate = Absent | Replaced | Kept(node: Json)

  /** What becomes of the place that `path` (positions of members or items) leads to. */
  function FateAt(node: Json, role: Role, path: seq<nat>): Fate
    decreases path
  {
    if role == UnionMember && IsEmptySchema(node) then (if path == [] then Replaced else Absent)
    else if path == [] then Kept(node)
    else match node
      case Obj(members) =>
        if path[0] >= |members| then Absent
        else if role == UnionMember && IsFreeFormArray(node) && path[0] == FirstAt(members, "items") then
          (if |path| == 1 then Replaced else Absent)
        else FateAt(members[path[0]].value, if IsUnion(members[path[0]]) then UnionList else Plain, path[1..])
      case Arr(items) =>
        if path[0] >= |items| then Absent
        else FateAt(items[path[0]], if role == UnionList then UnionMember else Plain, path[1..])
      case _ => Absent
  }

  /** Same constructor; the same keys in order, the same length, or the same scalar. */
  predicate SameTop(a: Json, b: Json) {
    match a
    case Obj(members) => b.Obj? && |b.members| == |members| && forall i :: 0 <= i < |members| ==> b.members[i].key == members[i].key
    case Arr(items) => b.Arr? && |b.items| == |items|
    case _ => b == a
  }

  function Enter(node: Json, role: Role): Json {
    match role
    case Plain => node
    case UnionList => if node.Arr? then Arr(RewriteAll(node.items)) else node
    case UnionMember => Rewrite(node)
  }

  ghost predicate FateMet(fate: Fate, found: Option<Json>) {
    (fate.Replaced? ==> found == Some(REFERENCE)) &&
    (fate.Kept? ==> found.Some? && SameTop(fate.node, found.value))
  }

  lemma WalkKeepsTop(node: Json)
    ensures SameTop(node, Walk(node))
  {
    WalkKeepsShape(node);
    if node.Obj? { WalkObj(node.members); }
  }

  lemma EnterKeepsTop(node: Json, role: Role)
    requires !(role == UnionMember && IsEmptySchema(node))
    ensures SameTop(node, Enter(node, role))
    ensures role != UnionMember || !IsFreeFormArray(node) ==> node.Obj? ==> Enter(node, role) == node
  {
    hide IsEmptySchema, IsFreeForm;
    if role == UnionMember && IsFreeFormArray(node) { PutThere(node.members, "items", REFERENCE); }
  }

  lemma TopTransitive(a: Json, b: Json, c: Json)
    requires SameTop(a, b) && SameTop(b, c)
    ensures SameTop(a, c)
  {
  }

  lemma WalkReference()
    ensures Walk(REFERENCE) == REFERENCE
  {
    ReferenceIsNamed();
    CleanIsFixed(REFERENCE);
  }

  /** A place that is neither replaced nor below a replaced one keeps its keys, its length or its value. */
  lemma {:induction false} OtherPlacesStay(node: Json, role: Role, path: seq<nat>)
    ensures FateMet(FateAt(node, role, path), Lookup(Walk(Enter(node, role)), path))
    decreases path
  {
    hide IsEmptySchema, IsFreeForm, Walk, SameTop;
    if role == UnionMember && IsEmptySchema(node) {
      EmptyFate(node, path);
    } else if path == [] {
      EnterKeepsTop(node, role);
      WalkKeepsTop(Enter(node, role));
      TopTransitive(node, Enter(node, role), Walk(Enter(node, role)));
    } else if node.Obj? {
      ObjFate(node, role, path);
    } else if node.Arr? {
      ArrFate(node, role, path);
    }
  }

  lemma EmptyFate(node: Json, path: seq<nat>)
    requires IsEmptySchema(node)
    ensures FateMet(FateAt(node, UnionMember, path), Lookup(Walk(Rewrite(node)), path))
  {
    hide Walk;
    WalkReference();
    EmptyIsNoArray(node);
  }

  lemma EmptyIsNoArray(node: Json)
    requires IsEmptySchema(node)
    ensures !IsFreeFormArray(node)
  {
    GotIsKey(node.members, "type");
  }

  lemma GotIsKey(members: seq<Member>, key: string)
    ensures Get(members, key).Some? ==> key in Keys(members)
  {
    if Get(members, key).Some? {
      var i := FirstAt(members, key);
      assert members[i].key == key;
    }
  }

  lemma ArrFate(node: Json, role: Role, path: seq<nat>)
    requires node.Arr? && path != []
    ensures FateMet(FateAt(node, role, path), Lookup(Walk(Enter(node, role)), path))
    decreases path, 0
  {
    hide IsEmptySchema, IsFreeForm, Walk, SameTop, IsFreeFormArray;
    NoObjKeeps(node);
    WalkKeepsShape(Enter(node, role));
    if path[0] < |node.items| {
      OtherPlacesStay(node.items[path[0]], if role == UnionList then UnionMember else Plain, path[1..]);
    }
  }

  lemma NoObjKeeps(node: Json)
    requires !node.Obj?
    ensures Rewrite(node) == node && !IsEmptySchema(node)
  {
  }

  lemma ObjFate(node: Json, role: Role, path: seq<nat>)
    requires node.Obj? && path != [] && !(role == UnionMember && IsEmptySchema(node))
    ensures FateMet(FateAt(node, role, path), Lookup(Walk(Enter(node, role)), path))
    decreases path, 0
  {
    hide IsEmptySchema, IsFreeForm, Walk, SameTop, RewriteUnion, IsUnion, Get, FateMet;
    var i, members := path[0], node.members;
    EnterKeepsTop(node, role);
    EnteredMembers(node, role);
    var entered := Enter(node, role).members;
    WalkObj(entered);
    if i < |members| {
      var walked := Walk(Enter(node, role)).members;
      assert walked[i] == Member(entered[i].key, Walk(RewriteUnion(entered[i])));
      if role == UnionMember && IsFreeFormArray(node) && i == FirstAt(members, "items") {
        WalkReference();
        ItemsNoUnion(entered[i]);
        ReplacedFate(path, walked[i].value);
      } else {
        UnionEntered(members[i]);
        OtherPlacesStay(members[i].value, if IsUnion(members[i]) then UnionList else Plain, path[1..]);
      }
    } else {
      AbsentFate(Lookup(Walk(Enter(node, role)), path));
    }
  }

  lemma AbsentFate(found: Option<Json>)
    ensures FateMet(Absent, found)
  {
  }

  lemma ReplacedFate(path: seq<nat>, there: Json)
    requires path != [] && there == REFERENCE
    ensures FateMet(if |path| == 1 then Replaced else Absent, Lookup(there, path[1..]))
  {
  }

  lemma ItemsNoUnion(m: Member)
    requires m == Member("items", REFERENCE)
    ensures RewriteUnion(m) == REFERENCE
  {
  }

  lemma UnionEntered(m: Member)
    ensures RewriteUnion(m) == Enter(m.value, if IsUnion(m) then UnionList else Plain)
  {
  }

  function EnteredMember(node: Json, role: Role, i: nat): Member
    requires node.Obj? && i < |node.members|
  {
    if role == UnionMember && IsFreeFormArray(node) && i == FirstAt(node.members, "items") then Member("items", REFERENCE)
    else node.members[i]
  }

  lemma EnteredMembers(node: Json, role: Role)
    requires node.Obj? && !(role == UnionMember && IsEmptySchema(node))
    ensures Enter(node, role).Obj? && |Enter(node, role).members| == |node.members|
    ensures forall i :: 0 <= i < |node.members| ==> Enter(node, role).members[i] == EnteredMember(node, role, i)
  {
    hide IsEmptySchema, IsFreeForm, Get;
    if role == UnionMember && IsFreeFormArray(node) { PutThere(node.members, "items", REFERENCE); }
  }

  /******* The whole specification *******/

  datatype Outcome = Returned(spec: seq<Member>) | ValueError | AttributeError

  predicate HasComponents(spec: seq<Member>) {
    Get(spec, "components").Some? ==> Get(spec, "components").value.Obj?
  }

  /** The dictionary of component schemas, if there is one. */
  function Schemas(spec: seq<Member>): Option<seq<Member>>
    requires HasComponents(spec)
  {
    if Get(spec, "components").None? then None else
    var schemas := Get(Get(spec, "components").value.members, "schemas");
    if schemas.Some? && schemas.value.Obj? then Some(schemas.value.members) else None
  }

  /** Equality of dictionaries: the order of keys does not matter, and True equals 1. */
  predicate EqualsDesired(node: Json) {
    node.Obj? && Keys(node.members) == {"type", "additionalProperties"} &&
    Get(node.members, "type") == Some(Str("object")) &&
    Get(node.members, "additionalProperties") in {Some(Bool(true)), Some(Num(1.0))}
  }

  /** The shared schema itself, whatever the order of its keys, or with 1 for true. */
  lemma EqualsDesiredIff(members: seq<Member>)
    requires UniqueKeys(members)
    ensures EqualsDesired(Obj(members)) <==>
      exists open :: open in {OPEN, Member("additionalProperties", Num(1.0))} &&
        (members == [TYPE_OBJECT, open] || members == [open, TYPE_OBJECT])
  {
    if EqualsDesired(Obj(members)) {
      TwoKeys(members, "type", "additionalProperties");
      forall i | 0 <= i < |members| ensures Get(members, members[i].key) == Some(members[i].value) { GetUnique(members, i); }
      GetNone(members, "type");
      GetNone(members, "additionalProperties");
      assert members == [members[0], members[1]];
    }
    forall open | open in {OPEN, Member("additionalProperties", Num(1.0))}
      ensures members == [TYPE_OBJECT, open] || members == [open, TYPE_OBJECT] ==> EqualsDesired(Obj(members))
    {
      if members == [TYPE_OBJECT, open] || members == [open, TYPE_OBJECT] { DesiredShape(members, open); }
    }
  }

  lemma DesiredShape(members: seq<Member>, open: Member)
    requires UniqueKeys(members) && open in {OPEN, Member("additionalProperties", Num(1.0))}
    requires members == [TYPE_OBJECT, open] || members == [open, TYPE_OBJECT]
    ensures EqualsDesired(Obj(members))
  {
    hide Get;
    forall i | 0 <= i < |members| ensures Get(members, members[i].key) == Some(members[i].value) && members[i].key in Keys(members) {
      GetUnique(members, i);
    }
    assert members[0] == TYPE_OBJECT || members[1] == TYPE_OBJECT;
    assert members[0] == open || members[1] == open;
  }

  /** A schema of the shared name is in the way when it is neither null nor the shared one. */
  predicate InTheWay(schemas: seq<Member>) {
    var existing := Get(schemas, FREE_FORM);
    existing.Some? && !existing.value.Null? && !EqualsDesired(existing.value)
  }

  function WithSchema(spec: seq<Member>): seq<Member>
    requires HasComponents(spec) && Schemas(spec).Some?
  {
    var components := Get(spec, "components").value.members;
    Put(spec, "components", Obj(Put(components, "schemas", Obj(Put(Schemas(spec).value, FREE_FORM, DESIRED)))))
  }

  ghost function Sanitized(spec: seq<Member>): Outcome {
    if !HasComponents(spec) then AttributeError
    else if Schemas(spec).None? || Clean(Obj(spec)) then Returned(spec)
    else if InTheWay(Schemas(spec).value) then ValueError
    else WalkObj(spec); WalkKeepsSchemas(spec); Returned(WithSchema(Walk(Obj(spec)).members))
  }

  /** Which specifications are refused, and which are returned as they are. */
  lemma OutcomeIff(spec: seq<Member>)
    ensures Sanitized(spec).AttributeError? <==> Get(spec, "components").Some? && !Get(spec, "components").value.Obj?
    ensures Sanitized(spec).ValueError? <==>
      match Get(spec, "components")
      case Some(Obj(components)) =>
        (match Get(components, "schemas")
         case Some(Obj(schemas)) =>
           !Clean(Obj(spec)) && Get(schemas, "FreeFormObject").Some? &&
           !Get(schemas, "FreeFormObject").value.Null? && !EqualsDesired(Get(schemas, "FreeFormObject").value)
         case _ => false)
      case _ => false
    ensures Clean(Obj(spec)) && !Sanitized(spec).AttributeError? ==> Sanitized(spec) == Returned(spec)
  {
    hide Clean, Get, EqualsDesired, Walk, Put;
  }

  lemma WalkKeepsSchemas(spec: seq<Member>)
    requires HasComponents(spec)
    ensures Walk(Obj(spec)).Obj?
    ensures HasComponents(Walk(Obj(spec)).members)
    ensures Schemas(Walk(Obj(spec)).members).Some? == Schemas(spec).Some?
    ensures Schemas(spec).Some? ==> Walk(Obj(Schemas(spec).value)) == Obj(Schemas(Walk(Obj(spec)).members).value)
  {
    hide Walk, Get;
    WalkGets(spec, "components");
    if Get(spec, "components").Some? {
      WalkKeepsShape(Get(spec, "components").value);
      var components := Get(spec, "components").value.members;
      WalkGets(components, "schemas");
      if Get(components, "schemas").Some? { WalkKeepsShape(Get(components, "schemas").value); }
    }
  }

  lemma WalkKeepsInTheWay(schemas: seq<Member>)
    ensures Walk(Obj(schemas)).Obj?
    ensures InTheWay(Walk(Obj(schemas)).members) == InTheWay(schemas)
  {
    hide Walk, Get, EqualsDesired;
    WalkGets(schemas, FREE_FORM);
    if Get(schemas, FREE_FORM).Some? {
      WalkKeepsShape(Get(schemas, FREE_FORM).value);
      WalkKeepsDesired(Get(schemas, FREE_FORM).value);
    }
  }

  lemma WalkKeepsDesired(node: Json)
    ensures EqualsDesired(Walk(node)) == EqualsDesired(node)
  {
    hide Walk, Get, Keys;
    WalkKeepsShape(node);
    if node.Obj? {
      WalkObj(node.members);
      WalkGets(node.members, "type");
      WalkGets(node.members, "additionalProperties");
      if Get(node.members, "type").Some? { WalkKeepsShape(Get(node.members, "type").value); }
      if Get(node.members, "additionalProperties").Some? { WalkKeepsShape(Get(node.members, "additionalProperties").value); }
    }
  }

  method SanitizeSpec(spec: seq<Member>) returns (outcome: Outcome)
    ensures outcome == Sanitized(spec)
  {
    hide Walk, Get, Clean, InTheWay, WithSchema;
    if !HasComponents(spec) { return AttributeError; }
    if Schemas(spec).None? { return Returned(spec); }
    WalkObj(spec);
    WalkKeepsSchemas(spec);
    var walked, used := Sanitize(Obj(spec));
    if !used {
      CleanIsFixed(Obj(spec));
      return Returned(walked.members);
    }
    WalkKeepsInTheWay(Schemas(spec).value);
    if InTheWay(Schemas(walked.members).value) { return ValueError; }
    return Returned(WithSchema(walked.members));
  }

  lemma PutCleans(members: seq<Member>, key: string, value: Json)
    requires Clean(Obj(members)) && Clean(value) && key !in UNIONS
    ensures Clean(Obj(Put(members, key, value)))
  {
    hide Put, Get;
    if Get(members, key).Some? { PutThere(members, key, value); } else { PutAtEnd(members, key, value); }
    forall i | 0 <= i < |Put(members, key, value)|
      ensures UnionClean(Put(members, key, value)[i]) && Clean(Put(members, key, value)[i].value)
    {
    }
    CleanObj(Put(members, key, value));
  }

  lemma {:induction false} GetsClean(members: seq<Member>, key: string)
    requires Clean(Obj(members)) && Get(members, key).Some?
    ensures Clean(Get(members, key).value)
  {
    var i := FirstAt(members, key);
    assert Clean(members[i].value);
  }

  /** A sanitized specification has no nameless union member, and sanitizing it again changes nothing. */
  lemma SanitizedForGood(spec: seq<Member>)
    requires Sanitized(spec).Returned?
    ensures Schemas(spec).Some? ==> Clean(Obj(Sanitized(spec).spec))
    ensures Sanitized(Sanitized(spec).spec) == Sanitized(spec)
  {
    hide Walk, Clean, Put, Get, InTheWay;
    if Schemas(spec).Some? && !Clean(Obj(spec)) {
      WalkObj(spec);
      WalkKeepsSchemas(spec);
      WalkCleans(Obj(spec));
      WithSchemaIsClean(Walk(Obj(spec)).members);
    }
  }

  lemma WithSchemaIsClean(spec: seq<Member>)
    requires Clean(Obj(spec)) && HasComponents(spec) && Schemas(spec).Some?
    ensures Clean(Obj(WithSchema(spec))) && HasComponents(WithSchema(spec))
  {
    hide Clean, Put, Get;
    GetsClean(spec, "components");
    var components := Get(spec, "components").value.members;
    GetsClean(components, "schemas");
    DesiredIsClean();
    PutCleans(Schemas(spec).value, FREE_FORM, DESIRED);
    PutCleans(components, "schemas", Obj(Put(Schemas(spec).value, FREE_FORM, DESIRED)));
    var added := Obj(Put(components, "schemas", Obj(Put(Schemas(spec).value, FREE_FORM, DESIRED))));
    PutCleans(spec, "components", added);
    PutGets(spec, "components", added);
  }

  lemma DesiredIsClean()
    ensures Clean(DESIRED)
  {
  }

  /** What replaces a nameless member refers to the shared schema. */
  lemma ReferenceIsShared()
    ensures Get(REFERENCE.members, "$ref") == Some(Str("#/components/schemas/FreeFormObject")) && |REFERENCE.members| == 1
  {
    assert "#/components/schemas/" + FREE_FORM == "#/components/schemas/FreeFormObject";
  }

  /** When something was rewritten, the shared schema is there, and every other schema is the walked one. */
  lemma ReferenceResolves(spec: seq<Member>, name: string)
    requires Sanitized(spec).Returned? && Schemas(spec).Some? && !Clean(Obj(spec))
    ensures HasComponents(Sanitized(spec).spec) && Schemas(Sanitized(spec).spec).Some?
    ensures Get(Schemas(Sanitized(spec).spec).value, "FreeFormObject") == Some(Obj([TYPE_OBJECT, OPEN]))
    ensures Get(Schemas(spec).value, name).Some? && name !in {FREE_FORM, "anyOf", "oneOf"} ==>
      Get(Schemas(Sanitized(spec).spec).value, name) == Some(Walk(Get(Schemas(spec).value, name).value))
  {
    hide Walk, Clean, Put, Get, InTheWay;
    WalkObj(spec);
    WalkKeepsSchemas(spec);
    var walked := Walk(Obj(spec)).members;
    var components := Get(walked, "components").value.members;
    var schemas := Schemas(walked).value;
    var added := Put(schemas, FREE_FORM, DESIRED);
    PutGets(schemas, FREE_FORM, DESIRED);
    PutGets(components, "schemas", Obj(added));
    PutGets(walked, "components", Obj(Put(components, "schemas", Obj(added))));
    if name !in UNIONS { WalkGets(Schemas(spec).value, name); }
  }
}
