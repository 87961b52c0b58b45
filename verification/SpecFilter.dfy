/** Keeping the operations with certain tags, and the component schemas they need. */
module SpecFilter {
  import opened Options
  import opened Json
  import opened Sublists

  const SCHEMA_PREFIX := "#/components/schemas/"

  /** The part of a reference after its last slash. */
  function LastSegment(ref: string): string {
    if '/' !in ref then ref else
    LastSegment(ref[1..])
  }

  /** The names of all schemas referenced anywhere in a document. */
  function Refs(node: Json): set<string> {
    match node
    case Obj(members) =>
      var ref := Get(members, "$ref");
      (if ref.Some? && ref.value.Str? && SCHEMA_PREFIX <= ref.value.s then {LastSegment(ref.value.s)} else {})
      + (set i, r | 0 <= i < |members| && r in Refs(members[i].value) :: r)
    case Arr(items) => set i, r | 0 <= i < |items| && r in Refs(items[i]) :: r
    case _ => {}
  }

  /** A dictionary whose "$ref" is a reference to a component schema that ends in this name. */
  ghost predicate PointsTo(node: Json, name: string) {
    node.Obj? && match Get(node.members, "$ref")
      case Some(Str(ref)) =>
        var n := |ref| - |name|;
        "#/components/schemas/" <= ref && n > 0 && ref[n..] == name && ref[n - 1] == '/' && '/' !in name
      case _ => false
  }

  ghost predicate PointsAt(node: Json, path: seq<nat>, name: string) {
    Lookup(node, path).Some? && PointsTo(Lookup(node, path).value, name)
  }

  lemma {:induction false} LastSegmentIs(ref: string)
    ensures var n := |ref| - |LastSegment(ref)|;
      n >= 0 && ref[n..] == LastSegment(ref) && '/' !in LastSegment(ref) && (n > 0 ==> ref[n - 1] == '/')
    ensures '/' in ref ==> |LastSegment(ref)| < |ref|
  {
    if '/' in ref {
      LastSegmentIs(ref[1..]);
      var n := |ref[1..]| - |LastSegment(ref[1..])|;
      assert ref[1..][n..] == ref[n + 1..];
    }
  }

  lemma SegmentsAgree(ref: string, name: string)
    requires |name| < |ref| && ref[|ref| - |name|..] == name && ref[|ref| - |name| - 1] == '/' && '/' !in name
    ensures LastSegment(ref) == name
  {
    LastSegmentIs(ref);
    var last, n, k := LastSegment(ref), |ref| - |name|, |ref| - |LastSegment(ref)|;
    assert '/' in ref;
    forall i | n <= i < |ref| ensures ref[i] != '/' { assert ref[i] == name[i - n] && name[i - n] in name; }
    forall i | k <= i < |ref| ensures ref[i] != '/' { assert ref[i] == last[i - k] && last[i - k] in last; }
    assert n == k;
  }

  /** The references of a dictionary by itself. */
  lemma OwnRef(node: Json, name: string)
    ensures PointsTo(node, name) <==>
      node.Obj? &&
      var ref := Get(node.members, "$ref");
      ref.Some? && ref.value.Str? && SCHEMA_PREFIX <= ref.value.s && name == LastSegment(ref.value.s)
  {
    hide Get, LastSegment;
    if node.Obj? {
      var got := Get(node.members, "$ref");
      if got.Some? && got.value.Str? && SCHEMA_PREFIX <= got.value.s {
        var ref := got.value.s;
        assert ref[0] == '#' && ref[1] == '/';
        LastSegmentIs(ref);
        if PointsTo(node, name) { SegmentsAgree(ref, name); }
      }
    }
  }

  lemma {:induction false} ReferenceIsFound(node: Json, path: seq<nat>, name: string)
    requires PointsAt(node, path, name)
    ensures name in Refs(node)
    decreases path
  {
    hide PointsTo, LastSegment, Get;
    OwnRef(node, name);
    if path != [] {
      match node
      case Obj(members) => ReferenceIsFound(members[path[0]].value, path[1..], name);
      case Arr(items) => ReferenceIsFound(items[path[0]], path[1..], name);
      case _ =>
    }
  }

  lemma {:induction false} FoundHasPlace(node: Json, name: string) returns (path: seq<nat>)
    requires name in Refs(node)
    ensures PointsAt(node, path, name)
  {
    hide PointsTo, LastSegment, Get;
    path := [];
    OwnRef(node, name);
    match node
    case Obj(members) =>
      if i: nat :| i < |members| && name in Refs(members[i].value) {
        path := FoundHasPlace(members[i].value, name);
        assert ([i] + path)[1..] == path;
        path := [i] + path;
      }
    case Arr(items) =>
      var i: nat :| i < |items| && name in Refs(items[i]);
      path := FoundHasPlace(items[i], name);
      assert ([i] + path)[1..] == path;
      path := [i] + path;
    case _ =>
  }

  /** A name is collected exactly when some dictionary, however deep in members or lists, refers to it. */
  lemma CollectedIff(node: Json, name: string)
    ensures name in Refs(node) <==> exists path :: PointsAt(node, path, name)
  {
    hide Refs, PointsAt;
    if name in Refs(node) { var path := FoundHasPlace(node, name); }
    if path :| PointsAt(node, path, name) { ReferenceIsFound(node, path, name); }
  }

  datatype PathEntry = PathEntry(path: string, methods: seq<Member>)

  /** A specification whose paths and schemas are dictionaries; the other entries are carried along. */
  datatype Spec = Spec(paths: seq<PathEntry>, schemas: map<string, Json>, otherComponents: seq<Member>, rest: seq<Member>)

  /******* Operations *******/

  predicate HasTag(items: seq<Json>, tags: set<string>) {
    exists i :: 0 <= i < |items| && items[i].Str? && items[i].s in tags
  }

  /** An operation is kept when it is a dictionary with a list of tags that has one of `tags`. */
  predicate KeepsOperation(operation: Json, tags: set<string>) {
    operation.Obj? &&
    var opTags := Get(operation.members, "tags");
    opTags.Some? && opTags.value.Arr? && HasTag(opTags.value.items, tags)
  }

  function KeptMethods(methods: seq<Member>, tags: set<string>): seq<Member> {
    if methods == [] then [] else
    var last := methods[|methods| - 1];
    KeptMethods(methods[..|methods| - 1], tags) + if KeepsOperation(last.value, tags) then [last] else []
  }

  function KeptPaths(paths: seq<PathEntry>, tags: set<string>): seq<PathEntry> {
    if paths == [] then [] else
    var last := paths[|paths| - 1];
    var methods := KeptMethods(last.methods, tags);
    KeptPaths(paths[..|paths| - 1], tags) + if methods != [] then [PathEntry(last.path, methods)] else []
  }

  /** The operation carries one of the tags. */
  ghost function TaggedWith(tags: set<string>): Member -> bool {
    (m: Member) => m.value.Obj? && match Get(m.value.members, "tags")
      case Some(Arr(items)) => exists t :: t in tags && Str(t) in items
      case _ => false
  }

  lemma TaggedMeans(m: Member, tags: set<string>)
    ensures TaggedWith(tags)(m) <==> KeepsOperation(m.value, tags)
  {
    if m.value.Obj? {
      match Get(m.value.members, "tags")
      case Some(Arr(items)) =>
        if HasTag(items, tags) {
          var i :| 0 <= i < |items| && items[i].Str? && items[i].s in tags;
          assert Str(items[i].s) in items;
        }
        if t :| t in tags && Str(t) in items {
          var i :| 0 <= i < |items| && items[i] == Str(t);
          assert items[i].Str? && items[i].s in tags;
        }
      case _ =>
    }
  }

  /** The kept operations of a path are the tagged ones, in their order. */
  lemma {:induction false} MethodsAreFiltered(methods: seq<Member>, tags: set<string>)
    ensures IsFilter(KeptMethods(methods, tags), methods, TaggedWith(tags))
  {
    hide IsFilter, TaggedWith, KeepsOperation;
    if methods == [] {
      NothingFiltered(TaggedWith(tags));
    } else {
      var n := |methods| - 1;
      MethodsAreFiltered(methods[..n], tags);
      FilterSnoc(KeptMethods(methods[..n], tags), methods[..n], methods[n], TaggedWith(tags));
      TaggedMeans(methods[n], tags);
      assert methods == methods[..n] + [methods[n]];
      assert KeptMethods(methods[..n], tags) + [] == KeptMethods(methods[..n], tags);
    }
  }

  /** Every path with its kept operations only. */
  function Reduced(paths: seq<PathEntry>, tags: set<string>): seq<PathEntry> {
    seq(|paths|, i requires 0 <= i < |paths| => PathEntry(paths[i].path, KeptMethods(paths[i].methods, tags)))
  }

  predicate HasMethods(entry: PathEntry) { entry.methods != [] }

  /** The kept paths are those that have an operation left, in their order. */
  lemma {:induction false} PathsAreFiltered(paths: seq<PathEntry>, tags: set<string>)
    ensures IsFilter(KeptPaths(paths, tags), Reduced(paths, tags), HasMethods)
  {
    hide IsFilter, KeptMethods;
    if paths == [] {
      assert Reduced(paths, tags) == [];
      NothingFiltered(HasMethods);
    } else {
      var n := |paths| - 1;
      PathsAreFiltered(paths[..n], tags);
      var last := PathEntry(paths[n].path, KeptMethods(paths[n].methods, tags));
      FilterSnoc(KeptPaths(paths[..n], tags), Reduced(paths[..n], tags), last, HasMethods);
      assert Reduced(paths, tags) == Reduced(paths[..n], tags) + [last];
      assert KeptPaths(paths[..n], tags) + [] == KeptPaths(paths[..n], tags);
    }
  }

  method FilterMethods(methods: seq<Member>, tags: set<string>) returns (kept: seq<Member>)
    ensures kept == KeptMethods(methods, tags)
  {
    kept := [];
    for i := 0 to |methods|
      invariant kept == KeptMethods(methods[..i], tags)
    {
      assert methods[..i + 1][..i] == methods[..i];
      if KeepsOperation(methods[i].value, tags) {
        kept := kept + [methods[i]];
      }
    }
    assert methods[..|methods|] == methods;
  }

  method FilterPaths(paths: seq<PathEntry>, tags: set<string>) returns (kept: seq<PathEntry>)
    ensures kept == KeptPaths(paths, tags)
  {
    kept := [];
    for i := 0 to |paths|
      invariant kept == KeptPaths(paths[..i], tags)
    {
      assert paths[..i + 1][..i] == paths[..i];
      var methods := FilterMethods(paths[i].methods, tags);
      if methods != [] {
        kept := kept + [PathEntry(paths[i].path, methods)];
      }
    }
    assert paths[..|paths|] == paths;
  }

  function PathRefs(paths: seq<PathEntry>): set<string> {
    set i, j, r | 0 <= i < |paths| && 0 <= j < |paths[i].methods| && r in Refs(paths[i].methods[j].value) :: r
  }

  ghost predicate PathPointsTo(paths: seq<PathEntry>, i: nat, j: nat, name: string) {
    i < |paths| && j < |paths[i].methods| && exists place :: PointsAt(paths[i].methods[j].value, place, name)
  }

  /** The search starts from the names that some operation of a kept path refers to. */
  lemma RootsAreReferences(paths: seq<PathEntry>, name: string)
    ensures name in PathRefs(paths) <==> exists i: nat, j: nat :: PathPointsTo(paths, i, j, name)
  {
    hide PointsAt, Refs;
    if name in PathRefs(paths) {
      var i: nat, j: nat :| i < |paths| && j < |paths[i].methods| && name in Refs(paths[i].methods[j].value);
      CollectedIff(paths[i].methods[j].value, name);
      assert PathPointsTo(paths, i, j, name);
    }
    if i: nat, j: nat :| PathPointsTo(paths, i, j, name) { CollectedIff(paths[i].methods[j].value, name); }
  }

  /******* Schemas: reachability through reference chains *******/

  ghost predicate IsChain(schemas: map<string, Json>, chain: seq<string>) {
    forall i :: 0 <= i < |chain| - 1 ==> chain[i] in schemas && chain[i + 1] in Refs(schemas[chain[i]])
  }

  ghost predicate ChainTo(schemas: map<string, Json>, roots: set<string>, chain: seq<string>, n: string) {
    chain != [] && chain[0] in roots && chain[|chain| - 1] == n && IsChain(schemas, chain)
  }

  /** Some chain of references leads from a root to `n`. */
  ghost predicate Reaches(schemas: map<string, Json>, roots: set<string>, n: string) {
    exists chain :: ChainTo(schemas, roots, chain, n)
  }

  /** References inside members that exist lead to members again. */
  ghost predicate Closed(schemas: map<string, Json>, names: set<string>) {
    forall n :: n in names && n in schemas ==> Refs(schemas[n]) <= names
  }

  lemma RootReaches(schemas: map<string, Json>, roots: set<string>, n: string)
    requires n in roots
    ensures Reaches(schemas, roots, n)
  {
    assert ChainTo(schemas, roots, [n], n);
  }

  lemma RefReaches(schemas: map<string, Json>, roots: set<string>, n: string, r: string)
    requires Reaches(schemas, roots, n) && n in schemas && r in Refs(schemas[n])
    ensures Reaches(schemas, roots, r)
  {
    var chain :| ChainTo(schemas, roots, chain, n);
    assert ChainTo(schemas, roots, chain + [r], r);
  }

  lemma {:induction false} ClosedHoldsChain(schemas: map<string, Json>, names: set<string>, chain: seq<string>)
    requires Closed(schemas, names) && IsChain(schemas, chain) && chain != [] && chain[0] in names
    ensures chain[|chain| - 1] in names
  {
    if |chain| > 1 {
      assert chain[0] in schemas && chain[0 + 1] in Refs(schemas[chain[0]]);
      forall i | 0 <= i < |chain[1..]| - 1 ensures chain[1..][i] in schemas && chain[1..][i + 1] in Refs(schemas[chain[1..][i]]) {
        assert chain[i + 1] in schemas && chain[i + 1 + 1] in Refs(schemas[chain[i + 1]]);
      }
      ClosedHoldsChain(schemas, names, chain[1..]);
    }
  }

  ghost function AllRefs(schemas: map<string, Json>): set<string> {
    set n, r | n in schemas && r in Refs(schemas[n]) :: r
  }

  /** The worklist: pops a name, and queues what its schema references for the first time. */
  method NeededSchemas(schemas: map<string, Json>, roots: set<string>) returns (needed: set<string>)
    ensures forall n :: n in needed <==> Reaches(schemas, roots, n)
  {
    hide Refs, Reaches;
    needed := roots;
    var queue := ListOf(roots);
    ghost var universe := roots + AllRefs(schemas);
    forall n | n in roots ensures Reaches(schemas, roots, n) { RootReaches(schemas, roots, n); }
    while queue != []
      invariant roots <= needed <= universe
      invariant forall n :: n in queue ==> n in needed
      invariant forall n :: n in needed ==> Reaches(schemas, roots, n)
      invariant forall n :: n in needed && n in schemas && n !in queue ==> Refs(schemas[n]) <= needed
      decreases universe - needed, |queue|
    {
      var name := queue[|queue| - 1];
      ghost var before, popped := queue, queue[..|queue| - 1];
      queue := queue[..|queue| - 1];
      assert before == popped + [name];
      if name in schemas {
        var found := Refs(schemas[name]);
        var fresh_ := ListOf(found - needed);
        forall r | r in found ensures Reaches(schemas, roots, r) { RefReaches(schemas, roots, name, r); }
        assert found <= universe;
        queue := queue + fresh_;
        if fresh_ != [] {
          assert fresh_[0] in fresh_;
          assert fresh_[0] in universe - needed;
          assert needed < needed + found;
        }
        needed := needed + found;
      }
    }
    forall n | Reaches(schemas, roots, n) ensures n in needed { ClosedHoldsReached(schemas, needed, roots, n); }
  }

  lemma ClosedHoldsReached(schemas: map<string, Json>, names: set<string>, roots: set<string>, n: string)
    requires Closed(schemas, names) && roots <= names && Reaches(schemas, roots, n)
    ensures n in names
  {
    var chain :| ChainTo(schemas, roots, chain, n);
    ClosedHoldsChain(schemas, names, chain);
  }

  method ListOf(names: set<string>) returns (order: seq<string>)
    ensures forall n :: n in order <==> n in names
  {
    order := [];
    var todo := names;
    while todo != {}
      invariant todo <= names && forall n :: n in order <==> n in names - todo
    {
      var n :| n in todo;
      order := order + [n];
      todo := todo - {n};
    }
  }

  /** The schemas of `schemas` that some chain from `roots` reaches. */
  ghost function KeptSchemas(schemas: map<string, Json>, roots: set<string>): map<string, Json> {
    map n | n in schemas && Reaches(schemas, roots, n) :: schemas[n]
  }

  method FilterSpec(spec: Spec, tags: set<string>) returns (filtered: Spec)
    ensures filtered.paths == KeptPaths(spec.paths, tags)
    ensures filtered.schemas == KeptSchemas(spec.schemas, PathRefs(filtered.paths))
    ensures filtered.otherComponents == spec.otherComponents && filtered.rest == spec.rest
  {
    var paths := FilterPaths(spec.paths, tags);
    var needed := NeededSchemas(spec.schemas, PathRefs(paths));
    filtered := Spec(paths, map n | n in needed && n in spec.schemas :: spec.schemas[n], spec.otherComponents, spec.rest);
  }

  /******* Main results *******/

  /** No reference in kept paths or kept schemas points to a schema that exists but was dropped. */
  lemma NothingDangles(schemas: map<string, Json>, roots: set<string>, r: string)
    requires r in schemas
    ensures r in roots ==> r in KeptSchemas(schemas, roots)
    ensures forall n :: n in KeptSchemas(schemas, roots) && r in Refs(KeptSchemas(schemas, roots)[n]) ==>
              r in KeptSchemas(schemas, roots)
  {
    if r in roots { RootReaches(schemas, roots, r); }
    forall n | n in KeptSchemas(schemas, roots) && r in Refs(KeptSchemas(schemas, roots)[n])
      ensures r in KeptSchemas(schemas, roots)
    {
      RefReaches(schemas, roots, n, r);
    }
  }

  /** Any self-contained set of schemas that serves the kept paths has all kept schemas: they are the least one. */
  lemma KeptIsLeast(schemas: map<string, Json>, roots: set<string>, names: set<string>)
    requires forall r :: r in roots && r in schemas ==> r in names
    requires forall n, r :: n in names && n in schemas && r in Refs(schemas[n]) && r in schemas ==> r in names
    ensures KeptSchemas(schemas, roots).Keys <= names
  {
    // Add the names that no schema has, which closes the set under all references.
    var all := names + (roots - schemas.Keys) + (AllRefs(schemas) - schemas.Keys);
    forall n | n in KeptSchemas(schemas, roots) ensures n in names {
      forall m, r | m in all && m in schemas && r in Refs(schemas[m]) ensures r in all {
        assert r in AllRefs(schemas);
      }
      ClosedHoldsReached(schemas, all, roots, n);
    }
  }

  lemma {:induction false} ChainSurvives(schemas: map<string, Json>, roots: set<string>, chain: seq<string>, n: string, k: nat)
    requires ChainTo(schemas, roots, chain, n) && k < |chain|
    ensures ChainTo(schemas, roots, chain[..k + 1], chain[k])
  {
  }

  /** Filtering schemas again with the same roots changes nothing. */
  lemma KeptTwice(schemas: map<string, Json>, roots: set<string>)
    ensures KeptSchemas(KeptSchemas(schemas, roots), roots) == KeptSchemas(schemas, roots)
  {
    hide Refs;
    var kept := KeptSchemas(schemas, roots);
    forall n | n in kept ensures Reaches(kept, roots, n) {
      var chain :| ChainTo(schemas, roots, chain, n);
      forall i | 0 <= i < |chain| - 1 ensures chain[i] in kept && chain[i + 1] in Refs(kept[chain[i]]) {
        ChainSurvives(schemas, roots, chain, n, i);
      }
      assert ChainTo(kept, roots, chain, n);
    }
  }

  /** Kept operations are exactly the tagged ones, in order, and a path is kept iff it has one. */
  lemma {:induction false} KeptMethodsMeaning(methods: seq<Member>, tags: set<string>, m: Member)
    ensures m in KeptMethods(methods, tags) <==> m in methods && KeepsOperation(m.value, tags)
  {
    hide KeepsOperation;
    if methods != [] {
      KeptMethodsMeaning(methods[..|methods| - 1], tags, m);
      assert methods == methods[..|methods| - 1] + [methods[|methods| - 1]];
    }
  }

  lemma {:induction false} MethodsKeptTwice(methods: seq<Member>, tags: set<string>)
    ensures KeptMethods(KeptMethods(methods, tags), tags) == KeptMethods(methods, tags)
  {
    hide KeepsOperation;
    if methods != [] {
      MethodsKeptTwice(methods[..|methods| - 1], tags);
      var kept := KeptMethods(methods[..|methods| - 1], tags);
      var last := methods[|methods| - 1];
      assert (kept + [last])[..|kept + [last]| - 1] == kept;
      assert kept + [] == kept;
    }
  }

  /** Filtering twice with the same tags is filtering once. */
  lemma {:induction false} PathsKeptTwice(paths: seq<PathEntry>, tags: set<string>)
    ensures KeptPaths(KeptPaths(paths, tags), tags) == KeptPaths(paths, tags)
  {
    if paths != [] {
      var last := paths[|paths| - 1];
      PathsKeptTwice(paths[..|paths| - 1], tags);
      MethodsKeptTwice(last.methods, tags);
      var kept := KeptPaths(paths[..|paths| - 1], tags);
      var entry := PathEntry(last.path, KeptMethods(last.methods, tags));
      assert (kept + [entry])[..|kept + [entry]| - 1] == kept;
      assert kept + [] == kept;
    }
  }
}
