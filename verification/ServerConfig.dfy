/** Sorting of string slices, and comparison of slices without regard to order. */
module SortedStrings {

  predicate LessEq(a: string, b: string) {
    a == [] || (b != [] && (a[0] < b[0] || (a[0] == b[0] && LessEq(a[1..], b[1..]))))
  }

  function Insert(x: string, s: seq<string>): seq<string> {
    if s == [] || LessEq(x, s[0]) then [x] + s else [s[0]] + Insert(x, s[1..])
  }

  function Sort(s: seq<string>): seq<string> {
    if s == [] then [] else Insert(s[0], Sort(s[1..]))
  }

  /** Equal lengths and equal sorted clones. */
  predicate EqualUnordered(a: seq<string>, b: seq<string>) {
    |a| == |b| && Sort(a) == Sort(b)
  }

  predicate IsSorted(s: seq<string>) {
    |s| > 1 ==> LessEq(s[0], s[1]) && IsSorted(s[1..])
  }

  lemma {:induction false} LessEqTotal(a: string, b: string)
    ensures LessEq(a, b) || LessEq(b, a)
    ensures LessEq(a, b) && LessEq(b, a) ==> a == b
  {
    if a != [] && b != [] && a[0] == b[0] {
      LessEqTotal(a[1..], b[1..]);
      assert a == [a[0]] + a[1..] && b == [b[0]] + b[1..];
    }
  }

  lemma {:induction false} LessEqTransitive(a: string, b: string, c: string)
    requires LessEq(a, b) && LessEq(b, c)
    ensures LessEq(a, c)
  {
    if a != [] && a[0] == b[0] == c[0] {
      LessEqTransitive(a[1..], b[1..], c[1..]);
    }
  }

  lemma {:induction false} InsertSorts(x: string, s: seq<string>)
    requires IsSorted(s)
    ensures IsSorted(Insert(x, s)) && multiset(Insert(x, s)) == multiset(s) + multiset{x}
  {
    hide LessEq;
    if s != [] && !LessEq(x, s[0]) {
      LessEqTotal(x, s[0]);
      InsertSorts(x, s[1..]);
      assert s == [s[0]] + s[1..];
      assert Insert(x, s)[1..] == Insert(x, s[1..]);
    } else {
      assert ([x] + s)[1..] == s;
    }
  }

  lemma {:induction false} SortSorts(s: seq<string>)
    ensures IsSorted(Sort(s)) && multiset(Sort(s)) == multiset(s)
  {
    if s != [] {
      SortSorts(s[1..]);
      InsertSorts(s[0], Sort(s[1..]));
      assert s == [s[0]] + s[1..];
    }
  }

  lemma {:induction false} HeadIsLeast(s: seq<string>, x: string)
    requires IsSorted(s) && x in s
    ensures LessEq(s[0], x)
  {
    if x == s[0] {
      LessEqTotal(x, x);
    } else {
      assert x in s[1..];
      HeadIsLeast(s[1..], x);
      LessEqTransitive(s[0], s[1], x);
    }
  }

  lemma {:induction false} SortedUnique(a: seq<string>, b: seq<string>)
    requires IsSorted(a) && IsSorted(b) && multiset(a) == multiset(b)
    ensures a == b
  {
    hide LessEq;
    assert |a| == |multiset(a)| == |multiset(b)| == |b|;
    if a != [] {
      assert a[0] in multiset(b) && b[0] in multiset(a);
      HeadIsLeast(a, b[0]);
      HeadIsLeast(b, a[0]);
      LessEqTotal(a[0], b[0]);
      TailMultiset(a);
      TailMultiset(b);
      SortedUnique(a[1..], b[1..]);
    }
  }

  lemma TailMultiset(s: seq<string>)
    requires s != []
    ensures s == [s[0]] + s[1..] && multiset(s[1..]) == multiset(s) - multiset{s[0]}
  {
    assert s == [s[0]] + s[1..];
  }

  /** Comparing sorted clones is comparing multisets. */
  lemma EqualUnorderedIsMultisetEquality(a: seq<string>, b: seq<string>)
    ensures EqualUnordered(a, b) <==> multiset(a) == multiset(b)
  {
    SortSorts(a);
    SortSorts(b);
    if multiset(a) == multiset(b) {
      SortedUnique(Sort(a), Sort(b));
      assert |a| == |multiset(a)| == |multiset(b)| == |b|;
    }
  }
}

/**
 A server as the daemon sees it: its static entry, its runtime execution context and the resolved
 volumes, with the comparisons that decide what a reload has to do.
 */
module ServerConfig {
  import opened SortedStrings

  datatype VolumeEntry = VolumeEntry(path: string, required: bool)

  datatype ServerEntry = ServerEntry(
    name: string,
    package: string,
    tools: seq<string>,
    requiredEnvVars: seq<string>,
    requiredPositionalArgs: seq<string>,
    requiredValueArgs: seq<string>,
    requiredBoolArgs: seq<string>,
    volumes: map<string, VolumeEntry>
  )

  datatype ExecutionContext = ExecutionContext(
    name: string,
    args: seq<string>,
    env: map<string, string>,
    volumes: map<string, string>,
    rawArgs: seq<string>,
    rawEnv: map<string, string>,
    rawVolumes: map<string, string>
  )

  /** The volumes a container is started with, combined from the entry and the context. */
  datatype Volume = Volume(entry: VolumeEntry, name: string, from: string)

  datatype Server = Server(entry: ServerEntry, context: ExecutionContext, volumes: seq<Volume>)

  /******* The comparisons, in the order the code makes them *******/

  predicate EntryEquals(a: ServerEntry, b: ServerEntry) {
    && a.name == b.name
    && a.package == b.package
    && a.requiredPositionalArgs == b.requiredPositionalArgs
    && EqualUnordered(a.tools, b.tools)
    && EqualUnordered(a.requiredEnvVars, b.requiredEnvVars)
    && EqualUnordered(a.requiredValueArgs, b.requiredValueArgs)
    && EqualUnordered(a.requiredBoolArgs, b.requiredBoolArgs)
  }

  predicate EntryEqualExceptTools(a: ServerEntry, b: ServerEntry) {
    EntryEquals(a, b.(tools := a.tools)) && !EqualUnordered(a.tools, b.tools)
  }

  predicate ContextEquals(a: ExecutionContext, b: ExecutionContext) {
    && a.name == b.name
    && EqualUnordered(a.args, b.args)
    && a.env == b.env
    && a.volumes == b.volumes
    && EqualUnordered(a.rawArgs, b.rawArgs)
    && a.rawEnv == b.rawEnv
    && a.rawVolumes == b.rawVolumes
  }

  predicate Equals(a: Server, b: Server) {
    EntryEquals(a.entry, b.entry) && ContextEquals(a.context, b.context)
  }

  predicate EqualsExceptTools(a: Server, b: Server) {
    ContextEquals(a.context, b.context) && EntryEqualExceptTools(a.entry, b.entry)
  }

  /** An entry behind a pointer, as the comparison that borrows the other entry's tools sees it. */
  class EntryCell {
    var entry: ServerEntry

    constructor (entry: ServerEntry)
      ensures this.entry == entry
    {
      this.entry := entry;
    }

    /** Overwrites the other entry's tools for the comparison and restores them, also when aliased. */
    method EqualExceptTools(other: EntryCell) returns (equal: bool)
      modifies other
      ensures other.entry == old(other.entry)
      ensures equal == EntryEqualExceptTools(old(entry), old(other.entry))
    {
      var otherTools := other.entry.tools;
      other.entry := other.entry.(tools := entry.tools);
      var equalIgnoringTools := EntryEquals(entry, other.entry);
      other.entry := other.entry.(tools := otherTools);
      equal := equalIgnoringTools && !EqualUnordered(entry.tools, other.entry.tools);
    }
  }

  /******* What the comparisons mean *******/

  /** Same launch configuration: everything the comparisons look at, except the tools. */
  ghost predicate SameLaunch(a: Server, b: Server) {
    && a.entry.name == b.entry.name
    && a.entry.package == b.entry.package
    && a.entry.requiredPositionalArgs == b.entry.requiredPositionalArgs
    && multiset(a.entry.requiredEnvVars) == multiset(b.entry.requiredEnvVars)
    && multiset(a.entry.requiredValueArgs) == multiset(b.entry.requiredValueArgs)
    && multiset(a.entry.requiredBoolArgs) == multiset(b.entry.requiredBoolArgs)
    && a.context.name == b.context.name
    && multiset(a.context.args) == multiset(b.context.args)
    && multiset(a.context.rawArgs) == multiset(b.context.rawArgs)
    && a.context.env == b.context.env && a.context.rawEnv == b.context.rawEnv
    && a.context.volumes == b.context.volumes && a.context.rawVolumes == b.context.rawVolumes
  }

  ghost predicate SameTools(a: Server, b: Server) {
    multiset(a.entry.tools) == multiset(b.entry.tools)
  }

  lemma ComparisonsMean(a: Server, b: Server)
    ensures Equals(a, b) <==> SameLaunch(a, b) && SameTools(a, b)
    ensures EqualsExceptTools(a, b) <==> SameLaunch(a, b) && !SameTools(a, b)
  {
    hide EqualUnordered;
    EqualUnorderedIsMultisetEquality(a.entry.tools, b.entry.tools);
    EqualUnorderedIsMultisetEquality(a.entry.tools, a.entry.tools);
    EqualUnorderedIsMultisetEquality(a.entry.requiredEnvVars, b.entry.requiredEnvVars);
    EqualUnorderedIsMultisetEquality(a.entry.requiredValueArgs, b.entry.requiredValueArgs);
    EqualUnorderedIsMultisetEquality(a.entry.requiredBoolArgs, b.entry.requiredBoolArgs);
    EqualUnorderedIsMultisetEquality(a.context.args, b.context.args);
    EqualUnorderedIsMultisetEquality(a.context.rawArgs, b.context.rawArgs);
  }

  /** A server without what the comparisons ignore: its tools, its volumes, and the order of all lists but one. */
  ghost function Stripped(s: Server): Server {
    Server(
      s.entry.(tools := [], volumes := map[], requiredEnvVars := Sort(s.entry.requiredEnvVars),
               requiredValueArgs := Sort(s.entry.requiredValueArgs), requiredBoolArgs := Sort(s.entry.requiredBoolArgs)),
      s.context.(args := Sort(s.context.args), rawArgs := Sort(s.context.rawArgs)),
      [])
  }

  /** Nothing else is ignored. */
  lemma SameLaunchIff(a: Server, b: Server)
    ensures SameLaunch(a, b) <==> Stripped(a) == Stripped(b)
  {
    hide Sort;
    SortsAlike(a.entry.requiredEnvVars, b.entry.requiredEnvVars);
    SortsAlike(a.entry.requiredValueArgs, b.entry.requiredValueArgs);
    SortsAlike(a.entry.requiredBoolArgs, b.entry.requiredBoolArgs);
    SortsAlike(a.context.args, b.context.args);
    SortsAlike(a.context.rawArgs, b.context.rawArgs);
  }

  lemma SortsAlike(a: seq<string>, b: seq<string>)
    ensures Sort(a) == Sort(b) <==> multiset(a) == multiset(b)
  {
    hide Sort, IsSorted;
    EqualUnorderedIsMultisetEquality(a, b);
    SortSorts(a);
    SortSorts(b);
    assert |multiset(a)| == |a| && |multiset(b)| == |b|;
  }

  /** The static volumes of an entry, and so the resolved volumes, are never compared. */
  lemma VolumesNotCompared(a: Server, volumes: map<string, VolumeEntry>, resolved: seq<Volume>)
    ensures Equals(a, Server(a.entry.(volumes := volumes), a.context, resolved))
  {
    ComparisonsMean(a, Server(a.entry.(volumes := volumes), a.context, resolved));
  }

  /** A change of the runtime arguments goes unnoticed exactly when it only reorders them, positional ones included. */
  lemma ReorderingNotNoticed(a: Server, args: seq<string>)
    ensures Equals(a, a.(context := a.context.(args := args))) <==> multiset(args) == multiset(a.context.args)
  {
    ComparisonsMean(a, a.(context := a.context.(args := args)));
  }

  ghost predicate Reorders(other: seq<string>, args: seq<string>) {
    multiset(other) == multiset(args)
  }

  /** The comparison of a list finds every change. */
  ghost predicate NoticesAll(args: seq<string>) {
    forall other :: Reorders(other, args) ==> other == args
  }

  /** So an unchanged server surely has the configured argument list exactly when no two of its arguments differ. */
  lemma NoticesAllIff(args: seq<string>)
    ensures NoticesAll(args) <==> forall i, j :: 0 <= i < j < |args| ==> args[i] == args[j]
  {
    if forall i, j :: 0 <= i < j < |args| ==> args[i] == args[j] {
      forall other | Reorders(other, args) ensures other == args { SameEverywhere(args, other); }
    } else {
      var i, j :| 0 <= i < j < |args| && args[i] != args[j];
      SwapKeepsMultiset(args, i, j);
      var other := args[i := args[j]][j := args[i]];
      assert Reorders(other, args) && other[i] != args[i];
    }
  }

  lemma SameEverywhere(args: seq<string>, other: seq<string>)
    requires multiset(other) == multiset(args)
    requires forall i, j :: 0 <= i < j < |args| ==> args[i] == args[j]
    ensures other == args
  {
    assert |multiset(other)| == |multiset(args)|;
    forall k | 0 <= k < |other| ensures other[k] == args[k] {
      assert other[k] in multiset(other);
      assert other[k] in args;
      var m :| 0 <= m < |args| && args[m] == other[k];
    }
  }

  lemma SwapKeepsMultiset(s: seq<string>, i: nat, j: nat)
    requires i < j < |s|
    ensures multiset(s[i := s[j]][j := s[i]]) == multiset(s)
  {
    var a, b, c := s[..i], s[i + 1..j], s[j + 1..];
    assert s == a + [s[i]] + b + [s[j]] + c;
    assert s[i := s[j]][j := s[i]] == a + [s[j]] + b + [s[i]] + c;
  }
}
