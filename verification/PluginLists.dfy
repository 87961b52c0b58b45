/** The categories of plugins. */
module PluginKinds {

  datatype Category = Authentication | Authorization | RateLimiting | Validation | Content | Observability | Audit
                    | Unknown(text: string)
}

/** Lists of plugins: finding, removing, inserting, and moving one element. */
module PluginLists {
  import opened Options

  datatype PluginEntry = PluginEntry(name: string, commitHash: Option<string>, required: Option<bool>, flows: seq<string>)

  predicate Distinct(items: seq<PluginEntry>) {
    forall i, j :: 0 <= i < j < |items| ==> items[i].name != items[j].name
  }

  predicate Has(items: seq<PluginEntry>, name: string) {
    exists i :: 0 <= i < |items| && items[i].name == name
  }

  /** The first position of a name, or -1. */
  function IndexOf(items: seq<PluginEntry>, name: string): (r: int)
    ensures -1 <= r < |items|
    ensures r < 0 <==> !Has(items, name)
    ensures r >= 0 ==> items[r].name == name && forall i :: 0 <= i < r ==> items[i].name != name
  {
    if items == [] then -1
    else if items[0].name == name then 0
    else
      var rest := IndexOf(items[1..], name);
      assert forall i :: 0 < i < |items| ==> items[i] == items[1..][i - 1];
      assert rest >= 0 ==> items[rest + 1] == items[1..][rest];
      if rest < 0 then -1 else rest + 1
  }

  method FindPluginIndex(items: seq<PluginEntry>, name: string) returns (r: int)
    ensures r == IndexOf(items, name)
  {
    for i := 0 to |items|
      invariant forall j :: 0 <= j < i ==> items[j].name != name
    {
      if items[i].name == name { return i; }
    }
    return -1;
  }

  function RemoveAt(items: seq<PluginEntry>, i: nat): seq<PluginEntry>
    requires i < |items|
  {
    items[..i] + items[i + 1..]
  }

  function InsertAt(items: seq<PluginEntry>, i: nat, entry: PluginEntry): seq<PluginEntry>
    requires i <= |items|
  {
    items[..i] + [entry] + items[i..]
  }

  /** The entries with other names, in order. */
  function Without(items: seq<PluginEntry>, name: string): seq<PluginEntry> {
    if items == [] then []
    else (if items[0].name == name then [] else [items[0]]) + Without(items[1..], name)
  }

  lemma {:induction false} WithoutConcat(a: seq<PluginEntry>, b: seq<PluginEntry>, name: string)
    ensures Without(a + b, name) == Without(a, name) + Without(b, name)
  {
    if a == [] {
      assert a + b == b;
    } else {
      assert (a + b)[1..] == a[1..] + b;
      WithoutConcat(a[1..], b, name);
    }
  }

  lemma {:induction false} WithoutAbsent(items: seq<PluginEntry>, name: string)
    requires !Has(items, name)
    ensures Without(items, name) == items
  {
    if items != [] {
      assert items[0].name != name;
      assert !Has(items[1..], name);
      WithoutAbsent(items[1..], name);
    }
  }

  lemma WithoutOnly(entry: PluginEntry)
    ensures Without([entry], entry.name) == []
  {
  }

  lemma WithoutInserted(items: seq<PluginEntry>, i: nat, entry: PluginEntry)
    requires i <= |items| && !Has(items, entry.name)
    ensures Without(InsertAt(items, i, entry), entry.name) == items
  {
    hide Has, Without;
    WithoutConcat(items[..i] + [entry], items[i..], entry.name);
    WithoutConcat(items[..i], [entry], entry.name);
    WithoutConcat(items[..i], items[i..], entry.name);
    assert items[..i] + items[i..] == items;
    WithoutAbsent(items, entry.name);
    WithoutOnly(entry);
    assert Without(items[..i], entry.name) + [] == Without(items[..i], entry.name);
  }

  lemma InsertRemoved(items: seq<PluginEntry>, i: nat)
    requires i < |items|
    ensures InsertAt(RemoveAt(items, i), i, items[i]) == items
  {
  }

  lemma RemovedLacks(items: seq<PluginEntry>, i: nat)
    requires i < |items| && Distinct(items)
    ensures !Has(RemoveAt(items, i), items[i].name) && Distinct(RemoveAt(items, i))
  {
  }

  lemma WithoutRemoves(items: seq<PluginEntry>, i: nat)
    requires i < |items| && Distinct(items)
    ensures Without(items, items[i].name) == RemoveAt(items, i)
  {
    hide Has;
    RemovedLacks(items, i);
    InsertRemoved(items, i);
    WithoutInserted(RemoveAt(items, i), i, items[i]);
  }

  lemma InsertedDistinct(items: seq<PluginEntry>, i: nat, entry: PluginEntry)
    requires i <= |items| && Distinct(items) && !Has(items, entry.name)
    ensures Distinct(InsertAt(items, i, entry))
  {
  }

  /** The element at `from` taken out and put back at position `to` of the shortened list. */
  function Moved(items: seq<PluginEntry>, from: nat, to: nat): seq<PluginEntry>
    requires from < |items| && to < |items|
  {
    InsertAt(RemoveAt(items, from), to, items[from])
  }

  /** Where the element at `k` is after the move. */
  function Landing(from: nat, to: nat, k: nat): nat {
    if k == from then to else
    var shifted := if k > from then k - 1 else k;
    if shifted >= to then shifted + 1 else shifted
  }

  lemma LandsAt(items: seq<PluginEntry>, from: nat, to: nat, k: nat)
    requires from < |items| && to < |items| && k < |items|
    ensures Landing(from, to, k) < |items| && Moved(items, from, to)[Landing(from, to, k)] == items[k]
  {
  }

  /** A reordering of `items` that keeps the relative order of everything but `name`. */
  predicate OnlyMoves(items: seq<PluginEntry>, moved: seq<PluginEntry>, name: string) {
    Distinct(moved) && multiset(moved) == multiset(items) && Without(moved, name) == Without(items, name)
  }

  lemma InsertedMultiset(items: seq<PluginEntry>, i: nat, entry: PluginEntry)
    requires i <= |items|
    ensures multiset(InsertAt(items, i, entry)) == multiset(items) + multiset{entry}
  {
    assert items == items[..i] + items[i..];
  }

  lemma MovedMultiset(items: seq<PluginEntry>, from: nat, to: nat)
    requires from < |items| && to < |items|
    ensures multiset(Moved(items, from, to)) == multiset(items)
  {
    hide InsertAt, RemoveAt;
    RemovedLength(items, from);
    InsertedMultiset(RemoveAt(items, from), to, items[from]);
    InsertRemoved(items, from);
    InsertedMultiset(RemoveAt(items, from), from, items[from]);
  }

  lemma MoveOnlyMoves(items: seq<PluginEntry>, from: nat, to: nat)
    requires from < |items| && to < |items| && Distinct(items)
    ensures OnlyMoves(items, Moved(items, from, to), items[from].name)
  {
    hide Has, Distinct, Without, RemoveAt, InsertAt;
    var rest := RemoveAt(items, from);
    RemovedLength(items, from);
    RemovedLacks(items, from);
    InsertedDistinct(rest, to, items[from]);
    WithoutInserted(rest, to, items[from]);
    WithoutRemoves(items, from);
    MovedMultiset(items, from, to);
  }

  lemma RemovedLength(items: seq<PluginEntry>, i: nat)
    requires i < |items|
    ensures |RemoveAt(items, i)| == |items| - 1
  {
  }

  lemma DistinctIndex(items: seq<PluginEntry>, i: nat)
    requires i < |items| && Distinct(items)
    ensures IndexOf(items, items[i].name) == i
  {
  }
}
