/** The plugin configuration: an ordered list of plugins per category, and the operations that edit it. */
module PluginConfigs {
  import opened Options
  import opened Strings
  import opened PluginKinds
  import opened PluginLists

  const FLOWS := {"request", "response"}

  datatype Error = EmptyName | InvalidEntry | UnknownCategory | NotFound | TargetNotFound | AlreadyThere | InvalidPosition
                 | NoOperation

  datatype Outcome = Noop | Updated | Created | Deleted | Failed(error: Error) | Panicked

  /******* Entries *******/

  function FlowSet(flows: seq<string>): set<string> {
    set f | f in flows
  }

  predicate SameEntry(a: PluginEntry, b: PluginEntry) {
    a.name == b.name && a.commitHash == b.commitHash && a.required == b.required &&
    |FlowSet(a.flows)| == |FlowSet(b.flows)| && forall f :: f in FlowSet(a.flows) ==> f in FlowSet(b.flows)
  }

  predicate ValidEntry(e: PluginEntry) {
    TrimSpace(e.name) != "" && e.flows != [] && (forall f :: f in e.flows ==> f in FLOWS) &&
    forall i, j :: 0 <= i < j < |e.flows| ==> e.flows[i] != e.flows[j]
  }

  lemma {:induction false} SameCardinality(a: set<string>, b: set<string>)
    requires a <= b && |a| == |b|
    ensures a == b
  {
    if a != {} {
      var x :| x in a;
      SameCardinality(a - {x}, b - {x});
    }
  }

  /** Entries count as the same exactly when they differ at most in the order and repetition of their flows. */
  lemma SameEntryMeans(a: PluginEntry, b: PluginEntry)
    ensures SameEntry(a, b) <==> a.(flows := b.flows) == b && FlowSet(a.flows) == FlowSet(b.flows)
  {
    if SameEntry(a, b) { SameCardinality(FlowSet(a.flows), FlowSet(b.flows)); }
  }

  /******* One list *******/

  datatype Place = AtPlace | Before(target: string) | After(target: string) | Position(position: int)

  datatype Change = Change(items: seq<PluginEntry>, outcome: Outcome)

  const ZERO := PluginEntry("", None, None, [])

  /**
    * Deletes the element and inserts it into the shortened list. An insertion point past its end panics, after
    * the deletion has shifted the elements and cleared the last slot.
    */
  function Relocate(items: seq<PluginEntry>, from: nat, to: nat): Change
    requires from < |items|
  {
    if to < |items| then Change(Moved(items, from, to), Updated) else Change(RemoveAt(items, from) + [ZERO], Panicked)
  }

  function AfterChange(items: seq<PluginEntry>, name: string, target: string): Change {
    if |items| <= 1 then Change(items, Noop) else
    var s, t := IndexOf(items, name), IndexOf(items, target);
    if s < 0 then Change(items, Failed(NotFound))
    else if t < 0 then Change(items, Failed(TargetNotFound))
    else if s == t + 1 then Change(items, Noop)
    else Relocate(items, s, (if s < t then t - 1 else t) + 1)
  }

  function BeforeChange(items: seq<PluginEntry>, name: string, target: string): Change {
    if |items| <= 1 then Change(items, Noop) else
    var s, t := IndexOf(items, name), IndexOf(items, target);
    if s < 0 then Change(items, Failed(NotFound))
    else if t < 0 then Change(items, Failed(TargetNotFound))
    else if s == t - 1 then Change(items, Noop)
    else Relocate(items, s, if s < t then t - 1 else t)
  }

  /** The slot, counted from zero, that a position asks for; None when the position is invalid. */
  function Slot(position: int, n: nat): Option<nat>
    requires n > 0
  {
    if position == -1 || position > n then Some(n - 1) else if position < 1 then None else Some(position - 1)
  }

  function PositionChange(items: seq<PluginEntry>, name: string, position: int): Change {
    var n := |items|;
    if n <= 1 then Change(items, Noop) else
    var s := IndexOf(items, name);
    if s < 0 then Change(items, Failed(NotFound))
    else if Slot(position, n).None? then Change(items, Failed(InvalidPosition))
    else
      var t := Slot(position, n).value;
      if s == t then Change(items, Noop)
      else if position == -1 || position >= n then Relocate(items, s, n - 1)
      else Relocate(items, s, if s < t then t - 1 else t)
  }

  function PlaceChange(items: seq<PluginEntry>, name: string, place: Place): Change {
    match place
    case AtPlace => Change(items, Failed(NoOperation))
    case Before(target) => BeforeChange(items, name, target)
    case After(target) => AfterChange(items, name, target)
    case Position(position) => PositionChange(items, name, position)
  }

  function UpsertChange(items: seq<PluginEntry>, entry: PluginEntry): Change {
    var i := IndexOf(items, entry.name);
    if i < 0 then Change(items + [entry], Created)
    else if SameEntry(items[i], entry) then Change(items, Noop)
    else Change(items[i := entry], Updated)
  }

  function DeleteChange(items: seq<PluginEntry>, name: string): Change {
    var i := IndexOf(items, name);
    if i < 0 then Change(items, Failed(NotFound)) else Change(RemoveAt(items, i), Deleted)
  }

  /******* All lists *******/

  type Table = map<Category, seq<PluginEntry>>

  ghost predicate ValidTable(t: Table) {
    forall c :: c in t <==> Known(c)
  }

  predicate Known(c: Category) {
    !c.Unknown?
  }

  datatype Next = Next(table: Table, outcome: Outcome)

  datatype Op = Upsert(category: Category, entry: PluginEntry)
              | Delete(category: Category, name: string)
              | Reorder(category: Category, name: string, place: Place)
              | ToCategory(category: Category, name: string, to: Category, force: bool)

  function Store(t: Table, c: Category, change: Change): Next {
    Next(t[c := change.items], change.outcome)
  }

  function UpsertNext(t: Table, c: Category, entry: PluginEntry): Next
    requires ValidTable(t)
  {
    var e := entry.(name := TrimSpace(entry.name));
    if e.name == "" then Next(t, Failed(EmptyName))
    else if !ValidEntry(e) then Next(t, Failed(InvalidEntry))
    else if !Known(c) then Next(t, Failed(UnknownCategory))
    else Store(t, c, UpsertChange(t[c], e))
  }

  function DeleteNext(t: Table, c: Category, name: string): Next
    requires ValidTable(t)
  {
    if TrimSpace(name) == "" then Next(t, Failed(EmptyName))
    else if !Known(c) then Next(t, Failed(UnknownCategory))
    else Store(t, c, DeleteChange(t[c], TrimSpace(name)))
  }

  function ReorderNext(t: Table, c: Category, name: string, place: Place): Next
    requires ValidTable(t)
  {
    if place.AtPlace? then Next(t, Failed(NoOperation))
    else if !Known(c) then Next(t, Failed(UnknownCategory))
    else Store(t, c, PlaceChange(t[c], name, place))
  }

  /** Removes from the source, then the namesake from the target, then appends; source and target may be one list. */
  function ToCategoryNext(t: Table, c: Category, name: string, to: Category, force: bool): Next
    requires ValidTable(t)
  {
    if !Known(c) then Next(t, Failed(UnknownCategory)) else
    var s := IndexOf(t[c], name);
    if s < 0 then Next(t, Failed(NotFound))
    else if !Known(to) then Next(t, Failed(UnknownCategory))
    else
      var existing := IndexOf(t[to], name);
      if existing >= 0 && !force then Next(t, Failed(AlreadyThere)) else
      var entry := t[c][s];
      var removed := t[c := RemoveAt(t[c], s)];
      if existing < 0 then Next(removed[to := removed[to] + [entry]], Updated)
      else if existing < |removed[to]| then Next(removed[to := RemoveAt(removed[to], existing) + [entry]], Updated)
      else Next(removed, Panicked)
  }

  function Apply(t: Table, op: Op): Next
    requires ValidTable(t)
  {
    match op
    case Upsert(c, entry) => UpsertNext(t, c, entry)
    case Delete(c, name) => DeleteNext(t, c, name)
    case Reorder(c, name, place) => ReorderNext(t, c, name, place)
    case ToCategory(c, name, to, force) => ToCategoryNext(t, c, name, to, force)
  }

  /** The options of a move, any of which may be given together. */
  datatype MoveOptions = MoveOptions(to: Option<Category>, before: Option<string>, after: Option<string>,
                                     position: Option<int>, force: bool)
  {
    /** Of several placements the first in the order before, after, position counts. */
    function Place(): Place {
      if before.Some? then Before(before.value)
      else if after.Some? then After(after.value)
      else if position.Some? then Position(position.value)
      else AtPlace
    }
  }

  /** A move to another category may be combined with a placement there; a failed placement leaves the first half done. */
  function MoveNext(t: Table, c: Category, name: string, to: Option<Category>, force: bool, place: Place): Next
    requires ValidTable(t)
  {
    if to.None? then ReorderNext(t, c, name, place) else
    var next := ToCategoryNext(t, c, name, to.value, force);
    if next.outcome.Failed? || next.outcome.Panicked? || place.AtPlace? then next
    else ApplyKeepsTable(t, ToCategory(c, name, to.value, force)); ReorderNext(next.table, to.value, name, place)
  }

  lemma ApplyKeepsTable(t: Table, op: Op)
    requires ValidTable(t)
    ensures ValidTable(Apply(t, op).table)
  {
    hide UpsertChange, DeleteChange, PlaceChange, IndexOf, RemoveAt, ValidEntry, TrimSpace;
  }

  /******* What a placement within one list does *******/

  /** The plugin ends up right after the target, and nothing else changes its relative order. */
  lemma AfterPlaces(items: seq<PluginEntry>, name: string, target: string)
    requires Distinct(items) && Has(items, name) && Has(items, target) && name != target
    ensures var c := AfterChange(items, name, target);
      OnlyMoves(items, c.items, name) && IndexOf(c.items, name) == IndexOf(c.items, target) + 1 &&
      c.outcome == (if c.items == items then Noop else Updated)
  {
    hide Has, OnlyMoves, Without, Moved, Distinct, IndexOf;
    var s, t := IndexOf(items, name), IndexOf(items, target);
    if s == t + 1 {
      StayOnlyMoves(items, name);
    } else {
      MovePlaces(items, s, (if s < t then t - 1 else t) + 1, t);
    }
  }

  /** The plugin ends up right before the target, and nothing else changes its relative order. */
  lemma BeforePlaces(items: seq<PluginEntry>, name: string, target: string)
    requires Distinct(items) && Has(items, name) && Has(items, target) && name != target
    ensures var c := BeforeChange(items, name, target);
      OnlyMoves(items, c.items, name) && IndexOf(c.items, name) == IndexOf(c.items, target) - 1 &&
      c.outcome == (if c.items == items then Noop else Updated)
  {
    hide Has, OnlyMoves, Without, Moved, Distinct, IndexOf;
    var s, t := IndexOf(items, name), IndexOf(items, target);
    if s == t - 1 {
      StayOnlyMoves(items, name);
    } else {
      MovePlaces(items, s, if s < t then t - 1 else t, t);
    }
  }

  lemma StayOnlyMoves(items: seq<PluginEntry>, name: string)
    requires Distinct(items)
    ensures OnlyMoves(items, items, name)
  {
  }

  lemma MovePlaces(items: seq<PluginEntry>, from: nat, to: nat, k: nat)
    requires from < |items| && to < |items| && k < |items| && Distinct(items)
    ensures OnlyMoves(items, Moved(items, from, to), items[from].name)
    ensures IndexOf(Moved(items, from, to), items[from].name) == to
    ensures IndexOf(Moved(items, from, to), items[k].name) == Landing(from, to, k)
    ensures |Moved(items, from, to)| == |items|
    ensures from != to ==> Moved(items, from, to) != items
  {
    hide Has, IndexOf, Moved, Without;
    MovedLength(items, from, to);
    MoveOnlyMoves(items, from, to);
    LandsAt(items, from, to, from);
    LandsAt(items, from, to, k);
    DistinctIndex(Moved(items, from, to), to);
    DistinctIndex(Moved(items, from, to), Landing(from, to, k));
    assert from != to ==> items[from].name != items[to].name;
  }

  lemma MovedLength(items: seq<PluginEntry>, from: nat, to: nat)
    requires from < |items| && to < |items|
    ensures |Moved(items, from, to)| == |items|
  {
  }

  lemma PositionMoves(items: seq<PluginEntry>, name: string, position: int)
    requires Has(items, name) && |items| > 1 && Slot(position, |items|).Some?
    ensures var s, t := IndexOf(items, name), Slot(position, |items|).value;
      t < |items| &&
      PositionChange(items, name, position) == if s == t then Change(items, Noop)
        else Change(Moved(items, s, if s < t < |items| - 1 then t - 1 else t), Updated)
  {
    hide Has, Moved;
  }

  /** A valid position puts the plugin last, or right before whoever held the slot that was asked for. */
  lemma PositionPlaces(items: seq<PluginEntry>, name: string, position: int)
    requires Distinct(items) && Has(items, name) && |items| > 1 && Slot(position, |items|).Some?
    ensures var c, t := PositionChange(items, name, position), Slot(position, |items|).value;
      OnlyMoves(items, c.items, name) &&
      (t == |items| - 1 ==> IndexOf(c.items, name) == |items| - 1) &&
      (t < |items| - 1 && items[t].name != name ==> IndexOf(c.items, name) + 1 == IndexOf(c.items, items[t].name)) &&
      (items[t].name == name ==> c == Change(items, Noop))
  {
    hide Has, OnlyMoves, Without, Moved, Slot, PositionChange, Distinct;
    var s, t := IndexOf(items, name), Slot(position, |items|).value;
    PositionMoves(items, name, position);
    DistinctIndex(items, t);
    if s == t {
      StayOnlyMoves(items, name);
    } else {
      MovePlaces(items, s, if s < t < |items| - 1 then t - 1 else t, t);
    }
  }

  /**
    * The plugin holds the slot that was asked for exactly unless it moves towards the end and the slot is not the last:
    * then it stops one slot early.
    */
  lemma PositionReachedIff(items: seq<PluginEntry>, name: string, position: int)
    requires Distinct(items) && Has(items, name) && |items| > 1 && Slot(position, |items|).Some?
    ensures var s, t := IndexOf(items, name), Slot(position, |items|).value;
      IndexOf(PositionChange(items, name, position).items, name) == (if s < t < |items| - 1 then t - 1 else t) &&
      (IndexOf(PositionChange(items, name, position).items, name) == t <==> !(s < t < |items| - 1))
  {
    hide Has, OnlyMoves, Without, Moved, Slot, PositionChange, Distinct;
    var s, t := IndexOf(items, name), Slot(position, |items|).value;
    PositionMoves(items, name, position);
    if s != t {
      MovePlaces(items, s, if s < t < |items| - 1 then t - 1 else t, t);
    }
  }

  /** Asking for slot 2 leaves the first of three plugins where it is, and still reports an update. */
  lemma ForwardMoveFallsShort(a: PluginEntry, b: PluginEntry, c: PluginEntry)
    requires Distinct([a, b, c])
    ensures PositionChange([a, b, c], a.name, 2) == Change([a, b, c], Updated)
  {
    var items := [a, b, c];
    assert items[0] == a;
    DistinctIndex(items, 0);
    assert Moved(items, 0, 0) == items by { InsertRemoved(items, 0); }
  }

  lemma MovedOneOn(items: seq<PluginEntry>, s: nat)
    requires s + 1 < |items|
    ensures Moved(items, s, s + 1) == items[s := items[s + 1]][s + 1 := items[s]]
  {
    var moved, swapped := Moved(items, s, s + 1), items[s := items[s + 1]][s + 1 := items[s]];
    MovedLength(items, s, s + 1);
    forall k | 0 <= k < |items| ensures moved[k] == swapped[k] {
      LandsAt(items, s, s + 1, if k == s then s + 1 else if k == s + 1 then s else k);
    }
  }

  /** Placing a plugin after itself panics at the end of the list, and elsewhere swaps it with its successor. */
  lemma AfterItself(items: seq<PluginEntry>, name: string)
    requires Distinct(items) && Has(items, name) && |items| > 1
    ensures var s, c := IndexOf(items, name), AfterChange(items, name, name);
      (c.outcome == Panicked <==> s == |items| - 1) &&
      (s < |items| - 1 ==> c == Change(items[s := items[s + 1]][s + 1 := items[s]], Updated))
  {
    hide Has, Distinct;
    var s := IndexOf(items, name);
    if s < |items| - 1 {
      MovedOneOn(items, s);
    }
  }

  /** No other placement panics. */
  lemma PlacePanicsOnlyAfterItself(items: seq<PluginEntry>, name: string, place: Place)
    ensures PlaceChange(items, name, place).outcome == Panicked <==>
      place == After(name) && |items| > 1 && IndexOf(items, name) == |items| - 1
  {
    hide Has, Moved, RemoveAt;
  }

  lemma FailedChangesNothing(items: seq<PluginEntry>, name: string, place: Place)
    ensures PlaceChange(items, name, place).outcome.Failed? ==> PlaceChange(items, name, place).items == items
    ensures PlaceChange(items, name, place).outcome.Noop? ==> PlaceChange(items, name, place).items == items
  {
    hide Has, Moved, RemoveAt, IndexOf;
  }

  /******* Upserting and deleting *******/

  /** An upsert stores the entry under its name, at its old place or at the end, and touches nothing else. */
  lemma UpsertMeans(items: seq<PluginEntry>, entry: PluginEntry)
    requires Distinct(items)
    ensures var c := UpsertChange(items, entry);
      Distinct(c.items) && Without(c.items, entry.name) == Without(items, entry.name) &&
      IndexOf(c.items, entry.name) == (if Has(items, entry.name) then IndexOf(items, entry.name) else |items|) &&
      SameEntry(c.items[IndexOf(c.items, entry.name)], entry) &&
      (c.outcome == Created <==> !Has(items, entry.name)) && (c.outcome == Noop <==> c.items == items)
  {
    hide Without, Has, SameEntry, Distinct, IndexOf;
    var i := IndexOf(items, entry.name);
    SameEntryReflexive(entry);
    if i < 0 {
      AppendedFacts(items, entry);
    } else if !SameEntry(items[i], entry) {
      ReplacedFacts(items, i, entry);
    }
  }

  lemma AppendedFacts(items: seq<PluginEntry>, entry: PluginEntry)
    requires Distinct(items) && !Has(items, entry.name)
    ensures Distinct(items + [entry]) && Without(items + [entry], entry.name) == Without(items, entry.name)
    ensures IndexOf(items + [entry], entry.name) == |items|
  {
    hide Without, Has, IndexOf;
    AppendInserts(items, entry);
    InsertedDistinct(items, |items|, entry);
    WithoutInserted(items, |items|, entry);
    WithoutAbsent(items, entry.name);
    assert (items + [entry])[|items|] == entry;
    DistinctIndex(items + [entry], |items|);
  }

  lemma ReplacedFacts(items: seq<PluginEntry>, i: nat, entry: PluginEntry)
    requires i < |items| && Distinct(items) && items[i].name == entry.name
    ensures var updated := items[i := entry];
      Distinct(updated) && Without(updated, entry.name) == Without(items, entry.name) && IndexOf(updated, entry.name) == i
  {
    hide Without, Has, IndexOf;
    var updated := items[i := entry];
    assert Distinct(updated);
    DistinctIndex(updated, i);
    WithoutRemoves(items, i);
    WithoutRemoves(updated, i);
    assert RemoveAt(updated, i) == RemoveAt(items, i);
  }

  lemma SameEntryReflexive(e: PluginEntry)
    ensures SameEntry(e, e)
  {
  }

  lemma AppendInserts(items: seq<PluginEntry>, entry: PluginEntry)
    ensures InsertAt(items, |items|, entry) == items + [entry]
  {
    assert items[..|items|] == items;
    assert items[|items|..] == [];
  }

  lemma DeleteMeans(items: seq<PluginEntry>, name: string)
    requires Distinct(items)
    ensures DeleteChange(items, name).items == Without(items, name)
    ensures DeleteChange(items, name).outcome == if Has(items, name) then Deleted else Failed(NotFound)
    ensures Distinct(DeleteChange(items, name).items)
  {
    hide Without, Has;
    var i := IndexOf(items, name);
    if i < 0 {
      WithoutAbsent(items, name);
    } else {
      WithoutRemoves(items, i);
      RemovedLacks(items, i);
    }
  }

  /** Deleting what an upsert created gives back the list from before. */
  lemma DeleteUndoesCreate(items: seq<PluginEntry>, entry: PluginEntry)
    requires UpsertChange(items, entry).outcome == Created
    ensures DeleteChange(UpsertChange(items, entry).items, entry.name) == Change(items, Deleted)
  {
    var after := items + [entry];
    assert after[|items|] == entry;
    assert forall i :: 0 <= i < |items| ==> after[i] == items[i];
    assert IndexOf(after, entry.name) == |items|;
    assert RemoveAt(after, |items|) == items;
  }

  /******* Moving to another category *******/

  /** Between different categories: out of the source, to the end of the target, and only a namesake there is lost. */
  lemma ToCategoryMeans(t: Table, c: Category, name: string, to: Category, force: bool)
    requires ValidTable(t) && Known(c) && Known(to) && c != to
    requires Distinct(t[c]) && Distinct(t[to]) && Has(t[c], name) && (force || !Has(t[to], name))
    ensures var next := ToCategoryNext(t, c, name, to, force);
      next.outcome == Updated &&
      next.table == t[c := Without(t[c], name)][to := Without(t[to], name) + [t[c][IndexOf(t[c], name)]]]
  {
    hide Without, Has, RemoveAt, Distinct, IndexOf;
    var s := IndexOf(t[c], name);
    WithoutRemoves(t[c], s);
    var existing := IndexOf(t[to], name);
    if existing < 0 { WithoutAbsent(t[to], name); } else { WithoutRemoves(t[to], existing); }
  }

  /** Forced into its own category, a plugin takes the next plugin with it; the last plugin makes the program panic. */
  lemma IntoOwnCategory(t: Table, c: Category, name: string)
    requires ValidTable(t) && Known(c) && Has(t[c], name)
    ensures ToCategoryNext(t, c, name, c, false) == Next(t, Failed(AlreadyThere))
    ensures var s, next := IndexOf(t[c], name), ToCategoryNext(t, c, name, c, true);
      (next.outcome == Panicked <==> s == |t[c]| - 1) &&
      (s < |t[c]| - 1 ==> next == Next(t[c := t[c][..s] + t[c][s + 2..] + [t[c][s]]], Updated))
  {
    hide Has;
    var items, s := t[c], IndexOf(t[c], name);
    if s < |items| - 1 {
      assert RemoveAt(RemoveAt(items, s), s) == items[..s] + items[s + 2..];
    }
  }

  /******* Every sequence of operations *******/

  ghost predicate AllDistinct(t: Table) {
    forall c :: c in t ==> Distinct(t[c])
  }

  lemma PlaceKeepsDistinct(items: seq<PluginEntry>, name: string, place: Place)
    requires Distinct(items) && PlaceChange(items, name, place).outcome != Panicked
    ensures Distinct(PlaceChange(items, name, place).items)
  {
    hide Distinct, Moved, RemoveAt, Has;
    forall from: nat, to: nat | from < |items| && to < |items| ensures Distinct(Moved(items, from, to)) {
      MoveOnlyMoves(items, from, to);
    }
  }

  lemma ToCategoryKeepsDistinct(t: Table, c: Category, name: string, to: Category, force: bool)
    requires ValidTable(t) && AllDistinct(t) && ToCategoryNext(t, c, name, to, force).outcome == Updated
    ensures AllDistinct(ToCategoryNext(t, c, name, to, force).table)
  {
    hide Distinct, RemoveAt, Has, InsertAt;
    var s, entry := IndexOf(t[c], name), t[c][IndexOf(t[c], name)];
    RemovedLacks(t[c], s);
    var removed := t[c := RemoveAt(t[c], s)];
    var existing := IndexOf(t[to], name);
    var target := if existing < 0 then removed[to] else RemoveAt(removed[to], existing);
    if existing >= 0 {
      if c == to { RemoveKeepsLack(removed[to], existing, name); } else { RemovedLacks(t[to], existing); }
    }
    AppendInserts(target, entry);
    InsertedDistinct(target, |target|, entry);
  }

  lemma RemoveKeepsLack(items: seq<PluginEntry>, i: nat, name: string)
    requires i < |items| && Distinct(items) && !Has(items, name)
    ensures Distinct(RemoveAt(items, i)) && !Has(RemoveAt(items, i), name)
  {
    RemovedLacks(items, i);
  }

  lemma ApplyKeepsDistinct(t: Table, op: Op)
    requires ValidTable(t) && AllDistinct(t) && Apply(t, op).outcome != Panicked
    ensures AllDistinct(Apply(t, op).table)
  {
    hide Distinct, UpsertChange, DeleteChange, PlaceChange, ToCategoryNext, ValidEntry, TrimSpace;
    match op {
      case Upsert(c, entry) => if c in t { UpsertMeans(t[c], entry.(name := TrimSpace(entry.name))); }
      case Delete(c, name) => if c in t { DeleteMeans(t[c], TrimSpace(name)); }
      case Reorder(c, name, place) => if Known(c) && !place.AtPlace? { PlaceKeepsDistinct(t[c], name, place); }
      case ToCategory(c, name, to, force) =>
        ToCategoryOutcomes(t, c, name, to, force);
        if Apply(t, op).outcome == Updated { ToCategoryKeepsDistinct(t, c, name, to, force); }
    }
  }

  lemma ToCategoryOutcomes(t: Table, c: Category, name: string, to: Category, force: bool)
    requires ValidTable(t)
    ensures var next := ToCategoryNext(t, c, name, to, force);
      next.outcome == Updated || next.outcome == Panicked || (next.outcome.Failed? && next.table == t)
    ensures var next := ToCategoryNext(t, c, name, to, force);
      next.outcome == Updated ==> Known(c) && Known(to) && ValidTable(next.table)
  {
    hide Has, RemoveAt, IndexOf;
    ApplyKeepsTable(t, ToCategory(c, name, to, force));
  }

  /** The run goes on to its end without a panic. */
  ghost predicate Safe(t: Table, ops: seq<Op>)
    requires ValidTable(t)
    decreases |ops|
  {
    if ops == [] then true
    else Apply(t, ops[0]).outcome != Panicked && (ApplyKeepsTable(t, ops[0]); Safe(Apply(t, ops[0]).table, ops[1..]))
  }

  function Run(t: Table, ops: seq<Op>): Table
    requires ValidTable(t)
    decreases |ops|
  {
    if ops == [] then t else ApplyKeepsTable(t, ops[0]); Run(Apply(t, ops[0]).table, ops[1..])
  }

  /** No sequence of upserts, deletes, placements and moves between categories ever puts a name twice into a category. */
  lemma {:induction false} RunKeepsDistinct(t: Table, ops: seq<Op>)
    requires ValidTable(t) && AllDistinct(t) && Safe(t, ops)
    ensures AllDistinct(Run(t, ops))
    decreases |ops|
  {
    hide Apply;
    if ops != [] {
      ApplyKeepsTable(t, ops[0]);
      ApplyKeepsDistinct(t, ops[0]);
      RunKeepsDistinct(Apply(t, ops[0]).table, ops[1..]);
    }
  }

  /** Not a placement after itself, and not a forced move into the plugin's own category. */
  predicate Harmless(op: Op) {
    match op
    case Reorder(_, name, place) => place != After(name)
    case ToCategory(c, _, to, force) => c != to || !force
    case _ => true
  }

  lemma HarmlessNeverPanics(t: Table, op: Op)
    requires ValidTable(t) && Harmless(op)
    ensures Apply(t, op).outcome != Panicked
  {
    hide UpsertChange, DeleteChange, PlaceChange, IndexOf, RemoveAt, ValidEntry, TrimSpace;
    match op {
      case Upsert(c, entry) => if Known(c) { ListOpsNeverPanic(t[c], entry.(name := TrimSpace(entry.name)), ""); }
      case Delete(c, name) => if Known(c) { ListOpsNeverPanic(t[c], ZERO, TrimSpace(name)); }
      case Reorder(c, name, place) => if Known(c) { PlacePanicsOnlyAfterItself(t[c], name, place); }
      case ToCategory(_, _, _, _) =>
    }
  }

  lemma ListOpsNeverPanic(items: seq<PluginEntry>, entry: PluginEntry, name: string)
    ensures UpsertChange(items, entry).outcome != Panicked && DeleteChange(items, name).outcome != Panicked
  {
  }

  /** Operations that are harmless in themselves make a run without a panic, from any configuration. */
  lemma {:induction false} HarmlessRunsAreSafe(t: Table, ops: seq<Op>)
    requires ValidTable(t) && forall i :: 0 <= i < |ops| ==> Harmless(ops[i])
    ensures Safe(t, ops)
    decreases |ops|
  {
    hide Apply, Harmless;
    if ops != [] {
      HarmlessNeverPanics(t, ops[0]);
      ApplyKeepsTable(t, ops[0]);
      HarmlessRunsAreSafe(Apply(t, ops[0]).table, ops[1..]);
    }
  }

  /** An operation that reports an error has changed nothing. */
  lemma ErrorChangesNothing(t: Table, op: Op)
    requires ValidTable(t) && Apply(t, op).outcome.Failed?
    ensures Apply(t, op).table == t
  {
    hide IndexOf, PlaceChange, ToCategoryNext, ValidEntry, TrimSpace, RemoveAt, SameEntry;
    match op {
      case Reorder(c, name, place) => if Known(c) { FailedChangesNothing(t[c], name, place); }
      case ToCategory(c, name, to, force) => ToCategoryOutcomes(t, c, name, to, force);
      case _ =>
    }
  }

  lemma ToCategoryShortens(t: Table, c: Category, name: string, to: Category, force: bool)
    requires ValidTable(t) && ToCategoryNext(t, c, name, to, force).outcome == Updated
    ensures c in t && c in ToCategoryNext(t, c, name, to, force).table
    ensures |ToCategoryNext(t, c, name, to, force).table[c]| == |t[c]| - 1
  {
    hide Has, IndexOf;
  }

  /******* A combined move is not all or nothing *******/

  /** Placing `name` is an error wherever it is: the target is another plugin that is not there, or the position is invalid. */
  predicate BadPlace(items: seq<PluginEntry>, name: string, place: Place) {
    match place
    case AtPlace => false
    case Before(target) => target != name && !Has(items, target)
    case After(target) => target != name && !Has(items, target)
    case Position(position) => position < 1 && position != -1
  }

  /** In a list with other plugins a placement of a plugin that is there fails exactly at a bad place. */
  lemma PlaceFailsIff(others: seq<PluginEntry>, entry: PluginEntry, place: Place)
    ensures !place.AtPlace? ==>
      (PlaceChange(others + [entry], entry.name, place).outcome.Failed? <==> others != [] && BadPlace(others, entry.name, place))
  {
    hide Moved;
    var items := others + [entry];
    assert items[|others|] == entry;
    assert Has(items, entry.name);
    match place {
      case Before(target) => HasAppended(others, entry, target);
      case After(target) => HasAppended(others, entry, target);
      case _ =>
    }
  }

  lemma HasAppended(others: seq<PluginEntry>, entry: PluginEntry, name: string)
    ensures Has(others + [entry], name) <==> Has(others, name) || entry.name == name
  {
    var items := others + [entry];
    if Has(others, name) {
      var i :| 0 <= i < |others| && others[i].name == name;
      assert items[i].name == name;
    }
    if entry.name == name { assert items[|others|].name == name; }
  }

  /** What is left beside the plugin in the list it ends up in, when the move to that list succeeds. */
  function Company(t: Table, c: Category, name: string, to: Category): seq<PluginEntry>
    requires ValidTable(t) && Known(c) && Known(to) && IndexOf(t[c], name) >= 0
  {
    var s := IndexOf(t[c], name);
    if c != to then Without(t[to], name)
    else if s < |t[c]| - 1 then t[c][..s] + t[c][s + 2..]
    else []
  }

  /** The first half of a combined move goes through. */
  predicate CanMove(t: Table, c: Category, name: string, to: Category, force: bool)
    requires ValidTable(t)
  {
    Known(c) && Known(to) && Has(t[c], name) &&
    if c != to then force || !Has(t[to], name) else force && IndexOf(t[c], name) < |t[c]| - 1
  }

  lemma CannotMove(t: Table, c: Category, name: string, to: Category, force: bool)
    requires ValidTable(t)
    requires !Known(c) || !Known(to) || !Has(t[c], name) || (Has(t[to], name) && !force)
    ensures ToCategoryNext(t, c, name, to, force).outcome.Failed?
  {
    hide Has, RemoveAt;
  }

  lemma MovesThere(t: Table, c: Category, name: string, to: Category, force: bool)
    requires ValidTable(t) && AllDistinct(t) && c != to && CanMove(t, c, name, to, force)
    ensures var next := ToCategoryNext(t, c, name, to, force);
      next.outcome == Updated && to in next.table &&
      next.table[to] == Company(t, c, name, to) + [t[c][IndexOf(t[c], name)]]
  {
    hide Has, Without, ToCategoryNext, Distinct;
    ToCategoryMeans(t, c, name, to, force);
  }

  lemma MovesHere(t: Table, c: Category, name: string)
    requires ValidTable(t) && Known(c) && Has(t[c], name)
    ensures var next := ToCategoryNext(t, c, name, c, true);
      (next.outcome == Updated <==> IndexOf(t[c], name) < |t[c]| - 1) &&
      (next.outcome == Updated ==>
        c in next.table && next.table[c] == Company(t, c, name, c) + [t[c][IndexOf(t[c], name)]])
  {
    hide Has, ToCategoryNext;
    IntoOwnCategory(t, c, name);
    ToCategoryOutcomes(t, c, name, c, true);
  }

  lemma CanMoveMeans(t: Table, c: Category, name: string, to: Category, force: bool)
    requires ValidTable(t) && AllDistinct(t)
    ensures ToCategoryNext(t, c, name, to, force).outcome == Updated <==> CanMove(t, c, name, to, force)
    ensures CanMove(t, c, name, to, force) ==>
      to in ToCategoryNext(t, c, name, to, force).table &&
      ToCategoryNext(t, c, name, to, force).table[to] == Company(t, c, name, to) + [t[c][IndexOf(t[c], name)]]
  {
    hide Has, IndexOf, Company, ToCategoryNext, AllDistinct;
    if !Known(c) || !Known(to) || !Has(t[c], name) || (Has(t[to], name) && !force) {
      CannotMove(t, c, name, to, force);
    } else if c == to {
      MovesHere(t, c, name);
    } else {
      MovesThere(t, c, name, to, force);
    }
  }

  /**
   A combined move fails and leaves a change behind exactly when the plugin can move to the other
   list, finds other plugins there, and its place among them is bad.
   */
  lemma FailedMoveIsHalfDone(t: Table, c: Category, name: string, to: Option<Category>, force: bool, place: Place)
    requires ValidTable(t) && AllDistinct(t)
    ensures MoveNext(t, c, name, to, force, place).outcome.Failed? && MoveNext(t, c, name, to, force, place).table != t <==>
      to.Some? && CanMove(t, c, name, to.value, force) &&
      Company(t, c, name, to.value) != [] && BadPlace(Company(t, c, name, to.value), name, place)
  {
    hide ToCategoryNext, PlaceChange, Apply, ReorderNext, Has, Company, CanMove, BadPlace, IndexOf;
    if to.None? {
      ReorderError(t, c, name, place);
    } else {
      ToCategoryOutcomes(t, c, name, to.value, force);
      CanMoveMeans(t, c, name, to.value, force);
      if CanMove(t, c, name, to.value, force) {
        CanMoveIndex(t, c, name, to.value, force);
        var next := ToCategoryNext(t, c, name, to.value, force);
        ToCategoryShortens(t, c, name, to.value, force);
        ReorderError(next.table, to.value, name, place);
        PlacedThere(next.table, to.value, Company(t, c, name, to.value), t[c][IndexOf(t[c], name)], place);
      }
    }
  }

  lemma CanMoveIndex(t: Table, c: Category, name: string, to: Category, force: bool)
    requires ValidTable(t) && CanMove(t, c, name, to, force)
    ensures Known(c) && Known(to) && 0 <= IndexOf(t[c], name) < |t[c]| && t[c][IndexOf(t[c], name)].name == name
  {
  }

  lemma PlacedThere(t: Table, to: Category, others: seq<PluginEntry>, entry: PluginEntry, place: Place)
    requires ValidTable(t) && Known(to) && t[to] == others + [entry]
    ensures !place.AtPlace? ==>
      (ReorderNext(t, to, entry.name, place).outcome.Failed? <==> others != [] && BadPlace(others, entry.name, place))
    ensures place.AtPlace? ==> !BadPlace(others, entry.name, place)
  {
    hide PlaceChange, Has;
    PlaceFailsIff(others, entry, place);
  }

  /** A plugin that is moved before a plugin of its old category ends up in the new one, with an error. */
  lemma HalfDoneMove(a: PluginEntry, b: PluginEntry, d: PluginEntry, t: Table)
    requires a.name != b.name && a.name != d.name && b.name != d.name
    requires ValidTable(t) && t[Content] == [a, b] && t[Audit] == [d]
    ensures MoveNext(t, Content, a.name, Some(Audit), false, Before(b.name)) ==
      Next(t[Content := [b]][Audit := [d, a]], Failed(TargetNotFound))
  {
    hide Without;
    var next := ToCategoryNext(t, Content, a.name, Audit, false);
    assert [a, b][0] == a;
    IndexOfPair(a, b);
    IndexOfOne(d, a.name);
    assert RemoveAt([a, b], 0) == [b];
    assert next == Next(t[Content := [b]][Audit := [d] + [a]], Updated);
    assert [d] + [a] == [d, a];
    IndexOfPair(d, a);
    AbsentFromPair(d, a, b.name);
    assert next.table[Audit := [d, a]] == next.table;
  }

  lemma IndexOfPair(a: PluginEntry, b: PluginEntry)
    requires a.name != b.name
    ensures IndexOf([a, b], a.name) == 0 && IndexOf([a, b], b.name) == 1
  {
    assert [a, b][0] == a && [a, b][1] == b;
    assert Has([a, b], a.name) && Has([a, b], b.name);
  }

  lemma IndexOfOne(a: PluginEntry, name: string)
    requires a.name != name
    ensures IndexOf([a], name) == -1
  {
  }

  lemma AbsentFromPair(a: PluginEntry, b: PluginEntry, name: string)
    requires a.name != name && b.name != name
    ensures IndexOf([a, b], name) == -1
  {
  }

  lemma ReorderError(t: Table, c: Category, name: string, place: Place)
    requires ValidTable(t)
    ensures ReorderNext(t, c, name, place).outcome.Failed? ==> ReorderNext(t, c, name, place).table == t
  {
    if Known(c) { FailedChangesNothing(t[c], name, place); }
  }

  /******* Which outcome an operation has *******/

  /** The flows of an entry: one or both, in either order, without repetition. */
  predicate AreFlows(flows: seq<string>) {
    flows == ["request"] || flows == ["response"] || flows == ["request", "response"] || flows == ["response", "request"]
  }

  lemma ValidEntryIff(e: PluginEntry)
    ensures ValidEntry(e) <==> TrimSpace(e.name) != "" && AreFlows(e.flows)
  {
    hide TrimSpace;
    if ValidEntry(e) {
      var flows := e.flows;
      assert forall i :: 0 <= i < |flows| ==> flows[i] in flows;
      AtMostTwo(flows);
      if |flows| == 1 { assert flows == [flows[0]]; } else { assert flows == [flows[0], flows[1]]; }
    }
    if AreFlows(e.flows) {
      assert "request" != "response" by { assert "request"[2] != "response"[2]; }
    }
  }

  lemma AtMostTwo(flows: seq<string>)
    requires forall i :: 0 <= i < |flows| ==> flows[i] == "request" || flows[i] == "response"
    requires forall i, j :: 0 <= i < j < |flows| ==> flows[i] != flows[j]
    ensures |flows| <= 2
  {
    ThreeFlows(flows);
    forall i | 0 <= i < |flows| ensures flows[i] in {"request", "response"} {}
  }

  lemma ThreeFlows(flows: seq<string>)
    requires forall i, j :: 0 <= i < j < |flows| ==> flows[i] != flows[j]
    ensures |flows| > 2 ==> |{flows[0], flows[1], flows[2]}| == 3
  {
    if |flows| > 2 { assert flows[0] != flows[1] && flows[0] != flows[2] && flows[1] != flows[2]; }
  }

  /** Upserting trims the name, and needs a name, valid flows and a known category, in this order. */
  lemma UpsertOutcomeIff(t: Table, c: Category, entry: PluginEntry)
    requires ValidTable(t)
    ensures
      var o, name := UpsertNext(t, c, entry).outcome, TrimSpace(entry.name);
      && (o == Failed(EmptyName) <==> name == "")
      && (o == Failed(InvalidEntry) <==> name != "" && !AreFlows(entry.flows))
      && (o == Failed(UnknownCategory) <==> name != "" && AreFlows(entry.flows) && c.Unknown?)
      && (!o.Failed? ==>
            var change := UpsertChange(t[c], entry.(name := name));
            UpsertNext(t, c, entry).table == t[c := change.items] && o == change.outcome)
  {
    hide TrimSpace, AreFlows, ValidEntry, IndexOf, Has, SameEntry;
    TrimSpaceIsTrimmed(entry.name);
    ValidEntryIff(entry.(name := TrimSpace(entry.name)));
  }

  /** Deleting trims the name, and needs a name, a known category and the plugin in it. */
  lemma DeleteOutcomeIff(t: Table, c: Category, name: string)
    requires ValidTable(t)
    ensures
      var o, trimmed := DeleteNext(t, c, name).outcome, TrimSpace(name);
      && (o == Failed(EmptyName) <==> trimmed == "")
      && (o == Failed(UnknownCategory) <==> trimmed != "" && c.Unknown?)
      && (o == Failed(NotFound) <==> trimmed != "" && !c.Unknown? && !Has(t[c], trimmed))
      && (o == Deleted <==> trimmed != "" && !c.Unknown? && Has(t[c], trimmed))
      && (o == Deleted ==> DeleteNext(t, c, name).table == t[c := DeleteChange(t[c], trimmed).items])
  {
    hide TrimSpace, Has, RemoveAt;
  }

  /** A single plugin is never moved; else plugin, then target or position are checked. */
  lemma PlaceOutcomeIff(items: seq<PluginEntry>, name: string, place: Place)
    requires !place.AtPlace?
    ensures
      var o := PlaceChange(items, name, place).outcome;
      && (|items| <= 1 ==> o == Noop)
      && (o == Failed(NotFound) <==> |items| > 1 && !Has(items, name))
      && (o == Failed(TargetNotFound) <==>
            |items| > 1 && Has(items, name) && (place.Before? || place.After?) && !Has(items, place.target))
      && (o == Failed(InvalidPosition) <==>
            |items| > 1 && Has(items, name) && place.Position? && place.position < 1 && place.position != -1)
  {
    hide Has, Moved, RemoveAt;
  }

  lemma ReorderOutcomeIff(t: Table, c: Category, name: string, place: Place)
    requires ValidTable(t)
    ensures
      var next := ReorderNext(t, c, name, place);
      && (next.outcome == Failed(NoOperation) <==> place.AtPlace?)
      && (next.outcome == Failed(UnknownCategory) <==> !place.AtPlace? && c.Unknown?)
      && (!place.AtPlace? && !c.Unknown? ==>
            next.outcome == PlaceChange(t[c], name, place).outcome && next.table == t[c := PlaceChange(t[c], name, place).items])
  {
    hide Has, Moved, RemoveAt, IndexOf;
  }

  /** Position -1 and positions past the end ask for the last slot, the others for the slot they count. */
  lemma SlotIs(position: int, n: nat)
    requires n > 0
    ensures Slot(position, n) ==
      if 1 <= position <= n then Some(position - 1)
      else if position == -1 || position > n then Some(n - 1)
      else None
  {
  }

  /** A move to another category needs both categories, the plugin, and no namesake unless it is forced. */
  lemma ToCategoryOutcomeIff(t: Table, c: Category, name: string, to: Category, force: bool)
    requires ValidTable(t)
    ensures
      var o := ToCategoryNext(t, c, name, to, force).outcome;
      && (o == Failed(UnknownCategory) <==> c.Unknown? || (Has(t[c], name) && to.Unknown?))
      && (o == Failed(NotFound) <==> !c.Unknown? && !Has(t[c], name))
      && (o == Failed(AlreadyThere) <==> !c.Unknown? && !to.Unknown? && Has(t[c], name) && Has(t[to], name) && !force)
  {
    hide Has, RemoveAt;
  }

  /** A combined move that goes well leaves the old category, and puts the plugin where it was asked to be in the new one. */
  lemma CombinedMovePlaces(t: Table, c: Category, name: string, to: Category, target: string, before: bool)
    requires ValidTable(t) && AllDistinct(t) && !c.Unknown? && !to.Unknown? && c != to
    requires Has(t[c], name) && !Has(t[to], name) && Has(t[to], target)
    ensures
      var next := MoveNext(t, c, name, Some(to), false, if before then Before(target) else After(target));
      && !next.outcome.Failed? && next.outcome != Panicked && to in next.table && c in next.table
      && next.table[c] == Without(t[c], name) && Without(next.table[to], name) == t[to]
      && IndexOf(next.table[to], name) == IndexOf(next.table[to], target) + if before then -1 else 1
  {
    hide Without, ToCategoryNext, Distinct, BeforeChange, AfterChange, Has, IndexOf, OnlyMoves;
    ToCategoryMeans(t, c, name, to, false);
    ToCategoryKeepsDistinct(t, c, name, to, false);
    WithoutAbsent(t[to], name);
    var entry := t[c][EntryAt(t[c], name)];
    var items := t[to] + [entry];
    assert ToCategoryNext(t, c, name, to, false) == Next(t[c := Without(t[c], name)][to := items], Updated);
    HasAppended(t[to], entry, name);
    HasAppended(t[to], entry, target);
    AppendedLacks(t[to], entry);
    assert ToCategoryNext(t, c, name, to, false).table[to] == items;
    if before { BeforePlaces(items, name, target); } else { AfterPlaces(items, name, target); }
    MovedLacks(items, (if before then BeforeChange(items, name, target) else AfterChange(items, name, target)).items, name);
  }

  function EntryAt(items: seq<PluginEntry>, name: string): (i: nat)
    requires Has(items, name)
    ensures i < |items| && i == IndexOf(items, name) && items[i].name == name
  {
    IndexOf(items, name)
  }

  lemma AppendedLacks(items: seq<PluginEntry>, entry: PluginEntry)
    requires !Has(items, entry.name)
    ensures Without(items + [entry], entry.name) == items
  {
    hide Has, Without;
    WithoutConcat(items, [entry], entry.name);
    WithoutAbsent(items, entry.name);
    WithoutOnly(entry);
  }

  lemma MovedLacks(items: seq<PluginEntry>, moved: seq<PluginEntry>, name: string)
    requires OnlyMoves(items, moved, name)
    ensures Without(moved, name) == Without(items, name)
  {
    hide Without;
  }

  /******* The object *******/

  class PluginConfig {
    var lists: Table

    constructor (t: Table)
      requires ValidTable(t)
      ensures lists == t
    {
      lists := t;
    }

    method UpsertPlugin(category: Category, plugin: PluginEntry) returns (outcome: Outcome)
      requires ValidTable(lists)
      modifies this
      ensures Next(lists, outcome) == UpsertNext(old(lists), category, plugin)
    {
      hide TrimSpace, ValidEntry, SameEntry, IndexOf, Has;
      var entry := plugin.(name := TrimSpace(plugin.name));
      if entry.name == "" { return Failed(EmptyName); }
      if !ValidEntry(entry) { return Failed(InvalidEntry); }
      if category.Unknown? { return Failed(UnknownCategory); }
      var slice := lists[category];
      var i := FindPluginIndex(slice, entry.name);
      if i >= 0 {
        if SameEntry(slice[i], entry) { return Noop; }
        lists := lists[category := slice[i := entry]];
        return Updated;
      }
      lists := lists[category := slice + [entry]];
      return Created;
    }

    method DeletePlugin(category: Category, name: string) returns (outcome: Outcome)
      requires ValidTable(lists)
      modifies this
      ensures Next(lists, outcome) == DeleteNext(old(lists), category, name)
    {
      hide TrimSpace, IndexOf, Has, RemoveAt;
      var trimmed := TrimSpace(name);
      if trimmed == "" { return Failed(EmptyName); }
      if category.Unknown? { return Failed(UnknownCategory); }
      var slice := lists[category];
      var i := FindPluginIndex(slice, trimmed);
      if i < 0 { return Failed(NotFound); }
      lists := lists[category := RemoveAt(slice, i)];
      return Deleted;
    }

    /** Deletes and inserts in the list of a category, which is shifted and cleared even when the insertion panics. */
    method Replace(category: Category, from: nat, to: nat) returns (outcome: Outcome)
      requires ValidTable(lists) && Known(category) && from < |lists[category]|
      modifies this
      ensures Next(lists, outcome) == Store(old(lists), category, Relocate(old(lists[category]), from, to))
    {
      var items := lists[category];
      var entry := items[from];
      var rest := items[..from] + items[from + 1..];
      lists := lists[category := rest + [ZERO]];
      if to > |rest| { return Panicked; }
      lists := lists[category := rest[..to] + [entry] + rest[to..]];
      return Updated;
    }

    method MoveAfter(category: Category, name: string, target: string) returns (outcome: Outcome)
      requires ValidTable(lists)
      modifies this
      ensures Next(lists, outcome) == ReorderNext(old(lists), category, name, After(target))
    {
      hide Relocate, IndexOf, Has, BeforeChange, PositionChange;
      if category.Unknown? { return Failed(UnknownCategory); }
      var items := lists[category];
      if |items| <= 1 { return Noop; }
      var srcIdx := FindPluginIndex(items, name);
      if srcIdx < 0 { return Failed(NotFound); }
      var targetIdx := FindPluginIndex(items, target);
      if targetIdx < 0 { return Failed(TargetNotFound); }
      if srcIdx == targetIdx + 1 { return Noop; }
      if srcIdx < targetIdx { targetIdx := targetIdx - 1; }
      outcome := Replace(category, srcIdx, targetIdx + 1);
    }

    method MoveBefore(category: Category, name: string, target: string) returns (outcome: Outcome)
      requires ValidTable(lists)
      modifies this
      ensures Next(lists, outcome) == ReorderNext(old(lists), category, name, Before(target))
    {
      hide Relocate, IndexOf, Has, AfterChange, PositionChange;
      if category.Unknown? { return Failed(UnknownCategory); }
      var items := lists[category];
      if |items| <= 1 { return Noop; }
      var srcIdx := FindPluginIndex(items, name);
      if srcIdx < 0 { return Failed(NotFound); }
      var targetIdx := FindPluginIndex(items, target);
      if targetIdx < 0 { return Failed(TargetNotFound); }
      if srcIdx == targetIdx - 1 { return Noop; }
      if srcIdx < targetIdx { targetIdx := targetIdx - 1; }
      outcome := Replace(category, srcIdx, targetIdx);
    }

    method MoveToPosition(category: Category, name: string, position: int) returns (outcome: Outcome)
      requires ValidTable(lists)
      modifies this
      ensures Next(lists, outcome) == ReorderNext(old(lists), category, name, Position(position))
    {
      hide Relocate, IndexOf, Has, AfterChange, BeforeChange;
      if category.Unknown? { return Failed(UnknownCategory); }
      var items := lists[category];
      var n := |items|;
      if n <= 1 { return Noop; }
      var srcIdx := FindPluginIndex(items, name);
      if srcIdx < 0 { return Failed(NotFound); }
      var targetIdx;
      if position == -1 || position > n {
        targetIdx := n - 1;
      } else if position < 1 {
        return Failed(InvalidPosition);
      } else {
        targetIdx := position - 1;
      }
      if srcIdx == targetIdx { return Noop; }
      if position == -1 || position >= n {
        targetIdx := n - 1;
      } else if srcIdx < targetIdx {
        targetIdx := targetIdx - 1;
      }
      outcome := Replace(category, srcIdx, targetIdx);
    }

    method MoveToCategory(from: Category, name: string, to: Category, force: bool) returns (outcome: Outcome)
      requires ValidTable(lists)
      modifies this
      ensures Next(lists, outcome) == ToCategoryNext(old(lists), from, name, to, force)
    {
      hide IndexOf, Has, RemoveAt;
      if from.Unknown? { return Failed(UnknownCategory); }
      var srcIdx := FindPluginIndex(lists[from], name);
      if srcIdx < 0 { return Failed(NotFound); }
      var plugin := lists[from][srcIdx];
      if to.Unknown? { return Failed(UnknownCategory); }
      var existingIdx := FindPluginIndex(lists[to], name);
      if existingIdx >= 0 && !force { return Failed(AlreadyThere); }
      var removed := lists[from := RemoveAt(lists[from], srcIdx)];
      lists := removed;
      var target := removed[to];
      if existingIdx >= 0 {
        if existingIdx >= |target| { return Panicked; }
        target := RemoveAt(target, existingIdx);
      }
      lists := removed[to := target + [plugin]];
      return Updated;
    }

    method MovePlugin(category: Category, name: string, options: MoveOptions) returns (outcome: Outcome)
      requires ValidTable(lists)
      modifies this
      ensures Next(lists, outcome) == MoveNext(old(lists), category, name, options.to, options.force, options.Place())
    {
      hide ToCategoryNext, ReorderNext;
      outcome := Failed(NoOperation);
      var current := category;
      if options.to.Some? {
        outcome := MoveToCategory(category, name, options.to.value, options.force);
        if outcome.Failed? || outcome.Panicked? { return; }
        current := options.to.value;
        ApplyKeepsTable(old(lists), ToCategory(category, name, options.to.value, options.force));
      }
      if options.before.Some? {
        outcome := MoveBefore(current, name, options.before.value);
      } else if options.after.Some? {
        outcome := MoveAfter(current, name, options.after.value);
      } else if options.position.Some? {
        outcome := MoveToPosition(current, name, options.position.value);
      } else {
        NoPlace(lists, current, name);
      }
    }
  }

  lemma NoPlace(t: Table, c: Category, name: string)
    requires ValidTable(t)
    ensures ReorderNext(t, c, name, AtPlace) == Next(t, Failed(NoOperation))
  {
  }
}
