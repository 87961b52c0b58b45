/** Lists that keep the elements of another that have a property, in their order. */
module Sublists {

  ghost predicate Increasing(positions: seq<nat>, n: nat) {
    (forall j :: 0 <= j < |positions| ==> positions[j] < n) &&
    (forall j, k :: 0 <= j < k < |positions| ==> positions[j] < positions[k])
  }

  /** `kept` is `all` at these positions, which are exactly those of the elements to keep. */
  ghost predicate KeptAt<T(!new)>(kept: seq<T>, all: seq<T>, keep: T -> bool, positions: seq<nat>) {
    Increasing(positions, |all|) && |kept| == |positions| &&
    (forall j :: 0 <= j < |positions| ==> kept[j] == all[positions[j]]) &&
    (forall i :: 0 <= i < |all| ==> (i in positions <==> keep(all[i])))
  }

  ghost predicate IsFilter<T(!new)>(kept: seq<T>, all: seq<T>, keep: T -> bool) {
    exists positions :: KeptAt(kept, all, keep, positions)
  }

  lemma NothingFiltered<T(!new)>(keep: T -> bool)
    ensures IsFilter([], [], keep)
  {
    assert KeptAt([], [], keep, []);
  }

  lemma IncreasingSnoc(positions: seq<nat>, n: nat)
    requires Increasing(positions, n)
    ensures Increasing(positions, n + 1) && Increasing(positions + [n], n + 1) && n !in positions
  {
  }

  lemma KeptSnoc<T(!new)>(kept: seq<T>, all: seq<T>, x: T, keep: T -> bool, positions: seq<nat>)
    requires KeptAt(kept, all, keep, positions)
    ensures KeptAt(if keep(x) then kept + [x] else kept, all + [x], keep,
                   if keep(x) then positions + [|all|] else positions)
  {
    hide Increasing;
    IncreasingSnoc(positions, |all|);
    assert forall j :: 0 <= j < |positions| ==> positions[j] < |all| by { Bounded(positions, |all|); }
    var next := if keep(x) then positions + [|all|] else positions;
    forall i | 0 <= i < |all + [x]| ensures i in next <==> keep((all + [x])[i]) {
      if i < |all| { assert (all + [x])[i] == all[i]; }
    }
  }

  lemma Bounded(positions: seq<nat>, n: nat)
    requires Increasing(positions, n)
    ensures forall j :: 0 <= j < |positions| ==> positions[j] < n
  {
  }

  lemma FilterSnoc<T(!new)>(kept: seq<T>, all: seq<T>, x: T, keep: T -> bool)
    requires IsFilter(kept, all, keep)
    ensures IsFilter(if keep(x) then kept + [x] else kept, all + [x], keep)
  {
    hide KeptAt;
    var positions :| KeptAt(kept, all, keep, positions);
    KeptSnoc(kept, all, x, keep, positions);
  }

  lemma KeepAlike<T(!new)>(kept: seq<T>, all: seq<T>, keep: T -> bool, keep': T -> bool)
    requires IsFilter(kept, all, keep) && forall i :: 0 <= i < |all| ==> keep(all[i]) == keep'(all[i])
    ensures IsFilter(kept, all, keep')
  {
    var positions :| KeptAt(kept, all, keep, positions);
    assert KeptAt(kept, all, keep', positions);
  }

  /** Being such a list determines it. */
  lemma {:induction false} FilterIsUnique<T(!new)>(a: seq<T>, b: seq<T>, all: seq<T>, keep: T -> bool)
    requires IsFilter(a, all, keep) && IsFilter(b, all, keep)
    ensures a == b
  {
    var p :| KeptAt(a, all, keep, p);
    var q :| KeptAt(b, all, keep, q);
    SamePositions(p, q, |all|);
  }

  lemma {:induction false} SamePositions(p: seq<nat>, q: seq<nat>, n: nat)
    requires Increasing(p, n) && Increasing(q, n) && forall i :: 0 <= i < n ==> (i in p <==> i in q)
    ensures p == q
  {
    if p != [] || q != [] {
      LastIsSame(p, q, n);
      var m := p[|p| - 1];
      var p', q' := p[..|p| - 1], q[..|q| - 1];
      forall i | 0 <= i < m ensures i in p' <==> i in q' {
        FrontHas(p, i);
        FrontHas(q, i);
      }
      SamePositions(p', q', m);
      assert p == p' + [m] && q == q' + [m];
    }
  }

  lemma FrontHas(p: seq<nat>, i: nat)
    requires p != [] && i < p[|p| - 1]
    ensures i in p <==> i in p[..|p| - 1]
  {
  }

  lemma LastIsSame(p: seq<nat>, q: seq<nat>, n: nat)
    requires Increasing(p, n) && Increasing(q, n) && forall i :: 0 <= i < n ==> (i in p <==> i in q)
    requires p != [] || q != []
    ensures p != [] && q != [] && p[|p| - 1] == q[|q| - 1]
  {
    if p != [] { assert p[|p| - 1] in q; }
    if q != [] { assert q[|q| - 1] in p; }
  }
}
