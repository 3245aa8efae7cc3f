/** The per-view behaviour records ("transcript maps") of a node: view to node to 1. */
module Tallies {

  type Tally = map<nat, map<nat, nat>>

  /** One view's row, as the set of nodes recorded in it. */
  function Ones(s: set<nat>): map<nat, nat> {
    map id | id in s :: 1
  }

  predicate Marked(t: Tally, view: nat, id: nat) {
    view in t && id in t[view] && t[view][id] == 1
  }

  /** Records one more node in a view. */
  function Mark(t: Tally, view: nat, id: nat): (r: Tally)
    ensures Marked(r, view, id)
    ensures forall v, i :: Marked(t, v, i) ==> Marked(r, v, i)
    ensures forall v, i :: Marked(r, v, i) ==> Marked(t, v, i) || (v == view && i == id)
  {
    if view in t then t[view := t[view] + Ones({id})] else t[view := Ones({id})]
  }

  /** Records a view's leader: the view's row is replaced unless the leader is already in it. */
  function MarkSole(t: Tally, view: nat, id: nat): (r: Tally)
    ensures Marked(r, view, id)
    ensures Marked(t, view, id) ==> r == t
  {
    if Marked(t, view, id) then t else t[view := Ones({id})]
  }

  /** Afterwards the leader is alone in the view's row, unless it was in it before; other rows stay. */
  lemma SoleInRow(t: Tally, view: nat, id: nat, v: nat, i: nat)
    ensures Marked(MarkSole(t, view, id), v, i)
       <==> if v == view && !Marked(t, view, id) then i == id else Marked(t, v, i)
  {}

  /** The views in which a node is recorded. */
  function Views(t: Tally, id: nat): set<nat> {
    set v | v in t && Marked(t, v, id)
  }

  function Count(t: Tally, id: nat): nat {
    |Views(t, id)|
  }

  ghost function ViewsAmong(t: Tally, id: nat, views: set<nat>): set<nat> {
    set v | v in views && Marked(t, v, id)
  }

  lemma OneMoreView(t: Tally, id: nat, views: set<nat>, v: nat)
    requires v !in views
    ensures |ViewsAmong(t, id, views + {v})| == |ViewsAmong(t, id, views)| + if Marked(t, v, id) then 1 else 0
  {
    var s := ViewsAmong(t, id, views);
    assert ViewsAmong(t, id, views + {v}) == if Marked(t, v, id) then s + {v} else s;
  }

  /** The loop that counts a node's records, whatever order the views come in. */
  method CountRecorded(t: Tally, id: nat) returns (num: nat)
    ensures num == Count(t, id)
  {
    num := 0;
    var rest := t.Keys;
    ghost var done: set<nat> := {};
    while rest != {}
      invariant done !! rest && done + rest == t.Keys && num == |ViewsAmong(t, id, done)|
      decreases rest
    {
      var view :| view in rest;
      OneMoreView(t, id, done, view);
      if id in t[view] && t[view][id] == 1 {
        num := num + 1;
      }
      rest, done := rest - {view}, done + {view};
    }
    assert ViewsAmong(t, id, t.Keys) == Views(t, id);
    assert done == t.Keys;
  }

  /** The record with the given nodes entered for a view that has no row yet. */
  function WithRow(t: Tally, view: nat, s: set<nat>): Tally {
    if s == {} then t else t[view := Ones(s)]
  }

  lemma MarkRow(t: Tally, view: nat, s: set<nat>, id: nat)
    requires view !in t
    ensures Mark(WithRow(t, view, s), view, id) == WithRow(t, view, s + {id})
  {
    assert Ones(s) + Ones({id}) == Ones(s + {id});
    if s == {} {
      assert s + {id} == {id};
    } else {
      assert WithRow(t, view, s) == t[view := Ones(s)];
    }
  }

  /** A node is recorded at most once per view. */
  lemma {:induction false} CountBound(t: Tally, id: nat, view: nat)
    requires forall v :: v in t ==> 1 <= v <= view
    ensures Count(t, id) <= view
  {
    SubsetOfRange(Views(t, id), view);
  }

  lemma {:induction false} SubsetOfRange(s: set<nat>, k: nat)
    requires forall v :: v in s ==> 1 <= v <= k
    ensures |s| <= k
    decreases k
  {
    if k == 0 {
      if v :| v in s {
        assert false;
      }
      assert s == {};
    } else {
      SubsetOfRange(s - {k}, k - 1);
      if k in s {
        assert |s| == |s - {k}| + 1;
      } else {
        assert s - {k} == s;
      }
    }
  }

  ghost function TotalCount(t: Tally, n: nat): nat {
    if n == 0 then 0 else TotalCount(t, n - 1) + Count(t, n - 1)
  }

  ghost function ViewsBelow(t: Tally, n: nat): set<nat> {
    if n == 0 then {} else ViewsBelow(t, n - 1) + Views(t, n - 1)
  }

  lemma {:induction false} ViewBelow(t: Tally, n: nat, v: nat)
    ensures v in ViewsBelow(t, n) <==> exists i :: 0 <= i < n && Marked(t, v, i)
  {
    if n > 0 {
      ViewBelow(t, n - 1, v);
    }
  }

  lemma FreshViews(t: Tally, n: nat, owner: nat -> nat)
    requires forall v, i :: Marked(t, v, i) ==> i == owner(v)
    ensures ViewsBelow(t, n) !! Views(t, n)
  {
    forall v | v in Views(t, n)
      ensures v !in ViewsBelow(t, n)
    {
      ViewBelow(t, n, v);
    }
  }

  lemma DisjointSize(s: set<nat>, t: set<nat>)
    requires s !! t
    ensures |s + t| == |s| + |t|
  {}

  lemma {:induction false} CreditPrefix(t: Tally, n: nat, owner: nat -> nat)
    requires forall v, i :: Marked(t, v, i) ==> i == owner(v)
    ensures TotalCount(t, n) == |ViewsBelow(t, n)|
  {
    if n > 0 {
      var k := n - 1;
      CreditPrefix(t, k, owner);
      FreshViews(t, k, owner);
      DisjointSize(ViewsBelow(t, k), Views(t, k));
    }
  }

  /** When every recorded view names exactly its owner, the counts of all nodes add up to
      the number of recorded views. */
  lemma {:induction false} CreditConserved(t: Tally, n: nat, owner: nat -> nat)
    requires forall v :: v in t ==> owner(v) < n && t[v] == Ones({owner(v)})
    ensures TotalCount(t, n) == |t|
  {
    CreditPrefix(t, n, owner);
    forall v
      ensures v in ViewsBelow(t, n) <==> v in t
    {
      ViewBelow(t, n, v);
      if v in t {
        assert Marked(t, v, owner(v));
      }
    }
    assert ViewsBelow(t, n) == t.Keys;
    assert |t.Keys| == |t|;
  }
}
