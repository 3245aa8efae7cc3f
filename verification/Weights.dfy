/** Reputation-weighted voting: one view's reputation table and the sums taken over it.
    A Go map is iterated in random order, so the totals are defined over key sets and
    the loops that compute them are proved to reach the same value in every order. */
module Weights {

  /** The reputation of every node in one view. */
  type Table = map<nat, real>

  /** The node identities 0 to n-1. */
  function Nodes(n: nat): (r: set<nat>)
    ensures |r| == n
    ensures forall id: nat :: id in r <==> id < n
  {
    if n == 0 then {} else Nodes(n - 1) + {n - 1}
  }

  function WeightOf(w: Table, id: nat): real {
    if id in w then w[id] else 0.0
  }

  ghost predicate NonNegative(w: Table) {
    forall id :: id in w ==> w[id] >= 0.0
  }

  ghost function Sum(w: Table, s: set<nat>): real {
    if s == {} then 0.0 else
      var x :| x in s;
      WeightOf(w, x) + Sum(w, s - {x})
  }

  /** The certification benchmark: half of the table's total. */
  ghost function Half(w: Table): real {
    Sum(w, w.Keys) * 0.5
  }

  ghost predicate Outweighs(w: Table, s: set<nat>) {
    Sum(w, s) > Half(w)
  }

  /** Any element may be taken first. */
  lemma {:induction false} SumAt(w: Table, s: set<nat>, x: nat)
    requires x in s
    ensures Sum(w, s) == WeightOf(w, x) + Sum(w, s - {x})
    decreases s
  {
    var y :| y in s && Sum(w, s) == WeightOf(w, y) + Sum(w, s - {y});
    if y != x {
      SumAt(w, s - {y}, x);
      SumAt(w, s - {x}, y);
      assert s - {y} - {x} == s - {x} - {y};
    }
  }

  lemma {:induction false} SumAdd(w: Table, s: set<nat>, x: nat)
    requires x !in s
    ensures Sum(w, s + {x}) == WeightOf(w, x) + Sum(w, s)
  {
    SumAt(w, s + {x}, x);
    assert s + {x} - {x} == s;
  }

  lemma {:induction false} SumNonNegative(w: Table, s: set<nat>)
    requires NonNegative(w)
    ensures Sum(w, s) >= 0.0
    decreases s
  {
    if s != {} {
      var x :| x in s;
      SumAt(w, s, x);
      SumNonNegative(w, s - {x});
    }
  }

  lemma {:induction false} SumDisjoint(w: Table, s: set<nat>, t: set<nat>)
    requires s !! t
    ensures Sum(w, s + t) == Sum(w, s) + Sum(w, t)
    decreases t
  {
    if t == {} {
      assert s + t == s;
    } else {
      var x :| x in t;
      SumAt(w, t, x);
      SumAt(w, s + t, x);
      assert s + t - {x} == s + (t - {x});
      SumDisjoint(w, s, t - {x});
    }
  }

  lemma {:induction false} SumMonotone(w: Table, s: set<nat>, t: set<nat>)
    requires NonNegative(w) && s <= t
    ensures Sum(w, s) <= Sum(w, t)
  {
    assert t == s + (t - s);
    SumDisjoint(w, s, t - s);
    SumNonNegative(w, t - s);
  }

  lemma {:induction false} SumUniform(w: Table, s: set<nat>, c: real)
    requires s <= w.Keys && forall id :: id in s ==> w[id] == c
    ensures Sum(w, s) == |s| as real * c
    decreases s
  {
    if s != {} {
      var x :| x in s;
      SumAt(w, s, x);
      SumUniform(w, s - {x}, c);
    }
  }

  /** Two certificates formed under one table share a signer. */
  lemma {:induction false} QuorumsIntersect(w: Table, s: set<nat>, t: set<nat>)
    requires NonNegative(w) && s <= w.Keys && t <= w.Keys
    requires Outweighs(w, s) && Outweighs(w, t)
    ensures exists id :: id in s && id in t
  {
    if s !! t {
      SumDisjoint(w, s, t);
      SumMonotone(w, s + t, w.Keys);
      assert false;
    }
  }

  /** A certificate cannot be formed by nodes that hold at most half of the reputation. */
  lemma {:induction false} QuorumLeaves(w: Table, s: set<nat>, bad: set<nat>)
    requires NonNegative(w) && Outweighs(w, s) && Sum(w, bad) <= Half(w)
    ensures exists id :: id in s && id !in bad
  {
    if s <= bad {
      SumMonotone(w, s, bad);
      assert false;
    }
  }

  /** Under equal positive weights the weighted rule is the plain majority of distinct voters. */
  lemma {:induction false} UniformIsMajority(w: Table, s: set<nat>, c: real)
    requires c > 0.0 && s <= w.Keys && forall id :: id in w ==> w[id] == c
    ensures Outweighs(w, s) <==> 2 * |s| > |w|
  {
    SumUniform(w, s, c);
    SumUniform(w, w.Keys, c);
    assert |w.Keys| == |w|;
    MajorityArithmetic(|s|, |w|, c);
  }

  lemma MajorityArithmetic(k: nat, n: nat, c: real)
    requires c > 0.0
    ensures k as real * c > n as real * c * 0.5 <==> 2 * k > n
  {
    var d := 2.0 * k as real - n as real;
    assert 2.0 * (k as real * c) - n as real * c == d * c;
    if d > 0.0 {
      assert d * c > 0.0;
    } else {
      assert d * c <= 0.0;
    }
  }

  // Sequences of identities, as they travel inside a certificate.

  ghost predicate Distinct(ids: seq<nat>) {
    forall i, j :: 0 <= i < j < |ids| ==> ids[i] != ids[j]
  }

  ghost function Elements(ids: seq<nat>): set<nat> {
    set id | id in ids
  }

  /** The sum a loop over the sequence reaches: repeated identities count again. */
  ghost function SeqSum(w: Table, ids: seq<nat>): real {
    if ids == [] then 0.0
    else SeqSum(w, ids[..|ids| - 1]) + WeightOf(w, ids[|ids| - 1])
  }

  lemma {:induction false} SeqSumDistinct(w: Table, ids: seq<nat>)
    requires Distinct(ids)
    ensures SeqSum(w, ids) == Sum(w, Elements(ids))
  {
    if ids != [] {
      var front, last := ids[..|ids| - 1], ids[|ids| - 1];
      SeqSumDistinct(w, front);
      assert ids == front + [last];
      assert Elements(ids) == Elements(front) + {last};
      assert last !in Elements(front);
      SumAdd(w, Elements(front), last);
    }
  }
}
