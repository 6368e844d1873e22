/** Parent pointers over a finite set of ids: ancestors, cycles, and what one changed pointer does. */
module ParentMap {
  import opened Prelude
  import opened Sets

  type Id = nat
  type Parents = map<Id, Option<Id>>

  /** Following `n` parent pointers from `x` arrives at `a`. */
  predicate Reaches(P: Parents, x: Id, a: Id, n: nat)
    decreases n
  {
    if n == 0 then x == a else x in P && P[x].Some? && Reaches(P, P[x].value, a, n - 1)
  }

  /** The parent chain of `x` reaches `a` in one or more steps. */
  ghost predicate Below(P: Parents, x: Id, a: Id) {
    exists n: nat :: 1 <= n && Reaches(P, x, a, n)
  }

  ghost predicate InSubtree(P: Parents, x: Id, a: Id) {
    x == a || Below(P, x, a)
  }

  ghost predicate Acyclic(P: Parents) {
    forall x :: x in P ==> !Below(P, x, x)
  }

  predicate Closed(P: Parents) {
    forall x :: x in P && P[x].Some? ==> P[x].value in P
  }

  ghost predicate Forest(P: Parents) {
    Acyclic(P) && Closed(P)
  }

  ghost function DescendantSet(P: Parents, a: Id): set<Id> {
    set x | x in P && Below(P, x, a)
  }

  lemma {:induction false} ReachesCompose(P: Parents, x: Id, y: Id, z: Id, n: nat, m: nat)
    requires Reaches(P, x, y, n) && Reaches(P, y, z, m)
    ensures Reaches(P, x, z, n + m)
    decreases n
  {
    if n > 0 {
      ReachesCompose(P, P[x].value, y, z, n - 1, m);
    }
  }

  lemma BelowTransitive(P: Parents, x: Id, y: Id, z: Id)
    requires Below(P, x, y) && Below(P, y, z)
    ensures Below(P, x, z)
  {
    var n: nat :| 1 <= n && Reaches(P, x, y, n);
    var m: nat :| 1 <= m && Reaches(P, y, z, m);
    ReachesCompose(P, x, y, z, n, m);
  }

  lemma ParentIsAbove(P: Parents, x: Id)
    requires x in P && P[x].Some?
    ensures Below(P, x, P[x].value)
  {
    assert Reaches(P, P[x].value, P[x].value, 0);
    assert Reaches(P, x, P[x].value, 1);
  }

  /** The step of a chain that arrives: it goes through a child of its end. */
  lemma {:induction false} ArrivesThroughChild(P: Parents, x: Id, a: Id, n: nat) returns (k: Id)
    requires 1 <= n && Reaches(P, x, a, n)
    ensures k in P && P[k] == Some(a) && Reaches(P, x, k, n - 1)
    decreases n
  {
    if n == 1 {
      k := x;
    } else {
      k := ArrivesThroughChild(P, P[x].value, a, n - 1);
    }
  }

  lemma BelowThroughChild(P: Parents, x: Id, a: Id) returns (k: Id)
    requires Below(P, x, a)
    ensures k in P && P[k] == Some(a) && InSubtree(P, x, k)
  {
    var n: nat :| 1 <= n && Reaches(P, x, a, n);
    k := ArrivesThroughChild(P, x, a, n);
  }

  /** Two nodes on the same chain: the later one is above the earlier one. */
  lemma {:induction false} ChainIsLinear(P: Parents, x: Id, y: Id, z: Id, n: nat, m: nat)
    requires Reaches(P, x, y, n) && Reaches(P, x, z, m) && n <= m
    ensures Reaches(P, y, z, m - n)
    decreases n
  {
    if n > 0 {
      ChainIsLinear(P, P[x].value, y, z, n - 1, m - 1);
    }
  }

  lemma SubtreesNest(P: Parents, x: Id, y: Id, z: Id)
    requires InSubtree(P, x, y) && InSubtree(P, x, z)
    ensures InSubtree(P, y, z) || InSubtree(P, z, y)
  {
    assert Reaches(P, x, x, 0);
    var n: nat :| Reaches(P, x, y, n);
    var m: nat :| Reaches(P, x, z, m);
    if n <= m {
      ChainIsLinear(P, x, y, z, n, m);
      assert m == n || Below(P, y, z);
    } else {
      ChainIsLinear(P, x, z, y, m, n);
      assert Below(P, z, y);
    }
  }

  /** In a forest, siblings have disjoint subtrees, and none contains the parent. */
  lemma SiblingSubtreesDisjoint(P: Parents, x: Id, y: Id, z: Id)
    requires Forest(P) && y in P && z in P && P[y] == P[z] && y != z
    ensures !(InSubtree(P, x, y) && InSubtree(P, x, z))
  {
    if InSubtree(P, x, y) && InSubtree(P, x, z) {
      SubtreesNest(P, x, y, z);
      if Below(P, y, z) {
        SiblingNotBelow(P, y, z);
      } else {
        SiblingNotBelow(P, z, y);
      }
    }
  }

  lemma SiblingNotBelow(P: Parents, y: Id, z: Id)
    requires Forest(P) && y in P && z in P && P[y] == P[z]
    ensures !Below(P, y, z)
  {
    if Below(P, y, z) {
      var n: nat :| 1 <= n && Reaches(P, y, z, n);
      var p := P[y].value;
      assert Reaches(P, p, z, n - 1);
      assert Reaches(P, z, z, n);
      assert Below(P, z, z);
    }
  }

  lemma ParentOutsideSubtree(P: Parents, k: Id)
    requires Forest(P) && k in P && P[k].Some?
    ensures !InSubtree(P, P[k].value, k)
  {
    ParentIsAbove(P, k);
    if Below(P, P[k].value, k) {
      BelowTransitive(P, P[k].value, k, P[k].value);
    }
  }

  /** Children have fewer descendants. */
  lemma ChildIsSmaller(P: Parents, k: Id)
    requires Forest(P) && k in P && P[k].Some?
    ensures |DescendantSet(P, k)| < |DescendantSet(P, P[k].value)|
  {
    var a := P[k].value;
    ParentIsAbove(P, k);
    forall x | x in DescendantSet(P, k) ensures x in DescendantSet(P, a) {
      BelowTransitive(P, x, k, a);
    }
    assert k in DescendantSet(P, a) && k !in DescendantSet(P, k);
    SetsByInclusion(DescendantSet(P, k), DescendantSet(P, a));
  }

  ghost function AncestorSet(P: Parents, x: Id): set<Id> {
    set a | a in P && Below(P, x, a)
  }

  /** In a forest every chain ends in a root. */
  lemma {:induction false} ReachesRoot(P: Parents, x: Id) returns (root: Id)
    requires Forest(P) && x in P
    ensures root in P && P[root].None? && InSubtree(P, x, root)
    decreases |AncestorSet(P, x)|
  {
    if P[x].None? {
      root := x;
    } else {
      var a := P[x].value;
      ParentIsAbove(P, x);
      forall b | b in AncestorSet(P, a) ensures b in AncestorSet(P, x) {
        BelowTransitive(P, x, a, b);
      }
      assert a in AncestorSet(P, x) && a !in AncestorSet(P, a);
      SetsByInclusion(AncestorSet(P, a), AncestorSet(P, x));
      root := ReachesRoot(P, a);
      if a != root {
        BelowTransitive(P, x, a, root);
      }
    }
  }

  // ---- Changing one pointer ----------------------------------------------------------------

  /** A chain that arrives at `c` survives, perhaps shortened, when only `c`'s own pointer changes. */
  lemma {:induction false} ChainSurvivesRepointing(P: Parents, Q: Parents, y: Id, c: Id, n: nat) returns (m: nat)
    requires forall x :: x in P && x != c ==> x in Q && Q[x] == P[x]
    requires Reaches(P, y, c, n)
    ensures m <= n && Reaches(Q, y, c, m)
    decreases n
  {
    if y == c {
      m := 0;
    } else {
      m := ChainSurvivesRepointing(P, Q, P[y].value, c, n - 1);
      m := m + 1;
    }
  }

  /** A chain either avoids the changed pointer or passes through its owner. */
  lemma {:induction false} ChainAvoidsOrPasses(Q: Parents, P: Parents, x: Id, z: Id, c: Id, n: nat) returns (k: nat)
    requires forall y :: y in Q && y != c ==> y in P && P[y] == Q[y]
    requires Reaches(Q, x, z, n)
    ensures k <= n
    ensures k == n ==> Reaches(P, x, z, n)
    ensures k < n ==> Reaches(Q, x, c, k) && Reaches(Q, c, z, n - k)
    decreases n
  {
    if n == 0 {
      k := 0;
    } else if x == c {
      k := 0;
    } else {
      k := ChainAvoidsOrPasses(Q, P, Q[x].value, z, c, n - 1);
      k := k + 1;
    }
  }

  /** Pointing `c` at `q` closes a cycle exactly when `q` is in the subtree of `c`. */
  lemma RepointKeepsAcyclicIff(P: Parents, c: Id, q: Id)
    requires Acyclic(P)
    ensures Acyclic(P[c := Some(q)]) <==> !InSubtree(P, q, c)
  {
    var Q := P[c := Some(q)];
    if InSubtree(P, q, c) {
      assert Reaches(P, q, q, 0);
      var n: nat :| Reaches(P, q, c, n);
      var m := ChainSurvivesRepointing(P, Q, q, c, n);
      assert Reaches(Q, c, c, m + 1);
      assert Below(Q, c, c);
    }
    if !Acyclic(Q) {
      var x :| x in Q && Below(Q, x, x);
      RepointedCycleIsThroughOwner(P, c, q, x);
    }
  }

  lemma RepointedCycleIsThroughOwner(P: Parents, c: Id, q: Id, x: Id)
    requires Acyclic(P) && Below(P[c := Some(q)], x, x)
    ensures InSubtree(P, q, c)
  {
    var Q := P[c := Some(q)];
    var n: nat :| 1 <= n && Reaches(Q, x, x, n);
    var k := ChainAvoidsOrPasses(Q, P, x, x, c, n);
    if k == n {
      assert Below(P, x, x);
    } else {
      ReachesCompose(Q, c, x, c, n - k, k);
      assert Reaches(Q, q, c, n - 1);
      var m := ChainSurvivesRepointing(Q, P, q, c, n - 1);
    }
  }

  lemma UnrootKeepsAcyclic(P: Parents, c: Id)
    requires Acyclic(P)
    ensures Acyclic(P[c := None])
  {
    var Q := P[c := None];
    forall x | x in Q ensures !Below(Q, x, x) {
      if Below(Q, x, x) {
        var n: nat :| 1 <= n && Reaches(Q, x, x, n);
        var k := ChainAvoidsOrPasses(Q, P, x, x, c, n);
        assert k == n;
        assert Below(P, x, x);
      }
    }
  }

  lemma {:induction false} FewerPointersFewerChains(Q: Parents, P: Parents, x: Id, z: Id, n: nat)
    requires forall y :: y in Q ==> y in P && P[y] == Q[y]
    requires Reaches(Q, x, z, n)
    ensures Reaches(P, x, z, n)
    decreases n
  {
    if n > 0 {
      FewerPointersFewerChains(Q, P, Q[x].value, z, n - 1);
    }
  }

  lemma RemovalKeepsAcyclic(P: Parents, Q: Parents)
    requires Acyclic(P)
    requires forall y :: y in Q ==> y in P && P[y] == Q[y]
    ensures Acyclic(Q)
  {
    forall x | x in Q ensures !Below(Q, x, x) {
      if Below(Q, x, x) {
        var n: nat :| 1 <= n && Reaches(Q, x, x, n);
        FewerPointersFewerChains(Q, P, x, x, n);
      }
    }
  }

  /** Chains of a closed map stay inside it. */
  lemma {:induction false} ChainsStayInside(P: Parents, x: Id, a: Id, n: nat)
    requires Closed(P) && x in P && Reaches(P, x, a, n)
    ensures a in P
    decreases n
  {
    if n > 0 {
      ChainsStayInside(P, P[x].value, a, n - 1);
    }
  }

  // ---- The descendants by closure ----------------------------------------------------------

  /** A set that contains every child of its members and of `start` contains everything below `start`. */
  lemma {:induction false} ClosedSetHoldsChain(P: Parents, D: set<Id>, start: Id, x: Id, n: nat)
    requires forall y :: y in P && P[y].Some? && (P[y].value == start || P[y].value in D) ==> y in D
    requires 1 <= n && Reaches(P, x, start, n)
    ensures x in D
    decreases n
  {
    if n > 1 {
      ClosedSetHoldsChain(P, D, start, P[x].value, n - 1);
    }
  }
}
