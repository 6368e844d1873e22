/** The category table as `list_all` returns it, its parent pointers, and the descendant worklist. */
module Categories {
  import opened Prelude
  import opened ParentMap

  /** `nameRank` is the place of the name in the collation that orders the listing. */
  datatype Category = Category(
    id: Id,
    parent: Option<Id>,
    nameRank: int,
    slug: string,
    active: bool,
    sortOrder: int)

  predicate DistinctIds(rows: seq<Category>) {
    forall i, j :: 0 <= i < j < |rows| ==> rows[i].id != rows[j].id
  }

  function ParentsOf(rows: seq<Category>): Parents {
    if rows == [] then map[]
    else var last := rows[|rows| - 1]; ParentsOf(rows[..|rows| - 1])[last.id := last.parent]
  }

  lemma {:induction false} ParentsOfRows(rows: seq<Category>)
    ensures forall x :: x in ParentsOf(rows) <==> exists i :: 0 <= i < |rows| && rows[i].id == x
    ensures DistinctIds(rows) ==> forall i :: 0 <= i < |rows| ==> ParentsOf(rows)[rows[i].id] == rows[i].parent
    decreases |rows|
  {
    if rows != [] {
      var init := rows[..|rows| - 1];
      ParentsOfRows(init);
      assert forall i :: 0 <= i < |init| ==> init[i] == rows[i];
      forall x | x in ParentsOf(rows) ensures exists i :: 0 <= i < |rows| && rows[i].id == x {
        if x in ParentsOf(init) {
          var i :| 0 <= i < |init| && init[i].id == x;
          assert rows[i].id == x;
        } else {
          assert rows[|rows| - 1].id == x;
        }
      }
      forall i | 0 <= i < |rows| ensures rows[i].id in ParentsOf(rows) {
        assert i < |init| ==> init[i].id in ParentsOf(init);
      }
    }
  }

  /** The rows under a parent (or the roots), in listing order. */
  function ChildrenOf(rows: seq<Category>, q: Option<Id>): seq<Category> {
    if rows == [] then []
    else
      var last := rows[|rows| - 1];
      ChildrenOf(rows[..|rows| - 1], q) + if last.parent == q then [last] else []
  }

  lemma {:induction false} ChildrenOfMembers(rows: seq<Category>, q: Option<Id>)
    ensures forall c :: c in ChildrenOf(rows, q) <==> c in rows && c.parent == q
    ensures DistinctIds(rows) ==> DistinctIds(ChildrenOf(rows, q))
    ensures |ChildrenOf(rows, q)| <= |rows|
    decreases |rows|
  {
    if rows != [] {
      var init, last := rows[..|rows| - 1], rows[|rows| - 1];
      assert rows == init + [last];
      ChildrenOfMembers(init, q);
      if DistinctIds(rows) && last.parent == q {
        var before, kids := ChildrenOf(init, q), ChildrenOf(rows, q);
        forall i, j | 0 <= i < j < |kids| ensures kids[i].id != kids[j].id {
          if j == |before| {
            assert before[i] in init;
            var k :| 0 <= k < |init| && init[k] == before[i];
            assert rows[k].id != rows[|rows| - 1].id;
          }
        }
      }
    }
  }

  lemma ChildrenSnoc(rows: seq<Category>, c: Category, q: Option<Id>)
    ensures ChildrenOf(rows + [c], q) == ChildrenOf(rows, q) + if c.parent == q then [c] else []
  {
    assert (rows + [c])[..|rows|] == rows;
  }

  lemma ChildrenNext(rows: seq<Category>, i: nat, q: Option<Id>)
    requires i < |rows|
    ensures ChildrenOf(rows[..i + 1], q)
         == if rows[i].parent == q then ChildrenOf(rows[..i], q) + [rows[i]] else ChildrenOf(rows[..i], q)
  {
    assert rows[..i + 1] == rows[..i] + [rows[i]];
    ChildrenSnoc(rows[..i], rows[i], q);
  }

  lemma {:induction false} ChildrenConcat(xs: seq<Category>, ys: seq<Category>, q: Option<Id>)
    ensures ChildrenOf(xs + ys, q) == ChildrenOf(xs, q) + ChildrenOf(ys, q)
    decreases |ys|
  {
    if ys == [] {
      assert xs + ys == xs;
    } else {
      assert (xs + ys)[..|xs + ys| - 1] == xs + ys[..|ys| - 1];
      ChildrenConcat(xs, ys[..|ys| - 1], q);
    }
  }

  /** A category is the parent of exactly the children listed under it. */
  lemma ChildOfIff(rows: seq<Category>, x: Id, a: Id)
    requires DistinctIds(rows)
    ensures x in ParentsOf(rows) && ParentsOf(rows)[x] == Some(a)
      <==> exists c :: c in ChildrenOf(rows, Some(a)) && c.id == x
  {
    ParentsOfRows(rows);
    ChildrenOfMembers(rows, Some(a));
    if x in ParentsOf(rows) && ParentsOf(rows)[x] == Some(a) {
      var i :| 0 <= i < |rows| && rows[i].id == x;
      assert rows[i] in ChildrenOf(rows, Some(a));
    }
  }

  /** Looks up a key of the grouping dictionary, `[]` when absent. */
  function Grouped(groups: map<Option<Id>, seq<Category>>, q: Option<Id>): seq<Category> {
    if q in groups then groups[q] else []
  }

  lemma GroupNext(groups: map<Option<Id>, seq<Category>>, groups': map<Option<Id>, seq<Category>>, rows: seq<Category>, i: nat)
    requires i < |rows| && forall q :: Grouped(groups, q) == ChildrenOf(rows[..i], q)
    requires groups' == groups[rows[i].parent := Grouped(groups, rows[i].parent) + [rows[i]]]
    ensures forall q :: Grouped(groups', q) == ChildrenOf(rows[..i + 1], q)
  {
    forall q ensures Grouped(groups', q) == ChildrenOf(rows[..i + 1], q) {
      ChildrenNext(rows, i, q);
    }
  }

  method GroupByParent(rows: seq<Category>) returns (groups: map<Option<Id>, seq<Category>>)
    ensures forall q :: Grouped(groups, q) == ChildrenOf(rows, q)
  {
    groups := map[];
    for i := 0 to |rows|
      invariant forall q :: Grouped(groups, q) == ChildrenOf(rows[..i], q)
    {
      ghost var before := groups;
      groups := groups[rows[i].parent := Grouped(groups, rows[i].parent) + [rows[i]]];
      GroupNext(before, groups, rows, i);
    }
    assert rows[..|rows|] == rows;
  }

  /** Every child of `a` has been found. */
  ghost predicate Expanded(rows: seq<Category>, found: set<Id>, a: Id) {
    forall c :: c in ChildrenOf(rows, Some(a)) ==> c.id in found
  }

  /** The inner loop: adds the unseen children to the set and to the frontier. */
  method Discover(children: seq<Category>, found: set<Id>, frontier: seq<Id>) returns (found': set<Id>, frontier': seq<Id>)
    ensures found' == found + set c | c in children :: c.id
    ensures frontier <= frontier'
    ensures forall f :: f in frontier'[|frontier|..] <==> f in found' && f !in found
    ensures found' == found ==> frontier' == frontier
  {
    found', frontier' := found, frontier;
    for i := 0 to |children|
      invariant found' == found + set c | c in children[..i] :: c.id
      invariant frontier <= frontier'
      invariant forall f :: f in frontier'[|frontier|..] <==> f in found' && f !in found
      invariant found' == found ==> frontier' == frontier
    {
      assert children[..i + 1] == children[..i] + [children[i]];
      if children[i].id !in found' {
        ghost var added := frontier'[|frontier|..];
        found' := found' + {children[i].id};
        frontier' := frontier' + [children[i].id];
        assert frontier'[|frontier|..] == added + [children[i].id];
      }
    }
    assert children[..|children|] == children;
  }

  /**
   * The worklist: terminates on any table, cyclic or not, and collects exactly the ids whose parent chain
   * reaches `start` in one or more steps.
   */
  method GetDescendantIds(rows: seq<Category>, start: Id) returns (descendants: set<Id>)
    requires DistinctIds(rows)
    ensures forall x :: x in descendants <==> Below(ParentsOf(rows), x, start)
    ensures Acyclic(ParentsOf(rows)) ==> start !in descendants
  {
    var childrenByParent := GroupByParent(rows);
    descendants := {};
    var frontier := [start];
    while frontier != []
      invariant SomeBelow(rows, start, descendants)
      invariant Pending(rows, start, descendants, frontier)
      decreases ParentsOf(rows).Keys - descendants, |frontier|
    {
      var current := frontier[|frontier| - 1];
      ghost var before, open := descendants, frontier;
      frontier := frontier[..|frontier| - 1];
      var children := Grouped(childrenByParent, Some(current));
      descendants, frontier := Discover(children, descendants, frontier);
      WorklistStep(rows, start, before, open, descendants, frontier);
    }
    WorklistComplete(rows, start, descendants);
  }

  /** Found ids wait in the frontier, or their children have been found too. */
  ghost predicate Pending(rows: seq<Category>, start: Id, found: set<Id>, frontier: seq<Id>) {
    && (forall f :: f in frontier ==> f == start || f in found)
    && (forall a :: a == start || a in found ==> a in frontier || Expanded(rows, found, a))
  }

  lemma WorklistStep(rows: seq<Category>, start: Id, found: set<Id>, frontier: seq<Id>, found': set<Id>, frontier': seq<Id>)
    requires DistinctIds(rows) && frontier != []
    requires SomeBelow(rows, start, found) && Pending(rows, start, found, frontier)
    requires var children := ChildrenOf(rows, Some(frontier[|frontier| - 1]));
             found' == found + set c | c in children :: c.id
    requires frontier[..|frontier| - 1] <= frontier'
    requires forall f :: f in frontier'[|frontier| - 1..] <==> f in found' && f !in found
    ensures SomeBelow(rows, start, found') && Pending(rows, start, found', frontier')
    ensures found' <= ParentsOf(rows).Keys
  {
    var current, rest, added := frontier[|frontier| - 1], frontier[..|frontier| - 1], frontier'[|frontier| - 1..];
    assert frontier == rest + [current] && frontier' == rest + added;
    ChildrenBelow(rows, start, current);
    forall a | a == start || a in found' ensures a in frontier' || Expanded(rows, found', a) {
      if a in found' && a !in found {
        assert a in added;
      } else if a != current && a !in rest {
        assert Expanded(rows, found, a);
      }
    }
  }

  ghost predicate SomeBelow(rows: seq<Category>, start: Id, found: set<Id>) {
    forall d :: d in found ==> d in ParentsOf(rows) && Below(ParentsOf(rows), d, start)
  }

  lemma WorklistComplete(rows: seq<Category>, start: Id, found: set<Id>)
    requires DistinctIds(rows) && SomeBelow(rows, start, found)
    requires forall a :: a == start || a in found ==> Expanded(rows, found, a)
    ensures forall x :: x in found <==> Below(ParentsOf(rows), x, start)
    ensures Acyclic(ParentsOf(rows)) ==> start !in found
  {
    var P := ParentsOf(rows);
    forall y | y in P && P[y].Some? && (P[y].value == start || P[y].value in found) ensures y in found {
      assert Expanded(rows, found, P[y].value);
      ChildOfIff(rows, y, P[y].value);
    }
    forall x | Below(P, x, start) ensures x in found {
      var n: nat :| 1 <= n && Reaches(P, x, start, n);
      ClosedSetHoldsChain(P, found, start, x, n);
    }
  }

  lemma ChildrenBelow(rows: seq<Category>, start: Id, a: Id)
    requires DistinctIds(rows)
    requires a == start || Below(ParentsOf(rows), a, start)
    ensures forall c :: c in ChildrenOf(rows, Some(a)) ==> c.id in ParentsOf(rows) && Below(ParentsOf(rows), c.id, start)
  {
    var P := ParentsOf(rows);
    forall c | c in ChildrenOf(rows, Some(a)) ensures c.id in P && Below(P, c.id, start) {
      ChildOfIff(rows, c.id, a);
      ParentIsAbove(P, c.id);
      if a != start {
        BelowTransitive(P, c.id, a, start);
      }
    }
  }
}
