/** Creating, moving and deleting categories, and the cached tree: every run keeps a forest. */
module CategoryService {
  import opened Prelude
  import opened ParentMap
  import opened Categories
  import opened CategoryTree

  /** `used` holds the categories that have products. */
  datatype Catalog = Catalog(rows: seq<Category>, used: set<Id>, cache: Option<seq<Tree>>)

  // ---- The listing -------------------------------------------------------------------------

  /** The order of `list_all`. */
  predicate ListedBefore(a: Category, b: Category) {
    a.sortOrder < b.sortOrder || (a.sortOrder == b.sortOrder && a.nameRank <= b.nameRank)
  }

  predicate Listing(rows: seq<Category>) {
    forall i, j :: 0 <= i < j < |rows| ==> ListedBefore(rows[i], rows[j])
  }

  function Insert(rows: seq<Category>, c: Category): seq<Category> {
    if rows == [] then [c]
    else
      var last := rows[|rows| - 1];
      if ListedBefore(last, c) then rows + [c] else Insert(rows[..|rows| - 1], c) + [last]
  }

  function FindRow(rows: seq<Category>, id: Id): (found: Option<nat>)
    ensures found.Some? ==> found.value < |rows| && rows[found.value].id == id
    ensures found.None? ==> forall i :: 0 <= i < |rows| ==> rows[i].id != id
  {
    if rows == [] then None
    else
      var last := |rows| - 1;
      if rows[last].id == id then Some(last) else FindRow(rows[..last], id)
  }

  function WithoutRow(rows: seq<Category>, i: nat): seq<Category>
    requires i < |rows|
  {
    rows[..i] + rows[i + 1..]
  }

  predicate SlugTaken(rows: seq<Category>, slug: string) {
    exists i :: 0 <= i < |rows| && rows[i].slug == slug
  }

  lemma ListingSnoc(rows: seq<Category>, c: Category)
    requires Listing(rows) && forall d :: d in rows ==> ListedBefore(d, c)
    ensures Listing(rows + [c])
  {
  }

  lemma ListingInit(init: seq<Category>, last: Category)
    requires Listing(init + [last])
    ensures Listing(init) && forall d :: d in init ==> ListedBefore(d, last)
  {
    var rows := init + [last];
    assert forall i :: 0 <= i < |init| ==> rows[i] == init[i];
    assert rows[|init|] == last;
  }

  lemma {:induction false} InsertMembers(rows: seq<Category>, c: Category)
    ensures forall d :: d in Insert(rows, c) <==> d in rows || d == c
    decreases |rows|
  {
    if rows != [] {
      assert rows == rows[..|rows| - 1] + [rows[|rows| - 1]];
      InsertMembers(rows[..|rows| - 1], c);
    }
  }

  lemma {:induction false} InsertKeepsListing(rows: seq<Category>, c: Category)
    requires Listing(rows)
    ensures Listing(Insert(rows, c))
    decreases |rows|
  {
    if rows != [] {
      var init, last := rows[..|rows| - 1], rows[|rows| - 1];
      assert rows == init + [last];
      ListingInit(init, last);
      if ListedBefore(last, c) {
        ListingSnoc(rows, c);
      } else {
        InsertKeepsListing(init, c);
        InsertMembers(init, c);
        ListingSnoc(Insert(init, c), last);
      }
    }
  }

  lemma DistinctSnoc(rows: seq<Category>, c: Category)
    requires DistinctIds(rows) && forall d :: d in rows ==> d.id != c.id
    ensures DistinctIds(rows + [c])
  {
  }

  lemma {:induction false} InsertKeepsDistinct(rows: seq<Category>, c: Category)
    requires DistinctIds(rows) && forall d :: d in rows ==> d.id != c.id
    ensures DistinctIds(Insert(rows, c))
    decreases |rows|
  {
    if rows != [] {
      var init, last := rows[..|rows| - 1], rows[|rows| - 1];
      assert rows == init + [last];
      if ListedBefore(last, c) {
        DistinctSnoc(rows, c);
      } else {
        assert forall d :: d in init ==> d.id != last.id;
        InsertMembers(init, c);
        InsertKeepsDistinct(init, c);
        DistinctSnoc(Insert(init, c), last);
      }
    }
  }

  /** Inserting adds the row, and nothing else. */
  lemma {:induction false} InsertAdds(rows: seq<Category>, c: Category)
    ensures multiset(Insert(rows, c)) == multiset(rows) + multiset{c}
    decreases |rows|
  {
    if rows != [] {
      InsertAdds(rows[..|rows| - 1], c);
      assert rows == rows[..|rows| - 1] + [rows[|rows| - 1]];
    }
  }

  lemma WithoutRowTakes(rows: seq<Category>, i: nat)
    requires i < |rows|
    ensures multiset(WithoutRow(rows, i)) == multiset(rows) - multiset{rows[i]}
  {
    SplitRows(rows, i);
  }

  lemma SplitRows(rows: seq<Category>, i: nat)
    requires i < |rows|
    ensures rows == rows[..i] + [rows[i]] + rows[i + 1..]
  {
  }

  lemma ParentsAre(rows: seq<Category>, Q: Parents)
    requires DistinctIds(rows)
    requires forall c :: c in rows ==> c.id in Q && Q[c.id] == c.parent
    requires forall x :: x in Q ==> exists c :: c in rows && c.id == x
    ensures ParentsOf(rows) == Q
  {
    ParentsOfRows(rows);
    forall x ensures x in ParentsOf(rows) <==> x in Q {
      if x in Q {
        var c :| c in rows && c.id == x;
        var i :| 0 <= i < |rows| && rows[i] == c;
      }
    }
    forall x | x in Q ensures ParentsOf(rows)[x] == Q[x] {
      var i :| 0 <= i < |rows| && rows[i].id == x;
      assert rows[i] in rows;
    }
  }

  lemma RowKnown(rows: seq<Category>, x: Id)
    requires DistinctIds(rows) && x in ParentsOf(rows)
    ensures FindRow(rows, x).Some? && ParentsOf(rows)[x] == rows[FindRow(rows, x).value].parent
    ensures exists c :: c in rows && c.id == x
  {
    ParentsOfRows(rows);
    var i :| 0 <= i < |rows| && rows[i].id == x;
    assert rows[FindRow(rows, x).value] in rows;
  }

  lemma KnownIffFound(rows: seq<Category>, x: Id)
    requires DistinctIds(rows)
    ensures x in ParentsOf(rows) <==> FindRow(rows, x).Some?
  {
    ParentsOfRows(rows);
  }

  lemma UnknownIsNoParent(rows: seq<Category>, x: Id)
    requires DistinctIds(rows) && FindRow(rows, x).None?
    ensures x !in ParentsOf(rows)
  {
    KnownIffFound(rows, x);
  }

  lemma OnlyKnownAreBelow(rows: seq<Category>, x: Id, a: Id)
    ensures Below(ParentsOf(rows), x, a) ==> x in ParentsOf(rows)
  {
  }

  lemma InsertParents(rows: seq<Category>, c: Category)
    requires DistinctIds(rows) && c.id !in ParentsOf(rows)
    ensures DistinctIds(Insert(rows, c)) && ParentsOf(Insert(rows, c)) == ParentsOf(rows)[c.id := c.parent]
  {
    var P := ParentsOf(rows);
    forall d | d in rows ensures d.id != c.id && d.id in P && P[d.id] == d.parent {
      RowFacts(rows, d);
    }
    InsertMembers(rows, c);
    InsertKeepsDistinct(rows, c);
    var Q := P[c.id := c.parent];
    forall x | x in Q ensures exists d :: d in Insert(rows, c) && d.id == x {
      if x != c.id {
        RowKnown(rows, x);
        var d :| d in rows && d.id == x;
        assert d in Insert(rows, c);
      } else {
        assert c in Insert(rows, c);
      }
    }
    ParentsAre(Insert(rows, c), Q);
  }

  lemma RepointParents(rows: seq<Category>, i: nat, q: Option<Id>)
    requires DistinctIds(rows) && i < |rows|
    ensures var rows' := rows[i := rows[i].(parent := q)];
            DistinctIds(rows') && ParentsOf(rows') == ParentsOf(rows)[rows[i].id := q]
  {
    var rows' := rows[i := rows[i].(parent := q)];
    var Q := ParentsOf(rows)[rows[i].id := q];
    ParentsOfRows(rows);
    assert forall j :: 0 <= j < |rows| ==> rows'[j].id == rows[j].id;
    forall x | x in Q ensures exists c :: c in rows' && c.id == x {
      var j :| 0 <= j < |rows| && rows[j].id == x;
      assert rows'[j] in rows';
    }
    ParentsAre(rows', Q);
  }

  lemma WithoutRowMembers(rows: seq<Category>, i: nat)
    requires DistinctIds(rows) && i < |rows|
    ensures DistinctIds(WithoutRow(rows, i))
    ensures Listing(rows) ==> Listing(WithoutRow(rows, i))
    ensures forall d :: d in WithoutRow(rows, i) <==> d in rows && d.id != rows[i].id
  {
    var rows' := WithoutRow(rows, i);
    assert forall j :: 0 <= j < |rows'| ==> rows'[j] == rows[if j < i then j else j + 1];
    forall d | d in rows && d.id != rows[i].id ensures d in rows' {
      var j :| 0 <= j < |rows| && rows[j] == d;
      assert rows'[if j < i then j else j - 1] == d;
    }
  }

  lemma RemoveParents(rows: seq<Category>, i: nat)
    requires DistinctIds(rows) && i < |rows|
    ensures DistinctIds(WithoutRow(rows, i)) && ParentsOf(WithoutRow(rows, i)) == ParentsOf(rows) - {rows[i].id}
    ensures Listing(rows) ==> Listing(WithoutRow(rows, i))
  {
    WithoutRowMembers(rows, i);
    RestrictedParents(rows, WithoutRow(rows, i), rows[i].id);
  }

  lemma RestrictedParents(rows: seq<Category>, rows': seq<Category>, id: Id)
    requires DistinctIds(rows) && DistinctIds(rows')
    requires forall d :: d in rows' <==> d in rows && d.id != id
    ensures ParentsOf(rows') == ParentsOf(rows) - {id}
  {
    var Q := ParentsOf(rows) - {id};
    forall c | c in rows' ensures c.id in Q && Q[c.id] == c.parent {
      RowFacts(rows, c);
    }
    forall x | x in Q ensures exists c :: c in rows' && c.id == x {
      RowKnown(rows, x);
      var c :| c in rows && c.id == x;
      assert c in rows';
    }
    ParentsAre(rows', Q);
  }

  // ---- Transactions ------------------------------------------------------------------------

  ghost predicate Good(c: Catalog) {
    && ForestRows(c.rows)
    && Listing(c.rows)
    && (c.cache.Some? ==> c.cache.value == BuildForest(c.rows))
  }

  function CreateTx(c: Catalog, row: Category): Option<Catalog> {
    if SlugTaken(c.rows, row.slug) || (row.parent.Some? && FindRow(c.rows, row.parent.value).None?)
       || FindRow(c.rows, row.id).Some?
    then None
    else Some(c.(rows := Insert(c.rows, row), cache := None))
  }

  function UpdatedRow(row: Category, name: Option<int>, active: Option<bool>, order: Option<int>): Category {
    row.(nameRank := if name.Some? then name.value else row.nameRank,
         active := if active.Some? then active.value else row.active,
         sortOrder := if order.Some? then order.value else row.sortOrder)
  }

  function UpdateTx(c: Catalog, id: Id, name: Option<int>, active: Option<bool>, order: Option<int>): Option<Catalog> {
    match FindRow(c.rows, id)
    case None => None
    case Some(i) =>
      Some(c.(rows := Insert(WithoutRow(c.rows, i), UpdatedRow(c.rows[i], name, active, order)), cache := None))
  }

  ghost function MoveTx(c: Catalog, id: Id, q: Option<Id>): Option<Catalog> {
    match FindRow(c.rows, id)
    case None => None
    case Some(i) =>
      if q.Some? && (q.value == id || FindRow(c.rows, q.value).None? || Below(ParentsOf(c.rows), q.value, id)) then None
      else Some(c.(rows := c.rows[i := c.rows[i].(parent := q)], cache := None))
  }

  function DeleteTx(c: Catalog, id: Id): Option<Catalog> {
    match FindRow(c.rows, id)
    case None => None
    case Some(i) =>
      if ChildrenOf(c.rows, Some(id)) != [] || id in c.used then None
      else Some(c.(rows := WithoutRow(c.rows, i), cache := None))
  }

  /** `move` to an existing parent goes through exactly when the moved pointers are still a forest. */
  lemma MoveRejectsExactlyCycles(c: Catalog, id: Id, q: Id)
    requires Good(c) && FindRow(c.rows, id).Some? && FindRow(c.rows, q).Some?
    ensures MoveTx(c, id, Some(q)).Some? <==> Forest(ParentsOf(c.rows)[id := Some(q)])
  {
    var P := ParentsOf(c.rows);
    RowFacts(c.rows, c.rows[FindRow(c.rows, q).value]);
    RepointKeepsAcyclicIff(P, id, q);
  }

  lemma CreateKeepsGood(c: Catalog, row: Category)
    requires Good(c) && CreateTx(c, row).Some?
    ensures Good(CreateTx(c, row).value)
  {
    var P := ParentsOf(c.rows);
    if row.id in P {
      RowKnown(c.rows, row.id);
      assert false;
    }
    InsertParents(c.rows, row);
    InsertKeepsListing(c.rows, row);
    if row.parent.Some? {
      var q := row.parent.value;
      RowFacts(c.rows, c.rows[FindRow(c.rows, q).value]);
      if Below(P, q, row.id) {
        var n: nat :| 1 <= n && Reaches(P, q, row.id, n);
        ChainsStayInside(P, q, row.id, n);
      }
      RepointKeepsAcyclicIff(P, row.id, q);
    } else {
      UnrootKeepsAcyclic(P, row.id);
    }
  }

  lemma MoveKeepsGood(c: Catalog, id: Id, q: Option<Id>)
    requires Good(c) && MoveTx(c, id, q).Some?
    ensures Good(MoveTx(c, id, q).value)
  {
    var i := FindRow(c.rows, id).value;
    RepointParents(c.rows, i, q);
    RowFacts(c.rows, c.rows[i]);
    if q.Some? {
      MoveRejectsExactlyCycles(c, id, q.value);
    } else {
      UnrootKeepsAcyclic(ParentsOf(c.rows), id);
    }
  }

  lemma DeleteKeepsGood(c: Catalog, id: Id)
    requires Good(c) && DeleteTx(c, id).Some?
    ensures Good(DeleteTx(c, id).value)
  {
    var i := FindRow(c.rows, id).value;
    var P := ParentsOf(c.rows);
    RemoveParents(c.rows, i);
    RemovalKeepsAcyclic(P, P - {id});
    forall x | x in P && P[x].Some? && x != id ensures P[x].value in P - {id} {
      if P[x].value == id {
        ChildOfIff(c.rows, x, id);
        assert false;
      }
    }
  }

  lemma UpdateKeepsGood(c: Catalog, id: Id, name: Option<int>, active: Option<bool>, order: Option<int>)
    requires Good(c) && UpdateTx(c, id, name, active, order).Some?
    ensures Good(UpdateTx(c, id, name, active, order).value)
    ensures ParentsOf(UpdateTx(c, id, name, active, order).value.rows) == ParentsOf(c.rows)
  {
    var i := FindRow(c.rows, id).value;
    var row := UpdatedRow(c.rows[i], name, active, order);
    RowFacts(c.rows, c.rows[i]);
    RemoveParents(c.rows, i);
    InsertParents(WithoutRow(c.rows, i), row);
    InsertKeepsListing(WithoutRow(c.rows, i), row);
    assert (ParentsOf(c.rows) - {id})[id := row.parent] == ParentsOf(c.rows);
  }

  // ---- Runs --------------------------------------------------------------------------------

  datatype Event =
    | CreateCategory(row: Category)
    | UpdateCategory(id: Id, name: Option<int>, active: Option<bool>, order: Option<int>)
    | MoveCategory(id: Id, parent: Option<Id>)
    | DeleteCategory(id: Id)
    | UseCategory(id: Id)
    | FreeCategory(id: Id)
    | ReadTree
    | ExpireCache

  /** A failed request changes nothing; reading fills the cache. */
  ghost function Step(c: Catalog, e: Event): Catalog
    requires Good(c)
  {
    match e
    case CreateCategory(row) => GetOr(CreateTx(c, row), c)
    case UpdateCategory(id, n, a, o) => GetOr(UpdateTx(c, id, n, a, o), c)
    case MoveCategory(id, q) => GetOr(MoveTx(c, id, q), c)
    case DeleteCategory(id) => GetOr(DeleteTx(c, id), c)
    case UseCategory(id) => c.(used := c.used + {id})
    case FreeCategory(id) => c.(used := c.used - {id})
    case ReadTree => c.(cache := Some(BuildForest(c.rows)))
    case ExpireCache => c.(cache := None)
  }

  function GetOr<T>(o: Option<T>, default: T): T {
    match o
    case Some(v) => v
    case None => default
  }

  /** The table stays a forest in listing order, and a cached tree is the tree of the table. */
  lemma StepKeepsGood(c: Catalog, e: Event)
    requires Good(c)
    ensures Good(Step(c, e))
  {
    match e
    case CreateCategory(row) =>
      if CreateTx(c, row).Some? {
        CreateKeepsGood(c, row);
      }
    case UpdateCategory(id, n, a, o) =>
      if UpdateTx(c, id, n, a, o).Some? {
        UpdateKeepsGood(c, id, n, a, o);
      }
    case MoveCategory(id, q) =>
      if MoveTx(c, id, q).Some? {
        MoveKeepsGood(c, id, q);
      }
    case DeleteCategory(id) =>
      if DeleteTx(c, id).Some? {
        DeleteKeepsGood(c, id);
      }
    case _ =>
  }

  ghost predicate ValidRun(c: Catalog, events: seq<Event>, trace: seq<Catalog>) {
    && |trace| == |events| + 1 && trace[0] == c
    && forall i :: 0 <= i < |events| ==> Good(trace[i]) ==> trace[i + 1] == Step(trace[i], events[i])
  }

  /** In listing order: by sort order, and by name where that is equal. */
  lemma ListingIsSorted(rows: seq<Category>, i: nat, j: nat)
    requires Listing(rows) && i < j < |rows|
    ensures rows[i].sortOrder < rows[j].sortOrder
         || (rows[i].sortOrder == rows[j].sortOrder && rows[i].nameRank <= rows[j].nameRank)
  {
    assert ListedBefore(rows[i], rows[j]);
  }

  lemma {:induction false} SiblingsListed(rows: seq<Category>, q: Option<Id>)
    requires Listing(rows)
    ensures Listing(ChildrenOf(rows, q))
    decreases |rows|
  {
    if rows != [] {
      var init, last := rows[..|rows| - 1], rows[|rows| - 1];
      assert rows == init + [last];
      ListingInit(init, last);
      SiblingsListed(init, q);
      ChildrenOfMembers(init, q);
      if last.parent == q {
        ListingSnoc(ChildrenOf(init, q), last);
      }
    }
  }

  /** In the nested response the children of every node are in order of sort order and name. */
  lemma ChildrenAreSorted(c: Catalog, n: Tree, i: nat, j: nat)
    requires Good(c) && n in NodesAll(BuildForest(c.rows)) && i < j < |n.children|
    ensures var a, b := n.children[i].row, n.children[j].row;
            a.sortOrder < b.sortOrder || (a.sortOrder == b.sortOrder && a.nameRank <= b.nameRank)
  {
    ForestNodesAreBuilt(c.rows);
    ChildrenOfNode(c.rows, n.row);
    SiblingsListed(c.rows, Some(n.row.id));
    ListingIsSorted(ChildrenOf(c.rows, Some(n.row.id)), i, j);
  }

  /** A move changes the parent of its category, and nothing else of any row. */
  lemma MoveEffect(c: Catalog, id: Id, q: Option<Id>)
    requires Good(c) && MoveTx(c, id, q).Some?
    ensures var t := MoveTx(c, id, q).value;
            && ParentsOf(t.rows) == ParentsOf(c.rows)[id := q]
            && |t.rows| == |c.rows| && t.used == c.used
            && (forall i :: 0 <= i < |t.rows| ==> t.rows[i] == c.rows[i].(parent := t.rows[i].parent))
  {
    RepointParents(c.rows, FindRow(c.rows, id).value, q);
  }

  /** In the response after a move the category is listed under its new parent, and nowhere else. */
  lemma MoveShowsInTree(c: Catalog, id: Id, q: Option<Id>, p: Id)
    requires Good(c) && MoveTx(c, id, q).Some?
    ensures var t := MoveTx(c, id, q).value;
            && ForestRows(t.rows)
            && (Nested(BuildForest(t.rows), id, p) <==> q == Some(p))
            && ((exists i :: 0 <= i < |BuildForest(t.rows)| && BuildForest(t.rows)[i].row.id == id) <==> q.None?)
  {
    MoveKeepsGood(c, id, q);
    MoveEffect(c, id, q);
    NestedIff(MoveTx(c, id, q).value.rows, id, p);
    TopIff(MoveTx(c, id, q).value.rows, id);
  }

  /** Along every run: a forest, in order, with a fresh or absent cache, that flattens back to its table. */
  lemma {:induction false} RunKeepsForest(c: Catalog, events: seq<Event>, trace: seq<Catalog>, i: nat)
    requires Good(c) && ValidRun(c, events, trace) && i <= |events|
    ensures Good(trace[i])
    ensures multiset(PreorderAll(BuildForest(trace[i].rows))) == multiset(trace[i].rows)
    ensures forall q :: ChildrenOf(PreorderAll(BuildForest(trace[i].rows)), q) == ChildrenOf(trace[i].rows, q)
    ensures ParentsFirst(PreorderAll(BuildForest(trace[i].rows)), None)
    decreases i
  {
    if i > 0 {
      RunKeepsForest(c, events, trace, i - 1);
      StepKeepsGood(trace[i - 1], events[i - 1]);
      assert trace[i - 1 + 1] == Step(trace[i - 1], events[i - 1]);
    }
    var rows := trace[i].rows;
    FlattenIsPermutation(rows);
    FlattenParentsFirst(rows);
    forall q {
      FlattenKeepsSiblings(rows, q);
    }
  }

  // ---- The service -------------------------------------------------------------------------

  class Service {
    var rows: seq<Category>
    var used: set<Id>
    var cache: Option<seq<Tree>>

    ghost function State(): Catalog
      reads this
    {
      Catalog(rows, used, cache)
    }

    constructor ()
      ensures State() == Catalog([], {}, None) && Good(State())
    {
      rows, used, cache := [], {}, None;
    }

    method InvalidateTreeCache()
      modifies this`cache
      ensures cache == None
    {
      cache := None;
    }

    method Create(row: Category) returns (r: Result<()>)
      requires Good(State()) && FindRow(rows, row.id).None?
      modifies this
      ensures State() == Step(old(State()), CreateCategory(row)) && Good(State())
      ensures r == Err(Conflict) <==> exists i :: 0 <= i < |old(rows)| && old(rows)[i].slug == row.slug
      ensures r.Ok? <==>
        && (forall i :: 0 <= i < |old(rows)| ==> old(rows)[i].slug != row.slug)
        && (row.parent.Some? ==> row.parent.value in ParentsOf(old(rows)))
      ensures r.Ok? ==>
        && ParentsOf(rows) == ParentsOf(old(rows))[row.id := row.parent]
        && multiset(rows) == multiset(old(rows)) + multiset{row}
        && used == old(used) && cache.None?
      ensures r.Err? ==> State() == old(State())
    {
      StepKeepsGood(State(), CreateCategory(row));
      UnknownIsNoParent(rows, row.id);
      InsertParents(rows, row);
      InsertAdds(rows, row);
      if row.parent.Some? {
        KnownIffFound(rows, row.parent.value);
      }
      if exists i :: 0 <= i < |rows| && rows[i].slug == row.slug {
        return Err(Conflict);
      }
      if row.parent.Some? && FindRow(rows, row.parent.value).None? {
        return Err(NotFound);
      }
      rows := Insert(rows, row);
      InvalidateTreeCache();
      r := Ok(());
    }

    method Update(id: Id, name: Option<int>, active: Option<bool>, order: Option<int>) returns (r: Result<()>)
      requires Good(State())
      modifies this
      ensures State() == Step(old(State()), UpdateCategory(id, name, active, order)) && Good(State())
      ensures r == if id in ParentsOf(old(rows)) then Ok(()) else Err(NotFound)
      ensures r.Ok? ==>
        && ParentsOf(rows) == ParentsOf(old(rows)) && used == old(used) && cache.None?
        && exists i :: 0 <= i < |old(rows)| && old(rows)[i].id == id
             && multiset(rows) == multiset(old(rows)) - multiset{old(rows)[i]} + multiset{Category(
                  id, old(rows)[i].parent,
                  if name.Some? then name.value else old(rows)[i].nameRank,
                  old(rows)[i].slug,
                  if active.Some? then active.value else old(rows)[i].active,
                  if order.Some? then order.value else old(rows)[i].sortOrder)}
      ensures r.Err? ==> State() == old(State())
    {
      StepKeepsGood(State(), UpdateCategory(id, name, active, order));
      var found := FindRow(rows, id);
      KnownIffFound(rows, id);
      if found.None? {
        return Err(NotFound);
      }
      UpdateKeepsGood(State(), id, name, active, order);
      WithoutRowTakes(rows, found.value);
      InsertAdds(WithoutRow(rows, found.value), UpdatedRow(rows[found.value], name, active, order));
      var category := rows[found.value];
      if name.Some? {
        category := category.(nameRank := name.value);
      }
      if active.Some? {
        category := category.(active := active.value);
      }
      if order.Some? {
        category := category.(sortOrder := order.value);
      }
      rows := Insert(WithoutRow(rows, found.value), category);
      InvalidateTreeCache();
      r := Ok(());
    }

    method Move(id: Id, newParent: Option<Id>) returns (r: Result<()>)
      requires Good(State())
      modifies this
      ensures State() == Step(old(State()), MoveCategory(id, newParent)) && Good(State())
      ensures r == Err(Conflict) <==>
        var P := ParentsOf(old(rows));
        id in P && newParent.Some? && (newParent.value == id || Below(P, newParent.value, id))
      ensures r == Err(NotFound) <==>
        var P := ParentsOf(old(rows));
        id !in P || (newParent.Some? && newParent.value != id && newParent.value !in P)
      ensures r == Ok(()) || r == Err(Conflict) || r == Err(NotFound)
      ensures r.Ok? ==>
        && ParentsOf(rows) == ParentsOf(old(rows))[id := newParent]
        && |rows| == |old(rows)|
        && (forall i :: 0 <= i < |rows| ==> rows[i] == old(rows)[i].(parent := rows[i].parent))
        && used == old(used) && cache.None?
      ensures r.Err? ==> State() == old(State())
    {
      StepKeepsGood(State(), MoveCategory(id, newParent));
      var found := FindRow(rows, id);
      KnownIffFound(rows, id);
      if newParent.Some? {
        KnownIffFound(rows, newParent.value);
        OnlyKnownAreBelow(rows, newParent.value, id);
      }
      if found.None? {
        return Err(NotFound);
      }
      RepointParents(rows, found.value, newParent);
      if newParent.Some? {
        if newParent.value == id {
          return Err(Conflict);
        }
        if FindRow(rows, newParent.value).None? {
          return Err(NotFound);
        }
        var descendants := GetDescendantIds(rows, id);
        if newParent.value in descendants {
          return Err(Conflict);
        }
      }
      rows := rows[found.value := rows[found.value].(parent := newParent)];
      InvalidateTreeCache();
      r := Ok(());
    }

    method HasChildren(id: Id) returns (b: bool)
      ensures b <==> ChildrenOf(rows, Some(id)) != []
      ensures b <==> exists i :: 0 <= i < |rows| && rows[i].parent == Some(id)
    {
      b := exists i :: 0 <= i < |rows| && rows[i].parent == Some(id);
      ChildrenOfMembers(rows, Some(id));
      ghost var kids := ChildrenOf(rows, Some(id));
      assert kids != [] ==> kids[0] in rows && kids[0].parent == Some(id);
      if b {
        var i :| 0 <= i < |rows| && rows[i].parent == Some(id);
        assert rows[i] in kids;
      }
    }

    method Delete(id: Id) returns (r: Result<()>)
      requires Good(State())
      modifies this
      ensures State() == Step(old(State()), DeleteCategory(id)) && Good(State())
      ensures r == Err(NotFound) <==> id !in ParentsOf(old(rows))
      ensures r.Ok? <==>
        && id in ParentsOf(old(rows)) && id !in old(used)
        && forall i :: 0 <= i < |old(rows)| ==> old(rows)[i].parent != Some(id)
      ensures r.Ok? ==>
        && ParentsOf(rows) == ParentsOf(old(rows)) - {id}
        && (forall c :: c in rows <==> c in old(rows) && c.id != id)
        && used == old(used) && cache.None?
      ensures r.Err? ==> State() == old(State())
    {
      StepKeepsGood(State(), DeleteCategory(id));
      var found := FindRow(rows, id);
      KnownIffFound(rows, id);
      if found.None? {
        return Err(NotFound);
      }
      RemoveParents(rows, found.value);
      WithoutRowMembers(rows, found.value);
      var hasChildren := HasChildren(id);
      if hasChildren {
        return Err(Conflict);
      }
      if id in used {
        return Err(Conflict);
      }
      rows := WithoutRow(rows, found.value);
      InvalidateTreeCache();
      r := Ok(());
    }

    /** The cache-aside read: whatever answers, it is the tree of the table. */
    method GetCategoryTree() returns (tree: seq<Tree>)
      requires Good(State())
      modifies this`cache
      ensures State() == Step(old(State()), ReadTree) && Good(State())
      ensures tree == BuildForest(rows)
    {
      if cache.Some? {
        return cache.value;
      }
      tree := GetTree(rows);
      cache := Some(tree);
    }
  }
}
