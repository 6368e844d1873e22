/** Building the nested tree from the flat listing, and flattening it again. */
module CategoryTree {
  import opened Prelude
  import opened ParentMap
  import opened Categories

  datatype Tree = Node(row: Category, children: seq<Tree>)

  /** A listing whose parent pointers form a forest. */
  ghost predicate ForestRows(rows: seq<Category>) {
    DistinctIds(rows) && Forest(ParentsOf(rows))
  }

  ghost function Size(rows: seq<Category>, id: Id): nat {
    |DescendantSet(ParentsOf(rows), id)|
  }

  lemma RowFacts(rows: seq<Category>, c: Category)
    requires DistinctIds(rows) && c in rows
    ensures c.id in ParentsOf(rows) && ParentsOf(rows)[c.id] == c.parent
  {
    ParentsOfRows(rows);
    var i :| 0 <= i < |rows| && rows[i] == c;
  }

  lemma KidsAreSmaller(rows: seq<Category>, id: Id)
    requires ForestRows(rows)
    ensures forall k :: k in ChildrenOf(rows, Some(id)) ==> k in rows && Size(rows, k.id) < Size(rows, id)
  {
    ChildrenOfMembers(rows, Some(id));
    forall k | k in ChildrenOf(rows, Some(id)) ensures Size(rows, k.id) < Size(rows, id) {
      RowFacts(rows, k);
      ChildIsSmaller(ParentsOf(rows), k.id);
    }
  }

  /** The subtree the response shows for a row. */
  ghost function BuildNode(rows: seq<Category>, c: Category): Tree
    requires ForestRows(rows) && c in rows
    decreases Size(rows, c.id)
  {
    KidsAreSmaller(rows, c.id);
    var kids := ChildrenOf(rows, Some(c.id));
    Node(c, seq(|kids|, i requires 0 <= i < |kids| => BuildNode(rows, kids[i])))
  }

  ghost function BuildNodes(rows: seq<Category>, kids: seq<Category>): seq<Tree>
    requires ForestRows(rows) && forall k :: k in kids ==> k in rows
  {
    seq(|kids|, i requires 0 <= i < |kids| => BuildNode(rows, kids[i]))
  }

  ghost function BuildForest(rows: seq<Category>): seq<Tree>
    requires ForestRows(rows)
  {
    ChildrenOfMembers(rows, None);
    BuildNodes(rows, ChildrenOf(rows, None))
  }

  lemma ChildrenOfNode(rows: seq<Category>, c: Category)
    requires ForestRows(rows) && c in rows
    ensures forall k :: k in ChildrenOf(rows, Some(c.id)) ==> k in rows
    ensures BuildNode(rows, c) == Node(c, BuildNodes(rows, ChildrenOf(rows, Some(c.id))))
  {
    KidsAreSmaller(rows, c.id);
  }

  lemma BuildNodesSnoc(rows: seq<Category>, kids: seq<Category>, i: nat)
    requires ForestRows(rows) && i < |kids| && forall k :: k in kids ==> k in rows
    ensures BuildNodes(rows, kids[..i + 1]) == BuildNodes(rows, kids[..i]) + [BuildNode(rows, kids[i])]
  {
    assert kids[..i + 1] == kids[..i] + [kids[i]];
  }

  // ---- Flattening --------------------------------------------------------------------------

  function Preorder(t: Tree): seq<Category>
    decreases t, 1
  {
    [t.row] + PreorderAll(t.children)
  }

  function PreorderAll(ts: seq<Tree>): seq<Category>
    decreases ts, 0
  {
    if ts == [] then [] else Preorder(ts[0]) + PreorderAll(ts[1..])
  }

  lemma {:induction false} PreorderConcat(xs: seq<Tree>, ys: seq<Tree>)
    ensures PreorderAll(xs + ys) == PreorderAll(xs) + PreorderAll(ys)
    decreases |xs|
  {
    if xs == [] {
      assert xs + ys == ys;
    } else {
      assert (xs + ys)[1..] == xs[1..] + ys && (xs + ys)[0] == xs[0];
      PreorderConcat(xs[1..], ys);
    }
  }

  lemma PreorderNext(nodes: seq<Tree>, i: nat)
    requires i < |nodes|
    ensures PreorderAll(nodes[..i + 1]) == PreorderAll(nodes[..i]) + [nodes[i].row] + PreorderAll(nodes[i].children)
  {
    assert nodes[..i + 1] == nodes[..i] + [nodes[i]];
    PreorderConcat(nodes[..i], [nodes[i]]);
    assert PreorderAll([nodes[i]]) == Preorder(nodes[i]);
  }

  /** The recursive walk that pushes every node onto the result. */
  class Flattener {
    var result: seq<Category>

    constructor ()
      ensures result == []
    {
      result := [];
    }

    method Walk(nodes: seq<Tree>)
      modifies this
      ensures result == old(result) + PreorderAll(nodes)
      decreases nodes
    {
      for i := 0 to |nodes|
        invariant result == old(result) + PreorderAll(nodes[..i])
      {
        PreorderNext(nodes, i);
        result := result + [nodes[i].row];
        if |nodes[i].children| > 0 {
          Walk(nodes[i].children);
        }
      }
      assert nodes[..|nodes|] == nodes;
    }
  }

  method FlattenCategories(categories: seq<Tree>) returns (result: seq<Category>)
    ensures result == PreorderAll(categories)
  {
    var f := new Flattener();
    f.Walk(categories);
    result := f.result;
  }

  // ---- Building ----------------------------------------------------------------------------

  /** Every assigned list of children is the listed one. */
  ghost predicate Right(children: map<Id, seq<Category>>, rows: seq<Category>) {
    forall x :: x in children ==> children[x] == ChildrenOf(rows, Some(x))
  }

  /** The whole subtree of `id` has been assigned its children. */
  ghost predicate Attached(done: set<Id>, rows: seq<Category>, id: Id) {
    id in done && DescendantSet(ParentsOf(rows), id) <= done
  }

  ghost predicate AllAttached(done: set<Id>, rows: seq<Category>, kids: seq<Category>) {
    forall k :: k in kids ==> Attached(done, rows, k.id)
  }

  lemma OneMoreAttached(before: set<Id>, after: set<Id>, rows: seq<Category>, kids: seq<Category>, i: nat)
    requires i < |kids| && before <= after
    requires AllAttached(before, rows, kids[..i]) && Attached(after, rows, kids[i].id)
    ensures AllAttached(after, rows, kids[..i + 1])
  {
    assert kids[..i + 1] == kids[..i] + [kids[i]];
  }

  lemma AttachedThroughKids(done: set<Id>, rows: seq<Category>, id: Id)
    requires DistinctIds(rows) && id in done
    requires AllAttached(done, rows, ChildrenOf(rows, Some(id)))
    ensures Attached(done, rows, id)
  {
    var P := ParentsOf(rows);
    forall x | x in P && Below(P, x, id) ensures x in done {
      var k := BelowThroughChild(P, x, id);
      ChildOfIff(rows, k, id);
      var c :| c in ChildrenOf(rows, Some(id)) && c.id == k;
      assert Attached(done, rows, c.id);
    }
  }

  lemma KidsAttached(done: set<Id>, rows: seq<Category>, id: Id)
    requires DistinctIds(rows) && Attached(done, rows, id)
    ensures AllAttached(done, rows, ChildrenOf(rows, Some(id)))
  {
    var P := ParentsOf(rows);
    forall k | k in ChildrenOf(rows, Some(id)) ensures Attached(done, rows, k.id) {
      ChildOfIff(rows, k.id, id);
      ParentIsAbove(P, k.id);
      forall x | x in DescendantSet(P, k.id) ensures x in done {
        BelowTransitive(P, x, k.id, id);
      }
    }
  }

  /** The category objects of one session; `children` holds what has been assigned to `node.children`. */
  class TreeBuilder {
    var children: map<Id, seq<Category>>

    constructor ()
      ensures children == map[]
    {
      children := map[];
    }

    /** Assigns the children of the whole subtree; the forest makes it terminate. */
    method Attach(ghost rows: seq<Category>, childrenMap: map<Option<Id>, seq<Category>>, node: Category)
      requires ForestRows(rows) && node in rows && Right(children, rows)
      requires forall x: Id :: Grouped(childrenMap, Some(x)) == ChildrenOf(rows, Some(x))
      modifies this
      ensures Right(children, rows) && Attached(children.Keys, rows, node.id) && old(children.Keys) <= children.Keys
      decreases Size(rows, node.id)
    {
      var kids := Grouped(childrenMap, Some(node.id));
      children := children[node.id := kids];
      KidsAreSmaller(rows, node.id);
      ghost var start := children.Keys;
      for i := 0 to |kids|
        invariant Right(children, rows) && start <= children.Keys
        invariant AllAttached(children.Keys, rows, kids[..i])
      {
        ghost var before := children.Keys;
        Attach(rows, childrenMap, kids[i]);
        OneMoreAttached(before, children.Keys, rows, kids, i);
      }
      assert kids[..|kids|] == kids;
      AttachedThroughKids(children.Keys, rows, node.id);
    }

    /** The nested response of an attached row. */
    method Serialize(ghost rows: seq<Category>, node: Category) returns (t: Tree)
      requires ForestRows(rows) && node in rows && Right(children, rows) && Attached(children.Keys, rows, node.id)
      ensures t == BuildNode(rows, node)
      decreases Size(rows, node.id)
    {
      var kids := children[node.id];
      KidsAreSmaller(rows, node.id);
      ChildrenOfNode(rows, node);
      KidsAttached(children.Keys, rows, node.id);
      var subtrees: seq<Tree> := [];
      for i := 0 to |kids|
        invariant subtrees == BuildNodes(rows, kids[..i])
      {
        BuildNodesSnoc(rows, kids, i);
        var sub := Serialize(rows, kids[i]);
        subtrees := subtrees + [sub];
      }
      assert kids[..|kids|] == kids;
      t := Node(node, subtrees);
    }
  }

  /** The first loop of `get_tree`: roots in one list, the rest grouped by parent. */
  method SplitRoots(rows: seq<Category>) returns (roots: seq<Category>, childrenMap: map<Option<Id>, seq<Category>>)
    ensures roots == ChildrenOf(rows, None)
    ensures forall x: Id :: Grouped(childrenMap, Some(x)) == ChildrenOf(rows, Some(x))
  {
    roots, childrenMap := [], map[];
    for i := 0 to |rows|
      invariant roots == ChildrenOf(rows[..i], None)
      invariant forall x: Id :: Grouped(childrenMap, Some(x)) == ChildrenOf(rows[..i], Some(x))
    {
      forall q {
        ChildrenNext(rows, i, q);
      }
      if rows[i].parent.None? {
        roots := roots + [rows[i]];
      } else {
        childrenMap := childrenMap[rows[i].parent := Grouped(childrenMap, rows[i].parent) + [rows[i]]];
      }
    }
    assert rows[..|rows|] == rows;
  }

  method GetTree(rows: seq<Category>) returns (tree: seq<Tree>)
    requires ForestRows(rows)
    ensures tree == BuildForest(rows)
  {
    var roots, childrenMap := SplitRoots(rows);
    ChildrenOfMembers(rows, None);
    var builder := new TreeBuilder();
    for i := 0 to |roots|
      invariant Right(builder.children, rows) && AllAttached(builder.children.Keys, rows, roots[..i])
    {
      ghost var before := builder.children.Keys;
      builder.Attach(rows, childrenMap, roots[i]);
      OneMoreAttached(before, builder.children.Keys, rows, roots, i);
    }
    assert roots[..|roots|] == roots;
    tree := SerializeAll(builder, rows, roots);
  }

  method SerializeAll(builder: TreeBuilder, ghost rows: seq<Category>, roots: seq<Category>) returns (tree: seq<Tree>)
    requires ForestRows(rows) && Right(builder.children, rows)
    requires AllAttached(builder.children.Keys, rows, roots) && forall k :: k in roots ==> k in rows
    ensures tree == BuildNodes(rows, roots)
  {
    tree := [];
    for i := 0 to |roots|
      invariant tree == BuildNodes(rows, roots[..i])
    {
      BuildNodesSnoc(rows, roots, i);
      var t := builder.Serialize(rows, roots[i]);
      tree := tree + [t];
    }
    assert roots[..|roots|] == roots;
  }

  // ---- Round trip --------------------------------------------------------------------------

  /** `q` is the parent of rows inside the subtree of `c`. */
  ghost predicate ParentInside(rows: seq<Category>, q: Option<Id>, c: Category) {
    q.Some? && InSubtree(ParentsOf(rows), q.value, c.id)
  }

  /** What a list of subtrees under one parent `p` contributes to the rows under `q`. */
  ghost function Contribution(rows: seq<Category>, kids: seq<Category>, p: Option<Id>, q: Option<Id>): seq<Category> {
    if q == p then kids
    else if exists k :: k in kids && ParentInside(rows, q, k) then ChildrenOf(rows, q)
    else []
  }

  /** Flattening siblings keeps, under every parent, exactly the listed rows in listing order. */
  lemma {:induction false} SiblingsFlatten(rows: seq<Category>, kids: seq<Category>, p: Option<Id>, q: Option<Id>, bound: nat)
    requires ForestRows(rows) && DistinctIds(kids)
    requires forall k :: k in kids ==> k in rows && k.parent == p && Size(rows, k.id) < bound
    ensures ChildrenOf(PreorderAll(BuildNodes(rows, kids)), q) == Contribution(rows, kids, p, q)
    decreases bound, 0, |kids|
  {
    if kids != [] {
      var k, rest := kids[0], kids[1..];
      assert kids == [k] + rest;
      FirstSubtree(rows, kids, q);
      NodeFlattens(rows, k, q);
      SiblingsFlatten(rows, rest, p, q, bound);
      ContributionSplits(rows, kids, p, q);
    }
  }

  lemma FirstSubtree(rows: seq<Category>, kids: seq<Category>, q: Option<Id>)
    requires ForestRows(rows) && kids != [] && forall k :: k in kids ==> k in rows
    ensures ChildrenOf(PreorderAll(BuildNodes(rows, kids)), q)
         == ChildrenOf([kids[0]], q) + ChildrenOf(PreorderAll(BuildNode(rows, kids[0]).children), q)
            + ChildrenOf(PreorderAll(BuildNodes(rows, kids[1..])), q)
  {
    var ts := BuildNodes(rows, kids);
    assert ts[0] == BuildNode(rows, kids[0]) && ts[0].row == kids[0] && ts[1..] == BuildNodes(rows, kids[1..]);
    ChildrenConcat(Preorder(ts[0]), PreorderAll(ts[1..]), q);
    ChildrenConcat([kids[0]], PreorderAll(ts[0].children), q);
  }

  lemma LoneChild(c: Category, q: Option<Id>)
    ensures ChildrenOf([c], q) == if c.parent == q then [c] else []
  {
    ChildrenSnoc([], c, q);
    assert [] + [c] == [c];
  }

  lemma ContributionOfFirst(rows: seq<Category>, k: Category, rest: seq<Category>, q: Option<Id>)
    requires q == k.parent ==> !ParentInside(rows, q, k)
    requires ParentInside(rows, q, k) ==> !exists r :: r in rest && ParentInside(rows, q, r)
    ensures Contribution(rows, [k] + rest, k.parent, q)
         == (if q == k.parent then [k] else []) + (if ParentInside(rows, q, k) then ChildrenOf(rows, q) else [])
            + Contribution(rows, rest, k.parent, q)
  {
    assert forall r :: r in [k] + rest <==> r == k || r in rest;
    if q != k.parent && ParentInside(rows, q, k) {
      assert k in [k] + rest;
    }
  }

  lemma ContributionSplits(rows: seq<Category>, kids: seq<Category>, p: Option<Id>, q: Option<Id>)
    requires ForestRows(rows) && DistinctIds(kids) && kids != []
    requires forall k :: k in kids ==> k in rows && k.parent == p
    ensures Contribution(rows, kids, p, q)
         == ChildrenOf([kids[0]], q) + (if ParentInside(rows, q, kids[0]) then ChildrenOf(rows, q) else [])
            + Contribution(rows, kids[1..], p, q)
  {
    OneSubtreeOnly(rows, kids, p, q);
    SplitFirst(kids);
    LoneChild(kids[0], q);
    ContributionOfFirst(rows, kids[0], kids[1..], q);
  }

  lemma SplitFirst<T>(xs: seq<T>)
    requires xs != []
    ensures xs == [xs[0]] + xs[1..]
  {
  }

  lemma {:induction false} NodeFlattens(rows: seq<Category>, c: Category, q: Option<Id>)
    requires ForestRows(rows) && c in rows
    ensures ChildrenOf(PreorderAll(BuildNode(rows, c).children), q)
         == if ParentInside(rows, q, c) then ChildrenOf(rows, q) else []
    decreases Size(rows, c.id), 1
  {
    var kids := ChildrenOf(rows, Some(c.id));
    KidsAreSmaller(rows, c.id);
    ChildrenOfNode(rows, c);
    ChildrenOfMembers(rows, Some(c.id));
    SiblingsFlatten(rows, kids, Some(c.id), q, Size(rows, c.id));
    InsideIffInsideKid(rows, c, q);
  }

  lemma InsideIffInsideKid(rows: seq<Category>, c: Category, q: Option<Id>)
    requires ForestRows(rows) && c in rows
    ensures ParentInside(rows, q, c)
      <==> q == Some(c.id) || exists k :: k in ChildrenOf(rows, Some(c.id)) && ParentInside(rows, q, k)
  {
    var P := ParentsOf(rows);
    if q.Some? && Below(P, q.value, c.id) {
      var x := BelowThroughChild(P, q.value, c.id);
      ChildOfIff(rows, x, c.id);
      var k :| k in ChildrenOf(rows, Some(c.id)) && k.id == x;
      assert ParentInside(rows, q, k);
    }
    if k :| k in ChildrenOf(rows, Some(c.id)) && ParentInside(rows, q, k) {
      ChildOfIff(rows, k.id, c.id);
      ParentIsAbove(P, k.id);
      if q.value != k.id {
        BelowTransitive(P, q.value, k.id, c.id);
      }
    }
  }

  /** Under a parent that is itself among the subtrees, only one subtree contributes; never their own parent. */
  lemma OneSubtreeOnly(rows: seq<Category>, kids: seq<Category>, p: Option<Id>, q: Option<Id>)
    requires ForestRows(rows) && DistinctIds(kids) && kids != []
    requires forall k :: k in kids ==> k in rows && k.parent == p
    ensures q == p ==> !ParentInside(rows, q, kids[0])
    ensures ParentInside(rows, q, kids[0]) ==> !exists k :: k in kids[1..] && ParentInside(rows, q, k)
  {
    var P, k0 := ParentsOf(rows), kids[0];
    RowFacts(rows, k0);
    if q == p && q.Some? {
      ParentOutsideSubtree(P, k0.id);
    }
    if ParentInside(rows, q, k0) {
      forall k | k in kids[1..] ensures !ParentInside(rows, q, k) {
        RowFacts(rows, k);
        var j :| 0 <= j < |kids[1..]| && kids[1..][j] == k;
        assert kids[j + 1] == k;
        SiblingSubtreesDisjoint(P, q.value, k0.id, k.id);
      }
    }
  }

  lemma {:induction false} SizeBound(rows: seq<Category>, kids: seq<Category>) returns (bound: nat)
    ensures forall k :: k in kids ==> Size(rows, k.id) < bound
    decreases |kids|
  {
    if kids == [] {
      bound := 0;
    } else {
      bound := SizeBound(rows, kids[1..]);
      assert kids == [kids[0]] + kids[1..];
      if bound <= Size(rows, kids[0].id) {
        bound := Size(rows, kids[0].id) + 1;
      }
    }
  }

  /** The flattened tree has, under every parent, the rows of the table in the order of the listing. */
  lemma FlattenKeepsSiblings(rows: seq<Category>, q: Option<Id>)
    requires ForestRows(rows)
    ensures ChildrenOf(PreorderAll(BuildForest(rows)), q) == ChildrenOf(rows, q)
  {
    var roots := ChildrenOf(rows, None);
    ChildrenOfMembers(rows, None);
    var bound := SizeBound(rows, roots);
    SiblingsFlatten(rows, roots, None, q, bound);
    if q.Some? {
      ChildrenOfMembers(rows, q);
      var P := ParentsOf(rows);
      if q.value in P {
        ParentsOfRows(rows);
        var r := ReachesRoot(P, q.value);
        var i :| 0 <= i < |rows| && rows[i].id == r;
        assert rows[i] in roots && ParentInside(rows, q, rows[i]);
      } else {
        UnknownParentHasNoRows(rows, q.value);
        NoSubtreeHoldsUnknown(rows, roots, q.value);
      }
    }
  }

  lemma UnknownParentHasNoRows(rows: seq<Category>, x: Id)
    requires ForestRows(rows) && x !in ParentsOf(rows)
    ensures ChildrenOf(rows, Some(x)) == []
  {
    ChildrenOfMembers(rows, Some(x));
    var kids := ChildrenOf(rows, Some(x));
    if kids != [] {
      assert kids[0] in rows;
      RowFacts(rows, kids[0]);
      assert false;
    }
  }

  lemma NoSubtreeHoldsUnknown(rows: seq<Category>, kids: seq<Category>, x: Id)
    requires DistinctIds(rows) && x !in ParentsOf(rows) && forall k :: k in kids ==> k in rows
    ensures forall k :: k in kids ==> !ParentInside(rows, Some(x), k)
  {
    forall k | k in kids ensures !ParentInside(rows, Some(x), k) {
      RowFacts(rows, k);
    }
  }

  lemma {:induction false} CountAmongSiblings(rows: seq<Category>, c: Category)
    ensures multiset(rows)[c] == multiset(ChildrenOf(rows, c.parent))[c]
    decreases |rows|
  {
    if rows != [] {
      var init, last := rows[..|rows| - 1], rows[|rows| - 1];
      assert rows == init + [last];
      CountAmongSiblings(init, c);
      assert multiset(rows) == multiset(init) + multiset{last};
    }
  }

  /** Flattening the tree of a forest gives back the table: every category exactly once. */
  lemma FlattenIsPermutation(rows: seq<Category>)
    requires ForestRows(rows)
    ensures multiset(PreorderAll(BuildForest(rows))) == multiset(rows)
  {
    var flat := PreorderAll(BuildForest(rows));
    forall c ensures multiset(flat)[c] == multiset(rows)[c] {
      CountAmongSiblings(flat, c);
      CountAmongSiblings(rows, c);
      FlattenKeepsSiblings(rows, c.parent);
    }
  }

  // ---- Parents come first ------------------------------------------------------------------

  predicate WellParented(t: Tree)
    decreases t
  {
    forall i :: 0 <= i < |t.children| ==> t.children[i].row.parent == Some(t.row.id) && WellParented(t.children[i])
  }

  lemma {:induction false} BuiltTreesWellParented(rows: seq<Category>, c: Category)
    requires ForestRows(rows) && c in rows
    ensures WellParented(BuildNode(rows, c))
    decreases Size(rows, c.id)
  {
    var kids := ChildrenOf(rows, Some(c.id));
    KidsAreSmaller(rows, c.id);
    ChildrenOfMembers(rows, Some(c.id));
    forall i | 0 <= i < |kids| ensures WellParented(BuildNode(rows, kids[i])) {
      BuiltTreesWellParented(rows, kids[i]);
    }
  }

  /** Each row comes after its parent, or its parent is `p`. */
  predicate ParentsFirst(flat: seq<Category>, p: Option<Id>) {
    forall j :: 0 <= j < |flat| ==> flat[j].parent == p || exists i :: 0 <= i < j && Some(flat[i].id) == flat[j].parent
  }

  lemma {:induction false} PreorderParentsFirst(ts: seq<Tree>, p: Option<Id>)
    requires forall i :: 0 <= i < |ts| ==> ts[i].row.parent == p && WellParented(ts[i])
    ensures ParentsFirst(PreorderAll(ts), p)
    decreases ts
  {
    if ts != [] {
      var t, rest := ts[0], ts[1..];
      PreorderParentsFirst(t.children, Some(t.row.id));
      PreorderParentsFirst(rest, p);
      ParentsFirstConcat(t.row, PreorderAll(t.children), PreorderAll(rest), p);
      assert PreorderAll(ts) == [t.row] + PreorderAll(t.children) + PreorderAll(rest);
    }
  }

  lemma ParentsFirstConcat(row: Category, inner: seq<Category>, rest: seq<Category>, p: Option<Id>)
    requires row.parent == p && ParentsFirst(inner, Some(row.id)) && ParentsFirst(rest, p)
    ensures ParentsFirst([row] + inner + rest, p)
  {
    var flat := [row] + inner + rest;
    forall j | 0 <= j < |flat| && flat[j].parent != p ensures exists i :: 0 <= i < j && Some(flat[i].id) == flat[j].parent {
      if 1 <= j <= |inner| {
        assert flat[j] == inner[j - 1];
        if flat[j].parent == Some(row.id) {
          assert flat[0] == row;
        } else {
          var i :| 0 <= i < j - 1 && Some(inner[i].id) == inner[j - 1].parent;
          assert flat[i + 1] == inner[i];
        }
      } else if j > |inner| {
        var m := 1 + |inner|;
        assert flat[j] == rest[j - m];
        var i :| 0 <= i < j - m && Some(rest[i].id) == rest[j - m].parent;
        assert flat[i + m] == rest[i];
      }
    }
  }

  /** In the flattened tree every category comes after its parent. */
  lemma FlattenParentsFirst(rows: seq<Category>)
    requires ForestRows(rows)
    ensures ParentsFirst(PreorderAll(BuildForest(rows)), None)
  {
    var roots := ChildrenOf(rows, None);
    ChildrenOfMembers(rows, None);
    forall i | 0 <= i < |roots| ensures WellParented(BuildNode(rows, roots[i])) {
      BuiltTreesWellParented(rows, roots[i]);
    }
    PreorderParentsFirst(BuildForest(rows), None);
  }

  // ---- The edges of the nested tree --------------------------------------------------------

  /** All nodes of a tree, in the order in which flattening meets them. */
  function Nodes(t: Tree): seq<Tree>
    decreases t, 1
  {
    [t] + NodesAll(t.children)
  }

  function NodesAll(ts: seq<Tree>): seq<Tree>
    decreases ts, 0
  {
    if ts == [] then [] else Nodes(ts[0]) + NodesAll(ts[1..])
  }

  /** Somewhere in the response, a node of category `p` lists a node of category `x` among its children. */
  predicate Nested(ts: seq<Tree>, x: Id, p: Id) {
    exists n, k :: n in NodesAll(ts) && n.row.id == p && 0 <= k < |n.children| && n.children[k].row.id == x
  }

  function RowsOf(nodes: seq<Tree>): (rows: seq<Category>)
    ensures |rows| == |nodes|
  {
    seq(|nodes|, i requires 0 <= i < |nodes| => nodes[i].row)
  }

  lemma RowsConcat(xs: seq<Tree>, ys: seq<Tree>)
    ensures RowsOf(xs + ys) == RowsOf(xs) + RowsOf(ys)
  {
  }

  /** Flattening lists the row of every node. */
  lemma {:induction false} NodesAreRows(ts: seq<Tree>)
    ensures RowsOf(NodesAll(ts)) == PreorderAll(ts)
    decreases ts
  {
    if ts != [] {
      NodesAreRows(ts[0].children);
      NodesAreRows(ts[1..]);
      RowsConcat([ts[0]], NodesAll(ts[0].children));
      RowsConcat(Nodes(ts[0]), NodesAll(ts[1..]));
      assert RowsOf([ts[0]]) == [ts[0].row];
    }
  }

  lemma {:induction false} NodesAreBuilt(rows: seq<Category>, kids: seq<Category>, bound: nat)
    requires ForestRows(rows) && forall k :: k in kids ==> k in rows && Size(rows, k.id) < bound
    ensures forall n :: n in NodesAll(BuildNodes(rows, kids)) ==> n.row in rows && n == BuildNode(rows, n.row)
    decreases bound, |kids|
  {
    if kids != [] {
      var k, rest := kids[0], kids[1..];
      var ts := BuildNodes(rows, kids);
      assert k in kids && forall r :: r in rest ==> r in kids;
      assert ts[0] == BuildNode(rows, k) && ts[1..] == BuildNodes(rows, rest);
      KidsAreSmaller(rows, k.id);
      ChildrenOfNode(rows, k);
      NodesAreBuilt(rows, ChildrenOf(rows, Some(k.id)), Size(rows, k.id));
      NodesAreBuilt(rows, rest, bound);
    }
  }

  lemma ForestNodesAreBuilt(rows: seq<Category>)
    requires ForestRows(rows)
    ensures forall n :: n in NodesAll(BuildForest(rows)) ==> n.row in rows && n == BuildNode(rows, n.row)
  {
    ChildrenOfMembers(rows, None);
    var bound := SizeBound(rows, ChildrenOf(rows, None));
    NodesAreBuilt(rows, ChildrenOf(rows, None), bound);
  }

  lemma EveryRowHasANode(rows: seq<Category>, c: Category) returns (n: Tree)
    requires ForestRows(rows) && c in rows
    ensures n in NodesAll(BuildForest(rows)) && n == BuildNode(rows, c)
  {
    var ts := BuildForest(rows);
    FlattenIsPermutation(rows);
    assert c in multiset(PreorderAll(ts));
    var i :| 0 <= i < |PreorderAll(ts)| && PreorderAll(ts)[i] == c;
    NodesAreRows(ts);
    n := NodesAll(ts)[i];
    assert n.row == RowsOf(NodesAll(ts))[i] == c;
    ForestNodesAreBuilt(rows);
  }

  lemma KidOfNode(rows: seq<Category>, c: Category, k: nat)
    requires ForestRows(rows) && c in rows && k < |BuildNode(rows, c).children|
    ensures BuildNode(rows, c).children[k].row in ChildrenOf(rows, Some(c.id))
  {
    ChildrenOfNode(rows, c);
  }

  /** The nested response has exactly the edges of the table: a category is listed under its parent, and nowhere else. */
  lemma NestedIff(rows: seq<Category>, x: Id, p: Id)
    requires ForestRows(rows)
    ensures Nested(BuildForest(rows), x, p) <==> x in ParentsOf(rows) && ParentsOf(rows)[x] == Some(p)
  {
    var ts := BuildForest(rows);
    ChildOfIff(rows, x, p);
    if Nested(ts, x, p) {
      var n, k :| n in NodesAll(ts) && n.row.id == p && 0 <= k < |n.children| && n.children[k].row.id == x;
      ForestNodesAreBuilt(rows);
      KidOfNode(rows, n.row, k);
    }
    if x in ParentsOf(rows) && ParentsOf(rows)[x] == Some(p) {
      ParentsOfRows(rows);
      var i :| 0 <= i < |rows| && rows[i].id == p;
      var n := EveryRowHasANode(rows, rows[i]);
      ChildrenOfNode(rows, rows[i]);
      var c :| c in ChildrenOf(rows, Some(p)) && c.id == x;
      var k :| 0 <= k < |ChildrenOf(rows, Some(p))| && ChildrenOf(rows, Some(p))[k] == c;
      assert n.children[k].row.id == x;
    }
  }

  lemma RootIff(rows: seq<Category>, x: Id)
    requires DistinctIds(rows)
    ensures x in ParentsOf(rows) && ParentsOf(rows)[x].None? <==> exists c :: c in ChildrenOf(rows, None) && c.id == x
  {
    ParentsOfRows(rows);
    ChildrenOfMembers(rows, None);
    if x in ParentsOf(rows) && ParentsOf(rows)[x].None? {
      var i :| 0 <= i < |rows| && rows[i].id == x;
      assert rows[i] in ChildrenOf(rows, None);
    }
  }

  lemma TopRows(rows: seq<Category>)
    requires ForestRows(rows)
    ensures RowsOf(BuildForest(rows)) == ChildrenOf(rows, None)
  {
    ChildrenOfMembers(rows, None);
  }

  /** The top of the response lists exactly the categories without a parent. */
  lemma TopIff(rows: seq<Category>, x: Id)
    requires ForestRows(rows)
    ensures (exists i :: 0 <= i < |BuildForest(rows)| && BuildForest(rows)[i].row.id == x)
       <==> x in ParentsOf(rows) && ParentsOf(rows)[x].None?
  {
    var ts, top := BuildForest(rows), RowsOf(BuildForest(rows));
    RootIff(rows, x);
    TopRows(rows);
    assert forall i :: 0 <= i < |ts| ==> ts[i].row == top[i];
    if c :| c in top && c.id == x {
      var i :| 0 <= i < |top| && top[i] == c;
      assert ts[i].row.id == x;
    }
    if i :| 0 <= i < |ts| && ts[i].row.id == x {
      assert top[i] in top;
    }
  }
}
