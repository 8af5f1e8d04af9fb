/** The document tree: folder and document nodes created one below the other, and the nested view
    built in one pass over the nodes sorted by path. */
module DocumentTree {
  import opened Wrappers

  datatype Node = Node(id: nat, parent: Option<nat>, folder: bool, path: string, sortOrder: int)

  // --- Creation ---

  function FindNode(nodes: seq<Node>, id: nat): (r: Option<nat>)
    ensures r.Some? ==> r.value < |nodes| && nodes[r.value].id == id
    ensures r.None? ==> forall i :: 0 <= i < |nodes| ==> nodes[i].id != id
  {
    if nodes == [] then None
    else if nodes[|nodes| - 1].id == id then Some(|nodes| - 1)
    else FindNode(nodes[..|nodes| - 1], id)
  }

  predicate IsSlug(slug: string) {
    slug != "" && '/' !in slug
  }

  /** One creation: a fresh id, and under a parent the parent's path, a slash and the slug. */
  datatype Creation = Creation(id: nat, parent: Option<nat>, folder: bool, slug: string, sortOrder: int)

  /** A creation below a missing node or below a document, and an invalid slug, are refused. */
  function Created(nodes: seq<Node>, c: Creation): seq<Node> {
    if FindNode(nodes, c.id).Some? || !IsSlug(c.slug) then nodes
    else if c.parent.None? then nodes + [Node(c.id, None, c.folder, c.slug, c.sortOrder)]
    else
      var p := FindNode(nodes, c.parent.value);
      if p.None? || !nodes[p.value].folder then nodes
      else nodes + [Node(c.id, c.parent, c.folder, nodes[p.value].path + "/" + c.slug, c.sortOrder)]
  }

  function CreatedAll(creations: seq<Creation>): seq<Node> {
    if creations == [] then []
    else Created(CreatedAll(creations[..|creations| - 1]), creations[|creations| - 1])
  }

  predicate DistinctIds(nodes: seq<Node>) {
    forall i, j :: 0 <= i < j < |nodes| ==> nodes[i].id != nodes[j].id
  }

  predicate ProperPrefix(a: string, b: string) {
    a <= b && |a| < |b|
  }

  /** A parent's path is a proper prefix of its child's. */
  predicate PathsNest(nodes: seq<Node>) {
    forall i, j :: 0 <= i < |nodes| && 0 <= j < |nodes| && nodes[i].parent == Some(nodes[j].id) ==>
      ProperPrefix(nodes[j].path, nodes[i].path)
  }

  predicate ParentsAreFolders(nodes: seq<Node>) {
    forall i :: 0 <= i < |nodes| && nodes[i].parent.Some? ==> HasFolder(nodes, nodes[i].parent.value)
  }

  lemma FindAppended(nodes: seq<Node>, node: Node, id: nat)
    requires node.id != id
    ensures FindNode(nodes + [node], id) == FindNode(nodes, id)
  {
    assert (nodes + [node])[..|nodes|] == nodes;
  }

  predicate HasFolder(nodes: seq<Node>, id: nat) {
    FindNode(nodes, id).Some? && nodes[FindNode(nodes, id).value].folder
  }

  lemma FolderStays(nodes: seq<Node>, node: Node, id: nat)
    requires HasFolder(nodes, id) && node.id != id
    ensures HasFolder(nodes + [node], id)
  {
    FindAppended(nodes, node, id);
  }

  lemma CreatedKeepsFolders(nodes: seq<Node>, c: Creation)
    requires ParentsAreFolders(nodes)
    ensures ParentsAreFolders(Created(nodes, c))
  {
    var after := Created(nodes, c);
    if after != nodes {
      var node := after[|nodes|];
      forall i | 0 <= i < |after| && after[i].parent.Some?
        ensures HasFolder(after, after[i].parent.value)
      {
        assert HasFolder(nodes, after[i].parent.value);
        FolderStays(nodes, node, after[i].parent.value);
      }
    }
  }

  lemma CreatedKeepsNesting(nodes: seq<Node>, c: Creation)
    requires DistinctIds(nodes) && PathsNest(nodes) && ParentsAreFolders(nodes)
    ensures DistinctIds(Created(nodes, c)) && PathsNest(Created(nodes, c))
  {
    var after := Created(nodes, c);
    if after != nodes {
      forall i, j | 0 <= i < |after| && 0 <= j < |after| && after[i].parent == Some(after[j].id)
        ensures ProperPrefix(after[j].path, after[i].path)
      {
        if i < |nodes| {
          assert HasFolder(nodes, nodes[i].parent.value);
          assert j < |nodes|;
        }
      }
    }
  }

  lemma {:induction false} CreatedNodesNest(creations: seq<Creation>)
    ensures var nodes := CreatedAll(creations); DistinctIds(nodes) && PathsNest(nodes) && ParentsAreFolders(nodes)
  {
    if creations != [] {
      var n := |creations| - 1;
      CreatedNodesNest(creations[..n]);
      CreatedKeepsFolders(CreatedAll(creations[..n]), creations[n]);
      CreatedKeepsNesting(CreatedAll(creations[..n]), creations[n]);
    }
  }

  // --- Sorting by (path, sort_order) ---

  predicate LeStr(a: string, b: string) {
    a == "" || (b != "" && (a[0] < b[0] || (a[0] == b[0] && LeStr(a[1..], b[1..]))))
  }

  lemma {:induction false} LeStrTotal(a: string, b: string)
    ensures LeStr(a, b) || LeStr(b, a)
    ensures LeStr(a, b) && LeStr(b, a) ==> a == b
  {
    if a != "" && b != "" {
      LeStrTotal(a[1..], b[1..]);
      assert a == [a[0]] + a[1..] && b == [b[0]] + b[1..];
    }
  }

  lemma {:induction false} LeStrTrans(a: string, b: string, c: string)
    requires LeStr(a, b) && LeStr(b, c)
    ensures LeStr(a, c)
  {
    if a != "" && a[0] == b[0] == c[0] {
      LeStrTrans(a[1..], b[1..], c[1..]);
    }
  }

  lemma {:induction false} PrefixIsSmaller(a: string, b: string)
    requires ProperPrefix(a, b)
    ensures LeStr(a, b) && !LeStr(b, a)
  {
    if a != "" {
      PrefixIsSmaller(a[1..], b[1..]);
    }
  }

  predicate KeyLe(a: Node, b: Node) {
    if a.path == b.path then a.sortOrder <= b.sortOrder else LeStr(a.path, b.path)
  }

  lemma KeyLeTrans(a: Node, b: Node, c: Node)
    requires KeyLe(a, b) && KeyLe(b, c)
    ensures KeyLe(a, c)
  {
    if a.path != b.path && b.path != c.path {
      LeStrTrans(a.path, b.path, c.path);
      LeStrTotal(a.path, b.path);
    }
  }

  predicate Sorted(nodes: seq<Node>) {
    forall i, j :: 0 <= i < j < |nodes| ==> KeyLe(nodes[i], nodes[j])
  }

  /** Inserts after everything with a key at most as great: the sort is stable. */
  function Inserted(sorted: seq<Node>, node: Node): seq<Node> {
    if sorted == [] || KeyLe(sorted[|sorted| - 1], node) then sorted + [node]
    else Inserted(sorted[..|sorted| - 1], node) + [sorted[|sorted| - 1]]
  }

  function SortedByKey(nodes: seq<Node>): seq<Node> {
    if nodes == [] then [] else Inserted(SortedByKey(nodes[..|nodes| - 1]), nodes[|nodes| - 1])
  }

  lemma {:induction false} InsertedIsSorted(sorted: seq<Node>, node: Node)
    requires Sorted(sorted)
    ensures Sorted(Inserted(sorted, node)) && multiset(Inserted(sorted, node)) == multiset(sorted) + multiset{node}
  {
    if sorted != [] {
      var n := |sorted| - 1;
      var last := sorted[n];
      assert sorted == sorted[..n] + [last];
      if KeyLe(last, node) {
        forall i | 0 <= i < n
          ensures KeyLe(sorted[i], node)
        {
          KeyLeTrans(sorted[i], last, node);
        }
      } else {
        InsertedIsSorted(sorted[..n], node);
        LeStrTotal(last.path, node.path);
        var rest := Inserted(sorted[..n], node);
        forall i | 0 <= i < |rest|
          ensures KeyLe(rest[i], last)
        {
          assert rest[i] in multiset(rest);
        }
      }
    }
  }

  lemma {:induction false} SortedByKeyIsSorted(nodes: seq<Node>)
    ensures Sorted(SortedByKey(nodes)) && multiset(SortedByKey(nodes)) == multiset(nodes)
  {
    if nodes != [] {
      var n := |nodes| - 1;
      SortedByKeyIsSorted(nodes[..n]);
      InsertedIsSorted(SortedByKey(nodes[..n]), nodes[n]);
      assert nodes == nodes[..n] + [nodes[n]];
    }
  }

  /** In sorted order a parent stands before its children. */
  lemma ParentComesFirst(sorted: seq<Node>, i: nat, j: nat)
    requires Sorted(sorted) && PathsNest(sorted) && i < |sorted| && j < |sorted|
    requires sorted[i].parent == Some(sorted[j].id)
    ensures j < i
  {
    PrefixIsSmaller(sorted[j].path, sorted[i].path);
  }

  // --- The nested view ---

  predicate HasId(nodes: seq<Node>, id: nat) {
    exists i :: 0 <= i < |nodes| && nodes[i].id == id
  }

  predicate IsRoot(all: seq<Node>, node: Node) {
    node.parent.None? || !HasId(all, node.parent.value)
  }

  /** Ids of the nodes without a parent among `all`, in order. */
  function RootsOf(all: seq<Node>, nodes: seq<Node>): seq<nat> {
    if nodes == [] then []
    else
      var n := |nodes| - 1;
      RootsOf(all, nodes[..n]) + if IsRoot(all, nodes[n]) then [nodes[n].id] else []
  }

  /** Ids of the nodes with parent `p`, in order. */
  function ChildrenOf(nodes: seq<Node>, p: nat): seq<nat> {
    if nodes == [] then []
    else
      var n := |nodes| - 1;
      ChildrenOf(nodes[..n], p) + if nodes[n].parent == Some(p) then [nodes[n].id] else []
  }

  lemma {:induction false} NoChildrenYet(nodes: seq<Node>, p: nat)
    requires forall i :: 0 <= i < |nodes| ==> nodes[i].parent != Some(p)
    ensures ChildrenOf(nodes, p) == []
  {
    if nodes != [] {
      NoChildrenYet(nodes[..|nodes| - 1], p);
    }
  }

  /** Whether the parent was met before is whether it exists at all. */
  lemma MetIffPresent(sorted: seq<Node>, n: nat)
    requires Sorted(sorted) && PathsNest(sorted) && n < |sorted| && sorted[n].parent.Some?
    ensures HasId(sorted[..n], sorted[n].parent.value) <==> HasId(sorted, sorted[n].parent.value)
  {
    var p := sorted[n].parent.value;
    if HasId(sorted, p) {
      var j :| 0 <= j < |sorted| && sorted[j].id == p;
      ParentComesFirst(sorted, n, j);
      assert sorted[..n][j].id == p;
    }
    if HasId(sorted[..n], p) {
      var j :| 0 <= j < n && sorted[..n][j].id == p;
      assert sorted[j].id == p;
    }
  }

  /** No child was met before its parent. */
  lemma NewNodeHasNoChildren(sorted: seq<Node>, n: nat)
    requires Sorted(sorted) && PathsNest(sorted) && n < |sorted|
    ensures ChildrenOf(sorted[..n], sorted[n].id) == [] && sorted[n].parent != Some(sorted[n].id)
  {
    forall i | 0 <= i < n
      ensures sorted[..n][i].parent != Some(sorted[n].id)
    {
      if sorted[i].parent == Some(sorted[n].id) {
        ParentComesFirst(sorted, i, n);
      }
    }
    NoChildrenYet(sorted[..n], sorted[n].id);
    if sorted[n].parent == Some(sorted[n].id) {
      ParentComesFirst(sorted, n, n);
    }
  }

  /** `children` lists, for every node met so far, the children met so far. */
  ghost predicate Lists(children: map<nat, seq<nat>>, met: seq<Node>) {
    (forall id :: id in children <==> HasId(met, id)) &&
    (forall id :: id in children ==> children[id] == ChildrenOf(met, id))
  }

  lemma ChildrenNext(sorted: seq<Node>, n: nat, id: nat)
    requires n < |sorted|
    ensures ChildrenOf(sorted[..n + 1], id) ==
            ChildrenOf(sorted[..n], id) + if sorted[n].parent == Some(id) then [sorted[n].id] else []
    ensures HasId(sorted[..n + 1], id) <==> HasId(sorted[..n], id) || id == sorted[n].id
  {
    assert sorted[..n + 1][..n] == sorted[..n];
    assert sorted[..n + 1][n] == sorted[n];
    assert forall i :: 0 <= i < n ==> sorted[..n + 1][i] == sorted[..n][i];
  }

  /** One more node: an entry of its own, and a place at the end of its parent's children. */
  function Linked(children: map<nat, seq<nat>>, node: Node): map<nat, seq<nat>> {
    var known := children[node.id := []];
    if node.parent.Some? && node.parent.value in known
    then known[node.parent.value := known[node.parent.value] + [node.id]] else known
  }

  /** When node `n` is met, its parent was met if it is listed at all, and none of its children was. */
  predicate InOrder(sorted: seq<Node>, n: nat)
    requires n < |sorted|
  {
    (sorted[n].parent.Some? ==>
      (HasId(sorted[..n], sorted[n].parent.value) <==> HasId(sorted, sorted[n].parent.value))) &&
    ChildrenOf(sorted[..n], sorted[n].id) == [] && sorted[n].parent != Some(sorted[n].id)
  }

  lemma SortedIsInOrder(sorted: seq<Node>, n: nat)
    requires Sorted(sorted) && PathsNest(sorted) && n < |sorted|
    ensures InOrder(sorted, n)
  {
    NewNodeHasNoChildren(sorted, n);
    if sorted[n].parent.Some? {
      MetIffPresent(sorted, n);
    }
  }

  lemma LinkedLists(sorted: seq<Node>, n: nat, children: map<nat, seq<nat>>)
    requires n < |sorted| && InOrder(sorted, n) && Lists(children, sorted[..n])
    ensures Lists(Linked(children, sorted[n]), sorted[..n + 1])
  {
    var after := Linked(children, sorted[n]);
    forall id: nat
      ensures id in after <==> HasId(sorted[..n + 1], id)
      ensures id in after ==> after[id] == ChildrenOf(sorted[..n + 1], id)
    {
      ChildrenNext(sorted, n, id);
    }
  }

  method LinkAll(sorted: seq<Node>) returns (roots: seq<nat>, children: map<nat, seq<nat>>)
    requires forall n :: 0 <= n < |sorted| ==> InOrder(sorted, n)
    ensures roots == RootsOf(sorted, sorted) && Lists(children, sorted)
  {
    roots, children := [], map[];
    for n := 0 to |sorted|
      invariant roots == RootsOf(sorted, sorted[..n]) && Lists(children, sorted[..n])
    {
      var node := sorted[n];
      assert InOrder(sorted, n) && sorted[..n + 1][..n] == sorted[..n];
      LinkedLists(sorted, n, children);
      ghost var before := children;
      children := children[node.id := []];
      if node.parent.None? || node.parent.value !in children {
        roots := roots + [node.id];
      } else {
        children := children[node.parent.value := children[node.parent.value] + [node.id]];
      }
      assert children == Linked(before, node);
    }
    assert sorted[..|sorted|] == sorted;
  }

  /** `_build_tree`: one pass with a table of the nodes met so far; each node goes to the end of its
      parent's children or to the roots. */
  method BuildTree(nodes: seq<Node>) returns (roots: seq<nat>, children: map<nat, seq<nat>>)
    requires DistinctIds(nodes) && PathsNest(nodes)
    ensures roots == RootsOf(SortedByKey(nodes), SortedByKey(nodes)) && Lists(children, SortedByKey(nodes))
  {
    SortedKeepsShape(nodes);
    forall n | 0 <= n < |SortedByKey(nodes)|
      ensures InOrder(SortedByKey(nodes), n)
    {
      SortedIsInOrder(SortedByKey(nodes), n);
    }
    roots, children := LinkAll(SortedByKey(nodes));
  }

  // --- Sorting keeps the nodes ---

  lemma {:induction false} InsertedKeepsIds(sorted: seq<Node>, node: Node)
    requires DistinctIds(sorted) && !HasId(sorted, node.id)
    ensures DistinctIds(Inserted(sorted, node))
    ensures forall id :: HasId(Inserted(sorted, node), id) <==> HasId(sorted, id) || id == node.id
  {
    var after := Inserted(sorted, node);
    if sorted == [] || KeyLe(sorted[|sorted| - 1], node) {
      IdsAppended(sorted, node);
    } else {
      var n := |sorted| - 1;
      assert sorted == sorted[..n] + [sorted[n]];
      IdsAppended(sorted[..n], sorted[n]);
      InsertedKeepsIds(sorted[..n], node);
      assert !HasId(sorted[..n], sorted[n].id) by {
        assert forall i :: 0 <= i < n ==> sorted[..n][i] == sorted[i];
      }
      IdsAppended(Inserted(sorted[..n], node), sorted[n]);
    }
  }

  lemma IdsAppended(nodes: seq<Node>, node: Node)
    ensures forall id :: HasId(nodes + [node], id) <==> HasId(nodes, id) || id == node.id
    ensures DistinctIds(nodes) && !HasId(nodes, node.id) ==> DistinctIds(nodes + [node])
  {
    forall id: nat
      ensures HasId(nodes + [node], id) <==> HasId(nodes, id) || id == node.id
    {
      assert (nodes + [node])[|nodes|] == node;
      assert forall i :: 0 <= i < |nodes| ==> (nodes + [node])[i] == nodes[i];
    }
  }

  lemma {:induction false} SortingKeepsIds(nodes: seq<Node>)
    requires DistinctIds(nodes)
    ensures DistinctIds(SortedByKey(nodes)) && forall id :: HasId(SortedByKey(nodes), id) <==> HasId(nodes, id)
  {
    if nodes != [] {
      var n := |nodes| - 1;
      assert nodes == nodes[..n] + [nodes[n]];
      IdsAppended(nodes[..n], nodes[n]);
      assert !HasId(nodes[..n], nodes[n].id) by {
        assert forall i :: 0 <= i < n ==> nodes[..n][i] == nodes[i];
      }
      SortingKeepsIds(nodes[..n]);
      InsertedKeepsIds(SortedByKey(nodes[..n]), nodes[n]);
    }
  }

  /** Sorting keeps ids distinct, paths nested and the set of ids. */
  lemma SortedKeepsShape(nodes: seq<Node>)
    requires DistinctIds(nodes) && PathsNest(nodes)
    ensures var sorted := SortedByKey(nodes);
            Sorted(sorted) && DistinctIds(sorted) && PathsNest(sorted) &&
            forall id :: HasId(sorted, id) <==> HasId(nodes, id)
  {
    var sorted := SortedByKey(nodes);
    SortedByKeyIsSorted(nodes);
    SortingKeepsIds(nodes);
    forall i, j | 0 <= i < |sorted| && 0 <= j < |sorted| && sorted[i].parent == Some(sorted[j].id)
      ensures ProperPrefix(sorted[j].path, sorted[i].path)
    {
      assert sorted[i] in multiset(sorted) && sorted[j] in multiset(sorted);
      assert sorted[i] in nodes && sorted[j] in nodes;
    }
  }

  // --- What is listed ---

  predicate IsListed(node: Node, deleted: set<nat>) {
    node.folder || node.id !in deleted
  }

  /** `list_nodes` leaves out the nodes of deleted documents. */
  function Listed(nodes: seq<Node>, deleted: set<nat>): seq<Node> {
    if nodes == [] then []
    else
      var n := |nodes| - 1;
      Listed(nodes[..n], deleted) + if IsListed(nodes[n], deleted) then [nodes[n]] else []
  }

  lemma {:induction false} ListedExactly(nodes: seq<Node>, deleted: set<nat>, node: Node)
    ensures node in Listed(nodes, deleted) <==> node in nodes && IsListed(node, deleted)
  {
    if nodes != [] {
      var n := |nodes| - 1;
      ListedExactly(nodes[..n], deleted, node);
      assert nodes == nodes[..n] + [nodes[n]];
    }
  }

  lemma {:induction false} ListedKeepsIds(nodes: seq<Node>, deleted: set<nat>)
    requires DistinctIds(nodes)
    ensures DistinctIds(Listed(nodes, deleted))
  {
    if nodes != [] {
      var n := |nodes| - 1;
      ListedKeepsIds(nodes[..n], deleted);
      var before := Listed(nodes[..n], deleted);
      forall i | 0 <= i < |before|
        ensures before[i].id != nodes[n].id
      {
        ListedExactly(nodes[..n], deleted, before[i]);
      }
    }
  }

  /** Whatever was created and whichever documents were deleted: the listed nodes make a tree input in
      which every parent_id is listed, so only nodes without a parent_id become roots. */
  lemma ListedNodesAreWhole(creations: seq<Creation>, deleted: set<nat>)
    ensures var listed := Listed(CreatedAll(creations), deleted);
            DistinctIds(listed) && PathsNest(listed) &&
            forall i :: 0 <= i < |listed| && listed[i].parent.Some? ==> HasId(listed, listed[i].parent.value)
  {
    var nodes := CreatedAll(creations);
    var listed := Listed(nodes, deleted);
    CreatedNodesNest(creations);
    ListedKeepsIds(nodes, deleted);
    forall i | 0 <= i < |listed|
      ensures listed[i] in nodes
      ensures listed[i].parent.Some? ==> HasId(listed, listed[i].parent.value)
    {
      ListedExactly(nodes, deleted, listed[i]);
      if listed[i].parent.Some? {
        ParentIsListed(nodes, deleted, listed[i]);
      }
    }
  }

  lemma ParentIsListed(nodes: seq<Node>, deleted: set<nat>, node: Node)
    requires ParentsAreFolders(nodes) && node in nodes && node.parent.Some?
    ensures HasId(Listed(nodes, deleted), node.parent.value)
  {
    var i :| 0 <= i < |nodes| && nodes[i] == node;
    assert HasFolder(nodes, nodes[i].parent.value);
    var parent := nodes[FindNode(nodes, node.parent.value).value];
    ListedExactly(nodes, deleted, parent);
    var k :| 0 <= k < |Listed(nodes, deleted)| && Listed(nodes, deleted)[k] == parent;
  }

  // --- Every node is placed exactly once ---

  function Occurrences(ids: seq<nat>, id: nat): nat {
    if ids == [] then 0 else Occurrences(ids[..|ids| - 1], id) + if ids[|ids| - 1] == id then 1 else 0
  }

  lemma OccurrencesAppended(ids: seq<nat>, last: nat, id: nat)
    ensures Occurrences(ids + [last], id) == Occurrences(ids, id) + if last == id then 1 else 0
  {
  }

  lemma {:induction false} RootOccurrences(all: seq<Node>, nodes: seq<Node>, id: nat)
    requires DistinctIds(nodes)
    ensures Occurrences(RootsOf(all, nodes), id) ==
            if FindNode(nodes, id).Some? && IsRoot(all, nodes[FindNode(nodes, id).value]) then 1 else 0
  {
    if nodes != [] {
      var n := |nodes| - 1;
      RootOccurrences(all, nodes[..n], id);
      if IsRoot(all, nodes[n]) {
        OccurrencesAppended(RootsOf(all, nodes[..n]), nodes[n].id, id);
      } else {
        assert RootsOf(all, nodes) == RootsOf(all, nodes[..n]);
      }
    }
  }

  lemma {:induction false} ChildOccurrences(nodes: seq<Node>, p: nat, id: nat)
    requires DistinctIds(nodes)
    ensures Occurrences(ChildrenOf(nodes, p), id) ==
            if FindNode(nodes, id).Some? && nodes[FindNode(nodes, id).value].parent == Some(p) then 1 else 0
  {
    if nodes != [] {
      var n := |nodes| - 1;
      ChildOccurrences(nodes[..n], p, id);
      if nodes[n].parent == Some(p) {
        OccurrencesAppended(ChildrenOf(nodes[..n], p), nodes[n].id, id);
      } else {
        assert ChildrenOf(nodes, p) == ChildrenOf(nodes[..n], p);
      }
    }
  }

  lemma FindDistinct(nodes: seq<Node>, k: nat)
    requires DistinctIds(nodes) && k < |nodes|
    ensures FindNode(nodes, nodes[k].id) == Some(k)
  {
  }

  /** In the built tree each node stands exactly once: under the node named by its parent_id when that
      node is listed, among the roots otherwise, and nowhere else. */
  lemma EachNodeOnce(nodes: seq<Node>, roots: seq<nat>, children: map<nat, seq<nat>>, i: nat, p: nat)
    requires DistinctIds(nodes) && i < |nodes| && p in children
    requires roots == RootsOf(SortedByKey(nodes), SortedByKey(nodes)) && Lists(children, SortedByKey(nodes))
    ensures Occurrences(roots, nodes[i].id) == if IsRoot(nodes, nodes[i]) then 1 else 0
    ensures Occurrences(children[p], nodes[i].id) == if nodes[i].parent == Some(p) then 1 else 0
  {
    var sorted := SortedByKey(nodes);
    SortingKeepsIds(nodes);
    var k := IndexInSorted(nodes, i);
    FindDistinct(sorted, k);
    RootOccurrences(sorted, sorted, nodes[i].id);
    ChildOccurrences(sorted, p, nodes[i].id);
  }

  lemma IndexInSorted(nodes: seq<Node>, i: nat) returns (k: nat)
    requires i < |nodes|
    ensures k < |SortedByKey(nodes)| && SortedByKey(nodes)[k] == nodes[i]
  {
    SortedByKeyIsSorted(nodes);
    assert nodes[i] in multiset(nodes);
    assert nodes[i] in SortedByKey(nodes);
    k :| 0 <= k < |SortedByKey(nodes)| && SortedByKey(nodes)[k] == nodes[i];
  }

  /** The chain of parents of any node ends at a root: the view holds every node, with no cycle. */
  lemma {:induction false} HangsFromRoot(nodes: seq<Node>, i: nat) returns (r: nat, depth: nat)
    requires PathsNest(nodes) && i < |nodes|
    ensures r < |nodes| && IsRoot(nodes, nodes[r]) && Ancestor(nodes, i, depth) == Some(r)
    decreases |nodes[i].path|
  {
    if IsRoot(nodes, nodes[i]) {
      return i, 0;
    }
    var j := FindNode(nodes, nodes[i].parent.value).value;
    var above;
    r, above := HangsFromRoot(nodes, j);
    depth := above + 1;
  }

  /** The node `depth` steps up. */
  function Ancestor(nodes: seq<Node>, i: nat, depth: nat): Option<nat>
    requires i < |nodes|
    decreases depth
  {
    if depth == 0 then Some(i)
    else if nodes[i].parent.None? then None
    else
      var j := FindNode(nodes, nodes[i].parent.value);
      if j.None? then None else Ancestor(nodes, j.value, depth - 1)
  }
}
