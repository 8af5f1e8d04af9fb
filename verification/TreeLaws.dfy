/** What the document tree is made of: which creations take effect, how paths are spelled, the order of
    siblings, and what a deletion hides. */
module TreeLaws {
  import opened Wrappers
  import opened DocumentTree

  // --- Creation ---

  /** Where a creation can go: to the top, or below a folder that exists. */
  predicate CanGoBelow(nodes: seq<Node>, parent: Option<nat>) {
    parent == None || exists i :: 0 <= i < |nodes| && Some(nodes[i].id) == parent && nodes[i].folder
  }

  predicate GoodSlug(slug: string) {
    |slug| > 0 && forall i :: 0 <= i < |slug| ==> slug[i] != '/'
  }

  /** The node is spelled by its slug, behind its parent's path and a slash if it has one. */
  predicate IsSpelled(nodes: seq<Node>, node: Node, slug: string) {
    GoodSlug(slug) &&
    match node.parent
    case None => node.path == slug
    case Some(p) => exists i :: 0 <= i < |nodes| && nodes[i].id == p && node.path == nodes[i].path + "/" + slug
  }

  /** One more creation adds its node at the end exactly if the id is fresh, the slug is good and there is
      a place for it; otherwise nothing changes. */
  lemma CreationAddsIff(creations: seq<Creation>, c: Creation)
    ensures var before, after := CreatedAll(creations), CreatedAll(creations + [c]);
            if HasId(before, c.id) || !GoodSlug(c.slug) || !CanGoBelow(before, c.parent) then after == before
            else
              |after| == |before| + 1 && after[..|before|] == before &&
              var node := after[|before|];
              node.id == c.id && node.parent == c.parent && node.folder == c.folder &&
              node.sortOrder == c.sortOrder && IsSpelled(before, node, c.slug)
  {
    var before := CreatedAll(creations);
    assert (creations + [c])[..|creations|] == creations;
    CreatedNodesNest(creations);
    assert IsSlug(c.slug) <==> GoodSlug(c.slug);
    FoundIffPresent(before, c.id);
    if c.parent.Some? {
      FolderIffFound(before, c.parent.value);
    }
  }

  lemma FoundIffPresent(nodes: seq<Node>, id: nat)
    ensures FindNode(nodes, id).Some? <==> HasId(nodes, id)
  {
  }

  lemma FolderIffFound(nodes: seq<Node>, p: nat)
    requires DistinctIds(nodes)
    ensures CanGoBelow(nodes, Some(p)) <==> HasFolder(nodes, p)
  {
    if CanGoBelow(nodes, Some(p)) {
      var i :| 0 <= i < |nodes| && Some(nodes[i].id) == Some(p) && nodes[i].folder;
      var found := FindNode(nodes, p);
      assert found.Some? && found.value == i;
    }
  }

  // --- Order ---

  /** The order of strings: a prefix comes first, otherwise the first difference decides. */
  predicate Precedes(a: string, b: string) {
    a <= b || exists k :: 0 <= k < |a| && k < |b| && a[..k] == b[..k] && a[k] < b[k]
  }

  lemma {:induction false} LeStrIsOrder(a: string, b: string)
    ensures LeStr(a, b) <==> Precedes(a, b)
  {
    if a != "" && b != "" {
      LeStrIsOrder(a[1..], b[1..]);
      if a[0] == b[0] {
        TailsDecide(a, b);
      } else if a[0] < b[0] {
        assert a[..0] == b[..0];
      } else {
        assert forall k :: 1 <= k < |a| && k < |b| ==> a[..k][0] != b[..k][0];
      }
    }
  }

  lemma TailsDecide(a: string, b: string)
    requires a != "" && b != "" && a[0] == b[0]
    ensures Precedes(a, b) <==> Precedes(a[1..], b[1..])
  {
    if a <= b {
      assert a[1..] <= b[1..];
    }
    if a[1..] <= b[1..] {
      assert a == [a[0]] + a[1..] && b == [b[0]] + b[1..];
      assert a <= b;
    }
    if k :| 0 <= k < |a| && k < |b| && a[..k] == b[..k] && a[k] < b[k] {
      assert k > 0;
      assert a[1..][..k - 1] == a[..k][1..] && b[1..][..k - 1] == b[..k][1..];
      assert a[1..][k - 1] < b[1..][k - 1];
    }
    if k :| 0 <= k < |a[1..]| && k < |b[1..]| && a[1..][..k] == b[1..][..k] && a[1..][k] < b[1..][k] {
      assert a[..k + 1] == [a[0]] + a[1..][..k] && b[..k + 1] == [b[0]] + b[1..][..k];
      assert a[k + 1] < b[k + 1];
    }
  }

  /** The nodes stand by path, and within a path by sort order; all nodes are there. */
  lemma SortedByPathThenOrder(nodes: seq<Node>, i: nat, j: nat)
    requires i < j < |SortedByKey(nodes)|
    ensures var a, b := SortedByKey(nodes)[i], SortedByKey(nodes)[j];
            Precedes(a.path, b.path) && (a.path == b.path ==> a.sortOrder <= b.sortOrder)
    ensures multiset(SortedByKey(nodes)) == multiset(nodes)
  {
    SortedByKeyIsSorted(nodes);
    var a, b := SortedByKey(nodes)[i], SortedByKey(nodes)[j];
    assert KeyLe(a, b);
    LeStrIsOrder(a.path, b.path);
  }

  // --- Deletion ---

  lemma {:induction false} ListedCounts(nodes: seq<Node>, deleted: set<nat>, node: Node)
    ensures multiset(Listed(nodes, deleted))[node] ==
            if !node.folder && node.id in deleted then 0 else multiset(nodes)[node]
  {
    if nodes != [] {
      var n := |nodes| - 1;
      ListedCounts(nodes[..n], deleted, node);
      assert nodes == nodes[..n] + [nodes[n]];
    }
  }
}
