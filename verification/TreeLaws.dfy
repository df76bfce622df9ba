/** Laws of the tree operations: filtering, child lists, descendants, marking. */
module TreeLaws {
  import opened Basics
  import opened ExplorationMap

  // ----- Filtering ----------------------------------------------------------------------------

  lemma {:induction false} WithoutMembers(nodes: seq<Node>, gone: set<NodeId>)
    ensures forall n :: n in Without(nodes, gone) <==> n in nodes && n.id !in gone
  {
    if nodes != [] {
      WithoutMembers(nodes[..|nodes| - 1], gone);
      assert nodes == nodes[..|nodes| - 1] + [nodes[|nodes| - 1]];
    }
  }

  lemma {:induction false} WithoutDistinct(nodes: seq<Node>, gone: set<NodeId>)
    requires DistinctIds(nodes) && DistinctNews(nodes)
    ensures DistinctIds(Without(nodes, gone)) && DistinctNews(Without(nodes, gone))
  {
    if nodes != [] {
      var front := nodes[..|nodes| - 1];
      WithoutDistinct(front, gone);
      WithoutMembers(front, gone);
      var rest := Without(front, gone);
      forall i | 0 <= i < |rest|
        ensures rest[i].id != nodes[|nodes| - 1].id && rest[i].news != nodes[|nodes| - 1].news
      {
        assert rest[i] in front;
      }
    }
  }

  lemma {:induction false} IdsOfFront(nodes: seq<Node>)
    requires nodes != []
    ensures Ids(nodes) == Ids(nodes[..|nodes| - 1]) + {nodes[|nodes| - 1].id}
    ensures DistinctIds(nodes) ==> nodes[|nodes| - 1].id !in Ids(nodes[..|nodes| - 1])
  {
    assert nodes == nodes[..|nodes| - 1] + [nodes[|nodes| - 1]];
  }

  lemma {:induction false} AddToMeet(a: set<NodeId>, b: set<NodeId>, x: NodeId)
    requires x !in b
    ensures |a * (b + {x})| == |a * b| + (if x in a then 1 else 0)
  {
    if x in a {
      assert a * (b + {x}) == a * b + {x};
    } else {
      assert a * (b + {x}) == a * b;
    }
  }

  lemma {:induction false} WithoutCount(nodes: seq<Node>, gone: set<NodeId>)
    requires DistinctIds(nodes)
    ensures |Without(nodes, gone)| + |gone * Ids(nodes)| == |nodes|
  {
    if nodes == [] {
      assert gone * Ids(nodes) == {};
    } else {
      WithoutCount(nodes[..|nodes| - 1], gone);
      IdsOfFront(nodes);
      AddToMeet(gone, Ids(nodes[..|nodes| - 1]), nodes[|nodes| - 1].id);
    }
  }

  lemma {:induction false} WithoutBranchesMembers(branches: seq<Branch>, gone: set<NodeId>)
    ensures forall b :: b in WithoutBranches(branches, gone) <==> b in branches && b.parent !in gone
  {
    if branches != [] {
      WithoutBranchesMembers(branches[..|branches| - 1], gone);
      assert branches == branches[..|branches| - 1] + [branches[|branches| - 1]];
    }
  }

  lemma {:induction false} WithoutBranchesDistinct(branches: seq<Branch>, gone: set<NodeId>)
    requires DistinctParents(branches)
    ensures DistinctParents(WithoutBranches(branches, gone))
  {
    if branches != [] {
      var front := branches[..|branches| - 1];
      WithoutBranchesDistinct(front, gone);
      WithoutBranchesMembers(front, gone);
      var rest := WithoutBranches(front, gone);
      forall i | 0 <= i < |rest| ensures rest[i].parent != branches[|branches| - 1].parent {
        assert rest[i] in front;
      }
    }
  }

  lemma {:induction false} ElementsAppend<T>(s: seq<T>, x: T)
    ensures Elements(s + [x]) == Elements(s) + {x}
  {
    assert forall y :: y in s + [x] <==> y in s || y == x;
  }

  lemma {:induction false} KeepingMembers(ids: seq<NewsId>, visible: set<NewsId>)
    ensures Elements(Keeping(ids, visible)) == Elements(ids) * visible
  {
    if ids != [] {
      KeepingMembers(ids[..|ids| - 1], visible);
      ElementsAppend(ids[..|ids| - 1], ids[|ids| - 1]);
      assert ids == ids[..|ids| - 1] + [ids[|ids| - 1]];
      ElementsAppend(Keeping(ids[..|ids| - 1], visible), ids[|ids| - 1]);
    }
  }

  lemma {:induction false} RecordKeys(articles: map<NewsId, Article>, items: seq<Item>)
    ensures Record(articles, items).Keys == articles.Keys + Elements(NewsOf(items))
  {
    if items == [] {
      assert NewsOf(items) == [];
    } else {
      var front := items[..|items| - 1];
      RecordKeys(articles, front);
      assert NewsOf(items) == NewsOf(front) + [items[|items| - 1].news];
    }
  }

  lemma {:induction false} NewNodeAt(items: seq<Item>, next: nat, parent: Option<NodeId>, level: nat, batch: nat)
    ensures var r := NewNodes(items, next, parent, level, batch);
            && |r| == |items|
            && forall i :: 0 <= i < |items| ==> r[i] == Node(next + i, items[i].news, parent, level, false, batch)
  {
    if items != [] {
      NewNodeAt(items[..|items| - 1], next, parent, level, batch);
    }
  }

  lemma {:induction false} MarkedAt(nodes: seq<Node>, p: NodeId)
    ensures |MarkExpanded(nodes, p)| == |nodes|
    ensures forall i :: 0 <= i < |nodes| ==> MarkExpanded(nodes, p)[i] == Marked(nodes[i], p)
  {
    if nodes != [] {
      MarkedAt(nodes[..|nodes| - 1], p);
    }
  }

  // ----- Child lists ----------------------------------------------------------------------------

  lemma {:induction false} ChildIdsAppend(a: seq<Node>, b: seq<Node>, p: NodeId)
    ensures ChildIds(a + b, p) == ChildIds(a, p) + ChildIds(b, p)
  {
    if b == [] {
      assert a + b == a;
    } else {
      var front := b[..|b| - 1];
      ChildIdsAppend(a, front, p);
      assert (a + b)[..|a + b| - 1] == a + front;
    }
  }

  lemma {:induction false} ChildIdsWithout(nodes: seq<Node>, gone: set<NodeId>, p: NodeId)
    requires forall n :: n in nodes && n.parent == Some(p) ==> n.id !in gone
    ensures ChildIds(Without(nodes, gone), p) == ChildIds(nodes, p)
  {
    if nodes != [] {
      var front, n := nodes[..|nodes| - 1], nodes[|nodes| - 1];
      assert forall m :: m in front ==> m in nodes;
      assert n in nodes;
      ChildIdsWithout(front, gone, p);
      var rest := Without(front, gone);
      assert (rest + [n])[..|rest|] == rest;
    }
  }

  lemma {:induction false} NoChildren(nodes: seq<Node>, p: NodeId)
    requires forall n :: n in nodes ==> n.parent != Some(p)
    ensures ChildIds(nodes, p) == []
  {
    if nodes != [] {
      NoChildren(nodes[..|nodes| - 1], p);
    }
  }

  lemma {:induction false} ChildIdsOfNew(items: seq<Item>, next: nat, p: NodeId, level: nat, batch: nat)
    ensures ChildIds(NewNodes(items, next, Some(p), level, batch), p) == NewIds(next, |items|)
  {
    if items != [] {
      var front := items[..|items| - 1];
      ChildIdsOfNew(front, next, p, level, batch);
      var nodes := NewNodes(items, next, Some(p), level, batch);
      assert nodes[..|nodes| - 1] == NewNodes(front, next, Some(p), level, batch);
      assert NewIds(next, |items|) == NewIds(next, |front|) + [next + |front|];
    }
  }

  /** Child lists depend on ids and parents only. */
  lemma {:induction false} ChildIdsAgree(a: seq<Node>, b: seq<Node>, p: NodeId)
    requires |a| == |b|
    requires forall i :: 0 <= i < |a| ==> a[i].id == b[i].id && a[i].parent == b[i].parent
    ensures ChildIds(a, p) == ChildIds(b, p)
  {
    if a != [] {
      ChildIdsAgree(a[..|a| - 1], b[..|b| - 1], p);
    }
  }

  // ----- Descendants --------------------------------------------------------------------------------

  /** The parent of a node `k` links below p is p itself or `k - 1` links below it. */
  lemma {:induction false} BelowUnfold(nodes: seq<Node>, p: NodeId, x: NodeId, k: nat) returns (n: Node)
    requires Below(nodes, p, x, k)
    ensures n in nodes && n.id == x && n.parent.Some?
    ensures if k == 1 then n.parent.value == p else Below(nodes, p, n.parent.value, k - 1)
  {
    n :| n in nodes && n.id == x && n.parent.Some?
                && (if k == 1 then n.parent.value == p else Below(nodes, p, n.parent.value, k - 1));
  }

  lemma {:induction false} ChildIsDescendant(nodes: seq<Node>, p: NodeId, n: Node)
    requires n in nodes && n.parent.Some?
    requires n.parent.value == p || n.parent.value in Descendants(nodes, p)
    ensures n.id in Descendants(nodes, p)
  {
    if n.parent.value == p {
      assert Below(nodes, p, n.id, 1);
    } else {
      var k: nat :| Below(nodes, p, n.parent.value, k);
      assert k != 0;
      assert Below(nodes, p, n.id, k + 1);
    }
  }

  /** A set closed under taking children contains every descendant. */
  lemma {:induction false} ClosedContainsDescendants(nodes: seq<Node>, p: NodeId, s: set<NodeId>)
    requires forall n :: n in nodes && n.parent.Some? && (n.parent.value == p || n.parent.value in s) ==> n.id in s
    ensures Descendants(nodes, p) <= s
  {
    forall x | x in Descendants(nodes, p) ensures x in s {
      var k: nat :| Below(nodes, p, x, k);
      ClosedContains(nodes, p, s, x, k);
    }
  }

  lemma {:induction false} ClosedContains(nodes: seq<Node>, p: NodeId, s: set<NodeId>, x: NodeId, k: nat)
    requires forall n :: n in nodes && n.parent.Some? && (n.parent.value == p || n.parent.value in s) ==> n.id in s
    requires Below(nodes, p, x, k)
    ensures x in s
    decreases k
  {
    var n := BelowUnfold(nodes, p, x, k);
    if k > 1 {
      ClosedContains(nodes, p, s, n.parent.value, k - 1);
    }
  }

  lemma {:induction false} ParentOf(nodes: seq<Node>, n: Node) returns (q: Node)
    requires Linked(nodes) && n in nodes && n.parent.Some?
    ensures q in nodes && n.parent == Some(q.id) && q.level + 1 == n.level && q.expanded
  {
    assert HasParent(nodes, n);
    q :| q in nodes && n.parent == Some(q.id) && q.level + 1 == n.level && q.expanded;
  }

  lemma {:induction false} DescendantLevel(nodes: seq<Node>, root: Option<NodeId>, next: nat, p: Node, x: Node, k: nat)
    requires Tree(nodes, root, next) && p in nodes && x in nodes
    requires Below(nodes, p.id, x.id, k)
    ensures x.level == p.level + k
    decreases k
  {
    var n := BelowUnfold(nodes, p.id, x.id, k);
    var q := ParentOf(nodes, n);
    if k == 1 {
    } else {
      DescendantLevel(nodes, root, next, p, q, k - 1);
    }
  }

  /** In a tree no node is its own descendant, and the root is nobody's. */
  lemma {:induction false} DescendantsAreDeeper(nodes: seq<Node>, root: Option<NodeId>, next: nat, p: Node, x: Node)
    requires Tree(nodes, root, next) && p in nodes && x in nodes && x.id in Descendants(nodes, p.id)
    ensures x.level > p.level && x.parent.Some?
  {
    var k: nat :| Below(nodes, p.id, x.id, k);
    DescendantLevel(nodes, root, next, p, x, k);
    var n := BelowUnfold(nodes, p.id, x.id, k);
  }

  /** Removing a whole subtree leaves each survivor its parent, and removes only nodes of the document. */
  lemma {:induction false} SubtreeRemoval(nodes: seq<Node>, root: Option<NodeId>, next: nat, p: Node)
    requires Tree(nodes, root, next) && p in nodes
    ensures var kept := Without(nodes, Descendants(nodes, p.id));
            && p in kept
            && Linked(kept)
            && (forall n :: n in kept ==> n.parent != Some(p.id))
            && (root.Some? ==> HasRoot(kept, root.value))
  {
    var gone := Descendants(nodes, p.id);
    var kept := Without(nodes, gone);
    WithoutMembers(nodes, gone);
    if p.id in gone {
      DescendantsAreDeeper(nodes, root, next, p, p);
    }
    forall n | n in kept && n.parent.Some? ensures HasParent(kept, n) && n.parent != Some(p.id) {
      var q := ParentOf(nodes, n);
      if q.id in gone || q.id == p.id {
        ChildIsDescendant(nodes, p.id, n);
      }
      assert q in kept;
    }
    if root.Some? {
      var r :| r in nodes && r.id == root.value && r.parent.None?;
      if r.id in gone {
        DescendantsAreDeeper(nodes, root, next, p, r);
      }
      assert r in kept;
    }
  }
}
