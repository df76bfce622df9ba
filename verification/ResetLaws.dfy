/**
 Reset: the document becomes a copy of its initial snapshot under an injective renaming to ids
 that were never used, every lookup of the renaming finds its key, and the invariant is kept.
 */
module ResetLaws {
  import opened Basics
  import opened ExplorationMap
  import opened TreeLaws

  ghost predicate Injective(f: map<NodeId, NodeId>) {
    forall a, b :: a in f && b in f && f[a] == f[b] ==> a == b
  }

  /** `n` is `o` with its own id and its parent's id renamed. */
  ghost predicate RenamedNode(o: Node, f: map<NodeId, NodeId>, n: Node) {
    && o.id in f
    && (o.parent.Some? ==> o.parent.value in f)
    && n == o.(id := f[o.id], parent := match o.parent case None => None case Some(q) => Some(f[q]))
  }

  ghost predicate RenamedNodes(a: seq<Node>, f: map<NodeId, NodeId>, b: seq<Node>) {
    |a| == |b| && forall i {:trigger b[i]} :: 0 <= i < |a| ==> RenamedNode(a[i], f, b[i])
  }

  ghost predicate RenamedIdList(a: seq<NodeId>, f: map<NodeId, NodeId>, b: seq<NodeId>) {
    |a| == |b| && forall i :: 0 <= i < |a| ==> a[i] in f && b[i] == f[a[i]]
  }

  ghost predicate RenamedBranches(a: seq<Branch>, f: map<NodeId, NodeId>, b: seq<Branch>) {
    |a| == |b| && forall i :: 0 <= i < |a| ==>
      && a[i].parent in f && b[i].parent == f[a[i].parent]
      && RenamedIdList(a[i].children, f, b[i].children)
      && b[i].display == a[i].display && b[i].last == a[i].last
  }

  /** The document shows an isomorphic copy of the snapshot, on ids from `next` on. */
  ghost predicate FreshCopy(s: Snapshot, f: map<NodeId, NodeId>, next: nat, doc: MapDoc) {
    && f.Keys == Ids(s.nodes)
    && Injective(f)
    && (forall k :: k in f ==> next <= f[k] < next + |s.nodes|)
    && RenamedNodes(s.nodes, f, doc.nodes)
    && RenamedBranches(s.branches, f, doc.branches)
    && RenamedHistory(s.history, f, doc.history)
    && (s.root.None? ==> doc.root.None?)
    && (s.root.Some? ==> s.root.value in f && doc.root == Some(f[s.root.value]))
  }

  lemma {:induction false} RenamingAt(nodes: seq<Node>, next: nat)
    requires DistinctIds(nodes)
    ensures Renaming(nodes, next).Keys == Ids(nodes)
    ensures forall i :: 0 <= i < |nodes| ==>
            nodes[i].id in Renaming(nodes, next) && Renaming(nodes, next)[nodes[i].id] == next + i
  {
    RenamingKeys(nodes, next);
    if nodes != [] {
      var front := nodes[..|nodes| - 1];
      RenamingAt(front, next);
      forall i | 0 <= i < |nodes| ensures nodes[i].id in Ids(nodes) && Renaming(nodes, next)[nodes[i].id] == next + i {
        assert nodes[i] in nodes;
        if i < |front| { assert nodes[i] == front[i]; }
      }
    }
  }

  lemma {:induction false} RenamingInjective(nodes: seq<Node>, next: nat)
    requires DistinctIds(nodes)
    ensures Injective(Renaming(nodes, next))
    ensures forall k :: k in Renaming(nodes, next) ==> next <= Renaming(nodes, next)[k] < next + |nodes|
  {
    RenamingAt(nodes, next);
    var f := Renaming(nodes, next);
    forall a, b | a in f && b in f && f[a] == f[b] ensures a == b {
      var n :| n in nodes && n.id == a;
      var m :| m in nodes && m.id == b;
      var i :| 0 <= i < |nodes| && nodes[i] == n;
      var j :| 0 <= j < |nodes| && nodes[j] == m;
    }
    forall k | k in f ensures next <= f[k] < next + |nodes| {
      var n :| n in nodes && n.id == k;
      var i :| 0 <= i < |nodes| && nodes[i] == n;
    }
  }

  lemma {:induction false} RenameNodesAt(nodes: seq<Node>, f: map<NodeId, NodeId>)
    requires Ids(nodes) <= f.Keys
    ensures |RenameNodes(nodes, f)| == |nodes|
    ensures forall i :: 0 <= i < |nodes| ==>
              nodes[i].id in f &&
              RenameNodes(nodes, f)[i] == nodes[i].(id := f[nodes[i].id], parent := RenameParent(nodes[i].parent, f))
  {
    if nodes != [] {
      var front, last := nodes[..|nodes| - 1], nodes[|nodes| - 1];
      assert last in nodes;
      assert Ids(front) <= Ids(nodes);
      RenameNodesAt(front, f);
    }
  }

  lemma {:induction false} ParentsInDocument(nodes: seq<Node>, n: Node)
    requires Linked(nodes) && n in nodes && n.parent.Some?
    ensures n.parent.value in Ids(nodes)
  {
    var q := ParentOf(nodes, n);
  }

  lemma {:induction false} ResetRenamesNodes(nodes: seq<Node>, f: map<NodeId, NodeId>)
    requires Linked(nodes) && f.Keys == Ids(nodes)
    ensures RenamedNodes(nodes, f, RenameNodes(nodes, f))
  {
    RenameNodesAt(nodes, f);
    forall i | 0 <= i < |nodes| ensures RenamedNode(nodes[i], f, RenameNodes(nodes, f)[i]) {
      if nodes[i].parent.Some? {
        ParentsInDocument(nodes, nodes[i]);
      }
    }
  }

  lemma {:induction false} RenameHistoryCorrect(h: map<NodeId, History>, f: map<NodeId, NodeId>, nodes: seq<Node>)
    requires Injective(f) && Ids(nodes) <= f.Keys
    ensures var r := RenameHistory(h, f, nodes);
            && (forall k :: k in h && k in Ids(nodes) ==> f[k] in r && r[f[k]] == h[k])
            && (forall x {:trigger Renames(h, f, x)} :: x in r ==> Renames(h, f, x))
  {
    if nodes != [] {
      var front, id := nodes[..|nodes| - 1], nodes[|nodes| - 1].id;
      IdsOfFront(nodes);
      RenameHistoryCorrect(h, f, front);
      forall x | x in RenameHistory(h, f, nodes) ensures Renames(h, f, x) {
        if x in RenameHistory(h, f, front) {
          assert Renames(h, f, x);
        } else {
          assert f[id] == x;
        }
      }
    }
  }

  lemma {:induction false} ChildIdsInDocument(nodes: seq<Node>, p: NodeId)
    ensures Elements(ChildIds(nodes, p)) <= Ids(nodes)
  {
    if nodes != [] {
      var front, n := nodes[..|nodes| - 1], nodes[|nodes| - 1];
      IdsOfFront(nodes);
      ChildIdsInDocument(front, p);
      ElementsAppend(ChildIds(front, p), n.id);
    }
  }

  lemma {:induction false} SnapshotLookups(s: Snapshot)
    requires BranchesMatch(s.nodes, s.branches) && s.history.Keys <= Ids(s.nodes)
    ensures LookupsDefined(s)
  {
    forall b | b in s.branches ensures b.parent in Ids(s.nodes) && Elements(b.children) <= Ids(s.nodes) {
      ChildIdsInDocument(s.nodes, b.parent);
    }
  }

  lemma {:induction false} SnapshotCopy(s: Snapshot, f: map<NodeId, NodeId>, next: nat)
    requires LookupsDefined(s) && Linked(s.nodes) && f.Keys == Ids(s.nodes) && Injective(f)
    requires s.root.Some? ==> HasRoot(s.nodes, s.root.value)
    ensures RenamedNodes(s.nodes, f, RenameNodes(s.nodes, f))
    ensures RenamedBranches(s.branches, f, RenameBranches(s.branches, f))
    ensures RenamedHistory(s.history, f, RenameHistory(s.history, f, s.nodes))
    ensures s.root.Some? ==> s.root.value in f
  {
    ResetRenamesNodes(s.nodes, f);
    RenameHistoryCorrect(s.history, f, s.nodes);
    if s.root.Some? {
      var r :| r in s.nodes && r.id == s.root.value && r.parent.None?;
    }
  }

  /** Reset always succeeds on a good document and produces a fresh isomorphic copy of the snapshot. */
  lemma {:induction false} ResetIsFreshCopy(doc: MapDoc, limits: Limits)
    requires Good(doc, limits)
    ensures Reset(doc).Accepted?
    ensures FreshCopy(doc.initial, Renaming(doc.initial.nodes, doc.nextSeq), doc.nextSeq, Reset(doc).doc)
    ensures var d := Reset(doc).doc;
            && d.nextSeq == doc.nextSeq + |doc.initial.nodes| && d.initial == doc.initial
            && d.selected == [] && d.detail.None? && !d.panelOpen && d.active.None? && d.lastResult.None?
            && d.summary == doc.initial.summary && d.articles == doc.articles && d.context == doc.context
            && d.revision == doc.revision
  {
    var s := doc.initial;
    SnapshotLookups(s);
    RenamingAt(s.nodes, doc.nextSeq);
    RenamingInjective(s.nodes, doc.nextSeq);
    SnapshotCopy(s, Renaming(s.nodes, doc.nextSeq), doc.nextSeq);
  }

  // ----- A renamed good tree is a good tree ----------------------------------------------------

  lemma {:induction false} RenamedChildIds(a: seq<Node>, f: map<NodeId, NodeId>, b: seq<Node>, p: NodeId)
    requires Injective(f) && RenamedNodes(a, f, b) && p in f
    ensures RenamedIdList(ChildIds(a, p), f, ChildIds(b, f[p]))
  {
    if a != [] {
      var last := |a| - 1;
      assert RenamedNode(a[last], f, b[last]);
      RenamedChildIds(a[..last], f, b[..last], p);
    }
  }

  lemma {:induction false} Original(a: seq<Node>, f: map<NodeId, NodeId>, b: seq<Node>, n: Node) returns (o: Node)
    requires RenamedNodes(a, f, b) && n in b
    ensures o in a && RenamedNode(o, f, n)
  {
    var i :| 0 <= i < |b| && b[i] == n;
    o := a[i];
    assert RenamedNode(o, f, b[i]);
  }

  lemma {:induction false} Image(a: seq<Node>, f: map<NodeId, NodeId>, b: seq<Node>, o: Node) returns (n: Node)
    requires RenamedNodes(a, f, b) && o in a
    ensures n in b && RenamedNode(o, f, n)
  {
    var i :| 0 <= i < |a| && a[i] == o;
    n := b[i];
  }

  lemma {:induction false} RenamedLinks(a: seq<Node>, f: map<NodeId, NodeId>, b: seq<Node>)
    requires RenamedNodes(a, f, b) && Linked(a)
    ensures Linked(b)
  {
    forall n | n in b && n.parent.Some? ensures HasParent(b, n) {
      var o := Original(a, f, b, n);
      var q := ParentOf(a, o);
      var m := Image(a, f, b, q);
    }
  }

  lemma {:induction false} RenamedTree(s: Snapshot, f: map<NodeId, NodeId>, next: nat, doc: MapDoc)
    requires FreshCopy(s, f, next, doc) && Tree(s.nodes, s.root, next)
    ensures Tree(doc.nodes, doc.root, next + |s.nodes|)
  {
    RenamedLinks(s.nodes, f, doc.nodes);
    forall n | n in doc.nodes
      ensures n.id < next + |s.nodes| && (n.parent.None? ==> doc.root == Some(n.id) && n.level == 0)
    {
      var o := Original(s.nodes, f, doc.nodes, n);
    }
    if s.root.Some? {
      var r :| r in s.nodes && r.id == s.root.value && r.parent.None?;
      var n := Image(s.nodes, f, doc.nodes, r);
    }
  }

  lemma {:induction false} RenamedIds(a: seq<Node>, f: map<NodeId, NodeId>, b: seq<Node>, k: NodeId)
    requires RenamedNodes(a, f, b) && k in Ids(a)
    ensures k in f && f[k] in Ids(b)
  {
    var o :| o in a && o.id == k;
    var n := Image(a, f, b, o);
  }

  lemma {:induction false} RenamedExactChildren(s: Snapshot, f: map<NodeId, NodeId>, next: nat, doc: MapDoc)
    requires FreshCopy(s, f, next, doc) && BranchesMatch(s.nodes, s.branches)
    ensures DistinctParents(doc.branches) && ExactChildren(doc.nodes, doc.branches)
  {
    forall b | b in doc.branches ensures b.parent in Ids(doc.nodes) && b.children == ChildIds(doc.nodes, b.parent) {
      var i :| 0 <= i < |doc.branches| && doc.branches[i] == b;
      var o := s.branches[i];
      assert o in s.branches;
      RenamedIds(s.nodes, f, doc.nodes, o.parent);
      RenamedChildIds(s.nodes, f, doc.nodes, o.parent);
    }
  }

  lemma {:induction false} RenamedBranchesMatch(s: Snapshot, f: map<NodeId, NodeId>, next: nat, doc: MapDoc)
    requires FreshCopy(s, f, next, doc) && BranchesMatch(s.nodes, s.branches)
    ensures BranchesMatch(doc.nodes, doc.branches)
  {
    RenamedExactChildren(s, f, next, doc);
    forall n: Node | n in doc.nodes ensures n.expanded <==> HasBranch(doc.branches, n.id) {
      var o := Original(s.nodes, f, doc.nodes, n);
      assert o.expanded <==> HasBranch(s.branches, o.id);
    }
  }

  lemma {:induction false} RenamedRest(s: Snapshot, f: map<NodeId, NodeId>, next: nat, doc: MapDoc, limits: Limits)
    requires FreshCopy(s, f, next, doc)
    requires WithinLimits(s.nodes, limits) && HistoryWithin(s.nodes, s.history, limits)
    ensures WithinLimits(doc.nodes, limits) && HistoryWithin(doc.nodes, doc.history, limits)
    ensures Visible(doc.nodes) <= Visible(s.nodes)
  {
    forall n | n in doc.nodes ensures n.level <= limits.depth && n.news in Visible(s.nodes) {
      var o := Original(s.nodes, f, doc.nodes, n);
    }
    forall x | x in doc.history ensures x in Ids(doc.nodes) && |doc.history[x].shown| <= limits.history {
      assert Renames(s.history, f, x);
      var k :| k in s.history && k in f && f[k] == x;
      RenamedIds(s.nodes, f, doc.nodes, k);
    }
  }

  /** Any number of resets in a row, and everything between them, keeps the invariant. */
  lemma {:induction false} ResetGood(doc: MapDoc, limits: Limits)
    requires Good(doc, limits)
    ensures Reset(doc).Accepted? && Good(Reset(doc).doc, limits)
  {
    ResetIsFreshCopy(doc, limits);
    var s, d, f := doc.initial, Reset(doc).doc, Renaming(doc.initial.nodes, doc.nextSeq);
    RenamedTree(s, f, doc.nextSeq, d);
    RenamedBranchesMatch(s, f, doc.nextSeq, d);
    RenamedRest(s, f, doc.nextSeq, d, limits);
    assert GoodTree(s.nodes, s.root, s.branches, s.history, d.nextSeq, limits);
  }
}
