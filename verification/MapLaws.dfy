/** Every request on a map keeps the document invariant, and never reuses a node id. */
module MapLaws {
  import opened Basics
  import opened ExplorationMap
  import opened TreeLaws

  // ----- Expansion and research -----------------------------------------------------------------

  /** What remains after removing the subtree below p: a tree in which p has no children. */
  ghost predicate Pruned(kept: seq<Node>, root: Option<NodeId>, p: Node) {
    && p in kept
    && DistinctIds(kept) && DistinctNews(kept)
    && Linked(kept)
    && (forall n :: n in kept ==> n.parent != Some(p.id))
    && (root.Some? ==> HasRoot(kept, root.value))
  }

  lemma {:induction false} WithoutNothing(nodes: seq<Node>)
    ensures Without(nodes, {}) == nodes
  {
    if nodes != [] {
      WithoutNothing(nodes[..|nodes| - 1]);
    }
  }

  lemma {:induction false} PrunedAfter(doc: MapDoc, limits: Limits, p: Node, mode: Mode)
    requires GoodTree(doc.nodes, doc.root, doc.branches, doc.history, doc.nextSeq, limits)
    requires p in doc.nodes && mode.Expand? == !p.expanded
    ensures Pruned(Without(doc.nodes, Removed(doc, p.id, mode)), doc.root, p)
  {
    WithoutDistinct(doc.nodes, Removed(doc, p.id, mode));
    if mode.Research? {
      SubtreeRemoval(doc.nodes, doc.root, doc.nextSeq, p);
    } else {
      WithoutNothing(doc.nodes);
      forall n | n in doc.nodes ensures n.parent != Some(p.id) {
        if n.parent == Some(p.id) {
          var q := ParentOf(doc.nodes, n);
        }
      }
    }
  }

  /** A child of a removed node is removed: a surviving parent other than p keeps all its children. */
  lemma {:induction false} ParentOfRemoved(doc: MapDoc, limits: Limits, p: Node, mode: Mode, n: Node)
    requires GoodTree(doc.nodes, doc.root, doc.branches, doc.history, doc.nextSeq, limits)
    requires p in doc.nodes && n in doc.nodes && n.id in Removed(doc, p.id, mode)
    ensures n.parent.Some? && (n.parent.value == p.id || n.parent.value in Removed(doc, p.id, mode))
  {
    var k: nat :| Below(doc.nodes, p.id, n.id, k);
    var m := BelowUnfold(doc.nodes, p.id, n.id, k);
    if k > 1 {
      var r := ParentOf(doc.nodes, m);
      assert IsDescendant(doc.nodes, p.id, r.id);
    }
  }

  lemma {:induction false} ChildrenSurvive(doc: MapDoc, limits: Limits, p: Node, mode: Mode, q: NodeId)
    requires GoodTree(doc.nodes, doc.root, doc.branches, doc.history, doc.nextSeq, limits)
    requires p in doc.nodes && q != p.id && q !in Removed(doc, p.id, mode)
    ensures ChildIds(Without(doc.nodes, Removed(doc, p.id, mode)), q) == ChildIds(doc.nodes, q)
  {
    var gone := Removed(doc, p.id, mode);
    forall n | n in doc.nodes && n.parent == Some(q) ensures n.id !in gone {
      if n.id in gone {
        ParentOfRemoved(doc, limits, p, mode, n);
      }
    }
    ChildIdsWithout(doc.nodes, gone, q);
  }

  lemma {:induction false} MarkedNodes(nodes: seq<Node>, p: NodeId)
    ensures forall n :: n in nodes ==> Marked(n, p) in MarkExpanded(nodes, p)
    ensures forall m :: m in MarkExpanded(nodes, p) ==> exists n :: n in nodes && m == Marked(n, p)
    ensures Ids(MarkExpanded(nodes, p)) == Ids(nodes)
    ensures Visible(MarkExpanded(nodes, p)) == Visible(nodes)
  {
    var marked := MarkExpanded(nodes, p);
    MarkedAt(nodes, p);
    forall n | n in nodes ensures Marked(n, p) in marked {
      var i :| 0 <= i < |nodes| && nodes[i] == n;
      assert marked[i] == Marked(n, p);
    }
  }

  lemma {:induction false} Unmark(nodes: seq<Node>, p: NodeId, m: Node) returns (n: Node)
    requires m in MarkExpanded(nodes, p)
    ensures n in nodes && m == Marked(n, p)
  {
    MarkedNodes(nodes, p);
    n :| n in nodes && m == Marked(n, p);
  }

  lemma {:induction false} MarkingKeepsLinks(nodes: seq<Node>, p: NodeId)
    requires Linked(nodes)
    ensures Linked(MarkExpanded(nodes, p))
  {
    var marked := MarkExpanded(nodes, p);
    forall m | m in marked && m.parent.Some? ensures HasParent(marked, m) {
      var n := Unmark(nodes, p, m);
      var q := ParentOf(nodes, n);
      MarkedNodes(nodes, p);
      assert Marked(q, p) in marked;
    }
  }

  lemma {:induction false} MarkingKeepsDistinct(nodes: seq<Node>, p: NodeId)
    requires DistinctIds(nodes) && DistinctNews(nodes)
    ensures DistinctIds(MarkExpanded(nodes, p)) && DistinctNews(MarkExpanded(nodes, p))
  {
    MarkedAt(nodes, p);
  }

  lemma {:induction false} MarkingKeepsRoot(nodes: seq<Node>, root: NodeId, p: NodeId)
    requires HasRoot(nodes, root)
    ensures HasRoot(MarkExpanded(nodes, p), root)
  {
    var r :| r in nodes && r.id == root && r.parent.None?;
    MarkedNodes(nodes, p);
    assert Marked(r, p) in MarkExpanded(nodes, p);
  }

  /** Marking a node expanded keeps the tree, its ids and its articles. */
  lemma {:induction false} MarkingKeepsTree(nodes: seq<Node>, root: Option<NodeId>, next: nat, p: NodeId)
    requires Tree(nodes, root, next)
    ensures Tree(MarkExpanded(nodes, p), root, next)
  {
    MarkingKeepsDistinct(nodes, p);
    MarkingKeepsLinks(nodes, p);
    if root.Some? {
      MarkingKeepsRoot(nodes, root.value, p);
    }
    forall m | m in MarkExpanded(nodes, p)
      ensures m.id < next && (m.parent.None? ==> root == Some(m.id) && m.level == 0)
    {
      var n := Unmark(nodes, p, m);
    }
    MarkedAt(nodes, p);
  }

  /** The nodes a replacement adds below p: fresh, distinct and one level down. */
  ghost predicate NewChildren(children: seq<Node>, p: Node, next: nat, visible: set<NewsId>) {
    && DistinctIds(children) && DistinctNews(children)
    && (forall c :: c in children ==> next <= c.id < next + |children| && !c.expanded)
    && (forall c :: c in children ==> c.parent == Some(p.id) && c.level == p.level + 1)
    && (forall c :: c in children ==> c.news !in visible)
  }

  lemma {:induction false} NewChildrenOf(items: seq<Item>, p: Node, next: nat, batch: nat, visible: set<NewsId>)
    requires NoRepeats(NewsOf(items)) && forall i :: 0 <= i < |items| ==> items[i].news !in visible
    ensures NewChildren(NewNodes(items, next, Some(p.id), p.level + 1, batch), p, next, visible)
    ensures |NewNodes(items, next, Some(p.id), p.level + 1, batch)| == |items|
  {
    var children := NewNodes(items, next, Some(p.id), p.level + 1, batch);
    NewNodeAt(items, next, Some(p.id), p.level + 1, batch);
    forall i, j | 0 <= i < j < |children| ensures children[i].news != children[j].news {
      assert NewsOf(items)[i] != NewsOf(items)[j];
    }
  }

  lemma {:induction false} JoinDistinct(a: seq<Node>, b: seq<Node>)
    requires DistinctIds(a) && DistinctNews(a) && DistinctIds(b) && DistinctNews(b)
    requires forall n, m :: n in a && m in b ==> n.id != m.id && n.news != m.news
    ensures DistinctIds(a + b) && DistinctNews(a + b)
  {
    var s := a + b;
    forall i, j | 0 <= i < j < |s| ensures s[i].id != s[j].id && s[i].news != s[j].news {
      if i < |a| <= j {
        assert s[i] in a && s[j] in b;
      }
    }
  }

  /** A subtree replaced below p: survivors first, then the new children, with p marked. */
  ghost predicate Grown(nodes: seq<Node>, kept: seq<Node>, children: seq<Node>, root: Option<NodeId>, p: Node,
      next: nat)
  {
    && Pruned(kept, root, p)
    && NewChildren(children, p, next, Visible(kept))
    && (forall n :: n in kept ==> n.id < next)
    && (forall n :: n in kept && n.parent.None? ==> root == Some(n.id) && n.level == 0)
    && nodes == MarkExpanded(kept + children, p.id)
  }

  lemma {:induction false} GrownLinks(nodes: seq<Node>, kept: seq<Node>, children: seq<Node>, root: Option<NodeId>,
      p: Node, next: nat)
    requires Grown(nodes, kept, children, root, p, next)
    ensures Linked(nodes)
  {
    MarkedNodes(kept + children, p.id);
    forall m | m in nodes && m.parent.Some? ensures HasParent(nodes, m) {
      var n := Unmark(kept + children, p.id, m);
      var q := p;
      if n in kept {
        q := ParentOf(kept, n);
      }
      assert q in kept + children && Marked(q, p.id) in nodes;
    }
  }

  lemma {:induction false} GrownTree(nodes: seq<Node>, kept: seq<Node>, children: seq<Node>, root: Option<NodeId>,
      p: Node, next: nat)
    requires Grown(nodes, kept, children, root, p, next) && root.Some?
    ensures Tree(nodes, root, next + |children|)
  {
    GrownLinks(nodes, kept, children, root, p, next);
    JoinDistinct(kept, children);
    MarkingKeepsDistinct(kept + children, p.id);
    var r :| r in kept && r.id == root.value && r.parent.None?;
    assert r in kept + children;
    MarkingKeepsRoot(kept + children, root.value, p.id);
    forall m | m in nodes ensures m.id < next + |children| && (m.parent.None? ==> root == Some(m.id) && m.level == 0) {
      var n := Unmark(kept + children, p.id, m);
    }
  }

  /** Child lists after a replacement: p's are the new nodes, every other survivor's are untouched. */
  lemma {:induction false} GrownChildLists(nodes: seq<Node>, kept: seq<Node>, children: seq<Node>, root: Option<NodeId>,
      p: Node, next: nat, q: NodeId)
    requires Grown(nodes, kept, children, root, p, next)
    ensures ChildIds(nodes, q) == if q == p.id then ChildIds(children, q) else ChildIds(kept, q)
  {
    MarkedAt(kept + children, p.id);
    ChildIdsAgree(nodes, kept + children, q);
    ChildIdsAppend(kept, children, q);
    if q == p.id {
      NoChildren(kept, q);
    } else {
      NoChildren(children, q);
    }
  }

  lemma {:induction false} GrownBranches(nodes: seq<Node>, kept: seq<Node>, children: seq<Node>, root: Option<NodeId>,
      p: Node, next: nat, rest: seq<Branch>, own: Branch)
    requires Grown(nodes, kept, children, root, p, next)
    requires DistinctParents(rest) && own.parent == p.id && own.children == ChildIds(children, p.id)
    requires forall b :: b in rest ==>
             b.parent != p.id && b.parent in Ids(kept) && b.children == ChildIds(kept, b.parent)
    requires forall n {:trigger HasBranch(rest, n.id)} :: n in kept && n.id != p.id ==>
             (n.expanded <==> HasBranch(rest, n.id))
    ensures BranchesMatch(nodes, rest + [own])
  {
    var branches := rest + [own];
    assert forall i :: 0 <= i < |rest| ==> rest[i] in rest;
    forall b | b in branches ensures b.parent in Ids(nodes) && b.children == ChildIds(nodes, b.parent) {
      GrownRow(nodes, kept, children, root, p, next, b);
    }
    forall m | m in nodes ensures m.expanded <==> HasBranch(branches, m.id) {
      var n := Unmark(kept + children, p.id, m);
      GrownBranchOf(kept, children, root, p, next, rest, own, n);
    }
  }

  /** A branch that matched before, or that lists the new children, matches. */
  lemma {:induction false} GrownRow(nodes: seq<Node>, kept: seq<Node>, children: seq<Node>, root: Option<NodeId>,
      p: Node, next: nat, b: Branch)
    requires Grown(nodes, kept, children, root, p, next)
    requires if b.parent == p.id then b.children == ChildIds(children, p.id)
             else b.parent in Ids(kept) && b.children == ChildIds(kept, b.parent)
    ensures b.parent in Ids(nodes) && b.children == ChildIds(nodes, b.parent)
  {
    MarkedNodes(kept + children, p.id);
    GrownChildLists(nodes, kept, children, root, p, next, b.parent);
    assert p in kept;
    var n :| n in kept && n.id == b.parent;
    assert n in kept + children;
  }

  lemma {:induction false} GrownBranchOf(kept: seq<Node>, children: seq<Node>, root: Option<NodeId>, p: Node, next: nat,
      rest: seq<Branch>, own: Branch, n: Node)
    requires Grown(MarkExpanded(kept + children, p.id), kept, children, root, p, next)
    requires own.parent == p.id && n in kept + children
    requires forall b :: b in rest ==> b.parent != p.id && b.parent in Ids(kept)
    requires n in kept && n.id != p.id ==> (n.expanded <==> HasBranch(rest, n.id))
    ensures Marked(n, p.id).expanded <==> HasBranch(rest + [own], n.id)
  {
    var branches := rest + [own];
    assert own in branches && forall b :: b in rest ==> b in branches;
    if n.id == p.id {
    } else if n in kept {
      if n.expanded {
        var b :| b in rest && b.parent == n.id;
        assert b in branches;
      }
    } else {
      assert n.id >= next;
    }
  }

  // The same facts for the document a replacement produces.

  lemma {:induction false} ReplacedGrowth(doc: MapDoc, limits: Limits, p: Node, mode: Mode, items: seq<Item>,
      nodes: seq<Node>, kept: seq<Node>, children: seq<Node>)
    requires GoodTree(doc.nodes, doc.root, doc.branches, doc.history, doc.nextSeq, limits)
    requires p in doc.nodes && mode.Expand? == !p.expanded
    requires NoRepeats(NewsOf(items)) && forall i :: 0 <= i < |items| ==> items[i].news !in Visible(doc.nodes)
    requires kept == Without(doc.nodes, Removed(doc, p.id, mode))
    requires children == NewNodes(items, doc.nextSeq, Some(p.id), p.level + 1, MaxBatch(kept) + 1)
    requires nodes == MarkExpanded(kept + children, p.id)
    ensures Grown(nodes, kept, children, doc.root, p, doc.nextSeq)
  {
    KeptNodes(doc, limits, p, mode);
    GraftFits(Visible(doc.nodes), kept, p, items, doc.nextSeq, MaxBatch(kept) + 1);
  }

  lemma {:induction false} GraftFits(visible: set<NewsId>, kept: seq<Node>, p: Node, items: seq<Item>, next: nat,
      batch: nat)
    requires Visible(kept) <= visible
    requires NoRepeats(NewsOf(items)) && forall i :: 0 <= i < |items| ==> items[i].news !in visible
    ensures NewChildren(NewNodes(items, next, Some(p.id), p.level + 1, batch), p, next, Visible(kept))
  {
    NewChildrenOf(items, p, next, batch, Visible(kept));
  }

  lemma {:induction false} GraftRows(items: seq<Item>, children: seq<Node>, next: nat, p: Node, batch: nat)
    requires children == NewNodes(items, next, Some(p.id), p.level + 1, batch)
    ensures |children| == |items| && ChildIds(children, p.id) == NewIds(next, |items|)
    ensures forall c :: c in children ==> c.level == p.level + 1
  {
    NewNodeAt(items, next, Some(p.id), p.level + 1, batch);
    ChildIdsOfNew(items, next, p.id, p.level + 1, batch);
  }

  lemma {:induction false} KeptNodes(doc: MapDoc, limits: Limits, p: Node, mode: Mode)
    requires GoodTree(doc.nodes, doc.root, doc.branches, doc.history, doc.nextSeq, limits)
    requires p in doc.nodes && mode.Expand? == !p.expanded
    ensures var kept := Without(doc.nodes, Removed(doc, p.id, mode));
            && Pruned(kept, doc.root, p)
            && (forall n :: n in kept ==> n.id < doc.nextSeq)
            && (forall n :: n in kept && n.parent.None? ==> doc.root == Some(n.id) && n.level == 0)
            && Visible(kept) <= Visible(doc.nodes)
  {
    WithoutMembers(doc.nodes, Removed(doc, p.id, mode));
    PrunedAfter(doc, limits, p, mode);
  }

  lemma {:induction false} NewsOfNodes(items: seq<Item>, next: nat, parent: Option<NodeId>, level: nat, batch: nat)
    ensures Elements(NewsOf(items)) == Visible(NewNodes(items, next, parent, level, batch))
  {
    var nodes := NewNodes(items, next, parent, level, batch);
    NewNodeAt(items, next, parent, level, batch);
    forall x | x in Elements(NewsOf(items)) ensures x in Visible(nodes) {
      var i :| 0 <= i < |items| && items[i].news == x;
      assert nodes[i] in nodes && nodes[i].news == x;
    }
    forall n | n in nodes ensures n.news in Elements(NewsOf(items)) {
      var i :| 0 <= i < |nodes| && nodes[i] == n;
      assert NewsOf(items)[i] == n.news;
    }
  }

  lemma {:induction false} ReplacedCount(before: seq<Node>, gone: set<NodeId>, limits: Limits, p: Node,
      nodes: seq<Node>, kept: seq<Node>, children: seq<Node>)
    requires DistinctIds(before) && WithinLimits(before, limits) && gone <= Ids(before)
    requires kept == Without(before, gone) && nodes == MarkExpanded(kept + children, p.id)
    requires p.level < limits.depth && forall c :: c in children ==> c.level == p.level + 1
    requires |before| - |gone| + |children| <= limits.nodes
    ensures WithinLimits(nodes, limits)
  {
    MarkedAt(kept + children, p.id);
    WithoutMembers(before, gone);
    WithoutCount(before, gone);
    assert gone * Ids(before) == gone;
    forall m | m in nodes ensures m.level <= limits.depth {
      var n := Unmark(kept + children, p.id, m);
    }
  }

  lemma {:induction false} SurvivingBranches(doc: MapDoc, limits: Limits, p: Node, mode: Mode, rest: seq<Branch>)
    requires GoodTree(doc.nodes, doc.root, doc.branches, doc.history, doc.nextSeq, limits)
    requires p in doc.nodes && mode.Expand? == !p.expanded
    requires rest == WithoutBranches(doc.branches, Removed(doc, p.id, mode) + {p.id})
    ensures var kept := Without(doc.nodes, Removed(doc, p.id, mode));
            && DistinctParents(rest)
            && (forall b :: b in rest ==>
                b.parent != p.id && b.parent in Ids(kept) && b.children == ChildIds(kept, b.parent))
            && (forall n {:trigger HasBranch(rest, n.id)} :: n in kept && n.id != p.id ==>
                (n.expanded <==> HasBranch(rest, n.id)))
  {
    var gone := Removed(doc, p.id, mode);
    var kept := Without(doc.nodes, gone);
    WithoutMembers(doc.nodes, gone);
    WithoutBranchesMembers(doc.branches, gone + {p.id});
    WithoutBranchesDistinct(doc.branches, gone + {p.id});
    forall b | b in rest ensures b.parent in Ids(kept) && b.children == ChildIds(kept, b.parent) {
      var n :| n in doc.nodes && n.id == b.parent;
      assert n in kept;
      ChildrenSurvive(doc, limits, p, mode, b.parent);
    }
    forall n: Node | n in kept && n.id != p.id ensures n.expanded <==> HasBranch(rest, n.id) {
      assert n.expanded <==> HasBranch(doc.branches, n.id);
      if n.expanded {
        var b :| b in doc.branches && b.parent == n.id;
        assert b in rest;
      }
    }
  }

  lemma {:induction false} ReplacedHistory(before: seq<Node>, history: map<NodeId, History>, gone: set<NodeId>,
      limits: Limits, p: Node, nodes: seq<Node>, kept: seq<Node>, children: seq<Node>, h: History)
    requires HistoryWithin(before, history, limits) && |h.shown| <= limits.history
    requires kept == Without(before, gone) && p in kept && nodes == MarkExpanded(kept + children, p.id)
    ensures HistoryWithin(nodes, (history - gone)[p.id := h], limits)
  {
    WithoutMembers(before, gone);
    MarkedNodes(kept + children, p.id);
    forall n: Node | n in kept ensures n.id in Ids(nodes) {
      assert n in kept + children;
    }
    forall k | k in history && k !in gone ensures k in Ids(nodes) {
      var n :| n in before && n.id == k;
      assert n in kept;
    }
  }

  lemma {:induction false} ReplacedVisible(doc: MapDoc, p: Node, mode: Mode, nodes: seq<Node>, kept: seq<Node>,
      children: seq<Node>, items: seq<Item>)
    requires kept == Without(doc.nodes, Removed(doc, p.id, mode))
    requires nodes == MarkExpanded(kept + children, p.id)
    requires Elements(NewsOf(items)) == Visible(children)
    requires Visible(doc.nodes) <= doc.articles.Keys
    ensures Visible(nodes) <= Record(doc.articles, items).Keys
    ensures doc.articles.Keys <= Record(doc.articles, items).Keys
  {
    WithoutMembers(doc.nodes, Removed(doc, p.id, mode));
    MarkedNodes(kept + children, p.id);
    RecordKeys(doc.articles, items);
    forall n: Node | n in kept + children ensures n.news in Record(doc.articles, items) {
      if n in children {
        assert n.news in Visible(children);
      } else {
        assert n in doc.nodes;
      }
    }
  }

  // ----- A search without results -------------------------------------------------------------

  lemma {:induction false} RecordedAttempt(branches: seq<Branch>, p: NodeId, attempt: Attempt, i: nat)
    requires HasBranch(branches, p) ==>
             i < |branches| && branches[i].parent == p && forall j :: 0 <= j < i ==> branches[j].parent != p
    ensures RecordAttempt(branches, p, attempt)
            == if HasBranch(branches, p) then branches[i := branches[i].(last := attempt)]
               else branches + [Branch(p, [], attempt, attempt)]
  {
    if branches != [] {
      assert branches[0] in branches;
      if branches[0].parent != p {
        var rest := branches[1..];
        if HasBranch(branches, p) {
          assert branches[i] == rest[i - 1];
          assert forall j :: 0 <= j < i - 1 ==> rest[j] == branches[j + 1];
          RecordedAttempt(rest, p, attempt, i - 1);
        } else {
          assert forall b :: b in rest ==> b in branches;
          RecordedAttempt(rest, p, attempt, 0);
        }
      }
    }
  }

  lemma {:induction false} AttemptOnExisting(doc: MapDoc, p: Node, attempt: Attempt, i: nat)
    requires BranchesMatch(doc.nodes, doc.branches) && p.expanded
    requires i < |doc.branches| && doc.branches[i].parent == p.id
    ensures BranchesMatch(doc.nodes, doc.branches[i := doc.branches[i].(last := attempt)])
  {
    var branches := doc.branches[i := doc.branches[i].(last := attempt)];
    forall n: Node | n in doc.nodes ensures n.expanded <==> HasBranch(branches, n.id) {
      assert n.expanded <==> HasBranch(doc.branches, n.id);
      if n.expanded {
        var j :| 0 <= j < |doc.branches| && doc.branches[j].parent == n.id;
        assert branches[j] in branches;
      }
    }
  }

  lemma {:induction false} MarkingExpandedIsNothing(nodes: seq<Node>, p: Node)
    requires DistinctIds(nodes) && p in nodes && p.expanded
    ensures MarkExpanded(nodes, p.id) == nodes
  {
    MarkedAt(nodes, p.id);
    forall i | 0 <= i < |nodes| ensures Marked(nodes[i], p.id) == nodes[i] {
    }
  }

  lemma {:induction false} FirstBranchOf(branches: seq<Branch>, p: NodeId) returns (i: nat)
    requires HasBranch(branches, p) && DistinctParents(branches)
    ensures i < |branches| && branches[i].parent == p && forall j :: 0 <= j < i ==> branches[j].parent != p
  {
    var b :| b in branches && b.parent == p;
    i :| 0 <= i < |branches| && branches[i] == b;
  }

  lemma {:induction false} AttemptedFirst(doc: MapDoc, limits: Limits, p: Node, attempt: Attempt)
    requires GoodTree(doc.nodes, doc.root, doc.branches, doc.history, doc.nextSeq, limits)
    requires p in doc.nodes && !p.expanded
    ensures !HasBranch(doc.branches, p.id)
    ensures BranchesMatch(MarkExpanded(doc.nodes, p.id), doc.branches + [Branch(p.id, [], attempt, attempt)])
  {
    assert p.expanded <==> HasBranch(doc.branches, p.id);
    WithoutNothing(doc.nodes);
    KeptNodes(doc, limits, p, Expand);
    NoneRemoved(doc.branches, p.id);
    assert {} + {p.id} == {p.id};
    SurvivingBranches(doc, limits, p, Expand, doc.branches);
    assert doc.nodes + [] == doc.nodes;
    GrownBranches(MarkExpanded(doc.nodes, p.id), doc.nodes, [], doc.root, p, doc.nextSeq, doc.branches,
                  Branch(p.id, [], attempt, attempt));
  }

  lemma {:induction false} AttemptedBranches(doc: MapDoc, limits: Limits, p: Node, attempt: Attempt, h: History)
    requires GoodTree(doc.nodes, doc.root, doc.branches, doc.history, doc.nextSeq, limits)
    requires p in doc.nodes
    ensures var d := Attempted(doc, p, attempt, h); BranchesMatch(d.nodes, d.branches)
  {
    if p.expanded {
      assert HasBranch(doc.branches, p.id);
      var i := FirstBranchOf(doc.branches, p.id);
      RecordedAttempt(doc.branches, p.id, attempt, i);
      AttemptOnExisting(doc, p, attempt, i);
      MarkingExpandedIsNothing(doc.nodes, p);
    } else {
      AttemptedFirst(doc, limits, p, attempt);
      RecordedAttempt(doc.branches, p.id, attempt, 0);
    }
  }

  lemma {:induction false} NoneRemoved(branches: seq<Branch>, p: NodeId)
    requires !HasBranch(branches, p)
    ensures WithoutBranches(branches, {p}) == branches
  {
    if branches != [] {
      var front, b := branches[..|branches| - 1], branches[|branches| - 1];
      assert b in branches;
      assert forall c :: c in front ==> c in branches;
      NoneRemoved(front, p);
    }
  }

  lemma {:induction false} AttemptedGood(doc: MapDoc, limits: Limits, p: Node, attempt: Attempt, h: History)
    requires Good(doc, limits)
    requires p in doc.nodes
    requires |h.shown| <= limits.history
    ensures Good(Attempted(doc, p, attempt, h), limits)
  {
    AttemptedBranches(doc, limits, p, attempt, h);
    MarkingKeepsTree(doc.nodes, doc.root, doc.nextSeq, p.id);
    MarkedNodes(doc.nodes, p.id);
    MarkingKeepsLimits(doc.nodes, limits, p.id);
  }

  lemma {:induction false} MarkingKeepsLimits(nodes: seq<Node>, limits: Limits, p: NodeId)
    requires WithinLimits(nodes, limits)
    ensures WithinLimits(MarkExpanded(nodes, p), limits)
  {
    MarkedAt(nodes, p);
    forall m | m in MarkExpanded(nodes, p) ensures m.level <= limits.depth {
      var n := Unmark(nodes, p, m);
    }
  }

  /** What a replacement asks of its document and its items. */
  ghost predicate CanReplace(doc: MapDoc, limits: Limits, p: Node, mode: Mode, items: seq<Item>, h: History) {
    && p in doc.nodes && mode.Expand? == !p.expanded && p.level < limits.depth
    && NoRepeats(NewsOf(items)) && (forall i :: 0 <= i < |items| ==> items[i].news !in Visible(doc.nodes))
    && |doc.nodes| - |Removed(doc, p.id, mode)| + |items| <= limits.nodes
    && |h.shown| + |items| <= limits.history
  }

  lemma {:induction false} ParentKept(doc: MapDoc, limits: Limits, p: Node, mode: Mode)
    requires GoodTree(doc.nodes, doc.root, doc.branches, doc.history, doc.nextSeq, limits)
    requires p in doc.nodes && mode.Expand? == !p.expanded
    ensures p in Without(doc.nodes, Removed(doc, p.id, mode))
  {
    KeptNodes(doc, limits, p, mode);
  }

  lemma {:induction false} ReplacedNodesGood(doc: MapDoc, limits: Limits, p: Node, mode: Mode, items: seq<Item>,
      attempt: Attempt, h: History)
    requires GoodTree(doc.nodes, doc.root, doc.branches, doc.history, doc.nextSeq, limits)
    requires CanReplace(doc, limits, p, mode, items, h)
    ensures var d := Replaced(doc, p, Removed(doc, p.id, mode), items, attempt, h);
            Tree(d.nodes, d.root, d.nextSeq) && WithinLimits(d.nodes, limits)
  {
    var gone := Removed(doc, p.id, mode);
    var nodes := Replaced(doc, p, gone, items, attempt, h).nodes;
    var kept := Without(doc.nodes, gone);
    var children := NewNodes(items, doc.nextSeq, Some(p.id), p.level + 1, MaxBatch(kept) + 1);
    ReplacedGrowth(doc, limits, p, mode, items, nodes, kept, children);
    GraftRows(items, children, doc.nextSeq, p, MaxBatch(kept) + 1);
    GrownTree(nodes, kept, children, doc.root, p, doc.nextSeq);
    ReplacedCount(doc.nodes, gone, limits, p, nodes, kept, children);
  }

  lemma {:induction false} ReplacedBranchesGood(doc: MapDoc, limits: Limits, p: Node, mode: Mode, items: seq<Item>,
      attempt: Attempt, h: History)
    requires GoodTree(doc.nodes, doc.root, doc.branches, doc.history, doc.nextSeq, limits)
    requires CanReplace(doc, limits, p, mode, items, h)
    ensures var d := Replaced(doc, p, Removed(doc, p.id, mode), items, attempt, h); BranchesMatch(d.nodes, d.branches)
  {
    var gone := Removed(doc, p.id, mode);
    var nodes := Replaced(doc, p, gone, items, attempt, h).nodes;
    var kept := Without(doc.nodes, gone);
    var children := NewNodes(items, doc.nextSeq, Some(p.id), p.level + 1, MaxBatch(kept) + 1);
    ReplacedGrowth(doc, limits, p, mode, items, nodes, kept, children);
    var rest := WithoutBranches(doc.branches, gone + {p.id});
    var own := Branch(p.id, NewIds(doc.nextSeq, |items|), attempt, attempt);
    GraftRows(items, children, doc.nextSeq, p, MaxBatch(kept) + 1);
    SurvivingBranches(doc, limits, p, mode, rest);
    GrownBranches(nodes, kept, children, doc.root, p, doc.nextSeq, rest, own);
  }

  lemma {:induction false} ReplacedHistoryGood(doc: MapDoc, limits: Limits, p: Node, mode: Mode, items: seq<Item>,
      attempt: Attempt, h: History)
    requires GoodTree(doc.nodes, doc.root, doc.branches, doc.history, doc.nextSeq, limits)
    requires CanReplace(doc, limits, p, mode, items, h)
    ensures var d := Replaced(doc, p, Removed(doc, p.id, mode), items, attempt, h);
            HistoryWithin(d.nodes, d.history, limits)
  {
    var gone := Removed(doc, p.id, mode);
    var d := Replaced(doc, p, gone, items, attempt, h);
    var kept := Without(doc.nodes, gone);
    var children := NewNodes(items, doc.nextSeq, Some(p.id), p.level + 1, MaxBatch(kept) + 1);
    ParentKept(doc, limits, p, mode);
    ReplacedHistory(doc.nodes, doc.history, gone, limits, p, d.nodes, kept, children, d.history[p.id]);
  }

  lemma {:induction false} ReplacedArticles(doc: MapDoc, limits: Limits, p: Node, mode: Mode, items: seq<Item>,
      attempt: Attempt, h: History)
    requires Visible(doc.nodes) <= doc.articles.Keys
    ensures var d := Replaced(doc, p, Removed(doc, p.id, mode), items, attempt, h);
            && Visible(d.nodes) <= d.articles.Keys && doc.articles.Keys <= d.articles.Keys
            && Elements(d.selected) <= Visible(d.nodes)
            && (d.detail.Some? ==> d.detail.value in Visible(d.nodes))
  {
    var gone := Removed(doc, p.id, mode);
    var d := Replaced(doc, p, gone, items, attempt, h);
    var kept := Without(doc.nodes, gone);
    var children := NewNodes(items, doc.nextSeq, Some(p.id), p.level + 1, MaxBatch(kept) + 1);
    NewsOfNodes(items, doc.nextSeq, Some(p.id), p.level + 1, MaxBatch(kept) + 1);
    ReplacedVisible(doc, p, mode, d.nodes, kept, children, items);
    KeepingMembers(doc.selected, Visible(d.nodes));
  }

  lemma {:induction false} ReplacedGood(doc: MapDoc, limits: Limits, p: Node, mode: Mode, items: seq<Item>,
      attempt: Attempt, h: History)
    requires Good(doc, limits) && CanReplace(doc, limits, p, mode, items, h)
    ensures Good(Replaced(doc, p, Removed(doc, p.id, mode), items, attempt, h), limits)
  {
    ReplacedNodesGood(doc, limits, p, mode, items, attempt, h);
    ReplacedBranchesGood(doc, limits, p, mode, items, attempt, h);
    ReplacedHistoryGood(doc, limits, p, mode, items, attempt, h);
    ReplacedArticles(doc, limits, p, mode, items, attempt, h);
  }

  /** Expansion and research keep the invariant, whatever the selector returned within its contract. */
  lemma {:induction false} BranchedGood(doc: MapDoc, limits: Limits, parent: NodeId, mode: Mode, found: Found)
    requires Good(doc, limits)
    requires FindNode(doc.nodes, parent).Some? ==>
               Offered(doc, Room(doc, limits, FindNode(doc.nodes, parent).value), found.items)
    ensures Branched(doc, limits, parent, mode, found).Accepted? ==>
              Good(Branched(doc, limits, parent, mode, found).doc, limits)
  {
    var r := Branched(doc, limits, parent, mode, found);
    if r.Accepted? {
      var p := FindNode(doc.nodes, parent).value;
      var full := HistoryFull(doc, limits, parent);
      var items := if full then [] else found.items;
      var attempt := if full then Attempt(Target(p.level), 0, true, true)
                     else Summary(Target(p.level), items, found.exhausted);
      var h := if full then Remembered(doc, parent) else Remembered(doc, parent).(cursor := found.cursor);
      if items == [] {
        AttemptedGood(doc, limits, p, attempt, h);
      } else {
        ReplacedGood(doc, limits, p, mode, items, attempt, h);
      }
    }
  }

  // ----- Creation -------------------------------------------------------------------------------

  /** What the first selection guarantees: up to four neighbours, none of them the centre, no repeats. */
  ghost predicate FirstSelection(root: Item, items: seq<Item>) {
    && |items| <= 4
    && NoRepeats(NewsOf(items))
    && (forall i :: 0 <= i < |items| ==> items[i].news != root.news)
  }

  lemma {:induction false} CreatedGrowth(root: Item, found: Found, r: Node, children: seq<Node>)
    requires FirstSelection(root, found.items)
    requires r == Node(1, root.news, None, 0, true, 0)
    requires children == NewNodes(found.items, 2, Some(1), 1, 0)
    ensures |children| == |found.items| && ChildIds(children, 1) == NewIds(2, |found.items|)
    ensures Grown([r] + children, [r], children, Some(1), r, 2)
    ensures Elements(NewsOf(found.items)) == Visible(children)
  {
    assert r in [r];
    NewChildrenOf(found.items, r, 2, 0, Visible([r]));
    ChildIdsOfNew(found.items, 2, 1, 1, 0);
    NewsOfNodes(found.items, 2, Some(1), 1, 0);
    var nodes := [r] + children;
    MarkedAt(nodes, 1);
    forall i | 0 <= i < |nodes| ensures Marked(nodes[i], 1) == nodes[i] {
      if i > 0 { assert nodes[i] in children; }
    }
    assert MarkExpanded(nodes, 1) == nodes;
  }

  lemma {:induction false} CreatedTree(root: Item, found: Found, limits: Limits)
    requires limits.Valid() && FirstSelection(root, found.items)
    ensures var d := Created(Some(root), found); GoodTree(d.nodes, d.root, d.branches, d.history, d.nextSeq, limits)
  {
    var d := Created(Some(root), found);
    var r, children := d.nodes[0], NewNodes(found.items, 2, Some(1), 1, 0);
    CreatedGrowth(root, found, r, children);
    GrownTree(d.nodes, [r], children, d.root, r, 2);
    GrownBranches(d.nodes, [r], children, d.root, r, 2, [], d.branches[0]);
    assert [] + [d.branches[0]] == d.branches;
    forall n | n in d.nodes ensures n.level <= 1 {
      assert n == r || n in children;
    }
    assert r in d.nodes;
  }

  /** A new map starts in a good state. */
  lemma {:induction false} CreatedGood(root: Option<Item>, found: Found, limits: Limits)
    requires limits.Valid()
    requires root.Some? ==> FirstSelection(root.value, found.items)
    ensures Good(Created(root, found), limits)
  {
    if root.Some? {
      var d := Created(root, found);
      var r, children := d.nodes[0], NewNodes(found.items, 2, Some(1), 1, 0);
      CreatedTree(root.value, found, limits);
      CreatedGrowth(root.value, found, r, children);
      RecordKeys(map[root.value.news := root.value.article], found.items);
      forall n | n in d.nodes ensures n.news in d.articles {
        if n != r {
          assert n in children && n.news in Visible(children);
        }
      }
    }
  }

  // ----- Selection ------------------------------------------------------------------------------

  /** A PATCH keeps the invariant; an accepted selection holds only displayed articles. */
  lemma {:induction false} UpdatedGood(doc: MapDoc, limits: Limits, plan: nat, selected: Field<seq<NewsId>>,
      detail: Field<NewsId>, panel: Field<bool>)
    requires Good(doc, limits)
    ensures var r := Updated(doc, plan, selected, detail, panel); r.Accepted? ==> Good(r.doc, limits)
  {
  }
}
