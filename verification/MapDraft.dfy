/**
 The working copy of a map document that a request loads, changes in place and then commits
 (branch_map, reset_map, update_map and `_node` of app/v2/maps.py), proved against the document
 functions of ExplorationMap.
 */
module MapDrafts {
  import opened Basics
  import opened ExplorationMap
  import opened TreeLaws

  /** Repeated sweeps over the nodes, in any order they come, until a sweep adds nothing. */
  method CollectDescendants(nodes: seq<Node>, parent: NodeId) returns (removed: set<NodeId>)
    ensures removed == Descendants(nodes, parent)
  {
    removed := {};
    var changed := true;
    while changed
      invariant removed <= Descendants(nodes, parent)
      invariant !changed ==> ClosedBelow(nodes, parent, removed, |nodes|)
      decreases Ids(nodes) - removed, changed
    {
      changed := false;
      ghost var before := removed;
      for i := 0 to |nodes|
        invariant before <= removed <= Descendants(nodes, parent)
        invariant changed ==> before < removed
        invariant !changed ==> removed == before && ClosedBelow(nodes, parent, removed, i)
      {
        var node := nodes[i];
        if node.parent.Some? && node.parent.value in {parent} + removed && node.id !in removed {
          ChildIsDescendant(nodes, parent, node);
          removed := removed + {node.id};
          changed := true;
        }
      }
      SweepDecreases(nodes, parent, before, removed);
    }
    ClosedContainsDescendants(nodes, parent, removed);
  }

  /** Among the first k nodes, every child of `parent` or of a member is a member. */
  ghost predicate ClosedBelow(nodes: seq<Node>, parent: NodeId, s: set<NodeId>, k: nat)
    requires k <= |nodes|
  {
    forall i :: 0 <= i < k && nodes[i].parent.Some? && nodes[i].parent.value in {parent} + s ==> nodes[i].id in s
  }

  lemma {:induction false} SweepDecreases(nodes: seq<Node>, parent: NodeId, before: set<NodeId>, after: set<NodeId>)
    requires before <= after <= Descendants(nodes, parent)
    ensures before < after ==> Ids(nodes) - after < Ids(nodes) - before
    ensures before == after ==> Ids(nodes) - after == Ids(nodes) - before
  {
    if before < after {
      var x :| x in after && x !in before;
      assert x in Ids(nodes) - before;
    }
  }

  class MapDraft {
    const revision: nat
    const context: Cursor
    const initial: Snapshot
    var root: Option<NodeId>
    var nodes: seq<Node>
    var branches: seq<Branch>
    var summary: Attempt
    var history: map<NodeId, History>
    var nextSeq: nat
    var articles: map<NewsId, Article>
    var selected: seq<NewsId>
    var detail: Option<NewsId>
    var panelOpen: bool
    var active: Option<JobId>
    var lastResult: Option<ReportLink>

    function Doc(): MapDoc
      reads this
    {
      MapDoc(revision, root, nodes, branches, summary, history, nextSeq, articles, context,
             selected, detail, panelOpen, active, lastResult, initial)
    }

    constructor (doc: MapDoc)
      ensures Doc() == doc
    {
      revision, context, initial := doc.revision, doc.context, doc.initial;
      root, nodes, branches, summary := doc.root, doc.nodes, doc.branches, doc.summary;
      history, nextSeq, articles := doc.history, doc.nextSeq, doc.articles;
      selected, detail, panelOpen := doc.selected, doc.detail, doc.panelOpen;
      active, lastResult := doc.active, doc.lastResult;
    }

    /** Takes the next node id and records the article. */
    method NewNode(item: Item, parent: Option<NodeId>, level: nat, batch: nat) returns (node: Node)
      modifies this`nextSeq, this`articles
      ensures node == Node(old(nextSeq), item.news, parent, level, false, batch)
      ensures nextSeq == old(nextSeq) + 1
      ensures articles == old(articles)[item.news := item.article]
    {
      node := Node(nextSeq, item.news, parent, level, false, batch);
      nextSeq := nextSeq + 1;
      articles := articles[item.news := item.article];
    }

    method NewChildren(items: seq<Item>, parent: NodeId, level: nat, batch: nat) returns (children: seq<Node>)
      modifies this`nextSeq, this`articles
      ensures children == NewNodes(items, old(nextSeq), Some(parent), level, batch)
      ensures nextSeq == old(nextSeq) + |items| && articles == Record(old(articles), items)
    {
      children := [];
      for i := 0 to |items|
        invariant children == NewNodes(items[..i], old(nextSeq), Some(parent), level, batch)
        invariant nextSeq == old(nextSeq) + i && articles == Record(old(articles), items[..i])
      {
        var child := NewNode(items[i], Some(parent), level, batch);
        children := children + [child];
        assert items[..i + 1][..i] == items[..i];
      }
      assert items[..|items|] == items;
    }

    /** The largest batch number among the nodes, 0 when there are none. */
    method LastBatch() returns (batch: nat)
      ensures batch == MaxBatch(nodes)
    {
      batch := 0;
      for i := 0 to |nodes|
        invariant batch == MaxBatch(nodes[..i])
      {
        batch := Max(batch, nodes[i].batch);
        assert nodes[..i + 1][..i] == nodes[..i];
      }
      assert nodes[..|nodes|] == nodes;
    }

    /** Drops selected and detail articles that are no longer displayed; losing one detaches the job. */
    method Reselect(visible: set<NewsId>)
      modifies this`selected, this`active, this`lastResult, this`panelOpen, this`detail
      ensures selected == Keeping(old(selected), visible)
      ensures selected == old(selected) ==>
              active == old(active) && lastResult == old(lastResult) && panelOpen == old(panelOpen)
      ensures selected != old(selected) ==>
              active.None? && lastResult.None? && panelOpen == (old(panelOpen) && selected != [])
      ensures detail == if old(detail).Some? && old(detail).value in visible then old(detail) else None
    {
      var kept := Keeping(selected, visible);
      if kept != selected {
        active, lastResult := None, None;
        selected := kept;
        if kept == [] {
          panelOpen := false;
        }
      }
      if detail.Some? && detail.value !in visible {
        detail := None;
      }
    }

    /** Puts the items below p in the place of the removed nodes. */
    method Replant(p: Node, removed: set<NodeId>, items: seq<Item>, attempt: Attempt)
      modifies this`nodes, this`branches, this`nextSeq, this`articles
      ensures var kept := Without(old(nodes), removed);
              nodes == MarkExpanded(kept + NewNodes(items, old(nextSeq), Some(p.id), p.level + 1, MaxBatch(kept) + 1),
                                     p.id)
      ensures branches == WithoutBranches(old(branches), removed + {p.id})
                          + [Branch(p.id, NewIds(old(nextSeq), |items|), attempt, attempt)]
      ensures nextSeq == old(nextSeq) + |items| && articles == Record(old(articles), items)
    {
      nodes := Without(nodes, removed);
      branches := WithoutBranches(branches, removed + {p.id});
      var batch := LastBatch();
      var children := NewChildren(items, p.id, p.level + 1, batch + 1);
      var ids := seq(|children|, i requires 0 <= i < |children| => children[i].id);
      NewNodeAt(items, old(nextSeq), Some(p.id), p.level + 1, batch + 1);
      assert ids == NewIds(old(nextSeq), |items|);
      nodes := MarkExpanded(nodes + children, p.id);
      branches := branches + [Branch(p.id, ids, attempt, attempt)];
    }

    /** A search with results replaces the subtree below p. */
    method Replace(p: Node, removed: set<NodeId>, items: seq<Item>, attempt: Attempt, h: History)
      modifies this
      ensures Doc() == Replaced(old(Doc()), p, removed, items, attempt, h)
    {
      ghost var d := Replaced(Doc(), p, removed, items, attempt, h);
      Replant(p, removed, items, attempt);
      Reselect(Visible(nodes));
      history := (history - removed)
                   [p.id := h.(shown := h.shown + NewsOf(items), previous := h.previous + ArticlesOf(items))];
      assert nodes == d.nodes && branches == d.branches;
      assert history == d.history;
      assert selected == d.selected && active == d.active && lastResult == d.lastResult && panelOpen == d.panelOpen;
    }

    /** A search without results only records the attempt. */
    method Note(p: Node, attempt: Attempt, h: History)
      modifies this
      ensures Doc() == Attempted(old(Doc()), p, attempt, h)
    {
      branches, nodes := RecordAttempt(branches, p.id, attempt), MarkExpanded(nodes, p.id);
      history := history[p.id := h];
    }

    /** POST branches: the draft becomes exactly the accepted document, or the request is refused. */
    method BranchOut(limits: Limits, parent: NodeId, mode: Mode, found: Found) returns (refusal: Option<Refusal>)
      modifies this
      ensures match Branched(old(Doc()), limits, parent, mode, found)
              case Accepted(d) => refusal.None? && Doc() == d
              case Refused(why) => refusal == Some(why)
    {
      var p := FindNode(nodes, parent);
      if p.None? {
        return Some(InvalidRequest);
      }
      if mode.Expand? == p.value.expanded {
        return Some(InvalidRequest);
      }
      if p.value.level >= limits.depth {
        return Some(LimitReached);
      }
      var target := Target(p.value.level);
      var h := if parent in history then history[parent] else History([], [], context);
      var removed := {};
      if mode.Research? {
        removed := CollectDescendants(nodes, parent);
      }
      var items, attempt;
      if |h.shown| >= limits.history {
        items, attempt := [], Attempt(target, 0, true, true);
      } else {
        items, attempt := found.items, Summary(target, found.items, found.exhausted);
        h := h.(cursor := found.cursor);
      }
      if |nodes| - |removed| + |items| > limits.nodes {
        return Some(LimitReached);
      }
      if items != [] {
        Replace(p.value, removed, items, attempt, h);
      } else {
        Note(p.value, attempt, h);
      }
      return None;
    }

    method ClearSelection()
      modifies this`selected, this`detail, this`panelOpen, this`active, this`lastResult
      ensures selected == [] && detail.None? && !panelOpen && active.None? && lastResult.None?
    {
      selected, detail, panelOpen, active, lastResult := [], None, false, None, None;
    }

    /** POST reset: the draft becomes exactly the accepted document. */
    method Restart() returns (refusal: Option<Refusal>)
      modifies this
      ensures match Reset(old(Doc()))
              case Accepted(d) => refusal.None? && Doc() == d
              case Refused(why) => refusal == Some(why)
    {
      if !LookupsDefined(initial) {
        return Some(BrokenSnapshot);
      }
      ghost var before := Doc();
      var remap := TakeIds();
      RenamingKeys(initial.nodes, old(nextSeq));
      Rebuild(remap);
      ClearSelection();
      RestartResult(before, Doc(), remap);
      return None;
    }

    ghost predicate Rebuilt(s: Snapshot, remap: map<NodeId, NodeId>, d: MapDoc)
      requires LookupsDefined(s) && remap.Keys == Ids(s.nodes)
    {
      && d.nodes == RenameNodes(s.nodes, remap) && d.branches == RenameBranches(s.branches, remap)
      && d.history == RenameHistory(s.history, remap, s.nodes)
      && d.root == RenameParent(s.root, remap) && d.summary == s.summary
    }

    /** Shows the snapshot under the renaming. */
    method Rebuild(remap: map<NodeId, NodeId>)
      requires LookupsDefined(initial) && remap.Keys == Ids(initial.nodes)
      modifies this`nodes, this`branches, this`history, this`root, this`summary
      ensures Rebuilt(initial, remap, Doc())
    {
      var renamed := RenameAll(initial.nodes, remap);
      nodes, branches := renamed, RenameBranches(initial.branches, remap);
      history := RenameHistory(initial.history, remap, initial.nodes);
      root, summary := RenameParent(initial.root, remap), initial.summary;
    }

    lemma {:induction false} RestartResult(before: MapDoc, d: MapDoc, remap: map<NodeId, NodeId>)
      requires LookupsDefined(before.initial) && remap == Renaming(before.initial.nodes, before.nextSeq)
      requires remap.Keys == Ids(before.initial.nodes) && Rebuilt(before.initial, remap, d)
      requires d == before.(nodes := d.nodes, branches := d.branches, history := d.history, root := d.root,
                            summary := d.summary, nextSeq := before.nextSeq + |before.initial.nodes|,
                            selected := [], detail := None, panelOpen := false, active := None, lastResult := None)
      ensures Reset(before) == Accepted(d)
    {
    }

    /** One fresh id for each node of the snapshot. */
    method TakeIds() returns (remap: map<NodeId, NodeId>)
      modifies this`nextSeq
      ensures remap == Renaming(initial.nodes, old(nextSeq))
      ensures nextSeq == old(nextSeq) + |initial.nodes|
    {
      remap := map[];
      var all := initial.nodes;
      for i := 0 to |all|
        invariant remap == Renaming(all[..i], old(nextSeq))
        invariant nextSeq == old(nextSeq) + i
      {
        remap := remap[all[i].id := nextSeq];
        nextSeq := nextSeq + 1;
        assert all[..i + 1][..i] == all[..i];
      }
      assert all[..|all|] == all;
    }

    /** PATCH: the draft becomes exactly the accepted document, or the request is refused. */
    method Patch(plan: nat, ids: Field<seq<NewsId>>, card: Field<NewsId>, panel: Field<bool>)
      returns (refusal: Option<Refusal>)
      modifies this
      ensures match Updated(old(Doc()), plan, ids, card, panel)
              case Accepted(d) => refusal.None? && Doc() == d
              case Refused(why) => refusal == Some(why)
    {
      var visible := Visible(nodes);
      if ids.Null? {
        return Some(InvalidRequest);
      }
      if ids.Given? {
        if !(Elements(ids.value) <= visible) {
          return Some(InvalidRequest);
        }
        if |ids.value| > plan {
          return Some(PlanLimit);
        }
        if Elements(ids.value) != Elements(selected) {
          active, lastResult := None, None;
        }
        selected := ids.value;
        if ids.value == [] {
          panelOpen := false;
        }
      }
      if !card.Absent? {
        if card.Given? && card.value !in visible {
          return Some(InvalidRequest);
        }
        detail := if card.Given? then Some(card.value) else None;
      }
      if !panel.Absent? {
        if panel.Null? {
          return Some(InvalidRequest);
        }
        panelOpen := panel.value;
      }
      return None;
    }
  }

  method RenameAll(nodes: seq<Node>, remap: map<NodeId, NodeId>) returns (renamed: seq<Node>)
    requires Ids(nodes) <= remap.Keys
    ensures renamed == RenameNodes(nodes, remap)
  {
    renamed := [];
    for i := 0 to |nodes|
      invariant Ids(nodes[..i]) <= remap.Keys
      invariant renamed == RenameNodes(nodes[..i], remap)
    {
      var n := nodes[i];
      assert n in nodes;
      var parent := RenameParent(n.parent, remap);
      renamed := renamed + [n.(id := remap[n.id], parent := parent)];
      assert nodes[..i + 1][..i] == nodes[..i];
      assert Ids(nodes[..i + 1]) <= Ids(nodes);
    }
    assert nodes[..|nodes|] == nodes;
  }
}
