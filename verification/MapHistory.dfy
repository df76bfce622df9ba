/**
 The record of what was displayed below a node, over runs of edits: nothing that was ever displayed there
 is missing from it, and once it is full nothing is added there.
 */
module MapHistory {
  import opened Basics
  import opened ExplorationMap
  import opened TreeLaws
  import opened MapLaws
  import opened ResetLaws
  import opened MapEdits
  import opened MapEffects

  // ----- Whatever is displayed is on record ----------------------------------------------------------------

  /** Every displayed child is on the record of its parent. */
  ghost predicate AllOnRecord(nodes: seq<Node>, history: map<NodeId, History>) {
    forall n :: n in nodes && n.parent.Some? ==> n.parent.value in history && n.news in history[n.parent.value].shown
  }

  ghost predicate Remembering(doc: MapDoc) {
    AllOnRecord(doc.nodes, doc.history) && AllOnRecord(doc.initial.nodes, doc.initial.history)
  }

  /** A displayed node was displayed before, and its parent too, or it is one of the results. */
  ghost predicate OldChild(doc: MapDoc, gone: set<NodeId>, n: Node) {
    exists o :: o in doc.nodes && o.id == n.id && o.news == n.news && o.parent == n.parent && o.id !in gone
  }

  predicate NewChild(doc: MapDoc, p: Node, found: Found, n: Node) {
    var i := n.id - doc.nextSeq;
    0 <= i < |found.items| && n.news == found.items[i].news && n.parent == Some(p.id)
  }

  lemma {:induction false} OldOrNew(doc: MapDoc, p: Node, gone: set<NodeId>, found: Found, d: MapDoc, n: Node)
    requires NodesGrown(doc, p, gone, found, d) && DistinctIds(d.nodes) && n in d.nodes
    ensures OldChild(doc, gone, n) || NewChild(doc, p, found, n)
  {
    var m;
    if n.id < doc.nextSeq {
      var o :| o in doc.nodes && o.id == n.id;
      m := if o.id == p.id then o.(expanded := true) else o;
    } else {
      var i := n.id - doc.nextSeq;
      assert ChildShown(doc, p, found, d, i);
      m :| m in d.nodes && m.id == doc.nextSeq + i && m.news == found.items[i].news && m.parent == Some(p.id);
    }
    SameNode(d.nodes, n, m);
  }

  lemma {:induction false} SameNode(nodes: seq<Node>, a: Node, b: Node)
    requires DistinctIds(nodes) && a in nodes && b in nodes && a.id == b.id
    ensures a == b
  {
    var i :| 0 <= i < |nodes| && nodes[i] == a;
    var k :| 0 <= k < |nodes| && nodes[k] == b;
  }

  lemma {:induction false} ParentSurvives(doc: MapDoc, limits: Limits, p: Node, mode: Mode, o: Node)
    requires Good(doc, limits) && p in doc.nodes && (mode == Expand) == !p.expanded
    requires o in doc.nodes && o.id !in Gone(doc, p.id, mode) && o.parent.Some?
    ensures o.parent.value !in Gone(doc, p.id, mode)
  {
    var gone := Gone(doc, p.id, mode);
    assert gone == Removed(doc, p.id, mode);
    PrunedAfter(doc, limits, p, mode);
    WithoutMembers(doc.nodes, gone);
    assert HasParent(Without(doc.nodes, gone), o);
  }

  lemma {:induction false} GrownRemembers(doc: MapDoc, limits: Limits, p: Node, mode: Mode, found: Found, d: MapDoc)
    requires Good(doc, limits) && p in doc.nodes && (mode == Expand) == !p.expanded
    requires GrownEffect(doc, p, Gone(doc, p.id, mode), found, d) && DistinctIds(d.nodes)
    requires AllOnRecord(doc.nodes, doc.history)
    ensures AllOnRecord(d.nodes, d.history)
  {
    var gone := Gone(doc, p.id, mode);
    var news := seq(|found.items|, i requires 0 <= i < |found.items| => found.items[i].news);
    forall n | n in d.nodes && n.parent.Some?
      ensures n.parent.value in d.history && n.news in d.history[n.parent.value].shown
    {
      OldOrNew(doc, p, gone, found, d, n);
      if OldChild(doc, gone, n) {
        var o :| o in doc.nodes && o.id == n.id && o.news == n.news && o.parent == n.parent && o.id !in gone;
        ParentSurvives(doc, limits, p, mode, o);
      } else {
        assert news[n.id - doc.nextSeq] == n.news;
      }
    }
  }

  lemma {:induction false} UngrownRemembers(doc: MapDoc, limits: Limits, p: Node, found: Found, d: MapDoc)
    requires NothingGrown(doc, limits, p, found, d) && AllOnRecord(doc.nodes, doc.history)
    ensures AllOnRecord(d.nodes, d.history)
  {
    forall n | n in d.nodes && n.parent.Some?
      ensures n.parent.value in d.history && n.news in d.history[n.parent.value].shown
    {
      var i :| 0 <= i < |d.nodes| && d.nodes[i] == n;
      assert doc.nodes[i] in doc.nodes;
    }
  }

  lemma {:induction false} ResetRemembers(doc: MapDoc, limits: Limits)
    requires Good(doc, limits) && Remembering(doc)
    ensures Reset(doc).Accepted? && AllOnRecord(Reset(doc).doc.nodes, Reset(doc).doc.history)
  {
    ResetIsFreshCopy(doc, limits);
    var f, d := Renaming(doc.initial.nodes, doc.nextSeq), Reset(doc).doc;
    forall n | n in d.nodes && n.parent.Some?
      ensures n.parent.value in d.history && n.news in d.history[n.parent.value].shown
    {
      var o := Original(doc.initial.nodes, f, d.nodes, n);
    }
  }

  lemma {:induction false} CreatedRemembers(root: Option<Item>, found: Found)
    requires root.Some? ==> FirstSelection(root.value, found.items)
    ensures Remembering(Created(root, found))
  {
    CreationEffect(root, found);
    if root.Some? {
      var n, d := |found.items|, Created(root, found);
      var news := seq(n, i requires 0 <= i < n => found.items[i].news);
      forall x | x in d.nodes && x.parent.Some? ensures x.parent.value in d.history && x.news in d.history[1].shown {
        var i :| 0 <= i < |d.nodes| && d.nodes[i] == x;
        assert news[i - 1] == x.news;
      }
    }
  }

  /** Every accepted edit keeps whatever is displayed on record. */
  lemma {:induction false} AppliedRemembers(doc: MapDoc, e: Edit, limits: Limits)
    requires Good(doc, limits) && Legal(doc, e, limits) && Remembering(doc) && Applied(doc, e, limits).Accepted?
    ensures Remembering(Applied(doc, e, limits).doc)
  {
    AppliedIds(doc, e, limits);
    match e
    case Patch(plan, selected, detail, panel) => PatchEffect(doc, plan, selected, detail, panel);
    case Grow(parent, mode, found) => BranchedRemembers(doc, limits, parent, mode, found);
    case Restore => ResetRemembers(doc, limits);
    case Detach => JobEdits(doc, 0, [], None, limits);
    case Reserve(job, ids) => JobEdits(doc, job, ids, None, limits);
    case Release(result) => JobEdits(doc, 0, [], result, limits);
  }

  lemma {:induction false} BranchedRemembers(doc: MapDoc, limits: Limits, parent: NodeId, mode: Mode, found: Found)
    requires Good(doc, limits) && Legal(doc, Grow(parent, mode, found), limits)
    requires AllOnRecord(doc.nodes, doc.history) && Branched(doc, limits, parent, mode, found).Accepted?
    ensures var d := Branched(doc, limits, parent, mode, found).doc; AllOnRecord(d.nodes, d.history)
  {
    var p := FindNode(doc.nodes, parent).value;
    var d := Branched(doc, limits, parent, mode, found).doc;
    BranchEffect(doc, limits, p, mode, found);
    if Displayable(doc, limits, p.id, found) == [] {
      UngrownRemembers(doc, limits, p, found, d);
    } else {
      BranchDecision(doc, limits, p, mode, found);
      BranchedGood(doc, limits, parent, mode, found);
      GrownRemembers(doc, limits, p, mode, found, d);
    }
  }

  // ----- The record of one node -------------------------------------------------------------------------------

  /** What an edit does below a node q that stays: the record only grows, and not when it is full. */
  ghost predicate GoesOn(doc: MapDoc, d: MapDoc, limits: Limits, q: NodeId) {
    q in Ids(doc.nodes) && q in Ids(d.nodes) ==>
      && OnRecord(doc, q) <= OnRecord(d, q)
      && (|OnRecord(doc, q)| >= limits.history ==>
            forall n :: n in d.nodes && n.parent == Some(q) ==> OldChild(doc, {}, n))
  }

  lemma {:induction false} GrownGoesOn(doc: MapDoc, limits: Limits, p: Node, mode: Mode, found: Found, d: MapDoc,
      q: NodeId)
    requires GrownEffect(doc, p, Gone(doc, p.id, mode), found, d) && DistinctIds(d.nodes)
    requires |OnRecord(doc, p.id)| < limits.history && (forall n :: n in doc.nodes ==> n.id < doc.nextSeq)
    ensures GoesOn(doc, d, limits, q)
  {
    var gone := Gone(doc, p.id, mode);
    if q in Ids(doc.nodes) && q in Ids(d.nodes) {
      var m :| m in d.nodes && m.id == q;
      assert q !in gone;
      forall n | n in d.nodes && n.parent == Some(q) && |OnRecord(doc, q)| >= limits.history
        ensures OldChild(doc, {}, n)
      {
        OldOrNew(doc, p, gone, found, d, n);
      }
    }
  }

  lemma {:induction false} UngrownGoesOn(doc: MapDoc, limits: Limits, p: Node, found: Found, d: MapDoc, q: NodeId)
    requires NothingGrown(doc, limits, p, found, d)
    ensures GoesOn(doc, d, limits, q)
  {
    forall n | n in d.nodes && n.parent == Some(q) ensures OldChild(doc, {}, n) {
      var i :| 0 <= i < |d.nodes| && d.nodes[i] == n;
      assert doc.nodes[i] in doc.nodes;
    }
  }

  lemma {:induction false} SameGoesOn(doc: MapDoc, d: MapDoc, limits: Limits, q: NodeId)
    requires d.nodes == doc.nodes && d.history == doc.history && d.context == doc.context
    ensures GoesOn(doc, d, limits, q)
  {
    forall n | n in d.nodes ensures OldChild(doc, {}, n) {
    }
  }

  lemma {:induction false} BranchedGrows(doc: MapDoc, limits: Limits, p: Node, mode: Mode, found: Found, d: MapDoc)
    requires Good(doc, limits) && Legal(doc, Grow(p.id, mode, found), limits) && FindNode(doc.nodes, p.id) == Some(p)
    requires Branched(doc, limits, p.id, mode, found) == Accepted(d) && Displayable(doc, limits, p.id, found) != []
    ensures GrownEffect(doc, p, Gone(doc, p.id, mode), found, d) && DistinctIds(d.nodes)
    ensures |OnRecord(doc, p.id)| < limits.history && (forall n :: n in doc.nodes ==> n.id < doc.nextSeq)
  {
    BranchEffect(doc, limits, p, mode, found);
    BranchedGood(doc, limits, p.id, mode, found);
  }

  lemma {:induction false} BranchedGoesOn(doc: MapDoc, limits: Limits, parent: NodeId, mode: Mode, found: Found,
      q: NodeId)
    requires Good(doc, limits) && Legal(doc, Grow(parent, mode, found), limits)
    requires Branched(doc, limits, parent, mode, found).Accepted?
    ensures GoesOn(doc, Branched(doc, limits, parent, mode, found).doc, limits, q)
  {
    var p := FindNode(doc.nodes, parent).value;
    var d := Branched(doc, limits, parent, mode, found).doc;
    if Displayable(doc, limits, p.id, found) == [] {
      BranchEffect(doc, limits, p, mode, found);
      UngrownGoesOn(doc, limits, p, found, d, q);
    } else {
      BranchedGrows(doc, limits, p, mode, found, d);
      GrownGoesOn(doc, limits, p, mode, found, d, q);
    }
  }

  lemma {:induction false} AppliedGoesOn(doc: MapDoc, e: Edit, limits: Limits, q: NodeId)
    requires Good(doc, limits) && Legal(doc, e, limits) && Applied(doc, e, limits).Accepted?
    ensures GoesOn(doc, Applied(doc, e, limits).doc, limits, q)
  {
    var d := Applied(doc, e, limits).doc;
    match e
    case Patch(plan, selected, detail, panel) =>
      PatchEffect(doc, plan, selected, detail, panel);
      SameGoesOn(doc, d, limits, q);
    case Grow(parent, mode, found) =>
      BranchedGoesOn(doc, limits, parent, mode, found, q);
      assert d == Branched(doc, limits, parent, mode, found).doc.(revision := doc.revision + 1);
    case Restore =>
      ResetIds(doc, limits);
      assert q in Ids(doc.nodes) ==> q < doc.nextSeq;
    case Detach => SameGoesOn(doc, d, limits, q);
    case Reserve(job, ids) => SameGoesOn(doc, d, limits, q);
    case Release(result) => SameGoesOn(doc, d, limits, q);
  }

  // ----- Over runs ------------------------------------------------------------------------------------------------

  lemma {:induction false} PlayedRemembers(doc: MapDoc, es: seq<Edit>, limits: Limits)
    requires Good(doc, limits) && AllLegal(doc, es, limits) && Remembering(doc)
    ensures Remembering(Played(doc, es, limits))
  {
    if es != [] {
      var front := es[..|es| - 1];
      LegalPrefix(doc, es, limits);
      PlayedGood(doc, front, limits);
      PlayedRemembers(doc, front, limits);
      var before := Played(doc, front, limits);
      if Applied(before, es[|es| - 1], limits).Accepted? {
        AppliedRemembers(before, es[|es| - 1], limits);
      }
    }
  }

  /**
   Over any run of edits after which q is still on the map: its record has only grown, and if it was full at
   the start, every child of q was there at the start.
   */
  lemma {:induction false} RecordGoesOn(doc: MapDoc, es: seq<Edit>, limits: Limits, q: NodeId)
    requires Good(doc, limits) && AllLegal(doc, es, limits)
    requires q in Ids(doc.nodes) && q in Ids(Played(doc, es, limits).nodes)
    ensures OnRecord(doc, q) <= OnRecord(Played(doc, es, limits), q)
    ensures |OnRecord(doc, q)| >= limits.history ==>
            forall n :: n in Played(doc, es, limits).nodes && n.parent == Some(q) ==> OldChild(doc, {}, n)
  {
    if es == [] {
      SameGoesOn(doc, doc, limits, q);
    } else {
      var front, e := es[..|es| - 1], es[|es| - 1];
      LegalPrefix(doc, es, limits);
      PlayedGood(doc, front, limits);
      var before := Played(doc, front, limits);
      if Applied(before, e, limits).Accepted? {
        AppliedIds(before, e, limits);
        assert q < doc.nextSeq <= before.nextSeq;
        AppliedGoesOn(before, e, limits, q);
      }
      RecordGoesOn(doc, front, limits, q);
    }
  }

  lemma {:induction false} PlayedJoin(doc: MapDoc, es: seq<Edit>, more: seq<Edit>, limits: Limits)
    ensures Played(doc, es + more, limits) == Played(Played(doc, es, limits), more, limits)
  {
    var all := es + more;
    if more == [] {
      assert all == es;
    } else {
      assert all[..|all| - 1] == es + more[..|more| - 1];
      PlayedJoin(doc, es, more[..|more| - 1], limits);
    }
  }

  lemma {:induction false} LegalParts(doc: MapDoc, es: seq<Edit>, more: seq<Edit>, limits: Limits)
    requires AllLegal(doc, es + more, limits)
    ensures AllLegal(doc, es, limits) && AllLegal(Played(doc, es, limits), more, limits)
  {
    var all := es + more;
    forall k | 0 <= k < |es| ensures Legal(Played(doc, es[..k], limits), es[k], limits) {
      assert all[..k] == es[..k];
    }
    forall k | 0 <= k < |more| ensures Legal(Played(Played(doc, es, limits), more[..k], limits), more[k], limits) {
      assert all[..|es| + k] == es + more[..k];
      PlayedJoin(doc, es, more[..k], limits);
    }
  }

  /**
   Over any run of edits from the creation of a map on: an article displayed below a node at any moment is on
   record there in every later state that still has the node; and once the record of a node has reached the
   limit, no child is ever added to it.
   */
  lemma {:induction false} WhateverWasDisplayedIsOnRecord(root: Option<Item>, found: Found, es: seq<Edit>,
      more: seq<Edit>, limits: Limits, q: NodeId)
    requires limits.Valid() && (root.Some? ==> FirstSelection(root.value, found.items))
    requires AllLegal(Created(root, found), es + more, limits)
    requires q in Ids(Played(Created(root, found), es, limits).nodes)
    requires q in Ids(Played(Created(root, found), es + more, limits).nodes)
    ensures var past, now := Played(Created(root, found), es, limits), Played(Created(root, found), es + more, limits);
            && (forall n :: n in past.nodes && n.parent == Some(q) ==>
                  q in now.history && n.news in now.history[q].shown)
            && (q in past.history && |past.history[q].shown| >= limits.history ==>
                  forall n :: n in now.nodes && n.parent == Some(q) ==>
                    exists o :: o in past.nodes && o.id == n.id && o.news == n.news && o.parent == n.parent)
  {
    var doc := Created(root, found);
    var past := Played(doc, es, limits);
    CreatedGood(root, found, limits);
    CreatedRemembers(root, found);
    LegalParts(doc, es, more, limits);
    PlayedGood(doc, es, limits);
    PlayedRemembers(doc, es, limits);
    PlayedJoin(doc, es, more, limits);
    RecordGoesOn(past, more, limits, q);
    forall n | n in past.nodes && n.parent == Some(q) ensures n.news in OnRecord(Played(past, more, limits), q) {
      assert n.news in OnRecord(past, q);
    }
  }
}
