/**
 The edits that any request or worker may commit to a map document, and what holds of every
 document reached by them: the tree invariant, and node ids that are never used twice.
 */
module MapEdits {
  import opened Basics
  import opened ExplorationMap
  import opened TreeLaws
  import opened MapLaws
  import opened ResetLaws

  datatype Edit =
    | Patch(plan: nat, selected: Field<seq<NewsId>>, detail: Field<NewsId>, panel: Field<bool>)
    | Grow(parent: NodeId, mode: Mode, found: Found)
    | Restore
    | Detach                                     // the active job's document has expired
    | Reserve(job: JobId, ids: seq<NewsId>)      // a report job is admitted
    | Release(result: Option<ReportLink>)        // the active job ends, linking its result when it completed

  function Reserved(doc: MapDoc, job: JobId, ids: seq<NewsId>): Outcome {
    if !(Elements(ids) <= Visible(doc.nodes)) then Refused(InvalidRequest)
    else Accepted(doc.(selected := ids, panelOpen := true, active := Some(job)))
  }

  ghost function Edited(doc: MapDoc, e: Edit, limits: Limits): Outcome {
    match e
    case Patch(plan, selected, detail, panel) => Updated(doc, plan, selected, detail, panel)
    case Grow(parent, mode, found) => Branched(doc, limits, parent, mode, found)
    case Restore => Reset(doc)
    case Detach => Accepted(doc.(active := None))
    case Reserve(job, ids) => Reserved(doc, job, ids)
    case Release(result) =>
      Accepted(doc.(active := None, lastResult := if result.Some? then result else doc.lastResult))
  }

  /** The edit as committed: the same document with the next revision number. */
  ghost function Applied(doc: MapDoc, e: Edit, limits: Limits): Outcome {
    match Edited(doc, e, limits)
    case Refused(why) => Refused(why)
    case Accepted(d) => Accepted(d.(revision := doc.revision + 1))
  }

  /** The article selector keeps its contract; every other edit is unconstrained. */
  ghost predicate Legal(doc: MapDoc, e: Edit, limits: Limits) {
    e.Grow? ==>
      var p := FindNode(doc.nodes, e.parent);
      p.Some? ==> Offered(doc, Room(doc, limits, p.value), e.found.items)
  }

  lemma {:induction false} AppliedGood(doc: MapDoc, e: Edit, limits: Limits)
    requires Good(doc, limits) && Legal(doc, e, limits)
    ensures Applied(doc, e, limits).Accepted? ==> Good(Applied(doc, e, limits).doc, limits)
  {
    match e
    case Patch(plan, selected, detail, panel) => UpdatedGood(doc, limits, plan, selected, detail, panel);
    case Grow(parent, mode, found) => BranchedGood(doc, limits, parent, mode, found);
    case Restore => ResetGood(doc, limits);
    case Detach =>
    case Reserve(job, ids) =>
    case Release(result) =>
  }

  // ----- Node ids over an edit --------------------------------------------------------------------

  lemma {:induction false} KeptIds(nodes: seq<Node>, gone: set<NodeId>)
    ensures Ids(Without(nodes, gone)) == Ids(nodes) - gone
  {
    WithoutMembers(nodes, gone);
    forall x | x in Ids(nodes) - gone ensures x in Ids(Without(nodes, gone)) {
      var n :| n in nodes && n.id == x;
      assert n in Without(nodes, gone);
    }
  }

  lemma {:induction false} IdsOfNew(items: seq<Item>, next: nat, parent: Option<NodeId>, level: nat, batch: nat)
    ensures Ids(NewNodes(items, next, parent, level, batch)) == Elements(NewIds(next, |items|))
  {
    var nodes, ids := NewNodes(items, next, parent, level, batch), NewIds(next, |items|);
    NewNodeAt(items, next, parent, level, batch);
    forall x | x in Ids(nodes) ensures x in ids {
      var n :| n in nodes && n.id == x;
      var i :| 0 <= i < |nodes| && nodes[i] == n;
      assert ids[i] == x;
    }
    forall x | x in ids ensures x in Ids(nodes) {
      var i :| 0 <= i < |ids| && ids[i] == x;
      assert nodes[i] in nodes;
    }
  }

  lemma {:induction false} IdsAfter(nodes: seq<Node>, gone: set<NodeId>, items: seq<Item>, next: nat, p: Node,
      batch: nat)
    ensures Ids(MarkExpanded(Without(nodes, gone) + NewNodes(items, next, Some(p.id), p.level + 1, batch), p.id))
            == Ids(nodes) - gone + Elements(NewIds(next, |items|))
  {
    var kept, children := Without(nodes, gone), NewNodes(items, next, Some(p.id), p.level + 1, batch);
    MarkedNodes(kept + children, p.id);
    KeptIds(nodes, gone);
    IdsOfNew(items, next, Some(p.id), p.level + 1, batch);
  }

  /** A replacement removes exactly the given nodes and adds exactly the next |items| ids. */
  lemma {:induction false} ReplacedIds(doc: MapDoc, p: Node, removed: set<NodeId>, items: seq<Item>, attempt: Attempt,
      h: History)
    ensures Ids(Replaced(doc, p, removed, items, attempt, h).nodes)
            == Ids(doc.nodes) - removed + Elements(NewIds(doc.nextSeq, |items|))
  {
    IdsAfter(doc.nodes, removed, items, doc.nextSeq, p, MaxBatch(Without(doc.nodes, removed)) + 1);
  }

  /** Every node outside `gone` is still there, p being marked. */
  ghost predicate Survived(before: seq<Node>, gone: set<NodeId>, p: NodeId, after: seq<Node>) {
    forall n :: n in before && n.id !in gone ==> Marked(n, p) in after
  }

  /** One child below p per item, numbered from `next` on. */
  ghost predicate Added(items: seq<Item>, next: nat, p: Node, batch: nat, after: seq<Node>) {
    forall i :: 0 <= i < |items| ==> Node(next + i, items[i].news, Some(p.id), p.level + 1, false, batch) in after
  }

  lemma {:induction false} SurvivorsUnchanged(nodes: seq<Node>, gone: set<NodeId>, children: seq<Node>, p: NodeId)
    ensures Survived(nodes, gone, p, MarkExpanded(Without(nodes, gone) + children, p))
  {
    var kept := Without(nodes, gone);
    WithoutMembers(nodes, gone);
    MarkedNodes(kept + children, p);
    forall n | n in nodes && n.id !in gone ensures Marked(n, p) in MarkExpanded(kept + children, p) {
      assert n in kept + children;
    }
  }

  lemma {:induction false} ChildrenAdded(kept: seq<Node>, items: seq<Item>, next: nat, p: Node, batch: nat)
    requires p.id < next
    ensures Added(items, next, p, batch,
            MarkExpanded(kept + NewNodes(items, next, Some(p.id), p.level + 1, batch), p.id))
  {
    var children := NewNodes(items, next, Some(p.id), p.level + 1, batch);
    NewNodeAt(items, next, Some(p.id), p.level + 1, batch);
    MarkedNodes(kept + children, p.id);
    forall i | 0 <= i < |items| ensures children[i] in MarkExpanded(kept + children, p.id) {
      assert children[i] in kept + children;
      assert Marked(children[i], p.id) == children[i];
    }
  }

  lemma {:induction false} ResetIds(doc: MapDoc, limits: Limits)
    requires Good(doc, limits)
    ensures Reset(doc).Accepted?
    ensures forall x :: x in Ids(Reset(doc).doc.nodes) ==> doc.nextSeq <= x < doc.nextSeq + |doc.initial.nodes|
  {
    ResetIsFreshCopy(doc, limits);
    var f, d := Renaming(doc.initial.nodes, doc.nextSeq), Reset(doc).doc;
    forall n | n in d.nodes ensures doc.nextSeq <= n.id < doc.nextSeq + |doc.initial.nodes| {
      var o := Original(doc.initial.nodes, f, d.nodes, n);
    }
  }

  /** An edit keeps the snapshot and only ever introduces ids from the unused range. */
  lemma {:induction false} AppliedIds(doc: MapDoc, e: Edit, limits: Limits)
    requires Good(doc, limits) && Applied(doc, e, limits).Accepted?
    ensures var d := Applied(doc, e, limits).doc;
            && d.initial == doc.initial && d.nextSeq >= doc.nextSeq && d.revision == doc.revision + 1
            && forall x :: x in Ids(d.nodes) && x < doc.nextSeq ==> x in Ids(doc.nodes)
  {
    var d := Applied(doc, e, limits).doc;
    match e
    case Patch(plan, selected, detail, panel) =>
    case Grow(parent, mode, found) =>
      GrowIds(doc, limits, parent, mode, found);
    case Restore => ResetIds(doc, limits);
    case Detach =>
    case Reserve(job, ids) =>
    case Release(result) =>
  }

  lemma {:induction false} GrowIds(doc: MapDoc, limits: Limits, parent: NodeId, mode: Mode, found: Found)
    requires Branched(doc, limits, parent, mode, found).Accepted?
    ensures var d := Branched(doc, limits, parent, mode, found).doc;
            && d.initial == doc.initial && d.nextSeq >= doc.nextSeq
            && forall x :: x in Ids(d.nodes) && x < doc.nextSeq ==> x in Ids(doc.nodes)
  {
    var p := FindNode(doc.nodes, parent).value;
    var full := HistoryFull(doc, limits, parent);
    var items := if full then [] else found.items;
    var attempt := if full then Attempt(Target(p.level), 0, true, true)
                   else Summary(Target(p.level), items, found.exhausted);
    var h := if full then Remembered(doc, parent) else Remembered(doc, parent).(cursor := found.cursor);
    if items == [] {
      MarkedNodes(doc.nodes, p.id);
    } else {
      ReplacedIds(doc, p, Removed(doc, parent, mode), items, attempt, h);
    }
  }

  // ----- Runs of edits ----------------------------------------------------------------------------

  /** One after the other; a refused request changes nothing. */
  ghost function Played(doc: MapDoc, es: seq<Edit>, limits: Limits): MapDoc {
    if es == [] then doc else
      var before := Played(doc, es[..|es| - 1], limits);
      match Applied(before, es[|es| - 1], limits)
      case Refused(_) => before
      case Accepted(d) => d
  }

  ghost predicate AllLegal(doc: MapDoc, es: seq<Edit>, limits: Limits) {
    forall k :: 0 <= k < |es| ==> Legal(Played(doc, es[..k], limits), es[k], limits)
  }

  lemma {:induction false} LegalPrefix(doc: MapDoc, es: seq<Edit>, limits: Limits)
    requires es != [] && AllLegal(doc, es, limits)
    ensures AllLegal(doc, es[..|es| - 1], limits)
    ensures Legal(Played(doc, es[..|es| - 1], limits), es[|es| - 1], limits)
  {
    var front := es[..|es| - 1];
    forall k | 0 <= k < |front| ensures Legal(Played(doc, front[..k], limits), front[k], limits) {
      assert front[..k] == es[..k];
    }
  }

  /**
   The tree invariant after any create/expand/research/reset/patch/job run; an id that a document
   has retired never comes back; and a reset at any point restores the snapshot of the creation.
   */
  lemma {:induction false} PlayedGood(doc: MapDoc, es: seq<Edit>, limits: Limits)
    requires Good(doc, limits) && AllLegal(doc, es, limits)
    ensures Good(Played(doc, es, limits), limits)
    ensures Played(doc, es, limits).initial == doc.initial && Played(doc, es, limits).nextSeq >= doc.nextSeq
    ensures forall x :: x < doc.nextSeq && x !in Ids(doc.nodes) ==> x !in Ids(Played(doc, es, limits).nodes)
  {
    if es != [] {
      var front := es[..|es| - 1];
      LegalPrefix(doc, es, limits);
      PlayedGood(doc, front, limits);
      var before := Played(doc, front, limits);
      AppliedGood(before, es[|es| - 1], limits);
      if Applied(before, es[|es| - 1], limits).Accepted? {
        AppliedIds(before, es[|es| - 1], limits);
      }
    }
  }

  lemma {:induction false} ResetAfterAnyRun(root: Option<Item>, found: Found, es: seq<Edit>, limits: Limits)
    requires limits.Valid() && (root.Some? ==> FirstSelection(root.value, found.items))
    requires AllLegal(Created(root, found), es, limits)
    ensures var doc := Created(root, found);
            var now := Played(doc, es, limits);
            && Good(now, limits)
            && Reset(now).Accepted? && Good(Reset(now).doc, limits)
            && FreshCopy(doc.initial, Renaming(doc.initial.nodes, now.nextSeq), now.nextSeq, Reset(now).doc)
            && doc.initial.nodes == doc.nodes && doc.initial.branches == doc.branches
  {
    var doc := Created(root, found);
    CreatedGood(root, found, limits);
    PlayedGood(doc, es, limits);
    ResetGood(Played(doc, es, limits), limits);
    ResetIsFreshCopy(Played(doc, es, limits), limits);
  }
}
