/**
 What each request does to a map document, told by what a reader of the document sees: which request is
 refused and how, what every field is afterwards, and what is left alone.
 */
module MapEffects {
  import opened Basics
  import opened ExplorationMap
  import opened TreeLaws
  import opened MapLaws
  import opened MapEdits

  // ----- Which expansion or research is refused ---------------------------------------------------------

  /** The record of what was displayed below p; before the first time, an empty one with the map's cursor. */
  function RecordOf(doc: MapDoc, p: NodeId): History {
    if p in doc.history then doc.history[p] else History([], [], doc.context)
  }

  /** The articles displayed below p so far, as far as they are on record. */
  function OnRecord(doc: MapDoc, p: NodeId): seq<NewsId> {
    RecordOf(doc, p).shown
  }

  ghost function Gone(doc: MapDoc, p: NodeId, mode: Mode): set<NodeId> {
    if mode == Research then Descendants(doc.nodes, p) else {}
  }

  /** The results that are displayed: none once the record of the parent is full. */
  function Displayable(doc: MapDoc, limits: Limits, p: NodeId, found: Found): seq<Item> {
    if |OnRecord(doc, p)| < limits.history then found.items else []
  }

  /**
   A request for a node that is not there, an expansion of an expanded node and a research of another are
   invalid; a node at the depth limit, and results that would exceed the node limit, meet a limit; every
   other request is accepted.
   */
  lemma {:induction false} BranchDecision(doc: MapDoc, limits: Limits, p: Node, mode: Mode, found: Found)
    requires Good(doc, limits) && p in doc.nodes
    ensures var r := Branched(doc, limits, p.id, mode, found);
            if (mode == Expand) == p.expanded then r == Refused(InvalidRequest)
            else if p.level >= limits.depth then r == Refused(LimitReached)
            else if |doc.nodes| - |Gone(doc, p.id, mode)| + |Displayable(doc, limits, p.id, found)| > limits.nodes
            then r == Refused(LimitReached)
            else r.Accepted?
  {
    FoundThere(doc, limits, p);
  }

  lemma {:induction false} BranchOfStranger(doc: MapDoc, limits: Limits, parent: NodeId, mode: Mode, found: Found)
    requires forall n :: n in doc.nodes ==> n.id != parent
    ensures Branched(doc, limits, parent, mode, found) == Refused(InvalidRequest)
  {
  }

  lemma {:induction false} FoundThere(doc: MapDoc, limits: Limits, p: Node)
    requires Good(doc, limits) && p in doc.nodes
    ensures FindNode(doc.nodes, p.id) == Some(p)
  {
    var q := FindNode(doc.nodes, p.id);
    assert p.id in Ids(doc.nodes);
    var i :| 0 <= i < |doc.nodes| && doc.nodes[i] == p;
    var k :| 0 <= k < |doc.nodes| && doc.nodes[k] == q.value;
  }

  // ----- An accepted request with results -----------------------------------------------------------------

  /** The record of p is what it was, then the new children's news and articles; surviving records stay. */
  ghost predicate RecordGrown(doc: MapDoc, p: NodeId, gone: set<NodeId>, found: Found, d: MapDoc) {
    && p in d.history
    && d.history[p].cursor == found.cursor
    && d.history[p].shown
       == RecordOf(doc, p).shown + seq(|found.items|, i requires 0 <= i < |found.items| => found.items[i].news)
    && d.history[p].previous
       == RecordOf(doc, p).previous + seq(|found.items|, i requires 0 <= i < |found.items| => found.items[i].article)
    && (forall k :: k != p ==> (k in d.history <==> k in doc.history && k !in gone))
    && (forall k :: k != p && k in d.history ==> d.history[k] == doc.history[k])
  }

  lemma {:induction false} ReplacedRecord(doc: MapDoc, p: Node, gone: set<NodeId>, found: Found, attempt: Attempt,
      h: History)
    requires h == RecordOf(doc, p.id).(cursor := found.cursor)
    ensures RecordGrown(doc, p.id, gone, found, Replaced(doc, p, gone, found.items, attempt, h))
  {
  }

  /** The public numbers of an attempt: 4 below the root and 3 elsewhere were asked for. */
  predicate AttemptFor(p: Node, returned: nat, exhausted: bool, a: Attempt) {
    && a.requested == (if p.level == 0 then 4 else 3) && a.returned == returned
    && (a.shortage <==> returned < a.requested) && a.budgetExhausted == exhausted
  }

  /** The branch of p is replaced by one with exactly the new children; branches of removed nodes go. */
  ghost predicate BranchOpened(doc: MapDoc, p: Node, gone: set<NodeId>, found: Found, d: MapDoc) {
    exists own ::
      && own in d.branches && own.parent == p.id && own.display == own.last
      && AttemptFor(p, |found.items|, found.exhausted, own.last)
      && own.children == seq(|found.items|, i requires 0 <= i < |found.items| => doc.nextSeq + i)
      && (forall b :: b in d.branches <==> b == own || (b in doc.branches && b.parent != p.id && b.parent !in gone))
  }

  lemma {:induction false} ReplacedBranch(doc: MapDoc, p: Node, gone: set<NodeId>, found: Found, h: History)
    ensures var attempt := Summary(Target(p.level), found.items, found.exhausted);
            BranchOpened(doc, p, gone, found, Replaced(doc, p, gone, found.items, attempt, h))
  {
    var attempt := Summary(Target(p.level), found.items, found.exhausted);
    var d := Replaced(doc, p, gone, found.items, attempt, h);
    var own := Branch(p.id, NewIds(doc.nextSeq, |found.items|), attempt, attempt);
    var rest := WithoutBranches(doc.branches, gone + {p.id});
    WithoutBranchesMembers(doc.branches, gone + {p.id});
    assert d.branches == rest + [own];
    assert own in d.branches;
    assert own.children == seq(|found.items|, i requires 0 <= i < |found.items| => doc.nextSeq + i);
    assert AttemptFor(p, |found.items|, found.exhausted, own.last);
  }

  /** The articles of the results are stored with the document, and every other stays as it was. */
  ghost predicate ArticlesStored(doc: MapDoc, found: Found, d: MapDoc) {
    && (forall i :: 0 <= i < |found.items| ==>
          && found.items[i].news in d.articles && d.articles[found.items[i].news] == found.items[i].article)
    && (forall x :: (forall i :: 0 <= i < |found.items| ==> found.items[i].news != x) ==>
          && (x in d.articles <==> x in doc.articles) && (x in doc.articles ==> d.articles[x] == doc.articles[x]))
  }

  lemma {:induction false} RecordStores(articles: map<NewsId, Article>, items: seq<Item>, i: nat)
    requires NoRepeats(NewsOf(items)) && i < |items|
    ensures var r := Record(articles, items); items[i].news in r && r[items[i].news] == items[i].article
  {
    var last := |items| - 1;
    assert NewsOf(items)[i] == items[i].news && NewsOf(items)[last] == items[last].news;
    if i < last {
      assert NewsOf(items[..last]) == NewsOf(items)[..last];
      RecordStores(articles, items[..last], i);
    }
  }

  lemma {:induction false} RecordKeeps(articles: map<NewsId, Article>, items: seq<Item>, x: NewsId)
    requires forall i :: 0 <= i < |items| ==> items[i].news != x
    ensures var r := Record(articles, items); (x in r <==> x in articles) && (x in r ==> r[x] == articles[x])
  {
    if items != [] {
      RecordKeeps(articles, items[..|items| - 1], x);
    }
  }

  lemma {:induction false} ReplacedStores(doc: MapDoc, p: Node, gone: set<NodeId>, found: Found, attempt: Attempt,
      h: History)
    requires NoRepeats(NewsOf(found.items))
    ensures ArticlesStored(doc, found, Replaced(doc, p, gone, found.items, attempt, h))
  {
    forall i | 0 <= i < |found.items|
      ensures var r := Record(doc.articles, found.items);
              found.items[i].news in r && r[found.items[i].news] == found.items[i].article
    {
      RecordStores(doc.articles, found.items, i);
    }
    forall x | forall i :: 0 <= i < |found.items| ==> found.items[i].news != x
      ensures var r := Record(doc.articles, found.items);
              (x in r <==> x in doc.articles) && (x in r ==> r[x] == doc.articles[x])
    {
      RecordKeeps(doc.articles, found.items, x);
    }
  }

  /** The members of s that are in keep, in their order. */
  ghost predicate Sublist(sub: seq<NewsId>, s: seq<NewsId>, keep: set<NewsId>) {
    if s == [] then sub == []
    else if s[0] in keep then sub != [] && sub[0] == s[0] && Sublist(sub[1..], s[1..], keep)
    else Sublist(sub, s[1..], keep)
  }

  /**
   While every selected article is displayed, nothing about the selection changes; otherwise the others stay
   selected, job and result are detached, and the panel closes when nothing stays selected. The card stays
   open while its article is displayed.
   */
  ghost predicate SelectionKept(doc: MapDoc, d: MapDoc) {
    && (if forall x :: x in doc.selected ==> x in Visible(d.nodes)
        then && d.selected == doc.selected && d.active == doc.active && d.lastResult == doc.lastResult
             && d.panelOpen == doc.panelOpen
        else && Sublist(d.selected, doc.selected, Visible(d.nodes)) && d.active == None && d.lastResult == None
             && d.panelOpen == (doc.panelOpen && d.selected != []))
    && d.detail == (if doc.detail.Some? && doc.detail.value in Visible(d.nodes) then doc.detail else None)
  }

  lemma {:induction false} SublistAppend(sub: seq<NewsId>, s: seq<NewsId>, keep: set<NewsId>, x: NewsId)
    requires Sublist(sub, s, keep)
    ensures Sublist(if x in keep then sub + [x] else sub, s + [x], keep)
  {
    if s == [] {
      assert (s + [x])[1..] == [];
      assert x in keep ==> (sub + [x])[1..] == [];
    } else {
      assert (s + [x])[1..] == s[1..] + [x];
      if s[0] in keep {
        assert (sub + [x])[1..] == sub[1..] + [x];
        SublistAppend(sub[1..], s[1..], keep, x);
      } else {
        SublistAppend(sub, s[1..], keep, x);
      }
    }
  }

  lemma {:induction false} KeepingIsSublist(s: seq<NewsId>, keep: set<NewsId>)
    ensures Sublist(Keeping(s, keep), s, keep)
    ensures (forall x :: x in s ==> x in keep) ==> Keeping(s, keep) == s
    ensures |Keeping(s, keep)| <= |s|
    ensures !(forall x :: x in s ==> x in keep) ==> |Keeping(s, keep)| < |s|
  {
    if s != [] {
      var front, last := s[..|s| - 1], s[|s| - 1];
      KeepingIsSublist(front, keep);
      SublistAppend(Keeping(front, keep), front, keep, last);
      assert s == front + [last];
    }
  }

  lemma {:induction false} ReplacedSelection(doc: MapDoc, p: Node, gone: set<NodeId>, items: seq<Item>,
      attempt: Attempt, h: History)
    ensures SelectionKept(doc, Replaced(doc, p, gone, items, attempt, h))
  {
    var d := Replaced(doc, p, gone, items, attempt, h);
    KeepingIsSublist(doc.selected, Visible(d.nodes));
  }

  /** The new children share one batch number, one above the greatest that remains on the map. */
  ghost predicate NewestBatch(doc: MapDoc, gone: set<NodeId>, d: MapDoc, batch: nat) {
    && (forall n :: n in doc.nodes && n.id !in gone ==> n.batch < batch)
    && (exists n :: n in doc.nodes && n.id !in gone && n.batch + 1 == batch)
    && (forall n :: n in d.nodes && n.id >= doc.nextSeq ==> n.batch == batch)
  }

  lemma {:induction false} GreatestBatch(nodes: seq<Node>)
    ensures forall n :: n in nodes ==> n.batch <= MaxBatch(nodes)
    ensures nodes != [] ==> exists n :: n in nodes && n.batch == MaxBatch(nodes)
  {
    if nodes != [] {
      var front, last := nodes[..|nodes| - 1], nodes[|nodes| - 1];
      GreatestBatch(front);
      assert nodes == front + [last];
      if last.batch < MaxBatch(front) {
        var n :| n in front && n.batch == MaxBatch(front);
        assert n in nodes;
      } else {
        assert last in nodes && last.batch == MaxBatch(nodes);
      }
    }
  }

  lemma {:induction false} ReplacedBatch(kept: seq<Node>, children: seq<Node>, p: Node, next: nat, n: Node)
    requires n in MarkExpanded(kept + children, p.id) && n.id >= next
    requires (forall m :: m in kept ==> m.id < next) && forall m :: m in children ==> m.batch == MaxBatch(kept) + 1
    ensures n.batch == MaxBatch(kept) + 1
  {
    var o := Unmark(kept + children, p.id, n);
  }

  lemma {:induction false} ReplacedNewest(doc: MapDoc, p: Node, gone: set<NodeId>, items: seq<Item>, attempt: Attempt,
      h: History)
    requires p in doc.nodes && p.id !in gone && forall n :: n in doc.nodes ==> n.id < doc.nextSeq
    ensures NewestBatch(doc, gone, Replaced(doc, p, gone, items, attempt, h), MaxBatch(Without(doc.nodes, gone)) + 1)
  {
    var kept := Without(doc.nodes, gone);
    var children := NewNodes(items, doc.nextSeq, Some(p.id), p.level + 1, MaxBatch(kept) + 1);
    WithoutMembers(doc.nodes, gone);
    GreatestBatch(kept);
    NewNodeAt(items, doc.nextSeq, Some(p.id), p.level + 1, MaxBatch(kept) + 1);
    assert p in kept;
    forall n | n in MarkExpanded(kept + children, p.id) && n.id >= doc.nextSeq ensures n.batch == MaxBatch(kept) + 1 {
      ReplacedBatch(kept, children, p, doc.nextSeq, n);
    }
  }

  /** The removed nodes go, p is marked expanded, the others stay, and one child below p appears for each result. */
  ghost predicate NodesGrown(doc: MapDoc, p: Node, gone: set<NodeId>, found: Found, d: MapDoc) {
    && d.nextSeq == doc.nextSeq + |found.items|
    && (forall n :: n in d.nodes ==>
          n.id < d.nextSeq && (n.id < doc.nextSeq ==> n.id in Ids(doc.nodes) && n.id !in gone))
    && (forall n :: n in doc.nodes && n.id !in gone ==> (if n.id == p.id then n.(expanded := true) else n) in d.nodes)
    && (forall i :: 0 <= i < |found.items| ==> ChildShown(doc, p, found, d, i))
  }

  ghost predicate ChildShown(doc: MapDoc, p: Node, found: Found, d: MapDoc, i: nat)
    requires i < |found.items|
  {
    exists n :: n in d.nodes && n.id == doc.nextSeq + i && n.news == found.items[i].news
                && n.parent == Some(p.id) && n.level == p.level + 1 && !n.expanded
  }

  lemma {:induction false} ReplacedNodes(doc: MapDoc, p: Node, gone: set<NodeId>, found: Found, attempt: Attempt,
      h: History)
    requires p in doc.nodes && forall n :: n in doc.nodes ==> n.id < doc.nextSeq
    ensures NodesGrown(doc, p, gone, found, Replaced(doc, p, gone, found.items, attempt, h))
  {
    var kept := Without(doc.nodes, gone);
    var batch := MaxBatch(kept) + 1;
    var children := NewNodes(found.items, doc.nextSeq, Some(p.id), p.level + 1, batch);
    var d := Replaced(doc, p, gone, found.items, attempt, h);
    ReplacedIds(doc, p, gone, found.items, attempt, h);
    forall n | n in d.nodes
      ensures n.id < d.nextSeq && (n.id < doc.nextSeq ==> n.id in Ids(doc.nodes) && n.id !in gone)
    {
      assert n.id in Ids(d.nodes);
    }
    SurvivorsUnchanged(doc.nodes, gone, children, p.id);
    ChildrenAdded(kept, found.items, doc.nextSeq, p, batch);
    forall i | 0 <= i < |found.items| ensures ChildShown(doc, p, found, d, i) {
      assert Node(doc.nextSeq + i, found.items[i].news, Some(p.id), p.level + 1, false, batch) in d.nodes;
    }
  }

  /** Everything an accepted request with results does. */
  ghost predicate GrownEffect(doc: MapDoc, p: Node, gone: set<NodeId>, found: Found, d: MapDoc) {
    && NodesGrown(doc, p, gone, found, d)
    && (exists batch :: NewestBatch(doc, gone, d, batch))
    && BranchOpened(doc, p, gone, found, d)
    && RecordGrown(doc, p.id, gone, found, d)
    && ArticlesStored(doc, found, d)
    && SelectionKept(doc, d)
    && d.revision == doc.revision && d.root == doc.root && d.summary == doc.summary && d.context == doc.context
    && d.initial == doc.initial
  }

  // ----- An accepted request without results ----------------------------------------------------------------

  /** The branch of p notes the attempt and keeps what it shows, or an empty branch opens. */
  ghost predicate AttemptNoted(doc: MapDoc, p: Node, exhausted: bool, d: MapDoc) {
    exists a ::
      && AttemptFor(p, 0, exhausted, a)
      && if forall b :: b in doc.branches ==> b.parent != p.id
         then d.branches == doc.branches + [Branch(p.id, [], a, a)]
         else exists i :: 0 <= i < |doc.branches| && doc.branches[i].parent == p.id
                          && d.branches == doc.branches[i := doc.branches[i].(last := a)]
  }

  /** No node comes or goes; the record of p keeps what it lists, under the cursor the search has left. */
  ghost predicate NothingGrown(doc: MapDoc, limits: Limits, p: Node, found: Found, d: MapDoc) {
    && d == doc.(nodes := d.nodes, branches := d.branches, history := d.history)
    && |d.nodes| == |doc.nodes|
    && (forall i :: 0 <= i < |d.nodes| ==>
          d.nodes[i] == if doc.nodes[i].id == p.id then doc.nodes[i].(expanded := true) else doc.nodes[i])
    && d.history == doc.history[p.id := RecordOf(doc, p.id).(cursor := CursorAfter(doc, limits, p.id, found))]
    && AttemptNoted(doc, p, |OnRecord(doc, p.id)| >= limits.history || found.exhausted, d)
  }

  /** A full record makes no search, so its cursor stays. */
  function CursorAfter(doc: MapDoc, limits: Limits, p: NodeId, found: Found): Cursor {
    if |OnRecord(doc, p)| < limits.history then found.cursor else RecordOf(doc, p).cursor
  }

  lemma {:induction false} AttemptedNotes(doc: MapDoc, p: Node, attempt: Attempt, h: History, exhausted: bool)
    requires AttemptFor(p, 0, exhausted, attempt) && DistinctParents(doc.branches)
    ensures AttemptNoted(doc, p, exhausted, Attempted(doc, p, attempt, h))
  {
    if HasBranch(doc.branches, p.id) {
      var i := FirstBranchOf(doc.branches, p.id);
      RecordedAttempt(doc.branches, p.id, attempt, i);
    } else {
      RecordedAttempt(doc.branches, p.id, attempt, 0);
    }
  }

  lemma {:induction false} ReplacedWhole(doc: MapDoc, p: Node, gone: set<NodeId>, found: Found, h: History)
    requires p in doc.nodes && p.id !in gone && NoRepeats(NewsOf(found.items))
    requires forall n :: n in doc.nodes ==> n.id < doc.nextSeq
    requires h == RecordOf(doc, p.id).(cursor := found.cursor)
    ensures var attempt := Summary(Target(p.level), found.items, found.exhausted);
            GrownEffect(doc, p, gone, found, Replaced(doc, p, gone, found.items, attempt, h))
  {
    var attempt := Summary(Target(p.level), found.items, found.exhausted);
    ReplacedNodes(doc, p, gone, found, attempt, h);
    ReplacedNewest(doc, p, gone, found.items, attempt, h);
    ReplacedBranch(doc, p, gone, found, h);
    ReplacedRecord(doc, p, gone, found, attempt, h);
    ReplacedStores(doc, p, gone, found, attempt, h);
    ReplacedSelection(doc, p, gone, found.items, attempt, h);
  }

  lemma {:induction false} AttemptedWhole(doc: MapDoc, limits: Limits, p: Node, found: Found, attempt: Attempt)
    requires DistinctParents(doc.branches)
    requires AttemptFor(p, 0, |OnRecord(doc, p.id)| >= limits.history || found.exhausted, attempt)
    ensures var h := RecordOf(doc, p.id).(cursor := CursorAfter(doc, limits, p.id, found));
            NothingGrown(doc, limits, p, found, Attempted(doc, p, attempt, h))
  {
    var h := RecordOf(doc, p.id).(cursor := CursorAfter(doc, limits, p.id, found));
    AttemptedNotes(doc, p, attempt, h, |OnRecord(doc, p.id)| >= limits.history || found.exhausted);
    MarkedAt(doc.nodes, p.id);
  }

  /** Which of the two documents an accepted request leaves. */
  lemma {:induction false} BranchedTo(doc: MapDoc, limits: Limits, p: Node, mode: Mode, found: Found)
    requires FindNode(doc.nodes, p.id) == Some(p) && Branched(doc, limits, p.id, mode, found).Accepted?
    ensures var d := Branched(doc, limits, p.id, mode, found).doc;
            var full := |OnRecord(doc, p.id)| >= limits.history;
            var h := RecordOf(doc, p.id).(cursor := CursorAfter(doc, limits, p.id, found));
            if Displayable(doc, limits, p.id, found) == []
            then d == Attempted(doc, p, if full then Attempt(Target(p.level), 0, true, true)
                                        else Summary(Target(p.level), [], found.exhausted), h)
            else d == Replaced(doc, p, Gone(doc, p.id, mode), found.items,
                               Summary(Target(p.level), found.items, found.exhausted), h)
  {
  }

  /**
   What an accepted expansion or research does. With results to display, exactly the descendants of the
   parent (research) or nothing (expansion) disappear and one fresh child per result appears; branch, record,
   articles and selection follow. Without, only the attempt is noted.
   */
  lemma {:induction false} BranchEffect(doc: MapDoc, limits: Limits, p: Node, mode: Mode, found: Found)
    requires Good(doc, limits) && p in doc.nodes && NoRepeats(NewsOf(found.items))
    requires Branched(doc, limits, p.id, mode, found).Accepted?
    ensures var d := Branched(doc, limits, p.id, mode, found).doc;
            if Displayable(doc, limits, p.id, found) == [] then NothingGrown(doc, limits, p, found, d)
            else GrownEffect(doc, p, Gone(doc, p.id, mode), found, d)
  {
    FoundThere(doc, limits, p);
    BranchedTo(doc, limits, p, mode, found);
    if Displayable(doc, limits, p.id, found) == [] {
      var full := |OnRecord(doc, p.id)| >= limits.history;
      AttemptedWhole(doc, limits, p, found, if full then Attempt(Target(p.level), 0, true, true)
                                            else Summary(Target(p.level), [], found.exhausted));
    } else {
      BranchDecision(doc, limits, p, mode, found);
      ParentKept(doc, limits, p, mode);
      WithoutMembers(doc.nodes, Removed(doc, p.id, mode));
      ReplacedWhole(doc, p, Gone(doc, p.id, mode), found, RecordOf(doc, p.id).(cursor := found.cursor));
    }
  }

  // ----- PATCH, job edits, creation ---------------------------------------------------------------------------

  /**
   A PATCH is refused for a null or undisplayed selection, one beyond the plan, an undisplayed card or a null
   panel state, the first of these deciding; every other one is accepted.
   */
  lemma {:induction false} PatchDecision(doc: MapDoc, plan: nat, selected: Field<seq<NewsId>>, detail: Field<NewsId>,
      panel: Field<bool>)
    ensures var r := Updated(doc, plan, selected, detail, panel);
            if selected.Null? || (selected.Given? && exists x :: x in selected.value && x !in Visible(doc.nodes))
            then r == Refused(InvalidRequest)
            else if selected.Given? && |selected.value| > plan then r == Refused(PlanLimit)
            else if (detail.Given? && detail.value !in Visible(doc.nodes)) || panel.Null?
            then r == Refused(InvalidRequest)
            else r.Accepted?
  {
    if selected.Given? {
      assert Elements(selected.value) <= Visible(doc.nodes)
             <==> forall x :: x in selected.value ==> x in Visible(doc.nodes);
    }
  }

  /** An accepted PATCH changes the fields it names; another set of selected articles detaches job and result. */
  lemma {:induction false} PatchEffect(doc: MapDoc, plan: nat, selected: Field<seq<NewsId>>, detail: Field<NewsId>,
      panel: Field<bool>)
    requires Updated(doc, plan, selected, detail, panel).Accepted?
    ensures var d := Updated(doc, plan, selected, detail, panel).doc;
            && d == doc.(selected := d.selected, active := d.active, lastResult := d.lastResult,
                         panelOpen := d.panelOpen, detail := d.detail)
            && d.selected == (if selected.Given? then selected.value else doc.selected)
            && (if forall x :: x in d.selected <==> x in doc.selected
                then d.active == doc.active && d.lastResult == doc.lastResult
                else d.active == None && d.lastResult == None)
            && d.panelOpen == (match panel
                               case Given(open) => open
                               case _ => doc.panelOpen && selected != Given([]))
            && d.detail == (match detail case Absent => doc.detail case Null => None case Given(x) => Some(x))
  {
    var d := Updated(doc, plan, selected, detail, panel).doc;
    if forall x :: x in d.selected <==> x in doc.selected {
      assert Elements(d.selected) == Elements(doc.selected);
    } else {
      var x :| !(x in d.selected <==> x in doc.selected);
      assert !(x in Elements(d.selected) <==> x in Elements(doc.selected));
    }
  }

  /** A first node for the centre, one below it for each result, a full record, and a snapshot of all of it. */
  ghost predicate CreatedFrom(root: Item, found: Found, d: MapDoc) {
    var n := |found.items|;
    && d.revision == 1 && d.root == Some(1) && d.nextSeq == 2 + n && d.context == found.cursor
    && d.nodes == [Node(1, root.news, None, 0, true, 0)]
                  + seq(n, i requires 0 <= i < n => Node(2 + i, found.items[i].news, Some(1), 1, false, 0))
    && AttemptFor(d.nodes[0], n, found.exhausted, d.summary)
    && d.branches == [Branch(1, seq(n, i requires 0 <= i < n => 2 + i), d.summary, d.summary)]
    && d.history == map[1 := History(seq(n, i requires 0 <= i < n => found.items[i].news),
                                     seq(n, i requires 0 <= i < n => found.items[i].article), found.cursor)]
    && d.articles.Keys == {root.news} + (set i | 0 <= i < n :: found.items[i].news)
    && d.articles[root.news] == root.article
    && (forall i :: 0 <= i < n ==> d.articles[found.items[i].news] == found.items[i].article)
    && Untouched(d)
  }

  /** Nothing selected, opened or reported yet, and the snapshot of the creation. */
  ghost predicate Untouched(d: MapDoc) {
    && d.selected == [] && d.detail == None && !d.panelOpen && d.active == None && d.lastResult == None
    && d.initial == Snapshot(d.root, d.nodes, d.branches, d.summary, d.history)
  }

  lemma {:induction false} NewsSet(items: seq<Item>)
    ensures Elements(NewsOf(items)) == set i | 0 <= i < |items| :: items[i].news
  {
    var all := set i | 0 <= i < |items| :: items[i].news;
    forall x | x in NewsOf(items) ensures x in all {
      var i :| 0 <= i < |items| && NewsOf(items)[i] == x;
      assert items[i].news in all;
    }
    forall x | x in all ensures x in NewsOf(items) {
      var i :| 0 <= i < |items| && items[i].news == x;
      assert NewsOf(items)[i] == x;
    }
  }

  /** What create_map stores, with or without a first article. */
  lemma {:induction false} CreationEffect(root: Option<Item>, found: Found)
    requires root.Some? ==> FirstSelection(root.value, found.items)
    ensures var d := Created(root, found);
            match root
            case Some(item) => CreatedFrom(item, found, d)
            case None => && d == d.(revision := 1, root := None, nodes := [], branches := [], history := map[],
                                    summary := Attempt(4, 0, true, false), nextSeq := 1, articles := map[],
                                    context := found.cursor)
                         && Untouched(d)
  {
    if root.Some? {
      var n, d := |found.items|, Created(root, found);
      NewNodeAt(found.items, 2, Some(1), 1, 0);
      assert NewNodes(found.items, 2, Some(1), 1, 0)
             == seq(n, i requires 0 <= i < n => Node(2 + i, found.items[i].news, Some(1), 1, false, 0));
      RecordKeys(map[root.value.news := root.value.article], found.items);
      NewsSet(found.items);
      forall i | 0 <= i < n ensures d.articles[found.items[i].news] == found.items[i].article {
        RecordStores(map[root.value.news := root.value.article], found.items, i);
      }
      RecordKeeps(map[root.value.news := root.value.article], found.items, root.value.news);
    }
  }

  /** An admission opens the panel on its articles, if all are displayed; a detached or ended job leaves the map. */
  lemma {:induction false} JobEdits(doc: MapDoc, job: JobId, ids: seq<NewsId>, result: Option<ReportLink>,
      limits: Limits)
    ensures var next := doc.(revision := doc.revision + 1);
            && Applied(doc, Detach, limits) == Accepted(next.(active := None))
            && Applied(doc, Release(result), limits)
               == Accepted(next.(active := None, lastResult := if result == None then doc.lastResult else result))
            && Applied(doc, Reserve(job, ids), limits)
               == if forall x :: x in ids ==> x in Visible(doc.nodes)
                  then Accepted(next.(selected := ids, panelOpen := true, active := Some(job)))
                  else Refused(InvalidRequest)
  {
    assert Elements(ids) <= Visible(doc.nodes) <==> forall x :: x in ids ==> x in Visible(doc.nodes);
  }
}
