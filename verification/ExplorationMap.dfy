/**
 The exploration document of app/v2/maps.py as a value, and what each request makes of it.

 Node ids carry a sequence number ("n7"), so a number stands for each of them. Article ids and
 job ids are only compared, so numbers stand for them too. An article snapshot and a search
 cursor are opaque payloads.
 */
module ExplorationMap {
  import opened Basics

  type NodeId = nat
  type NewsId = nat
  type JobId = nat
  type Article = nat
  type Cursor = nat

  /** What a finished report job leaves on a map. */
  datatype ReportLink = ReportLink(report: nat, strategy: Option<nat>)

  datatype Node = Node(id: NodeId, news: NewsId, parent: Option<NodeId>, level: nat, expanded: bool, batch: nat)

  /** The public summary of one selection attempt. */
  datatype Attempt = Attempt(requested: nat, returned: nat, shortage: bool, budgetExhausted: bool)

  datatype Branch = Branch(parent: NodeId, children: seq<NodeId>, display: Attempt, last: Attempt)

  datatype History = History(shown: seq<NewsId>, previous: seq<Article>, cursor: Cursor)

  datatype Snapshot = Snapshot(root: Option<NodeId>, nodes: seq<Node>, branches: seq<Branch>,
                               summary: Attempt, history: map<NodeId, History>)

  datatype MapDoc = MapDoc(
    revision: nat, root: Option<NodeId>, nodes: seq<Node>, branches: seq<Branch>, summary: Attempt,
    history: map<NodeId, History>, nextSeq: nat, articles: map<NewsId, Article>, context: Cursor,
    selected: seq<NewsId>, detail: Option<NewsId>, panelOpen: bool,
    active: Option<JobId>, lastResult: Option<ReportLink>, initial: Snapshot)

  /** Settings v2_max_map_nodes, v2_max_map_depth, v2_branch_history_limit, within their declared bounds. */
  datatype Limits = Limits(nodes: nat, depth: nat, history: nat) {
    predicate Valid() {
      nodes >= 5 && depth >= 1 && history >= 4
    }
  }

  datatype Item = Item(news: NewsId, article: Article)

  /** One answer of the article selector, with the search cursor it leaves behind. */
  datatype Found = Found(items: seq<Item>, cursor: Cursor, exhausted: bool)

  datatype Mode = Expand | Research

  datatype Refusal = InvalidRequest | PlanLimit | LimitReached | BrokenSnapshot

  datatype Outcome = Accepted(doc: MapDoc) | Refused(why: Refusal)

  /** A field of a PATCH body: absent, present and null, or present with a value. */
  datatype Field<+T> = Absent | Null | Given(value: T)

  // ----- Trees ------------------------------------------------------------------------------

  function Ids(nodes: seq<Node>): set<NodeId> {
    set n | n in nodes :: n.id
  }

  function Visible(nodes: seq<Node>): set<NewsId> {
    set n | n in nodes :: n.news
  }

  predicate HasParent(nodes: seq<Node>, n: Node) {
    exists p :: p in nodes && n.parent == Some(p.id) && p.level + 1 == n.level && p.expanded
  }

  ghost predicate Linked(nodes: seq<Node>) {
    forall n {:trigger HasParent(nodes, n)} :: n in nodes && n.parent.Some? ==> HasParent(nodes, n)
  }

  ghost predicate DistinctIds(nodes: seq<Node>) {
    forall i, j :: 0 <= i < j < |nodes| ==> nodes[i].id != nodes[j].id
  }

  ghost predicate DistinctNews(nodes: seq<Node>) {
    forall i, j :: 0 <= i < j < |nodes| ==> nodes[i].news != nodes[j].news
  }

  predicate HasRoot(nodes: seq<Node>, root: NodeId) {
    exists r :: r in nodes && r.id == root && r.parent.None?
  }

  /** Every node hangs one level below an expanded node, except the one root at level 0. */
  ghost predicate Tree(nodes: seq<Node>, root: Option<NodeId>, next: nat) {
    && DistinctIds(nodes)
    && DistinctNews(nodes)
    && (forall n :: n in nodes ==> n.id < next)
    && (forall n :: n in nodes && n.parent.None? ==> root == Some(n.id) && n.level == 0)
    && Linked(nodes)
    && (nodes != [] ==> root.Some?)
    && (root.Some? ==> HasRoot(nodes, root.value))
  }

  /** x lies exactly k parent links below p. */
  ghost predicate Below(nodes: seq<Node>, p: NodeId, x: NodeId, k: nat)
    decreases k
  {
    k > 0 && exists n :: n in nodes && n.id == x && n.parent.Some?
                         && (if k == 1 then n.parent.value == p else Below(nodes, p, n.parent.value, k - 1))
  }

  ghost predicate IsDescendant(nodes: seq<Node>, p: NodeId, x: NodeId) {
    exists k: nat :: Below(nodes, p, x, k)
  }

  ghost function Descendants(nodes: seq<Node>, p: NodeId): set<NodeId> {
    set n | n in nodes && IsDescendant(nodes, p, n.id) :: n.id
  }

  function Without(nodes: seq<Node>, gone: set<NodeId>): seq<Node> {
    if nodes == [] then [] else
      var n := nodes[|nodes| - 1];
      var rest := Without(nodes[..|nodes| - 1], gone);
      if n.id in gone then rest else rest + [n]
  }

  function WithoutBranches(branches: seq<Branch>, gone: set<NodeId>): seq<Branch> {
    if branches == [] then [] else
      var b := branches[|branches| - 1];
      var rest := WithoutBranches(branches[..|branches| - 1], gone);
      if b.parent in gone then rest else rest + [b]
  }

  /** The ids of p's children, in document order. */
  function ChildIds(nodes: seq<Node>, p: NodeId): seq<NodeId> {
    if nodes == [] then [] else
      var n := nodes[|nodes| - 1];
      var rest := ChildIds(nodes[..|nodes| - 1], p);
      if n.parent == Some(p) then rest + [n.id] else rest
  }

  function Marked(n: Node, p: NodeId): Node {
    if n.id == p then n.(expanded := true) else n
  }

  function MarkExpanded(nodes: seq<Node>, p: NodeId): seq<Node> {
    if nodes == [] then [] else
      MarkExpanded(nodes[..|nodes| - 1], p) + [Marked(nodes[|nodes| - 1], p)]
  }

  function MaxBatch(nodes: seq<Node>): nat {
    if nodes == [] then 0 else Max(MaxBatch(nodes[..|nodes| - 1]), nodes[|nodes| - 1].batch)
  }

  /** Fresh child nodes for the items, numbered from `next` on. */
  function NewNodes(items: seq<Item>, next: nat, parent: Option<NodeId>, level: nat, batch: nat): seq<Node> {
    if items == [] then [] else
      var last := |items| - 1;
      NewNodes(items[..last], next, parent, level, batch)
        + [Node(next + last, items[last].news, parent, level, false, batch)]
  }

  function NewIds(next: nat, count: nat): seq<NodeId> {
    seq(count, i requires 0 <= i < count => next + i)
  }

  function Record(articles: map<NewsId, Article>, items: seq<Item>): map<NewsId, Article> {
    if items == [] then articles else
      var last := items[|items| - 1];
      Record(articles, items[..|items| - 1])[last.news := last.article]
  }

  function NewsOf(items: seq<Item>): seq<NewsId> {
    seq(|items|, i requires 0 <= i < |items| => items[i].news)
  }

  function ArticlesOf(items: seq<Item>): seq<Article> {
    seq(|items|, i requires 0 <= i < |items| => items[i].article)
  }

  function Keeping(ids: seq<NewsId>, visible: set<NewsId>): seq<NewsId> {
    if ids == [] then [] else
      var rest := Keeping(ids[..|ids| - 1], visible);
      var last := ids[|ids| - 1];
      if last in visible then rest + [last] else rest
  }

  /** The first node with the id, as `next(...)` finds it. */
  function FindNode(nodes: seq<Node>, id: NodeId): (r: Option<Node>)
    ensures r.None? <==> id !in Ids(nodes)
    ensures r.Some? ==> r.value in nodes && r.value.id == id
  {
    if nodes == [] then None
    else if nodes[0].id == id then Some(nodes[0])
    else
      assert nodes == [nodes[0]] + nodes[1..];
      FindNode(nodes[1..], id)
  }

  // ----- Creation ---------------------------------------------------------------------------

  function Summary(target: nat, items: seq<Item>, exhausted: bool): Attempt {
    Attempt(target, |items|, |items| < target, exhausted)
  }

  /** A new map: an empty one, or the root with the neighbours selected for it. */
  function Created(root: Option<Item>, found: Found): MapDoc {
    match root
    case None =>
      var none := Attempt(4, 0, true, false);
      MapDoc(1, None, [], [], none, map[], 1, map[], found.cursor, [], None, false, None, None,
             Snapshot(None, [], [], none, map[]))
    case Some(r) =>
      var attempt := Summary(4, found.items, found.exhausted);
      var nodes := [Node(1, r.news, None, 0, true, 0)] + NewNodes(found.items, 2, Some(1), 1, 0);
      var branches := [Branch(1, NewIds(2, |found.items|), attempt, attempt)];
      var history := map[1 := History(NewsOf(found.items), ArticlesOf(found.items), found.cursor)];
      MapDoc(1, Some(1), nodes, branches, attempt, history, 2 + |found.items|,
             Record(map[r.news := r.article], found.items), found.cursor, [], None, false, None, None,
             Snapshot(Some(1), nodes, branches, attempt, history))
  }

  // ----- Expansion and research ---------------------------------------------------------------

  function Target(level: nat): nat {
    if level == 0 then 4 else 3
  }

  function Remembered(doc: MapDoc, p: NodeId): History {
    if p in doc.history then doc.history[p] else History([], [], doc.context)
  }

  function HistoryFull(doc: MapDoc, limits: Limits, p: NodeId): bool {
    |Remembered(doc, p).shown| >= limits.history
  }

  /** How many neighbours the selector is asked for. */
  function Room(doc: MapDoc, limits: Limits, p: Node): int {
    Min(Target(p.level), limits.history - |Remembered(doc, p.id).shown|)
  }

  /** What the selector guarantees: at most `room` articles, none displayed already, no repeats. */
  ghost predicate Offered(doc: MapDoc, room: int, items: seq<Item>) {
    && |items| <= Max(0, room)
    && NoRepeats(NewsOf(items))
    && (forall i :: 0 <= i < |items| ==> items[i].news !in Visible(doc.nodes))
  }

  ghost function Removed(doc: MapDoc, p: NodeId, mode: Mode): set<NodeId> {
    if mode.Research? then Descendants(doc.nodes, p) else {}
  }

  /** Zero results keep the children: the attempt is recorded on the branch, or opens an empty one. */
  function RecordAttempt(branches: seq<Branch>, p: NodeId, attempt: Attempt): seq<Branch> {
    if branches == [] then [Branch(p, [], attempt, attempt)]
    else if branches[0].parent == p then [branches[0].(last := attempt)] + branches[1..]
    else [branches[0]] + RecordAttempt(branches[1..], p, attempt)
  }

  /** The document after `items` replace the removed nodes below p. */
  function Replaced(doc: MapDoc, p: Node, removed: set<NodeId>, items: seq<Item>, attempt: Attempt, h: History): MapDoc
  {
    var kept := Without(doc.nodes, removed);
    var children := NewNodes(items, doc.nextSeq, Some(p.id), p.level + 1, MaxBatch(kept) + 1);
    var nodes := MarkExpanded(kept + children, p.id);
    var ids := NewIds(doc.nextSeq, |items|);
    var selected := Keeping(doc.selected, Visible(nodes));
    var same := selected == doc.selected;
    doc.(nodes := nodes,
    branches := WithoutBranches(doc.branches, removed + {p.id}) + [Branch(p.id, ids, attempt, attempt)],
    history := (doc.history - removed)
                 [p.id := h.(shown := h.shown + NewsOf(items), previous := h.previous + ArticlesOf(items))],
    nextSeq := doc.nextSeq + |items|,
    articles := Record(doc.articles, items),
    selected := selected,
    active := if same then doc.active else None,
    lastResult := if same then doc.lastResult else None,
    panelOpen := doc.panelOpen && (same || selected != []),
    detail := if doc.detail.Some? && doc.detail.value in Visible(nodes) then doc.detail else None)
  }

  function Attempted(doc: MapDoc, p: Node, attempt: Attempt, h: History): MapDoc {
    doc.(nodes := MarkExpanded(doc.nodes, p.id),
    branches := RecordAttempt(doc.branches, p.id, attempt),
    history := doc.history[p.id := h])
  }

  ghost function Branched(doc: MapDoc, limits: Limits, parent: NodeId, mode: Mode, found: Found): Outcome {
    match FindNode(doc.nodes, parent)
    case None => Refused(InvalidRequest)
    case Some(p) =>
      if mode.Expand? == p.expanded then Refused(InvalidRequest)
      else if p.level >= limits.depth then Refused(LimitReached)
      else
        var full := HistoryFull(doc, limits, parent);
        var items := if full then [] else found.items;
        var attempt := if full then Attempt(Target(p.level), 0, true, true)
                       else Summary(Target(p.level), items, found.exhausted);
        var h := if full then Remembered(doc, parent) else Remembered(doc, parent).(cursor := found.cursor);
        var removed := Removed(doc, parent, mode);
        if |doc.nodes| - |removed| + |items| > limits.nodes then Refused(LimitReached)
        else if items == [] then Accepted(Attempted(doc, p, attempt, h))
        else Accepted(Replaced(doc, p, removed, items, attempt, h))
  }

  // ----- Selection, reset ---------------------------------------------------------------------

  /** PATCH of a map; `plan` is the session's article limit. */
  function Updated(doc: MapDoc, plan: nat, selected: Field<seq<NewsId>>, detail: Field<NewsId>,
      panel: Field<bool>): Outcome
  {
    var visible := Visible(doc.nodes);
    if selected.Null? then Refused(InvalidRequest)
    else if selected.Given? && !(Elements(selected.value) <= visible) then Refused(InvalidRequest)
    else if selected.Given? && |selected.value| > plan then Refused(PlanLimit)
    else if detail.Given? && detail.value !in visible then Refused(InvalidRequest)
    else if panel.Null? then Refused(InvalidRequest)
    else
      var chosen := if selected.Given? then selected.value else doc.selected;
      var same := Elements(chosen) == Elements(doc.selected);
      Accepted(doc.(selected := chosen,
               active := if same then doc.active else None,
               lastResult := if same then doc.lastResult else None,
               panelOpen := if panel.Given? then panel.value
                            else doc.panelOpen && !(selected.Given? && chosen == []),
               detail := match detail case Absent => doc.detail case Null => None case Given(d) => Some(d)))
  }

  /** The next id given to each node of the snapshot, in document order. */
  function Renaming(nodes: seq<Node>, next: nat): map<NodeId, NodeId> {
    if nodes == [] then map[]
    else Renaming(nodes[..|nodes| - 1], next)[nodes[|nodes| - 1].id := next + |nodes| - 1]
  }

  function RenameParent(parent: Option<NodeId>, f: map<NodeId, NodeId>): Option<NodeId> {
    if parent.Some? && parent.value in f then Some(f[parent.value]) else None
  }

  /** Every lookup the renaming makes finds its key. */
  predicate LookupsDefined(s: Snapshot) {
    && (forall b :: b in s.branches ==> b.parent in Ids(s.nodes) && Elements(b.children) <= Ids(s.nodes))
    && s.history.Keys <= Ids(s.nodes)
  }

  function RenameNodes(nodes: seq<Node>, f: map<NodeId, NodeId>): seq<Node>
    requires Ids(nodes) <= f.Keys
  {
    if nodes == [] then [] else
      var n := nodes[|nodes| - 1];
      var front := nodes[..|nodes| - 1];
      assert n in nodes;
      assert Ids(front) <= Ids(nodes);
      RenameNodes(front, f) + [n.(id := f[n.id], parent := RenameParent(n.parent, f))]
  }

  function RenameIds(ids: seq<NodeId>, f: map<NodeId, NodeId>): seq<NodeId>
    requires Elements(ids) <= f.Keys
  {
    seq(|ids|, i requires 0 <= i < |ids| => assert ids[i] in Elements(ids); f[ids[i]])
  }

  function RenameBranches(branches: seq<Branch>, f: map<NodeId, NodeId>): seq<Branch>
    requires forall b :: b in branches ==> b.parent in f && Elements(b.children) <= f.Keys
  {
    seq(|branches|, i requires 0 <= i < |branches| =>
          branches[i].(parent := f[branches[i].parent], children := RenameIds(branches[i].children, f)))
  }

  predicate Renames(h: map<NodeId, History>, f: map<NodeId, NodeId>, x: NodeId) {
    exists k :: k in h && k in f && f[k] == x
  }

  /** The history re-keyed by f: each renamed key holds what its original held. */
  ghost predicate RenamedHistory(h: map<NodeId, History>, f: map<NodeId, NodeId>, r: map<NodeId, History>) {
    && (forall k :: k in h ==> k in f && f[k] in r && r[f[k]] == h[k])
    && (forall x {:trigger Renames(h, f, x)} :: x in r ==> Renames(h, f, x))
  }

  function RenameHistory(h: map<NodeId, History>, f: map<NodeId, NodeId>, nodes: seq<Node>): map<NodeId, History> {
    if nodes == [] then map[] else
      var id := nodes[|nodes| - 1].id;
      var rest := RenameHistory(h, f, nodes[..|nodes| - 1]);
      if id in h && id in f then rest[f[id] := h[id]] else rest
  }

  lemma {:induction false} RenamingKeys(nodes: seq<Node>, next: nat)
    ensures Renaming(nodes, next).Keys == Ids(nodes)
  {
    if nodes != [] {
      var front := nodes[..|nodes| - 1];
      RenamingKeys(front, next);
      assert nodes == front + [nodes[|nodes| - 1]];
    }
  }

  function Reset(doc: MapDoc): Outcome {
    var s := doc.initial;
    if !LookupsDefined(s) then Refused(BrokenSnapshot)
    else
      var f := Renaming(s.nodes, doc.nextSeq);
      RenamingKeys(s.nodes, doc.nextSeq);
      Accepted(doc.(root := RenameParent(s.root, f),
               nodes := RenameNodes(s.nodes, f),
               branches := RenameBranches(s.branches, f),
               summary := s.summary,
               history := RenameHistory(s.history, f, s.nodes),
               nextSeq := doc.nextSeq + |s.nodes|,
               selected := [], detail := None, panelOpen := false, active := None, lastResult := None))
  }

  // ----- The invariant --------------------------------------------------------------------------

  ghost predicate DistinctParents(branches: seq<Branch>) {
    forall i, j :: 0 <= i < j < |branches| ==> branches[i].parent != branches[j].parent
  }

  predicate HasBranch(branches: seq<Branch>, id: NodeId) {
    exists b :: b in branches && b.parent == id
  }

  ghost predicate ExactChildren(nodes: seq<Node>, branches: seq<Branch>) {
    forall b :: b in branches ==> b.parent in Ids(nodes) && b.children == ChildIds(nodes, b.parent)
  }

  ghost predicate ExpandedHaveBranches(nodes: seq<Node>, branches: seq<Branch>) {
    forall n {:trigger HasBranch(branches, n.id)} :: n in nodes ==> (n.expanded <==> HasBranch(branches, n.id))
  }

  /** The branch records are exactly the expanded nodes, each with its exact child list. */
  ghost predicate BranchesMatch(nodes: seq<Node>, branches: seq<Branch>) {
    DistinctParents(branches) && ExactChildren(nodes, branches) && ExpandedHaveBranches(nodes, branches)
  }

  ghost predicate HistoryWithin(nodes: seq<Node>, history: map<NodeId, History>, limits: Limits) {
    && history.Keys <= Ids(nodes)
    && (forall k :: k in history ==> |history[k].shown| <= limits.history)
  }

  ghost predicate WithinLimits(nodes: seq<Node>, limits: Limits) {
    && |nodes| <= limits.nodes
    && (forall n :: n in nodes ==> n.level <= limits.depth)
  }

  ghost predicate GoodTree(nodes: seq<Node>, root: Option<NodeId>, branches: seq<Branch>, history: map<NodeId, History>,
      next: nat, limits: Limits)
  {
    && Tree(nodes, root, next)
    && WithinLimits(nodes, limits)
    && BranchesMatch(nodes, branches)
    && HistoryWithin(nodes, history, limits)
  }

  /** What every committed map document satisfies. */
  ghost predicate Good(doc: MapDoc, limits: Limits) {
    && GoodTree(doc.nodes, doc.root, doc.branches, doc.history, doc.nextSeq, limits)
    && GoodTree(doc.initial.nodes, doc.initial.root, doc.initial.branches, doc.initial.history, doc.nextSeq, limits)
    && Visible(doc.nodes) <= doc.articles.Keys
    && Visible(doc.initial.nodes) <= doc.articles.Keys
    && Elements(doc.selected) <= Visible(doc.nodes)
    && (doc.detail.Some? ==> doc.detail.value in Visible(doc.nodes))
  }
}
