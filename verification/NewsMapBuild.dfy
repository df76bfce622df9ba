/** The build loop of app/agents/news_map.py, and the raw positions many builds deliver. */
module NewsMapBuild {
  import opened Basics
  import opened Candidates
  import opened PoolLaws
  import opened MmrSelector
  import opened MmrLaws
  import opened NewsMap

  datatype Status = Complete | Insufficient | Partial | Expandable

  datatype Reason = NoReason | Exhausted | CandidateLimit | SearchLimit | NoSource | Interrupted

  /** A raw page that was asked for, delivered or not. */
  datatype Window = Window(start: int, size: int)

  datatype Built = Built(items: seq<Article>, status: Status, reason: Reason, windows: seq<Window>, pages: seq<Span>)

  /** A page starts at a position of the search and ends by the last one the map uses. */
  predicate Inside(w: Window) {
    1 <= w.start && 1 <= w.size && w.start + w.size - 1 <= MAX_POSITION
  }

  /** The delivered pages are those of the windows asked for, in order, but for a last one that failed. */
  ghost predicate Answered(windows: seq<Window>, pages: seq<Span>) {
    && |pages| <= |windows| <= |pages| + 1
    && (forall i :: 0 <= i < |windows| ==> Inside(windows[i]))
    && (forall i :: 0 <= i < |pages| ==> windows[i] == Window(pages[i].start, pages[i].size))
  }

  /** The cursors after these pages: the query searched goes on behind the last one, no other moves. */
  function Moved(next: map<Query, int>, keyword: Option<Query>, pages: seq<Span>): map<Query, int> {
    if keyword.None? || pages == [] then next else next[keyword.value := pages[|pages| - 1].end + 1]
  }

  /** The selector after a selection: sound, within the candidate budget, and short only when nothing remains. */
  ghost predicate Settled(j: Judge, p: Pool, known: set<Key>, budget: nat, target: int) {
    && Sound(RulesOf(j), p, known)
    && p.counts.evaluated <= budget
    && |p.selected| <= Max(0, target)
    && (|p.selected| < target ==> p.remaining == [])
  }

  lemma {:induction false} RoundSettles(j: Judge, p: Pool, known: set<Key>, budget: nat, target: int, cs: seq<Article>,
      limit: int)
    requires Sound(RulesOf(j), p, known) && p.counts.evaluated + Max(0, limit) <= budget
             && |p.selected| <= Max(0, target)
    ensures var q := Selected(j, Added(j, p, cs, Some(limit)), target);
            Settled(j, q, known, budget, target) && p.selected <= q.selected
  {
    AddedSound(j, p, known, cs, Some(limit));
    FreshIsNew(cs, p.seen, Some(limit));
    SelectedSound(j, Added(j, p, cs, Some(limit)), known, target);
  }

  // ----- What a build feeds its selector ------------------------------------------------------------------

  /** One round on these candidates. */
  function Fed(j: Judge, p: Pool, cs: seq<Article>, limit: int, target: int): Pool {
    Selected(j, Added(j, p, cs, Some(limit)), target)
  }

  /** One round on what a delivered page has to offer. */
  function PageFed(j: Judge, p: Pool, world: World, target: int, budget: nat, page: Span): Pool {
    var answer, needed := world.page(page.start, page.size), Max(0, budget - p.counts.evaluated);
    if answer.None? then p
    else Fed(j, p, Sifted(answer.value.articles, p.seen, world.admits, needed), needed, target)
  }

  function AllFed(j: Judge, p: Pool, world: World, target: int, budget: nat, pages: seq<Span>): Pool {
    if pages == [] then p
    else
      var last := |pages| - 1;
      PageFed(j, AllFed(j, p, world, target, budget, pages[..last]), world, target, budget, pages[last])
  }

  lemma {:induction false} OneMorePage(j: Judge, p: Pool, world: World, target: int, budget: nat, pages: seq<Span>,
      page: Span)
    ensures AllFed(j, p, world, target, budget, pages + [page])
            == PageFed(j, AllFed(j, p, world, target, budget, pages), world, target, budget, page)
  {
    assert (pages + [page])[..|pages|] == pages;
  }

  /** The cached rest was fed first, if anything was and there is one. */
  ghost predicate RestFed(j: Judge, before: Pool, start: Pool, rest: seq<Article>, target: int, budget: nat) {
    start == if rest == [] then before else Fed(j, before, rest, Max(0, budget - before.counts.evaluated), target)
  }

  /** The selector has been fed the cached rest, unless it is still cold, and then these pages. */
  ghost predicate FedSo(j: Judge, before: Pool, now: Pool, world: World, rest: seq<Article>, target: int, budget: nat,
      warm: bool, fed: seq<Span>)
  {
    if !warm then fed == [] && now == before
    else exists start :: RestFed(j, before, start, rest, target, budget)
                         && now == AllFed(j, start, world, target, budget, fed)
  }

  /** The selector has been fed the cached rest and these pages, all of them but for a last one that failed. */
  ghost predicate FedFrom(j: Judge, before: Pool, now: Pool, world: World, rest: seq<Article>, target: int, budget: nat,
      pages: seq<Span>)
  {
    exists warm, fed :: FedSo(j, before, now, world, rest, target, budget, warm, fed) && fed <= pages
                        && |pages| <= |fed| + 1
  }

  lemma {:induction false} FedAtFirst(j: Judge, before: Pool, world: World, rest: seq<Article>, target: int,
      budget: nat)
    ensures FedSo(j, before, before, world, rest, target, budget, rest == [], [])
  {
    if rest == [] {
      assert RestFed(j, before, before, rest, target, budget);
      assert before == AllFed(j, before, world, target, budget, []);
    }
  }

  lemma {:induction false} FedRest(j: Judge, before: Pool, now: Pool, world: World, rest: seq<Article>, target: int,
      budget: nat)
    requires rest != [] && now == Fed(j, before, rest, Max(0, budget - before.counts.evaluated), target)
    ensures FedSo(j, before, now, world, rest, target, budget, true, [])
  {
    assert RestFed(j, before, now, rest, target, budget);
    assert now == AllFed(j, now, world, target, budget, []);
  }

  lemma {:induction false} FedPage(j: Judge, before: Pool, was: Pool, now: Pool, world: World, rest: seq<Article>,
      target: int, budget: nat, fed: seq<Span>, page: Span)
    requires FedSo(j, before, was, world, rest, target, budget, true, fed)
    requires now == PageFed(j, was, world, target, budget, page)
    ensures FedSo(j, before, now, world, rest, target, budget, true, fed + [page])
  {
    var start :| RestFed(j, before, start, rest, target, budget) && was == AllFed(j, start, world, target, budget, fed);
    OneMorePage(j, start, world, target, budget, fed, page);
    assert now == AllFed(j, start, world, target, budget, fed + [page]);
  }

  /** A step has fed the selector the cached rest, or one more page. */
  ghost predicate StepFed(j: Judge, was: Pool, now: Pool, world: World, rest: seq<Article>, target: int, budget: nat,
      step: Step, pages: seq<Span>, all: seq<Span>)
  {
    match step
    case Cached => all == pages && now == Fed(j, was, rest, Max(0, budget - was.counts.evaluated), target)
    case Original(_, _) =>
      && |all| == |pages| + 1 && all == pages + [all[|pages|]]
      && now == PageFed(j, was, world, target, budget, all[|pages|])
  }

  lemma {:induction false} StepIsFed(j: Judge, before: Pool, was: Pool, now: Pool, world: World, rest: seq<Article>,
      target: int, budget: nat, step: Step, pages: seq<Span>, all: seq<Span>, warm: bool)
    requires (step == Cached <==> !warm) && (step == Cached ==> rest != [])
    requires FedSo(j, before, was, world, rest, target, budget, warm, pages)
    requires StepFed(j, was, now, world, rest, target, budget, step, pages, all)
    ensures FedSo(j, before, now, world, rest, target, budget, true, all)
  {
    match step
    case Cached => FedRest(j, before, now, world, rest, target, budget);
    case Original(_, _) => FedPage(j, before, was, now, world, rest, target, budget, pages, all[|pages|]);
  }

  /** Nothing the build asks for fails. */
  ghost predicate Flawless(world: World) {
    && world.centre && (forall a :: world.vector(a)) && (forall start, size :: world.page(start, size).Some?)
    && (forall start :: world.inspects(start)) && (forall start :: world.stores(start))
  }

  /** One round: evaluate up to `limit` candidates, then continue the selection. */
  method Round(selector: NewsMapSelector, cs: seq<Article>, limit: int, target: int, world: World,
      ghost known: set<Key>, ghost budget: nat) returns (complete: bool)
    requires Sound(RulesOf(selector.judge), selector.View(), known)
    requires selector.evaluated + Max(0, limit) <= budget && |selector.selected| <= Max(0, target)
    modifies selector
    ensures complete ==> Settled(selector.judge, selector.View(), known, budget, target)
    ensures !complete ==> selector.View() == old(selector.View()) && !Flawless(world)
    ensures complete ==> selector.View() == Fed(selector.judge, old(selector.View()), cs, limit, target)
    ensures old(selector.selected) <= selector.selected
  {
    ghost var before := selector.View();
    var added := selector.Add(cs, Some(limit), world.centre, world.vector);
    if added.None? {
      return false;
    }
    var shown := selector.Select(target);
    RoundSettles(selector.judge, before, known, budget, target, cs, limit);
    return true;
  }

  function InRange(a: Article): bool {
    a.rank.None? || a.rank.value <= MAX_POSITION
  }

  datatype Ending = Going | Stopped(status: Status, reason: Reason)

  /** Where the steps of an expansion are: at the cached rest, at a page from the cursor on, or over. */
  ghost predicate At(e: Expansion, step: Option<Step>)
    reads e, e.context
  {
    && e.Valid()
    && match step
       case None => e.stage.Finished?
       case Some(Cached) => e.stage == Unstarted && !e.exhausted
       case Some(s) => e.Yielded(s)
  }

  /** The last page was shorter than asked for, or reached the number of hits. */
  predicate RunDry(world: World, pages: seq<Span>) {
    && pages != []
    && var last := pages[|pages| - 1];
       var answer := world.page(last.start, last.size);
       answer.Some? && (last.end < last.start + last.size - 1 || last.end >= answer.value.total)
  }

  /** What delivered pages say about the cursors `now` of a context, which were `next` before. */
  ghost predicate Covered(now: map<Query, int>, rawEnd: nat, keyword: Option<Query>, exhausted: bool, world: World,
      pages: seq<Span>, next: map<Query, int>)
  {
    && now == Moved(next, keyword, pages)
    && (keyword.Some? ==> Chain(pages, CursorIn(next, rawEnd, keyword.value), CursorIn(now, rawEnd, keyword.value)))
    && (keyword.None? ==> pages == [])
    && (forall s :: s in pages ==> Bounded(s))
    && (exhausted ==> RunDry(world, pages))
  }

  /** What the pages delivered so far say about the cursors, which were `next` before. */
  ghost predicate Delivered(e: Expansion, world: World, pages: seq<Span>, next: map<Query, int>)
    reads e, e.context
  {
    Covered(e.context.next, e.context.rawEnd, e.keyword, e.exhausted, world, pages, next)
  }

  /** One more page: from the cursor on, which moves to right behind it. */
  lemma {:induction false} CoveredMore(now: map<Query, int>, rawEnd: nat, q: Query, exhausted: bool, dry: bool,
      world: World, pages: seq<Span>, next: map<Query, int>, span: Span)
    requires Covered(now, rawEnd, Some(q), exhausted, world, pages, next)
    requires Bounded(span) && span.start == CursorIn(now, rawEnd, q) && (dry ==> RunDry(world, pages + [span]))
    ensures Covered(now[q := span.end + 1], rawEnd, Some(q), dry, world, pages + [span], next)
  {
    MovedMore(next, q, pages, span);
    assert (pages + [span])[..|pages + [span]| - 1] == pages;
  }

  lemma {:induction false} MovedMore(next: map<Query, int>, q: Query, pages: seq<Span>, span: Span)
    ensures Moved(next, Some(q), pages + [span]) == Moved(next, Some(q), pages)[q := span.end + 1]
  {
  }

  lemma {:induction false} AnsweredMore(windows: seq<Window>, pages: seq<Span>, w: Window, all: seq<Span>)
    requires Answered(windows, pages) && |windows| == |pages| && Inside(w)
    requires all == pages || (all != [] && all == pages + [Span(w.start, w.size, all[|all| - 1].end)])
    ensures Answered(windows + [w], all)
  {
  }

  /** Asks for one page of the search; it is noted at once, and again when it is there. */
  method FetchPage(e: Expansion, start: int, size: int, world: World, selector: NewsMapSelector, needed: nat,
      windows: seq<Window>, pages: seq<Span>, ghost next: map<Query, int>)
    returns (found: Option<seq<Article>>, asked: seq<Window>, all: seq<Span>)
    requires world.Valid() && At(e, Some(Original(start, size))) && Delivered(e, world, pages, next)
    requires Answered(windows, pages) && |windows| == |pages|
    modifies e`rawEnd, e`exhausted, e.context
    ensures e.Valid() && Delivered(e, world, all, next) && (found.Some? ==> e.Searched())
    ensures asked == windows + [Window(start, size)] && Answered(asked, all)
    ensures var page := world.page(start, size);
            && all == pages + (if page.Some? then [Span(start, size, page.value.end)] else [])
            && (found.Some? ==>
                  page.Some? && found.value == Sifted(page.value.articles, selector.seen, world.admits, needed))
    ensures found.None? ==> !Flawless(world)
  {
    ghost var now := e.context.next;
    var span;
    span, found := e.Search(world, start, size, selector, needed);
    asked, all := windows + [Window(start, size)], pages + if span.Some? then [span.value] else [];
    if span.Some? {
      CoveredMore(now, e.context.rawEnd, e.keyword.value, false, e.exhausted, world, pages, next, span.value);
    }
    AnsweredMore(windows, pages, Window(start, size), all);
  }

  /** The articles of one step. */
  method Fetch(e: Expansion, step: Step, rest: seq<Article>, world: World, selector: NewsMapSelector, needed: nat,
      windows: seq<Window>, pages: seq<Span>, ghost next: map<Query, int>)
    returns (found: Option<seq<Article>>, asked: seq<Window>, all: seq<Span>)
    requires world.Valid() && At(e, Some(step)) && Delivered(e, world, pages, next)
    requires Answered(windows, pages) && |windows| == |pages|
    modifies e`rawEnd, e`exhausted, e.context
    ensures e.Valid() && Delivered(e, world, all, next)
    ensures Answered(asked, all) && |asked| == |windows| + if step.Original? then 1 else 0
    ensures pages <= all && |all| <= |pages| + 1
    ensures found.Some? ==> |asked| == |all| && e.Searched() && (e.stage == Unstarted ==> !e.exhausted)
    ensures found.None? ==> !Flawless(world)
    ensures match step
            case Cached => found == Some(rest) && all == pages
            case Original(start, size) =>
              && (world.page(start, size).Some? ==>
                    all == pages + [Span(start, size, world.page(start, size).value.end)])
              && (found.Some? ==>
                    var page := world.page(start, size);
                    page.Some? && found.value == Sifted(page.value.articles, selector.seen, world.admits, needed))
  {
    match step
    case Cached => return Some(rest), windows, pages;
    case Original(start, size) =>
      found, asked, all := FetchPage(e, start, size, world, selector, needed, windows, pages, next);
  }

  /** One step of an expansion: its articles, when there are any, and a round on them. */
  method Advance(selector: NewsMapSelector, e: Expansion, step: Step, rest: seq<Article>, target: int, budget: nat,
      world: World, windows: seq<Window>, pages: seq<Span>, ghost known: set<Key>, ghost next: map<Query, int>)
    returns (complete: bool, asked: seq<Window>, all: seq<Span>)
    requires world.Valid() && At(e, Some(step)) && Delivered(e, world, pages, next)
    requires Answered(windows, pages) && |windows| == |pages|
    requires Settled(selector.judge, selector.View(), known, budget, target)
    modifies selector, e`rawEnd, e`exhausted, e.context
    ensures e.Valid() && Delivered(e, world, all, next)
    ensures Answered(asked, all) && |asked| == |windows| + if step.Original? then 1 else 0
    ensures complete ==> |asked| == |all| && e.Searched() && (e.stage == Unstarted ==> !e.exhausted)
    ensures Settled(selector.judge, selector.View(), known, budget, target)
            && old(selector.selected) <= selector.selected
    ensures !complete ==> selector.View() == old(selector.View()) && !Flawless(world)
    ensures pages <= all && |all| <= |pages| + 1
    ensures complete ==>
              StepFed(selector.judge, old(selector.View()), selector.View(), world, rest, target, budget, step, pages,
                      all)
  {
    var needed, found := budget - selector.evaluated, None;
    found, asked, all := Fetch(e, step, rest, world, selector, needed, windows, pages, next);
    if found.None? {
      return false, asked, all;
    }
    complete := Round(selector, found.value, needed, target, world, known, budget);
  }

  /** What a finished build promises about its items, its budgets and its verdict. */
  ghost predicate Honest(b: Built, p: Pool, j: Judge, known: set<Key>, target: int, limits: Limits) {
    && Settled(j, p, known, limits.candidates, target)
    && b.items == p.selected
    && (b.status.Complete? <==> |b.items| >= target)
    && Answered(b.windows, b.pages) && |b.windows| <= limits.searches
    && (b.reason.CandidateLimit? ==> p.counts.evaluated == limits.candidates)
  }

  /** Every window is noted, and every page but for a last one whose round failed was fed to the selector. */
  ghost predicate Noted(windows: seq<Window>, pages: seq<Span>, fed: seq<Span>, ending: Ending, limits: Limits) {
    && Answered(windows, pages) && |windows| <= limits.searches && fed <= pages && |pages| <= |fed| + 1
    && (ending.Going? ==> |windows| == |pages| && fed == pages)
  }

  /** Why an expansion has stopped. */
  ghost predicate Justified(ending: Ending, p: Pool, target: int, limits: Limits, windows: seq<Window>, world: World) {
    match ending
    case Going => |p.selected| < target
    case Stopped(status, reason) =>
      match status
      case Complete => reason.NoReason? && |p.selected| >= target
      case Partial => reason.Interrupted? && |p.selected| < target && !Flawless(world)
      case Insufficient =>
        && |p.selected| < target
        && ((reason.CandidateLimit? && p.counts.evaluated == limits.candidates)
            || (reason.SearchLimit? && |windows| == limits.searches))
      case Expandable => false
  }

  /** An expansion between two steps: what was fed, delivered and noted so far, and why it goes on or has stopped. */
  ghost predicate Underway(j: Judge, before: Pool, now: Pool, known: set<Key>, rest: seq<Article>, target: int,
      limits: Limits, world: World, windows: seq<Window>, pages: seq<Span>, ending: Ending, warm: bool, fed: seq<Span>)
  {
    && Noted(windows, pages, fed, ending, limits)
    && Settled(j, now, known, limits.candidates, target)
    && FedSo(j, before, now, world, rest, target, limits.candidates, warm, fed)
    && Justified(ending, now, target, limits, windows, world)
  }

  /** Why a build that expanded ends as it does. */
  ghost predicate Explained(b: Built, evaluated: nat, world: World, limits: Limits, context: SearchContext,
      keyword: Option<Query>, supported: bool)
    reads context
  {
    match b.reason
    case NoReason => b.status.Complete?
    case Interrupted => b.status.Partial? && !Flawless(world)
    case CandidateLimit => b.status.Insufficient? && evaluated == limits.candidates
    case SearchLimit =>
      && b.status.Insufficient?
      && (|b.windows| == limits.searches || (keyword.Some? && context.Cursor(keyword.value) > 50))
    case NoSource => b.status.Insufficient? && b.windows == [] && (!supported || keyword.None?)
    case Exhausted => b.status.Insufficient? && (!supported || keyword.None? || RunDry(world, b.pages))
  }

  /** One step within the budgets, and whether it ends the expansion. */
  method TakeStep(selector: NewsMapSelector, e: Expansion, step: Step, rest: seq<Article>, target: int, limits: Limits,
      world: World, windows: seq<Window>, pages: seq<Span>, ghost known: set<Key>, ghost next: map<Query, int>,
      ghost before: Pool, ghost warm: bool, ghost fed: seq<Span>)
    returns (ending: Ending, asked: seq<Window>, all: seq<Span>, ghost hot: bool, ghost done: seq<Span>)
    requires world.Valid() && At(e, Some(step)) && Delivered(e, world, pages, next)
    requires Underway(selector.judge, before, selector.View(), known, rest, target, limits, world, windows, pages,
                      Going, warm, fed)
    requires (step == Cached <==> !warm) && (step == Cached ==> rest != [])
    requires step.Original? ==> |windows| < limits.searches
    modifies selector, e`rawEnd, e`exhausted, e.context
    ensures e.Valid() && Delivered(e, world, all, next)
    ensures Underway(selector.judge, before, selector.View(), known, rest, target, limits, world, asked, all, ending,
                     hot, done)
    ensures ending.Going? ==> hot && e.Searched() && (e.stage == Unstarted ==> !e.exhausted)
    ensures old(selector.selected) <= selector.selected
  {
    var complete;
    ghost var was := selector.View();
    complete, asked, all :=
      Advance(selector, e, step, rest, target, limits.candidates, world, windows, pages, known, next);
    hot, done := warm, fed;
    if !complete {
      ending := Stopped(Partial, Interrupted);
      return;
    }
    StepIsFed(selector.judge, before, was, selector.View(), world, rest, target, limits.candidates, step, pages, all,
              warm);
    hot, done := true, all;
    ending := if |selector.selected| >= target then Stopped(Complete, NoReason) else Going;
  }

  /** A step when the budgets allow it, and where to go from there. */
  method Proceed(selector: NewsMapSelector, e: Expansion, step: Step, rest: seq<Article>, target: int, limits: Limits,
      world: World, windows: seq<Window>, pages: seq<Span>, ghost known: set<Key>, ghost next: map<Query, int>,
      ghost before: Pool, ghost warm: bool, ghost fed: seq<Span>)
    returns (ending: Ending, following: Option<Step>, asked: seq<Window>, all: seq<Span>, ghost hot: bool,
      ghost done: seq<Span>)
    requires world.Valid() && At(e, Some(step)) && Delivered(e, world, pages, next)
    requires Underway(selector.judge, before, selector.View(), known, rest, target, limits, world, windows, pages,
                      Going, warm, fed)
    requires (step == Cached <==> !warm) && (step == Cached ==> rest != [])
    modifies selector, e, e.context
    ensures e.Valid() && Delivered(e, world, all, next)
    ensures Underway(selector.judge, before, selector.View(), known, rest, target, limits, world, asked, all, ending,
                     hot, done)
    ensures ending.Going? ==> hot && At(e, following) && following != Some(Cached) && e.Left() < old(e.Left())
    ensures ending.Stopped? ==> e.Left() == old(e.Left())
    ensures old(selector.selected) <= selector.selected
  {
    ending, following, asked, all, hot, done := Going, Some(step), windows, pages, warm, fed;
    if selector.evaluated >= limits.candidates {
      ending := Stopped(Insufficient, CandidateLimit);
    } else if step.Original? && |windows| >= limits.searches {
      ending := Stopped(Insufficient, SearchLimit);
    } else {
      ending, asked, all, hot, done :=
        TakeStep(selector, e, step, rest, target, limits, world, windows, pages, known, next, before, warm, fed);
      if ending.Going? {
        following := e.Next();
      }
    }
  }

  /**
   Expands while the selection is short. Every path out leaves the selection settled, the budgets
   kept, and the pages delivered in one chain from the cursor on.
   */
  method Expand(selector: NewsMapSelector, e: Expansion, rest: seq<Article>, target: int, limits: Limits, world: World,
      ghost known: set<Key>, ghost next: map<Query, int>) returns (b: Built)
    requires limits.Valid() && world.Valid()
    requires e.Valid() && e.stage == Unstarted && !e.exhausted && Delivered(e, world, [], next)
    requires Settled(selector.judge, selector.View(), known, limits.candidates, target) && |selector.selected| < target
    modifies selector, e, e.context
    ensures Honest(b, selector.View(), selector.judge, known, target, limits) && !b.status.Expandable?
    ensures Delivered(e, world, b.pages, next)
    ensures FedFrom(selector.judge, old(selector.View()), selector.View(), world, rest, target, limits.candidates,
                    b.pages)
    ensures Explained(b, selector.evaluated, world, limits, e.context, e.keyword, e.supported)
    ensures b.reason.NoSource? ==> rest == []
    ensures old(selector.selected) <= selector.selected
  {
    var windows, pages, ending := [], [], Going;
    ghost var before, warm, fed := selector.View(), rest == [], [];
    FedAtFirst(selector.judge, before, world, rest, target, limits.candidates);
    var step := e.First(rest);
    var source := step.Some?;
    while step.Some? && ending.Going?
      invariant e.Valid() && Delivered(e, world, pages, next)
      invariant ending.Going? ==> At(e, step) && (step == Some(Cached) <==> !warm)
      invariant Underway(selector.judge, before, selector.View(), known, rest, target, limits, world, windows, pages,
                         ending, warm, fed)
      invariant old(selector.selected) <= selector.selected
      invariant !source ==> step.None? && windows == [] && rest == []
      decreases e.Left(), if ending.Going? then 1 else 0
    {
      ending, step, windows, pages, warm, fed :=
        Proceed(selector, e, step.value, rest, target, limits, world, windows, pages, known, next, before, warm, fed);
    }
    var reason := if e.rawEnd >= MAX_POSITION then SearchLimit else if !source then NoSource else Exhausted;
    if ending.Going? {
      ending := Stopped(Insufficient, reason);
    }
    b := Built(selector.selected, ending.status, ending.reason, windows, pages);
  }

  /** What a build starts from: the candidates offered that are not known yet, up to the last position the map uses. */
  function Stock(offered: seq<Article>, known: set<Key>): seq<Article> {
    Those(Those(offered, NewTo(known), true), InRange, true)
  }

  /** Every candidate without a known key and without a rank above 50 is in stock, as often as it is offered. */
  lemma {:induction false} StockHolds(offered: seq<Article>, known: set<Key>, a: Article)
    ensures multiset(Stock(offered, known))[a]
            == if Keys(a) !! known && (a.rank.None? || a.rank.value <= 50) then multiset(offered)[a] else 0
  {
    ThoseMultiplicity(offered, NewTo(known), true, a);
    ThoseMultiplicity(Those(offered, NewTo(known), true), InRange, true, a);
  }

  /** The first round takes the stock up to right before the first unique candidate that is one too many. */
  ghost predicate FirstBatch(stock: seq<Article>, centre: set<Key>, initial: nat, consumed: nat) {
    && consumed <= |stock| && |Fresh(stock[..consumed], centre, None)| <= initial
    && (consumed < |stock| ==> var taken := Fresh(stock[..consumed], centre, None);
                               |taken| == initial && Unseen(stock[consumed], centre + KeysOf(taken)))
  }

  /** What a build without expansion says, with `rest` still in stock and the search of the query at `cursor`. */
  ghost predicate LeftAt(b: Built, evaluated: nat, rest: seq<Article>, limits: Limits, cursor: Option<int>) {
    && b.windows == [] && b.pages == [] && b.reason.NoReason?
    && (b.status.Expandable? <==>
          && evaluated < limits.candidates
          && (rest != [] || (cursor.Some? && cursor.value <= 50 && limits.searches > 0)))
  }

  /** Where a search for the order would start, if there can be one. */
  function Reach(o: Order, next: map<Query, int>, rawEnd: nat): Option<int> {
    if o.supported && o.keyword.Some? then Some(CursorIn(next, rawEnd, o.keyword.value)) else None
  }

  /** The first selection of a build, after `consumed` articles of the stock. */
  function First(o: Order, consumed: nat): (first: Pool)
    requires consumed <= |Stock(o.offered, o.centre + o.excluded)|
  {
    var known := o.centre + o.excluded;
    Fed(o.judge, Empty(known), Stock(o.offered, known)[..consumed], o.limits.initial, o.target)
  }

  /**
   A build in its order: the first batch of the stock, and while that gives too few, the rest of it and
   then one page of the search after the other.
   */
  ghost predicate BuiltFrom(o: Order, b: Built, now: Pool, cursor: Option<int>, consumed: nat) {
    var stock := Stock(o.offered, o.centre + o.excluded);
    && FirstBatch(stock, o.centre, o.limits.initial, consumed)
    && var first := First(o, consumed);
       if |first.selected| >= o.target then now == first && b.windows == [] && b.status.Complete?
       else if !o.expand then now == first && LeftAt(b, first.counts.evaluated, stock[consumed..], o.limits, cursor)
       else
         && FedFrom(o.judge, first, now, o.world, stock[consumed..], o.target, o.limits.candidates, b.pages)
         && (b.reason.NoSource? ==> consumed == |stock|)
  }

  /** What one build is asked for. */
  datatype Order = Order(judge: Judge, centre: set<Key>, excluded: set<Key>, offered: seq<Article>, target: int,
                         expand: bool, limits: Limits, world: World, keyword: Option<Query>, supported: bool)
  {
    ghost predicate Valid() {
      limits.Valid() && world.Valid()
    }
  }

  /** The first round; it fails only when something the build asks for does. */
  method Begin(o: Order)
    returns (complete: bool, selector: NewsMapSelector, rest: seq<Article>, ghost consumed: nat)
    requires o.Valid()
    ensures fresh(selector) && selector.judge == o.judge
    ensures !complete ==> !Flawless(o.world)
    ensures var stock := Stock(o.offered, o.centre + o.excluded);
            FirstBatch(stock, o.centre, o.limits.initial, consumed) && rest == stock[consumed..]
    ensures complete ==>
              && selector.View() == First(o, consumed)
              && Settled(o.judge, selector.View(), o.centre + o.excluded, o.limits.candidates, o.target)
  {
    ghost var known := o.centre + o.excluded;
    selector := new NewsMapSelector(o.judge, o.centre + o.excluded);
    NothingYet(RulesOf(o.judge), selector.View(), known);
    var stock := Stock(o.offered, o.centre + o.excluded);
    var end := InitialEnd(stock, o.centre, o.limits.initial);
    consumed, rest := end, stock[end..];
    complete := Round(selector, stock[..end], o.limits.initial, o.target, o.world, known, o.limits.candidates);
  }

  /** The selection after the first round goes on to an expansion, or says whether one is worth while. */
  method Continue(selector: NewsMapSelector, context: SearchContext, o: Order, rest: seq<Article>)
    returns (b: Built)
    requires o.Valid()
    requires Settled(selector.judge, selector.View(), o.centre + o.excluded, o.limits.candidates, o.target)
    requires |selector.selected| < o.target
    modifies selector, context
    ensures Honest(b, selector.View(), selector.judge, o.centre + o.excluded, o.target, o.limits)
    ensures if o.expand then
              && FedFrom(selector.judge, old(selector.View()), selector.View(), o.world, rest, o.target,
                         o.limits.candidates, b.pages)
              && (b.reason.NoSource? ==> rest == [])
              && Explained(b, selector.evaluated, o.world, o.limits, context, o.keyword, o.supported)
            else
              && selector.View() == old(selector.View())
              && LeftAt(b, selector.evaluated, rest, o.limits, Reach(o, old(context.next), context.rawEnd))
    ensures forall s :: s in b.pages ==> Bounded(s)
    ensures o.keyword.None? ==> b.pages == []
    ensures context.next == Moved(old(context.next), o.keyword, b.pages)
    ensures o.keyword.Some? ==>
              Chain(b.pages, old(context.Cursor(o.keyword.value)), context.Cursor(o.keyword.value))
  {
    var e := new Expansion(context, o.keyword, o.supported, o.limits.pageSize);
    if o.expand {
      b := Expand(selector, e, rest, o.target, o.limits, o.world, o.centre + o.excluded, context.next);
    } else {
      var step := e.First(rest);
      var more := selector.evaluated < o.limits.candidates && step.Some?
                  && (step.value.Cached? || o.limits.searches > 0);
      b := Built(selector.selected, if more then Expandable else Insufficient, NoReason, [], []);
    }
  }

  /**
   A whole build: the first candidates of the stock, then expansion while the selection is short.
   `None` is a first round without a valid result; it leaves the context alone.
   */
  method Build(context: SearchContext, o: Order) returns (built: Option<Built>, selector: NewsMapSelector)
    requires o.Valid()
    modifies context
    ensures fresh(selector) && selector.judge == o.judge
    ensures built.None? ==> context.next == old(context.next) && !Flawless(o.world)
    ensures built.Some? ==> var b := built.value;
                            && Honest(b, selector.View(), o.judge, o.centre + o.excluded, o.target, o.limits)
                            && (exists n ::
                                  BuiltFrom(o, b, selector.View(), Reach(o, old(context.next), context.rawEnd), n))
                            && (forall s :: s in b.pages ==> Bounded(s))
                            && (o.keyword.None? ==> b.pages == [])
                            && context.next == Moved(old(context.next), o.keyword, b.pages)
                            && (o.keyword.Some? ==>
                                  Chain(b.pages, old(context.Cursor(o.keyword.value)), context.Cursor(o.keyword.value)))
                            && (forall i, k :: 0 <= i < k < |b.items| ==> b.items[i].id != b.items[k].id)
                            && (forall a :: a in b.items ==> ById(a.id) !in o.centre + o.excluded)
    ensures built.Some? && o.expand ==>
              Explained(built.value, selector.evaluated, o.world, o.limits, context, o.keyword, o.supported)
  {
    ghost var cursor := Reach(o, context.next, context.rawEnd);
    var complete, rest;
    ghost var consumed;
    complete, selector, rest, consumed := Begin(o);
    if !complete {
      return None, selector;
    }
    var b := Built(selector.selected, Complete, NoReason, [], []);
    if |selector.selected| < o.target {
      b := Continue(selector, context, o, rest);
    }
    assert BuiltFrom(o, b, selector.View(), cursor, consumed);
    DisplayedAreNew(RulesOf(o.judge), selector.View(), o.centre + o.excluded);
    return Some(b), selector;
  }

  // ----- Raw positions --------------------------------------------------------------------------------

  predicate Covers(s: Span, position: int) {
    s.start <= position <= s.end
  }

  lemma {:induction false} ChainCovers(spans: seq<Span>, from: int, to: int, position: int)
    requires Chain(spans, from, to) && forall s :: s in spans ==> Bounded(s)
    ensures from <= to
    ensures from <= position < to <==> exists i :: 0 <= i < |spans| && Covers(spans[i], position)
    ensures forall i :: 0 <= i < |spans| ==> from <= spans[i].start && spans[i].end < to
    ensures forall i, k :: 0 <= i < k < |spans| ==> spans[i].end < spans[k].start
  {
    if spans != [] {
      var last := |spans| - 1;
      var front := spans[..last];
      assert forall s :: s in front ==> s in spans;
      assert Bounded(spans[last]);
      ChainCovers(front, from, spans[last].start, position);
      if exists i :: 0 <= i < last && Covers(front[i], position) {
        var i :| 0 <= i < last && Covers(front[i], position);
        assert Covers(spans[i], position);
      }
      if Covers(spans[last], position) {
      } else if i :| 0 <= i < |spans| && Covers(spans[i], position) {
        assert Covers(front[i], position);
      }
    }
  }

  predicate Once(spans: seq<Span>, position: int) {
    && (exists i :: 0 <= i < |spans| && Covers(spans[i], position))
    && (forall i, k :: 0 <= i < |spans| && 0 <= k < |spans| ==>
          (Covers(spans[i], position) && Covers(spans[k], position) ==> i == k))
  }

  predicate Never(spans: seq<Span>, position: int) {
    forall i :: 0 <= i < |spans| ==> !Covers(spans[i], position)
  }

  /** The positions from `from` up to before `to` are delivered once each, no others, and none past the last. */
  ghost predicate DeliveredOnce(spans: seq<Span>, from: int, to: int) {
    forall position ::
      if from <= position < to then Once(spans, position) && 1 <= position <= 50 else Never(spans, position)
  }

  /** Pages that follow each other deliver every raw position between two cursors exactly once. */
  lemma {:induction false} PositionsDeliveredOnce(spans: seq<Span>, from: int, to: int)
    requires Chain(spans, from, to) && forall s :: s in spans ==> Bounded(s)
    ensures DeliveredOnce(spans, from, to)
  {
    forall position
      ensures if from <= position < to then Once(spans, position) && 1 <= position <= 50 else Never(spans, position)
    {
      ChainCovers(spans, from, to, position);
      if from <= position < to {
        var i :| 0 <= i < |spans| && Covers(spans[i], position);
        assert Bounded(spans[i]);
      }
    }
  }

  // ----- Many builds on one search context ------------------------------------------------------------

  /** The pages of a query that a build delivered. */
  function PagesOf(o: Order, built: Option<Built>, q: Query): seq<Span> {
    if o.keyword == Some(q) && built.Some? then built.value.pages else []
  }

  /** The pages of a query that these builds delivered, one build after the other. */
  function Raw(orders: seq<Order>, results: seq<Option<Built>>, q: Query): seq<Span>
    requires |orders| == |results|
  {
    if orders == [] then [] else
      var last := |orders| - 1;
      Raw(orders[..last], results[..last], q) + PagesOf(orders[last], results[last], q)
  }

  ghost predicate Linked(spans: seq<Span>, from: int, to: int) {
    Chain(spans, from, to) && forall s :: s in spans ==> Bounded(s)
  }

  lemma {:induction false} ChainJoined(a: seq<Span>, b: seq<Span>, x: int, y: int, z: int)
    requires Chain(a, x, y) && Chain(b, y, z)
    ensures Chain(a + b, x, z)
  {
    if b == [] {
      assert a + b == a;
    } else {
      ChainJoined(a, b[..|b| - 1], x, y, b[|b| - 1].start);
      assert (a + b)[..|a + b| - 1] == a + b[..|b| - 1];
    }
  }

  lemma {:induction false} LinkedFurther(orders: seq<Order>, results: seq<Option<Built>>, o: Order,
      built: Option<Built>, q: Query, x: int, y: int, z: int)
    requires |orders| == |results|
    requires Linked(Raw(orders, results, q), x, y) && Linked(PagesOf(o, built, q), y, z)
    ensures Linked(Raw(orders + [o], results + [built], q), x, z)
  {
    assert (orders + [o])[..|orders|] == orders && (results + [built])[..|results|] == results;
    ChainJoined(Raw(orders, results, q), PagesOf(o, built, q), x, y, z);
  }

  /**
   Builds that share a search context, one after the other: each query's raw positions come in order, so
   those between its old cursor and its new one were delivered once each, over all the builds together.
   */
  method BuildAll(context: SearchContext, orders: seq<Order>) returns (results: seq<Option<Built>>)
    requires forall o :: o in orders ==> o.Valid()
    modifies context
    ensures |results| == |orders|
    ensures forall q :: DeliveredOnce(Raw(orders, results, q), old(context.Cursor(q)), context.Cursor(q))
  {
    results := [];
    for i := 0 to |orders|
      invariant |results| == i
      invariant forall q :: Linked(Raw(orders[..i], results, q), old(context.Cursor(q)), context.Cursor(q))
    {
      var o := orders[i];
      assert o in orders;
      ghost var before := context.next;
      var built, selector := Build(context, o);
      forall q ensures Linked(Raw(orders[..i] + [o], results + [built], q), old(context.Cursor(q)), context.Cursor(q)) {
        LinkedFurther(orders[..i], results, o, built, q, old(context.Cursor(q)), CursorIn(before, context.rawEnd, q),
                      context.Cursor(q));
      }
      assert orders[..i + 1] == orders[..i] + [o];
      results := results + [built];
    }
    assert orders[..|orders|] == orders;
    forall q ensures DeliveredOnce(Raw(orders, results, q), old(context.Cursor(q)), context.Cursor(q)) {
      PositionsDeliveredOnce(Raw(orders, results, q), old(context.Cursor(q)), context.Cursor(q));
    }
  }
}
