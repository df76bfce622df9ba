/**
 Staged expansion of app/agents/news_map.py with a shared search context, on the embedding selector:
 the cached candidates first, then raw pages of the original query, under three budgets.
 */
module NewsMap {
  import opened Basics
  import opened Candidates
  import opened PoolLaws
  import opened MmrSelector
  import opened MmrLaws

  const MAX_POSITION: nat := 50

  type Query = nat

  /** Settings, within the bounds their declarations and validator give them. */
  datatype Limits = Limits(initial: nat, candidates: nat, searches: nat, pageSize: nat) {
    predicate Valid() {
      initial <= candidates && pageSize >= 1
    }
  }

  /** A raw page: `end` is the last position it covers, `total` the number of hits. */
  datatype Page = Page(articles: seq<Article>, end: int, total: int)

  /** What the search service, the category check and the article cache answer during one build. */
  datatype World = World(page: (int, int) -> Option<Page>, admits: Article -> bool, inspects: int -> bool,
                         stores: int -> bool, centre: bool, vector: Article -> bool)
  {
    /** A page covers at most the positions that were asked for. */
    ghost predicate Valid() {
      forall start, size :: page(start, size).Some? ==> start - 1 <= page(start, size).value.end <= start + size - 1
    }
  }

  /** One page that was delivered: asked for `size` positions from `start`, got them up to `end`. */
  datatype Span = Span(start: int, size: int, end: int)

  predicate Bounded(s: Span) {
    1 <= s.start && s.start - 1 <= s.end <= s.start + s.size - 1 <= MAX_POSITION
  }

  /** Delivered pages follow each other without a gap, from position `from` up to before `to`. */
  ghost predicate Chain(spans: seq<Span>, from: int, to: int)
    decreases |spans|
  {
    if spans == [] then from == to
    else Chain(spans[..|spans| - 1], from, spans[|spans| - 1].start) && spans[|spans| - 1].end + 1 == to
  }

  /** Where the next search of a query starts, in the cursors of a context whose pool ends at `rawEnd`. */
  function CursorIn(next: map<Query, int>, rawEnd: nat, q: Query): int {
    Max(1, if q in next then next[q] else rawEnd + 1)
  }

  class SearchContext {
    const rawEnd: nat
    var next: map<Query, int>

    constructor (rawEnd: nat, next: map<Query, int>)
      ensures this.rawEnd == rawEnd && this.next == next
    {
      this.rawEnd, this.next := rawEnd, next;
    }

    /** The raw position where the next search of the query starts: behind its last page, or behind the pool. */
    function Cursor(q: Query): (cursor: int)
      reads this
      ensures if q in next then cursor == (if next[q] >= 1 then next[q] else 1) else cursor == rawEnd + 1
    {
      CursorIn(next, rawEnd, q)
    }
  }

  datatype Stage = Unstarted | Suspended(start: int, size: int) | Finished

  datatype Step = Cached | Original(start: int, size: int)

  /** The generator `steps` with its position, and the page window of `search`. */
  class Expansion {
    const context: SearchContext
    const keyword: Option<Query>
    const supported: bool
    const pageSize: nat
    var rawEnd: int
    var exhausted: bool
    var stage: Stage

    constructor (context: SearchContext, keyword: Option<Query>, supported: bool, pageSize: nat)
      ensures this.context == context && this.keyword == keyword && this.supported == supported
              && this.pageSize == pageSize
      ensures stage == Unstarted && rawEnd == 0 && !exhausted
    {
      this.context, this.keyword, this.supported, this.pageSize := context, keyword, supported, pageSize;
      rawEnd, exhausted, stage := 0, false, Unstarted;
    }

    /** While it searches, the window in progress starts at the cursor, or everything in it was delivered. */
    ghost predicate Valid()
      reads this, context
    {
      && pageSize >= 1
      && (rawEnd == 0 || (keyword.Some? && rawEnd == context.Cursor(keyword.value) - 1))
      && (stage.Finished? ==> exhausted || !supported || keyword.None? || rawEnd >= MAX_POSITION)
      && (stage.Suspended? ==>
          && keyword.Some? && 1 <= stage.start && 1 <= stage.size && stage.start + stage.size - 1 <= MAX_POSITION
          && (exhausted || context.Cursor(keyword.value) in {stage.start, stage.start + stage.size}))
    }

    /** The window a suspended generator yielded has been searched. */
    ghost predicate Searched()
      reads this, context
    {
      stage.Suspended? ==>
        && keyword.Some?
        && (|| exhausted
            || (context.Cursor(keyword.value) == stage.start + stage.size && rawEnd == stage.start + stage.size - 1))
    }

    function Left(): nat
      reads this
    {
      match stage
      case Unstarted => MAX_POSITION + 2
      case Suspended(start, size) => Max(0, MAX_POSITION + 1 - start)
      case Finished => 0
    }

    /** The cached rest, when there is one. */
    method First(rest: seq<Article>) returns (step: Option<Step>)
      requires Valid() && stage == Unstarted && !exhausted
      modifies this
      ensures Valid()
      ensures rest != [] ==> step == Some(Cached) && stage == Unstarted
      ensures rest == [] ==>
              step != Some(Cached) && (step.Some? ==> Yielded(step.value)) && (step.None? ==> stage.Finished?)
      ensures exhausted == old(exhausted)
      ensures step.None? <==> rest == [] && (!supported || keyword.None? || context.Cursor(keyword.value) > 50)
    {
      if rest != [] {
        return Some(Cached);
      }
      step := Next();
    }

    ghost predicate Yielded(step: Step)
      reads this, context
    {
      && step.Original? && keyword.Some? && stage == Suspended(step.start, step.size)
      && step.start == context.Cursor(keyword.value) && !exhausted
    }

    /** The next page to ask for: from the cursor on, and never past the last position the map uses. */
    method Next() returns (step: Option<Step>)
      requires Valid() && Searched() && (stage.Unstarted? ==> !exhausted)
      modifies this
      ensures Valid() && exhausted == old(exhausted)
      ensures step.Some? ==> Yielded(step.value)
      ensures !old(stage).Finished? ==> Left() < old(Left())
      ensures step.Some? ==>
              step.value.size == if pageSize < 51 - step.value.start then pageSize else 51 - step.value.start
      ensures step.None? ==> stage.Finished?
      ensures step.None? <==> match old(stage)
                              case Finished => true
                              case Unstarted => !supported || keyword.None? || context.Cursor(keyword.value) > 50
                              case Suspended(at, size) => exhausted || at + size > 50
    {
      var start;
      match stage {
        case Finished => return None;
        case Unstarted =>
          if !supported || keyword.None? {
            stage := Finished;
            return None;
          }
          rawEnd := Max(0, context.Cursor(keyword.value) - 1);
          start := rawEnd + 1;
        case Suspended(at, size) =>
          if exhausted {
            stage := Finished;
            return None;
          }
          start := at + size;
      }
      if start > MAX_POSITION {
        stage := Finished;
        return None;
      }
      var size := Min(pageSize, MAX_POSITION - start + 1);
      stage := Suspended(start, size);
      return Some(Original(start, size));
    }

    /**
     One bounded raw page. It moves the cursor as soon as the page is there, whatever happens to its
     articles afterwards; at most `needed` articles come back, the first that pass the category check.
     */
    method Search(world: World, start: int, size: int, selector: NewsMapSelector, needed: nat)
      returns (span: Option<Span>, found: Option<seq<Article>>)
      requires world.Valid() && Valid() && Yielded(Original(start, size))
      modifies this`rawEnd, this`exhausted, context
      ensures Valid() && Searched() == span.Some?
      ensures span.None? <==> world.page(start, size).None?
      ensures span.None? ==>
              found.None? && context.next == old(context.next) && rawEnd == old(rawEnd) && exhausted == old(exhausted)
      ensures span.Some? ==> Bounded(span.value) && span.value.start == start && span.value.size == size
                             && context.next == old(context.next)[keyword.value := span.value.end + 1]
                             && rawEnd == span.value.end
      ensures span.Some? ==> var p := world.page(start, size).value;
                             && span.value.end == p.end
                             && (exhausted <==> p.end < start + size - 1 || p.end >= p.total)
      ensures span.Some? && found.None? ==> !world.inspects(start) || !world.stores(start)
      ensures found.Some? ==> |found.value| <= needed
      ensures found.Some? ==>
              found.value == Sifted(world.page(start, size).value.articles, selector.seen, world.admits, needed)
    {
      var page := world.page(start, size);
      if page.None? {
        return None, None;
      }
      var p := page.value;
      rawEnd := p.end;
      exhausted := p.end < start + size - 1 || p.end >= p.total;
      context.next := context.next[keyword.value := p.end + 1];
      span := Some(Span(start, size, p.end));
      var candidates := Those(p.articles, NewTo(selector.seen), true);
      if candidates != [] && needed > 0 && !world.inspects(start) {
        return span, None;
      }
      var accepted := Inspect(candidates, world.admits, needed);
      if accepted != [] && !world.stores(start) {
        return span, None;
      }
      return span, Some(accepted);
    }
  }

  function NewTo(seen: set<Key>): Article -> bool {
    a => Keys(a) !! seen
  }

  function FirstFew(s: seq<Article>, n: nat): seq<Article> {
    if |s| <= n then s else s[..n]
  }

  /** The first `needed` new articles of a page that pass the category check. */
  function Sifted(articles: seq<Article>, seen: set<Key>, admits: Article -> bool, needed: nat): seq<Article> {
    FirstFew(Those(Those(articles, NewTo(seen), true), admits, true), needed)
  }

  lemma {:induction false} TwoFilters(s: seq<Article>, f: Article -> bool, g: Article -> bool, both: Article -> bool)
    requires forall a :: both(a) <==> f(a) && g(a)
    ensures Those(Those(s, f, true), g, true) == Those(s, both, true)
  {
    if s != [] {
      TwoFilters(s[..|s| - 1], f, g, both);
      var rest := Those(s[..|s| - 1], f, true);
      if f(s[|s| - 1]) {
        assert (rest + [s[|s| - 1]])[..|rest|] == rest;
      }
    }
  }

  /** The articles of a page that are used: without a known key and admitted, the first of them in page order. */
  lemma {:induction false} FirstFittingTaken(articles: seq<Article>, seen: set<Key>, admits: Article -> bool,
      needed: nat)
    ensures var taken := Sifted(articles, seen, admits, needed);
            var fitting := Those(articles, a => Keys(a) !! seen && admits(a), true);
            taken <= fitting && |taken| == if |fitting| <= needed then |fitting| else needed
  {
    TwoFilters(articles, NewTo(seen), admits, a => Keys(a) !! seen && admits(a));
  }

  /** A filter splits over a concatenation. */
  lemma {:induction false} ThoseJoined<V>(s: seq<Article>, t: seq<Article>, view: Article -> V, v: V)
    ensures Those(s + t, view, v) == Those(s, view, v) + Those(t, view, v)
  {
    if t == [] {
      assert s + t == s;
    } else {
      ThoseJoined(s, t[..|t| - 1], view, v);
      assert (s + t)[..|s + t| - 1] == s + t[..|t| - 1];
    }
  }

  /** Checks categories in batches no larger than what is still needed. */
  method Inspect(articles: seq<Article>, admits: Article -> bool, needed: nat) returns (accepted: seq<Article>)
    ensures accepted == FirstFew(Those(articles, admits, true), needed)
  {
    accepted := [];
    var index := 0;
    while index < |articles| && |accepted| < needed
      invariant index <= |articles| && |accepted| <= needed
      invariant accepted == Those(articles[..index], admits, true)
    {
      var end := Min(|articles|, index + needed - |accepted|);
      var batch := articles[index..end];
      ThoseJoined(articles[..index], batch, admits, true);
      ThoseShorter(batch, admits, true);
      assert articles[..index] + batch == articles[..end];
      accepted := accepted + Those(batch, admits, true);
      index := end;
    }
    ThoseJoined(articles[..index], articles[index..], admits, true);
    assert articles[..index] + articles[index..] == articles;
  }

  /** The pool index after the first `count` unique candidates. */
  method InitialEnd(pool: seq<Article>, known: set<Key>, count: nat) returns (end: nat)
    ensures end <= |pool| && |Fresh(pool[..end], known, None)| <= count
    ensures end < |pool| ==> var taken := Fresh(pool[..end], known, None);
                             |taken| == count && Unseen(pool[end], known + KeysOf(taken))
  {
    ghost var taken := [];
    var seen, number := known, 0;
    for i := 0 to |pool|
      invariant taken == Fresh(pool[..i], known, None)
      invariant seen == known + KeysOf(taken) && number == |taken| <= count
    {
      var a := pool[i];
      assert pool[..i + 1][..i] == pool[..i];
      if !(Keys(a) !! seen) || !a.hasText {
        continue;
      }
      if number >= count {
        return i;
      }
      seen, number := seen + Keys(a), number + 1;
      taken := taken + [a];
    }
    return |pool|;
  }
}
