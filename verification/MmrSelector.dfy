/**
 NewsMapSelector of app/agents/related_selector.py: staged evaluation with commit-or-nothing rounds,
 then greedy selection by marginal relevance that never shows a repetition of what it shows.
 */
module MmrSelector {
  import opened Basics
  import opened Candidates

  /** Outcome of `compare`: a repeat, an unconfirmed repeat, or neither. */
  datatype Verdict = Repeat | Unsure | Distinct

  /** Everything the texts and vectors decide about articles, for one centre article. */
  datatype Judge = Judge(
    threshold: real, weight: real, quantise: real -> real,
    score: Article -> real, onlyEntity: Article -> bool, centre: Article -> Verdict, connected: Article -> bool,
    pair: (Article, Article) -> Verdict, similarity: (Article, Article) -> real)
  {
    /** What becomes of an article that is evaluated. */
    function FateOf(a: Article): Fate {
      if score(a) < threshold then BelowThreshold
      else if onlyEntity(a) then EntityOnly
      else match centre(a)
        case Repeat => CentreRepeat
        case Unsure => Withheld
        case Distinct => if connected(a) then Candidate else Unconnected
    }

    function Fates(): Article -> Fate {
      a => FateOf(a)
    }

    /** The relevance gate and the entity rule, before the article is compared with anything. */
    function Gate(): Article -> bool {
      a => score(a) >= threshold && !onlyEntity(a)
    }

    function ByScore(): Article -> Priority {
      a => Priority(0.0, score(a), a.detail, a.id)
    }

    function MaxSimilarity(a: Article, shown: seq<Article>): real
      requires shown != []
    {
      var last := similarity(a, shown[|shown| - 1]);
      if |shown| == 1 then last else
        var rest := MaxSimilarity(a, shown[..|shown| - 1]);
        if rest < last then last else rest
    }

    function Marginal(a: Article, shown: seq<Article>): real {
      if shown == [] then score(a) else weight * score(a) - (1.0 - weight) * MaxSimilarity(a, shown)
    }

    function ByMargin(shown: seq<Article>): Article -> Priority {
      a => Priority(quantise(Marginal(a, shown)), score(a), a.detail, a.id)
    }

    /** The verdict of the first displayed article that does not tell `a` apart. */
    function Exclusion(a: Article, shown: seq<Article>): Verdict {
      if shown == [] then Distinct else
        var earlier := Exclusion(a, shown[..|shown| - 1]);
        if earlier != Distinct then earlier else pair(shown[|shown| - 1], a)
    }

    function Exclusions(shown: seq<Article>): Article -> Verdict {
      a => Exclusion(a, shown)
    }
  }

  // ----- One round of evaluation, one of selection ----------------------------------------------------

  function Ranked(j: Judge, taken: seq<Article>): seq<Article> {
    Sorted(Those(taken, j.Gate(), true), j.ByScore())
  }

  /** A successful round: every new candidate is counted, the good ones join `remaining` best first. */
  function Added(j: Judge, p: Pool, cs: seq<Article>, limit: Option<int>): Pool {
    Evaluated(j, p, Fresh(cs, p.seen, limit))
  }

  function Evaluated(j: Judge, p: Pool, taken: seq<Article>): Pool {
    Pool(p.seen + KeysOf(taken), p.remaining + Those(Ranked(j, taken), j.Fates(), Candidate), p.selected,
         Tallied(p.counts, taken, j.Fates()))
  }

  function Discarding(c: Counts, repeats: nat, unsure: nat): Counts {
    c.(neighbourRepeats := c.neighbourRepeats + repeats, withheld := c.withheld + unsure)
  }

  /** Drops what the displayed articles exclude. */
  function Swept(j: Judge, p: Pool): Pool {
    var view := j.Exclusions(p.selected);
    Pool(p.seen, Those(p.remaining, view, Distinct), p.selected,
         Discarding(p.counts, |Those(p.remaining, view, Repeat)|, |Those(p.remaining, view, Unsure)|))
  }

  function Promoted(j: Judge, p: Pool): Pool
    requires p.remaining != []
  {
    var best := Foremost(p.remaining, j.ByMargin(p.selected));
    Pool(p.seen, Minus(p.remaining, best), p.selected + [best], p.counts)
  }

  lemma {:induction false} ThoseShorter<V>(s: seq<Article>, view: Article -> V, v: V)
    ensures |Those(s, view, v)| <= |s|
  {
    if s != [] {
      ThoseShorter(s[..|s| - 1], view, v);
    }
  }

  predicate Done(p: Pool, limit: int) {
    p.remaining == [] || |p.selected| >= limit
  }

  function Selected(j: Judge, p: Pool, limit: int): Pool
    decreases |p.remaining|
  {
    if p.remaining == [] then p else
      var q := Swept(j, p);
      if Done(q, limit) then q
      else
        ThoseShorter(p.remaining, j.Exclusions(p.selected), Distinct);
        MinusMultiset(q.remaining, Foremost(q.remaining, j.ByMargin(q.selected)));
        Selected(j, Promoted(j, q), limit)
  }

  // ----- The selector object ----------------------------------------------------------------------------

  lemma {:induction false} ExclusionStays(j: Judge, a: Article, shown: seq<Article>, i: nat)
    requires i <= |shown| && j.Exclusion(a, shown[..i]) != Distinct
    ensures j.Exclusion(a, shown) == j.Exclusion(a, shown[..i])
  {
    if i < |shown| {
      assert shown[..|shown| - 1][..i] == shown[..i];
      ExclusionStays(j, a, shown[..|shown| - 1], i);
    } else {
      assert shown[..i] == shown;
    }
  }

  /** Only what passes the gate has one of the fates that need a comparison, so those can be counted later. */
  lemma {:induction false} RankedCounts(j: Judge, taken: seq<Article>, f: Fate)
    requires f != BelowThreshold && f != EntityOnly
    ensures Count(Ranked(j, taken), j.Fates(), f) == Count(taken, j.Fates(), f)
  {
    var gated := Those(taken, j.Gate(), true);
    SortedInOrder(gated, j.ByScore());
    ThosePermuted(gated, Ranked(j, taken), j.Fates(), f);
    GatedCounts(j, taken, f);
  }

  lemma {:induction false} GatedCounts(j: Judge, taken: seq<Article>, f: Fate)
    requires f != BelowThreshold && f != EntityOnly
    ensures Count(Those(taken, j.Gate(), true), j.Fates(), f) == Count(taken, j.Fates(), f)
  {
    if taken != [] {
      GatedCounts(j, taken[..|taken| - 1], f);
    }
  }

  class NewsMapSelector {
    const judge: Judge
    var seen: set<Key>
    var remaining: seq<Article>
    var selected: seq<Article>
    var evaluated: nat
    var centreRepeats: nat
    var neighbourRepeats: nat
    var withheld: nat
    var belowThreshold: nat
    var entityOnly: nat
    var unconnected: nat

    function View(): Pool
      reads this
    {
      Pool(seen, remaining, selected,
           Counts(evaluated, centreRepeats, neighbourRepeats, withheld, belowThreshold, entityOnly, unconnected))
    }

    constructor (judge: Judge, known: set<Key>)
      ensures this.judge == judge
      ensures View() == Pool(known, [], [], Counts(0, 0, 0, 0, 0, 0, 0))
    {
      this.judge, seen, remaining, selected, evaluated := judge, known, [], [], 0;
      centreRepeats, neighbourRepeats, withheld, belowThreshold, entityOnly, unconnected := 0, 0, 0, 0, 0, 0;
    }

    /**
     Evaluates new candidates. `centre` and `vector` say which vectors can be resolved: when one of
     them cannot, the round raises, and nothing has changed.
     */
    method Add(cs: seq<Article>, limit: Option<int>, centre: bool, vector: Article -> bool) returns (added: Option<nat>)
      modifies this
      ensures var taken := Fresh(cs, old(seen), limit);
              if taken == [] || (centre && forall a :: a in taken ==> vector(a))
              then added == Some(|taken|) && View() == Added(judge, old(View()), cs, limit)
              else added == None && View() == old(View())
    {
      var taken, known := CollectFresh(cs, seen, limit);
      if taken == [] {
        return Some(0);
      }
      if !centre || exists a :: a in taken && !vector(a) {
        return None;
      }
      Commit(taken, known);
      return Some(|taken|);
    }

    /** Counts and places the new candidates, all of whose vectors are known. */
    method Commit(taken: seq<Article>, known: set<Key>)
      requires known == seen + KeysOf(taken)
      modifies this
      ensures View() == Evaluated(judge, old(View()), taken)
    {
      seen := known;
      evaluated := evaluated + |taken|;
      var ranked := PassGate(taken);
      PlaceAll(ranked, taken);
    }

    /** The relevance gate and the entity rule; the rest is sorted best first. */
    method PassGate(taken: seq<Article>) returns (ranked: seq<Article>)
      modifies this`belowThreshold, this`entityOnly
      ensures ranked == Ranked(judge, taken)
      ensures belowThreshold == old(belowThreshold) + Count(taken, judge.Fates(), BelowThreshold)
      ensures entityOnly == old(entityOnly) + Count(taken, judge.Fates(), EntityOnly)
    {
      ranked := [];
      for i := 0 to |taken|
        invariant ranked == Those(taken[..i], judge.Gate(), true)
        invariant belowThreshold == old(belowThreshold) + Count(taken[..i], judge.Fates(), BelowThreshold)
        invariant entityOnly == old(entityOnly) + Count(taken[..i], judge.Fates(), EntityOnly)
      {
        var a := taken[i];
        assert taken[..i + 1][..i] == taken[..i];
        if judge.score(a) < judge.threshold {
          belowThreshold := belowThreshold + 1;
          continue;
        }
        if judge.onlyEntity(a) {
          entityOnly := entityOnly + 1;
          continue;
        }
        ranked := ranked + [a];
      }
      assert taken[..|taken|] == taken;
      ranked := Sorted(ranked, judge.ByScore());
    }

    method PlaceAll(ranked: seq<Article>, ghost taken: seq<Article>)
      requires ranked == Ranked(judge, taken)
      modifies this`centreRepeats, this`withheld, this`unconnected, this`remaining
      ensures remaining == old(remaining) + Those(ranked, judge.Fates(), Candidate)
      ensures centreRepeats == old(centreRepeats) + Count(taken, judge.Fates(), CentreRepeat)
      ensures withheld == old(withheld) + Count(taken, judge.Fates(), Withheld)
      ensures unconnected == old(unconnected) + Count(taken, judge.Fates(), Unconnected)
    {
      for i := 0 to |ranked|
        invariant remaining == old(remaining) + Those(ranked[..i], judge.Fates(), Candidate)
        invariant centreRepeats == old(centreRepeats) + Count(ranked[..i], judge.Fates(), CentreRepeat)
        invariant withheld == old(withheld) + Count(ranked[..i], judge.Fates(), Withheld)
        invariant unconnected == old(unconnected) + Count(ranked[..i], judge.Fates(), Unconnected)
      {
        assert ranked[..i + 1][..i] == ranked[..i];
        RankedPassesGate(judge, taken, ranked[i]);
        Place(ranked[i]);
      }
      assert ranked[..|ranked|] == ranked;
      RankedCounts(judge, taken, CentreRepeat);
      RankedCounts(judge, taken, Withheld);
      RankedCounts(judge, taken, Unconnected);
    }

    /** Compares one article with the centre. */
    method Place(a: Article)
      requires judge.Gate()(a)
      modifies this`centreRepeats, this`withheld, this`unconnected, this`remaining
      ensures var f := judge.FateOf(a);
              && remaining == old(remaining) + (if f == Candidate then [a] else [])
              && centreRepeats == old(centreRepeats) + (if f == CentreRepeat then 1 else 0)
              && withheld == old(withheld) + (if f == Withheld then 1 else 0)
              && unconnected == old(unconnected) + (if f == Unconnected then 1 else 0)
    {
      if judge.centre(a) == Repeat {
        centreRepeats := centreRepeats + 1;
        return;
      }
      if judge.centre(a) == Unsure {
        withheld := withheld + 1;
        return;
      }
      if !judge.connected(a) {
        unconnected := unconnected + 1;
        return;
      }
      remaining := remaining + [a];
    }

    /** Compares one article with every displayed one until a comparison excludes it. */
    method ExcludedBySelection(a: Article) returns (excluded: bool)
      modifies this`neighbourRepeats, this`withheld
      ensures var v := judge.Exclusion(a, selected);
              && excluded == (v != Distinct)
              && neighbourRepeats == old(neighbourRepeats) + (if v == Repeat then 1 else 0)
              && withheld == old(withheld) + (if v == Unsure then 1 else 0)
    {
      for i := 0 to |selected|
        invariant judge.Exclusion(a, selected[..i]) == Distinct
        invariant neighbourRepeats == old(neighbourRepeats) && withheld == old(withheld)
      {
        assert selected[..i + 1][..i] == selected[..i];
        var v := judge.pair(selected[i], a);
        if v == Repeat {
          neighbourRepeats := neighbourRepeats + 1;
          ExclusionStays(judge, a, selected, i + 1);
          return true;
        }
        if v == Unsure {
          withheld := withheld + 1;
          ExclusionStays(judge, a, selected, i + 1);
          return true;
        }
      }
      assert selected[..|selected|] == selected;
      return false;
    }

    method Sweep()
      modifies this`remaining, this`neighbourRepeats, this`withheld
      ensures View() == Swept(judge, old(View()))
    {
      var kept := [];
      ghost var view := judge.Exclusions(selected);
      for i := 0 to |remaining|
        invariant remaining == old(remaining)
        invariant kept == Those(remaining[..i], view, Distinct)
        invariant neighbourRepeats == old(neighbourRepeats) + |Those(remaining[..i], view, Repeat)|
        invariant withheld == old(withheld) + |Those(remaining[..i], view, Unsure)|
      {
        assert remaining[..i + 1][..i] == remaining[..i];
        var excluded := ExcludedBySelection(remaining[i]);
        if !excluded {
          kept := kept + [remaining[i]];
        }
      }
      assert remaining[..|remaining|] == remaining;
      remaining := kept;
    }

    /** Continues the selection up to `limit` displayed articles. */
    method Select(limit: int) returns (shown: seq<Article>)
      modifies this
      ensures View() == Selected(judge, old(View()), limit)
      ensures shown == selected
    {
      while remaining != []
        invariant Selected(judge, old(View()), limit) == Selected(judge, View(), limit)
        decreases |remaining|
      {
        ghost var before := View();
        Sweep();
        ThoseShorter(before.remaining, judge.Exclusions(selected), Distinct);
        if remaining == [] || |selected| >= limit {
          return selected;
        }
        var best := Foremost(remaining, judge.ByMargin(selected));
        MinusMultiset(remaining, best);
        selected := selected + [best];
        remaining := Minus(remaining, best);
      }
      return selected;
    }
  }

  lemma {:induction false} RankedPassesGate(j: Judge, taken: seq<Article>, a: Article)
    requires a in Ranked(j, taken)
    ensures a in taken && j.Gate()(a)
  {
    var gated := Those(taken, j.Gate(), true);
    SortedInOrder(gated, j.ByScore());
    assert a in multiset(Ranked(j, taken));
    assert a in gated;
    ThoseMember(taken, j.Gate(), true, a);
  }
}
