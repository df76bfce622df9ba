/**
 What NewsMapSelector guarantees over any sequence of rounds, failed ones included.
 */
module MmrLaws {
  import opened Basics
  import opened Candidates
  import opened PoolLaws
  import opened MmrSelector

  function RulesOf(j: Judge): Rules {
    Rules(j.Fates(), (a, b) => j.pair(a, b) == Distinct)
  }

  /** No displayed article excludes an article that remains. */
  ghost predicate Clear(j: Judge, p: Pool) {
    forall a :: a in p.remaining ==> j.Exclusion(a, p.selected) == Distinct
  }

  // ----- Evaluation ------------------------------------------------------------------------------------

  /** The candidates that join: separate, from the new ones, and as many as the count says. */
  lemma {:induction false} Joining(j: Judge, taken: seq<Article>) returns (joining: seq<Article>)
    requires Separate(taken)
    ensures joining == Those(Ranked(j, taken), j.Fates(), Candidate)
    ensures Separate(joining) && |joining| == Count(taken, j.Fates(), Candidate)
    ensures forall a :: a in joining ==> a in taken && j.FateOf(a) == Candidate
  {
    joining := Those(Ranked(j, taken), j.Fates(), Candidate);
    var gated := Those(taken, j.Gate(), true);
    ThoseSeparate(taken, j.Gate(), true);
    SortedInOrder(gated, j.ByScore());
    SeparatePermuted(gated, Ranked(j, taken));
    ThoseSeparate(Ranked(j, taken), j.Fates(), Candidate);
    RankedCounts(j, taken, Candidate);
    forall a | a in joining ensures a in taken && j.FateOf(a) == Candidate {
      ThoseMember(Ranked(j, taken), j.Fates(), Candidate, a);
      RankedPassesGate(j, taken, a);
    }
  }

  lemma {:induction false} AddedSound(j: Judge, p: Pool, known: set<Key>, cs: seq<Article>, limit: Option<int>)
    requires Sound(RulesOf(j), p, known)
    ensures var q := Added(j, p, cs, limit);
            && Sound(RulesOf(j), q, known)
            && q.counts.evaluated == p.counts.evaluated + |Fresh(cs, p.seen, limit)|
  {
    var taken := Fresh(cs, p.seen, limit);
    FreshIsNew(cs, p.seen, limit);
    var joining := Joining(j, taken);
    JoinedSound(RulesOf(j), p, known, taken, joining);
  }

  /** Without shared keys and without a cut-off, the order in which candidates are offered does not matter. */
  lemma {:induction false} AddedInAnyOrder(j: Judge, p: Pool, cs: seq<Article>, ds: seq<Article>, limit: Option<int>)
    requires multiset(cs) == multiset(ds) && Separate(cs)
    requires limit.Some? ==> |Usable(cs, p.seen)| <= limit.value
    ensures Added(j, p, cs, limit) == Added(j, p, ds, limit)
  {
    FreshPermuted(cs, ds, p.seen, limit);
    var s, t := Fresh(cs, p.seen, limit), Fresh(ds, p.seen, limit);
    KeysOfPermuted(s, t);
    TallyPermuted(p.counts, s, t, j.Fates());
    ThosePermuted(s, t, j.Gate(), true);
    FreshIsNew(cs, p.seen, limit);
    ThoseSeparate(s, j.Gate(), true);
    SortedPermuted(Those(s, j.Gate(), true), Those(t, j.Gate(), true), j.ByScore());
  }

  // ----- Selection ---------------------------------------------------------------------------------------

  lemma {:induction false} ThreeVerdicts(s: seq<Article>, view: Article -> Verdict)
    ensures |s| == |Those(s, view, Repeat)| + |Those(s, view, Unsure)| + |Those(s, view, Distinct)|
  {
    if s != [] {
      ThreeVerdicts(s[..|s| - 1], view);
      var v := view(s[|s| - 1]);
      assert v.Repeat? || v.Unsure? || v.Distinct?;
    }
  }

  lemma {:induction false} SweptSound(j: Judge, p: Pool, known: set<Key>)
    requires Sound(RulesOf(j), p, known)
    ensures Sound(RulesOf(j), Swept(j, p), known) && Clear(j, Swept(j, p))
    ensures forall a :: a in Swept(j, p).remaining ==> a in p.remaining
  {
    var view, q := j.Exclusions(p.selected), Swept(j, p);
    ThreeVerdicts(p.remaining, view);
    ThoseSeparate(p.remaining, view, Distinct);
    forall a | a in q.remaining ensures a in p.remaining && view(a) == Distinct {
      ThoseMember(p.remaining, view, Distinct, a);
    }
  }

  /** A second sweep finds nothing. */
  lemma {:induction false} SweptOnce(j: Judge, p: Pool)
    requires Clear(j, p)
    ensures Swept(j, p) == p
  {
    var view := j.Exclusions(p.selected);
    ThoseAll(p.remaining, view, Distinct);
    ThoseNone(p.remaining, view, Repeat);
    ThoseNone(p.remaining, view, Unsure);
  }

  lemma {:induction false} SweptClear(j: Judge, p: Pool)
    ensures Clear(j, Swept(j, p))
  {
    var view := j.Exclusions(p.selected);
    forall a | a in Swept(j, p).remaining ensures view(a) == Distinct {
      ThoseMember(p.remaining, view, Distinct, a);
    }
  }

  lemma {:induction false} DistinctFromEach(j: Judge, a: Article, shown: seq<Article>)
    requires j.Exclusion(a, shown) == Distinct
    ensures forall i :: 0 <= i < |shown| ==> j.pair(shown[i], a) == Distinct
  {
    if shown != [] {
      DistinctFromEach(j, a, shown[..|shown| - 1]);
    }
  }

  lemma {:induction false} PromotedSound(j: Judge, p: Pool, known: set<Key>)
    requires Sound(RulesOf(j), p, known) && Clear(j, p) && p.remaining != []
    ensures Sound(RulesOf(j), Promoted(j, p), known)
  {
    var best := Foremost(p.remaining, j.ByMargin(p.selected));
    DistinctFromEach(j, best, p.selected);
    ShownSound(RulesOf(j), p, known, best);
  }

  lemma {:induction false} Shrinks(j: Judge, p: Pool)
    requires Swept(j, p).remaining != []
    ensures |Promoted(j, Swept(j, p)).remaining| < |p.remaining|
  {
    var q := Swept(j, p);
    ThoseShorter(p.remaining, j.Exclusions(p.selected), Distinct);
    MinusMultiset(q.remaining, Foremost(q.remaining, j.ByMargin(q.selected)));
  }

  /** Selection keeps the invariant and what is displayed, only appends, and stops short only when nothing is left. */
  lemma {:induction false} SelectedSound(j: Judge, p: Pool, known: set<Key>, limit: int)
    requires Sound(RulesOf(j), p, known)
    ensures var q := Selected(j, p, limit);
            && Sound(RulesOf(j), q, known) && Clear(j, q)
            && p.selected <= q.selected && |q.selected| <= Max(|p.selected|, limit)
            && (|q.selected| < limit ==> q.remaining == [])
            && q.counts.evaluated == p.counts.evaluated && q.seen == p.seen
    decreases |p.remaining|
  {
    if p.remaining != [] {
      SweptSound(j, p, known);
      var q := Swept(j, p);
      if !Done(q, limit) {
        PromotedSound(j, q, known);
        Shrinks(j, p);
        SelectedSound(j, Promoted(j, q), known, limit);
      }
    }
  }

  /** Selecting m articles and later n of them is selecting n at once. */
  lemma {:induction false} SelectionResumes(j: Judge, p: Pool, m: int, n: int)
    requires m <= n
    ensures Selected(j, Selected(j, p, m), n) == Selected(j, p, n)
    decreases |p.remaining|
  {
    if p.remaining != [] {
      var q := Swept(j, p);
      SweptClear(j, p);
      SweptOnce(j, q);
      if !Done(q, m) {
        Shrinks(j, p);
        SelectionResumes(j, Promoted(j, q), m, n);
      }
    }
  }

  /** Position k holds the foremost article, given those before it, of all that come later or remain. */
  ghost predicate GreedyAt(j: Judge, q: Pool, k: nat)
    requires k < |q.selected|
  {
    var prio := j.ByMargin(q.selected[..k]);
    && (forall x :: x in q.selected[k..] ==> !Precedes(prio(x), prio(q.selected[k])))
    && (forall x :: x in q.remaining ==> !Precedes(prio(x), prio(q.selected[k])))
  }

  ghost predicate TakenFrom(p: Pool, q: Pool) {
    && p.selected <= q.selected
    && (forall x :: x in q.selected[|p.selected|..] || x in q.remaining ==> x in p.remaining)
  }

  lemma {:induction false} PromotedFrom(j: Judge, p: Pool)
    requires Swept(j, p).remaining != []
    ensures TakenFrom(p, Promoted(j, Swept(j, p)))
  {
    var q := Swept(j, p);
    MinusMembers(q.remaining, Foremost(q.remaining, j.ByMargin(q.selected)));
    SweptMembers(j, p);
  }

  lemma {:induction false} SweptMembers(j: Judge, p: Pool)
    ensures forall x :: x in Swept(j, p).remaining ==> x in p.remaining
  {
    forall x | x in Swept(j, p).remaining ensures x in p.remaining {
      ThoseMember(p.remaining, j.Exclusions(p.selected), Distinct, x);
    }
  }

  /** What is displayed next, and what remains, remained before. */
  lemma {:induction false} SelectedFrom(j: Judge, p: Pool, limit: int)
    ensures TakenFrom(p, Selected(j, p, limit))
    decreases |p.remaining|
  {
    if p.remaining != [] {
      var q := Swept(j, p);
      SweptMembers(j, p);
      if !Done(q, limit) {
        var r := Promoted(j, q);
        PromotedFrom(j, p);
        Shrinks(j, p);
        SelectedFrom(j, r, limit);
      }
    }
  }

  /** Every newly displayed article was the best choice of its turn. */
  lemma {:induction false} SelectionIsGreedy(j: Judge, p: Pool, limit: int, k: nat)
    requires |p.selected| <= k < |Selected(j, p, limit).selected|
    ensures GreedyAt(j, Selected(j, p, limit), k)
    decreases |p.remaining|
  {
    if p.remaining != [] {
      var q := Swept(j, p);
      if !Done(q, limit) {
        var r := Promoted(j, q);
        Shrinks(j, p);
        SelectedFrom(j, r, limit);
        if k == |p.selected| {
          FirstIsGreedy(j, q, Selected(j, r, limit));
        } else {
          SelectionIsGreedy(j, r, limit, k);
        }
      }
    }
  }

  lemma {:induction false} FirstIsGreedy(j: Judge, q: Pool, f: Pool)
    requires q.remaining != []
    requires TakenFrom(Promoted(j, q), f)
    ensures |q.selected| < |f.selected| && GreedyAt(j, f, |q.selected|)
  {
    var r, k := Promoted(j, q), |q.selected|;
    var best := r.selected[k];
    MinusMembers(q.remaining, best);
    assert f.selected[k] == best && f.selected[..k] == q.selected;
    assert f.selected[k..] == [best] + f.selected[k + 1..];
  }

  // ----- What the greedy choice rewards ------------------------------------------------------------------

  /** m is the greatest similarity of x to a displayed article. */
  ghost predicate Nearest(j: Judge, x: Article, shown: seq<Article>, m: real) {
    (exists s :: s in shown && j.similarity(x, s) == m) && forall s :: s in shown ==> j.similarity(x, s) <= m
  }

  lemma {:induction false} NearestIsMaximum(j: Judge, x: Article, shown: seq<Article>)
    requires shown != []
    ensures forall s :: s in shown ==> j.similarity(x, s) <= j.MaxSimilarity(x, shown)
    ensures exists s :: s in shown && j.similarity(x, s) == j.MaxSimilarity(x, shown)
    ensures forall m :: Nearest(j, x, shown, m) ==> m == j.MaxSimilarity(x, shown)
  {
    var last := shown[|shown| - 1];
    if |shown| == 1 {
      assert last in shown && shown == [last];
    } else {
      var front := shown[..|shown| - 1];
      NearestIsMaximum(j, x, front);
      assert shown == front + [last];
      if j.MaxSimilarity(x, shown) == j.similarity(x, last) {
        assert last in shown;
      } else {
        var s :| s in front && j.similarity(x, s) == j.MaxSimilarity(x, front);
        assert s in shown;
      }
    }
  }

  /** x is not better than b: by value, then by score, then by the longer description, then by the smaller id. */
  predicate NoBetter(j: Judge, vx: real, x: Article, vb: real, b: Article) {
    || vx < vb
    || (vx == vb
        && (|| j.score(x) < j.score(b)
            || (j.score(x) == j.score(b) && (x.detail < b.detail || (x.detail == b.detail && b.id <= x.id)))))
  }

  function Weighed(weight: real, score: real, m: real): real {
    weight * score - (1.0 - weight) * m
  }

  /** What an article is worth next to displayed ones, the nearest of which is m away from being it. */
  function Worth(j: Judge, x: Article, m: real): real {
    j.quantise(Weighed(j.weight, j.score(x), m))
  }

  lemma {:induction false} WorthIsValue(j: Judge, x: Article, shown: seq<Article>, m: real)
    requires shown != [] && Nearest(j, x, shown, m)
    ensures j.ByMargin(shown)(x) == Priority(Worth(j, x, m), j.score(x), x.detail, x.id)
  {
    NearestIsMaximum(j, x, shown);
    assert j.Marginal(x, shown) == Weighed(j.weight, j.score(x), j.MaxSimilarity(x, shown));
  }

  /**
   Whatever is displayed later, or remains, was worth no more than the article displayed at position k: its
   relevance, less its greatest similarity to an article displayed before, each weighted and the whole rounded.
   */
  lemma {:induction false} SelectionRewardsNovelty(j: Judge, p: Pool, limit: int, k: nat, x: Article, mx: real,
      mb: real)
    requires |p.selected| <= k < |Selected(j, p, limit).selected| && 0 < k
    requires var q := Selected(j, p, limit);
             && (x in q.selected[k..] || x in q.remaining)
             && Nearest(j, x, q.selected[..k], mx) && Nearest(j, q.selected[k], q.selected[..k], mb)
    ensures var b := Selected(j, p, limit).selected[k]; NoBetter(j, Worth(j, x, mx), x, Worth(j, b, mb), b)
  {
    var q := Selected(j, p, limit);
    var shown, best := q.selected[..k], q.selected[k];
    SelectionIsGreedy(j, p, limit, k);
    WorthIsValue(j, x, shown, mx);
    WorthIsValue(j, best, shown, mb);
    assert !Precedes(j.ByMargin(shown)(x), j.ByMargin(shown)(best));
  }

  /** Rounding keeps the order. */
  ghost predicate Monotone(f: real -> real) {
    forall x, y :: x <= y ==> f(x) <= f(y)
  }

  lemma {:induction false} KeepsOrder(f: real -> real, x: real, y: real)
    requires Monotone(f) && x <= y
    ensures f(x) <= f(y)
  {
  }

  /** The first displayed article has the highest score of all that are displayed or remain. */
  lemma {:induction false} FirstIsMostRelevant(j: Judge, p: Pool, limit: int, x: Article)
    requires p.selected == [] && Selected(j, p, limit).selected != [] && Monotone(j.quantise)
    requires x in Selected(j, p, limit).selected || x in Selected(j, p, limit).remaining
    ensures var b := Selected(j, p, limit).selected[0]; NoBetter(j, j.score(x), x, j.score(b), b)
  {
    var q := Selected(j, p, limit);
    SelectionIsGreedy(j, p, limit, 0);
    assert q.selected[0..] == q.selected && q.selected[..0] == [];
    assert !Precedes(j.ByMargin([])(x), j.ByMargin([])(q.selected[0]));
    if j.score(q.selected[0]) <= j.score(x) {
      KeepsOrder(j.quantise, j.score(q.selected[0]), j.score(x));
    }
  }

  // ----- What a round keeps and counts ---------------------------------------------------------------------

  /** Relevant enough, connected by more than a company, not the centre's own news, and connected to its issue. */
  predicate Relevant(j: Judge, a: Article) {
    j.score(a) >= j.threshold && !j.onlyEntity(a) && j.centre(a) == Distinct && j.connected(a)
  }

  lemma {:induction false} RankedMembers(j: Judge, taken: seq<Article>, a: Article)
    ensures a in Ranked(j, taken) <==> a in taken && j.Gate()(a)
  {
    var gated := Those(taken, j.Gate(), true);
    SortedInOrder(gated, j.ByScore());
    ThoseMember(taken, j.Gate(), true, a);
    assert a in Ranked(j, taken) <==> a in multiset(Ranked(j, taken));
    assert a in gated <==> a in multiset(gated);
  }

  /** Exactly the relevant ones of the new candidates join those that remain. */
  lemma {:induction false} RelevantRemain(j: Judge, p: Pool, taken: seq<Article>, a: Article)
    ensures a in Evaluated(j, p, taken).remaining <==> a in p.remaining || (a in taken && Relevant(j, a))
  {
    RankedMembers(j, taken, a);
    ThoseMember(Ranked(j, taken), j.Fates(), Candidate, a);
  }

  lemma {:induction false} ThoseInOrder<V>(s: seq<Article>, prio: Article -> Priority, view: Article -> V, v: V)
    requires InOrder(s, prio)
    ensures InOrder(Those(s, view, v), prio)
  {
    if s != [] {
      var front, last := s[..|s| - 1], s[|s| - 1];
      ThoseInOrder(front, prio, view, v);
      var rest := Those(front, view, v);
      forall i | 0 <= i < |rest| ensures !Precedes(prio(last), prio(rest[i])) {
        ThoseMember(front, view, v, rest[i]);
        var k :| 0 <= k < |front| && front[k] == rest[i];
      }
    }
  }

  /** The new ones follow those that remained before, best first. */
  lemma {:induction false} BestComeFirst(j: Judge, p: Pool, taken: seq<Article>, i: nat, k: nat)
    requires |p.remaining| <= i < k < |Evaluated(j, p, taken).remaining|
    ensures var r := Evaluated(j, p, taken).remaining;
            p.remaining <= r && NoBetter(j, j.score(r[k]), r[k], j.score(r[i]), r[i])
  {
    SortedInOrder(Those(taken, j.Gate(), true), j.ByScore());
    ThoseInOrder(Ranked(j, taken), j.ByScore(), j.Fates(), Candidate);
    var new_, n := Those(Ranked(j, taken), j.Fates(), Candidate), |p.remaining|;
    assert !Precedes(j.ByScore()(new_[k - n]), j.ByScore()(new_[i - n]));
  }

  function Weak(j: Judge): Article -> bool {
    a => j.score(a) < j.threshold
  }

  function CompanyOnly(j: Judge): Article -> bool {
    a => j.score(a) >= j.threshold && j.onlyEntity(a)
  }

  /** What was compared with the centre, with this verdict. */
  function JudgedAs(j: Judge, v: Verdict): Article -> bool {
    a => j.score(a) >= j.threshold && !j.onlyEntity(a) && j.centre(a) == v
  }

  function OffTopic(j: Judge): Article -> bool {
    a => j.score(a) >= j.threshold && !j.onlyEntity(a) && j.centre(a) == Distinct && !j.connected(a)
  }

  /** Every new candidate that does not remain is counted where the first test against it sends it. */
  lemma {:induction false} RoundCounts(j: Judge, p: Pool, taken: seq<Article>)
    ensures var before, after := p.counts, Evaluated(j, p, taken).counts;
            && after.evaluated == before.evaluated + |taken| && after.neighbourRepeats == before.neighbourRepeats
            && after.belowThreshold == before.belowThreshold + Number(taken, Weak(j))
            && after.entityOnly == before.entityOnly + Number(taken, CompanyOnly(j))
            && after.centreRepeats == before.centreRepeats + Number(taken, JudgedAs(j, Repeat))
            && after.withheld == before.withheld + Number(taken, JudgedAs(j, Unsure))
            && after.unconnected == before.unconnected + Number(taken, OffTopic(j))
  {
    ThoseNumber(taken, j.Fates(), BelowThreshold, Weak(j));
    ThoseNumber(taken, j.Fates(), EntityOnly, CompanyOnly(j));
    ThoseNumber(taken, j.Fates(), CentreRepeat, JudgedAs(j, Repeat));
    ThoseNumber(taken, j.Fates(), Withheld, JudgedAs(j, Unsure));
    ThoseNumber(taken, j.Fates(), Unconnected, OffTopic(j));
  }

  /** A displayed article speaks against a: it says the same, or that cannot be ruled out. */
  ghost predicate SpokenAgainst(j: Judge, a: Article, shown: seq<Article>) {
    exists i :: 0 <= i < |shown| && j.pair(shown[i], a) != Distinct
  }

  lemma {:induction false} FirstObjection(j: Judge, a: Article, shown: seq<Article>)
    ensures j.Exclusion(a, shown) != Distinct <==> SpokenAgainst(j, a, shown)
    ensures forall i :: 0 <= i < |shown| && j.pair(shown[i], a) != Distinct
                        && (forall k :: 0 <= k < i ==> j.pair(shown[k], a) == Distinct) ==>
              j.Exclusion(a, shown) == j.pair(shown[i], a)
  {
    if shown != [] {
      var last := |shown| - 1;
      FirstObjection(j, a, shown[..last]);
      if i :| 0 <= i < last && j.pair(shown[..last][i], a) != Distinct {
        assert j.pair(shown[i], a) != Distinct;
      }
    }
  }

  /** The first displayed article that does not tell a apart gives this verdict. */
  ghost predicate ObjectedAs(j: Judge, a: Article, shown: seq<Article>, v: Verdict) {
    exists i :: 0 <= i < |shown| && j.pair(shown[i], a) == v
                && forall k :: 0 <= k < i ==> j.pair(shown[k], a) == Distinct
  }

  ghost function Objection(j: Judge, shown: seq<Article>, v: Verdict): Article -> bool {
    a => ObjectedAs(j, a, shown, v)
  }

  lemma {:induction false} ExclusionIsObjection(j: Judge, a: Article, shown: seq<Article>, v: Verdict)
    requires v != Distinct
    ensures j.Exclusion(a, shown) == v <==> ObjectedAs(j, a, shown, v)
  {
    FirstObjection(j, a, shown);
    if shown != [] {
      var front := shown[..|shown| - 1];
      ExclusionIsObjection(j, a, front, v);
      if i :| 0 <= i < |front| && j.pair(front[i], a) == v
              && forall k :: 0 <= k < i ==> j.pair(front[k], a) == Distinct {
        assert forall k :: 0 <= k < i ==> shown[k] == front[k];
        assert j.pair(shown[i], a) == v;
      }
      if j.Exclusion(a, front) == Distinct {
        FirstObjection(j, a, front);
        assert forall k :: 0 <= k < |front| ==> j.pair(front[k], a) == Distinct && shown[k] == front[k];
      }
    }
  }

  /** Each article dropped between two choices is counted as a repeat or as withheld, by the first objection. */
  lemma {:induction false} SweepCounts(j: Judge, p: Pool)
    ensures var before, after := p.counts, Swept(j, p).counts;
            after == before.(
              neighbourRepeats := before.neighbourRepeats + Number(p.remaining, Objection(j, p.selected, Repeat)),
              withheld := before.withheld + Number(p.remaining, Objection(j, p.selected, Unsure)))
  {
    forall a, v | v != Distinct ensures j.Exclusions(p.selected)(a) == v <==> Objection(j, p.selected, v)(a) {
      ExclusionIsObjection(j, a, p.selected, v);
    }
    ThoseNumber(p.remaining, j.Exclusions(p.selected), Repeat, Objection(j, p.selected, Repeat));
    ThoseNumber(p.remaining, j.Exclusions(p.selected), Unsure, Objection(j, p.selected, Unsure));
  }

  /** A selection drops nothing but what a displayed article speaks against. */
  lemma {:induction false} OnlyRepeatsGo(j: Judge, p: Pool, limit: int, x: Article)
    requires x in p.remaining
    ensures var q := Selected(j, p, limit); x in q.selected || x in q.remaining || SpokenAgainst(j, x, q.selected)
    decreases |p.remaining|
  {
    var q := Swept(j, p);
    ThoseMember(p.remaining, j.Exclusions(p.selected), Distinct, x);
    FirstObjection(j, x, p.selected);
    SelectedFrom(j, p, limit);
    if x in q.remaining && !Done(q, limit) {
      var best := Foremost(q.remaining, j.ByMargin(q.selected));
      Shrinks(j, p);
      MinusMultiset(q.remaining, best);
      SelectedFrom(j, Promoted(j, q), limit);
      if x != best {
        assert x in multiset(Minus(q.remaining, best));
        OnlyRepeatsGo(j, Promoted(j, q), limit, x);
      }
    } else if x !in q.remaining {
      var i :| 0 <= i < |p.selected| && j.pair(p.selected[i], x) != Distinct;
      assert Selected(j, p, limit).selected[i] == p.selected[i];
    }
  }

  // ----- Any sequence of rounds ---------------------------------------------------------------------------

  datatype Round = AddRound(cs: seq<Article>, limit: Option<int>, complete: bool) | SelectRound(target: int)

  function Played(j: Judge, p: Pool, r: Round): Pool {
    match r
    case AddRound(cs, limit, complete) => if complete then Added(j, p, cs, limit) else p
    case SelectRound(limit) => Selected(j, p, limit)
  }

  function AllPlayed(j: Judge, p: Pool, rounds: seq<Round>): Pool {
    if rounds == [] then p else Played(j, AllPlayed(j, p, rounds[..|rounds| - 1]), rounds[|rounds| - 1])
  }

  lemma {:induction false} PlayedSound(j: Judge, p: Pool, known: set<Key>, r: Round)
    requires Sound(RulesOf(j), p, known)
    ensures Sound(RulesOf(j), Played(j, p, r), known)
    ensures p.selected <= Played(j, p, r).selected
  {
    match r
    case AddRound(cs, limit, complete) => AddedSound(j, p, known, cs, limit);
    case SelectRound(target) => SelectedSound(j, p, known, target);
  }

  /** The invariant holds after any rounds. */
  lemma {:induction false} RoundsSound(j: Judge, known: set<Key>, rounds: seq<Round>)
    ensures Sound(RulesOf(j), AllPlayed(j, Empty(known), rounds), known)
  {
    if rounds == [] {
      NothingYet(RulesOf(j), AllPlayed(j, Empty(known), rounds), known);
    } else {
      var front := rounds[..|rounds| - 1];
      RoundsSound(j, known, front);
      PlayedSound(j, AllPlayed(j, Empty(known), front), known, rounds[|rounds| - 1]);
    }
  }

  /** What is displayed stays displayed, in its place: later rounds only append. */
  lemma {:induction false} RoundsAppend(j: Judge, known: set<Key>, rounds: seq<Round>, k: nat)
    requires k <= |rounds|
    ensures AllPlayed(j, Empty(known), rounds[..k]).selected <= AllPlayed(j, Empty(known), rounds).selected
  {
    if k == |rounds| {
      assert rounds[..k] == rounds;
    } else {
      var front := rounds[..|rounds| - 1];
      assert front[..k] == rounds[..k];
      RoundsAppend(j, known, front, k);
      RoundsSound(j, known, front);
      PlayedSound(j, AllPlayed(j, Empty(known), front), known, rounds[|rounds| - 1]);
    }
  }

  /** Two rounds that differ at most in the order of the candidates, all of which are separate and fit. */
  ghost predicate Reordered(p: Pool, r: Round, s: Round) {
    match r
    case SelectRound(target) => s == r
    case AddRound(cs, limit, complete) =>
      s == r || (&& s.AddRound? && s.limit == limit && s.complete == complete
                 && multiset(cs) == multiset(s.cs) && Separate(cs)
                 && (limit.Some? ==> |Usable(cs, p.seen)| <= limit.value))
  }

  /** Over a whole run: reordering candidates changes nothing at all. */
  lemma {:induction false} RunsInAnyOrder(j: Judge, p: Pool, rounds: seq<Round>, others: seq<Round>)
    requires |rounds| == |others|
    requires forall i :: 0 <= i < |rounds| ==> Reordered(AllPlayed(j, p, rounds[..i]), rounds[i], others[i])
    ensures AllPlayed(j, p, rounds) == AllPlayed(j, p, others)
  {
    if rounds != [] {
      var last := |rounds| - 1;
      forall i | 0 <= i < last ensures rounds[..last][..i] == rounds[..i] {
      }
      RunsInAnyOrder(j, p, rounds[..last], others[..last]);
      if rounds[last] != others[last] {
        AddedInAnyOrder(j, AllPlayed(j, p, rounds[..last]), rounds[last].cs, others[last].cs, rounds[last].limit);
      }
    }
  }
}
