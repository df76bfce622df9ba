/** The invariant both selectors keep, and the moves that keep it. */
module PoolLaws {
  import opened Basics
  import opened Candidates

  /** What a selector decides about single articles, and whether two may be displayed together. */
  datatype Rules = Rules(fates: Article -> Fate, distinct: (Article, Article) -> bool)

  /** Displayed articles are pairwise told apart, and every evaluated article is accounted for once. */
  ghost predicate Sound(u: Rules, p: Pool, known: set<Key>) {
    && known <= p.seen
    && p.counts.evaluated == p.counts.Discarded() + |p.remaining| + |p.selected|
    && Separate(p.selected) && Separate(p.remaining) && Apart(p.selected, p.remaining)
    && (forall a :: a in p.selected ==> Held(u, p, known, a))
    && (forall a :: a in p.remaining ==> Held(u, p, known, a))
    && Unrepeated(u, p.selected)
  }

  /** The article was new when it was evaluated, and nothing spoke against it. */
  ghost predicate Held(u: Rules, p: Pool, known: set<Key>, a: Article) {
    Keys(a) <= p.seen && Keys(a) !! known && a.hasText && u.fates(a) == Candidate
  }

  ghost predicate Apart(s: seq<Article>, t: seq<Article>) {
    forall a, b :: a in s && b in t ==> Keys(a) !! Keys(b)
  }

  ghost predicate Unrepeated(u: Rules, shown: seq<Article>) {
    forall i, k :: 0 <= i < k < |shown| ==> u.distinct(shown[i], shown[k])
  }

  function Empty(known: set<Key>): Pool {
    Pool(known, [], [], Counts(0, 0, 0, 0, 0, 0, 0))
  }

  lemma {:induction false} NothingYet(u: Rules, p: Pool, known: set<Key>)
    requires p == Empty(known)
    ensures Sound(u, p, known)
  {
    assert Separate(p.selected) && Separate(p.remaining);
    assert Apart(p.selected, p.remaining);
    assert Unrepeated(u, p.selected);
  }

  /** A round of evaluation: `joining` are the candidates among the new articles. */
  lemma {:induction false} JoinedSound(u: Rules, p: Pool, known: set<Key>, taken: seq<Article>, joining: seq<Article>)
    requires Sound(u, p, known)
    requires forall a :: a in taken ==> Unseen(a, p.seen) && Keys(a) <= KeysOf(taken)
    requires Separate(joining) && |joining| == Count(taken, u.fates, Candidate)
    requires forall a :: a in joining ==> a in taken && u.fates(a) == Candidate
    ensures var counts := Tallied(p.counts, taken, u.fates);
            Sound(u, Pool(p.seen + KeysOf(taken), p.remaining + joining, p.selected, counts), known)
  {
    var q := Pool(p.seen + KeysOf(taken), p.remaining + joining, p.selected, Tallied(p.counts, taken, u.fates));
    TallyConserves(p.counts, taken, u.fates);
    forall a, b | a in p.remaining + p.selected && b in joining ensures Keys(a) !! Keys(b) {
      assert Held(u, p, known, a) && Unseen(b, p.seen);
    }
    forall a | a in q.remaining ensures Held(u, q, known, a) {
      if a in joining {
        assert Unseen(a, p.seen);
      } else {
        assert Held(u, p, known, a);
      }
    }
    forall a | a in q.selected ensures Held(u, q, known, a) {
      assert Held(u, p, known, a);
    }
  }

  /** A remaining article that is distinct from everything displayed is displayed next. */
  lemma {:induction false} ShownSound(u: Rules, p: Pool, known: set<Key>, best: Article)
    requires Sound(u, p, known) && best in p.remaining
    requires forall i :: 0 <= i < |p.selected| ==> u.distinct(p.selected[i], best)
    ensures Sound(u, Pool(p.seen, Minus(p.remaining, best), p.selected + [best], p.counts), known)
  {
    var q := Pool(p.seen, Minus(p.remaining, best), p.selected + [best], p.counts);
    MinusMultiset(p.remaining, best);
    MinusSeparate(p.remaining, best);
    forall a | a in q.remaining ensures Held(u, q, known, a) {
      assert Held(u, p, known, a);
    }
    forall a | a in q.selected ensures Held(u, q, known, a) {
      assert a in p.selected || a == best;
      assert Held(u, p, known, a);
    }
  }

  /** Displayed articles have different ids, none of which was known at the start. */
  lemma {:induction false} DisplayedAreNew(u: Rules, p: Pool, known: set<Key>)
    requires Sound(u, p, known)
    ensures forall i, k :: 0 <= i < k < |p.selected| ==> p.selected[i].id != p.selected[k].id
    ensures forall a :: a in p.selected ==> ById(a.id) !in known
  {
    var shown := p.selected;
    forall i, k | 0 <= i < k < |shown| ensures shown[i].id != shown[k].id {
      assert ById(shown[i].id) in Keys(shown[i]) && ById(shown[k].id) in Keys(shown[k]);
    }
    forall a | a in shown ensures ById(a.id) !in known {
      assert Held(u, p, known, a) && ById(a.id) in Keys(a);
    }
  }
}
