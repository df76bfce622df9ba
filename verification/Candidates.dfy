/**
 Candidate articles and what both news-map selectors do with them: identity de-duplication, the
 fate of each new candidate, and the strict order in which candidates are taken
 (app/agents/related_selector.py, app/agents/decision_selector.py).

 Text analysis, embeddings and model answers are uninterpreted functions of the articles.
 */
module Candidates {
  import opened Basics

  datatype Key = ById(id: nat) | ByUrl(url: nat)

  /** `detail` is the length of the description, `rank` the search rank when there is one. */
  datatype Article = Article(id: nat, urls: set<nat>, hasText: bool, detail: nat, rank: Option<int>)

  /** The same id or the same article URL is the same article. */
  function Keys(a: Article): set<Key> {
    {ById(a.id)} + set u | u in a.urls :: ByUrl(u)
  }

  function KeysOf(s: seq<Article>): set<Key> {
    if s == [] then {} else KeysOf(s[..|s| - 1]) + Keys(s[|s| - 1])
  }

  /** No two articles share an identity key. */
  ghost predicate Separate(s: seq<Article>) {
    forall i, k :: 0 <= i < k < |s| ==> Keys(s[i]) !! Keys(s[k])
  }

  datatype Fate = BelowThreshold | EntityOnly | CentreRepeat | Withheld | Unconnected | Candidate

  datatype Counts = Counts(evaluated: nat, centreRepeats: nat, neighbourRepeats: nat, withheld: nat,
                           belowThreshold: nat, entityOnly: nat, unconnected: nat) {
    function Discarded(): nat {
      centreRepeats + neighbourRepeats + withheld + belowThreshold + entityOnly + unconnected
    }
  }

  /** The state of a selector. */
  datatype Pool = Pool(seen: set<Key>, remaining: seq<Article>, selected: seq<Article>, counts: Counts)

  // ----- Filters --------------------------------------------------------------------------------

  /** The articles that `view` maps to v, in order. */
  function Those<V(==)>(s: seq<Article>, view: Article -> V, v: V): seq<Article> {
    if s == [] then [] else
      var rest := Those(s[..|s| - 1], view, v);
      var last := s[|s| - 1];
      if view(last) == v then rest + [last] else rest
  }

  function Minus(s: seq<Article>, x: Article): seq<Article> {
    if s == [] then []
    else if s[0] == x then s[1..]
    else [s[0]] + Minus(s[1..], x)
  }

  lemma {:induction false} ThoseMember<V>(s: seq<Article>, view: Article -> V, v: V, x: Article)
    ensures x in Those(s, view, v) <==> x in s && view(x) == v
  {
    if s != [] {
      ThoseMember(s[..|s| - 1], view, v, x);
      assert s == s[..|s| - 1] + [s[|s| - 1]];
    }
  }

  lemma {:induction false} ThoseMultiplicity<V>(s: seq<Article>, view: Article -> V, v: V, x: Article)
    ensures multiset(Those(s, view, v))[x] == if view(x) == v then multiset(s)[x] else 0
  {
    if s != [] {
      ThoseMultiplicity(s[..|s| - 1], view, v, x);
      assert s == s[..|s| - 1] + [s[|s| - 1]];
    }
  }

  lemma {:induction false} ThosePermuted<V>(s: seq<Article>, t: seq<Article>, view: Article -> V, v: V)
    requires multiset(s) == multiset(t)
    ensures multiset(Those(s, view, v)) == multiset(Those(t, view, v))
    ensures |Those(s, view, v)| == |Those(t, view, v)|
  {
    forall x ensures multiset(Those(s, view, v))[x] == multiset(Those(t, view, v))[x] {
      ThoseMultiplicity(s, view, v, x);
      ThoseMultiplicity(t, view, v, x);
    }
    assert |Those(s, view, v)| == |multiset(Those(s, view, v))|;
    assert |Those(t, view, v)| == |multiset(Those(t, view, v))|;
  }

  lemma {:induction false} ThoseSeparate<V>(s: seq<Article>, view: Article -> V, v: V)
    requires Separate(s)
    ensures Separate(Those(s, view, v))
  {
    if s != [] {
      var front, last := s[..|s| - 1], s[|s| - 1];
      ThoseSeparate(front, view, v);
      var rest := Those(front, view, v);
      forall x | x in rest ensures Keys(x) !! Keys(last) {
        ThoseMember(front, view, v, x);
      }
    }
  }

  /** A filter that everything passes keeps everything. */
  lemma {:induction false} ThoseAll<V>(s: seq<Article>, view: Article -> V, v: V)
    requires forall x :: x in s ==> view(x) == v
    ensures Those(s, view, v) == s
  {
    if s != [] {
      ThoseAll(s[..|s| - 1], view, v);
      assert s == s[..|s| - 1] + [s[|s| - 1]];
    }
  }

  /** A filter that nothing passes keeps nothing. */
  lemma {:induction false} ThoseNone<V>(s: seq<Article>, view: Article -> V, v: V)
    requires forall x :: x in s ==> view(x) != v
    ensures Those(s, view, v) == []
  {
    if s != [] {
      ThoseNone(s[..|s| - 1], view, v);
    }
  }

  lemma {:induction false} MinusMultiset(s: seq<Article>, x: Article)
    requires x in s
    ensures multiset(Minus(s, x)) == multiset(s) - multiset{x}
    ensures |Minus(s, x)| == |s| - 1
  {
    assert s == [s[0]] + s[1..];
    if s[0] != x {
      MinusMultiset(s[1..], x);
    }
  }

  lemma {:induction false} MinusMembers(s: seq<Article>, x: Article)
    ensures forall y :: y in Minus(s, x) ==> y in s
  {
    if s != [] {
      assert s == [s[0]] + s[1..];
      if s[0] != x {
        MinusMembers(s[1..], x);
      }
    }
  }

  lemma {:induction false} MinusSeparate(s: seq<Article>, x: Article)
    requires Separate(s) && x in s
    ensures Separate(Minus(s, x))
    ensures forall y :: y in Minus(s, x) <==> y in s && y != x
    ensures forall y :: y in Minus(s, x) ==> Keys(y) !! Keys(x)
  {
    assert s == [s[0]] + s[1..];
    if s[0] != x {
      MinusSeparate(s[1..], x);
      forall y | y in s[1..] ensures Keys(y) !! Keys(s[0]) && y != s[0] {
        assert ById(y.id) in Keys(y);
      }
    } else {
      forall y | y in s[1..] ensures Keys(y) !! Keys(s[0]) && y != s[0] {
        assert ById(y.id) in Keys(y);
      }
    }
  }

  lemma {:induction false} SameId(s: seq<Article>, x: Article, y: Article)
    requires Separate(s) && x in s && y in s && x.id == y.id
    ensures x == y
  {
    assert ById(x.id) in Keys(x) && ById(x.id) in Keys(y);
  }

  lemma {:induction false} KeysOfMember(s: seq<Article>, k: Key)
    ensures k in KeysOf(s) <==> exists a :: a in s && k in Keys(a)
  {
    if s != [] {
      KeysOfMember(s[..|s| - 1], k);
      assert s == s[..|s| - 1] + [s[|s| - 1]];
    }
  }

  lemma {:induction false} KeysOfPermuted(s: seq<Article>, t: seq<Article>)
    requires multiset(s) == multiset(t)
    ensures KeysOf(s) == KeysOf(t)
  {
    forall k ensures k in KeysOf(s) <==> k in KeysOf(t) {
      KeysOfMember(s, k);
      KeysOfMember(t, k);
      assert forall a :: a in s <==> a in multiset(s);
      assert forall a :: a in t <==> a in multiset(t);
    }
  }

  // ----- New candidates ---------------------------------------------------------------------------

  predicate Full(taken: nat, limit: Option<int>) {
    limit.Some? && taken >= limit.value
  }

  predicate Unseen(a: Article, seen: set<Key>) {
    Keys(a) !! seen && a.hasText
  }

  /** The new unique candidates in the supplied order, at most `limit` of them. */
  function Fresh(cs: seq<Article>, seen: set<Key>, limit: Option<int>): seq<Article> {
    if cs == [] then [] else
      var taken := Fresh(cs[..|cs| - 1], seen, limit);
      var a := cs[|cs| - 1];
      if Unseen(a, seen + KeysOf(taken)) && !Full(|taken|, limit) then taken + [a] else taken
  }

  lemma {:induction false} FullStays(cs: seq<Article>, seen: set<Key>, limit: Option<int>, i: nat)
    requires i <= |cs| && Full(|Fresh(cs[..i], seen, limit)|, limit)
    ensures Fresh(cs, seen, limit) == Fresh(cs[..i], seen, limit)
  {
    if i < |cs| {
      assert cs[..|cs| - 1][..i] == cs[..i];
      FullStays(cs[..|cs| - 1], seen, limit, i);
    } else {
      assert cs[..i] == cs;
    }
  }

  /** The scan of both `add` methods, which stops at the first new candidate over the limit. */
  method CollectFresh(cs: seq<Article>, known: set<Key>, limit: Option<int>)
    returns (taken: seq<Article>, seen: set<Key>)
    ensures taken == Fresh(cs, known, limit)
    ensures seen == known + KeysOf(taken)
  {
    taken, seen := [], known;
    for i := 0 to |cs|
      invariant taken == Fresh(cs[..i], known, limit)
      invariant seen == known + KeysOf(taken)
    {
      var a := cs[i];
      assert cs[..i + 1][..i] == cs[..i];
      if !(Keys(a) !! seen) || !a.hasText {
        continue;
      }
      if Full(|taken|, limit) {
        FullStays(cs, known, limit, i);
        return;
      }
      seen := seen + Keys(a);
      taken := taken + [a];
    }
    assert cs[..|cs|] == cs;
  }

  /** New candidates are new: they are offered, unseen, and share no key with each other. */
  lemma {:induction false} FreshIsNew(cs: seq<Article>, seen: set<Key>, limit: Option<int>)
    ensures var f := Fresh(cs, seen, limit);
            && Separate(f)
            && (forall a :: a in f ==> a in cs && Unseen(a, seen) && Keys(a) <= KeysOf(f))
            && (limit.Some? ==> |f| <= Max(0, limit.value))
  {
    if cs != [] {
      var front, a := cs[..|cs| - 1], cs[|cs| - 1];
      FreshIsNew(front, seen, limit);
      var taken := Fresh(front, seen, limit);
      if Unseen(a, seen + KeysOf(taken)) && !Full(|taken|, limit) {
        forall b | b in taken ensures Keys(b) !! Keys(a) {
          assert Keys(b) <= KeysOf(taken);
        }
      }
    }
  }

  predicate Known(seen: set<Key>, a: Article) {
    ById(a.id) in seen || exists u :: u in a.urls && ByUrl(u) in seen
  }

  /** Two articles are the same one: by id, or by one of their URLs. */
  predicate SameArticle(a: Article, b: Article) {
    a.id == b.id || exists u :: u in a.urls && u in b.urls
  }

  lemma {:induction false} KeysMeet(a: Article, b: Article, seen: set<Key>)
    ensures Keys(a) !! Keys(b) <==> !SameArticle(a, b)
    ensures Keys(a) !! seen <==> !Known(seen, a)
  {
    if u :| u in a.urls && u in b.urls {
      assert ByUrl(u) in Keys(a) && ByUrl(u) in Keys(b);
    }
    if !(Keys(a) !! Keys(b)) {
      var k :| k in Keys(a) && k in Keys(b);
    }
    if u :| u in a.urls && ByUrl(u) in seen {
      assert ByUrl(u) in Keys(a);
    }
  }

  /** A candidate is left out only if it has no text, is known or the same as a taken one, or the limit is reached. */
  lemma {:induction false} FreshLeavesOut(cs: seq<Article>, seen: set<Key>, limit: Option<int>, a: Article)
    requires a in cs && a !in Fresh(cs, seen, limit)
    ensures var taken := Fresh(cs, seen, limit);
            || !a.hasText || Known(seen, a) || (exists b :: b in taken && SameArticle(a, b))
            || (limit.Some? && |taken| >= limit.value)
  {
    var front, last := cs[..|cs| - 1], cs[|cs| - 1];
    var taken := Fresh(front, seen, limit);
    assert cs == front + [last];
    if a in front && a !in taken {
      FreshLeavesOut(front, seen, limit, a);
      if b :| b in taken && SameArticle(a, b) {
        assert b in Fresh(cs, seen, limit);
      }
    } else {
      assert a == last;
      KeysMeet(a, a, seen);
      if k :| k in Keys(a) && k in KeysOf(taken) {
        KeysOfMember(taken, k);
        var b :| b in taken && k in Keys(b);
        KeysMeet(a, b, seen);
      }
    }
  }

  /** Taken candidates are different articles, with text and unknown, at most as many as the limit says. */
  lemma {:induction false} FreshTakes(cs: seq<Article>, seen: set<Key>, limit: Option<int>)
    ensures var taken := Fresh(cs, seen, limit);
            && (forall a :: a in taken ==> a in cs && a.hasText && !Known(seen, a))
            && (forall i, k :: 0 <= i < k < |taken| ==> !SameArticle(taken[i], taken[k]))
            && (limit.Some? ==> |taken| <= Max(0, limit.value))
  {
    var taken := Fresh(cs, seen, limit);
    FreshIsNew(cs, seen, limit);
    forall a | a in taken ensures !Known(seen, a) {
      KeysMeet(a, a, seen);
    }
    forall i, k | 0 <= i < k < |taken| ensures !SameArticle(taken[i], taken[k]) {
      KeysMeet(taken[i], taken[k], seen);
    }
  }

  /** Usable candidates: unseen before the round, whatever else the round offers. */
  function Usable(cs: seq<Article>, seen: set<Key>): seq<Article> {
    Those(cs, a => Unseen(a, seen), true)
  }

  /** Without shared keys and without a cut-off, exactly the usable candidates are taken. */
  lemma {:induction false} FreshIsUsable(cs: seq<Article>, seen: set<Key>, limit: Option<int>)
    requires Separate(cs) && (limit.Some? ==> |Usable(cs, seen)| <= limit.value)
    ensures Fresh(cs, seen, limit) == Usable(cs, seen)
  {
    if cs != [] {
      var front, a := cs[..|cs| - 1], cs[|cs| - 1];
      FreshIsUsable(front, seen, limit);
      var taken := Fresh(front, seen, limit);
      FreshIsNew(front, seen, limit);
      forall k | k in KeysOf(taken) ensures k !in Keys(a) {
        KeysOfMember(taken, k);
        var b :| b in taken && k in Keys(b);
        assert b in front;
      }
    }
  }

  /** Articles without shared keys are taken in any order: the same ones, as a multiset. */
  lemma {:induction false} FreshPermuted(cs: seq<Article>, ds: seq<Article>, seen: set<Key>, limit: Option<int>)
    requires multiset(cs) == multiset(ds) && Separate(cs)
    requires limit.Some? ==> |Usable(cs, seen)| <= limit.value
    ensures multiset(Fresh(cs, seen, limit)) == multiset(Fresh(ds, seen, limit))
    ensures Separate(Fresh(ds, seen, limit))
  {
    SeparatePermuted(cs, ds);
    ThosePermuted(cs, ds, a => Unseen(a, seen), true);
    FreshIsUsable(cs, seen, limit);
    FreshIsUsable(ds, seen, limit);
    FreshIsNew(ds, seen, limit);
  }

  lemma {:induction false} SeparatePermuted(s: seq<Article>, t: seq<Article>)
    requires multiset(s) == multiset(t) && Separate(s)
    ensures Separate(t)
  {
    forall i, k | 0 <= i < k < |t| ensures Keys(t[i]) !! Keys(t[k]) {
      assert t[i] in multiset(t) && t[k] in multiset(t);
      if t[i] == t[k] {
        assert t == t[..k] + t[k..] && t[i] in t[..k] && t[k] in t[k..];
        assert multiset(t)[t[i]] >= 2;
        NoDoubles(s, t[i]);
      }
    }
  }

  lemma {:induction false} NoDoubles(s: seq<Article>, x: Article)
    requires Separate(s)
    ensures multiset(s)[x] <= 1
  {
    if s != [] {
      var front, last := s[..|s| - 1], s[|s| - 1];
      assert s == front + [last];
      NoDoubles(front, x);
      assert ById(x.id) in Keys(x);
      assert last == x ==> x !in front;
    }
  }

  // ----- Counting -----------------------------------------------------------------------------------

  function Count(s: seq<Article>, fate: Article -> Fate, f: Fate): nat {
    |Those(s, fate, f)|
  }

  /** The counters after a round evaluated the articles of s. */
  function Tallied(c: Counts, s: seq<Article>, fate: Article -> Fate): Counts {
    Counts(c.evaluated + |s|, c.centreRepeats + Count(s, fate, CentreRepeat), c.neighbourRepeats,
           c.withheld + Count(s, fate, Withheld), c.belowThreshold + Count(s, fate, BelowThreshold),
           c.entityOnly + Count(s, fate, EntityOnly), c.unconnected + Count(s, fate, Unconnected))
  }

  /** Every evaluated article is a candidate or counted once. */
  lemma {:induction false} TallyConserves(c: Counts, s: seq<Article>, fate: Article -> Fate)
    ensures var t := Tallied(c, s, fate);
            t.evaluated - t.Discarded() == c.evaluated - c.Discarded() + Count(s, fate, Candidate)
  {
    OneFateEach(s, fate);
  }

  /** How many articles pass a test. */
  function Number(s: seq<Article>, test: Article -> bool): nat {
    if s == [] then 0 else Number(s[..|s| - 1], test) + if test(s[|s| - 1]) then 1 else 0
  }

  lemma {:induction false} ThoseNumber<V>(s: seq<Article>, view: Article -> V, v: V, test: Article -> bool)
    requires forall a :: test(a) <==> view(a) == v
    ensures |Those(s, view, v)| == Number(s, test)
  {
    if s != [] {
      ThoseNumber(s[..|s| - 1], view, v, test);
    }
  }

  lemma {:induction false} OneFateEach(s: seq<Article>, fate: Article -> Fate)
    ensures |s| == Count(s, fate, BelowThreshold) + Count(s, fate, EntityOnly) + Count(s, fate, CentreRepeat)
                   + Count(s, fate, Withheld) + Count(s, fate, Unconnected) + Count(s, fate, Candidate)
  {
    if s != [] {
      OneFateEach(s[..|s| - 1], fate);
      var f := fate(s[|s| - 1]);
      assert f.BelowThreshold? || f.EntityOnly? || f.CentreRepeat? || f.Withheld? || f.Unconnected? || f.Candidate?;
    }
  }

  lemma {:induction false} TallyPermuted(c: Counts, s: seq<Article>, t: seq<Article>, fate: Article -> Fate)
    requires multiset(s) == multiset(t)
    ensures Tallied(c, s, fate) == Tallied(c, t, fate)
  {
    ThosePermuted(s, t, fate, CentreRepeat);
    ThosePermuted(s, t, fate, Withheld);
    ThosePermuted(s, t, fate, BelowThreshold);
    ThosePermuted(s, t, fate, EntityOnly);
    ThosePermuted(s, t, fate, Unconnected);
    assert |s| == |multiset(s)| == |multiset(t)| == |t|;
  }

  // ----- The strict order of candidates ---------------------------------------------------------------

  /** A sort key: larger value, then larger score, then larger detail, then smaller id comes first. */
  datatype Priority = Priority(value: real, score: real, detail: int, id: nat)

  predicate Precedes(p: Priority, q: Priority) {
    || p.value > q.value
    || (p.value == q.value
        && (|| p.score > q.score
            || (p.score == q.score && (p.detail > q.detail || (p.detail == q.detail && p.id < q.id)))))
  }

  /** The order names every article by its id, so it is strict between different articles. */
  ghost predicate Names(prio: Article -> Priority) {
    forall a :: prio(a).id == a.id
  }

  /** The first of the foremost articles, as `min` finds it. */
  function Foremost(s: seq<Article>, prio: Article -> Priority): (best: Article)
    requires s != []
    ensures best in s
    ensures forall x :: x in s ==> !Precedes(prio(x), prio(best))
  {
    if |s| == 1 then s[0] else
      var b := Foremost(s[..|s| - 1], prio);
      assert s == s[..|s| - 1] + [s[|s| - 1]];
      if Precedes(prio(s[|s| - 1]), prio(b)) then s[|s| - 1] else b
  }

  /** The foremost article does not depend on the order of the sequence. */
  lemma {:induction false} ForemostPermuted(s: seq<Article>, t: seq<Article>, prio: Article -> Priority)
    requires multiset(s) == multiset(t) && Separate(s) && s != [] && Names(prio)
    ensures t != [] && Foremost(s, prio) == Foremost(t, prio)
  {
    assert |s| == |multiset(s)| == |multiset(t)| == |t|;
    var x, y := Foremost(s, prio), Foremost(t, prio);
    assert y in multiset(t) && x in multiset(s);
    assert y in s && x in t;
    SameId(s, x, y);
  }

  function Inserted(x: Article, s: seq<Article>, prio: Article -> Priority): seq<Article> {
    if s == [] then [x]
    else if Precedes(prio(x), prio(s[0])) then [x] + s
    else [s[0]] + Inserted(x, s[1..], prio)
  }

  function Sorted(s: seq<Article>, prio: Article -> Priority): seq<Article> {
    if s == [] then [] else Inserted(s[|s| - 1], Sorted(s[..|s| - 1], prio), prio)
  }

  ghost predicate InOrder(s: seq<Article>, prio: Article -> Priority) {
    forall i, k :: 0 <= i < k < |s| ==> !Precedes(prio(s[k]), prio(s[i]))
  }

  lemma {:induction false} Ordered(p: Priority, q: Priority, r: Priority)
    requires Precedes(p, q) && !Precedes(r, q)
    ensures !Precedes(r, p)
  {
  }

  lemma {:induction false} FirstInOrder(x: Article, s: seq<Article>, prio: Article -> Priority)
    requires InOrder(s, prio) && forall y :: y in s ==> !Precedes(prio(y), prio(x))
    ensures InOrder([x] + s, prio)
  {
  }

  lemma {:induction false} InsertedInOrder(x: Article, s: seq<Article>, prio: Article -> Priority)
    requires InOrder(s, prio)
    ensures InOrder(Inserted(x, s, prio), prio)
    ensures multiset(Inserted(x, s, prio)) == multiset(s) + multiset{x}
  {
    if s != [] {
      assert s == [s[0]] + s[1..];
      if Precedes(prio(x), prio(s[0])) {
        forall y | y in s ensures !Precedes(prio(y), prio(x)) {
          Ordered(prio(x), prio(s[0]), prio(y));
        }
        FirstInOrder(x, s, prio);
      } else {
        var rest := Inserted(x, s[1..], prio);
        InsertedInOrder(x, s[1..], prio);
        forall y | y in rest ensures !Precedes(prio(y), prio(s[0])) {
          assert y in multiset(rest);
        }
        FirstInOrder(s[0], rest, prio);
      }
    }
  }

  /** Sorting keeps the articles and puts them in order. */
  lemma {:induction false} SortedInOrder(s: seq<Article>, prio: Article -> Priority)
    ensures InOrder(Sorted(s, prio), prio)
    ensures multiset(Sorted(s, prio)) == multiset(s)
  {
    if s != [] {
      SortedInOrder(s[..|s| - 1], prio);
      InsertedInOrder(s[|s| - 1], Sorted(s[..|s| - 1], prio), prio);
      assert s == s[..|s| - 1] + [s[|s| - 1]];
    }
  }

  /** A strict order leaves one way to sort. */
  lemma {:induction false} OneSorting(s: seq<Article>, t: seq<Article>, prio: Article -> Priority)
    requires InOrder(s, prio) && InOrder(t, prio) && multiset(s) == multiset(t) && Separate(s) && Names(prio)
    ensures s == t
  {
    assert |s| == |multiset(s)| == |multiset(t)| == |t|;
    if s != [] {
      assert s[0] in multiset(s) && t[0] in multiset(t);
      assert s[0] in t && t[0] in s;
      SameId(s, s[0], t[0]);
      assert s == [s[0]] + s[1..] && t == [t[0]] + t[1..];
      assert multiset(s[1..]) == multiset(s) - multiset{s[0]};
      assert multiset(t[1..]) == multiset(t) - multiset{t[0]};
      OneSorting(s[1..], t[1..], prio);
    }
  }

  lemma {:induction false} SortedPermuted(s: seq<Article>, t: seq<Article>, prio: Article -> Priority)
    requires multiset(s) == multiset(t) && Separate(s) && Names(prio)
    ensures Sorted(s, prio) == Sorted(t, prio)
  {
    SortedInOrder(s, prio);
    SortedInOrder(t, prio);
    SeparatePermuted(s, Sorted(s, prio));
    OneSorting(Sorted(s, prio), Sorted(t, prio), prio);
  }
}
