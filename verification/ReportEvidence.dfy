/**
 From extracted bodies to a stored report: excerpts, the report document of the pipeline, and the
 checks of `save_report` (app/v2/reports.py, app/v2/persistence.py).
 */
module Excerpts {
  import opened Basics

  /** Which characters count as white space, one of which is the line feed. */
  type Spaces = char -> bool

  predicate Stop(c: char) {
    c == '.' || c == '!' || c == '?' || c == '\U{3002}'
  }

  /** The first k characters end a sentence: with a line feed, or a stop and a white space. */
  predicate EndsSentence(s: string, k: nat, space: Spaces) {
    0 < k <= |s| && (s[k - 1] == '\n' || (k >= 2 && Stop(s[k - 2]) && space(s[k - 1])))
  }

  /** The last sentence end among the first k characters, 0 when there is none. */
  function LastEnd(s: string, k: nat, space: Spaces): (r: nat)
    requires k <= |s|
    ensures r <= k && (r > 0 ==> EndsSentence(s, r, space))
    ensures forall i :: r < i <= k ==> !EndsSentence(s, i, space)
  {
    if k == 0 || EndsSentence(s, k, space) then k else LastEnd(s, k - 1, space)
  }

  function Trimmed(s: string, space: Spaces): (t: string)
    ensures t <= s && (t == [] || !space(t[|t| - 1]))
    ensures forall i :: |t| <= i < |s| ==> space(s[i])
  {
    if s != [] && space(s[|s| - 1]) then Trimmed(s[..|s| - 1], space) else s
  }

  function Cut(prefix: string, budget: nat, space: Spaces): nat
    requires |prefix| == budget
  {
    var end := LastEnd(prefix, budget, space);
    if end > 0 && end >= budget / 2 then end else budget
  }

  function Excerpt(content: string, budget: nat, space: Spaces): string {
    if |content| <= budget then content else
      var prefix := content[..budget];
      Trimmed(prefix[..Cut(prefix, budget, space)], space)
  }

  /** The text up to position k is made of whole sentences. */
  ghost predicate Whole(s: string, k: nat, space: Spaces) {
    && 0 < k <= |s|
    && (|| s[k - 1] == '\n'
        || (k >= 2 && s[k - 2] in {'.', '!', '?', '\U{3002}'} && space(s[k - 1])))
  }

  /** Where a long text is cut: at its last sentence end within the budget, unless that loses more than half of it. */
  ghost predicate CutAt(content: string, budget: nat, space: Spaces, cut: nat) {
    && budget / 2 <= cut <= budget < |content|
    && (forall k :: cut < k <= budget ==> !Whole(content, k, space))
    && (|| Whole(content, cut, space)
        || (cut == budget && forall k :: 0 < k <= budget && Whole(content, k, space) ==> k < budget / 2))
  }

  /** An excerpt is a prefix within the budget: the whole text, or a text cut at a good place and trimmed. */
  lemma {:induction false} ExcerptIsPrefix(content: string, budget: nat, space: Spaces)
    ensures var e := Excerpt(content, budget, space);
            && e <= content && |e| <= budget
            && (|content| <= budget ==> e == content)
            && (|content| > budget ==>
                exists cut: nat :: CutAt(content, budget, space, cut) && e == Trimmed(content[..cut], space))
  {
    if |content| > budget {
      var prefix := content[..budget];
      var cut := Cut(prefix, budget, space);
      assert prefix[..cut] == content[..cut];
      forall k | 0 <= k <= budget ensures Whole(content, k, space) <==> EndsSentence(prefix, k, space) {
      }
      assert CutAt(content, budget, space, cut);
    }
  }
}

module ReportEvidence {
  import opened Basics
  import opened BodyQueue
  import opened Excerpts

  const EXCERPT_LIMIT: nat := 12000
  const TOTAL_LIMIT: nat := 60000

  datatype Evidence = Evidence(news: NewsId, body: BodyId, hash: nat, url: nat, excerpt: string, chars: nat,
                               truncated: bool)

  datatype Coverage = Coverage(requested: nat, used: nat, failed: nat)

  /** The parts of a report document that its validation reads; `stocks` holds the articles each stock impact cites. */
  datatype Report = Report(requested: seq<NewsId>, used: seq<Evidence>, failed: seq<NewsId>, coverage: Coverage,
                           stocks: seq<set<NewsId>>, reusable: bool)

  // ----- The pipeline ----------------------------------------------------------------------------------

  function Inserted(x: nat, s: seq<nat>): seq<nat> {
    if s == [] || x < s[0] then [x] + s else [s[0]] + Inserted(x, s[1..])
  }

  function SortedIds(s: seq<nat>): seq<nat> {
    if s == [] then [] else Inserted(s[|s| - 1], SortedIds(s[..|s| - 1]))
  }

  /** The ids of s that lie in `some`, in order. */
  function Picked(s: seq<nat>, some: set<nat>): (r: seq<nat>)
    ensures forall x :: x in r <==> x in s && x in some
  {
    if s == [] then [] else
      var rest := Picked(s[..|s| - 1], some);
      var last := s[|s| - 1];
      assert s == s[..|s| - 1] + [last];
      if last in some then rest + [last] else rest
  }

  function Budget(n: nat): nat
    requires n > 0
  {
    Min(EXCERPT_LIMIT, TOTAL_LIMIT / n)
  }

  function EvidenceOf(b: Body, budget: nat, space: Spaces): Evidence {
    var text := Excerpt(b.content, budget, space);
    Evidence(b.news, b.id, b.hash, b.url, text, |text|, |text| < |b.content|)
  }

  /** One piece of evidence for each of the ids, which all have a body. */
  function Prepared(ids: seq<NewsId>, bodies: map<NewsId, Body>, budget: nat, space: Spaces): (r: seq<Evidence>)
    requires forall id :: id in ids ==> id in bodies
    ensures |r| == |ids| && forall i :: 0 <= i < |r| ==> r[i] == EvidenceOf(bodies[ids[i]], budget, space)
  {
    if ids == [] then [] else
      var last := |ids| - 1;
      assert ids[last] in ids && forall id :: id in ids[..last] ==> id in ids;
      Prepared(ids[..last], bodies, budget, space) + [EvidenceOf(bodies[ids[last]], budget, space)]
  }

  function IdsOf(used: seq<Evidence>): seq<NewsId> {
    seq(|used|, i requires 0 <= i < |used| => used[i].news)
  }

  datatype Abandonment = NoUsableEvidence | UnusedStockEvidence

  datatype Drafted = Ready(report: Report) | Abandoned(why: Abandonment)

  /** The document built from a finished batch, when the analysis cites only what it was given. */
  function Draft(ids: seq<NewsId>, b: Book, stocks: seq<set<NewsId>>, space: Spaces): Drafted {
    var order := SortedIds(ids);
    var used := Picked(order, b.successes.Keys);
    if used == [] then Abandoned(NoUsableEvidence)
    else if exists s :: s in stocks && !(s <= Elements(used)) then Abandoned(UnusedStockEvidence)
    else
      var failed := Picked(order, b.failures.Keys);
      Ready(Report(order, Prepared(used, b.successes, Budget(|used|), space), failed,
                   Coverage(|ids|, |used|, |failed|), stocks, failed == []))
  }

  // ----- save_report -----------------------------------------------------------------------------------

  datatype Invalid = BadPartition | BadCoverage | BadLength | BadStockEvidence | BadReuse | BadBody | BadPrefix

  predicate Distinct(s: seq<NewsId>) {
    |Elements(s)| == |s|
  }

  function CheckedBody(e: Evidence, store: map<BodyId, Body>): Option<Invalid> {
    if e.body !in store then Some(BadBody)
    else
      var b := store[e.body];
      if b.news != e.news || b.hash != e.hash || b.url != e.url then Some(BadBody)
      else if !(e.excerpt <= b.content) || e.truncated != (|e.excerpt| < |b.content|) then Some(BadPrefix)
      else None
  }

  function CheckedBodies(used: seq<Evidence>, store: map<BodyId, Body>): Option<Invalid> {
    if used == [] then None
    else if CheckedBody(used[0], store).Some? then CheckedBody(used[0], store)
    else CheckedBodies(used[1..], store)
  }

  /** The checks before an insertion, in their order: the first that fails, or none. */
  function Checked(doc: Report, store: map<BodyId, Body>): Option<Invalid> {
    var used := IdsOf(doc.used);
    if used == [] || !Distinct(doc.requested) || !Distinct(used + doc.failed)
      || Elements(doc.requested) != Elements(used + doc.failed)
    then Some(BadPartition)
    else if doc.coverage != Coverage(|doc.requested|, |used|, |doc.failed|) then Some(BadCoverage)
    else if exists e :: e in doc.used && e.chars != |e.excerpt| then Some(BadLength)
    else if exists s :: s in doc.stocks && !(s <= Elements(used)) then Some(BadStockEvidence)
    else if doc.reusable && doc.failed != [] then Some(BadReuse)
    else CheckedBodies(doc.used, store)
  }

  // ----- Every document of the pipeline passes ------------------------------------------------------------

  lemma {:induction false} InsertedMembers(x: nat, s: seq<nat>)
    ensures multiset(Inserted(x, s)) == multiset(s) + multiset{x}
  {
    if s != [] {
      assert s == [s[0]] + s[1..];
      if x >= s[0] {
        InsertedMembers(x, s[1..]);
      }
    }
  }

  lemma {:induction false} SortedMembers(s: seq<nat>)
    ensures multiset(SortedIds(s)) == multiset(s)
  {
    if s != [] {
      SortedMembers(s[..|s| - 1]);
      InsertedMembers(s[|s| - 1], SortedIds(s[..|s| - 1]));
      assert s == s[..|s| - 1] + [s[|s| - 1]];
    }
  }

  lemma {:induction false} SortedElements(s: seq<nat>)
    requires NoRepeats(s)
    ensures Elements(SortedIds(s)) == Elements(s) && |SortedIds(s)| == |s| && NoRepeats(SortedIds(s))
  {
    var t := SortedIds(s);
    SortedMembers(s);
    assert |t| == |multiset(t)| == |multiset(s)| == |s|;
    forall x ensures x in t <==> x in s {
      assert x in t <==> x in multiset(t);
      assert x in s <==> x in multiset(s);
    }
    assert Elements(t) == Elements(s);
    SizeOf(s);
    FullSize(t);
  }

  lemma {:induction false} FullSize(s: seq<nat>)
    requires |Elements(s)| == |s|
    ensures NoRepeats(s)
  {
    if s != [] {
      var front, last := s[..|s| - 1], s[|s| - 1];
      assert s == front + [last];
      assert Elements(s) == Elements(front) + {last};
      SizeBound(front);
      assert last !in Elements(front);
      FullSize(front);
    }
  }

  lemma {:induction false} SizeBound(s: seq<nat>)
    ensures |Elements(s)| <= |s|
  {
    if s != [] {
      var front, last := s[..|s| - 1], s[|s| - 1];
      assert s == front + [last];
      assert Elements(s) == Elements(front) + {last};
      SizeBound(front);
    }
  }

  lemma {:induction false} PickedDistinct(s: seq<nat>, some: set<nat>)
    requires NoRepeats(s)
    ensures NoRepeats(Picked(s, some))
  {
    if s != [] {
      PickedDistinct(s[..|s| - 1], some);
    }
  }

  lemma {:induction false} JoinedDistinct(s: seq<nat>, t: seq<nat>)
    requires NoRepeats(s) && NoRepeats(t) && forall x :: x in s ==> x !in t
    ensures NoRepeats(s + t)
  {
    forall i, k | 0 <= i < k < |s + t| ensures (s + t)[i] != (s + t)[k] {
      if i < |s| && k >= |s| {
        assert (s + t)[i] in s && (s + t)[k] in t;
      }
    }
  }

  lemma {:induction false} BodiesPass(used: seq<Evidence>, ids: seq<NewsId>, bodies: map<NewsId, Body>, budget: nat,
      space: Spaces, store: map<BodyId, Body>)
    requires |used| == |ids| && forall i :: 0 <= i < |ids| ==>
             ids[i] in bodies && used[i] == EvidenceOf(bodies[ids[i]], budget, space)
    requires forall id :: id in bodies ==> bodies[id].id in store && store[bodies[id].id] == bodies[id]
    ensures CheckedBodies(used, store) == None
    ensures forall e :: e in used ==> e.chars == |e.excerpt| <= budget
  {
    if used != [] {
      ExcerptIsPrefix(bodies[ids[0]].content, budget, space);
      assert used == [used[0]] + used[1..];
      BodiesPass(used[1..], ids[1..], bodies, budget, space, store);
    }
  }

  function Characters(used: seq<Evidence>): nat {
    if used == [] then 0 else Characters(used[..|used| - 1]) + |used[|used| - 1].excerpt|
  }

  lemma {:induction false} CharactersBound(used: seq<Evidence>, budget: nat)
    requires forall e :: e in used ==> |e.excerpt| <= budget
    ensures Characters(used) <= |used| * budget
  {
    if used != [] {
      CharactersBound(used[..|used| - 1], budget);
      assert used[|used| - 1] in used;
      assert |used| * budget == (|used| - 1) * budget + budget;
    }
  }

  lemma {:induction false} BudgetFits(n: nat)
    requires n > 0
    ensures n * Budget(n) <= TOTAL_LIMIT && Budget(n) <= EXCERPT_LIMIT
  {
    assert n * (TOTAL_LIMIT / n) <= TOTAL_LIMIT;
    if Budget(n) < TOTAL_LIMIT / n {
      assert n * Budget(n) <= n * (TOTAL_LIMIT / n);
    }
  }

  lemma {:induction false} PickedParts(ids: seq<NewsId>, some: set<NewsId>)
    requires NoRepeats(ids) && some <= Elements(ids)
    ensures Elements(Picked(SortedIds(ids), some)) == some && NoRepeats(Picked(SortedIds(ids), some))
  {
    SortedElements(ids);
    PickedDistinct(SortedIds(ids), some);
    forall x ensures x in Picked(SortedIds(ids), some) <==> x in some {
      assert x in SortedIds(ids) <==> x in Elements(SortedIds(ids));
      assert x in some ==> x in Elements(ids);
    }
  }

  lemma {:induction false} ElementsJoined(s: seq<NewsId>, t: seq<NewsId>)
    ensures Elements(s + t) == Elements(s) + Elements(t)
  {
  }

  /** Used and failed articles part the requested ones. */
  lemma {:induction false} PartitionPasses(ids: seq<NewsId>, all: set<NewsId>, good: set<NewsId>, bad: set<NewsId>)
    requires NoRepeats(ids) && all == Elements(ids) && ThreeWays(all, {}, good, bad)
    ensures var order := SortedIds(ids);
            var used, failed := Picked(order, good), Picked(order, bad);
            Distinct(order) && Distinct(used + failed) && Elements(order) == Elements(used + failed) && |order| == |ids|
  {
    var order := SortedIds(ids);
    var used, failed := Picked(order, good), Picked(order, bad);
    assert all == good + bad;
    SortedElements(ids);
    PickedParts(ids, good);
    PickedParts(ids, bad);
    ElementsJoined(used, failed);
    forall x | x in used ensures x !in failed {
      assert x in Elements(used);
    }
    JoinedDistinct(used, failed);
    SizeOf(order);
    SizeOf(used + failed);
  }

  lemma {:induction false} PartsPass(doc: Report, used: seq<NewsId>, store: map<BodyId, Body>)
    requires IdsOf(doc.used) == used && used != []
    requires Distinct(doc.requested) && Distinct(used + doc.failed)
             && Elements(doc.requested) == Elements(used + doc.failed)
    requires doc.coverage == Coverage(|doc.requested|, |used|, |doc.failed|)
    requires forall e :: e in doc.used ==> e.chars == |e.excerpt|
    requires forall s :: s in doc.stocks ==> s <= Elements(used)
    requires doc.reusable ==> doc.failed == []
    requires CheckedBodies(doc.used, store) == None
    ensures Checked(doc, store) == None
  {
  }

  lemma {:induction false} EvidencePasses(used: seq<NewsId>, b: Book, space: Spaces, store: map<BodyId, Body>)
    requires used != [] && Elements(used) == b.successes.Keys && Sourced(b)
    requires forall id :: id in b.successes ==>
             b.successes[id].id in store && store[b.successes[id].id] == b.successes[id]
    ensures forall id :: id in used ==> id in b.successes
    ensures var evidence := Prepared(used, b.successes, Budget(|used|), space);
            && IdsOf(evidence) == used && CheckedBodies(evidence, store) == None
            && Characters(evidence) <= TOTAL_LIMIT
            && (forall e :: e in evidence ==> e.chars == |e.excerpt| <= EXCERPT_LIMIT)
  {
    forall id | id in used ensures id in b.successes {
      assert id in Elements(used);
    }
    BudgetFits(|used|);
    var evidence := Prepared(used, b.successes, Budget(|used|), space);
    BodiesPass(evidence, used, b.successes, Budget(|used|), space, store);
    CharactersBound(evidence, Budget(|used|));
  }

  /**
   The document that the pipeline builds from a finished batch passes every check of `save_report`,
   whatever the analysis cites, and its excerpts keep both limits.
   */
  lemma {:induction false} PipelineDocumentPasses(ids: seq<NewsId>, r: Batch, keys: nat, stocks: seq<set<NewsId>>,
      space: Spaces, store: map<BodyId, Body>)
    requires NoRepeats(ids) && Sound(ids, r, keys)
    requires forall id :: id in r.book.successes ==> r.book.successes[id].id in store
                                                     && store[r.book.successes[id].id] == r.book.successes[id]
    ensures var d := Draft(ids, r.book, stocks, space);
            d.Ready? ==> && Checked(d.report, store) == None
                         && Characters(d.report.used) <= TOTAL_LIMIT
                         && (forall e :: e in d.report.used ==> |e.excerpt| <= EXCERPT_LIMIT)
  {
    var good, bad := r.book.successes.Keys, r.book.failures.Keys;
    var used := Picked(SortedIds(ids), good);
    var d := Draft(ids, r.book, stocks, space);
    if d.Ready? {
      PartitionPasses(ids, Elements(ids), good, bad);
      PickedParts(ids, good);
      EvidencePasses(used, r.book, space, store);
      PartsPass(d.report, used, store);
    }
  }

  ghost predicate Ascending(s: seq<nat>) {
    forall i, k :: 0 <= i < k < |s| ==> s[i] < s[k]
  }

  lemma {:induction false} InsertedOnly(x: nat, s: seq<nat>, i: nat)
    requires i < |Inserted(x, s)|
    ensures Inserted(x, s)[i] == x || Inserted(x, s)[i] in s
  {
    if s != [] && x >= s[0] && i > 0 {
      InsertedOnly(x, s[1..], i - 1);
    }
  }

  lemma {:induction false} InsertedAscends(x: nat, s: seq<nat>)
    requires Ascending(s) && x !in s
    ensures Ascending(Inserted(x, s))
  {
    if s != [] && x >= s[0] {
      var rest := Inserted(x, s[1..]);
      InsertedAscends(x, s[1..]);
      forall i | 0 <= i < |rest| ensures s[0] < rest[i] {
        InsertedOnly(x, s[1..], i);
      }
    }
  }

  lemma {:induction false} SortedAscends(s: seq<nat>)
    requires NoRepeats(s)
    ensures Ascending(SortedIds(s))
  {
    if s != [] {
      var front, last := s[..|s| - 1], s[|s| - 1];
      SortedAscends(front);
      SortedMembers(front);
      assert last in SortedIds(front) <==> last in multiset(SortedIds(front));
      InsertedAscends(last, SortedIds(front));
    }
  }

  lemma {:induction false} PickedAscends(s: seq<nat>, some: set<nat>)
    requires Ascending(s)
    ensures Ascending(Picked(s, some))
  {
    if s != [] {
      var front, last := s[..|s| - 1], s[|s| - 1];
      PickedAscends(front, some);
      var rest := Picked(front, some);
      forall i | 0 <= i < |rest| ensures rest[i] < last {
        assert rest[i] in front;
      }
    }
  }

  /** A body quoted by this piece of evidence, up to the budget. */
  ghost predicate Quotes(e: Evidence, b: Body, budget: nat, space: Spaces) {
    && e.news == b.news && e.body == b.id && e.hash == b.hash && e.url == b.url
    && e.excerpt == Excerpt(b.content, budget, space) && e.chars == |e.excerpt|
    && (e.truncated <==> |e.excerpt| < |b.content|)
  }

  /** An equal share of 60000 characters for each of n articles, but no more than 12000. */
  function ShareOf(n: nat): nat {
    if n == 0 || 60000 / n > 12000 then 12000 else 60000 / n
  }

  lemma {:induction false} AllQuoted(used: seq<NewsId>, bodies: map<NewsId, Body>, budget: nat, space: Spaces)
    requires forall id :: id in used ==> id in bodies && bodies[id].news == id
    ensures var evidence := Prepared(used, bodies, budget, space);
            && IdsOf(evidence) == used
            && forall e :: e in evidence ==> e.news in bodies && Quotes(e, bodies[e.news], budget, space)
  {
    var evidence := Prepared(used, bodies, budget, space);
    forall i | 0 <= i < |evidence| ensures evidence[i].news == used[i]
                                           && Quotes(evidence[i], bodies[used[i]], budget, space) {
      assert used[i] in used;
    }
  }

  /** The articles in ascending order, and how many there are. */
  ghost predicate Lists(s: seq<NewsId>, all: set<NewsId>) {
    Ascending(s) && Elements(s) == all && |s| == |all|
  }

  lemma {:induction false} PickedLists(ids: seq<NewsId>, some: set<NewsId>)
    requires NoRepeats(ids) && some <= Elements(ids)
    ensures Lists(Picked(SortedIds(ids), some), some) && Lists(SortedIds(ids), Elements(ids))
  {
    SortedElements(ids);
    SortedAscends(ids);
    PickedAscends(SortedIds(ids), some);
    PickedParts(ids, some);
    SizeOf(SortedIds(ids));
    SizeOf(Picked(SortedIds(ids), some));
  }

  /**
   A report lists the requested articles, the successes, each quoted up to its share, and the failures,
   all in ascending order. It can be reused when nothing failed.
   */
  ghost predicate Reports(doc: Report, ids: seq<NewsId>, book: Book, stocks: seq<set<NewsId>>, space: Spaces) {
    && Lists(doc.requested, Elements(ids)) && Lists(IdsOf(doc.used), book.successes.Keys)
    && Lists(doc.failed, book.failures.Keys)
    && (forall e :: e in doc.used ==>
          e.news in book.successes && Quotes(e, book.successes[e.news], ShareOf(|book.successes.Keys|), space))
    && doc.coverage == Coverage(|ids|, |book.successes.Keys|, |book.failures.Keys|)
    && doc.stocks == stocks && (doc.reusable <==> book.failures.Keys == {})
  }

  /** The document of a finished batch, in terms of the batch alone. */
  lemma {:induction false} DraftReports(ids: seq<NewsId>, r: Batch, keys: nat, stocks: seq<set<NewsId>>, space: Spaces)
    requires NoRepeats(ids) && Sound(ids, r, keys)
    ensures var d := Draft(ids, r.book, stocks, space);
            d.Ready? ==> Reports(d.report, ids, r.book, stocks, space)
  {
    var d, book := Draft(ids, r.book, stocks, space), r.book;
    if d.Ready? {
      var order := SortedIds(ids);
      var used, failed := Picked(order, book.successes.Keys), Picked(order, book.failures.Keys);
      PickedLists(ids, book.successes.Keys);
      PickedLists(ids, book.failures.Keys);
      forall id | id in used ensures id in book.successes && book.successes[id].news == id {
        assert id in Elements(used);
      }
      AllQuoted(used, book.successes, Budget(|used|), space);
      assert Budget(|used|) == ShareOf(|book.successes.Keys|);
      assert failed == [] <==> book.failures.Keys == {} by {
        assert failed == [] <==> |book.failures.Keys| == 0;
      }
    }
  }

  /** A batch gives a report unless nothing succeeded or the analysis cites an article it was not given. */
  lemma {:induction false} DraftedIff(ids: seq<NewsId>, r: Batch, keys: nat, stocks: seq<set<NewsId>>, space: Spaces)
    requires NoRepeats(ids) && Sound(ids, r, keys)
    ensures Draft(ids, r.book, stocks, space).Ready? <==>
            r.book.successes.Keys != {} && forall s :: s in stocks ==> s <= r.book.successes.Keys
  {
    var used := Picked(SortedIds(ids), r.book.successes.Keys);
    PickedParts(ids, r.book.successes.Keys);
    if used != [] {
      assert used[0] in Elements(used);
    }
  }

  // ----- What the checks mean ------------------------------------------------------------------------------

  ghost predicate Recorded(e: Evidence, store: map<BodyId, Body>) {
    && e.body in store
    && var b := store[e.body];
       && b.news == e.news && b.hash == e.hash && b.url == e.url
       && e.excerpt <= b.content && (e.truncated <==> e.excerpt != b.content)
  }

  /** The evidence of a report: a partition of the requested articles, counted, and quoted from stored bodies. */
  ghost predicate Acceptable(doc: Report, store: map<BodyId, Body>) {
    var used := IdsOf(doc.used);
    && used != [] && NoRepeats(doc.requested) && NoRepeats(used + doc.failed)
    && (forall id :: id in doc.requested <==> id in used || id in doc.failed)
    && doc.coverage == Coverage(|doc.requested|, |used|, |doc.failed|)
    && (forall e :: e in doc.used ==> e.chars == |e.excerpt| && Recorded(e, store))
    && (forall s :: s in doc.stocks ==> s <= Elements(used))
    && (doc.reusable ==> doc.failed == [])
  }

  lemma {:induction false} DistinctIff(s: seq<NewsId>)
    ensures Distinct(s) <==> NoRepeats(s)
  {
    if NoRepeats(s) {
      SizeOf(s);
    }
    if Distinct(s) {
      FullSize(s);
    }
  }

  lemma {:induction false} BodiesIff(used: seq<Evidence>, store: map<BodyId, Body>)
    ensures CheckedBodies(used, store) == None <==> forall e :: e in used ==> Recorded(e, store)
  {
    if used != [] {
      assert used == [used[0]] + used[1..];
      BodiesIff(used[1..], store);
      assert CheckedBody(used[0], store) == None <==> Recorded(used[0], store);
    }
  }

  /** A document passes the checks if and only if it is acceptable. */
  lemma {:induction false} CheckedIff(doc: Report, store: map<BodyId, Body>)
    ensures Checked(doc, store) == None <==> Acceptable(doc, store)
  {
    var used := IdsOf(doc.used);
    DistinctIff(doc.requested);
    DistinctIff(used + doc.failed);
    BodiesIff(doc.used, store);
    ElementsJoined(used, doc.failed);
    assert Elements(doc.requested) == Elements(used) + Elements(doc.failed)
           <==> forall id :: id in doc.requested <==> id in used || id in doc.failed by {
      SameElements(doc.requested, used, doc.failed);
    }
  }

  lemma {:induction false} SameElements(all: seq<NewsId>, s: seq<NewsId>, t: seq<NewsId>)
    ensures Elements(all) == Elements(s) + Elements(t) <==> forall id :: id in all <==> id in s || id in t
  {
    if Elements(all) == Elements(s) + Elements(t) {
      forall id ensures id in all <==> id in s || id in t {
        assert id in Elements(all) <==> id in Elements(s) + Elements(t);
      }
    }
  }
}
