/**
 DecisionNewsMapSelector of app/agents/decision_selector.py: greedy selection by useful roles, whose
 rounds commit only when every question was answered.
 */
module DecisionSelector {
  import opened Basics
  import opened Candidates
  import opened PoolLaws

  const ROLE_PENALTY: real := 0.3
  const NO_RANK: int := 1000000000

  datatype Bucket = CentreGroup | Excluded | Doubtful | Useful

  /** The routed answer about one candidate; `help` is its expected helpfulness. */
  datatype Answer = Answer(bucket: Bucket, role: nat, help: real)

  /** The answers the service gives, and the policy read from them. */
  datatype Jury = Jury(threshold: real, quantise: real -> real, answer: Article -> Answer,
                       redundant: (Article, Article) -> bool)
  {
    function Score(a: Article): real {
      var third := answer(a).help / 3.0;
      if third < 1.0 then third else 1.0
    }

    function FateOf(a: Article): Fate {
      match answer(a).bucket
      case CentreGroup => CentreRepeat
      case Excluded => Unconnected
      case Doubtful => Withheld
      case Useful => if Score(a) < threshold then BelowThreshold else Candidate
    }

    function Fates(): Article -> Fate {
      a => FateOf(a)
    }

    function SameRole(role: nat, shown: seq<Article>): nat {
      if shown == [] then 0 else
        SameRole(role, shown[..|shown| - 1]) + if answer(shown[|shown| - 1]).role == role then 1 else 0
    }

    function Rank(a: Article): int {
      if a.rank.Some? && a.rank.value > 0 then a.rank.value else NO_RANK
    }

    /** Usefulness less a penalty for each displayed article of the same role, then the search rank. */
    function ByRole(shown: seq<Article>): Article -> Priority {
      a => Priority(quantise(Score(a) * 3.0 - ROLE_PENALTY * SameRole(answer(a).role, shown) as real),
                    0.0, -Rank(a), a.id)
    }

    function Rules(): Rules {
      PoolLaws.Rules(Fates(), (a, b) => !redundant(a, b))
    }
  }

  /** Which questions about a pair get an answer in this round. */
  type Answered = (Article, Article) -> bool

  datatype Comparison = Failed | Redundant | New

  /** The displayed articles are asked about in order, until one makes the candidate redundant. */
  function Compared(j: Jury, shown: seq<Article>, a: Article, asked: Answered): Comparison {
    if shown == [] then New else
      var earlier := Compared(j, shown[..|shown| - 1], a, asked);
      if earlier != New then earlier
      else if !asked(shown[|shown| - 1], a) then Failed
      else if j.redundant(shown[|shown| - 1], a) then Redundant
      else New
  }

  /** The copies a selection round works on. */
  datatype Draft = Draft(selected: seq<Article>, pending: seq<Article>, duplicates: nat)

  predicate Over(d: Draft, limit: int) {
    d.pending == [] || |d.selected| >= limit
  }

  function Next(j: Jury, d: Draft): Article
    requires d.pending != []
    ensures Next(j, d) in d.pending
  {
    Foremost(d.pending, j.ByRole(d.selected))
  }

  function Judged(j: Jury, d: Draft, asked: Answered): (r: Option<Draft>)
    requires d.pending != []
    ensures r.Some? ==> |r.value.pending| < |d.pending|
  {
    var best := Next(j, d);
    var rest := Minus(d.pending, best);
    MinusMultiset(d.pending, best);
    match Compared(j, d.selected, best, asked)
    case Failed => None
    case Redundant => Some(Draft(d.selected, rest, d.duplicates + 1))
    case New => Some(Draft(d.selected + [best], rest, d.duplicates))
  }

  function Decided(j: Jury, d: Draft, limit: int, asked: Answered): Option<Draft>
    decreases |d.pending|
  {
    if Over(d, limit) then Some(d) else
      var next := Judged(j, d, asked);
      if next.None? then None else Decided(j, next.value, limit, asked)
  }

  function Opened(p: Pool): Draft {
    Draft(p.selected, p.remaining, 0)
  }

  function Closed(p: Pool, d: Draft): Pool {
    Pool(p.seen, d.pending, d.selected, p.counts.(neighbourRepeats := p.counts.neighbourRepeats + d.duplicates))
  }

  function Added(j: Jury, p: Pool, cs: seq<Article>, limit: Option<int>): Pool {
    Evaluated(j, p, Fresh(cs, p.seen, limit))
  }

  function Evaluated(j: Jury, p: Pool, taken: seq<Article>): Pool {
    Pool(p.seen + KeysOf(taken), p.remaining + Those(taken, j.Fates(), Candidate), p.selected,
         Tallied(p.counts, taken, j.Fates()))
  }

  lemma {:induction false} ComparedStays(j: Jury, shown: seq<Article>, a: Article, asked: Answered, i: nat)
    requires i <= |shown| && Compared(j, shown[..i], a, asked) != New
    ensures Compared(j, shown, a, asked) == Compared(j, shown[..i], a, asked)
  {
    if i < |shown| {
      assert shown[..|shown| - 1][..i] == shown[..i];
      ComparedStays(j, shown[..|shown| - 1], a, asked, i);
    } else {
      assert shown[..i] == shown;
    }
  }

  class DecisionNewsMapSelector {
    const jury: Jury
    var seen: set<Key>
    var remaining: seq<Article>
    var selected: seq<Article>
    var evaluated: nat
    var centreRepeats: nat
    var neighbourRepeats: nat
    var withheld: nat
    var belowThreshold: nat
    var entityOnly: nat
    var unconnected: nat

    function View(): Pool
      reads this
    {
      Pool(seen, remaining, selected,
           Counts(evaluated, centreRepeats, neighbourRepeats, withheld, belowThreshold, entityOnly, unconnected))
    }

    constructor (jury: Jury, known: set<Key>)
      ensures this.jury == jury && View() == Empty(known)
    {
      this.jury, seen, remaining, selected, evaluated := jury, known, [], [], 0;
      centreRepeats, neighbourRepeats, withheld, belowThreshold, entityOnly, unconnected := 0, 0, 0, 0, 0, 0;
    }

    /** Evaluates new candidates; when one question gets no answer, the round raises and nothing has changed. */
    method Add(cs: seq<Article>, limit: Option<int>, asked: Article -> bool) returns (added: Option<nat>)
      modifies this
      ensures var taken := Fresh(cs, old(seen), limit);
              if forall a :: a in taken ==> asked(a)
              then added == Some(|taken|) && View() == Added(jury, old(View()), cs, limit)
              else added == None && View() == old(View())
    {
      var taken, known := CollectFresh(cs, seen, limit);
      if taken == [] {
        return Some(0);
      }
      if exists a :: a in taken && !asked(a) {
        return None;
      }
      Commit(taken, known);
      return Some(|taken|);
    }

    /** Counts and routes the new candidates, all of which have an answer. */
    method Commit(taken: seq<Article>, known: set<Key>)
      requires known == seen + KeysOf(taken)
      modifies this
      ensures View() == Evaluated(jury, old(View()), taken)
    {
      seen := known;
      evaluated := evaluated + |taken|;
      RouteAll(taken);
    }

    method RouteAll(taken: seq<Article>)
      modifies this`remaining, this`centreRepeats, this`withheld, this`unconnected, this`belowThreshold
      ensures remaining == old(remaining) + Those(taken, jury.Fates(), Candidate)
      ensures centreRepeats == old(centreRepeats) + Count(taken, jury.Fates(), CentreRepeat)
      ensures withheld == old(withheld) + Count(taken, jury.Fates(), Withheld)
      ensures unconnected == old(unconnected) + Count(taken, jury.Fates(), Unconnected)
      ensures belowThreshold == old(belowThreshold) + Count(taken, jury.Fates(), BelowThreshold)
      ensures Count(taken, jury.Fates(), EntityOnly) == 0
    {
      for i := 0 to |taken|
        invariant remaining == old(remaining) + Those(taken[..i], jury.Fates(), Candidate)
        invariant centreRepeats == old(centreRepeats) + Count(taken[..i], jury.Fates(), CentreRepeat)
        invariant withheld == old(withheld) + Count(taken[..i], jury.Fates(), Withheld)
        invariant unconnected == old(unconnected) + Count(taken[..i], jury.Fates(), Unconnected)
        invariant belowThreshold == old(belowThreshold) + Count(taken[..i], jury.Fates(), BelowThreshold)
        invariant Count(taken[..i], jury.Fates(), EntityOnly) == 0
      {
        var a := taken[i];
        assert taken[..i + 1][..i] == taken[..i];
        match jury.answer(a).bucket
        case CentreGroup => centreRepeats := centreRepeats + 1;
        case Excluded => unconnected := unconnected + 1;
        case Doubtful => withheld := withheld + 1;
        case Useful =>
          if jury.Score(a) < jury.threshold {
            belowThreshold := belowThreshold + 1;
          } else {
            remaining := remaining + [a];
          }
      }
      assert taken[..|taken|] == taken;
    }

    /** Continues the selection; when one question gets no answer, the round raises and nothing has changed. */
    method Select(limit: int, asked: Answered) returns (shown: Option<seq<Article>>)
      modifies this
      ensures match Decided(jury, Opened(old(View())), limit, asked)
              case None => shown == None && View() == old(View())
              case Some(d) => shown == Some(d.selected) && View() == Closed(old(View()), d)
    {
      var draft := Work(limit, asked);
      if draft.None? {
        return None;
      }
      Store(draft.value);
      return Some(selected);
    }

    /** The selection loop on copies of the two lists; it stops at the first question without an answer. */
    method Work(limit: int, asked: Answered) returns (draft: Option<Draft>)
      ensures draft == Decided(jury, Opened(View()), limit, asked)
    {
      var d := Draft(selected, remaining, 0);
      while d.pending != [] && |d.selected| < limit
        invariant Decided(jury, Opened(View()), limit, asked) == Decided(jury, d, limit, asked)
        decreases |d.pending|
      {
        draft := Judge(d, asked);
        if draft.None? {
          return;
        }
        d := draft.value;
      }
      return Some(d);
    }

    /** Takes the foremost pending article: it is displayed, or dropped as redundant. */
    method Judge(d: Draft, asked: Answered) returns (next: Option<Draft>)
      requires d.pending != []
      ensures next == Judged(jury, d, asked)
    {
      var best := Foremost(d.pending, jury.ByRole(d.selected));
      var rest := Minus(d.pending, best);
      var verdict := Compare(d.selected, best, asked);
      match verdict
      case Failed => return None;
      case Redundant => return Some(Draft(d.selected, rest, d.duplicates + 1));
      case New => return Some(Draft(d.selected + [best], rest, d.duplicates));
    }

    /** Replaces the selection by the finished copies. */
    method Store(d: Draft)
      modifies this`selected, this`remaining, this`neighbourRepeats
      ensures View() == Closed(old(View()), d)
    {
      selected, remaining := d.selected, d.pending;
      neighbourRepeats := neighbourRepeats + d.duplicates;
    }

    method Compare(shown: seq<Article>, a: Article, asked: Answered) returns (verdict: Comparison)
      ensures verdict == Compared(jury, shown, a, asked)
    {
      for i := 0 to |shown|
        invariant Compared(jury, shown[..i], a, asked) == New
      {
        assert shown[..i + 1][..i] == shown[..i];
        if !asked(shown[i], a) {
          ComparedStays(jury, shown, a, asked, i + 1);
          return Failed;
        }
        if jury.redundant(shown[i], a) {
          ComparedStays(jury, shown, a, asked, i + 1);
          return Redundant;
        }
      }
      assert shown[..|shown|] == shown;
      return New;
    }
  }
}

/** What DecisionNewsMapSelector guarantees over any sequence of rounds, failed ones included. */
module DecisionLaws {
  import opened Basics
  import opened Candidates
  import opened PoolLaws
  import opened DecisionSelector

  lemma {:induction false} AddedSound(j: Jury, p: Pool, known: set<Key>, cs: seq<Article>, limit: Option<int>)
    requires Sound(j.Rules(), p, known)
    ensures Sound(j.Rules(), Added(j, p, cs, limit), known)
  {
    var taken := Fresh(cs, p.seen, limit);
    FreshIsNew(cs, p.seen, limit);
    ThoseSeparate(taken, j.Fates(), Candidate);
    var joining := Those(taken, j.Fates(), Candidate);
    forall a | a in joining ensures a in taken && j.FateOf(a) == Candidate {
      ThoseMember(taken, j.Fates(), Candidate, a);
    }
    JoinedSound(j.Rules(), p, known, taken, joining);
  }

  lemma {:induction false} NewAgainstEach(j: Jury, shown: seq<Article>, a: Article, asked: Answered)
    requires Compared(j, shown, a, asked) == New
    ensures forall i :: 0 <= i < |shown| ==> !j.redundant(shown[i], a)
  {
    if shown != [] {
      NewAgainstEach(j, shown[..|shown| - 1], a, asked);
    }
  }

  lemma {:induction false} JudgedSound(j: Jury, p: Pool, known: set<Key>, d: Draft, asked: Answered)
    requires Sound(j.Rules(), Closed(p, d), known) && d.pending != [] && Judged(j, d, asked).Some?
    ensures var r := Judged(j, d, asked).value;
            Sound(j.Rules(), Closed(p, r), known) && d.selected <= r.selected && |r.selected| <= |d.selected| + 1
  {
    var best := Next(j, d);
    MinusMultiset(d.pending, best);
    match Compared(j, d.selected, best, asked)
    case New =>
      NewAgainstEach(j, d.selected, best, asked);
      ShownSound(j.Rules(), Closed(p, d), known, best);
    case Redundant =>
      MinusSeparate(d.pending, best);
    case Failed =>
  }

  /** A completed round keeps the invariant, only appends, and stops short only when nothing is pending. */
  lemma {:induction false} DecidedSound(j: Jury, p: Pool, known: set<Key>, d: Draft, limit: int, asked: Answered)
    requires Sound(j.Rules(), Closed(p, d), known) && Decided(j, d, limit, asked).Some?
    ensures var r := Decided(j, d, limit, asked).value;
            && Sound(j.Rules(), Closed(p, r), known)
            && d.selected <= r.selected && |r.selected| <= Max(|d.selected|, limit)
            && (|r.selected| < limit ==> r.pending == [])
    decreases |d.pending|
  {
    if !Over(d, limit) {
      JudgedSound(j, p, known, d, asked);
      DecidedSound(j, p, known, Judged(j, d, asked).value, limit, asked);
    }
  }

  lemma {:induction false} DraftResumes(j: Jury, d: Draft, m: int, n: int, asked: Answered)
    requires m <= n && Decided(j, d, n, asked).Some?
    ensures Decided(j, d, m, asked).Some?
    ensures Decided(j, Decided(j, d, m, asked).value, n, asked) == Decided(j, d, n, asked)
    decreases |d.pending|
  {
    if !Over(d, m) {
      DraftResumes(j, Judged(j, d, asked).value, m, n, asked);
    }
  }

  function WithRepeats(d: Draft, k: nat): Draft {
    d.(duplicates := d.duplicates + k)
  }

  /** The duplicates counted before a round have no part in its choices. */
  lemma {:induction false} RepeatsCarryOver(j: Jury, d: Draft, k: nat, limit: int, asked: Answered)
    ensures var r := Decided(j, d, limit, asked);
            Decided(j, WithRepeats(d, k), limit, asked) == if r.None? then None else Some(WithRepeats(r.value, k))
    decreases |d.pending|
  {
    if !Over(d, limit) {
      var next := Judged(j, d, asked);
      assert Judged(j, WithRepeats(d, k), asked) == if next.None? then None else Some(WithRepeats(next.value, k));
      if next.Some? {
        RepeatsCarryOver(j, next.value, k, limit, asked);
      }
    }
  }

  // ----- What the greedy choice rewards ----------------------------------------------------------------------

  ghost predicate TakenFrom(d: Draft, r: Draft) {
    && d.selected <= r.selected
    && (forall x :: x in r.selected[|d.selected|..] || x in r.pending ==> x in d.pending)
  }

  lemma {:induction false} JudgedFrom(j: Jury, d: Draft, asked: Answered)
    requires d.pending != [] && Judged(j, d, asked).Some?
    ensures TakenFrom(d, Judged(j, d, asked).value)
  {
    MinusMembers(d.pending, Next(j, d));
  }

  lemma {:induction false} DecidedFrom(j: Jury, d: Draft, limit: int, asked: Answered)
    requires Decided(j, d, limit, asked).Some?
    ensures TakenFrom(d, Decided(j, d, limit, asked).value)
    decreases |d.pending|
  {
    if !Over(d, limit) {
      JudgedFrom(j, d, asked);
      DecidedFrom(j, Judged(j, d, asked).value, limit, asked);
    }
  }

  /** The expected helpfulness of an article, of at most 3, less 0.3 for each displayed article in its role. */
  function Worth(j: Jury, x: Article, sameRole: nat): real {
    var third := j.answer(x).help / 3.0;
    j.quantise((if third < 1.0 then third else 1.0) * 3.0 - 0.3 * sameRole as real)
  }

  /** How many of the displayed articles play the role of x. */
  function InRole(j: Jury, x: Article, shown: seq<Article>): nat {
    Number(shown, y => j.answer(y).role == j.answer(x).role)
  }

  lemma {:induction false} RoleIsCounted(j: Jury, role: nat, shown: seq<Article>, test: Article -> bool)
    requires forall y :: test(y) <==> j.answer(y).role == role
    ensures Number(shown, test) == j.SameRole(role, shown)
  {
    if shown != [] {
      RoleIsCounted(j, role, shown[..|shown| - 1], test);
    }
  }

  /** The search rank, articles without one coming last. */
  function SearchRank(x: Article): int {
    if x.rank.Some? && x.rank.value > 0 then x.rank.value else 1000000000
  }

  /** x is not better than b: by value, then by search rank, then by the smaller id. */
  predicate NoBetter(vx: real, x: Article, vb: real, b: Article) {
    vx < vb || (vx == vb && (SearchRank(x) > SearchRank(b) || (SearchRank(x) == SearchRank(b) && b.id <= x.id)))
  }

  lemma {:induction false} WorthIsValue(j: Jury, x: Article, shown: seq<Article>)
    ensures j.ByRole(shown)(x) == Priority(Worth(j, x, InRole(j, x, shown)), 0.0, -SearchRank(x), x.id)
  {
    RoleIsCounted(j, j.answer(x).role, shown, y => j.answer(y).role == j.answer(x).role);
  }

  lemma {:induction false} NextIsBest(j: Jury, d: Draft, x: Article)
    requires x in d.pending
    ensures var b := Next(j, d);
            NoBetter(Worth(j, x, InRole(j, x, d.selected)), x, Worth(j, b, InRole(j, b, d.selected)), b)
  {
    WorthIsValue(j, x, d.selected);
    WorthIsValue(j, Next(j, d), d.selected);
    assert !Precedes(j.ByRole(d.selected)(x), j.ByRole(d.selected)(Next(j, d)));
  }

  /**
   Whatever is displayed later, or is still pending, was worth no more than the article displayed at position
   k, given those displayed before it.
   */
  lemma {:induction false} SelectionRewardsNewRoles(j: Jury, d: Draft, limit: int, asked: Answered, k: nat, x: Article)
    requires Decided(j, d, limit, asked).Some?
    requires var r := Decided(j, d, limit, asked).value;
             |d.selected| <= k < |r.selected| && (x in r.selected[k..] || x in r.pending)
    ensures var r := Decided(j, d, limit, asked).value;
            var b, shown := r.selected[k], r.selected[..k];
            NoBetter(Worth(j, x, InRole(j, x, shown)), x, Worth(j, b, InRole(j, b, shown)), b)
    decreases |d.pending|
  {
    if !Over(d, limit) {
      var e, r := Judged(j, d, asked).value, Decided(j, d, limit, asked).value;
      DecidedFrom(j, e, limit, asked);
      if k < |e.selected| {
        DecidedFrom(j, d, limit, asked);
        assert r.selected[..k] == d.selected && r.selected[k] == Next(j, d);
        NextIsBest(j, d, x);
      } else {
        SelectionRewardsNewRoles(j, e, limit, asked, k, x);
      }
    }
  }

  // ----- What a round drops and counts --------------------------------------------------------------------------

  /** The questions are asked in order until one gets no answer or makes the article redundant. */
  lemma {:induction false} FirstObjection(j: Jury, shown: seq<Article>, a: Article, asked: Answered)
    ensures Compared(j, shown, a, asked) == New
            <==> forall i :: 0 <= i < |shown| ==> asked(shown[i], a) && !j.redundant(shown[i], a)
    ensures Compared(j, shown, a, asked) == Redundant
            <==> exists i :: 0 <= i < |shown| && ObjectsFirst(j, shown, a, asked, i)
  {
    if shown != [] {
      var last := |shown| - 1;
      var front := shown[..last];
      FirstObjection(j, front, a, asked);
      forall i | 0 <= i < last ensures ObjectsFirst(j, front, a, asked, i) == ObjectsFirst(j, shown, a, asked, i) {
        assert forall k :: 0 <= k <= i ==> front[k] == shown[k];
      }
      assert forall k :: 0 <= k < last ==> front[k] == shown[k];
      if Compared(j, front, a, asked) == New && asked(shown[last], a) && j.redundant(shown[last], a) {
        assert ObjectsFirst(j, shown, a, asked, last);
      } else if i :| 0 <= i < |front| && ObjectsFirst(j, front, a, asked, i) {
        assert ObjectsFirst(j, shown, a, asked, i);
      }
    }
  }

  /** Article i makes a redundant, and those before it were asked about and do not. */
  ghost predicate ObjectsFirst(j: Jury, shown: seq<Article>, a: Article, asked: Answered, i: nat)
    requires i < |shown|
  {
    && asked(shown[i], a) && j.redundant(shown[i], a)
    && forall k :: 0 <= k < i ==> asked(shown[k], a) && !j.redundant(shown[k], a)
  }

  /** A completed round drops nothing but what a displayed article makes redundant. */
  lemma {:induction false} OnlyRedundantGo(j: Jury, d: Draft, limit: int, asked: Answered, x: Article)
    requires x in d.pending && Decided(j, d, limit, asked).Some?
    ensures var r := Decided(j, d, limit, asked).value;
            x in r.selected || x in r.pending || exists s :: s in r.selected && j.redundant(s, x)
    decreases |d.pending|
  {
    if !Over(d, limit) {
      var best, e := Next(j, d), Judged(j, d, asked).value;
      FirstObjection(j, d.selected, best, asked);
      MinusMultiset(d.pending, best);
      DecidedFrom(j, e, limit, asked);
      if x != best {
        assert x in multiset(Minus(d.pending, best));
        OnlyRedundantGo(j, e, limit, asked, x);
      } else if Compared(j, d.selected, best, asked) == Redundant {
        var i :| 0 <= i < |d.selected| && ObjectsFirst(j, d.selected, best, asked, i);
        assert e.selected[i] in Decided(j, d, limit, asked).value.selected;
      }
    }
  }

  lemma {:induction false} DuplicatesCount(j: Jury, d: Draft, limit: int, asked: Answered)
    requires Decided(j, d, limit, asked).Some?
    ensures var r := Decided(j, d, limit, asked).value;
            r.duplicates + |r.pending| + |r.selected| == d.duplicates + |d.pending| + |d.selected|
    decreases |d.pending|
  {
    if !Over(d, limit) {
      MinusMultiset(d.pending, Next(j, d));
      DuplicatesCount(j, Judged(j, d, asked).value, limit, asked);
    }
  }

  /** A completed round counts what it dropped as neighbour repeats, and changes no other counter. */
  lemma {:induction false} DroppedAreCounted(j: Jury, p: Pool, limit: int, asked: Answered)
    requires Decided(j, Opened(p), limit, asked).Some?
    ensures var q := Closed(p, Decided(j, Opened(p), limit, asked).value);
            && q.counts == p.counts.(neighbourRepeats := q.counts.neighbourRepeats)
            && q.counts.neighbourRepeats + |q.remaining| + |q.selected|
               == p.counts.neighbourRepeats + |p.remaining| + |p.selected|
  {
    DuplicatesCount(j, Opened(p), limit, asked);
  }

  /** A round in which every question is answered completes. */
  lemma {:induction false} AnsweredCompletes(j: Jury, d: Draft, limit: int, asked: Answered)
    requires forall a, b :: asked(a, b)
    ensures Decided(j, d, limit, asked).Some?
    decreases |d.pending|
  {
    if !Over(d, limit) {
      var best := Next(j, d);
      NeverFails(j, d.selected, best, asked);
      AnsweredCompletes(j, Judged(j, d, asked).value, limit, asked);
    }
  }

  lemma {:induction false} NeverFails(j: Jury, shown: seq<Article>, a: Article, asked: Answered)
    requires forall x, y :: asked(x, y)
    ensures Compared(j, shown, a, asked) != Failed
  {
    if shown != [] {
      NeverFails(j, shown[..|shown| - 1], a, asked);
    }
  }

  /** Helpful enough, as a third of the expected helpfulness says. */
  predicate Helpful(j: Jury, a: Article) {
    j.answer(a).help / 3.0 >= j.threshold && 1.0 >= j.threshold
  }

  /** Exactly the useful and helpful ones of the new candidates join those that remain, in their order. */
  lemma {:induction false} UsefulRemain(j: Jury, p: Pool, taken: seq<Article>, a: Article)
    ensures a in Evaluated(j, p, taken).remaining
            <==> a in p.remaining || (a in taken && j.answer(a).bucket == Useful && Helpful(j, a))
  {
    ThoseMember(taken, j.Fates(), Candidate, a);
  }

  function Routed(j: Jury, b: Bucket): Article -> bool {
    a => j.answer(a).bucket == b
  }

  function Unhelpful(j: Jury): Article -> bool {
    a => j.answer(a).bucket == Useful && !Helpful(j, a)
  }

  /** Every new candidate that does not remain is counted by its answer. */
  lemma {:induction false} RoundCounts(j: Jury, p: Pool, taken: seq<Article>)
    ensures var before, after := p.counts, Evaluated(j, p, taken).counts;
            && after.evaluated == before.evaluated + |taken| && after.neighbourRepeats == before.neighbourRepeats
            && after.entityOnly == before.entityOnly
            && after.centreRepeats == before.centreRepeats + Number(taken, Routed(j, CentreGroup))
            && after.unconnected == before.unconnected + Number(taken, Routed(j, Bucket.Excluded))
            && after.withheld == before.withheld + Number(taken, Routed(j, Doubtful))
            && after.belowThreshold == before.belowThreshold + Number(taken, Unhelpful(j))
  {
    ThoseNumber(taken, j.Fates(), CentreRepeat, Routed(j, CentreGroup));
    ThoseNumber(taken, j.Fates(), Unconnected, Routed(j, Bucket.Excluded));
    ThoseNumber(taken, j.Fates(), Withheld, Routed(j, Doubtful));
    ThoseNumber(taken, j.Fates(), BelowThreshold, Unhelpful(j));
    ThoseNone(taken, j.Fates(), EntityOnly);
  }

  // ----- Order independence ----------------------------------------------------------------------------------

  /** The same selection, counters and known keys; the same articles remain, in any order. */
  ghost predicate SamePool(p: Pool, q: Pool) {
    && p.seen == q.seen && p.selected == q.selected && p.counts == q.counts
    && multiset(p.remaining) == multiset(q.remaining)
  }

  ghost predicate SameDraft(d: Draft, e: Draft) {
    d.selected == e.selected && d.duplicates == e.duplicates && multiset(d.pending) == multiset(e.pending)
  }

  lemma {:induction false} JudgedAlike(j: Jury, d: Draft, e: Draft, asked: Answered)
    requires SameDraft(d, e) && Separate(d.pending) && d.pending != []
    ensures e.pending != []
    ensures var x, y := Judged(j, d, asked), Judged(j, e, asked);
            x.Some? == y.Some? && (x.Some? ==> SameDraft(x.value, y.value) && Separate(x.value.pending))
  {
    NextAlike(j, d, e);
    RestsAlike(d.pending, e.pending, Next(j, d));
  }

  lemma {:induction false} NextAlike(j: Jury, d: Draft, e: Draft)
    requires SameDraft(d, e) && Separate(d.pending) && d.pending != []
    ensures e.pending != [] && Next(j, d) == Next(j, e)
  {
    ForemostPermuted(d.pending, e.pending, j.ByRole(d.selected));
  }

  lemma {:induction false} RestsAlike(s: seq<Article>, t: seq<Article>, x: Article)
    requires multiset(s) == multiset(t) && Separate(s) && x in s && x in t
    ensures multiset(Minus(s, x)) == multiset(Minus(t, x)) && Separate(Minus(s, x))
  {
    MinusMultiset(s, x);
    MinusMultiset(t, x);
    MinusSeparate(s, x);
  }

  /** The strict priority makes the selection independent of the order of the remaining articles. */
  lemma {:induction false} DecidedAlike(j: Jury, d: Draft, e: Draft, limit: int, asked: Answered)
    requires SameDraft(d, e) && Separate(d.pending)
    ensures var x, y := Decided(j, d, limit, asked), Decided(j, e, limit, asked);
            x.Some? == y.Some? && (x.Some? ==> SameDraft(x.value, y.value))
    decreases |d.pending|
  {
    assert |d.pending| == |multiset(d.pending)| == |multiset(e.pending)| == |e.pending|;
    if !Over(d, limit) {
      JudgedAlike(j, d, e, asked);
      var x, y := Judged(j, d, asked), Judged(j, e, asked);
      if x.Some? {
        DecidedAlike(j, x.value, y.value, limit, asked);
      }
    }
  }

  /** Without shared keys and without a cut-off, candidates may be offered in any order. */
  lemma {:induction false} AddedInAnyOrder(j: Jury, p: Pool, q: Pool, cs: seq<Article>, ds: seq<Article>,
      limit: Option<int>)
    requires SamePool(p, q) && multiset(cs) == multiset(ds) && Separate(cs)
    requires limit.Some? ==> |Usable(cs, p.seen)| <= limit.value
    ensures SamePool(Added(j, p, cs, limit), Added(j, q, ds, limit))
  {
    FreshPermuted(cs, ds, p.seen, limit);
    AddedAlike(j, p, q, Fresh(cs, p.seen, limit), Fresh(ds, p.seen, limit));
  }

  lemma {:induction false} AddedAlike(j: Jury, p: Pool, q: Pool, s: seq<Article>, t: seq<Article>)
    requires SamePool(p, q) && multiset(s) == multiset(t)
    ensures SamePool(Evaluated(j, p, s), Evaluated(j, q, t))
  {
    KeysOfPermuted(s, t);
    TallyPermuted(p.counts, s, t, j.Fates());
    ThosePermuted(s, t, j.Fates(), Candidate);
  }

  // ----- Any sequence of rounds --------------------------------------------------------------------------------

  datatype Round =
    | AddRound(cs: seq<Article>, limit: Option<int>, complete: bool)
    | SelectRound(target: int, asked: Answered)

  function Played(j: Jury, p: Pool, r: Round): Pool {
    match r
    case AddRound(cs, limit, complete) => if complete then Added(j, p, cs, limit) else p
    case SelectRound(target, asked) =>
      var d := Decided(j, Opened(p), target, asked);
      if d.None? then p else Closed(p, d.value)
  }

  /**
   When every question is answered, a call that selects m articles and a later one that selects n leave
   the selection, the remainder and the counters of one call that selects n.
   */
  lemma {:induction false} SelectionResumes(j: Jury, p: Pool, m: int, n: int, asked: Answered)
    requires m <= n && Decided(j, Opened(p), n, asked).Some?
    ensures Decided(j, Opened(p), m, asked).Some?
    ensures Decided(j, Opened(Played(j, p, SelectRound(m, asked))), n, asked).Some?
    ensures Played(j, Played(j, p, SelectRound(m, asked)), SelectRound(n, asked)) == Played(j, p, SelectRound(n, asked))
  {
    DraftResumes(j, Opened(p), m, n, asked);
    var d := Decided(j, Opened(p), m, asked).value;
    assert WithRepeats(Opened(Closed(p, d)), d.duplicates) == d;
    RepeatsCarryOver(j, Opened(Closed(p, d)), d.duplicates, n, asked);
  }

  function AllPlayed(j: Jury, p: Pool, rounds: seq<Round>): Pool {
    if rounds == [] then p else Played(j, AllPlayed(j, p, rounds[..|rounds| - 1]), rounds[|rounds| - 1])
  }

  lemma {:induction false} PlayedSound(j: Jury, p: Pool, known: set<Key>, r: Round)
    requires Sound(j.Rules(), p, known)
    ensures Sound(j.Rules(), Played(j, p, r), known) && p.selected <= Played(j, p, r).selected
  {
    match r
    case AddRound(cs, limit, complete) => AddedSound(j, p, known, cs, limit);
    case SelectRound(target, asked) =>
      assert Closed(p, Opened(p)) == p;
      if Decided(j, Opened(p), target, asked).Some? {
        DecidedSound(j, p, known, Opened(p), target, asked);
      }
  }

  /** The invariant holds after any rounds. */
  lemma {:induction false} RoundsSound(j: Jury, known: set<Key>, rounds: seq<Round>)
    ensures Sound(j.Rules(), AllPlayed(j, Empty(known), rounds), known)
  {
    if rounds == [] {
      NothingYet(j.Rules(), AllPlayed(j, Empty(known), rounds), known);
    } else {
      var front := rounds[..|rounds| - 1];
      RoundsSound(j, known, front);
      PlayedSound(j, AllPlayed(j, Empty(known), front), known, rounds[|rounds| - 1]);
    }
  }

  /** What is displayed stays displayed, in its place: later rounds only append. */
  lemma {:induction false} RoundsAppend(j: Jury, known: set<Key>, rounds: seq<Round>, k: nat)
    requires k <= |rounds|
    ensures AllPlayed(j, Empty(known), rounds[..k]).selected <= AllPlayed(j, Empty(known), rounds).selected
  {
    if k == |rounds| {
      assert rounds[..k] == rounds;
    } else {
      var front := rounds[..|rounds| - 1];
      assert front[..k] == rounds[..k];
      RoundsAppend(j, known, front, k);
      RoundsSound(j, known, front);
      PlayedSound(j, AllPlayed(j, Empty(known), front), known, rounds[|rounds| - 1]);
    }
  }

  /** Two rounds that differ at most in the order of the candidates, all of which are separate and fit. */
  ghost predicate Reordered(p: Pool, r: Round, s: Round) {
    match r
    case SelectRound(target, asked) => s == r
    case AddRound(cs, limit, complete) =>
      s == r || (&& s.AddRound? && s.limit == limit && s.complete == complete
                 && multiset(cs) == multiset(s.cs) && Separate(cs)
                 && (limit.Some? ==> |Usable(cs, p.seen)| <= limit.value))
  }

  /** Over a whole run: reordering candidates changes no selection and no counter, at any point. */
  lemma {:induction false} RunsInAnyOrder(j: Jury, known: set<Key>, rounds: seq<Round>, others: seq<Round>)
    requires |rounds| == |others|
    requires forall i :: 0 <= i < |rounds| ==> Reordered(AllPlayed(j, Empty(known), rounds[..i]), rounds[i], others[i])
    ensures SamePool(AllPlayed(j, Empty(known), rounds), AllPlayed(j, Empty(known), others))
  {
    if rounds != [] {
      var last := |rounds| - 1;
      forall i | 0 <= i < last ensures rounds[..last][..i] == rounds[..i] {
      }
      RunsInAnyOrder(j, known, rounds[..last], others[..last]);
      RoundsSound(j, known, rounds[..last]);
      PlayedAlike(j, AllPlayed(j, Empty(known), rounds[..last]), AllPlayed(j, Empty(known), others[..last]), known,
                  rounds[last], others[last]);
    }
  }

  lemma {:induction false} PlayedAlike(j: Jury, p: Pool, q: Pool, known: set<Key>, r: Round, s: Round)
    requires SamePool(p, q) && Sound(j.Rules(), p, known) && Reordered(p, r, s)
    ensures SamePool(Played(j, p, r), Played(j, q, s))
  {
    match r
    case AddRound(cs, limit, complete) =>
      if s == r {
        AddedAlike(j, p, q, Fresh(cs, p.seen, limit), Fresh(cs, q.seen, limit));
      } else {
        AddedInAnyOrder(j, p, q, cs, s.cs, limit);
      }
    case SelectRound(target, asked) => DecidedAlike(j, Opened(p), Opened(q), target, asked);
  }
}
