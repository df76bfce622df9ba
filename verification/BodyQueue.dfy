/**
 The body extraction queue of app/v2/reports.py: one attempt at a time, retries for transient
 failures only, until the queue is empty or its time is over.

 What a turn observes (elapsed times, checkpoints, the article store, the provider) is a `Turn`;
 a list of turns is one execution of the loop, the end of the list being the end of its time.
 */
module BodyQueue {
  import opened Basics

  type NewsId = nat
  type BodyId = nat

  /** A stored article body. */
  datatype Body = Body(id: BodyId, news: NewsId, hash: nat, url: nat, content: string)

  datatype Code = RateLimited | TimedOut | Network | ProviderError | Unavailable | Other(code: nat)

  datatype Failure = Failure(code: Code, retryable: bool)

  datatype Reply = Got(body: Body) | Failed(failure: Failure)

  /**
   `wait` runs from one statement to the next; `alive` says whether the checkpoint, and after an attempt the
   shared budget, lets the job go on; an attempt is `uncached` if it gets past the stored bodies.
   */
  datatype Turn = Turn(aliveBefore: bool, lookup: bool, waitLookup: real, uncached: bool, called: bool,
                       reply: NewsId -> Reply, waitReply: real, aliveAfter: bool, waitStore: real, waitNext: real)
  {
    /** Time does not run backwards, stored bodies come before the provider, and a body is of its article. */
    ghost predicate Valid() {
      && waitLookup >= 0.0 && waitReply >= 0.0 && waitStore >= 0.0 && waitNext >= 0.0
      && (called ==> uncached) && (forall id :: reply(id).Got? ==> reply(id).body.news == id)
    }
  }

  const UNAVAILABLE: Failure := Failure(Unavailable, false)
  const EXPIRED: Failure := Failure(TimedOut, true)

  predicate Transient(c: Code) {
    c.RateLimited? || c.TimedOut? || c.Network? || c.ProviderError?
  }

  /** The article goes back to the end of the queue. */
  predicate Again(r: Reply) {
    r.Failed? && Transient(r.failure.code) && r.failure.retryable
  }

  /** One extraction attempt: whether it may charge the shared budget, and whether it did. */
  datatype Attempt = Attempt(id: NewsId, charge: bool, reserved: bool, key: nat, called: bool, reply: Reply)

  /** A progress update, with the length of the queue at that moment. */
  datatype Progress = Progress(requested: nat, processed: nat, succeeded: nat, failed: nat, pending: nat)

  /** The queue's documents: what was looked up, what succeeded and failed, and every attempt. */
  datatype Book = Book(articles: map<NewsId, bool>, successes: map<NewsId, Body>, failures: map<NewsId, Failure>,
                       log: seq<Attempt>)

  /** A finished batch: what it leaves, the articles still in the queue, the turns it took and its time then. */
  datatype Batch = Batch(book: Book, progress: seq<Progress>, calls: nat, left: seq<NewsId>, turns: nat, at: real)

  function Tried(log: seq<Attempt>): set<NewsId> {
    set a | a in log :: a.id
  }

  /** An id without an article fails for good; otherwise the attempt is recorded and its reply filed. */
  function Filed(b: Book, id: NewsId, r: Reply): (after: Book)
    ensures after.log == b.log && after.articles == b.articles
  {
    match r
    case Got(body) => Book(b.articles, b.successes[id := body], b.failures - {id}, b.log)
    case Failed(f) => Book(b.articles, b.successes, b.failures[id := f], b.log)
  }

  function Finished(b: Book, pending: seq<NewsId>): set<NewsId> {
    b.failures.Keys - Elements(pending)
  }

  function Report(ids: seq<NewsId>, b: Book, pending: seq<NewsId>): Progress {
    var failed := |Finished(b, pending)|;
    Progress(|ids|, |b.successes| + failed, |b.successes|, failed, |pending|)
  }

  // ----- What the queue keeps -----------------------------------------------------------------------

  /** Everything is pending, succeeded or failed, and nothing that succeeded is anything else. */
  ghost predicate ThreeWays<T>(all: set<T>, pending: set<T>, succeeded: set<T>, failed: set<T>) {
    all == pending + succeeded + failed && succeeded !! failed && succeeded !! pending
  }

  ghost predicate Sorted3(ids: seq<NewsId>, b: Book, pending: seq<NewsId>) {
    NoRepeats(pending) && ThreeWays(Elements(ids), Elements(pending), b.successes.Keys, b.failures.Keys)
  }

  /** Every attempt for one of these articles failed in a way that allows a retry. */
  ghost predicate Retriable(log: seq<Attempt>, ids: set<NewsId>) {
    forall a :: a in log && a.id in ids ==> Again(a.reply)
  }

  /** Nothing is tried again after a success or a failure that is final. */
  ghost predicate RetriesAllowed(log: seq<Attempt>) {
    log != [] ==> RetriesAllowed(log[..|log| - 1]) && Retriable(log[..|log| - 1], {log[|log| - 1].id})
  }

  /** The first attempt for an article may charge the shared budget, and does before it calls the provider. */
  ghost predicate ChargedOnce(log: seq<Attempt>) {
    log != [] ==>
      var front, a := log[..|log| - 1], log[|log| - 1];
      ChargedOnce(front) && a.charge == (a.id !in Tried(front)) && ChargedRightly(a)
  }

  predicate ChargedRightly(a: Attempt) {
    (a.reserved ==> a.charge) && (a.charge && a.called ==> a.reserved)
  }

  /** The units that the attempts charged to the shared budget. */
  function Reservations(log: seq<Attempt>): nat {
    if log == [] then 0 else Reservations(log[..|log| - 1]) + if log[|log| - 1].reserved then 1 else 0
  }

  function NextKey(key: nat, keys: nat, r: Reply): nat {
    if r.Failed? && r.failure.code.RateLimited? && keys > 0 then (key + 1) % keys else key
  }

  /** The key in use after the attempts: it changes after a rate limit only, and then to the next one. */
  function KeyAfter(log: seq<Attempt>, keys: nat): nat {
    if log == [] then 0 else NextKey(KeyAfter(log[..|log| - 1], keys), keys, log[|log| - 1].reply)
  }

  ghost predicate KeysInTurn(log: seq<Attempt>, keys: nat) {
    log != [] ==> KeysInTurn(log[..|log| - 1], keys) && log[|log| - 1].key == KeyAfter(log[..|log| - 1], keys)
  }

  predicate Consistent(n: nat, p: Progress) {
    p.requested == n && p.processed == p.succeeded + p.failed && p.processed + p.pending == n
  }

  /** The progress shown: consistent counts, and `processed` never goes back. */
  ghost predicate Advancing(n: nat, progress: seq<Progress>) {
    progress != [] ==>
      var front, last := progress[..|progress| - 1], progress[|progress| - 1];
      && Advancing(n, front) && Consistent(n, last)
      && (front != [] ==> front[|front| - 1].processed <= last.processed)
  }

  function Calls(log: seq<Attempt>): nat {
    if log == [] then 0 else Calls(log[..|log| - 1]) + if log[|log| - 1].called then 1 else 0
  }

  // ----- Steps ---------------------------------------------------------------------------------------

  lemma {:induction false} ElementsOfSplit(s: seq<NewsId>)
    requires s != [] && NoRepeats(s)
    ensures Elements(s[1..]) == Elements(s) - {s[0]} && NoRepeats(s[1..])
  {
    assert s == [s[0]] + s[1..];
    forall i | 0 <= i < |s[1..]| ensures s[1..][i] != s[0] {
      assert s[1..][i] == s[i + 1];
    }
  }

  lemma {:induction false} Appended(s: seq<NewsId>, x: NewsId)
    requires NoRepeats(s) && x !in s
    ensures NoRepeats(s + [x]) && Elements(s + [x]) == Elements(s) + {x}
  {
  }

  /** The head of the queue gets a reply and leaves it, or goes back to its end. */
  lemma {:induction false} FiledSorts(ids: seq<NewsId>, b: Book, pending: seq<NewsId>, r: Reply)
    requires pending != [] && Sorted3(ids, b, pending)
    ensures var id, rest := pending[0], pending[1..];
            var after := if Again(r) then rest + [id] else rest;
            && Sorted3(ids, Filed(b, id, r), after)
            && (!Again(r) ==> Elements(after) == Elements(pending) - {id})
            && (Again(r) ==> Elements(after) == Elements(pending))
  {
    var id, rest := pending[0], pending[1..];
    ElementsOfSplit(pending);
    assert id in Elements(pending);
    if Again(r) {
      Appended(rest, id);
    }
  }

  lemma {:induction false} WaysCount<T>(all: set<T>, p: set<T>, q: set<T>, f: set<T>)
    requires ThreeWays(all, p, q, f)
    ensures |all| == |p| + |q| + |f - p|
  {
    assert all == (p + q) + (f - p);
    assert |(p + q) + (f - p)| == |p + q| + |f - p|;
    assert |p + q| == |p| + |q|;
  }

  lemma {:induction false} WaysClose<T>(all: set<T>, p: set<T>, q: set<T>, f: set<T>)
    requires ThreeWays(all, p, q, f)
    ensures ThreeWays(all, {}, q, f + p) && |q| + |f + p| == |all|
  {
    assert all == q + (f + p);
    assert |q + (f + p)| == |q| + |f + p|;
  }

  /** The counts of a progress report are those of the three parts. */
  lemma {:induction false} ReportCounts(ids: seq<NewsId>, b: Book, pending: seq<NewsId>)
    requires Sorted3(ids, b, pending) && NoRepeats(ids)
    ensures var p := Report(ids, b, pending);
            && p.processed + |pending| == |ids| && p.processed == p.succeeded + p.failed
            && p.requested == |ids| && p.pending == |pending| && p.succeeded == |b.successes|
  {
    SizeOf(pending);
    SizeOf(ids);
    WaysCount(Elements(ids), Elements(pending), b.successes.Keys, b.failures.Keys);
  }

  lemma {:induction false} SizeOf(s: seq<NewsId>)
    requires NoRepeats(s)
    ensures |Elements(s)| == |s|
  {
    if s != [] {
      ElementsOfSplit(s);
      SizeOf(s[1..]);
      assert Elements(s) == Elements(s[1..]) + {s[0]};
    }
  }

  lemma {:induction false} LoggedRetry(log: seq<Attempt>, a: Attempt, pending: set<NewsId>)
    requires RetriesAllowed(log) && Retriable(log, pending) && a.id in pending
    ensures RetriesAllowed(log + [a]) && Retriable(log + [a], if Again(a.reply) then pending else pending - {a.id})
  {
    var more := log + [a];
    assert more[..|more| - 1] == log;
  }

  lemma {:induction false} LoggedInTurn(log: seq<Attempt>, a: Attempt, keys: nat)
    requires ChargedOnce(log) && a.charge == (a.id !in Tried(log)) && ChargedRightly(a)
    requires KeysInTurn(log, keys) && a.key == KeyAfter(log, keys)
    ensures ChargedOnce(log + [a]) && Tried(log + [a]) == Tried(log) + {a.id}
    ensures KeysInTurn(log + [a], keys) && KeyAfter(log + [a], keys) == NextKey(a.key, keys, a.reply)
    ensures Calls(log + [a]) == Calls(log) + (if a.called then 1 else 0)
  {
    var more := log + [a];
    assert more[..|more| - 1] == log;
  }

  // ----- The loop --------------------------------------------------------------------------------------

  /** The bodies that the attempts returned. */
  function Bodies(log: seq<Attempt>): map<NewsId, Body> {
    if log == [] then map[] else
      var last := log[|log| - 1];
      if last.reply.Got? then Bodies(log[..|log| - 1])[last.id := last.reply.body] else Bodies(log[..|log| - 1])
  }

  /** The stored bodies are those of the attempts, each under its own article. */
  ghost predicate Sourced(b: Book) {
    b.successes == Bodies(b.log) && forall id :: id in b.successes ==> b.successes[id].news == id
  }

  ghost predicate Counted(ids: seq<NewsId>, pending: seq<NewsId>, progress: seq<Progress>) {
    Advancing(|ids|, progress) && (progress != [] ==> progress[|progress| - 1].processed + |pending| == |ids|)
  }

  ghost predicate Kept(ids: seq<NewsId>, b: Book, pending: seq<NewsId>, keys: nat, key: nat) {
    && Sorted3(ids, b, pending) && RetriesAllowed(b.log) && Retriable(b.log, Elements(pending)) && ChargedOnce(b.log)
    && KeysInTurn(b.log, keys) && key == KeyAfter(b.log, keys) && Tried(b.log) <= Elements(ids) && Sourced(b)
  }

  function Logged(b: Book, a: Attempt): Book {
    Book(b.articles, b.successes, b.failures, b.log + [a])
  }

  function Requeued(pending: seq<NewsId>, r: Reply): seq<NewsId>
    requires pending != []
  {
    if Again(r) then pending[1..] + [pending[0]] else pending[1..]
  }

  lemma {:induction false} FiledSourced(b: Book, a: Attempt)
    requires Sourced(b) && (a.reply.Got? ==> a.reply.body.news == a.id)
    ensures Sourced(Filed(Logged(b, a), a.id, a.reply))
  {
    var more := b.log + [a];
    assert more[..|more| - 1] == b.log;
  }

  lemma {:induction false} AttemptKeeps(ids: seq<NewsId>, b: Book, pending: seq<NewsId>, keys: nat, key: nat,
      a: Attempt)
    requires pending != [] && Kept(ids, b, pending, keys, key)
    requires a.id == pending[0] && a.charge == (a.id !in Tried(b.log)) && ChargedRightly(a) && a.key == key
    requires a.reply.Got? ==> a.reply.body.news == a.id
    ensures Kept(ids, Filed(Logged(b, a), a.id, a.reply), Requeued(pending, a.reply), keys, NextKey(key, keys, a.reply))
  {
    LoggedRetry(b.log, a, Elements(pending));
    LoggedInTurn(b.log, a, keys);
    FiledSorts(ids, Logged(b, a), pending, a.reply);
    FiledSourced(b, a);
  }

  lemma {:induction false} UnavailableKeeps(ids: seq<NewsId>, b: Book, pending: seq<NewsId>, keys: nat, key: nat)
    requires pending != [] && Kept(ids, b, pending, keys, key)
    ensures Kept(ids, Filed(b, pending[0], Failed(UNAVAILABLE)), pending[1..], keys, key)
  {
    FiledSorts(ids, b, pending, Failed(UNAVAILABLE));
  }

  lemma {:induction false} ReportKeeps(ids: seq<NewsId>, b: Book, pending: seq<NewsId>, before: seq<NewsId>,
      progress: seq<Progress>)
    requires NoRepeats(ids) && Sorted3(ids, b, pending) && |pending| <= |before| && Counted(ids, before, progress)
    ensures Counted(ids, pending, progress + [Report(ids, b, pending)])
  {
    ReportCounts(ids, b, pending);
    assert (progress + [Report(ids, b, pending)])[..|progress|] == progress;
  }

  /** Articles that were still pending when the time was over fail, unless they failed before. */
  function Expired(failures: map<NewsId, Failure>, pending: seq<NewsId>): map<NewsId, Failure> {
    if pending == [] then failures else
      var rest := Expired(failures, pending[..|pending| - 1]);
      var id := pending[|pending| - 1];
      if id in rest then rest else rest[id := EXPIRED]
  }

  lemma {:induction false} ExpiredKeys(failures: map<NewsId, Failure>, pending: seq<NewsId>)
    ensures Expired(failures, pending).Keys == failures.Keys + Elements(pending)
    ensures forall id :: id in failures ==> Expired(failures, pending)[id] == failures[id]
  {
    if pending != [] {
      ExpiredKeys(failures, pending[..|pending| - 1]);
      assert pending == pending[..|pending| - 1] + [pending[|pending| - 1]];
    }
  }

  // ----- What became of each article ----------------------------------------------------------------------

  /** A failure after which the article is worth another attempt. */
  predicate WorthRetry(f: Failure) {
    f.retryable && (f.code == RateLimited || f.code == TimedOut || f.code == Network || f.code == ProviderError)
  }

  /** The reply to the last attempt for an article. */
  function LastReply(log: seq<Attempt>, id: NewsId): Option<Reply> {
    if log == [] then None
    else if log[|log| - 1].id == id then Some(log[|log| - 1].reply)
    else LastReply(log[..|log| - 1], id)
  }

  /** The article was looked up and does not exist. */
  predicate Missing(b: Book, id: NewsId) {
    id in b.articles && !b.articles[id]
  }

  /** Each failure is the reply to the last attempt, or the article is missing. */
  ghost predicate FailureExplained(b: Book, id: NewsId)
    requires id in b.failures
  {
    match LastReply(b.log, id)
    case Some(r) => r == Failed(b.failures[id])
    case None => Missing(b, id) && b.failures[id] == Failure(Unavailable, false)
  }

  /**
   An article is in the queue exactly if it was not tried yet, or its last attempt failed in a way worth a
   retry; the queue holds no article known to be missing, from position `from` on.
   */
  ghost predicate Explained(b: Book, pending: seq<NewsId>, from: nat) {
    && (forall id :: id in b.failures ==> FailureExplained(b, id))
    && (forall id :: id in b.failures ==> (id in pending <==> WorthRetry(b.failures[id])))
    && (forall id :: id in pending ==> (id in b.failures <==> LastReply(b.log, id).Some?))
    && (forall id :: id in b.successes ==> LastReply(b.log, id) == Some(Got(b.successes[id])))
    && (forall id :: LastReply(b.log, id).Some? ==> id in b.articles && b.articles[id])
    && (forall i :: from <= i < |pending| ==> !Missing(b, pending[i]))
  }

  lemma {:induction false} LastReplyOfMore(log: seq<Attempt>, a: Attempt)
    ensures forall id :: LastReply(log + [a], id) == if id == a.id then Some(a.reply) else LastReply(log, id)
  {
    assert (log + [a])[..|log + [a]| - 1] == log;
  }

  /** The head of a queue without repetition is not in the rest. */
  lemma {:induction false} HeadOnce(pending: seq<NewsId>)
    requires NoRepeats(pending) && pending != []
    ensures pending[0] !in pending[1..] && forall id :: id in pending <==> id == pending[0] || id in pending[1..]
  {
    assert pending == [pending[0]] + pending[1..];
  }

  lemma {:induction false} LookedUpExplained(b: Book, pending: seq<NewsId>, found: bool)
    requires Explained(b, pending, 0) && NoRepeats(pending) && pending != [] && pending[0] !in b.articles
    ensures Explained(b.(articles := b.articles[pending[0] := found]), pending, if found then 0 else 1)
  {
    HeadOnce(pending);
    forall i | 1 <= i < |pending| ensures pending[i] != pending[0] {
    }
  }

  lemma {:induction false} TriedExplained(b: Book, pending: seq<NewsId>, a: Attempt)
    requires Explained(b, pending, 0) && NoRepeats(pending) && pending != [] && a.id == pending[0]
    requires a.id in b.articles && b.articles[a.id] && a.id !in b.successes
    ensures Explained(Filed(Logged(b, a), a.id, a.reply), Requeued(pending, a.reply), 0)
  {
    LastReplyOfMore(b.log, a);
    HeadOnce(pending);
  }

  lemma {:induction false} UntriedExplained(b: Book, pending: seq<NewsId>)
    requires Explained(b, pending, 1) && NoRepeats(pending) && pending != [] && Missing(b, pending[0])
    requires pending[0] !in b.successes
    ensures Explained(Filed(b, pending[0], Failed(UNAVAILABLE)), pending[1..], 0)
  {
    HeadOnce(pending);
  }

  // ----- First attempts come before second ones -------------------------------------------------------------

  /** Whoever is tried again comes after a first turn of every requested article. */
  ghost predicate RetriesLast(ids: seq<NewsId>, articles: map<NewsId, bool>, log: seq<Attempt>) {
    log != [] ==>
      var front, a := log[..|log| - 1], log[|log| - 1];
      && RetriesLast(ids, articles, front)
      && (LastReply(front, a.id).Some? ==>
            forall id :: id in ids ==> LastReply(front, id).Some? || (id in articles && !articles[id]))
  }

  lemma {:induction false} RetriesLastMore(ids: seq<NewsId>, articles: map<NewsId, bool>, more: map<NewsId, bool>,
      log: seq<Attempt>)
    requires RetriesLast(ids, articles, log) && forall id :: id in articles ==> id in more && more[id] == articles[id]
    ensures RetriesLast(ids, more, log)
  {
    if log != [] {
      RetriesLastMore(ids, articles, more, log[..|log| - 1]);
    }
  }

  /** The first n requested articles had their turn; the queue begins with the others, in their order. */
  ghost predicate InTurn(ids: seq<NewsId>, b: Book, pending: seq<NewsId>, n: nat) {
    && n <= |ids| && |ids| - n <= |pending| && pending[..|ids| - n] == ids[n..]
    && (forall i :: n <= i < |ids| ==> LastReply(b.log, ids[i]).None?)
    && (forall i :: 0 <= i < n ==> LastReply(b.log, ids[i]).Some? || Missing(b, ids[i]))
    && RetriesLast(ids, b.articles, b.log)
  }

  lemma {:induction false} LookedUpInTurn(ids: seq<NewsId>, b: Book, pending: seq<NewsId>, n: nat, id: NewsId,
      found: bool)
    requires InTurn(ids, b, pending, n) && id !in b.articles
    ensures InTurn(ids, b.(articles := b.articles[id := found]), pending, n)
  {
    RetriesLastMore(ids, b.articles, b.articles[id := found], b.log);
  }

  lemma {:induction false} TriedInTurn(ids: seq<NewsId>, b: Book, pending: seq<NewsId>, n: nat, a: Attempt)
    requires InTurn(ids, b, pending, n) && NoRepeats(ids) && pending != [] && a.id == pending[0]
    ensures InTurn(ids, Filed(Logged(b, a), a.id, a.reply), Requeued(pending, a.reply), if n < |ids| then n + 1 else n)
  {
    LastReplyOfMore(b.log, a);
    assert (b.log + [a])[..|b.log|] == b.log;
    if n < |ids| {
      assert pending[..|ids| - n][0] == ids[n] == a.id;
      assert pending[1..][..|ids| - n - 1] == pending[..|ids| - n][1..] == ids[n + 1..];
    } else {
      forall id | id in ids ensures LastReply(b.log, id).Some? || Missing(b, id) {
        var i :| 0 <= i < |ids| && ids[i] == id;
      }
    }
  }

  lemma {:induction false} UntriedInTurn(ids: seq<NewsId>, b: Book, pending: seq<NewsId>, n: nat)
    requires InTurn(ids, b, pending, n) && NoRepeats(ids) && pending != [] && Missing(b, pending[0])
    ensures InTurn(ids, Filed(b, pending[0], Failed(UNAVAILABLE)), pending[1..], if n < |ids| then n + 1 else n)
  {
    if n < |ids| {
      assert pending[..|ids| - n][0] == ids[n] == pending[0];
      assert pending[1..][..|ids| - n - 1] == pending[..|ids| - n][1..] == ids[n + 1..];
    }
  }

  /** What a finished batch promises. */
  ghost predicate Sound(ids: seq<NewsId>, r: Batch, keys: nat) {
    Parted(ids, r, keys) && Settled(r.book, r.left) && RetriesLast(ids, r.book.articles, r.book.log)
  }

  ghost predicate ProperLog(ids: seq<NewsId>, b: Book, keys: nat) {
    && RetriesAllowed(b.log) && ChargedOnce(b.log) && KeysInTurn(b.log, keys)
    && Tried(b.log) <= Elements(ids) && Sourced(b)
  }

  /** A partition of the requested articles, reached by a proper log and shown in consistent updates. */
  ghost predicate Parted(ids: seq<NewsId>, r: Batch, keys: nat) {
    && ThreeWays(Elements(ids), {}, r.book.successes.Keys, r.book.failures.Keys)
    && ProperLog(ids, r.book, keys) && r.calls == Calls(r.book.log)
    && Advancing(|ids|, r.progress)
    && r.progress != [] && r.progress[|r.progress| - 1].processed == |ids|
  }

  /**
   How a finished batch leaves each article: a success is what its last attempt returned; a failure is that of
   its last attempt, or it is missing, or its time was over before its first; and exactly the articles left in
   the queue end with a failure that is worth a retry.
   */
  ghost predicate Settled(b: Book, left: seq<NewsId>) {
    && (forall id :: id in b.successes ==> LastReply(b.log, id) == Some(Got(b.successes[id])))
    && (forall id :: id in b.failures ==>
          match LastReply(b.log, id)
          case Some(r) => r == Failed(b.failures[id])
          case None =>
            b.failures[id] == if Missing(b, id) then Failure(Unavailable, false) else Failure(TimedOut, true))
    && (forall id :: id in left <==> id in b.failures && WorthRetry(b.failures[id]))
  }

  lemma {:induction false} ExpiredFailures(failures: map<NewsId, Failure>, pending: seq<NewsId>)
    ensures forall id :: id in pending && id !in failures ==>
              id in Expired(failures, pending) && Expired(failures, pending)[id] == Failure(TimedOut, true)
  {
    if pending != [] {
      var front, last := pending[..|pending| - 1], pending[|pending| - 1];
      ExpiredFailures(failures, front);
      ExpiredKeys(failures, front);
      assert pending == front + [last];
    }
  }

  lemma {:induction false} ClosingSettles(b: Book, pending: seq<NewsId>)
    requires Explained(b, pending, 0)
    ensures Settled(Book(b.articles, b.successes, Expired(b.failures, pending), b.log), pending)
  {
    ExpiredKeys(b.failures, pending);
    ExpiredFailures(b.failures, pending);
    forall id | id in pending ensures !Missing(b, id) {
      var i :| 0 <= i < |pending| && pending[i] == id;
    }
  }

  /** The variables of the loop. */
  datatype Desk = Desk(pending: seq<NewsId>, book: Book, key: nat, calls: nat, charged: set<NewsId>,
                       progress: seq<Progress>)

  ghost predicate Orderly(ids: seq<NewsId>, d: Desk, keys: nat) {
    && Kept(ids, d.book, d.pending, keys, d.key) && Counted(ids, d.pending, d.progress)
    && d.charged == Tried(d.book.log) && d.calls == Calls(d.book.log)
  }

  function Entry(d: Desk, uncached: bool, called: bool, reply: Reply): Attempt
    requires d.pending != []
  {
    var charge := d.pending[0] !in d.charged;
    Attempt(d.pending[0], charge, charge && uncached, d.key, called, reply)
  }

  /** What one turn makes of the desk; `tried` says that an attempt was made for the head of the queue. */
  function Turned(ids: seq<NewsId>, d: Desk, keys: nat, tried: bool, uncached: bool, called: bool, reply: Reply): Desk
    requires d.pending != []
  {
    var id := d.pending[0];
    var book := if tried then Logged(d.book, Entry(d, uncached, called, reply)) else d.book;
    var after, rest := Filed(book, id, reply), Requeued(d.pending, reply);
    Desk(rest, after, NextKey(d.key, keys, reply), d.calls + (if called then 1 else 0),
         if tried then d.charged + {id} else d.charged, d.progress + [Report(ids, after, rest)])
  }

  lemma {:induction false} TriedBook(ids: seq<NewsId>, d: Desk, keys: nat, uncached: bool, called: bool, reply: Reply)
    requires Orderly(ids, d, keys) && d.pending != []
    requires (reply.Got? ==> reply.body.news == d.pending[0]) && (called ==> uncached)
    ensures var e := Turned(ids, d, keys, true, uncached, called, reply);
            Kept(ids, e.book, e.pending, keys, e.key) && e.charged == Tried(e.book.log) && e.calls == Calls(e.book.log)
  {
    var a := Entry(d, uncached, called, reply);
    AttemptKeeps(ids, d.book, d.pending, keys, d.key, a);
    LoggedInTurn(d.book.log, a, keys);
  }

  lemma {:induction false} TurnedCounts(ids: seq<NewsId>, d: Desk, keys: nat, tried: bool, uncached: bool, called: bool,
      reply: Reply)
    requires NoRepeats(ids) && d.pending != [] && Counted(ids, d.pending, d.progress)
    requires var e := Turned(ids, d, keys, tried, uncached, called, reply); Sorted3(ids, e.book, e.pending)
    ensures var e := Turned(ids, d, keys, tried, uncached, called, reply); Counted(ids, e.pending, e.progress)
  {
    var e := Turned(ids, d, keys, tried, uncached, called, reply);
    ReportKeeps(ids, e.book, e.pending, d.pending, d.progress);
  }

  lemma {:induction false} TriedKeeps(ids: seq<NewsId>, d: Desk, keys: nat, uncached: bool, called: bool, reply: Reply)
    requires NoRepeats(ids) && Orderly(ids, d, keys) && d.pending != []
    requires (reply.Got? ==> reply.body.news == d.pending[0]) && (called ==> uncached)
    ensures Orderly(ids, Turned(ids, d, keys, true, uncached, called, reply), keys)
  {
    TriedBook(ids, d, keys, uncached, called, reply);
    TurnedCounts(ids, d, keys, true, uncached, called, reply);
  }

  lemma {:induction false} UntriedKeeps(ids: seq<NewsId>, d: Desk, keys: nat)
    requires NoRepeats(ids) && Orderly(ids, d, keys) && d.pending != []
    ensures Orderly(ids, Turned(ids, d, keys, false, false, false, Failed(UNAVAILABLE)), keys)
  {
    UnavailableKeeps(ids, d.book, d.pending, keys, d.key);
    ReportKeeps(ids, Filed(d.book, d.pending[0], Failed(UNAVAILABLE)), d.pending[1..], d.pending, d.progress);
  }

  lemma {:induction false} ClosingParts(ids: seq<NewsId>, b: Book, pending: seq<NewsId>)
    requires NoRepeats(ids) && Sorted3(ids, b, pending)
    ensures var late := Expired(b.failures, pending);
            ThreeWays(Elements(ids), {}, b.successes.Keys, late.Keys) && |b.successes| + |late| == |ids|
  {
    ExpiredKeys(b.failures, pending);
    SizeOf(ids);
    WaysClose(Elements(ids), Elements(pending), b.successes.Keys, b.failures.Keys);
  }

  lemma {:induction false} ClosingProgress(ids: seq<NewsId>, pending: seq<NewsId>, progress: seq<Progress>,
      done: Progress)
    requires Counted(ids, pending, progress)
    requires done.requested == |ids| && done.processed == |ids| && done.pending == 0
             && done.succeeded + done.failed == |ids|
    ensures Advancing(|ids|, progress + [done])
  {
    assert (progress + [done])[..|progress|] == progress;
  }

  /** The pauses after n calls. */
  function Pauses(n: nat, gap: real): real {
    if n == 0 then 0.0 else Pauses(n - 1, gap) + gap
  }

  /** All pauses but the last are over before the last call. */
  ghost predicate Paced(calls: nat, gap: real, limit: real) {
    calls > 0 ==> Pauses(calls, gap) - gap < limit
  }

  /** So k provider calls leave time for k - 1 pauses. */
  lemma {:induction false} PausesFit(calls: nat, gap: real, limit: real)
    requires Paced(calls, gap, limit) && calls > 0
    ensures (calls - 1) as real * gap < limit
  {
    PausesTotal(calls - 1, gap);
  }

  lemma {:induction false} PausesTotal(n: nat, gap: real)
    ensures Pauses(n, gap) == n as real * gap
  {
    if n > 0 {
      PausesTotal(n - 1, gap);
      OneMore((n - 1) as real, gap);
    }
  }

  lemma {:induction false} OneMore(x: real, gap: real)
    ensures (x + 1.0) * gap == x * gap + gap
  {
  }

  /** Everything the loop keeps, n of the requested articles having had their turn. */
  ghost predicate OnCourse(ids: seq<NewsId>, d: Desk, keys: nat, n: nat) {
    Orderly(ids, d, keys) && Explained(d.book, d.pending, 0) && InTurn(ids, d.book, d.pending, n)
  }

  /** The end of the batch: whatever is still pending has run out of time. */
  method Close(ids: seq<NewsId>, d: Desk, keys: nat, turns: nat, at: real, ghost n: nat) returns (r: Batch)
    requires NoRepeats(ids) && OnCourse(ids, d, keys, n)
    ensures Sound(ids, r, keys)
    ensures r.calls == d.calls && r.left == d.pending && r.turns == turns && r.at == at
    ensures forall id :: id in d.book.failures ==>
            id in r.book.failures && r.book.failures[id] == d.book.failures[id]
  {
    var late := Expired(d.book.failures, d.pending);
    ExpiredKeys(d.book.failures, d.pending);
    ClosingParts(ids, d.book, d.pending);
    var done := Progress(|ids|, |ids|, |d.book.successes|, |late|, 0);
    ClosingProgress(ids, d.pending, d.progress, done);
    ClosingLog(ids, d, keys, late);
    ClosingSettles(d.book, d.pending);
    var book := Book(d.book.articles, d.book.successes, late, d.book.log);
    r := Batch(book, d.progress + [done], d.calls, d.pending, turns, at);
    AllParted(ids, r, keys);
  }

  lemma {:induction false} AllParted(ids: seq<NewsId>, r: Batch, keys: nat)
    requires ThreeWays(Elements(ids), {}, r.book.successes.Keys, r.book.failures.Keys)
    requires ProperLog(ids, r.book, keys) && r.calls == Calls(r.book.log)
    requires Advancing(|ids|, r.progress) && r.progress != [] && r.progress[|r.progress| - 1].processed == |ids|
    ensures Parted(ids, r, keys)
  {
  }

  lemma {:induction false} ClosingLog(ids: seq<NewsId>, d: Desk, keys: nat, late: map<NewsId, Failure>)
    requires Orderly(ids, d, keys)
    ensures ProperLog(ids, Book(d.book.articles, d.book.successes, late, d.book.log), keys)
  {
  }

  datatype Ending = GoOn | OutOfTime | Cancelled

  /** What a turn saw of the article at the head of the queue, and when. */
  datatype Sight = Sight(ending: Ending, tried: bool, uncached: bool, called: bool, reply: Reply, now: real)

  /** Remembers whether the article at the head of the queue exists. */
  method LookUp(ids: seq<NewsId>, d: Desk, keys: nat, found: bool, ghost n: nat) returns (e: Desk)
    requires d.pending != [] && OnCourse(ids, d, keys, n)
    ensures d.pending[0] in e.book.articles && InTurn(ids, e.book, e.pending, n)
    ensures Explained(e.book, e.pending, if e.book.articles[d.pending[0]] then 0 else 1)
    ensures Orderly(ids, e, keys) && e == d.(book := d.book.(articles := e.book.articles))
    ensures e.book.articles == if d.pending[0] in d.book.articles then d.book.articles
                               else d.book.articles[d.pending[0] := found]
  {
    e := d;
    if d.pending[0] !in d.book.articles {
      var book := d.book.(articles := d.book.articles[d.pending[0] := found]);
      LookedUpExplained(d.book, d.pending, found);
      LookedUpInTurn(ids, d.book, d.pending, n, d.pending[0], found);
      e := d.(book := book);
    }
  }

  /**
   The head leaves the queue, or goes to its end after a failure worth a retry; its reply replaces an earlier
   failure; a rate limit makes the next key the one in use.
   */
  predicate AfterReply(d: Desk, e: Desk, keys: nat, reply: Reply)
    requires d.pending != []
  {
    var id := d.pending[0];
    && e.pending == (if reply.Failed? && WorthRetry(reply.failure) then d.pending[1..] + [id] else d.pending[1..])
    && (match reply
        case Got(body) => e.book.successes == d.book.successes[id := body] && e.book.failures == d.book.failures - {id}
        case Failed(f) => e.book.successes == d.book.successes && e.book.failures == d.book.failures[id := f])
    && e.key == if reply.Failed? && reply.failure.code == RateLimited && keys > 0 then (d.key + 1) % keys else d.key
  }

  lemma {:induction false} ReplyIsFiled(ids: seq<NewsId>, d: Desk, keys: nat, tried: bool, uncached: bool, called: bool,
      reply: Reply)
    requires d.pending != []
    ensures AfterReply(d, Turned(ids, d, keys, tried, uncached, called, reply), keys, reply)
  {
  }

  /** Files what became of the head of the queue. */
  method FileReply(ids: seq<NewsId>, d: Desk, keys: nat, tried: bool, uncached: bool, called: bool, reply: Reply,
      ghost n: nat) returns (e: Desk)
    requires NoRepeats(ids) && Orderly(ids, d, keys) && d.pending != []
    requires if tried then (reply.Got? ==> reply.body.news == d.pending[0]) && (called ==> uncached)
             else !called && reply == Failed(UNAVAILABLE)
    requires d.pending[0] in d.book.articles && d.book.articles[d.pending[0]] == tried
    requires Explained(d.book, d.pending, if tried then 0 else 1) && InTurn(ids, d.book, d.pending, n)
    ensures Orderly(ids, e, keys)
    ensures Explained(e.book, e.pending, 0) && InTurn(ids, e.book, e.pending, if n < |ids| then n + 1 else n)
    ensures e.calls == d.calls + if called then 1 else 0
    ensures AfterReply(d, e, keys, reply) && e.book.articles == d.book.articles
  {
    assert d.pending[0] in Elements(d.pending);
    if tried {
      TriedKeeps(ids, d, keys, uncached, called, reply);
      TriedExplained(d.book, d.pending, Entry(d, uncached, called, reply));
      TriedInTurn(ids, d.book, d.pending, n, Entry(d, uncached, called, reply));
    } else {
      UntriedKeeps(ids, d, keys);
      UntriedExplained(d.book, d.pending);
      UntriedInTurn(ids, d.book, d.pending, n);
    }
    ReplyIsFiled(ids, d, keys, tried, uncached, called, reply);
    e := Turned(ids, d, keys, tried, uncached, called, reply);
  }

  /** Tries the article, unless it does not exist or its time is over. */
  method Try(turn: Turn, id: NewsId, known: bool, start: real, limit: real) returns (s: Sight)
    requires turn.Valid() && start < limit
    ensures s.now >= start && (s.called ==> s.tried && s.uncached) && (s.tried ==> s.called == turn.called)
    ensures s.ending.GoOn? ==> s.tried == known
    ensures s.ending.OutOfTime? <==> known && start + turn.waitLookup >= limit
    ensures s.ending.OutOfTime? ==> s.now == start + turn.waitLookup
    ensures s.ending.GoOn? ==> s.now == start + turn.waitLookup + if known then turn.waitReply else 0.0
    ensures s.ending.Cancelled? ==> !turn.aliveAfter
    ensures s.ending.GoOn? ==> if s.tried then s.reply == turn.reply(id) else s.reply == Failed(UNAVAILABLE)
  {
    var now := start + turn.waitLookup;
    if known && limit - now <= 0.0 {
      return Sight(OutOfTime, false, false, false, Failed(UNAVAILABLE), now);
    }
    var after := if turn.aliveAfter then GoOn else Cancelled;
    if known {
      return Sight(after, true, turn.uncached, turn.called, turn.reply(id), now + turn.waitReply);
    }
    return Sight(after, false, false, false, Failed(UNAVAILABLE), now);
  }

  /** The pause after a provider call, when something is left to do and the time allows it. */
  method Pause(turn: Turn, pausing: bool, start: real, gap: real, limit: real) returns (ending: Ending, now: real)
    requires turn.Valid() && gap >= 0.0
    ensures ending.OutOfTime? <==> pausing && start + turn.waitStore + gap >= limit
    ensures ending.OutOfTime? ==> now == start + turn.waitStore
    ensures ending.GoOn? <==> !ending.OutOfTime?
    ensures ending.GoOn? ==> now == start + turn.waitStore + (if pausing then gap else 0.0) + turn.waitNext
  {
    now, ending := start + turn.waitStore, GoOn;
    if pausing {
      if limit - now <= gap {
        return OutOfTime, now;
      }
      now := now + gap;
    }
    now := now + turn.waitNext;
  }

  /** An article is looked up once; one that exists gets the reply of the turn, one that does not is unavailable. */
  predicate TurnTaken(d: Desk, e: Desk, keys: nat, turn: Turn)
    requires d.pending != []
  {
    var id := d.pending[0];
    && e.book.articles == (if id in d.book.articles then d.book.articles else d.book.articles[id := turn.lookup])
    && AfterReply(d, e, keys, if e.book.articles[id] then turn.reply(id) else Failed(Failure(Unavailable, false)))
  }

  lemma {:induction false} LookUpThenReply(d: Desk, found: Desk, e: Desk, keys: nat, turn: Turn, reply: Reply)
    requires d.pending != [] && found == d.(book := d.book.(articles := found.book.articles))
    requires var id := d.pending[0];
             && found.book.articles
                == (if id in d.book.articles then d.book.articles else d.book.articles[id := turn.lookup])
             && reply == if found.book.articles[id] then turn.reply(id) else Failed(Failure(Unavailable, false))
    requires AfterReply(found, e, keys, reply) && e.book.articles == found.book.articles
    ensures TurnTaken(d, e, keys, turn)
  {
  }

  /**
   The clock of a turn: no attempt begins once the time is over; after a provider call with articles left
   there is a pause, unless it would last until the time is over, which ends the queue.
   */
  ghost predicate Timely(d: Desk, e: Desk, keys: nat, turn: Turn, start: real, gap: real, limit: real, ending: Ending,
      now: real)
    requires d.pending != []
  {
    var id := d.pending[0];
    id in e.book.articles &&
    var present := e.book.articles[id];
    var filed := start + turn.waitLookup + (if present then turn.waitReply else 0.0) + turn.waitStore;
    var pausing := present && turn.called && e.pending != [];
    if present && start + turn.waitLookup >= limit then ending.OutOfTime? && e.pending == d.pending
    else
      && TurnTaken(d, e, keys, turn)
      && (ending.OutOfTime? <==> pausing && filed + gap >= limit)
      && (ending.GoOn? ==> now == filed + (if pausing then gap else 0.0) + turn.waitNext)
  }

  /** One turn of the loop: the head of the queue is looked up and tried, its reply is filed, and a pause follows. */
  method TakeTurn(ids: seq<NewsId>, d: Desk, keys: nat, turn: Turn, start: real, gap: real, limit: real, ghost n: nat)
    returns (e: Desk, ending: Ending, now: real, ghost m: nat)
    requires turn.Valid() && gap >= 0.0 && start < limit
    requires NoRepeats(ids) && d.pending != [] && OnCourse(ids, d, keys, n)
    ensures !ending.Cancelled? ==> OnCourse(ids, e, keys, m)
    ensures ending.OutOfTime? ==> now + gap >= limit
    ensures e.calls == d.calls || (e.calls == d.calls + 1 && (ending.GoOn? && e.pending != [] ==> now >= start + gap))
    ensures ending.GoOn? ==> now >= start
    ensures !ending.Cancelled? ==> Timely(d, e, keys, turn, start, gap, limit, ending, now)
    ensures ending.Cancelled? ==> !turn.aliveBefore || !turn.aliveAfter
  {
    e, ending, now, m := d, Cancelled, start, n;
    if !turn.aliveBefore {
      return;
    }
    var id := d.pending[0];
    e := LookUp(ids, d, keys, turn.lookup, n);
    var s := Try(turn, id, e.book.articles[id], start, limit);
    ending, now := s.ending, s.now;
    if ending.GoOn? {
      ghost var found := e;
      e := FileReply(ids, e, keys, s.tried, s.uncached, s.called, s.reply, n);
      LookUpThenReply(d, found, e, keys, turn, s.reply);
      m := if n < |ids| then n + 1 else n;
      ending, now := Pause(turn, e.pending != [] && s.called, now, gap, limit);
    }
  }

  /** A turn of the batch, as far as its bounds go. */
  method NextTurn(ids: seq<NewsId>, d: Desk, keys: nat, turn: Turn, start: real, gap: real, limit: real, ghost n: nat)
    returns (e: Desk, ending: Ending, now: real, ghost m: nat)
    requires turn.Valid() && gap >= 0.0 && start < limit
    requires NoRepeats(ids) && d.pending != [] && OnCourse(ids, d, keys, n)
    ensures !ending.Cancelled? ==> OnCourse(ids, e, keys, m)
    ensures ending.OutOfTime? ==> now + gap >= limit
    ensures e.calls == d.calls || (e.calls == d.calls + 1 && (ending.GoOn? && e.pending != [] ==> now >= start + gap))
    ensures ending.GoOn? ==> now >= start
    ensures ending.Cancelled? ==> !turn.aliveBefore || !turn.aliveAfter
  {
    e, ending, now, m := TakeTurn(ids, d, keys, turn, start, gap, limit, n);
  }

  /** The whole batch over the requested ids in their sorted order; `None` when a checkpoint ends the job. */
  method ExtractBodies(ids: seq<NewsId>, keys: nat, gap: real, limit: real, turns: seq<Turn>, aliveAtEnd: bool)
    returns (batch: Option<Batch>)
    requires NoRepeats(ids) && gap >= 0.0 && forall t :: t in turns ==> t.Valid()
    ensures batch.Some? ==> Sound(ids, batch.value, keys) && Paced(batch.value.calls, gap, limit)
    ensures batch.Some? && batch.value.left != [] ==> batch.value.turns == |turns| || batch.value.at + gap >= limit
    ensures batch.None? ==> !aliveAtEnd || exists t :: t in turns && !(t.aliveBefore && t.aliveAfter)
  {
    var d := Desk(ids, Book(map[], map[], map[], []), 0, 0, {}, []);
    var now, i, ending := 0.0, 0, GoOn;
    ghost var n := 0;
    while d.pending != [] && i < |turns| && now < limit && ending.GoOn?
      invariant i <= |turns| && Paced(d.calls, gap, limit)
      invariant !ending.Cancelled? ==> OnCourse(ids, d, keys, n)
      invariant ending.OutOfTime? ==> now + gap >= limit
      invariant ending.Cancelled? ==> exists t :: t in turns && !(t.aliveBefore && t.aliveAfter)
      invariant ending.GoOn? && d.pending != [] ==> Pauses(d.calls, gap) <= now
      decreases |turns| - i
    {
      assert turns[i] in turns;
      d, ending, now, n := NextTurn(ids, d, keys, turns[i], now, gap, limit, n);
      i := i + 1;
    }
    if ending.Cancelled? || !aliveAtEnd {
      return None;
    }
    var closed := Close(ids, d, keys, i, now, n);
    return Some(closed);
  }

  // ----- What the log says ---------------------------------------------------------------------------------

  /** Between two attempts for the same article lies a failure that allows the second one. */
  lemma {:induction false} NoRetryAfterFinal(log: seq<Attempt>, i: nat, k: nat)
    requires RetriesAllowed(log) && i < k < |log| && log[i].id == log[k].id
    ensures log[i].reply.Failed? && WorthRetry(log[i].reply.failure)
  {
    var last := |log| - 1;
    if k == last {
      assert log[i] == log[..last][i] && log[i] in log[..last];
    } else {
      NoRetryAfterFinal(log[..last], i, k);
    }
  }

  /** The first attempt uses the first key; a rate limit, and nothing else, makes the next attempt use the next key. */
  lemma {:induction false} KeysRotate(log: seq<Attempt>, keys: nat, i: nat)
    requires KeysInTurn(log, keys) && i < |log|
    ensures log[i].key == if i == 0 then 0
                          else if log[i - 1].reply.Failed? && log[i - 1].reply.failure.code == RateLimited && keys > 0
                          then (log[i - 1].key + 1) % keys
                          else log[i - 1].key
  {
    var last := |log| - 1;
    if i < last {
      KeysRotate(log[..last], keys, i);
    } else if i > 0 {
      assert log[..last][last - 1] == log[i - 1];
    }
  }

  /** A batch whose queue ran empty ends with no failure that is worth a retry. */
  lemma {:induction false} NothingWorthRetryIsLeft(ids: seq<NewsId>, r: Batch, keys: nat, id: NewsId)
    requires Sound(ids, r, keys) && r.left == [] && id in r.book.failures && r.book.failures[id].retryable
    ensures r.book.failures[id].code !in {RateLimited, TimedOut, Network, ProviderError}
  {
  }

  /** An article is tried again only after each requested one was tried or found missing. */
  lemma {:induction false} FirstTurnsFirst(ids: seq<NewsId>, r: Batch, keys: nat, i: nat, k: nat, id: NewsId)
    requires Sound(ids, r, keys) && i < k < |r.book.log| && r.book.log[i].id == r.book.log[k].id && id in ids
    ensures Missing(r.book, id) || exists m :: 0 <= m < k && r.book.log[m].id == id
  {
    FirstTurnsIn(ids, r.book.articles, r.book.log, i, k, id);
  }

  lemma {:induction false} FirstTurnsIn(ids: seq<NewsId>, articles: map<NewsId, bool>, log: seq<Attempt>, i: nat,
      k: nat, id: NewsId)
    requires RetriesLast(ids, articles, log) && i < k < |log| && log[i].id == log[k].id && id in ids
    ensures (id in articles && !articles[id]) || exists m :: 0 <= m < k && log[m].id == id
  {
    var last := |log| - 1;
    var front := log[..last];
    if k < last {
      FirstTurnsIn(ids, articles, front, i, k, id);
      if m :| 0 <= m < k && front[m].id == id {
        assert log[m].id == id;
      }
    } else {
      assert front[i].id == log[k].id;
      TriedHasReply(front, i);
      if LastReply(front, id).Some? {
        var m := ReplyFrom(front, id);
        assert log[m].id == id;
      }
    }
  }

  lemma {:induction false} TriedHasReply(log: seq<Attempt>, i: nat)
    requires i < |log|
    ensures LastReply(log, log[i].id).Some?
  {
    if log[|log| - 1].id != log[i].id {
      TriedHasReply(log[..|log| - 1], i);
    }
  }

  lemma {:induction false} ReplyFrom(log: seq<Attempt>, id: NewsId) returns (m: nat)
    requires LastReply(log, id).Some?
    ensures m < |log| && log[m].id == id
  {
    m := |log| - 1;
    if log[m].id != id {
      m := ReplyFrom(log[..m], id);
    }
  }

  /**
   Only the first attempt for an article charges the shared budget, and when it calls the provider it
   does; so an article is charged at most once, and an extraction that starts with a call exactly once.
   */
  lemma {:induction false} ChargedOnFirstAttempt(log: seq<Attempt>, i: nat)
    requires ChargedOnce(log) && i < |log|
    ensures log[i].charge <==> forall k :: 0 <= k < i ==> log[k].id != log[i].id
    ensures log[i].reserved ==> forall k :: 0 <= k < i ==> log[k].id != log[i].id
    ensures log[i].called && (forall k :: 0 <= k < i ==> log[k].id != log[i].id) ==> log[i].reserved
  {
    var last := |log| - 1;
    if i == last {
      assert log[..last] + [log[last]] == log;
      assert forall k :: 0 <= k < i ==> log[..last][k] == log[k];
      if log[i].id in Tried(log[..last]) {
        var a :| a in log[..last] && a.id == log[i].id;
        var k :| 0 <= k < last && log[..last][k] == a;
        assert log[k].id == log[i].id;
      } else {
        forall k | 0 <= k < i ensures log[k].id != log[i].id {
          assert log[..last][k] in log[..last];
        }
      }
    } else {
      ChargedOnFirstAttempt(log[..last], i);
      assert forall k :: 0 <= k <= i ==> log[..last][k] == log[k];
    }
  }

  /** However often articles are tried again, a batch charges no more units than it has articles. */
  lemma {:induction false} UnitsBounded(ids: seq<NewsId>, r: Batch, keys: nat)
    requires NoRepeats(ids) && Sound(ids, r, keys)
    ensures Reservations(r.book.log) <= |ids|
  {
    ReservationsBounded(r.book.log);
    SizeOf(ids);
    SubsetSize(Tried(r.book.log), Elements(ids));
  }

  lemma {:induction false} SubsetSize(a: set<NewsId>, b: set<NewsId>)
    requires a <= b
    ensures |a| <= |b|
  {
    assert b == a + (b - a);
    assert |a + (b - a)| == |a| + |b - a|;
  }

  lemma {:induction false} ReservationsBounded(log: seq<Attempt>)
    requires ChargedOnce(log)
    ensures Reservations(log) <= |Tried(log)|
  {
    if log != [] {
      var front, a := log[..|log| - 1], log[|log| - 1];
      ReservationsBounded(front);
      assert log == front + [a];
      assert Tried(log) == Tried(front) + {a.id};
      SubsetSize(Tried(front), Tried(log));
      assert a.reserved ==> |Tried(front) + {a.id}| == |Tried(front)| + 1;
    }
  }

  /** A reader of the progress never sees it go back. */
  lemma {:induction false} ProgressNeverGoesBack(n: nat, progress: seq<Progress>, i: nat, k: nat)
    requires Advancing(n, progress) && i <= k < |progress|
    ensures progress[i].processed <= progress[k].processed <= n
  {
    var last := |progress| - 1;
    if k < last {
      ProgressNeverGoesBack(n, progress[..last], i, k);
    } else if i < last {
      ProgressNeverGoesBack(n, progress[..last], i, last - 1);
    }
  }
}
