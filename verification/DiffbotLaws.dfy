/** What a Diffbot call does after each reply, read off the reply itself, and the only ways it can end. */
module DiffbotLaws {
  import opened Basics
  import opened DiffbotRetry

  // ----- Replies ------------------------------------------------------------------------------------------

  /** A problem reported with this code: an HTTP status from 400 on, or the code in the body of a success. */
  predicate Reports(r: Reply, code: int) {
    r.Response? && if r.status >= 400 then r.status == code else r.body == Problem(Some(code)) && code != 0
  }

  predicate TooMany(r: Reply) {
    Reports(r, 429)
  }

  predicate Denied(r: Reply) {
    Reports(r, 401) || Reports(r, 403)
  }

  predicate Broken(r: Reply) {
    r.Response? && if r.status >= 400 then r.status >= 500
                   else r.body.Problem? && r.body.code.Some? && r.body.code.value >= 500
  }

  predicate Fetched(r: Reply) {
    r.Response? && r.status < 400 && r.body.Article?
  }

  /** No reply at all is a time-out or a network error. */
  predicate Possible(r: Reply) {
    r.NoReply? ==> r.category.TimedOut? || r.category.Network?
  }

  /** The replies after which the same request may be sent again. */
  predicate MayRepeat(r: Reply) {
    r.NoReply? || TooMany(r) || Broken(r)
  }

  /** The server's Retry-After, which counts with a rate limit and a server error only. */
  function Header(r: Reply): Option<real> {
    if TooMany(r) || Broken(r) then r.retryAfter else None
  }

  /** The category of each reply, by its status and its body. */
  lemma {:induction false} RepliesMean(r: Reply)
    requires Possible(r)
    ensures var c := CategoryOf(r);
            && (c == Some(RateLimit) <==> TooMany(r)) && (c == Some(Auth) <==> Denied(r))
            && (c == Some(ServerError) <==> Broken(r)) && (c == None <==> Fetched(r))
            && (c == Some(InvalidResponse) <==>
                  r.Response? && r.status < 400 && (r.body.NotJson? || r.body.NotAnObject?))
            && (c == Some(ApiError) <==> r.Response? && r.status < 400 && r.body in {Problem(None), Problem(Some(0))})
            && (c == Some(TimedOut) <==> r == NoReply(TimedOut)) && (c == Some(Network) <==> r == NoReply(Network))
    ensures CategoryOf(r).Some? ==> (Retryable(CategoryOf(r).value) <==> MayRepeat(r))
    ensures RetryAfterOf(r) == Header(r)
  {
  }

  // ----- Pauses ------------------------------------------------------------------------------------------

  /** What a server asks for is done, from a second on and up to the cap; none above it. */
  lemma {:induction false} ServerSetsPause(cfg: Settings, retry: nat, seconds: real)
    ensures var wait := Backoff(cfg, retry, Some(seconds));
            && (wait.None? <==> seconds > cfg.backoffMax && seconds > 0.0)
            && (wait.Some? ==> wait.value == if seconds < 1.0 then 1.0 else seconds)
  {
  }

  /** Otherwise the first pause is the base, and each one doubles the one before, up to the cap. */
  lemma {:induction false} PausesDouble(cfg: Settings, retry: nat)
    requires cfg.backoffBase >= 0.0 && cfg.backoffMax >= 0.0
    ensures Backoff(cfg, 0, None)
            == Some(if cfg.backoffBase <= cfg.backoffMax then cfg.backoffBase else cfg.backoffMax)
    ensures var wait, next := Backoff(cfg, retry, None), Backoff(cfg, retry + 1, None);
            wait.Some? && next == Some(if 2.0 * wait.value <= cfg.backoffMax then 2.0 * wait.value else cfg.backoffMax)
  {
  }

  // ----- After a reply -----------------------------------------------------------------------------------

  /** Key k met a rate limit among the first n attempts. */
  predicate Spent(log: seq<Attempt>, n: nat, k: Key)
    requires n <= |log|
  {
    exists i :: 0 <= i < n && log[i].key == k && TooMany(log[i].reply)
  }

  ghost predicate AllPossible(log: seq<Attempt>) {
    forall i :: 0 <= i < |log| ==> Possible(log[i].reply)
  }

  lemma {:induction false} LimitedIsSpent(log: seq<Attempt>, k: Key)
    requires AllPossible(log)
    ensures k in Limited(log) <==> Spent(log, |log|, k)
  {
    if log != [] {
      var front, last := log[..|log| - 1], log[|log| - 1];
      LimitedIsSpent(front, k);
      RepliesMean(last.reply);
      assert log == front + [last];
      if i :| 0 <= i < |front| && front[i].key == k && TooMany(front[i].reply) {
        assert log[i].key == k;
      }
    }
  }

  /** The first of the keys that is not used. */
  ghost predicate FirstOf(keys: seq<Key>, used: set<Key>, k: Key) {
    exists n :: 0 <= n < |keys| && keys[n] == k && k !in used && forall m :: 0 <= m < n ==> keys[m] in used
  }

  lemma {:induction false} FirstFreeIsFirst(keys: seq<Key>, used: set<Key>)
    requires FirstFree(keys, used).Some?
    ensures FirstOf(keys, used, FirstFree(keys, used).value)
  {
    var k := FirstFree(keys, used).value;
    if keys[0] !in used {
      assert keys[0] == k;
    } else {
      FirstFreeIsFirst(keys[1..], used);
      var n :| 0 <= n < |keys[1..]| && keys[1..][n] == k && forall m :: 0 <= m < n ==> keys[1..][m] in used;
      assert keys[n + 1] == k;
      forall m | 0 <= m < n + 1 ensures keys[m] in used {
        assert m > 0 ==> keys[m] == keys[1..][m - 1];
      }
    }
  }

  /** The key after a rate limit: the first in order that has not met one. */
  ghost predicate NextInOrder(keys: seq<Key>, log: seq<Attempt>, k: Key) {
    exists n :: 0 <= n < |keys| && keys[n] == k && !Spent(log, |log|, k)
                && forall m :: 0 <= m < n ==> Spent(log, |log|, keys[m])
  }

  /** What an attempt with a failure that goes on is followed by, for the pause number `waits`. */
  ghost predicate GoesOn(plan: Plan, log: seq<Attempt>, next: Key) {
    log != [] &&
    var last := log[|log| - 1];
    if |plan.keys| > 1 && TooMany(last.reply) then last.after == Switched(next) && NextInOrder(plan.keys, log, next)
    else
      var pause := Backoff(plan.cfg, Waits(log[..|log| - 1]), Header(last.reply));
      && MayRepeat(last.reply) && next == last.key
      && pause.Some? && last.after == Waited(pause.value, plan.turns(|log| - 1).now)
  }

  /**
   An attempt is followed by another one in one of two ways: with several keys a rate limit moves the
   call to the first key that has not met one, and else a failure worth it is repeated after a pause.
   */
  lemma {:induction false} AttemptsFollow(plan: Plan, log: seq<Attempt>, i: nat)
    requires forall k :: plan.turns(k).Valid()
    requires plan.Follows(log) && Proper(log, plan.keys, plan.cfg, plan.deadline) && i + 1 < |log|
    ensures GoesOn(plan, log[..i + 1], log[i + 1].key)
  {
    if i + 2 < |log| {
      AttemptsFollow(plan, log[..|log| - 1], i);
      assert log[..|log| - 1][..i + 1] == log[..i + 1];
    } else {
      LastGoesOn(plan, log[..i + 1]);
    }
  }

  lemma {:induction false} RepliesPossible(plan: Plan, log: seq<Attempt>)
    requires (forall k :: plan.turns(k).Valid()) && plan.Follows(log)
    ensures AllPossible(log)
  {
    if log != [] {
      RepliesPossible(plan, log[..|log| - 1]);
    }
  }

  lemma {:induction false} LastGoesOn(plan: Plan, log: seq<Attempt>)
    requires forall k :: plan.turns(k).Valid()
    requires plan.Follows(log) && Proper(log, plan.keys, plan.cfg, plan.deadline)
    requires log != [] && !log[|log| - 1].after.Ended?
    ensures GoesOn(plan, log, NextKey(log, First(plan.keys)))
  {
    var front, last := log[..|log| - 1], log[|log| - 1];
    RepliesPossible(plan, log);
    RepliesMean(last.reply);
    if last.after.Switched? {
      FirstFreeIsFirst(plan.keys, Limited(log));
      var n :| 0 <= n < |plan.keys| && plan.keys[n] == last.after.to && last.after.to !in Limited(log)
               && forall m :: 0 <= m < n ==> plan.keys[m] in Limited(log);
      LimitedIsSpent(log, last.after.to);
      forall m | 0 <= m < n ensures Spent(log, |log|, plan.keys[m]) {
        LimitedIsSpent(log, plan.keys[m]);
      }
    }
  }

  // ----- The end of a call -------------------------------------------------------------------------------

  /** Why a call ends with a failure after the reply to its last attempt. */
  ghost predicate Hopeless(plan: Plan, log: seq<Attempt>, c: Category)
    requires log != []
  {
    var last, t, n := log[|log| - 1], plan.turns(|log| - 1), |log|;
    var over := n >= Max(1, Min(plan.maxRetries + |plan.keys|, plan.cfg.attemptCap));
    var header := Header(last.reply);
    if |plan.keys| > 1 && TooMany(last.reply) then
      || (c.RateLimit? && (over || forall k :: k in plan.keys ==> Spent(log, n, k)))
      || t.beforeSwitch == Some(c)
    else
      var pause := Backoff(plan.cfg, Waits(log[..n - 1]), header);
      || (CategoryOf(last.reply) == Some(c)
          && (!MayRepeat(last.reply) || over || Waits(log[..n - 1]) >= plan.maxRetries
              || (header.Some? && header.value > 0.0 && header.value > plan.cfg.backoffMax)))
      || t.beforeWait == Some(c)
      || (c.Deadline? && plan.deadline.Some? && pause.Some? && t.now + pause.value >= plan.deadline.value)
  }

  /**
   A call ends with the first article, with an interruption, or when nothing is left to try: no other
   key or no attempt after a rate limit, no retry, a failure not worth one, a Retry-After above the
   cap, or a pause that would reach the deadline.
   */
  lemma {:induction false} EndsOnlyFor(plan: Plan, log: seq<Attempt>, result: Result)
    requires forall k :: plan.turns(k).Valid()
    requires plan.Follows(log) && plan.Concludes(log, result)
    ensures result.Succeeded? ==> log != [] && Fetched(log[|log| - 1].reply)
    ensures result.Failed? ==>
              || plan.turns(|log|).atSlot == Some(result.category)
              || (log != [] && plan.turns(|log| - 1).afterWait == Some(result.category))
              || (log != [] && !Fetched(log[|log| - 1].reply) && Hopeless(plan, log, result.category))
  {
    RepliesPossible(plan, log);
    if log != [] {
      var front, last := log[..|log| - 1], log[|log| - 1];
      RepliesMean(last.reply);
      if result.Failed? && Ends(log) && last.Category().Some?
         && plan.DecisionAfter(front, last.Category().value) == GiveUp(result.category) {
        GivesUp(plan, log, result.category);
      }
    }
  }

  lemma {:induction false} GivesUp(plan: Plan, log: seq<Attempt>, c: Category)
    requires forall k :: plan.turns(k).Valid()
    requires plan.Follows(log) && log != [] && log[|log| - 1].Category().Some?
    requires plan.DecisionAfter(log[..|log| - 1], log[|log| - 1].Category().value) == GiveUp(c)
    ensures Hopeless(plan, log, c)
  {
    var front, last := log[..|log| - 1], log[|log| - 1];
    RepliesPossible(plan, log);
    RepliesMean(last.reply);
    if |plan.keys| > 1 && TooMany(last.reply) {
      assert Limited(log) == Limited(front) + {last.key};
      if FirstFree(plan.keys, Limited(log)).None? {
        forall k | k in plan.keys ensures Spent(log, |log|, k) {
          assert k in Elements(plan.keys);
          LimitedIsSpent(log, k);
        }
      }
    }
  }
}
