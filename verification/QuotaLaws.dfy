/** What the quota script promises over whole runs, and how good its Retry-After is. */
module QuotaLaws {
  import opened Basics
  import opened Quota

  // ----- Runs ---------------------------------------------------------------------------------------------

  datatype Request = Request(buckets: seq<Bucket>, now: Time)

  function Served(s: Counters, r: Request): Counters {
    if Admits(s, r.buckets, r.now) then Charged(s, r.buckets, r.now) else Repaired(s, r.buckets, r.now)
  }

  function Serve(rs: seq<Request>): Counters {
    if rs == [] then map[] else Served(Serve(rs[..|rs| - 1]), rs[|rs| - 1])
  }

  predicate Names(r: Request, k: Key) {
    exists b :: b in r.buckets && b.key == k
  }

  /** A charge of one key: when, and whether it opened a window. */
  datatype Charge = Charge(at: Time, opens: bool)

  /** The charges of key k in a run. */
  function Charges(rs: seq<Request>, k: Key): seq<Charge> {
    if rs == [] then [] else
      var earlier, r := Charges(rs[..|rs| - 1], k), rs[|rs| - 1];
      var s := Serve(rs[..|rs| - 1]);
      if Names(r, k) && Admits(s, r.buckets, r.now)
      then earlier + [Charge(r.now, CountOf(s, k, r.now) == 0)] else earlier
  }

  /** Requests come in time order, name each bucket once, and agree on the limit of k. */
  ghost predicate Ordered(rs: seq<Request>, k: Key, limit: nat) {
    rs != [] ==>
      var front, r := rs[..|rs| - 1], rs[|rs| - 1];
      && Ordered(front, k, limit) && (front != [] ==> front[|front| - 1].now <= r.now)
      && DistinctKeys(r.buckets)
      && (forall b :: b in r.buckets && b.key == k ==> b.limit == limit)
  }

  // ----- Windows --------------------------------------------------------------------------------------------

  /** The charges since the last window opened, that one included. */
  function SinceOpen(log: seq<Charge>): nat {
    if log == [] then 0
    else if log[|log| - 1].opens then 1
    else SinceOpen(log[..|log| - 1]) + 1
  }

  /** When the last window opened. */
  function LastOpen(log: seq<Charge>): Option<Time> {
    if log == [] then None
    else if log[|log| - 1].opens then Some(log[|log| - 1].at)
    else LastOpen(log[..|log| - 1])
  }

  /** No window holds more than `limit` charges; a charge opens a window exactly when the last one is over. */
  ghost predicate Windowed(log: seq<Charge>, limit: nat) {
    log != [] ==>
      var front, c := log[..|log| - 1], log[|log| - 1];
      && Windowed(front, limit) && SinceOpen(log) <= limit
      && (front != [] ==> front[|front| - 1].at <= c.at)
      && (c.opens <==> LastOpen(front).None? || c.at > LastOpen(front).value + 3600000)
  }

  /** The stored counter is the state of the last window. */
  ghost predicate Tracks(s: Counters, k: Key, log: seq<Charge>) {
    if log == [] then k !in s
    else LastOpen(log).Some? && k in s && s[k] == Counter(SinceOpen(log), Some(LastOpen(log).value + WINDOW))
  }

  lemma {:induction false} ChargeTracks(s: Counters, r: Request, k: Key, limit: nat, log: seq<Charge>)
    requires Tracks(s, k, log) && Windowed(log, limit) && (log != [] ==> log[|log| - 1].at <= r.now)
    requires DistinctKeys(r.buckets) && Admits(s, r.buckets, r.now) && Names(r, k)
    requires forall b :: b in r.buckets && b.key == k ==> b.limit == limit
    ensures var more := log + [Charge(r.now, CountOf(s, k, r.now) == 0)];
            Tracks(Charged(s, r.buckets, r.now), k, more) && Windowed(more, limit)
  {
    var more := log + [Charge(r.now, CountOf(s, k, r.now) == 0)];
    assert more[..|more| - 1] == log;
    var b :| b in r.buckets && b.key == k;
    assert !Blocked(s, b, r.now);
    ChargedOnce(s, r.buckets, r.now, k);
    SinceOpenPositive(log);
  }

  lemma {:induction false} SinceOpenPositive(log: seq<Charge>)
    ensures log != [] ==> SinceOpen(log) > 0
  {
  }

  /** Among distinct buckets, a key is incremented once, from the state it had before. */
  lemma {:induction false} ChargedOnce(s: Counters, bs: seq<Bucket>, now: Time, k: Key)
    requires DistinctKeys(bs)
    ensures if exists b :: b in bs && b.key == k
            then k in Charged(s, bs, now) && Charged(s, bs, now)[k] == Incremented(s, k, now)[k]
            else (k in Charged(s, bs, now) <==> k in s) && (k in s ==> Charged(s, bs, now)[k] == s[k])
  {
    if bs != [] {
      var front, last := bs[..|bs| - 1], bs[|bs| - 1];
      assert bs == front + [last];
      ChargedOnce(s, front, now, k);
      if last.key == k {
        assert forall b :: b in front ==> b.key != k;
      } else {
        assert (exists b :: b in bs && b.key == k) <==> exists b :: b in front && b.key == k;
      }
    }
  }

  lemma {:induction false} StillTracks(s: Counters, r: Request, k: Key, log: seq<Charge>)
    requires Tracks(s, k, log) && DistinctKeys(r.buckets)
    requires Names(r, k) ==> !Admits(s, r.buckets, r.now)
    ensures Tracks(Served(s, r), k, log)
  {
    RepairedSame(s, r.buckets, r.now, k);
    ChargedOnce(s, r.buckets, r.now, k);
  }

  /** In every run the counter of k is the state of its last window. */
  lemma {:induction false} RunTracks(rs: seq<Request>, k: Key, limit: nat)
    requires Ordered(rs, k, limit)
    ensures var log := Charges(rs, k);
            && Tracks(Serve(rs), k, log) && Windowed(log, limit)
            && (log != [] ==> rs != [] && log[|log| - 1].at <= rs[|rs| - 1].now)
  {
    if rs != [] {
      var front, r := rs[..|rs| - 1], rs[|rs| - 1];
      RunTracks(front, k, limit);
      var s, log := Serve(front), Charges(front, k);
      if Names(r, k) && Admits(s, r.buckets, r.now) {
        ChargeTracks(s, r, k, limit, log);
      } else {
        StillTracks(s, r, k, log);
      }
    }
  }

  /** A bucket has room: its limit is positive, and its last window is over or holds fewer charges than that. */
  ghost predicate HasRoom(log: seq<Charge>, limit: int, now: Time) {
    limit > 0 && (LastOpen(log).None? || now > LastOpen(log).value + 3600000 || SinceOpen(log) < limit)
  }

  /** After any run a request is admitted if and only if every bucket it names has room. */
  lemma {:induction false} AdmittedIffRoom(rs: seq<Request>, bs: seq<Bucket>, now: Time)
    requires forall b :: b in bs ==> b.limit >= 0 && Ordered(rs, b.key, b.limit)
    ensures Admits(Serve(rs), bs, now) <==> forall b :: b in bs ==> HasRoom(Charges(rs, b.key), b.limit, now)
  {
    forall b | b in bs ensures !Blocked(Serve(rs), b, now) <==> HasRoom(Charges(rs, b.key), b.limit, now) {
      RunTracks(rs, b.key, b.limit);
    }
  }

  /** At no time, after any run, does a readable count exceed the limit. */
  lemma {:induction false} CountsWithinLimit(rs: seq<Request>, k: Key, limit: nat, now: Time)
    requires Ordered(rs, k, limit)
    ensures CountOf(Serve(rs), k, now) <= limit
  {
    RunTracks(rs, k, limit);
  }

  /** The start of the last window, and that every charge since then is at or after it. */
  lemma {:induction false} LastWindow(log: seq<Charge>, limit: nat)
    requires Windowed(log, limit) && log != []
    ensures 1 <= SinceOpen(log) <= |log| && LastOpen(log) == Some(log[|log| - SinceOpen(log)].at)
    ensures forall i :: 0 <= i < |log| ==> log[i].at <= log[|log| - 1].at
    ensures log[|log| - SinceOpen(log)].opens
  {
    if !log[|log| - 1].opens {
      LastWindow(log[..|log| - 1], limit);
    } else if |log| > 1 {
      LastWindow(log[..|log| - 1], limit);
    }
  }

  lemma {:induction false} WindowedPrefix(log: seq<Charge>, limit: nat, n: nat)
    requires Windowed(log, limit) && n <= |log|
    ensures Windowed(log[..n], limit)
  {
    if n < |log| {
      WindowedPrefix(log[..|log| - 1], limit, n);
      assert log[..|log| - 1][..n] == log[..n];
    } else {
      assert log[..n] == log;
    }
  }

  /** The window that was open after the first n charges began with one of the last `limit` of them. */
  lemma {:induction false} WindowBefore(log: seq<Charge>, limit: nat, n: nat) returns (o: nat)
    requires Windowed(log, limit) && 0 < n <= |log|
    ensures n <= o + limit && o < n && log[o].opens && LastOpen(log[..n]) == Some(log[o].at)
  {
    WindowedPrefix(log, limit, n);
    LastWindow(log[..n], limit);
    SinceOpenBound(log[..n], limit);
    o := n - SinceOpen(log[..n]);
  }

  /** A later window begins after the end of the one before it. */
  lemma {:induction false} WindowsApart(log: seq<Charge>, limit: nat, o: nat)
    requires Windowed(log, limit) && o < |log| && log[o].opens
    ensures LastOpen(log[..o]).Some? ==> log[o].at > LastOpen(log[..o]).value + 3600000
  {
    WindowedPrefix(log, limit, o + 1);
    assert log[..o + 1][..o] == log[..o];
  }

  lemma {:induction false} InTimeOrder(log: seq<Charge>, limit: nat, i: nat, k: nat)
    requires Windowed(log, limit) && i <= k < |log|
    ensures log[i].at <= log[k].at
  {
    WindowedPrefix(log, limit, k + 1);
    LastWindow(log[..k + 1], limit);
    assert log[..k + 1][i] == log[i];
  }

  /** 2 * limit + 1 charges in a row take longer than a window. */
  lemma {:induction false} ChargesSpread(log: seq<Charge>, limit: nat, i: nat)
    requires Windowed(log, limit) && i + 2 * limit < |log|
    ensures log[i + 2 * limit].at > log[i].at + WINDOW
  {
    var second := WindowBefore(log, limit, i + 2 * limit + 1);
    var first := WindowBefore(log, limit, second);
    WindowsApart(log, limit, second);
    InTimeOrder(log, limit, i, first);
    InTimeOrder(log, limit, second, i + 2 * limit);
  }

  lemma {:induction false} SinceOpenBound(log: seq<Charge>, limit: nat)
    requires Windowed(log, limit)
    ensures SinceOpen(log) <= limit
  {
  }

  predicate Within(c: Charge, from: Time) {
    from <= c.at <= from + WINDOW
  }

  /** How many charges fall into the window-long interval from `from` on, both ends included. */
  function CountIn(log: seq<Charge>, from: Time): nat {
    if log == [] then 0 else CountIn(log[..|log| - 1], from) + if Within(log[|log| - 1], from) then 1 else 0
  }

  lemma {:induction false} CountBound(log: seq<Charge>, from: Time, skip: nat)
    requires skip <= |log| && forall i :: 0 <= i < skip ==> !Within(log[i], from)
    ensures CountIn(log, from) <= |log| - skip
  {
    if skip < |log| {
      CountBound(log[..|log| - 1], from, skip);
    } else if log != [] {
      CountBound(log[..|log| - 1], from, skip - 1);
    }
  }

  lemma {:induction false} WindowedCount(log: seq<Charge>, limit: nat, from: Time)
    requires Windowed(log, limit)
    ensures CountIn(log, from) <= 2 * limit
  {
    if log != [] {
      var last := log[|log| - 1];
      if last.at > from + WINDOW {
        WindowedCount(log[..|log| - 1], limit, from);
      } else if |log| <= 2 * limit {
        CountBound(log, from, 0);
      } else {
        var skip := |log| - 2 * limit;
        forall i | 0 <= i < skip ensures !Within(log[i], from) {
          LateCharges(log, limit, i);
        }
        CountBound(log, from, skip);
      }
    }
  }

  lemma {:induction false} LateCharges(log: seq<Charge>, limit: nat, i: nat)
    requires Windowed(log, limit) && i + 2 * limit < |log|
    ensures log[|log| - 1].at > log[i].at + WINDOW
  {
    ChargesSpread(log, limit, i);
    LastWindow(log, limit);
  }

  /**
   Over a whole run, every interval of one window length sees at most twice the limit of charges of
   a bucket, wherever it begins.
   */
  lemma {:induction false} AtMostTwiceTheLimit(rs: seq<Request>, k: Key, limit: nat, from: Time)
    requires Ordered(rs, k, limit)
    ensures CountIn(Charges(rs, k), from) <= 2 * limit
  {
    RunTracks(rs, k, limit);
    WindowedCount(Charges(rs, k), limit, from);
  }

  // ----- Retry-After --------------------------------------------------------------------------------------------

  /** When a blocked bucket's counter ends: its expiry, or a whole window after an expiry was missing. */
  function EndOf(s: Counters, b: Bucket, now: Time): Time
    requires Live(s, b.key, now)
  {
    if s[b.key].expires.None? then now + WINDOW else s[b.key].expires.value
  }

  /** Milliseconds until the last blocked bucket ends; unlike the script's wait it can be 0. */
  function Remaining(s: Counters, bs: seq<Bucket>, now: Time): Time
    requires forall b :: b in bs ==> b.limit > 0
  {
    if bs == [] then 0 else
      assert forall b :: b in bs[..|bs| - 1] ==> b in bs;
      var rest := Remaining(s, bs[..|bs| - 1], now);
      var b := bs[|bs| - 1];
      assert b in bs;
      if Blocked(s, b, now) then Max(rest, EndOf(s, b, now) - now) else rest
  }

  lemma {:induction false} RemainingBounds(s: Counters, bs: seq<Bucket>, now: Time)
    requires forall b :: b in bs ==> b.limit > 0
    ensures Remaining(s, bs, now) >= 0
    ensures Longest(s, bs, now) == if Admits(s, bs, now) then 0 else Max(1, Remaining(s, bs, now))
    ensures forall b :: b in bs && Blocked(s, b, now) ==> EndOf(s, b, now) - now <= Remaining(s, bs, now)
    ensures Remaining(s, bs, now) > 0 ==>
            exists b :: b in bs && Blocked(s, b, now) && EndOf(s, b, now) - now == Remaining(s, bs, now)
  {
    if bs != [] {
      var front, last := bs[..|bs| - 1], bs[|bs| - 1];
      assert bs == front + [last];
      RemainingBounds(s, front, now);
      LongestBounds(s, bs, now);
      LongestBounds(s, front, now);
      if Remaining(s, bs, now) > 0 && !(Blocked(s, last, now) && EndOf(s, last, now) - now == Remaining(s, bs, now)) {
        var b :| b in front && Blocked(s, b, now) && EndOf(s, b, now) - now == Remaining(s, front, now);
        assert b in bs;
      }
    }
  }

  /** With nothing else charged, a bucket that was blocked opens right after its counter ends. */
  lemma {:induction false} OpensAfterEnd(s: Counters, bs: seq<Bucket>, now: Time, b: Bucket, wait: nat)
    requires b in bs && b.limit > 0
    ensures Blocked(Repaired(s, bs, now), b, now + wait) <==> Blocked(s, b, now) && now + wait <= EndOf(s, b, now)
  {
    RepairedSame(s, bs, now, b.key);
    if Blocked(s, b, now) && s[b.key].expires.None? {
      BlockedIsMended(s, bs, now, b);
    }
  }

  lemma {:induction false} BlockedIsMended(s: Counters, bs: seq<Bucket>, now: Time, b: Bucket)
    requires b in bs && Blocked(s, b, now) && b.key in s && s[b.key].expires.None?
    ensures var t := Repaired(s, bs, now); b.key in t && t[b.key] == Counter(s[b.key].count, Some(now + WINDOW))
  {
    var front, last := bs[..|bs| - 1], bs[|bs| - 1];
    assert bs == front + [last];
    RepairedSame(s, front, now, b.key);
    if b in front {
      BlockedIsMended(s, front, now, b);
    }
  }

  /** With nothing else charged, a denied request is admitted after a wait exactly when it exceeds the remainder. */
  lemma {:induction false} AdmittedAfter(s: Counters, bs: seq<Bucket>, now: Time, wait: nat)
    requires !Admits(s, bs, now) && forall b :: b in bs ==> b.limit > 0
    ensures Admits(Repaired(s, bs, now), bs, now + wait) <==> wait > Remaining(s, bs, now)
  {
    RemainingBounds(s, bs, now);
    forall b | b in bs
      ensures Blocked(Repaired(s, bs, now), b, now + wait) <==> Blocked(s, b, now) && now + wait <= EndOf(s, b, now)
    {
      OpensAfterEnd(s, bs, now, b, wait);
    }
    if wait <= Remaining(s, bs, now) {
      if Remaining(s, bs, now) > 0 {
        var b :| b in bs && Blocked(s, b, now) && EndOf(s, b, now) - now == Remaining(s, bs, now);
        assert Blocked(Repaired(s, bs, now), b, now + wait);
      } else {
        var b :| b in bs && Blocked(s, b, now);
        assert Blocked(Repaired(s, bs, now), b, now + wait);
      }
    }
  }

  /** What check_quotas sends as Retry-After. */
  function RetryAfter(s: Counters, bs: seq<Bucket>, now: Time): int {
    Max(1, CeilSeconds(Longest(s, bs, now)))
  }

  /** The least whole number of seconds after which the request is admitted. */
  ghost predicate LeastSeconds(s: Counters, bs: seq<Bucket>, now: Time, seconds: int) {
    && seconds >= 0 && Admits(Repaired(s, bs, now), bs, now + seconds * 1000)
    && forall fewer: nat :: fewer < seconds ==> !Admits(Repaired(s, bs, now), bs, now + fewer * 1000)
  }

  /**
   Retry-After is the least sufficient number of seconds, except when the remaining time is a positive
   multiple of a second: then the counter can still be read at the end of the announced wait, and the
   least sufficient number is one more.
   */
  lemma {:induction false} RetryAfterExact(s: Counters, bs: seq<Bucket>, now: Time)
    requires !Admits(s, bs, now) && forall b :: b in bs ==> b.limit > 0
    ensures var remaining := Remaining(s, bs, now);
            var early := remaining > 0 && remaining % 1000 == 0;
            && LeastSeconds(s, bs, now, RetryAfter(s, bs, now) + if early then 1 else 0)
            && (Admits(Repaired(s, bs, now), bs, now + RetryAfter(s, bs, now) * 1000) <==> !early)
  {
    RemainingBounds(s, bs, now);
    var remaining := Remaining(s, bs, now);
    var seconds := remaining / 1000 + 1;
    AdmittedAfter(s, bs, now, seconds * 1000);
    AdmittedAfter(s, bs, now, RetryAfter(s, bs, now) * 1000);
    forall fewer: nat | fewer < seconds ensures !Admits(Repaired(s, bs, now), bs, now + fewer * 1000) {
      AdmittedAfter(s, bs, now, fewer * 1000);
    }
  }

  lemma {:induction false} FullAtItsEnd(s: Counters, bs: seq<Bucket>)
    requires bs == [Bucket(0, 1)] && s == map[0 := Counter(1, Some(3600000))]
    ensures !Admits(s, bs, 3599000) && RetryAfter(s, bs, 3599000) == 1 && Repaired(s, bs, 3599000) == s
    ensures !Admits(s, bs, 3600000) && Admits(s, bs, 3600001)
  {
    assert bs[..0] == [];
    assert Blocked(s, bs[0], 3599000) && Blocked(s, bs[0], 3600000);
    assert Waiting(s, bs[0], 3599000) == 1000 && Longest(s, bs[..0], 3599000) == 0;
    assert Longest(s, bs, 3599000) == 1000;
  }

  /**
   "A request is admitted after the announced wait" is false: from the empty store, a bucket of limit 1 is
   charged at time 0; the request denied at 3599000 is told to wait a second, and is denied again then.
   */
  lemma {:induction false} RetryAfterTooEarly(bs: seq<Bucket>, first: Request, second: Request)
    requires bs == [Bucket(0, 1)] && first == Request(bs, 0) && second == Request(bs, 3599000)
    ensures Admits(map[], bs, 0) && Serve([first]) == map[0 := Counter(1, Some(3600000))]
    ensures !Admits(Serve([first]), bs, 3599000) && RetryAfter(Serve([first]), bs, 3599000) == 1
    ensures var s := Serve([first] + [second]); !Admits(s, bs, 3600000) && Admits(s, bs, 3600001)
  {
    assert [first][..0] == [] && ([first] + [second])[..1] == [first];
    assert bs[..0] == [] && Charged(map[], bs, 0) == Incremented(map[], 0, 0);
    assert Serve([first]) == Served(Serve([]), first) == Charged(map[], bs, 0);
    FullAtItsEnd(Serve([first]), bs);
  }
}
