/**
 The admission script of app/usage_limits.py: several fixed-window counters are checked together and
 charged together. Times are milliseconds; a key can be read up to and including its expiry time.
 */
module Quota {
  import opened Basics

  type Key = nat
  type Time = int

  const WINDOW: Time := 3600 * 1000

  /** A stored count; a key without expiry can be left behind by an interrupted reservation. */
  datatype Counter = Counter(count: nat, expires: Option<Time>)

  type Counters = map<Key, Counter>

  datatype Bucket = Bucket(key: Key, limit: int)

  predicate Live(s: Counters, k: Key, now: Time) {
    k in s && (s[k].expires.None? || now <= s[k].expires.value)
  }

  function CountOf(s: Counters, k: Key, now: Time): nat {
    if Live(s, k, now) then s[k].count else 0
  }

  predicate Blocked(s: Counters, b: Bucket, now: Time) {
    CountOf(s, b.key, now) >= b.limit
  }

  /** Blocked buckets without an expiry get a new window. */
  function Mended(s: Counters, b: Bucket, now: Time): Counters {
    if Blocked(s, b, now) && Live(s, b.key, now) && s[b.key].expires.None?
    then s[b.key := Counter(s[b.key].count, Some(now + WINDOW))] else s
  }

  function Repaired(s: Counters, bs: seq<Bucket>, now: Time): Counters {
    if bs == [] then s else Mended(Repaired(s, bs[..|bs| - 1], now), bs[|bs| - 1], now)
  }

  /** Milliseconds until a blocked bucket's window ends, at least 1. */
  function Waiting(s: Counters, b: Bucket, now: Time): Time {
    if !Live(s, b.key, now) then 1
    else if s[b.key].expires.None? then WINDOW
    else Max(1, s[b.key].expires.value - now)
  }

  /** The longest wait of a blocked bucket, 0 when nothing is blocked. */
  function Longest(s: Counters, bs: seq<Bucket>, now: Time): Time {
    if bs == [] then 0 else
      var rest := Longest(s, bs[..|bs| - 1], now);
      var b := bs[|bs| - 1];
      if Blocked(s, b, now) then Max(rest, Waiting(s, b, now)) else rest
  }

  function Incremented(s: Counters, k: Key, now: Time): Counters {
    if Live(s, k, now) && s[k].count > 0 then s[k := Counter(s[k].count + 1, s[k].expires)]
    else s[k := Counter(1, Some(now + WINDOW))]
  }

  function Charged(s: Counters, bs: seq<Bucket>, now: Time): Counters {
    if bs == [] then s else Incremented(Charged(s, bs[..|bs| - 1], now), bs[|bs| - 1].key, now)
  }

  function CeilSeconds(ms: Time): int {
    (ms + 999) / 1000
  }

  predicate Admits(s: Counters, bs: seq<Bucket>, now: Time) {
    forall b :: b in bs ==> !Blocked(s, b, now)
  }

  // ----- The script -------------------------------------------------------------------------------------

  lemma {:induction false} LongestBounds(s: Counters, bs: seq<Bucket>, now: Time)
    ensures Longest(s, bs, now) >= 0
    ensures Longest(s, bs, now) == 0 <==> Admits(s, bs, now)
    ensures forall b :: b in bs && Blocked(s, b, now) ==> Waiting(s, b, now) <= Longest(s, bs, now)
    ensures Longest(s, bs, now) > 0 ==>
            exists b :: b in bs && Blocked(s, b, now) && Waiting(s, b, now) == Longest(s, bs, now)
  {
    if bs != [] {
      var front, last := bs[..|bs| - 1], bs[|bs| - 1];
      LongestBounds(s, front, now);
      assert bs == front + [last];
      if Longest(s, bs, now) > 0 {
        if Blocked(s, last, now) && Waiting(s, last, now) == Longest(s, bs, now) {
        } else {
          var b :| b in front && Blocked(s, b, now) && Waiting(s, b, now) == Longest(s, front, now);
          assert b in bs;
        }
      }
    }
  }

  /** Repairing gives a bucket the window that a wait for it assumes, and changes no count. */
  lemma {:induction false} RepairedSame(s: Counters, bs: seq<Bucket>, now: Time, k: Key)
    ensures var t := Repaired(s, bs, now);
            && (k in t <==> k in s) && (k in s ==> t[k].count == s[k].count)
            && (k in s && t[k] != s[k] ==> s[k].expires.None? && t[k].expires == Some(now + WINDOW))
  {
    if bs != [] {
      RepairedSame(s, bs[..|bs| - 1], now, k);
    }
  }

  lemma {:induction false} RepairedReads(s: Counters, bs: seq<Bucket>, now: Time, b: Bucket)
    ensures var t := Repaired(s, bs, now);
            && Live(t, b.key, now) == Live(s, b.key, now) && CountOf(t, b.key, now) == CountOf(s, b.key, now)
            && Waiting(t, b, now) == Waiting(s, b, now)
  {
    RepairedSame(s, bs, now, b.key);
  }

  class QuotaStore {
    var counters: Counters

    constructor ()
      ensures counters == map[]
    {
      counters := map[];
    }

    /** 1 when every bucket was charged, else minus the seconds to wait. */
    method Reserve(bs: seq<Bucket>, now: Time) returns (result: int)
      modifies this
      ensures if Admits(old(counters), bs, now)
              then result == 1 && counters == Charged(old(counters), bs, now)
              else result == -CeilSeconds(Longest(old(counters), bs, now))
                   && counters == Repaired(old(counters), bs, now)
    {
      var retry := Check(bs, now);
      LongestBounds(old(counters), bs, now);
      if retry > 0 {
        return -CeilSeconds(retry);
      }
      NothingMended(counters, old(counters), bs, now);
      Charge(bs, now);
      return 1;
    }

    method Check(bs: seq<Bucket>, now: Time) returns (retry: Time)
      modifies this
      ensures counters == Repaired(old(counters), bs, now) && retry == Longest(old(counters), bs, now)
    {
      retry := 0;
      for i := 0 to |bs|
        invariant counters == Repaired(old(counters), bs[..i], now)
        invariant retry == Longest(old(counters), bs[..i], now)
      {
        var b := bs[i];
        assert bs[..i + 1][..i] == bs[..i];
        RepairedReads(old(counters), bs[..i], now, b);
        if Blocked(counters, b, now) {
          var ttl := 1;
          if Live(counters, b.key, now) {
            if counters[b.key].expires.None? {
              counters := counters[b.key := Counter(counters[b.key].count, Some(now + WINDOW))];
              ttl := WINDOW;
            } else {
              ttl := Max(1, counters[b.key].expires.value - now);
            }
          }
          if ttl > retry {
            retry := ttl;
          }
        }
      }
      assert bs[..|bs|] == bs;
    }

    method Charge(bs: seq<Bucket>, now: Time)
      modifies this
      ensures counters == Charged(old(counters), bs, now)
    {
      for i := 0 to |bs|
        invariant counters == Charged(old(counters), bs[..i], now)
      {
        assert bs[..i + 1][..i] == bs[..i];
        counters := Incremented(counters, bs[i].key, now);
      }
      assert bs[..|bs|] == bs;
    }
  }

  lemma {:induction false} NothingMended(t: Counters, s: Counters, bs: seq<Bucket>, now: Time)
    requires t == Repaired(s, bs, now) && Admits(s, bs, now)
    ensures t == s
  {
    if bs != [] {
      var front := bs[..|bs| - 1];
      assert forall b :: b in front ==> b in bs;
      NothingMended(Repaired(s, front, now), s, front, now);
      assert bs[|bs| - 1] in bs;
    }
  }

  // ----- All or nothing ----------------------------------------------------------------------------------

  function Times(bs: seq<Bucket>, k: Key): nat {
    if bs == [] then 0 else Times(bs[..|bs| - 1], k) + if bs[|bs| - 1].key == k then 1 else 0
  }

  /** A charge adds to each count the number of its buckets in the request, and to no other. */
  lemma {:induction false} ChargedCounts(s: Counters, bs: seq<Bucket>, now: Time, k: Key)
    ensures CountOf(Charged(s, bs, now), k, now) == CountOf(s, k, now) + Times(bs, k)
    ensures Times(bs, k) == 0 ==> (k in Charged(s, bs, now) <==> k in s) && (k in s ==> Charged(s, bs, now)[k] == s[k])
  {
    if bs != [] {
      ChargedCounts(s, bs[..|bs| - 1], now, k);
    }
  }

  ghost predicate DistinctKeys(bs: seq<Bucket>) {
    forall i, k :: 0 <= i < k < |bs| ==> bs[i].key != bs[k].key
  }

  lemma {:induction false} TimesDistinct(bs: seq<Bucket>, k: Key)
    requires DistinctKeys(bs)
    ensures Times(bs, k) == if exists b :: b in bs && b.key == k then 1 else 0
  {
    if bs != [] {
      var front, last := bs[..|bs| - 1], bs[|bs| - 1];
      assert bs == front + [last];
      TimesDistinct(front, k);
    }
  }

  /** An admitted request of distinct buckets raises each of them by one, and none above its limit. */
  lemma {:induction false} AdmittedWithinLimits(s: Counters, bs: seq<Bucket>, now: Time, b: Bucket)
    requires DistinctKeys(bs) && Admits(s, bs, now) && b in bs
    ensures CountOf(Charged(s, bs, now), b.key, now) == CountOf(s, b.key, now) + 1 <= b.limit
  {
    ChargedCounts(s, bs, now, b.key);
    TimesDistinct(bs, b.key);
  }

  /** A request that names a bucket more than once stays within the limit exactly when all its units fit. */
  lemma {:induction false} RepeatedBucketFits(s: Counters, bs: seq<Bucket>, now: Time, b: Bucket)
    requires Admits(s, bs, now) && b in bs
    ensures CountOf(Charged(s, bs, now), b.key, now) <= b.limit <==>
            CountOf(s, b.key, now) + Times(bs, b.key) <= b.limit
  {
    ChargedCounts(s, bs, now, b.key);
  }

  /** "Admitted counts never exceed the limit" is false when one request names the same bucket twice. */
  lemma {:induction false} RepeatedBucketOverruns(now: Time)
    ensures var bs := [Bucket(0, 1), Bucket(0, 1)];
            Admits(map[], bs, now) && CountOf(Charged(map[], bs, now), 0, now) == 2
  {
    var bs := [Bucket(0, 1), Bucket(0, 1)];
    ChargedCounts(map[], bs, now, 0);
    assert bs[..1] == [Bucket(0, 1)] && [Bucket(0, 1)][..0] == [];
  }
}
