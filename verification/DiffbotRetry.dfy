/**
 The retry loop of app/agents/diffbot_client.py: retries with back-off on one key and switches to
 other keys after a rate limit, all under one cap on HTTP attempts.
 */
module DiffbotRetry {
  import opened Basics

  type Key = nat

  datatype Category = RateLimit | Auth | ServerError | HttpError | ApiError | TimedOut | Network
                    | InvalidResponse | Deadline | Cancelled | Exhausted

  /** The JSON body of a response below 400. */
  datatype Body = NotJson | NotAnObject | Problem(code: Option<int>) | Article

  datatype Reply = NoReply(category: Category) | Response(status: int, body: Body, retryAfter: Option<real>)

  /**
   What attempt number i meets: interruptions at the four points that look for one, the reply, and the
   time of the deadline check.
   */
  datatype Turn = Turn(atSlot: Option<Category>, reply: Reply, beforeSwitch: Option<Category>,
                       beforeWait: Option<Category>, now: real, afterWait: Option<Category>)
  {
    /** Only an interruption interrupts, and no reply at all is a time-out or a network error. */
    predicate Valid() {
      && Interruption(atSlot) && Interruption(beforeSwitch) && Interruption(beforeWait) && Interruption(afterWait)
      && (reply.NoReply? ==> reply.category.TimedOut? || reply.category.Network?)
    }
  }

  predicate Interruption(c: Option<Category>) {
    c.Some? ==> c.value.Deadline? || c.value.Cancelled?
  }

  datatype Settings = Settings(attemptCap: int, backoffBase: real, backoffMax: real)

  datatype Result = Pending | Succeeded | Failed(category: Category)

  /** What followed an attempt: nothing, a wait that started at a time, or a switch to another key. */
  datatype After = Ended | Waited(seconds: real, from: real) | Switched(to: Key)

  datatype Attempt = Attempt(key: Key, reply: Reply, after: After) {
    function Category(): Option<Category> {
      CategoryOf(reply)
    }
  }

  // ----- Pure parts ------------------------------------------------------------------------------------------

  function ClassifyStatus(status: int): Category {
    if status == 429 then RateLimit
    else if status == 401 || status == 403 then Auth
    else if status >= 500 then ServerError
    else HttpError
  }

  function PayloadCategory(code: Option<int>): Category {
    if code.Some? && code.value != 0 then ClassifyStatus(code.value) else ApiError
  }

  /** The category of a reply, none for an article. */
  function CategoryOf(r: Reply): Option<Category> {
    match r
    case NoReply(c) => Some(c)
    case Response(status, body, _) =>
      if status >= 400 then Some(ClassifyStatus(status))
      else match body
        case NotJson => Some(InvalidResponse)
        case NotAnObject => Some(InvalidResponse)
        case Problem(code) => Some(PayloadCategory(code))
        case Article => None
  }

  function RetryAfterOf(r: Reply): Option<real> {
    if r.Response? && CategoryOf(r).Some? && (CategoryOf(r).value.RateLimit? || CategoryOf(r).value.ServerError?)
    then r.retryAfter else None
  }

  predicate Retryable(c: Category) {
    c.RateLimit? || c.ServerError? || c.TimedOut? || c.Network?
  }

  function RealMax(a: real, b: real): real {
    if a < b then b else a
  }

  function RealMin(a: real, b: real): real {
    if b < a then b else a
  }

  /** base * 2 ** n */
  function Doubled(base: real, n: nat): (r: real)
    ensures base >= 0.0 ==> r >= base
  {
    if n == 0 then base else 2.0 * Doubled(base, n - 1)
  }

  /** The wait before retry number `retry`; none when the server asks for more than the cap. */
  function Backoff(cfg: Settings, retry: nat, retryAfter: Option<real>): (wait: Option<real>)
    ensures wait.Some? ==> 0.0 <= wait.value <= RealMax(1.0, cfg.backoffMax)
    ensures wait.None? <==> retryAfter.Some? && retryAfter.value > RealMax(0.0, cfg.backoffMax)
  {
    var cap := RealMax(0.0, cfg.backoffMax);
    if retryAfter.Some? then
      if retryAfter.value > cap then None else Some(RealMax(1.0, retryAfter.value))
    else
      Some(RealMin(cap, Doubled(RealMax(0.0, cfg.backoffBase), retry)))
  }

  /** The supplied key first, then the pool, each key once. */
  function KeysInOrder(s: seq<Key>): seq<Key> {
    if s == [] then [] else
      var rest := KeysInOrder(s[..|s| - 1]);
      if s[|s| - 1] in rest then rest else rest + [s[|s| - 1]]
  }

  lemma {:induction false} KeysDistinct(s: seq<Key>)
    ensures NoRepeats(KeysInOrder(s)) && Elements(KeysInOrder(s)) == Elements(s)
    ensures s != [] ==> KeysInOrder(s) != [] && KeysInOrder(s)[0] == s[0]
  {
    if s != [] {
      KeysDistinct(s[..|s| - 1]);
      assert s == s[..|s| - 1] + [s[|s| - 1]];
      assert Elements(s) == Elements(s[..|s| - 1]) + {s[|s| - 1]};
    }
  }

  function FirstFree(keys: seq<Key>, used: set<Key>): (k: Option<Key>)
    ensures k.None? <==> Elements(keys) <= used
    ensures k.Some? ==> k.value in keys && k.value !in used
  {
    if keys == [] then None
    else if keys[0] !in used then Some(keys[0])
    else
      assert keys == [keys[0]] + keys[1..];
      FirstFree(keys[1..], used)
  }

  // ----- What the log of a call shows ---------------------------------------------------------------------------

  function Waits(log: seq<Attempt>): nat {
    if log == [] then 0 else Waits(log[..|log| - 1]) + if log[|log| - 1].after.Waited? then 1 else 0
  }

  function Switches(log: seq<Attempt>): nat {
    if log == [] then 0 else Switches(log[..|log| - 1]) + if log[|log| - 1].after.Switched? then 1 else 0
  }

  function WaitedSeconds(log: seq<Attempt>): real {
    if log == [] then 0.0 else
      WaitedSeconds(log[..|log| - 1]) + if log[|log| - 1].after.Waited? then log[|log| - 1].after.seconds else 0.0
  }

  /** The keys that met a rate limit. */
  function Limited(log: seq<Attempt>): set<Key> {
    if log == [] then {} else
      Limited(log[..|log| - 1]) + if log[|log| - 1].Category() == Some(RateLimit) then {log[|log| - 1].key} else {}
  }

  /** The key for the attempt after the log. */
  function NextKey(log: seq<Attempt>, first: Key): Key {
    if log == [] then first
    else if log[|log| - 1].after.Switched? then log[|log| - 1].after.to
    else log[|log| - 1].key
  }

  /**
   Every attempt but the last was followed by a wait or a switch; a wait repeats the key, after a
   failure that allows it, and ends before the deadline; with several keys, a key that met a rate
   limit is not used again.
   */
  ghost predicate Proper(log: seq<Attempt>, keys: seq<Key>, cfg: Settings, deadline: Option<real>) {
    log != [] ==>
      var front, last := log[..|log| - 1], log[|log| - 1];
      && Proper(front, keys, cfg, deadline)
      && (front != [] ==> !front[|front| - 1].after.Ended?)
      && last.key in keys && last.key == NextKey(front, First(keys))
      && (|keys| > 1 ==> last.key !in Limited(front))
      && (last.after.Waited? ==>
          && last.Category().Some? && Retryable(last.Category().value)
             && (|keys| > 1 ==> !last.Category().value.RateLimit?)
          && Backoff(cfg, Waits(front), RetryAfterOf(last.reply)) == Some(last.after.seconds)
          && (deadline.Some? ==> last.after.from + last.after.seconds < deadline.value))
      && (last.after.Switched? ==>
          |keys| > 1 && last.Category() == Some(RateLimit) && FirstFree(keys, Limited(log)) == Some(last.after.to))
  }

  function First(keys: seq<Key>): Key {
    if keys == [] then 0 else keys[0]
  }

  /** The loop's variables, as the log determines them. */
  ghost predicate Tracks(log: seq<Attempt>, keys: seq<Key>, active: Key, retries: nat, limited: set<Key>) {
    && active == NextKey(log, First(keys)) && retries == Waits(log)
    && limited == if |keys| > 1 then Limited(log) else {}
  }

  lemma {:induction false} Logged(log: seq<Attempt>, a: Attempt)
    ensures var more := log + [a];
            && Waits(more) == Waits(log) + (if a.after.Waited? then 1 else 0)
            && Switches(more) == Switches(log) + (if a.after.Switched? then 1 else 0)
            && WaitedSeconds(more) == WaitedSeconds(log) + (if a.after.Waited? then a.after.seconds else 0.0)
            && Limited(more) == Limited(log) + (if a.Category() == Some(RateLimit) then {a.key} else {})
            && more[..|more| - 1] == log
  {
    assert (log + [a])[..|log + [a]| - 1] == log;
  }

  predicate Ends(log: seq<Attempt>) {
    log != [] && log[|log| - 1].after.Ended?
  }

  /** What a finished call shows: at most one wait per retry allowed, one switch per alternate key, and the cap. */
  ghost predicate Bounded(log: seq<Attempt>, keys: seq<Key>, maxRetries: nat, cfg: Settings) {
    && |log| <= Max(1, Min(maxRetries + |keys|, cfg.attemptCap))
    && Waits(log) <= maxRetries && Switches(log) <= |keys| - 1
    && |log| == Waits(log) + Switches(log) + if Ends(log) then 1 else 0
  }

  // ----- The loop ---------------------------------------------------------------------------------------------------

  /** The decision after a failed attempt. */
  datatype Decision = GiveUp(category: Category) | Wait(seconds: real) | Switch(to: Key)

  function Decide(t: Turn, keys: seq<Key>, cfg: Settings, limited: set<Key>, active: Key, c: Category, attempts: nat,
      max: int, retries: nat, maxRetries: nat, deadline: Option<real>): Decision
  {
    if c.RateLimit? && |keys| > 1 then
      var alternate := FirstFree(keys, limited + {active});
      if alternate.None? || attempts >= max then GiveUp(c)
      else if t.beforeSwitch.Some? then GiveUp(t.beforeSwitch.value)
      else Switch(alternate.value)
    else if !Retryable(c) || attempts >= max || retries >= maxRetries then GiveUp(c)
    else
      var wait := Backoff(cfg, retries, RetryAfterOf(t.reply));
      if wait.None? then GiveUp(c)
      else if t.beforeWait.Some? then GiveUp(t.beforeWait.value)
      else if deadline.Some? && t.now + wait.value >= deadline.value then GiveUp(Deadline)
      else Wait(wait.value)
  }

  function AfterOf(d: Decision, now: real): After {
    match d
    case GiveUp(_) => Ended
    case Wait(seconds) => Waited(seconds, now)
    case Switch(to) => Switched(to)
  }

  datatype Plan = Plan(keys: seq<Key>, cfg: Settings, maxRetries: nat, deadline: Option<real>, turns: nat -> Turn) {
    function MaxAttempts(): int {
      Max(1, Min(maxRetries + |keys|, cfg.attemptCap))
    }

    /** What the turn of the attempt after `log` decides about a failure. */
    function DecisionAfter(log: seq<Attempt>, c: Category): Decision {
      Decide(turns(|log|), keys, cfg, if |keys| > 1 then Limited(log) else {}, NextKey(log, First(keys)), c, |log| + 1,
             MaxAttempts(), Waits(log), maxRetries, deadline)
    }

    /** The attempt after `log`. */
    function AttemptAfter(log: seq<Attempt>): Attempt {
      var t := turns(|log|);
      Attempt(NextKey(log, First(keys)), t.reply,
              if CategoryOf(t.reply).None? then Ended
              else AfterOf(DecisionAfter(log, CategoryOf(t.reply).value), t.now))
    }

    /** The log is what the turns make of the call. */
    ghost predicate Follows(log: seq<Attempt>) {
      log != [] ==>
        var front := log[..|log| - 1];
        Follows(front) && turns(|front|).atSlot.None? && log[|log| - 1] == AttemptAfter(front)
    }

    /** Why the call ended as it did. */
    ghost predicate Concludes(log: seq<Attempt>, result: Result) {
      match result
      case Pending => false
      case Succeeded => log != [] && log[|log| - 1].Category() == None
      case Failed(c) =>
        || (!Ends(log) && |log| < MaxAttempts() && turns(|log|).atSlot == Some(c))
        || (log != [] && log[|log| - 1].after.Waited? && turns(|log| - 1).afterWait == Some(c))
        || (Ends(log) && log[|log| - 1].Category().Some?
            && DecisionAfter(log[..|log| - 1], log[|log| - 1].Category().value) == GiveUp(c))
    }
  }

  /** One call: its result, and the log of its attempts. */
  method Call(token: Key, pool: seq<Key>, retriesAllowed: int, cfg: Settings, deadline: Option<real>,
      turns: nat -> Turn)
    returns (result: Result, log: seq<Attempt>)
    requires forall i :: turns(i).Valid()
    ensures var keys := KeysInOrder([token] + pool);
            && Proper(log, keys, cfg, deadline) && Bounded(log, keys, Max(0, retriesAllowed), cfg)
    ensures var plan := Plan(KeysInOrder([token] + pool), cfg, Max(0, retriesAllowed), deadline, turns);
            plan.Follows(log) && plan.Concludes(log, result)
    ensures result != Failed(Exhausted)
  {
    var keys := KeysInOrder([token] + pool);
    KeysDistinct([token] + pool);
    assert token in [token] + pool;
    assert token in Elements(keys);
    var maxRetries := Max(0, retriesAllowed);
    var maxAttempts := Max(1, Min(maxRetries + |keys|, cfg.attemptCap));
    var active, retries: nat, limited := token, 0, {};
    ghost var plan := Plan(keys, cfg, maxRetries, deadline, turns);
    result, log := Pending, [];
    while |log| < maxAttempts && result.Pending?
      invariant Proper(log, keys, cfg, deadline) && Waits(log) <= maxRetries && |log| <= maxAttempts
      invariant result.Pending? ==> Tracks(log, keys, active, retries, limited) && !Ends(log) && |log| < maxAttempts
      invariant result != Failed(Exhausted) && plan.Follows(log) && (!result.Pending? ==> plan.Concludes(log, result))
      decreases maxAttempts - |log|, if result.Pending? then 1 else 0
    {
      var t := turns(|log|);
      if t.atSlot.Some? {
        result := Failed(t.atSlot.value);
      } else {
        var a;
        result, a, active, retries, limited :=
          Attempted(t, log, keys, cfg, active, retries, limited, maxRetries, maxAttempts, deadline, plan);
        Logged(log, a);
        log := log + [a];
      }
    }
    if result.Pending? {
      result := Failed(Exhausted);
    }
    ProperEnds(log, keys, cfg, deadline);
  }

  /** After a proper log that goes on, the next key is free, and each switch left one more limited key behind. */
  lemma {:induction false} ProperGoesOn(log: seq<Attempt>, keys: seq<Key>, cfg: Settings, deadline: Option<real>)
    requires Proper(log, keys, cfg, deadline) && keys != [] && !Ends(log)
    ensures var next := NextKey(log, First(keys));
            && next in keys && (|keys| > 1 ==> next !in Limited(log))
            && |log| == Waits(log) + Switches(log)
            && Limited(log) <= Elements(keys)
            && (|keys| > 1 ==> |Limited(log)| == Switches(log)) && (|keys| <= 1 ==> Switches(log) == 0)
  {
    if log != [] {
      var front, last := log[..|log| - 1], log[|log| - 1];
      ProperGoesOn(front, keys, cfg, deadline);
      if last.after.Waited? && |keys| > 1 {
        assert last.Category() != Some(RateLimit);
      }
    }
  }

  lemma {:induction false} ProperEnds(log: seq<Attempt>, keys: seq<Key>, cfg: Settings, deadline: Option<real>)
    requires Proper(log, keys, cfg, deadline) && NoRepeats(keys) && keys != []
    ensures Switches(log) <= |keys| - 1
    ensures |log| == Waits(log) + Switches(log) + if Ends(log) then 1 else 0
  {
    var going := if Ends(log) then log[..|log| - 1] else log;
    ProperGoesOn(going, keys, cfg, deadline);
    var next := NextKey(going, First(keys));
    if |keys| > 1 {
      assert |Limited(going) + {next}| == |Limited(going)| + 1;
      SubsetSize(Limited(going) + {next}, keys);
    }
  }

  lemma {:induction false} WaitTracks(log: seq<Attempt>, a: Attempt, keys: seq<Key>, active: Key, retries: nat,
      limited: set<Key>)
    requires Tracks(log, keys, active, retries, limited) && a.key == active
    requires a.after.Waited? && a.Category().Some? && (|keys| > 1 ==> !a.Category().value.RateLimit?)
    ensures Tracks(log + [a], keys, active, retries + 1, limited)
  {
    Logged(log, a);
  }

  /** Each decision has its reasons. */
  lemma {:induction false} DecideFacts(t: Turn, keys: seq<Key>, cfg: Settings, limited: set<Key>, active: Key,
      c: Category, attempts: nat, max: int, retries: nat, maxRetries: nat, deadline: Option<real>)
    requires t.Valid() && !c.Exhausted?
    ensures match Decide(t, keys, cfg, limited, active, c, attempts, max, retries, maxRetries, deadline)
            case GiveUp(why) => !why.Exhausted?
            case Switch(to) => |keys| > 1 && c.RateLimit? && attempts < max
              && FirstFree(keys, limited + {active}) == Some(to)
            case Wait(seconds) =>
              && Retryable(c) && (|keys| > 1 ==> !c.RateLimit?) && attempts < max && retries < maxRetries
              && Backoff(cfg, retries, RetryAfterOf(t.reply)) == Some(seconds)
                 && (deadline.Some? ==> t.now + seconds < deadline.value)
  {
  }

  /** One HTTP attempt and what follows it. */
  method Attempted(t: Turn, log: seq<Attempt>, keys: seq<Key>, cfg: Settings, active: Key, retries: nat,
      limited: set<Key>, maxRetries: nat, maxAttempts: int, deadline: Option<real>, ghost plan: Plan)
    returns (result: Result, a: Attempt, key: Key, waits: nat, used: set<Key>)
    requires t.Valid() && Proper(log, keys, cfg, deadline) && keys != [] && !Ends(log)
             && Tracks(log, keys, active, retries, limited)
    ensures Proper(log + [a], keys, cfg, deadline)
    ensures a.after.Waited? ==> retries < maxRetries
    ensures result.Pending? ==> Tracks(log + [a], keys, key, waits, used) && !a.after.Ended? && |log| + 1 < maxAttempts
    requires plan == Plan(keys, cfg, maxRetries, deadline, plan.turns) && plan.turns(|log|) == t
             && maxAttempts == plan.MaxAttempts()
    ensures result != Failed(Exhausted) && a == plan.AttemptAfter(log)
    ensures !result.Pending? ==> plan.Concludes(log + [a], result)
  {
    key, waits, used := active, retries, limited;
    var category := CategoryOf(t.reply);
    a := Attempt(active, t.reply, Ended);
    if category.None? {
      result := Succeeded;
    } else {
      DecideFacts(t, keys, cfg, limited, active, category.value, |log| + 1, maxAttempts, retries, maxRetries, deadline);
      var decision :=
        Decide(t, keys, cfg, limited, active, category.value, |log| + 1, maxAttempts, retries, maxRetries, deadline);
      match decision {
        case GiveUp(c) =>
          result := Failed(c);
        case Switch(to) =>
          result, a := Pending, Attempt(active, t.reply, Switched(to));
          key, used := to, limited + {active};
        case Wait(seconds) =>
          result := if t.afterWait.Some? then Failed(t.afterWait.value) else Pending;
          a, waits := Attempt(active, t.reply, Waited(seconds, t.now)), retries + 1;
          WaitTracks(log, a, keys, active, retries, limited);
      }
    }
    Logged(log, a);
  }

  lemma {:induction false} SubsetSize(s: set<Key>, keys: seq<Key>)
    requires s <= Elements(keys)
    ensures |s| <= |keys|
  {
    if keys == [] {
      assert s == {};
    } else {
      var front, last := keys[..|keys| - 1], keys[|keys| - 1];
      assert keys == front + [last];
      SubsetSize(s - {last}, front);
      if last in s {
        assert |s - {last}| == |s| - 1;
      } else {
        assert s - {last} == s;
      }
    }
  }

  // ----- What a proper log says ---------------------------------------------------------------------------

  lemma {:induction false} LimitedAt(log: seq<Attempt>, i: nat)
    requires i < |log| && log[i].Category() == Some(RateLimit)
    ensures log[i].key in Limited(log)
  {
    if i < |log| - 1 {
      LimitedAt(log[..|log| - 1], i);
    }
  }

  /** With several keys, a key that met a rate limit is never used again. */
  lemma {:induction false} LimitedKeyNotReused(log: seq<Attempt>, keys: seq<Key>, cfg: Settings, deadline: Option<real>,
      i: nat, k: nat)
    requires Proper(log, keys, cfg, deadline) && |keys| > 1
    requires i < k < |log| && log[i].Category() == Some(RateLimit)
    ensures log[k].key != log[i].key
  {
    var front := log[..|log| - 1];
    if k == |log| - 1 {
      assert front[i] == log[i];
      LimitedAt(front, i);
    } else {
      LimitedKeyNotReused(front, keys, cfg, deadline, i, k);
    }
  }

  /** No wait was started that would end at or after the deadline. */
  lemma {:induction false} WaitsEndBeforeDeadline(log: seq<Attempt>, keys: seq<Key>, cfg: Settings,
      deadline: Option<real>, i: nat)
    requires Proper(log, keys, cfg, deadline) && deadline.Some? && i < |log| && log[i].after.Waited?
    ensures log[i].after.from + log[i].after.seconds < deadline.value
  {
    if i < |log| - 1 {
      WaitsEndBeforeDeadline(log[..|log| - 1], keys, cfg, deadline, i);
    }
  }

  /** n waits of `bound` seconds. */
  function Longest(n: nat, bound: real): real {
    if n == 0 then 0.0 else Longest(n - 1, bound) + bound
  }

  lemma {:induction false} LongestTotal(n: nat, bound: real)
    ensures Longest(n, bound) == n as real * bound
  {
    if n > 0 {
      LongestTotal(n - 1, bound);
      OneMore((n - 1) as real, bound);
    }
  }

  lemma {:induction false} OneMore(x: real, bound: real)
    ensures (x + 1.0) * bound == x * bound + bound
  {
  }

  lemma {:induction false} LongestGrows(n: nat, m: nat, bound: real)
    requires n <= m && bound >= 0.0
    ensures Longest(n, bound) <= Longest(m, bound)
  {
    if n < m {
      LongestGrows(n, m - 1, bound);
    }
  }

  lemma {:induction false} WaitsAddUp(log: seq<Attempt>, keys: seq<Key>, cfg: Settings, deadline: Option<real>)
    requires Proper(log, keys, cfg, deadline)
    ensures WaitedSeconds(log) <= Longest(Waits(log), RealMax(1.0, cfg.backoffMax))
  {
    if log != [] {
      WaitsAddUp(log[..|log| - 1], keys, cfg, deadline);
    }
  }

  /** All waits of a call together take at most the retries allowed times the larger of a second and the cap. */
  lemma {:induction false} TotalWait(log: seq<Attempt>, keys: seq<Key>, maxRetries: nat, cfg: Settings,
      deadline: Option<real>, bound: real)
    requires Proper(log, keys, cfg, deadline) && Waits(log) <= maxRetries && bound == RealMax(1.0, cfg.backoffMax)
    ensures WaitedSeconds(log) <= maxRetries as real * bound
  {
    WaitsAddUp(log, keys, cfg, deadline);
    WithinLongest(WaitedSeconds(log), Waits(log), maxRetries, bound);
  }

  lemma {:induction false} WithinLongest(total: real, n: nat, m: nat, bound: real)
    requires total <= Longest(n, bound) && n <= m && bound >= 0.0
    ensures total <= m as real * bound
  {
    LongestGrows(n, m, bound);
    LongestTotal(m, bound);
  }
}
