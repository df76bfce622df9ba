/**
 The shared credit ledgers of app/v2/provider_budget.py: one for the Korean calendar day, one for
 each job. Times are milliseconds; the script reads whole seconds and Redis keeps a key readable up
 to and including its expiry time, while the in-process ledger drops it at that time.
 */
module ProviderBudget {
  import opened Basics

  type JobId = nat
  type Time = int

  const OFFSET: int := 32400
  const DAY: int := 86400

  datatype Daily = Daily(day: int, units: nat, expires: Time)

  datatype JobLedger = JobLedger(units: nat, expires: Time)

  datatype Ledgers = Ledgers(daily: Option<Daily>, jobs: map<JobId, JobLedger>)

  /** Budgets in units, and the lifetime of a job's ledger in seconds. */
  datatype Policy = Policy(daily: nat, job: nat, ttl: nat)

  datatype Verdict = Granted | DailyExceeded(retryAfter: int) | JobExceeded | Corrupt

  /** The day, counted from 1970, that a second falls on nine hours east of Greenwich. */
  function DayOf(seconds: int): (day: int)
    ensures day * 86400 <= seconds + 32400 < (day + 1) * 86400
  {
    (seconds + OFFSET) / DAY
  }

  /** When the calendar day of a second ends. */
  function ResetOf(seconds: int): int {
    (DayOf(seconds) + 1) * DAY - OFFSET
  }

  function CeilSeconds(ms: int): int {
    -((-ms) / 1000)
  }

  // ----- The script --------------------------------------------------------------------------------------

  function DailyUnits(s: Ledgers, ms: Time): nat {
    if s.daily.Some? && ms <= s.daily.value.expires && s.daily.value.day == DayOf(ms / 1000)
    then s.daily.value.units else 0
  }

  function JobUnits(s: Ledgers, j: JobId, ms: Time): nat {
    if j in s.jobs && ms <= s.jobs[j].expires then s.jobs[j].units else 0
  }

  /** A readable daily ledger of a later day: the clock went back. */
  predicate FromLaterDay(s: Ledgers, ms: Time) {
    s.daily.Some? && ms <= s.daily.value.expires && s.daily.value.day > DayOf(ms / 1000)
  }

  function VerdictOn(p: Policy, dailyUnits: nat, jobUnits: nat, units: nat, retryAfter: int): Verdict {
    if jobUnits + units > p.job then JobExceeded
    else if dailyUnits + units > p.daily then DailyExceeded(retryAfter)
    else Granted
  }

  function Asked(s: Ledgers, p: Policy, j: JobId, units: nat, ms: Time): Verdict {
    var now := ms / 1000;
    if FromLaterDay(s, ms) then Corrupt
    else VerdictOn(p, DailyUnits(s, ms), JobUnits(s, j, ms), units, ResetOf(now) - now)
  }

  function Written(s: Ledgers, p: Policy, j: JobId, units: nat, ms: Time): Ledgers {
    var now := ms / 1000;
    Ledgers(Some(Daily(DayOf(now), DailyUnits(s, ms) + units, ms + (ResetOf(now) - now + DAY) * 1000)),
            s.jobs[j := JobLedger(JobUnits(s, j, ms) + units, ms + p.ttl * 1000)])
  }

  function Reserved(s: Ledgers, p: Policy, j: JobId, units: nat, ms: Time): Ledgers {
    if Asked(s, p, j, units, ms).Granted? then Written(s, p, j, units, ms) else s
  }

  // ----- The in-process ledger -----------------------------------------------------------------------------

  function MemoryDailyUnits(s: Ledgers, ms: Time): nat {
    if s.daily.Some? && ms < s.daily.value.expires && s.daily.value.day == DayOf(ms / 1000)
    then s.daily.value.units else 0
  }

  function MemoryJobUnits(s: Ledgers, j: JobId, ms: Time): nat {
    if j in s.jobs && ms < s.jobs[j].expires then s.jobs[j].units else 0
  }

  function MemoryRetry(ms: Time): int {
    Max(1, CeilSeconds(ResetOf(ms / 1000) * 1000 - ms))
  }

  function MemoryAsked(s: Ledgers, p: Policy, j: JobId, units: nat, ms: Time): Verdict {
    VerdictOn(p, MemoryDailyUnits(s, ms), MemoryJobUnits(s, j, ms), units, MemoryRetry(ms))
  }

  function MemoryWritten(s: Ledgers, p: Policy, j: JobId, units: nat, ms: Time): Ledgers {
    Ledgers(Some(Daily(DayOf(ms / 1000), MemoryDailyUnits(s, ms) + units, ms + (MemoryRetry(ms) + DAY) * 1000)),
            s.jobs[j := JobLedger(MemoryJobUnits(s, j, ms) + units, ms + p.ttl * 1000)])
  }

  function MemoryReserved(s: Ledgers, p: Policy, j: JobId, units: nat, ms: Time): Ledgers {
    if MemoryAsked(s, p, j, units, ms).Granted? then MemoryWritten(s, p, j, units, ms) else s
  }

  class Ledger {
    const policy: Policy
    var daily: Option<Daily>
    var jobs: map<JobId, JobLedger>

    function View(): Ledgers
      reads this
    {
      Ledgers(daily, jobs)
    }

    constructor (policy: Policy)
      ensures this.policy == policy && View() == Ledgers(None, map[])
    {
      this.policy, daily, jobs := policy, None, map[];
    }

    /** The script. */
    method Reserve(j: JobId, units: nat, ms: Time) returns (verdict: Verdict)
      modifies this
      ensures verdict == Asked(old(View()), policy, j, units, ms)
      ensures View() == Reserved(old(View()), policy, j, units, ms)
    {
      var now := ms / 1000;
      var day := (now + OFFSET) / DAY;
      var reset := (day + 1) * DAY - OFFSET;
      var dailyUnits := 0;
      if daily.Some? && ms <= daily.value.expires {
        if daily.value.day > day {
          return Corrupt;
        }
        if daily.value.day == day {
          dailyUnits := daily.value.units;
        }
      }
      var jobUnits := 0;
      if j in jobs && ms <= jobs[j].expires {
        jobUnits := jobs[j].units;
      }
      if jobUnits + units > policy.job {
        return JobExceeded;
      }
      if dailyUnits + units > policy.daily {
        return DailyExceeded(reset - now);
      }
      daily := Some(Daily(day, dailyUnits + units, ms + (reset - now + DAY) * 1000));
      jobs := jobs[j := JobLedger(jobUnits + units, ms + policy.ttl * 1000)];
      return Granted;
    }

    /** The same reservation on the in-process ledger. */
    method MemoryReserve(j: JobId, units: nat, ms: Time) returns (verdict: Verdict)
      modifies this
      ensures verdict == MemoryAsked(old(View()), policy, j, units, ms)
      ensures View() == MemoryReserved(old(View()), policy, j, units, ms)
    {
      var day := DayOf(ms / 1000);
      var retry := Max(1, CeilSeconds(((day + 1) * DAY - OFFSET) * 1000 - ms));
      var dailyUnits, jobUnits := 0, 0;
      if daily.Some? && daily.value.expires > ms && daily.value.day == day {
        dailyUnits := daily.value.units;
      }
      if j in jobs && jobs[j].expires > ms {
        jobUnits := jobs[j].units;
      }
      if jobUnits + units > policy.job {
        return JobExceeded;
      }
      if dailyUnits + units > policy.daily {
        return DailyExceeded(retry);
      }
      daily := Some(Daily(day, dailyUnits + units, ms + (retry + DAY) * 1000));
      jobs := jobs[j := JobLedger(jobUnits + units, ms + policy.ttl * 1000)];
      return Granted;
    }
  }

  // ----- The calendar day ------------------------------------------------------------------------------------

  /** A daily ledger that was written outlives its day, so it never expires while its day lasts. */
  lemma {:induction false} DailyOutlivesItsDay(s: Ledgers, p: Policy, j: JobId, units: nat, ms: Time, later: Time)
    requires ms <= later && DayOf(later / 1000) == DayOf(ms / 1000)
    ensures later < Written(s, p, j, units, ms).daily.value.expires
    ensures DailyUnits(Written(s, p, j, units, ms), later) == DailyUnits(s, ms) + units
  {
  }

  // ----- Runs on a clock that does not go back ------------------------------------------------------------------

  datatype Request = Request(job: JobId, units: nat, at: Time)

  /** Which ledger answers: the script, or the in-process one. */
  datatype Path = Script | Memory

  function Judge(path: Path, s: Ledgers, p: Policy, r: Request): Verdict {
    if path.Script? then Asked(s, p, r.job, r.units, r.at) else MemoryAsked(s, p, r.job, r.units, r.at)
  }

  function Charge(path: Path, s: Ledgers, p: Policy, r: Request): Ledgers {
    if path.Script? then Reserved(s, p, r.job, r.units, r.at) else MemoryReserved(s, p, r.job, r.units, r.at)
  }

  function Serve(path: Path, p: Policy, rs: seq<Request>): Ledgers {
    if rs == [] then Ledgers(None, map[])
    else Charge(path, Serve(path, p, rs[..|rs| - 1]), p, rs[|rs| - 1])
  }

  /** The verdict on the last request of a run. */
  function Answer(path: Path, p: Policy, rs: seq<Request>): Verdict
    requires rs != []
  {
    Judge(path, Serve(path, p, rs[..|rs| - 1]), p, rs[|rs| - 1])
  }

  /** On either path the announced wait is within a day, reaches the next day, and no shorter wait does. */
  lemma {:induction false} RetryReachesNextDay(path: Path, s: Ledgers, p: Policy, r: Request)
    requires Judge(path, s, p, r).DailyExceeded?
    ensures var wait := Judge(path, s, p, r).retryAfter;
            && 1 <= wait <= 86400 && DayOf((r.at + wait * 1000) / 1000) == DayOf(r.at / 1000) + 1
            && (forall shorter: nat ::
                  shorter < wait ==> DayOf((r.at + shorter * 1000) / 1000) == DayOf(r.at / 1000))
  {
    var now := r.at / 1000;
    assert MemoryRetry(r.at) == ResetOf(now) - now;
    var wait := ResetOf(now) - now;
    assert (r.at + wait * 1000) / 1000 == now + wait == ResetOf(now);
    forall shorter: nat | shorter < wait ensures DayOf((r.at + shorter * 1000) / 1000) == DayOf(now) {
      assert (r.at + shorter * 1000) / 1000 == now + shorter;
    }
  }

  ghost predicate ClockRuns(rs: seq<Request>) {
    forall i, k :: 0 <= i < k < |rs| ==> rs[i].at <= rs[k].at
  }

  /** The units granted on a day. */
  function GrantedOn(path: Path, p: Policy, rs: seq<Request>, day: int): nat {
    if rs == [] then 0 else
      var r := rs[|rs| - 1];
      GrantedOn(path, p, rs[..|rs| - 1], day) +
      if Answer(path, p, rs).Granted? && DayOf(r.at / 1000) == day then r.units else 0
  }

  /** The daily ledger counts the last day on which something was granted, and outlives it. */
  ghost predicate DailyTracks(path: Path, p: Policy, rs: seq<Request>, s: Ledgers) {
    match s.daily
    case None => forall day :: GrantedOn(path, p, rs, day) == 0
    case Some(d) =>
      && rs != [] && d.units == GrantedOn(path, p, rs, d.day) <= p.daily
      && d.day <= DayOf(rs[|rs| - 1].at / 1000)
      && d.expires > ((d.day + 1) * DAY - OFFSET) * 1000
      && (forall day :: day > d.day ==> GrantedOn(path, p, rs, day) == 0)
      && (forall day :: GrantedOn(path, p, rs, day) <= p.daily)
  }

  /** What the daily ledger is read as is what was granted today. */
  lemma {:induction false} DailyRead(path: Path, p: Policy, front: seq<Request>, s: Ledgers, ms: Time)
    requires DailyTracks(path, p, front, s) && (front != [] ==> front[|front| - 1].at <= ms)
    ensures DailyUnits(s, ms) == MemoryDailyUnits(s, ms) == GrantedOn(path, p, front, DayOf(ms / 1000))
    ensures !FromLaterDay(s, ms)
  {
  }

  lemma {:induction false} GrantTracks(path: Path, p: Policy, rs: seq<Request>)
    requires rs != [] && ClockRuns(rs) && DailyTracks(path, p, rs[..|rs| - 1], Serve(path, p, rs[..|rs| - 1]))
    ensures DailyTracks(path, p, rs, Serve(path, p, rs)) && !Answer(path, p, rs).Corrupt?
  {
    var front, r := rs[..|rs| - 1], rs[|rs| - 1];
    var s, today := Serve(path, p, front), DayOf(r.at / 1000);
    DailyRead(path, p, front, s, r.at);
    if Answer(path, p, rs).Granted? {
      var d := Serve(path, p, rs).daily.value;
      assert d.day == today && d.units == GrantedOn(path, p, rs, today);
      forall day ensures GrantedOn(path, p, rs, day) <= p.daily {
      }
    } else {
      forall day ensures GrantedOn(path, p, rs, day) == GrantedOn(path, p, front, day) {
      }
    }
  }

  lemma {:induction false} AlwaysDaily(path: Path, p: Policy, rs: seq<Request>)
    requires ClockRuns(rs)
    ensures DailyTracks(path, p, rs, Serve(path, p, rs))
  {
    if rs != [] {
      AlwaysDaily(path, p, rs[..|rs| - 1]);
      GrantTracks(path, p, rs);
    }
  }

  /** On no day are more units granted than the daily budget, and no request finds the ledger corrupt. */
  lemma {:induction false} DailyBudgetHolds(path: Path, p: Policy, rs: seq<Request>, day: int)
    requires ClockRuns(rs)
    ensures GrantedOn(path, p, rs, day) <= p.daily
    ensures rs != [] ==> !Answer(path, p, rs).Corrupt?
  {
    AlwaysDaily(path, p, rs);
    if rs != [] {
      AlwaysDaily(path, p, rs[..|rs| - 1]);
      GrantTracks(path, p, rs);
    }
  }

  // ----- The job ledger ---------------------------------------------------------------------------------------------

  datatype Grant = Grant(at: Time, units: nat)

  function GrantsOf(path: Path, p: Policy, rs: seq<Request>, j: JobId): seq<Grant> {
    if rs == [] then [] else
      var r := rs[|rs| - 1];
      GrantsOf(path, p, rs[..|rs| - 1], j) +
      if Answer(path, p, rs).Granted? && r.job == j then [Grant(r.at, r.units)] else []
  }

  /** A job ledger written at `from` is readable: the last instant of its lifetime counts for the script only. */
  predicate Readable(path: Path, p: Policy, from: Time, at: Time) {
    if path.Script? then at <= from + p.ttl * 1000 else at < from + p.ttl * 1000
  }

  /** Units granted since the last pause between two grants that outlasted the job's ledger. */
  function Streak(path: Path, p: Policy, gs: seq<Grant>): nat
    decreases |gs|, 0
  {
    if gs == [] then 0
    else gs[|gs| - 1].units + Reading(path, p, gs[..|gs| - 1], gs[|gs| - 1].at)
  }

  /** What a request finds in the ledger of a job with these grants. */
  function Reading(path: Path, p: Policy, gs: seq<Grant>, at: Time): nat
    decreases |gs|, 1
  {
    if gs != [] && Readable(path, p, gs[|gs| - 1].at, at) then Streak(path, p, gs) else 0
  }

  function Total(gs: seq<Grant>): nat {
    if gs == [] then 0 else Total(gs[..|gs| - 1]) + gs[|gs| - 1].units
  }

  ghost predicate Close(path: Path, p: Policy, gs: seq<Grant>) {
    forall i :: 0 < i < |gs| ==> Readable(path, p, gs[i - 1].at, gs[i].at)
  }

  function Held(path: Path, s: Ledgers, j: JobId, at: Time): nat {
    if path.Script? then JobUnits(s, j, at) else MemoryJobUnits(s, j, at)
  }

  /** A granted request adds its units to what its job's ledger holds, and renews it; a refusal changes nothing. */
  lemma {:induction false} JobCharged(path: Path, s: Ledgers, p: Policy, r: Request)
    ensures var t, held := Charge(path, s, p, r), Held(path, s, r.job, r.at);
            if Judge(path, s, p, r).Granted?
            then held + r.units <= p.job && t.jobs == s.jobs[r.job := JobLedger(held + r.units, r.at + p.ttl * 1000)]
            else t == s
  {
  }

  /** The ledger of a job with these grants. */
  ghost predicate JobTracked(path: Path, p: Policy, gs: seq<Grant>, jobs: map<JobId, JobLedger>, j: JobId) {
    && Streak(path, p, gs) <= p.job
    && (gs == [] ==> j !in jobs)
    && (gs != [] ==> j in jobs && jobs[j] == JobLedger(Streak(path, p, gs), gs[|gs| - 1].at + p.ttl * 1000))
  }

  lemma {:induction false} HeldIsReading(path: Path, p: Policy, gs: seq<Grant>, s: Ledgers, j: JobId, at: Time)
    requires JobTracked(path, p, gs, s.jobs, j)
    ensures Held(path, s, j, at) == Reading(path, p, gs, at)
  {
  }

  lemma {:induction false} StreakGrows(path: Path, p: Policy, gs: seq<Grant>, g: Grant)
    ensures Streak(path, p, gs + [g]) == g.units + Reading(path, p, gs, g.at)
  {
    assert (gs + [g])[..|gs + [g]| - 1] == gs;
  }

  /** The stored ledger of a job is the streak of its grants, and never above the budget. */
  lemma {:induction false} JobTracks(path: Path, p: Policy, rs: seq<Request>, j: JobId)
    ensures JobTracked(path, p, GrantsOf(path, p, rs, j), Serve(path, p, rs).jobs, j)
  {
    if rs != [] {
      var front, r := rs[..|rs| - 1], rs[|rs| - 1];
      var gs, s := GrantsOf(path, p, front, j), Serve(path, p, front);
      JobTracks(path, p, front, j);
      JobCharged(path, s, p, r);
      HeldIsReading(path, p, gs, s, j, r.at);
      StreakGrows(path, p, gs, Grant(r.at, r.units));
      if !(Answer(path, p, rs).Granted? && r.job == j) {
        assert GrantsOf(path, p, rs, j) == gs;
      }
    }
  }

  lemma {:induction false} CloseStreak(path: Path, p: Policy, gs: seq<Grant>)
    requires Close(path, p, gs)
    ensures Streak(path, p, gs) == Total(gs)
  {
    if gs != [] {
      CloseStreak(path, p, gs[..|gs| - 1]);
    }
  }

  /** While grants to a job follow each other within the lifetime of its ledger, they stay within its budget. */
  lemma {:induction false} JobBudgetHolds(path: Path, p: Policy, rs: seq<Request>, j: JobId)
    requires Close(path, p, GrantsOf(path, p, rs, j))
    ensures Total(GrantsOf(path, p, rs, j)) <= p.job
  {
    JobTracks(path, p, rs, j);
    CloseStreak(path, p, GrantsOf(path, p, rs, j));
  }

  // ----- Script and in-process ledger over a run ---------------------------------------------------------------------

  function Wait(path: Path, ms: Time): int {
    if path.Script? then ResetOf(ms / 1000) - ms / 1000 else MemoryRetry(ms)
  }

  /**
   At every moment of a run, a path answers from its own grants alone: what it granted today, and the
   reading of what it granted to the job.
   */
  lemma {:induction false} AnswerFromGrants(path: Path, p: Policy, rs: seq<Request>)
    requires rs != [] && ClockRuns(rs)
    ensures var front, r := rs[..|rs| - 1], rs[|rs| - 1];
            var today, held :=
              GrantedOn(path, p, front, DayOf(r.at / 1000)), Reading(path, p, GrantsOf(path, p, front, r.job), r.at);
            && (Answer(path, p, rs).JobExceeded? <==> held + r.units > p.job)
            && (Answer(path, p, rs).Granted? <==> held + r.units <= p.job && today + r.units <= p.daily)
            && (Answer(path, p, rs).DailyExceeded? <==> held + r.units <= p.job && today + r.units > p.daily)
            && (Answer(path, p, rs).DailyExceeded? ==> Answer(path, p, rs).retryAfter == Wait(path, r.at))
  {
    var front, r := rs[..|rs| - 1], rs[|rs| - 1];
    AlwaysDaily(path, p, front);
    DailyRead(path, p, front, Serve(path, p, front), r.at);
    JobTracks(path, p, front, r.job);
  }

  ghost predicate WholeSeconds(rs: seq<Request>) {
    forall k :: 0 <= k < |rs| ==> rs[k].at % 1000 == 0
  }

  /** Both paths have given the same verdict on every request. */
  predicate AnswersAgree(p: Policy, rs: seq<Request>) {
    rs == [] || (AnswersAgree(p, rs[..|rs| - 1]) && Answer(Script, p, rs) == Answer(Memory, p, rs))
  }

  /** The last request fits on the strict reading of the job's grants and not on the other. */
  predicate Decisive(p: Policy, rs: seq<Request>)
    requires rs != []
  {
    var r := rs[|rs| - 1];
    var gs := GrantsOf(Script, p, rs[..|rs| - 1], r.job);
    Reading(Memory, p, gs, r.at) + r.units <= p.job < Reading(Script, p, gs, r.at) + r.units
  }

  predicate NeverDecisive(p: Policy, rs: seq<Request>) {
    rs == [] || (NeverDecisive(p, rs[..|rs| - 1]) && !Decisive(p, rs))
  }

  lemma {:induction false} StrictReadsLess(p: Policy, gs: seq<Grant>, at: Time)
    ensures Streak(Memory, p, gs) <= Streak(Script, p, gs)
    ensures Reading(Memory, p, gs, at) <= Reading(Script, p, gs, at)
  {
    if gs != [] {
      StrictReadsLess(p, gs[..|gs| - 1], gs[|gs| - 1].at);
    }
  }

  /** As long as the verdicts agree, both paths have granted the same. */
  lemma {:induction false} SameGrants(p: Policy, rs: seq<Request>, j: JobId, day: int)
    requires AnswersAgree(p, rs)
    ensures GrantsOf(Script, p, rs, j) == GrantsOf(Memory, p, rs, j)
    ensures GrantedOn(Script, p, rs, day) == GrantedOn(Memory, p, rs, day)
  {
    if rs != [] {
      SameGrants(p, rs[..|rs| - 1], j, day);
    }
  }

  /**
   On a whole-second clock that does not go back, the two paths answer a whole run alike, if and only if
   no request of it is decisive.
   */
  lemma {:induction false} VerdictsAgreeIff(p: Policy, rs: seq<Request>)
    requires ClockRuns(rs) && WholeSeconds(rs)
    ensures AnswersAgree(p, rs) <==> NeverDecisive(p, rs)
  {
    if rs != [] {
      var front, r := rs[..|rs| - 1], rs[|rs| - 1];
      VerdictsAgreeIff(p, front);
      if AnswersAgree(p, front) {
        SameGrants(p, front, r.job, DayOf(r.at / 1000));
        AnswerFromGrants(Script, p, rs);
        AnswerFromGrants(Memory, p, rs);
        StrictReadsLess(p, GrantsOf(Script, p, front, r.job), r.at);
      }
    }
  }

  /**
   As long as the verdicts agree, the daily ledgers are the same, and so are the job ledgers but for
   the units: those since the last pause that outlasted the ledger, which the last instant ends for
   the in-process path and not for the script.
   */
  lemma {:induction false} LedgersAgree(p: Policy, rs: seq<Request>, j: JobId)
    requires ClockRuns(rs) && WholeSeconds(rs) && AnswersAgree(p, rs)
    ensures var s, t := Serve(Script, p, rs), Serve(Memory, p, rs);
            && s.daily == t.daily && (j in s.jobs <==> j in t.jobs)
            && (j in s.jobs ==>
                  && s.jobs[j].expires == t.jobs[j].expires
                  && s.jobs[j].units == Streak(Script, p, GrantsOf(Script, p, rs, j))
                  && t.jobs[j].units == Streak(Memory, p, GrantsOf(Script, p, rs, j)))
  {
    SameGrants(p, rs, j, 0);
    JobTracks(Script, p, rs, j);
    JobTracks(Memory, p, rs, j);
    SameDaily(p, rs);
  }

  lemma {:induction false} SameDailyOnce(p: Policy, s: Ledgers, t: Ledgers, r: Request)
    requires r.at % 1000 == 0 && s.daily == t.daily && DailyUnits(s, r.at) == MemoryDailyUnits(s, r.at)
    requires Judge(Script, s, p, r) == Judge(Memory, t, p, r)
    ensures Charge(Script, s, p, r).daily == Charge(Memory, t, p, r).daily
  {
    assert MemoryRetry(r.at) == ResetOf(r.at / 1000) - r.at / 1000;
  }

  lemma {:induction false} SameDaily(p: Policy, rs: seq<Request>)
    requires ClockRuns(rs) && WholeSeconds(rs) && AnswersAgree(p, rs)
    ensures Serve(Script, p, rs).daily == Serve(Memory, p, rs).daily
  {
    if rs != [] {
      var front, r := rs[..|rs| - 1], rs[|rs| - 1];
      SameDaily(p, front);
      AlwaysDaily(Script, p, front);
      DailyRead(Script, p, front, Serve(Script, p, front), r.at);
      SameDailyOnce(p, Serve(Script, p, front), Serve(Memory, p, front), r);
    }
  }

  /** No request of the run falls on the last instant of its job's ledger. */
  predicate NoLastInstant(p: Policy, rs: seq<Request>) {
    rs == [] ||
    (&& NoLastInstant(p, rs[..|rs| - 1])
     && var r := rs[|rs| - 1];
        var s := Serve(Script, p, rs[..|rs| - 1]);
        r.job in s.jobs ==> s.jobs[r.job].expires != r.at)
  }

  /** Away from that instant both paths treat a request alike on the same ledgers. */
  lemma {:induction false} SameOnce(p: Policy, s: Ledgers, r: Request)
    requires r.at % 1000 == 0 && DailyUnits(s, r.at) == MemoryDailyUnits(s, r.at) && !FromLaterDay(s, r.at)
    requires r.job in s.jobs ==> s.jobs[r.job].expires != r.at
    ensures Judge(Script, s, p, r) == Judge(Memory, s, p, r) && Charge(Script, s, p, r) == Charge(Memory, s, p, r)
  {
    assert JobUnits(s, r.job, r.at) == MemoryJobUnits(s, r.job, r.at);
    assert MemoryRetry(r.at) == ResetOf(r.at / 1000) - r.at / 1000;
  }

  /** Away from those instants the paths are one: the same verdicts and the same ledgers throughout. */
  lemma {:induction false} SameAwayFromLastInstants(p: Policy, rs: seq<Request>)
    requires ClockRuns(rs) && WholeSeconds(rs) && NoLastInstant(p, rs)
    ensures Serve(Memory, p, rs) == Serve(Script, p, rs) && AnswersAgree(p, rs)
  {
    if rs != [] {
      var front, r := rs[..|rs| - 1], rs[|rs| - 1];
      SameAwayFromLastInstants(p, front);
      AlwaysDaily(Script, p, front);
      DailyRead(Script, p, front, Serve(Script, p, front), r.at);
      SameOnce(p, Serve(Script, p, front), r);
    }
  }

  lemma {:induction false} ServeOneMore(path: Path, p: Policy, rs: seq<Request>, r: Request)
    ensures Serve(path, p, rs + [r]) == Charge(path, Serve(path, p, rs), p, r)
    ensures Answer(path, p, rs + [r]) == Judge(path, Serve(path, p, rs), p, r)
  {
    assert (rs + [r])[..|rs + [r]| - 1] == rs;
  }

  /**
   The paths part after the instant that separated them: with a budget of 10 for a job and a ledger of
   100 seconds, both grant 5 units at second 0 and 5 more at its last instant, second 100; at second
   101, on no such instant, the script refuses 5 units that the in-process path grants.
   */
  lemma {:induction false} PathsPartLater(p: Policy, a: Request, b: Request, c: Request)
    requires p == Policy(1000, 10, 100)
    requires a == Request(0, 5, 0) && b == Request(0, 5, 100000) && c == Request(0, 5, 101000)
    ensures Answer(Script, p, [a]).Granted? && Answer(Script, p, [a] + [b]).Granted?
    ensures Answer(Memory, p, [a]).Granted? && Answer(Memory, p, [a] + [b]).Granted?
    ensures Serve(Script, p, [a] + [b]).jobs == map[0 := JobLedger(10, 200000)]
    ensures Serve(Memory, p, [a] + [b]).jobs == map[0 := JobLedger(5, 200000)]
    ensures Answer(Script, p, [a] + [b] + [c]).JobExceeded? && Answer(Memory, p, [a] + [b] + [c]).Granted?
  {
    FirstServed(Script, p, a, b);
    FirstServed(Memory, p, a, b);
    ServeOneMore(Script, p, [a] + [b], c);
    ServeOneMore(Memory, p, [a] + [b], c);
    ThirdJudged(Script, Serve(Script, p, [a] + [b]), p, c);
    ThirdJudged(Memory, Serve(Memory, p, [a] + [b]), p, c);
  }

  lemma {:induction false} FirstServed(path: Path, p: Policy, a: Request, b: Request)
    requires p == Policy(1000, 10, 100) && a == Request(0, 5, 0) && b == Request(0, 5, 100000)
    ensures Answer(path, p, [a]).Granted? && Answer(path, p, [a] + [b]).Granted?
    ensures Serve(path, p, [a] + [b])
            == Ledgers(Some(Daily(0, 10, 140400000)), map[0 := JobLedger(if path.Script? then 10 else 5, 200000)])
  {
    assert [] + [a] == [a];
    ServeOneMore(path, p, [], a);
    assert Serve(path, p, [a]) == Ledgers(Some(Daily(0, 5, 140400000)), map[0 := JobLedger(5, 100000)]);
    ServeOneMore(path, p, [a], b);
    SecondCharged(path, Serve(path, p, [a]), p, b);
  }

  lemma {:induction false} SecondCharged(path: Path, s: Ledgers, p: Policy, b: Request)
    requires p == Policy(1000, 10, 100) && b == Request(0, 5, 100000)
    requires s == Ledgers(Some(Daily(0, 5, 140400000)), map[0 := JobLedger(5, 100000)])
    ensures Judge(path, s, p, b).Granted?
    ensures Charge(path, s, p, b)
            == Ledgers(Some(Daily(0, 10, 140400000)), map[0 := JobLedger(if path.Script? then 10 else 5, 200000)])
  {
  }

  lemma {:induction false} ThirdJudged(path: Path, s: Ledgers, p: Policy, c: Request)
    requires p == Policy(1000, 10, 100) && c == Request(0, 5, 101000)
    requires s == Ledgers(Some(Daily(0, 10, 140400000)), map[0 := JobLedger(if path.Script? then 10 else 5, 200000)])
    ensures Judge(path, s, p, c) == if path.Script? then JobExceeded else Granted
  {
  }
}
