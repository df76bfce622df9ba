/**
 Who may take a job over, and when: a claim keeps every other delivery out for a minute, and so does
 each renewal by the owner; after a minute without one the next delivery takes the job.
 */
module ProtocolLeases {
  import opened Basics
  import opened ExplorationMap
  import opened MapEdits
  import opened Protocol
  import opened ProtocolJobs

  /** An update by t is written: t owns the job, which is not being cancelled, and nobody holds its mutex. */
  predicate OwnerWrites(s: State, j: JobId, t: Token) {
    && j in s.jobs && j !in s.frames && s.jobs[j].token == Some(t)
    && s.jobs[j].status != CancelRequested && s.jobs[j].status != Cancelled
  }

  /** Event e claims job j or renews its owner's lease. */
  ghost predicate Renews(s: State, e: Event, j: JobId, cfg: Config) {
    && e.OnJob? && e.job.j == j
    && match e.job
       case Claim(_, t) => Step(s, e, cfg) != s
       case Update(_, t, result) => OwnerWrites(s, j, t)
       case _ => false
  }

  /** When job j was last claimed or renewed in a run. */
  ghost function LastRenewal(es: seq<Event>, j: JobId, cfg: Config): Option<Time> {
    if es == [] then None else
      var front := es[..|es| - 1];
      var s := Run(INITIAL, front, cfg);
      if Renews(s, es[|es| - 1], j, cfg) then Some(s.now) else LastRenewal(front, j, cfg)
  }

  predicate Over(job: Job) {
    job.status == Completed || job.status == Failed || job.status == Cancelled
  }

  // ----- The lease is the last renewal and a minute ---------------------------------------------------

  predicate Stamped(job: Job, last: Option<Time>) {
    if last.None? then job.token.None? else job.token.Some? && job.lease == last.value + 60
  }

  ghost predicate LeaseSince(s: State, j: JobId, last: Option<Time>) {
    && (j in s.jobs ==> Stamped(s.jobs[j], last))
    && (j in s.frames ==> Stamped(s.frames[j].job, last))
    && (j !in s.log.admitted ==> last.None? && j !in s.jobs && j !in s.frames)
  }

  lemma {:induction false} FinishStepLease(s: State, e: FinishEvent, j: JobId, last: Option<Time>, cfg: Config)
    requires LeaseSince(s, j, last)
    ensures LeaseSince(FinishStep(s, e, cfg), j, last)
  {
    match e
    case FinishBegin(i, token, status, result) =>
    case FinishFetch(i) =>
    case FinishCommit(i) => CommitLease(s, i, j, last, cfg);
    case FinishStore(i) =>
    case FinishCrash(i) =>
  }

  lemma {:induction false} CommitLease(s: State, i: JobId, j: JobId, last: Option<Time>, cfg: Config)
    requires LeaseSince(s, j, last)
    ensures LeaseSince(DoFinishCommit(s, i, cfg), j, last)
  {
    if Holds(s, i) {
      match Judged(s, i)
      case Gone =>
      case Lost =>
      case Moved =>
      case Ready =>
    }
  }

  lemma {:induction false} MapStepLease(s: State, e: MapEvent, j: JobId, last: Option<Time>, cfg: Config)
    requires LeaseSince(s, j, last)
    ensures LeaseSince(MapStep(s, e, cfg), j, last)
  {
  }

  lemma {:induction false} JobStepLease(s: State, e: JobEvent, j: JobId, last: Option<Time>, cfg: Config)
    requires LeaseSince(s, j, last)
    ensures LeaseSince(JobStep(s, e, cfg), j, if Renews(s, OnJob(e), j, cfg) then Some(s.now) else last)
  {
    match e
    case Claim(i, t) =>
    case Update(i, t, result) =>
    case RequestCancel(i) =>
    case Publish(i, delivered) =>
  }

  lemma {:induction false} StepLease(s: State, e: Event, j: JobId, last: Option<Time>, cfg: Config)
    requires LeaseSince(s, j, last)
    ensures LeaseSince(Step(s, e, cfg), j, if Renews(s, e, j, cfg) then Some(s.now) else last)
  {
    match e
    case OnSession(x) => SessionFootprint(s, x);
    case OnMap(x) => MapStepLease(s, x, j, last, cfg);
    case OnJob(x) => JobStepLease(s, x, j, last, cfg);
    case OnFinish(x) => FinishStepLease(s, x, j, last, cfg);
  }

  lemma {:induction false} RunLease(es: seq<Event>, j: JobId, cfg: Config)
    ensures LeaseSince(Run(INITIAL, es, cfg), j, LastRenewal(es, j, cfg))
  {
    if es != [] {
      var front := es[..|es| - 1];
      RunLease(front, j, cfg);
      StepLease(Run(INITIAL, front, cfg), es[|es| - 1], j, LastRenewal(front, j, cfg), cfg);
    }
  }

  // ----- Deliveries -----------------------------------------------------------------------------------

  /** What a claim by t makes of the job: t owns it for a minute, and a cancellation is still requested. */
  predicate TakenBy(before: Job, after: Job, t: Token, now: Time) {
    && after.token == Some(t) && after.lease == now + 60
    && after.status == (if before.status == CancelRequested then CancelRequested else Running)
    && after.mapId == before.mapId && after.ids == before.ids && after.epoch == before.epoch
    && after.result == before.result && after.deadline == before.deadline && after.published == before.published
  }

  /**
   In every run: a delivery with a fresh token takes over a stored job that is not over, and whose mutex
   is free, if and only if the job was not claimed or renewed in the last minute; otherwise it changes
   nothing at all.
   */
  lemma {:induction false} TakeoverIff(es: seq<Event>, j: JobId, t: Token, cfg: Config)
    requires FreshToken(Run(INITIAL, es, cfg), t)
    ensures var s := Run(INITIAL, es, cfg);
            var u, last := Step(s, OnJob(Claim(j, t)), cfg), LastRenewal(es, j, cfg);
            if j in s.jobs && j !in s.frames && !Over(s.jobs[j]) && (last.Some? ==> s.now >= last.value + 60)
            then j in u.jobs && TakenBy(s.jobs[j], u.jobs[j], t, s.now)
            else u == s
  {
    RunLease(es, j, cfg);
    AlwaysOwned(es, cfg);
    assert OneOwner(Run(INITIAL, es, cfg), j, cfg);
  }

  lemma {:induction false} ClockOnwards(s: State, e: Event, cfg: Config)
    ensures s.now <= Step(s, e, cfg).now
  {
    match e
    case OnSession(x) =>
    case OnMap(x) => MapStepClock(s, x, cfg);
    case OnJob(x) => JobFootprint(s, x, cfg);
    case OnFinish(x) => FinishStepClock(s, x, cfg);
  }

  lemma {:induction false} MapStepClock(s: State, e: MapEvent, cfg: Config)
    ensures MapStep(s, e, cfg).now == s.now
  {
  }

  lemma {:induction false} FinishStepClock(s: State, e: FinishEvent, cfg: Config)
    ensures FinishStep(s, e, cfg).now == s.now
  {
  }

  lemma {:induction false} LaterRenewal(es: seq<Event>, later: seq<Event>, j: JobId, n: Time, cfg: Config)
    requires LastRenewal(es, j, cfg).Some? && n <= LastRenewal(es, j, cfg).value && n <= Run(INITIAL, es, cfg).now
    ensures var all := es + later;
            && LastRenewal(all, j, cfg).Some? && n <= LastRenewal(all, j, cfg).value
            && n <= Run(INITIAL, all, cfg).now && Run(INITIAL, all, cfg) == Run(Run(INITIAL, es, cfg), later, cfg)
  {
    var all := es + later;
    if later == [] {
      assert all == es;
    } else {
      assert all[..|all| - 1] == es + later[..|later| - 1];
      LaterRenewal(es, later[..|later| - 1], j, n, cfg);
      ClockOnwards(Run(INITIAL, all[..|all| - 1], cfg), all[|all| - 1], cfg);
    }
  }

  /**
   After a claim of a job, or an update by its owner, that took effect at time n, no delivery changes
   anything in any later state whose clock is below n + 60, whatever happened in between.
   */
  lemma {:induction false} NoTakeoverWithinAMinute(es: seq<Event>, e: Event, later: seq<Event>, j: JobId, other: Token,
      cfg: Config)
    requires Renews(Run(INITIAL, es, cfg), e, j, cfg)
    requires Run(Step(Run(INITIAL, es, cfg), e, cfg), later, cfg).now < Run(INITIAL, es, cfg).now + 60
    ensures var u := Run(Step(Run(INITIAL, es, cfg), e, cfg), later, cfg); Step(u, OnJob(Claim(j, other)), cfg) == u
  {
    var s, more := Run(INITIAL, es, cfg), es + [e];
    assert more[..|more| - 1] == es;
    ClockOnwards(s, e, cfg);
    LaterRenewal(more, later, j, s.now, cfg);
    if FreshToken(Run(INITIAL, more + later, cfg), other) {
      TakeoverIff(more + later, j, other, cfg);
    }
  }
}
