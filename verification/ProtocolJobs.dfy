/**
 Ownership of a job: tokens are never drawn twice, the document always names the last one, pipeline
 starts are bounded, an older worker is fenced off for good, and a cancellation is never undone.
 */
module ProtocolJobs {
  import opened Basics
  import opened ExplorationMap
  import opened MapEdits
  import opened Protocol

  function LastToken(tokens: seq<Token>): Option<Token> {
    if tokens == [] then None else Some(tokens[|tokens| - 1])
  }

  /** The document agrees with what the job was admitted for and with who owns it. */
  ghost predicate Faithful(log: Log, j: JobId, job: Job) {
    && j in log.admitted && j in log.owners
    && job.mapId == log.admitted[j].mapId && job.ids == log.admitted[j].ids
    && job.token == LastToken(log.owners[j].tokens)
    && StartsOf(job) == log.owners[j].starts
  }

  /** A `_finish` in progress: it carries the job it locked, and a cancelled job stays cancelled. */
  ghost predicate Honest(s: State, j: JobId) {
    j in s.frames ==>
      var f := s.frames[j];
      && Faithful(s.log, j, f.job)
      && (j in s.jobs ==> s.jobs[j] == f.job)
      && Terminal(f.status) && (f.status.Completed? ==> f.result.Some?)
      && (Cancelling(f.job.status) ==> f.status.Cancelled?)
      && (f.phase.Store? ==> !f.status.Completed?)
  }

  ghost predicate Bounded(log: Log, j: JobId, cfg: Config) {
    j in log.owners ==>
      && log.owners[j].starts == Min(|log.owners[j].tokens|, cfg.maxAttempts)
      && NoRepeats(log.owners[j].tokens)
  }

  ghost predicate OneOwner(s: State, j: JobId, cfg: Config) {
    && (j in s.log.owners ==> j in s.log.admitted)
    && (j in s.jobs ==> Faithful(s.log, j, s.jobs[j]))
    && Honest(s, j)
    && Bounded(s.log, j, cfg)
  }

  ghost predicate Owned(s: State, cfg: Config) {
    forall j {:trigger OneOwner(s, j, cfg)} :: OneOwner(s, j, cfg)
  }

  lemma {:induction false} SessionStepOwned(s: State, e: SessionEvent, j: JobId, cfg: Config)
    requires OneOwner(s, j, cfg)
    ensures OneOwner(SessionStep(s, e), j, cfg)
  {
    SessionFootprint(s, e);
  }

  lemma {:induction false} MapStepOwned(s: State, e: MapEvent, j: JobId, cfg: Config)
    requires OneOwner(s, j, cfg)
    ensures OneOwner(MapStep(s, e, cfg), j, cfg)
  {
    match e
    case PutMap(m, root, found) =>
    case Register(m, expires) => IndexFootprint(s, m, expires);
    case Bury(m) => IndexFootprint(s, m, 0);
    case CommitMap(m, read, edit) =>
    case Admit(k, hash, m, read, i, ids, epoch) =>
  }

  lemma {:induction false} JobStepOwned(s: State, e: JobEvent, j: JobId, cfg: Config)
    requires OneOwner(s, j, cfg)
    ensures OneOwner(JobStep(s, e, cfg), j, cfg)
  {
    match e
    case Claim(i, t) =>
    case Update(i, t, result) =>
    case RequestCancel(i) =>
    case Publish(i, delivered) =>
  }

  lemma {:induction false} FinishCommitOwned(s: State, i: JobId, j: JobId, cfg: Config)
    requires OneOwner(s, j, cfg)
    ensures OneOwner(DoFinishCommit(s, i, cfg), j, cfg)
  {
    if Holds(s, i) {
      match Judged(s, i)
      case Gone =>
      case Lost =>
      case Moved =>
      case Ready =>
    }
  }

  lemma {:induction false} FinishStoreOwned(s: State, i: JobId, j: JobId, cfg: Config)
    requires OneOwner(s, j, cfg)
    ensures OneOwner(DoFinishStore(s, i), j, cfg)
  {
  }

  lemma {:induction false} FinishStepOwned(s: State, e: FinishEvent, j: JobId, cfg: Config)
    requires OneOwner(s, j, cfg)
    ensures OneOwner(FinishStep(s, e, cfg), j, cfg)
  {
    match e
    case FinishBegin(i, token, status, result) =>
    case FinishFetch(i) =>
    case FinishCommit(i) => FinishCommitOwned(s, i, j, cfg);
    case FinishStore(i) => FinishStoreOwned(s, i, j, cfg);
    case FinishCrash(i) =>
  }

  lemma {:induction false} OwnedStep(s: State, e: Event, cfg: Config)
    requires Owned(s, cfg)
    ensures Owned(Step(s, e, cfg), cfg)
  {
    forall j ensures OneOwner(Step(s, e, cfg), j, cfg) {
      assert OneOwner(s, j, cfg);
      match e
      case OnSession(x) => SessionStepOwned(s, x, j, cfg);
      case OnMap(x) => MapStepOwned(s, x, j, cfg);
      case OnJob(x) => JobStepOwned(s, x, j, cfg);
      case OnFinish(x) => FinishStepOwned(s, x, j, cfg);
    }
  }

  lemma {:induction false} AlwaysOwned(es: seq<Event>, cfg: Config)
    ensures Owned(Run(INITIAL, es, cfg), cfg)
  {
    if es != [] {
      AlwaysOwned(es[..|es| - 1], cfg);
      OwnedStep(Run(INITIAL, es[..|es| - 1], cfg), es[|es| - 1], cfg);
    }
  }

  /**
   However often it is redelivered, crashes or outlives its lease, a job starts a pipeline with each claim
   until it has started maxAttempts of them, and none after that; the document counts them.
   */
  lemma {:induction false} AttemptsBounded(es: seq<Event>, j: JobId, cfg: Config)
    requires j in Run(INITIAL, es, cfg).log.owners
    ensures var s := Run(INITIAL, es, cfg);
            var claims, starts := |s.log.owners[j].tokens|, s.log.owners[j].starts;
            && starts == (if claims < cfg.maxAttempts then claims else cfg.maxAttempts)
            && (j in s.jobs && s.jobs[j].attempts.Some? ==> s.jobs[j].attempts == Some(starts))
  {
    AlwaysOwned(es, cfg);
    assert OneOwner(Run(INITIAL, es, cfg), j, cfg);
  }

  // ----- Fencing ----------------------------------------------------------------------------------

  /** t owned job j once, and a newer token has taken the job over since. */
  predicate Superseded(log: Log, j: JobId, t: Token) {
    j in log.owners && t in log.owners[j].tokens && LastToken(log.owners[j].tokens) != Some(t)
  }

  /** Tokens are only ever added behind the others. */
  ghost predicate TokensGrow(a: Log, b: Log, j: JobId) {
    j in a.owners ==> j in b.owners && a.owners[j].tokens <= b.owners[j].tokens
  }

  lemma {:induction false} StepTokens(s: State, e: Event, j: JobId, cfg: Config)
    requires OneOwner(s, j, cfg)
    ensures TokensGrow(s.log, Step(s, e, cfg).log, j)
  {
    match e
    case OnSession(x) => SessionFootprint(s, x);
    case OnMap(x) =>
    case OnJob(x) =>
    case OnFinish(x) =>
  }

  lemma {:induction false} RunOwned(s: State, es: seq<Event>, cfg: Config)
    requires Owned(s, cfg)
    ensures Owned(Run(s, es, cfg), cfg)
  {
    if es != [] {
      RunOwned(s, es[..|es| - 1], cfg);
      OwnedStep(Run(s, es[..|es| - 1], cfg), es[|es| - 1], cfg);
    }
  }

  lemma {:induction false} RunKeepsSuperseded(s: State, es: seq<Event>, j: JobId, t: Token, cfg: Config)
    requires Owned(s, cfg) && Superseded(s.log, j, t)
    ensures Superseded(Run(s, es, cfg).log, j, t)
  {
    if es != [] {
      var r := Run(s, es[..|es| - 1], cfg);
      RunKeepsSuperseded(s, es[..|es| - 1], j, t, cfg);
      RunOwned(s, es[..|es| - 1], cfg);
      assert OneOwner(r, j, cfg);
      StepTokens(r, es[|es| - 1], j, cfg);
      OwnedStep(r, es[|es| - 1], cfg);
      assert OneOwner(Step(r, es[|es| - 1], cfg), j, cfg);
    }
  }

  /**
   Once a new token has claimed the job, no `_update` and no `_finish` with an older one, or with the
   null token a request read before the first claim, changes anything, now or after any further run;
   and a delivery that meets a live lease changes nothing.
   */
  lemma {:induction false} OldWorkerIsFenced(es: seq<Event>, later: seq<Event>, j: JobId, t: Token, cfg: Config,
      status: Status, result: Option<ReportLink>)
    requires Superseded(Run(INITIAL, es, cfg).log, j, t)
    ensures var s := Run(Run(INITIAL, es, cfg), later, cfg);
            && Step(s, OnJob(Update(j, t, result)), cfg) == s
            && Step(s, OnFinish(FinishBegin(j, Some(t), status, result)), cfg) == s
            && Step(s, OnFinish(FinishBegin(j, None, status, result)), cfg) == s
            && (j in s.jobs && Busy(s, s.jobs[j]) ==> forall n :: Step(s, OnJob(Claim(j, n)), cfg) == s)
  {
    AlwaysOwned(es, cfg);
    RunKeepsSuperseded(Run(INITIAL, es, cfg), later, j, t, cfg);
    RunOwned(Run(INITIAL, es, cfg), later, cfg);
    assert OneOwner(Run(Run(INITIAL, es, cfg), later, cfg), j, cfg);
  }

  // ----- Cancellation -----------------------------------------------------------------------------

  /** The job is cancelled or being cancelled, and so is any `_finish` that holds it. */
  ghost predicate CancelHeld(s: State, j: JobId) {
    && j in s.log.admitted
    && (j in s.jobs ==> Cancelling(s.jobs[j].status))
    && (j in s.frames ==> s.frames[j].status.Cancelled?)
  }

  /** The links job j has made. */
  function LinksOf(links: seq<Link>, j: JobId): seq<Link> {
    if links == [] then [] else
      var rest := LinksOf(links[..|links| - 1], j);
      if links[|links| - 1].job == j then rest + [links[|links| - 1]] else rest
  }

  lemma {:induction false} FinishStepCancelHeld(s: State, e: FinishEvent, j: JobId, cfg: Config)
    requires CancelHeld(s, j)
    ensures CancelHeld(FinishStep(s, e, cfg), j)
    ensures LinksOf(FinishStep(s, e, cfg).log.links, j) == LinksOf(s.log.links, j)
  {
    match e
    case FinishBegin(i, token, status, result) =>
    case FinishFetch(i) =>
    case FinishCommit(i) =>
    case FinishStore(i) =>
    case FinishCrash(i) =>
  }

  lemma {:induction false} MapStepCancelHeld(s: State, e: MapEvent, j: JobId, cfg: Config)
    requires CancelHeld(s, j)
    ensures CancelHeld(MapStep(s, e, cfg), j) && MapStep(s, e, cfg).log.links == s.log.links
  {
  }

  lemma {:induction false} StepCancelHeld(s: State, e: Event, j: JobId, cfg: Config)
    requires CancelHeld(s, j)
    ensures CancelHeld(Step(s, e, cfg), j)
    ensures LinksOf(Step(s, e, cfg).log.links, j) == LinksOf(s.log.links, j)
  {
    match e
    case OnSession(x) => SessionFootprint(s, x);
    case OnMap(x) => MapStepCancelHeld(s, x, j, cfg);
    case OnJob(x) => JobFootprint(s, x, cfg);
    case OnFinish(x) => FinishStepCancelHeld(s, x, j, cfg);
  }

  lemma {:induction false} RunCancelHeld(s: State, es: seq<Event>, j: JobId, cfg: Config)
    requires CancelHeld(s, j)
    ensures CancelHeld(Run(s, es, cfg), j)
    ensures LinksOf(Run(s, es, cfg).log.links, j) == LinksOf(s.log.links, j)
  {
    if es != [] {
      RunCancelHeld(s, es[..|es| - 1], j, cfg);
      StepCancelHeld(Run(s, es[..|es| - 1], cfg), es[|es| - 1], j, cfg);
    }
  }

  /**
   Once a reachable state shows a job cancel-requested or cancelled, every later state shows it so as
   long as its document exists, and the job never links another result: whatever is claimed, updated,
   finished, redelivered, crashed or expired in between.
   */
  lemma {:induction false} CancellationIsSticky(es: seq<Event>, later: seq<Event>, j: JobId, cfg: Config)
    requires var s := Run(INITIAL, es, cfg); j in s.jobs && Cancelling(s.jobs[j].status)
    ensures var t := Run(Run(INITIAL, es, cfg), later, cfg);
            && (j in t.jobs ==> Cancelling(t.jobs[j].status))
            && LinksOf(t.log.links, j) == LinksOf(Run(INITIAL, es, cfg).log.links, j)
  {
    AlwaysOwned(es, cfg);
    assert OneOwner(Run(INITIAL, es, cfg), j, cfg);
    RunCancelHeld(Run(INITIAL, es, cfg), later, j, cfg);
  }
}
