/**
 What a `_finish` call leaves behind: the outcome it was called with, or a cancellation without a
 result; everything else in the job document is as the call found it.
 */
module ProtocolOutcomes {
  import opened Basics
  import opened ExplorationMap
  import opened MapEdits
  import opened Protocol
  import opened ProtocolHistory
  import opened ProtocolJobs

  /** The arguments of a `_finish`. */
  datatype Call = Call(job: JobId, token: Option<Token>, status: Status, result: Option<ReportLink>) {
    function Begins(): Event {
      OnFinish(FinishBegin(job, token, status, result))
    }
  }

  /** The call's own outcome, or a cancellation without a result. */
  predicate OutcomeIs(call: Call, cancelled: bool, status: Status, result: Option<ReportLink>) {
    if cancelled then status == Cancelled && result == None else status == call.status && result == call.result
  }

  /** The call ended the job, and changed nothing else about it. */
  predicate Ended(before: Job, after: Job, call: Call, cancelled: bool) {
    && OutcomeIs(call, cancelled, after.status, after.result)
    && after.mapId == before.mapId && after.ids == before.ids && after.epoch == before.epoch
    && after.token == before.token && after.lease == before.lease
    && after.attempts == before.attempts && after.retries == before.retries
    && after.deadline == before.deadline && after.published == before.published
  }

  /** A call that begins now turns into a cancellation: the job is being cancelled, or its session is over. */
  predicate CancelledAtOnce(s: State, j: JobId)
    requires j in s.jobs
  {
    || s.jobs[j].status == CancelRequested || s.jobs[j].status == Cancelled
    || !s.Live() || (s.session.Some? && s.session.value.expires <= s.now)
  }

  /**
   Event e turns the call into a cancellation: it finds a completion whose job is no longer active on its
   map, or it commits after the identity or the map is gone.
   */
  ghost predicate Cancels(s: State, e: Event, j: JobId) {
    && j in s.frames
    && var m := s.frames[j].job.mapId;
       || (&& e == OnFinish(FinishFetch(j)) && s.frames[j].phase.Fetch? && s.frames[j].tries > 0
           && s.frames[j].status == Completed && (m in s.maps ==> s.maps[m].active != Some(j)))
       || (&& e == OnFinish(FinishCommit(j)) && s.frames[j].phase.Commit?
           && (!s.Live() || (j in s.jobs && s.jobs[j].token == s.frames[j].job.token && m !in s.maps)))
  }

  ghost predicate CancelledBy(s: State, es: seq<Event>, j: JobId, cfg: Config) {
    es != [] &&
    var front := es[..|es| - 1];
    CancelledBy(s, front, j, cfg) || Cancels(Run(s, front, cfg), es[|es| - 1], j)
  }

  /** The call is under way, on the document it locked. */
  ghost predicate UnderWay(s: State, call: Call, before: Job, cancelled: bool) {
    && call.job in s.frames && s.frames[call.job].job == before
    && OutcomeIs(call, cancelled, s.frames[call.job].status, s.frames[call.job].result)
  }

  lemma {:induction false} CommitCarries(s: State, j: JobId, call: Call, before: Job, cancelled: bool, cfg: Config)
    requires UnderWay(s, call, before, cancelled)
    ensures call.job in DoFinishCommit(s, j, cfg).frames ==>
            var more := cancelled || Cancels(s, OnFinish(FinishCommit(j)), call.job);
            UnderWay(DoFinishCommit(s, j, cfg), call, before, more)
  {
    if Holds(s, j) {
      match Judged(s, j)
      case Gone =>
      case Lost =>
      case Moved =>
      case Ready =>
    }
  }

  lemma {:induction false} FinishStepCarries(s: State, e: FinishEvent, call: Call, before: Job, cancelled: bool,
      cfg: Config)
    requires UnderWay(s, call, before, cancelled)
    ensures call.job in FinishStep(s, e, cfg).frames ==>
            UnderWay(FinishStep(s, e, cfg), call, before, cancelled || Cancels(s, OnFinish(e), call.job))
  {
    match e
    case FinishBegin(j, token, status, result) =>
    case FinishFetch(j) =>
    case FinishCommit(j) => CommitCarries(s, j, call, before, cancelled, cfg);
    case FinishStore(j) =>
    case FinishCrash(j) =>
  }

  lemma {:induction false} MapStepFrames(s: State, e: MapEvent, cfg: Config)
    ensures MapStep(s, e, cfg).frames == s.frames
  {
  }

  lemma {:induction false} StepCarries(s: State, e: Event, call: Call, before: Job, cancelled: bool, cfg: Config)
    requires UnderWay(s, call, before, cancelled)
    ensures call.job in Step(s, e, cfg).frames ==>
            UnderWay(Step(s, e, cfg), call, before, cancelled || Cancels(s, e, call.job))
  {
    match e
    case OnSession(x) => SessionFootprint(s, x);
    case OnMap(x) => MapStepFrames(s, x, cfg);
    case OnJob(x) => JobFootprint(s, x, cfg);
    case OnFinish(x) => FinishStepCarries(s, x, call, before, cancelled, cfg);
  }

  /** The job's mutex has been held all along these events. */
  ghost predicate HeldThrough(s: State, es: seq<Event>, j: JobId, cfg: Config) {
    j in Run(s, es, cfg).frames && (es != [] ==> HeldThrough(s, es[..|es| - 1], j, cfg))
  }

  lemma {:induction false} RunCarries(s: State, es: seq<Event>, call: Call, before: Job, cancelled: bool, cfg: Config)
    requires UnderWay(s, call, before, cancelled) && HeldThrough(s, es, call.job, cfg)
    ensures UnderWay(Run(s, es, cfg), call, before, cancelled || CancelledBy(s, es, call.job, cfg))
  {
    if es != [] {
      var front := es[..|es| - 1];
      RunCarries(s, front, call, before, cancelled, cfg);
      var sofar := cancelled || CancelledBy(s, front, call.job, cfg);
      StepCarries(Run(s, front, cfg), es[|es| - 1], call, before, sofar, cfg);
    }
  }

  lemma {:induction false} BeginIsUnderWay(s: State, call: Call, cfg: Config)
    requires Step(s, call.Begins(), cfg) != s
    ensures call.job in s.jobs && s.jobs[call.job].token == call.token
    ensures UnderWay(Step(s, call.Begins(), cfg), call, s.jobs[call.job], CancelledAtOnce(s, call.job))
  {
  }

  /** The commit succeeds: the identity lives, the job and its map are stored, and nobody has touched either. */
  ghost predicate Unchanged(s: State, j: JobId) {
    && Holds(s, j) && s.Live()
    && j in s.jobs && s.jobs[j].token == s.frames[j].job.token
    && s.frames[j].job.mapId in s.maps
    && s.maps[s.frames[j].job.mapId].revision == s.frames[j].phase.snap.revision
  }

  /** The map as a commit leaves it: no job is active, and a completed job's result is shown and linked. */
  ghost predicate Released(s: State, t: State, j: JobId, m: MapId, call: Call) {
    && m in s.maps && m in t.maps && m in s.hist.versions && j in t.jobs && t.maps[m].active == None
    && if t.jobs[j].status == Completed
       then && call.result.Some? && t.jobs[j].result == call.result && t.maps[m].lastResult == call.result
            && t.log.links == s.log.links + [Link(j, m, |s.hist.versions[m]|, call.result.value)]
       else t.maps[m].lastResult == s.maps[m].lastResult && t.log.links == s.log.links
  }

  lemma {:induction false} CommitEnds(s: State, call: Call, before: Job, cancelled: bool, cfg: Config)
    requires Serial(s, cfg) && Honest(s, call.job) && UnderWay(s, call, before, cancelled) && Unchanged(s, call.job)
    ensures var t := Step(s, OnFinish(FinishCommit(call.job)), cfg);
            && call.job !in t.frames && call.job in t.jobs && Ended(before, t.jobs[call.job], call, cancelled)
            && Released(s, t, call.job, before.mapId, call)
  {
    var j, m := call.job, before.mapId;
    assert SnapshotRead(s, j) && SerialMap(s, m, cfg) && Judged(s, j).Ready?;
    RevisionDeterminesDocument(s, m, s.frames[j].phase.snap, cfg);
  }

  lemma {:induction false} StoreEnds(s: State, call: Call, before: Job, cancelled: bool, cfg: Config)
    requires UnderWay(s, call, before, cancelled) && s.frames[call.job].phase.Store?
    ensures var t := Step(s, OnFinish(FinishStore(call.job)), cfg);
            && call.job !in t.frames && call.job in t.jobs && Ended(before, t.jobs[call.job], call, cancelled)
            && t.maps == s.maps && t.log == s.log
  {
  }

  lemma {:induction false} OtherFinishEnds(s: State, e: FinishEvent, j: JobId, before: Job, cfg: Config)
    requires Honest(s, j) && j in s.frames && s.frames[j].job == before && j !in FinishStep(s, e, cfg).frames
    requires !(e == FinishStore(j) && s.frames[j].phase.Store?) && !(e == FinishCommit(j) && Unchanged(s, j))
    ensures var t := FinishStep(s, e, cfg); j in t.jobs ==> t.jobs[j] == before
  {
    match e
    case FinishBegin(i, token, status, result) =>
    case FinishFetch(i) =>
    case FinishCommit(i) =>
    case FinishStore(i) =>
    case FinishCrash(i) =>
  }

  lemma {:induction false} OthersEnd(s: State, e: Event, j: JobId, before: Job, cfg: Config)
    requires Honest(s, j) && j in s.frames && s.frames[j].job == before && j !in Step(s, e, cfg).frames
    requires !(e == OnFinish(FinishStore(j)) && s.frames[j].phase.Store?)
    requires !(e == OnFinish(FinishCommit(j)) && Unchanged(s, j))
    ensures var t := Step(s, e, cfg); j in t.jobs ==> t.jobs[j] == before
  {
    match e
    case OnSession(x) => SessionFootprint(s, x);
    case OnMap(x) => MapStepFrames(s, x, cfg);
    case OnJob(x) => JobFootprint(s, x, cfg);
    case OnFinish(x) => OtherFinishEnds(s, x, j, before, cfg);
  }

  /**
   Over every run: a `_finish` that began, and then ended with event e after whatever else went on,
   has stored its own outcome on the document it had locked, or a cancellation without a result if it
   was turned into one, and nothing else about the job has changed; the commit has also released the
   map, showing and linking the call's own result exactly when the job completed. Or it ended without
   storing anything.
   */
  lemma {:induction false} FinishStoresItsCall(es: seq<Event>, call: Call, during: seq<Event>, e: Event, cfg: Config)
    requires cfg.limits.Valid()
    requires var s := Run(INITIAL, es, cfg);
             var a := Step(s, call.Begins(), cfg);
             a != s && HeldThrough(a, during, call.job, cfg) && call.job !in Step(Run(a, during, cfg), e, cfg).frames
    ensures var s := Run(INITIAL, es, cfg);
            var b := Run(Step(s, call.Begins(), cfg), during, cfg);
            var t, j := Step(b, e, cfg), call.job;
            var cancelled := j in s.jobs &&
              (CancelledAtOnce(s, j) || CancelledBy(Step(s, call.Begins(), cfg), during, j, cfg));
            && j in s.jobs && j in b.frames
            && if e == OnFinish(FinishStore(j)) && b.frames[j].phase.Store? then
                 j in t.jobs && Ended(s.jobs[j], t.jobs[j], call, cancelled) && t.maps == b.maps && t.log == b.log
               else if e == OnFinish(FinishCommit(j)) && Unchanged(b, j) then
                 j in t.jobs && Ended(s.jobs[j], t.jobs[j], call, cancelled) && Released(b, t, j, s.jobs[j].mapId, call)
               else j in t.jobs ==> t.jobs[j] == s.jobs[j]
  {
    var s := Run(INITIAL, es, cfg);
    var a := Step(s, call.Begins(), cfg);
    var b := Run(a, during, cfg);
    BeginIsUnderWay(s, call, cfg);
    var cancelled := CancelledAtOnce(s, call.job) || CancelledBy(a, during, call.job, cfg);
    RunCarries(a, during, call, s.jobs[call.job], CancelledAtOnce(s, call.job), cfg);
    RunsJoin(es, call.Begins(), during, cfg);
    AlwaysOwned(es + [call.Begins()] + during, cfg);
    NoLostUpdates(es + [call.Begins()] + during, cfg);
    assert OneOwner(b, call.job, cfg);
    if e == OnFinish(FinishStore(call.job)) && b.frames[call.job].phase.Store? {
      StoreEnds(b, call, s.jobs[call.job], cancelled, cfg);
    } else if e == OnFinish(FinishCommit(call.job)) && Unchanged(b, call.job) {
      CommitEnds(b, call, s.jobs[call.job], cancelled, cfg);
    } else {
      OthersEnd(b, e, call.job, s.jobs[call.job], cfg);
    }
  }

  lemma {:induction false} RunsJoin(es: seq<Event>, e: Event, more: seq<Event>, cfg: Config)
    ensures Run(INITIAL, es + [e] + more, cfg) == Run(Step(Run(INITIAL, es, cfg), e, cfg), more, cfg)
  {
    var all := es + [e] + more;
    if more == [] {
      assert all[..|all| - 1] == es && all[|all| - 1] == e;
    } else {
      assert all[..|all| - 1] == es + [e] + more[..|more| - 1];
      RunsJoin(es, e, more[..|more| - 1], cfg);
    }
  }

  /**
   A completion that is not disturbed succeeds: called by the owner of a job that is active on its map
   and not being cancelled, under a session that lives, it completes the job with its result.
   */
  lemma {:induction false} UndisturbedFinishCompletes(es: seq<Event>, j: JobId, result: ReportLink, cfg: Config)
    requires cfg.limits.Valid()
    requires var s := Run(INITIAL, es, cfg);
             && j in s.jobs && j !in s.frames && s.jobs[j].status in {Queued, Running}
             && s.Live() && (s.session.Some? ==> s.now < s.session.value.expires)
             && s.jobs[j].mapId in s.maps && s.maps[s.jobs[j].mapId].active == Some(j)
    ensures var s := Run(INITIAL, es, cfg);
            var m := s.jobs[j].mapId;
            var a := Step(s, OnFinish(FinishBegin(j, s.jobs[j].token, Completed, Some(result))), cfg);
            var t := Step(Step(a, OnFinish(FinishFetch(j)), cfg), OnFinish(FinishCommit(j)), cfg);
            && j in t.jobs && t.jobs[j] == s.jobs[j].(status := Completed, result := Some(result))
            && m in t.maps && t.maps[m].active == None && t.maps[m].lastResult == Some(result)
            && t.maps[m].nodes == s.maps[m].nodes && t.maps[m].selected == s.maps[m].selected
            && t.maps[m].revision == s.maps[m].revision + 1
  {
    var s := Run(INITIAL, es, cfg);
    var m := s.jobs[j].mapId;
    NoLostUpdates(es, cfg);
    assert SerialMap(s, m, cfg);
    var a := Step(s, OnFinish(FinishBegin(j, s.jobs[j].token, Completed, Some(result))), cfg);
    var b := Step(a, OnFinish(FinishFetch(j)), cfg);
    assert b.frames[j] == Frame(s.jobs[j], Completed, Some(result), 9, Commit(s.maps[m]));
    assert Judged(b, j).Ready?;
  }

  // ----- Ten attempts ---------------------------------------------------------------------------------

  ghost predicate Snapshotted(s: State, t: State, j: JobId) {
    && j in s.frames && j in t.frames && s.frames[j].phase.Fetch? && t.frames[j].phase.Commit?
  }

  /** How often the call has read the map for a commit. */
  ghost function Snapshots(s: State, es: seq<Event>, j: JobId, cfg: Config): nat {
    if es == [] then 0 else
      var front := es[..|es| - 1];
      Snapshots(s, front, j, cfg) + if Snapshotted(Run(s, front, cfg), Run(s, es, cfg), j) then 1 else 0
  }

  lemma {:induction false} FinishStepTries(s: State, e: FinishEvent, j: JobId, cfg: Config)
    requires j in s.frames && j in FinishStep(s, e, cfg).frames
    ensures var t := FinishStep(s, e, cfg);
            t.frames[j].tries == s.frames[j].tries - if Snapshotted(s, t, j) then 1 else 0
  {
    match e
    case FinishBegin(i, token, status, result) =>
    case FinishFetch(i) =>
    case FinishCommit(i) =>
    case FinishStore(i) =>
    case FinishCrash(i) =>
  }

  lemma {:induction false} StepTries(s: State, e: Event, j: JobId, cfg: Config)
    requires j in s.frames && j in Step(s, e, cfg).frames
    ensures var t := Step(s, e, cfg); t.frames[j].tries == s.frames[j].tries - if Snapshotted(s, t, j) then 1 else 0
  {
    match e
    case OnSession(x) => SessionFootprint(s, x);
    case OnMap(x) => MapStepFrames(s, x, cfg);
    case OnJob(x) => JobFootprint(s, x, cfg);
    case OnFinish(x) => FinishStepTries(s, x, j, cfg);
  }

  lemma {:induction false} RunTries(s: State, es: seq<Event>, j: JobId, cfg: Config)
    requires HeldThrough(s, es, j, cfg) && j in s.frames && s.frames[j].tries == 10
    ensures Run(s, es, cfg).frames[j].tries == 10 - Snapshots(s, es, j, cfg)
  {
    if es != [] {
      var front := es[..|es| - 1];
      RunTries(s, front, j, cfg);
      StepTries(Run(s, front, cfg), es[|es| - 1], j, cfg);
    }
  }

  /** A call reads the map for a commit at most ten times; only when the tenth commit was refused does a read end it. */
  lemma {:induction false} TenAttempts(s: State, call: Call, during: seq<Event>, cfg: Config)
    requires var a := Step(s, call.Begins(), cfg); a != s && HeldThrough(a, during, call.job, cfg)
    ensures var a := Step(s, call.Begins(), cfg);
            var b, n := Run(a, during, cfg), Snapshots(a, during, call.job, cfg);
            && n <= 10
            && (b.frames[call.job].phase.Fetch? ==>
                  (call.job in Step(b, OnFinish(FinishFetch(call.job)), cfg).frames <==> n < 10))
  {
    RunTries(Step(s, call.Begins(), cfg), during, call.job, cfg);
  }
}
