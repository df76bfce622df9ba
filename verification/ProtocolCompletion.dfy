/**
 Completion: a job document only ever says "completed" after its result was linked; but completion
 is not final. `_finish` checks the worker token and nothing else about a terminal job, so a caller
 that read the token before the completion overwrites it afterwards (app/v2/reports.py:287-295).
 */
module ProtocolCompletion {
  import opened Basics
  import opened ExplorationMap
  import opened MapEdits
  import opened MapLaws
  import opened Protocol
  import opened ProtocolHistory
  import opened ProtocolJobs
  import opened ProtocolLinks

  ghost predicate HasLinked(log: Log, j: JobId) {
    exists l :: l in log.links && l.job == j
  }

  /** A completed job, also one that a `_finish` has locked, has linked its result. */
  ghost predicate CompletedLinked(s: State, j: JobId) {
    && (j in s.jobs && s.jobs[j].status.Completed? ==> HasLinked(s.log, j))
    && (j in s.frames && s.frames[j].job.status.Completed? ==> HasLinked(s.log, j))
  }

  lemma {:induction false} FinishStepCompleted(s: State, e: FinishEvent, j: JobId, cfg: Config)
    requires CompletedLinked(s, j) && Owned(s, cfg)
    ensures CompletedLinked(FinishStep(s, e, cfg), j)
  {
    assert OneOwner(s, e.j, cfg);
    match e
    case FinishCommit(i) =>
    case _ =>
  }

  lemma {:induction false} MapStepCompleted(s: State, e: MapEvent, j: JobId, cfg: Config)
    requires CompletedLinked(s, j)
    ensures CompletedLinked(MapStep(s, e, cfg), j)
  {
    match e
    case PutMap(m, root, found) =>
    case Register(m, expires) => IndexFootprint(s, m, expires);
    case Bury(m) => IndexFootprint(s, m, 0);
    case CommitMap(m, read, edit) =>
    case Admit(k, hash, m, read, i, ids, epoch) =>
  }

  lemma {:induction false} StepCompleted(s: State, e: Event, j: JobId, cfg: Config)
    requires CompletedLinked(s, j) && Owned(s, cfg)
    ensures CompletedLinked(Step(s, e, cfg), j)
  {
    match e
    case OnSession(x) => SessionFootprint(s, x);
    case OnMap(x) => MapStepCompleted(s, x, j, cfg);
    case OnJob(x) =>
    case OnFinish(x) => FinishStepCompleted(s, x, j, cfg);
  }

  /** In every run, a job shown as completed has linked a result. */
  lemma {:induction false} CompletedMeansLinked(es: seq<Event>, j: JobId, cfg: Config)
    ensures CompletedLinked(Run(INITIAL, es, cfg), j)
  {
    if es != [] {
      var front := es[..|es| - 1];
      CompletedMeansLinked(front, j, cfg);
      AlwaysOwned(front, cfg);
      StepCompleted(Run(INITIAL, front, cfg), es[|es| - 1], j, cfg);
    }
  }

  // ----- Completion is not final --------------------------------------------------------------------

  /** A completed job is no longer active on its map. */
  lemma {:induction false} CompletedIsInactive(es: seq<Event>, j: JobId, cfg: Config)
    requires cfg.limits.Valid()
    requires var s := Run(INITIAL, es, cfg); j in s.jobs && s.jobs[j].status.Completed?
    ensures var s := Run(INITIAL, es, cfg); !IsActive(s, j, s.jobs[j].mapId)
  {
    var s := Run(INITIAL, es, cfg);
    AlwaysLinkSafe(es, cfg);
    NoLostUpdates(es, cfg);
    CompletedMeansLinked(es, j, cfg);
    var l :| l in s.log.links && l.job == j;
    var m := s.jobs[j].mapId;
    if IsActive(s, j, m) {
      FirstLink(s, m, j, l, cfg);
    }
  }

  lemma {:induction false} FinishOver(s: State, j: JobId, token: Option<Token>, status: Status,
      result: Option<ReportLink>)
    requires Reachable(s, j) && s.jobs[j].status.Completed? && !IsActive(s, j, s.jobs[j].mapId)
    requires Terminal(status) && (status.Completed? ==> result.Some?)
    ensures var t := DoFinishStore(DoFinishFetch(DoFinishBegin(s, j, token, status, result), j), j);
            Reachable(t, j) && (t.jobs[j].status.Completed? <==> s.jobs[j].token != token)
  {
    if s.jobs[j].token == token {
      var a := DoFinishBegin(s, j, token, status, result);
      var b := DoFinishFetch(a, j);
      assert b == WithFrame(a, j, Unlinked(a.frames[j]));
    }
  }

  /**
   What a `_finish` call that finds a completed job leaves: the completion survives if and only if
   the caller's token is not the job's current one. Nothing else is asked, so a caller that read the
   token before the job completed always overwrites it, even with a second "completed".
   */
  lemma {:induction false} CompletedSurvivesFinish(es: seq<Event>, j: JobId, token: Option<Token>, status: Status,
      result: Option<ReportLink>, cfg: Config)
    requires cfg.limits.Valid()
    requires var s := Run(INITIAL, es, cfg); Reachable(s, j) && s.jobs[j].status.Completed?
    requires Terminal(status) && (status.Completed? ==> result.Some?)
    ensures var s := Run(INITIAL, es, cfg);
            var t := DoFinishStore(DoFinishFetch(DoFinishBegin(s, j, token, status, result), j), j);
            Reachable(t, j) && (t.jobs[j].status.Completed? <==> s.jobs[j].token != token)
  {
    CompletedIsInactive(es, j, cfg);
    FinishOver(Run(INITIAL, es, cfg), j, token, status, result);
  }

  // ----- How long an outcome lasts ------------------------------------------------------------------

  predicate Final(status: Status) {
    status == Completed || status == Failed || status == Cancelled
  }

  /** The job has this final status where it is stored, and in a `_finish` that has locked it. */
  ghost predicate Stays(s: State, j: JobId, status: Status) {
    && j in s.log.admitted
    && (j in s.jobs ==> s.jobs[j].status == status)
    && (j in s.frames ==> s.frames[j].job.status == status)
  }

  /** A `_finish` that locked the ended job, and so was called with its own token, stores over it. */
  ghost predicate StoredOver(s: State, e: Event, j: JobId, status: Status) {
    && j in s.frames && s.frames[j].job.status == status && (j in s.jobs ==> s.frames[j].job == s.jobs[j])
    && (e == OnFinish(FinishStore(j)) || e == OnFinish(FinishCommit(j)))
  }

  lemma {:induction false} CommitKeepsStatus(s: State, i: JobId, j: JobId, status: Status, cfg: Config)
    requires Stays(s, j, status) && Honest(s, j) && !StoredOver(s, OnFinish(FinishCommit(i)), j, status)
    ensures Stays(DoFinishCommit(s, i, cfg), j, status)
  {
    if Holds(s, i) {
      match Judged(s, i)
      case Gone =>
      case Lost =>
      case Moved =>
      case Ready =>
    }
  }

  lemma {:induction false} FinishKeepsStatus(s: State, e: FinishEvent, j: JobId, status: Status, cfg: Config)
    requires Stays(s, j, status) && Honest(s, j) && !StoredOver(s, OnFinish(e), j, status)
    ensures Stays(FinishStep(s, e, cfg), j, status)
  {
    match e
    case FinishBegin(i, token, outcome, result) =>
    case FinishFetch(i) =>
    case FinishCommit(i) => CommitKeepsStatus(s, i, j, status, cfg);
    case FinishStore(i) =>
    case FinishCrash(i) =>
  }

  lemma {:induction false} MapStepKeepsStatus(s: State, e: MapEvent, j: JobId, status: Status, cfg: Config)
    requires Stays(s, j, status)
    ensures Stays(MapStep(s, e, cfg), j, status)
  {
  }

  lemma {:induction false} JobStepKeepsStatus(s: State, e: JobEvent, j: JobId, status: Status, cfg: Config)
    requires Stays(s, j, status) && Final(status)
    ensures Stays(JobStep(s, e, cfg), j, status)
  {
    match e
    case Claim(i, t) =>
    case Update(i, t, result) =>
    case RequestCancel(i) =>
    case Publish(i, delivered) =>
  }

  lemma {:induction false} StepKeepsStatus(s: State, e: Event, j: JobId, status: Status, cfg: Config)
    requires Stays(s, j, status) && Final(status) && Honest(s, j) && !StoredOver(s, e, j, status)
    ensures Stays(Step(s, e, cfg), j, status)
  {
    match e
    case OnSession(x) => SessionFootprint(s, x);
    case OnMap(x) => MapStepKeepsStatus(s, x, j, status, cfg);
    case OnJob(x) => JobStepKeepsStatus(s, x, j, status, cfg);
    case OnFinish(x) => FinishKeepsStatus(s, x, j, status, cfg);
  }

  /**
   Over runs: a completed, failed or cancelled job stays so while its document exists, unless at some
   moment a `_finish` that was called with the job's own token stores over it.
   */
  lemma {:induction false} OutcomeEndsByOwnFinish(es: seq<Event>, later: seq<Event>, j: JobId, cfg: Config)
    requires var s := Run(INITIAL, es, cfg); j in s.jobs && Final(s.jobs[j].status)
    requires var s := Run(INITIAL, es, cfg);
             forall k :: 0 <= k < |later| ==> !StoredOver(Run(s, later[..k], cfg), later[k], j, s.jobs[j].status)
    ensures var s := Run(INITIAL, es, cfg); Stays(Run(s, later, cfg), j, s.jobs[j].status)
  {
    var s := Run(INITIAL, es, cfg);
    AlwaysOwned(es, cfg);
    assert OneOwner(s, j, cfg);
    if later != [] {
      var front := later[..|later| - 1];
      forall k | 0 <= k < |front| ensures later[..k] == front[..k] {
      }
      OutcomeEndsByOwnFinish(es, front, j, cfg);
      RunOwned(s, front, cfg);
      assert OneOwner(Run(s, front, cfg), j, cfg);
      StepKeepsStatus(Run(s, front, cfg), later[|later| - 1], j, s.jobs[j].status, cfg);
    }
  }

  // ----- A run that overwrites a completion ------------------------------------------------------------

  lemma {:induction false} RunOneMore(s: State, es: seq<Event>, e: Event, cfg: Config)
    ensures Run(s, es + [e], cfg) == Step(Run(s, es, cfg), e, cfg)
  {
    assert (es + [e])[..|es + [e]| - 1] == es;
  }

  const ARTICLE: NewsId := 7
  const OTHER: NewsId := 8
  const RESULT: ReportLink := ReportLink(11, None)

  const ISSUE: Event := OnSession(Issue(SID, 0))
  const OPEN: Event := OnSession(OpenSession(1, 1000))
  const PUT: Event := OnMap(PutMap(0, Some(Item(ARTICLE, 0)), Found([Item(OTHER, 1)], 0, false)))
  const ADMIT: Event := OnMap(Admit(5, 55, 0, 0, 0, [ARTICLE], 1))
  const CLAIM: Event := OnJob(Claim(0, 100))
  const BEGIN: Event := OnFinish(FinishBegin(0, Some(100), Completed, Some(RESULT)))
  const FETCH: Event := OnFinish(FinishFetch(0))
  const COMMIT: Event := OnFinish(FinishCommit(0))
  const TIMEOUT: Event := OnFinish(FinishBegin(0, Some(100), Failed, None))
  const STORE: Event := OnFinish(FinishStore(0))

  ghost function Setup(): seq<Event> {
    [ISSUE] + [OPEN] + [PUT] + [ADMIT] + [CLAIM]
  }

  /** A session with one map of two articles. */
  ghost predicate Explored(s: State, doc: MapDoc) {
    && s.Live() && !SessionOver(s) && s.session.Some? && s.session.value.epoch == 1
    && s.maps == map[0 := doc] && 0 in s.hist.versions && 0 in s.hist.edits
    && 0 < doc.revision == |s.hist.versions[0]| && doc == s.hist.versions[0][doc.revision - 1]
    && ARTICLE in Visible(doc.nodes) && OTHER in Visible(doc.nodes)
    && s.frames == map[]
  }

  /** A job for the first article, which a worker has just claimed. */
  ghost predicate Working(s: State) {
    && 0 in s.maps && Explored(s, s.maps[0])
    && s.maps[0].active == Some(0) && s.maps[0].lastResult.None? && s.maps[0].revision == 2
    && Reachable(s, 0) && s.jobs[0].mapId == 0 && s.jobs[0].token == Some(100) && s.jobs[0].status.Running?
    && s.log.admitted == map[0 := Admission(0, [ARTICLE], 5, 55)] && s.idem.Keys == {5}
  }

  /** The job has completed and its result is on the map. */
  ghost predicate Delivered(s: State) {
    && 0 in s.maps && Explored(s, s.maps[0])
    && s.maps[0].active.None? && s.maps[0].lastResult == Some(RESULT) && s.maps[0].revision == 3
    && Reachable(s, 0) && s.jobs[0].mapId == 0 && s.jobs[0].token == Some(100) && s.jobs[0].status.Completed?
    && s.log.admitted == map[0 := Admission(0, [ARTICLE], 5, 55)] && s.idem.Keys == {5}
    && exists l :: l in s.log.links && l.job == 0 && l.mapId == 0 && l.result == RESULT
  }

  lemma {:induction false} SetupRun(cfg: Config)
    ensures var a := Step(Step(INITIAL, ISSUE, cfg), OPEN, cfg);
            Run(INITIAL, Setup(), cfg) == Step(Step(Step(a, PUT, cfg), ADMIT, cfg), CLAIM, cfg)
  {
    assert [] + [ISSUE] == [ISSUE];
    RunOneMore(INITIAL, [], ISSUE, cfg);
    RunOneMore(INITIAL, [ISSUE], OPEN, cfg);
    RunOneMore(INITIAL, [ISSUE] + [OPEN], PUT, cfg);
    RunOneMore(INITIAL, [ISSUE] + [OPEN] + [PUT], ADMIT, cfg);
    RunOneMore(INITIAL, [ISSUE] + [OPEN] + [PUT] + [ADMIT], CLAIM, cfg);
  }

  lemma {:induction false} FirstMap(s: State, cfg: Config)
    requires s.hist == Archive(map[], map[]) && s.maps == map[] && s.frames == map[]
    requires s.Live() && !SessionOver(s) && s.session.Some? && s.session.value.epoch == 1
    ensures var doc := Created(Some(Item(ARTICLE, 0)), Found([Item(OTHER, 1)], 0, false));
            var t := Step(s, PUT, cfg);
            && Explored(t, doc) && doc.revision == 1 && doc.active.None? && doc.lastResult.None?
            && t.idem == s.idem && t.log == s.log && t.jobs == s.jobs
  {
    var item, rest := Item(ARTICLE, 0), [Item(OTHER, 1)];
    var doc := Created(Some(item), Found(rest, 0, false));
    assert NewNodes(rest, 2, Some(1), 1, 0)[0] == Node(2, OTHER, Some(1), 1, false, 0) by {
      assert rest[..0] == [];
    }
    assert doc.nodes[0] in doc.nodes && doc.nodes[1] in doc.nodes;
    assert doc.nodes[1].news == OTHER;
  }

  lemma {:induction false} FirstAdmission(s: State, doc: MapDoc, cfg: Config)
    requires Explored(s, doc) && doc.revision == 1 && doc.lastResult.None? && s.idem == map[] && s.jobs == map[]
    requires s.log == Log(map[], map[], [], {}, {})
    ensures var t := Step(s, ADMIT, cfg);
            && 0 in t.maps && Explored(t, t.maps[0])
            && t.maps[0].active == Some(0) && t.maps[0].lastResult.None? && t.maps[0].revision == 2
            && t.jobs == map[0 := NewJob(s, 0, [ARTICLE], 1, cfg)]
            && t.log == Log(map[0 := Admission(0, [ARTICLE], 5, 55)], map[0 := Owners([], 0)], [], {}, {})
               && t.idem.Keys == {5}
  {
    assert Elements([ARTICLE]) == {ARTICLE};
    assert WasRead(s, 0, 0);
  }

  lemma {:induction false} FirstClaim(s: State, cfg: Config)
    requires 0 in s.maps && Explored(s, s.maps[0]) && cfg.maxAttempts > 0
    requires 0 in s.jobs && s.jobs[0].mapId == 0 && s.jobs[0].status.Queued? && s.jobs[0].token.None?
    requires s.maps[0].active == Some(0) && s.maps[0].lastResult.None? && s.maps[0].revision == 2
    requires s.log.owners == map[0 := Owners([], 0)]
    requires s.log.admitted == map[0 := Admission(0, [ARTICLE], 5, 55)] && s.idem.Keys == {5}
    ensures Working(Step(s, CLAIM, cfg))
  {
    assert CanClaim(s, 0, 100);
  }

  lemma {:induction false} SetupWorks(cfg: Config)
    requires cfg.limits.Valid() && cfg.maxAttempts > 0
    ensures Working(Run(INITIAL, Setup(), cfg))
  {
    SetupRun(cfg);
    var a := Step(Step(INITIAL, ISSUE, cfg), OPEN, cfg);
    FirstMap(a, cfg);
    var b := Step(a, PUT, cfg);
    FirstAdmission(b, Created(Some(Item(ARTICLE, 0)), Found([Item(OTHER, 1)], 0, false)), cfg);
    FirstClaim(Step(b, ADMIT, cfg), cfg);
  }

  /** The worker's own `_finish`: the result is linked and the job completed. */
  lemma {:induction false} WorkerCompletes(s: State, cfg: Config)
    requires Working(s)
    ensures Delivered(Step(Step(Step(s, BEGIN, cfg), FETCH, cfg), COMMIT, cfg))
  {
    var a := Step(s, BEGIN, cfg);
    var b := Step(a, FETCH, cfg);
    assert b.frames[0].phase == Commit(s.maps[0]);
    assert Holds(b, 0) && Judged(b, 0).Ready?;
    var t := Step(b, COMMIT, cfg);
    assert t.log.links[|s.log.links|] in t.log.links;
  }

  /** A request that looked at the status and read the token before that completion times the job out after it. */
  lemma {:induction false} LateTimeout(s: State, cfg: Config)
    requires Delivered(s)
    ensures var t := Step(Step(Step(s, TIMEOUT, cfg), FETCH, cfg), STORE, cfg);
            && 0 in t.jobs && t.jobs[0].status.Failed? && t.jobs[0].result.None?
            && 0 in t.maps && t.maps[0].lastResult == Some(RESULT)
  {
  }

  ghost function Completing(): seq<Event> {
    Setup() + [BEGIN] + [FETCH] + [COMMIT]
  }

  lemma {:induction false} CompletingWorks(cfg: Config)
    requires cfg.limits.Valid() && cfg.maxAttempts > 0
    ensures Delivered(Run(INITIAL, Completing(), cfg))
  {
    SetupWorks(cfg);
    WorkerCompletes(Run(INITIAL, Setup(), cfg), cfg);
    RunOneMore(INITIAL, Setup(), BEGIN, cfg);
    RunOneMore(INITIAL, Setup() + [BEGIN], FETCH, cfg);
    RunOneMore(INITIAL, Setup() + [BEGIN] + [FETCH], COMMIT, cfg);
  }

  /** "Completed is final" is false: this run completes job 0, then fails it while the map keeps its result. */
  lemma {:induction false} CompletedCanBeOverwritten(cfg: Config)
    requires cfg.limits.Valid() && cfg.maxAttempts > 0
    ensures var s := Run(INITIAL, Completing(), cfg);
            0 in s.jobs && s.jobs[0].status.Completed? && 0 in s.maps && s.maps[0].lastResult == Some(RESULT)
    ensures var t := Run(INITIAL, Completing() + [TIMEOUT] + [FETCH] + [STORE], cfg);
            && 0 in t.jobs && t.jobs[0].status.Failed? && t.jobs[0].result.None?
            && 0 in t.maps && t.maps[0].lastResult == Some(RESULT)
  {
    CompletingWorks(cfg);
    LateTimeout(Run(INITIAL, Completing(), cfg), cfg);
    RunOneMore(INITIAL, Completing(), TIMEOUT, cfg);
    RunOneMore(INITIAL, Completing() + [TIMEOUT], FETCH, cfg);
    RunOneMore(INITIAL, Completing() + [TIMEOUT] + [FETCH], STORE, cfg);
  }
}
