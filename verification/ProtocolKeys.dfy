/**
 Idempotent, atomic admission; identities and maps that stay deleted.
 */
module ProtocolKeys {
  import opened Basics
  import opened ExplorationMap
  import opened MapEdits
  import opened Protocol
  import opened ProtocolHistory

  // ----- Replay keys ------------------------------------------------------------------------------

  /** The admission's replay record is there, or a record of that key has expired. */
  ghost predicate Recorded(s: State, j: JobId) {
    j in s.log.admitted ==>
      var a := s.log.admitted[j];
      a.key in s.log.lapsed || (a.key in s.idem && s.idem[a.key] == Replay(a.hash, j))
  }

  /** The admission of j is on record as a, now and at t. */
  ghost predicate AdmittedAs(s: State, j: JobId, a: Admission) {
    j in s.log.admitted && s.log.admitted[j] == a
  }

  lemma {:induction false} MapStepRecorded(s: State, e: MapEvent, j: JobId, a: Admission, cfg: Config)
    requires Recorded(s, j)
    ensures Recorded(MapStep(s, e, cfg), j)
    ensures AdmittedAs(s, j, a) ==> AdmittedAs(MapStep(s, e, cfg), j, a)
    ensures s.log.lapsed <= MapStep(s, e, cfg).log.lapsed
  {
    match e
    case PutMap(m, root, found) =>
    case Register(m, expires) => IndexFootprint(s, m, expires);
    case Bury(m) => IndexFootprint(s, m, 0);
    case CommitMap(m, read, edit) =>
    case Admit(k, hash, m, read, i, ids, epoch) =>
  }

  lemma {:induction false} SessionStepRecorded(s: State, e: SessionEvent, j: JobId, a: Admission)
    requires Recorded(s, j)
    ensures Recorded(SessionStep(s, e), j)
    ensures AdmittedAs(s, j, a) ==> AdmittedAs(SessionStep(s, e), j, a)
    ensures s.log.lapsed <= SessionStep(s, e).log.lapsed
  {
  }

  lemma {:induction false} StepRecorded(s: State, e: Event, j: JobId, a: Admission, cfg: Config)
    requires Recorded(s, j)
    ensures Recorded(Step(s, e, cfg), j)
    ensures AdmittedAs(s, j, a) ==> AdmittedAs(Step(s, e, cfg), j, a)
    ensures s.log.lapsed <= Step(s, e, cfg).log.lapsed
  {
    match e
    case OnSession(x) => SessionStepRecorded(s, x, j, a);
    case OnMap(x) => MapStepRecorded(s, x, j, a, cfg);
    case OnJob(x) => JobFootprint(s, x, cfg);
    case OnFinish(x) =>
  }

  lemma {:induction false} RunRecorded(s: State, es: seq<Event>, j: JobId, a: Admission, cfg: Config)
    requires Recorded(s, j)
    ensures Recorded(Run(s, es, cfg), j)
    ensures AdmittedAs(s, j, a) ==> AdmittedAs(Run(s, es, cfg), j, a)
    ensures s.log.lapsed <= Run(s, es, cfg).log.lapsed
  {
    if es != [] {
      RunRecorded(s, es[..|es| - 1], j, a, cfg);
      StepRecorded(Run(s, es[..|es| - 1], cfg), es[|es| - 1], j, a, cfg);
    }
  }

  /** Two jobs were never created for one key, unless the key's record had expired in between. */
  lemma {:induction false} OneJobPerKey(es: seq<Event>, i: JobId, j: JobId, cfg: Config)
    requires var log := Run(INITIAL, es, cfg).log;
             && i in log.admitted && j in log.admitted && log.admitted[i].key == log.admitted[j].key
             && log.admitted[i].key !in log.lapsed
    ensures i == j
  {
    var log := Run(INITIAL, es, cfg).log;
    RunRecorded(INITIAL, es, i, log.admitted[i], cfg);
    RunRecorded(INITIAL, es, j, log.admitted[j], cfg);
  }

  /**
   After a job was admitted under a key, and until the record expires, the same request is answered
   with that job, a different one is a conflict, and no admission under the key changes anything.
   */
  lemma {:induction false} ReplayReturnsTheJob(es: seq<Event>, later: seq<Event>, j: JobId, cfg: Config, hash: Hash,
      m: MapId, read: nat, i: JobId, ids: seq<NewsId>, epoch: Epoch)
    requires j in Run(INITIAL, es, cfg).log.admitted
    requires Run(INITIAL, es, cfg).log.admitted[j].key !in Run(Run(INITIAL, es, cfg), later, cfg).log.lapsed
    ensures var a := Run(INITIAL, es, cfg).log.admitted[j];
            var t := Run(Run(INITIAL, es, cfg), later, cfg);
            && Looked(t, a.key, hash) == (if hash == a.hash then Existing(j) else Conflict)
            && Step(t, OnMap(Admit(a.key, hash, m, read, i, ids, epoch)), cfg) == t
  {
    var s := Run(INITIAL, es, cfg);
    var a := s.log.admitted[j];
    RunRecorded(INITIAL, es, j, a, cfg);
    RunRecorded(s, later, j, a, cfg);
  }

  /** A replay record names a job that was admitted under its key for its hash. */
  ghost predicate ReplaysAdmitted(s: State) {
    forall k :: k in s.idem ==>
      var j := s.idem[k].job;
      j in s.log.admitted && s.log.admitted[j].key == k && s.log.admitted[j].hash == s.idem[k].hash
  }

  lemma {:induction false} MapStepReplays(s: State, e: MapEvent, cfg: Config)
    requires ReplaysAdmitted(s)
    ensures ReplaysAdmitted(MapStep(s, e, cfg))
  {
  }

  lemma {:induction false} SessionStepReplays(s: State, e: SessionEvent)
    requires ReplaysAdmitted(s)
    ensures ReplaysAdmitted(SessionStep(s, e))
  {
    SessionFootprint(s, e);
  }

  lemma {:induction false} FinishStepReplays(s: State, e: FinishEvent, cfg: Config)
    requires ReplaysAdmitted(s)
    ensures ReplaysAdmitted(FinishStep(s, e, cfg))
  {
  }

  lemma {:induction false} StepReplays(s: State, e: Event, cfg: Config)
    requires ReplaysAdmitted(s)
    ensures ReplaysAdmitted(Step(s, e, cfg))
  {
    match e
    case OnSession(x) => SessionStepReplays(s, x);
    case OnMap(x) => MapStepReplays(s, x, cfg);
    case OnJob(x) => JobFootprint(s, x, cfg);
    case OnFinish(x) => FinishStepReplays(s, x, cfg);
  }

  /** In every run the replay records name admitted jobs. */
  lemma {:induction false} AlwaysReplays(es: seq<Event>, cfg: Config)
    ensures ReplaysAdmitted(Run(INITIAL, es, cfg))
  {
    if es != [] {
      AlwaysReplays(es[..|es| - 1], cfg);
      StepReplays(Run(INITIAL, es[..|es| - 1], cfg), es[|es| - 1], cfg);
    }
  }

  /** Reservation, job, replay record and index entry appear together, or nothing changes at all. */
  lemma {:induction false} AdmissionIsAtomic(s: State, k: Key, hash: Hash, m: MapId, read: nat, j: JobId,
      ids: seq<NewsId>, epoch: Epoch, cfg: Config)
    requires Serial(s, cfg)
    ensures var t := DoAdmit(s, k, hash, m, read, j, ids, epoch, cfg);
            t == s || (&& m in s.maps && m in t.maps && t.maps[m].active == Some(j) && t.maps[m].selected == ids
                       && t.maps[m].revision == s.maps[m].revision + 1 && t.maps[m].nodes == s.maps[m].nodes
                       && t.maps[m].lastResult == s.maps[m].lastResult
                       && t.maps[m].panelOpen && Elements(ids) <= Visible(s.maps[m].nodes)
                       && 1 <= |ids| <= 10 && NoRepeats(ids) && j !in s.log.admitted && j in t.jobs
                       && t.jobs[j] == Job(m, ids, epoch, Queued, None, 0, None, 0, None, s.now + cfg.jobTimeout, false)
                       && k !in s.idem && k in t.idem && t.idem[k] == Replay(hash, j)
                       && s.session.Some? && s.session.value.epoch == epoch
                       && t.session.Some? && j in t.session.value.jobIndex)
  {
    var t := DoAdmit(s, k, hash, m, read, j, ids, epoch, cfg);
    if t != s {
      RevisionDeterminesDocument(s, m, s.hist.versions[m][read], cfg);
    }
  }

  // ----- Revocation -------------------------------------------------------------------------------

  /** The id was drawn for an identity, which lives no more. */
  predicate Revoked(s: State, sid: Sid) {
    sid in s.identities.issued && sid !in s.identities.live
  }

  /** Drawn ids stay drawn, and a revoked one stays revoked. */
  ghost predicate IdentitiesKept(s: State, t: State, sid: Sid) {
    && s.identities.issued <= t.identities.issued
    && (Revoked(s, sid) ==> Revoked(t, sid))
  }

  lemma {:induction false} MapStepIdentities(s: State, e: MapEvent, cfg: Config)
    ensures MapStep(s, e, cfg).identities == s.identities
  {
  }

  lemma {:induction false} FinishStepIdentities(s: State, e: FinishEvent, cfg: Config)
    ensures FinishStep(s, e, cfg).identities == s.identities
  {
  }

  lemma {:induction false} StepKeepsRevoked(s: State, e: Event, sid: Sid, cfg: Config)
    ensures IdentitiesKept(s, Step(s, e, cfg), sid)
  {
    match e
    case OnSession(x) => SessionFootprint(s, x);
    case OnMap(x) => MapStepIdentities(s, x, cfg);
    case OnJob(x) => JobFootprint(s, x, cfg);
    case OnFinish(x) => FinishStepIdentities(s, x, cfg);
  }

  /** No run brings a revoked identity back: not this session's, and not any other. */
  lemma {:induction false} RevokedStaysRevoked(s: State, es: seq<Event>, sid: Sid, cfg: Config)
    requires Revoked(s, sid)
    ensures Revoked(Run(s, es, cfg), sid)
  {
    if es != [] {
      RevokedStaysRevoked(s, es[..|es| - 1], sid, cfg);
      StepKeepsRevoked(Run(s, es[..|es| - 1], cfg), es[|es| - 1], sid, cfg);
    }
  }

  /** The documents of earlier maps that are still stored are unchanged. */
  ghost predicate OldMapsKept(s: State, t: State) {
    forall m :: m in s.hist.versions && m in t.maps ==> m in s.maps && t.maps[m] == s.maps[m]
  }

  /** The session document is gone or unchanged, no earlier map is written, no job is admitted, nothing is linked. */
  ghost predicate Inert(s: State, t: State) {
    && (t.session.Some? ==> t.session == s.session)
    && OldMapsKept(s, t)
    && t.log.admitted == s.log.admitted && t.log.links == s.log.links && t.log.buried == s.log.buried
    && s.hist.versions.Keys <= t.hist.versions.Keys
  }

  lemma {:induction false} InertOnwards(r: State, s: State, t: State)
    requires Inert(r, s) && Inert(s, t)
    ensures Inert(r, t)
  {
  }

  lemma {:induction false} FinishStepInert(s: State, e: FinishEvent, cfg: Config)
    requires !s.Live()
    ensures Inert(s, FinishStep(s, e, cfg))
  {
    match e
    case FinishCommit(j) =>
      if Holds(s, j) {
        assert Judged(s, j).Gone?;
      }
    case _ =>
  }

  lemma {:induction false} MapStepInert(s: State, e: MapEvent, cfg: Config)
    requires !s.Live()
    ensures Inert(s, MapStep(s, e, cfg))
  {
  }

  lemma {:induction false} SessionStepInert(s: State, e: SessionEvent)
    requires Revoked(s, SID)
    ensures Inert(s, SessionStep(s, e))
  {
  }

  lemma {:induction false} StepInert(s: State, e: Event, cfg: Config)
    requires Revoked(s, SID)
    ensures Inert(s, Step(s, e, cfg))
  {
    match e
    case OnSession(x) => SessionStepInert(s, x);
    case OnMap(x) => MapStepInert(s, x, cfg);
    case OnJob(x) => JobFootprint(s, x, cfg);
    case OnFinish(x) => FinishStepInert(s, x, cfg);
  }

  lemma {:induction false} RunInert(s: State, es: seq<Event>, cfg: Config)
    requires Revoked(s, SID)
    ensures Inert(s, Run(s, es, cfg))
  {
    if es != [] {
      var front := es[..|es| - 1];
      RunInert(s, front, cfg);
      RevokedStaysRevoked(s, front, SID, cfg);
      StepInert(Run(s, front, cfg), es[|es| - 1], cfg);
      InertOnwards(s, Run(s, front, cfg), Run(s, es, cfg));
    }
  }

  /**
   A revoked identity never lives again, and from then on no late touch, commit, finish or admission
   has an effect: the session document is never written again, no map known by then is, nothing is
   admitted and nothing is linked.
   */
  lemma {:induction false} RevokedForever(es: seq<Event>, later: seq<Event>, cfg: Config)
    requires Revoked(Run(INITIAL, es, cfg), SID)
    ensures var s, t := Run(INITIAL, es, cfg), Run(Run(INITIAL, es, cfg), later, cfg);
            && Revoked(t, SID) && (t.session.Some? ==> t.session == s.session)
            && (forall m :: m in s.hist.versions && m in t.maps ==> m in s.maps && t.maps[m] == s.maps[m])
            && t.log.admitted == s.log.admitted && t.log.links == s.log.links
  {
    var s := Run(INITIAL, es, cfg);
    RevokedStaysRevoked(s, later, SID, cfg);
    RunInert(s, later, cfg);
  }

  // ----- Deleted maps -----------------------------------------------------------------------------

  /** A deleted map has no document, waits for no registration, and is listed as deleted if at all. */
  ghost predicate StaysBuried(s: State, m: MapId) {
    && (m in s.unregistered ==> m in s.hist.versions)
    && (s.session.Some? && m in s.session.value.mapIndex ==> m in s.hist.versions && m !in s.unregistered)
    && (m in s.maps ==> m in s.hist.versions)
    && (m in s.log.buried ==>
          && m in s.hist.versions && m !in s.maps && m !in s.unregistered
          && (s.session.Some? && m in s.session.value.mapIndex ==> s.session.value.mapIndex[m].None?))
  }

  lemma {:induction false} MapStepBuried(s: State, e: MapEvent, m: MapId, cfg: Config)
    requires StaysBuried(s, m)
    ensures StaysBuried(MapStep(s, e, cfg), m) && s.log.buried <= MapStep(s, e, cfg).log.buried
  {
  }

  lemma {:induction false} SessionStepBuried(s: State, e: SessionEvent, m: MapId)
    requires StaysBuried(s, m)
    ensures StaysBuried(SessionStep(s, e), m) && s.log.buried <= SessionStep(s, e).log.buried
  {
  }

  lemma {:induction false} FinishStepBuried(s: State, e: FinishEvent, m: MapId, cfg: Config)
    requires StaysBuried(s, m)
    ensures StaysBuried(FinishStep(s, e, cfg), m) && s.log.buried <= FinishStep(s, e, cfg).log.buried
  {
  }

  lemma {:induction false} StepBuried(s: State, e: Event, m: MapId, cfg: Config)
    requires StaysBuried(s, m)
    ensures StaysBuried(Step(s, e, cfg), m) && s.log.buried <= Step(s, e, cfg).log.buried
  {
    match e
    case OnSession(x) => SessionStepBuried(s, x, m);
    case OnMap(x) => MapStepBuried(s, x, m, cfg);
    case OnJob(x) => JobFootprint(s, x, cfg);
    case OnFinish(x) => FinishStepBuried(s, x, m, cfg);
  }

  lemma {:induction false} RunBuried(s: State, es: seq<Event>, m: MapId, cfg: Config)
    requires StaysBuried(s, m)
    ensures StaysBuried(Run(s, es, cfg), m) && s.log.buried <= Run(s, es, cfg).log.buried
  {
    if es != [] {
      RunBuried(s, es[..|es| - 1], m, cfg);
      StepBuried(Run(s, es[..|es| - 1], cfg), es[|es| - 1], m, cfg);
    }
  }

  /** A map deleted at some moment is never recreated and never listed as open again, by any run. */
  lemma {:induction false} DeletedForever(es: seq<Event>, later: seq<Event>, m: MapId, cfg: Config)
    requires m in Run(INITIAL, es, cfg).log.buried
    ensures var t := Run(Run(INITIAL, es, cfg), later, cfg);
            && m !in t.maps
            && (t.session.Some? && m in t.session.value.mapIndex ==> t.session.value.mapIndex[m].None?)
  {
    RunBuried(INITIAL, es, m, cfg);
    RunBuried(Run(INITIAL, es, cfg), later, m, cfg);
  }
}
