/**
 No lost updates: whatever the interleaving, the committed versions of a map form a serial history
 in which each version is its edit applied to the version just before it, and every version keeps
 the tree invariant.
 */
module ProtocolHistory {
  import opened Basics
  import opened ExplorationMap
  import opened MapEdits
  import opened MapLaws
  import opened Protocol

  /** Version i+1 is edit i applied to version i; revision numbers count the versions. */
  ghost predicate SerialVersions(versions: seq<MapDoc>, edits: seq<Edit>, limits: Limits) {
    && versions != [] && |edits| == |versions| - 1
    && (forall i :: 0 <= i < |versions| ==> versions[i].revision == i + 1)
    && (forall i {:trigger Applied(versions[i], edits[i], limits)} :: 0 <= i < |edits| ==>
        Applied(versions[i], edits[i], limits) == Accepted(versions[i + 1]))
  }

  ghost predicate AllGood(versions: seq<MapDoc>, limits: Limits) {
    forall i {:trigger Good(versions[i], limits)} :: 0 <= i < |versions| ==> Good(versions[i], limits)
  }

  ghost predicate SerialMap(s: State, m: MapId, cfg: Config) {
    && m in s.hist.versions && m in s.hist.edits
    && SerialVersions(s.hist.versions[m], s.hist.edits[m], cfg.limits)
    && AllGood(s.hist.versions[m], cfg.limits)
    && (m in s.maps ==> s.maps[m] == s.hist.versions[m][|s.hist.versions[m]| - 1])
  }

  /** A snapshot held by `_finish` is a version of its job's map on which the job is active. */
  ghost predicate SnapshotRead(s: State, j: JobId) {
    j in s.frames && s.frames[j].phase.Commit? ==>
      var m, snap := s.frames[j].job.mapId, s.frames[j].phase.snap;
      m in s.hist.versions && snap in s.hist.versions[m] && snap.active == Some(j)
  }

  ghost predicate Serial(s: State, cfg: Config) {
    && cfg.limits.Valid()
    && s.maps.Keys <= s.hist.versions.Keys
    && (forall m {:trigger SerialMap(s, m, cfg)} :: m in s.hist.versions ==> SerialMap(s, m, cfg))
    && (forall j {:trigger SnapshotRead(s, j)} :: j in s.frames ==> SnapshotRead(s, j))
  }

  /** A revision number names one version: a snapshot with the current number is the current document. */
  lemma {:induction false} RevisionDeterminesDocument(s: State, m: MapId, snap: MapDoc, cfg: Config)
    requires Serial(s, cfg) && m in s.maps && snap in s.hist.versions[m] && snap.revision == s.maps[m].revision
    ensures snap == s.maps[m]
  {
    assert SerialMap(s, m, cfg);
    var i :| 0 <= i < |s.hist.versions[m]| && s.hist.versions[m][i] == snap;
  }

  lemma {:induction false} Appended(versions: seq<MapDoc>, edits: seq<Edit>, d: MapDoc, e: Edit, limits: Limits)
    requires SerialVersions(versions, edits, limits) && AllGood(versions, limits)
    requires Applied(versions[|versions| - 1], e, limits) == Accepted(d)
    requires Legal(versions[|versions| - 1], e, limits)
    ensures SerialVersions(versions + [d], edits + [e], limits) && AllGood(versions + [d], limits)
  {
    var last := versions[|versions| - 1];
    AppliedGood(last, e, limits);
    AppliedIds(last, e, limits);
    var vs, es := versions + [d], edits + [e];
    forall i | 0 <= i < |es| ensures Applied(vs[i], es[i], limits) == Accepted(vs[i + 1]) {
      if i < |edits| {
        assert vs[i] == versions[i] && vs[i + 1] == versions[i + 1] && es[i] == edits[i];
      }
    }
  }

  lemma {:induction false} PushSerial(s: State, m: MapId, d: MapDoc, e: Edit, cfg: Config)
    requires Serial(s, cfg) && m in s.maps
    requires m in s.hist.edits && Applied(s.maps[m], e, cfg.limits) == Accepted(d) && Legal(s.maps[m], e, cfg.limits)
    ensures Serial(Push(s, m, d, e), cfg)
  {
    var p := Push(s, m, d, e);
    assert SerialMap(s, m, cfg);
    Appended(s.hist.versions[m], s.hist.edits[m], d, e, cfg.limits);
    forall x | x in p.hist.versions ensures SerialMap(p, x, cfg) {
      assert SerialMap(s, x, cfg);
    }
    forall j | j in p.frames ensures SnapshotRead(p, j) {
      assert SnapshotRead(s, j);
    }
  }

  /** Steps that touch neither maps nor versions, and put no new snapshot in a frame. */
  lemma {:induction false} SerialFrame(s: State, t: State, cfg: Config)
    requires Serial(s, cfg)
    requires t.hist == s.hist
    requires forall m :: m in t.maps ==> m in s.maps && t.maps[m] == s.maps[m]
    requires forall j :: j in t.frames && t.frames[j].phase.Commit? ==> j in s.frames && t.frames[j] == s.frames[j]
    ensures Serial(t, cfg)
  {
    forall x | x in t.hist.versions ensures SerialMap(t, x, cfg) {
      assert SerialMap(s, x, cfg);
    }
    forall j | j in t.frames ensures SnapshotRead(t, j) {
      if j in s.frames { assert SnapshotRead(s, j); }
    }
  }

  lemma {:induction false} PutMapSerial(s: State, m: MapId, root: Option<Item>, found: Found, cfg: Config)
    requires Serial(s, cfg)
    ensures Serial(DoPutMap(s, m, root, found), cfg)
  {
    var t := DoPutMap(s, m, root, found);
    if m !in s.hist.versions && (root.Some? ==> FirstSelection(root.value, found.items)) {
      CreatedGood(root, found, cfg.limits);
      forall x | x in t.hist.versions ensures SerialMap(t, x, cfg) {
        if x != m { assert SerialMap(s, x, cfg); }
      }
      forall j | j in t.frames ensures SnapshotRead(t, j) {
        assert SnapshotRead(s, j);
      }
    }
  }

  lemma {:induction false} CommitMapSerial(s: State, m: MapId, read: nat, e: Edit, cfg: Config)
    requires Serial(s, cfg)
    ensures Serial(DoCommitMap(s, m, read, e, cfg), cfg)
  {
    var t := DoCommitMap(s, m, read, e, cfg);
    if t != s {
      RevisionDeterminesDocument(s, m, s.hist.versions[m][read], cfg);
      PushSerial(s, m, Applied(s.maps[m], e, cfg.limits).doc, e, cfg);
    }
  }

  lemma {:induction false} AdmitSerial(s: State, k: Key, hash: Hash, m: MapId, read: nat, j: JobId, ids: seq<NewsId>,
      epoch: Epoch, cfg: Config)
    requires Serial(s, cfg)
    ensures Serial(DoAdmit(s, k, hash, m, read, j, ids, epoch, cfg), cfg)
  {
    var t := DoAdmit(s, k, hash, m, read, j, ids, epoch, cfg);
    if t != s {
      RevisionDeterminesDocument(s, m, s.hist.versions[m][read], cfg);
      var d := Applied(s.maps[m], Reserve(j, ids), cfg.limits).doc;
      PushSerial(s, m, d, Reserve(j, ids), cfg);
      SerialFrame(Push(s, m, d, Reserve(j, ids)), t, cfg);
    }
  }

  lemma {:induction false} FrameSerial(s: State, j: JobId, f: Frame, cfg: Config)
    requires Serial(s, cfg)
    requires f.phase.Commit? ==> IsActive(s, j, f.job.mapId) && f.phase.snap == s.maps[f.job.mapId]
    ensures Serial(WithFrame(s, j, f), cfg)
  {
    var t, m := WithFrame(s, j, f), f.job.mapId;
    if m in s.maps { assert SerialMap(s, m, cfg); }
    forall x | x in t.hist.versions ensures SerialMap(t, x, cfg) {
      assert SerialMap(s, x, cfg);
    }
    forall i | i in t.frames ensures SnapshotRead(t, i) {
      if i != j { assert SnapshotRead(s, i); }
    }
  }

  lemma {:induction false} DropSerial(s: State, j: JobId, cfg: Config)
    requires Serial(s, cfg)
    ensures Serial(WithoutFrame(s, j), cfg)
  {
    SerialFrame(s, WithoutFrame(s, j), cfg);
  }

  lemma {:induction false} FinishFetchSerial(s: State, j: JobId, cfg: Config)
    requires Serial(s, cfg)
    ensures Serial(DoFinishFetch(s, j), cfg)
  {
    if Fetching(s, j) {
      var f := s.frames[j];
      if f.tries == 0 {
        DropSerial(s, j, cfg);
      } else if !IsActive(s, j, f.job.mapId) {
        FrameSerial(s, j, Unlinked(f), cfg);
      } else {
        FrameSerial(s, j, Holding(f, s.maps[f.job.mapId]), cfg);
      }
    }
  }

  lemma {:induction false} FinishCommitSerial(s: State, j: JobId, cfg: Config)
    requires Serial(s, cfg)
    ensures Serial(DoFinishCommit(s, j, cfg), cfg)
  {
    if Holds(s, j) {
      match Judged(s, j)
      case Gone => FrameSerial(s, j, Dropped(s.frames[j]), cfg);
      case Lost => DropSerial(s, j, cfg);
      case Moved => FrameSerial(s, j, Retrying(s.frames[j]), cfg);
      case Ready => LinkingSerial(s, j, cfg);
    }
  }

  lemma {:induction false} LinkingSerial(s: State, j: JobId, cfg: Config)
    requires Serial(s, cfg) && Holds(s, j) && Judged(s, j).Ready?
    ensures Serial(Linking(s, j, cfg), cfg)
  {
    var f := s.frames[j];
    var m, release := f.job.mapId, Release(LinkedResult(f));
    assert SnapshotRead(s, j) && SerialMap(s, m, cfg);
    RevisionDeterminesDocument(s, m, f.phase.snap, cfg);
    var d := Applied(s.maps[m], release, cfg.limits).doc;
    PushSerial(s, m, d, release, cfg);
    SerialFrame(Push(s, m, d, release), Linking(s, j, cfg), cfg);
  }

  lemma {:induction false} IndexStepSerial(s: State, m: MapId, expires: Time, cfg: Config)
    requires Serial(s, cfg)
    ensures Serial(DoRegister(s, m, expires), cfg) && Serial(DoBury(s, m), cfg)
  {
    IndexFootprint(s, m, expires);
    SerialFrame(s, DoRegister(s, m, expires), cfg);
    SerialFrame(s, DoBury(s, m), cfg);
  }

  lemma {:induction false} SessionStepSerial(s: State, e: SessionEvent, cfg: Config)
    requires Serial(s, cfg)
    ensures Serial(SessionStep(s, e), cfg)
  {
    SessionFootprint(s, e);
    SerialFrame(s, SessionStep(s, e), cfg);
  }

  lemma {:induction false} JobStepSerial(s: State, e: JobEvent, cfg: Config)
    requires Serial(s, cfg)
    ensures Serial(JobStep(s, e, cfg), cfg)
  {
    JobFootprint(s, e, cfg);
    SerialFrame(s, JobStep(s, e, cfg), cfg);
  }

  lemma {:induction false} MapStepSerial(s: State, e: MapEvent, cfg: Config)
    requires Serial(s, cfg)
    ensures Serial(MapStep(s, e, cfg), cfg)
  {
    match e
    case PutMap(m, root, found) => PutMapSerial(s, m, root, found, cfg);
    case Register(m, expires) => IndexStepSerial(s, m, expires, cfg);
    case Bury(m) => IndexStepSerial(s, m, 0, cfg);
    case CommitMap(m, read, edit) => CommitMapSerial(s, m, read, edit, cfg);
    case Admit(k, hash, m, read, j, ids, epoch) => AdmitSerial(s, k, hash, m, read, j, ids, epoch, cfg);
  }

  lemma {:induction false} FinishStepSerial(s: State, e: FinishEvent, cfg: Config)
    requires Serial(s, cfg)
    ensures Serial(FinishStep(s, e, cfg), cfg)
  {
    match e
    case FinishBegin(j, token, status, result) => SerialFrame(s, DoFinishBegin(s, j, token, status, result), cfg);
    case FinishFetch(j) => FinishFetchSerial(s, j, cfg);
    case FinishCommit(j) => FinishCommitSerial(s, j, cfg);
    case FinishStore(j) => SerialFrame(s, DoFinishStore(s, j), cfg);
    case FinishCrash(j) => DropSerial(s, j, cfg);
  }

  lemma {:induction false} SerialStep(s: State, e: Event, cfg: Config)
    requires Serial(s, cfg)
    ensures Serial(Step(s, e, cfg), cfg)
  {
    match e
    case OnSession(x) => SessionStepSerial(s, x, cfg);
    case OnMap(x) => MapStepSerial(s, x, cfg);
    case OnJob(x) => JobStepSerial(s, x, cfg);
    case OnFinish(x) => FinishStepSerial(s, x, cfg);
  }

  /** Every run has a serial history. */
  lemma {:induction false} NoLostUpdates(es: seq<Event>, cfg: Config)
    requires cfg.limits.Valid()
    ensures Serial(Run(INITIAL, es, cfg), cfg)
  {
    if es != [] {
      NoLostUpdates(es[..|es| - 1], cfg);
      SerialStep(Run(INITIAL, es[..|es| - 1], cfg), es[|es| - 1], cfg);
    }
  }

  /** A step extends the history of a map by at most one version and never rewrites it. */
  ghost predicate Extends(s: State, t: State, m: MapId) {
    m in s.hist.versions && m in s.hist.edits ==>
      && m in t.hist.versions && m in t.hist.edits
      && s.hist.versions[m] <= t.hist.versions[m] && |t.hist.versions[m]| <= |s.hist.versions[m]| + 1
      && s.hist.edits[m] <= t.hist.edits[m]
  }

  lemma {:induction false} StepExtends(s: State, e: Event, m: MapId, cfg: Config)
    ensures Extends(s, Step(s, e, cfg), m)
  {
    match e
    case OnSession(x) => SessionFootprint(s, x);
    case OnMap(x) => MapStepExtends(s, x, m, cfg);
    case OnJob(x) => JobFootprint(s, x, cfg);
    case OnFinish(x) =>
  }

  lemma {:induction false} MapStepExtends(s: State, e: MapEvent, m: MapId, cfg: Config)
    ensures Extends(s, MapStep(s, e, cfg), m)
  {
  }

  lemma {:induction false} OneMoreVersion(s: State, t: State, m: MapId, cfg: Config)
    requires Serial(s, cfg) && Serial(t, cfg) && Extends(s, t, m)
    requires m in s.maps && m in t.maps && t.maps[m] != s.maps[m]
    ensures m in t.hist.edits && t.hist.edits[m] != []
    ensures Applied(s.maps[m], t.hist.edits[m][|t.hist.edits[m]| - 1], cfg.limits) == Accepted(t.maps[m])
    ensures t.maps[m].revision == s.maps[m].revision + 1 && Good(t.maps[m], cfg.limits)
  {
    assert SerialMap(s, m, cfg) && SerialMap(t, m, cfg);
    var k := |s.hist.versions[m]| - 1;
    assert t.hist.versions[m][k] == s.hist.versions[m][k];
    assert |t.hist.versions[m]| == k + 2;
    assert Applied(t.hist.versions[m][k], t.hist.edits[m][k], cfg.limits) == Accepted(t.hist.versions[m][k + 1]);
    assert Good(t.hist.versions[m][k + 1], cfg.limits);
  }

  /**
   The same, read off one commit: whatever version the committer had read, and whoever committed in
   between, the stored document is its edit applied to the document it replaced, one revision on.
   */
  lemma {:induction false} CommitIsSerial(es: seq<Event>, e: Event, m: MapId, cfg: Config)
    requires cfg.limits.Valid()
    requires var s := Run(INITIAL, es, cfg);
             m in s.maps && m in Step(s, e, cfg).maps && Step(s, e, cfg).maps[m] != s.maps[m]
    ensures var s := Run(INITIAL, es, cfg);
            var t := Step(s, e, cfg);
            && m in t.hist.edits && t.hist.edits[m] != []
            && Applied(s.maps[m], t.hist.edits[m][|t.hist.edits[m]| - 1], cfg.limits) == Accepted(t.maps[m])
            && t.maps[m].revision == s.maps[m].revision + 1
            && Good(t.maps[m], cfg.limits)
  {
    var s := Run(INITIAL, es, cfg);
    NoLostUpdates(es, cfg);
    SerialStep(s, e, cfg);
    StepExtends(s, e, m, cfg);
    OneMoreVersion(s, Step(s, e, cfg), m, cfg);
  }
}
