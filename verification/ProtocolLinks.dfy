/**
 Link safety: a job active on a map was admitted for that map with exactly the articles selected
 there; a result appears on a map only when its active job links it, in the commit that clears the
 job; and each job links at most once.
 */
module ProtocolLinks {
  import opened Basics
  import opened ExplorationMap
  import opened MapEdits
  import opened TreeLaws
  import opened Protocol
  import opened ProtocolHistory
  import opened ProtocolJobs

  /** The active job was admitted for this map and requested exactly the selected articles. */
  ghost predicate RightlyActive(log: Log, m: MapId, doc: MapDoc) {
    doc.active.Some? ==>
      var j := doc.active.value;
      && j in log.admitted && log.admitted[j].mapId == m
      && Elements(log.admitted[j].ids) == Elements(doc.selected)
  }

  ghost predicate VersionsRightlyActive(s: State, m: MapId) {
    m in s.hist.versions ==>
      forall i :: 0 <= i < |s.hist.versions[m]| ==> RightlyActive(s.log, m, s.hist.versions[m][i])
  }

  /** The version that carries the link: its predecessor had the job active, and no later one has. */
  ghost predicate LinkedByActiveJob(s: State, l: Link) {
    && l.job in s.log.admitted && l.mapId in s.hist.versions
    && var vs := s.hist.versions[l.mapId];
       && 0 < l.version < |vs|
       && vs[l.version - 1].active == Some(l.job)
       && vs[l.version].active.None? && vs[l.version].lastResult == Some(l.result)
       && Elements(vs[l.version].selected) == Elements(s.log.admitted[l.job].ids)
       && forall i :: l.version <= i < |vs| ==> vs[i].active != Some(l.job)
  }

  /** Version i of map m carries a result that version i - 1 did not. */
  predicate NewResult(vs: seq<MapDoc>, i: nat)
    requires 0 < i < |vs|
  {
    vs[i].lastResult.Some? && vs[i].lastResult != vs[i - 1].lastResult
  }

  ghost predicate HasLink(links: seq<Link>, m: MapId, i: nat, r: ReportLink) {
    exists l :: l in links && l.mapId == m && l.version == i && l.result == r
  }

  ghost predicate ResultsAreLinks(s: State, m: MapId) {
    m in s.hist.versions ==>
      forall i {:trigger NewResult(s.hist.versions[m], i)} ::
        0 < i < |s.hist.versions[m]| && NewResult(s.hist.versions[m], i) ==>
        HasLink(s.log.links, m, i, s.hist.versions[m][i].lastResult.value)
  }

  ghost predicate OneLinkPerJob(links: seq<Link>) {
    forall a, b :: 0 <= a < b < |links| ==> links[a].job != links[b].job
  }

  ghost predicate LinkSafe(s: State) {
    && (forall m {:trigger VersionsRightlyActive(s, m)} :: VersionsRightlyActive(s, m))
    && (forall m {:trigger ResultsAreLinks(s, m)} :: ResultsAreLinks(s, m))
    && (forall l {:trigger LinkedByActiveJob(s, l)} :: l in s.log.links ==> LinkedByActiveJob(s, l))
    && OneLinkPerJob(s.log.links)
  }

  // ----- Edits ------------------------------------------------------------------------------------

  /** An edit other than an admission keeps a job only together with the set of selected articles. */
  lemma {:induction false} EditKeepsSelection(doc: MapDoc, e: Edit, limits: Limits)
    requires Applied(doc, e, limits).Accepted?
    ensures var d := Applied(doc, e, limits).doc;
            && (e.Reserve? ==> d.active == Some(e.job) && d.selected == e.ids)
            && (!e.Reserve? && d.active.Some? ==>
                d.active == doc.active && Elements(d.selected) == Elements(doc.selected))
            && (d.lastResult.Some? && d.lastResult != doc.lastResult ==> e == Release(d.lastResult))
            && (e.Release? ==>
                && d.active.None? && d.selected == doc.selected
                && (e.result.Some? ==> d.lastResult == e.result))
  {
    match e
    case Patch(plan, selected, detail, panel) =>
    case Grow(parent, mode, found) =>
    case Restore =>
    case Detach =>
    case Reserve(job, ids) =>
    case Release(result) =>
  }

  // ----- Steps that commit no version ---------------------------------------------------------------

  /** Only the history, the admissions and the links matter. */
  lemma {:induction false} SameHistoryIsSafe(s: State, t: State)
    requires LinkSafe(s)
    requires t.hist == s.hist && t.log.links == s.log.links
    requires forall j :: j in s.log.admitted ==> j in t.log.admitted && t.log.admitted[j] == s.log.admitted[j]
    ensures LinkSafe(t)
  {
    forall m ensures VersionsRightlyActive(t, m) && ResultsAreLinks(t, m) {
      assert VersionsRightlyActive(s, m) && ResultsAreLinks(s, m);
    }
    forall l | l in t.log.links ensures LinkedByActiveJob(t, l) {
      assert LinkedByActiveJob(s, l);
    }
  }

  lemma {:induction false} PutMapSafe(s: State, m: MapId, root: Option<Item>, found: Found, cfg: Config)
    requires LinkSafe(s)
    ensures LinkSafe(DoPutMap(s, m, root, found))
  {
    var t := DoPutMap(s, m, root, found);
    forall x ensures VersionsRightlyActive(t, x) && ResultsAreLinks(t, x) {
      assert VersionsRightlyActive(s, x) && ResultsAreLinks(s, x);
    }
    forall l | l in t.log.links ensures LinkedByActiveJob(t, l) {
      assert LinkedByActiveJob(s, l);
    }
  }

  // ----- Commits ----------------------------------------------------------------------------------

  /** The version a commit adds, given what it was made from. */
  ghost predicate SafeCommit(s: State, m: MapId, d: MapDoc, e: Edit, log: Log) {
    && m in s.hist.versions && m in s.hist.edits && s.hist.versions[m] != []
    && RightlyActive(log, m, d)
    && (forall j :: j in s.log.admitted ==> j in log.admitted && log.admitted[j] == s.log.admitted[j])
    && (forall l :: l in s.log.links && l.mapId == m ==> d.active != Some(l.job))
    && s.log.links <= log.links
  }

  lemma {:induction false} CommitKeepsResults(s: State, t: State, m: MapId, d: MapDoc, e: Edit, x: MapId)
    requires SafeCommit(s, m, d, e, t.log) && t.hist == Push(s, m, d, e).hist
    requires ResultsAreLinks(s, x)
    requires var n := |s.hist.versions[m]|;
             d.lastResult.Some? && d.lastResult != s.hist.versions[m][n - 1].lastResult ==>
               HasLink(t.log.links, m, n, d.lastResult.value)
    ensures ResultsAreLinks(t, x)
  {
    if x in t.hist.versions {
      var ws := t.hist.versions[x];
      forall i | 0 < i < |ws| && NewResult(ws, i) ensures HasLink(t.log.links, x, i, ws[i].lastResult.value) {
        if x in s.hist.versions && i < |s.hist.versions[x]| {
          var vs := s.hist.versions[x];
          assert ws[i] == vs[i] && ws[i - 1] == vs[i - 1];
          assert NewResult(vs, i);
        }
      }
    }
  }

  /** A commit that makes no link. */
  lemma {:induction false} CommitSafe(s: State, t: State, m: MapId, d: MapDoc, e: Edit)
    requires LinkSafe(s) && SafeCommit(s, m, d, e, t.log) && t.hist == Push(s, m, d, e).hist
    requires t.log.links == s.log.links
    requires d.lastResult.Some? ==> d.lastResult == s.hist.versions[m][|s.hist.versions[m]| - 1].lastResult
    ensures LinkSafe(t)
  {
    forall x ensures VersionsRightlyActive(t, x) && ResultsAreLinks(t, x) {
      assert VersionsRightlyActive(s, x) && ResultsAreLinks(s, x);
      CommitKeepsResults(s, t, m, d, e, x);
    }
    forall l | l in t.log.links ensures LinkedByActiveJob(t, l) {
      assert LinkedByActiveJob(s, l);
    }
  }

  /** No job that has linked on a map is active on its current document. */
  lemma {:induction false} LinkedIsInactive(s: State, m: MapId, l: Link, cfg: Config)
    requires LinkSafe(s) && Serial(s, cfg) && m in s.maps && l in s.log.links && l.mapId == m
    ensures s.maps[m].active != Some(l.job)
  {
    assert LinkedByActiveJob(s, l) && SerialMap(s, m, cfg);
  }

  lemma {:induction false} RequestCommitSafe(s: State, m: MapId, e: Edit, cfg: Config)
    requires LinkSafe(s) && Serial(s, cfg) && m in s.maps && m in s.hist.edits
    requires Applied(s.maps[m], e, cfg.limits).Accepted? && RequestEdit(e)
    ensures LinkSafe(Push(s, m, Applied(s.maps[m], e, cfg.limits).doc, e))
  {
    var d := Applied(s.maps[m], e, cfg.limits).doc;
    assert SerialMap(s, m, cfg) && VersionsRightlyActive(s, m);
    EditKeepsSelection(s.maps[m], e, cfg.limits);
    forall l | l in s.log.links && l.mapId == m ensures d.active != Some(l.job) {
      LinkedIsInactive(s, m, l, cfg);
    }
    assert RightlyActive(s.log, m, s.maps[m]);
    CommitSafe(s, Push(s, m, d, e), m, d, e);
  }

  lemma {:induction false} CommitMapSafe(s: State, m: MapId, read: nat, e: Edit, cfg: Config)
    requires LinkSafe(s) && Serial(s, cfg)
    ensures LinkSafe(DoCommitMap(s, m, read, e, cfg))
  {
    if DoCommitMap(s, m, read, e, cfg) != s {
      RevisionDeterminesDocument(s, m, s.hist.versions[m][read], cfg);
      RequestCommitSafe(s, m, e, cfg);
    }
  }

  lemma {:induction false} AdmitSafe(s: State, k: Key, hash: Hash, m: MapId, read: nat, j: JobId, ids: seq<NewsId>,
      epoch: Epoch, cfg: Config)
    requires LinkSafe(s) && Serial(s, cfg)
    ensures LinkSafe(DoAdmit(s, k, hash, m, read, j, ids, epoch, cfg))
  {
    var t := DoAdmit(s, k, hash, m, read, j, ids, epoch, cfg);
    if t != s {
      RevisionDeterminesDocument(s, m, s.hist.versions[m][read], cfg);
      assert SerialMap(s, m, cfg);
      var e := Reserve(j, ids);
      var d := Applied(s.maps[m], e, cfg.limits).doc;
      EditKeepsSelection(s.maps[m], e, cfg.limits);
      forall l | l in s.log.links && l.mapId == m ensures d.active != Some(l.job) {
        assert LinkedByActiveJob(s, l);
      }
      CommitSafe(s, t, m, d, e);
    }
  }

  // ----- _finish ----------------------------------------------------------------------------------

  /** The commit of `_finish`: the job was active, so it has not linked before. */
  lemma {:induction false} FirstLink(s: State, m: MapId, j: JobId, l: Link, cfg: Config)
    requires LinkSafe(s) && Serial(s, cfg) && m in s.maps && s.maps[m].active == Some(j)
    requires l in s.log.links
    ensures l.job != j
  {
    assert LinkedByActiveJob(s, l) && SerialMap(s, m, cfg);
    assert VersionsRightlyActive(s, m) && VersionsRightlyActive(s, l.mapId);
    var vs := s.hist.versions[l.mapId];
    assert RightlyActive(s.log, l.mapId, vs[l.version - 1]);
    assert RightlyActive(s.log, m, s.hist.versions[m][|s.hist.versions[m]| - 1]);
  }

  lemma {:induction false} NewLinkSafe(s: State, t: State, m: MapId, d: MapDoc, e: Edit, l: Link, cfg: Config)
    requires LinkSafe(s) && Serial(s, cfg) && m in s.maps && SafeCommit(s, m, d, e, t.log)
    requires t.hist == Push(s, m, d, e).hist && t.log.links == s.log.links + [l]
    requires l.mapId == m && l.version == |s.hist.versions[m]| && s.maps[m].active == Some(l.job)
    requires d.active.None? && d.lastResult == Some(l.result) && d.selected == s.maps[m].selected
    ensures LinkSafe(t)
  {
    assert SerialMap(s, m, cfg) && VersionsRightlyActive(s, m);
    assert RightlyActive(s.log, m, s.maps[m]);
    assert l in t.log.links;
    forall x ensures VersionsRightlyActive(t, x) && ResultsAreLinks(t, x) {
      assert VersionsRightlyActive(s, x) && ResultsAreLinks(s, x);
      CommitKeepsResults(s, t, m, d, e, x);
    }
    forall o | o in t.log.links ensures LinkedByActiveJob(t, o) {
      if o in s.log.links {
        assert LinkedByActiveJob(s, o);
      }
    }
    forall a | 0 <= a < |s.log.links| ensures s.log.links[a].job != l.job {
      FirstLink(s, m, l.job, s.log.links[a], cfg);
    }
  }

  lemma {:induction false} LinkingSafe(s: State, j: JobId, cfg: Config)
    requires LinkSafe(s) && Serial(s, cfg) && Owned(s, cfg) && Holds(s, j) && Judged(s, j).Ready?
    ensures LinkSafe(Linking(s, j, cfg))
  {
    var f, t := s.frames[j], Linking(s, j, cfg);
    var m, e := f.job.mapId, Release(LinkedResult(f));
    assert SnapshotRead(s, j) && SerialMap(s, m, cfg) && OneOwner(s, j, cfg);
    RevisionDeterminesDocument(s, m, f.phase.snap, cfg);
    var d := Applied(s.maps[m], e, cfg.limits).doc;
    EditKeepsSelection(s.maps[m], e, cfg.limits);
    if f.status.Completed? {
      NewLinkSafe(s, t, m, d, e, Link(j, m, |s.hist.versions[m]|, f.result.value), cfg);
    } else {
      CommitSafe(s, t, m, d, e);
    }
  }

  lemma {:induction false} MapStepSafe(s: State, e: MapEvent, cfg: Config)
    requires LinkSafe(s) && Serial(s, cfg)
    ensures LinkSafe(MapStep(s, e, cfg))
  {
    match e
    case PutMap(m, root, found) => PutMapSafe(s, m, root, found, cfg);
    case Register(m, expires) => IndexFootprint(s, m, expires); SameHistoryIsSafe(s, DoRegister(s, m, expires));
    case Bury(m) => IndexFootprint(s, m, 0); SameHistoryIsSafe(s, DoBury(s, m));
    case CommitMap(m, read, edit) => CommitMapSafe(s, m, read, edit, cfg);
    case Admit(k, hash, m, read, j, ids, epoch) => AdmitSafe(s, k, hash, m, read, j, ids, epoch, cfg);
  }

  lemma {:induction false} FinishCommitSafe(s: State, j: JobId, cfg: Config)
    requires LinkSafe(s) && Serial(s, cfg) && Owned(s, cfg)
    ensures LinkSafe(DoFinishCommit(s, j, cfg))
  {
    if Holds(s, j) {
      match Judged(s, j)
      case Gone => SameHistoryIsSafe(s, WithFrame(s, j, Dropped(s.frames[j])));
      case Lost => SameHistoryIsSafe(s, WithoutFrame(s, j));
      case Moved => SameHistoryIsSafe(s, WithFrame(s, j, Retrying(s.frames[j])));
      case Ready => LinkingSafe(s, j, cfg);
    }
  }

  lemma {:induction false} FinishStepSafe(s: State, e: FinishEvent, cfg: Config)
    requires LinkSafe(s) && Serial(s, cfg) && Owned(s, cfg)
    ensures LinkSafe(FinishStep(s, e, cfg))
  {
    match e
    case FinishCommit(j) => FinishCommitSafe(s, j, cfg);
    case FinishBegin(j, token, status, result) => SameHistoryIsSafe(s, DoFinishBegin(s, j, token, status, result));
    case FinishFetch(j) => SameHistoryIsSafe(s, DoFinishFetch(s, j));
    case FinishStore(j) => SameHistoryIsSafe(s, DoFinishStore(s, j));
    case FinishCrash(j) => SameHistoryIsSafe(s, WithoutFrame(s, j));
  }

  lemma {:induction false} LinkSafeStep(s: State, e: Event, cfg: Config)
    requires LinkSafe(s) && Serial(s, cfg) && Owned(s, cfg)
    ensures LinkSafe(Step(s, e, cfg))
  {
    match e
    case OnSession(x) => SessionFootprint(s, x); SameHistoryIsSafe(s, SessionStep(s, x));
    case OnMap(x) => MapStepSafe(s, x, cfg);
    case OnJob(x) => JobFootprint(s, x, cfg); SameHistoryIsSafe(s, JobStep(s, x, cfg));
    case OnFinish(x) => FinishStepSafe(s, x, cfg);
  }

  lemma {:induction false} AlwaysLinkSafe(es: seq<Event>, cfg: Config)
    requires cfg.limits.Valid()
    ensures LinkSafe(Run(INITIAL, es, cfg))
  {
    if es != [] {
      var front := es[..|es| - 1];
      AlwaysLinkSafe(front, cfg);
      NoLostUpdates(front, cfg);
      AlwaysOwned(front, cfg);
      LinkSafeStep(Run(INITIAL, front, cfg), es[|es| - 1], cfg);
    }
  }

  /** At every moment of every run, the active job of a map requested exactly the selected articles. */
  lemma {:induction false} ActiveJobMatchesSelection(es: seq<Event>, m: MapId, j: JobId, cfg: Config)
    requires cfg.limits.Valid()
    requires var s := Run(INITIAL, es, cfg); m in s.maps && s.maps[m].active == Some(j)
    ensures var s := Run(INITIAL, es, cfg);
            && j in s.log.admitted && s.log.admitted[j].mapId == m
            && Elements(s.log.admitted[j].ids) == Elements(s.maps[m].selected)
  {
    var s := Run(INITIAL, es, cfg);
    AlwaysLinkSafe(es, cfg);
    NoLostUpdates(es, cfg);
    assert SerialMap(s, m, cfg) && VersionsRightlyActive(s, m);
    assert RightlyActive(s.log, m, s.hist.versions[m][|s.hist.versions[m]| - 1]);
  }

  /**
   Every new result in the history of every map was written by the job active on the version before,
   which was admitted for exactly the articles selected then, in the commit that cleared it; and two
   links never come from one job.
   */
  lemma {:induction false} ResultsComeFromActiveJobs(es: seq<Event>, m: MapId, i: nat, cfg: Config)
    requires cfg.limits.Valid()
    requires var s := Run(INITIAL, es, cfg);
             m in s.hist.versions && 0 < i < |s.hist.versions[m]| && NewResult(s.hist.versions[m], i)
    ensures var s := Run(INITIAL, es, cfg);
            var before, after := s.hist.versions[m][i - 1], s.hist.versions[m][i];
            && before.active.Some? && after.active.None?
            && before.active.value in s.log.admitted && s.log.admitted[before.active.value].mapId == m
            && Elements(s.log.admitted[before.active.value].ids) == Elements(after.selected)
            && Link(before.active.value, m, i, after.lastResult.value) in s.log.links
            && OneLinkPerJob(s.log.links)
  {
    var s := Run(INITIAL, es, cfg);
    AlwaysLinkSafe(es, cfg);
    assert ResultsAreLinks(s, m) && VersionsRightlyActive(s, m);
    var l :| l in s.log.links && l.mapId == m && l.version == i && l.result == s.hist.versions[m][i].lastResult.value;
    assert LinkedByActiveJob(s, l);
    assert RightlyActive(s.log, m, s.hist.versions[m][i - 1]);
  }
}
