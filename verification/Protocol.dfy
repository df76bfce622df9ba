/**
 The report-job and map protocol of one session: every Lua script and every section under a named
 mutex is one atomic step on the shared documents (app/v2/reports.py, app/v2/state.py,
 app/api/v2/report_jobs.py, app/session.py).

 API requests, duplicate deliveries, heartbeats, cancellations, crashes, key expiry and the clock
 are events; a run is any sequence of them. A request that read a map earlier may commit on any
 version the map ever had, so every interleaving of arbitrarily many requests with stale snapshots
 is a run. `_finish` holds the job's mutex over several steps, while map commits by others go on;
 the other sections under that mutex wait for it. Neither the map mutex nor the idempotency mutex
 is assumed: the properties do not need them.
 */
module Protocol {
  import opened Basics
  import opened ExplorationMap
  import opened MapEdits
  import opened MapLaws

  type MapId = nat
  type Token = nat
  type Key = nat
  type Hash = nat
  type Epoch = nat
  type Sid = nat
  type Time = int

  /** The session whose documents are modelled, among all identities. */
  const SID: Sid := 0

  const LEASE: Time := 60
  const FINISH_TRIES: nat := 10
  const MAX_ARTICLES: nat := 10

  datatype Config = Config(limits: Limits, maxAttempts: nat, jobTimeout: nat)

  datatype Status = Queued | Running | CancelRequested | Cancelled | Completed | Failed

  predicate Terminal(s: Status) {
    s.Completed? || s.Failed? || s.Cancelled?
  }

  predicate Cancelling(s: Status) {
    s.CancelRequested? || s.Cancelled?
  }

  datatype Job = Job(mapId: MapId, ids: seq<NewsId>, epoch: Epoch, status: Status, token: Option<Token>, lease: Time,
                     attempts: Option<nat>, retries: nat, result: Option<ReportLink>, deadline: Time, published: bool)

  datatype Replay = Replay(hash: Hash, job: JobId)

  /** The v2 session document; a deleted map keeps a null entry in the index. */
  datatype Session = Session(epoch: Epoch, expires: Time, mapIndex: map<MapId, Option<Time>>, jobIndex: set<JobId>)

  /** The identities that live, with their v1 payload, and every id that was ever drawn for one. */
  datatype Identities = Identities(live: map<Sid, nat>, issued: set<Sid>)

  /** Where a `_finish` call is: about to read the map, holding a snapshot, or about to store the job. */
  datatype Phase = Fetch | Commit(snap: MapDoc) | Store

  datatype Frame = Frame(job: Job, status: Status, result: Option<ReportLink>, tries: nat, phase: Phase)

  datatype Admission = Admission(mapId: MapId, ids: seq<NewsId>, key: Key, hash: Hash)

  /** A result linked by a job: the map's version number `version` is the first to carry it. */
  datatype Link = Link(job: JobId, mapId: MapId, version: nat, result: ReportLink)

  /** Every version of every map, and the edits that led from one to the next. */
  datatype Archive = Archive(versions: map<MapId, seq<MapDoc>>, edits: map<MapId, seq<Edit>>)

  /** The tokens that took a job over, oldest first, and how many of them started a pipeline. */
  datatype Owners = Owners(tokens: seq<Token>, starts: nat)

  /** What was ever admitted, claimed, linked and deleted, and which replay records expired. */
  datatype Log = Log(admitted: map<JobId, Admission>, owners: map<JobId, Owners>, links: seq<Link>,
                     buried: set<MapId>, lapsed: set<Key>)

  /** The shared documents, the job mutexes held, and what happened so far. */
  datatype State = State(
    now: Time, identities: Identities, session: Option<Session>,
    maps: map<MapId, MapDoc>, jobs: map<JobId, Job>, idem: map<Key, Replay>,
    frames: map<JobId, Frame>, unregistered: set<MapId>,
    hist: Archive, log: Log)
  {
    /** The identity behind the documents lives. */
    predicate Live() {
      SID in identities.live
    }
  }

  /** The clock, the identity, the session document, and keys that reach the end of their life. */
  datatype SessionEvent =
    | Tick(seconds: nat)
    | Issue(sid: Sid, payload: nat)
    | SaveIdentity(sid: Sid, payload: nat)
    | Revoke(sid: Sid)
    | OpenSession(epoch: Epoch, expires: Time)
    | Touch(expires: Time)
    | LapseSession
    | LapseMap(m: MapId)
    | LapseJob(j: JobId)
    | LapseKey(k: Key)

  datatype MapEvent =
    | PutMap(m: MapId, root: Option<Item>, found: Found)
    | Register(m: MapId, expires: Time)
    | Bury(m: MapId)
    | CommitMap(m: MapId, read: nat, e: Edit)
    | Admit(k: Key, hash: Hash, m: MapId, read: nat, j: JobId, ids: seq<NewsId>, epoch: Epoch)

  datatype JobEvent =
    | Claim(j: JobId, t: Token)
    | Update(j: JobId, t: Token, result: Option<ReportLink>)
    | RequestCancel(j: JobId)
    | Publish(j: JobId, delivered: bool)

  datatype FinishEvent =
    | FinishBegin(j: JobId, token: Option<Token>, status: Status, result: Option<ReportLink>)
    | FinishFetch(j: JobId)
    | FinishCommit(j: JobId)
    | FinishStore(j: JobId)
    | FinishCrash(j: JobId)

  datatype Event =
    | OnSession(session: SessionEvent)
    | OnMap(map_: MapEvent)
    | OnJob(job: JobEvent)
    | OnFinish(finish: FinishEvent)

  const INITIAL: State :=
    State(0, Identities(map[], {}), None, map[], map[], map[], map[], {}, Archive(map[], map[]),
      Log(map[], map[], [], {}, {}))

  function WithSession(s: State, doc: Session): State {
    s.(session := Some(doc))
  }

  function WithJob(s: State, j: JobId, job: Job): State {
    s.(jobs := s.jobs[j := job])
  }

  function WithFrame(s: State, j: JobId, f: Frame): State {
    s.(frames := s.frames[j := f])
  }

  function WithoutFrame(s: State, j: JobId): State {
    s.(frames := s.frames - {j})
  }

  // ----- Session and expiry ---------------------------------------------------------------------

  /** issue and the creating branch of save: a new id is drawn, and only an id that does not live is written. */
  function DoIssue(s: State, sid: Sid, payload: nat): State {
    if sid in s.identities.issued || sid in s.identities.live then s
    else s.(identities := Identities(s.identities.live[sid := payload], s.identities.issued + {sid}))
  }

  /** The updating branch of save: only a live identity is written. */
  function DoSaveIdentity(s: State, sid: Sid, payload: nat): State {
    if sid !in s.identities.live then s
    else s.(identities := Identities(s.identities.live[sid := payload], s.identities.issued))
  }

  /** state.session and _SAVE_SESSION: only a live identity gets or keeps a session document. */
  function DoOpenSession(s: State, epoch: Epoch, expires: Time): State {
    if !s.Live() || s.session.Some? then s
    else WithSession(s, Session(epoch, expires, map[], {}))
  }

  /** Renews every live index entry; a null entry stays null. */
  function DoTouch(s: State, expires: Time): State {
    if !s.Live() || s.session.None? || s.session.value.expires <= s.now then s
    else
      WithSession(s, Renewed(s.session.value, expires))
  }

  function Renewed(doc: Session, expires: Time): Session {
    doc.(expires := expires,
         mapIndex := map m | m in doc.mapIndex :: if doc.mapIndex[m].None? then None else Some(expires))
  }

  function Indexed(doc: Session, m: MapId, entry: Option<Time>): Session {
    doc.(mapIndex := doc.mapIndex[m := entry])
  }

  function DoLapseKey(s: State, k: Key): State {
    if k !in s.idem then s
    else s.(idem := s.idem - {k},
            log := Log(s.log.admitted, s.log.owners, s.log.links, s.log.buried, s.log.lapsed + {k}))
  }

  // ----- Maps -------------------------------------------------------------------------------------

  /** A new version of a map: the document, its history and the edit that made it. */
  ghost function Push(s: State, m: MapId, d: MapDoc, e: Edit): State
    requires m in s.hist.versions && m in s.hist.edits
  {
    s.(maps := s.maps[m := d],
       hist := Archive(s.hist.versions[m := s.hist.versions[m] + [d]], s.hist.edits[m := s.hist.edits[m] + [e]]))
  }

  /** create_map stores the document under a fresh id before it registers the id. */
  ghost function DoPutMap(s: State, m: MapId, root: Option<Item>, found: Found): State {
    if m in s.hist.versions || (root.Some? && !FirstSelection(root.value, found.items)) then s
    else
      var d := Created(root, found);
      s.(maps := s.maps[m := d], unregistered := s.unregistered + {m},
         hist := Archive(s.hist.versions[m := [d]], s.hist.edits[m := []]))
  }

  function DoRegister(s: State, m: MapId, expires: Time): State {
    if m !in s.unregistered then s
    else
      s.(unregistered := s.unregistered - {m},
         session := if !s.Live() || s.session.None? then s.session
                    else Some(Indexed(s.session.value, m, Some(expires))))
  }

  /** _DELETE_MAP. */
  function DoBury(s: State, m: MapId): State {
    if !s.Live() || s.session.None? || m !in s.maps then s
    else
      var doc := s.session.value;
      if m !in doc.mapIndex || doc.mapIndex[m].None? then s
      else s.(session := Some(Indexed(doc, m, None)), maps := s.maps - {m},
              log := Log(s.log.admitted, s.log.owners, s.log.links, s.log.buried + {m}, s.log.lapsed))
  }

  /** What an earlier read of map m returned. */
  ghost predicate WasRead(s: State, m: MapId, read: nat) {
    m in s.hist.versions && m in s.hist.edits && read < |s.hist.versions[m]|
  }

  ghost predicate RequestEdit(e: Edit) {
    e.Patch? || e.Grow? || e.Restore? || e.Detach?
  }

  /** commit_map on an earlier read, through _CAS. */
  ghost function DoCommitMap(s: State, m: MapId, read: nat, e: Edit, cfg: Config): State {
    if !WasRead(s, m, read) || !RequestEdit(e) then s
    else
      var snap := s.hist.versions[m][read];
      var r := Applied(snap, e, cfg.limits);
      if r.Refused? || !Legal(snap, e, cfg.limits) then s
      else if !s.Live() || m !in s.maps || s.maps[m].revision != snap.revision then s
      else Push(s, m, r.doc, e)
  }

  // ----- Admission --------------------------------------------------------------------------------

  function NewJob(s: State, m: MapId, ids: seq<NewsId>, epoch: Epoch, cfg: Config): Job {
    Job(m, ids, epoch, Queued, None, 0, None, 0, None, s.now + cfg.jobTimeout, false)
  }

  /** What create_job checks before it reserves: a valid list, displayed on the map it read. */
  ghost predicate Requestable(ids: seq<NewsId>) {
    0 < |ids| <= MAX_ARTICLES && NoRepeats(ids)
  }

  /** _ADMIT: reservation, job, replay record and index entry in one script. */
  ghost function DoAdmit(s: State, k: Key, hash: Hash, m: MapId, read: nat, j: JobId, ids: seq<NewsId>, epoch: Epoch,
      cfg: Config): State
  {
    if !WasRead(s, m, read) || !Requestable(ids) || j in s.log.admitted then s
    else
      var snap := s.hist.versions[m][read];
      var r := Applied(snap, Reserve(j, ids), cfg.limits);
      if r.Refused? then s
      else if !s.Live() || s.session.None? || s.session.value.epoch != epoch then s
      else if m !in s.maps || s.maps[m].revision != snap.revision || k in s.idem then s
      else
        Enrolled(Push(s, m, r.doc, Reserve(j, ids)), k, hash, j, NewJob(s, m, ids, epoch, cfg), s.session.value)
  }

  /** The job, its replay record and its index entry, written together. */
  function Enrolled(s: State, k: Key, hash: Hash, j: JobId, job: Job, doc: Session): State {
    s.(jobs := s.jobs[j := job], idem := s.idem[k := Replay(hash, j)],
       session := Some(Session(doc.epoch, doc.expires, doc.mapIndex, doc.jobIndex + {j})),
       log := Log(s.log.admitted[j := Admission(job.mapId, job.ids, k, hash)], s.log.owners[j := Owners([], 0)],
                  s.log.links, s.log.buried, s.log.lapsed))
  }

  datatype Lookup = Unknown | Existing(job: JobId) | Conflict

  /** What create_job answers for a key before it validates anything else. */
  function Looked(s: State, k: Key, hash: Hash): Lookup {
    if k !in s.idem then Unknown
    else if s.idem[k].hash != hash then Conflict
    else Existing(s.idem[k].job)
  }

  // ----- Jobs -------------------------------------------------------------------------------------

  /** The mutex of job j is free and its document exists. */
  predicate Reachable(s: State, j: JobId) {
    j in s.jobs && j !in s.frames
  }

  /** Pipeline starts a job document accounts for; a legacy document counts its recoveries. */
  function StartsOf(job: Job): nat {
    if job.attempts.Some? then job.attempts.value
    else if job.token.Some? then 1 + job.retries
    else 0
  }

  predicate Busy(s: State, job: Job) {
    job.token.Some? && job.lease > s.now
  }

  /** A worker draws a fresh token. */
  predicate FreshToken(s: State, t: Token) {
    forall j :: j in s.log.owners ==> t !in s.log.owners[j].tokens
  }

  predicate CanClaim(s: State, j: JobId, t: Token) {
    && Reachable(s, j) && j in s.log.owners && FreshToken(s, t)
    && !Terminal(s.jobs[j].status) && !Busy(s, s.jobs[j])
  }

  /** The claim section of process_job. */
  function DoClaim(s: State, j: JobId, t: Token, cfg: Config): State {
    if !CanClaim(s, j, t) then s
    else Claimed(s, j, t, Taken(s, s.jobs[j], t, cfg), StartsOf(s.jobs[j]) < cfg.maxAttempts)
  }

  /** The job document as the new owner writes it; only a pipeline start is counted. */
  function Taken(s: State, job: Job, t: Token, cfg: Config): Job {
    var attempts := if StartsOf(job) >= cfg.maxAttempts then StartsOf(job) else StartsOf(job) + 1;
    Job(job.mapId, job.ids, job.epoch, if job.status.CancelRequested? then CancelRequested else Running, Some(t),
        s.now + LEASE, Some(attempts), Max(0, attempts - 1), job.result, job.deadline, job.published)
  }

  function Claimed(s: State, j: JobId, t: Token, job: Job, starting: bool): State
    requires j in s.log.owners
  {
    var o := s.log.owners[j];
    s.(jobs := s.jobs[j := job],
       log := Log(s.log.admitted, s.log.owners[j := Owners(o.tokens + [t], o.starts + if starting then 1 else 0)],
                  s.log.links, s.log.buried, s.log.lapsed))
  }

  /** _update, which the heartbeat and every stage of the pipeline use. */
  function DoUpdate(s: State, j: JobId, t: Token, result: Option<ReportLink>): State {
    if !Reachable(s, j) || s.jobs[j].token != Some(t) || Cancelling(s.jobs[j].status) then s
    else
      var job := s.jobs[j];
      WithJob(s, j, job.(result := if result.Some? then result else job.result, lease := s.now + LEASE))
  }

  function DoRequestCancel(s: State, j: JobId): State {
    if !Reachable(s, j) || Terminal(s.jobs[j].status) then s
    else
      var job := s.jobs[j];
      WithJob(s, j, job.(status := if job.status.Queued? then Cancelled else CancelRequested))
  }

  /** The two sections of dispatch_job that write the job document. */
  function DoPublish(s: State, j: JobId, delivered: bool): State {
    if !Reachable(s, j) then s
    else
      var job := s.jobs[j];
      WithJob(s, j, job.(published := delivered))
  }

  // ----- _finish ----------------------------------------------------------------------------------

  /** What state.session reports as an expired session. */
  predicate SessionOver(s: State) {
    !s.Live() || (s.session.Some? && s.session.value.expires <= s.now)
  }

  function DoFinishBegin(s: State, j: JobId, token: Option<Token>, status: Status, result: Option<ReportLink>): State {
    if !Reachable(s, j) || s.jobs[j].token != token || !Terminal(status) || (status.Completed? && result.None?) then s
    else
      var job := s.jobs[j];
      var cancelled := Cancelling(job.status) || SessionOver(s);
      WithFrame(s, j, Frame(job, if cancelled then Cancelled else status, if cancelled then None else result,
                            FINISH_TRIES, Fetch))
  }

  predicate IsActive(s: State, j: JobId, m: MapId) {
    m in s.maps && s.maps[m].active == Some(j)
  }

  /** A completion that cannot be linked becomes a cancellation. */
  function Unlinked(f: Frame): Frame {
    if f.status.Completed? then Dropped(f) else Frame(f.job, f.status, f.result, f.tries, Store)
  }

  /** The session or the map is gone: whatever the outcome was, it becomes a cancellation. */
  function Dropped(f: Frame): Frame {
    Frame(f.job, Cancelled, None, f.tries, Store)
  }

  function Holding(f: Frame, snap: MapDoc): Frame
    requires f.tries > 0
  {
    Frame(f.job, f.status, f.result, f.tries - 1, Commit(snap))
  }

  function Retrying(f: Frame): Frame {
    Frame(f.job, f.status, f.result, f.tries, Fetch)
  }

  /** The job document a finished frame leaves. */
  function Outcome(f: Frame): Job {
    f.job.(status := f.status, result := f.result)
  }

  predicate Fetching(s: State, j: JobId) {
    j in s.frames && s.frames[j].phase.Fetch?
  }

  function DoFinishFetch(s: State, j: JobId): State {
    if !Fetching(s, j) then s
    else
      var f := s.frames[j];
      if f.tries == 0 then WithoutFrame(s, j)
      else if !IsActive(s, j, f.job.mapId) then WithFrame(s, j, Unlinked(f))
      else WithFrame(s, j, Holding(f, s.maps[f.job.mapId]))
  }

  function LinkedResult(f: Frame): Option<ReportLink> {
    if f.status.Completed? then f.result else None
  }

  /** The outcomes of _FINISH: session or map gone, job not ours, revision moved on, or committed. */
  datatype Verdict = Gone | Lost | Moved | Ready

  predicate Holds(s: State, j: JobId) {
    j in s.frames && s.frames[j].phase.Commit?
  }

  function Judged(s: State, j: JobId): Verdict
    requires Holds(s, j)
  {
    var f := s.frames[j];
    if !s.Live() then Gone
    else if j !in s.jobs || s.jobs[j].token != f.job.token then Lost
    else if f.job.mapId !in s.maps then Gone
    else if s.maps[f.job.mapId].revision != f.phase.snap.revision then Moved
    else Ready
  }

  /** The map with the job released on it, the job's outcome and the free mutex, in one commit. */
  ghost function Linking(s: State, j: JobId, cfg: Config): State
    requires Holds(s, j)
  {
    var f := s.frames[j];
    var release := Release(LinkedResult(f));
    var d := Applied(f.phase.snap, release, cfg.limits).doc;
    if f.job.mapId !in s.hist.versions || f.job.mapId !in s.hist.edits then s
    else Finished(Push(s, f.job.mapId, d, release), j, f, |s.hist.versions[f.job.mapId]|)
  }

  /** _FINISH: map and job in one script, if nothing changed since the read. */
  ghost function DoFinishCommit(s: State, j: JobId, cfg: Config): State {
    if !Holds(s, j) then s
    else match Judged(s, j)
      case Gone => WithFrame(s, j, Dropped(s.frames[j]))
      case Lost => WithoutFrame(s, j)
      case Moved => WithFrame(s, j, Retrying(s.frames[j]))
      case Ready => Linking(s, j, cfg)
  }

  /** The job's outcome is stored, its mutex released, and a linked result noted. */
  function Finished(s: State, j: JobId, f: Frame, version: nat): State {
    s.(jobs := s.jobs[j := Outcome(f)], frames := s.frames - {j},
       log := Log(s.log.admitted, s.log.owners,
                  if f.status.Completed? && f.result.Some?
                  then s.log.links + [Link(j, f.job.mapId, version, f.result.value)]
                  else s.log.links,
                  s.log.buried, s.log.lapsed))
  }

  function DoFinishStore(s: State, j: JobId): State {
    if j !in s.frames || !s.frames[j].phase.Store? then s
    else
      var f := s.frames[j];
      WithoutFrame(WithJob(s, j, Outcome(f)), j)
  }

  // ----- Runs -------------------------------------------------------------------------------------

  function SessionStep(s: State, e: SessionEvent): State {
    match e
    case Tick(seconds) => s.(now := s.now + seconds)
    case Issue(sid, payload) => DoIssue(s, sid, payload)
    case SaveIdentity(sid, payload) => DoSaveIdentity(s, sid, payload)
    case Revoke(sid) => s.(identities := Identities(s.identities.live - {sid}, s.identities.issued))
    case OpenSession(epoch, expires) => DoOpenSession(s, epoch, expires)
    case Touch(expires) => DoTouch(s, expires)
    case LapseSession => s.(session := None)
    case LapseMap(m) => s.(maps := s.maps - {m})
    case LapseJob(j) => s.(jobs := s.jobs - {j})
    case LapseKey(k) => DoLapseKey(s, k)
  }

  ghost function MapStep(s: State, e: MapEvent, cfg: Config): State {
    match e
    case PutMap(m, root, found) => DoPutMap(s, m, root, found)
    case Register(m, expires) => DoRegister(s, m, expires)
    case Bury(m) => DoBury(s, m)
    case CommitMap(m, read, edit) => DoCommitMap(s, m, read, edit, cfg)
    case Admit(k, hash, m, read, j, ids, epoch) => DoAdmit(s, k, hash, m, read, j, ids, epoch, cfg)
  }

  function JobStep(s: State, e: JobEvent, cfg: Config): State {
    match e
    case Claim(j, t) => DoClaim(s, j, t, cfg)
    case Update(j, t, result) => DoUpdate(s, j, t, result)
    case RequestCancel(j) => DoRequestCancel(s, j)
    case Publish(j, delivered) => DoPublish(s, j, delivered)
  }

  ghost function FinishStep(s: State, e: FinishEvent, cfg: Config): State {
    match e
    case FinishBegin(j, token, status, result) => DoFinishBegin(s, j, token, status, result)
    case FinishFetch(j) => DoFinishFetch(s, j)
    case FinishCommit(j) => DoFinishCommit(s, j, cfg)
    case FinishStore(j) => DoFinishStore(s, j)
    case FinishCrash(j) => WithoutFrame(s, j)
  }

  ghost function Step(s: State, e: Event, cfg: Config): State {
    match e
    case OnSession(x) => SessionStep(s, x)
    case OnMap(x) => MapStep(s, x, cfg)
    case OnJob(x) => JobStep(s, x, cfg)
    case OnFinish(x) => FinishStep(s, x, cfg)
  }

  ghost function Run(s: State, es: seq<Event>, cfg: Config): State {
    if es == [] then s else Step(Run(s, es[..|es| - 1], cfg), es[|es| - 1], cfg)
  }

  // ----- Footprints -------------------------------------------------------------------------------

  /** Session steps and expiry only ever remove maps and jobs, and leave their history alone. */
  lemma {:induction false} SessionFootprint(s: State, e: SessionEvent)
    ensures var t := SessionStep(s, e);
            && t == State(t.now, t.identities, t.session, t.maps, t.jobs, t.idem, s.frames, s.unregistered, s.hist,
                          t.log)
            && t.log == Log(s.log.admitted, s.log.owners, s.log.links, s.log.buried, t.log.lapsed)
            && (forall m :: m in t.maps ==> m in s.maps && t.maps[m] == s.maps[m])
            && (forall j :: j in t.jobs ==> j in s.jobs && t.jobs[j] == s.jobs[j])
  {
  }

  /** Job steps write one job document and its owners, nothing else. */
  lemma {:induction false} JobFootprint(s: State, e: JobEvent, cfg: Config)
    ensures var t := JobStep(s, e, cfg);
            && t == State(s.now, s.identities, s.session, s.maps, t.jobs, s.idem, s.frames, s.unregistered, s.hist,
                          t.log)
            && t.log == Log(s.log.admitted, t.log.owners, s.log.links, s.log.buried, s.log.lapsed)
            && (forall j :: j in t.jobs ==> j in s.jobs && (t.jobs[j] != s.jobs[j] ==> j == e.j && j !in s.frames))
  {
  }

  /** Registering and burying a map touch the index, and burying removes the document. */
  lemma {:induction false} IndexFootprint(s: State, m: MapId, expires: Time)
    ensures var t := DoRegister(s, m, expires);
            t == s.(session := t.session, unregistered := t.unregistered)
    ensures var t := DoBury(s, m);
            && t == s.(session := t.session, maps := t.maps, log := t.log)
            && t.log == Log(s.log.admitted, s.log.owners, s.log.links, t.log.buried, s.log.lapsed)
            && (t.maps == s.maps || t.maps == s.maps - {m})
  {
  }
}
