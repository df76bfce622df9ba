/**
 The shared documents as the program changes them: each Lua script and each section under a named
 mutex is a method that runs without interruption, and does exactly what the protocol's step says.

 The archive of versions and the log are ghost: the program does not keep them.
 */
module ProtocolStore {
  import opened Basics
  import opened ExplorationMap
  import opened MapEdits
  import opened Protocol
  import opened ProtocolJobs
  import opened ProtocolKeys

  /** What a script returns instead of its number. */
  datatype Answer = Done | SessionExpired | ResourceExpired | Stale(revision: nat) | KeyTaken

  /**
   A call that reads the map: after ten commits it gives up; where its job is no longer active, a completion
   becomes a cancellation and any other outcome goes on to be stored; else it holds the map for a commit.
   */
  predicate Fetched(maps: map<MapId, MapDoc>, before: map<JobId, Frame>, after: map<JobId, Frame>, j: JobId)
    requires j in before
  {
    var f := before[j];
    if f.tries == 0 then after == before - {j}
    else if f.job.mapId !in maps || maps[f.job.mapId].active != Some(j) then
      after == before[j := if f.status == Completed then f.(status := Cancelled, result := None, phase := Store)
                           else f.(phase := Store)]
    else after == before[j := f.(tries := f.tries - 1, phase := Commit(maps[f.job.mapId]))]
  }

  datatype Taking = NotNow | Started | Exhausted

  /** The session's expiry and every live entry are renewed; entries of deleted maps stay as they are. */
  predicate TouchedTo(before: Session, after: Session, expires: Time) {
    && after.epoch == before.epoch && after.expires == expires && after.jobIndex == before.jobIndex
    && after.mapIndex.Keys == before.mapIndex.Keys
    && forall m :: m in before.mapIndex ==>
         after.mapIndex[m] == if before.mapIndex[m] == None then None else Some(expires)
  }

  /** One entry of the map index has changed, and nothing else. */
  predicate IndexedAs(before: Session, after: Session, m: MapId, entry: Option<Time>) {
    && after.epoch == before.epoch && after.expires == before.expires && after.jobIndex == before.jobIndex
    && after.mapIndex == before.mapIndex[m := entry]
  }

  /** The starts a document accounts for: those it counts, or a first start and its recoveries in a legacy one. */
  predicate Accounts(job: Job, starts: nat) {
    match job.attempts
    case Some(n) => starts == n
    case None => starts == if job.token == None then 0 else 1 + job.retries
  }

  /** A claim counts a start, unless all allowed ones are spent, and changes neither request nor result. */
  predicate Recounted(before: Job, after: Job, taking: Taking, cfg: Config) {
    && after.attempts.Some? && after.retries == (if after.attempts.value == 0 then 0 else after.attempts.value - 1)
    && (if taking.Started?
        then 0 < after.attempts.value <= cfg.maxAttempts && Accounts(before, after.attempts.value - 1)
        else after.attempts.value >= cfg.maxAttempts && Accounts(before, after.attempts.value))
    && after.status == (if before.status == CancelRequested then CancelRequested else Running)
    && after.mapId == before.mapId && after.ids == before.ids && after.epoch == before.epoch
    && after.result == before.result && after.deadline == before.deadline && after.published == before.published
  }

  class Store {
    var now: Time
    var live: map<Sid, nat>
    var session: Option<Session>
    var maps: map<MapId, MapDoc>
    var jobs: map<JobId, Job>
    var idem: map<Key, Replay>
    var frames: map<JobId, Frame>
    var unregistered: set<MapId>
    ghost var issued: set<Sid>
    ghost var hist: Archive
    ghost var log: Log

    ghost function View(): State
      reads this
    {
      State(now, Identities(live, issued), session, maps, jobs, idem, frames, unregistered, hist, log)
    }

    constructor ()
      ensures View() == INITIAL
    {
      now, live, session, maps, jobs, idem, frames, unregistered := 0, map[], None, map[], map[], map[], map[], {};
      issued, hist, log := {}, Archive(map[], map[]), Log(map[], map[], [], {}, {});
    }

    // ----- Identity and session -------------------------------------------------------------------

    /** session.save: creation writes only an id that does not live, an update only one that does. */
    method Save(sid: Sid, payload: nat, create: bool) returns (saved: bool)
      requires create ==> sid !in issued
      modifies this`live, this`issued
      ensures View() == if create then DoIssue(old(View()), sid, payload) else DoSaveIdentity(old(View()), sid, payload)
      ensures saved <==> create == (sid !in old(live))
      ensures saved ==> live == old(live)[sid := payload]
      ensures !saved ==> live == old(live)
    {
      if create == (sid in live) {
        return false;
      }
      live := live[sid := payload];
      if create {
        issued := issued + {sid};
      }
      return true;
    }

    /** session.clear: the identity is gone, no other is touched, and no later save brings it back. */
    method Revoke(sid: Sid)
      modifies this`live
      ensures View() == SessionStep(old(View()), SessionEvent.Revoke(sid))
      ensures sid !in live && forall x :: x != sid ==>
              (x in live <==> x in old(live)) && (x in live ==> live[x] == old(live)[x])
      ensures sid in issued ==>
              forall payload :: DoIssue(View(), sid, payload) == DoSaveIdentity(View(), sid, payload) == View()
    {
      live := live - {sid};
    }

    /** _SAVE_SESSION: nothing is stored under an identity that is gone. */
    method SaveLiveSession(doc: Session) returns (saved: bool)
      modifies this`session
      ensures saved <==> SID in live
      ensures View() == if saved then WithSession(old(View()), doc) else old(View())
    {
      saved := SID in live;
      if saved {
        session := Some(doc);
      }
    }

    /** state.session: a first request gets a new session document under a new epoch, an expired one is refused. */
    method OpenSession(epoch: Epoch, expires: Time) returns (answer: Answer)
      modifies this`session
      ensures View() == DoOpenSession(old(View()), epoch, expires)
      ensures answer == if SID !in live || (old(session).Some? && old(session).value.expires <= now) then SessionExpired
                        else Done
      ensures session == if SID in live && old(session).None? then Some(Session(epoch, expires, map[], {}))
                         else old(session)
    {
      if SID !in live {
        return SessionExpired;
      }
      var doc := if session.Some? then session.value else Session(epoch, expires, map[], {});
      if session.Some? && doc.expires <= now {
        return SessionExpired;
      }
      var saved := SaveLiveSession(doc);
      return Done;
    }

    /** state.session with touch: live entries are renewed, tombstones stay. */
    method Touch(expires: Time) returns (answer: Answer)
      modifies this`session
      ensures View() == DoTouch(old(View()), expires)
      ensures answer.Done? <==> SID in live && old(session).Some? && old(session).value.expires > now
      ensures if answer.Done? then session.Some? && TouchedTo(old(session).value, session.value, expires)
              else session == old(session)
    {
      if SID !in live || session.None? || session.value.expires <= now {
        return SessionExpired;
      }
      var doc, left := session.value.(expires := expires), session.value.mapIndex.Keys;
      while left != {}
        invariant left <= session.value.mapIndex.Keys
                  && doc == session.value.(expires := expires, mapIndex := doc.mapIndex)
        invariant doc.mapIndex.Keys == session.value.mapIndex.Keys
        invariant forall m :: m in left ==> doc.mapIndex[m] == session.value.mapIndex[m]
        invariant forall m :: m in doc.mapIndex && m !in left ==>
                  doc.mapIndex[m] == Renewed(session.value, expires).mapIndex[m]
        decreases |left|
      {
        var m :| m in left;
        left := left - {m};
        if doc.mapIndex[m].Some? {
          doc := Indexed(doc, m, Some(expires));
        }
      }
      assert doc.mapIndex == Renewed(session.value, expires).mapIndex;
      var saved := SaveLiveSession(doc);
      return Done;
    }

    /** register_resource for a map that was stored before. */
    method Register(m: MapId, expires: Time) returns (answer: Answer)
      modifies this`session, this`unregistered
      ensures View() == DoRegister(old(View()), m, expires)
      ensures unregistered == old(unregistered) - {m}
      ensures answer.Done? <==> m in old(unregistered) && SID in live && old(session).Some?
      ensures if answer.Done? then session.Some? && IndexedAs(old(session).value, session.value, m, Some(expires))
              else session == old(session)
    {
      if m !in unregistered {
        return ResourceExpired;
      }
      unregistered := unregistered - {m};
      if SID !in live || session.None? {
        return SessionExpired;
      }
      var saved := SaveLiveSession(Indexed(session.value, m, Some(expires)));
      return Done;
    }

    // ----- Maps ---------------------------------------------------------------------------------------

    /** _CAS: a write wins only on the revision it was made from. */
    method Cas(m: MapId, expected: nat, value: MapDoc, ghost e: Edit) returns (answer: Answer)
      requires m in maps ==> m in hist.versions && m in hist.edits
      modifies this`maps, this`hist
      ensures answer == if SID !in live then SessionExpired
                        else if m !in old(maps) then ResourceExpired
                        else if old(maps)[m].revision != expected then Stale(old(maps)[m].revision)
                        else Done
      ensures answer.Done? ==> View() == Push(old(View()), m, value, e)
      ensures !answer.Done? ==> View() == old(View())
    {
      if SID !in live {
        return SessionExpired;
      }
      if m !in maps {
        return ResourceExpired;
      }
      if maps[m].revision != expected {
        return Stale(maps[m].revision);
      }
      maps := maps[m := value];
      hist := Archive(hist.versions[m := hist.versions[m] + [value]], hist.edits[m := hist.edits[m] + [e]]);
      return Done;
    }

    /** commit_map: the edited snapshot replaces the document it was read from, or nothing changes. */
    method CommitMap(m: MapId, snap: MapDoc, value: MapDoc, ghost read: nat, ghost e: Edit, ghost cfg: Config)
      returns (answer: Answer)
      requires WasRead(View(), m, read) && hist.versions[m][read] == snap
      requires RequestEdit(e) && Legal(snap, e, cfg.limits) && Applied(snap, e, cfg.limits) == Accepted(value)
      modifies this`maps, this`hist
      ensures View() == DoCommitMap(old(View()), m, read, e, cfg)
      ensures answer.Done? <==> SID in live && m in old(maps) && old(maps)[m].revision == snap.revision
      ensures maps == if answer.Done? then old(maps)[m := value] else old(maps)
    {
      answer := Cas(m, snap.revision, value, e);
    }

    /** _DELETE_MAP: the document goes, a null entry stays in the index. */
    method DeleteMap(m: MapId) returns (answer: Answer)
      modifies this`session, this`maps, this`log
      ensures View() == DoBury(old(View()), m)
      ensures answer.Done? <==> && SID in live && old(session).Some? && m in old(maps)
                                && m in old(session).value.mapIndex && old(session).value.mapIndex[m].Some?
      ensures if answer.Done? then maps == old(maps) - {m} && session.Some?
                                   && IndexedAs(old(session).value, session.value, m, None)
              else maps == old(maps) && session == old(session)
    {
      if SID !in live || session.None? {
        return SessionExpired;
      }
      if m !in maps {
        return ResourceExpired;
      }
      var doc := session.value;
      if m !in doc.mapIndex || doc.mapIndex[m].None? {
        return ResourceExpired;
      }
      assert m in maps && m !in maps - {m};
      session := Some(Indexed(doc, m, None));
      maps := maps - {m};
      log := Log(log.admitted, log.owners, log.links, log.buried + {m}, log.lapsed);
      return Done;
    }

    // ----- Admission ------------------------------------------------------------------------------------

    /** _ADMIT: four documents are written together, or none. */
    method Admit(k: Key, hash: Hash, m: MapId, snap: MapDoc, value: MapDoc, j: JobId, ids: seq<NewsId>, epoch: Epoch,
        cfg: Config, ghost read: nat) returns (answer: Answer)
      requires WasRead(View(), m, read) && hist.versions[m][read] == snap
      requires 1 <= |ids| <= 10 && NoRepeats(ids) && j !in log.admitted
      requires Applied(snap, Reserve(j, ids), cfg.limits) == Accepted(value)
      modifies this`session, this`maps, this`jobs, this`idem, this`hist, this`log
      ensures View() == DoAdmit(old(View()), k, hash, m, read, j, ids, epoch, cfg)
      ensures answer.Done? <==> && SID in live && old(session).Some? && old(session).value.epoch == epoch
                                && m in old(maps) && old(maps)[m].revision == snap.revision && k !in old(idem)
      ensures answer.Done? ==>
              && maps == old(maps)[m := value] && idem == old(idem)[k := Replay(hash, j)]
              && jobs == old(jobs)[j := Job(m, ids, epoch, Queued, None, 0, None, 0, None, now + cfg.jobTimeout, false)]
              && session.Some? && session.value == old(session).value.(jobIndex := old(session).value.jobIndex + {j})
      ensures !answer.Done? ==>
              maps == old(maps) && idem == old(idem) && jobs == old(jobs) && session == old(session)
    {
      if SID !in live || session.None? || session.value.epoch != epoch {
        return SessionExpired;
      }
      if m !in maps {
        return ResourceExpired;
      }
      if maps[m].revision != snap.revision {
        return Stale(maps[m].revision);
      }
      if k in idem {
        return KeyTaken;
      }
      var job := Job(m, ids, epoch, Queued, None, 0, None, 0, None, now + cfg.jobTimeout, false);
      answer := Cas(m, snap.revision, value, Reserve(j, ids));
      Enroll(k, hash, j, job, session.value);
    }

    /** The job, its replay record and its index entry. */
    method Enroll(k: Key, hash: Hash, j: JobId, job: Job, doc: Session)
      modifies this`session, this`jobs, this`idem, this`log
      ensures View() == Enrolled(old(View()), k, hash, j, job, doc)
    {
      jobs, idem := jobs[j := job], idem[k := Replay(hash, j)];
      session := Some(Session(doc.epoch, doc.expires, doc.mapIndex, doc.jobIndex + {j}));
      log := Log(log.admitted[j := Admission(job.mapId, job.ids, k, hash)], log.owners[j := Owners([], 0)],
                 log.links, log.buried, log.lapsed);
    }

    /** What create_job answers before anything else, for a key that was used before. */
    method LookUp(k: Key, hash: Hash) returns (found: Lookup)
      requires ReplaysAdmitted(View())
      ensures found == Looked(View(), k, hash)
      ensures found.Unknown? <==> k !in idem
      ensures found.Existing? ==>
              found.job in log.admitted && log.admitted[found.job].key == k && log.admitted[found.job].hash == hash
      ensures found.Conflict? ==>
              exists j :: j in log.admitted && log.admitted[j].key == k && log.admitted[j].hash != hash
    {
      if k !in idem {
        return Unknown;
      }
      if idem[k].hash != hash {
        assert idem[k].job in log.admitted;
        return Conflict;
      }
      return Existing(idem[k].job);
    }

    // ----- Jobs -------------------------------------------------------------------------------------------

    /** The claim of process_job: a duplicate that meets a live lease spends nothing. */
    method Claim(j: JobId, t: Token, cfg: Config) returns (taking: Taking)
      requires FreshToken(View(), t) && (j in jobs ==> j in log.owners)
      modifies this`jobs, this`log
      ensures View() == DoClaim(old(View()), j, t, cfg)
      ensures taking.NotNow? <==>
              || j !in jobs || j in frames || old(jobs)[j].status in {Completed, Failed, Cancelled}
              || (old(jobs)[j].token.Some? && old(jobs)[j].lease > now)
      ensures if taking.NotNow? then jobs == old(jobs)
              else && j in jobs && jobs == old(jobs)[j := jobs[j]] && Recounted(old(jobs)[j], jobs[j], taking, cfg)
                   && jobs[j].token == Some(t) && jobs[j].lease == now + 60
    {
      if j !in jobs || j in frames || Terminal(jobs[j].status) {
        return NotNow;
      }
      var job := jobs[j];
      if job.token.Some? && job.lease > now {
        return NotNow;
      }
      job, taking := Take(job, t, cfg);
      jobs := jobs[j := job];
      ghost var o := log.owners[j];
      log := Log(log.admitted, log.owners[j := Owners(o.tokens + [t], o.starts + if taking.Started? then 1 else 0)],
                 log.links, log.buried, log.lapsed);
    }

    /** The document under its new owner, with its start counted unless all are spent. */
    method Take(before: Job, t: Token, cfg: Config) returns (job: Job, taking: Taking)
      ensures job == Taken(View(), before, t, cfg)
      ensures taking == if StartsOf(before) < cfg.maxAttempts then Started else Exhausted
      ensures Recounted(before, job, taking, cfg) && job.token == Some(t) && job.lease == now + 60
    {
      var attempts := if before.attempts.Some? then before.attempts.value
                      else if before.token.Some? then 1 + before.retries
                      else 0;
      taking := if attempts >= cfg.maxAttempts then Exhausted else Started;
      if taking.Started? {
        attempts := attempts + 1;
      }
      job := before.(attempts := Some(attempts), retries := Max(0, attempts - 1));
      if !job.status.CancelRequested? {
        job := job.(status := Running);
      }
      job := job.(token := Some(t), lease := now + LEASE);
    }

    /** _update: only the current owner writes, and not once the job is being cancelled. */
    method Update(j: JobId, t: Token, result: Option<ReportLink>) returns (written: bool)
      modifies this`jobs
      ensures View() == DoUpdate(old(View()), j, t, result)
      ensures written <==> && j in jobs && j !in frames && old(jobs)[j].token == Some(t)
                           && old(jobs)[j].status != CancelRequested && old(jobs)[j].status != Cancelled
      ensures jobs == if !written then old(jobs)
                      else old(jobs)[j := old(jobs)[j].(lease := now + 60,
                                                        result := if result.Some? then result else old(jobs)[j].result)]
    {
      if j !in jobs || j in frames || jobs[j].token != Some(t) {
        return false;
      }
      if Cancelling(jobs[j].status) {
        return false;
      }
      var job := jobs[j];
      if result.Some? {
        job := job.(result := result);
      }
      jobs := jobs[j := job.(lease := now + LEASE)];
      return true;
    }

    /** request_cancel: a queued job is cancelled at once, a running one is asked to stop. */
    method RequestCancel(j: JobId) returns (status: Option<Status>)
      modifies this`jobs
      ensures View() == DoRequestCancel(old(View()), j)
      ensures status.None? <==> j !in old(jobs) || j in frames
      ensures status.None? ==> jobs == old(jobs)
      ensures status.Some? ==>
              && jobs == old(jobs)[j := old(jobs)[j].(status := status.value)]
              && status.value == (match old(jobs)[j].status
                                  case Queued => Cancelled
                                  case Running => CancelRequested
                                  case other => other)
    {
      if j !in jobs || j in frames {
        return None;
      }
      var job := jobs[j];
      if !Terminal(job.status) {
        job := job.(status := if job.status.Queued? then Cancelled else CancelRequested);
        jobs := jobs[j := job];
      }
      return Some(job.status);
    }

    /** The sections of dispatch_job after a publication that succeeded or failed. */
    method Publish(j: JobId, delivered: bool)
      modifies this`jobs
      ensures View() == DoPublish(old(View()), j, delivered)
      ensures Reachable(View(), j) ==> jobs[j].published == delivered
      ensures jobs.Keys == old(jobs).Keys
      ensures forall i :: i in jobs ==>
              jobs[i] == old(jobs)[i].(published := jobs[i].published) && (i != j ==> jobs[i] == old(jobs)[i])
    {
      if j in jobs && j !in frames {
        jobs := jobs[j := jobs[j].(published := delivered)];
      }
    }

    // ----- _finish ------------------------------------------------------------------------------------------

    /** Takes the job's mutex; a cancelled job, or one without a session, is going to be cancelled. */
    method FinishBegin(j: JobId, token: Option<Token>, status: Status, result: Option<ReportLink>) returns (held: bool)
      requires status in {Completed, Failed, Cancelled} && (status.Completed? ==> result.Some?)
      modifies this`frames
      ensures View() == DoFinishBegin(old(View()), j, token, status, result)
      ensures held <==> j in jobs && j !in old(frames) && jobs[j].token == token
      ensures held ==>
                var dropped := || jobs[j].status in {CancelRequested, Cancelled} || SID !in live
                               || (session.Some? && session.value.expires <= now);
                frames == old(frames)[j := Frame(jobs[j], if dropped then Cancelled else status,
                                                 if dropped then None else result, 10, Fetch)]
      ensures !held ==> frames == old(frames)
    {
      if j !in jobs || j in frames || jobs[j].token != token {
        return false;
      }
      var job := jobs[j];
      var last, kept := status, result;
      if Cancelling(job.status) {
        last, kept := Cancelled, None;
      }
      if SID !in live || (session.Some? && session.value.expires <= now) {
        last, kept := Cancelled, None;
      }
      frames := frames[j := Frame(job, last, kept, FINISH_TRIES, Fetch)];
      return true;
    }

    /** Reads the map; a completion that is no longer wanted becomes a cancellation. */
    method FinishFetch(j: JobId)
      modifies this`frames
      ensures View() == DoFinishFetch(old(View()), j)
      ensures if old(j in frames && frames[j].phase.Fetch?) then Fetched(maps, old(frames), frames, j)
              else frames == old(frames)
    {
      if j in frames && frames[j].phase.Fetch? {
        var f := frames[j];
        var m := f.job.mapId;
        if f.tries == 0 {
          frames := frames - {j};
        } else if m !in maps || maps[m].active != Some(j) {
          frames := frames[j := Unlinked(f)];
        } else {
          frames := frames[j := Holding(f, maps[m])];
        }
      }
    }

    /** _FINISH: the map with its result and the finished job are written together, or neither. */
    method FinishCommit(j: JobId, value: MapDoc, ghost cfg: Config) returns (verdict: Protocol.Verdict)
      requires Holds(View(), j)
      requires frames[j].job.mapId in maps ==> frames[j].job.mapId in hist.versions && frames[j].job.mapId in hist.edits
      requires Applied(frames[j].phase.snap, Release(LinkedResult(frames[j])), cfg.limits) == Accepted(value)
      modifies this`maps, this`jobs, this`frames, this`hist, this`log
      ensures View() == DoFinishCommit(old(View()), j, cfg)
      ensures var f := old(frames)[j];
              && verdict == (if SID !in live then Gone
                             else if j !in old(jobs) || old(jobs)[j].token != f.job.token then Lost
                             else if f.job.mapId !in old(maps) then Gone
                             else if old(maps)[f.job.mapId].revision != f.phase.snap.revision then Moved
                             else Ready)
              && match verdict
                 case Gone => frames == old(frames)[j := f.(status := Cancelled, result := None, phase := Store)]
                 case Lost => frames == old(frames) - {j}
                 case Moved => frames == old(frames)[j := f.(phase := Fetch)]
                 case Ready => frames == old(frames) - {j} && maps == old(maps)[f.job.mapId := value]
                               && jobs == old(jobs)[j := f.job.(status := f.status, result := f.result)]
      ensures !verdict.Ready? ==> maps == old(maps) && jobs == old(jobs)
    {
      var f := frames[j];
      var m := f.job.mapId;
      if SID !in live {
        frames := frames[j := Dropped(f)];
        return Gone;
      }
      if j !in jobs || jobs[j].token != f.job.token {
        frames := frames - {j};
        return Lost;
      }
      ghost var before := View();
      var answer := Cas(m, f.phase.snap.revision, value, Release(LinkedResult(f)));
      if answer.ResourceExpired? {
        frames := frames[j := Dropped(f)];
        return Gone;
      }
      if answer.Stale? {
        frames := frames[j := Retrying(f)];
        return Moved;
      }
      Conclude(j, f, |before.hist.versions[m]|);
      return Ready;
    }

    /** The job's outcome, and its mutex released. */
    method Conclude(j: JobId, f: Frame, ghost version: nat)
      modifies this`jobs, this`frames, this`log
      ensures View() == Finished(old(View()), j, f, version)
    {
      jobs, frames := jobs[j := Protocol.Outcome(f)], frames - {j};
      if f.status.Completed? && f.result.Some? {
        log := Log(log.admitted, log.owners, log.links + [Link(j, f.job.mapId, version, f.result.value)],
                   log.buried, log.lapsed);
      }
    }

    /** Stores an outcome that links nothing. */
    method FinishStore(j: JobId)
      modifies this`jobs, this`frames
      requires Honest(View(), j)
      ensures View() == DoFinishStore(old(View()), j)
      ensures if old(j in frames && frames[j].phase.Store?)
              then && frames == old(frames) - {j} && old(frames)[j].status in {Failed, Cancelled}
                   && jobs == old(jobs)[j := old(frames)[j].job.(status := old(frames)[j].status,
                                                                 result := old(frames)[j].result)]
              else frames == old(frames) && jobs == old(jobs)
    {
      if j in frames && frames[j].phase.Store? {
        jobs, frames := jobs[j := Protocol.Outcome(frames[j])], frames - {j};
      }
    }
  }
}
