/**
 Whose result a map shows: a link is about the moment of linking, because an admission changes the
 selection and keeps the result (app/api/v2/report_jobs.py:157). From the history of the map one can
 read exactly when the result still belongs to the selection.
 */
module ProtocolResults {
  import opened Basics
  import opened ExplorationMap
  import opened MapEdits
  import opened Protocol
  import opened ProtocolHistory
  import opened ProtocolLinks
  import opened ProtocolCompletion

  // ----- The link behind the result shown -----------------------------------------------------------

  /** The result of link l has been on its map ever since. */
  ghost predicate Shown(s: State, m: MapId, l: Link) {
    && l in s.log.links && l.mapId == m && m in s.hist.versions && l.version < |s.hist.versions[m]|
    && forall k :: l.version <= k < |s.hist.versions[m]| ==> s.hist.versions[m][k].lastResult == Some(l.result)
  }

  ghost predicate BornBlank(s: State, m: MapId) {
    m in s.hist.versions ==> s.hist.versions[m] != [] && s.hist.versions[m][0].lastResult.None?
  }

  lemma {:induction false} MapStepBlank(s: State, e: MapEvent, m: MapId, cfg: Config)
    requires BornBlank(s, m)
    ensures BornBlank(MapStep(s, e, cfg), m)
  {
  }

  lemma {:induction false} FinishStepBlank(s: State, e: FinishEvent, m: MapId, cfg: Config)
    requires BornBlank(s, m)
    ensures BornBlank(FinishStep(s, e, cfg), m)
  {
  }

  lemma {:induction false} StepBlank(s: State, e: Event, m: MapId, cfg: Config)
    requires BornBlank(s, m)
    ensures BornBlank(Step(s, e, cfg), m)
  {
    match e
    case OnSession(x) => SessionFootprint(s, x);
    case OnMap(x) => MapStepBlank(s, x, m, cfg);
    case OnJob(x) => JobFootprint(s, x, cfg);
    case OnFinish(x) => FinishStepBlank(s, x, m, cfg);
  }

  lemma {:induction false} AlwaysBlank(es: seq<Event>, m: MapId, cfg: Config)
    ensures BornBlank(Run(INITIAL, es, cfg), m)
  {
    if es != [] {
      AlwaysBlank(es[..|es| - 1], m, cfg);
      StepBlank(Run(INITIAL, es[..|es| - 1], cfg), es[|es| - 1], m, cfg);
    }
  }

  /** Where the result of version n came from: the first version since which it has been there. */
  lemma {:induction false} Origin(vs: seq<MapDoc>, n: nat) returns (i: nat)
    requires n < |vs| && vs[n].lastResult.Some? && vs[0].lastResult.None?
    ensures 0 < i <= n && NewResult(vs, i)
    ensures forall k :: i <= k <= n ==> vs[k].lastResult == vs[n].lastResult
  {
    i := n;
    if vs[n - 1].lastResult == vs[n].lastResult {
      i := Origin(vs, n - 1);
    }
  }

  /** In every run, the result a map shows was linked, and has been there since that link. */
  lemma {:induction false} ResultHasLink(es: seq<Event>, m: MapId, cfg: Config)
    requires cfg.limits.Valid()
    requires var s := Run(INITIAL, es, cfg); m in s.maps && s.maps[m].lastResult.Some?
    ensures var s := Run(INITIAL, es, cfg); exists l :: Shown(s, m, l) && s.maps[m].lastResult == Some(l.result)
  {
    var s := Run(INITIAL, es, cfg);
    NoLostUpdates(es, cfg);
    AlwaysLinkSafe(es, cfg);
    AlwaysBlank(es, m, cfg);
    assert SerialMap(s, m, cfg) && ResultsAreLinks(s, m);
    var vs := s.hist.versions[m];
    var i := Origin(vs, |vs| - 1);
    var l :| l in s.log.links && l.mapId == m && l.version == i && l.result == vs[i].lastResult.value;
    assert Shown(s, m, l);
  }

  // ----- When it belongs to the selection -------------------------------------------------------------

  /** The articles of the last admission among the edits from number `from` on. */
  function LastReserve(edits: seq<Edit>, from: nat): Option<seq<NewsId>> {
    if |edits| <= from then None
    else if edits[|edits| - 1].Reserve? then Some(edits[|edits| - 1].ids)
    else LastReserve(edits[..|edits| - 1], from)
  }

  /** An edit that leaves a result keeps the set of selected articles, unless it is an admission. */
  lemma {:induction false} ResultKeepsSelection(doc: MapDoc, e: Edit, limits: Limits)
    requires Applied(doc, e, limits).Accepted? && Applied(doc, e, limits).doc.lastResult.Some?
    ensures Elements(Applied(doc, e, limits).doc.selected) == Elements(if e.Reserve? then e.ids else doc.selected)
  {
    match e
    case Grow(parent, mode, found) =>
    case _ =>
  }

  lemma {:induction false} SelectionSince(vs: seq<MapDoc>, edits: seq<Edit>, limits: Limits, from: nat, n: nat)
    requires SerialVersions(vs, edits, limits) && from <= n < |vs|
    requires forall k :: from <= k <= n ==> vs[k].lastResult.Some?
    ensures var last := LastReserve(edits[..n], from);
            Elements(vs[n].selected) == Elements(if last.Some? then last.value else vs[from].selected)
  {
    if from < n {
      SelectionSince(vs, edits, limits, from, n - 1);
      assert Applied(vs[n - 1], edits[n - 1], limits) == Accepted(vs[n]);
      ResultKeepsSelection(vs[n - 1], edits[n - 1], limits);
      assert edits[..n][..n - 1] == edits[..n - 1];
    }
  }

  /**
   In every run: the result a map shows was linked for exactly the articles selected now, if and only
   if the last admission after that link, if any, asked for the same articles as the linking job.
   */
  lemma {:induction false} ResultMatchesSelectionIff(es: seq<Event>, m: MapId, l: Link, cfg: Config)
    requires cfg.limits.Valid()
    requires var s := Run(INITIAL, es, cfg); m in s.maps && Shown(s, m, l)
    ensures var s := Run(INITIAL, es, cfg);
            && l.job in s.log.admitted && m in s.hist.edits
            && var asked, last := Elements(s.log.admitted[l.job].ids), LastReserve(s.hist.edits[m], l.version);
               asked == Elements(s.maps[m].selected) <==> last.None? || Elements(last.value) == asked
  {
    var s := Run(INITIAL, es, cfg);
    NoLostUpdates(es, cfg);
    AlwaysLinkSafe(es, cfg);
    assert SerialMap(s, m, cfg) && LinkedByActiveJob(s, l);
    var vs, edits := s.hist.versions[m], s.hist.edits[m];
    SelectionSince(vs, edits, cfg.limits, l.version, |vs| - 1);
    assert edits[..|vs| - 1] == edits;
  }

  // ----- A result that outlives its selection -------------------------------------------------------------

  ghost function Moving(): seq<Event> {
    Completing() + [OnMap(Admit(6, 66, 0, 2, 1, [OTHER], 1))]
  }

  lemma {:induction false} SecondAdmission(s: State, cfg: Config)
    requires Delivered(s)
    ensures var t := DoAdmit(s, 6, 66, 0, 2, 1, [OTHER], 1, cfg);
            && 0 in t.maps && t.maps[0].lastResult == Some(RESULT) && t.maps[0].selected == [OTHER]
            && t.maps[0].active == Some(1) && t.log.links == s.log.links && 1 in t.jobs
            && 0 in t.log.admitted && t.log.admitted[0].ids == s.log.admitted[0].ids
  {
    assert Elements([OTHER]) == {OTHER};
  }

  /**
   "The result of a map belongs to its selection" is false: this run links a result for one article,
   admits a job for another, and leaves the map with the result of the first under the second.
   */
  lemma {:induction false} ResultOutlivesSelection(cfg: Config)
    requires cfg.limits.Valid() && cfg.maxAttempts > 0
    ensures var s := Run(INITIAL, Moving(), cfg);
            && 0 in s.maps && s.maps[0].lastResult == Some(RESULT) && s.maps[0].selected == [OTHER]
            && (exists l :: l in s.log.links && l.job == 0 && l.mapId == 0 && l.result == RESULT)
            && 0 in s.log.admitted && s.log.admitted[0].ids == [ARTICLE] && ARTICLE != OTHER
  {
    CompletingWorks(cfg);
    var s := Run(INITIAL, Completing(), cfg);
    SecondAdmission(s, cfg);
    RunOneMore(INITIAL, Completing(), OnMap(Admit(6, 66, 0, 2, 1, [OTHER], 1)), cfg);
  }
}
