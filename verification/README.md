# EconMind v2: a verified model of its protocols, selectors and budgets

The v2 half of the backend keeps an exploration map per session, lets report jobs run over it in
workers, chooses neighbouring articles for it, extracts article bodies under a deadline, and spends
shared budgets while doing so. This project models those parts in Dafny and proves what holds of them
on every run, for every input and under every interleaving.

`dafny verify dfyconfig.toml` checks everything.

## What is modelled

**Report jobs and shared documents** (`Protocol*.dfy`). The identities, and one session's document,
maps, jobs, idempotency records and job mutexes form one state. Every Lua script and every section under a
named mutex is one step; requests, duplicate deliveries, heartbeats, cancellations, crashes, key expiry
and the clock are events, and a run is any sequence of them. A request that read a map earlier may
commit on any version the map ever had, so each run stands for arbitrarily many requests in flight with
stale snapshots. `_finish` is several steps long, because map commits by others go on while it holds the
job's mutex; the other sections under that mutex wait. `ProtocolStore` performs the same steps as methods
that change the documents; each method is proved equal to its step and says what it writes.

**Exploration maps** (`ExplorationMap`, `TreeLaws`, `MapLaws`, `ResetLaws`, `MapEdits`, `MapEffects`,
`MapHistory`, `MapDraft`). The map document as a value, the tree invariant, what each request accepts and
what it makes of the document, what the record of displayed articles holds over runs, and the request
handlers as a class that changes its fields the way the handlers change the loaded document.

**Selectors and expansion** (`Candidates`, `PoolLaws`, `MmrSelector`, `MmrLaws`, `DecisionSelector`,
`NewsMap`, `NewsMapBuild`, `MapSelection`). Both selectors are classes with their counters; relevance,
comparison, similarity and routing are arbitrary functions of the articles, scores are reals and the
rounding of a priority is an arbitrary function (`FirstIsMostRelevant` alone assumes that it keeps the
order). The staged expansion drives the embedding selector over pages of a search whose answers are
arbitrary within the page contract of the search client.

**Evidence** (`BodyQueue`, `ReportEvidence`, `ReportStore`). The extraction queue over an arbitrary list of
observed turns, the report document built from it, the checks that precede its insertion, and insertion
with reuse.

**Bounded resources** (`Quota`, `QuotaLaws`, `ProviderBudget`, `DiffbotRetry`, `DiffbotLaws`). The multi-bucket
quota script, the daily and job credit ledgers, and the provider retry loop.

## Assumptions

- A mutex is exclusive while it is held. Losing a Redis lease in the middle of a critical section is not
  modelled; losing a job's worker lease is. Neither the map mutex nor the idempotency mutex is assumed at
  all: the properties hold without them.
- Session ids, tokens, job ids and map ids are fresh when they are drawn; request hashes are compared for equality.
- A Redis key can be read up to and including its expiry time, which is why the scripts have an arm for a
  remaining time of zero.
- Articles of one map have one embedding dimension, so a similarity never raises.
- Ids and keys are numbers, because the code only compares them; texts are strings, times are numbers of
  the unit the code uses.

## Where the code does less than it seems to

- Completion is not final. `get_job` looks at the status and reads the worker token before `_finish` takes the
  mutex, and `_finish` compares only the token, so a completion in between is overwritten. A completion
  survives a `_finish` call if and only if the call's token differs from the job's
  (`CompletedSurvivesFinish`), and over runs nothing else ends it, nor a failure or a cancellation
  (`OutcomeEndsByOwnFinish`); `CompletedCanBeOverwritten` is a run.
- Admission does not clear the last result of a map, so the result of a map need not belong to its present
  selection: `ResultOutlivesSelection` is a run. It does if and only if the last admission since the result was
  linked, if there was one, asked for the same articles as the job that linked it
  (`ResultMatchesSelectionIff`).
- Retry-After of a quota denial is one second early exactly when the remaining time is a positive multiple
  of a second (`RetryAfterExact`); `RetryAfterTooEarly` is a run.
- One request that names the same quota bucket twice can exceed its limit (`RepeatedBucketOverruns`,
  `RepeatedBucketFits`). No caller in the repository does: `check_quota` passes one request, and the search
  endpoint (app/api/v2/maps.py:48) one for each of two actions.
- The in-process credit ledger forgets a job at the last instant of its ledger, which the script still reads. On
  whole seconds the two answer a run alike if and only if no request of it fits on the one reading and not on the
  other (`VerdictsAgreeIff`); that need not be the request at that instant, but can be any later one
  (`PathsPartLater`). Without a request at such an instant they never differ (`SameAwayFromLastInstants`), and
  after they have, each goes on answering from its own grants (`AnswerFromGrants`).

## Model

| member | source | states |
|---|---|---|
| ProtocolStore.Store.Cas | app/v2/state.py:26-34 | a write wins exactly when the identity lives, the map exists and its revision is the expected one; otherwise nothing changes |
| ProtocolStore.Store.SaveLiveSession | app/v2/state.py:45-50 | a session document is stored only under a live identity |
| ProtocolStore.Store.DeleteMap | app/v2/state.py:51-64 | the map goes and a null entry stays, or nothing changes |
| ProtocolStore.Store.OpenSession | app/v2/state.py:234-270 | a new session document, empty but for its epoch and expiry, appears only for a live identity without one; an expired one is refused |
| ProtocolStore.Store.Touch | app/v2/state.py:259-270 | under a live identity and an unexpired session every live entry is renewed, and every tombstone stays |
| ProtocolStore.Store.Register | app/v2/state.py:299-306 | a stored map enters the index only while identity and session live |
| ProtocolStore.Store.Save | app/session.py:148-179 | creating writes only an id that was not there, renewing only one that is |
| ProtocolStore.Store.Revoke | app/session.py:182-195 | the identity is gone, the others are untouched, and no later save of either kind brings it back |
| ProtocolStore.Store.CommitMap | app/v2/maps.py:116-122 | the edited snapshot replaces exactly the revision it was read from |
| ProtocolStore.Store.Admit | app/api/v2/report_jobs.py:22-86 | succeeds exactly when session epoch, map revision and a free key allow it, and then writes the map, a queued job with its deadline, the replay record and the index entry, and nothing else |
| ProtocolStore.Store.LookUp | app/api/v2/report_jobs.py:129-134 | a returned job was admitted under this key with this hash, a conflict means it was admitted with another, and unknown means there is no record |
| ProtocolStore.Store.Claim | app/v2/reports.py:642-668 | a missing or finished job, a held mutex and a lease that has not ended are left alone; otherwise the new token owns the job until a minute from now, a start is counted up to the limit, a cancellation request stays, and nothing else about the job changes |
| ProtocolStore.Store.Update | app/v2/reports.py:374-385 | writes exactly for the current token and a job that is not being cancelled: the lease runs a minute from now, a given result is kept, and nothing else changes |
| ProtocolStore.Store.RequestCancel | app/v2/reports.py:346-358 | a queued job is cancelled, a running one asked to stop, a terminal one left alone |
| ProtocolStore.Store.Publish | app/v2/reports.py:324-343 | only the publication mark of this job changes: status, token, attempts and result stay |
| ProtocolStore.Store.FinishBegin | app/v2/reports.py:571-584 | proceeds exactly for the token on the document, with its own status and result and ten tries; for a job that is being cancelled or a lost session it becomes a cancellation without a result |
| ProtocolStore.Store.FinishFetch | app/v2/reports.py:585-596 | a completion goes on to the commit only while its job is active on the stored map, and otherwise loses its result; the tries run out |
| ProtocolStore.Store.FinishCommit | app/v2/reports.py:43-56 | writes map and job together exactly when identity, token, map and revision still match, the job as it was locked but for the status and result of the call; a moved revision makes it read again, a lost session or map makes it a cancellation without a result, another owner ends it |
| ProtocolStore.Store.FinishStore | app/v2/reports.py:633-635 | a failure or a cancellation, never a completion, is stored on the locked document with the call's result, and no map changes |
| ProtocolHistory.RevisionDeterminesDocument | app/v2/state.py:205-231 | a snapshot with the current revision number is the current document |
| ProtocolHistory.NoLostUpdates | app/v2/maps.py:116-128 | in every run each version of a map is its edit applied to the version before, with revision numbers counting the versions and every version satisfying the tree invariant |
| ProtocolHistory.CommitIsSerial | app/v2/reports.py:591-626 | any commit, also that of a retried finish, equals its edit applied to the document it replaces, one revision on |
| ProtocolHistory.StepExtends | app/v2/state.py:205-231 | a step adds at most one version to a map's history and rewrites none |
| ProtocolLinks.AlwaysLinkSafe | app/v2/reports.py:571-639 | in every run the link invariant holds over all versions of all maps and all links |
| ProtocolLinks.EditKeepsSelection | app/v2/maps.py:218-231 | an edit keeps the active job only together with the set of selected articles, and only a finishing job writes a result |
| ProtocolLinks.ActiveJobMatchesSelection | app/api/v2/report_jobs.py:156-158 | the active job of a map was admitted for that map and for exactly its selected articles |
| ProtocolLinks.ResultsComeFromActiveJobs | app/v2/reports.py:591-616 | a new result on a map was written by the job active on the version before, in the commit that cleared it, and no job links twice |
| ProtocolLinks.FirstLink | app/v2/reports.py:598-602 | a job that is active on a map has linked nothing yet |
| ProtocolOutcomes.FinishStoresItsCall | app/v2/reports.py:571-635 | in every run a call that ends has stored, on the document it had locked, its own status and result, or a cancellation without a result exactly when the job was being cancelled, its session was over, or on the way identity, map or active job were found gone; nothing else about the job has changed; a commit has also released the map, showing and linking exactly the result of a completion; or else the call stored nothing |
| ProtocolOutcomes.UndisturbedFinishCompletes | app/v2/reports.py:591-635 | called by the owner of an active job that is not being cancelled, under a session that lives, a completion completes the job with its result and shows it on the map |
| ProtocolOutcomes.TenAttempts | app/v2/reports.py:591-629 | a call reads the map for at most ten commits, and gives up exactly after the tenth was refused |
| ProtocolLeases.TakeoverIff | app/v2/reports.py:642-668 | in every run a delivery with a fresh token takes over a stored, unfinished job with a free mutex if and only if nothing claimed it or renewed its lease in the last minute, read off the events and the clock; otherwise it changes nothing |
| ProtocolLeases.NoTakeoverWithinAMinute | app/v2/reports.py:374-385 | after a claim or an update that took effect at time n, no delivery changes anything in any later state whose clock is below n + 60 |
| ProtocolJobs.AttemptsBounded | app/v2/reports.py:652-661 | a freshly admitted job has started exactly as many pipelines as workers took it over, up to the configured number, over all redeliveries, crashes and expired leases |
| ProtocolJobs.AlwaysOwned | app/v2/reports.py:646-665 | in every run job document, admission, owning tokens and counted starts agree, and a held finish carries the stored job |
| ProtocolJobs.OldWorkerIsFenced | app/v2/reports.py:374-385 | once a newer token owns a job, no update or finish with an older or null token changes anything in any later state, and a delivery under a live lease changes nothing |
| ProtocolJobs.CancellationIsSticky | app/v2/reports.py:346-358 | a job seen cancel-requested or cancelled stays so in every later state and never links another result |
| ProtocolKeys.OneJobPerKey | app/api/v2/report_jobs.py:128-134 | two jobs were never admitted under one key unless the key's record expired |
| ProtocolKeys.ReplayReturnsTheJob | app/api/v2/report_jobs.py:129-134 | until its record expires a key answers with its job or a conflict, and admits nothing |
| ProtocolKeys.AdmissionIsAtomic | app/api/v2/report_jobs.py:22-42 | reservation, a queued job on one to ten displayed articles, replay record and index entry appear together, or nothing changes |
| ProtocolKeys.RevokedStaysRevoked | app/session.py:100-179 | an identity that was issued and is gone never lives again, in any run |
| ProtocolKeys.RevokedForever | app/session.py:148-195 | after the revocation the session document and every map known by then stay as they are until they go, and nothing is admitted or linked |
| ProtocolKeys.AlwaysReplays | app/api/v2/report_jobs.py:22-42 | in every run a stored replay record names the job admitted under its key and hash |
| ProtocolKeys.DeletedForever | app/v2/state.py:309-336 | a deleted map is never recreated and never listed as open again |
| ProtocolCompletion.CompletedMeansLinked | app/v2/reports.py:601-622 | a job shown as completed has linked its result |
| ProtocolCompletion.CompletedSurvivesFinish | app/v2/reports.py:287-295 | a completion survives a finish call if and only if the call's token is not the job's |
| ProtocolCompletion.OutcomeEndsByOwnFinish | app/v2/reports.py:571-635 | over any run a completed, failed or cancelled job stays so while its document exists, unless a finish called with its own token stores over it |
| ProtocolCompletion.CompletedCanBeOverwritten | app/v2/reports.py:287-295 | a run that completes a job and then fails it while the map keeps the result |
| ProtocolResults.ResultHasLink | app/v2/reports.py:603-616 | in every run the result a map shows was linked by a job and has been there ever since |
| ProtocolResults.ResultMatchesSelectionIff | app/api/v2/report_jobs.py:156-158 | in every run the result shown was linked for exactly the articles selected now, if and only if the last admission since that link, if any, asked for the same articles as the linking job |
| ProtocolResults.ResultKeepsSelection | app/v2/maps.py:218-231 | an edit after which a map shows a result keeps the set of selected articles, unless it is an admission |
| ProtocolResults.ResultOutlivesSelection | app/api/v2/report_jobs.py:156-158 | a run after which a map shows the result of one article under the selection of another |
| MapDrafts.CollectDescendants | app/v2/maps.py:246-255 | the sweeps return exactly the transitive descendants, for any order of the nodes |
| MapDrafts.MapDraft.NewNode | app/v2/maps.py:141-146 | a node takes the next id and its article is recorded |
| MapDrafts.MapDraft.Replace | app/v2/maps.py:290-312 | a search with results leaves the document whose effect BranchEffect states: old subtree, new children, branch, record of the parent, articles and selection |
| MapDrafts.MapDraft.Reselect | app/v2/maps.py:302-311 | selection and detail keep only displayed articles; losing a selected one detaches the job and drops the result |
| MapDrafts.MapDraft.BranchOut | app/v2/maps.py:258-322 | expansion and research end in the accepted document (see BranchDecision, BranchEffect) or in the right refusal |
| MapDrafts.MapDraft.Restart | app/v2/maps.py:325-347 | a reset ends in the accepted document |
| MapDrafts.MapDraft.Patch | app/v2/maps.py:212-240 | a PATCH ends in the accepted document (see PatchDecision, PatchEffect) or in the right refusal |
| TreeLaws.SubtreeRemoval | app/v2/maps.py:290-294 | removing all descendants leaves every survivor its parent and the parent itself childless |
| MapLaws.CreatedGood | app/v2/maps.py:149-199 | a new map satisfies the tree invariant |
| MapLaws.UpdatedGood | app/v2/maps.py:212-240 | a PATCH keeps the tree invariant and selects displayed articles only |
| MapLaws.BranchedGood | app/v2/maps.py:258-322 | expansion and research keep the tree invariant, the node, depth and history limits, and exact child lists |
| MapEffects.BranchEffect | app/v2/maps.py:290-319 | exactly the descendants (research) or nothing (expansion) disappear, one fresh child per result appears in the next batch, survivors are unchanged; the record of the parent is its earlier record followed by the new articles in order, the other records stay; results are stored; the job is detached exactly when a selected article was lost; without results only the attempt is noted |
| MapEffects.BranchDecision | app/v2/maps.py:258-289 | which requests are invalid, which meet the depth or the node limit, and that every other one is accepted |
| MapEffects.PatchDecision | app/v2/maps.py:212-240 | which PATCH is invalid, which exceeds the plan, and that every other one is accepted |
| MapEffects.PatchEffect | app/v2/maps.py:212-240 | a PATCH changes the fields it names; another set of selected articles, and nothing else, detaches job and result; an empty selection closes the panel unless its state is given |
| MapEffects.CreationEffect | app/v2/maps.py:149-199 | a new map holds its first article and the selected neighbours as numbered children, with branch, record and articles, or nothing |
| MapEffects.JobEdits | app/api/v2/report_jobs.py:144-158 | an admission selects its articles and opens the panel exactly when all are displayed; detaching or ending a job takes it off the map and changes nothing but the result linked |
| MapHistory.WhateverWasDisplayedIsOnRecord | app/v2/maps.py:273-313 | over any run of edits an article displayed below a node at any moment is on record there in every later state that has the node, and once the record has reached the limit no child is ever added |
| MapHistory.RecordGoesOn | app/v2/maps.py:309-313 | over any run of edits the record of a node that stays only grows at its end |
| MapEdits.AppliedIds | app/v2/maps.py:141-146 | an edit keeps the snapshot, raises the revision by one and introduces ids only from the unused range |
| MapEdits.PlayedGood | app/v2/maps.py:258-347 | the invariant holds after every run of edits, and a retired node id never comes back |
| MapEdits.ResetAfterAnyRun | app/v2/maps.py:325-347 | after any run a reset succeeds and restores the created map on fresh ids, for any number of resets |
| ResetLaws.ResetIsFreshCopy | app/v2/maps.py:325-342 | every lookup of the renaming is defined, and the result is an isomorphic copy of the snapshot under an injective renaming to unused ids, with its summary and an empty selection; articles, cursor and revision stay |
| ResetLaws.ResetGood | app/v2/maps.py:325-347 | a reset keeps the tree invariant |
| Candidates.CollectFresh | app/agents/related_selector.py:155-163 | the scan takes the first new unique candidates up to the limit and remembers exactly their keys |
| Candidates.FreshIsNew | app/agents/related_selector.py:155-163 | taken candidates are unseen, have text, share no identity key and do not exceed the limit |
| Candidates.FreshTakes | app/agents/related_selector.py:155-163 | taken candidates have text, are unknown and pairwise different articles, at most as many as the limit says |
| Candidates.FreshLeavesOut | app/agents/related_selector.py:155-163 | a candidate is left out only if it has no text, is known, is the same article as a taken one, or the limit is reached |
| Candidates.FreshPermuted | app/agents/related_selector.py:155-163 | without shared keys and without a cut-off, any order of the candidates takes the same ones |
| Candidates.TallyConserves | app/agents/related_selector.py:176-197 | every evaluated candidate is counted as discarded once or remains |
| Candidates.Foremost | app/agents/related_selector.py:261-273 | the chosen article is preceded by none of the others |
| Candidates.ForemostPermuted | app/agents/related_selector.py:64-67 | the strict priority makes the choice independent of the order |
| Candidates.OneSorting | app/agents/related_selector.py:193-194 | the strict order leaves one way to sort |
| MmrSelector.NewsMapSelector.Add | app/agents/related_selector.py:149-197 | a round commits completely, or changes nothing when a vector is missing |
| MmrSelector.NewsMapSelector.Place | app/agents/related_selector.py:224-237 | the centre comparison decides repeat, withheld, unconnected or remaining, in that order |
| MmrSelector.NewsMapSelector.ExcludedBySelection | app/agents/related_selector.py:239-250 | the first displayed article that does not tell a candidate apart decides its counter |
| MmrSelector.NewsMapSelector.Select | app/agents/related_selector.py:252-276 | the loop computes the selection, remainder and counters whose laws the lemmas below state |
| MmrLaws.RoundsSound | app/agents/related_selector.py:149-276 | after any rounds, failed ones included: evaluated = discarded + remaining + selected, displayed articles are pairwise told apart, and nothing displayed was known before |
| MmrLaws.RoundsAppend | app/agents/related_selector.py:252-276 | what is displayed stays in its place; later rounds only append |
| MmrLaws.SelectedSound | app/agents/related_selector.py:252-276 | a selection shorter than its limit leaves nothing remaining, and nothing that remains repeats a displayed article |
| MmrLaws.SelectionIsGreedy | app/agents/related_selector.py:261-275 | every displayed article precedes, in the priority of its turn, all that came later or remain |
| MmrLaws.SelectionRewardsNovelty | app/agents/related_selector.py:261-275 | no article displayed later or remaining has a larger rounded weight * score - (1 - weight) * (greatest similarity to those displayed before) than the chosen one; ties go to the higher score, the longer description, the smaller key |
| MmrLaws.FirstIsMostRelevant | app/agents/related_selector.py:264 | under a rounding that keeps the order, the first displayed article has the highest score |
| MmrLaws.RelevantRemain | app/agents/related_selector.py:165-197 | exactly the relevant ones of the new candidates join those that remain: at the threshold or above, not by the company alone, told apart from the centre and connected to it |
| MmrLaws.BestComeFirst | app/agents/related_selector.py:188-197 | the new ones follow those that remained before, best first |
| MmrLaws.RoundCounts | app/agents/related_selector.py:165-237 | each new candidate that does not remain is counted where the first test against it sends it |
| MmrLaws.SweepCounts | app/agents/related_selector.py:239-250 | each article dropped between two choices is counted as a repeat or as withheld, by the first displayed article that does not tell it apart |
| MmrLaws.OnlyRepeatsGo | app/agents/related_selector.py:252-276 | a selection drops nothing but what a displayed article does not tell apart |
| MmrLaws.SelectionResumes | app/agents/related_selector.py:252-276 | selecting m and later n articles leaves the same selection, remainder and counters as selecting n |
| MmrLaws.AddedInAnyOrder | app/agents/related_selector.py:149-197 | any permutation of separate candidates without a cut-off gives the same state |
| MmrLaws.RunsInAnyOrder | app/agents/related_selector.py:149-276 | the same over whole runs of rounds |
| DecisionSelector.DecisionNewsMapSelector.Add | app/agents/decision_selector.py:38-78 | a round commits completely, or changes nothing when a question gets no answer |
| DecisionSelector.DecisionNewsMapSelector.Select | app/agents/decision_selector.py:80-106 | the copies replace the lists only when every question was answered |
| DecisionSelector.DecisionNewsMapSelector.Compare | app/agents/decision_selector.py:97-103 | displayed articles are asked about in order until one makes the candidate redundant |
| DecisionLaws.RoundsSound | app/agents/decision_selector.py:38-106 | conservation, pairwise non-redundant displayed articles and novelty after any rounds |
| DecisionLaws.RoundsAppend | app/agents/decision_selector.py:80-106 | later rounds only append to the selection |
| DecisionLaws.DecidedSound | app/agents/decision_selector.py:94-106 | a completed round appends only and stops short of its limit only when nothing is pending |
| DecisionLaws.SelectionResumes | app/agents/decision_selector.py:80-106 | when every question is answered, two calls that select m and then n articles leave the selection, remainder and counters of one call for n |
| DecisionLaws.DecidedAlike | app/agents/decision_selector.py:86-96 | the strict priority makes a round independent of the order of the remaining articles |
| DecisionLaws.SelectionRewardsNewRoles | app/agents/decision_selector.py:86-96 | no article displayed later or pending has a larger rounded helpfulness, less 0.3 for each displayed article of its role, than the chosen one; ties go to the better search rank, then the smaller key |
| DecisionLaws.OnlyRedundantGo | app/agents/decision_selector.py:97-104 | a completed round drops nothing but what a displayed article makes redundant |
| DecisionLaws.DroppedAreCounted | app/agents/decision_selector.py:97-106 | a completed round counts what it dropped as neighbour repeats and changes no other counter |
| DecisionLaws.AnsweredCompletes | app/agents/decision_selector.py:80-106 | a round in which every question is answered completes |
| DecisionLaws.UsefulRemain | app/agents/decision_selector.py:53-78 | exactly the useful new candidates whose expected helpfulness reaches the threshold join those that remain |
| DecisionLaws.RoundCounts | app/agents/decision_selector.py:53-78 | each new candidate that does not remain is counted by the group its answer puts it in |
| DecisionLaws.RunsInAnyOrder | app/agents/decision_selector.py:38-106 | reordering separate candidates changes no selection and no counter at any point of a run |
| NewsMap.InitialEnd | app/agents/news_map.py:79-90 | the first round ends right before the first unique candidate that is one too many |
| NewsMap.Inspect | app/agents/news_map.py:125-132 | batches accept exactly the first articles that pass the category check, at most as many as needed |
| NewsMap.FirstFittingTaken | app/agents/news_map.py:121-131 | of a page the first articles without a known key that pass the category check are used, as many as are needed |
| NewsMap.Expansion.Search | app/agents/news_map.py:114-142 | a delivered page moves the cursor to right behind it, whatever happens to its articles; the search is exhausted exactly when the page is short or reaches the number of hits; only a failing service leaves nothing |
| NewsMap.Expansion.Next | app/agents/news_map.py:144-173 | the next page starts at the cursor with the configured size, cut off at position 50; there is none exactly when the search is unsupported, has no query, is exhausted or has passed 50 |
| NewsMapBuild.Round | app/agents/news_map.py:243-246 | a round keeps the candidate budget and leaves the selection settled, or changes nothing |
| NewsMapBuild.StockHolds | app/agents/news_map.py:218-221 | a build starts from exactly the offered candidates without a known key and without a rank above 50, each as often as it is offered |
| NewsMapBuild.Expand | app/agents/news_map.py:228-265 | the selector is fed the cached rest and then each delivered page in turn, but for a last one whose round failed; each reason for the end holds; budgets are kept, and the pages delivered are one chain from the cursor on |
| NewsMapBuild.Build | app/agents/news_map.py:200-265 | the selection is that of the first batch of the stock, and while it is too short of the rest and of one page after the other; the build fails or is partial only when something it asks for fails; every other status and reason holds of the budgets, the pages and the cursor; evaluated and searches stay in their budgets, complete means exactly that the target is met, items are new and distinct, every page asked for lies within positions 1..50, delivered pages form a chain from the old cursor to the new one and move no other cursor, and a failed first round leaves the context alone |
| NewsMapBuild.BuildAll | app/agents/news_map.py:114-173 | builds that share a search context, in any number and for any queries, deliver the raw positions between the old and the new cursor of each query once each, and no others |
| NewsMapBuild.PositionsDeliveredOnce | app/agents/news_map.py:114-173 | a chain of pages delivers every position between its cursors exactly once, none past position 50 |
| MapSelection.BranchSelectionIsOffered | app/v2/maps.py:276-281 | a build that excludes the displayed articles gives branch_map what the tree invariant needs |
| MapSelection.FirstSelectionIsNew | app/v2/maps.py:170-185 | the first selection neither repeats the centre nor itself |
| BodyQueue.ExtractBodies | app/v2/reports.py:488-554 | a batch that ends parts the requested articles into successes and failures, each as its last reply says; what is left in the queue are exactly the failures worth a retry, and something is left only when the time was over; retry, charge and key rules are kept and calls paced; it fails only when a checkpoint does |
| BodyQueue.TakeTurn | app/v2/reports.py:505-546 | one turn: the head is looked up once and tried before the time is over; after a retryable rate limit, time-out, network or provider error it goes to the end of the queue, after anything else it leaves it; success and failure replace each other; only a rate limit moves to the next key; after a provider call with articles left there is a pause, unless the time would be over by its end |
| BodyQueue.NothingWorthRetryIsLeft | app/v2/reports.py:536-537 | a batch whose queue ran empty ends without a retryable rate limit, time-out, network or provider error |
| BodyQueue.FirstTurnsFirst | app/v2/reports.py:505-537 | an article is tried again only after every requested one was tried or found missing |
| BodyQueue.KeysRotate | app/v2/reports.py:534-535 | the first attempt uses the first key; a rate limit, and nothing else, makes the next attempt use the next key |
| BodyQueue.ReportCounts | app/v2/reports.py:538-540 | at every progress update processed + pending = requested, which the updates of a finished batch also record |
| BodyQueue.ProgressNeverGoesBack | app/v2/reports.py:539-551 | the processed count never decreases and never exceeds the requested one |
| BodyQueue.NoRetryAfterFinal | app/v2/reports.py:529-537 | an article is tried again only after a retryable rate limit, time-out, network or provider error, never after a success |
| BodyQueue.ChargedOnFirstAttempt | app/v2/reports.py:516-523 | only the first attempt for an article may charge the shared budget, and it does when it calls the provider |
| BodyQueue.UnitsBounded | app/v2/reports.py:443-444 | a finished batch charged at most one unit for each requested article |
| BodyQueue.LoggedInTurn | app/v2/reports.py:534-535 | the key changes after a rate limit only, to the next one |
| BodyQueue.PausesFit | app/v2/reports.py:541-546 | k provider calls satisfy (k - 1) * gap < limit |
| BodyQueue.FiledSorts | app/v2/reports.py:529-537 | a reply keeps every article in exactly one of pending, succeeded and finally failed |
| Excerpts.ExcerptIsPrefix | app/v2/reports.py:163-169 | an excerpt is a prefix within the budget: the whole text, or one cut at its last sentence end unless that loses more than half, and trimmed |
| ReportEvidence.PipelineDocumentPasses | app/v2/reports.py:722-753 | the document built from any finished batch passes every check of save_report, with excerpts of at most 12000 and 60000 characters in total |
| ReportEvidence.DraftReports | app/v2/reports.py:722-753 | the document of a batch lists the requested articles, the successes and the failures in ascending order, quotes each success up to an equal share of 60000 characters but no more than 12000, counts them, and can be reused exactly when nothing failed |
| ReportEvidence.DraftedIff | app/v2/reports.py:723-724 | a batch gives a report unless nothing succeeded or the analysis cites an article it was not given |
| ReportEvidence.CheckedIff | app/v2/persistence.py:181-200 | a document passes the checks if and only if it is a counted partition quoted from stored bodies |
| ReportEvidence.BudgetFits | app/v2/reports.py:173 | n excerpts of the budget for n never exceed the total |
| ReportStore.Collection.Insert | app/v2/persistence.py:133-144 | a reusable report is stored once per generation key, a taken id is refused, and nothing stored changes |
| ReportStore.ReuseIsStable | app/v2/persistence.py:111-112 | once a report can be reused for a key, every later state offers that report and no other |
| Quota.QuotaStore.Reserve | app/usage_limits.py:22-42 | all buckets are charged exactly when none is blocked; otherwise only missing expiries are repaired and the longest wait is returned |
| Quota.ChargedCounts | app/usage_limits.py:37-40 | a charge adds to each bucket the number of times the request names it, and to no other |
| Quota.AdmittedWithinLimits | app/usage_limits.py:24-41 | an admitted request of distinct buckets raises each by one, none above its limit |
| Quota.RepeatedBucketFits | app/usage_limits.py:24-41 | a bucket named more than once stays within its limit exactly when all its units fit |
| Quota.RepeatedBucketOverruns | app/usage_limits.py:24-41 | a request that names a bucket of limit one twice leaves it at two |
| QuotaLaws.RunTracks | app/usage_limits.py:37-41 | in every run the stored counter is the state of the key's last window, and a charge opens a window exactly when the last one is over |
| QuotaLaws.AdmittedIffRoom | app/usage_limits.py:22-42 | after any run a request is admitted if and only if each bucket it names has a positive limit and its last window is over or holds fewer charges than that |
| QuotaLaws.CountsWithinLimit | app/usage_limits.py:24-41 | at no time does a readable count exceed its limit |
| QuotaLaws.AtMostTwiceTheLimit | app/usage_limits.py:22-42 | every interval of one window length, wherever it begins, sees at most twice the limit of charges |
| QuotaLaws.AdmittedAfter | app/usage_limits.py:25-36 | a denied request is admitted after a wait, with nothing else charged, exactly when the wait exceeds the remaining time |
| QuotaLaws.RetryAfterExact | app/usage_limits.py:124-126 | Retry-After (section 10.2.3 of RFC 9110) is the least sufficient number of seconds, unless the remaining time is a positive multiple of a second, when it is one too few |
| QuotaLaws.RetryAfterTooEarly | app/usage_limits.py:124-126 | a run from the empty store in which a denied request waits the announced second and is denied again |
| ProviderBudget.Ledger.Reserve | app/v2/provider_budget.py:28-54 | the script's verdict and ledgers, a denial changing nothing |
| ProviderBudget.Ledger.MemoryReserve | app/v2/provider_budget.py:89-104 | the in-process verdict and ledgers, a denial changing nothing |
| ProviderBudget.DailyBudgetHolds | app/v2/provider_budget.py:28-53 | on a clock that does not go back neither path grants a day more than the daily budget, and no request finds the ledger corrupt |
| ProviderBudget.JobTracks | app/v2/provider_budget.py:43-52 | after any run a path holds for a job the units granted since the last pause that outlasted its ledger, within the budget |
| ProviderBudget.JobBudgetHolds | app/v2/provider_budget.py:43-52 | on either path a job's units stay within its budget while its grants follow each other within the lifetime of its ledger |
| ProviderBudget.RetryReachesNextDay | app/v2/provider_budget.py:29-31 | on either path the announced wait is within 1..86400 seconds, reaches the next Korean calendar day, and no shorter wait does |
| ProviderBudget.DailyOutlivesItsDay | app/v2/provider_budget.py:50-51 | a daily record never expires while its day lasts |
| ProviderBudget.AnswerFromGrants | app/v2/provider_budget.py:89-104 | at any point of a run a path answers from its own grants alone: refused for the job when its units since the last long pause and these exceed the job's budget, else for the day when those of the day and these exceed the daily one, else granted |
| ProviderBudget.VerdictsAgreeIff | app/v2/provider_budget.py:89-104 | on a whole-second clock that does not go back script and in-process ledger give the same verdicts over a whole run if and only if no request of it is decisive, that is, fits the job budget on the in-process reading of the job's grants and not on the script's |
| ProviderBudget.LedgersAgree | app/v2/provider_budget.py:101-104 | while the verdicts agree, the daily ledgers are equal and the job ledgers differ in the units alone, in a stated way |
| ProviderBudget.SameAwayFromLastInstants | app/v2/provider_budget.py:89-104 | over a run without a request at the last instant of its job's ledger all verdicts and all ledgers are the same |
| ProviderBudget.PathsPartLater | app/v2/provider_budget.py:96 | a run whose requests at such an instant both paths grant, and whose next one only the in-process path grants |
| DiffbotRetry.Backoff | app/agents/diffbot_client.py:124-134 | a wait is never negative nor longer than the larger of a second and the cap, and there is none exactly when the server asks for more than the cap |
| DiffbotRetry.Call | app/agents/diffbot_client.py:316-402 | the log follows the replies, attempts are one plus retries plus switches within the cap, the result has its reason in the last turn, and the final "exhausted" is unreachable |
| DiffbotRetry.LimitedKeyNotReused | app/agents/diffbot_client.py:370-383 | with several keys, a key that met a rate limit is never used again |
| DiffbotRetry.WaitsEndBeforeDeadline | app/agents/diffbot_client.py:393-398 | no wait is started that would end at or after the deadline |
| DiffbotRetry.TotalWait | app/agents/diffbot_client.py:385-398 | all waits together take at most the retries allowed times the larger of a second and the cap |
| DiffbotLaws.RepliesMean | app/agents/diffbot_client.py:114-140 | the category of every reply by its status and body, which failures may be repeated, and whose Retry-After counts |
| DiffbotLaws.AttemptsFollow | app/agents/diffbot_client.py:366-402 | with several keys a rate limit moves the call to the first key that has not met one; else a failure worth it is repeated on its key after the pause of its turn; no attempt follows another in any other way |
| DiffbotLaws.EndsOnlyFor | app/agents/diffbot_client.py:316-402 | a call succeeds only with an article, and fails only with an interruption or when nothing is left to try: no other key, no attempt, no retry, a failure not worth one, a Retry-After above the cap, or a pause that would reach the deadline |
| DiffbotLaws.PausesDouble | app/agents/diffbot_client.py:124-134 | without a Retry-After the first pause is the base and each one doubles the one before, up to the cap |
| DiffbotLaws.ServerSetsPause | app/agents/diffbot_client.py:124-134 | a Retry-After up to the cap is waited for, but at least a second; above the cap there is no pause |

## Left out

- HTTP routing, cookies, request parsing, message queue, Redis and MongoDB connections: plumbing.
- Losing a Redis mutex lease inside a critical section: assumed not to happen, see above.
- Expiry of map and job keys and of the session key is an event that may happen at any time; of the expiry times written into documents only that of the session is part of the state, because its readers look at it.
- ProtocolStore.Store.Admit: the plan's article limit and the quota charge that precede an admission are not part of the step; requests that fail them never reach it.
- Result grants after a completion (app/v2/state.py) and the display fields of jobs (stage, progress, warnings, error): no property depends on them.
- The in-process mode of the shared documents: admission there relies on the idempotency mutex instead of checking the key again, and `_finish` writes map and job one after the other; only the scripts are modelled.
- The in-process quota path: its second loop does not reset a count whose window ended, so it is not the script; only the script is modelled.
- Article texts, model answers, embeddings, search results and provider responses: arbitrary inputs.
- The regular expressions and lexicons behind relevance, comparison and keywords: the decisions they lead to are arbitrary functions.
- Sorting of the cached candidate pool and the latest search session of the v1 map: the pool is any sequence, and expansion is modelled with a search context, which every v2 request passes.
- NewsMapBuild.BuildAll: a request builds on a copy of the map's search context that is stored with its commit; a refused commit, or a reset, takes the cursors back, and is not part of the sequence of builds.
- NewsMapBuild.Build: drives the embedding selector only; the decision selector has its own laws but no build loop, and time-outs and provider errors are one kind of interruption.
- Protocol.Step: the sections of one request are separate events, so that a request may also stop half-way; which events one request issues, and in what order, is not fixed.
- BodyQueue.ExtractBodies: an execution is a finite list of turns, the end of the list being the end of the time; a loop that never ends because the clock stands still is not modelled.
- Floating point: scores, waits and times are reals or whole milliseconds, without rounding errors.
- Strategy generation and its persistence, body caching, thumbnails, summaries and v1 endpoints: thin.
