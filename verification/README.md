# Den memories: curation store and guided recall

A Dafny model of the two connected cores of the den-memories service, with proofs about every
run, every request and every input.

**Curation store.** Memory candidates are created or captured, claimed, relabelled, split, merged
and promoted to memory entries; proposals wait for a decision and are applied at most once; every
write keeps three full-text side tables and two logs. `Service.Handler` is the class whose fields
are the tables. Each HTTP handler is a method, one transaction (the database has a single
connection), proved equal to `Commit(old(Tables()), XChange(...))`, where `XChange` in `Changes`
says what the handler writes or which error leaves everything as it was. `Handle` ties all of them
to one step function. `Verdicts` and `Decisions` say which requests are accepted and what becomes of
each capture, `Effects`, `Edits` and `Events` what each request leaves in the rows and the logs, key
by key and in the columns alone, and `Runs`, `Proposals`, `Promotions`, `Curator`, `Evidence` and
`Slugs` prove what holds over all runs of steps.

**Guided recall.** Full-text hits and an optional topic view give the roots; `Traversal` walks the
topic graph breadth first; `Scoring` labels and scores over exact reals; `Packet` sorts in place,
cuts to the limit and fills the token budget; `Recall` is the handler that composes them over the
tables the store writes. `Delivery` says what a delivered packet means in the columns of the tables,
and `Journeys` joins the cores: what is promoted is recalled until somebody edits it.

Reading order: `Schema`, `Rows`, `Capture`, `Changes` (what each request means), `WellFormed`,
`Refinement` (what the handlers' statements leave), `Service` (the methods), `History`, `Runs`,
`Proposals`, `Slugs`, `Promotions`, `Evidence`, `Effects`, `Decisions`, `Edits`, `Events`, `Verdicts`,
`Curator`; then `Traversal`, `Scoring`, `Packet`, `Recall`, `Delivery`, `Journeys`. `Base` and `Text`
hold shared vocabulary.

Three statements one might expect are false of the code. The model keeps the code as it is, shows
a run in which each fails and proves when it holds:

- *A candidate is promoted at most once.* `Promotions.SomeRunPromotesTwice` creates, promotes, claims
  and promotes again under another slug. A single promotion succeeds if and only if actor and reason
  are named, the candidate is stored and open, its entry passes the CHECKs under a free slug and its
  references pass (`Promotions.PromotionSucceeds`). A candidate is promoted at most once when nobody
  claims or patches it (`Promotions.UnclaimedIsPromotedOnce`). Without giving a slug for the entry, it
  is promoted a second time only if the first time was the auto-promotion of a capture with no slug
  at all, and never a third time (`Promotions.PlainlyPromotedOnce`,
  `Promotions.PlainlyPromotedTwiceAtMost`; `Promotions.SomeRunLeavesACapturePending` has such a second
  time). In general two promotions have a reopening event between them
  (`Runs.PromotedAgainOnlyAfterReopening`).
- *An eligible capture is promoted.* It has three outcomes, each if and only if
  (`Slugs.AutoPromotionOutcome`): promoted, when log row, entry and references pass and the slug is
  free; kept pending with a captured and an errored event, when only the entry does not fit; refused
  with nothing kept, not even the candidate, otherwise. Captures without a slug all ask for the same
  one, so in any run at most one of them is promoted (`Slugs.FallbackSlugPromotesOnce`);
  `Promotions.SomeRunLeavesACapturePending` is a run with two.
- *Full-text rows carry the text of their rows.* For topic nodes the indexed slug follows the row if
  and only if no update carries another slug (`Slugs.NodeIndexSlugAfterUpdate`, with the failing
  case in `Slugs.NodeIndexCanDrift`). Entries, candidates and node titles and summaries never drift.

## Model

| member | source | states |
|---|---|---|
| Service.Handler.Handle | internal/httpapi/api.go:34-104 | Every write request of candidates, captures, proposals, entries, nodes, edges and references is one atomic step: the tables become exactly what its change says or stay as they were with the error it reports, and well-formedness is kept |
| Service.Handler.ReviseRow | internal/httpapi/curation.go:18-61 | Claim, reject, status PATCH, relabel and rescope write one candidate row, re-index it and append one event with both snapshots; a missing row or failed CHECK changes nothing |
| Service.Handler.UpdateCandidateStatus | internal/httpapi/candidates.go:240-286 | The status PATCH writes any stored status whatever the old one, with default actor and reason |
| Service.Handler.RescopeCandidateById | internal/httpapi/curation.go:295-390 | Rescope insists on four scope keys, an actor and a reason before it touches the row |
| Service.Handler.PromoteCandidateById | internal/httpapi/curation.go:63-127 | Promotion checks actor, reason and status, then writes entry, index, references, candidate and event together or nothing |
| Service.Handler.PromoteTo | internal/httpapi/candidate_ops.go:91-158 | Entry, references, promoted row and event are written together, or the failing insert rolls all of them back |
| Service.Handler.AttachSourceRefs | internal/httpapi/candidate_ops.go:139-158 | One reference row per object in the list, in order, stopping at the first CHECK failure |
| Service.Handler.UpdateCandidateFields | internal/httpapi/candidate_ops.go:27-77 | Absent keys leave columns alone; the index row follows the stored row; a failed CHECK writes nothing |
| Service.Handler.CaptureMemoryRequest | internal/httpapi/candidates.go:59-172 | Each capture decision with its log row, including the auto-promotion error path that commits the pending candidate and two events |
| Service.Handler.AutoPromote | internal/httpapi/candidates.go:131-157 | A refused entry insert keeps candidate and captured event and adds an errored one; a refused reference restores the tables saved before |
| Service.Handler.CreateCandidateRow | internal/httpapi/candidates.go:18-57 | Candidate, index row and captured event together, or nothing |
| Service.Handler.SplitCandidateById | internal/httpapi/curation.go:129-205 | Every object fragment becomes a pending candidate in order, the original is marked, one event records all of them; any refusal restores the tables |
| Service.Handler.MergeCandidatesByIds | internal/httpapi/curation.go:207-289 | The merged candidate, all marked sources and the event, or nothing |
| Service.Handler.MarkMerged | internal/httpapi/curation.go:259-271 | The loop over the sources marks and re-indexes each, repeated ids included, and collects their snapshots |
| Service.Handler.CreateCurationProposal | internal/httpapi/curation_proposals.go:245-283 | Order of refusals, defaults and the stored row with the next id |
| Service.Handler.ApplyCurationProposal | internal/httpapi/curation_proposals.go:135-207 | The effect on the memory tables and the proposal row commit together; a refused apply leaves every table as it was, whatever its statements wrote before the refusal |
| Service.Handler.ApplyPromote | internal/httpapi/curation_proposals.go:345-381 | The apply handler's own promotion statements write what its own specification says, or refuse for the reason it gives |
| Service.Handler.MarkCurationProposal | internal/httpapi/curation_proposals.go:217-243 | Marks a waiting proposal; one that no longer waits is left alone without an error |
| Service.UniqueInts | internal/httpapi/curation_proposals.go:450-461 | The first occurrence of every id, in order |
| Service.Handler.CreateEntryRow | internal/httpapi/entries.go:10-65 | Entry, index row, references and event, or nothing |
| Service.Handler.UpdateEntryBySlug | internal/httpapi/entries.go:76-127 | The stored row overlaid by the payload, null included; slug, kind and format stay and the index takes the row's text |
| Service.Handler.StatusEntry | internal/httpapi/entries.go:129-147 | With no other key in the payload, archive and supersede succeed if and only if the slug exists, change status and editor of that entry alone, and leave every index row as it was |
| Service.Handler.CurationSupersedeEntry | internal/httpapi/curation_aliases.go:10-53 | Only status and editor change, so the index is right without a refresh |
| Service.Handler.UpdateNodeBySlug | internal/httpapi/graph.go:69-114 | The row keeps its slug while the index takes the payload's |
| Service.Handler.CreateEdgeRow | internal/httpapi/graph.go:130-167 | A duplicate link and a dangling end are refused; otherwise edge and event |
| Service.Handler.DeleteEdgeRow | internal/httpapi/graph.go:169-200 | The edge goes, its unlink event is logged, and every event forgets its id |
| Service.Handler.FtsDriftIssues | internal/httpapi/audit.go:182-209 | No issue if and only if the three index id sets equal their tables', which holds in every valid state |
| WellFormed.StepKeepsWellFormed | internal/httpapi/write_ops.go:13-37 | Every request keeps index text equal to row text (node slugs excepted), slugs unique, ids positive, CHECKs and foreign keys satisfied |
| WellFormed.IndexesTellColumns | internal/httpapi/write_ops.go:13-37 | In a well-formed database every index row has the id and the text columns of its row |
| WellFormed.VocabulariesAreClosed | internal/store/migrations/001_v0_schema.sql:1-56 | In a well-formed database status, scope, authority, discovery, claim, confidence, stability and format are words of their lists |
| Verdicts.RequestsAreAccepted | internal/httpapi/api.go:34-104 | In every well-formed database each of the 24 requests is accepted exactly when its payload brings the keys it must with words of the lists, actor and reason included, and the rows, slugs and states it relies on are there |
| Changes.StoredCapturesAreClean | internal/httpapi/candidates.go:97-143 | No candidate and no entry a capture stores, whatever its payload overrides, has a secret marker in title, summary or body, or policy strength |
| Capture.CapturedTextIsClean | internal/httpapi/write_ops.go:96-152 | Fallbacks, truncation and overrides never bring a filtered text into the row or the entry built from a capture |
| Text.SecretShows | internal/httpapi/write_ops.go:137-152 | A secret in one part, in any case, is still found after joining and trimming |
| Text.TrimHidesNothing | internal/httpapi/write_ops.go:137-152 | Trimming neither hides a marker nor makes one |
| Text.FirstLineTells | internal/httpapi/write_ops.go:165-180 | The first line of a text is its first line that is not blank, without outer white space and cut to the limit |
| History.ChangesAreLawful | internal/httpapi/write_ops.go:39-44 | Every change writes exactly the rows its event snapshots, or newborn pending candidates, and raises to policy or reopens only with the matching event |
| Runs.RunsKeepInvariants | internal/httpapi/curation.go:10-390 | Every reachable database is well formed and satisfies the replay, policy and promotion invariants |
| Runs.ReplayRebuildsCandidates | internal/httpapi/candidate_ops.go:27-77 | Replaying the whole log over the birth rows gives the candidate table of every reachable state |
| Runs.NoReturnToPending | internal/httpapi/candidates.go:263-277 | Without a status PATCH no candidate ever returns to pending |
| Runs.PromotedAgainOnlyAfterReopening | internal/httpapi/curation.go:91-106 | Between two promote events of a candidate lies a claim event or a status PATCH back to an open status |
| Promotions.PromotionSucceeds | internal/httpapi/curation.go:63-121 | A promotion succeeds if and only if actor and reason are named, the candidate is stored and open, its entry passes the CHECKs under a free slug, and its references pass theirs |
| Promotions.RequestsAccount | internal/httpapi/candidate_ops.go:27-77 | Every request keeps the slug and the references of every candidate, and only a claim or a status PATCH of a candidate reopens it |
| Promotions.OriginsArePermanent | internal/httpapi/candidate_ops.go:27-77 | No candidate disappears or changes its proposed slug or its references in any run |
| Base.DecimalReadsBack | internal/httpapi/candidate_ops.go:92-98 | The number in the slug of an entry reads back as the candidate's id |
| Promotions.UnclaimedIsPromotedOnce | internal/httpapi/curation.go:91-106 | In any run in which nobody claims or patches a candidate it has at most one promote event |
| Promotions.PlainlyPromotedOnce | internal/httpapi/candidate_ops.go:92-98 | Of two promotions of one candidate in a run that were given no slug for the entry, auto-promotion, direct promotion or applied proposal, the first was the auto-promotion of a capture with no slug at all and the second was not a capture |
| Promotions.PlainlyPromotedTwiceAtMost | internal/httpapi/candidate_ops.go:92-98 | In any run no candidate is promoted three times without being given a slug |
| Promotions.PromotedTwice | internal/httpapi/curation.go:41-46 | From any well-formed state, a candidate promotable under two slugs can be promoted, claimed and promoted again |
| Promotions.SomeRunPromotesTwice | internal/httpapi/curation.go:41-106 | A run from the empty database in which one candidate has two promote events |
| Runs.PolicyNeedsARaise | internal/httpapi/write_ops.go:70-81 | A candidate of policy strength has a relabel or rescope event with actor and reason behind it |
| Proposals.ProposalsAreSound | internal/httpapi/curation_proposals.go:135-243 | In every reachable state a proposal waits, was decided, or was applied by an existing event for its one candidate, with an existing entry exactly when it is a promotion; events and entries of distinct proposals are distinct |
| Proposals.ProposalsAreBornWaiting | internal/httpapi/curation_proposals.go:254-256 | A new proposal is proposed or needs a human |
| Proposals.DecidedProposalsAreFrozen | internal/httpapi/curation_proposals.go:157-201 | Once decided, a proposal never changes again |
| Proposals.ProposalTrafficKeepsTruth | internal/httpapi/curation_proposals.go:217-283 | Creating, rejecting or deferring a proposal changes no other table |
| Changes.AppliedIsPromoted | internal/httpapi/curation_proposals.go:345-381 | The statement sequence of the apply handler and that of the promote handler write the same rows and refuse for the same reasons |
| Proposals.ApplyIsPromote | internal/httpapi/curation_proposals.go:135-207 | Applying a waiting promote proposal fails exactly when, and otherwise writes to every other table exactly what, promoting with the merged payload does |
| Proposals.ApplyIsReject | internal/httpapi/curation_proposals.go:383-400 | Applying a waiting reject proposal has the verdict of rejecting its candidate directly, and writes to every other table the same |
| Curator.CuratedPromotionIsDirect | internal/curator/curator.go:61-106 | On an unchanged candidate, apply and direct promotion agree on the error, and on every table if and only if the direct one fails or the kind is not empty |
| Curator.PassStores | internal/curator/curator.go:61-106 | Every proposal a successful pass stored has the kind, status, confidence, proposer and reason its configuration asks for |
| Curator.CuratedRejectionIsDirect | internal/httpapi/curation_proposals.go:383-400 | Applying a waiting proposal of a reject pass has the verdict of a direct reject by the same actor, and leaves the same tables |
| Curator.DeferredNeedsAHuman | internal/curator/curator.go:97-101 | A proposal of a defer pass needs a human, and every apply of it is refused with no table changed |
| Curator.ProposedEntryIsPromotedEntry | internal/curator/curator.go:178-198 | The curator's entry is the one promotion derives by itself, except that an empty kind becomes fact |
| Curator.RunPass | internal/curator/curator.go:109-176 | Whatever fails, the service holds proposals for a prefix of the selection; success means that a proposal is stored for each selected candidate, and a supported configuration succeeds unless the connection fails |
| Curator.SelectionIs | internal/curator/curator.go:117-150 | A pass selects a candidate exactly when it is pending, no proposal about it waits, it is wanted or nothing is, and fewer open candidates than the limit, 50 by default, have a lower id |
| Curator.CurationQueue | internal/httpapi/curation_proposals.go:35-78 | The waiting candidates by id up to the limit, each with its state |
| Curator.QueueStateForCandidate | internal/httpapi/curation_proposals.go:327-343 | The state is decided by the candidate's status and its active proposals |
| Curator.SecondPassSelectsNothing | internal/curator/curator.go:130-150 | After a pass reported successful that was not a dry run, the same pass selects nothing, whatever its action and proposer kind |
| Curator.AtMostOneActiveProposal | internal/curator/curator.go:130-176 | Over any sequence of complete or interrupted passes, with any requests of others before, after and between the posts of a pass that create no proposals, a candidate gets at most one active proposal, unless it had more to begin with |
| Curator.PassesKeepOneActive | internal/curator/curator.go:130-176 | Whatever others request between the queue read and the posts of a pass, proposals of their own included, at most one active proposal of a candidate was made by passes |
| Curator.PassesAreTurns | internal/curator/curator.go:130-176 | What a pass leaves when nobody interferes is what its queue read and its posts leave one by one |
| Evidence.MergeKeepsEvidence | internal/httpapi/curation.go:230-272 | A merged candidate's references are those of its sources, concatenated in order |
| Evidence.PromotionKeepsEvidence | internal/httpapi/candidate_ops.go:131-158 | A promotion appends one row per object-valued reference, in order, pointing at the new entry, or changes nothing |
| Evidence.EvidenceReachesTheEntry | internal/httpapi/candidate_ops.go:131-158 | In any run the references a candidate has at any time are those that any later promotion of it, direct or through a proposal, attaches to the entry, one row each, in order |
| Evidence.MergedEvidenceReachesTheEntry | internal/httpapi/curation.go:86-121 | In any run every later promotion of a merged candidate, direct or through a proposal, attaches the evidence of all sources in order |
| Effects.PromotionMakes | internal/httpapi/candidate_ops.go:91-129 | Every accepted promotion of a stored candidate makes one active, curated Markdown entry; each column is the override, or else the candidate's, or else the default |
| Effects.CaptureMakes | internal/httpapi/candidates.go:131-157 | Every auto-promoted capture makes one such entry of the captured candidate under its own keys |
| Effects.ApplicationMakes | internal/httpapi/curation_proposals.go:345-415 | An applied promotion takes each override from the action's payload if it has the key, and from the proposed entry otherwise |
| Effects.SplitMakesParts | internal/httpapi/curation.go:162-190 | The k-th object fragment is the pending candidate with the k-th new id, holding the keys it gives and else the original's columns; the original changes status and editor only |
| Effects.MergeMakesOne | internal/httpapi/curation.go:241-271 | The merged candidate has kind and labels of the first source and all titles, bodies and summaries one behind the other, unless the payload gives others; the sources change status and editor only |
| Effects.IgnoredCapturesOnlyLog | internal/httpapi/candidates.go:75-100 | A capture in a mode that stores nothing, among them every capture of a worker or an auditor that names no mode, logs one ignored event and nothing more |
| Effects.UnknownModesOnlyLog | internal/httpapi/candidates.go:79-82 | A mode outside the list logs one errored event and nothing more |
| Effects.WorkersPromoteNothing | internal/httpapi/candidates.go:317-330 | No capture of a worker, an auditor or nobody makes an entry, whatever the mode |
| Effects.SecretsAreNotStored | internal/httpapi/write_ops.go:137-152 | A capture whose title, summary, body or raw text holds a secret marker stores nothing in any mode, and is logged as filtered where captures are accepted |
| Effects.CapturesStore | internal/httpapi/write_ops.go:97-135 | An accepted capture stores what its payload gives, a body from the raw text and an authority from the scope, and is logged as captured |
| Decisions.CapturesAreDecided | internal/httpapi/candidates.go:59-172 | The first event of every accepted capture has the decision, the reason and the text sizes that mode, role, runtime, texts and columns of the payload determine; any decision but captured changes nothing else |
| Events.PromotionIsLogged | internal/httpapi/curation.go:109-118 | Every accepted promotion of a stored candidate, direct or through a proposal, logs one event with promoter, reason, the row before, and the row, entry and reference ids after |
| Events.AutoPromotionIsLogged | internal/httpapi/candidates.go:140-157 | An auto-promoted capture logs one event with the captured payload before and the rows after |
| Events.AutoPromotionAttaches | internal/httpapi/candidate_ops.go:139-158 | An auto-promoted capture attaches one reference row for each object it brings, in order, to the new entry |
| Events.SplitIsLogged | internal/httpapi/curation.go:190-200 | A split logs one event with the original before and after and every part in order |
| Events.MergeIsLogged | internal/httpapi/curation.go:255-284 | A merge logs one event with all sources before and after, in order, and the merged row |
| Edits.ClaimWrites | internal/httpapi/curation.go:10-61 | A claim writes status and editor of one candidate and one claim event, and changes nothing else |
| Edits.RejectWrites | internal/httpapi/curation.go:14-61 | A reject does the same with status rejected |
| Edits.PatchWrites | internal/httpapi/candidates.go:240-286 | The PATCH writes the status it is given and logs it under the action that fits |
| Edits.RelabelWrites | internal/httpapi/curation.go:352-390 | A relabel sets the keys it is given and no other column |
| Edits.RescopeWrites | internal/httpapi/curation.go:295-350 | A rescope sets the scope, authority, discovery and claim keys it is given, and null clears an id |
| Edits.CreateWrites | internal/httpapi/candidates.go:18-57 | A create stores one pending candidate with the values given and else the defaults, and logs it as captured |
| Edits.UpdateEntryWrites | internal/httpapi/entries.go:76-127 | An update sets every key it gives, null falls back to the column's default, and without a key only the editor changes |
| Edits.CreateEntryWrites | internal/httpapi/entries.go:10-65 | A create stores the values given and else the defaults under a slug nobody had, attaches one reference for each object of its list, and logs one event |
| Edits.SupersedeWrites | internal/httpapi/curation_aliases.go:10-53 | A supersede writes status and editor of the entry with the slug |
| Edits.ProposalIsCreated | internal/httpapi/curation_proposals.go:245-312 | A proposal is stored as given, waiting, naming the positive ids once each, all of them stored |
| Edits.DecisionsMark | internal/httpapi/curation_proposals.go:209-243 | Reject and defer give a waiting proposal its status, its decider and a reason, and leave any other alone |
| Edits.NodeIsCreated | internal/httpapi/graph.go:9-49 | A node is stored and indexed as given, under a slug nobody had |
| Edits.NodeIsUpdated | internal/httpapi/graph.go:69-114 | An update sets title, summary, claim and discovery of a node and no other column |
| Edits.EdgeIsCreated | internal/httpapi/graph.go:130-167 | An edge links two stored nodes that no edge of the relation and condition linked before |
| Edits.LinkIsCreated | internal/httpapi/curation_aliases.go:55-70 | A curation link is a created edge whose creator is the named actor |
| Edits.EdgeIsDeleted | internal/httpapi/graph.go:169-200 | A deleted edge is gone, its unlinking is logged, and no event names it |
| Edits.RefIsAttached | internal/httpapi/source_refs.go:9-31 | An attached reference says what the payload says |
| Slugs.EntrySlugsArePermanent | internal/httpapi/entries.go:95-99 | No entry disappears or changes its slug in any run |
| Slugs.AutoPromotionOutcome | internal/httpapi/candidates.go:131-157 | The three outcomes of an eligible capture, promoted, kept pending, refused with everything rolled back, each with its exact condition and its rows |
| Slugs.FallbackSlugPromotesOnce | internal/httpapi/candidate_ops.go:92-98 | In any run at most one capture without a slug is auto-promoted |
| Promotions.SomeRunLeavesACapturePending | internal/httpapi/candidates.go:131-137 | A run with two captures without a slug: the first is promoted, the second left pending with a captured and an errored event; claimed, the first is promoted a second time, again without being given a slug |
| Slugs.NodeIndexSlugAfterUpdate | internal/httpapi/graph.go:88-99 | After an update the indexed node slug is the row's if and only if the payload carries no other |
| Slugs.IndexSlugsAgreeWithoutRenames | internal/httpapi/write_ops.go:31-37 | In any run without such an update all indexed node slugs agree |
| Slugs.NodeIndexCanDrift | internal/httpapi/graph.go:88-96 | One create and one update that make the index lose a slug |
| Traversal.QueryEdges | internal/httpapi/recall_helpers.go:44-47 | Exactly the active edges of a node with an existing target, strictly in the order of the clause |
| Traversal.QueryOrder | internal/httpapi/recall_helpers.go:177-188 | One edge row comes before another if and only if its relation is earlier in the policy's list, or at the same place with higher priority, or then with the lower id |
| Traversal.Traverse | internal/httpapi/recall_helpers.go:19-74 | The queue loop returns a breadth-first exploration: each found node justified by a hop from an earlier expandable position, in hop order, with no available hop left uncovered |
| Traversal.TraversalIsExact | internal/httpapi/recall_helpers.go:38-72 | The result is exactly the non-root nodes at shortest distance 1 to max_depth over passing active edges, each once, with its distance as depth |
| Traversal.TraversalOrder | internal/httpapi/recall_helpers.go:177-188 | Level by level, then by parent's emission and edge order; the recorded relation is that of the first edge leading to the node |
| Traversal.TraversalIsDetermined | internal/httpapi/recall_helpers.go:38-72 | Two explorations of the same graph, bounds and roots are equal |
| Scoring.ScoreItem | internal/recall/scoring.go:46-68 | The accumulated score and label equal the sum of weights, decayed once per edge and rounded |
| Scoring.SourceValidationScore | internal/recall/scoring.go:89-98 | The mean of the validation weights; no source counts as unverified |
| Scoring.LoadScoring | internal/recall/scoring.go:25-43 | The table holds every number of the file under its flattened name and nothing else |
| Scoring.FlattenIsInjective | internal/recall/scoring.go:38-38 | Names without dots in their parts are never confused |
| Scoring.LoadedNodeScore | internal/recall/scoring.go:25-68 | Under any table loaded from a file that holds the v0 numbers, topic nodes score as the v0 weights say |
| Scoring.NodeScoresArePositive | contracts/v0/scoring-defaults.json:7-79 | Every in-scope topic node scores above zero at any depth over any relation |
| Scoring.NodeScoresDecay | internal/recall/scoring.go:64-66 | A deeper topic node scores strictly lower whatever the relations |
| Scoring.AuthorityOutscoresDiscovery | internal/recall/scoring.go:49-56 | At equal depth every authoritative topic node outscores every discovered one, and rounding keeps the weak order |
| Scoring.RoundingKeepsOrder | internal/recall/scoring.go:67-67 | Rounding to three decimals, half away from zero, keeps the weak order of any two scores |
| Scoring.RoundingIsNearest | internal/recall/scoring.go:67-67 | Rounding is to the nearest thousandth with halves away from zero |
| Scoring.RelationsRank | internal/recall/scoring.go:61-63 | Everything else equal, v0 scores follow the listed order of relations strictly, from prerequisite to historical context |
| Scoring.ColumnsRank | internal/recall/scoring.go:57-59 | Everything else equal, v0 scores follow claim strength, status and confidence strictly |
| Scoring.SourcesCount | internal/recall/scoring.go:89-98 | Everything else equal, a verified source raises the v0 score unless all are verified, and a broken one lowers it unless all are broken |
| Scoring.AcceptedFilesPreferAuthority | cmd/den-memory-validate/main.go:139-160 | Under any file the validator accepts, an item at depth 0 scores strictly higher as authoritative than as discovered, and no lower after rounding |
| Packet.ApplyNodeOrdering | internal/httpapi/recall_helpers.go:190-201 | The array holds the stable sort of what it held |
| Packet.StableSortSorts | internal/httpapi/recall_helpers.go:190-201 | The result is sorted, keeps items of equal key in order and is a permutation |
| Packet.SortedIsUnique | internal/httpapi/recall_helpers.go:190-201 | A sorted list that keeps ties is the only one, so any stable sort gives this result |
| Packet.LimitCutsTheLowest | internal/httpapi/recall_helpers.go:170-175 | Under score ordering an item cut by the limit scores no higher than any taken |
| Packet.RequestedTokenBudget | internal/httpapi/recall_helpers.go:210-222 | The first nonzero of the two keys wins, then the view, then 3000; a negative choice becomes 3000, so the budget is positive |
| Packet.ApplyPacketBudget | internal/httpapi/recall_helpers.go:224-247 | An item is kept exactly when it fits what the kept ones before it leave, others get a skip record in order; the early exit agrees with the loop |
| Packet.BudgetIsExact | internal/httpapi/recall_helpers.go:224-247 | Kept and cut items partition the list in order, the kept estimates stay within the budget less overhead, and no cut item would fit what remains |
| Recall.HandleRecall | internal/httpapi/recall.go:13-144 | The outcome is the one the view, the hits, an exploration, the stable order, the limit and the budget determine; a missing view and a negative limit included |
| Recall.PoolIsExact | internal/httpapi/recall.go:38-111 | A topic node is gathered at depth n if and only if it is in scope and n is its distance from the roots within the bound, with the score of that depth |
| Recall.EntriesAreGathered | internal/httpapi/recall.go:57-89 | Each matched entry is gathered, or skipped with the reason of its status or its scope, and neither list holds anything else |
| Recall.TopicsAreGathered | internal/httpapi/recall.go:91-111 | Each root and each traversed node is gathered, or skipped as out of scope, and neither list gains anything else |
| Recall.WarningsAndProvenance | internal/httpapi/recall.go:75-80 | Exactly the discovered entries are warned about, and exactly the references of the gathered entries are given as provenance |
| Recall.PacketsAreSound | internal/httpapi/recall.go:50-117 | In any packet no topic node occurs twice, every item is in scope, of no excluded status and explained by a root match or an included edge, and limit and budget hold |
| Recall.DepthOrderingChangesNothing | internal/httpapi/recall.go:112-113 | Under roots_then_edges the final sort leaves the list as it is |
| Recall.RecallIsDetermined | internal/httpapi/recall.go:28-117 | A request has one outcome |
| Recall.ProposalTrafficKeepsRecall | internal/httpapi/curation_proposals.go:157-201 | Proposal traffic short of a successful apply, and every refused request, leaves the outcome of every recall request as it was |
| Delivery.DeliveredIsSeen | internal/recall/scoring.go:108-142 | Every delivered item is a stored row the request's scope sees: authoritative exactly when the row's authority is the request's or global, and else shared by its discovery column |
| Delivery.EntryHitsAreDecided | internal/httpapi/recall.go:57-89 | Every stored entry among the first hits is skipped for its status, skipped for its scope, or gathered under the standing its columns give it |
| Delivery.EntriesContinue | internal/httpapi/recall.go:57-89 | Entries are gathered one behind the other: each adds to the end of every list of the packet only |
| Delivery.TopicsContinue | internal/httpapi/recall.go:91-111 | Topic nodes are gathered behind the entries, one behind the other |
| Delivery.RootsAreHits | internal/httpapi/recall.go:33-47 | The roots are stored matched nodes and the root of the view, and every early match and that root are among them |
| Delivery.RootsAreInOrder | internal/httpapi/recall.go:28-43 | The roots are the stored matches in order, cut to the limit, with the root of the view in front of the topic nodes unless it is among them |
| Delivery.TopicsEndPaths | internal/httpapi/recall_helpers.go:38-72 | Every delivered topic node ends a shortest path of active edges of admitted relations from a root, as long as its depth, whose last edge has its relation |
| Delivery.PathsAreFollowed | internal/httpapi/recall.go:91-111 | Every stored node such a path within the bound leads to is gathered when the request may see it, and skipped for its scope when not |
| Delivery.DeliveredScores | internal/httpapi/recall.go:62-98 | An entry scores by its own columns and the verification of its references, a topic node as active and source backed at its depth and relation |
| Delivery.SourcesAre | internal/httpapi/recall_helpers.go:76-78 | The references a score counts and the provenance lists are exactly those that point at the entry, in order |
| Delivery.BudgetIsAsked | internal/httpapi/recall_helpers.go:210-222 | The budget of a request is its first key that is not zero, then the view's hint, then 3000, and 3000 when that is not positive |
| Delivery.PacketsFitInBytes | internal/httpapi/recall_helpers.go:203-247 | In any packet title, slug and summary of the items fit in four bytes for each token of the budget less 24; each item cut for the budget is larger than what is left, and has its skip record |
| Delivery.KeysBeatTheView | internal/httpapi/recall_helpers.go:24-27 | When a request gives every key, nothing but the root of the view matters |
| Delivery.DefaultsAre | internal/httpapi/recall_helpers.go:24-27 | Without keys the view decides, and without a view the defaults of limit, depth, relations and the two orderings |
| Journeys.UneditedEntriesStay | internal/httpapi/entries.go:76-127 | Over any stretch of a run in which nobody edits it an entry keeps its row |
| Journeys.PromotedIsRecalled | internal/httpapi/recall.go:57-83 | From a promotion on, direct, through a proposal or of a capture, and until somebody edits the entry, every recall with its authority that hits it early gathers it as authoritative |

## Left out

- HTTP, JSON and URL plumbing: payloads arrive typed. Coercion of non-string JSON to text, and ids given as strings, are not modelled.
- Strings are bytes; case folding and white space are ASCII only.
- SQLite beyond the CHECK, UNIQUE, NOT NULL and foreign-key constraints the handlers rely on. Storage fails only by constraint violation, and the wording of its errors is approximated by `ErrorText`.
- Full-text matching: recall takes the list of hits as an arbitrary input, free of duplicates where a claim needs it.
- Timestamps, and the columns of nodes, edges and proposals no claim reads (proposed graph, evidence, existing context, model metadata). Whether a node payload passes the CHECKs on such columns is the input `restPasses`.
- The before and after images of entry, node and edge events: replay is claimed for candidates only, since an entry update does not log the stored row.
- The topic_views table: recall takes its rows as an input.
- Packet ids, Markdown, the recall_logs row and its token estimate of the Markdown.
- The wording of warnings and match explanations: a warning is the slug it names, and `why` is left out because the kind and the label determine it.
- The numbers of the v0 scoring file are transcribed in `V0`; `LoadedV0` ties them to any loaded file that holds them.
- Floating point: scores are exact reals, and rounding is half away from zero to three decimals.
- Which of several names wins when scoring keys contain dots: `Loads` allows any.
- sort.SliceStable is modelled by insertion; `SortedIsUnique` shows that any stable sort gives the same list.
- Service.Handler.PromoteTo: stands for the direct promotion; a capture repeats the statements after its own insert, and the apply handler has a sequence of its own in `ApplyPromote`.
- Service.Handler.Handle: topic-view writes are not requests of the model.
- Service.Handler.UpdateCandidateFields: does not model the keys proposed_slug, layer and source_refs, which no handler passes.
- Text.SecretShows: folds case and trims in ASCII only, where the source also folds other letters.
- Curator.CurationQueue: models the default statuses, pending and claimed, which are the ones the curator asks for, and not the status parameter of the endpoint.
- Service.Handler.DeleteEdgeRow: the log is append-only up to edge ids, because the foreign key clears them when an edge goes.
- Curator.RunPass: the connection may lose any one request or response; retries within a pass, the LLM proposer and its prompt are not modelled.
- Audit export, observability listings, migrations, registry validation, the Hermes adapter and deployment scripts.
