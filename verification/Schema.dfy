/** The tables of the service: one datatype per row, the closed vocabularies their CHECK
    constraints enforce, and the database value that collects them. */
module Schema {
  import opened Base

  /** JSON the service stores and returns without reading it, as canonical text. */
  type Json = string

  const EMPTY_LIST: Json := "[]"

  // ---- Vocabularies. The Other constructors stand for text outside the closed list.

  datatype CandidateStatus =
    | Pending | Claimed | Promoted | Rejected | NeedsSplit | NeedsMerge | SupersededCandidate
    | OtherCandidateStatus(text: string)

  datatype EntryStatus =
    | Draft | Active | Disputed | SupersededEntry | Deprecated | Archived | OtherEntryStatus(text: string)

  datatype ClaimStrength = Observation | Assessment | Recommendation | Policy | OtherClaim(text: string)

  datatype Discovery =
    | SameProject | LinkedProjects | GlobalDiscoverable | ExplicitOnly | OtherDiscovery(text: string)

  datatype ScopeKind =
    | Global | Project | Space | Profile | AgentInstance | User | TaskScope | External | OtherScope(text: string)

  datatype Confidence = Unverified | Inferred | SourceBacked | Verified | NeedsHumanEye | OtherConfidence(text: string)

  /** verification_status of a source reference. */
  datatype Validation =
    | UnverifiedSource | VerifiedSource | BrokenSource | StaleSource | OtherValidation(text: string)

  datatype Relation =
    | Prerequisite | ImplementationDetail | OperationalRunbook | FailureMode | Warning | EvidenceFor
    | ContradictedBy | Supersedes | HistoricalContext | RelatedConcept | Example | ReviewRisk
    | SourceTrace | OwnedByProject | ContextualAssessment | OtherRelation(text: string)

  datatype EdgeStatus = ActiveEdge | DisputedEdge | DeprecatedEdge | OtherEdgeStatus(text: string)

  datatype Action =
    | ActClaim | ActPromote | ActReject | ActSplit | ActMerge
    | ActSupersede | ActRescope | ActRelabel | ActLink | ActUnlink

  datatype Decision = Captured | Ignored | Filtered | Errored

  datatype ProposalKind =
    | PromoteCandidate | RejectCandidate | SplitCandidate | MergeCandidates | RescopeCandidate | RelabelCandidate
    | SupersedeEntry | KnowledgeCandidate | DocUpdateCandidate | Defer | OtherKind(text: string)

  datatype ProposalStatus =
    | Proposed | NeedsHuman | Applied | RejectedProposal | Deferred | SupersededProposal | InvalidProposal
    | OtherProposalStatus(text: string)

  datatype Layer =
    | SourceEvidence | CandidateLayer | CuratedFact | IdentityProfile | TopicScene | OperatingModel | SchemaModel
    | IntentHypothesis | OtherLayer(text: string)

  datatype ContentFormat = Markdown | Plain | StructuredJson | ExternalRef | OtherFormat(text: string)

  datatype CurationState =
    | RawState | CandidateState | ClaimedState | Curated | RejectedState | NeedsSplitState | NeedsMergeState
    | NeedsReview | OtherState(text: string)

  datatype Stability = Volatile | Evolving | Stable | Canonical | OtherStability(text: string)

  datatype SourceKind =
    | DenTask | DenDocument | DenMessage | DenReviewFinding | HermesSession | HermesMemoryFile | PiCrewSession
    | PiCrewAssignment | PiCrewRun | Url | File | ManualNote | ImportedTranscript | OtherSource(text: string)

  datatype TargetKind =
    | EntryTarget | CandidateTarget | NodeTarget | EdgeTarget | ViewTarget | CaptureTarget | EventTarget | RecallTarget
    | OtherTarget(text: string)

  datatype EventKind =
    | Turn | TaskMessage | DocumentComment | WorkerPacket | ToolResult | ManualNoteEvent | ImportedSession
    | OtherEvent(text: string)

  datatype Runtime = Hermes | PiCrew | DenCore | Manual | Import | OtherRuntime(text: string)

  datatype CaptureMode = Off | MetadataOnly | PermissiveCandidates | CuratedManualOnly | OtherMode(text: string)

  datatype ProposerKind = Agent | Human | Llm | DeterministicCli | Worker | System | OtherProposer(text: string)

  // ---- Columns shared by candidates, entries and topic nodes.

  /** Scope, authority, discovery and claim-strength columns. */
  datatype Labels = Labels(
    scopeKind: ScopeKind, scopeId: Option<string>,
    authorityKind: ScopeKind, authorityId: Option<string>,
    discovery: Discovery, claim: ClaimStrength)

  predicate CheckLabels(l: Labels) {
    && !l.scopeKind.OtherScope?
    && !l.authorityKind.OtherScope? && l.authorityKind != External
    && !l.discovery.OtherDiscovery?
    && !l.claim.OtherClaim?
  }

  // ---- Source references.

  /** One object of a source_refs list, as submitted. */
  datatype RefFields = RefFields(
    kind: Field<SourceKind>, project: Field<string>, sourceId: Field<string>, locator: Field<Json>,
    summary: Field<string>, observedAt: Field<string>, verifiedAt: Field<string>, verification: Field<Validation>)

  /** A member of a source_refs list; only objects become rows. */
  datatype RefItem = RefObject(fields: RefFields) | NotAnObject(json: Json)

  /** The source_refs_json column: usually a list, but any JSON value is stored. */
  datatype RefColumn = RefList(items: seq<RefItem>) | NotAList(json: Json)

  datatype SourceRef = SourceRef(
    targetKind: TargetKind, targetId: int, kind: SourceKind, project: Option<string>, sourceId: string,
    locator: Json, summary: string, observedAt: Option<string>, verifiedAt: Option<string>,
    verification: Validation, createdBy: string)

  predicate CheckRef(r: SourceRef) {
    && !r.targetKind.OtherTarget?
    && !r.kind.OtherSource?
    && !r.verification.OtherValidation?
  }

  // ---- Memory candidates.

  datatype Candidate = Candidate(
    slug: Option<string>, title: string, body: string, summary: string, kind: string, layer: Layer,
    labels: Labels, audience: Json, refs: RefColumn, extractionConfidence: Option<real>,
    status: CandidateStatus, createdBy: string, updatedBy: string)

  predicate CheckCandidate(c: Candidate) {
    && !c.layer.OtherLayer?
    && CheckLabels(c.labels)
    && (c.extractionConfidence.Some? ==> 0.0 <= c.extractionConfidence.value <= 1.0)
    && !c.status.OtherCandidateStatus?
  }

  /** The indexed text of a candidate. */
  datatype CandidateText = CandidateText(title: string, summary: string, body: string, kind: string)

  function TextOfCandidate(c: Candidate): CandidateText {
    CandidateText(c.title, c.summary, c.body, c.kind)
  }

  // ---- Memory entries.

  datatype Entry = Entry(
    slug: string, title: string, summary: string, body: string, contentFormat: ContentFormat, kind: string, layer: Layer,
    labels: Labels, status: EntryStatus, curationState: CurationState, confidence: Confidence, stability: Stability,
    audience: Json, tags: Json, createdBy: string, updatedBy: string)

  predicate CheckEntry(e: Entry) {
    && !e.contentFormat.OtherFormat?
    && !e.layer.OtherLayer?
    && CheckLabels(e.labels)
    && !e.status.OtherEntryStatus?
    && !e.curationState.OtherState?
    && !e.confidence.OtherConfidence? && !e.confidence.NeedsHumanEye?
    && !e.stability.OtherStability?
  }

  datatype EntryText = EntryText(slug: string, title: string, summary: string, body: string, tags: Json)

  function TextOfEntry(e: Entry): EntryText {
    EntryText(e.slug, e.title, e.summary, e.body, e.tags)
  }

  // ---- Topic graph.

  datatype Node = Node(slug: string, title: string, summary: string, labels: Labels, createdBy: string, updatedBy: string)

  datatype NodeText = NodeText(slug: string, title: string, summary: string)

  datatype Edge = Edge(
    source: int, target: int, relation: Relation, priority: int, conditionHash: string, status: EdgeStatus, createdBy: string)

  // ---- Event logs.

  /** A candidate row together with its id, as an event's JSON records it. */
  datatype Snapshot = Snapshot(id: int, row: Candidate)

  datatype Before =
    | NothingBefore
    | CandidatesBefore(rows: seq<Snapshot>)
    | PayloadBefore(row: Candidate)   // auto-promotion logs the captured payload, which has no id
    | OtherBefore                     // entries, nodes and edges; contents not modelled

  datatype After =
    | NothingAfter
    | OfCandidate(candidate: Snapshot)
    | OfPromotion(candidate: Snapshot, entryId: int, entry: Entry, refIds: seq<int>)
    | OfSplit(original: Snapshot, parts: seq<Snapshot>)
    | OfMerge(merged: Snapshot, sources: seq<Snapshot>)
    | OtherAfter

  datatype CurationEvent = CurationEvent(
    candidate: Option<int>, entry: Option<int>, node: Option<int>, edge: Option<int>,
    action: Action, actor: string, reason: string, before: Before, after: After)

  datatype CaptureEvent = CaptureEvent(
    kind: EventKind, refs: RefColumn, actor: string, runtime: Runtime, scopeKind: ScopeKind, scopeId: Option<string>,
    policy: string, decision: Decision, reason: string, candidateIds: seq<int>, rawSize: int, extractedSize: int)

  predicate CheckCapture(e: CaptureEvent) {
    && !e.kind.OtherEvent?
    && !e.runtime.OtherRuntime?
    && !e.scopeKind.OtherScope?
    && e.rawSize >= 0 && e.extractedSize >= 0
  }

  // ---- Curation proposals.

  datatype LabelFields = LabelFields(
    scopeKind: Field<ScopeKind>, scopeId: Field<string>,
    authorityKind: Field<ScopeKind>, authorityId: Field<string>,
    discovery: Field<Discovery>, claim: Field<ClaimStrength>)

  /** The overrides a promotion may carry: the payload keys insertMemoryEntryFromCandidate reads. */
  datatype EntryFields = EntryFields(
    slug: Field<string>, title: Field<string>, summary: Field<string>, body: Field<string>, kind: Field<string>,
    layer: Field<Layer>, labels: LabelFields, confidence: Field<Confidence>, stability: Field<Stability>,
    audience: Field<Json>, tags: Field<Json>)

  const NO_LABELS := LabelFields(Absent, Absent, Absent, Absent, Absent, Absent)

  const NO_OVERRIDES :=
    EntryFields(Absent, Absent, Absent, Absent, Absent, Absent, NO_LABELS, Absent, Absent, Absent, Absent)

  datatype Proposal = Proposal(
    kind: ProposalKind, status: ProposalStatus, candidateIds: seq<int>, targetEntry: Option<int>,
    entry: EntryFields, payload: Option<EntryFields>, proposer: string, proposerKind: ProposerKind,
    confidence: Confidence, reason: string,
    appliedBy: Option<string>, eventId: Option<int>, entryId: Option<int>)

  predicate AwaitsDecision(p: Proposal) {
    p.status == Proposed || p.status == NeedsHuman
  }

  predicate CheckProposal(p: Proposal) {
    && !p.kind.OtherKind?
    && !p.status.OtherProposalStatus?
    && !p.proposerKind.OtherProposer?
    && !p.confidence.OtherConfidence?
  }

  // ---- The database.

  /** Tables are maps from row id to row; tables that are only ever appended to are sequences,
      whose k-th row (from 1) has id k. */
  datatype Db = Db(
    candidates: map<int, Candidate>, candidateTexts: map<int, CandidateText>,
    entries: map<int, Entry>, entryTexts: map<int, EntryText>,
    nodes: map<int, Node>, nodeTexts: map<int, NodeText>,
    edges: map<int, Edge>,
    refs: seq<SourceRef>, events: seq<CurationEvent>, captures: seq<CaptureEvent>,
    proposals: map<int, Proposal>)

  const EMPTY_DB := Db(map[], map[], map[], map[], map[], map[], map[], [], [], [], map[])

  predicate SlugTaken(entries: map<int, Entry>, slug: string) {
    exists id :: id in entries && entries[id].slug == slug
  }

  predicate NodeSlugTaken(nodes: map<int, Node>, slug: string) {
    exists id :: id in nodes && nodes[id].slug == slug
  }
}
