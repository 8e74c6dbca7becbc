/** Building and revising single rows: what each INSERT and UPDATE writes, and when it is refused. */
module Rows {
  import opened Base
  import opened Schema
  import opened Text

  const CONSTRAINT := Invalid("constraint failed")

  // ---- Who acts and why.

  datatype ActorFields = ActorFields(actor: Field<string>, reason: Field<string>)

  datatype Actor = Actor(name: string, reason: string)

  function RequireActorReason(fields: ActorFields): Result<Actor> {
    var actor := OrElse(fields.actor, "");
    var reason := OrElse(fields.reason, "");
    if actor == "" then Err(Invalid("actor_identity_required"))
    else if reason == "" then Err(Invalid("reason_required"))
    else Ok(Actor(actor, reason))
  }

  // ---- Labels.

  /** The labels a created row gets: absent keys take the schema defaults. */
  function NewLabels(f: LabelFields): Labels {
    Labels(OrElse(f.scopeKind, Global), Column(f.scopeId), OrElse(f.authorityKind, Global), Column(f.authorityId),
           OrElse(f.discovery, ExplicitOnly), OrElse(f.claim, Observation))
  }

  /** The labels of a row derived from another one: non-null keys override. */
  function DerivedLabels(base: Labels, f: LabelFields): Labels {
    Labels(OrElse(f.scopeKind, base.scopeKind), ColumnOr(f.scopeId, base.scopeId),
           OrElse(f.authorityKind, base.authorityKind), ColumnOr(f.authorityId, base.authorityId),
           OrElse(f.discovery, base.discovery), OrElse(f.claim, base.claim))
  }

  /** The labels after an UPDATE that sets exactly the keys present: null clears an id column. */
  function UpdatedLabels(base: Labels, f: LabelFields): Labels {
    DerivedLabels(base, f).(
      scopeId := OverlayColumn(base.scopeId, f.scopeId),
      authorityId := OverlayColumn(base.authorityId, f.authorityId))
  }

  /** A stored row's labels as the keys of a decoded record. */
  function LabelsAsFields(l: Labels): LabelFields {
    LabelFields(Val(l.scopeKind), FromColumn(l.scopeId), Val(l.authorityKind), FromColumn(l.authorityId),
                Val(l.discovery), Val(l.claim))
  }

  function OverlayLabels(base: LabelFields, over: LabelFields): LabelFields {
    LabelFields(Overlay(base.scopeKind, over.scopeKind), Overlay(base.scopeId, over.scopeId),
                Overlay(base.authorityKind, over.authorityKind), Overlay(base.authorityId, over.authorityId),
                Overlay(base.discovery, over.discovery), Overlay(base.claim, over.claim))
  }

  // ---- Candidates.

  /** The payload keys insertCandidate reads. */
  datatype CandidateFields = CandidateFields(
    slug: Field<string>, title: Field<string>, body: Field<string>, summary: Field<string>, kind: Field<string>,
    layer: Field<Layer>, labels: LabelFields, audience: Field<Json>, refs: Field<RefColumn>,
    extractionConfidence: Field<real>, status: Field<CandidateStatus>,
    createdBy: Field<string>, updatedBy: Field<string>)

  function RefsOr(f: Field<RefColumn>): RefColumn {
    OrElse(f, RefList([]))
  }

  /** The row insertCandidate writes, or why it refuses. */
  function NewCandidate(f: CandidateFields): Result<Candidate> {
    if f.status.Val? && f.status.value != Pending && f.status.value != OtherCandidateStatus("") then
      Err(Invalid("candidate_create_status_must_be_pending"))
    else if f.layer.Val? && f.layer.value != CandidateLayer && f.layer.value != OtherLayer("") then
      Err(Invalid("candidate_create_layer_must_be_candidate"))
    else if OrElse(f.labels.claim, Observation) == Policy then
      Err(Invalid("candidate_create_cannot_use_policy_claim_strength"))
    else if !f.title.Val? || !f.kind.Val? then
      Err(CONSTRAINT)
    else
      var creator := OrElse(f.createdBy, "api");
      var row := Candidate(
        Column(f.slug), f.title.value, OrElse(f.body, ""), OrElse(f.summary, ""), f.kind.value, CandidateLayer,
        NewLabels(f.labels), OrElse(f.audience, EMPTY_LIST), RefsOr(f.refs), Column(f.extractionConfidence),
        Pending, creator, OrElse(f.updatedBy, creator));
      if CheckCandidate(row) then Ok(row) else Err(CONSTRAINT)
  }

  /** The columns updateCandidateFields may be asked to set; an absent key leaves its column alone. */
  datatype CandidateUpdate = CandidateUpdate(
    status: Field<CandidateStatus>, title: Field<string>, body: Field<string>, summary: Field<string>,
    kind: Field<string>, labels: LabelFields, audience: Field<Json>, updatedBy: string)

  function StatusUpdate(status: Field<CandidateStatus>, actor: string): CandidateUpdate {
    CandidateUpdate(status, Absent, Absent, Absent, Absent, NO_LABELS, Absent, actor)
  }

  /** The row after the UPDATE, which a null in a NOT NULL column or a CHECK refuses. */
  function UpdatedCandidate(c: Candidate, u: CandidateUpdate): Result<Candidate> {
    if u.status.Null? || u.title.Null? || u.body.Null? || u.summary.Null? || u.kind.Null?
       || u.labels.scopeKind.Null? || u.labels.authorityKind.Null?
       || u.labels.discovery.Null? || u.labels.claim.Null? then
      Err(CONSTRAINT)
    else
      var row := c.(
        status := OrElse(u.status, c.status), title := OrElse(u.title, c.title), body := OrElse(u.body, c.body),
        summary := OrElse(u.summary, c.summary), kind := OrElse(u.kind, c.kind),
        labels := UpdatedLabels(c.labels, u.labels),
        audience := OverlayText(c.audience, u.audience, EMPTY_LIST), updatedBy := u.updatedBy);
      if CheckCandidate(row) then Ok(row) else Err(CONSTRAINT)
  }

  /** The insert payload of a split fragment: the original row's record overlaid by the fragment. */
  function FragmentFields(c: Candidate, part: CandidateFields, actor: string): CandidateFields {
    CandidateFields(
      Overlay(FromColumn(c.slug), part.slug), Overlay(Val(c.title), part.title), Overlay(Val(c.body), part.body),
      Overlay(Val(c.summary), part.summary), Overlay(Val(c.kind), part.kind), Val(CandidateLayer),
      OverlayLabels(LabelsAsFields(c.labels), part.labels), Overlay(Val(c.audience), part.audience),
      Val(OrElse(part.refs, c.refs)), Overlay(FromColumn(c.extractionConfidence), part.extractionConfidence),
      Val(Pending), Val(actor), Val(actor))
  }

  // ---- Merging candidates.

  function JoinedTitles(rows: seq<Candidate>): string {
    if rows == [] then ""
    else if |rows| == 1 then rows[0].title
    else JoinedTitles(rows[..|rows| - 1]) + " / " + rows[|rows| - 1].title
  }

  /** The non-empty texts, joined. */
  function JoinedTexts(texts: seq<string>, separator: string): string {
    if texts == [] then ""
    else
      var joined := JoinedTexts(texts[..|texts| - 1], separator);
      var last := texts[|texts| - 1];
      if last == "" then joined else if joined == "" then last else joined + separator + last
  }

  function Summaries(rows: seq<Candidate>): seq<string> {
    seq(|rows|, i requires 0 <= i < |rows| => rows[i].summary)
  }

  function Bodies(rows: seq<Candidate>): seq<string> {
    seq(|rows|, i requires 0 <= i < |rows| => rows[i].body)
  }

  function RefItems(c: Candidate): seq<RefItem> {
    if c.refs.RefList? then c.refs.items else []
  }

  /** Every row's references, in order. */
  function JoinedRefs(rows: seq<Candidate>): seq<RefItem> {
    if rows == [] then [] else JoinedRefs(rows[..|rows| - 1]) + RefItems(rows[|rows| - 1])
  }

  /** The insert payload of a merge of `rows`. */
  function MergedFields(rows: seq<Candidate>, f: CandidateFields, actor: string): CandidateFields
    requires rows != []
  {
    var l := DerivedLabels(rows[0].labels, f.labels);
    CandidateFields(
      Absent, Val(OrElse(f.title, JoinedTitles(rows))),
      Val(OrElse(f.body, JoinedTexts(Bodies(rows), "\n\n"))), Val(OrElse(f.summary, JoinedTexts(Summaries(rows), "\n"))),
      Val(OrElse(f.kind, rows[0].kind)), Absent, LabelsAsFields(l), Absent, Val(RefList(JoinedRefs(rows))),
      Absent, Absent, Val(actor), Val(actor))
  }

  // ---- Entries.

  /** The slug of a promoted entry: override, then proposed slug, then one made from the id. */
  function PromotedSlug(c: Candidate, id: Option<int>, f: EntryFields): string {
    if OrElse(f.slug, "") != "" then f.slug.value
    else if c.slug.Some? && c.slug.value != "" then c.slug.value
    else "candidate-" + (if id.Some? then Decimal(id.value) else "<nil>")
  }

  /** The entry insertMemoryEntryFromCandidate inserts. */
  function PromotedEntry(c: Candidate, id: Option<int>, f: EntryFields, actor: string): Entry {
    Entry(
      PromotedSlug(c, id, f), OrElse(f.title, c.title), OrElse(f.summary, c.summary), OrElse(f.body, c.body),
      Markdown, OrElse(f.kind, c.kind), OrElse(f.layer, CuratedFact), DerivedLabels(c.labels, f.labels),
      Active, Curated, OrElse(f.confidence, SourceBacked), OrElse(f.stability, Evolving),
      OrElse(f.audience, c.audience), OrElse(f.tags, EMPTY_LIST), actor, actor)
  }

  /** The constraint verdict on inserting an entry: CHECKs first, then the unique slug. */
  function EntryVerdict(entries: map<int, Entry>, e: Entry): Option<Failure> {
    if !CheckEntry(e) then Some(CONSTRAINT)
    else if SlugTaken(entries, e.slug) then Some(Duplicate)
    else None
  }

  function OverlayEntryFields(base: EntryFields, over: EntryFields): EntryFields {
    EntryFields(
      Overlay(base.slug, over.slug), Overlay(base.title, over.title), Overlay(base.summary, over.summary),
      Overlay(base.body, over.body), Overlay(base.kind, over.kind), Overlay(base.layer, over.layer),
      OverlayLabels(base.labels, over.labels), Overlay(base.confidence, over.confidence),
      Overlay(base.stability, over.stability), Overlay(base.audience, over.audience), Overlay(base.tags, over.tags))
  }

  /** Keys of an entry payload beyond the promotion overrides. */
  datatype EntryPayload = EntryPayload(
    fields: EntryFields, contentFormat: Field<ContentFormat>, status: Field<EntryStatus>, curationState: Field<CurationState>,
    refs: Field<RefColumn>, createdBy: Field<string>, updatedBy: Field<string>, reason: Field<string>)

  /** The row createEntry inserts; slug, title and kind have no default. */
  function NewEntry(p: EntryPayload): Result<Entry> {
    var f := p.fields;
    if !f.slug.Val? || !f.title.Val? || !f.kind.Val? then Err(CONSTRAINT)
    else
      var creator := OrElse(p.createdBy, "api");
      Ok(Entry(
        f.slug.value, f.title.value, OrElse(f.summary, ""), OrElse(f.body, ""), OrElse(p.contentFormat, Markdown),
        f.kind.value, OrElse(f.layer, CuratedFact), NewLabels(f.labels), OrElse(p.status, Draft),
        OrElse(p.curationState, CandidateState), OrElse(f.confidence, Unverified), OrElse(f.stability, Evolving),
        OrElse(f.audience, EMPTY_LIST), OrElse(f.tags, EMPTY_LIST), creator, OrElse(p.updatedBy, creator)))
  }

  /** The row updateEntry writes: the stored record overlaid by the payload; slug, kind and
      content format stay as they are. */
  function UpdatedEntry(e: Entry, p: EntryPayload): Result<Entry> {
    var f := p.fields;
    if f.title.Null? then Err(CONSTRAINT)
    else
      var row := e.(
        title := OrElse(f.title, e.title), summary := OverlayText(e.summary, f.summary, ""),
        body := OverlayText(e.body, f.body, ""), layer := OverlayText(e.layer, f.layer, CuratedFact),
        labels := Labels(
          OverlayText(e.labels.scopeKind, f.labels.scopeKind, Global), OverlayColumn(e.labels.scopeId, f.labels.scopeId),
          OverlayText(e.labels.authorityKind, f.labels.authorityKind, Global),
          OverlayColumn(e.labels.authorityId, f.labels.authorityId),
          OverlayText(e.labels.discovery, f.labels.discovery, ExplicitOnly),
          OverlayText(e.labels.claim, f.labels.claim, Observation)),
        status := OverlayText(e.status, p.status, Draft),
        curationState := OverlayText(e.curationState, p.curationState, CandidateState),
        confidence := OverlayText(e.confidence, f.confidence, Unverified),
        stability := OverlayText(e.stability, f.stability, Evolving),
        audience := OverlayText(e.audience, f.audience, EMPTY_LIST), tags := OverlayText(e.tags, f.tags, EMPTY_LIST),
        updatedBy := OrElse(p.updatedBy, "api"));
      if CheckEntry(row) then Ok(row) else Err(CONSTRAINT)
  }

  // ---- Source references.

  function NewRef(f: RefFields, target: TargetKind, targetId: int, actor: string, summary: string, sourceId: string): SourceRef {
    SourceRef(target, targetId, OrElse(f.kind, ManualNote), Column(f.project), OrElse(f.sourceId, sourceId),
              OrElse(f.locator, "{}"), OrElse(f.summary, summary), Column(f.observedAt), Column(f.verifiedAt),
              OrElse(f.verification, UnverifiedSource), actor)
  }

  /** The object members of a source_refs list. */
  function RefObjects(items: seq<RefItem>): seq<RefFields> {
    if items == [] then []
    else
      var last := items[|items| - 1];
      RefObjects(items[..|items| - 1]) + (if last.RefObject? then [last.fields] else [])
  }

  /** One row per object member, in list order. */
  function RefRows(items: seq<RefItem>, target: TargetKind, targetId: int, actor: string,
                   summary: string, sourceId: string): seq<SourceRef>
  {
    var objects := RefObjects(items);
    seq(|objects|, i requires 0 <= i < |objects| => NewRef(objects[i], target, targetId, actor, summary, sourceId))
  }

  predicate RefsPass(rows: seq<SourceRef>) {
    forall r :: r in rows ==> CheckRef(r)
  }

  // ---- Proposals.

  /** The kinds whose name contains "candidate" need at least one candidate id. */
  predicate NeedsCandidates(kind: ProposalKind) {
    kind != SupersedeEntry && kind != Defer
  }
}
