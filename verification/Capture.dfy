/** What a capture request asks for: its mode, the candidate made from it, the content filter,
    and the capture event that records the decision. */
module Capture {
  import opened Base
  import opened Schema
  import opened Text
  import opened Rows

  /** Payload keys that only the capture log and the body fallback read. */
  datatype LogFields = LogFields(
    rawText: Field<string>, content: Field<string>, eventKind: Field<EventKind>, runtime: Field<Runtime>,
    policy: Field<string>)

  /** A capture payload. One JSON object supplies both the candidate and, when it is
      auto-promoted, the entry overrides, so `entry` holds the keys the two share. */
  datatype CapturePayload = CapturePayload(
    mode: Field<CaptureMode>, simulateError: bool, role: Field<string>, actor: Field<string>, createdBy: Field<string>,
    reason: Field<string>, log: LogFields, proposedSlug: Field<string>, proposedKind: Field<string>,
    refs: Field<RefColumn>, extractionConfidence: Field<real>, entry: EntryFields)

  /** The runtime is `name`, in any case; none of the known runtimes is a worker's or an auditor's. */
  predicate RunsAs(runtime: Runtime, name: string) {
    runtime.OtherRuntime? && Lower(runtime.text) == name
  }

  function DefaultMode(runtime: Runtime, role: string): CaptureMode {
    if Lower(role) == "auditor" || RunsAs(runtime, "audit") then Off
    else if Lower(role) == "worker" || RunsAs(runtime, "worker") || RunsAs(runtime, "subagent") then MetadataOnly
    else PermissiveCandidates
  }

  function Mode(p: CapturePayload): CaptureMode {
    if p.mode.Val? && p.mode.value != OtherMode("") then p.mode.value
    else DefaultMode(OrElse(p.log.runtime, Manual), OrElse(p.role, ""))
  }

  /** Agents that are named and are neither workers nor auditors have their captures promoted at once. */
  predicate AutoPromotes(p: CapturePayload) {
    var role := Lower(OrElse(p.role, ""));
    var runtime := OrElse(p.log.runtime, OtherRuntime(""));
    && role != "auditor" && !RunsAs(runtime, "audit") && !RunsAs(runtime, "audit_service")
    && role != "worker" && !RunsAs(runtime, "worker") && !RunsAs(runtime, "subagent")
    && OrElse(p.actor, "") != ""
  }

  function CapturedBody(body: Field<string>, log: LogFields): string {
    var b := OrElse(body, "");
    if b != "" then b else OrElse(log.rawText, OrElse(log.content, ""))
  }

  function CapturedTitle(p: CapturePayload): string {
    var title := OrElse(p.entry.title, "");
    var line := FirstLine(CapturedBody(p.entry.body, p.log), 80);
    if title != "" then title else if line != "" then line else "Captured memory candidate"
  }

  function CapturedSummary(p: CapturePayload): string {
    var summary := OrElse(p.entry.summary, "");
    var cut := Truncate(CapturedBody(p.entry.body, p.log), 180);
    if summary != "" then summary else if cut != "" then cut else CapturedTitle(p)
  }

  /** The insert payload made from a capture; authority falls back to the scope. */
  function CandidateOf(p: CapturePayload): CandidateFields {
    var l := p.entry.labels;
    var actor := OrElse(p.actor, OrElse(p.createdBy, "api"));
    CandidateFields(
      p.proposedSlug, Val(CapturedTitle(p)), Val(CapturedBody(p.entry.body, p.log)), Val(CapturedSummary(p)),
      Val(OrElse(p.proposedKind, OrElse(p.entry.kind, "fact"))), Val(CandidateLayer),
      LabelFields(
        Val(OrElse(l.scopeKind, Global)), l.scopeId, Val(OrElse(l.authorityKind, OrElse(l.scopeKind, Global))),
        if l.authorityId.Val? then l.authorityId else l.scopeId,
        Val(OrElse(l.discovery, ExplicitOnly)), Val(OrElse(l.claim, Observation))),
      Val(OrElse(p.entry.audience, EMPTY_LIST)), Val(RefsOr(p.refs)), p.extractionConfidence, Val(Pending),
      Val(actor), Val(actor))
  }

  /** Why the content filter drops a candidate, if it does. */
  function FilterReason(f: CandidateFields): Option<string> {
    var text := Trim(OrElse(f.title, "") + OrElse(f.summary, "") + OrElse(f.body, ""));
    if text == "" then Some("empty_capture_content")
    else if HasSecret(text) then Some("secret_like_content_filtered")
    else if f.labels.claim == Val(Policy) then Some("policy_strength_capture_filtered")
    else None
  }

  /** The capture_events row; a negative size asks for the length of the text. */
  function CaptureRow(
    log: LogFields, body: Field<string>, summary: Field<string>, refs: Field<RefColumn>, actor: string,
    scopeKind: Field<ScopeKind>, scopeId: Field<string>, decision: Decision, reason: string, ids: seq<int>,
    rawSize: int, extractedSize: int): CaptureEvent
  {
    CaptureEvent(
      OrElse(log.eventKind, ManualNoteEvent), RefsOr(refs), actor, OrElse(log.runtime, Manual),
      OrElse(scopeKind, Global), Column(scopeId), OrElse(log.policy, "api-capture"), decision, reason, ids,
      if rawSize < 0 then |CapturedBody(body, log)| else rawSize,
      if extractedSize < 0 then |OrElse(summary, "")| else extractedSize)
  }

  function DecisionRow(p: CapturePayload, decision: Decision, reason: string, ids: seq<int>, size: int): CaptureEvent {
    CaptureRow(p.log, p.entry.body, p.entry.summary, p.refs, OrElse(p.actor, OrElse(p.createdBy, "api")),
               p.entry.labels.scopeKind, p.entry.labels.scopeId, decision, reason, ids, size, size)
  }

  /** The text of an error, as the capture log records it. */
  function ErrorText(e: Failure): string {
    match e
    case NotFound => "not found"
    case Duplicate => "already exists"
    case Invalid(reason) => "invalid input: " + reason
  }

  /** The decision taken before any candidate is made, if there is one: decision, reason and logged size. */
  function EarlyDecision(p: CapturePayload): Option<(Decision, string, int)> {
    var mode := Mode(p);
    if mode.OtherMode? then
      Some((Errored, "invalid_capture_mode", 0))
    else if p.simulateError then Some((Errored, OrElse(p.reason, "simulated_capture_error"), -1))
    else if mode == Off then Some((Ignored, OrElse(p.reason, "capture_mode_off"), -1))
    else if mode == MetadataOnly then Some((Ignored, OrElse(p.reason, "metadata_only"), 0))
    else if mode == CuratedManualOnly then Some((Ignored, OrElse(p.reason, "curated_manual_only"), -1))
    else
      var f := CandidateOf(p);
      match FilterReason(f)
      case Some(reason) => Some((Filtered, OrElse(p.reason, reason), -1))
      case None =>
        match NewCandidate(f)
        case Err(e) => Some((Errored, ErrorText(e), -1))
        case Ok(_) => None
  }

  /** If the joined and trimmed parts show no secret, no part holds one. */
  lemma CleanParts(t: string, s: string, b: string)
    requires !HasSecret(Trim(t + s + b))
    ensures !HasSecret(t) && !HasSecret(s) && !HasSecret(b)
  {
    assert t + s + b == "" + t + (s + b) == t + s + b == (t + s) + b + "";
    if HasSecret(t) { SecretShows("", t, s + b); }
    if HasSecret(s) { SecretShows(t, s, b); }
    if HasSecret(b) { SecretShows(t + s, b, ""); }
  }

  lemma CapturedCandidateIsClean(p: CapturePayload)
    requires EarlyDecision(p).None?
    ensures NewCandidate(CandidateOf(p)).Ok?
    ensures var c := NewCandidate(CandidateOf(p)).value;
      && !HasSecret(c.title) && !HasSecret(c.summary) && !HasSecret(c.body)
      && !c.labels.claim.Policy? && c.status == Pending
  {
    var f := CandidateOf(p);
    CleanParts(OrElse(f.title, ""), OrElse(f.summary, ""), OrElse(f.body, ""));
  }

  /** An override of the promoted entry is the candidate's own text or empty. */
  lemma OverridesRepeat(p: CapturePayload, id: Option<int>)
    requires EarlyDecision(p).None?
    ensures var c := NewCandidate(CandidateOf(p)).value;
      var e := PromotedEntry(c, id, p.entry, OrElse(p.actor, "auto-promote"));
      && (e.title == c.title || e.title == "") && (e.summary == c.summary || e.summary == "")
      && (e.body == c.body || e.body == "") && (e.labels.claim == c.labels.claim)
  {
  }

  /** A capture that gets past EarlyDecision makes a candidate without secret markers and below
      policy strength; and so does the entry promoted from it, whatever the payload overrides. */
  lemma CapturedTextIsClean(p: CapturePayload, id: Option<int>)
    requires EarlyDecision(p).None?
    ensures var c := NewCandidate(CandidateOf(p)).value;
      && !HasSecret(c.title) && !HasSecret(c.summary) && !HasSecret(c.body)
      && !c.labels.claim.Policy? && c.status == Pending
    ensures var c := NewCandidate(CandidateOf(p)).value;
      var e := PromotedEntry(c, id, p.entry, OrElse(p.actor, "auto-promote"));
      && !HasSecret(e.title) && !HasSecret(e.summary) && !HasSecret(e.body) && !e.labels.claim.Policy?
  {
    CapturedCandidateIsClean(p);
    OverridesRepeat(p, id);
    NoSecretInNothing();
  }
}
