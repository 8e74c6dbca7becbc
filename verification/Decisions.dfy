/** What becomes of every capture request: its decision and reason, told by the payload alone. */
module Decisions {
  import opened Base
  import opened Schema
  import opened Text
  import opened Rows
  import opened Capture
  import opened Changes
  import opened WellFormed
  import opened Effects
  import Promotions
  import Refinement
  import Slugs

  predicate Audits(p: CapturePayload) {
    (p.role.Val? && Lower(p.role.value) == "auditor") || RunsUnder(p, "audit")
  }

  predicate Works(p: CapturePayload) {
    (p.role.Val? && Lower(p.role.value) == "worker") || RunsUnder(p, "worker") || RunsUnder(p, "subagent")
  }

  predicate NamesUnknownMode(p: CapturePayload) {
    p.mode.Val? && p.mode.value.OtherMode? && p.mode.value.text != ""
  }

  /** A blank title is given, and summary and body are blank too. */
  ghost predicate GivesBlank(p: CapturePayload) {
    && OrElse(p.entry.title, "") != "" && Blank(p.entry.title.value) && Blank(OrElse(p.entry.summary, ""))
    && exists body :: BodyTold(p, body) && Blank(body)
  }

  /** Title, summary and body, put together, hold a secret marker. */
  ghost predicate HoldsSecret(p: CapturePayload) {
    exists title, summary, body :: TextsTold(p, title, summary, body) && LooksSecret(title + summary + body)
  }

  /** The columns the payload gives are words of their lists. */
  predicate FitsColumns(p: CapturePayload) {
    var l := p.entry.labels;
    && (l.scopeKind.Val? ==> !l.scopeKind.value.OtherScope?)
    && (if l.authorityKind.Val? then !l.authorityKind.value.OtherScope? && l.authorityKind.value != External
        else l.scopeKind != Val(External))
    && (l.discovery.Val? ==> !l.discovery.value.OtherDiscovery?) && (l.claim.Val? ==> !l.claim.value.OtherClaim?)
    && (p.extractionConfidence.Val? ==> 0.0 <= p.extractionConfidence.value <= 1.0)
  }

  /** The decision on a capture and its reason, in the order in which they are made. */
  ghost predicate DecidedAs(p: CapturePayload, decision: Decision, reason: string) {
    if NamesUnknownMode(p) then decision == Errored && reason == "invalid_capture_mode"
    else if p.simulateError then decision == Errored && GivenOr(reason, p.reason, "simulated_capture_error")
    else if p.mode == Val(Off) || (NamesNoMode(p) && Audits(p)) then decision == Ignored && GivenOr(reason, p.reason, "capture_mode_off")
    else if p.mode == Val(MetadataOnly) || (NamesNoMode(p) && Works(p)) then
      decision == Ignored && GivenOr(reason, p.reason, "metadata_only")
    else if p.mode == Val(CuratedManualOnly) then decision == Ignored && GivenOr(reason, p.reason, "curated_manual_only")
    else if GivesBlank(p) then decision == Filtered && GivenOr(reason, p.reason, "empty_capture_content")
    else if HoldsSecret(p) then decision == Filtered && GivenOr(reason, p.reason, "secret_like_content_filtered")
    else if p.entry.labels.claim == Val(Policy) then decision == Filtered && GivenOr(reason, p.reason, "policy_strength_capture_filtered")
    else if FitsColumns(p) then decision == Captured && GivenOr(reason, p.reason, "captured candidate")
    else decision == Errored
  }

  // ---- The content filter.

  lemma BodyIsOne(p: CapturePayload, body: string)
    requires BodyTold(p, body)
    ensures body == CapturedBody(p.entry.body, p.log)
  {
  }

  lemma TextsAreOne(p: CapturePayload, title: string, summary: string, body: string)
    requires TextsTold(p, title, summary, body)
    ensures title == CapturedTitle(p) && summary == CapturedSummary(p) && body == CapturedBody(p.entry.body, p.log)
  {
    BodyIsOne(p, body);
    CapturedTextsAre(p);
    if OrElse(p.entry.title, "") == "" && !Blank(body) {
      var i, k :| FirstLineAt(body, i, k) && title == body[i..if k < i + 80 then k else i + 80];
      var j, n :| FirstLineAt(body, j, n) && CapturedTitle(p) == body[j..if n < j + 80 then n else j + 80];
      FirstLineIsOne(body, i, k, j, n);
    }
  }

  lemma TitleIsBlank(p: CapturePayload)
    ensures Blank(CapturedTitle(p)) <==> OrElse(p.entry.title, "") != "" && Blank(p.entry.title.value)
  {
    var body := CapturedBody(p.entry.body, p.log);
    var i, k := FirstLineTells(body, 80);
    if OrElse(p.entry.title, "") == "" {
      assert !IsSpace(CapturedTitle(p)[0]);
    }
  }

  lemma BlankIsGiven(p: CapturePayload)
    ensures GivesBlank(p)
      <==> Blank(CapturedTitle(p)) && Blank(CapturedSummary(p)) && Blank(CapturedBody(p.entry.body, p.log))
  {
    var body := CapturedBody(p.entry.body, p.log);
    TitleIsBlank(p);
    assert BodyTold(p, body);
    if GivesBlank(p) {
      var b :| BodyTold(p, b) && Blank(b);
      BodyIsOne(p, b);
    }
  }

  lemma SecretIsHeld(p: CapturePayload)
    ensures HoldsSecret(p) <==> HasSecret(CapturedTitle(p) + CapturedSummary(p) + CapturedBody(p.entry.body, p.log))
  {
    var all := CapturedTitle(p) + CapturedSummary(p) + CapturedBody(p.entry.body, p.log);
    CapturedTextsAre(p);
    LooksSecretIsSecret(all);
    if HoldsSecret(p) {
      var title, summary, body :| TextsTold(p, title, summary, body) && LooksSecret(title + summary + body);
      TextsAreOne(p, title, summary, body);
    }
  }

  lemma FilterTells(p: CapturePayload)
    ensures FilterReason(CandidateOf(p)) ==
      if GivesBlank(p) then Some("empty_capture_content")
      else if HoldsSecret(p) then Some("secret_like_content_filtered")
      else if p.entry.labels.claim == Val(Policy) then Some("policy_strength_capture_filtered")
      else None
  {
    var (title, summary, body) := (CapturedTitle(p), CapturedSummary(p), CapturedBody(p.entry.body, p.log));
    BlankIsGiven(p);
    SecretIsHeld(p);
    BlankParts(title, summary, body);
    BlankTrims(title + summary + body);
    TrimHidesNothing(title + summary + body);
  }

  lemma ColumnsTell(p: CapturePayload)
    requires p.entry.labels.claim != Val(Policy)
    ensures NewCandidate(CandidateOf(p)).Ok? <==> FitsColumns(p)
  {
  }

  // ---- The decision.

  lemma ModeTells(p: CapturePayload)
    ensures Mode(p).OtherMode? <==> NamesUnknownMode(p)
    ensures Mode(p) == Off <==> p.mode == Val(Off) || (NamesNoMode(p) && Audits(p))
    ensures Mode(p) == MetadataOnly <==> p.mode == Val(MetadataOnly) || (NamesNoMode(p) && !Audits(p) && Works(p))
    ensures Mode(p) == CuratedManualOnly <==> p.mode == Val(CuratedManualOnly)
  {
  }

  /** What is decided before a candidate is made, and what is not. */
  lemma EarlyTells(p: CapturePayload)
    ensures match EarlyDecision(p)
      case Some(d) => d.0 != Captured && DecidedAs(p, d.0, d.1)
      case None => DecidedAs(p, Captured, OrElse(p.reason, "captured candidate"))
  {
    ModeTells(p);
    if Mode(p) == PermissiveCandidates && !p.simulateError {
      FilterTells(p);
      if FilterReason(CandidateOf(p)).None? {
        ColumnsTell(p);
      }
    }
  }

  /** Modes that ask for no text, and unknown ones. */
  predicate LogsNoText(p: CapturePayload) {
    || NamesUnknownMode(p)
    || (!p.simulateError && (p.mode == Val(MetadataOnly) || (NamesNoMode(p) && !Audits(p) && Works(p))))
  }

  ghost predicate SizedAs(p: CapturePayload, rawSize: int, extractedSize: int) {
    if LogsNoText(p) then rawSize == 0 && extractedSize == 0 else SizesTold(p, rawSize, extractedSize)
  }

  lemma EarlySize(p: CapturePayload)
    ensures match EarlyDecision(p)
      case Some(d) => d.2 == if LogsNoText(p) then 0 else -1
      case None => !LogsNoText(p)
  {
    ModeTells(p);
  }

  lemma EarlyRow(p: CapturePayload) returns (e: CaptureEvent)
    requires EarlyDecision(p).Some?
    ensures var d := EarlyDecision(p).value;
      e == DecisionRow(p, d.0, d.1, [], d.2) && e.decision == d.0 && e.reason == d.1
    ensures LoggedAs(e, p) && e.candidateIds == [] && SizedAs(p, e.rawSize, e.extractedSize)
  {
    var d := EarlyDecision(p).value;
    e := DecisionRow(p, d.0, d.1, [], d.2);
    EarlySize(p);
    DecisionIsLogged(p, d.0, d.1, [], d.2);
    LoggedSizes(p, d.0, d.1, []);
  }

  lemma LogApplies(db: Db, e: CaptureEvent)
    ensures Apply(db, NOTHING.(captures := [e])) == db.(captures := db.captures + [e])
  {
    Refinement.ApplyFrame(db, NOTHING.(captures := [e]));
  }

  lemma EarlyIsLogged(db: Db, p: CapturePayload, e: CaptureEvent)
    requires EarlyDecision(p).Some? && CaptureChange(db, p).Ok?
    requires var d := EarlyDecision(p).value; e == DecisionRow(p, d.0, d.1, [], d.2)
    ensures CaptureChange(db, p) == Ok(NOTHING.(captures := [e]))
  {
    EarlyIsDecided(db, p);
  }

  /** Every accepted capture logs one event first that tells its decision, its reason and its texts.
      Only a captured one changes anything else, and it stores the next candidate. */
  lemma CapturesAreDecided(db: Db, p: CapturePayload, after: Db) returns (e: CaptureEvent)
    requires ChangeOf(db, CaptureMemory(p)).Ok? && after == Step(db, CaptureMemory(p))
    ensures |after.captures| > |db.captures| && e == after.captures[|db.captures|]
    ensures LoggedAs(e, p) && DecidedAs(p, e.decision, e.reason) && SizedAs(p, e.rawSize, e.extractedSize)
    ensures e.decision != Captured ==> after == db.(captures := db.captures + [e]) && e.candidateIds == []
    ensures e.decision == Captured ==>
      var id := NextId(db.candidates.Keys);
      e.candidateIds == [id] && id in after.candidates && CapturedAs(after.candidates[id].(status := Pending), p)
  {
    EarlyTells(p);
    Promotions.CaptureStep(db, p);
    if EarlyDecision(p).Some? {
      e := EarlyRow(p);
      EarlyIsLogged(db, p, e);
      LogApplies(db, e);
    } else {
      CapturesStore(db, p, after);
      EarlySize(p);
      e := after.captures[|db.captures|];
    }
  }
}
