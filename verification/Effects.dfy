/** What each request leaves in the rows, key by key: the values a payload gives, what stays, and
    the defaults. Nothing here speaks of how the rows are built. */
module Effects {
  import opened Base
  import opened Schema
  import opened Text
  import opened Rows
  import opened Capture
  import opened Changes
  import opened WellFormed
  import opened History
  import opened Runs
  import opened Promotions
  import Evidence
  import Refinement
  import Slugs

  // ---- Columns and payload keys.

  /** A key given with a value sets the column; without one the column has the other value. */
  predicate GivenOr<T(==)>(value: T, key: Field<T>, other: T) {
    match key
    case Val(v) => value == v
    case Null => value == other
    case Absent => value == other
  }

  /** The same for a nullable column. */
  predicate ColumnGivenOr<T(==)>(value: Option<T>, key: Field<T>, other: Option<T>) {
    match key
    case Val(v) => value == Some(v)
    case Null => value == other
    case Absent => value == other
  }

  /** A key that is there decides: its value, or for null the cleared value; an absent one leaves the column. */
  predicate PresentOr<T(==)>(value: T, key: Field<T>, cleared: T, before: T) {
    match key
    case Val(v) => value == v
    case Null => value == cleared
    case Absent => value == before
  }

  predicate ColumnPresentOr<T(==)>(value: Option<T>, key: Field<T>, before: Option<T>) {
    match key
    case Val(v) => value == Some(v)
    case Null => value == None
    case Absent => value == before
  }

  predicate LabelsGivenOr(l: Labels, f: LabelFields, other: Labels) {
    && GivenOr(l.scopeKind, f.scopeKind, other.scopeKind) && ColumnGivenOr(l.scopeId, f.scopeId, other.scopeId)
    && GivenOr(l.authorityKind, f.authorityKind, other.authorityKind)
    && ColumnGivenOr(l.authorityId, f.authorityId, other.authorityId)
    && GivenOr(l.discovery, f.discovery, other.discovery) && GivenOr(l.claim, f.claim, other.claim)
  }

  // ---- The entry a promotion makes.

  /** The slug of an entry: the one given, or else the candidate's, or else one made of the text. */
  predicate SlugTold(slug: string, given: Field<string>, proposed: Option<string>, text: string) {
    if OrElse(given, "") != "" then slug == given.value
    else if proposed.Some? && proposed.value != "" then slug == proposed.value
    else slug == "candidate-" + text
  }

  /** The entry is active, curated Markdown by the promoter; every other column is the override, or
      else the candidate's, or else the default. */
  predicate PromotedAs(e: Entry, c: Candidate, f: EntryFields, who: string, text: string) {
    && SlugTold(e.slug, f.slug, c.slug, text)
    && e.status == Active && e.curationState == Curated && e.contentFormat == Markdown
    && e.createdBy == who && e.updatedBy == who
    && GivenOr(e.title, f.title, c.title) && GivenOr(e.summary, f.summary, c.summary) && GivenOr(e.body, f.body, c.body)
    && GivenOr(e.kind, f.kind, c.kind) && LabelsGivenOr(e.labels, f.labels, c.labels) && GivenOr(e.audience, f.audience, c.audience)
    && GivenOr(e.layer, f.layer, CuratedFact) && GivenOr(e.confidence, f.confidence, SourceBacked)
    && GivenOr(e.stability, f.stability, Evolving) && GivenOr(e.tags, f.tags, "[]")
  }

  /** Candidate `id` was promoted to the new entry `e`; no other candidate and no other entry was touched. */
  ghost predicate PromotedTo(db: Db, after: Db, id: int, row: Candidate, e: Entry, who: string) {
    && after.entries == db.entries[NextId(db.entries.Keys) := e]
    && after.candidates == db.candidates[id := row.(status := Promoted, updatedBy := who)]
  }

  lemma EntryIsPromotedAs(c: Candidate, id: Option<int>, f: EntryFields, who: string)
    ensures PromotedAs(PromotedEntry(c, id, f, who), c, f, who, if id.Some? then Decimal(id.value) else "<nil>")
  {
  }

  lemma PromotionRowsAre(db: Db, id: int, f: EntryFields, who: Actor)
    requires PromoteStored(db, id, f, who).Ok?
    ensures id in db.candidates
    ensures var c := PromoteStored(db, id, f, who).value;
      && c.entries == map[NextId(db.entries.Keys) := PromotedEntry(db.candidates[id], Some(id), f, who.name)]
      && c.candidates == map[id := db.candidates[id].(status := Promoted, updatedBy := who.name)]
  {
    Refinement.StatusUpdateSets(db.candidates[id], Promoted, who.name);
  }

  lemma RowsApply(db: Db, c: Change, promotion: Change, id: int, row: Candidate, entryId: int, e: Entry)
    requires c.(proposals := map[]) == promotion
    requires promotion.entries == map[entryId := e] && promotion.candidates == map[id := row]
    ensures Apply(db, c).entries == db.entries[entryId := e] && Apply(db, c).candidates == db.candidates[id := row]
  {
    assert c.entries == c.(proposals := map[]).entries && c.candidates == c.(proposals := map[]).candidates;
    Refinement.PutIsPlus(db.entries, entryId, e);
    Refinement.PutIsPlus(db.candidates, id, row);
  }

  /** Every accepted promotion of a stored candidate, direct or through a proposal, makes one entry of
      it under the overrides it is given. */
  lemma PromotionMakes(db: Db, r: Request, id: int) returns (e: Entry)
    requires PromotesStored(db, r, id)
    ensures id in db.candidates && PromotedAs(e, db.candidates[id], OverridesOf(db, r), OrElse(r.who.actor, ""), Decimal(id))
    ensures PromotedTo(db, Step(db, r), id, db.candidates[id], e, OrElse(r.who.actor, ""))
  {
    var who := PromotesAlike(db, r, id);
    var f := OverridesOf(db, r);
    PromotionRowsAre(db, id, f, who);
    e := PromotedEntry(db.candidates[id], Some(id), f, who.name);
    EntryIsPromotedAs(db.candidates[id], Some(id), f, who.name);
    RowsApply(db, ChangeOf(db, r).value, PromoteStored(db, id, f, who).value, id,
              db.candidates[id].(status := Promoted, updatedBy := who.name), NextId(db.entries.Keys), e);
  }

  /** Every auto-promoted capture makes one entry of the captured candidate under its own keys. */
  lemma CaptureMakes(db: Db, r: Request, id: int) returns (e: Entry, row: Candidate)
    requires PromotesCapture(db, r, id)
    ensures PromotedAs(e, row, r.capture.entry, OrElse(r.capture.actor, ""), "<nil>")
    ensures PromotedTo(db, Step(db, r), id, row, e, OrElse(r.capture.actor, ""))
  {
    var p := r.capture;
    Slugs.AutoPromotionOutcome(db, p);
    var c := CaptureChange(db, p).value;
    row := Slugs.CapturedRow(p);
    e := Slugs.WantedEntry(p);
    EntryIsPromotedAs(row, None, p.entry, AutoPromoter(p).name);
    ChangeLeaves(db, c);
    Refinement.PutIsPlus(db.entries, NextId(db.entries.Keys), e);
    Refinement.PutIsPlus(db.candidates, id, row.(status := Promoted, updatedBy := AutoPromoter(p).name));
  }

  // ---- The overrides of an applied proposal.

  /** The key of the action's payload decides if it is there, the key of the proposed entry otherwise. */
  predicate ActionFirst<T(==)>(key: Field<T>, action: Field<T>, proposed: Field<T>) {
    match action
    case Val(v) => key == Val(v)
    case Null => key == Null
    case Absent => key == proposed
  }

  predicate LabelsActionFirst(l: LabelFields, action: LabelFields, proposed: LabelFields) {
    && ActionFirst(l.scopeKind, action.scopeKind, proposed.scopeKind) && ActionFirst(l.scopeId, action.scopeId, proposed.scopeId)
    && ActionFirst(l.authorityKind, action.authorityKind, proposed.authorityKind)
    && ActionFirst(l.authorityId, action.authorityId, proposed.authorityId)
    && ActionFirst(l.discovery, action.discovery, proposed.discovery) && ActionFirst(l.claim, action.claim, proposed.claim)
  }

  predicate OverridesFrom(f: EntryFields, action: EntryFields, proposed: EntryFields) {
    && ActionFirst(f.slug, action.slug, proposed.slug) && ActionFirst(f.title, action.title, proposed.title)
    && ActionFirst(f.summary, action.summary, proposed.summary) && ActionFirst(f.body, action.body, proposed.body)
    && ActionFirst(f.kind, action.kind, proposed.kind) && ActionFirst(f.layer, action.layer, proposed.layer)
    && LabelsActionFirst(f.labels, action.labels, proposed.labels)
    && ActionFirst(f.confidence, action.confidence, proposed.confidence)
    && ActionFirst(f.stability, action.stability, proposed.stability)
    && ActionFirst(f.audience, action.audience, proposed.audience) && ActionFirst(f.tags, action.tags, proposed.tags)
  }

  lemma PayloadPrefersAction(p: Proposal)
    ensures p.payload.Some? ==> OverridesFrom(ProposalPayload(p), p.payload.value, p.entry)
    ensures p.payload.None? ==> ProposalPayload(p) == p.entry
  {
  }

  /** An applied promotion makes an entry whose overrides are, key by key, those of the action's
      payload, or else those of the proposed entry; and it marks the proposal applied. */
  lemma ApplicationMakes(db: Db, pid: int, who: ActorFields, id: int) returns (e: Entry, f: EntryFields)
    requires PromotesStored(db, ApplyProposal(pid, who), id)
    ensures pid in db.proposals && id in db.candidates
    ensures var p := db.proposals[pid];
      OverridesFrom(f, if p.payload.Some? then p.payload.value else NO_OVERRIDES, p.entry)
    ensures PromotedAs(e, db.candidates[id], f, OrElse(who.actor, ""), Decimal(id))
    ensures PromotedTo(db, Step(db, ApplyProposal(pid, who)), id, db.candidates[id], e, OrElse(who.actor, ""))
  {
    var r := ApplyProposal(pid, who);
    e := PromotionMakes(db, r, id);
    f := OverridesOf(db, r);
    PayloadPrefersAction(db.proposals[pid]);
  }

  // ---- The parts of a split.

  /** The fragments that are objects, in order. */
  function Objects(fragments: seq<Option<CandidateFields>>): seq<CandidateFields> {
    if fragments == [] then []
    else
      var last := fragments[|fragments| - 1];
      Objects(fragments[..|fragments| - 1]) + (if last.Some? then [last.value] else [])
  }

  predicate LabelsPresentOr(l: Labels, f: LabelFields, before: Labels) {
    && PresentOr(l.scopeKind, f.scopeKind, Global, before.scopeKind) && ColumnPresentOr(l.scopeId, f.scopeId, before.scopeId)
    && PresentOr(l.authorityKind, f.authorityKind, Global, before.authorityKind)
    && ColumnPresentOr(l.authorityId, f.authorityId, before.authorityId)
    && PresentOr(l.discovery, f.discovery, ExplicitOnly, before.discovery)
    && PresentOr(l.claim, f.claim, Observation, before.claim)
  }

  /** A pending candidate of the actor: what the fragment gives, and else what the original has. */
  predicate PartOf(row: Candidate, part: CandidateFields, original: Candidate, who: string) {
    && row.status == Pending && row.layer == CandidateLayer && row.createdBy == who && row.updatedBy == who
    && !part.title.Null? && GivenOr(row.title, part.title, original.title)
    && !part.kind.Null? && GivenOr(row.kind, part.kind, original.kind)
    && PresentOr(row.body, part.body, "", original.body) && PresentOr(row.summary, part.summary, "", original.summary)
    && ColumnPresentOr(row.slug, part.slug, original.slug)
    && LabelsPresentOr(row.labels, part.labels, original.labels)
    && PresentOr(row.audience, part.audience, "[]", original.audience)
    && ColumnPresentOr(row.extractionConfidence, part.extractionConfidence, original.extractionConfidence)
    && GivenOr(row.refs, part.refs, original.refs)
  }

  lemma OverlaidLabels(l: Labels, f: LabelFields)
    ensures LabelsPresentOr(NewLabels(OverlayLabels(LabelsAsFields(l), f)), f, l)
  {
  }

  lemma FragmentIsPart(c: Candidate, part: CandidateFields, who: string)
    requires NewCandidate(FragmentFields(c, part, who)).Ok?
    ensures PartOf(NewCandidate(FragmentFields(c, part, who)).value, part, c, who)
  {
    OverlaidLabels(c.labels, part.labels);
    var (f, row) := (FragmentFields(c, part, who), NewCandidate(FragmentFields(c, part, who)).value);
    assert row.labels == NewLabels(f.labels);
    assert f.title == Val(row.title) && f.kind == Val(row.kind);
  }

  lemma {:induction false} FragmentsAreParts(c: Candidate, fragments: seq<Option<CandidateFields>>, who: string)
    requires FragmentRows(c, fragments, who).Ok?
    ensures var (rows, parts) := (FragmentRows(c, fragments, who).value, Objects(fragments));
      |rows| == |parts| && forall k :: 0 <= k < |parts| ==> PartOf(rows[k], parts[k], c, who)
    decreases |fragments|
  {
    if fragments != [] {
      var (front, last) := (fragments[..|fragments| - 1], fragments[|fragments| - 1]);
      FragmentsAreParts(c, front, who);
      if last.Some? {
        FragmentIsPart(c, last.value, who);
      }
    }
  }

  /** What a split leaves of the candidate table: every part behind the others in order, the original
      marked, and all other rows as they were. */
  ghost predicate SplitTable(before: map<int, Candidate>, after: map<int, Candidate>, id: int, parts: seq<CandidateFields>, who: string) {
    var first := NextId(before.Keys);
    && id in before && (forall j :: j in after <==> j in before || first <= j < first + |parts|)
    && after[id] == before[id].(status := NeedsSplit, updatedBy := who)
    && (forall k {:trigger parts[k]} :: 0 <= k < |parts| ==> PartOf(after[first + k], parts[k], before[id], who))
    && (forall j :: j in before && j != id ==> after[j] == before[j])
  }

  /** New rows behind the old ones, one row marked, and nothing else. */
  ghost predicate Extended(before: map<int, Candidate>, after: map<int, Candidate>, first: int, rows: seq<Candidate>, id: int,
                           marked: Candidate)
  {
    && (forall j :: j in after <==> j in before || first <= j < first + |rows|)
    && id in after && after[id] == marked
    && (forall k {:trigger rows[k]} :: 0 <= k < |rows| ==> after[first + k] == rows[k])
    && (forall j :: j in before && j != id ==> after[j] == before[j])
  }

  lemma ExtendedBy(before: map<int, Candidate>, added: map<int, Candidate>, first: int, rows: seq<Candidate>, id: int, marked: Candidate)
    requires id in before && (forall j :: j in before ==> j < first)
    requires forall j :: j in added <==> first <= j < first + |rows|
    requires forall j :: j in added ==> added[j] == rows[j - first]
    ensures Extended(before, (before + added)[id := marked], first, rows, id, marked)
  {
    var after := (before + added)[id := marked];
    forall k | 0 <= k < |rows|
      ensures after[first + k] == rows[k]
    {
      assert first + k in added && added[first + k] == rows[first + k - first];
    }
  }

  lemma TableAfterParts(before: map<int, Candidate>, after: map<int, Candidate>, id: int, rows: seq<Candidate>,
                        parts: seq<CandidateFields>, who: string)
    requires id in before && |rows| == |parts|
    requires Extended(before, after, NextId(before.Keys), rows, id, before[id].(status := NeedsSplit, updatedBy := who))
    requires forall k :: 0 <= k < |parts| ==> PartOf(rows[k], parts[k], before[id], who)
    ensures SplitTable(before, after, id, parts, who)
  {
  }

  lemma SplitIsInto(db: Db, id: int, fragments: seq<Option<CandidateFields>>, who: ActorFields)
    requires SplitChange(db, id, fragments, who).Ok?
    ensures |fragments| >= 2 && id in db.candidates && RequireActorReason(who).Ok?
    ensures var actor := RequireActorReason(who).value;
      var rows := FragmentRows(db.candidates[id], fragments, actor.name);
      && rows.Ok? && SplitChange(db, id, fragments, who) == SplitInto(db, id, rows.value, actor)
  {
  }

  lemma SplitIntoTable(db: Db, id: int, rows: seq<Candidate>, parts: seq<CandidateFields>, who: Actor, after: Db)
    requires id in db.candidates && |rows| == |parts| && SplitInto(db, id, rows, who).Ok?
    requires forall k :: 0 <= k < |parts| ==> PartOf(rows[k], parts[k], db.candidates[id], who.name)
    requires after == Commit(db, SplitInto(db, id, rows, who))
    ensures SplitTable(db.candidates, after.candidates, id, parts, who.name)
  {
    Refinement.SplitLeaves(db, id, rows, who);
    Refinement.StatusUpdateSets(db.candidates[id], NeedsSplit, who.name);
    var (first, marked) := (NextId(db.candidates.Keys), db.candidates[id].(status := NeedsSplit, updatedBy := who.name));
    RowsFromKeys(first, rows);
    ExtendedBy(db.candidates, RowsFrom(first, rows), first, rows, id, marked);
    TableAfterParts(db.candidates, after.candidates, id, rows, parts, who.name);
  }

  lemma SplitChangeMakesParts(db: Db, id: int, fragments: seq<Option<CandidateFields>>, who: ActorFields, after: Db)
    requires SplitChange(db, id, fragments, who).Ok? && after == Commit(db, SplitChange(db, id, fragments, who))
    ensures |fragments| >= 2 && RequireActorReason(who).Ok?
    ensures SplitTable(db.candidates, after.candidates, id, Objects(fragments), RequireActorReason(who).value.name)
  {
    SplitIsInto(db, id, fragments, who);
    var actor := RequireActorReason(who).value;
    var rows := FragmentRows(db.candidates[id], fragments, actor.name).value;
    FragmentsAreParts(db.candidates[id], fragments, actor.name);
    SplitIntoTable(db, id, rows, Objects(fragments), actor, after);
  }

  lemma SplitStep(db: Db, id: int, fragments: seq<Option<CandidateFields>>, who: ActorFields)
    ensures ChangeOf(db, Split(id, fragments, who)) == SplitChange(db, id, fragments, who)
  {
  }

  /** An accepted split: the k-th object fragment is the candidate with the k-th new id, holding what
      the fragment gives and else what the original has; the original changes status and editor. */
  lemma SplitMakesParts(db: Db, id: int, fragments: seq<Option<CandidateFields>>, who: ActorFields, after: Db)
    requires ChangeOf(db, Split(id, fragments, who)).Ok? && after == Step(db, Split(id, fragments, who))
    ensures |fragments| >= 2 && RequireActorReason(who).Ok?
    ensures SplitTable(db.candidates, after.candidates, id, Objects(fragments), RequireActorReason(who).value.name)
  {
    SplitStep(db, id, fragments, who);
    SplitChangeMakesParts(db, id, fragments, who, after);
  }

  // ---- The merged candidate.

  /** The parts occur in the text one behind the other, in order and without overlap. */
  ghost predicate Threads(whole: string, parts: seq<string>)
    decreases |parts|
  {
    if parts == [] then true
    else
      var last := parts[|parts| - 1];
      exists cut :: 0 <= cut <= |whole| - |last| && whole[cut..cut + |last|] == last && Threads(whole[..cut], parts[..|parts| - 1])
  }

  lemma ThreadsMore(whole: string, parts: seq<string>, more: string)
    requires Threads(whole, parts)
    ensures Threads(whole + more, parts)
  {
    if parts != [] {
      var last := parts[|parts| - 1];
      var cut :| 0 <= cut <= |whole| - |last| && whole[cut..cut + |last|] == last && Threads(whole[..cut], parts[..|parts| - 1]);
      assert (whole + more)[cut..cut + |last|] == whole[cut..cut + |last|] && (whole + more)[..cut] == whole[..cut];
    }
  }

  lemma ThreadsOneMore(whole: string, parts: seq<string>, last: string)
    requires Threads(whole, parts)
    ensures Threads(whole + last, parts + [last])
  {
    var (all, longer) := (whole + last, parts + [last]);
    assert all[|whole|..|whole| + |last|] == last && all[..|whole|] == whole && longer[..|longer| - 1] == parts;
  }

  lemma JoinedTextsGrow(front: seq<string>, last: string, separator: string)
    ensures var (joined, all) := (JoinedTexts(front, separator), JoinedTexts(front + [last], separator));
      all == if last != "" && joined != "" then joined + separator + last else joined + last
  {
    var texts := front + [last];
    assert texts[..|texts| - 1] == front;
  }

  lemma JoinedThreadsMore(joined: string, front: seq<string>, last: string, separator: string)
    requires Threads(joined, front)
    ensures Threads(if last != "" && joined != "" then joined + separator + last else joined + last, front + [last])
  {
    ThreadsOneMore(joined, front, last);
    ThreadsMore(joined, front, separator);
    ThreadsOneMore(joined + separator, front, last);
  }

  lemma {:induction false} JoinedTextsThread(texts: seq<string>, separator: string)
    ensures Threads(JoinedTexts(texts, separator), texts)
    decreases |texts|
  {
    if texts != [] {
      var (front, last) := (texts[..|texts| - 1], texts[|texts| - 1]);
      JoinedTextsThread(front, separator);
      JoinedThreadsMore(JoinedTexts(front, separator), front, last, separator);
      JoinedTextsGrow(front, last, separator);
      assert texts == front + [last];
    }
  }

  function Titles(rows: seq<Candidate>): seq<string> {
    seq(|rows|, i requires 0 <= i < |rows| => rows[i].title)
  }

  lemma {:induction false} JoinedTitlesThread(rows: seq<Candidate>)
    ensures Threads(JoinedTitles(rows), Titles(rows))
    decreases |rows|
  {
    if rows != [] {
      var (front, last) := (rows[..|rows| - 1], rows[|rows| - 1]);
      JoinedTitlesThread(front);
      assert Titles(rows) == Titles(front) + [last.title];
      if front == [] {
        assert JoinedTitles(rows) == "" + last.title;
        ThreadsOneMore("", Titles(front), last.title);
      } else {
        ThreadsMore(JoinedTitles(front), Titles(front), " / ");
        ThreadsOneMore(JoinedTitles(front) + " / ", Titles(front), last.title);
      }
    }
  }

  lemma TwoTextsJoined(a: string, b: string, separator: string)
    requires a != "" && b != ""
    ensures JoinedTexts([a, b], separator) == a + separator + b
  {
    assert [a, b][..1] == [a] && [a][..0] == [];
    assert JoinedTexts([a], separator) == a;
  }

  /** The separators, told by two texts that are not empty. */
  lemma TwoAreJoined(a: Candidate, b: Candidate)
    ensures JoinedTitles([a, b]) == a.title + " / " + b.title
    ensures a.body != "" && b.body != "" ==> JoinedTexts(Bodies([a, b]), "\n\n") == a.body + "\n\n" + b.body
    ensures a.summary != "" && b.summary != "" ==> JoinedTexts(Summaries([a, b]), "\n") == a.summary + "\n" + b.summary
  {
    assert [a, b][..1] == [a];
    assert Bodies([a, b]) == [a.body, b.body] && Summaries([a, b]) == [a.summary, b.summary];
    if a.body != "" && b.body != "" {
      TwoTextsJoined(a.body, b.body, "\n\n");
    }
    if a.summary != "" && b.summary != "" {
      TwoTextsJoined(a.summary, b.summary, "\n");
    }
  }

  /** A pending candidate of the actor: kind and labels of the first source, and the titles, bodies and
      summaries of all of them one behind the other, unless the payload gives others. */
  ghost predicate MergedFrom(row: Candidate, rows: seq<Candidate>, f: CandidateFields, who: string)
    requires rows != []
  {
    && row.status == Pending && row.layer == CandidateLayer && row.slug == None && row.createdBy == who && row.updatedBy == who
    && GivenOr(row.kind, f.kind, rows[0].kind) && LabelsGivenOr(row.labels, f.labels, rows[0].labels)
    && (if f.title.Val? then row.title == f.title.value else Threads(row.title, Titles(rows)))
    && (if f.body.Val? then row.body == f.body.value else Threads(row.body, Bodies(rows)))
    && (if f.summary.Val? then row.summary == f.summary.value else Threads(row.summary, Summaries(rows)))
  }

  /** What two sources with texts of their own become. */
  ghost predicate MergedOfTwo(row: Candidate, a: Candidate, b: Candidate, f: CandidateFields) {
    && (!f.title.Val? ==> row.title == a.title + " / " + b.title)
    && (!f.body.Val? && a.body != "" && b.body != "" ==> row.body == a.body + "\n\n" + b.body)
    && (!f.summary.Val? && a.summary != "" && b.summary != "" ==> row.summary == a.summary + "\n" + b.summary)
  }

  lemma MergeIsFrom(rows: seq<Candidate>, f: CandidateFields, who: string)
    requires rows != [] && NewCandidate(MergedFields(rows, f, who)).Ok?
    ensures var row := NewCandidate(MergedFields(rows, f, who)).value;
      MergedFrom(row, rows, f, who) && (|rows| == 2 ==> MergedOfTwo(row, rows[0], rows[1], f))
  {
    JoinedTitlesThread(rows);
    JoinedTextsThread(Bodies(rows), "\n\n");
    JoinedTextsThread(Summaries(rows), "\n");
    if |rows| == 2 {
      assert rows == [rows[0], rows[1]];
      TwoAreJoined(rows[0], rows[1]);
    }
  }

  /** What a merge leaves of the candidate table: one new row, the sources marked, and all other rows
      as they were. */
  ghost predicate MergeTable(before: map<int, Candidate>, after: map<int, Candidate>, ids: seq<int>, row: Candidate, who: string) {
    var id := NextId(before.Keys);
    && id in after && after[id] == row && (forall j :: j in after <==> j in before || j == id)
    && (forall j :: j in ids ==> j in before && after[j] == before[j].(status := NeedsMerge, updatedBy := who))
    && (forall j :: j in before && j !in ids ==> after[j] == before[j])
  }

  lemma MergedBy(before: map<int, Candidate>, sources: map<int, Candidate>, ids: seq<int>, row: Candidate, who: string)
    requires NextId(before.Keys) !in sources
    requires forall j :: j in sources <==> j in ids
    requires forall j :: j in sources ==> j in before && sources[j] == before[j].(status := NeedsMerge, updatedBy := who)
    ensures MergeTable(before, before[NextId(before.Keys) := row] + sources, ids, row, who)
  {
  }

  lemma MergeIntoTable(db: Db, ids: seq<int>, row: Candidate, who: Actor, after: Db)
    requires AllStored(db.candidates, ids) && MergedInto(db, ids, row, who).Ok?
    requires after == Commit(db, MergedInto(db, ids, row, who))
    ensures MergeTable(db.candidates, after.candidates, ids, row, who.name)
  {
    var (id, sources) := (NextId(db.candidates.Keys), SourcesAfter(db.candidates, ids, who.name));
    Refinement.MergeRefines(db, id, row, sources, MergedInto(db, ids, row, who).value.events[0]);
    MergedBy(db.candidates, sources, ids, row, who.name);
  }

  lemma MergeIsInto(db: Db, ids: seq<int>, f: CandidateFields, who: ActorFields)
    requires MergeChange(db, ids, f, who).Ok?
    ensures |ids| >= 2 && AllStored(db.candidates, ids) && RequireActorReason(who).Ok?
    ensures var (actor, rows) := (RequireActorReason(who).value, RowsOf(db.candidates, ids));
      var row := NewCandidate(MergedFields(rows, f, actor.name));
      && |rows| == |ids| && row.Ok? && MergeChange(db, ids, f, who) == MergedInto(db, ids, row.value, actor)
  {
  }

  /** An accepted merge: one new candidate made of the sources, which are marked. */
  lemma MergeMakesOne(db: Db, ids: seq<int>, f: CandidateFields, who: ActorFields, after: Db) returns (row: Candidate)
    requires ChangeOf(db, Merge(ids, f, who)).Ok? && after == Step(db, Merge(ids, f, who))
    ensures |ids| >= 2 && AllStored(db.candidates, ids) && RequireActorReason(who).Ok?
    ensures MergedFrom(row, RowsOf(db.candidates, ids), f, RequireActorReason(who).value.name)
    ensures |ids| == 2 ==> MergedOfTwo(row, db.candidates[ids[0]], db.candidates[ids[1]], f)
    ensures MergeTable(db.candidates, after.candidates, ids, row, RequireActorReason(who).value.name)
  {
    Evidence.MergeStep(db, Merge(ids, f, who));
    MergeIsInto(db, ids, f, who);
    var (actor, rows) := (RequireActorReason(who).value, RowsOf(db.candidates, ids));
    MergeIsFrom(rows, f, actor.name);
    row := NewCandidate(MergedFields(rows, f, actor.name)).value;
    MergeIntoTable(db, ids, row, actor, after);
  }

  // ---- What a capture may store.

  /** The markers, as a reader of the texts would look for them. */
  predicate LooksSecret(s: string) {
    || Contains(Lower(s), "begin private key") || Contains(Lower(s), "begin rsa private key") || Contains(Lower(s), "api_key=")
    || Contains(Lower(s), "xoxb-") || Contains(Lower(s), "ghp_") || Contains(Lower(s), "sk-")
  }

  lemma LooksSecretIsSecret(s: string)
    ensures LooksSecret(s) <==> HasSecret(s)
  {
    assert Lower(SECRET_MARKERS[0]) == "begin private key" && Lower(SECRET_MARKERS[1]) == "begin rsa private key";
    assert Lower(SECRET_MARKERS[2]) == "api_key=" && Lower(SECRET_MARKERS[3]) == "xoxb-";
    assert Lower(SECRET_MARKERS[4]) == "ghp_" && Lower(SECRET_MARKERS[5]) == "sk-";
    if HasSecret(s) {
      var k :| 0 <= k < |SECRET_MARKERS| && Contains(Lower(s), Lower(SECRET_MARKERS[k]));
      assert k == 0 || k == 1 || k == 2 || k == 3 || k == 4 || k == 5;
    }
  }

  /** A capture event tells who captured what where, and how long the texts were. */
  predicate LoggedAs(e: CaptureEvent, p: CapturePayload) {
    && GivenOr(e.kind, p.log.eventKind, ManualNoteEvent) && GivenOr(e.runtime, p.log.runtime, Manual)
    && GivenOr(e.policy, p.log.policy, "api-capture") && GivenOr(e.refs, p.refs, RefList([]))
    && (if p.actor.Val? then e.actor == p.actor.value else GivenOr(e.actor, p.createdBy, "api"))
    && GivenOr(e.scopeKind, p.entry.labels.scopeKind, Global) && ColumnGivenOr(e.scopeId, p.entry.labels.scopeId, None)
    && (e.rawSize == 0
        || (p.entry.body.Val? && e.rawSize == |p.entry.body.value|)
        || (p.log.rawText.Val? && e.rawSize == |p.log.rawText.value|) || (p.log.content.Val? && e.rawSize == |p.log.content.value|))
    && (e.extractedSize == 0 || (p.entry.summary.Val? && e.extractedSize == |p.entry.summary.value|))
  }

  lemma DecisionIsLogged(p: CapturePayload, decision: Decision, reason: string, ids: seq<int>, size: int)
    requires size == 0 || size == -1
    ensures var e := DecisionRow(p, decision, reason, ids, size);
      LoggedAs(e, p) && e.decision == decision && e.reason == reason && e.candidateIds == ids
  {
  }

  /** Everything but the capture log is as it was; an accepted request logs one event. */
  ghost predicate LogsOnly(db: Db, p: CapturePayload, after: Db, accepted: bool, decision: Decision) {
    && after.candidates == db.candidates && after.entries == db.entries && after.events == db.events && after.refs == db.refs
    && (if accepted then
          |after.captures| == |db.captures| + 1 && after.captures[..|db.captures|] == db.captures
          && LoggedAs(after.captures[|db.captures|], p)
          && after.captures[|db.captures|].decision == decision && after.captures[|db.captures|].candidateIds == []
        else after == db)
  }

  lemma OneLogged(db: Db, p: CapturePayload, e: CaptureEvent, decision: Decision, after: Db)
    requires after == Apply(db, NOTHING.(captures := [e])) && LoggedAs(e, p) && e.decision == decision && e.candidateIds == []
    ensures LogsOnly(db, p, after, true, decision)
  {
    ChangeLeaves(db, NOTHING.(captures := [e]));
    Refinement.PlusNothing(db.candidates);
    Refinement.PlusNothing(db.entries);
  }

  lemma EarlyIsDecided(db: Db, p: CapturePayload)
    requires EarlyDecision(p).Some?
    ensures var early := EarlyDecision(p).value;
      && (early.2 == 0 || early.2 == -1)
      && CaptureChange(db, p) == DecisionChange(p, early.0, early.1, early.2)
  {
  }

  lemma EarlyLogsOnly(db: Db, p: CapturePayload, after: Db)
    requires EarlyDecision(p).Some? && after == Step(db, CaptureMemory(p))
    ensures ChangeOf(db, CaptureMemory(p)) == CaptureChange(db, p)
    ensures LogsOnly(db, p, after, CaptureChange(db, p).Ok?, EarlyDecision(p).value.0)
  {
    CaptureStep(db, p);
    EarlyIsDecided(db, p);
    var early := EarlyDecision(p).value;
    var e := DecisionRow(p, early.0, early.1, [], early.2);
    DecisionIsLogged(p, early.0, early.1, [], early.2);
    if CaptureChange(db, p).Ok? {
      OneLogged(db, p, e, early.0, after);
    }
  }

  /** The request names no mode. */
  predicate NamesNoMode(p: CapturePayload) {
    !p.mode.Val? || p.mode.value == OtherMode("")
  }

  predicate RunsUnder(p: CapturePayload, name: string) {
    p.log.runtime.Val? && p.log.runtime.value.OtherRuntime? && Lower(p.log.runtime.value.text) == name
  }

  /** A worker or an auditor, by role or by runtime. */
  predicate WorksOrAudits(p: CapturePayload) {
    || (p.role.Val? && (Lower(p.role.value) == "worker" || Lower(p.role.value) == "auditor"))
    || RunsUnder(p, "worker") || RunsUnder(p, "subagent") || RunsUnder(p, "audit")
  }

  /** The modes that store nothing, by name or by default. */
  predicate CapturesNothing(p: CapturePayload) {
    || p.mode == Val(Off) || p.mode == Val(MetadataOnly) || p.mode == Val(CuratedManualOnly)
    || (NamesNoMode(p) && WorksOrAudits(p))
  }

  lemma IgnoredIsDecided(p: CapturePayload)
    requires CapturesNothing(p)
    ensures EarlyDecision(p).Some? && EarlyDecision(p).value.0 == if p.simulateError then Errored else Ignored
  {
  }

  /** A capture in a mode that stores nothing, among them every capture of a worker or an auditor that
      names no mode, logs one ignored event, or an errored one when an error is simulated. */
  lemma IgnoredCapturesOnlyLog(db: Db, p: CapturePayload, after: Db)
    requires CapturesNothing(p) && after == Step(db, CaptureMemory(p))
    ensures LogsOnly(db, p, after, ChangeOf(db, CaptureMemory(p)).Ok?, if p.simulateError then Errored else Ignored)
  {
    IgnoredIsDecided(p);
    EarlyLogsOnly(db, p, after);
  }

  /** A mode outside the list is an errored event and nothing more. */
  lemma UnknownModesOnlyLog(db: Db, p: CapturePayload, after: Db)
    requires p.mode.Val? && p.mode.value.OtherMode? && p.mode.value.text != "" && after == Step(db, CaptureMemory(p))
    ensures LogsOnly(db, p, after, ChangeOf(db, CaptureMemory(p)).Ok?, Errored)
  {
    EarlyLogsOnly(db, p, after);
  }

  lemma UnpromotedWritesNoEntry(db: Db, p: CapturePayload)
    requires !AutoPromotes(p) && CaptureChange(db, p).Ok?
    ensures var c := CaptureChange(db, p).value; c.entries == map[] && c.events == [] && c.droppedEdges == {}
  {
  }

  /** No capture of a worker or an auditor, or of nobody, is promoted, whatever the mode. */
  lemma WorkersPromoteNothing(db: Db, p: CapturePayload, after: Db)
    requires WorksOrAudits(p) || RunsUnder(p, "audit_service") || !p.actor.Val? || p.actor.value == ""
    requires after == Step(db, CaptureMemory(p))
    ensures after.entries == db.entries && after.events == db.events
  {
    CaptureStep(db, p);
    if CaptureChange(db, p).Ok? {
      UnpromotedWritesNoEntry(db, p);
      ChangeLeaves(db, CaptureChange(db, p).value);
      Refinement.PlusNothing(db.entries);
    }
  }

  /** The text a capture without a body falls back to. */
  predicate GivesSecret(p: CapturePayload) {
    || (p.entry.title.Val? && LooksSecret(p.entry.title.value))
    || (p.entry.summary.Val? && LooksSecret(p.entry.summary.value))
    || (p.entry.body.Val? && LooksSecret(p.entry.body.value))
    || (OrElse(p.entry.body, "") == "" && p.log.rawText.Val? && LooksSecret(p.log.rawText.value))
    || (OrElse(p.entry.body, "") == "" && !p.log.rawText.Val? && p.log.content.Val? && LooksSecret(p.log.content.value))
  }

  lemma SecretIsFiltered(p: CapturePayload)
    requires GivesSecret(p)
    ensures HasSecret(CapturedTitle(p)) || HasSecret(CapturedSummary(p)) || HasSecret(CapturedBody(p.entry.body, p.log))
  {
    LooksSecretIsSecret(OrElse(p.entry.title, ""));
    LooksSecretIsSecret(OrElse(p.entry.summary, ""));
    LooksSecretIsSecret(OrElse(p.entry.body, ""));
    LooksSecretIsSecret(OrElse(p.log.rawText, ""));
    LooksSecretIsSecret(OrElse(p.log.content, ""));
    NoSecretInNothing();
  }

  lemma SecretFilters(p: CapturePayload)
    requires HasSecret(Trim(CapturedTitle(p) + CapturedSummary(p) + CapturedBody(p.entry.body, p.log)))
    ensures FilterReason(CandidateOf(p)).Some?
  {
  }

  lemma SecretIsDecided(p: CapturePayload)
    requires HasSecret(CapturedTitle(p)) || HasSecret(CapturedSummary(p)) || HasSecret(CapturedBody(p.entry.body, p.log))
    ensures FilterReason(CandidateOf(p)).Some? && EarlyDecision(p).Some?
    ensures p.mode == Val(PermissiveCandidates) && !p.simulateError ==> EarlyDecision(p).value.0 == Filtered
  {
    var (t, s, b) := (CapturedTitle(p), CapturedSummary(p), CapturedBody(p.entry.body, p.log));
    if !HasSecret(Trim(t + s + b)) {
      CleanParts(t, s, b);
    }
    SecretFilters(p);
  }

  /** A capture whose title, summary or body holds a secret marker stores nothing, in any mode; where
      captures are otherwise accepted it is logged as filtered. */
  lemma SecretsAreNotStored(db: Db, p: CapturePayload, after: Db)
    requires GivesSecret(p) && after == Step(db, CaptureMemory(p))
    ensures EarlyDecision(p).Some? && LogsOnly(db, p, after, ChangeOf(db, CaptureMemory(p)).Ok?, EarlyDecision(p).value.0)
    ensures p.mode == Val(PermissiveCandidates) && !p.simulateError ==> EarlyDecision(p).value.0 == Filtered
  {
    SecretIsFiltered(p);
    SecretIsDecided(p);
    EarlyLogsOnly(db, p, after);
  }

  /** The body of a capture is the one given, or else the raw text, or else the content. */
  predicate BodyTold(p: CapturePayload, body: string) {
    if OrElse(p.entry.body, "") != "" then body == p.entry.body.value
    else if p.log.rawText.Val? then body == p.log.rawText.value
    else GivenOr(body, p.log.content, "")
  }

  /** The title is the one given, or else up to 80 bytes of the first line of the body that is not blank. */
  ghost predicate TitleTold(p: CapturePayload, title: string, body: string) {
    if OrElse(p.entry.title, "") != "" then title == p.entry.title.value
    else if Blank(body) then title == "Captured memory candidate"
    else exists i, k :: FirstLineAt(body, i, k) && title == body[i..if k < i + 80 then k else i + 80]
  }

  /** The summary is the one given, or else up to 180 bytes of the body, or else the title. */
  ghost predicate TextsTold(p: CapturePayload, title: string, summary: string, body: string) {
    && BodyTold(p, body) && TitleTold(p, title, body)
    && (if OrElse(p.entry.summary, "") != "" then summary == p.entry.summary.value
        else if body != "" then summary == body[..if |body| < 180 then |body| else 180]
        else summary == title)
  }

  /** The sizes are the lengths of the body and of the summary that is given. */
  ghost predicate SizesTold(p: CapturePayload, rawSize: int, extractedSize: int) {
    extractedSize == |OrElse(p.entry.summary, "")| && exists body :: BodyTold(p, body) && rawSize == |body|
  }

  lemma LoggedSizes(p: CapturePayload, decision: Decision, reason: string, ids: seq<int>)
    ensures var e := DecisionRow(p, decision, reason, ids, -1); SizesTold(p, e.rawSize, e.extractedSize)
  {
    assert BodyTold(p, CapturedBody(p.entry.body, p.log));
  }

  lemma CapturedTextsAre(p: CapturePayload)
    ensures TextsTold(p, CapturedTitle(p), CapturedSummary(p), CapturedBody(p.entry.body, p.log))
  {
    var body := CapturedBody(p.entry.body, p.log);
    var i, k := FirstLineTells(body, 80);
  }

  /** The candidate a capture stores: what is given, a body from the raw text, an authority from the scope. */
  ghost predicate CapturedAs(row: Candidate, p: CapturePayload) {
    && row.status == Pending && row.layer == CandidateLayer && row.slug == Column(p.proposedSlug)
    && TextsTold(p, row.title, row.summary, row.body)
    && (if p.proposedKind.Val? then row.kind == p.proposedKind.value else GivenOr(row.kind, p.entry.kind, "fact"))
    && GivenOr(row.labels.scopeKind, p.entry.labels.scopeKind, Global) && row.labels.scopeId == Column(p.entry.labels.scopeId)
    && GivenOr(row.labels.authorityKind, p.entry.labels.authorityKind, row.labels.scopeKind)
    && ColumnGivenOr(row.labels.authorityId, p.entry.labels.authorityId, row.labels.scopeId)
    && GivenOr(row.labels.discovery, p.entry.labels.discovery, ExplicitOnly)
    && GivenOr(row.labels.claim, p.entry.labels.claim, Observation)
    && GivenOr(row.audience, p.entry.audience, "[]") && GivenOr(row.refs, p.refs, RefList([]))
    && (if p.actor.Val? then row.createdBy == p.actor.value else GivenOr(row.createdBy, p.createdBy, "api"))
  }

  lemma CapturedRowIs(p: CapturePayload)
    requires EarlyDecision(p).None?
    ensures CapturedAs(Slugs.CapturedRow(p), p)
  {
    CapturedTextsAre(p);
  }

  /** A captured row under the next id and its log row, promoted or not. */
  ghost predicate StoresRow(db: Db, p: CapturePayload, c: Change)
    requires EarlyDecision(p).None?
  {
    var (id, row) := (NextId(db.candidates.Keys), Slugs.CapturedRow(p));
    && (c.candidates == map[id := row] || c.candidates == map[id := row.(status := Promoted, updatedBy := AutoPromoter(p).name)])
    && c.captures != [] && c.captures[0] == Slugs.CapturedLog(p, id) && c.droppedEdges == {}
  }

  lemma PlainCaptureStores(db: Db, p: CapturePayload)
    requires EarlyDecision(p).None? && CaptureChange(db, p).Ok? && !AutoPromotes(p)
    ensures StoresRow(db, p, CaptureChange(db, p).value)
  {
  }

  lemma AutoCaptureStores(db: Db, p: CapturePayload)
    requires EarlyDecision(p).None? && CaptureChange(db, p).Ok? && AutoPromotes(p)
    ensures StoresRow(db, p, CaptureChange(db, p).value)
  {
    Slugs.AutoPromotionOutcome(db, p);
    Slugs.CaptureOfRow(db, p);
    Slugs.CapturedRowPasses(p);
    var id := NextId(db.candidates.Keys);
    Slugs.AutoPromotionCases(db, p, id, Slugs.CapturedRow(p), Slugs.WantedEntry(p), AutoPromoter(p), Slugs.CapturedLog(p, id));
  }

  lemma StoredRowApplies(db: Db, p: CapturePayload, c: Change, after: Db)
    requires EarlyDecision(p).None? && StoresRow(db, p, c) && after == Apply(db, c)
    ensures var id := NextId(db.candidates.Keys);
      && id in after.candidates && (after.candidates[id].status == Pending || after.candidates[id].status == Promoted)
      && after.candidates[id].(status := Pending, updatedBy := "") == Slugs.CapturedRow(p).(updatedBy := "")
    ensures |after.captures| > |db.captures| && after.captures[|db.captures|] == Slugs.CapturedLog(p, NextId(db.candidates.Keys))
  {
    ChangeLeaves(db, c);
    Slugs.CapturedRowPasses(p);
  }

  lemma CapturedAsIgnoresEditor(a: Candidate, b: Candidate, p: CapturePayload)
    requires CapturedAs(a, p) && a.(updatedBy := "") == b.(updatedBy := "")
    ensures CapturedAs(b, p)
  {
    assert a == b.(updatedBy := a.updatedBy);
  }

  /** An accepted capture that stores a candidate stores what the payload says, and is logged as captured. */
  lemma CapturesStore(db: Db, p: CapturePayload, after: Db)
    requires ChangeOf(db, CaptureMemory(p)).Ok? && after == Step(db, CaptureMemory(p)) && EarlyDecision(p).None?
    ensures var id := NextId(db.candidates.Keys);
      && id in after.candidates
      && CapturedAs(after.candidates[id].(status := Pending), p)
      && (after.candidates[id].status == Pending || after.candidates[id].status == Promoted)
    ensures |after.captures| > |db.captures|
    ensures var e := after.captures[|db.captures|];
      LoggedAs(e, p) && e.decision == Captured && e.candidateIds == [NextId(db.candidates.Keys)]
      && SizesTold(p, e.rawSize, e.extractedSize) && GivenOr(e.reason, p.reason, "captured candidate")
  {
    LoggedSizes(p, Captured, OrElse(p.reason, "captured candidate"), [NextId(db.candidates.Keys)]);
    DecisionIsLogged(p, Captured, OrElse(p.reason, "captured candidate"), [NextId(db.candidates.Keys)], -1);
    if AutoPromotes(p) {
      AutoCaptureStores(db, p);
    } else {
      PlainCaptureStores(db, p);
    }
    StoredRowApplies(db, p, CaptureChange(db, p).value, after);
    CapturedRowIs(p);
    CapturedAsIgnoresEditor(Slugs.CapturedRow(p), after.candidates[NextId(db.candidates.Keys)].(status := Pending), p);
  }
}
