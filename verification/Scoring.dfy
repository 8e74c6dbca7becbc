/** Recall scoring: authority labels, weights, decay and rounding, over exact reals. */
module Scoring {
  import opened Base
  import opened Schema

  // ---- Authority.

  datatype Context = Context(scopeKind: ScopeKind, scopeId: string)

  datatype Label = Authoritative | DiscoveredEvidence | OutOfScope

  function TextOr(column: Option<string>): string {
    if column.Some? then column.value else ""
  }

  predicate AuthorityMatches(l: Labels, ctx: Context) {
    l.authorityKind == ctx.scopeKind && TextOr(l.authorityId) == ctx.scopeId
  }

  predicate GlobalAuthority(l: Labels) {
    l.authorityKind == Global && TextOr(l.authorityId) == ""
  }

  predicate Discoverable(l: Labels, ctx: Context) {
    || AuthorityMatches(l, ctx) || GlobalAuthority(l)
    || l.discovery == GlobalDiscoverable
    || (l.discovery == SameProject && ctx.scopeKind == Project && l.scopeKind == Project && TextOr(l.scopeId) == ctx.scopeId)
    || (l.discovery == LinkedProjects && ctx.scopeKind == Project)
  }

  function AuthorityLabel(l: Labels, ctx: Context): Label {
    if AuthorityMatches(l, ctx) || GlobalAuthority(l) then Authoritative
    else if Discoverable(l, ctx) then DiscoveredEvidence
    else OutOfScope
  }

  // ---- Weights.

  /** The keys scoring looks up. A missing weight counts as 0. */
  datatype Key =
    | AuthoritativeMatch | DiscoverableMatch | CrossScopePenalty | ScopeMismatch
    | ClaimKey(claim: ClaimStrength) | StatusKey(status: EntryStatus) | ConfidenceKey(confidence: Confidence)
    | SourceKey(validation: Validation) | RelationKey(relation: Relation) | DecayKey

  type Weights = Key -> real

  function V0Claim(c: ClaimStrength): real {
    match c
    case Observation => 0.0
    case Assessment => 8.0
    case Recommendation => 16.0
    case Policy => 30.0
    case OtherClaim(_) => 0.0
  }

  function V0Status(s: EntryStatus): real {
    match s
    case Active => 20.0
    case Draft => 0.0
    case Disputed => -15.0
    case SupersededEntry => -1000.0
    case Deprecated => -250.0
    case Archived => -1000.0
    case OtherEntryStatus(_) => 0.0
  }

  function V0Confidence(c: Confidence): real {
    match c
    case Unverified => -8.0
    case Inferred => -4.0
    case SourceBacked => 10.0
    case Verified => 18.0
    case _ => 0.0
  }

  function V0Source(v: Validation): real {
    match v
    case UnverifiedSource => -4.0
    case VerifiedSource => 12.0
    case BrokenSource => -45.0
    case StaleSource => -20.0
    case OtherValidation(_) => 0.0
  }

  function V0Relation(r: Relation): real {
    match r
    case Prerequisite => 16.0
    case ImplementationDetail => 12.0
    case OperationalRunbook => 14.0
    case FailureMode => 13.0
    case Warning => 14.0
    case EvidenceFor => 8.0
    case ContradictedBy => 10.0
    case Supersedes => 12.0
    case HistoricalContext => -4.0
    case RelatedConcept => 2.0
    case Example => 3.0
    case ReviewRisk => 15.0
    case SourceTrace => 5.0
    case OwnedByProject => 6.0
    case ContextualAssessment => 7.0
    case OtherRelation(_) => 0.0
  }

  /** The v0 defaults. */
  function V0(k: Key): real {
    match k
    case AuthoritativeMatch => 100.0
    case DiscoverableMatch => 45.0
    case CrossScopePenalty => -18.0
    case ScopeMismatch => -30.0
    case ClaimKey(c) => V0Claim(c)
    case StatusKey(s) => V0Status(s)
    case ConfidenceKey(c) => V0Confidence(c)
    case SourceKey(v) => V0Source(v)
    case RelationKey(r) => V0Relation(r)
    case DecayKey => 0.65
  }

  // ---- Scores.

  /** What ScoreItem reads of an entry or a topic node. */
  datatype Scored = Scored(labels: Labels, status: EntryStatus, confidence: Confidence)

  function LabelWeight(w: Weights, verdict: Label): real {
    match verdict
    case Authoritative => w(AuthoritativeMatch)
    case DiscoveredEvidence => w(DiscoverableMatch) + w(CrossScopePenalty)
    case OutOfScope => w(ScopeMismatch)
  }

  function SourceTotal(w: Weights, sources: seq<Validation>): real {
    if sources == [] then 0.0
    else SourceTotal(w, sources[..|sources| - 1]) + w(SourceKey(sources[|sources| - 1]))
  }

  /** The mean validation weight; no source counts as one unverified source. */
  function SourceMean(w: Weights, sources: seq<Validation>): real {
    if sources == [] then w(SourceKey(UnverifiedSource)) else SourceTotal(w, sources) / (|sources| as real)
  }

  function Pow(x: real, n: nat): real {
    if n == 0 then 1.0 else x * Pow(x, n - 1)
  }

  /** A score shrunk by the decay factor once per edge. */
  function Decayed(score: real, factor: real, depth: nat): real {
    if depth == 0 then score else factor * Decayed(score, factor, depth - 1)
  }

  lemma {:induction false} DecayedIsPower(score: real, factor: real, depth: nat)
    ensures Decayed(score, factor, depth) == score * Pow(factor, depth)
  {
    if depth > 0 {
      DecayedIsPower(score, factor, depth - 1);
    }
  }

  function RelationWeight(w: Weights, relation: Option<Relation>): real {
    if relation.Some? then w(RelationKey(relation.value)) else 0.0
  }

  /** The score before decay, given the authority label. */
  function BaseScore(w: Weights, verdict: Label, item: Scored, sources: seq<Validation>, relation: Option<Relation>): real {
    LabelWeight(w, verdict) + w(ClaimKey(item.labels.claim)) + w(StatusKey(item.status))
    + w(ConfidenceKey(item.confidence)) + SourceMean(w, sources) + RelationWeight(w, relation)
  }

  /** The score before rounding, given the authority label. */
  function RawScore(w: Weights, verdict: Label, item: Scored, sources: seq<Validation>, depth: nat, relation: Option<Relation>): real {
    Decayed(BaseScore(w, verdict, item, sources, relation), w(DecayKey), depth)
  }

  /** Round half away from zero. */
  function Round(x: real): int {
    if x >= 0.0 then (x + 0.5).Floor else -(-x + 0.5).Floor
  }

  function Rounded(x: real): real {
    (Round(x * 1000.0) as real) / 1000.0
  }

  function Score(w: Weights, item: Scored, ctx: Context, sources: seq<Validation>, depth: nat, relation: Option<Relation>): (real, Label) {
    var verdict := AuthorityLabel(item.labels, ctx);
    (Rounded(RawScore(w, verdict, item, sources, depth, relation)), verdict)
  }

  method SourceValidationScore(w: Weights, sources: seq<Validation>) returns (score: real)
    ensures score == SourceMean(w, sources)
  {
    if |sources| == 0 { return w(SourceKey(UnverifiedSource)); }
    var total := 0.0;
    for i := 0 to |sources|
      invariant total == SourceTotal(w, sources[..i])
    {
      assert sources[..i + 1][..i] == sources[..i];
      total := total + w(SourceKey(sources[i]));
    }
    assert sources[..|sources|] == sources;
    score := total / (|sources| as real);
  }

  /** The score accumulated term by term; the decay applies only below the roots. */
  method ScoreItem(w: Weights, item: Scored, ctx: Context, sources: seq<Validation>, depth: nat, relation: Option<Relation>)
    returns (score: real, verdict: Label)
    ensures (score, verdict) == Score(w, item, ctx, sources, depth, relation)
  {
    verdict := AuthorityLabel(item.labels, ctx);
    score := 0.0;
    match verdict {
      case Authoritative => score := w(AuthoritativeMatch);
      case DiscoveredEvidence => score := w(DiscoverableMatch) + w(CrossScopePenalty);
      case OutOfScope => score := w(ScopeMismatch);
    }
    score := score + w(ClaimKey(item.labels.claim));
    score := score + w(StatusKey(item.status));
    score := score + w(ConfidenceKey(item.confidence));
    var validation := SourceValidationScore(w, sources);
    score := score + validation;
    if relation.Some? {
      score := score + w(RelationKey(relation.value));
    }
    assert score == BaseScore(w, verdict, item, sources, relation);
    DecayedIsPower(score, w(DecayKey), depth);
    if depth > 0 {
      score := score * Pow(w(DecayKey), depth);
    }
    assert score == RawScore(w, verdict, item, sources, depth, relation);
    score := Rounded(score);
  }

  // ---- Rounding keeps the weak order.

  lemma RoundIsMonotone(x: real, y: real)
    requires x <= y
    ensures Round(x) <= Round(y)
  {
  }

  lemma RoundingKeepsOrder(x: real, y: real)
    requires x <= y
    ensures Rounded(x) <= Rounded(y)
  {
    RoundIsMonotone(x * 1000.0, y * 1000.0);
  }

  lemma RoundIsNearest(y: real)
    ensures y >= 0.0 ==> -0.5 < Round(y) as real - y <= 0.5
    ensures Round(-y) == -Round(y)
  {
  }

  /** Rounding is to the nearest thousandth, with halves away from zero. */
  lemma RoundingIsNearest(x: real)
    ensures x >= 0.0 ==> -0.0005 < Rounded(x) - x <= 0.0005
    ensures Rounded(-x) == -Rounded(x)
  {
    RoundIsNearest(x * 1000.0);
    assert -x * 1000.0 == -(x * 1000.0);
  }

  // ---- Topic nodes under the v0 weights.

  /** A topic node as recall scores it: active, source backed, without sources. */
  function NodeItem(l: Labels): Scored {
    Scored(l, Active, SourceBacked)
  }

  function NodeScore(l: Labels, verdict: Label, depth: nat, relation: Option<Relation>): real {
    RawScore(V0, verdict, NodeItem(l), [], depth, relation)
  }

  function NodeBase(l: Labels, verdict: Label, relation: Option<Relation>): real {
    BaseScore(V0, verdict, NodeItem(l), [], relation)
  }

  /** How far claim strength and relation can move a node before decay. */
  lemma NodeBaseBounds(l: Labels, verdict: Label, relation: Option<Relation>)
    ensures var floor := LabelWeight(V0, verdict) + V0Claim(l.claim) + 26.0;
      floor - 4.0 <= NodeBase(l, verdict, relation) <= floor + 16.0
    ensures 0.0 <= V0Claim(l.claim) <= 30.0
  {
    assert SourceMean(V0, []) == -4.0;
    assert -4.0 <= RelationWeight(V0, relation) <= 16.0;
  }

  /** No relation can make up for one step of decay. */
  lemma DecayOutweighsRelations(l: Labels, verdict: Label, r: Option<Relation>, q: Option<Relation>)
    requires verdict != OutOfScope
    ensures NodeBase(l, verdict, q) > 0.0 && 0.65 * NodeBase(l, verdict, q) < NodeBase(l, verdict, r)
  {
    NodeBaseBounds(l, verdict, r);
    NodeBaseBounds(l, verdict, q);
  }

  /** No relation and no claim strength can make up for authority. */
  lemma AuthorityOutweighsDiscovery(l: Labels, r: Option<Relation>, m: Labels, q: Option<Relation>)
    ensures NodeBase(m, DiscoveredEvidence, q) < NodeBase(l, Authoritative, r)
  {
    NodeBaseBounds(l, Authoritative, r);
    NodeBaseBounds(m, DiscoveredEvidence, q);
  }

  lemma {:induction false} DecayedOrder(a: real, b: real, depth: nat)
    requires a < b
    ensures Decayed(a, 0.65, depth) < Decayed(b, 0.65, depth)
  {
    if depth > 0 {
      DecayedOrder(a, b, depth - 1);
    }
  }

  lemma {:induction false} DecayedBounds(a: real, depth: nat)
    requires a > 0.0
    ensures 0.0 < Decayed(a, 0.65, depth) <= a
  {
    if depth > 0 {
      DecayedBounds(a, depth - 1);
    }
  }

  lemma {:induction false} DecayedFalls(far: real, near: real, d: nat, e: nat)
    requires far > 0.0 && 0.65 * far < near && d < e
    ensures Decayed(far, 0.65, e) < Decayed(near, 0.65, d)
  {
    if d == 0 {
      DecayedBounds(far, e - 1);
    } else {
      DecayedFalls(far, near, d - 1, e - 1);
    }
  }

  /** Every in-scope topic node scores above zero, at any depth and over any relation. */
  lemma NodeScoresArePositive(l: Labels, verdict: Label, depth: nat, relation: Option<Relation>)
    requires verdict != OutOfScope
    ensures NodeScore(l, verdict, depth, relation) > 0.0
  {
    DecayOutweighsRelations(l, verdict, relation, relation);
    DecayedBounds(NodeBase(l, verdict, relation), depth);
  }

  /** The deeper a node is found the lower it scores, whatever relations lead to it. */
  lemma NodeScoresDecay(l: Labels, verdict: Label, d: nat, r: Option<Relation>, e: nat, q: Option<Relation>)
    requires verdict != OutOfScope && d < e
    ensures NodeScore(l, verdict, e, q) < NodeScore(l, verdict, d, r)
  {
    DecayOutweighsRelations(l, verdict, r, q);
    DecayedFalls(NodeBase(l, verdict, q), NodeBase(l, verdict, r), d, e);
  }

  /** At equal depth an authoritative topic node outscores every discovered one. */
  lemma AuthorityOutscoresDiscovery(l: Labels, r: Option<Relation>, m: Labels, q: Option<Relation>, depth: nat)
    ensures NodeScore(m, DiscoveredEvidence, depth, q) < NodeScore(l, Authoritative, depth, r)
    ensures Rounded(NodeScore(m, DiscoveredEvidence, depth, q)) <= Rounded(NodeScore(l, Authoritative, depth, r))
  {
    AuthorityOutweighsDiscovery(l, r, m, q);
    DecayedOrder(NodeBase(m, DiscoveredEvidence, q), NodeBase(l, Authoritative, r), depth);
    RoundingKeepsOrder(NodeScore(m, DiscoveredEvidence, depth, q), NodeScore(l, Authoritative, depth, r));
  }

  // ---- What single columns are worth under the v0 weights.

  const RANKED_RELATIONS: seq<Relation> := [
    Prerequisite, ReviewRisk, OperationalRunbook, FailureMode, ImplementationDetail, ContradictedBy, EvidenceFor,
    ContextualAssessment, OwnedByProject, SourceTrace, Example, RelatedConcept, HistoricalContext]

  const RANKED_CLAIMS: seq<ClaimStrength> := [Policy, Recommendation, Assessment, Observation]

  const RANKED_STATUSES: seq<EntryStatus> := [Active, Draft, Disputed, Deprecated, Archived]

  const RANKED_CONFIDENCES: seq<Confidence> := [Verified, SourceBacked, Inferred, Unverified]

  lemma RelationsFall(i: nat, j: nat)
    requires i < j < |RANKED_RELATIONS|
    ensures V0Relation(RANKED_RELATIONS[j]) < V0Relation(RANKED_RELATIONS[i])
  {
    assert forall k :: 0 <= k < 12 ==> V0Relation(RANKED_RELATIONS[k + 1]) < V0Relation(RANKED_RELATIONS[k]);
    if j > i + 1 {
      RelationsFall(i, j - 1);
    }
  }

  /** Everything else equal, the relation a node was reached over decides, in this order. */
  lemma RelationsRank(verdict: Label, item: Scored, sources: seq<Validation>, depth: nat, i: nat, j: nat)
    requires i < j < |RANKED_RELATIONS|
    ensures RawScore(V0, verdict, item, sources, depth, Some(RANKED_RELATIONS[j]))
      < RawScore(V0, verdict, item, sources, depth, Some(RANKED_RELATIONS[i]))
  {
    RelationsFall(i, j);
    DecayedOrder(BaseScore(V0, verdict, item, sources, Some(RANKED_RELATIONS[j])),
                 BaseScore(V0, verdict, item, sources, Some(RANKED_RELATIONS[i])), depth);
  }

  lemma ClaimsFall(i: nat, j: nat)
    requires i < j < |RANKED_CLAIMS|
    ensures V0Claim(RANKED_CLAIMS[j]) < V0Claim(RANKED_CLAIMS[i])
  {
    assert (i == 0 || i == 1 || i == 2) && (j == 1 || j == 2 || j == 3);
  }

  lemma StatusesFall(i: nat, j: nat)
    requires i < j < |RANKED_STATUSES|
    ensures V0Status(RANKED_STATUSES[j]) < V0Status(RANKED_STATUSES[i])
  {
    assert (i == 0 || i == 1 || i == 2 || i == 3) && (j == 1 || j == 2 || j == 3 || j == 4);
  }

  lemma ConfidencesFall(i: nat, j: nat)
    requires i < j < |RANKED_CONFIDENCES|
    ensures V0Confidence(RANKED_CONFIDENCES[j]) < V0Confidence(RANKED_CONFIDENCES[i])
  {
    assert (i == 0 || i == 1 || i == 2) && (j == 1 || j == 2 || j == 3);
  }

  /** Everything else equal, claim strength, status and confidence decide, each in its order. */
  lemma ColumnsRank(verdict: Label, item: Scored, sources: seq<Validation>, depth: nat, relation: Option<Relation>, i: nat, j: nat)
    requires i < j
    ensures j < |RANKED_CLAIMS| ==>
      RawScore(V0, verdict, item.(labels := item.labels.(claim := RANKED_CLAIMS[j])), sources, depth, relation)
      < RawScore(V0, verdict, item.(labels := item.labels.(claim := RANKED_CLAIMS[i])), sources, depth, relation)
    ensures j < |RANKED_STATUSES| ==>
      RawScore(V0, verdict, item.(status := RANKED_STATUSES[j]), sources, depth, relation)
      < RawScore(V0, verdict, item.(status := RANKED_STATUSES[i]), sources, depth, relation)
    ensures j < |RANKED_CONFIDENCES| ==>
      RawScore(V0, verdict, item.(confidence := RANKED_CONFIDENCES[j]), sources, depth, relation)
      < RawScore(V0, verdict, item.(confidence := RANKED_CONFIDENCES[i]), sources, depth, relation)
  {
    if j < |RANKED_CLAIMS| {
      ClaimsFall(i, j);
      DecayedOrder(BaseScore(V0, verdict, item.(labels := item.labels.(claim := RANKED_CLAIMS[j])), sources, relation),
                   BaseScore(V0, verdict, item.(labels := item.labels.(claim := RANKED_CLAIMS[i])), sources, relation), depth);
    }
    if j < |RANKED_STATUSES| {
      StatusesFall(i, j);
      DecayedOrder(BaseScore(V0, verdict, item.(status := RANKED_STATUSES[j]), sources, relation),
                   BaseScore(V0, verdict, item.(status := RANKED_STATUSES[i]), sources, relation), depth);
    }
    if j < |RANKED_CONFIDENCES| {
      ConfidencesFall(i, j);
      DecayedOrder(BaseScore(V0, verdict, item.(confidence := RANKED_CONFIDENCES[j]), sources, relation),
                   BaseScore(V0, verdict, item.(confidence := RANKED_CONFIDENCES[i]), sources, relation), depth);
    }
  }

  predicate AllAre(sources: seq<Validation>, v: Validation) {
    forall i :: 0 <= i < |sources| ==> sources[i] == v
  }

  /** No list of sources weighs more than as many verified ones, or less than as many broken ones. */
  lemma {:induction false} SourceTotalBounds(sources: seq<Validation>)
    ensures var n := |sources| as real;
      && (if AllAre(sources, VerifiedSource) then SourceTotal(V0, sources) == 12.0 * n else SourceTotal(V0, sources) < 12.0 * n)
      && (if AllAre(sources, BrokenSource) then SourceTotal(V0, sources) == -45.0 * n else SourceTotal(V0, sources) > -45.0 * n)
    decreases |sources|
  {
    if sources != [] {
      var (front, last) := (sources[..|sources| - 1], sources[|sources| - 1]);
      SourceTotalBounds(front);
      assert AllAre(sources, VerifiedSource) <==> AllAre(front, VerifiedSource) && last == VerifiedSource;
      assert AllAre(sources, BrokenSource) <==> AllAre(front, BrokenSource) && last == BrokenSource;
    }
  }

  lemma QuotientAbove(a: real, d: real, m: real)
    requires d > 0.0
    ensures a > m * d ==> a / d > m
    ensures a < m * d ==> a / d < m
  {
    assert (a / d) * d == a;
  }

  /** A member above the mean raises it, and one below lowers it. */
  lemma MeanMoves(total: real, n: real, x: real)
    requires n >= 1.0
    ensures total < x * n ==> (total + x) / (n + 1.0) > total / n
    ensures total > x * n ==> (total + x) / (n + 1.0) < total / n
  {
    var m := total / n;
    assert m * n == total && m * (n + 1.0) == total + m;
    QuotientAbove(total, n, x);
    QuotientAbove(total + x, n + 1.0, m);
  }

  /** A verified source raises the mean unless all are verified, and a broken one lowers it unless all
      are broken; without sources the entry stands as with an unverified one. */
  lemma SourcesMove(sources: seq<Validation>)
    ensures !AllAre(sources, VerifiedSource) || sources == [] ==> SourceMean(V0, sources) < SourceMean(V0, sources + [VerifiedSource])
    ensures !AllAre(sources, BrokenSource) || sources == [] ==> SourceMean(V0, sources + [BrokenSource]) < SourceMean(V0, sources)
    ensures SourceMean(V0, []) == SourceMean(V0, [UnverifiedSource])
  {
    var n := |sources| as real;
    assert (sources + [VerifiedSource])[..|sources|] == sources && (sources + [BrokenSource])[..|sources|] == sources;
    SourceTotalBounds(sources);
    if sources != [] {
      MeanMoves(SourceTotal(V0, sources), n, 12.0);
      MeanMoves(SourceTotal(V0, sources), n, -45.0);
    }
    assert [UnverifiedSource][..0] == [];
  }

  /** Everything else equal, a verified source raises the score of an entry and a broken one lowers it. */
  lemma SourcesCount(verdict: Label, item: Scored, sources: seq<Validation>, depth: nat, relation: Option<Relation>)
    ensures !AllAre(sources, VerifiedSource) || sources == [] ==>
      RawScore(V0, verdict, item, sources, depth, relation) < RawScore(V0, verdict, item, sources + [VerifiedSource], depth, relation)
    ensures !AllAre(sources, BrokenSource) || sources == [] ==>
      RawScore(V0, verdict, item, sources + [BrokenSource], depth, relation) < RawScore(V0, verdict, item, sources, depth, relation)
  {
    SourcesMove(sources);
    var base := BaseScore(V0, verdict, item, sources, relation);
    if !AllAre(sources, VerifiedSource) || sources == [] {
      DecayedOrder(base, BaseScore(V0, verdict, item, sources + [VerifiedSource], relation), depth);
    }
    if !AllAre(sources, BrokenSource) || sources == [] {
      DecayedOrder(BaseScore(V0, verdict, item, sources + [BrokenSource], relation), base, depth);
    }
  }

  // ---- Scoring files.

  /** A value of a scoring file's sections; only numbers become weights. */
  datatype Value = Number(value: real) | NotANumber

  /** A decoded scoring file: its object-valued keys are the sections. */
  datatype ScoringFile = ScoringFile(profile: string, sections: map<string, map<string, Value>>, readbackRequired: bool)

  /** Weights by flattened name. */
  type WeightTable = map<string, real>

  predicate IsWeight(file: ScoringFile, section: string, key: string) {
    section in file.sections && key in file.sections[section] && file.sections[section][key].Number?
  }

  function NumberAt(file: ScoringFile, section: string, key: string): real {
    if IsWeight(file, section, key) then file.sections[section][key].value else 0.0
  }

  function Flatten(section: string, key: string): string {
    section + "." + key
  }

  /** The first check a scoring file fails, if any. */
  function ValidateScoring(file: ScoringFile): Option<string> {
    if file.profile != "v0-default" then Some("scoring profile")
    else if NumberAt(file, "root_match", "authoritative_scope_match") <= NumberAt(file, "root_match", "discoverable_scope_match") then
      Some("authoritative score must exceed discoverable score")
    else if NumberAt(file, "penalties", "cross_scope_discovered_evidence") >= 0.0 then
      Some("cross_scope_discovered_evidence must be negative")
    else if NumberAt(file, "claim_strength_modifier", "policy") <= NumberAt(file, "claim_strength_modifier", "observation") then
      Some("policy claim strength must exceed observation")
    else if !file.readbackRequired then Some("readback_required must be true")
    else None
  }

  /** The name `name` holds the number of some section and key it flattens. */
  ghost predicate Explains(file: ScoringFile, section: string, key: string, name: string, value: real) {
    IsWeight(file, section, key) && name == Flatten(section, key) && value == NumberAt(file, section, key)
  }

  /** Every number of the file has its name in the table, and every name holds the number of a
      section and key it flattens. Two of them may share a name when keys contain dots; then
      either number may win. */
  ghost predicate Loads(file: ScoringFile, table: WeightTable) {
    && (forall s, k :: IsWeight(file, s, k) ==> Flatten(s, k) in table)
    && (forall name :: name in table ==> exists s, k :: Explains(file, s, k, name, table[name]))
  }

  /** Fill the table section by section, key by key. */
  method LoadScoring(file: ScoringFile) returns (table: WeightTable)
    ensures Loads(file, table)
  {
    table := map[];
    var sections := file.sections.Keys;
    while sections != {}
      invariant sections <= file.sections.Keys
      invariant forall s, k :: IsWeight(file, s, k) && s !in sections ==> Flatten(s, k) in table
      invariant forall name :: name in table ==> exists s, k :: Explains(file, s, k, name, table[name])
      decreases |sections|
    {
      HasText(sections);
      var section :| section in sections;
      var keys := file.sections[section].Keys;
      while keys != {}
        invariant keys <= file.sections[section].Keys
        invariant forall s, k :: IsWeight(file, s, k) && (s !in sections || (s == section && k !in keys)) ==> Flatten(s, k) in table
        invariant forall name :: name in table ==> exists s, k :: Explains(file, s, k, name, table[name])
        decreases |keys|
      {
        HasText(keys);
        var key :| key in keys;
        if file.sections[section][key].Number? {
          table := table[Flatten(section, key) := file.sections[section][key].value];
          assert Explains(file, section, key, Flatten(section, key), table[Flatten(section, key)]);
        }
        keys := keys - {key};
      }
      sections := sections - {section};
    }
  }

  function ClaimName(c: ClaimStrength): string {
    match c
    case Observation => "observation"
    case Assessment => "assessment"
    case Recommendation => "recommendation"
    case Policy => "policy"
    case OtherClaim(text) => text
  }

  function StatusName(s: EntryStatus): string {
    match s
    case Active => "active"
    case Draft => "draft"
    case Disputed => "disputed"
    case SupersededEntry => "superseded"
    case Deprecated => "deprecated"
    case Archived => "archived"
    case OtherEntryStatus(text) => text
  }

  function ConfidenceName(c: Confidence): string {
    match c
    case Unverified => "unverified"
    case Inferred => "inferred"
    case SourceBacked => "source_backed"
    case Verified => "verified"
    case NeedsHumanEye => "needs_human"
    case OtherConfidence(text) => text
  }

  function ValidationName(v: Validation): string {
    match v
    case UnverifiedSource => "unverified"
    case VerifiedSource => "verified"
    case BrokenSource => "broken"
    case StaleSource => "stale"
    case OtherValidation(text) => text
  }

  function RelationName(r: Relation): string {
    match r
    case Prerequisite => "prerequisite"
    case ImplementationDetail => "implementation_detail"
    case OperationalRunbook => "operational_runbook"
    case FailureMode => "failure_mode"
    case Warning => "warning"
    case EvidenceFor => "evidence_for"
    case ContradictedBy => "contradicted_by"
    case Supersedes => "supersedes"
    case HistoricalContext => "historical_context"
    case RelatedConcept => "related_concept"
    case Example => "example"
    case ReviewRisk => "review_risk"
    case SourceTrace => "source_trace"
    case OwnedByProject => "owned_by_project"
    case ContextualAssessment => "contextual_assessment"
    case OtherRelation(text) => text
  }

  /** The section and the key in it that scoring looks a weight up by. */
  function Section(k: Key): string {
    match k
    case AuthoritativeMatch => "root_match"
    case DiscoverableMatch => "root_match"
    case CrossScopePenalty => "penalties"
    case ScopeMismatch => "penalties"
    case ClaimKey(_) => "claim_strength_modifier"
    case StatusKey(_) => "entry_status_modifier"
    case ConfidenceKey(_) => "confidence_modifier"
    case SourceKey(_) => "source_validation_modifier"
    case RelationKey(_) => "edge_relation_modifier"
    case DecayKey => "traversal"
  }

  function Leaf(k: Key): string {
    match k
    case AuthoritativeMatch => "authoritative_scope_match"
    case DiscoverableMatch => "discoverable_scope_match"
    case CrossScopePenalty => "cross_scope_discovered_evidence"
    case ScopeMismatch => "authority_scope_mismatch"
    case ClaimKey(c) => ClaimName(c)
    case StatusKey(s) => StatusName(s)
    case ConfidenceKey(c) => ConfidenceName(c)
    case SourceKey(v) => ValidationName(v)
    case RelationKey(r) => RelationName(r)
    case DecayKey => "edge_traversal_decay"
  }

  function Name(k: Key): string {
    Flatten(Section(k), Leaf(k))
  }

  /** A missing weight counts as 0. */
  function WeightsOf(table: WeightTable): Weights {
    (k: Key) => if Name(k) in table then table[Name(k)] else 0.0
  }

  /** Flattening loses nothing when neither part has a dot. */
  lemma FlattenIsInjective(s: string, k: string, section: string, key: string)
    requires '.' !in section && '.' !in key
    requires Flatten(s, k) == Flatten(section, key)
    ensures s == section && k == key
  {
    var name := Flatten(section, key);
    assert forall i :: 0 <= i < |section| ==> name[i] == section[i];
    assert forall i :: |section| < i < |name| ==> name[i] == key[i - |section| - 1];
    assert name[|s|] == '.';
    assert s == name[..|s|] && k == name[|s| + 1..];
  }

  /** Under a dotless section and key the table holds exactly what the validator reads. */
  lemma TableAgreesWithValidator(file: ScoringFile, table: WeightTable, section: string, key: string)
    requires Loads(file, table) && '.' !in section && '.' !in key
    ensures (if Flatten(section, key) in table then table[Flatten(section, key)] else 0.0) == NumberAt(file, section, key)
  {
    var name := Flatten(section, key);
    if name in table {
      var s, k :| Explains(file, s, k, name, table[name]);
      FlattenIsInjective(s, k, section, key);
    }
  }

  lemma AuthorityAtTheRoot(w: Weights, item: Scored, sources: seq<Validation>, relation: Option<Relation>)
    requires w(DiscoverableMatch) + w(CrossScopePenalty) < w(AuthoritativeMatch)
    ensures RawScore(w, DiscoveredEvidence, item, sources, 0, relation) < RawScore(w, Authoritative, item, sources, 0, relation)
  {
    assert BaseScore(w, DiscoveredEvidence, item, sources, relation) < BaseScore(w, Authoritative, item, sources, relation);
  }

  lemma AuthoritativeWeight(file: ScoringFile, table: WeightTable)
    requires Loads(file, table)
    ensures WeightsOf(table)(AuthoritativeMatch) == NumberAt(file, "root_match", "authoritative_scope_match")
  {
    TableAgreesWithValidator(file, table, "root_match", "authoritative_scope_match");
  }

  lemma DiscoverableWeight(file: ScoringFile, table: WeightTable)
    requires Loads(file, table)
    ensures WeightsOf(table)(DiscoverableMatch) == NumberAt(file, "root_match", "discoverable_scope_match")
  {
    TableAgreesWithValidator(file, table, "root_match", "discoverable_scope_match");
  }

  lemma PenaltyWeight(file: ScoringFile, table: WeightTable)
    requires Loads(file, table)
    ensures WeightsOf(table)(CrossScopePenalty) == NumberAt(file, "penalties", "cross_scope_discovered_evidence")
  {
    TableAgreesWithValidator(file, table, "penalties", "cross_scope_discovered_evidence");
  }

  lemma AcceptedWeights(file: ScoringFile)
    requires ValidateScoring(file).None?
    ensures NumberAt(file, "root_match", "discoverable_scope_match") + NumberAt(file, "penalties", "cross_scope_discovered_evidence")
      < NumberAt(file, "root_match", "authoritative_scope_match")
  {
  }

  /** Whatever scoring file the validator accepts, at depth 0 an item scores strictly higher as
      authoritative than as discovered, and no lower after rounding. */
  lemma AcceptedFilesPreferAuthority(file: ScoringFile, table: WeightTable, item: Scored,
                                     sources: seq<Validation>, relation: Option<Relation>)
    requires ValidateScoring(file).None? && Loads(file, table)
    ensures var w := WeightsOf(table);
      && RawScore(w, DiscoveredEvidence, item, sources, 0, relation) < RawScore(w, Authoritative, item, sources, 0, relation)
      && Rounded(RawScore(w, DiscoveredEvidence, item, sources, 0, relation))
         <= Rounded(RawScore(w, Authoritative, item, sources, 0, relation))
  {
    var w := WeightsOf(table);
    AuthoritativeWeight(file, table);
    DiscoverableWeight(file, table);
    PenaltyWeight(file, table);
    AcceptedWeights(file);
    AuthorityAtTheRoot(w, item, sources, relation);
    RoundingKeepsOrder(RawScore(w, DiscoveredEvidence, item, sources, 0, relation),
                       RawScore(w, Authoritative, item, sources, 0, relation));
  }

  // ---- A loaded v0 file scores like the v0 weights.

  /** The key belongs to the closed vocabularies. */
  predicate Closed(k: Key) {
    match k
    case ClaimKey(c) => !c.OtherClaim?
    case StatusKey(s) => !s.OtherEntryStatus?
    case ConfidenceKey(c) => !c.OtherConfidence?
    case SourceKey(v) => !v.OtherValidation?
    case RelationKey(r) => !r.OtherRelation?
    case _ => true
  }

  /** The file holds the v0 numbers under their sections and keys. */
  ghost predicate HoldsV0(file: ScoringFile) {
    forall k :: Closed(k) ==> NumberAt(file, Section(k), Leaf(k)) == V0(k)
  }

  lemma SectionsHaveNoDot(k: Key)
    ensures '.' !in Section(k)
  {
  }

  predicate Instructs(r: Relation) {
    r.Prerequisite? || r.ImplementationDetail? || r.OperationalRunbook? || r.FailureMode? || r.Warning? || r.EvidenceFor?
    || r.ContradictedBy?
  }

  lemma ExplanationsHaveNoDot(r: Relation)
    requires Instructs(r)
    ensures '.' !in RelationName(r)
  {
  }

  lemma ConnectionsHaveNoDot(r: Relation)
    requires !r.OtherRelation? && !Instructs(r)
    ensures '.' !in RelationName(r)
  {
  }

  lemma RelationsHaveNoDot(r: Relation)
    requires !r.OtherRelation?
    ensures '.' !in RelationName(r)
  {
    if Instructs(r) {
      ExplanationsHaveNoDot(r);
    } else {
      ConnectionsHaveNoDot(r);
    }
  }

  lemma StatusesHaveNoDot(status: EntryStatus)
    requires !status.OtherEntryStatus?
    ensures '.' !in StatusName(status)
  {
  }

  lemma ConfidencesHaveNoDot(c: Confidence)
    requires !c.OtherConfidence?
    ensures '.' !in ConfidenceName(c)
  {
  }

  lemma ClaimsAndValidationsHaveNoDot(c: ClaimStrength, v: Validation)
    ensures !c.OtherClaim? ==> '.' !in ClaimName(c)
    ensures !v.OtherValidation? ==> '.' !in ValidationName(v)
  {
  }

  lemma LeavesHaveNoDot(k: Key)
    requires Closed(k)
    ensures '.' !in Leaf(k)
  {
    match k {
      case ClaimKey(c) => ClaimsAndValidationsHaveNoDot(c, UnverifiedSource);
      case StatusKey(s) => StatusesHaveNoDot(s);
      case ConfidenceKey(c) => ConfidencesHaveNoDot(c);
      case SourceKey(v) => ClaimsAndValidationsHaveNoDot(Observation, v);
      case RelationKey(r) => RelationsHaveNoDot(r);
      case _ =>
    }
  }

  /** Loading a file that holds the v0 numbers gives the v0 weights on every closed key. */
  lemma LoadedV0(file: ScoringFile, table: WeightTable, k: Key)
    requires Loads(file, table) && HoldsV0(file) && Closed(k)
    ensures WeightsOf(table)(k) == V0(k)
  {
    SectionsHaveNoDot(k);
    LeavesHaveNoDot(k);
    TableAgreesWithValidator(file, table, Section(k), Leaf(k));
  }

  lemma SameBase(w: Weights, l: Labels, verdict: Label, relation: Option<Relation>)
    requires w(AuthoritativeMatch) == V0(AuthoritativeMatch) && w(DiscoverableMatch) == V0(DiscoverableMatch)
    requires w(CrossScopePenalty) == V0(CrossScopePenalty) && w(ScopeMismatch) == V0(ScopeMismatch)
    requires w(ClaimKey(l.claim)) == V0(ClaimKey(l.claim)) && w(StatusKey(Active)) == V0(StatusKey(Active))
    requires w(ConfidenceKey(SourceBacked)) == V0(ConfidenceKey(SourceBacked))
    requires w(SourceKey(UnverifiedSource)) == V0(SourceKey(UnverifiedSource))
    requires relation.Some? ==> w(RelationKey(relation.value)) == V0(RelationKey(relation.value))
    ensures BaseScore(w, verdict, NodeItem(l), [], relation) == NodeBase(l, verdict, relation)
  {
  }

  /** Topic nodes score under a loaded v0 file as the node lemmas say. */
  lemma LoadedNodeScore(file: ScoringFile, table: WeightTable, l: Labels, verdict: Label, depth: nat, relation: Option<Relation>)
    requires Loads(file, table) && HoldsV0(file)
    requires !l.claim.OtherClaim? && (relation.Some? ==> !relation.value.OtherRelation?)
    ensures RawScore(WeightsOf(table), verdict, NodeItem(l), [], depth, relation) == NodeScore(l, verdict, depth, relation)
  {
    var w := WeightsOf(table);
    LoadedV0(file, table, AuthoritativeMatch);
    LoadedV0(file, table, DiscoverableMatch);
    LoadedV0(file, table, CrossScopePenalty);
    LoadedV0(file, table, ScopeMismatch);
    LoadedV0(file, table, ClaimKey(l.claim));
    LoadedV0(file, table, StatusKey(Active));
    LoadedV0(file, table, ConfidenceKey(SourceBacked));
    LoadedV0(file, table, SourceKey(UnverifiedSource));
    LoadedV0(file, table, DecayKey);
    if relation.Some? {
      LoadedV0(file, table, RelationKey(relation.value));
    }
    SameBase(w, l, verdict, relation);
  }
}
