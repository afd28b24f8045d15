/** The action catalog and the deterministic policy that turns an untrusted candidate into
    an enforced triage result (application/action_catalog.py, application/policy.py). */
module Policy {
  import opened Base
  import opened Timestamps
  import opened Entities
  import opened Actions
  import opened Triage

  // ---- The catalog -----------------------------------------------------------------------------

  datatype ActionRisk = HighImpact

  datatype ExecutionSupport = SimulatedOnly

  datatype ActionDefinition = ActionDefinition(
    actionId: Id, version: string, targetTypes: set<EntityType>, risk: ActionRisk,
    approvalRequired: bool, support: ExecutionSupport, accepts: Frozen -> bool)

  type Catalog = map<Id, ActionDefinition>

  /** The checks `ActionCatalog.__init__` makes on one definition. */
  predicate WellDefined(d: ActionDefinition)
  {
    d.actionId != "" && d.version != "" && d.targetTypes != {} && (d.risk.HighImpact? ==> d.approvalRequired)
  }

  ghost predicate ValidDefinitions(ds: seq<ActionDefinition>)
  {
    && (forall i | 0 <= i < |ds| ::
          && |ds[i].actionId| > 0 && |ds[i].version| > 0 && (exists t :: t in ds[i].targetTypes)
          && (ds[i].approvalRequired || !ds[i].risk.HighImpact?))
    && forall i, j | 0 <= i < j < |ds| :: ds[i].actionId != ds[j].actionId
  }

  /** The mapping a valid list of definitions stands for. */
  ghost predicate Indexes(c: Catalog, ds: seq<ActionDefinition>)
  {
    && (forall i | 0 <= i < |ds| :: ds[i].actionId in c && c[ds[i].actionId] == ds[i])
    && forall k | k in c :: exists i :: 0 <= i < |ds| && ds[i].actionId == k
  }

  /** Assemble the catalog, or raise ActionCatalogError (None). */
  method BuildCatalog(definitions: seq<ActionDefinition>) returns (r: Option<Catalog>)
    ensures r.Some? <==> ValidDefinitions(definitions)
    ensures r.Some? ==> Indexes(r.value, definitions)
  {
    var entries: Catalog := map[];
    for n := 0 to |definitions|
      invariant ValidDefinitions(definitions[..n]) && Indexes(entries, definitions[..n])
    {
      var d := definitions[n];
      var done, more := definitions[..n], definitions[..n + 1];
      assert more == done + [d];
      if !WellDefined(d) {
        return None;
      }
      if d.actionId in entries {
        assert exists i :: 0 <= i < n && done[i].actionId == d.actionId;
        return None;
      }
      IndexesExtend(entries, done, d);
      entries := entries[d.actionId := d];
    }
    assert definitions[..|definitions|] == definitions;
    r := Some(entries);
  }

  lemma IndexesExtend(c: Catalog, ds: seq<ActionDefinition>, d: ActionDefinition)
    requires ValidDefinitions(ds) && Indexes(c, ds) && WellDefined(d) && d.actionId !in c
    ensures ValidDefinitions(ds + [d]) && Indexes(c[d.actionId := d], ds + [d])
  {
    forall i | 0 <= i < |ds| ensures ds[i].actionId != d.actionId {
      assert ds[i].actionId in c;
    }
    DefinitionsExtend(ds, d);
    IndexExtends(c, ds, d);
  }

  lemma DefinitionsExtend(ds: seq<ActionDefinition>, d: ActionDefinition)
    requires ValidDefinitions(ds) && WellDefined(d) && forall i | 0 <= i < |ds| :: ds[i].actionId != d.actionId
    ensures ValidDefinitions(ds + [d])
  {
  }

  lemma IndexExtends(c: Catalog, ds: seq<ActionDefinition>, d: ActionDefinition)
    requires Indexes(c, ds) && forall i | 0 <= i < |ds| :: ds[i].actionId != d.actionId
    ensures Indexes(c[d.actionId := d], ds + [d])
  {
    var more, c' := ds + [d], c[d.actionId := d];
    forall k | k in c' ensures exists i :: 0 <= i < |more| && more[i].actionId == k {
      if k == d.actionId {
        assert more[|ds|].actionId == k;
      } else {
        var i :| 0 <= i < |ds| && ds[i].actionId == k;
        assert more[i].actionId == k;
      }
    }
  }

  ghost predicate ValidCatalog(c: Catalog)
  {
    exists ds: seq<ActionDefinition> :: ValidDefinitions(ds) && Indexes(c, ds)
  }

  /** No definition a catalog accepts can be executed without a human decision. */
  lemma CatalogAlwaysRequiresApproval(c: Catalog, id: Id)
    requires ValidCatalog(c) && id in c
    ensures c[id].approvalRequired && c[id].actionId == id
  {
    var ds: seq<ActionDefinition> :| ValidDefinitions(ds) && Indexes(c, ds);
    var i :| 0 <= i < |ds| && ds[i].actionId == id;
    assert WellDefined(ds[i]) && c[ds[i].actionId] == ds[i];
  }

  // ---- Candidates and decisions -----------------------------------------------------------------

  const POLICY_VERSION := "1.0.0"

  datatype CandidateAssessment = CandidateAssessment(
    disposition: Disposition, severity: Severity, confidence: real,
    evidence: seq<EvidenceReference>, reasoningSummary: string,
    recommendedActions: seq<ActionRecommendation>,
    escalationRequired: bool, escalationReason: Option<string>,
    toolCalls: seq<ToolCallReference>)

  datatype PolicyReason =
    | Accepted | CandidateInvalid | InsufficientEvidence | UnknownAction
    | InvalidActionParameters | UnsupportedTargetType | ActionTargetOutOfScope
    | CandidateEscalation

  function ReasonName(r: PolicyReason): string
  {
    match r
    case Accepted => "ACCEPTED"
    case CandidateInvalid => "CANDIDATE_INVALID"
    case InsufficientEvidence => "INSUFFICIENT_EVIDENCE"
    case UnknownAction => "UNKNOWN_ACTION"
    case InvalidActionParameters => "INVALID_ACTION_PARAMETERS"
    case UnsupportedTargetType => "UNSUPPORTED_TARGET_TYPE"
    case ActionTargetOutOfScope => "ACTION_TARGET_OUT_OF_SCOPE"
    case CandidateEscalation => "CANDIDATE_ESCALATION"
  }

  /** All reasons, in the order of their names. */
  const BY_NAME := [Accepted, ActionTargetOutOfScope, CandidateEscalation, CandidateInvalid,
    InsufficientEvidence, InvalidActionParameters, UnknownAction, UnsupportedTargetType]

  datatype RejectedAction = RejectedAction(catalogActionId: Id, reason: PolicyReason)

  datatype PolicyDecision = PolicyDecision(
    policyVersion: string, result: TriageResult, reasonCodes: seq<PolicyReason>,
    acceptedActionIds: seq<Id>, rejectedActions: seq<RejectedAction>)

  /** The reasons that force a human review. */
  predicate ForcesReview(r: PolicyReason)
  {
    r.InsufficientEvidence? || r.UnknownAction? || r.InvalidActionParameters?
    || r.UnsupportedTargetType? || r.ActionTargetOutOfScope?
  }

  /** The first check a recommendation fails, if any. */
  function Screen(c: Catalog, scope: set<string>, a: ActionRecommendation): Option<PolicyReason>
  {
    var m := a.material;
    if m.catalogActionId !in c then Some(UnknownAction)
    else if m.target.entityType !in c[m.catalogActionId].targetTypes then Some(UnsupportedTargetType)
    else if ScopeKey(m.target) !in scope then Some(ActionTargetOutOfScope)
    else if !c[m.catalogActionId].accepts(m.parameters) then Some(InvalidActionParameters)
    else None
  }

  datatype Screening = Screening(
    accepted: seq<ActionProposal>, approvals: seq<ActionReference>,
    rejected: seq<RejectedAction>, reasons: seq<PolicyReason>)

  /** One turn of the policy's loop; `newId(k)` is the k-th identifier the factory issues. */
  function ScreenOne(
    sha: Hash, c: Catalog, scope: set<string>, newId: nat -> Id, s: Screening, a: ActionRecommendation): Screening
  {
    var reason := Screen(c, scope, a);
    if reason.Some? then
      s.(rejected := s.rejected + [RejectedAction(a.material.catalogActionId, reason.value)],
         reasons := s.reasons + [reason.value])
    else
      var canonical := Canonicalize(a, newId(|s.accepted|));
      s.(accepted := s.accepted + [canonical],
         approvals := if c[a.material.catalogActionId].approvalRequired
                      then s.approvals + [Reference(sha, canonical)] else s.approvals)
  }

  function ScreenAll(
    sha: Hash, c: Catalog, scope: set<string>, newId: nat -> Id,
    initial: seq<PolicyReason>, actions: seq<ActionRecommendation>): Screening
  {
    if actions == [] then Screening([], [], [], initial)
    else
      ScreenOne(sha, c, scope, newId,
        ScreenAll(sha, c, scope, newId, initial, actions[..|actions| - 1]), actions[|actions| - 1])
  }

  /** `tuple(dict.fromkeys(reasons))`: the first occurrences, in order. */
  function FirstOccurrences(rs: seq<PolicyReason>): seq<PolicyReason>
  {
    if rs == [] then []
    else
      var init := FirstOccurrences(rs[..|rs| - 1]);
      if rs[|rs| - 1] in rs[..|rs| - 1] then init else init + [rs[|rs| - 1]]
  }

  function NamesOf(rs: seq<PolicyReason>, name: PolicyReason -> string): (names: seq<string>)
    ensures |names| == |rs| && forall i | 0 <= i < |names| :: names[i] == name(rs[i])
  {
    seq(|rs|, i requires 0 <= i < |rs| => name(rs[i]))
  }

  /** `", ".join(names)`. */
  function JoinNames(names: seq<string>): string
  {
    if names == [] then "" else if |names| == 1 then names[0] else names[0] + ", " + JoinNames(names[1..])
  }

  /** The listed reasons that occur, keeping the order of the list. */
  function Occurring(list: seq<PolicyReason>, rs: seq<PolicyReason>): seq<PolicyReason>
  {
    if list == [] then []
    else (if list[0] in rs && !list[0].Accepted? then [list[0]] else []) + Occurring(list[1..], rs)
  }

  function SafeReview(alertId: Id, timestamp: Instant): PolicyDecision
  {
    PolicyDecision(
      POLICY_VERSION,
      TriageResult(
        alertId, Disposition.NeedsReview, 0.0, Informational, [],
        "Candidate assessment failed deterministic validation.", [], [],
        true, Some("Deterministic policy could not validate the candidate assessment."), [], timestamp),
      [CandidateInvalid], [], [])
  }

  function InitialReasons(candidate: CandidateAssessment): seq<PolicyReason>
  {
    if !candidate.disposition.NeedsReview? && candidate.evidence == [] then [InsufficientEvidence] else []
  }

  function FinalReasons(candidate: CandidateAssessment, s: Screening): seq<PolicyReason>
  {
    if candidate.escalationRequired then s.reasons + [CandidateEscalation] else s.reasons
  }

  predicate ReviewForced(reasons: seq<PolicyReason>)
  {
    exists i | 0 <= i < |reasons| :: ForcesReview(reasons[i])
  }

  function EscalationReason(candidate: CandidateAssessment, reasons: seq<PolicyReason>): (r: Option<string>)
  {
    if ReviewForced(reasons) then
      Some("Deterministic policy requires human review: " + JoinNames(NamesOf(Occurring(BY_NAME, reasons), ReasonName)))
    else if candidate.escalationRequired then
      (if candidate.escalationReason.Some? then candidate.escalationReason
       else Some("Candidate requested human review."))
    else None
  }

  function DraftResult(candidate: CandidateAssessment, alertId: Id, timestamp: Instant, s: Screening): TriageResult
  {
    var reasons := FinalReasons(candidate, s);
    var forced := ReviewForced(reasons);
    TriageResult(
      alertId, if forced then Disposition.NeedsReview else candidate.disposition,
      candidate.confidence, candidate.severity, candidate.evidence, candidate.reasoningSummary,
      s.accepted, s.approvals, candidate.escalationRequired || forced,
      EscalationReason(candidate, reasons), candidate.toolCalls, timestamp)
  }

  function ReasonCodes(candidate: CandidateAssessment, s: Screening): seq<PolicyReason>
  {
    var reasons := FinalReasons(candidate, s);
    FirstOccurrences(if reasons == [] then [Accepted] else reasons)
  }

  /** The decision drawn from a finished screening. */
  function Conclude(sha: Hash, candidate: CandidateAssessment, alertId: Id, timestamp: Instant, s: Screening)
    : PolicyDecision
  {
    var result := DraftResult(candidate, alertId, timestamp, s);
    if ValidResult(sha, result) then
      PolicyDecision(POLICY_VERSION, result, ReasonCodes(candidate, s), ActionIds(s.accepted), s.rejected)
    else SafeReview(alertId, timestamp)
  }

  function Evaluation(
    sha: Hash, c: Catalog, newId: nat -> Id, candidate: CandidateAssessment,
    alertId: Id, scope: set<string>, timestamp: Instant): PolicyDecision
  {
    Conclude(sha, candidate, alertId, timestamp,
      ScreenAll(sha, c, scope, newId, InitialReasons(candidate), candidate.recommendedActions))
  }

  // ---- The evaluation as the policy runs it ---------------------------------------------------

  /** The action identifier factory: the identifiers still to be issued, in order. */
  class IdentifierSource {
    const stream: nat -> Id
    var issued: nat

    constructor (stream: nat -> Id)
      ensures this.stream == stream && issued == 0
    {
      this.stream := stream;
      issued := 0;
    }

    method Next() returns (id: Id)
      modifies this
      ensures id == stream(old(issued)) && issued == old(issued) + 1
    {
      id := stream(issued);
      issued := issued + 1;
    }
  }

  lemma ScreenAllStep(
    sha: Hash, c: Catalog, scope: set<string>, newId: nat -> Id, initial: seq<PolicyReason>,
    actions: seq<ActionRecommendation>, n: nat)
    requires n < |actions|
    ensures ScreenAll(sha, c, scope, newId, initial, actions[..n + 1])
      == ScreenOne(sha, c, scope, newId, ScreenAll(sha, c, scope, newId, initial, actions[..n]), actions[n])
  {
    assert actions[..n + 1][..n] == actions[..n];
  }

  /** One turn of the loop: the recommendation is rejected, or accepted under the next
      identifier the factory issues. */
  method ScreenRecommendation(
    sha: Hash, c: Catalog, source: IdentifierSource, scope: set<string>,
    s: Screening, action: ActionRecommendation, ghost newId: nat -> Id)
    returns (t: Screening)
    requires newId(|s.accepted|) == source.stream(source.issued)
    modifies source
    ensures t == ScreenOne(sha, c, scope, newId, s, action)
    ensures source.issued - old(source.issued) == |t.accepted| - |s.accepted|
  {
    t := s;
    var reason := Screen(c, scope, action);
    if reason.Some? {
      t := t.(reasons := t.reasons + [reason.value],
              rejected := t.rejected + [RejectedAction(action.material.catalogActionId, reason.value)]);
    } else {
      var id := source.Next();
      var canonical := Canonicalize(action, id);
      t := t.(accepted := t.accepted + [canonical]);
      if c[action.material.catalogActionId].approvalRequired {
        t := t.(approvals := t.approvals + [Reference(sha, canonical)]);
      }
    }
  }

  method Evaluate(
    sha: Hash, c: Catalog, source: IdentifierSource, candidate: CandidateAssessment,
    alertId: Id, scope: set<string>, timestamp: Instant, ghost newId: nat -> Id)
    returns (decision: PolicyDecision)
    requires forall k: nat :: newId(k) == source.stream(source.issued + k)
    modifies source
    ensures decision == Evaluation(sha, c, newId, candidate, alertId, scope, timestamp)
  {
    var start := source.issued;
    var actions := candidate.recommendedActions;
    ghost var initial := InitialReasons(candidate);
    var s := Screening([], [], [], InitialReasons(candidate));
    for n := 0 to |actions|
      invariant source.issued == start + |s.accepted|
      invariant s == ScreenAll(sha, c, scope, newId, initial, actions[..n])
    {
      s := ScreenRecommendation(sha, c, source, scope, s, actions[n], newId);
      ScreenAllStep(sha, c, scope, newId, initial, actions, n);
    }
    assert actions[..|actions|] == actions;
    decision := Conclude(sha, candidate, alertId, timestamp, s);
  }

  // ---- The declarative rule --------------------------------------------------------------------

  /** The positions of the recommendations that pass (or fail) every check, in order. */
  ghost function Positions(c: Catalog, scope: set<string>, actions: seq<ActionRecommendation>, pass: bool): seq<nat>
  {
    if actions == [] then []
    else
      var n := |actions| - 1;
      Positions(c, scope, actions[..n], pass)
        + (if Screen(c, scope, actions[n]).None? == pass then [n] else [])
  }

  lemma {:induction false} PositionsMembers(
    c: Catalog, scope: set<string>, actions: seq<ActionRecommendation>, pass: bool, p: nat)
    ensures p in Positions(c, scope, actions, pass) <==>
      p < |actions| && Screen(c, scope, actions[p]).None? == pass
  {
    if actions != [] {
      PositionsMembers(c, scope, actions[..|actions| - 1], pass, p);
    }
  }

  lemma {:induction false} PositionsAscend(
    c: Catalog, scope: set<string>, actions: seq<ActionRecommendation>, pass: bool)
    ensures var ps := Positions(c, scope, actions, pass);
      forall i, j | 0 <= i < j < |ps| :: ps[i] < ps[j]
  {
    if actions != [] {
      var n := |actions| - 1;
      PositionsAscend(c, scope, actions[..n], pass);
      var init := Positions(c, scope, actions[..n], pass);
      forall i | 0 <= i < |init| ensures init[i] < n {
        PositionsMembers(c, scope, actions[..n], pass, init[i]);
      }
    }
  }

  lemma {:induction false} PositionsCover(c: Catalog, scope: set<string>, actions: seq<ActionRecommendation>)
    ensures |Positions(c, scope, actions, true)| + |Positions(c, scope, actions, false)| == |actions|
  {
    if actions != [] {
      PositionsCover(c, scope, actions[..|actions| - 1]);
    }
  }

  lemma {:induction false} AcceptedInOrder(
    sha: Hash, c: Catalog, scope: set<string>, newId: nat -> Id, initial: seq<PolicyReason>,
    actions: seq<ActionRecommendation>)
    ensures var acc, ps := ScreenAll(sha, c, scope, newId, initial, actions).accepted, Positions(c, scope, actions, true);
      && |acc| == |ps|
      && forall k | 0 <= k < |ps| :: ps[k] < |actions| && acc[k] == Canonicalize(actions[ps[k]], newId(k))
  {
    if actions != [] {
      AcceptedInOrder(sha, c, scope, newId, initial, actions[..|actions| - 1]);
    }
  }

  lemma {:induction false} RejectedInOrder(
    sha: Hash, c: Catalog, scope: set<string>, newId: nat -> Id, initial: seq<PolicyReason>,
    actions: seq<ActionRecommendation>)
    ensures var rej, ps := ScreenAll(sha, c, scope, newId, initial, actions).rejected, Positions(c, scope, actions, false);
      && |rej| == |ps|
      && forall k | 0 <= k < |ps| ::
        && ps[k] < |actions|
        && rej[k].catalogActionId == actions[ps[k]].material.catalogActionId
        && Screen(c, scope, actions[ps[k]]) == Some(rej[k].reason)
  {
    if actions != [] {
      RejectedInOrder(sha, c, scope, newId, initial, actions[..|actions| - 1]);
    }
  }

  function RejectionReasons(rejected: seq<RejectedAction>): (r: seq<PolicyReason>)
    ensures |r| == |rejected| && forall k | 0 <= k < |r| :: r[k] == rejected[k].reason
  {
    seq(|rejected|, k requires 0 <= k < |rejected| => rejected[k].reason)
  }

  lemma {:induction false} ReasonsAreRejections(
    sha: Hash, c: Catalog, scope: set<string>, newId: nat -> Id, initial: seq<PolicyReason>,
    actions: seq<ActionRecommendation>)
    ensures var s := ScreenAll(sha, c, scope, newId, initial, actions);
      s.reasons == initial + RejectionReasons(s.rejected)
  {
    var s := ScreenAll(sha, c, scope, newId, initial, actions);
    if actions != [] {
      var n := |actions| - 1;
      ReasonsAreRejections(sha, c, scope, newId, initial, actions[..n]);
      var t := ScreenAll(sha, c, scope, newId, initial, actions[..n]);
      if Screen(c, scope, actions[n]).Some? {
        assert RejectionReasons(s.rejected) == RejectionReasons(t.rejected) + [Screen(c, scope, actions[n]).value];
      }
    }
  }

  /** The references of the accepted actions whose definition requires approval, in order. */
  ghost function RequiredReferences(sha: Hash, c: Catalog, accepted: seq<ActionProposal>): seq<ActionReference>
  {
    if accepted == [] then []
    else
      var a := accepted[|accepted| - 1];
      RequiredReferences(sha, c, accepted[..|accepted| - 1])
        + (if a.material.catalogActionId in c && c[a.material.catalogActionId].approvalRequired
           then [Reference(sha, a)] else [])
  }

  lemma {:induction false} ApprovalsInOrder(
    sha: Hash, c: Catalog, scope: set<string>, newId: nat -> Id, initial: seq<PolicyReason>,
    actions: seq<ActionRecommendation>)
    ensures var s := ScreenAll(sha, c, scope, newId, initial, actions);
      s.approvals == RequiredReferences(sha, c, s.accepted)
  {
    if actions != [] {
      var n := |actions| - 1;
      ApprovalsInOrder(sha, c, scope, newId, initial, actions[..n]);
      var s, t := ScreenAll(sha, c, scope, newId, initial, actions), ScreenAll(sha, c, scope, newId, initial, actions[..n]);
      if Screen(c, scope, actions[n]).None? {
        assert s.accepted[..|s.accepted| - 1] == t.accepted;
      }
    }
  }

  // ---- Totality and the fallback -----------------------------------------------------------------

  /** The identifiers the factory issues are pairwise different. */
  ghost predicate Fresh(newId: nat -> Id)
  {
    forall i: nat, j: nat :: i != j ==> newId(i) != newId(j)
  }

  /** What a candidate must get right for its result to pass validation. */
  ghost predicate WellReferenced(candidate: CandidateAssessment)
  {
    && Distinct(EvidenceIds(candidate.evidence))
    && Distinct(CallIds(candidate.toolCalls))
    && EvidenceResolved(candidate.evidence, candidate.toolCalls)
  }

  lemma {:induction false} RequiredReferencesListed(sha: Hash, c: Catalog, accepted: seq<ActionProposal>)
    ensures forall r | r in RequiredReferences(sha, c, accepted) ::
      exists k :: 0 <= k < |accepted| && r == Reference(sha, accepted[k])
  {
    if accepted != [] {
      var init := accepted[..|accepted| - 1];
      RequiredReferencesListed(sha, c, init);
      forall r | r in RequiredReferences(sha, c, accepted)
        ensures exists k :: 0 <= k < |accepted| && r == Reference(sha, accepted[k])
      {
        if r in RequiredReferences(sha, c, init) {
          var k :| 0 <= k < |init| && r == Reference(sha, init[k]);
          assert accepted[k] == init[k];
        } else {
          assert r == Reference(sha, accepted[|accepted| - 1]);
        }
      }
    }
  }

  lemma {:induction false} RequiredReferencesDistinct(sha: Hash, c: Catalog, accepted: seq<ActionProposal>)
    requires Distinct(ActionIds(accepted))
    ensures Distinct(ReferenceIds(RequiredReferences(sha, c, accepted)))
  {
    if accepted != [] {
      var n := |accepted| - 1;
      var init := accepted[..n];
      assert ActionIds(init) == ActionIds(accepted)[..n];
      DistinctPrefix(ActionIds(accepted), n);
      RequiredReferencesDistinct(sha, c, init);
      LastReferenceNew(sha, c, accepted);
      var rs, all := RequiredReferences(sha, c, init), RequiredReferences(sha, c, accepted);
      if |all| > |rs| {
        assert ReferenceIds(all) == ReferenceIds(rs) + [accepted[n].actionId];
        DistinctExtend(ReferenceIds(rs), accepted[n].actionId);
      }
    }
  }

  lemma LastReferenceNew(sha: Hash, c: Catalog, accepted: seq<ActionProposal>)
    requires accepted != [] && Distinct(ActionIds(accepted))
    ensures var n := |accepted| - 1;
      var rs := RequiredReferences(sha, c, accepted[..n]);
      accepted[n].actionId !in ReferenceIds(rs)
  {
    var n := |accepted| - 1;
    var ids, init := ActionIds(accepted), accepted[..n];
    RequiredReferencesListed(sha, c, init);
    var rs := RequiredReferences(sha, c, init);
    forall i | 0 <= i < |rs| ensures ReferenceIds(rs)[i] != accepted[n].actionId {
      assert rs[i] in rs;
      var k :| 0 <= k < |init| && rs[i] == Reference(sha, init[k]);
      assert ids[k] != ids[n];
    }
  }

  lemma AcceptedActionsValidate(sha: Hash, c: Catalog, accepted: seq<ActionProposal>)
    requires Distinct(ActionIds(accepted))
    ensures var refs := RequiredReferences(sha, c, accepted);
      SizesAgree(ActionIds(accepted)) && SizesAgree(ReferenceIds(refs)) && ReferencesMatch(sha, refs, accepted)
  {
    var refs := RequiredReferences(sha, c, accepted);
    SizesAgreeMeansDistinct(ActionIds(accepted));
    RequiredReferencesDistinct(sha, c, accepted);
    SizesAgreeMeansDistinct(ReferenceIds(refs));
    RequiredReferencesListed(sha, c, accepted);
    forall r | r in refs
      ensures ProposalFor(accepted, r.actionId).Some?
      ensures Digest(sha, ProposalFor(accepted, r.actionId).value.material) == r.actionDigest
    {
      var k :| 0 <= k < |accepted| && r == Reference(sha, accepted[k]);
      ProposalForDistinct(accepted, k);
    }
  }

  lemma AcceptedIdsDistinct(
    sha: Hash, c: Catalog, scope: set<string>, newId: nat -> Id, initial: seq<PolicyReason>,
    actions: seq<ActionRecommendation>)
    requires Fresh(newId)
    ensures Distinct(ActionIds(ScreenAll(sha, c, scope, newId, initial, actions).accepted))
  {
    AcceptedInOrder(sha, c, scope, newId, initial, actions);
  }

  predicate IsFallback(d: PolicyDecision)
  {
    CandidateInvalid in d.reasonCodes
  }

  lemma SafeReviewValidates(sha: Hash, alertId: Id, timestamp: Instant)
    ensures ValidResult(sha, SafeReview(alertId, timestamp).result)
  {
  }

  lemma {:induction false} FirstOccurrencesMeaning(rs: seq<PolicyReason>)
    ensures Distinct(FirstOccurrences(rs))
    ensures forall r :: r in FirstOccurrences(rs) <==> r in rs
  {
    if rs != [] {
      FirstOccurrencesMeaning(rs[..|rs| - 1]);
      assert rs == rs[..|rs| - 1] + [rs[|rs| - 1]];
    }
  }

  /** The first reason is given somewhere where the second is not given yet. */
  ghost predicate OccursBefore(reasons: seq<PolicyReason>, first: PolicyReason, second: PolicyReason)
  {
    exists k :: 0 <= k < |reasons| && reasons[k] == first && second !in reasons[..k + 1]
  }

  /** The codes are the reasons, each once, in the order in which they first occur. */
  ghost predicate InFirstOrder(codes: seq<PolicyReason>, reasons: seq<PolicyReason>)
  {
    && Distinct(codes) && (forall r :: r in codes <==> r in reasons)
    && forall i, j | 0 <= i < j < |codes| :: OccursBefore(reasons, codes[i], codes[j])
  }

  lemma OccursBeforeExtends(init: seq<PolicyReason>, last: PolicyReason, first: PolicyReason, second: PolicyReason)
    requires OccursBefore(init, first, second) || (first in init && second !in init)
    ensures OccursBefore(init + [last], first, second)
  {
    var k :| 0 <= k < |init| && init[k] == first && second !in init[..k + 1];
    assert (init + [last])[k] == first && (init + [last])[..k + 1] == init[..k + 1];
  }

  lemma {:induction false} FirstOccurrencesOrder(rs: seq<PolicyReason>)
    ensures InFirstOrder(FirstOccurrences(rs), rs)
  {
    FirstOccurrencesMeaning(rs);
    if rs != [] {
      var n, codes := |rs| - 1, FirstOccurrences(rs);
      var init, older := rs[..n], FirstOccurrences(rs[..n]);
      FirstOccurrencesOrder(init);
      assert rs == init + [rs[n]];
      forall i, j | 0 <= i < j < |codes| ensures OccursBefore(rs, codes[i], codes[j]) {
        assert codes[i] == older[i] && older[i] in older;
        OccursBeforeExtends(init, rs[n], codes[i], codes[j]);
      }
    }
  }

  /** Every reason a screening collects forces a review. */
  lemma ScreeningReasonsForce(
    sha: Hash, c: Catalog, scope: set<string>, newId: nat -> Id, candidate: CandidateAssessment)
    ensures var s := ScreenAll(sha, c, scope, newId, InitialReasons(candidate), candidate.recommendedActions);
      forall i | 0 <= i < |s.reasons| :: ForcesReview(s.reasons[i])
  {
    var s := ScreenAll(sha, c, scope, newId, InitialReasons(candidate), candidate.recommendedActions);
    ReasonsAreRejections(sha, c, scope, newId, InitialReasons(candidate), candidate.recommendedActions);
    RejectedInOrder(sha, c, scope, newId, InitialReasons(candidate), candidate.recommendedActions);
    forall i | 0 <= i < |s.reasons| ensures ForcesReview(s.reasons[i]) {
      var m := |InitialReasons(candidate)|;
      if i >= m {
        assert s.reasons[i] == s.rejected[i - m].reason;
      }
    }
  }

  /** The decision always carries a result that passes validation. */
  lemma EvaluationAlwaysValid(
    sha: Hash, c: Catalog, newId: nat -> Id, candidate: CandidateAssessment,
    alertId: Id, scope: set<string>, timestamp: Instant)
    ensures ValidResult(sha, Evaluation(sha, c, newId, candidate, alertId, scope, timestamp).result)
    ensures Evaluation(sha, c, newId, candidate, alertId, scope, timestamp).result.alertId == alertId
  {
    SafeReviewValidates(sha, alertId, timestamp);
  }

  lemma DraftValidates(sha: Hash, c: Catalog, candidate: CandidateAssessment, alertId: Id, timestamp: Instant, s: Screening)
    requires Distinct(ActionIds(s.accepted)) && s.approvals == RequiredReferences(sha, c, s.accepted)
    ensures ValidResult(sha, DraftResult(candidate, alertId, timestamp, s)) <==> WellReferenced(candidate)
  {
    AcceptedActionsValidate(sha, c, s.accepted);
    SizesAgreeMeansDistinct(EvidenceIds(candidate.evidence));
    SizesAgreeMeansDistinct(CallIds(candidate.toolCalls));
  }

  /** The reasons of a screening whose own reasons all force a review: those, and the
      candidate's escalation. */
  lemma FinalReasonsMeaning(candidate: CandidateAssessment, s: Screening, r: PolicyReason)
    requires forall i | 0 <= i < |s.reasons| :: ForcesReview(s.reasons[i])
    ensures r in FinalReasons(candidate, s) <==> r in s.reasons || (r.CandidateEscalation? && candidate.escalationRequired)
    ensures r in FinalReasons(candidate, s) ==> ForcesReview(r) || r.CandidateEscalation?
  {
    if r in s.reasons {
      var i :| 0 <= i < |s.reasons| && s.reasons[i] == r;
      assert ForcesReview(s.reasons[i]);
    }
  }

  lemma FirstOfOne(r: PolicyReason)
    ensures FirstOccurrences([r]) == [r]
  {
    assert [r][..0] == [];
  }

  /** The reason codes of a screening whose reasons all force a review. */
  lemma CodesMeaning(candidate: CandidateAssessment, s: Screening)
    requires forall i | 0 <= i < |s.reasons| :: ForcesReview(s.reasons[i])
    ensures var codes := ReasonCodes(candidate, s);
      && codes != [] && Distinct(codes) && CandidateInvalid !in codes
      && (Accepted in codes ==> codes == [Accepted])
      && (Accepted in codes <==> s.reasons == [] && !candidate.escalationRequired)
      && (InsufficientEvidence in codes <==> InsufficientEvidence in s.reasons)
      && (CandidateEscalation in codes <==> candidate.escalationRequired)
  {
    var reasons := FinalReasons(candidate, s);
    FinalReasonsMeaning(candidate, s, CandidateInvalid);
    FinalReasonsMeaning(candidate, s, Accepted);
    FinalReasonsMeaning(candidate, s, InsufficientEvidence);
    FinalReasonsMeaning(candidate, s, CandidateEscalation);
    if reasons == [] {
      FirstOfOne(Accepted);
    } else {
      FirstOccurrencesMeaning(reasons);
      assert reasons[0] in reasons;
    }
  }

  lemma ForcedMeaning(candidate: CandidateAssessment, s: Screening)
    requires forall i | 0 <= i < |s.reasons| :: ForcesReview(s.reasons[i])
    ensures ReviewForced(FinalReasons(candidate, s)) <==> s.reasons != []
  {
    var reasons := FinalReasons(candidate, s);
    if s.reasons != [] {
      assert ForcesReview(s.reasons[0]) && reasons[0] == s.reasons[0];
    }
  }

  /** With fresh action identifiers the fallback is taken exactly for candidates whose own
      references are broken. */
  lemma FallbackExactly(
    sha: Hash, c: Catalog, newId: nat -> Id, candidate: CandidateAssessment,
    alertId: Id, scope: set<string>, timestamp: Instant)
    requires Fresh(newId)
    ensures var d := Evaluation(sha, c, newId, candidate, alertId, scope, timestamp);
      && (IsFallback(d) <==> !WellReferenced(candidate))
      && (IsFallback(d) <==> ReviewsUnseen(d, alertId, timestamp))
  {
    var s := ScreenAll(sha, c, scope, newId, InitialReasons(candidate), candidate.recommendedActions);
    SafeReviewMeaning(Evaluation(sha, c, newId, candidate, alertId, scope, timestamp), alertId, timestamp);
    ApprovalsInOrder(sha, c, scope, newId, InitialReasons(candidate), candidate.recommendedActions);
    AcceptedIdsDistinct(sha, c, scope, newId, InitialReasons(candidate), candidate.recommendedActions);
    DraftValidates(sha, c, candidate, alertId, timestamp, s);
    ScreeningReasonsForce(sha, c, scope, newId, candidate);
    CodesMeaning(candidate, s);
  }

  /** The rule the decision enforces on a candidate with well-formed references. */
  lemma EvaluationFollowsRule(
    sha: Hash, c: Catalog, newId: nat -> Id, candidate: CandidateAssessment,
    alertId: Id, scope: set<string>, timestamp: Instant)
    requires Fresh(newId) && WellReferenced(candidate)
    ensures var d := Evaluation(sha, c, newId, candidate, alertId, scope, timestamp);
      var unsupported := !candidate.disposition.NeedsReview? && candidate.evidence == [];
      var forced := d.rejectedActions != [] || unsupported;
      && d.reasonCodes != [] && Distinct(d.reasonCodes)
      && (Accepted in d.reasonCodes ==> d.reasonCodes == [Accepted])
      && (Accepted in d.reasonCodes <==> !forced && !candidate.escalationRequired)
      && (InsufficientEvidence in d.reasonCodes <==> unsupported)
      && (CandidateEscalation in d.reasonCodes <==> candidate.escalationRequired)
      && d.result.disposition == (if forced then Disposition.NeedsReview else candidate.disposition)
      && (d.result.escalationRequired <==> candidate.escalationRequired || forced)
      && d.result.evidence == candidate.evidence && d.result.toolCalls == candidate.toolCalls
      && d.result.severity == candidate.severity && d.result.confidence == candidate.confidence
      && d.result.reasoningSummary == candidate.reasoningSummary && d.result.timestamp == timestamp
      && Escalates(candidate, forced, d.reasonCodes, d.result.escalationReason)
      && d.policyVersion == "1.0.0" && InFirstOrder(d.reasonCodes, ReasonsGiven(candidate, d.rejectedActions))
      && d.acceptedActionIds == ActionIds(d.result.recommendedActions)
      && d.result.actionsRequiringApproval == RequiredReferences(sha, c, d.result.recommendedActions)
  {
    var s := ScreenAll(sha, c, scope, newId, InitialReasons(candidate), candidate.recommendedActions);
    EvaluationConcludes(sha, c, newId, candidate, alertId, scope, timestamp);
    ScreeningReasonsForce(sha, c, scope, newId, candidate);
    CodesMeaning(candidate, s);
    ForcedMeaning(candidate, s);
    EscalationMeaning(candidate, s);
    CodesInOrder(sha, c, scope, newId, candidate);
    InsufficientMeaning(sha, c, scope, newId, candidate);
  }

  // ---- What the decision says to a reviewer -----------------------------------------------------

  /** The reason with this name, as its enumeration is written. */
  function ReasonNamed(name: string): Option<PolicyReason>
  {
    if name == "ACCEPTED" then Some(Accepted)
    else if name == "CANDIDATE_INVALID" then Some(CandidateInvalid)
    else if name == "INSUFFICIENT_EVIDENCE" then Some(InsufficientEvidence)
    else if name == "UNKNOWN_ACTION" then Some(UnknownAction)
    else if name == "INVALID_ACTION_PARAMETERS" then Some(InvalidActionParameters)
    else if name == "UNSUPPORTED_TARGET_TYPE" then Some(UnsupportedTargetType)
    else if name == "ACTION_TARGET_OUT_OF_SCOPE" then Some(ActionTargetOutOfScope)
    else if name == "CANDIDATE_ESCALATION" then Some(CandidateEscalation)
    else None
  }

  lemma ReasonsAreNamed(r: PolicyReason)
    ensures ReasonNamed(ReasonName(r)) == Some(r)
  {
  }

  /** The names with a comma and a space between neighbours. */
  function Separated(names: seq<string>): string
  {
    if names == [] then ""
    else if |names| == 1 then names[0]
    else Separated(names[..|names| - 1]) + ", " + names[|names| - 1]
  }

  predicate NamesAscend(names: seq<string>)
  {
    forall i, j | 0 <= i < j < |names| :: Less(names[i], names[j])
  }

  lemma Regrouped(a: string, b: string, c: string)
    ensures a + (b + c) == (a + b) + c
  {
  }

  lemma JoinMore(names: seq<string>)
    requires |names| > 1
    ensures JoinNames(names) == (names[0] + ", ") + JoinNames(names[1..])
  {
  }

  lemma {:induction false} JoinLast(names: seq<string>, last: string)
    requires names != []
    ensures JoinNames(names + [last]) == JoinNames(names) + (", " + last)
    decreases |names|
  {
    var all, rest := names + [last], names[1..];
    assert all[1..] == rest + [last] && all[0] == names[0];
    JoinMore(all);
    if |names| == 1 {
      assert rest + [last] == [last] && JoinNames([last]) == last;
      Regrouped(names[0], ", ", last);
    } else {
      JoinMore(names);
      JoinLast(rest, last);
      Regrouped(names[0] + ", ", JoinNames(rest), ", " + last);
    }
  }

  /** Both ways of joining names give one text. */
  lemma {:induction false} JoinIsSeparated(names: seq<string>)
    ensures JoinNames(names) == Separated(names)
    decreases |names|
  {
    if |names| > 1 {
      var n := |names| - 1;
      JoinIsSeparated(names[..n]);
      JoinLast(names[..n], names[n]);
      assert names[..n] + [names[n]] == names;
      Regrouped(Separated(names[..n]), ", ", names[n]);
    }
  }

  /** The first characters that differ decide. */
  lemma {:induction false} LessAt(a: string, b: string, k: nat)
    requires k < |a| && k < |b| && a[k] < b[k] && forall i | 0 <= i < k :: a[i] == b[i]
    ensures Less(a, b)
    decreases k
  {
    if k > 0 {
      assert a[0] == b[0];
      LessAt(a[1..], b[1..], k - 1);
    }
  }

  lemma AcceptedFirst()
    ensures Less(ReasonName(Accepted), ReasonName(ActionTargetOutOfScope))
  {
    LessAt("ACCEPTED", "ACTION_TARGET_OUT_OF_SCOPE", 2);
  }

  lemma EscalationBeforeInvalid()
    ensures Less(ReasonName(CandidateEscalation), ReasonName(CandidateInvalid))
  {
    LessAt("CANDIDATE_ESCALATION", "CANDIDATE_INVALID", 10);
  }

  lemma InsufficientBeforeInvalid()
    ensures Less(ReasonName(InsufficientEvidence), ReasonName(InvalidActionParameters))
  {
    LessAt("INSUFFICIENT_EVIDENCE", "INVALID_ACTION_PARAMETERS", 2);
  }

  lemma UnknownBeforeUnsupported()
    ensures Less(ReasonName(UnknownAction), ReasonName(UnsupportedTargetType))
  {
    LessAt("UNKNOWN_ACTION", "UNSUPPORTED_TARGET_TYPE", 2);
  }

  lemma OtherNamesBefore()
    ensures Less(ReasonName(ActionTargetOutOfScope), ReasonName(CandidateEscalation))
    ensures Less(ReasonName(CandidateInvalid), ReasonName(InsufficientEvidence))
    ensures Less(ReasonName(InvalidActionParameters), ReasonName(UnknownAction))
  {
  }

  lemma {:induction false} NeighboursAscend(names: seq<string>)
    requires forall i | 0 <= i < |names| - 1 :: Less(names[i], names[i + 1])
    ensures NamesAscend(names)
  {
    if |names| > 1 {
      var n := |names| - 1;
      NeighboursAscend(names[..n]);
      forall i | 0 <= i < n ensures Less(names[i], names[n]) {
        if i < n - 1 {
          assert Less(names[..n][i], names[..n][n - 1]);
          LessTransitive(names[i], names[n - 1], names[n]);
        }
      }
    }
  }

  /** The list of reasons is in the order of names that are so ordered. */
  lemma ListAscends(name: PolicyReason -> string)
    requires Less(name(Accepted), name(ActionTargetOutOfScope)) && Less(name(ActionTargetOutOfScope), name(CandidateEscalation))
    requires Less(name(CandidateEscalation), name(CandidateInvalid)) && Less(name(CandidateInvalid), name(InsufficientEvidence))
    requires Less(name(InsufficientEvidence), name(InvalidActionParameters))
    requires Less(name(InvalidActionParameters), name(UnknownAction)) && Less(name(UnknownAction), name(UnsupportedTargetType))
    ensures NamesAscend(NamesOf(BY_NAME, name))
  {
    NeighboursAscend(NamesOf(BY_NAME, name));
  }

  lemma ByNameAscends()
    ensures NamesAscend(NamesOf(BY_NAME, ReasonName))
  {
    AcceptedFirst();
    EscalationBeforeInvalid();
    InsufficientBeforeInvalid();
    UnknownBeforeUnsupported();
    OtherNamesBefore();
    ListAscends(ReasonName);
  }

  lemma {:induction false} OccurringMembers(list: seq<PolicyReason>, rs: seq<PolicyReason>)
    ensures forall r :: r in Occurring(list, rs) <==> r in list && r in rs && !r.Accepted?
  {
    if list != [] {
      OccurringMembers(list[1..], rs);
      assert list == [list[0]] + list[1..];
    }
  }

  lemma {:induction false} OccurringAscends(list: seq<PolicyReason>, rs: seq<PolicyReason>, name: PolicyReason -> string)
    requires NamesAscend(NamesOf(list, name))
    ensures NamesAscend(NamesOf(Occurring(list, rs), name))
  {
    if list != [] {
      var rest := Occurring(list[1..], rs);
      assert NamesOf(list[1..], name) == NamesOf(list, name)[1..];
      OccurringAscends(list[1..], rs, name);
      OccurringMembers(list[1..], rs);
      forall i | 0 <= i < |rest| ensures Less(name(list[0]), name(rest[i])) {
        assert rest[i] in list[1..];
        var k :| 0 <= k < |list[1..]| && list[1..][k] == rest[i];
        assert Less(NamesOf(list, name)[0], NamesOf(list, name)[k + 1]);
      }
    }
  }

  /** These are the names of the reasons, except acceptance, each once and in ascending order. */
  ghost predicate NamesReasons(names: seq<string>, reasons: seq<PolicyReason>, name: PolicyReason -> string)
  {
    NamesAscend(names) && forall n :: n in names <==> exists r :: r in reasons && !r.Accepted? && name(r) == n
  }

  /** The text lists their names. */
  ghost predicate ListsReasons(text: string, reasons: seq<PolicyReason>)
  {
    exists names: seq<string> ::
      text == "Deterministic policy requires human review: " + Separated(names) && NamesReasons(names, reasons, ReasonName)
  }

  lemma OccurringNames(reasons: seq<PolicyReason>, codes: seq<PolicyReason>, name: PolicyReason -> string)
    requires forall r :: r in codes <==> r in reasons
    requires NamesAscend(NamesOf(BY_NAME, name))
    ensures NamesReasons(NamesOf(Occurring(BY_NAME, reasons), name), codes, name)
  {
    var found := Occurring(BY_NAME, reasons);
    OccurringAscends(BY_NAME, reasons, name);
    OccurringMembers(BY_NAME, reasons);
    forall n ensures n in NamesOf(found, name) <==> exists r :: r in codes && !r.Accepted? && name(r) == n {
      if n in NamesOf(found, name) {
        var i :| 0 <= i < |found| && NamesOf(found, name)[i] == n;
        assert found[i] in found;
      }
      if r :| r in codes && !r.Accepted? && name(r) == n {
        ReasonListed(r);
        var i :| 0 <= i < |found| && found[i] == r;
        assert NamesOf(found, name)[i] == n;
      }
    }
  }

  lemma ForcedTextLists(reasons: seq<PolicyReason>, codes: seq<PolicyReason>, text: string)
    requires forall r :: r in codes <==> r in reasons
    requires text == "Deterministic policy requires human review: " + JoinNames(NamesOf(Occurring(BY_NAME, reasons), ReasonName))
    ensures ListsReasons(text, codes)
  {
    var names := NamesOf(Occurring(BY_NAME, reasons), ReasonName);
    ByNameAscends();
    OccurringNames(reasons, codes, ReasonName);
    JoinIsSeparated(names);
  }

  lemma ReasonListed(r: PolicyReason)
    ensures r in BY_NAME
  {
    assert BY_NAME[0] == Accepted && BY_NAME[1] == ActionTargetOutOfScope && BY_NAME[2] == CandidateEscalation;
    assert BY_NAME[3] == CandidateInvalid && BY_NAME[4] == InsufficientEvidence && BY_NAME[5] == InvalidActionParameters;
    assert BY_NAME[6] == UnknownAction && BY_NAME[7] == UnsupportedTargetType;
  }

  /** The reasons there are, in order: missing evidence, the rejections', and the candidate's own
      request for a review; acceptance when there are none. */
  ghost function ReasonsGiven(candidate: CandidateAssessment, rejected: seq<RejectedAction>): seq<PolicyReason>
  {
    var given :=
      (if candidate.evidence == [] && candidate.disposition != Disposition.NeedsReview then [InsufficientEvidence] else [])
      + RejectionReasons(rejected)
      + (if candidate.escalationRequired then [CandidateEscalation] else []);
    if given == [] then [Accepted] else given
  }

  lemma CodesInOrder(sha: Hash, c: Catalog, scope: set<string>, newId: nat -> Id, candidate: CandidateAssessment)
    ensures var s := ScreenAll(sha, c, scope, newId, InitialReasons(candidate), candidate.recommendedActions);
      InFirstOrder(ReasonCodes(candidate, s), ReasonsGiven(candidate, s.rejected))
  {
    var s := ScreenAll(sha, c, scope, newId, InitialReasons(candidate), candidate.recommendedActions);
    ReasonsAreRejections(sha, c, scope, newId, InitialReasons(candidate), candidate.recommendedActions);
    FirstOccurrencesOrder(ReasonsGiven(candidate, s.rejected));
    assert FinalReasons(candidate, s) == [] ==> ReasonsGiven(candidate, s.rejected) == [Accepted];
    assert FinalReasons(candidate, s) != [] ==> ReasonsGiven(candidate, s.rejected) == FinalReasons(candidate, s);
  }

  /** Why the result is escalated: the reasons that force it, or what the candidate says, or a
      default when it asks for a review and does not say why. */
  ghost predicate Escalates(candidate: CandidateAssessment, forced: bool, codes: seq<PolicyReason>, reason: Option<string>)
  {
    if forced then reason.Some? && ListsReasons(reason.value, codes)
    else if candidate.escalationRequired then
      reason == Some(if candidate.escalationReason.Some? then candidate.escalationReason.value else "Candidate requested human review.")
    else reason == None
  }

  lemma EscalationMeaning(candidate: CandidateAssessment, s: Screening)
    requires forall i | 0 <= i < |s.reasons| :: ForcesReview(s.reasons[i])
    ensures Escalates(candidate, s.reasons != [], ReasonCodes(candidate, s), EscalationReason(candidate, FinalReasons(candidate, s)))
  {
    var reasons := FinalReasons(candidate, s);
    ForcedMeaning(candidate, s);
    if s.reasons != [] {
      assert reasons[0] == s.reasons[0] && reasons[0] in reasons && ForcesReview(s.reasons[0]);
      FirstOccurrencesMeaning(reasons);
      ForcedTextLists(reasons, ReasonCodes(candidate, s), EscalationReason(candidate, reasons).value);
    }
  }

  /** What the fallback says: a review for want of a candidate that validates, and nothing else. */
  predicate ReviewsUnseen(d: PolicyDecision, alertId: Id, timestamp: Instant)
  {
    var r := d.result;
    && d.policyVersion == "1.0.0" && d.reasonCodes == [CandidateInvalid] && d.acceptedActionIds == [] && d.rejectedActions == []
    && r.alertId == alertId && r.timestamp == timestamp
    && r.disposition == Disposition.NeedsReview && r.confidence == 0.0 && r.severity == Informational
    && r.evidence == [] && r.toolCalls == [] && r.recommendedActions == [] && r.actionsRequiringApproval == []
    && r.reasoningSummary == "Candidate assessment failed deterministic validation."
    && r.escalationRequired
    && r.escalationReason == Some("Deterministic policy could not validate the candidate assessment.")
  }

  lemma SafeReviewMeaning(d: PolicyDecision, alertId: Id, timestamp: Instant)
    ensures d == SafeReview(alertId, timestamp) <==> ReviewsUnseen(d, alertId, timestamp)
  {
  }

  lemma EvaluationConcludes(
    sha: Hash, c: Catalog, newId: nat -> Id, candidate: CandidateAssessment,
    alertId: Id, scope: set<string>, timestamp: Instant)
    requires Fresh(newId) && WellReferenced(candidate)
    ensures var s := ScreenAll(sha, c, scope, newId, InitialReasons(candidate), candidate.recommendedActions);
      && s.approvals == RequiredReferences(sha, c, s.accepted)
      && Evaluation(sha, c, newId, candidate, alertId, scope, timestamp)
        == PolicyDecision(POLICY_VERSION, DraftResult(candidate, alertId, timestamp, s),
             ReasonCodes(candidate, s), ActionIds(s.accepted), s.rejected)
  {
    var initial := InitialReasons(candidate);
    var s := ScreenAll(sha, c, scope, newId, initial, candidate.recommendedActions);
    ApprovalsInOrder(sha, c, scope, newId, initial, candidate.recommendedActions);
    AcceptedIdsDistinct(sha, c, scope, newId, initial, candidate.recommendedActions);
    DraftValidates(sha, c, candidate, alertId, timestamp, s);
  }

  lemma InsufficientMeaning(sha: Hash, c: Catalog, scope: set<string>, newId: nat -> Id, candidate: CandidateAssessment)
    ensures var s := ScreenAll(sha, c, scope, newId, InitialReasons(candidate), candidate.recommendedActions);
      && (InsufficientEvidence in s.reasons <==> InitialReasons(candidate) != [])
      && (s.reasons != [] <==> s.rejected != [] || InitialReasons(candidate) != [])
  {
    var initial := InitialReasons(candidate);
    var s := ScreenAll(sha, c, scope, newId, initial, candidate.recommendedActions);
    ReasonsAreRejections(sha, c, scope, newId, initial, candidate.recommendedActions);
    RejectedInOrder(sha, c, scope, newId, initial, candidate.recommendedActions);
    assert |s.reasons| == |initial| + |s.rejected|;
    if initial != [] {
      assert s.reasons[0] == InsufficientEvidence;
    }
    forall i | |initial| <= i < |s.reasons| ensures !s.reasons[i].InsufficientEvidence? {
      assert s.reasons[i] == s.rejected[i - |initial|].reason;
    }
  }

  // ---- Accepted and rejected, against the checks themselves ----------------------------------------

  /** The checks in the order they are made, named by the reason a failure gives. */
  const CHECKS := [UnknownAction, UnsupportedTargetType, ActionTargetOutOfScope, InvalidActionParameters]

  /** The recommendation satisfies the check with this name. */
  predicate Satisfies(c: Catalog, scope: set<string>, a: ActionRecommendation, check: PolicyReason)
  {
    var m := a.material;
    match check
    case UnknownAction => m.catalogActionId in c
    case UnsupportedTargetType => m.catalogActionId in c && m.target.entityType in c[m.catalogActionId].targetTypes
    case ActionTargetOutOfScope => ScopeKey(m.target) in scope
    case InvalidActionParameters => m.catalogActionId in c && c[m.catalogActionId].accepts(m.parameters)
    case _ => true
  }

  ghost predicate SatisfiesAll(c: Catalog, scope: set<string>, a: ActionRecommendation)
  {
    forall k | 0 <= k < |CHECKS| :: Satisfies(c, scope, a, CHECKS[k])
  }

  ghost predicate FailsFirst(c: Catalog, scope: set<string>, a: ActionRecommendation, reason: PolicyReason)
  {
    exists k | 0 <= k < |CHECKS| ::
      && CHECKS[k] == reason && !Satisfies(c, scope, a, reason)
      && forall j | 0 <= j < k :: Satisfies(c, scope, a, CHECKS[j])
  }

  lemma ScreenMeaning(c: Catalog, scope: set<string>, a: ActionRecommendation)
    ensures Screen(c, scope, a).None? <==> SatisfiesAll(c, scope, a)
    ensures Screen(c, scope, a).Some? ==> FailsFirst(c, scope, a, Screen(c, scope, a).value)
  {
    assert CHECKS[0] == UnknownAction && CHECKS[1] == UnsupportedTargetType;
    assert CHECKS[2] == ActionTargetOutOfScope && CHECKS[3] == InvalidActionParameters;
  }

  /** Two ascending lists of positions that share out a list of this length. */
  ghost predicate Partition(xs: seq<nat>, ys: seq<nat>, n: nat)
  {
    && |xs| + |ys| == n
    && (forall i, j | 0 <= i < j < |xs| :: xs[i] < xs[j])
    && (forall i, j | 0 <= i < j < |ys| :: ys[i] < ys[j])
    && (forall i | 0 <= i < |xs| :: xs[i] < n && xs[i] !in ys)
    && forall i | 0 <= i < |ys| :: ys[i] < n && ys[i] !in xs
  }

  /** The accepted actions and the rejections share out the recommendations in their order:
      an action is accepted exactly when it passes all four checks, under the next fresh
      identifier, and is rejected with the first check it fails. */
  lemma EvaluationPartitions(
    sha: Hash, c: Catalog, newId: nat -> Id, candidate: CandidateAssessment,
    alertId: Id, scope: set<string>, timestamp: Instant)
    requires Fresh(newId) && WellReferenced(candidate)
    ensures var d, actions := Evaluation(sha, c, newId, candidate, alertId, scope, timestamp), candidate.recommendedActions;
      var passed, failed := Positions(c, scope, actions, true), Positions(c, scope, actions, false);
      && Partition(passed, failed, |actions|)
      && |d.result.recommendedActions| == |passed| && |d.rejectedActions| == |failed|
      && (forall k | 0 <= k < |passed| ::
            && SatisfiesAll(c, scope, actions[passed[k]])
            && d.result.recommendedActions[k] == Canonicalize(actions[passed[k]], newId(k)))
      && forall k | 0 <= k < |failed| ::
        && d.rejectedActions[k].catalogActionId == actions[failed[k]].material.catalogActionId
        && FailsFirst(c, scope, actions[failed[k]], d.rejectedActions[k].reason)
  {
    var initial, actions := InitialReasons(candidate), candidate.recommendedActions;
    var passed, failed := Positions(c, scope, actions, true), Positions(c, scope, actions, false);
    EvaluationConcludes(sha, c, newId, candidate, alertId, scope, timestamp);
    AcceptedInOrder(sha, c, scope, newId, initial, actions);
    RejectedInOrder(sha, c, scope, newId, initial, actions);
    PositionsPartition(c, scope, actions);
    forall k | 0 <= k < |passed| ensures SatisfiesAll(c, scope, actions[passed[k]]) {
      assert passed[k] in passed;
      ScreenMeaning(c, scope, actions[passed[k]]);
    }
    forall k, rej | 0 <= k < |failed| && Screen(c, scope, actions[failed[k]]) == Some(rej)
      ensures FailsFirst(c, scope, actions[failed[k]], rej)
    {
      ScreenMeaning(c, scope, actions[failed[k]]);
    }
  }

  lemma PositionsPartition(c: Catalog, scope: set<string>, actions: seq<ActionRecommendation>)
    ensures Partition(Positions(c, scope, actions, true), Positions(c, scope, actions, false), |actions|)
    ensures forall p | p in Positions(c, scope, actions, true) :: p < |actions| && Screen(c, scope, actions[p]).None?
  {
    PositionsCover(c, scope, actions);
    PositionsSelect(c, scope, actions, true);
    PositionsSelect(c, scope, actions, false);
    SelectionsPartition(Positions(c, scope, actions, true), Positions(c, scope, actions, false), |actions|,
      set p: nat | p < |actions| && Screen(c, scope, actions[p]).None?);
  }

  lemma PositionsSelect(c: Catalog, scope: set<string>, actions: seq<ActionRecommendation>, pass: bool)
    ensures var ps := Positions(c, scope, actions, pass);
      && (forall p: nat :: p in ps <==> p < |actions| && Screen(c, scope, actions[p]).None? == pass)
      && forall i, j | 0 <= i < j < |ps| :: ps[i] < ps[j]
  {
    PositionsAscend(c, scope, actions, pass);
    forall p: nat
      ensures p in Positions(c, scope, actions, pass) <==> p < |actions| && Screen(c, scope, actions[p]).None? == pass
    {
      PositionsMembers(c, scope, actions, pass, p);
    }
  }

  lemma SelectionsPartition(ps: seq<nat>, qs: seq<nat>, n: nat, selected: set<nat>)
    requires (forall p: nat :: p in ps <==> p < n && p in selected) && forall p: nat :: p in qs <==> p < n && p !in selected
    requires (forall i, j | 0 <= i < j < |ps| :: ps[i] < ps[j]) && forall i, j | 0 <= i < j < |qs| :: qs[i] < qs[j]
    requires |ps| + |qs| == n
    ensures Partition(ps, qs, n)
  {
    assert forall i | 0 <= i < |ps| :: ps[i] in ps;
    assert forall i | 0 <= i < |qs| :: qs[i] in qs;
  }
}
