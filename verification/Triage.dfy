/** Evidence references and the typed triage result with its cross-reference validation
    (domain/evidence.py, domain/triage.py). */
module Triage {
  import opened Base
  import opened Timestamps
  import opened Entities
  import opened Actions

  datatype Disposition = Benign | Suspicious | Malicious | NeedsReview

  datatype Severity = Informational | Low | Medium | High | Critical

  datatype EvidenceReference = EvidenceReference(
    evidenceId: Id, sourceType: Id, sourceReference: Id, collectedAt: Instant,
    sourceVersion: string, summary: string, toolInvocationId: Option<Id>)

  datatype ToolCallReference = ToolCallReference(
    invocationId: Id, toolName: Id, toolVersion: string, calledAt: Instant, summary: string)

  datatype TriageResult = TriageResult(
    alertId: Id, disposition: Disposition, confidence: real, severity: Severity,
    evidence: seq<EvidenceReference>, reasoningSummary: string,
    recommendedActions: seq<ActionProposal>, actionsRequiringApproval: seq<ActionReference>,
    escalationRequired: bool, escalationReason: Option<string>,
    toolCalls: seq<ToolCallReference>, timestamp: Instant)

  datatype SecurityAlert = SecurityAlert(
    alertId: Id, payloadDigest: string, entities: seq<EntityReference>)

  function EvidenceIds(xs: seq<EvidenceReference>): (r: seq<Id>)
    ensures |r| == |xs| && forall i | 0 <= i < |xs| :: r[i] == xs[i].evidenceId
  {
    seq(|xs|, i requires 0 <= i < |xs| => xs[i].evidenceId)
  }

  function CallIds(xs: seq<ToolCallReference>): (r: seq<Id>)
    ensures |r| == |xs| && forall i | 0 <= i < |xs| :: r[i] == xs[i].invocationId
  {
    seq(|xs|, i requires 0 <= i < |xs| => xs[i].invocationId)
  }

  function ActionIds(xs: seq<ActionProposal>): (r: seq<Id>)
    ensures |r| == |xs| && forall i | 0 <= i < |xs| :: r[i] == xs[i].actionId
  {
    seq(|xs|, i requires 0 <= i < |xs| => xs[i].actionId)
  }

  function ReferenceIds(xs: seq<ActionReference>): (r: seq<Id>)
    ensures |r| == |xs| && forall i | 0 <= i < |xs| :: r[i] == xs[i].actionId
  {
    seq(|xs|, i requires 0 <= i < |xs| => xs[i].actionId)
  }

  /** Every tool-origin evidence item names a listed tool call. */
  predicate EvidenceResolved(evidence: seq<EvidenceReference>, calls: seq<ToolCallReference>)
  {
    forall e | e in evidence :: e.toolInvocationId.Some? ==> e.toolInvocationId.value in CallIds(calls)
  }

  /** The last proposal listed under an identifier, as a dictionary built in order keeps it. */
  function ProposalFor(actions: seq<ActionProposal>, id: Id): Option<ActionProposal>
  {
    if actions == [] then None
    else if actions[|actions| - 1].actionId == id then Some(actions[|actions| - 1])
    else ProposalFor(actions[..|actions| - 1], id)
  }

  predicate ReferencesMatch(sha: Hash, refs: seq<ActionReference>, actions: seq<ActionProposal>)
  {
    forall r | r in refs ::
      var a := ProposalFor(actions, r.actionId);
      a.Some? && Digest(sha, a.value.material) == r.actionDigest
  }

  /** `TriageResult.validate_cross_references` raises nothing. */
  predicate ValidResult(sha: Hash, r: TriageResult)
  {
    && (r.escalationRequired <==> r.escalationReason.Some?)
    && SizesAgree(EvidenceIds(r.evidence))
    && SizesAgree(CallIds(r.toolCalls))
    && SizesAgree(ActionIds(r.recommendedActions))
    && SizesAgree(ReferenceIds(r.actionsRequiringApproval))
    && EvidenceResolved(r.evidence, r.toolCalls)
    && ReferencesMatch(sha, r.actionsRequiringApproval, r.recommendedActions)
  }

  lemma {:induction false} ProposalForDistinct(actions: seq<ActionProposal>, k: nat)
    requires Distinct(ActionIds(actions)) && k < |actions|
    ensures ProposalFor(actions, actions[k].actionId) == Some(actions[k])
  {
    var n := |actions| - 1;
    var ids := ActionIds(actions);
    if k < n {
      assert ids[k] != ids[n];
      var init := actions[..n];
      assert ActionIds(init) == ids[..n];
      assert forall i, j | 0 <= i < j < n :: ids[i] != ids[j];
      ProposalForDistinct(init, k);
    }
  }

  lemma {:induction false} ProposalForIsListed(actions: seq<ActionProposal>, id: Id)
    ensures ProposalFor(actions, id).Some? ==>
      ProposalFor(actions, id).value in actions && ProposalFor(actions, id).value.actionId == id
  {
    if actions != [] && actions[|actions| - 1].actionId != id {
      ProposalForIsListed(actions[..|actions| - 1], id);
    }
  }

  /** Every evidence item that comes from a tool names a call of the result. */
  ghost predicate CallsListed(r: TriageResult)
  {
    forall v | v in r.evidence && v.toolInvocationId.Some? ::
      exists t :: t in r.toolCalls && t.invocationId == v.toolInvocationId.value
  }

  /** Every reference that requires approval carries the digest of the recommended action it names. */
  ghost predicate ApprovalsBound(sha: Hash, r: TriageResult)
  {
    forall ref | ref in r.actionsRequiringApproval ::
      exists a :: a in r.recommendedActions && a.actionId == ref.actionId && Digest(sha, a.material) == ref.actionDigest
  }

  lemma CallIdsListed(calls: seq<ToolCallReference>, id: Id)
    ensures id in CallIds(calls) <==> exists t :: t in calls && t.invocationId == id
  {
    if id in CallIds(calls) {
      var i :| 0 <= i < |calls| && CallIds(calls)[i] == id;
      assert calls[i] in calls;
    }
    if t :| t in calls && t.invocationId == id {
      var i :| 0 <= i < |calls| && calls[i] == t;
      assert CallIds(calls)[i] == id;
    }
  }

  lemma ReferencesMatchMeaning(sha: Hash, r: TriageResult)
    requires Distinct(ActionIds(r.recommendedActions))
    ensures ReferencesMatch(sha, r.actionsRequiringApproval, r.recommendedActions) <==> ApprovalsBound(sha, r)
  {
    var actions := r.recommendedActions;
    forall ref | ref in r.actionsRequiringApproval
      ensures (exists a :: a in actions && a.actionId == ref.actionId && Digest(sha, a.material) == ref.actionDigest)
         <==> (var a := ProposalFor(actions, ref.actionId); a.Some? && Digest(sha, a.value.material) == ref.actionDigest)
    {
      ProposalForIsListed(actions, ref.actionId);
      if a :| a in actions && a.actionId == ref.actionId && Digest(sha, a.material) == ref.actionDigest {
        var k :| 0 <= k < |actions| && actions[k] == a;
        ProposalForDistinct(actions, k);
      }
    }
  }

  /** What validation accepts: an escalation has a reason and only an escalation has, no
      identifier is used twice, and both kinds of references resolve. */
  lemma ValidResultMeaning(sha: Hash, r: TriageResult)
    ensures ValidResult(sha, r) <==>
      && (r.escalationRequired <==> r.escalationReason.Some?)
      && Distinct(EvidenceIds(r.evidence)) && Distinct(CallIds(r.toolCalls))
      && Distinct(ActionIds(r.recommendedActions)) && Distinct(ReferenceIds(r.actionsRequiringApproval))
      && CallsListed(r) && ApprovalsBound(sha, r)
  {
    SizesAgreeMeansDistinct(EvidenceIds(r.evidence));
    SizesAgreeMeansDistinct(CallIds(r.toolCalls));
    SizesAgreeMeansDistinct(ActionIds(r.recommendedActions));
    SizesAgreeMeansDistinct(ReferenceIds(r.actionsRequiringApproval));
    forall id ensures id in CallIds(r.toolCalls) <==> exists t :: t in r.toolCalls && t.invocationId == id {
      CallIdsListed(r.toolCalls, id);
    }
    if Distinct(ActionIds(r.recommendedActions)) {
      ReferencesMatchMeaning(sha, r);
    }
  }
}
