/** What the approval protocol guarantees in every history, stale reads, failed commits and
    rewritten action rows included (application/approval_service.py). */
module Approvals {
  import opened Base
  import opened Timestamps
  import opened Actions
  import opened Store
  import opened Workflow
  import opened Effects
  import opened History

  // ---- What a decision and an execution rest on ------------------------------------------------------

  /** In this state the decision's action row carries the digest and the policy version the
      decision binds, and its result asks for the approval. */
  ghost predicate Binds(cfg: Config, s: Store, p: ApprovalRecord)
  {
    && p.actionId in s.actions
    && p.actionDigest == Digest(cfg.sha, s.actions[p.actionId].action.material)
    && p.policyVersion == s.actions[p.actionId].policyVersion
    && RequiresApproval(cfg, s, s.actions[p.actionId])
  }

  /** The reviewer's identifier is authorized, up to surrounding white space. */
  ghost predicate ByReviewer(cfg: Config, p: ApprovalRecord)
  {
    exists raw | raw in cfg.reviewers :: ParseIdentifier(raw) == Some(p.reviewerId)
  }

  ghost predicate Grounded(cfg: Config, h: Commits, p: ApprovalRecord)
  {
    && ByReviewer(cfg, p)
    && (p.decision.Approve? ==> p.expiresAt.Some? && p.expiresAt.value == p.decidedAt + cfg.lifetime)
    && exists i | 0 <= i < |h| :: Binds(cfg, h[i], p)
  }

  /** In this state the action may be executed at this time. */
  ghost predicate Clears(cfg: Config, s: Store, a: Id, startedAt: Instant)
  {
    && a in s.actions && a in s.approvals
    && s.approvals[a].actionDigest == Digest(cfg.sha, s.actions[a].action.material)
    && s.approvals[a].policyVersion == s.actions[a].policyVersion
    && s.approvals[a].decision.Approve?
    && s.approvals[a].reviewerId in cfg.reviewers
    && s.approvals[a].expiresAt.Some? && startedAt < s.approvals[a].expiresAt.value
    && RequiresApproval(cfg, s, s.actions[a])
    && s.actions[a].action in s.results[s.actions[a].executionId].recommendedActions
    && s.actions[a].action.material.catalogActionId in cfg.catalog
    && cfg.catalog[s.actions[a].action.material.catalogActionId].support.SimulatedOnly?
    && cfg.executorMode == "SIMULATED"
  }

  ghost predicate Cleared(cfg: Config, h: Commits, a: Id, startedAt: Instant)
  {
    exists i | 0 <= i < |h| :: Clears(cfg, h[i], a, startedAt)
  }

  ghost predicate Governed(cfg: Config, h: Commits)
  {
    && (forall a | a in Current(h).approvals :: Grounded(cfg, h, Current(h).approvals[a]))
    && forall a | a in Current(h).actionExecutions :: Cleared(cfg, h, a, Current(h).actionExecutions[a].startedAt)
  }

  lemma RecordsGrounds(cfg: Config, s: Store, q: DecisionRequest)
    requires DecisionAnswerOf(cfg, s, q).Records?
    ensures var p := DecisionAnswerOf(cfg, s, q).approval;
      && p.actionId == q.actionId && Binds(cfg, s, p) && ByReviewer(cfg, p)
      && (p.decision.Approve? ==> p.expiresAt.Some? && p.expiresAt.value == p.decidedAt + cfg.lifetime)
  {
    assert q.reviewerId in cfg.reviewers;
  }

  /** The execute checks pass exactly in the states that clear the action. */
  lemma BeginsClears(cfg: Config, s: Store, q: ExecuteRequest)
    requires q.actorId in cfg.reviewers && q.actionId in s.actions
    requires q.actionId in s.actionExecutions ==> s.actionExecutions[q.actionId].state != Succeeded
    ensures ExecuteAnswerOf(cfg, s, q).Begins? <==> Clears(cfg, s, q.actionId, q.now)
    ensures ExecuteAnswerOf(cfg, s, q).Begins? ==>
              ExecuteAnswerOf(cfg, s, q).record.actionId == q.actionId
              && ExecuteAnswerOf(cfg, s, q).record.startedAt == q.now
              && ExecuteAnswerOf(cfg, s, q).row == s.actions[q.actionId]
  {
  }

  // ---- What each denial means ------------------------------------------------------------------------

  /** What an execution must meet, one requirement for each check of `execute`. */
  datatype Requirement =
    | IsRecommended | NeedsApproval | IsSimulated | IsDecided | IsApproved | IsUnexpired | BindsDecision | IsAuthorized

  /** The requirements in the order they are checked. */
  const REQUIREMENTS := [IsRecommended, NeedsApproval, IsSimulated, IsDecided, IsApproved, IsUnexpired, BindsDecision, IsAuthorized]

  function CodeFor(r: Requirement): ErrorCode
  {
    match r
    case IsRecommended => StaleApproval
    case NeedsApproval => ApprovalNotRequired
    case IsSimulated => ExecutionNotSupported
    case IsDecided => ApprovalMissing
    case IsApproved => ApprovalRejected
    case IsUnexpired => ApprovalExpired
    case BindsDecision => StaleApproval
    case IsAuthorized => ReviewerInvalid
  }

  /** The stored state meets the requirement for executing the action now. */
  ghost predicate Meets(cfg: Config, s: Store, a: Id, now: Instant, r: Requirement)
    requires a in s.actions
  {
    var row, material := s.actions[a], s.actions[a].action.material;
    match r
    case IsRecommended =>
      && material.catalogActionId in cfg.catalog && row.executionId in s.results
      && row.action in s.results[row.executionId].recommendedActions
    case NeedsApproval => RequiresApproval(cfg, s, row)
    case IsSimulated =>
      && material.catalogActionId in cfg.catalog
      && cfg.catalog[material.catalogActionId].support.SimulatedOnly? && cfg.executorMode == "SIMULATED"
    case IsDecided => a in s.approvals
    case IsApproved => a in s.approvals && s.approvals[a].decision.Approve?
    case IsUnexpired => a in s.approvals && s.approvals[a].expiresAt.Some? && now < s.approvals[a].expiresAt.value
    case BindsDecision =>
      a in s.approvals && s.approvals[a].actionDigest == Digest(cfg.sha, material) && s.approvals[a].policyVersion == row.policyVersion
    case IsAuthorized => a in s.approvals && s.approvals[a].reviewerId in cfg.reviewers
  }

  /** The first requirement the state does not meet. */
  ghost predicate FirstUnmet(cfg: Config, s: Store, a: Id, now: Instant, k: nat)
    requires a in s.actions && k < |REQUIREMENTS|
  {
    !Meets(cfg, s, a, now, REQUIREMENTS[k]) && forall j | 0 <= j < k :: Meets(cfg, s, a, now, REQUIREMENTS[j])
  }

  lemma RequirementsByNumber()
    ensures REQUIREMENTS[0] == IsRecommended && REQUIREMENTS[1] == NeedsApproval && REQUIREMENTS[2] == IsSimulated
    ensures REQUIREMENTS[3] == IsDecided && REQUIREMENTS[4] == IsApproved && REQUIREMENTS[5] == IsUnexpired
    ensures REQUIREMENTS[6] == BindsDecision && REQUIREMENTS[7] == IsAuthorized
  {
  }

  lemma FirstUnmetDenies(cfg: Config, s: Store, q: ExecuteRequest, k: nat)
    requires q.actionId in s.actions && k < |REQUIREMENTS| && FirstUnmet(cfg, s, q.actionId, q.now, k)
    ensures DenialCode(cfg, s, q) == Some(CodeFor(REQUIREMENTS[k]))
  {
    RequirementsByNumber();
  }

  /** A denial names the first requirement that is not met, and there is none exactly when all
      of them are. */
  lemma DenialMeaning(cfg: Config, s: Store, q: ExecuteRequest)
    requires q.actionId in s.actions
    ensures DenialCode(cfg, s, q).None? <==>
              forall k | 0 <= k < |REQUIREMENTS| :: Meets(cfg, s, q.actionId, q.now, REQUIREMENTS[k])
    ensures forall k | 0 <= k < |REQUIREMENTS| && FirstUnmet(cfg, s, q.actionId, q.now, k) ::
              DenialCode(cfg, s, q) == Some(CodeFor(REQUIREMENTS[k]))
  {
    RequirementsByNumber();
    forall k | 0 <= k < |REQUIREMENTS| && FirstUnmet(cfg, s, q.actionId, q.now, k)
      ensures DenialCode(cfg, s, q) == Some(CodeFor(REQUIREMENTS[k]))
    {
      FirstUnmetDenies(cfg, s, q, k);
    }
  }

  // ---- What each decision means -------------------------------------------------------------------------

  /** What a decision must meet to be answered with a record, one requirement for each refusal. */
  datatype DecisionCheck = KnowsReviewer | FindsAction | AsksApproval | IsOpen

  /** The requirements in the order they are checked. */
  const DECISION_CHECKS := [KnowsReviewer, FindsAction, AsksApproval, IsOpen]

  function RefusalCode(c: DecisionCheck): ErrorCode
  {
    match c
    case KnowsReviewer => ReviewerInvalid
    case FindsAction => ActionNotFound
    case AsksApproval => ApprovalNotRequired
    case IsOpen => DecisionConflict
  }

  /** This very decision is the recorded one. */
  predicate AlreadyMade(s: Store, q: DecisionRequest)
  {
    q.actionId in s.approvals
    && var p := s.approvals[q.actionId]; p.decision == q.decision && p.reviewerId == q.reviewerId && p.reason == q.reason
  }

  predicate Allows(cfg: Config, s: Store, q: DecisionRequest, c: DecisionCheck)
  {
    match c
    case KnowsReviewer => q.reviewerId in cfg.reviewers
    case FindsAction => q.actionId in s.actions
    case AsksApproval => q.actionId in s.actions && RequiresApproval(cfg, s, s.actions[q.actionId])
    case IsOpen => q.actionId !in s.approvals || AlreadyMade(s, q)
  }

  predicate AllowsAll(cfg: Config, s: Store, q: DecisionRequest)
  {
    forall k | 0 <= k < |DECISION_CHECKS| :: Allows(cfg, s, q, DECISION_CHECKS[k])
  }

  /** The first requirement the decision does not meet. */
  predicate FirstRefusal(cfg: Config, s: Store, q: DecisionRequest, k: nat)
  {
    && k < |DECISION_CHECKS| && !Allows(cfg, s, q, DECISION_CHECKS[k])
    && forall j | 0 <= j < k :: Allows(cfg, s, q, DECISION_CHECKS[j])
  }

  /** The reviewer and the reason fit their fields, and the expiry of an approval is later than
      the decision and can be represented. A rejection has no expiry. */
  predicate Recordable(cfg: Config, q: DecisionRequest)
  {
    && IsIdentifier(Strip(q.reviewerId)) && 1 <= |Strip(q.reason)| <= 4096
    && (q.decision.Approve? ==> 0 < cfg.lifetime < MAX_INSTANT - q.now)
  }

  /** The decision gets a record: everything is met, and nothing was decided yet. */
  predicate GetsRecord(cfg: Config, s: Store, q: DecisionRequest)
  {
    AllowsAll(cfg, s, q) && q.actionId !in s.approvals && Recordable(cfg, q)
  }

  /** Its record: for the action as it is stored, by the stripped reviewer, for the stripped
      reason, now, and only an approval expires. */
  ghost predicate RecordsDecision(cfg: Config, s: Store, q: DecisionRequest, p: ApprovalRecord)
  {
    && q.actionId in s.actions
    && p.approvalId == q.approvalId && p.actionId == q.actionId
    && p.actionDigest == Digest(cfg.sha, s.actions[q.actionId].action.material)
    && p.policyVersion == s.actions[q.actionId].policyVersion
    && p.reviewerId == Strip(q.reviewerId) && p.reason == Strip(q.reason)
    && p.decision == q.decision && p.decidedAt == q.now
    && (if q.decision.Approve? then p.expiresAt.Some? && p.expiresAt.value == q.now + cfg.lifetime else p.expiresAt.None?)
  }

  lemma DecisionChecksByNumber()
    ensures DECISION_CHECKS[0] == KnowsReviewer && DECISION_CHECKS[1] == FindsAction
    ensures DECISION_CHECKS[2] == AsksApproval && DECISION_CHECKS[3] == IsOpen
  {
  }

  /** A decision gets a record exactly when it meets every requirement, the action is undecided
      and its texts and times fit; the same decision again gets the record there is; and any
      other is refused with the code of the first requirement it does not meet. */
  lemma DecisionMeaning(cfg: Config, s: Store, q: DecisionRequest)
    ensures DecisionAnswerOf(cfg, s, q).Records? <==> GetsRecord(cfg, s, q)
    ensures DecisionAnswerOf(cfg, s, q).Records? ==> RecordsDecision(cfg, s, q, DecisionAnswerOf(cfg, s, q).approval)
    ensures DecisionAnswerOf(cfg, s, q).Invalid? <==>
              AllowsAll(cfg, s, q) && q.actionId !in s.approvals && !Recordable(cfg, q)
    ensures AllowsAll(cfg, s, q) && q.actionId in s.approvals ==>
              DecisionAnswerOf(cfg, s, q) == Repeats(s.approvals[q.actionId])
    ensures forall k: nat | FirstRefusal(cfg, s, q, k) ::
              DecisionAnswerOf(cfg, s, q) == Refuses(RefusalCode(DECISION_CHECKS[k]))
  {
    DecisionChecksByNumber();
  }

  lemma GroundedExtend(cfg: Config, h: Commits, t: Store, p: ApprovalRecord)
    requires Grounded(cfg, h, p)
    ensures Grounded(cfg, Then(h, t), p)
  {
    var i :| 0 <= i < |h| && Binds(cfg, h[i], p);
    assert Then(h, t)[i] == h[i];
  }

  lemma ClearedExtend(cfg: Config, h: Commits, t: Store, a: Id, startedAt: Instant)
    requires Cleared(cfg, h, a, startedAt)
    ensures Cleared(cfg, Then(h, t), a, startedAt)
  {
    var i :| 0 <= i < |h| && Clears(cfg, h[i], a, startedAt);
    assert Then(h, t)[i] == h[i];
  }

  /** The decisions and the action executions a transaction adds. */
  ghost predicate AddsOnly(cfg: Config, s: Store, snap: Store, x: Transaction, t: Store)
  {
    && (forall a | a in t.approvals ::
          || (a in s.approvals && t.approvals[a] == s.approvals[a])
          || (x.Decide? && DecisionAnswerOf(cfg, snap, x.decisionRequest) == Records(t.approvals[a])))
    && forall a | a in t.actionExecutions ::
      || (a in s.actionExecutions && t.actionExecutions[a].startedAt == s.actionExecutions[a].startedAt)
      || (x.BeginExecution? && ExecuteAnswerOf(cfg, snap, x.executeRequest).Begins?
          && x.executeRequest.actionId == a && t.actionExecutions[a].startedAt == x.executeRequest.now)
  }

  lemma EffectAddsOnly(cfg: Config, s: Store, snap: Store, x: Transaction, t: Store)
    requires Effect(cfg, s, snap, x, t)
    ensures AddsOnly(cfg, s, snap, x, t)
  {
    if x.BeginExecution? {
      BeginsExecuting(cfg, snap, x.executeRequest);
      ExecuteAddsOnly(cfg, s, x.executeRequest, ExecuteAnswerOf(cfg, snap, x.executeRequest), t);
    }
  }

  lemma ExecuteAddsOnly(cfg: Config, s: Store, q: ExecuteRequest, answer: ExecuteAnswer, t: Store)
    requires ExecuteEffect(cfg, s, q, answer, t)
    requires answer.Begins? ==> answer.record.actionId == q.actionId && answer.record.startedAt == q.now
    ensures t.approvals == s.approvals
    ensures forall a | a in t.actionExecutions ::
              || (a in s.actionExecutions && t.actionExecutions[a].startedAt == s.actionExecutions[a].startedAt)
              || (answer.Begins? && a == q.actionId && t.actionExecutions[a].startedAt == q.now)
  {
  }

  lemma BeginCleared(cfg: Config, s: Store, q: ExecuteRequest)
    requires ExecuteAnswerOf(cfg, s, q).Begins?
    ensures Clears(cfg, s, q.actionId, q.now)
  {
    BeginsClears(cfg, s, q);
  }

  lemma DecisionGrounded(cfg: Config, h: Commits, snap: Store, q: DecisionRequest, t: Store, p: ApprovalRecord)
    requires snap in h && DecisionAnswerOf(cfg, snap, q) == Records(p)
    ensures Grounded(cfg, Then(h, t), p)
  {
    var k :| 0 <= k < |h| && h[k] == snap;
    assert Then(h, t)[k] == snap;
    RecordsGrounds(cfg, snap, q);
  }

  lemma ExecutionCleared(cfg: Config, h: Commits, snap: Store, q: ExecuteRequest, t: Store)
    requires snap in h && ExecuteAnswerOf(cfg, snap, q).Begins?
    ensures Cleared(cfg, Then(h, t), q.actionId, q.now)
  {
    var k :| 0 <= k < |h| && h[k] == snap;
    assert Then(h, t)[k] == snap;
    BeginCleared(cfg, snap, q);
  }

  lemma GovernedByDurable(cfg: Config, h: Commits, snap: Store, x: Transaction, t: Store)
    requires Governed(cfg, h) && snap in h && AddsOnly(cfg, Current(h), snap, x, t)
    ensures Governed(cfg, Then(h, t))
  {
    var s := Current(h);
    assert Current(Then(h, t)) == t;
    forall a | a in t.approvals ensures Grounded(cfg, Then(h, t), t.approvals[a]) {
      if a in s.approvals && t.approvals[a] == s.approvals[a] {
        GroundedExtend(cfg, h, t, s.approvals[a]);
      } else {
        DecisionGrounded(cfg, h, snap, x.decisionRequest, t, t.approvals[a]);
      }
    }
    forall a | a in t.actionExecutions ensures Cleared(cfg, Then(h, t), a, t.actionExecutions[a].startedAt) {
      if a in s.actionExecutions && t.actionExecutions[a].startedAt == s.actionExecutions[a].startedAt {
        ClearedExtend(cfg, h, t, a, s.actionExecutions[a].startedAt);
      } else {
        ExecutionCleared(cfg, h, snap, x.executeRequest, t);
      }
    }
  }

  lemma GovernedByTampering(cfg: Config, h: Commits, t: Store)
    requires Governed(cfg, h)
    requires t.approvals == Current(h).approvals && t.actionExecutions == Current(h).actionExecutions
    ensures Governed(cfg, Then(h, t))
  {
    var s := Current(h);
    assert Current(Then(h, t)) == t;
    forall a | a in s.approvals ensures Grounded(cfg, Then(h, t), s.approvals[a]) {
      GroundedExtend(cfg, h, t, s.approvals[a]);
    }
    forall a | a in s.actionExecutions ensures Cleared(cfg, Then(h, t), a, s.actionExecutions[a].startedAt) {
      ClearedExtend(cfg, h, t, a, s.actionExecutions[a].startedAt);
    }
  }

  lemma ExtendGoverned(cfg: Config, h: Commits, ev: Event)
    requires Sound(h) && Governed(cfg, h)
    ensures Governed(cfg, Extend(cfg, h, ev))
  {
    match ev
    case Attempted(x, lag, fault) =>
      if Enabled(h, x, lag) {
        var s, snap := Current(h), Snapshot(h, lag);
        assert Kept(snap) && Grows(snap, s);
        AttemptEffect(cfg, s, snap, x, fault);
        var (ending, t) := Attempt(cfg, s, snap, x, fault);
        if ending == Durable {
          EffectAddsOnly(cfg, s, snap, x, t);
          GovernedByDurable(cfg, h, snap, x, t);
        }
      }
    case Tampered(a, row) =>
      if a in Current(h).actions && row.executionId in Current(h).executions {
        GovernedByTampering(cfg, h, Current(h).(actions := Current(h).actions[a := row]));
      }
  }

  lemma {:induction false} EveryHistoryGoverned(cfg: Config, evs: seq<Event>)
    ensures Governed(cfg, Play(cfg, evs))
  {
    if evs == [] {
    } else {
      EveryHistorySound(cfg, evs[..|evs| - 1]);
      EveryHistoryGoverned(cfg, evs[..|evs| - 1]);
      ExtendGoverned(cfg, Play(cfg, evs[..|evs| - 1]), evs[|evs| - 1]);
    }
  }

  // ---- The guarantees -----------------------------------------------------------------------------------

  /** Why an action execution exists: one decision, an approval by an authorized reviewer,
      taken on a row with this digest and policy version, and an execution started inside its
      lifetime from a row with the same digest and policy version that its result recommends. */
  ghost predicate Justified(cfg: Config, h: Commits, a: Id)
    requires a in Current(h).actionExecutions
  {
    var s := Current(h);
    && a in s.approvals && DecisionCount(s.audit, a) == 1
    && s.approvals[a].decision.Approve? && s.approvals[a].reviewerId in cfg.reviewers
    && s.actionExecutions[a].startedAt < s.approvals[a].decidedAt + cfg.lifetime
    && exists i, j | 0 <= i < |h| && 0 <= j < |h| ::
      Binds(cfg, h[i], s.approvals[a]) && Clears(cfg, h[j], a, s.actionExecutions[a].startedAt)
      && h[j].approvals[a] == s.approvals[a]
  }

  /** A state that clears the action holds the approval that is still stored now. */
  lemma ClearedBefore(cfg: Config, h: Commits, a: Id, startedAt: Instant) returns (j: nat)
    requires Sound(h) && Cleared(cfg, h, a, startedAt)
    ensures j < |h| && Clears(cfg, h[j], a, startedAt)
    ensures a in h[j].approvals && a in Current(h).approvals && h[j].approvals[a] == Current(h).approvals[a]
  {
    j :| 0 <= j < |h| && Clears(cfg, h[j], a, startedAt);
    assert Grows(h[j], Current(h));
  }

  lemma OneDecision(h: Commits, a: Id)
    requires Sound(h)
    ensures DecisionCount(Current(h).audit, a) == if a in Current(h).approvals then 1 else 0
  {
    assert Kept(Current(h));
  }

  lemma DecidedBefore(cfg: Config, h: Commits, p: ApprovalRecord) returns (i: nat)
    requires Grounded(cfg, h, p)
    ensures i < |h| && Binds(cfg, h[i], p)
  {
    i :| 0 <= i < |h| && Binds(cfg, h[i], p);
  }

  /** A cleared action's approval is still open. */
  lemma ClearedIsOpen(cfg: Config, h: Commits, s: Store, a: Id, startedAt: Instant)
    requires Clears(cfg, s, a, startedAt) && Grounded(cfg, h, s.approvals[a])
    ensures var p := s.approvals[a]; p.decision.Approve? && p.reviewerId in cfg.reviewers && startedAt < p.decidedAt + cfg.lifetime
  {
  }

  lemma JustifiedIn(cfg: Config, h: Commits, a: Id)
    requires Sound(h) && Governed(cfg, h) && a in Current(h).actionExecutions
    ensures Justified(cfg, h, a)
  {
    var j := ClearedBefore(cfg, h, a, Current(h).actionExecutions[a].startedAt);
    var i := DecidedBefore(cfg, h, Current(h).approvals[a]);
    ClearedIsOpen(cfg, h, h[j], a, Current(h).actionExecutions[a].startedAt);
    OneDecision(h, a);
  }

  /** Every action execution in every history is justified. */
  lemma ExecutionsAreJustified(cfg: Config, evs: seq<Event>, a: Id)
    requires a in Current(Play(cfg, evs)).actionExecutions
    ensures Justified(cfg, Play(cfg, evs), a)
  {
    EveryHistorySound(cfg, evs);
    EveryHistoryGoverned(cfg, evs);
    JustifiedIn(cfg, Play(cfg, evs), a);
  }

  /** What runs is what was decided: the row a reviewer decided on and the row that was
      executed have the same hashed text, and the same material when both are JSON trees. */
  lemma ExecutedMaterialWasDecided(cfg: Config, evs: seq<Event>, a: Id)
    requires a in Current(Play(cfg, evs)).actionExecutions && Injective(cfg.sha)
    ensures var h := Play(cfg, evs);
      exists i, j | 0 <= i < |h| && 0 <= j < |h| ::
        && Clears(cfg, h[j], a, Current(h).actionExecutions[a].startedAt)
        && a in h[i].actions && DecidedAndExecuted(h[i].actions[a].action.material, h[j].actions[a].action.material)
  {
    EveryHistorySound(cfg, evs);
    EveryHistoryGoverned(cfg, evs);
    MaterialIn(cfg, Play(cfg, evs), a);
  }

  lemma MaterialIn(cfg: Config, h: Commits, a: Id)
    requires Sound(h) && Governed(cfg, h) && a in Current(h).actionExecutions && Injective(cfg.sha)
    ensures exists i, j | 0 <= i < |h| && 0 <= j < |h| ::
        && Clears(cfg, h[j], a, Current(h).actionExecutions[a].startedAt)
        && a in h[i].actions && DecidedAndExecuted(h[i].actions[a].action.material, h[j].actions[a].action.material)
  {
    var s := Current(h);
    JustifiedIn(cfg, h, a);
    assert Kept(s) && s.approvals[a].actionId == a;
    var i, j :| 0 <= i < |h| && 0 <= j < |h| && Binds(cfg, h[i], s.approvals[a])
      && Clears(cfg, h[j], a, s.actionExecutions[a].startedAt) && h[j].approvals[a] == s.approvals[a];
    EqualDigests(cfg.sha, h[i].actions[a].action.material, h[j].actions[a].action.material);
  }

  ghost predicate DecidedAndExecuted(decided: Material, executed: Material)
  {
    && PreHash(decided) == PreHash(executed)
    && (ValidMaterial(decided) && ValidMaterial(executed) ==> SameMaterial(decided, executed))
  }

  lemma EqualDigests(sha: Hash, x: Material, y: Material)
    requires Injective(sha) && Digest(sha, x) == Digest(sha, y)
    ensures DecidedAndExecuted(x, y)
  {
    assert sha(PreHash(x)) == Digest(sha, x)[7..] == Digest(sha, y)[7..] == sha(PreHash(y));
    if ValidMaterial(x) && ValidMaterial(y) {
      PreHashFaithful(x, y);
    }
  }

  /** A rejected action is never executed, before or after the rejection. */
  lemma RejectedNeverExecuted(cfg: Config, evs: seq<Event>, i: nat, j: nat, a: Id)
    requires var h := Play(cfg, evs);
      i < |h| && j < |h| && a in h[i].approvals && h[i].approvals[a].decision.Reject?
    ensures a !in Play(cfg, evs)[j].actionExecutions
  {
    var h := Play(cfg, evs);
    EveryHistorySound(cfg, evs);
    assert Grows(h[i], Current(h)) && Grows(h[j], Current(h));
    if a in h[j].actionExecutions {
      ExecutionsAreJustified(cfg, evs, a);
    }
  }

  /** Once an action has an execution no attempt, from whatever state it read, adds another
      or changes the one there is. */
  lemma NoSecondExecution(cfg: Config, s: Store, snap: Store, q: ExecuteRequest, fault: bool)
    requires q.actionId in s.actionExecutions
    ensures var (ending, t) := Attempt(cfg, s, snap, BeginExecution(q), fault);
      && t.actionExecutions == s.actionExecutions
      && (ExecuteAnswerOf(cfg, snap, q).Begins? ==> ending == Aborted)
  {
    if !fault {
      BeginsExecuting(cfg, snap, q);
      BeginAttemptEffect(cfg, s, snap, q);
      SecondBegin(cfg, s, q, ExecuteAnswerOf(cfg, snap, q));
    }
  }

  lemma SecondBegin(cfg: Config, s: Store, q: ExecuteRequest, answer: ExecuteAnswer)
    requires q.actionId in s.actionExecutions
    requires answer.Begins? ==> answer.record.actionId == q.actionId
    ensures forall t :: ExecuteEffect(cfg, s, q, answer, t) ==> answer.Denies? && t.actionExecutions == s.actionExecutions
  {
  }

  /** Repeating a recorded decision returns it exactly when the reviewer identifier and the
      reason carry no surrounding white space; otherwise the retry is a conflict. */
  lemma DecisionRetry(cfg: Config, s: Store, q: DecisionRequest, t: Store, r: DecisionRequest)
    requires DecisionAnswerOf(cfg, s, q).Records?
    requires q.actionId in t.approvals && t.approvals[q.actionId] == DecisionAnswerOf(cfg, s, q).approval
    requires q.actionId in t.actions && RequiresApproval(cfg, t, t.actions[q.actionId])
    requires r == q.(now := r.now, approvalId := r.approvalId)
    ensures DecisionAnswerOf(cfg, t, r) ==
      if Stripped(q.reviewerId) && Stripped(q.reason) then Repeats(t.approvals[q.actionId])
      else Refuses(DecisionConflict)
  {
    StripFixpoint(q.reviewerId);
    StripFixpoint(q.reason);
  }

  /** A reason a reviewer can well type: it is stored without its last character, so sending
      the same request again is refused. */
  lemma PaddedReasonConflicts(cfg: Config, s: Store, q: DecisionRequest, t: Store, now: Instant)
    requires DecisionAnswerOf(cfg, s, q).Records? && q.reason == "confirmed "
    requires q.actionId in t.approvals && t.approvals[q.actionId] == DecisionAnswerOf(cfg, s, q).approval
    requires q.actionId in t.actions && RequiresApproval(cfg, t, t.actions[q.actionId])
    ensures t.approvals[q.actionId].reason == "confirmed"
    ensures DecisionAnswerOf(cfg, t, q.(now := now)) == Refuses(DecisionConflict)
  {
    assert StripRight(q.reason) == StripRight("confirmed") == "confirmed" by {
      assert q.reason[..|q.reason| - 1] == "confirmed";
    }
    DecisionRetry(cfg, s, q, t, q.(now := now));
  }

  /** Any other decision on a decided action is refused, so there is never a second one. */
  lemma OtherDecisionRefused(cfg: Config, s: Store, q: DecisionRequest)
    requires q.actionId in s.approvals
    requires s.approvals[q.actionId].decision != q.decision || s.approvals[q.actionId].reviewerId != q.reviewerId
      || s.approvals[q.actionId].reason != q.reason
    ensures DecisionAnswerOf(cfg, s, q).Refuses?
    ensures forall current, fault: bool :: Attempt(cfg, current, s, Decide(q), fault).1 == current
  {
  }

  /** Completing an execution does not test the state it leaves: it follows the lifecycle table
      exactly when the row is still EXECUTING, and a late success overwrites a recovered
      failure. */
  lemma FinishFollowsTableExactly(s: Store, r: ActionExecutionRecord, x: Option<Simulation>, now: Instant, t: Store)
    requires FinishEffect(s, r, x, now, t)
    requires s.actionExecutions[r.actionId].state in {Executing, Succeeded, Failed}
    ensures t.actionExecutions[r.actionId].state in ActionSuccessors(s.actionExecutions[r.actionId].state)
       <==> s.actionExecutions[r.actionId].state == Executing
    ensures x.Some? ==> t.actionExecutions[r.actionId].state == Succeeded
  {
  }
}
