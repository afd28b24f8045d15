/** Committed histories: every interleaving of transactions, each reading any state already
    committed, any of them failing, with rows of proposed actions rewritten in between; and
    what every such history keeps. */
module History {
  import opened Base
  import opened Timestamps
  import opened Actions
  import opened Triage
  import opened Policy
  import opened Store
  import opened Workflow
  import opened Effects

  datatype Event =
    | Attempted(transaction: Transaction, lag: nat, fault: bool)
    | Tampered(actionId: Id, row: ActionRow)

  /** The states committed so far, the empty store first. */
  type Commits = h: seq<Store> | h != [] witness [EMPTY_STORE]

  /** The state a transaction reads: the current one, or one `lag` commits older. */
  function Snapshot(h: Commits, lag: nat): Store
  {
    if lag < |h| then h[|h| - 1 - lag] else h[0]
  }

  function Current(h: Commits): Store
  {
    h[|h| - 1]
  }

  /** The history after one more commit. */
  function Then(h: Commits, t: Store): Commits
  {
    h + [t]
  }

  ghost predicate Enabled(h: Commits, x: Transaction, lag: nat)
  {
    lag < |h| && Answered(Snapshot(h, lag), x) && RowsRead(Snapshot(h, lag), x)
  }

  ghost predicate EnabledNow(h: Commits, x: Transaction)
  {
    Enabled(h, x, 0)
  }

  lemma AnsweredNow(h: Commits, x: Transaction)
    requires Answered(Current(h), x) && RowsRead(Current(h), x)
    ensures EnabledNow(h, x)
  {
  }

  /** How a transaction ends in this history. */
  ghost function EndingOf(cfg: Config, h: Commits, x: Transaction, lag: nat, fault: bool): Ending
  {
    if Enabled(h, x, lag) then Attempt(cfg, Current(h), Snapshot(h, lag), x, fault).0 else Left
  }

  ghost function Extend(cfg: Config, h: Commits, ev: Event): (r: Commits)
    ensures h <= r
  {
    match ev
    case Attempted(x, lag, fault) =>
      if EndingOf(cfg, h, x, lag, fault) == Durable && Enabled(h, x, lag) then
        h + [Attempt(cfg, Current(h), Snapshot(h, lag), x, fault).1]
      else h
    case Tampered(a, row) =>
      if a in Current(h).actions && row.executionId in Current(h).executions then
        h + [Current(h).(actions := Current(h).actions[a := row])]
      else h
  }

  ghost function Play(cfg: Config, evs: seq<Event>): (h: Commits)
  {
    if evs == [] then [EMPTY_STORE] else Extend(cfg, Play(cfg, evs[..|evs| - 1]), evs[|evs| - 1])
  }

  // ---- Folding the audit trail -----------------------------------------------------------------------

  /** The longer log reports these runs failed and everything else as the shorter one does. */
  ghost predicate FailsRuns(log: seq<AuditEvent>, more: seq<AuditEvent>, ids: seq<Id>)
  {
    && (forall e :: FoldExecution(more, e) == if e in ids then Some(TriageFailed) else FoldExecution(log, e))
    && (forall a :: FoldApproval(more, a) == FoldApproval(log, a))
    && (forall a :: FoldAction(more, a) == FoldAction(log, a))
    && forall a :: DecisionCount(more, a) == DecisionCount(log, a)
  }

  lemma FailsOneMore(log: seq<AuditEvent>, more: seq<AuditEvent>, ids: seq<Id>, e: Id)
    requires FailsRuns(log, more, ids)
    ensures FailsRuns(log, more + [StaleExecutionRecovered(e)], ids + [e])
  {
    FoldAppend(more, StaleExecutionRecovered(e));
  }

  lemma {:induction false} FoldRunEvents(log: seq<AuditEvent>, ids: seq<Id>)
    ensures FailsRuns(log, log + RunEvents(ids), ids)
  {
    if ids == [] {
      assert log + RunEvents(ids) == log;
    } else {
      var init, e := ids[..|ids| - 1], ids[|ids| - 1];
      FoldRunEvents(log, init);
      FailsOneMore(log, log + RunEvents(init), init, e);
      assert ids == init + [e];
      assert log + RunEvents(ids) == (log + RunEvents(init)) + [StaleExecutionRecovered(e)];
    }
  }

  lemma ActionEventsStep(log: seq<AuditEvent>, read: Rows, init: seq<Id>, a: Id)
    requires a in read && read[a].actionId == a && forall k | k in init :: k in read
    requires forall k | k in init + [a] :: k in read
    ensures log + ActionEvents(read, init + [a])
         == (log + ActionEvents(read, init)) + [StaleSimulationRecovered(a, read[a].actionExecutionId)]
  {
  }

  /** The same for action executions. */
  ghost predicate ExpiresActions(log: seq<AuditEvent>, more: seq<AuditEvent>, ids: seq<Id>)
  {
    && (forall e :: FoldExecution(more, e) == FoldExecution(log, e))
    && (forall a :: FoldApproval(more, a) == FoldApproval(log, a))
    && (forall a :: FoldAction(more, a) == if a in ids then Some(Failed) else FoldAction(log, a))
    && forall a :: DecisionCount(more, a) == DecisionCount(log, a)
  }

  lemma ExpiresOneMore(log: seq<AuditEvent>, more: seq<AuditEvent>, ids: seq<Id>, a: Id, x: Id)
    requires ExpiresActions(log, more, ids)
    ensures ExpiresActions(log, more + [StaleSimulationRecovered(a, x)], ids + [a])
  {
    FoldAppend(more, StaleSimulationRecovered(a, x));
  }

  lemma {:induction false} FoldActionEvents(log: seq<AuditEvent>, read: Rows, ids: seq<Id>)
    requires forall a | a in ids :: a in read && read[a].actionId == a
    ensures ExpiresActions(log, log + ActionEvents(read, ids), ids)
  {
    if ids == [] {
      assert log + ActionEvents(read, ids) == log;
    } else {
      var init, a := ids[..|ids| - 1], ids[|ids| - 1];
      assert ids == init + [a];
      FoldActionEvents(log, read, init);
      ActionEventsStep(log, read, init, a);
      ExpiresOneMore(log, log + ActionEvents(read, init), init, a, read[a].actionExecutionId);
    }
  }

  // ---- One transaction keeps the agreement -------------------------------------------------------------

  /** A step that reports exactly the states it changes. */
  ghost predicate Reports(s: Store, v: AuditEvent, t: Store)
  {
    && (forall e :: StateOf(t, e) == if ExecutionReport(v, e).Some? then ExecutionReport(v, e) else StateOf(s, e))
    && (forall a :: DecisionOf(t, a) == if ApprovalReport(v, a).Some? then ApprovalReport(v, a) else DecisionOf(s, a))
    && (forall a :: ActionStateOf(t, a) == if ActionReport(v, a).Some? then ActionReport(v, a) else ActionStateOf(s, a))
    && (forall a :: ApprovalReport(v, a).Some? ==> a !in s.approvals && a in t.approvals)
    && (forall a :: ApprovalReport(v, a).None? ==> (a in t.approvals <==> a in s.approvals))
  }

  lemma ReportedStep(s: Store, v: AuditEvent, t: Store)
    requires AuditAgrees(s) && Reports(s, v, t) && t.audit == s.audit + [v]
    ensures AuditAgrees(t)
  {
    FoldAppend(s.audit, v);
  }

  /** The first of the two final events reports nothing. */
  lemma PolicyReported(s: Store, e: Id, codes: seq<PolicyReason>, disposition: Disposition)
    ensures var v := PolicyEnforced(e, codes, disposition); Reports(s, v, s.(audit := s.audit + [v]))
  {
  }

  /** The second reports the run's state. */
  lemma TerminalReported(s: Store, snap: Store, mid: Store, e: Id, d: PolicyDecision, now: Instant, t: Store)
    requires FinalEffect(s, snap, e, d, now, t) && mid == s.(audit := mid.audit)
    ensures Reports(mid, ExecutionTerminal(e, TerminalState(d.result)), t)
  {
  }

  lemma FinalAgrees(s: Store, snap: Store, e: Id, d: PolicyDecision, now: Instant, t: Store)
    requires AuditAgrees(s) && FinalEffect(s, snap, e, d, now, t)
    ensures AuditAgrees(t)
  {
    var v, w := PolicyEnforced(e, d.reasonCodes, d.result.disposition), ExecutionTerminal(e, TerminalState(d.result));
    var mid := s.(audit := s.audit + [v]);
    PolicyReported(s, e, d.reasonCodes, d.result.disposition);
    ReportedStep(s, v, mid);
    TerminalReported(s, snap, mid, e, d, now, t);
    assert s.audit + [v, w] == mid.audit + [w];
    ReportedStep(mid, w, t);
  }

  lemma RunRecoveryAgrees(s: Store, ids: seq<Id>, now: Instant, t: Store)
    requires AuditAgrees(s) && RunRecoveryEffect(s, ids, now, t)
    ensures AuditAgrees(t)
  {
    FoldRunEvents(s.audit, ids);
  }

  lemma ActionRecoveryAgrees(s: Store, snap: Store, ids: seq<Id>, now: Instant, t: Store)
    requires AuditAgrees(s) && ActionRecoveryEffect(s, snap, ids, now, t)
    ensures AuditAgrees(t)
  {
    FoldActionEvents(s.audit, snap.actionExecutions, ids);
  }

  lemma StartAgrees(s: Store, snap: Store, alert: SecurityAlert, key: Id, e: Id, now: Instant, t: Store)
    requires AuditAgrees(s) && StartEffect(s, snap, alert, key, e, now, t)
    ensures AuditAgrees(t)
  {
    ReportedStep(s, ExecutionStarted(e), t);
  }

  lemma FailureAgrees(s: Store, snap: Store, e: Id, category: FailureCategory, now: Instant, t: Store)
    requires AuditAgrees(s) && FailureEffect(s, snap, e, category, now, t)
    ensures AuditAgrees(t)
  {
    ReportedStep(s, PersistenceFailed(e, category), t);
  }

  lemma ToolAgrees(s: Store, row: InvocationRow, t: Store)
    requires AuditAgrees(s) && ToolEffect(s, row, t)
    ensures AuditAgrees(t)
  {
    var r := row.record;
    ReportedStep(s, ToolInvoked(r.executionId, r.callId, r.authorization, r.outcome), t);
  }

  lemma DecisionAgrees(s: Store, p: ApprovalRecord, t: Store)
    requires AuditAgrees(s) && DecisionEffect(s, p, t)
    ensures AuditAgrees(t)
  {
    ReportedStep(s, ActionDecided(p.actionId, p.approvalId, p.actionDigest, p.decision), t);
  }

  lemma ExecuteAgrees(cfg: Config, s: Store, q: ExecuteRequest, answer: ExecuteAnswer, t: Store)
    requires AuditAgrees(s) && ExecuteEffect(cfg, s, q, answer, t)
    requires answer.Begins? ==> answer.record.state == Executing
    ensures AuditAgrees(t)
  {
    if answer.Denies? {
      ReportedStep(s, ExecutionDenied(q.actionId, answer.digest), t);
    } else {
      ReportedStep(s, SimulationStarted(answer.record.actionId, Digest(cfg.sha, answer.row.action.material)), t);
    }
  }

  lemma FinishAgrees(s: Store, r: ActionExecutionRecord, x: Option<Simulation>, now: Instant, t: Store)
    requires AuditAgrees(s) && FinishEffect(s, r, x, now, t)
    ensures AuditAgrees(t)
  {
    ReportedStep(s, if x.Some? then SimulationSucceeded(r.actionId) else SimulationFailed(r.actionId), t);
  }

  lemma BeginsExecuting(cfg: Config, snap: Store, q: ExecuteRequest)
    ensures ExecuteAnswerOf(cfg, snap, q).Begins? ==>
              ExecuteAnswerOf(cfg, snap, q).record == ActionExecutionRecord(
                q.actionExecutionId, q.actionId, Executing, q.now, None, None, None, "SIMULATED")
  {
  }

  /** Every transaction keeps the audit trail and the stored states in agreement. */
  lemma EffectAgrees(cfg: Config, s: Store, snap: Store, x: Transaction, t: Store)
    requires AuditAgrees(s) && Effect(cfg, s, snap, x, t)
    ensures AuditAgrees(t)
  {
    match x
    case StartRun(alert, key, e, now) => StartAgrees(s, snap, alert, ParseIdentifier(key).value, e, now, t);
    case RecordTool(record, result) => ToolAgrees(s, InvocationRow(record, result), t);
    case FinishRun(e, d, now) => FinalAgrees(s, snap, e, d, now, t);
    case FailRun(e, category, now) => FailureAgrees(s, snap, e, category, now, t);
    case Decide(q) => DecisionAgrees(s, DecisionAnswerOf(cfg, snap, q).approval, t);
    case BeginExecution(q) =>
      BeginsExecuting(cfg, snap, q);
      ExecuteAgrees(cfg, s, q, ExecuteAnswerOf(cfg, snap, q), t);
    case FinishExecution(r, y, now) => FinishAgrees(s, r, y, now, t);
    case RecoverRuns(now, _, ids) => RunRecoveryAgrees(s, ids, now, t);
    case RecoverActions(now, _, ids) => ActionRecoveryAgrees(s, snap, ids, now, t);
  }

  // ---- Every history -----------------------------------------------------------------------------------

  ghost predicate Kept(s: Store)
  {
    Consistent(s) && AuditAgrees(s)
  }

  /** What every history keeps: keys and references, the agreement of audit and state, and
      growth from each state to every later one. */
  ghost predicate Sound(h: Commits)
  {
    && (forall i | 0 <= i < |h| :: Kept(h[i]))
    && forall i, j | 0 <= i <= j < |h| :: Grows(h[i], h[j])
  }

  /** A transaction may read any committed state, and is then durable exactly when no fault
      prevents it and the current state accepts it. */
  lemma ReadsAnyCommit(cfg: Config, h: Commits, i: nat, x: Transaction, fault: bool)
    requires Sound(h) && i < |h| && Answered(h[i], x) && RowsRead(h[i], x)
    ensures EndingOf(cfg, h, x, |h| - 1 - i, fault) == Durable <==> !fault && Accepts(cfg, Current(h), h[i], x)
  {
    assert Kept(h[i]) && Grows(h[i], Current(h));
    DurableExactly(cfg, Current(h), h[i], x, fault);
  }

  /** And any action row may be rewritten, to any row of a stored execution. */
  lemma RewritesAnyRow(cfg: Config, h: Commits, a: Id, row: ActionRow)
    requires a in Current(h).actions && row.executionId in Current(h).executions
    ensures var g := Extend(cfg, h, Tampered(a, row));
      |g| == |h| + 1 && a in Current(g).actions && Current(g).actions[a] == row
      && forall b | b in Current(h).actions && b != a :: b in Current(g).actions && Current(g).actions[b] == Current(h).actions[b]
  {
  }

  lemma SoundExtend(h: Commits, t: Store)
    requires Sound(h) && Kept(t) && Grows(Current(h), t)
    ensures Sound(Then(h, t))
  {
    var n, r := |h|, Then(h, t);
    forall i | 0 <= i <= n ensures Grows(r[i], t) {
      if i == n {
        GrowsReflexive(t);
      } else {
        assert Grows(h[i], h[n - 1]);
        GrowsTransitive(h[i], h[n - 1], t);
      }
    }
    forall i, j | 0 <= i <= j <= n ensures Grows(r[i], r[j]) {
      if j < n {
        assert Grows(h[i], h[j]);
      }
    }
  }

  lemma AttemptGrows(cfg: Config, s: Store, snap: Store, x: Transaction, fault: bool)
    ensures Grows(s, Attempt(cfg, s, snap, x, fault).1)
  {
    GrowsReflexive(s);
    if !fault && Plan(cfg, snap, x).Some? {
      ApplyAllGrows(s, Plan(cfg, snap, x).value);
    }
  }

  lemma AttemptConsistent(cfg: Config, s: Store, snap: Store, x: Transaction, fault: bool)
    requires Consistent(s)
    ensures Consistent(Attempt(cfg, s, snap, x, fault).1)
  {
    if !fault && Plan(cfg, snap, x).Some? {
      ApplyAllConsistent(s, Plan(cfg, snap, x).value);
    }
  }

  lemma AttemptKept(cfg: Config, h: Commits, x: Transaction, lag: nat, fault: bool)
    requires Sound(h) && Enabled(h, x, lag)
    ensures var t := Attempt(cfg, Current(h), Snapshot(h, lag), x, fault).1;
      Kept(t) && Grows(Current(h), t)
  {
    var s, snap := Current(h), Snapshot(h, lag);
    assert Kept(s) && Kept(snap) && Grows(snap, s);
    AttemptEffect(cfg, s, snap, x, fault);
    AttemptGrows(cfg, s, snap, x, fault);
    AttemptConsistent(cfg, s, snap, x, fault);
    var (ending, t) := Attempt(cfg, s, snap, x, fault);
    if ending == Durable {
      EffectAgrees(cfg, s, snap, x, t);
    }
  }

  lemma TamperAgrees(s: Store, a: Id, row: ActionRow)
    requires AuditAgrees(s)
    ensures AuditAgrees(s.(actions := s.actions[a := row]))
  {
    var t := s.(actions := s.actions[a := row]);
    assert forall e :: StateOf(t, e) == StateOf(s, e);
    assert forall k :: DecisionOf(t, k) == DecisionOf(s, k) && ActionStateOf(t, k) == ActionStateOf(s, k);
  }

  lemma TamperConsistent(s: Store, a: Id, row: ActionRow)
    requires Consistent(s) && a in s.actions && row.executionId in s.executions
    ensures Consistent(s.(actions := s.actions[a := row]))
  {
    var t := s.(actions := s.actions[a := row]);
    assert ExecutionReferencesHold(t);
    assert ActionReferencesHold(t);
  }

  lemma TamperGrows(s: Store, a: Id, row: ActionRow)
    ensures Grows(s, s.(actions := s.actions[a := row]))
  {
  }

  lemma TamperKept(s: Store, a: Id, row: ActionRow)
    requires Kept(s) && a in s.actions && row.executionId in s.executions
    ensures var t := s.(actions := s.actions[a := row]); Kept(t) && Grows(s, t)
  {
    TamperAgrees(s, a, row);
    TamperConsistent(s, a, row);
    TamperGrows(s, a, row);
  }

  lemma ExtendSound(cfg: Config, h: Commits, ev: Event)
    requires Sound(h)
    ensures Sound(Extend(cfg, h, ev))
  {
    match ev
    case Attempted(x, lag, fault) =>
      if Enabled(h, x, lag) {
        AttemptKept(cfg, h, x, lag, fault);
        SoundExtend(h, Attempt(cfg, Current(h), Snapshot(h, lag), x, fault).1);
      }
    case Tampered(a, row) =>
      if a in Current(h).actions && row.executionId in Current(h).executions {
        TamperKept(Current(h), a, row);
        SoundExtend(h, Current(h).(actions := Current(h).actions[a := row]));
      }
  }

  /** In every interleaving of runs, decisions, executions and recoveries, whatever state each
      of them read and whichever of them failed, every committed state folds from its own
      audit trail, meets its keys and references, and only grows. */
  lemma {:induction false} EveryHistorySound(cfg: Config, evs: seq<Event>)
    ensures Sound(Play(cfg, evs))
  {
    if evs == [] {
      GrowsReflexive(EMPTY_STORE);
    } else {
      EveryHistorySound(cfg, evs[..|evs| - 1]);
      ExtendSound(cfg, Play(cfg, evs[..|evs| - 1]), evs[|evs| - 1]);
    }
  }
}
