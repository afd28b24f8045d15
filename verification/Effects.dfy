/** What each transaction does when its commit is durable: the whole next store. */
module Effects {
  import opened Base
  import opened Timestamps
  import opened Actions
  import opened Triage
  import opened Policy
  import opened Store
  import opened Workflow

  // ---- Multi-row writes ----------------------------------------------------------------------------

  /** The action table with the proposals of one result added. */
  function WithActions(table: map<Id, ActionRow>, e: Id, version: string, actions: seq<ActionProposal>)
    : map<Id, ActionRow>
  {
    if actions == [] then table
    else
      var a := actions[|actions| - 1];
      WithActions(table, e, version, actions[..|actions| - 1])[a.actionId := ActionRow(e, version, a)]
  }

  lemma {:induction false} WithActionsRows(table: map<Id, ActionRow>, e: Id, version: string, actions: seq<ActionProposal>)
    requires Distinct(ActionIds(actions))
    ensures var t := WithActions(table, e, version, actions);
      && (forall i | 0 <= i < |actions| ::
            actions[i].actionId in t && t[actions[i].actionId] == ActionRow(e, version, actions[i]))
      && (forall a | a in table && a !in ActionIds(actions) :: a in t && t[a] == table[a])
      && forall a | a in t :: a in table || a in ActionIds(actions)
  {
    if actions != [] {
      var n := |actions| - 1;
      var ids, init := ActionIds(actions), actions[..n];
      assert ActionIds(init) == ids[..n];
      WithActionsRows(table, e, version, init);
      assert ids == ids[..n] + [ids[n]];
      forall i | 0 <= i < n ensures actions[i].actionId != actions[n].actionId {
        assert ids[i] != ids[n];
      }
    }
  }

  /** Adding the proposals succeeds exactly when their identifiers are new and distinct. */
  lemma {:induction false} ActionWritesApply(s: Store, e: Id, version: string, actions: seq<ActionProposal>)
    requires e in s.executions
    ensures var r := ApplyAll(s, ActionWrites(e, version, actions));
      && (r.Some? <==> Distinct(ActionIds(actions)) && forall a | a in actions :: a.actionId !in s.actions)
      && (r.Some? ==> r.value == s.(actions := WithActions(s.actions, e, version, actions)))
  {
    if actions != [] {
      var n := |actions| - 1;
      var init, last := actions[..n], actions[n];
      ActionWritesApply(s, e, version, init);
      ApplyAllConcat(s, ActionWrites(e, version, init), [AddAction(ActionRow(e, version, last))]);
      ActionIdsSplit(actions);
      if ApplyAll(s, ActionWrites(e, version, init)).Some? {
        WithActionsRows(s.actions, e, version, init);
        var mid := s.(actions := WithActions(s.actions, e, version, init));
        ApplyOne(mid, AddAction(ActionRow(e, version, last)));
      }
    }
  }

  lemma ActionIdsSplit(actions: seq<ActionProposal>)
    requires actions != []
    ensures var n := |actions| - 1;
      && (Distinct(ActionIds(actions)) <==>
            Distinct(ActionIds(actions[..n])) && actions[n].actionId !in ActionIds(actions[..n]))
      && (forall a :: a in actions <==> a in actions[..n] || a == actions[n])
      && (forall id :: id in ActionIds(actions[..n]) <==> exists i :: 0 <= i < n && actions[i].actionId == id)
  {
    var n := |actions| - 1;
    var ids := ActionIds(actions);
    assert ActionIds(actions[..n]) == ids[..n];
    assert ids == ids[..n] + [ids[n]];
    if ids[n] in ids[..n] {
      var i :| 0 <= i < n && ids[i] == ids[n];
      assert !Distinct(ids);
    } else if Distinct(ids[..n]) {
      DistinctExtend(ids[..n], ids[n]);
    }
    if Distinct(ids) {
      DistinctPrefix(ids, n);
    }
    assert actions == actions[..n] + [actions[n]];
  }

  lemma ApplyOne(s: Store, w: Write)
    ensures ApplyAll(s, [w]) == ApplyWrite(s, w)
  {
    assert [w][1..] == [];
  }

  lemma ApplyTwo(s: Store, v: Write, w: Write)
    ensures ApplyAll(s, [v, w])
         == if Permitted(s, v) then ApplyWrite(Perform(s, v), w) else None
  {
    assert [v, w][1..] == [w];
    if Permitted(s, v) {
      ApplyOne(Perform(s, v), w);
    }
  }

  // ---- Recovery ------------------------------------------------------------------------------------------

  function FailedRuns(table: map<Id, ExecutionRow>, ids: seq<Id>, now: Instant): map<Id, ExecutionRow>
  {
    map e | e in table ::
      if e in ids then table[e].(state := TriageFailed, updatedAt := now, failure := Some(StaleExecution))
      else table[e]
  }

  function RunEvents(ids: seq<Id>): (r: seq<AuditEvent>)
    ensures |r| == |ids| && forall i | 0 <= i < |r| :: r[i] == StaleExecutionRecovered(ids[i])
  {
    seq(|ids|, i requires 0 <= i < |ids| => StaleExecutionRecovered(ids[i]))
  }

  lemma EventsExtend(log: seq<AuditEvent>, events: seq<AuditEvent>, v: AuditEvent)
    ensures log + events + [v] == log + (events + [v])
  {
  }

  lemma FailedRunsStep(table: map<Id, ExecutionRow>, ids: seq<Id>, e: Id, now: Instant)
    requires e in table
    ensures FailedRuns(table, ids + [e], now)
         == FailedRuns(table, ids, now)[e := FailedRuns(table, ids, now)[e].(
              state := TriageFailed, updatedAt := now, failure := Some(StaleExecution))]
  {
    assert forall k :: k in ids + [e] <==> k in ids || k == e;
  }

  lemma RunRecoveryStep(s: Store, ids: seq<Id>, e: Id, now: Instant)
    requires e in s.executions
    ensures var mid := s.(executions := FailedRuns(s.executions, ids, now), audit := s.audit + RunEvents(ids));
      ApplyAll(mid, [ReplaceExecution(e, TriageFailed, now, Some(StaleExecution)), AppendAudit(StaleExecutionRecovered(e))])
      == Some(s.(executions := FailedRuns(s.executions, ids + [e], now), audit := s.audit + RunEvents(ids + [e])))
  {
    var mid := s.(executions := FailedRuns(s.executions, ids, now), audit := s.audit + RunEvents(ids));
    ApplyTwo(mid, ReplaceExecution(e, TriageFailed, now, Some(StaleExecution)), AppendAudit(StaleExecutionRecovered(e)));
    FailedRunsStep(s.executions, ids, e, now);
    EventsExtend(s.audit, RunEvents(ids), StaleExecutionRecovered(e));
    assert RunEvents(ids + [e]) == RunEvents(ids) + [StaleExecutionRecovered(e)];
  }

  lemma {:induction false} RunRecoveryApplies(s: Store, ids: seq<Id>, now: Instant)
    requires forall e | e in ids :: e in s.executions
    ensures ApplyAll(s, RunRecoveryWrites(ids, now))
         == Some(s.(executions := FailedRuns(s.executions, ids, now), audit := s.audit + RunEvents(ids)))
  {
    if ids == [] {
      assert FailedRuns(s.executions, ids, now) == s.executions;
      assert s.audit + RunEvents(ids) == s.audit;
    } else {
      var n := |ids| - 1;
      var init, e := ids[..n], ids[n];
      assert ids == init + [e];
      RunRecoveryApplies(s, init, now);
      ApplyAllConcat(s, RunRecoveryWrites(init, now),
        [ReplaceExecution(e, TriageFailed, now, Some(StaleExecution)), AppendAudit(StaleExecutionRecovered(e))]);
      RunRecoveryStep(s, init, e, now);
    }
  }

  /** The columns a recovery writes, on the row that is there now; `read` is the row it read. */
  function ExpiredRow(row: ActionExecutionRecord, read: ActionExecutionRecord, now: Instant): ActionExecutionRecord
  {
    row.(state := Failed, completedAt := Some(now), outcome := Some("SIMULATED_RECOVERY_FAILURE"),
         failure := Some(StaleSimulatedAction), mode := read.mode)
  }

  type Rows = map<Id, ActionExecutionRecord>

  /** What the recovered rows were when they were read, and what is there now. */
  ghost predicate Reads(table: Rows, read: Rows, ids: seq<Id>)
  {
    && (forall a | a in ids :: a in read && a in table)
    && forall a | a in read && a in table ::
      read[a].actionId == a && table[a].actionExecutionId == read[a].actionExecutionId
  }

  function ExpiredRows(table: Rows, read: Rows, ids: seq<Id>, now: Instant): Rows
    requires forall a | a in ids :: a in read
  {
    map a | a in table :: if a in ids then ExpiredRow(table[a], read[a], now) else table[a]
  }

  function ActionEvents(read: Rows, ids: seq<Id>): (r: seq<AuditEvent>)
    requires forall a | a in ids :: a in read
    ensures |r| == |ids|
    ensures forall i | 0 <= i < |r| :: r[i] == StaleSimulationRecovered(read[ids[i]].actionId, read[ids[i]].actionExecutionId)
  {
    seq(|ids|, i requires 0 <= i < |ids| =>
      StaleSimulationRecovered(read[ids[i]].actionId, read[ids[i]].actionExecutionId))
  }

  lemma ExpiredRowsStep(table: Rows, read: Rows, ids: seq<Id>, a: Id, now: Instant)
    requires a in table && forall k | k in ids + [a] :: k in read
    requires forall k | k in ids :: k in read
    ensures ExpiredRows(table, read, ids + [a], now)
         == ExpiredRows(table, read, ids, now)[a := ExpiredRow(ExpiredRows(table, read, ids, now)[a], read[a], now)]
  {
    assert forall k :: k in ids + [a] <==> k in ids || k == a;
  }

  lemma ActionRecoveryStep(s: Store, read: Rows, ids: seq<Id>, a: Id, now: Instant)
    requires Reads(s.actionExecutions, read, ids + [a]) && Reads(s.actionExecutions, read, ids)
    requires a in read && a in s.actionExecutions
    ensures
      var mid := s.(actionExecutions := ExpiredRows(s.actionExecutions, read, ids, now),
                    audit := s.audit + ActionEvents(read, ids));
      var next := s.(actionExecutions := ExpiredRows(s.actionExecutions, read, ids + [a], now),
                     audit := s.audit + ActionEvents(read, ids + [a]));
      ApplyAll(mid, [ReplaceActionExecution(Expire(read[a], now)),
                     AppendAudit(StaleSimulationRecovered(read[a].actionId, read[a].actionExecutionId))]) == Some(next)
  {
    var mid := s.(actionExecutions := ExpiredRows(s.actionExecutions, read, ids, now),
                  audit := s.audit + ActionEvents(read, ids));
    var v := StaleSimulationRecovered(read[a].actionId, read[a].actionExecutionId);
    ApplyTwo(mid, ReplaceActionExecution(Expire(read[a], now)), AppendAudit(v));
    ExpiredRowsStep(s.actionExecutions, read, ids, a, now);
    EventsExtend(s.audit, ActionEvents(read, ids), v);
    assert ActionEvents(read, ids + [a]) == ActionEvents(read, ids) + [v];
  }

  lemma {:induction false} ActionRecoveryApplies(s: Store, snap: Store, ids: seq<Id>, now: Instant)
    requires Reads(s.actionExecutions, snap.actionExecutions, ids)
    ensures ApplyAll(s, ActionRecoveryWrites(snap, ids, now))
         == Some(s.(actionExecutions := ExpiredRows(s.actionExecutions, snap.actionExecutions, ids, now),
                    audit := s.audit + ActionEvents(snap.actionExecutions, ids)))
  {
    var read := snap.actionExecutions;
    if ids == [] {
      assert ExpiredRows(s.actionExecutions, read, ids, now) == s.actionExecutions;
      assert s.audit + ActionEvents(read, ids) == s.audit;
    } else {
      var n := |ids| - 1;
      var init, a := ids[..n], ids[n];
      assert ids == init + [a];
      ActionRecoveryApplies(s, snap, init, now);
      ApplyAllConcat(s, ActionRecoveryWrites(snap, init, now),
        [ReplaceActionExecution(Expire(read[a], now)),
         AppendAudit(StaleSimulationRecovered(read[a].actionId, read[a].actionExecutionId))]);
      ActionRecoveryStep(s, read, init, a, now);
    }
  }

  // ---- The next store, transaction by transaction --------------------------------------------------------

  /** A durable start: a new execution under a new key, and the alert when the snapshot had none. */
  ghost predicate StartEffect(s: Store, snap: Store, alert: SecurityAlert, key: Id, e: Id, now: Instant, t: Store)
  {
    && e !in s.executions && key !in s.keys
    && (alert.alertId in s.alerts <==> alert.alertId in snap.alerts)
    && t == s.(alerts := if alert.alertId in s.alerts then s.alerts else s.alerts[alert.alertId := alert],
               executions := s.executions[e := ExecutionRow(alert.alertId, Running, key, now, now, None)],
               keys := s.keys[key := e],
               audit := s.audit + [ExecutionStarted(e)])
  }

  ghost predicate ToolEffect(s: Store, row: InvocationRow, t: Store)
  {
    var r := row.record;
    && r.callId !in s.invocations && r.executionId in s.executions
    && t == s.(invocations := s.invocations[r.callId := row],
               audit := s.audit + [ToolInvoked(r.executionId, r.callId, r.authorization, r.outcome)])
  }

  ghost predicate FinalEffect(s: Store, snap: Store, e: Id, d: PolicyDecision, now: Instant, t: Store)
  {
    var actions := d.result.recommendedActions;
    && e in s.executions && e in snap.executions && e !in s.results && d.result.alertId in s.alerts
    && Distinct(ActionIds(actions)) && (forall a | a in actions :: a.actionId !in s.actions)
    && t == s.(actions := WithActions(s.actions, e, d.policyVersion, actions),
               results := s.results[e := d.result],
               executions := s.executions[e := s.executions[e].(
                 state := TerminalState(d.result), updatedAt := now, failure := snap.executions[e].failure)],
               audit := s.audit + [PolicyEnforced(e, d.reasonCodes, d.result.disposition),
                                   ExecutionTerminal(e, TerminalState(d.result))])
  }

  ghost predicate FailureEffect(s: Store, snap: Store, e: Id, category: FailureCategory, now: Instant, t: Store)
  {
    && e in s.executions && e in snap.executions && snap.executions[e].state == Running
    && t == s.(executions := s.executions[e := s.executions[e].(
                 state := TriageFailed, updatedAt := now, failure := Some(category))],
               audit := s.audit + [PersistenceFailed(e, category)])
  }

  ghost predicate DecisionEffect(s: Store, p: ApprovalRecord, t: Store)
  {
    && p.actionId !in s.approvals && p.actionId in s.actions && ApprovalChecks(p)
    && t == s.(approvals := s.approvals[p.actionId := p],
               audit := s.audit + [ActionDecided(p.actionId, p.approvalId, p.actionDigest, p.decision)])
  }

  ghost predicate BeginEffect(s: Store, r: ActionExecutionRecord, digest: string, t: Store)
  {
    && r.actionId !in s.actionExecutions && r.actionId in s.actions
    && t == s.(actionExecutions := s.actionExecutions[r.actionId := r],
               audit := s.audit + [SimulationStarted(r.actionId, digest)])
  }

  ghost predicate ExecuteEffect(cfg: Config, s: Store, q: ExecuteRequest, answer: ExecuteAnswer, t: Store)
  {
    match answer
    case Denies(_, digest) => t == s.(audit := s.audit + [ExecutionDenied(q.actionId, digest)])
    case Begins(record, row) => BeginEffect(s, record, Digest(cfg.sha, row.action.material), t)
    case _ => false
  }

  ghost predicate FinishEffect(s: Store, r: ActionExecutionRecord, x: Option<Simulation>, now: Instant, t: Store)
  {
    && r.actionId in s.actionExecutions
    && s.actionExecutions[r.actionId].actionExecutionId == r.actionExecutionId
    && t == s.(actionExecutions := s.actionExecutions[r.actionId := s.actionExecutions[r.actionId].(
                 state := if x.Some? then Succeeded else Failed, completedAt := Some(now),
                 outcome := if x.Some? then Some(x.value.outcome) else Some("SIMULATED_FAILURE"),
                 failure := if x.Some? then r.failure else Some(SimulatorFailure),
                 mode := if x.Some? then x.value.mode else r.mode)],
               audit := s.audit + [if x.Some? then SimulationSucceeded(r.actionId) else SimulationFailed(r.actionId)])
  }

  ghost predicate RunRecoveryEffect(s: Store, ids: seq<Id>, now: Instant, t: Store)
  {
    && (forall e | e in ids :: e in s.executions)
    && t == s.(executions := FailedRuns(s.executions, ids, now), audit := s.audit + RunEvents(ids))
  }

  ghost predicate ActionRecoveryEffect(s: Store, snap: Store, ids: seq<Id>, now: Instant, t: Store)
  {
    && Reads(s.actionExecutions, snap.actionExecutions, ids)
    && t == s.(actionExecutions := ExpiredRows(s.actionExecutions, snap.actionExecutions, ids, now),
               audit := s.audit + ActionEvents(snap.actionExecutions, ids))
  }

  /** The store after a durable transaction. */
  ghost predicate Effect(cfg: Config, s: Store, snap: Store, x: Transaction, t: Store)
  {
    match x
    case StartRun(alert, key, e, now) =>
      ParseIdentifier(key).Some? && StartEffect(s, snap, alert, ParseIdentifier(key).value, e, now, t)
    case RecordTool(record, result) => ToolEffect(s, InvocationRow(record, result), t)
    case FinishRun(e, d, now) => FinalEffect(s, snap, e, d, now, t)
    case FailRun(e, category, now) => FailureEffect(s, snap, e, category, now, t)
    case Decide(q) =>
      DecisionAnswerOf(cfg, snap, q).Records? && DecisionEffect(s, DecisionAnswerOf(cfg, snap, q).approval, t)
    case BeginExecution(q) => ExecuteEffect(cfg, s, q, ExecuteAnswerOf(cfg, snap, q), t)
    case FinishExecution(r, y, now) => FinishEffect(s, r, y, now, t)
    case RecoverRuns(now, threshold, ids) =>
      threshold <= now && RunRecoveryEffect(s, ids, now, t)
    case RecoverActions(now, threshold, ids) =>
      threshold <= now && ActionRecoveryEffect(s, snap, ids, now, t)
  }

  /** An execution under a new key. */
  lemma ExecutionApplies(s: Store, alertId: Id, key: Id, e: Id, now: Instant)
    ensures var row := ExecutionRow(alertId, Running, key, now, now, None);
      var r := ApplyAll(s, [AddExecution(e, row), AppendAudit(ExecutionStarted(e))]);
      && (r.Some? <==> Permitted(s, AddExecution(e, row)))
      && (r.Some? ==> r.value == s.(executions := s.executions[e := row], keys := s.keys[key := e], audit := s.audit + [ExecutionStarted(e)]))
  {
    ApplyTwo(s, AddExecution(e, ExecutionRow(alertId, Running, key, now, now, None)), AppendAudit(ExecutionStarted(e)));
  }

  lemma StartApplies(s: Store, snap: Store, alert: SecurityAlert, key: Id, e: Id, now: Instant)
    requires snap.alerts.Keys <= s.alerts.Keys
    ensures var r := ApplyAll(s, StartWrites(snap, alert, key, e, now));
      r.Some? ==> StartEffect(s, snap, alert, key, e, now, r.value)
  {
    var two := [AddExecution(e, ExecutionRow(alert.alertId, Running, key, now, now, None)), AppendAudit(ExecutionStarted(e))];
    if alert.alertId in snap.alerts {
      assert StartWrites(snap, alert, key, e, now) == two;
      ExecutionApplies(s, alert.alertId, key, e, now);
    } else {
      ApplyAllConcat(s, [AddAlert(alert)], two);
      ApplyOne(s, AddAlert(alert));
      if Permitted(s, AddAlert(alert)) {
        ExecutionApplies(Perform(s, AddAlert(alert)), alert.alertId, key, e, now);
      }
    }
  }

  lemma FinalTailApplies(s: Store, snap: Store, e: Id, d: PolicyDecision, now: Instant)
    requires e in snap.executions && e in s.executions
    ensures var last := [AddResult(e, d.result),
        ReplaceExecution(e, TerminalState(d.result), now, snap.executions[e].failure),
        AppendAudit(PolicyEnforced(e, d.reasonCodes, d.result.disposition)),
        AppendAudit(ExecutionTerminal(e, TerminalState(d.result)))];
      var r := ApplyAll(s, last);
      r.Some? ==>
        && e !in s.results && d.result.alertId in s.alerts
        && r.value == s.(results := s.results[e := d.result],
             executions := s.executions[e := s.executions[e].(
               state := TerminalState(d.result), updatedAt := now, failure := snap.executions[e].failure)],
             audit := s.audit + [PolicyEnforced(e, d.reasonCodes, d.result.disposition),
                                 ExecutionTerminal(e, TerminalState(d.result))])
  {
    var v, w := AddResult(e, d.result), ReplaceExecution(e, TerminalState(d.result), now, snap.executions[e].failure);
    var x, y := AppendAudit(PolicyEnforced(e, d.reasonCodes, d.result.disposition)),
      AppendAudit(ExecutionTerminal(e, TerminalState(d.result)));
    assert [v, w, x, y] == [v, w] + [x, y];
    ApplyAllConcat(s, [v, w], [x, y]);
    ApplyTwo(s, v, w);
    if ApplyAll(s, [v, w]).Some? {
      ApplyTwo(ApplyAll(s, [v, w]).value, x, y);
      assert s.audit + [x.event] + [y.event] == s.audit + [x.event, y.event];
    }
  }

  lemma FinalApplies(s: Store, snap: Store, e: Id, d: PolicyDecision, now: Instant)
    requires e in snap.executions && e in s.executions
    ensures var r := ApplyAll(s, FinalWrites(snap, e, d, now));
      r.Some? ==> FinalEffect(s, snap, e, d, now, r.value)
  {
    var first := ActionWrites(e, d.policyVersion, d.result.recommendedActions);
    ActionWritesApply(s, e, d.policyVersion, d.result.recommendedActions);
    var last := FinalWrites(snap, e, d, now)[|first|..];
    assert FinalWrites(snap, e, d, now) == first + last;
    ApplyAllConcat(s, first, last);
    if ApplyAll(s, first).Some? {
      FinalTailApplies(ApplyAll(s, first).value, snap, e, d, now);
    }
  }

  lemma FailureApplies(s: Store, snap: Store, e: Id, category: FailureCategory, now: Instant)
    requires e in snap.executions && snap.executions[e].state == Running
    ensures var r := ApplyAll(s, FailureWrites(e, category, now));
      r.Some? ==> FailureEffect(s, snap, e, category, now, r.value)
  {
    ApplyTwo(s, ReplaceExecution(e, TriageFailed, now, Some(category)), AppendAudit(PersistenceFailed(e, category)));
  }

  lemma ToolApplies(s: Store, row: InvocationRow)
    ensures var r := ApplyAll(s, ToolWrites(row.record, row.result));
      r.Some? ==> ToolEffect(s, row, r.value)
  {
    var x := row.record;
    ApplyTwo(s, AddInvocation(row), AppendAudit(ToolInvoked(x.executionId, x.callId, x.authorization, x.outcome)));
  }

  lemma DecisionApplies(s: Store, p: ApprovalRecord)
    ensures var r := ApplyAll(s, DecisionWrites(p));
      r.Some? ==> DecisionEffect(s, p, r.value)
  {
    ApplyTwo(s, AddApproval(p), AppendAudit(ActionDecided(p.actionId, p.approvalId, p.actionDigest, p.decision)));
  }

  lemma ExecuteApplies(cfg: Config, s: Store, q: ExecuteRequest, answer: ExecuteAnswer)
    requires ExecutePlan(cfg, q, answer).Some?
    ensures var r := ApplyAll(s, ExecutePlan(cfg, q, answer).value);
      r.Some? ==> ExecuteEffect(cfg, s, q, answer, r.value)
  {
    match answer
    case Denies(_, digest) => ApplyOne(s, AppendAudit(ExecutionDenied(q.actionId, digest)));
    case Begins(r, row) =>
      ApplyTwo(s, AddActionExecution(r), AppendAudit(SimulationStarted(r.actionId, Digest(cfg.sha, row.action.material))));
  }

  lemma FinishApplies(s: Store, r: ActionExecutionRecord, x: Option<Simulation>, now: Instant)
    ensures var next := ApplyAll(s, FinishWrites(r, x, now));
      next.Some? ==> FinishEffect(s, r, x, now, next.value)
  {
    var ws := FinishWrites(r, x, now);
    assert ws == [ws[0], ws[1]];
    ApplyTwo(s, ws[0], ws[1]);
  }

  /** Rows read from any earlier state are still there, under the same identifiers. */
  lemma RecoveryReads(s: Store, snap: Store, ids: seq<Id>)
    requires Grows(snap, s) && ActionReferencesHold(snap)
    requires forall a | a in ids :: a in snap.actionExecutions
    ensures Reads(s.actionExecutions, snap.actionExecutions, ids)
  {
  }

  /** A recovery pass names rows of its snapshot. */
  ghost predicate RowsRead(snap: Store, x: Transaction)
  {
    && (x.RecoverRuns? ==> forall e | e in x.answer :: e in snap.executions)
    && (x.RecoverActions? ==> forall a | a in x.answer :: a in snap.actionExecutions)
  }

  lemma RunsRemain(s: Store, snap: Store, ids: seq<Id>)
    requires Grows(snap, s) && forall e | e in ids :: e in snap.executions
    ensures forall e | e in ids :: e in s.executions
  {
  }

  ghost predicate MeetsEffect(cfg: Config, s: Store, snap: Store, x: Transaction, fault: bool)
  {
    var (ending, t) := Attempt(cfg, s, snap, x, fault);
    && (ending == Durable ==> Effect(cfg, s, snap, x, t))
    && (ending != Durable ==> t == s)
  }

  lemma RunAttemptEffect(cfg: Config, s: Store, snap: Store, x: Transaction)
    requires snap.alerts.Keys <= s.alerts.Keys && snap.executions.Keys <= s.executions.Keys
    requires x.StartRun? || x.RecordTool? || x.FinishRun? || x.FailRun?
    ensures MeetsEffect(cfg, s, snap, x, false)
  {
    match x
    case StartRun(alert, key, e, now) =>
      if ParseIdentifier(key).Some? {
        StartApplies(s, snap, alert, ParseIdentifier(key).value, e, now);
      }
    case RecordTool(record, result) => ToolApplies(s, InvocationRow(record, result));
    case FinishRun(e, d, now) =>
      if e in snap.executions {
        FinalApplies(s, snap, e, d, now);
      }
    case FailRun(e, category, now) =>
      if e in snap.executions && snap.executions[e].state == Running {
        FailureApplies(s, snap, e, category, now);
      }
  }

  lemma DecisionAttemptEffect(cfg: Config, s: Store, snap: Store, q: DecisionRequest)
    ensures MeetsEffect(cfg, s, snap, Decide(q), false)
  {
    if DecisionAnswerOf(cfg, snap, q).Records? {
      DecisionApplies(s, DecisionAnswerOf(cfg, snap, q).approval);
    }
  }

  lemma BeginAttemptEffect(cfg: Config, s: Store, snap: Store, q: ExecuteRequest)
    ensures MeetsEffect(cfg, s, snap, BeginExecution(q), false)
  {
    var answer := ExecuteAnswerOf(cfg, snap, q);
    if ExecutePlan(cfg, q, answer).Some? {
      ExecuteApplies(cfg, s, q, answer);
    }
  }

  lemma RunRecoveryAttemptEffect(cfg: Config, s: Store, snap: Store, now: Instant, threshold: nat, ids: seq<Id>)
    requires threshold <= now
    requires forall e | e in ids :: e in s.executions
    ensures Attempt(cfg, s, snap, RecoverRuns(now, threshold, ids), false).0 == Durable
    ensures MeetsEffect(cfg, s, snap, RecoverRuns(now, threshold, ids), false)
  {
    RunRecoveryApplies(s, ids, now);
  }

  lemma ActionRecoveryAttemptEffect(cfg: Config, s: Store, snap: Store, now: Instant, threshold: nat, ids: seq<Id>)
    requires threshold <= now
    requires Reads(s.actionExecutions, snap.actionExecutions, ids)
    ensures Attempt(cfg, s, snap, RecoverActions(now, threshold, ids), false).0 == Durable
    ensures MeetsEffect(cfg, s, snap, RecoverActions(now, threshold, ids), false)
  {
    ActionRecoveryApplies(s, snap, ids, now);
  }

  lemma RecoveryAttemptEffect(cfg: Config, s: Store, snap: Store, x: Transaction)
    requires Grows(snap, s) && Consistent(snap) && RowsRead(snap, x) && (x.RecoverRuns? || x.RecoverActions?)
    ensures MeetsEffect(cfg, s, snap, x, false)
  {
    match x
    case RecoverRuns(now, threshold, ids) =>
      if threshold <= now {
        RunsRemain(s, snap, ids);
        RunRecoveryAttemptEffect(cfg, s, snap, now, threshold, ids);
      }
    case RecoverActions(now, threshold, ids) =>
      if threshold <= now {
        RecoveryReads(s, snap, ids);
        ActionRecoveryAttemptEffect(cfg, s, snap, now, threshold, ids);
      }
  }

  /** Every durable transaction has exactly the effect stated for it, and any other attempt
      leaves the store alone. */
  lemma AttemptEffect(cfg: Config, s: Store, snap: Store, x: Transaction, fault: bool)
    requires Grows(snap, s) && Consistent(snap) && RowsRead(snap, x)
    ensures MeetsEffect(cfg, s, snap, x, fault)
  {
    if !fault {
      match x
      case Decide(q) => DecisionAttemptEffect(cfg, s, snap, q);
      case BeginExecution(q) => BeginAttemptEffect(cfg, s, snap, q);
      case FinishExecution(r, y, now) => FinishApplies(s, r, y, now);
      case RecoverRuns(_, _, _) => RecoveryAttemptEffect(cfg, s, snap, x);
      case RecoverActions(_, _, _) => RecoveryAttemptEffect(cfg, s, snap, x);
      case _ => RunAttemptEffect(cfg, s, snap, x);
    }
  }

  // ---- When a transaction is durable ------------------------------------------------------------------------

  predicate AcceptsStart(s: Store, snap: Store, alert: SecurityAlert, key: string, e: Id)
  {
    && ParseIdentifier(key).Some? && ParseIdentifier(key).value !in s.keys && e !in s.executions
    && (alert.alertId in snap.alerts
        || (alert.alertId !in s.alerts && forall k | k in s.alerts :: s.alerts[k].payloadDigest != alert.payloadDigest))
  }

  predicate AcceptsFinal(s: Store, snap: Store, e: Id, d: PolicyDecision)
  {
    && e in snap.executions && e in s.executions && e !in s.results && d.result.alertId in s.alerts
    && Distinct(ActionIds(d.result.recommendedActions))
    && forall a | a in d.result.recommendedActions :: a.actionId !in s.actions
  }

  predicate AcceptsDecision(s: Store, answer: DecisionAnswer)
  {
    && answer.Records? && answer.approval.actionId in s.actions && answer.approval.actionId !in s.approvals
    && forall k | k in s.approvals :: s.approvals[k].approvalId != answer.approval.approvalId
  }

  predicate AcceptsExecution(s: Store, answer: ExecuteAnswer)
  {
    || answer.Denies?
    || (answer.Begins? && answer.record.actionId in s.actions && answer.record.actionId !in s.actionExecutions
        && forall k | k in s.actionExecutions ::
          s.actionExecutions[k].actionExecutionId != answer.record.actionExecutionId)
  }

  /** What the current state must allow for a transaction that read `snap` to become durable. */
  ghost predicate Accepts(cfg: Config, s: Store, snap: Store, x: Transaction)
  {
    match x
    case StartRun(alert, key, e, _) => AcceptsStart(s, snap, alert, key, e)
    case RecordTool(record, _) => record.callId !in s.invocations && record.executionId in s.executions
    case FinishRun(e, d, _) => AcceptsFinal(s, snap, e, d)
    case FailRun(e, _, _) => e in snap.executions && snap.executions[e].state == Running
    case Decide(q) => AcceptsDecision(s, DecisionAnswerOf(cfg, snap, q))
    case BeginExecution(q) => AcceptsExecution(s, ExecuteAnswerOf(cfg, snap, q))
    case FinishExecution(r, _, _) =>
      r.actionId in s.actionExecutions && s.actionExecutions[r.actionId].actionExecutionId == r.actionExecutionId
    case RecoverRuns(now, threshold, _) => threshold <= now
    case RecoverActions(now, threshold, _) => threshold <= now
  }

  lemma StartDurable(s: Store, snap: Store, alert: SecurityAlert, key: Id, e: Id, now: Instant)
    requires ParseIdentifier(key) == Some(key) && snap.alerts.Keys <= s.alerts.Keys
    ensures ApplyAll(s, StartWrites(snap, alert, key, e, now)).Some? <==> AcceptsStart(s, snap, alert, key, e)
  {
    var row := ExecutionRow(alert.alertId, Running, key, now, now, None);
    var two := [AddExecution(e, row), AppendAudit(ExecutionStarted(e))];
    if alert.alertId in snap.alerts {
      assert StartWrites(snap, alert, key, e, now) == two;
      ApplyTwo(s, two[0], two[1]);
    } else {
      ApplyAllConcat(s, [AddAlert(alert)], two);
      ApplyOne(s, AddAlert(alert));
      if Permitted(s, AddAlert(alert)) {
        ApplyTwo(Perform(s, AddAlert(alert)), two[0], two[1]);
      }
    }
  }

  lemma FinalTailDurable(s: Store, snap: Store, e: Id, d: PolicyDecision, now: Instant)
    requires e in snap.executions && e in s.executions
    ensures var last := [AddResult(e, d.result),
        ReplaceExecution(e, TerminalState(d.result), now, snap.executions[e].failure),
        AppendAudit(PolicyEnforced(e, d.reasonCodes, d.result.disposition)),
        AppendAudit(ExecutionTerminal(e, TerminalState(d.result)))];
      ApplyAll(s, last).Some? <==> e !in s.results && d.result.alertId in s.alerts
  {
    var v, w := AddResult(e, d.result), ReplaceExecution(e, TerminalState(d.result), now, snap.executions[e].failure);
    var x, y := AppendAudit(PolicyEnforced(e, d.reasonCodes, d.result.disposition)),
      AppendAudit(ExecutionTerminal(e, TerminalState(d.result)));
    assert [v, w, x, y] == [v, w] + [x, y];
    ApplyAllConcat(s, [v, w], [x, y]);
    ApplyTwo(s, v, w);
    if ApplyAll(s, [v, w]).Some? {
      ApplyTwo(ApplyAll(s, [v, w]).value, x, y);
    }
  }

  lemma FinalDurable(s: Store, snap: Store, e: Id, d: PolicyDecision, now: Instant)
    requires e in snap.executions && e in s.executions
    ensures ApplyAll(s, FinalWrites(snap, e, d, now)).Some? <==> AcceptsFinal(s, snap, e, d)
  {
    var first := ActionWrites(e, d.policyVersion, d.result.recommendedActions);
    ActionWritesApply(s, e, d.policyVersion, d.result.recommendedActions);
    var last := FinalWrites(snap, e, d, now)[|first|..];
    assert FinalWrites(snap, e, d, now) == first + last;
    ApplyAllConcat(s, first, last);
    if ApplyAll(s, first).Some? {
      FinalTailDurable(ApplyAll(s, first).value, snap, e, d, now);
    }
  }

  lemma FailureDurable(s: Store, e: Id, category: FailureCategory, now: Instant)
    ensures ApplyAll(s, FailureWrites(e, category, now)).Some? <==> e in s.executions
  {
    ApplyTwo(s, ReplaceExecution(e, TriageFailed, now, Some(category)), AppendAudit(PersistenceFailed(e, category)));
  }

  lemma ToolDurable(s: Store, row: InvocationRow)
    ensures ApplyAll(s, ToolWrites(row.record, row.result)).Some?
       <==> row.record.callId !in s.invocations && row.record.executionId in s.executions
  {
    var record := row.record;
    ApplyTwo(s, AddInvocation(row),
      AppendAudit(ToolInvoked(record.executionId, record.callId, record.authorization, record.outcome)));
  }

  /** A new decision always passes the checks. */
  lemma NewApprovalChecks(cfg: Config, row: ActionRow, q: DecisionRequest)
    requires NewApproval(cfg, row, q).Some?
    ensures ApprovalChecks(NewApproval(cfg, row, q).value)
  {
  }

  lemma DecisionDurable(cfg: Config, s: Store, snap: Store, q: DecisionRequest)
    requires DecisionAnswerOf(cfg, snap, q).Records?
    ensures var answer := DecisionAnswerOf(cfg, snap, q);
      ApplyAll(s, DecisionWrites(answer.approval)).Some? <==> AcceptsDecision(s, answer)
  {
    var p := DecisionAnswerOf(cfg, snap, q).approval;
    NewApprovalChecks(cfg, snap.actions[q.actionId], q);
    ApplyTwo(s, AddApproval(p), AppendAudit(ActionDecided(p.actionId, p.approvalId, p.actionDigest, p.decision)));
  }

  lemma ExecutionDurable(cfg: Config, s: Store, q: ExecuteRequest, answer: ExecuteAnswer)
    requires ExecutePlan(cfg, q, answer).Some?
    ensures ApplyAll(s, ExecutePlan(cfg, q, answer).value).Some? <==> AcceptsExecution(s, answer)
  {
    match answer
    case Denies(_, digest) => ApplyOne(s, AppendAudit(ExecutionDenied(q.actionId, digest)));
    case Begins(r, row) =>
      ApplyTwo(s, AddActionExecution(r), AppendAudit(SimulationStarted(r.actionId, Digest(cfg.sha, row.action.material))));
  }

  lemma FinishDurable(s: Store, r: ActionExecutionRecord, x: Option<Simulation>, now: Instant)
    ensures ApplyAll(s, FinishWrites(r, x, now)).Some?
       <==> r.actionId in s.actionExecutions && s.actionExecutions[r.actionId].actionExecutionId == r.actionExecutionId
  {
    var ws := FinishWrites(r, x, now);
    assert ws == [ws[0], ws[1]];
    ApplyTwo(s, ws[0], ws[1]);
  }

  ghost predicate DurableWhenAccepted(cfg: Config, s: Store, snap: Store, x: Transaction)
  {
    Attempt(cfg, s, snap, x, false).0 == Durable <==> Accepts(cfg, s, snap, x)
  }

  lemma RunDurable(cfg: Config, s: Store, snap: Store, x: Transaction)
    requires snap.alerts.Keys <= s.alerts.Keys && snap.executions.Keys <= s.executions.Keys
    requires x.StartRun? || x.RecordTool? || x.FinishRun? || x.FailRun?
    ensures DurableWhenAccepted(cfg, s, snap, x)
  {
    match x
    case StartRun(alert, key, e, now) =>
      if ParseIdentifier(key).Some? {
        IdentifierIsStripped(ParseIdentifier(key).value);
        StartDurable(s, snap, alert, ParseIdentifier(key).value, e, now);
      }
    case RecordTool(record, result) => ToolDurable(s, InvocationRow(record, result));
    case FinishRun(e, d, now) =>
      if e in snap.executions {
        FinalDurable(s, snap, e, d, now);
      }
    case FailRun(e, category, now) => FailureDurable(s, e, category, now);
  }

  lemma ServiceDurable(cfg: Config, s: Store, snap: Store, x: Transaction)
    requires x.Decide? || x.BeginExecution? || x.FinishExecution?
    ensures DurableWhenAccepted(cfg, s, snap, x)
  {
    match x
    case Decide(q) =>
      if DecisionAnswerOf(cfg, snap, q).Records? {
        DecisionDurable(cfg, s, snap, q);
      }
    case BeginExecution(q) =>
      if ExecutePlan(cfg, q, ExecuteAnswerOf(cfg, snap, q)).Some? {
        ExecutionDurable(cfg, s, q, ExecuteAnswerOf(cfg, snap, q));
      }
    case FinishExecution(r, y, now) => FinishDurable(s, r, y, now);
  }

  lemma RecoveryDurable(cfg: Config, s: Store, snap: Store, x: Transaction)
    requires Grows(snap, s) && ActionReferencesHold(snap) && RowsRead(snap, x)
    requires x.RecoverRuns? || x.RecoverActions?
    ensures DurableWhenAccepted(cfg, s, snap, x)
  {
    if x.threshold <= x.now {
      if x.RecoverRuns? {
        RunsRemain(s, snap, x.answer);
        RunRecoveryAttemptEffect(cfg, s, snap, x.now, x.threshold, x.answer);
      } else {
        RecoveryReads(s, snap, x.answer);
        ActionRecoveryAttemptEffect(cfg, s, snap, x.now, x.threshold, x.answer);
      }
    }
  }

  /** A transaction becomes durable exactly when no fault prevents it and the current state
      allows it; `AttemptEffect` says what it then does. */
  lemma DurableExactly(cfg: Config, s: Store, snap: Store, x: Transaction, fault: bool)
    requires Grows(snap, s) && Consistent(snap) && RowsRead(snap, x)
    ensures Attempt(cfg, s, snap, x, fault).0 == Durable <==> !fault && Accepts(cfg, s, snap, x)
  {
    if x.Decide? || x.BeginExecution? || x.FinishExecution? {
      ServiceDurable(cfg, s, snap, x);
    } else if x.RecoverRuns? || x.RecoverActions? {
      RecoveryDurable(cfg, s, snap, x);
    } else {
      RunDurable(cfg, s, snap, x);
    }
    assert DurableWhenAccepted(cfg, s, snap, x);
  }
}
