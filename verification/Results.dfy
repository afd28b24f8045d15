/** Results and execution states agree in every history whose failing transactions read the
    current state, and action rows agree with results when nobody rewrites them
    (application/orchestrator.py, application/recovery_service.py). */
module Results {
  import opened Base
  import opened Timestamps
  import opened Actions
  import opened Triage
  import opened Policy
  import opened Store
  import opened Queries
  import opened Workflow
  import opened Effects
  import opened History

  predicate Final(state: TriageState)
  {
    state.Completed? || state.NeedsReview?
  }

  /** A result row exists exactly in the two final states, and the state says whether the
      disposition is a review. */
  ghost predicate StatesMatchResults(s: Store)
  {
    forall e | e in s.executions ::
      && !s.executions[e].state.Pending?
      && (e in s.results <==> Final(s.executions[e].state))
      && (e in s.results ==>
            s.executions[e].state == (if s.results[e].disposition.NeedsReview? then TriageState.NeedsReview else Completed))
  }

  /** The action rows are exactly the recommended actions of the results. */
  ghost predicate ActionsMatchResults(s: Store)
  {
    && (forall a | a in s.actions ::
          && s.actions[a].executionId in s.results
          && s.actions[a].action.actionId == a
          && s.actions[a].action in s.results[s.actions[a].executionId].recommendedActions)
    && forall e, x | e in s.results && x in s.results[e].recommendedActions ::
      x.actionId in s.actions && s.actions[x.actionId].executionId == e && s.actions[x.actionId].action == x
  }

  /** Rows in a final state stay as they are. */
  ghost predicate FinalRowsKept(s: Store, t: Store)
  {
    forall e | e in s.executions && Final(s.executions[e].state) ::
      e in t.executions && t.executions[e] == s.executions[e]
  }

  lemma {:induction false} WithActionsValues(
    table: map<Id, ActionRow>, e: Id, version: string, actions: seq<ActionProposal>)
    requires Distinct(ActionIds(actions)) && forall a | a in actions :: a.actionId !in table
    ensures var t := WithActions(table, e, version, actions);
      && (forall a | a in table :: a in t && t[a] == table[a])
      && (forall a | a in t && a !in table ::
            t[a].executionId == e && t[a].action in actions && t[a].action.actionId == a)
      && forall x | x in actions :: x.actionId in t && t[x.actionId] == ActionRow(e, version, x)
  {
    WithActionsRows(table, e, version, actions);
    var t, ids := WithActions(table, e, version, actions), ActionIds(actions);
    forall i | 0 <= i < |ids| ensures ids[i] !in table {
      assert actions[i] in actions;
    }
    forall a | a in t && a !in table
      ensures t[a].executionId == e && t[a].action in actions && t[a].action.actionId == a
    {
      var i :| 0 <= i < |ids| && ids[i] == a;
      assert t[actions[i].actionId] == ActionRow(e, version, actions[i]);
    }
  }

  lemma FinalStatesMatch(s: Store, snap: Store, e: Id, d: PolicyDecision, now: Instant, t: Store)
    requires StatesMatchResults(s) && FinalEffect(s, snap, e, d, now, t)
    ensures StatesMatchResults(t) && FinalRowsKept(s, t)
  {
  }

  lemma FinalActionsMatch(s: Store, snap: Store, e: Id, d: PolicyDecision, now: Instant, t: Store)
    requires ActionsMatchResults(s) && FinalEffect(s, snap, e, d, now, t)
    ensures ActionsMatchResults(t)
  {
    WithActionsValues(s.actions, e, d.policyVersion, d.result.recommendedActions);
    forall k, x | k in t.results && x in t.results[k].recommendedActions
      ensures x.actionId in t.actions && t.actions[x.actionId].executionId == k && t.actions[x.actionId].action == x
    {
      if k != e {
        assert k in s.results && x in s.results[k].recommendedActions;
      }
    }
  }

  lemma StartStates(s: Store, snap: Store, alert: SecurityAlert, key: Id, e: Id, now: Instant, t: Store)
    requires StatesMatchResults(s) && ExecutionReferencesHold(s) && StartEffect(s, snap, alert, key, e, now, t)
    ensures StatesMatchResults(t) && FinalRowsKept(s, t)
  {
  }

  lemma RunRecoveryStates(s: Store, ids: seq<Id>, now: Instant, t: Store)
    requires StatesMatchResults(s) && RunRecoveryEffect(s, ids, now, t)
    requires forall e | e in ids :: e in s.executions && s.executions[e].state == Running
    ensures StatesMatchResults(t) && FinalRowsKept(s, t)
  {
  }

  lemma FailureStates(s: Store, e: Id, category: FailureCategory, now: Instant, t: Store)
    requires StatesMatchResults(s) && FailureEffect(s, s, e, category, now, t)
    ensures StatesMatchResults(t) && FinalRowsKept(s, t)
  {
  }

  lemma OtherTablesKept(cfg: Config, s: Store, snap: Store, x: Transaction, t: Store)
    requires Effect(cfg, s, snap, x, t)
    requires !x.StartRun? && !x.FinishRun? && !x.FailRun? && !x.RecoverRuns?
    ensures t.executions == s.executions && t.results == s.results && t.actions == s.actions
  {
    if x.BeginExecution? {
      ExecuteKeepsTables(cfg, s, x.executeRequest, ExecuteAnswerOf(cfg, snap, x.executeRequest), t);
    }
  }

  lemma ExecuteKeepsTables(cfg: Config, s: Store, q: ExecuteRequest, answer: ExecuteAnswer, t: Store)
    requires ExecuteEffect(cfg, s, q, answer, t)
    ensures t.executions == s.executions && t.results == s.results && t.actions == s.actions
  {
  }

  /** States, results and final rows through any transaction; the ones that fail rows read
      the state they change. */
  lemma EffectStates(cfg: Config, s: Store, snap: Store, x: Transaction, t: Store)
    requires StatesMatchResults(s) && ExecutionReferencesHold(s) && Effect(cfg, s, snap, x, t)
    requires x.FailRun? || x.RecoverRuns? ==> snap == s
    requires x.RecoverRuns? ==> forall e | e in x.answer :: e in s.executions && s.executions[e].state == Running
    ensures StatesMatchResults(t) && FinalRowsKept(s, t)
  {
    match x
    case StartRun(alert, key, e, now) => StartStates(s, snap, alert, ParseIdentifier(key).value, e, now, t);
    case FinishRun(e, d, now) => FinalStatesMatch(s, snap, e, d, now, t);
    case FailRun(e, category, now) => FailureStates(s, e, category, now, t);
    case RecoverRuns(now, _, ids) => RunRecoveryStates(s, ids, now, t);
    case _ => OtherTablesKept(cfg, s, snap, x, t);
  }

  /** Action rows and results through any transaction, on whatever state it read. */
  lemma EffectActions(cfg: Config, s: Store, snap: Store, x: Transaction, t: Store)
    requires ActionsMatchResults(s) && Effect(cfg, s, snap, x, t)
    ensures ActionsMatchResults(t)
  {
    if x.FinishRun? {
      FinalActionsMatch(s, snap, x.executionId, x.decision, x.now, t);
    } else {
      OtherActionsKept(cfg, s, snap, x, t);
    }
  }

  lemma OtherActionsKept(cfg: Config, s: Store, snap: Store, x: Transaction, t: Store)
    requires Effect(cfg, s, snap, x, t) && !x.FinishRun?
    ensures t.actions == s.actions && t.results == s.results
  {
    if !x.StartRun? && !x.FailRun? && !x.RecoverRuns? {
      OtherTablesKept(cfg, s, snap, x, t);
    }
  }

  /** The premise on reads cannot be dropped: a failure recorded from a state it is out of date
      with keeps the match exactly when the execution has no result yet. */
  lemma StaleFailureExactly(s: Store, snap: Store, e: Id, category: FailureCategory, now: Instant, t: Store)
    requires StatesMatchResults(s) && FailureEffect(s, snap, e, category, now, t)
    ensures StatesMatchResults(t) <==> e !in s.results
  {
  }

  /** The final transaction does not test the state it leaves: it follows the lifecycle table
      exactly when the row is still RUNNING. */
  lemma FinalFollowsTableExactly(s: Store, snap: Store, e: Id, d: PolicyDecision, now: Instant, t: Store)
    requires StatesMatchResults(s) && FinalEffect(s, snap, e, d, now, t)
    ensures t.executions[e].state in TriageSuccessors(s.executions[e].state) <==> s.executions[e].state == Running
    ensures s.executions[e].state == Running || s.executions[e].state == TriageFailed
  {
  }

  // ---- Histories -----------------------------------------------------------------------------------------

  /** The transactions that fail rows read the state they change. */
  predicate ReadsCurrent(ev: Event)
  {
    ev.Attempted? && (ev.transaction.FailRun? || ev.transaction.RecoverRuns?) ==> ev.lag == 0
  }

  ghost predicate FinalRowsStay(h: Commits)
  {
    forall i, j | 0 <= i <= j < |h| :: FinalRowsKept(h[i], h[j])
  }

  ghost predicate AllStatesMatch(h: Commits)
  {
    forall i | 0 <= i < |h| :: StatesMatchResults(h[i])
  }

  ghost predicate AllActionsMatch(h: Commits)
  {
    forall i | 0 <= i < |h| :: ActionsMatchResults(h[i])
  }

  lemma FinalRowsStayExtend(h: Commits, t: Store)
    requires FinalRowsStay(h) && FinalRowsKept(Current(h), t)
    ensures FinalRowsStay(Then(h, t))
  {
    var n, r := |h|, h + [t];
    forall i | 0 <= i <= n ensures FinalRowsKept(r[i], r[n]) {
      if i < n {
        assert FinalRowsKept(h[i], h[n - 1]);
      }
    }
  }

  lemma StatesExtend(h: Commits, t: Store)
    requires AllStatesMatch(h) && FinalRowsStay(h) && StatesMatchResults(t) && FinalRowsKept(Current(h), t)
    ensures AllStatesMatch(Then(h, t)) && FinalRowsStay(Then(h, t))
  {
    FinalRowsStayExtend(h, t);
  }

  lemma RecoveredWereRunning(h: Commits, x: Transaction)
    requires Enabled(h, x, 0) && x.RecoverRuns? && x.threshold <= x.now
    ensures forall e | e in x.answer :: e in Current(h).executions && Current(h).executions[e].state == Running
  {
    RunsSelected(Current(h), x.now - x.threshold, x.answer);
  }

  lemma DurableStates(cfg: Config, h: Commits, x: Transaction, lag: nat, fault: bool)
    requires Sound(h) && Enabled(h, x, lag) && ReadsCurrent(Attempted(x, lag, fault)) && StatesMatchResults(Current(h))
    ensures var (ending, t) := Attempt(cfg, Current(h), Snapshot(h, lag), x, fault);
      ending == Durable ==> StatesMatchResults(t) && FinalRowsKept(Current(h), t)
  {
    var s, snap := Current(h), Snapshot(h, lag);
    assert Kept(s) && Kept(snap) && Grows(snap, s);
    AttemptEffect(cfg, s, snap, x, fault);
    var (ending, t) := Attempt(cfg, s, snap, x, fault);
    if ending == Durable {
      if x.RecoverRuns? {
        RecoveredWereRunning(h, x);
      }
      EffectStates(cfg, s, snap, x, t);
    }
  }

  lemma DurableActions(cfg: Config, h: Commits, x: Transaction, lag: nat, fault: bool)
    requires Sound(h) && Enabled(h, x, lag) && ActionsMatchResults(Current(h))
    ensures var (ending, t) := Attempt(cfg, Current(h), Snapshot(h, lag), x, fault);
      ending == Durable ==> ActionsMatchResults(t)
  {
    var s, snap := Current(h), Snapshot(h, lag);
    assert Kept(s) && Kept(snap) && Grows(snap, s);
    AttemptEffect(cfg, s, snap, x, fault);
    var (ending, t) := Attempt(cfg, s, snap, x, fault);
    if ending == Durable {
      EffectActions(cfg, s, snap, x, t);
    }
  }

  lemma ExtendStates(cfg: Config, h: Commits, ev: Event)
    requires Sound(h) && AllStatesMatch(h) && FinalRowsStay(h) && ReadsCurrent(ev)
    ensures AllStatesMatch(Extend(cfg, h, ev)) && FinalRowsStay(Extend(cfg, h, ev))
  {
    match ev
    case Attempted(x, lag, fault) =>
      if EndingOf(cfg, h, x, lag, fault) == Durable && Enabled(h, x, lag) {
        DurableStates(cfg, h, x, lag, fault);
        StatesExtend(h, Attempt(cfg, Current(h), Snapshot(h, lag), x, fault).1);
      }
    case Tampered(a, row) => ExtendRewritten(cfg, h, a, row);
  }

  /** A rewritten action row touches neither states nor results. */
  lemma ExtendRewritten(cfg: Config, h: Commits, a: Id, row: ActionRow)
    requires AllStatesMatch(h) && FinalRowsStay(h)
    ensures AllStatesMatch(Extend(cfg, h, Tampered(a, row))) && FinalRowsStay(Extend(cfg, h, Tampered(a, row)))
  {
    if a in Current(h).actions && row.executionId in Current(h).executions {
      var t := Current(h).(actions := Current(h).actions[a := row]);
      assert FinalRowsKept(Current(h), t) && StatesMatchResults(Current(h));
      StatesExtend(h, t);
    }
  }

  lemma AllActionsExtend(h: Commits, t: Store)
    requires AllActionsMatch(h) && ActionsMatchResults(t)
    ensures AllActionsMatch(Then(h, t))
  {
  }

  lemma ExtendActions(cfg: Config, h: Commits, x: Transaction, lag: nat, fault: bool)
    requires Sound(h) && AllActionsMatch(h)
    ensures AllActionsMatch(Extend(cfg, h, Attempted(x, lag, fault)))
  {
    if EndingOf(cfg, h, x, lag, fault) == Durable && Enabled(h, x, lag) {
      DurableActions(cfg, h, x, lag, fault);
      AllActionsExtend(h, Attempt(cfg, Current(h), Snapshot(h, lag), x, fault).1);
    }
  }

  /** In every history, rewritten action rows included, a result exists exactly in the final
      states and decides which, and a row in a final state is never changed again, when the
      transactions that fail rows read the current state. */
  lemma {:induction false} StatesMatchInEveryHistory(cfg: Config, evs: seq<Event>)
    requires forall i | 0 <= i < |evs| :: ReadsCurrent(evs[i])
    ensures AllStatesMatch(Play(cfg, evs)) && FinalRowsStay(Play(cfg, evs))
  {
    if evs == [] {
    } else {
      var init := evs[..|evs| - 1];
      EveryHistorySound(cfg, init);
      StatesMatchInEveryHistory(cfg, init);
      ExtendStates(cfg, Play(cfg, init), evs[|evs| - 1]);
    }
  }

  /** In every history without rewritten rows, whatever was read, the action rows are exactly
      the recommended actions of the results. */
  lemma {:induction false} ActionsMatchInEveryHistory(cfg: Config, evs: seq<Event>)
    requires forall i | 0 <= i < |evs| :: evs[i].Attempted?
    ensures AllActionsMatch(Play(cfg, evs))
  {
    if evs == [] {
    } else {
      var init, ev := evs[..|evs| - 1], evs[|evs| - 1];
      EveryHistorySound(cfg, init);
      ActionsMatchInEveryHistory(cfg, init);
      ExtendActions(cfg, Play(cfg, init), ev.transaction, ev.lag, ev.fault);
    }
  }
}
