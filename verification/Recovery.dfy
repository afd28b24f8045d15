/** Recovery passes: stale work is failed closed, in one transaction, once
    (application/recovery_service.py). */
module Recovery {
  import opened Base
  import opened Timestamps
  import opened Actions
  import opened Store
  import opened Queries
  import opened Workflow
  import opened Effects

  // ---- What a pass does --------------------------------------------------------------------------------------

  function FailedRow(row: ExecutionRow, now: Instant): ExecutionRow
  {
    row.(state := TriageFailed, updatedAt := now, failure := Some(StaleExecution))
  }

  function RecoveredRow(row: ActionExecutionRecord, now: Instant): ActionExecutionRecord
  {
    ActionExecutionRecord(row.actionExecutionId, row.actionId, Failed, row.startedAt, Some(now),
      Some("SIMULATED_RECOVERY_FAILURE"), Some(StaleSimulatedAction), row.mode)
  }

  /** Exactly the runs older than the threshold are failed, everything else is as it was, and
      the audit trail grows by one event for each. */
  ghost predicate RunsRecovered(s: Store, now: Instant, threshold: nat, t: Store)
  {
    && t == s.(executions := t.executions, audit := t.audit)
    && t.executions.Keys == s.executions.Keys
    && (forall e | e in s.executions :: t.executions[e] ==
          if OverdueRun(s, e, now - threshold) then FailedRow(s.executions[e], now) else s.executions[e])
    && s.audit <= t.audit && |t.audit| == |s.audit| + |OverdueRuns(s, now - threshold)|
    && forall e :: StaleExecutionRecovered(e) in t.audit[|s.audit|..] <==> OverdueRun(s, e, now - threshold)
  }

  ghost predicate ActionsRecovered(s: Store, now: Instant, threshold: nat, t: Store)
  {
    && t == s.(actionExecutions := t.actionExecutions, audit := t.audit)
    && t.actionExecutions.Keys == s.actionExecutions.Keys
    && (forall a | a in s.actionExecutions :: t.actionExecutions[a] ==
          if OverdueAction(s, a, now - threshold) then RecoveredRow(s.actionExecutions[a], now) else s.actionExecutions[a])
    && s.audit <= t.audit && |t.audit| == |s.audit| + |OverdueActions(s, now - threshold)|
    && forall a | a in s.actionExecutions ::
      StaleSimulationRecovered(a, s.actionExecutions[a].actionExecutionId) in t.audit[|s.audit|..]
      <==> OverdueAction(s, a, now - threshold)
  }

  lemma RunEventsMembers(log: seq<AuditEvent>, ids: seq<Id>)
    ensures (log + RunEvents(ids))[|log|..] == RunEvents(ids)
    ensures forall e :: StaleExecutionRecovered(e) in RunEvents(ids) <==> e in ids
  {
    forall e | e in ids ensures StaleExecutionRecovered(e) in RunEvents(ids) {
      var i :| 0 <= i < |ids| && ids[i] == e;
      assert RunEvents(ids)[i] == StaleExecutionRecovered(e);
    }
  }

  lemma ActionEventsMembers(log: seq<AuditEvent>, read: Rows, ids: seq<Id>)
    requires forall a | a in ids :: a in read && read[a].actionId == a
    ensures (log + ActionEvents(read, ids))[|log|..] == ActionEvents(read, ids)
    ensures forall a | a in read ::
              StaleSimulationRecovered(a, read[a].actionExecutionId) in ActionEvents(read, ids) <==> a in ids
  {
    forall a | a in ids
      ensures StaleSimulationRecovered(a, read[a].actionExecutionId) in ActionEvents(read, ids)
    {
      var i :| 0 <= i < |ids| && ids[i] == a;
      assert ActionEvents(read, ids)[i] == StaleSimulationRecovered(a, read[a].actionExecutionId);
    }
  }

  lemma RunsRecoveredByEffect(s: Store, now: Instant, threshold: nat, ids: seq<Id>, t: Store)
    requires Enumerates(ids, OverdueRuns(s, now - threshold)) && RunRecoveryEffect(s, ids, now, t)
    ensures RunsRecovered(s, now, threshold, t)
  {
    RunEventsMembers(s.audit, ids);
  }

  lemma ActionsRecoveredByEffect(s: Store, now: Instant, threshold: nat, ids: seq<Id>, t: Store)
    requires forall a | a in s.actionExecutions :: s.actionExecutions[a].actionId == a
    requires Enumerates(ids, OverdueActions(s, now - threshold)) && ActionRecoveryEffect(s, s, ids, now, t)
    ensures ActionsRecovered(s, now, threshold, t)
  {
    ActionEventsMembers(s.audit, s.actionExecutions, ids);
  }

  /** A pass over executions, on the rows its query answers, is all or nothing. */
  lemma RunRecoveryPass(cfg: Config, s: Store, now: Instant, threshold: nat, ids: seq<Id>, fault: bool)
    requires threshold <= now && Enumerates(ids, OverdueRuns(s, now - threshold))
    ensures var (ending, t) := Attempt(cfg, s, s, RecoverRuns(now, threshold, ids), fault);
      if fault then ending == Aborted && t == s else ending == Durable && RunsRecovered(s, now, threshold, t)
  {
    if !fault {
      RunRecoveryAttemptEffect(cfg, s, s, now, threshold, ids);
      RunsRecoveredByEffect(s, now, threshold, ids, Attempt(cfg, s, s, RecoverRuns(now, threshold, ids), false).1);
    }
  }

  /** A second pass at the same clock selects nothing, changes nothing and counts nothing. */
  lemma SecondRunPass(cfg: Config, s: Store, now: Instant, threshold: nat, t: Store, again: seq<Id>, fault: bool)
    requires threshold <= now && RunsRecovered(s, now, threshold, t)
    requires Enumerates(again, OverdueRuns(t, now - threshold))
    ensures again == [] && Attempt(cfg, t, t, RecoverRuns(now, threshold, again), fault).1 == t
  {
    assert OverdueRuns(t, now - threshold) == {};
  }

  lemma RowsReadAsStored(s: Store, ids: seq<Id>)
    requires forall a | a in s.actionExecutions :: s.actionExecutions[a].actionId == a
    requires forall a | a in ids :: a in s.actionExecutions
    ensures Reads(s.actionExecutions, s.actionExecutions, ids)
  {
  }

  lemma ActionRecoveryPass(cfg: Config, s: Store, now: Instant, threshold: nat, ids: seq<Id>, fault: bool)
    requires threshold <= now && Enumerates(ids, OverdueActions(s, now - threshold))
    requires forall a | a in s.actionExecutions :: s.actionExecutions[a].actionId == a
    ensures var (ending, t) := Attempt(cfg, s, s, RecoverActions(now, threshold, ids), fault);
      if fault then ending == Aborted && t == s else ending == Durable && ActionsRecovered(s, now, threshold, t)
  {
    if !fault {
      RowsReadAsStored(s, ids);
      ActionRecoveryAttemptEffect(cfg, s, s, now, threshold, ids);
      ActionsRecoveredByEffect(s, now, threshold, ids, Attempt(cfg, s, s, RecoverActions(now, threshold, ids), false).1);
    }
  }

  lemma SecondActionPass(cfg: Config, s: Store, now: Instant, threshold: nat, t: Store, again: seq<Id>, fault: bool)
    requires threshold <= now && ActionsRecovered(s, now, threshold, t)
    requires Enumerates(again, OverdueActions(t, now - threshold))
    ensures again == [] && Attempt(cfg, t, t, RecoverActions(now, threshold, again), fault).1 == t
  {
    assert OverdueActions(t, now - threshold) == {};
  }

  lemma RunPassApplies(s: Store, now: Instant, threshold: nat, ids: seq<Id>) returns (t: Store)
    requires threshold <= now && Enumerates(ids, OverdueRuns(s, now - threshold))
    ensures forall e | e in ids :: e in s.executions
    ensures ApplyAll(s, RunRecoveryWrites(ids, now)) == Some(t) && RunsRecovered(s, now, threshold, t)
  {
    RunRecoveryApplies(s, ids, now);
    t := ApplyAll(s, RunRecoveryWrites(ids, now)).value;
    RunsRecoveredByEffect(s, now, threshold, ids, t);
  }

  /** Whatever is stored, a pass has an answer to work on and does what a pass does. */
  lemma RunPassDefined(s: Store, now: Instant, threshold: nat) returns (ids: seq<Id>, t: Store)
    requires threshold <= now
    ensures StaleRuns(s, now - threshold, ids) && forall e | e in ids :: e in s.executions
    ensures ApplyAll(s, RunRecoveryWrites(ids, now)) == Some(t) && RunsRecovered(s, now, threshold, t)
  {
    ids := StaleRunsExist(s, now - threshold);
    t := RunPassApplies(s, now, threshold, ids);
  }

  lemma ActionPassApplies(s: Store, now: Instant, threshold: nat, ids: seq<Id>) returns (t: Store)
    requires threshold <= now && ActionReferencesHold(s) && Enumerates(ids, OverdueActions(s, now - threshold))
    ensures forall a | a in ids :: a in s.actionExecutions
    ensures ApplyAll(s, ActionRecoveryWrites(s, ids, now)) == Some(t) && ActionsRecovered(s, now, threshold, t)
  {
    RowsReadAsStored(s, ids);
    ActionRecoveryApplies(s, s, ids, now);
    t := ApplyAll(s, ActionRecoveryWrites(s, ids, now)).value;
    ActionsRecoveredByEffect(s, now, threshold, ids, t);
  }

  lemma ActionPassDefined(s: Store, now: Instant, threshold: nat) returns (ids: seq<Id>, t: Store)
    requires threshold <= now && ActionReferencesHold(s) && PrimaryKeysUnique(s)
    ensures StaleActions(s, now - threshold, ids) && forall a | a in ids :: a in s.actionExecutions
    ensures ApplyAll(s, ActionRecoveryWrites(s, ids, now)) == Some(t) && ActionsRecovered(s, now, threshold, t)
  {
    ids := StaleActionsExist(s, now - threshold);
    t := ActionPassApplies(s, now, threshold, ids);
  }

  // ---- The service ---------------------------------------------------------------------------------------------

  class StaleStateRecoveryService {
    const database: Database
    const executionThreshold: nat
    const actionThreshold: nat

    constructor (database: Database, executionThreshold: nat, actionThreshold: nat)
      ensures this.database == database
      ensures this.executionThreshold == executionThreshold && this.actionThreshold == actionThreshold
    {
      this.database := database;
      this.executionThreshold, this.actionThreshold := executionThreshold, actionThreshold;
    }

    /** Fail the stale executions; None when the pass raises, which leaves no trace. */
    method RecoverStaleExecutions(now: Instant, fault: bool) returns (recovered: Option<nat>, ghost answer: seq<Id>)
      modifies database
      ensures recovered.None? ==> database.store == old(database.store)
      ensures recovered.Some? <==> executionThreshold <= now && !fault
      ensures recovered.Some? ==>
                StaleRuns(old(database.store), now - executionThreshold, answer)
                && (forall e | e in answer :: e in old(database.store).executions)
                && ApplyAll(old(database.store), RunRecoveryWrites(answer, now)) == Some(database.store)
      ensures recovered.Some? ==> RunsRecovered(old(database.store), now, executionThreshold, database.store)
      ensures recovered.Some? ==> |database.store.audit| == |old(database.store).audit| + recovered.value
    {
      if now < executionThreshold {
        return None, [];
      }
      var uow := new UnitOfWork(database);
      ghost var start := database.store;
      var ids := ListRunningBefore(uow.snapshot, now - executionThreshold);
      answer := ids;
      recovered := FailRuns(uow, ids, now, executionThreshold, fault);
    }

    /** Stage one failure for each row, counting them, and commit. */
    method FailRuns(uow: UnitOfWork, ids: seq<Id>, now: Instant, ghost threshold: nat, fault: bool)
      returns (recovered: Option<nat>)
      requires uow.database == database && uow.pending == []
      requires Enumerates(ids, OverdueRuns(database.store, now - threshold))
      modifies uow, database
      ensures recovered == if fault then None else Some(|ids|)
      ensures fault ==> database.store == old(database.store)
      ensures !fault ==> RunsRecovered(old(database.store), now, threshold, database.store)
      ensures !fault ==> ApplyAll(old(database.store), RunRecoveryWrites(ids, now)) == Some(database.store)
    {
      ghost var start := database.store;
      var count := 0;
      for n := 0 to |ids|
        invariant count == n && uow.pending == RunRecoveryWrites(ids[..n], now)
        invariant database.store == start
      {
        assert ids[..n + 1][..n] == ids[..n];
        uow.Stage(ReplaceExecution(ids[n], TriageFailed, now, Some(StaleExecution)));
        uow.Stage(AppendAudit(StaleExecutionRecovered(ids[n])));
        count := count + 1;
      }
      assert ids[..|ids|] == ids;
      RunRecoveryApplies(start, ids, now);
      var ok := uow.Commit(fault);
      recovered := if ok then Some(count) else None;
      if ok {
        RunsRecoveredByEffect(start, now, threshold, ids, database.store);
      }
    }

    method RecoverStaleActions(now: Instant, fault: bool) returns (recovered: Option<nat>, ghost answer: seq<Id>)
      requires PrimaryKeysUnique(database.store)
      requires forall a | a in database.store.actionExecutions :: database.store.actionExecutions[a].actionId == a
      modifies database
      ensures recovered.None? ==> database.store == old(database.store)
      ensures recovered.Some? <==> actionThreshold <= now && !fault
      ensures recovered.Some? ==>
                StaleActions(old(database.store), now - actionThreshold, answer)
                && (forall a | a in answer :: a in old(database.store).actionExecutions)
                && ApplyAll(old(database.store), ActionRecoveryWrites(old(database.store), answer, now)) == Some(database.store)
      ensures recovered.Some? ==> ActionsRecovered(old(database.store), now, actionThreshold, database.store)
      ensures recovered.Some? ==> |database.store.audit| == |old(database.store).audit| + recovered.value
    {
      if now < actionThreshold {
        return None, [];
      }
      var uow := new UnitOfWork(database);
      ghost var start := database.store;
      var ids := ListExecutingBefore(uow.snapshot, now - actionThreshold);
      answer := ids;
      recovered := FailActions(uow, ids, now, actionThreshold, fault);
    }

    method FailActions(uow: UnitOfWork, ids: seq<Id>, now: Instant, ghost threshold: nat, fault: bool)
      returns (recovered: Option<nat>)
      requires uow.database == database && uow.snapshot == database.store && uow.pending == []
      requires Enumerates(ids, OverdueActions(database.store, now - threshold))
      requires forall a | a in database.store.actionExecutions :: database.store.actionExecutions[a].actionId == a
      modifies uow, database
      ensures recovered == if fault then None else Some(|ids|)
      ensures fault ==> database.store == old(database.store)
      ensures !fault ==> ActionsRecovered(old(database.store), now, threshold, database.store)
      ensures forall a | a in ids :: a in old(database.store).actionExecutions
      ensures !fault ==> ApplyAll(old(database.store), ActionRecoveryWrites(old(database.store), ids, now)) == Some(database.store)
    {
      ghost var start := database.store;
      RowsReadAsStored(start, ids);
      var rows := uow.snapshot.actionExecutions;
      var count := 0;
      for n := 0 to |ids|
        invariant count == n && uow.pending == ActionRecoveryWrites(start, ids[..n], now)
        invariant database.store == start
      {
        assert ids[..n + 1][..n] == ids[..n] && ids[n] in ids;
        var row := rows[ids[n]];
        uow.Stage(ReplaceActionExecution(Expire(row, now)));
        uow.Stage(AppendAudit(StaleSimulationRecovered(row.actionId, row.actionExecutionId)));
        count := count + 1;
      }
      assert ids[..|ids|] == ids;
      ActionRecoveryApplies(start, start, ids, now);
      var ok := uow.Commit(fault);
      recovered := if ok then Some(count) else None;
      if ok {
        ActionsRecoveredByEffect(start, now, threshold, ids, database.store);
      }
    }
  }
}
