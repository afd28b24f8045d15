/** Idempotency keys over all runs: one driver for each key, losers that leave the winner
    alone, and replays that stay the same (application/orchestrator.py:101-105, 244-327). */
module Idempotency {
  import opened Base
  import opened Timestamps
  import opened Actions
  import opened Store
  import opened Workflow
  import opened Effects
  import opened History
  import opened Orchestration
  import opened System
  import opened Moves

  // ---- Ownership ------------------------------------------------------------------------------------------

  /** The execution row and the key are this run's. */
  ghost predicate OwnsRow(s: Store, r: Run)
  {
    && ParseIdentifier(r.key).Some?
    && var key := ParseIdentifier(r.key).value;
      && r.executionId in s.executions && s.executions[r.executionId].key == key
      && key in s.keys && s.keys[key] == r.executionId
  }

  ghost predicate PhaseFits(s: System, i: nat)
    requires i < |s.runs|
  {
    && (Driving(s.runs[i].phase) ==> i in s.started)
    && (s.runs[i].phase.Entered? || s.runs[i].phase.Starting? ==> i !in s.started)
  }

  ghost predicate Owned(s: System)
  {
    && (forall i | i in s.started :: i < |s.runs| && OwnsRow(Current(s.history), s.runs[i]))
    && (forall i, j | i in s.started && j in s.started && i != j ::
          && ParseIdentifier(s.runs[i].key) != ParseIdentifier(s.runs[j].key)
          && s.runs[i].executionId != s.runs[j].executionId)
    && (forall i | 0 <= i < |s.runs| :: PhaseFits(s, i))
    && forall k | 0 <= k < |s.drivers| :: s.drivers[k] in s.started
  }

  lemma OwnsRowKept(s: Store, t: Store, r: Run)
    requires OwnsRow(s, r) && Grows(s, t)
    ensures OwnsRow(t, r)
  {
  }

  /** Steps that touch no run. */
  lemma OwnedByHistory(s: System, t: System)
    requires Owned(s) && Grows(Current(s.history), Current(t.history))
    requires t.runs == s.runs && t.started == s.started && t.drivers == s.drivers
    ensures Owned(t)
  {
    forall i | i in t.started ensures i < |t.runs| && OwnsRow(Current(t.history), t.runs[i]) {
      OwnsRowKept(Current(s.history), Current(t.history), s.runs[i]);
    }
    assert forall i | 0 <= i < |t.runs| :: PhaseFits(s, i) ==> PhaseFits(t, i);
  }

  /** One run changes phase; its start may have become durable. */
  lemma OwnedByPhase(s: System, i: nat, next: Phase, t: System, starts: bool)
    requires Owned(s) && i < |s.runs| && Grows(Current(s.history), Current(t.history))
    requires t.runs == s.runs[i := s.runs[i].(phase := next)]
    requires t.started == if starts then s.started + {i} else s.started
    requires starts ==>
               && NewKey(Current(s.history), s.runs[i].key)
               && s.runs[i].executionId !in Current(s.history).executions
               && OwnsRow(Current(t.history), s.runs[i])
    requires Driving(next) ==> i in t.started
    requires next.Starting? || next.Entered? ==> i !in t.started
    requires t.drivers == s.drivers || (t.drivers == s.drivers + [i] && i in t.started)
    ensures Owned(t)
  {
    var before, after := Current(s.history), Current(t.history);
    forall j | j in t.started ensures j < |t.runs| && OwnsRow(after, t.runs[j]) {
      if j in s.started {
        OwnsRowKept(before, after, s.runs[j]);
      }
      assert OwnsRow(after, s.runs[j]);
    }
    forall j | j in s.started ensures OwnsRow(before, s.runs[j]) {
    }
    forall j | 0 <= j < |t.runs| ensures PhaseFits(t, j) {
      assert PhaseFits(s, j);
    }
  }

  // ---- Every move keeps ownership -----------------------------------------------------------------------------

  /** A durable start makes this run the owner of a key and a row nobody had. */
  lemma StartOwns(s: Store, r: Run, now: Instant, t: Store)
    requires Changes(s, t, StartRun(r.alert, r.key, r.executionId, now))
    ensures NewKey(s, r.key) && r.executionId !in s.executions && OwnsRow(t, r)
  {
  }

  lemma GoesOwned(s: System, i: nat, ending: Ending, next: Phase, t: System)
    requires Owned(s) && i < |s.runs| && RunGoes(s, i, ending, next, t) && Grows(Current(s.history), Current(t.history))
    ensures Owned(t)
  {
    var r := s.runs[i];
    assert PhaseFits(s, i);
    var starts := r.phase.Starting? && ending == Durable;
    if starts {
      StartOwns(Current(s.history), r, r.phase.now, Current(t.history));
    }
    OwnedByPhase(s, i, next, t, starts);
  }

  lemma ArriveOwned(s: System, r: Run)
    requires Owned(s) && r.phase.Entered?
    ensures Owned(s.(runs := s.runs + [r]))
  {
    var t := s.(runs := s.runs + [r]);
    forall j | j in t.started ensures j < |t.runs| && OwnsRow(Current(t.history), t.runs[j]) {
      assert t.runs[j] == s.runs[j];
    }
    forall j | 0 <= j < |t.runs| ensures PhaseFits(t, j) {
      if j < |s.runs| {
        assert PhaseFits(s, j);
      } else {
        assert j !in s.started;
      }
    }
  }

  lemma MovesOwned(s: System, m: Move, t: System)
    requires Owned(s) && Makes(s, m, t)
    ensures Owned(t)
  {
    MovesGrow(s, m, t);
    match m
    case Goes(i, _, _, ending, next) => GoesOwned(s, i, ending, next, t);
    case Enters(r) => ArriveOwned(s, r);
    case Dies(i) => OwnedByPhase(s, i, Ended(None), t, false);
    case _ => OwnedByHistory(s, t);
  }

  lemma OwnedInvariant()
    ensures Invariant(s => Owned(s))
  {
    forall s: System, m, t | Owned(s) && Makes(s, m, t) ensures Owned(t) {
      MovesOwned(s, m, t);
    }
  }

  // ---- The guarantees ---------------------------------------------------------------------------------------------

  lemma ReachableOwned(cfg: Config, s: System)
    requires Reachable(cfg, s)
    ensures Owned(s)
  {
    OwnedInvariant();
    ReachableInvariant(cfg, s => Owned(s), s);
  }

  /** Two runs whose keys parse to the same identifier. */
  predicate SameKey(s: System, i: nat, j: nat)
  {
    i < |s.runs| && j < |s.runs| && ParseIdentifier(s.runs[i].key) == ParseIdentifier(s.runs[j].key)
  }

  /** Whatever is interleaved, stale reads and faults included, at most one run for each stored
      key ever calls the reasoner or the gateway. */
  lemma OneDriverPerKey(cfg: Config, s: System, i: nat, j: nat)
    requires Reachable(cfg, s) && i in s.drivers && j in s.drivers && SameKey(s, i, j)
    ensures i == j
  {
    ReachableOwned(cfg, s);
  }

  /** A run that has asked its reasoner, or its gateway, and waits. */
  predicate HasAsked(p: Phase)
  {
    p.Thinking? || p.Calling? || p.Persisting?
  }

  /** The log of drivers misses none. */
  predicate DriversLogged(s: System)
  {
    forall i | 0 <= i < |s.runs| && HasAsked(s.runs[i].phase) :: i in s.drivers
  }

  /** A run comes to ask only from a phase that has asked, or by asking its reasoner. */
  lemma AsksAfter(cfg: Config, r: Run, snap: Store, ending: Ending, clock: Instant, x: Input)
    ensures var next := Next(cfg, r, snap, ending, clock, x);
      HasAsked(next) ==> HasAsked(r.phase) || (r.phase.Head? && next.Thinking?)
  {
  }

  lemma GoesLogged(cfg: Config, s: System, m: Move, t: System)
    requires DriversLogged(s) && m.Goes? && Makes(s, m, t) && GoesByNext(cfg, s, m)
    ensures DriversLogged(t)
  {
    AsksAfter(cfg, s.runs[m.going], m.snap, m.ending, s.clock, m.input);
    forall i | 0 <= i < |t.runs| && HasAsked(t.runs[i].phase) ensures i in t.drivers {
      assert i != m.going ==> t.runs[i] == s.runs[i];
    }
  }

  lemma OthersLogged(s: System, m: Move, t: System)
    requires DriversLogged(s) && !m.Goes? && Makes(s, m, t)
    ensures DriversLogged(t)
  {
    forall i | 0 <= i < |t.runs| && HasAsked(t.runs[i].phase) ensures i in t.drivers {
      assert i < |s.runs| && HasAsked(s.runs[i].phase);
    }
  }

  lemma {:induction false} EveryDriverLogged(cfg: Config, steps: seq<Step>)
    ensures DriversLogged(RunSteps(cfg, steps))
  {
    if steps != [] {
      var init, step := steps[..|steps| - 1], steps[|steps| - 1];
      EveryDriverLogged(cfg, init);
      SystemRecorded(cfg, init);
      var m := StepMoves(cfg, RunSteps(cfg, init), step);
      if m.Goes? {
        GoesLogged(cfg, RunSteps(cfg, init), m, RunSteps(cfg, steps));
      } else {
        OthersLogged(RunSteps(cfg, init), m, RunSteps(cfg, steps));
      }
    }
  }

  /** Every run that has asked its reasoner or its gateway is among the drivers. */
  lemma DriversMissNone(cfg: Config, s: System, i: nat)
    requires Reachable(cfg, s) && i < |s.runs| && HasAsked(s.runs[i].phase)
    ensures i in s.drivers
  {
    var steps: seq<Step> :| s == RunSteps(cfg, steps);
    EveryDriverLogged(cfg, steps);
  }

  /** Everything stored about one execution. */
  ghost predicate ExecutionUntouched(s: Store, t: Store, e: Id)
  {
    && e in s.executions && e in t.executions && t.executions[e] == s.executions[e]
    && (e in t.results <==> e in s.results) && (e in s.results ==> t.results[e] == s.results[e])
    && forall c | c in t.invocations && t.invocations[c].record.executionId == e ::
      c in s.invocations && s.invocations[c] == t.invocations[c]
  }

  lemma StartTouches(s: Store, snap: Store, r: Run, key: Id, now: Instant, t: Store, e: Id)
    requires StartEffect(s, snap, r.alert, key, r.executionId, now, t) && e in s.executions
    ensures ExecutionUntouched(s, t, e)
  {
  }

  lemma ToolTouches(s: Store, row: InvocationRow, t: Store, e: Id)
    requires ToolEffect(s, row, t) && e in s.executions && e != row.record.executionId
    ensures ExecutionUntouched(s, t, e)
  {
  }

  lemma FinalTouches(s: Store, snap: Store, own: Id, d: Policy.PolicyDecision, now: Instant, t: Store, e: Id)
    requires FinalEffect(s, snap, own, d, now, t) && e in s.executions && e != own
    ensures ExecutionUntouched(s, t, e)
  {
  }

  lemma FailureTouches(s: Store, snap: Store, own: Id, category: FailureCategory, now: Instant, t: Store, e: Id)
    requires FailureEffect(s, snap, own, category, now, t) && e in s.executions && e != own
    ensures ExecutionUntouched(s, t, e)
  {
  }

  /** A run's transactions touch no execution but its own. */
  lemma RunTouchesOnlyItself(cfg: Config, s: Store, snap: Store, r: Run, clock: Instant, t: Store, e: Id)
    requires TransactionOf(r, clock).Some? && Effect(cfg, s, snap, TransactionOf(r, clock).value, t)
    requires r.phase.Persisting? ==> r.phase.record.executionId == r.executionId
    requires e in s.executions && e != r.executionId
    ensures ExecutionUntouched(s, t, e)
  {
    match r.phase
    case Starting(now) => StartTouches(s, snap, r, ParseIdentifier(r.key).value, now, t, e);
    case Persisting(_, _, record, result, _) => ToolTouches(s, InvocationRow(record, result.result), t, e);
    case Finalizing(_, decision, _, _) => FinalTouches(s, snap, r.executionId, decision, clock, t, e);
    case Recording(_, category, _) => FailureTouches(s, snap, r.executionId, category, clock, t, e);
    case _ =>
  }

  /** A start that loses the race for a key, or whose key does not parse, changes nothing. */
  lemma LoserCommitsNothing(cfg: Config, s: Store, snap: Store, r: Run, now: Instant, fault: bool)
    requires Grows(snap, s) && Consistent(snap) && !NewKey(s, r.key)
    ensures Attempt(cfg, s, snap, StartRun(r.alert, r.key, r.executionId, now), fault).0 != Durable
    ensures Attempt(cfg, s, snap, StartRun(r.alert, r.key, r.executionId, now), fault).1 == s
  {
    AttemptEffect(cfg, s, snap, StartRun(r.alert, r.key, r.executionId, now), fault);
  }

  /** The loser's failure record has marked this execution FAILED and said so. */
  ghost predicate MarkedFailed(s: Store, t: Store, e: Id, now: Instant)
  {
    && e in s.executions
    && t == s.(executions := s.executions[e := s.executions[e].(
                 state := TriageFailed, updatedAt := now, failure := Some(StartPersistenceFailed))],
               audit := s.audit + [PersistenceFailed(e, StartPersistenceFailed)])
  }

  /** The failure a losing start then records changes the winner exactly when the loser carries
      the winner's own execution identifier, the winner was RUNNING in the state it read, and
      no fault prevents it; in every other case it leaves the winner alone. */
  lemma LoserChangesWinnerExactly(cfg: Config, s: Store, snap: Store, r: Run, winner: Id, clock: Instant, fault: bool)
    requires Grows(snap, s) && Consistent(snap) && winner in s.executions
    ensures var t := Attempt(cfg, s, snap, FailRun(r.executionId, StartPersistenceFailed, clock), fault).1;
      && (MarkedFailed(s, t, winner, clock) <==> r.executionId == winner && !fault && RunningIn(snap, winner))
      && (!MarkedFailed(s, t, winner, clock) ==> ExecutionUntouched(s, t, winner))
  {
    var t := FailureAttempt(cfg, s, snap, r.executionId, clock, fault);
    if !fault && RunningIn(snap, r.executionId) {
      FailureMarks(s, snap, r.executionId, clock, t, winner);
    } else {
      UnchangedMarksNothing(s, winner, clock);
    }
  }

  /** The execution was RUNNING in this state. */
  predicate RunningIn(s: Store, e: Id)
  {
    e in s.executions && s.executions[e].state == Running
  }

  lemma UnchangedMarksNothing(s: Store, winner: Id, now: Instant)
    requires winner in s.executions
    ensures !MarkedFailed(s, s, winner, now) && ExecutionUntouched(s, s, winner)
  {
    assert |s.audit + [PersistenceFailed(winner, StartPersistenceFailed)]| == |s.audit| + 1;
  }

  lemma FailureAttempt(cfg: Config, s: Store, snap: Store, e: Id, now: Instant, fault: bool) returns (t: Store)
    requires Grows(snap, s) && Consistent(snap)
    ensures t == Attempt(cfg, s, snap, FailRun(e, StartPersistenceFailed, now), fault).1
    ensures if !fault && RunningIn(snap, e) then FailureEffect(s, snap, e, StartPersistenceFailed, now, t) else t == s
  {
    var x := FailRun(e, StartPersistenceFailed, now);
    DurableExactly(cfg, s, snap, x, fault);
    AttemptEffect(cfg, s, snap, x, fault);
    t := Attempt(cfg, s, snap, x, fault).1;
  }

  lemma FailureMarks(s: Store, snap: Store, own: Id, now: Instant, t: Store, winner: Id)
    requires FailureEffect(s, snap, own, StartPersistenceFailed, now, t) && winner in s.executions
    ensures MarkedFailed(s, t, winner, now) <==> own == winner
    ensures own != winner ==> ExecutionUntouched(s, t, winner)
  {
    assert t.audit[|s.audit|] == PersistenceFailed(own, StartPersistenceFailed);
  }

  /** Once a key's result is durable every later lookup that succeeds returns that result. */
  lemma ReplayIsStable(s: Store, t: Store, key: Id)
    requires Grows(s, t) && key in s.keys && s.keys[key] in s.results
    ensures Lookup(t, key) == Some(Outcome(s.keys[key], true, IdempotentReplay, Some(s.results[s.keys[key]])))
  {
  }

  /** Stored keys are what keys parse to, so stripping leaves them alone. */
  ghost predicate KeysParsed(s: Store)
  {
    forall k | k in s.keys :: IsIdentifier(k)
  }

  ghost predicate AllKeysParsed(h: Commits)
  {
    forall i | 0 <= i < |h| :: KeysParsed(h[i])
  }

  lemma ChangesKeysParsed(s: Store, t: Store, x: Transaction)
    requires KeysParsed(s) && Changes(s, t, x)
    ensures KeysParsed(t)
  {
  }

  lemma MovesKeysParsed(s: System, m: Move, t: System)
    requires AllKeysParsed(s.history) && Makes(s, m, t)
    ensures AllKeysParsed(t.history)
  {
    assert KeysParsed(Current(s.history));
    MovesAttempt(s, m, t);
    var x := Attempts(s, m);
    if x.Some? && Added(s.history, x.value, t.history) {
      ChangesKeysParsed(Current(s.history), Current(t.history), x.value);
    }
  }

  lemma KeysInvariant()
    ensures Invariant((s: System) => AllKeysParsed(s.history))
  {
    forall s: System, m, t | AllKeysParsed(s.history) && Makes(s, m, t) ensures AllKeysParsed(t.history) {
      MovesKeysParsed(s, m, t);
    }
  }

  /** What this key parses to had a stored result in an earlier state. */
  ghost predicate HasResult(s: Store, key: string)
  {
    && ParseIdentifier(key).Some? && ParseIdentifier(key).value in s.keys
    && s.keys[ParseIdentifier(key).value] in s.results
  }

  /** A run enters when its key has a result, and its lookup, on that state or a later one,
      does not fail. */
  ghost predicate EntersAfterResult(s: System, i: nat, x: Input, n: nat)
  {
    && i < |s.runs| && s.runs[i].phase.Entered? && !x.fault
    && n < |s.history| && x.lag < |s.history| - n && HasResult(s.history[n], s.runs[i].key)
  }

  ghost function ReplayOf(s: Store, key: string): Outcome
    requires HasResult(s, key)
  {
    var e := s.keys[ParseIdentifier(key).value];
    Outcome(e, true, IdempotentReplay, Some(s.results[e]))
  }

  /** A lookup by a key whose result is stored: the replay for a stripped key, nothing for any
      other. */
  lemma LookupAfterResult(s: Store, t: Store, key: string)
    requires HasResult(s, key) && Grows(s, t) && KeysParsed(t)
    ensures Lookup(t, key) == if Stripped(key) then Some(ReplayOf(s, key)) else None
  {
    StripFixpoint(key);
    if Stripped(key) {
      ReplayIsStable(s, t, key);
    } else if key in t.keys {
      IdentifierIsStripped(key);
    }
  }

  lemma EnteredPhase(s: System, i: nat, x: Input, n: nat)
    requires Sound(s.history) && AllKeysParsed(s.history) && EntersAfterResult(s, i, x, n)
    ensures var (r, snap) := (s.runs[i], Snapshot(s.history, x.lag));
      AfterLookup(r.key, r.executionId, snap, x.fault, s.clock)
      == if Stripped(r.key) then Ended(Some(ReplayOf(s.history[n], r.key))) else Starting(s.clock)
  {
    GrowsBetween(s.history, n, |s.history| - 1 - x.lag);
    LookupAfterResult(s.history[n], Snapshot(s.history, x.lag), s.runs[i].key);
  }

  /** The run of this number has come to this phase, and nothing else has changed. */
  ghost predicate ComesTo(s: System, i: nat, next: Phase, t: System)
  {
    i < |s.runs| && t == s.(runs := s.runs[i := s.runs[i].(phase := next)])
  }

  lemma EnteredStep(cfg: Config, s: System, i: nat, x: Input, r: Run, next: Phase)
    requires i < |s.runs| && s.runs[i] == r && r.phase.Entered? && x.lag < |s.history|
    requires next == AfterLookup(r.key, r.executionId, Snapshot(s.history, x.lag), x.fault, s.clock)
    ensures ComesTo(s, i, next, Apply(cfg, s, Advance(i, x)))
  {
  }

  /** It is the phase a lookup leads to when this state has the result. */
  ghost predicate LookedUp(s: System, i: nat, n: nat, t: System)
  {
    && i < |s.runs| && n < |s.history| && HasResult(s.history[n], s.runs[i].key)
    && ComesTo(s, i, if Stripped(s.runs[i].key) then Ended(Some(ReplayOf(s.history[n], s.runs[i].key))) else Starting(s.clock), t)
  }

  /** In every reachable state: a run that enters after a durable result under its key, and
      whose lookup succeeds on any state from then on, ends with that result and commits
      nothing if the key carries no surrounding white space; otherwise it goes on to start. */
  lemma ReplayExactly(cfg: Config, s: System, i: nat, x: Input, n: nat)
    requires Reachable(cfg, s) && EntersAfterResult(s, i, x, n)
    ensures LookedUp(s, i, n, Apply(cfg, s, Advance(i, x)))
  {
    KeysInvariant();
    ReachableInvariant(cfg, (s: System) => AllKeysParsed(s.history), s);
    EnteredPhase(s, i, x, n);
    var r := s.runs[i];
    EnteredStep(cfg, s, i, x, r, AfterLookup(r.key, r.executionId, Snapshot(s.history, x.lag), x.fault, s.clock));
  }

  /** The run is about to start under a key whose parsed text is stored. */
  ghost predicate StartsStored(s: System, i: nat)
  {
    i < |s.runs| && s.runs[i].phase.Starting? && !NewKey(Current(s.history), s.runs[i].key)
  }

  /** The run records that its start failed, and nothing was committed. */
  ghost predicate StartRefused(s: System, i: nat, t: System)
  {
    && i < |s.runs| && s.runs[i].phase.Starting? && i < |t.runs|
    && t.history == s.history && t.runs[i].phase == Recording(s.runs[i].phase.now, StartPersistenceFailed, s.clock)
  }

  lemma RefusedStart(cfg: Config, s: System, i: nat, m: Move, t: System)
    requires StartsStored(s, i) && Makes(s, m, t) && m.Goes? && m.going == i && GoesByNext(cfg, s, m)
    ensures StartRefused(s, i, t)
  {
  }

  /** What becomes of the others: once what its key parses to is stored, a start never commits;
      it ends in recording a failure, never in a replay. */
  lemma StoredKeyNeverStarts(cfg: Config, s: System, i: nat, x: Input)
    requires Reachable(cfg, s) && StartsStored(s, i) && x.lag < |s.history|
    ensures StartRefused(s, i, Apply(cfg, s, Advance(i, x)))
  {
    ReachableSound(cfg, s);
    var m := RunMoves(cfg, s, i, x);
    RefusedStart(cfg, s, i, m, Apply(cfg, s, Advance(i, x)));
  }

  /** A key that ends in a no-break space, which is white space to the stored model and not to
      the header that carries it. */
  lemma NoBreakSpaceKeyIsStripped()
    ensures ParseIdentifier("key-1\U{00A0}") == Some("key-1") && !Stripped("key-1\U{00A0}")
  {
    var raw := "key-1\U{00A0}";
    assert raw[..|raw| - 1] == "key-1";
    assert StripRight(raw) == StripRight("key-1") == "key-1";
  }
}
