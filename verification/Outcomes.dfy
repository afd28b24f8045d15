/** Why a whole run returns what it returns: every outcome of a run that has the store to itself
    has its cause at one step of the run, and every cause its outcome
    (application/orchestrator.py:93-271). */
module Outcomes {
  import opened Base
  import opened Timestamps
  import opened Policy
  import opened Workflow
  import opened Orchestration
  import opened Exits
  import opened Orchestrator

  /** Where the run is after this many steps. */
  ghost function After(cfg: Config, w: World, p: Point, k: nat): Point
  {
    Walk(Machine(cfg, w), p, k)
  }

  /** How the transaction of the phase ends at this point. */
  ghost function EndingAt(w: World, q: Point): Ending
  {
    var tx := TransactionOf(q.run, w.clock(q.steps));
    if tx.Some? then RunAttempt(q.store, q.store, tx.value, w.inputs(q.steps).fault).0 else Left
  }

  lemma StepGoes(cfg: Config, w: World, p: Point, k: nat)
    ensures var q, t := After(cfg, w, p, k), After(cfg, w, p, k + 1);
      && t.steps == q.steps + 1 && t.run == q.run.(phase := t.run.phase)
      && t.run.phase == Next(cfg, q.run, q.store, EndingAt(w, q), w.clock(q.steps), w.inputs(q.steps))
  {
  }

  /** At this point the run comes to this decision for this reason: it stops for the cause and
      nobody sees a candidate, or everything its candidate cites was accumulated and the policy
      decides on it. */
  ghost predicate Reasoned(cfg: Config, w: World, q: Point, reason: ReasonCode, d: PolicyDecision)
  {
    var clock, x := w.clock(q.steps), w.inputs(q.steps);
    match reason
    case Terminated(t) => Causes(cfg, q.run, EndingAt(w, q), clock, x, t) && ReviewsUnseen(d, q.run.alert.alertId, clock)
    case CandidateCompleted => Concludes(cfg, q.run, clock, x, d, reason)
    case PolicySafeReview => Concludes(cfg, q.run, clock, x, d, reason)
    case _ => false
  }

  ghost predicate Concludes(cfg: Config, r: Run, clock: Instant, x: Input, d: PolicyDecision, reason: ReasonCode)
  {
    exists c :: Offered(r, x, c) && CitesAccumulated(c, r.phase.loop.accumulated) && DecidedBy(cfg, r, clock, x, c, d, reason)
  }

  /** A run is about to commit a decision exactly when the step before came to it. */
  lemma FinalizesExactly(cfg: Config, w: World, p: Point, k: nat, reason: ReasonCode, d: PolicyDecision)
    requires Deterministic(cfg)
    ensures var next := After(cfg, w, p, k + 1).run.phase;
      Reasoned(cfg, w, After(cfg, w, p, k), reason, d) <==> next.Finalizing? && next.reason == reason && next.decision == d
  {
    var q := After(cfg, w, p, k);
    var clock, x := w.clock(q.steps), w.inputs(q.steps);
    StepGoes(cfg, w, p, k);
    DecidesExactly(cfg, q.run, q.store, EndingAt(w, q), clock, x);
    if reason.Terminated? {
      StopsExactly(cfg, q.run, q.store, EndingAt(w, q), clock, x, reason.termination);
      SafeReviewMeaning(d, q.run.alert.alertId, clock);
    }
  }

  /** And then it ends with that decision's result and that reason exactly when the commit is
      durable. */
  lemma ReasonedEnds(cfg: Config, w: World, p: Point, k: nat, reason: ReasonCode, d: PolicyDecision)
    requires Deterministic(cfg) && Reasoned(cfg, w, After(cfg, w, p, k), reason, d)
    ensures After(cfg, w, p, k + 2).run.phase == Ended(Some(Outcome(p.run.executionId, true, reason, Some(d.result))))
       <==> EndingAt(w, After(cfg, w, p, k + 1)) == Durable
  {
    FinalizesExactly(cfg, w, p, k, reason, d);
    SameRun(cfg, w, p, k + 1);
    StepGoes(cfg, w, p, k + 1);
    var q := After(cfg, w, p, k + 1);
    DurableEndsExactly(cfg, q.run, q.store, EndingAt(w, q), w.clock(q.steps), w.inputs(q.steps));
  }

  lemma {:induction false} SameRun(cfg: Config, w: World, p: Point, k: nat)
    ensures var q := After(cfg, w, p, k); q.run == p.run.(phase := q.run.phase)
  {
    if k > 0 {
      SameRun(cfg, w, p, k - 1);
      StepGoes(cfg, w, p, k - 1);
    }
  }

  /** The outcome has its reason in an earlier step, whose decision became durable. */
  ghost predicate HasReason(cfg: Config, w: World, p: Point, k: nat, o: Outcome)
  {
    exists j: nat, d :: j + 2 <= k && Reasoned(cfg, w, After(cfg, w, p, j), o.reason, d)
      && o == Outcome(p.run.executionId, true, o.reason, Some(d.result))
  }

  /** What an outcome says is so. */
  ghost predicate Explained(cfg: Config, w: World, p: Point, k: nat, o: Outcome)
  {
    match o.reason
    case IdempotentReplay => Replays(p.store, p.run.key, o)
    case PersistenceFailure => SaysNotDurable(o, p.run.executionId)
    case _ => HasReason(cfg, w, p, k, o)
  }

  lemma EntryExplained(cfg: Config, w: World, p: Point, o: Outcome)
    requires p.run.phase.Entered? && After(cfg, w, p, 1).run.phase == Ended(Some(o))
    ensures Explained(cfg, w, p, 1, o)
  {
    StepGoes(cfg, w, p, 0);
    EntersExactly(cfg, p.run, p.store, EndingAt(w, p), w.clock(p.steps), w.inputs(p.steps));
  }

  /** Only the first step is an entry. */
  lemma EnteredOnce(cfg: Config, w: World, p: Point, k: nat)
    requires k > 0
    ensures !After(cfg, w, p, k).run.phase.Entered?
  {
    StepGoes(cfg, w, p, k - 1);
  }

  lemma EndingExplained(cfg: Config, w: World, p: Point, k: nat, o: Outcome)
    requires Deterministic(cfg) && k > 0 && !After(cfg, w, p, k).run.phase.Ended?
    requires After(cfg, w, p, k + 1).run.phase == Ended(Some(o))
    ensures Explained(cfg, w, p, k + 1, o)
  {
    var q := After(cfg, w, p, k);
    StepGoes(cfg, w, p, k);
    SameRun(cfg, w, p, k);
    EnteredOnce(cfg, w, p, k);
    EndsExactly(cfg, q.run, q.store, EndingAt(w, q), w.clock(q.steps), w.inputs(q.steps));
    if q.run.phase.Finalizing? && EndingAt(w, q) == Durable {
      FinalizesExactly(cfg, w, p, k - 1, q.run.phase.reason, q.run.phase.decision);
      assert k - 1 + 2 <= k + 1;
    }
  }

  lemma ExplainedLater(cfg: Config, w: World, p: Point, k: nat, o: Outcome)
    requires Explained(cfg, w, p, k, o)
    ensures Explained(cfg, w, p, k + 1, o)
  {
    if HasReason(cfg, w, p, k, o) {
      var j: nat, d :| j + 2 <= k && Reasoned(cfg, w, After(cfg, w, p, j), o.reason, d)
        && o == Outcome(p.run.executionId, true, o.reason, Some(d.result));
      assert j + 2 <= k + 1;
    }
  }

  lemma EndedStays(cfg: Config, w: World, p: Point, k: nat)
    requires After(cfg, w, p, k).run.phase.Ended?
    ensures After(cfg, w, p, k + 1).run.phase == After(cfg, w, p, k).run.phase
  {
    StepGoes(cfg, w, p, k);
  }

  /** Every outcome of a run is explained: a replay by what was stored under its key when it
      entered, a decision by the step that came to it, and otherwise nothing is durable. */
  lemma {:induction false} EveryOutcomeExplained(cfg: Config, w: World, p: Point, k: nat, o: Outcome)
    requires Deterministic(cfg) && p.run.phase.Entered?
    requires After(cfg, w, p, k).run.phase == Ended(Some(o))
    ensures Explained(cfg, w, p, k, o)
  {
    if k == 1 {
      EntryExplained(cfg, w, p, o);
    } else if k > 1 {
      if After(cfg, w, p, k - 1).run.phase.Ended? {
        EndedStays(cfg, w, p, k - 1);
        EveryOutcomeExplained(cfg, w, p, k - 1, o);
        ExplainedLater(cfg, w, p, k - 1, o);
      } else {
        EndingExplained(cfg, w, p, k - 1, o);
      }
    }
  }

  /** So it is with what `run` returns. */
  lemma RunExplained(cfg: Config, w: World, p: Point, q: Point, o: Outcome)
    requires Deterministic(cfg) && p.run.phase.Entered? && p.steps == 0
    requires Visits(cfg, w, p, q) && q.run.phase == Ended(Some(o))
    ensures q.steps >= 0 && Explained(cfg, w, p, q.steps, o)
  {
    EveryOutcomeExplained(cfg, w, p, q.steps, o);
  }
}
