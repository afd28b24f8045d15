/** When a run ends without returning an outcome: exactly which exceptions leave `run`, and that
    they leave its row RUNNING (application/orchestrator.py:119-147, 214, 532-557). */
module Escapes {
  import opened Base
  import opened Json
  import opened Timestamps
  import opened Entities
  import opened Actions
  import opened Triage
  import opened Gateway
  import opened Store
  import opened Workflow
  import opened Effects
  import opened History
  import opened Lockstep
  import opened Orchestration
  import opened System
  import opened Moves
  import opened Provenance
  import opened Refinement
  import opened Stages

  // ---- Evidence that cannot be built ---------------------------------------------------------------------

  /** The text validates as a field of 1 to `limit` characters. */
  predicate Fits(raw: string, limit: nat)
  {
    1 <= |Strip(raw)| <= limit
  }

  /** A version of the outcome's provenance does not fit, or its status is too long for a
      summary that also names the tool. */
  predicate EvidenceFails(cfg: Config, toolName: Id, outcome: Json)
  {
    || !Fits(TextField(cfg, ProvenanceOf(outcome), "tool_version", "unknown"), 64)
    || !Fits(TextField(cfg, ProvenanceOf(outcome), "fixture_version", "unknown"), 64)
    || |toolName| + |StatusOf(cfg, outcome)| > 491
  }

  /** A text that begins and ends with something other than white space is its own stripping. */
  lemma OwnStripping(s: string, limit: nat)
    requires s != "" && !IsSpace(s[0]) && !IsSpace(s[|s| - 1])
    ensures BoundedText(s, limit).Some? <==> |s| <= limit
  {
    StripFixpoint(s);
  }

  lemma EvidenceFailsExactly(cfg: Config, record: ToolInvocationRecord, outcome: Json, evidenceId: Id)
    requires record.toolName != "" && !IsSpace(record.toolName[0])
    ensures ToEvidence(cfg, record, outcome, evidenceId).None? <==> EvidenceFails(cfg, record.toolName, outcome)
  {
    var status := StatusOf(cfg, outcome);
    var returned, sanitized := record.toolName + " returned " + status + ".", "Sanitized " + record.toolName + " outcome: " + status + ".";
    assert returned[0] == record.toolName[0] && returned[|returned| - 1] == '.';
    assert sanitized[0] == 'S' && sanitized[|sanitized| - 1] == '.';
    OwnStripping(returned, 512);
    OwnStripping(sanitized, 512);
  }

  /** This is the text of the member with this key: the default without one, and as Python writes
      it when it is not text. */
  ghost predicate HasText(cfg: Config, v: Json, key: string, absent: string, text: string)
  {
    if v.Obj? && exists x :: Member(key, x) in v.members then
      exists x :: Member(key, x) in v.members && text == if x.Str? then x.text else cfg.repr(x)
    else text == absent
  }

  lemma TextFieldExactly(cfg: Config, v: Json, key: string, absent: string)
    requires WellFormed(v)
    ensures HasText(cfg, v, key, absent, TextField(cfg, v, key, absent))
  {
    if v.Obj? {
      FindExactly(v.members, key);
      var found := Find(v.members, key);
      if found.Some? {
        assert Member(key, found.value) in v.members;
      }
      if x :| Member(key, x) in v.members {
        assert found == Some(x);
      }
    }
  }

  /** The provenance of an outcome is the member with that key. */
  ghost predicate HasProvenance(outcome: Json, provenance: Json)
  {
    if outcome.Obj? && exists x :: Member("provenance", x) in outcome.members then Member("provenance", provenance) in outcome.members
    else provenance == Null
  }

  lemma ProvenanceExactly(outcome: Json)
    requires WellFormed(outcome)
    ensures HasProvenance(outcome, ProvenanceOf(outcome)) && WellFormed(ProvenanceOf(outcome))
  {
    if outcome.Obj? {
      FindExactly(outcome.members, "provenance");
      if x :| Member("provenance", x) in outcome.members {
        assert Find(outcome.members, "provenance") == Some(x);
      }
      if Find(outcome.members, "provenance").Some? {
        var x := Find(outcome.members, "provenance").value;
        var i :| 0 <= i < |outcome.members| && outcome.members[i] == Member("provenance", x);
        assert WellFormed(outcome.members[i].value);
      }
    }
  }

  /** What is made of a call and its outcome: the item names the call and the tool, has the time
      the call was completed and the version of the data; the reference to the call has the time
      it was made and the version of the tool; both say the outcome's status. */
  ghost predicate MakesEvidence(record: ToolInvocationRecord, outcome: Json, evidenceId: Id, status: string, data: string, tool: string, a: Accumulated)
  {
    && a.outcome == outcome
    && a.reference == EvidenceReference(evidenceId, record.toolName, record.callId, record.completedAt, Strip(data),
         "Sanitized " + record.toolName + " outcome: " + status + ".", Some(record.callId))
    && a.toolCall == ToolCallReference(record.callId, record.toolName, Strip(tool), record.startedAt,
         record.toolName + " returned " + status + ".")
  }

  lemma SummariesUnchanged(toolName: Id, status: string)
    requires toolName != "" && !IsSpace(toolName[0])
    ensures var returned, sanitized := toolName + " returned " + status + ".", "Sanitized " + toolName + " outcome: " + status + ".";
      Strip(returned) == returned && Strip(sanitized) == sanitized
  {
    var returned, sanitized := toolName + " returned " + status + ".", "Sanitized " + toolName + " outcome: " + status + ".";
    assert returned[0] == toolName[0] && returned[|returned| - 1] == '.';
    assert sanitized[0] == 'S' && sanitized[|sanitized| - 1] == '.';
    StripFixpoint(returned);
    StripFixpoint(sanitized);
  }

  lemma EvidenceMade(cfg: Config, record: ToolInvocationRecord, outcome: Json, evidenceId: Id)
    requires record.toolName != "" && !IsSpace(record.toolName[0])
    ensures var a, provenance := ToEvidence(cfg, record, outcome, evidenceId), ProvenanceOf(outcome);
      a.Some? ==>
        MakesEvidence(record, outcome, evidenceId, StatusOf(cfg, outcome), TextField(cfg, provenance, "fixture_version", "unknown"),
          TextField(cfg, provenance, "tool_version", "unknown"), a.value)
  {
    SummariesUnchanged(record.toolName, StatusOf(cfg, outcome));
  }

  lemma EvidenceExactly(cfg: Config, record: ToolInvocationRecord, outcome: Json, evidenceId: Id)
    returns (status: string, provenance: Json, data: string, tool: string)
    requires record.toolName != "" && !IsSpace(record.toolName[0]) && WellFormed(outcome)
    ensures HasText(cfg, outcome, "status", "UNKNOWN", status) && HasProvenance(outcome, provenance)
    ensures HasText(cfg, provenance, "fixture_version", "unknown", data) && HasText(cfg, provenance, "tool_version", "unknown", tool)
    ensures var a := ToEvidence(cfg, record, outcome, evidenceId);
      a.Some? ==> MakesEvidence(record, outcome, evidenceId, status, data, tool, a.value)
  {
    status, provenance := StatusOf(cfg, outcome), ProvenanceOf(outcome);
    data, tool := TextField(cfg, provenance, "fixture_version", "unknown"), TextField(cfg, provenance, "tool_version", "unknown");
    ProvenanceExactly(outcome);
    TextFieldExactly(cfg, outcome, "status", "UNKNOWN");
    TextFieldExactly(cfg, provenance, "fixture_version", "unknown");
    TextFieldExactly(cfg, provenance, "tool_version", "unknown");
    EvidenceMade(cfg, record, outcome, evidenceId);
  }

  /** What the gateway validates a tool's answer to be: FOUND or NOT_FOUND, with both versions
      in its provenance. */
  predicate ValidatedOutcome(v: Json)
  {
    && (FieldOf(v, "status") == Some(Str("FOUND")) || FieldOf(v, "status") == Some(Str("NOT_FOUND")))
    && VersionField(ProvenanceOf(v), "tool_version") && VersionField(ProvenanceOf(v), "fixture_version")
  }

  predicate VersionField(v: Json, key: string)
  {
    && FieldOf(v, key).Some? && FieldOf(v, key).value.Str? && Fits(FieldOf(v, key).value.text, 64)
  }

  lemma ValidatedNeverFails(cfg: Config, toolName: Id, v: Json)
    requires ApprovedTool(toolName) && ValidatedOutcome(v)
    ensures !EvidenceFails(cfg, toolName, v)
  {
  }

  // ---- The two exits ----------------------------------------------------------------------------------------

  /** Building the reasoner's context raises: the run shows targets, its deadline has not
      passed, and some entity of its alert is not an Identifier. */
  predicate ContextRaises(cfg: Config, r: Run, clock: Instant)
  {
    && r.phase.Head? && cfg.guidance
    && MonotonicMs(clock) - MonotonicMs(r.phase.loop.startedAt) < cfg.limits.deadlineMs
    && exists e | e in r.alert.entities :: !IsIdentifier(e.identifier)
  }

  /** Building the evidence raises: the record of a success is durable, there is room for one
      more item, and the tool's outcome does not fit it. */
  predicate EvidenceRaises(cfg: Config, r: Run, ending: Ending)
  {
    && r.phase.Persisting? && ending == Durable
    && r.phase.result.status.Success? && |r.phase.loop.accumulated| < cfg.limits.maxEvidenceItems
    && EvidenceFails(cfg, r.phase.record.toolName,
         if r.phase.result.result.Some? then r.phase.result.result.value else Obj([]))
  }

  ghost predicate ValidAlert(alert: SecurityAlert)
  {
    forall i | 0 <= i < |alert.entities| :: ValidEntity(alert.entities[i])
  }

  lemma HeadEscapes(cfg: Config, r: Run, snap: Store, ending: Ending, clock: Instant, x: Input)
    requires r.phase.Head? && r.phase.loop.gateway.scope == ScopeKeys(r.alert.entities) && ValidAlert(r.alert)
    ensures Next(cfg, r, snap, ending, clock, x) == Ended(None) <==> ContextRaises(cfg, r, clock)
  {
    ShownTargetsAreAdmitted(r.alert.entities);
  }

  lemma ToolEscapes(cfg: Config, r: Run, snap: Store, ending: Ending, clock: Instant, x: Input)
    requires r.phase.Persisting? && (r.phase.result.status.Success? ==> ApprovedTool(r.phase.record.toolName))
    ensures Next(cfg, r, snap, ending, clock, x) == Ended(None) <==> EvidenceRaises(cfg, r, ending)
  {
    var p := r.phase;
    if ending == Durable && p.result.status.Success? && |p.loop.accumulated| < cfg.limits.maxEvidenceItems {
      EvidenceFailsExactly(cfg, p.record, if p.result.result.Some? then p.result.result.value else Obj([]), x.newId);
    }
  }

  lemma ThinkingReturns(cfg: Config, r: Run, snap: Store, ending: Ending, clock: Instant, x: Input)
    requires r.phase.Thinking?
    ensures Next(cfg, r, snap, ending, clock, x) != Ended(None)
  {
  }

  lemma OthersReturn(cfg: Config, r: Run, snap: Store, ending: Ending, clock: Instant, x: Input)
    requires !r.phase.Head? && !r.phase.Thinking? && !r.phase.Persisting? && !r.phase.Ended?
    ensures Next(cfg, r, snap, ending, clock, x) != Ended(None)
  {
  }

  /** A success is recorded for an approved tool only. */
  lemma SuccessfulToolApproved(cfg: Config, s: Store, r: Run)
    requires ValidConfig(cfg) && r.phase.Persisting? && RunAccounted(cfg, r) && RunPaced(cfg, s, r)
    ensures r.phase.result.status.Success? ==> ApprovedTool(r.phase.record.toolName)
  {
    var g := r.phase.gateway;
    assert g.records[|g.records| - 1] == r.phase.record;
    assert AllowedInScope(cfg.registry, g);
  }

  lemma NextEscapes(cfg: Config, s: Store, r: Run, snap: Store, ending: Ending, clock: Instant, x: Input)
    requires ValidConfig(cfg) && RunAccounted(cfg, r) && RunPaced(cfg, s, r) && ValidAlert(r.alert) && !r.phase.Ended?
    ensures Next(cfg, r, snap, ending, clock, x) == Ended(None)
       <==> ContextRaises(cfg, r, clock) || EvidenceRaises(cfg, r, ending)
  {
    if r.phase.Head? {
      HeadEscapes(cfg, r, snap, ending, clock, x);
    } else if r.phase.Persisting? {
      SuccessfulToolApproved(cfg, s, r);
      ToolEscapes(cfg, r, snap, ending, clock, x);
    } else if r.phase.Thinking? {
      ThinkingReturns(cfg, r, snap, ending, clock, x);
    } else {
      OthersReturn(cfg, r, snap, ending, clock, x);
    }
  }

  /** A run that is not over, about a valid alert, can take a step that reads this far back. */
  ghost predicate MayStep(s: System, i: nat, x: Input)
  {
    i < |s.runs| && x.lag < |s.history| && ValidAlert(s.runs[i].alert) && !s.runs[i].phase.Ended?
  }

  /** One of the two exceptions is raised in its step. */
  ghost predicate Raised(cfg: Config, s: System, i: nat, x: Input)
  {
    && i < |s.runs|
    && (ContextRaises(cfg, s.runs[i], s.clock)
        || EvidenceRaises(cfg, s.runs[i], StepEnding(cfg, s.history, s.runs[i], s.clock, x)))
  }

  /** It has ended without an outcome. */
  predicate EndedWithout(t: System, i: nat)
  {
    i < |t.runs| && t.runs[i].phase == Ended(None)
  }

  /** In every reachable state a run's step ends it without an outcome exactly when building its
      context or building its evidence raises. */
  lemma RunEscapesExactly(cfg: Config, s: System, i: nat, x: Input)
    requires ValidConfig(cfg) && Reachable(cfg, s) && MayStep(s, i, x)
    ensures EndedWithout(Apply(cfg, s, Advance(i, x)), i) <==> Raised(cfg, s, i, x)
  {
    ReachableKept(cfg, s);
    var r := s.runs[i];
    NextEscapes(cfg, Current(s.history), r, Snapshot(s.history, x.lag), StepEnding(cfg, s.history, r, s.clock, x), s.clock, x);
  }

  /** The outcome of the call the run has made is one the gateway validates. */
  predicate CallValidated(r: Run)
  {
    r.phase.Persisting? && r.phase.result.status.Success? ==>
      r.phase.result.result.Some? && ValidatedOutcome(r.phase.result.result.value)
  }

  ghost predicate OutcomesValidated(s: System)
  {
    forall r | r in s.runs :: CallValidated(r)
  }

  ghost predicate ContextRaised(cfg: Config, s: System, i: nat)
  {
    i < |s.runs| && ContextRaises(cfg, s.runs[i], s.clock)
  }

  lemma ValidatedNeverRaises(cfg: Config, s: Store, r: Run, ending: Ending)
    requires ValidConfig(cfg) && RunAccounted(cfg, r) && RunPaced(cfg, s, r) && CallValidated(r)
    ensures !EvidenceRaises(cfg, r, ending)
  {
    if r.phase.Persisting? && r.phase.result.status.Success? {
      SuccessfulToolApproved(cfg, s, r);
      ValidatedNeverFails(cfg, r.phase.record.toolName, r.phase.result.result.value);
    }
  }

  /** With outcomes as the gateway validates them only the context raises. */
  lemma OnlyContextsRaise(cfg: Config, s: System, i: nat, x: Input)
    requires ValidConfig(cfg) && Reachable(cfg, s) && MayStep(s, i, x)
    requires OutcomesValidated(s)
    ensures EndedWithout(Apply(cfg, s, Advance(i, x)), i) <==> ContextRaised(cfg, s, i)
  {
    RunEscapesExactly(cfg, s, i, x);
    ReachableKept(cfg, s);
    ValidatedNeverRaises(cfg, Current(s.history), s.runs[i], StepEnding(cfg, s.history, s.runs[i], s.clock, x));
  }

  // ---- What is left behind ------------------------------------------------------------------------------------

  ghost predicate SameRows(s: Store, t: Store)
  {
    t.executions == s.executions && t.results == s.results
  }

  /** A run that goes to its end without an outcome leaves every execution its row and its
      result. */
  lemma EscapingMoveKeepsRows(s: System, m: Move, t: System)
    requires Makes(s, m, t) && m.Goes?
    requires m.going < |s.runs| && (s.runs[m.going].phase.Head? || s.runs[m.going].phase.Persisting?)
    ensures SameRows(Current(s.history), Current(t.history))
  {
  }

  /** So does a step that ends a run without an outcome. */
  lemma EscapeKeepsRows(cfg: Config, s: System, i: nat, x: Input)
    requires ValidConfig(cfg) && Reachable(cfg, s) && MayStep(s, i, x)
    requires EndedWithout(Apply(cfg, s, Advance(i, x)), i)
    ensures SameRows(Current(s.history), Current(Apply(cfg, s, Advance(i, x)).history))
  {
    RunEscapesExactly(cfg, s, i, x);
    ReachableSound(cfg, s);
    var m := RunMoves(cfg, s, i, x);
    EscapingMoveKeepsRows(s, m, Apply(cfg, s, Advance(i, x)));
  }

  /** Some entity of the alert, though valid, is not an Identifier. */
  predicate Unshowable(alert: SecurityAlert)
  {
    exists e | e in alert.entities :: !IsIdentifier(e.identifier)
  }

  /** The run at its first head, opened and begun at once. */
  function FirstHead(cfg: Config, r: Run, clock: Instant): Run
  {
    r.(phase := Head(FirstLoop(cfg, r, clock, clock), clock))
  }

  lemma FindsNothing(cfg: Config, r: Run, st: Store, clock: Instant)
    requires r.key !in st.keys
    ensures Alone(cfg, r.(phase := Entered), st, clock, Quiet(false)) == (st, r.(phase := Starting(clock)))
  {
  }

  /** The start's row is RUNNING, and no result has it. */
  ghost predicate Opens(st: Store, e: Id)
  {
    StateOf(st, e) == Some(Running) && e !in st.results
  }

  lemma StartCommits(cfg: Config, r: Run, st: Store, clock: Instant) returns (after: Store)
    requires Consistent(st) && AcceptsStart(st, st, r.alert, r.key, r.executionId)
    ensures Alone(cfg, r.(phase := Starting(clock)), st, clock, Quiet(false)) == (after, FirstHead(cfg, r, clock))
    ensures Opens(after, r.executionId)
  {
    GrowsReflexive(st);
    var x := StartRun(r.alert, r.key, r.executionId, clock);
    DurableExactly(cfg, st, st, x, false);
    AttemptEffect(cfg, st, st, x, false);
    RunAttemptNow(cfg, st, x, false);
    after := Attempt(cfg, st, st, x, false).1;
  }

  lemma FirstHeadRaises(cfg: Config, r: Run, st: Store, clock: Instant)
    requires cfg.guidance && cfg.limits.deadlineMs >= 1 && ValidAlert(r.alert) && Unshowable(r.alert)
    ensures Alone(cfg, FirstHead(cfg, r, clock), st, clock, Quiet(false)) == (st, r.(phase := Ended(None)))
  {
    HeadEscapes(cfg, FirstHead(cfg, r, clock), st, Left, clock, Quiet(false));
  }

  /** Wherever targets are shown, a run on such an alert that is given its start leaves: from
      every reachable state there is a next one in which it has ended without an outcome, its
      row RUNNING and without a result. */
  lemma RunStranded(cfg: Config, s: System, alert: SecurityAlert, key: string, e: Id) returns (t: System, st: Store)
    requires Reachable(cfg, s)
    requires cfg.guidance && cfg.limits.deadlineMs >= 1 && ValidAlert(alert) && Unshowable(alert)
    requires key !in Current(s.history).keys
    requires AcceptsStart(Current(s.history), Current(s.history), alert, key, e)
    ensures Reachable(cfg, t) && Stands(t, |s.runs|, Run(alert, key, e, Ended(None)), st, s.clock)
    ensures Opens(st, e)
  {
    ReachableSound(cfg, s);
    var i, now, r := |s.runs|, Current(s.history), Run(alert, key, e, Entered);
    assert Kept(now);
    ReachableStep(cfg, s, Arrive(alert, key, e));
    var arrived := Apply(cfg, s, Arrive(alert, key, e));
    FindsNothing(cfg, r, now, s.clock);
    var begun := AdvanceStands(cfg, arrived, i, r, now, s.clock, Quiet(false));
    st := StartCommits(cfg, r, now, s.clock);
    var atHead := AdvanceStands(cfg, begun, i, r.(phase := Starting(s.clock)), now, s.clock, Quiet(false));
    FirstHeadRaises(cfg, r, st, s.clock);
    t := AdvanceStands(cfg, atHead, i, FirstHead(cfg, r, s.clock), st, s.clock, Quiet(false));
  }

  const LOOPBACK := SecurityAlert("alert-1", "sha256:1", [EntityReference(IpAddress, "::1")])

  lemma LoopbackUnshowable()
    ensures ValidAlert(LOOPBACK) && Unshowable(LOOPBACK)
  {
    LoopbackKeyRaises();
    var e := LOOPBACK.entities[0];
    assert e in LOOPBACK.entities && !IsIdentifier(e.identifier);
  }

  lemma FirstStartAccepted(alert: SecurityAlert, key: Id, e: Id)
    requires IsIdentifier(key)
    ensures AcceptsStart(EMPTY_STORE, EMPTY_STORE, alert, key, e)
  {
    IdentifierIsStripped(key);
  }

  /** In particular the first run of such a deployment, under any key, on an alert about `::1`. */
  lemma LoopbackStranded(cfg: Config, key: Id, e: Id) returns (t: System, st: Store)
    requires cfg.guidance && cfg.limits.deadlineMs >= 1 && IsIdentifier(key)
    ensures Reachable(cfg, t) && Stands(t, 0, Run(LOOPBACK, key, e, Ended(None)), st, INITIAL.clock)
    ensures Opens(st, e)
  {
    assert RunSteps(cfg, []) == INITIAL;
    LoopbackUnshowable();
    FirstStartAccepted(LOOPBACK, key, e);
    t, st := RunStranded(cfg, INITIAL, LOOPBACK, key, e);
  }
}
