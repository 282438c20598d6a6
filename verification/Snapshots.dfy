/** Durable execution records: what a save captures, what a restart makes of it,
    and what an explicit rebind brings back.

    Models `ResearchPlanExecutionSnapshot` and the decision part of
    `rebind_restored`. */
module Snapshots {
  import opened Options
  import opened Allowances
  import opened Plans
  import opened ExecutionStates

  /** One live execution beside its allowance: the entries of `_executions`, `_plans`,
      `_contexts`, `_mission_digests` and `_mission_request_ids` under one identifier. */
  datatype Live = Live(
    state: ExecutionState,
    plan: Plan,
    runId: Option<string>,
    disclosure: Disclosure,
    missionDigest: Option<PlanContent>,
    requestId: Option<string>)

  datatype Snapshot = Snapshot(
    record: ExecutionState,
    capabilities: seq<Capability>,
    question: string,
    runId: Option<string>,
    allowance: Option<Allowance>,
    targetDigest: Option<PlanContent>,
    missionDigest: Option<PlanContent>,
    missionScope: Option<Mission>,
    missionDisclosure: Disclosure,
    requestId: Option<string>,
    revalidationDigest: Option<PlanContent>)

  /** The clock time of a ruling is not part of a durable record. */
  function RecordedStep(s: StepState): StepState { s.(ruledAt := None) }

  function RecordOf(st: ExecutionState): ExecutionState {
    st.(steps := seq(|st.steps|, j requires 0 <= j < |st.steps| => RecordedStep(st.steps[j])))
  }

  /** `_live_snapshot`. */
  function Capture(l: Live, allowance: Option<Allowance>): Snapshot {
    var c := l.plan.content;
    var semantic := c.mission.Some? && c.mission.value.policy == Some(l.disclosure);
    Snapshot(
      RecordOf(l.state),
      seq(|l.state.steps|, j requires 0 <= j < |l.state.steps| => CapabilityOr(c, l.state.steps[j].id)),
      c.question,
      l.runId,
      allowance,
      if c.target.Some? then Some(c) else None,
      l.missionDigest,
      if semantic then c.mission else None,
      if semantic then l.disclosure else Undisclosed,
      l.requestId,
      if Revalidates(c) then Some(c) else None)
  }

  function CutOff(s: StepState): StepState {
    if s.status.Running? then s.(status := StepStatus.Interrupted) else s
  }

  /** `restored()`: work recorded as running did not survive, and its outcome is unknown. */
  function Restored(sn: Snapshot): Snapshot {
    if RunningStep(sn.record).None? then sn
    else
      sn.(record := sn.record.(
            steps := seq(|sn.record.steps|, j requires 0 <= j < |sn.record.steps| => CutOff(sn.record.steps[j])),
            status := if sn.record.status.Terminal() then sn.record.status else ExecutionStatus.Interrupted))
  }

  /** The circumstances of one rebind that lie outside the recorded execution. */
  datatype RebindContext = RebindContext(
    missionResolver: bool,          // a mission resolver is composed in, and accepts the checkpoint
    planAcceptable: bool,           // no restriction conflict and the target scope revision is live
    registered: set<Capability>,    // capabilities with a registered operation
    recordedResults: map<string, string>, // step id -> detail of its own durable revalidation
    revalidationOperation: string)

  predicate Holds(st: ExecutionState, id: string) { exists k :: 0 <= k < |st.steps| && st.steps[k].id == id }

  predicate StepsMatch(c: PlanContent, sn: Snapshot) {
    && |sn.capabilities| == |sn.record.steps|
    && (forall k :: 0 <= k < |sn.record.steps| ==>
          CapabilityIn(c.steps, sn.record.steps[k].id) == Some(sn.capabilities[k]))
    && (forall j :: 0 <= j < |c.steps| ==> Holds(sn.record, c.steps[j].id))
  }

  predicate Executable(cap: Capability) { !cap.NoCapability? }

  predicate IsMission(sn: Snapshot, c: PlanContent) { sn.missionDigest.Some? || c.mission.Some? }

  /** Every check `rebind_restored` makes before it builds anything. */
  predicate MayRebind(sn: Snapshot, c: PlanContent, runId: string, ctx: RebindContext) {
    && (IsMission(sn, c) ==>
          && ctx.missionResolver
          && sn.missionDigest == Some(c) && sn.missionScope.Some? && c.mission == sn.missionScope
          && !sn.missionDisclosure.Undisclosed? && sn.runId == Some(runId))
    && sn.record.status.Resumable()
    && sn.allowance.Some?
    && (sn.targetDigest.Some? || c.target.Some? ==>
          c.target.Some? && sn.targetDigest == Some(c) && sn.runId == Some(runId))
    && (sn.revalidationDigest.Some? || Revalidates(c) ==>
          sn.revalidationDigest == Some(c) && sn.runId == Some(runId))
    && ctx.planAcceptable
    && StepsMatch(c, sn)
    && (forall k :: 0 <= k < |sn.record.steps| ==>
          sn.record.steps[k].status.Pending? && Executable(sn.capabilities[k]) ==> sn.capabilities[k] in ctx.registered)
  }

  /** A rebound step carries no ruling and no recovery: those fields are not passed on. */
  function ReboundStep(s: StepState): StepState {
    s.(resolution := NoRuling, ruledAt := None, recovery := None)
  }

  function ReboundState(sn: Snapshot): ExecutionState {
    sn.record.(steps := seq(|sn.record.steps|, j requires 0 <= j < |sn.record.steps| => ReboundStep(sn.record.steps[j])))
  }

  /** Step `k` was cut off, unruled, and its own revalidation is on record. */
  predicate Provable(sn: Snapshot, k: nat, ctx: RebindContext) {
    && k < |sn.record.steps| && k < |sn.capabilities|
    && sn.capabilities[k] == SourceRevalidation
    && SourceRevalidation in ctx.registered
    && sn.record.steps[k].status.Interrupted?
    && sn.record.steps[k].resolution.NoRuling?
    && sn.record.steps[k].id in ctx.recordedResults
  }

  /** `_reconcile_recorded_revalidations`, from step `from` on; `None` when a completion raises. */
  function Reconciled(st: ExecutionState, sn: Snapshot, ctx: RebindContext, from: nat := 0): Option<ExecutionState>
    requires from <= |sn.record.steps|
    decreases |sn.record.steps| - from
  {
    if from == |sn.record.steps| then Some(st)
    else if !Provable(sn, from, ctx) then Reconciled(st, sn, ctx, from + 1)
    else
      var next := CompleteFromRecord(st, from, ctx.recordedResults[sn.record.steps[from].id], ctx.revalidationOperation);
      if next.None? then None else Reconciled(next.value, sn, ctx, from + 1)
  }

  /** `rebind_restored`: the live execution a restored snapshot becomes, if any. */
  function Rebound(sn: Snapshot, plan: Plan, runId: string, ctx: RebindContext): Option<Live> {
    var c := plan.content;
    if !MayRebind(sn, c, runId, ctx) then None
    else
      var state := Reconciled(ReboundState(sn), sn, ctx);
      if state.None? then None
      else
        var mission := IsMission(sn, c);
        Some(Live(state.value, plan.(planId := sn.record.planId), Some(runId),
                  if mission then sn.missionDisclosure else Undisclosed,
                  if mission then sn.missionDigest else None,
                  if mission then sn.requestId else None))
  }

  // -- what restarting keeps ---------------------------------------------------

  lemma CapturingKeepsWellFormed(st: ExecutionState)
    requires WellFormed(st)
    ensures WellFormed(RecordOf(st))
  {
  }

  lemma RestoringKeepsWellFormed(sn: Snapshot)
    requires WellFormed(sn.record)
    ensures var r := Restored(sn);
            && WellFormed(r.record) && RunningStep(r.record).None?
            && |r.record.steps| == |sn.record.steps|
            && forall j :: 0 <= j < |sn.record.steps| ==> r.record.steps[j] == CutOff(sn.record.steps[j])
  {
    var r := Restored(sn);
    if RunningStep(sn.record).Some? {
      assert !sn.record.status.Terminal();
      assert forall j :: 0 <= j < |sn.record.steps| ==> !PerformedUnseen(sn.record.steps[j]);
      assert forall j :: 0 <= j < |sn.record.steps| ==> r.record.steps[j] == CutOff(sn.record.steps[j]);
    }
  }

  /** Only the one interrupted step can be reconciled, so reconciling is at most one completion. */
  lemma ReconcilingCompletesAtMostOneStep(st: ExecutionState, sn: Snapshot, ctx: RebindContext, from: nat)
    requires from <= |sn.record.steps| == |st.steps|
    requires WellFormed(sn.record) && WellFormed(st)
    requires forall j :: from <= j < |st.steps| ==> st.steps[j].status == sn.record.steps[j].status
    ensures var r := Reconciled(st, sn, ctx, from);
            r.Some? && r.value != st ==>
              exists k :: from <= k < |st.steps| && Provable(sn, k, ctx) && r == CompleteFromRecord(
                st, k, ctx.recordedResults[sn.record.steps[k].id], ctx.revalidationOperation)
    decreases |sn.record.steps| - from
  {
    if from < |sn.record.steps| {
      if Provable(sn, from, ctx) {
        var next := CompleteFromRecord(st, from, ctx.recordedResults[sn.record.steps[from].id], ctx.revalidationOperation);
        if next.Some? {
          RecordedCompletionKeepsWellFormed(st, from, ctx.recordedResults[sn.record.steps[from].id], ctx.revalidationOperation);
          NothingLeftToReconcile(next.value, sn, ctx, from + 1);
        }
      } else {
        ReconcilingCompletesAtMostOneStep(st, sn, ctx, from + 1);
      }
    }
  }

  lemma NothingLeftToReconcile(st: ExecutionState, sn: Snapshot, ctx: RebindContext, from: nat)
    requires from <= |sn.record.steps|
    requires forall j :: from <= j < |sn.record.steps| ==> !sn.record.steps[j].status.Interrupted?
    ensures Reconciled(st, sn, ctx, from) == Some(st)
    decreases |sn.record.steps| - from
  {
  }

  lemma RebindingKeepsWellFormed(sn: Snapshot)
    requires WellFormed(sn.record) && sn.record.status.Resumable()
    ensures WellFormed(ReboundState(sn))
  {
  }

  predicate Unruled(s: StepState) { s.resolution.NoRuling? && s.ruledAt.None? && s.recovery.None? }

  /** How one step differs after a save, a restart and a rebind: a cut-off attempt whose own result is
      on record comes back completed with exactly that result, any other one interrupted. */
  predicate SurvivesRestart(before: StepState, after: StepState, proven: bool, ctx: RebindContext) {
    if !proven then after == ReboundStep(CutOff(before))
    else
      && before.status.Busy() && before.id in ctx.recordedResults
      && after == WithStatus(ReboundStep(CutOff(before)), StepStatus.Completed, ctx.recordedResults[before.id], true, ctx.revalidationOperation)
  }

  /** How the execution itself differs: only an attempt that was under way changes its status and detail. */
  predicate ExecutionSurvives(before: ExecutionState, after: ExecutionState, proven: bool) {
    && after.planId == before.planId && after.refusal == before.refusal && after.pause == before.pause
    && (if proven then after.detail == "" && after.status == if AllCompleted(after.steps) then ExecutionStatus.Completed else ExecutionStatus.Running
        else after.detail == before.detail && after.status == CutOffStatus(before))
  }

  function CutOffStatus(st: ExecutionState): ExecutionStatus {
    if RunningStep(st).Some? && !st.status.Terminal() then ExecutionStatus.Interrupted else st.status
  }

  /** What a restart has made of a saved state, step by step. */
  predicate CutOffRecord(st: ExecutionState, sn: Snapshot) {
    && |sn.record.steps| == |st.steps| && sn.record.planId == st.planId && sn.record.detail == st.detail
    && sn.record.refusal == st.refusal && sn.record.pause == st.pause && sn.record.status == CutOffStatus(st)
    && forall j :: 0 <= j < |st.steps| ==> sn.record.steps[j] == CutOff(RecordedStep(st.steps[j]))
  }

  lemma RecordingKeepsStatuses(st: ExecutionState)
    ensures RunningStep(RecordOf(st)).Some? <==> RunningStep(st).Some?
  {
    var steps := RecordOf(st).steps;
    assert forall j :: 0 <= j < |st.steps| ==> steps[j].status == st.steps[j].status;
  }

  lemma SavedThenCutOff(l: Live, allowance: Option<Allowance>)
    requires WellFormed(l.state)
    ensures var sn := Restored(Capture(l, allowance));
            && CutOffRecord(l.state, sn) && WellFormed(sn.record) && sn.allowance == allowance
            && sn.missionDisclosure.Rank() <= l.disclosure.Rank()
  {
    CapturingKeepsWellFormed(l.state);
    RestoringKeepsWellFormed(Capture(l, allowance));
    RecordingKeepsStatuses(l.state);
  }

  /** Some step has its own result on record. */
  predicate SomeProvable(sn: Snapshot, ctx: RebindContext) {
    exists k :: 0 <= k < |sn.record.steps| && Provable(sn, k, ctx)
  }

  lemma OneProvable(sn: Snapshot, ctx: RebindContext, j: nat, k: nat)
    requires WellFormed(sn.record) && Provable(sn, j, ctx) && Provable(sn, k, ctx)
    ensures j == k
  {
  }

  lemma ProvenSteps(st: ExecutionState, sn: Snapshot, ctx: RebindContext, k: nat, back: ExecutionState)
    requires CutOffRecord(st, sn) && WellFormed(sn.record) && Provable(sn, k, ctx)
    requires Some(back) == CompleteFromRecord(ReboundState(sn), k, ctx.recordedResults[sn.record.steps[k].id], ctx.revalidationOperation)
    ensures |back.steps| == |st.steps|
    ensures forall j :: 0 <= j < |st.steps| ==> SurvivesRestart(st.steps[j], back.steps[j], Provable(sn, j, ctx), ctx)
  {
    forall j | 0 <= j < |st.steps| ensures SurvivesRestart(st.steps[j], back.steps[j], Provable(sn, j, ctx), ctx) {
      if Provable(sn, j, ctx) {
        OneProvable(sn, ctx, j, k);
      }
      assert sn.record.steps[j] == CutOff(RecordedStep(st.steps[j]));
    }
  }

  lemma ProvenReturn(st: ExecutionState, sn: Snapshot, ctx: RebindContext, k: nat, back: ExecutionState)
    requires CutOffRecord(st, sn) && WellFormed(sn.record) && sn.record.status.Resumable() && Provable(sn, k, ctx)
    requires Some(back) == CompleteFromRecord(ReboundState(sn), k, ctx.recordedResults[sn.record.steps[k].id], ctx.revalidationOperation)
    ensures |back.steps| == |st.steps| && WellFormed(back) && ExecutionSurvives(st, back, true)
    ensures forall j :: 0 <= j < |st.steps| ==> SurvivesRestart(st.steps[j], back.steps[j], Provable(sn, j, ctx), ctx)
  {
    hide SurvivesRestart, WellFormed;
    RebindingKeepsWellFormed(sn);
    RecordedCompletionKeepsWellFormed(ReboundState(sn), k, ctx.recordedResults[sn.record.steps[k].id], ctx.revalidationOperation);
    ProvenSteps(st, sn, ctx, k, back);
    OnlyOneProvable(sn, ctx, k);
  }

  lemma OnlyOneProvable(sn: Snapshot, ctx: RebindContext, k: nat)
    requires WellFormed(sn.record) && Provable(sn, k, ctx)
    ensures forall j :: 0 <= j < |sn.record.steps| && j != k ==> !sn.record.steps[j].status.Interrupted?
  {
  }

  lemma StateRoundTrip(st: ExecutionState, sn: Snapshot, ctx: RebindContext)
    requires CutOffRecord(st, sn) && WellFormed(sn.record) && sn.record.status.Resumable()
    requires Reconciled(ReboundState(sn), sn, ctx).Some?
    ensures var back := Reconciled(ReboundState(sn), sn, ctx).value;
            && |back.steps| == |st.steps| && WellFormed(back)
            && (forall j :: 0 <= j < |st.steps| ==> SurvivesRestart(st.steps[j], back.steps[j], Provable(sn, j, ctx), ctx))
            && ExecutionSurvives(st, back, SomeProvable(sn, ctx))
  {
    hide WellFormed, CompleteFromRecord, SurvivesRestart, ExecutionSurvives, CutOffStatus;
    RebindingKeepsWellFormed(sn);
    var start := ReboundState(sn);
    ReconcilingCompletesAtMostOneStep(start, sn, ctx, 0);
    var back := Reconciled(start, sn, ctx).value;
    if k :| 0 <= k < |sn.record.steps| && Provable(sn, k, ctx) {
      ProvableIsCompleted(start, sn, ctx, 0, k);
      assert back != start by {
        assert start.steps[k].status.Interrupted?;
      }
      var at :| 0 <= at < |start.steps| && Provable(sn, at, ctx) && Some(back) == CompleteFromRecord(
                  start, at, ctx.recordedResults[sn.record.steps[at].id], ctx.revalidationOperation);
      ProvenReturn(st, sn, ctx, at, back);
    } else {
      NothingProvable(start, sn, ctx, 0);
      UnprovenReturn(st, sn, ctx);
    }
  }

  lemma UnprovenReturn(st: ExecutionState, sn: Snapshot, ctx: RebindContext)
    requires CutOffRecord(st, sn)
    ensures ExecutionSurvives(st, ReboundState(sn), false)
    ensures forall j :: 0 <= j < |st.steps| ==> SurvivesRestart(st.steps[j], ReboundState(sn).steps[j], false, ctx)
  {
  }

  /** Restart round trip: what was saved comes back with the same statuses, details, operations,
      work flags and exact allowance, step by step and for the execution as a whole; only an open
      attempt changes, to completed if and only if its own revalidation is on record, and to
      interrupted otherwise. Disclosure is never raised. */
  lemma RestartRoundTrip(l: Live, allowance: Option<Allowance>, plan: Plan, runId: string, ctx: RebindContext)
    requires WellFormed(l.state)
    requires Rebound(Restored(Capture(l, allowance)), plan, runId, ctx).Some?
    ensures var sn := Restored(Capture(l, allowance));
            var back := Rebound(sn, plan, runId, ctx).value;
            && |back.state.steps| == |l.state.steps|
            && (forall j :: 0 <= j < |l.state.steps| ==> SurvivesRestart(l.state.steps[j], back.state.steps[j], Provable(sn, j, ctx), ctx))
            && ExecutionSurvives(l.state, back.state, SomeProvable(sn, ctx))
            && sn.allowance == allowance
            && back.disclosure.Rank() <= l.disclosure.Rank()
            && WellFormed(back.state)
  {
    SavedThenCutOff(l, allowance);
    StateRoundTrip(l.state, Restored(Capture(l, allowance)), ctx);
  }

  lemma UnreconciledReturn(st: ExecutionState, sn: Snapshot, ctx: RebindContext)
    requires !SomeProvable(sn, ctx)
    requires CutOffRecord(st, sn)
    ensures Reconciled(ReboundState(sn), sn, ctx) == Some(ReboundState(sn))
    ensures |ReboundState(sn).steps| == |st.steps|
    ensures forall j :: 0 <= j < |st.steps| ==> ReboundState(sn).steps[j] == ReboundStep(CutOff(st.steps[j]))
  {
    NothingProvable(ReboundState(sn), sn, ctx, 0);
  }

  lemma {:induction false} NothingProvable(st: ExecutionState, sn: Snapshot, ctx: RebindContext, from: nat)
    requires from <= |sn.record.steps| && !SomeProvable(sn, ctx)
    ensures Reconciled(st, sn, ctx, from) == Some(st)
    decreases |sn.record.steps| - from
  {
    if from < |sn.record.steps| {
      assert !Provable(sn, from, ctx);
      NothingProvable(st, sn, ctx, from + 1);
    }
  }

  /** What its own record proves is completed by the rebind. */
  lemma {:induction false} ProvableIsCompleted(st: ExecutionState, sn: Snapshot, ctx: RebindContext, from: nat, k: nat)
    requires from <= k < |sn.record.steps| == |st.steps| && Provable(sn, k, ctx)
    requires WellFormed(sn.record) && Reconciled(st, sn, ctx, from).Some?
    ensures |Reconciled(st, sn, ctx, from).value.steps| == |st.steps| && Reconciled(st, sn, ctx, from).value.steps[k].status.Completed?
    decreases |sn.record.steps| - from
  {
    if from == k {
      var next := CompleteFromRecord(st, k, ctx.recordedResults[sn.record.steps[k].id], ctx.revalidationOperation);
      NothingLeftToReconcile(next.value, sn, ctx, k + 1);
    } else {
      assert sn.record.steps[from].status.Interrupted? ==> !sn.record.steps[k].status.Busy();
      assert !Provable(sn, from, ctx);
      ProvableIsCompleted(st, sn, ctx, from + 1, k);
    }
  }

  /** Nothing was being attempted, and no step carries a ruling or a recovery. */
  predicate Settled(st: ExecutionState) {
    forall j :: 0 <= j < |st.steps| ==> !st.steps[j].status.Running? && Unruled(st.steps[j])
  }

  lemma SettledComesBack(st: ExecutionState, sn: Snapshot)
    requires WellFormed(st) && Settled(st) && CutOffRecord(st, sn)
    requires sn.record.status == st.status && sn.record.detail == st.detail && sn.record.refusal == st.refusal && sn.record.pause == st.pause
    ensures ReboundState(sn) == st
  {
    assert ReboundState(sn).steps == st.steps;
  }

  lemma UnsettledDoesNot(st: ExecutionState, sn: Snapshot)
    requires !Settled(st) && CutOffRecord(st, sn)
    ensures ReboundState(sn) != st
  {
    var j :| 0 <= j < |st.steps| && !(!st.steps[j].status.Running? && Unruled(st.steps[j]));
    assert ReboundState(sn).steps[j] != st.steps[j];
  }

  lemma NothingRunningIsKept(l: Live, allowance: Option<Allowance>)
    requires Settled(l.state)
    ensures var sn := Restored(Capture(l, allowance)); sn.record == RecordOf(l.state)
  {
    assert RunningStep(RecordOf(l.state)).None?;
  }

  /** The class comment of `ResearchPlanStepState` promises that a ruling survives a restart. It does
      not survive a rebind: the state comes back exactly as it was if and only if no attempt was
      open, no step carried a ruling or a recovery, and no cut-off step had its result on record. */
  lemma ExactReturnIffNothingOpenOrRuled(l: Live, allowance: Option<Allowance>, plan: Plan, runId: string, ctx: RebindContext)
    requires WellFormed(l.state)
    requires Rebound(Restored(Capture(l, allowance)), plan, runId, ctx).Some?
    ensures Rebound(Restored(Capture(l, allowance)), plan, runId, ctx).value.state == l.state <==>
            Settled(l.state) && !SomeProvable(Restored(Capture(l, allowance)), ctx)
  {
    var sn := Restored(Capture(l, allowance));
    SavedThenCutOff(l, allowance);
    var back := Rebound(sn, plan, runId, ctx).value.state;
    assert Some(back) == Reconciled(ReboundState(sn), sn, ctx);
    hide Capture, Restored, Rebound, Reconciled, WellFormed, ReboundState;
    if k: nat :| Provable(sn, k, ctx) {
      ProvableComesBackCompleted(l.state, sn, ctx, k);
    } else {
      UnreconciledReturn(l.state, sn, ctx);
      if Settled(l.state) {
        NothingRunningIsKept(l, allowance);
        SettledComesBack(l.state, sn);
      } else {
        UnsettledDoesNot(l.state, sn);
      }
    }
  }

  lemma ProvableComesBackCompleted(st: ExecutionState, sn: Snapshot, ctx: RebindContext, k: nat)
    requires CutOffRecord(st, sn) && WellFormed(sn.record) && Provable(sn, k, ctx)
    requires Reconciled(ReboundState(sn), sn, ctx).Some?
    ensures Reconciled(ReboundState(sn), sn, ctx).value != st
  {
    ProvableIsCompleted(ReboundState(sn), sn, ctx, 0, k);
    assert sn.record.steps[k] == CutOff(RecordedStep(st.steps[k]));
  }

  const RuledStep := StepState("s", StepStatus.Pending, NEVER_RAN, false, "", NotPerformed, Some(7), None)
  const RuledContent := PlanContent("q", [PlanStep("s", "look", SourceFetch)], None, None, {})
  const RuledLive := Live(ExecutionState("p", ExecutionStatus.Running, [RuledStep], "", None, None),
                          Plan("p", RuledContent), Some("run"), Undisclosed, None, None)
  const RuledContext := RebindContext(false, true, {SourceFetch}, map[], "")

  /** The lost ruling, concretely: a step the operator ruled not performed comes back without it. */
  lemma RulingLostByRebind(a: Allowance)
    ensures WellFormed(RuledLive.state) && RuledLive.state.steps == [RuledStep]
    ensures var back := Rebound(Restored(Capture(RuledLive, Some(a))), RuledLive.plan, "run", RuledContext);
            back.Some? && |back.value.state.steps| == 1 && back.value.state.steps[0].resolution == NoRuling
  {
    var sn := Restored(Capture(RuledLive, Some(a)));
    SavedThenCutOff(RuledLive, Some(a));
    assert RunningStep(RecordOf(RuledLive.state)).None?;
    assert sn.record.steps == [RecordedStep(RuledStep)];
    assert CapabilityIn(RuledContent.steps, "s") == Some(SourceFetch);
    assert sn.capabilities == [SourceFetch];
    assert !Revalidates(RuledContent);
    assert StepsMatch(RuledContent, sn) by {
      assert sn.record.steps[0].id == RuledContent.steps[0].id;
    }
    assert MayRebind(sn, RuledContent, "run", RuledContext);
    UnreconciledReturn(RuledLive.state, sn, RuledContext);
  }
}
