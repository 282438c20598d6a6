/** Which rebinds succeed, and what they bring back: said of what was live before the save and the restart. */
module RebindLaws {
  import opened Options
  import opened Allowances
  import opened Plans
  import opened ExecutionStates
  import opened Snapshots
  import opened AttemptProtocol

  predicate HasStep(c: PlanContent, id: string, cap: Capability) {
    exists j :: 0 <= j < |c.steps| && c.steps[j].id == id && c.steps[j].capability == cap
  }

  /** Every step of `a` is a step of `b`, under the same identifier and with the same capability. */
  predicate StepsAreIn(a: PlanContent, b: PlanContent) {
    forall i :: 0 <= i < |a.steps| ==> HasStep(b, a.steps[i].id, a.steps[i].capability)
  }

  predicate PlansFor(o: PlanContent, id: string) { exists j :: 0 <= j < |o.steps| && o.steps[j].id == id }

  /** The execution's steps are those of its plan. */
  predicate StepsArePlanned(st: ExecutionState, o: PlanContent) {
    && (forall k :: 0 <= k < |st.steps| ==> PlansFor(o, st.steps[k].id))
    && (forall j :: 0 <= j < |o.steps| ==> Holds(st, o.steps[j].id))
  }

  /** Step `k` of the execution was planned with this capability. */
  predicate PlannedWith(l: Live, k: nat, cap: Capability) {
    k < |l.state.steps| && HasStep(l.plan.content, l.state.steps[k].id, cap)
  }

  /** It was running, or had been cut off, or a restart has just cut one of its steps off. */
  predicate Continues(st: ExecutionState) {
    || st.status.Running? || st.status.Interrupted?
    || ((st.status.Ready? || st.status.Blocked?) && exists j :: 0 <= j < |st.steps| && st.steps[j].status.Running?)
  }

  /** Bound to a target, or asking a recorded source again. */
  predicate Pinned(c: PlanContent) {
    c.target.Some? || exists j :: 0 <= j < |c.steps| && c.steps[j].capability.SourceRevalidation?
  }

  predicate MissionAgrees(l: Live, c: PlanContent, runId: string, ctx: RebindContext) {
    && ctx.missionResolver && l.missionDigest == Some(c) && l.runId == Some(runId)
    && c.mission.Some? && c.mission == l.plan.content.mission
    && c.mission.value.policy == Some(l.disclosure) && !l.disclosure.Undisclosed?
  }

  /** Something is registered for every pending step that runs anything. */
  predicate PendingCanRun(l: Live, ctx: RebindContext) {
    forall k, cap :: 0 <= k < |l.state.steps| && l.state.steps[k].status.Pending? && PlannedWith(l, k, cap) && cap != NoCapability ==>
                       cap in ctx.registered
  }

  /** The attempt at step `k` was cut off, nobody ruled on it, and its own revalidation is on record. */
  predicate OnRecord(l: Live, k: nat, ctx: RebindContext) {
    && k < |l.state.steps| && (l.state.steps[k].status.Running? || l.state.steps[k].status.Interrupted?)
    && l.state.steps[k].resolution.NoRuling? && l.state.steps[k].id in ctx.recordedResults
    && PlannedWith(l, k, SourceRevalidation) && SourceRevalidation in ctx.registered
  }

  predicate RecordsFit(l: Live, ctx: RebindContext) {
    forall k :: 0 <= k < |l.state.steps| && OnRecord(l, k, ctx) ==>
                  |ctx.recordedResults[l.state.steps[k].id]| <= 500 && ctx.revalidationOperation != ""
  }

  /** The digest a mission is filed under is that of its own plan. */
  predicate Filed(l: Live) {
    l.missionDigest == if l.plan.content.mission.Some? then Some(l.plan.content) else None
  }

  // -- lookups -----------------------------------------------------------------------------

  lemma DeclaredAt(c: PlanContent, id: string, cap: Capability)
    requires ValidContent(c)
    ensures CapabilityIn(c.steps, id) == Some(cap) <==> HasStep(c, id, cap)
  {
    var r := CapabilityIn(c.steps, id);
    if r.Some? {
      var i :| 0 <= i < |c.steps| && c.steps[i].id == id && c.steps[i].capability == r.value;
      hide CapabilityIn;
      if HasStep(c, id, cap) {
        var j :| 0 <= j < |c.steps| && c.steps[j].id == id && c.steps[j].capability == cap;
        assert i == j;
      }
    }
  }

  lemma CapturedCapability(l: Live, k: nat, cap: Capability)
    requires ValidContent(l.plan.content) && StepsArePlanned(l.state, l.plan.content) && k < |l.state.steps|
    ensures CapabilityOr(l.plan.content, l.state.steps[k].id) == cap <==> PlannedWith(l, k, cap)
    ensures PlannedWith(l, k, CapabilityOr(l.plan.content, l.state.steps[k].id))
  {
    var o, id := l.plan.content, l.state.steps[k].id;
    assert PlansFor(o, id);
    assert CapabilityIn(o.steps, id).Some?;
    DeclaredAt(o, id, cap);
    DeclaredAt(o, id, CapabilityOr(o, id));
    hide CapabilityIn, HasStep;
  }

  /** What a restart finds of the steps beside their capabilities. */
  predicate FoundSteps(l: Live, sn: Snapshot) {
    && |sn.record.steps| == |l.state.steps| == |sn.capabilities|
    && forall k :: 0 <= k < |l.state.steps| ==> sn.record.steps[k].id == l.state.steps[k].id && PlannedWith(l, k, sn.capabilities[k])
  }

  lemma StepsAreFound(l: Live, allowance: Option<Allowance>)
    requires WellFormed(l.state) && ValidContent(l.plan.content) && StepsArePlanned(l.state, l.plan.content)
    ensures FoundSteps(l, Restored(Capture(l, allowance)))
    ensures CutOffRecord(l.state, Restored(Capture(l, allowance)))
  {
    SavedThenCutOff(l, allowance);
    forall k | 0 <= k < |l.state.steps| ensures PlannedWith(l, k, CapabilityOr(l.plan.content, l.state.steps[k].id)) {
      CapturedCapability(l, k, NoCapability);
    }
    hide PlannedWith, WellFormed, StepsArePlanned;
  }

  lemma SameStepsMatch(l: Live, sn: Snapshot, c: PlanContent)
    requires ValidContent(c) && ValidContent(l.plan.content) && StepsArePlanned(l.state, l.plan.content) && FoundSteps(l, sn)
    ensures StepsMatch(c, sn) <==> StepsAreIn(c, l.plan.content) && StepsAreIn(l.plan.content, c)
  {
    hide StepsMatch, StepsAreIn, StepsArePlanned, FoundSteps;
    if StepsMatch(c, sn) {
      MatchedStepsAreIn(l, sn, c);
    }
    if StepsAreIn(c, l.plan.content) && StepsAreIn(l.plan.content, c) {
      StepsInMatch(l, sn, c);
    }
  }

  /** One plan has one step under one identifier. */
  lemma OneStepUnderAnId(c: PlanContent, id: string, a: Capability, b: Capability)
    requires ValidContent(c) && HasStep(c, id, a) && HasStep(c, id, b)
    ensures a == b
  {
  }

  lemma MatchedStepsAreIn(l: Live, sn: Snapshot, c: PlanContent)
    requires ValidContent(c) && ValidContent(l.plan.content) && StepsArePlanned(l.state, l.plan.content) && FoundSteps(l, sn)
    requires StepsMatch(c, sn)
    ensures StepsAreIn(c, l.plan.content) && StepsAreIn(l.plan.content, c)
  {
    hide ValidContent, CapabilityIn, HasStep, PlansFor;
    var o := l.plan.content;
    forall i | 0 <= i < |c.steps| ensures HasStep(o, c.steps[i].id, c.steps[i].capability) {
      var k :| 0 <= k < |sn.record.steps| && sn.record.steps[k].id == c.steps[i].id;
      DeclaredAt(c, c.steps[i].id, sn.capabilities[k]);
      StepIsThere(c, i);
      OneStepUnderAnId(c, c.steps[i].id, c.steps[i].capability, sn.capabilities[k]);
      assert PlannedWith(l, k, sn.capabilities[k]);
    }
    forall j | 0 <= j < |o.steps| ensures HasStep(c, o.steps[j].id, o.steps[j].capability) {
      assert Holds(l.state, o.steps[j].id);
      var k :| 0 <= k < |l.state.steps| && l.state.steps[k].id == o.steps[j].id;
      assert PlannedWith(l, k, sn.capabilities[k]);
      StepIsThere(o, j);
      OneStepUnderAnId(o, o.steps[j].id, o.steps[j].capability, sn.capabilities[k]);
      DeclaredAt(c, sn.record.steps[k].id, sn.capabilities[k]);
    }
  }

  lemma StepIsThere(c: PlanContent, i: nat)
    requires i < |c.steps|
    ensures HasStep(c, c.steps[i].id, c.steps[i].capability)
  {
  }

  lemma StepsInMatch(l: Live, sn: Snapshot, c: PlanContent)
    requires ValidContent(c) && ValidContent(l.plan.content) && StepsArePlanned(l.state, l.plan.content) && FoundSteps(l, sn)
    requires StepsAreIn(c, l.plan.content) && StepsAreIn(l.plan.content, c)
    ensures StepsMatch(c, sn)
  {
    hide ValidContent, PlansFor, Holds;
    var o := l.plan.content;
    forall k | 0 <= k < |sn.record.steps| ensures CapabilityIn(c.steps, sn.record.steps[k].id) == Some(sn.capabilities[k]) {
      assert PlannedWith(l, k, sn.capabilities[k]);
      var j :| 0 <= j < |o.steps| && o.steps[j].id == l.state.steps[k].id && o.steps[j].capability == sn.capabilities[k];
      assert HasStep(c, o.steps[j].id, o.steps[j].capability);
      DeclaredAt(c, sn.record.steps[k].id, sn.capabilities[k]);
    }
    forall i | 0 <= i < |c.steps| ensures Holds(sn.record, c.steps[i].id) {
      assert HasStep(o, c.steps[i].id, c.steps[i].capability);
      var j :| 0 <= j < |o.steps| && o.steps[j].id == c.steps[i].id && o.steps[j].capability == c.steps[i].capability;
      var k := HeldAt(l.state, o, j);
      IsHeld(sn.record, k, c.steps[i].id);
    }
  }

  lemma IsHeld(st: ExecutionState, k: nat, id: string)
    requires k < |st.steps| && st.steps[k].id == id
    ensures Holds(st, id)
  {
  }

  lemma HeldAt(st: ExecutionState, o: PlanContent, j: nat) returns (k: nat)
    requires StepsArePlanned(st, o) && j < |o.steps|
    ensures k < |st.steps| && st.steps[k].id == o.steps[j].id
  {
    assert Holds(st, o.steps[j].id);
    k :| k < |st.steps| && st.steps[k].id == o.steps[j].id;
  }

  // -- reconciliation ----------------------------------------------------------------------

  lemma ProvableIsOnRecord(l: Live, allowance: Option<Allowance>, k: nat, ctx: RebindContext)
    requires WellFormed(l.state) && ValidContent(l.plan.content) && StepsArePlanned(l.state, l.plan.content)
    ensures Provable(Restored(Capture(l, allowance)), k, ctx) <==> OnRecord(l, k, ctx)
  {
    SavedThenCutOff(l, allowance);
    if k < |l.state.steps| {
      CapturedCapability(l, k, SourceRevalidation);
    }
  }

  /** A cut-off attempt is completed from its record unless the record does not fit a step. */
  lemma {:induction false} ReconciledIff(sn: Snapshot, ctx: RebindContext, from: nat)
    requires WellFormed(sn.record) && from <= |sn.record.steps|
    ensures Reconciled(ReboundState(sn), sn, ctx, from).Some? <==>
              forall k :: from <= k && Provable(sn, k, ctx) ==>
                            |ctx.recordedResults[sn.record.steps[k].id]| <= 500 && ctx.revalidationOperation != ""
    decreases |sn.record.steps| - from
  {
    if from < |sn.record.steps| {
      if !Provable(sn, from, ctx) {
        ReconciledIff(sn, ctx, from + 1);
      } else {
        var next := CompleteFromRecord(ReboundState(sn), from, ctx.recordedResults[sn.record.steps[from].id], ctx.revalidationOperation);
        OnlyOneProvable(sn, ctx, from);
        if next.Some? {
          NothingLeftToReconcile(next.value, sn, ctx, from + 1);
        }
      }
    }
  }

  // -- the law -----------------------------------------------------------------------------

  /** A rebind succeeds if and only if the execution could still go on and had an allowance; the plan is
      acceptable and has the same steps with the same capabilities; a target-bound or revalidating plan
      and run are the very same, and so is a mission, which is given its resolver; and every pending step
      can run. The result a cut-off step is completed from must fit its record. */
  lemma RebindLaw(l: Live, allowance: Option<Allowance>, plan: Plan, runId: string, ctx: RebindContext)
    requires WellFormed(l.state) && ValidContent(l.plan.content) && StepsArePlanned(l.state, l.plan.content) && ValidContent(plan.content)
    ensures var (o, c) := (l.plan.content, plan.content);
            Rebound(Restored(Capture(l, allowance)), plan, runId, ctx).Some? <==>
              && allowance.Some? && Continues(l.state) && ctx.planAcceptable
              && StepsAreIn(c, o) && StepsAreIn(o, c)
              && (Pinned(o) || Pinned(c) ==> c == o && l.runId == Some(runId))
              && (l.missionDigest.Some? || c.mission.Some? ==> MissionAgrees(l, c, runId, ctx))
              && PendingCanRun(l, ctx) && RecordsFit(l, ctx)
  {
    var sn, c := Restored(Capture(l, allowance)), plan.content;
    StepsAreFound(l, allowance);
    SameStepsMatch(l, sn, c);
    SavedThenCutOff(l, allowance);
    ReconciledIff(sn, ctx, 0);
    RecordsFitIff(l, allowance, ctx);
    ContinuesIff(l, allowance);
    PendingCanRunIff(l, allowance, ctx);
    PinnedIff(l, allowance, c, runId);
    MissionIff(l, allowance, c, runId, ctx);
    hide Restored, Capture, Continues, Pinned, PendingCanRun, RecordsFit, StepsAreIn, MissionAgrees, Reconciled, StepsMatch, Provable,
         Revalidates, FoundSteps, StepsArePlanned, ValidContent, WellFormed, CutOffRecord, IsMission;
  }

  lemma RecordsFitIff(l: Live, allowance: Option<Allowance>, ctx: RebindContext)
    requires WellFormed(l.state) && ValidContent(l.plan.content) && StepsArePlanned(l.state, l.plan.content)
    ensures var sn := Restored(Capture(l, allowance));
            RecordsFit(l, ctx) <==>
              forall k :: 0 <= k && Provable(sn, k, ctx) ==>
                            |ctx.recordedResults[sn.record.steps[k].id]| <= 500 && ctx.revalidationOperation != ""
  {
    hide Restored, Capture, WellFormed, ValidContent, StepsArePlanned, OnRecord, PlannedWith, CutOffRecord;
    StepsAreFound(l, allowance);
    forall k: nat ensures Provable(Restored(Capture(l, allowance)), k, ctx) <==> OnRecord(l, k, ctx) {
      ProvableIsOnRecord(l, allowance, k, ctx);
    }
    RecordedWithin(l, ctx);
  }

  lemma RecordedWithin(l: Live, ctx: RebindContext)
    ensures forall k: nat :: OnRecord(l, k, ctx) ==> k < |l.state.steps| && l.state.steps[k].id in ctx.recordedResults
  {
  }

  lemma ContinuesIff(l: Live, allowance: Option<Allowance>)
    requires WellFormed(l.state)
    ensures Continues(l.state) <==> Restored(Capture(l, allowance)).record.status.Resumable()
  {
    SavedThenCutOff(l, allowance);
    var r := RunningStep(l.state);
    if r.Some? {
      assert l.state.steps[r.value].status.Running?;
    }
  }

  lemma PendingCanRunIff(l: Live, allowance: Option<Allowance>, ctx: RebindContext)
    requires WellFormed(l.state) && ValidContent(l.plan.content) && StepsArePlanned(l.state, l.plan.content)
    ensures var sn := Restored(Capture(l, allowance));
            PendingCanRun(l, ctx) <==>
              forall k :: 0 <= k < |sn.record.steps| ==>
                            sn.record.steps[k].status.Pending? && Executable(sn.capabilities[k]) ==> sn.capabilities[k] in ctx.registered
  {
    var sn := Restored(Capture(l, allowance));
    hide Restored, Capture, WellFormed, StepsArePlanned, PlannedWith;
    StepsAreFound(l, allowance);
    assert forall k :: 0 <= k < |l.state.steps| ==> (sn.record.steps[k].status.Pending? <==> l.state.steps[k].status.Pending?);
    hide CutOffRecord, ValidContent;
    if PendingCanRun(l, ctx) {
      forall k | 0 <= k < |sn.record.steps| && sn.record.steps[k].status.Pending? && Executable(sn.capabilities[k])
        ensures sn.capabilities[k] in ctx.registered
      {
        assert PlannedWith(l, k, sn.capabilities[k]);
      }
    }
    forall k, cap | 0 <= k < |l.state.steps| && PlannedWith(l, k, cap) ensures sn.capabilities[k] == cap {
      PlannedOnce(l, k, cap, sn.capabilities[k]);
    }
  }

  lemma PlannedOnce(l: Live, k: nat, a: Capability, b: Capability)
    requires ValidContent(l.plan.content) && PlannedWith(l, k, a) && PlannedWith(l, k, b)
    ensures a == b
  {
    OneStepUnderAnId(l.plan.content, l.state.steps[k].id, a, b);
  }

  lemma PinnedIff(l: Live, allowance: Option<Allowance>, c: PlanContent, runId: string)
    ensures var (sn, o) := (Restored(Capture(l, allowance)), l.plan.content);
            (Pinned(o) || Pinned(c) ==> c == o && l.runId == Some(runId)) <==>
              && (sn.targetDigest.Some? || c.target.Some? ==>
                    c.target.Some? && sn.targetDigest == Some(c) && sn.runId == Some(runId))
              && (sn.revalidationDigest.Some? || Revalidates(c) ==> sn.revalidationDigest == Some(c) && sn.runId == Some(runId))
  {
  }

  lemma MissionIff(l: Live, allowance: Option<Allowance>, c: PlanContent, runId: string, ctx: RebindContext)
    ensures var sn := Restored(Capture(l, allowance));
            (l.missionDigest.Some? || c.mission.Some? ==> MissionAgrees(l, c, runId, ctx)) <==>
              (IsMission(sn, c) ==>
                 && ctx.missionResolver
                 && sn.missionDigest == Some(c) && sn.missionScope.Some? && c.mission == sn.missionScope
                 && !sn.missionDisclosure.Undisclosed? && sn.runId == Some(runId))
  {
  }

  /** A rebound execution is bound to the plan and run it was given; a mission keeps its disclosure, its
      digest and the request it came from, and nothing else carries any. */
  lemma ReboundCarries(l: Live, allowance: Option<Allowance>, plan: Plan, runId: string, ctx: RebindContext)
    requires Rebound(Restored(Capture(l, allowance)), plan, runId, ctx).Some?
    ensures var back := Rebound(Restored(Capture(l, allowance)), plan, runId, ctx).value;
            && back.plan == Plan(l.state.planId, plan.content) && back.runId == Some(runId) && Filed(back)
            && (if plan.content.mission.Some?
                then back.disclosure == l.disclosure && back.missionDigest == l.missionDigest && back.requestId == l.requestId
                else back.disclosure.Undisclosed? && back.requestId.None? && l.missionDigest.None?)
  {
  }

  /** A target-bound, revalidating or mission execution is rebound to exactly its own plan and run. */
  lemma ReboundToItself(l: Live, allowance: Option<Allowance>, plan: Plan, runId: string, ctx: RebindContext)
    requires WellFormed(l.state) && ValidContent(l.plan.content) && StepsArePlanned(l.state, l.plan.content) && ValidContent(plan.content)
    requires Filed(l) && (Pinned(l.plan.content) || l.plan.content.mission.Some?)
    requires Rebound(Restored(Capture(l, allowance)), plan, runId, ctx).Some?
    ensures plan.content == l.plan.content && l.runId == Some(runId)
  {
    RebindLaw(l, allowance, plan, runId, ctx);
  }

  /** What a save writes beside the steps, and a restart leaves as it was. */
  lemma CapturedBeside(l: Live, allowance: Option<Allowance>)
    ensures var sn := Restored(Capture(l, allowance));
            && sn.question == l.plan.content.question && sn.runId == l.runId && sn.allowance == allowance
            && sn.missionDigest == l.missionDigest && sn.requestId == l.requestId
            && (sn.targetDigest.Some? <==> l.plan.content.target.Some?) && (sn.targetDigest.Some? ==> sn.targetDigest.value == l.plan.content)
  {
  }

  /** Every step of the protocol leaves a live execution filed under its own plan. */
  lemma StepKeepsFiled(c: Cell, a: Action)
    requires c.live.Some? ==> Filed(c.live.value)
    requires Next(c, a).Some?
    ensures Next(c, a).value.live.Some? ==> Filed(Next(c, a).value.live.value)
  {
    hide StartStep, ResolveInterrupted, RecoverBlocked, BlockStep, RefuseAdvance, RequireAuthority, Cancel, Outcome, Capture, MayRebind, Reconciled;
    if a.Rebind? {
      ReboundIsFiled(c.restored.value, a.plan, a.rebindRun, a.ctx);
      hide Rebound;
    }
  }

  lemma ReboundIsFiled(sn: Snapshot, plan: Plan, runId: string, ctx: RebindContext)
    ensures var back := Rebound(sn, plan, runId, ctx); back.Some? ==> Filed(back.value)
  {
    hide Reconciled, ReboundState, StepsMatch;
  }
}
