/** What one advance does, from what it meets: when it dispatches, what the execution says once the result
    is recorded, and what every other ending leaves. */
module AdvanceLaws {
  import opened Options
  import opened Allowances
  import opened Plans
  import opened ExecutionStates
  import opened TransitionLaws
  import opened Snapshots
  import opened AttemptProtocol
  import opened SequentialAdvance
  import opened ExecutionMemory

  /** A mission still has the authority it consumed, and nothing else poses as one. */
  predicate KeepsAuthority(l: Live, allowance: Option<Allowance>, missionResolver: bool) {
    if l.plan.content.mission.Some? then l.missionDigest == Some(l.plan.content) && missionResolver && allowance.Some?
    else l.missionDigest.None?
  }

  /** The execution is live, keeps its authority, no gate refuses it, and no interrupted attempt is unruled. */
  predicate GatesOpen(c: Cell, inp: AdvanceInputs) {
    && c.live.Some? && KeepsAuthority(c.live.value, c.allowance, inp.missionResolver)
    && !inp.gateRefuses && NoneIs(c.live.value.state, StepStatus.Interrupted)
  }

  /** The gates are open and step `k` is next. */
  predicate Facing(c: Cell, inp: AdvanceInputs, k: nat) {
    GatesOpen(c, inp) && FirstPending(c.live.value.state, k) && k < |c.origin.steps|
  }

  predicate Registered(cap: Capability, inp: AdvanceInputs) { !cap.NoCapability? && cap in inp.registered }

  /** One more attempt of this kind still fits into what is left, time included. */
  predicate FitsLeft(a: Allowance, cap: Capability) {
    && a.spend.steps < a.budget.steps && a.spend.seconds < a.budget.seconds
    && a.spend.network + CostFor(cap).network <= a.budget.network && a.spend.llm + CostFor(cap).llm <= a.budget.llm
  }

  /** Work that only a spent approval permits. */
  predicate NeedsApproval(cap: Capability) { cap.SourceRevalidation? || CostFor(cap).llm > 0 }

  predicate MayProceed(c: Cell, inp: AdvanceInputs)
    requires c.live.Some?
  {
    c.live.value.plan.content.mission.Some? ==> inp.followup.Proceed?
  }

  /** Everything an advance asks for before it dispatches step `k`. */
  predicate MayDispatch(c: Cell, inp: AdvanceInputs, k: nat) {
    && Facing(c, inp, k) && Registered(c.origin.steps[k].capability, inp) && MayProceed(c, inp)
    && (if c.allowance.Some? then FitsLeft(c.allowance.value, c.origin.steps[k].capability) else !NeedsApproval(c.origin.steps[k].capability))
    && NoStepUnderway(c.live.value.state)
  }

  lemma CourseLaw(c: Cell, inp: AdvanceInputs, k: nat)
    ensures CourseOf(c, inp).Attempt? && CourseOf(c, inp).step == k <==> MayDispatch(c, inp, k)
    ensures CourseOf(c, inp).NoExecution? <==> c.live.None?
    ensures MayDispatch(c, inp, k) ==> Some(CourseOf(c, inp).running) == StartStep(c.live.value.state, k, inp.operation)
  {
    if c.live.Some? {
      NextPendingLaw(c.live.value.state, k);
      StartStepLaw(c.live.value.state, k, inp.operation);
      if NextPending(c.live.value.state).Some? {
        NextPendingLaw(c.live.value.state, NextPending(c.live.value.state).value);
      }
    }
  }

  /** An advance dispatches step `k` exactly when everything it asks for holds and its checkpoint lands;
      then it dispatches that step once and nothing else. */
  lemma DispatchesIff(c: Cell, inp: AdvanceInputs, k: nat)
    ensures AdvanceCell(c, inp).log == c.log + [Dispatched(k)] + [Returned(k, inp.result)] <==> MayDispatch(c, inp, k) && inp.checkpointLands
    ensures (forall j: nat :: !MayDispatch(c, inp, j)) || !inp.checkpointLands <==> AdvanceCell(c, inp).log == c.log
  {
    AdvanceChargesWhatItDispatches(c, inp);
    CourseLaw(c, inp, k);
    if CourseOf(c, inp).Attempt? {
      CourseLaw(c, inp, CourseOf(c, inp).step);
      assert (c.log + [Dispatched(k)] + [Returned(k, inp.result)])[|c.log|] == Dispatched(k);
    }
    assert |c.log + [Dispatched(k)] + [Returned(k, inp.result)]| > |c.log|;
    forall j: nat ensures MayDispatch(c, inp, j) ==> CourseOf(c, inp).Attempt? {
      CourseLaw(c, inp, j);
    }
  }

  /** What the execution and its step say once this result is recorded. */
  predicate SettledAs(result: OperationResult, others: bool, operation: string, step: StepState, status: ExecutionStatus) {
    match result
    case Raised(detail) => status.Failed? && Tells(step, StepStatus.Failed, detail, false, "")
    case PerformedNothing(detail) => status.Blocked? && Tells(step, StepStatus.Blocked, detail, false, "")
    case PerformedFailed(detail) => status.Failed? && Tells(step, StepStatus.Failed, detail, true, operation)
    case PerformedSucceeded(detail) =>
      Tells(step, StepStatus.Completed, detail, true, operation) && if others then status.Completed? else status.Running?
    case Escaped => false
  }

  predicate OthersCompleted(st: ExecutionState, k: nat) {
    forall j :: 0 <= j < |st.steps| && j != k ==> st.steps[j].status.Completed?
  }

  /** After a dispatched attempt whose result is recorded, the execution has failed if the operation raised or
      performed and failed, is blocked if it performed nothing, is completed if it succeeded and every other
      step was completed already, and runs on otherwise; its step says the same, and no other step changes. */
  lemma AttemptSettles(c: Cell, inp: AdvanceInputs, k: nat)
    requires MayDispatch(c, inp, k) && inp.checkpointLands && !Unrecordable(inp.result, inp.operation)
    ensures var n := AdvanceCell(c, inp);
            && n.live.Some? && OnlyStep(c.live.value.state, n.live.value.state, k)
            && KeepsRuling(c.live.value.state.steps[k], n.live.value.state.steps[k])
            && SettledAs(inp.result, OthersCompleted(c.live.value.state, k), inp.operation, n.live.value.state.steps[k], n.live.value.state.status)
            && (inp.finalSaveLands ==> n.stored.Some? && n.stored.value.record == RecordOf(n.live.value.state))
  {
    var st := c.live.value.state;
    CourseLaw(c, inp, k);
    StartStepLaw(st, k, inp.operation);
    var running := CourseOf(c, inp).running;
    OutcomeLaw(running, k, inp.result);
    AttemptedState(c, k, running, inp);
    hide CourseOf, Outcome, StartStep, FirstPending;
    assert OthersCompleted(running, k) <==> OthersCompleted(st, k) by {
      assert forall j :: 0 <= j < |st.steps| && j != k ==> running.steps[j] == st.steps[j];
    }
  }

  lemma OutcomeLaw(running: ExecutionState, k: nat, result: OperationResult)
    requires k < |running.steps| && Attempting(running, k) && !Unrecordable(result, running.steps[k].operation)
    ensures var r := Outcome(running, k, result);
            && r.Some? && OnlyStep(running, r.value, k) && KeepsRuling(running.steps[k], r.value.steps[k])
            && SettledAs(result, OthersCompleted(running, k), running.steps[k].operation, r.value.steps[k], r.value.status)
  {
    var op := running.steps[k].operation;
    if !result.Escaped? {
      FailStepLaw(running, k, result.detail, false, "");
      FailStepLaw(running, k, result.detail, true, op);
      BlockStepLaw(running, k, result.detail);
      CompleteStepLaw(running, k, result.detail, op);
    }
  }

  /** An execution that does not run, failed ones among them, is left exactly as it is: nothing is dispatched
      and nothing charged. */
  lemma OnlyRunningAdvances(c: Cell, inp: AdvanceInputs)
    requires c.live.Some? && !c.live.value.state.status.Running?
    ensures AdvanceCell(c, inp) == c
  {
    var st := c.live.value.state;
    if NextPending(st).Some? {
      var k := NextPending(st).value;
      BlockStepLaw(st, k, inp.note);
      StartStepLaw(st, k, inp.operation);
    }
  }

  /** A closed gate, or no step that is next, leaves the execution exactly as it is. */
  lemma ClosedGateChangesNothing(c: Cell, inp: AdvanceInputs)
    requires !GatesOpen(c, inp) || NoneIs(c.live.value.state, StepStatus.Pending)
    ensures AdvanceCell(c, inp) == c && ReportOf(c, inp) == if c.live.None? then Missing else Rejected
  {
    if c.live.Some? {
      NextPendingLaw(c.live.value.state, 0);
    }
  }

  predicate Affordable(c: Cell, cap: Capability) { c.allowance.Some? ==> FitsLeft(c.allowance.value, cap) }

  /** The mission's policy stopped it for its budget while the allowance had room, or for another reason. */
  predicate PolicyTurnsAway(c: Cell, inp: AdvanceInputs, cap: Capability)
    requires c.live.Some?
  {
    c.live.value.plan.content.mission.Some?
    && (inp.followup.Refused? || (inp.followup.BudgetLimited? && (c.allowance.None? || FitsLeft(c.allowance.value, cap))))
  }

  /** What facing step `k` comes to when it is not attempted. */
  datatype Setting = Blocks | TurnsAway | RefusesCost | AsksAuthority

  /** Why step `k` is not attempted: nothing performs it; the mission's policy; what is left; no approval. */
  predicate SetAsideFor(c: Cell, inp: AdvanceInputs, k: nat, why: Setting)
    requires c.live.Some? && k < |c.origin.steps|
  {
    var cap := c.origin.steps[k].capability;
    match why
    case Blocks => !Registered(cap, inp)
    case TurnsAway => Registered(cap, inp) && PolicyTurnsAway(c, inp, cap)
    case RefusesCost => Registered(cap, inp) && !PolicyTurnsAway(c, inp, cap) && !Affordable(c, cap)
    case AsksAuthority => Registered(cap, inp) && MayProceed(c, inp) && c.allowance.None? && NeedsApproval(cap)
  }

  lemma SettingCourse(c: Cell, inp: AdvanceInputs, k: nat, why: Setting)
    requires Facing(c, inp, k) && SetAsideFor(c, inp, k, why)
    ensures CourseOf(c, inp) ==
            match why case Blocks => Hold case TurnsAway => Turned case RefusesCost => Refuse case AsksAuthority => SeekAuthority
    ensures NextPending(c.live.value.state) == Some(k)
  {
    NextPendingLaw(c.live.value.state, k);
    NextPendingLaw(c.live.value.state, 0);
  }

  /** A step nothing performs blocks the execution; one that the mission's policy stops leaves it as it is; one
      whose cost no longer fits is noted as refused; one that needs an approval nobody gave is noted as paused,
      with the plan and run to ask for. What cannot be noted changes nothing, and raises only when the note is
      too long or the other note stands already. */
  lemma NotAttempted(c: Cell, inp: AdvanceInputs, k: nat, why: Setting)
    requires Facing(c, inp, k) && SetAsideFor(c, inp, k, why)
    ensures var (st, l, n, r) := (c.live.value.state, c.live.value, AdvanceCell(c, inp), ReportOf(c, inp));
            && n.live.Some? && n.allowance == c.allowance && n.log == c.log
            && (n != c && inp.finalSaveLands ==> n.stored.Some? && n.stored.value.record == RecordOf(n.live.value.state))
            && match why
               case Blocks =>
                 if st.status.Running? && |inp.note| <= MAX_DETAIL
                 then r.Reported? && ClosesAt(st, n.live.value.state, k, ExecutionStatus.Blocked, inp.note)
                      && Tells(n.live.value.state.steps[k], StepStatus.Blocked, inp.note, false, "")
                 else n == c && r == Escaping(true)
               case TurnsAway => n == c && r.Rejected?
               case RefusesCost =>
                 if !NoStepUnderway(st) then n == c && r.BudgetRefused?
                 else if st.pause.Some? || |inp.note| > MAX_DETAIL then n == c && r == Escaping(true)
                 else r.BudgetRefused? && n.live.value.state == st.(refusal := Some(Refusal(k, inp.note)))
               case AsksAuthority =>
                 if !NoStepUnderway(st) || l.runId.None? then n == c && r.Rejected?
                 else if st.refusal.Some? || |inp.note| > MAX_DETAIL then n == c && r == Escaping(true)
                 else r.Rejected? && n.live.value.state == st.(pause := Some(Pause(k, l.plan.content, l.runId.value, inp.note)))
  {
    hide CourseOf, SetAsideFor, FirstPending, BlockStep, Tells;
    SettingCourse(c, inp, k, why);
    BlockStepLaw(c.live.value.state, k, inp.note);
  }

  /** What the caller is told of an attempt: turned down when the checkpoint did not land, and then nothing has
      changed; reported when the result is recorded; and raised otherwise, unforeseen only if it escaped. */
  lemma AttemptAnswers(c: Cell, inp: AdvanceInputs, k: nat)
    requires MayDispatch(c, inp, k)
    ensures ReportOf(c, inp) == if !inp.checkpointLands then Rejected
                                else if Unrecordable(inp.result, inp.operation) then Escaping(!inp.result.Escaped?) else Reported
    ensures !inp.checkpointLands ==> AdvanceCell(c, inp) == c
  {
    CourseLaw(c, inp, k);
    StartStepLaw(c.live.value.state, k, inp.operation);
    OutcomeIffRecordable(CourseOf(c, inp).running, k, inp.result);
  }

  /** And nothing else happens: facing a step with no such reason and without dispatching it, because the
      execution does not run or a step already does, changes nothing. */
  lemma OtherwiseNothing(c: Cell, inp: AdvanceInputs, k: nat)
    requires Facing(c, inp, k) && !MayDispatch(c, inp, k) && forall why :: !SetAsideFor(c, inp, k, why)
    ensures AdvanceCell(c, inp) == c && ReportOf(c, inp).Rejected?
  {
    assert !SetAsideFor(c, inp, k, Blocks) && !SetAsideFor(c, inp, k, TurnsAway) && !SetAsideFor(c, inp, k, RefusesCost)
        && !SetAsideFor(c, inp, k, AsksAuthority);
    NextPendingLaw(c.live.value.state, k);
    NextPendingLaw(c.live.value.state, 0);
    StartStepLaw(c.live.value.state, k, inp.operation);
  }
}
