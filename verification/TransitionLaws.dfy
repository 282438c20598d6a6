/** When each transition of an execution is accepted, and what the execution says afterwards: its status,
    the one step concerned, and everything that stays. */
module TransitionLaws {
  import opened Options
  import opened Plans
  import opened ExecutionStates

  /** The ruling, its time and the recovery on a step are the operator's; an attempt never touches them. */
  predicate KeepsRuling(a: StepState, b: StepState) {
    a.id == b.id && a.resolution == b.resolution && a.ruledAt == b.ruledAt && a.recovery == b.recovery
  }

  /** What an attempt says on its step. */
  predicate Tells(s: StepState, status: StepStatus, detail: string, work: bool, operation: string) {
    s.status == status && s.detail == detail && s.workPerformed == work && s.operation == operation
  }

  predicate NoneIs(st: ExecutionState, status: StepStatus) { forall j :: 0 <= j < |st.steps| ==> st.steps[j].status != status }

  /** Step `k` is pending and no earlier one is. */
  predicate FirstPending(st: ExecutionState, k: nat) {
    k < |st.steps| && st.steps[k].status.Pending? && forall j :: 0 <= j < k ==> !st.steps[j].status.Pending?
  }

  /** Only step `k` and the execution's own status and detail may differ; nothing set aside is left. */
  predicate ClosesAt(a: ExecutionState, b: ExecutionState, k: nat, status: ExecutionStatus, detail: string) {
    OnlyStep(a, b, k) && KeepsRuling(a.steps[k], b.steps[k]) && b.status == status && b.detail == detail && b.refusal.None? && b.pause.None?
  }

  /** A plan starts running with every authored step pending, none attempted, ruled or set aside. */
  lemma StartedLaw(planId: string, ids: seq<string>)
    ensures var st := Started(planId, ids);
            && st.planId == planId && st.status.Running? && |st.steps| == |ids| && st.detail == "" && st.refusal.None? && st.pause.None?
            && forall j :: 0 <= j < |ids| ==>
                 && st.steps[j].id == ids[j] && Tells(st.steps[j], StepStatus.Pending, "", false, "")
                 && st.steps[j].resolution.NoRuling? && st.steps[j].ruledAt.None? && st.steps[j].recovery.None?
  {
  }

  lemma NextPendingLaw(st: ExecutionState, k: nat)
    ensures NextPending(st) == Some(k) <==> FirstPending(st, k)
    ensures NextPending(st).None? <==> NoneIs(st, StepStatus.Pending)
    ensures RunningStep(st).None? <==> NoneIs(st, StepStatus.Running)
    ensures InterruptedStep(st).None? <==> NoneIs(st, StepStatus.Interrupted)
  {
  }

  /** A step begins only while the plan runs, no step runs, and it is the first pending one. It names its
      operation and claims no work; a refusal or pause is lifted only from the step it names. */
  lemma StartStepLaw(st: ExecutionState, k: nat, operation: string)
    ensures var r := StartStep(st, k, operation);
            && (r.Some? <==> st.status.Running? && NoneIs(st, StepStatus.Running) && FirstPending(st, k))
            && (r.Some? ==>
                  && OnlyStep(st, r.value, k) && r.value.status.Running? && r.value.detail == st.detail
                  && KeepsRuling(st.steps[k], r.value.steps[k]) && Tells(r.value.steps[k], StepStatus.Running, "", false, operation)
                  && (r.value.refusal.Some? <==> st.refusal.Some? && st.refusal.value.step != k)
                  && (r.value.pause.Some? <==> st.pause.Some? && st.pause.value.step != k)
                  && (r.value.refusal.Some? ==> r.value.refusal == st.refusal) && (r.value.pause.Some? ==> r.value.pause == st.pause))
  {
    NextPendingLaw(st, k);
  }

  /** The step an attempt runs. */
  predicate Attempting(st: ExecutionState, k: nat) { st.status.Running? && k < |st.steps| && st.steps[k].status.Running? }

  /** A success completes its step, and the plan exactly when every other step was completed already. */
  lemma CompleteStepLaw(st: ExecutionState, k: nat, detail: string, operation: string)
    ensures var r := CompleteStep(st, k, detail, operation);
            && (r.Some? <==> Attempting(st, k) && |detail| <= MAX_DETAIL && operation != "")
            && (r.Some? ==>
                  && OnlyStep(st, r.value, k) && KeepsRuling(st.steps[k], r.value.steps[k])
                  && Tells(r.value.steps[k], StepStatus.Completed, detail, true, operation)
                  && r.value.detail == st.detail && r.value.refusal == st.refusal && r.value.pause == st.pause
                  && (r.value.status.Completed? <==> forall j :: 0 <= j < |st.steps| && j != k ==> st.steps[j].status.Completed?)
                  && (!r.value.status.Completed? ==> r.value.status.Running?))
  {
  }

  /** A failure fails its step and the whole plan, and says whether work was done. */
  lemma FailStepLaw(st: ExecutionState, k: nat, detail: string, work: bool, operation: string)
    ensures var r := FailStep(st, k, detail, work, operation);
            && (r.Some? <==> Attempting(st, k) && |detail| <= MAX_DETAIL && (work ==> operation != ""))
            && (r.Some? ==>
                  && ClosesAt(st, r.value, k, ExecutionStatus.Failed, detail)
                  && Tells(r.value.steps[k], StepStatus.Failed, detail, work, operation))
  {
  }

  /** A step that cannot be performed is blocked, pending or running, and the plan with it. */
  lemma BlockStepLaw(st: ExecutionState, k: nat, detail: string)
    ensures var r := BlockStep(st, k, detail);
            && (r.Some? <==> && st.status.Running? && k < |st.steps| && |detail| <= MAX_DETAIL
                             && (st.steps[k].status.Pending? || st.steps[k].status.Running?))
            && (r.Some? ==>
                  && ClosesAt(st, r.value, k, ExecutionStatus.Blocked, detail)
                  && Tells(r.value.steps[k], StepStatus.Blocked, detail, false, ""))
  {
  }

  /** A refusal and a pause exclude each other; either names the first pending step and changes no step. */
  lemma SettingAsideLaw(st: ExecutionState, k: nat, digest: PlanContent, runId: string, detail: string)
    ensures var r := RefuseAdvance(st, k, detail);
            && (r.Some? <==> st.status.Running? && FirstPending(st, k) && st.pause.None? && |detail| <= MAX_DETAIL)
            && (r.Some? ==>
                  r.value.refusal == Some(Refusal(k, detail)) && r.value.pause == st.pause && r.value.steps == st.steps
                  && r.value.status == st.status && r.value.detail == st.detail && r.value.planId == st.planId)
    ensures var r := RequireAuthority(st, k, digest, runId, detail);
            && (r.Some? <==> st.status.Running? && FirstPending(st, k) && st.refusal.None? && |detail| <= MAX_DETAIL)
            && (r.Some? ==>
                  r.value.pause == Some(Pause(k, digest, runId, detail)) && r.value.refusal == st.refusal && r.value.steps == st.steps
                  && r.value.status == st.status && r.value.detail == st.detail && r.value.planId == st.planId)
  {
    NextPendingLaw(st, k);
  }

  /** What a cancellation makes of a plan. Finished steps keep their whole record; every other one is cancelled
      and keeps what is known of its attempt. */
  predicate CancelledAs(st: ExecutionState, after: ExecutionState, detail: string) {
    && after.status.Cancelled? && after.detail == detail && after.refusal.None? && after.pause.None?
    && after.planId == st.planId && |after.steps| == |st.steps|
    && forall j :: 0 <= j < |st.steps| ==>
         if st.steps[j].status.Completed? || st.steps[j].status.Failed? || st.steps[j].status.Cancelled? then after.steps[j] == st.steps[j]
         else && KeepsRuling(st.steps[j], after.steps[j])
              && Tells(after.steps[j], StepStatus.Cancelled, detail, st.steps[j].workPerformed, st.steps[j].operation)
  }

  predicate Closed(status: ExecutionStatus) { status.Completed? || status.Failed? || status.Cancelled? }

  /** Anything but a closed plan can be cancelled. */
  lemma CancelLaw(st: ExecutionState, detail: string)
    ensures var r := Cancel(st, detail); (r.Some? <==> !Closed(st.status)) && (r.Some? ==> CancelledAs(st, r.value, detail))
  {
  }

  /** What each ruling on an interrupted attempt makes of its step and of the plan. */
  predicate RuledAs(ruling: Resolution, before: StepState, after: StepState, status: ExecutionStatus) {
    match ruling
    case NoRuling => false
    case RemainsUnknown => Tells(after, StepStatus.Interrupted, STILL_UNKNOWN, false, before.operation) && status.Interrupted?
    case PerformedResultUnknown =>
      before.operation != "" && Tells(after, StepStatus.Blocked, RAN_UNSEEN, true, before.operation) && status.Blocked?
    case NotPerformed => Tells(after, StepStatus.Pending, NEVER_RAN, false, "") && status.Running?
  }

  /** A ruling is accepted on an interrupted step of an interrupted plan, unless it is none, or claims work
      for an operation without a name. */
  predicate MayRule(st: ExecutionState, k: nat, ruling: Resolution) {
    && st.status.Interrupted? && k < |st.steps| && st.steps[k].status.Interrupted? && !ruling.NoRuling?
    && (ruling.PerformedResultUnknown? ==> st.steps[k].operation != "")
  }

  /** It is written on the step with its time; one that left the result unknown blocks the plan, one that it
      never ran lets the plan run on, one that nothing is known changes neither status. */
  predicate RuledOn(st: ExecutionState, after: ExecutionState, k: nat, ruling: Resolution, moment: int) {
    && OnlyStep(st, after, k) && RuledAs(ruling, st.steps[k], after.steps[k], after.status) && after.detail == ""
    && after.steps[k].resolution == ruling && after.steps[k].ruledAt == Some(moment) && after.steps[k].recovery == st.steps[k].recovery
    && (if after.status.Blocked? then after.refusal.None? && after.pause.None?
        else after.refusal == st.refusal && after.pause == st.pause)
  }

  lemma ResolveLaw(st: ExecutionState, k: nat, ruling: Resolution, moment: int)
    ensures var r := ResolveInterrupted(st, k, ruling, moment);
            (r.Some? <==> MayRule(st, k, ruling)) && (r.Some? ==> RuledOn(st, r.value, k, ruling, moment))
  {
  }

  /** A recovery is accepted on a step blocked as performed with an unknown result, of a blocked plan, unless
      it is an empty account. */
  predicate MayRecover(st: ExecutionState, k: nat, recovery: Recovery) {
    && st.status.Blocked? && k < |st.steps| && st.steps[k].status.Blocked? && st.steps[k].resolution.PerformedResultUnknown?
    && (recovery.OperatorSupplied? ==> recovery.summary != "")
  }

  /** Abandoning cancels the step and lets the plan run on; an account the operator supplied leaves both
      blocked. What is known of the attempt, and the ruling, stay. */
  predicate RecoveredAs(st: ExecutionState, after: ExecutionState, k: nat, recovery: Recovery) {
    && OnlyStep(st, after, k) && after.detail == "" && after.refusal == st.refusal && after.pause == st.pause
    && after.steps[k].resolution == st.steps[k].resolution && after.steps[k].ruledAt == st.steps[k].ruledAt
    && after.steps[k].recovery == Some(recovery)
    && (if recovery.Abandoned?
        then after.status.Running?
             && Tells(after.steps[k], StepStatus.Cancelled, ABANDONED, st.steps[k].workPerformed, st.steps[k].operation)
        else after.status.Blocked?
             && Tells(after.steps[k], StepStatus.Blocked, SUPPLIED, st.steps[k].workPerformed, st.steps[k].operation))
  }

  lemma RecoverLaw(st: ExecutionState, k: nat, recovery: Recovery)
    ensures var r := RecoverBlocked(st, k, recovery);
            (r.Some? <==> MayRecover(st, k, recovery)) && (r.Some? ==> RecoveredAs(st, r.value, k, recovery))
  {
  }

  /** An unruled interrupted step is completed from its own record; the plan then stays interrupted while
      another step is, is completed when all are, and runs on otherwise. */
  lemma FromRecordLaw(st: ExecutionState, k: nat, detail: string, operation: string)
    ensures var r := CompleteFromRecord(st, k, detail, operation);
            && (r.Some? <==>
                  && st.status.Interrupted? && k < |st.steps| && st.steps[k].status.Interrupted? && st.steps[k].resolution.NoRuling?
                  && |detail| <= MAX_DETAIL && operation != "")
            && (r.Some? ==>
                  && OnlyStep(st, r.value, k) && KeepsRuling(st.steps[k], r.value.steps[k])
                  && Tells(r.value.steps[k], StepStatus.Completed, detail, true, operation)
                  && r.value.detail == "" && r.value.refusal == st.refusal && r.value.pause == st.pause
                  && (r.value.status.Interrupted? <==> exists j :: 0 <= j < |st.steps| && j != k && st.steps[j].status.Interrupted?)
                  && (r.value.status.Completed? <==> forall j :: 0 <= j < |st.steps| && j != k ==> st.steps[j].status.Completed?)
                  && (r.value.status.Interrupted? || r.value.status.Completed? || r.value.status.Running?))
  {
    var r := CompleteFromRecord(st, k, detail, operation);
    if r.Some? {
      assert forall j :: 0 <= j < |st.steps| && j != k ==> r.value.steps[j] == st.steps[j];
    }
  }
}
