/** The immutable state machine of one plan execution.

    Models `ResearchPlanExecutionState` and `ResearchPlanStepState`. A step is
    named by its position in the authored plan (step identifiers are distinct);
    a transition that raises `ResearchError` is `None`. */
module ExecutionStates {
  import opened Options
  import opened Plans

  datatype StepStatus = Pending | Running | Completed | Failed | Cancelled | Blocked | Interrupted {
    predicate Terminal() { Completed? || Failed? || Cancelled? }

    /** Being attempted now, or cut off while being attempted. */
    predicate Busy() { Running? || Interrupted? }
  }

  datatype ExecutionStatus = Ready | Running | Completed | Failed | Cancelled | Blocked | Interrupted {
    predicate Terminal() { Completed? || Failed? || Cancelled? }

    /** The statuses a restart may take up again. */
    predicate Resumable() { Running? || Interrupted? }
  }

  /** A human ruling on an attempt nobody saw the end of; its absence is `NoRuling`. */
  datatype Resolution = NoRuling | PerformedResultUnknown | NotPerformed | RemainsUnknown

  /** What an operator did about a performed, unseen attempt. */
  datatype Recovery =
    | Abandoned(summary: string, recordedAt: int)
    | OperatorSupplied(summary: string, recordedAt: int)

  datatype StepState = StepState(
    id: string,
    status: StepStatus,
    detail: string,
    workPerformed: bool,
    operation: string,
    resolution: Resolution,
    ruledAt: Option<int>,
    recovery: Option<Recovery>)

  /** Why an advance was refused before any attempt, and for which step. */
  datatype Refusal = Refusal(step: nat, detail: string)

  /** The authority the next step lacks entirely. */
  datatype Pause = Pause(step: nat, digest: PlanContent, runId: string, detail: string)

  datatype ExecutionState = ExecutionState(
    planId: string,
    status: ExecutionStatus,
    steps: seq<StepState>,
    detail: string,
    refusal: Option<Refusal>,
    pause: Option<Pause>)

  const MAX_DETAIL: nat := 500

  function PendingStep(id: string): StepState {
    StepState(id, StepStatus.Pending, "", false, "", NoRuling, None, None)
  }

  /** `prepare(plan).start()`: every step pending, the execution running, no step begun. */
  function Started(planId: string, ids: seq<string>): ExecutionState {
    ExecutionState(planId, ExecutionStatus.Running, seq(|ids|, j requires 0 <= j < |ids| => PendingStep(ids[j])), "", None, None)
  }

  // -- queries ---------------------------------------------------------------

  /** The first step at or after `from` with this status. */
  function FirstWith(steps: seq<StepState>, status: StepStatus, from: nat := 0): (r: Option<nat>)
    requires from <= |steps|
    ensures r.Some? ==>
              && from <= r.value < |steps| && steps[r.value].status == status
              && forall j :: from <= j < r.value ==> steps[j].status != status
    ensures r.None? ==> forall j :: from <= j < |steps| ==> steps[j].status != status
    decreases |steps| - from
  {
    if from == |steps| then None
    else if steps[from].status == status then Some(from)
    else FirstWith(steps, status, from + 1)
  }

  function NextPending(st: ExecutionState): Option<nat> { FirstWith(st.steps, StepStatus.Pending) }

  function RunningStep(st: ExecutionState): Option<nat> { FirstWith(st.steps, StepStatus.Running) }

  function InterruptedStep(st: ExecutionState): Option<nat> { FirstWith(st.steps, StepStatus.Interrupted) }

  predicate AllCompleted(steps: seq<StepState>) {
    forall j :: 0 <= j < |steps| ==> steps[j].status.Completed?
  }

  // -- transitions -----------------------------------------------------------

  /** `with_status`: everything but the ruling and recovery record is replaced. */
  function WithStatus(s: StepState, status: StepStatus, detail: string, work: bool, operation: string): StepState {
    s.(status := status, detail := detail, workPerformed := work, operation := operation)
  }

  function StartStep(st: ExecutionState, k: nat, operation: string): Option<ExecutionState> {
    if !st.status.Running? || RunningStep(st).Some? || NextPending(st) != Some(k) then None
    else
      var begun := st.(steps := st.steps[k := WithStatus(st.steps[k], StepStatus.Running, "", false, operation)]);
      Some(begun.(refusal := if st.refusal.Some? && st.refusal.value.step == k then None else st.refusal,
                  pause := if st.pause.Some? && st.pause.value.step == k then None else st.pause))
  }

  function CompleteStep(st: ExecutionState, k: nat, detail: string, operation: string): Option<ExecutionState> {
    if !st.status.Running? || k >= |st.steps| || !st.steps[k].status.Running? || |detail| > MAX_DETAIL || operation == ""
    then None
    else
      var updated := st.(steps := st.steps[k := WithStatus(st.steps[k], StepStatus.Completed, detail, true, operation)]);
      Some(if AllCompleted(updated.steps) then updated.(status := ExecutionStatus.Completed) else updated)
  }

  function FailStep(st: ExecutionState, k: nat, detail: string, work: bool, operation: string): Option<ExecutionState> {
    if !st.status.Running? || k >= |st.steps| || !st.steps[k].status.Running? || |detail| > MAX_DETAIL || (work && operation == "")
    then None
    else
      Some(st.(steps := st.steps[k := WithStatus(st.steps[k], StepStatus.Failed, detail, work, operation)],
               status := ExecutionStatus.Failed, detail := detail, refusal := None, pause := None))
  }

  function BlockStep(st: ExecutionState, k: nat, detail: string): Option<ExecutionState> {
    if !st.status.Running? || k >= |st.steps| || !(st.steps[k].status.Pending? || st.steps[k].status.Running?) || |detail| > MAX_DETAIL
    then None
    else
      Some(st.(steps := st.steps[k := WithStatus(st.steps[k], StepStatus.Blocked, detail, false, "")],
               status := ExecutionStatus.Blocked, detail := detail, refusal := None, pause := None))
  }

  /** Record a budget refusal against the next pending step without blocking it. */
  function RefuseAdvance(st: ExecutionState, k: nat, detail: string): Option<ExecutionState> {
    if !st.status.Running? || NextPending(st) != Some(k) || st.pause.Some? || |detail| > MAX_DETAIL then None
    else Some(st.(refusal := Some(Refusal(k, detail))))
  }

  /** Record that the next pending step needs authority nobody has given. */
  function RequireAuthority(st: ExecutionState, k: nat, digest: PlanContent, runId: string, detail: string): Option<ExecutionState> {
    if !st.status.Running? || NextPending(st) != Some(k) || st.refusal.Some? || |detail| > MAX_DETAIL then None
    else Some(st.(pause := Some(Pause(k, digest, runId, detail))))
  }

  function CancelStep(s: StepState, detail: string): StepState {
    if s.status.Terminal() then s
    else WithStatus(s, StepStatus.Cancelled, detail, s.workPerformed, s.operation)
  }

  /** Close every unfinished step; finished steps keep their record. */
  function Cancel(st: ExecutionState, detail: string): Option<ExecutionState> {
    if st.status.Terminal() then None
    else
      Some(st.(steps := seq(|st.steps|, j requires 0 <= j < |st.steps| => CancelStep(st.steps[j], detail)),
               status := ExecutionStatus.Cancelled, detail := detail, refusal := None, pause := None))
  }

  const STILL_UNKNOWN := "The operator could not establish what the attempt did."
  const RAN_UNSEEN := "The operator confirmed the operation ran; its result is unknown."
  const NEVER_RAN := "The operator confirmed the operation never ran."
  const ABANDONED := "The operator abandoned this step; its outcome stays unknown."
  const SUPPLIED := "The operator supplied recovered information; Hypatia saw no provider result."

  /** Record one human ruling about an interrupted attempt; nothing is run or refunded. */
  function ResolveInterrupted(st: ExecutionState, k: nat, ruling: Resolution, moment: int): Option<ExecutionState> {
    if !st.status.Interrupted? || k >= |st.steps| || !st.steps[k].status.Interrupted? then None
    else
      var ruled := st.steps[k].(resolution := ruling, ruledAt := Some(moment));
      match ruling
      case NoRuling => None
      case RemainsUnknown =>
        Some(st.(steps := st.steps[k := WithStatus(ruled, StepStatus.Interrupted, STILL_UNKNOWN, false, ruled.operation)],
                 detail := ""))
      case PerformedResultUnknown =>
        if ruled.operation == "" then None else
        Some(st.(steps := st.steps[k := WithStatus(ruled, StepStatus.Blocked, RAN_UNSEEN, true, ruled.operation)],
                 status := ExecutionStatus.Blocked, detail := "", refusal := None, pause := None))
      case NotPerformed =>
        Some(st.(steps := st.steps[k := WithStatus(ruled, StepStatus.Pending, NEVER_RAN, false, "")],
                 status := ExecutionStatus.Running, detail := ""))
  }

  /** Record what an operator did about a step ruled performed with an unknown result. */
  function RecoverBlocked(st: ExecutionState, k: nat, recovery: Recovery): Option<ExecutionState> {
    if !st.status.Blocked? || k >= |st.steps| || !st.steps[k].status.Blocked?
       || !st.steps[k].resolution.PerformedResultUnknown?
       || (recovery.OperatorSupplied? && recovery.summary == "")
    then None
    else
      var kept := st.steps[k].(recovery := Some(recovery));
      Some(if recovery.Abandoned?
           then st.(steps := st.steps[k := kept.(status := StepStatus.Cancelled, detail := ABANDONED)],
                    status := ExecutionStatus.Running, detail := "")
           else st.(steps := st.steps[k := kept.(detail := SUPPLIED)], detail := ""))
  }

  /** Complete an unruled interrupted step whose own result is durably recorded. */
  function CompleteFromRecord(st: ExecutionState, k: nat, detail: string, operation: string): Option<ExecutionState> {
    if !st.status.Interrupted? || k >= |st.steps| || !st.steps[k].status.Interrupted?
       || !st.steps[k].resolution.NoRuling? || |detail| > MAX_DETAIL || operation == ""
    then None
    else
      var steps := st.steps[k := WithStatus(st.steps[k], StepStatus.Completed, detail, true, operation)];
      Some(st.(steps := steps,
               detail := "",
               status := if FirstWith(steps, StepStatus.Interrupted).Some? then ExecutionStatus.Interrupted
                         else if AllCompleted(steps) then ExecutionStatus.Completed
                         else ExecutionStatus.Running))
  }

  // -- what every transition keeps -------------------------------------------

  predicate PerformedUnseen(s: StepState) { s.status.Blocked? && s.resolution.PerformedResultUnknown? }

  /** At most one attempt is open, open attempts agree with the execution status,
      and a performed-unseen step holds the whole execution blocked. */
  predicate WellFormed(st: ExecutionState) {
    && (forall i, j :: 0 <= i < j < |st.steps| ==> !(st.steps[i].status.Busy() && st.steps[j].status.Busy()))
    && (forall j :: 0 <= j < |st.steps| && st.steps[j].status.Interrupted? ==> st.status.Interrupted?)
    && (forall j :: 0 <= j < |st.steps| && st.steps[j].status.Running? ==> st.status.Running? || st.status.Blocked?)
    && (st.status.Completed? ==> AllCompleted(st.steps))
    && (st.status.Cancelled? ==> forall j :: 0 <= j < |st.steps| ==> st.steps[j].status.Terminal())
    && (forall j :: 0 <= j < |st.steps| && st.steps[j].resolution.PerformedResultUnknown? ==>
          st.steps[j].status.Blocked? || st.steps[j].status.Cancelled?)
    && (forall i :: 0 <= i < |st.steps| && PerformedUnseen(st.steps[i]) ==>
          && st.status.Blocked?
          && (forall j :: 0 <= j < |st.steps| ==> !st.steps[j].status.Busy())
          && (forall j :: 0 <= j < |st.steps| && PerformedUnseen(st.steps[j]) ==> i == j))
    && !(st.refusal.Some? && st.pause.Some?)
  }

  /** `b` differs from `a` in no step but `k`. */
  predicate OnlyStep(a: ExecutionState, b: ExecutionState, k: nat) {
    && |a.steps| == |b.steps| && k < |a.steps| && a.planId == b.planId && a.steps[k].id == b.steps[k].id
    && forall j :: 0 <= j < |a.steps| && j != k ==> a.steps[j] == b.steps[j]
  }

  /** Starting a step makes it the only open attempt and leaves every other step alone. */
  lemma StartingKeepsWellFormed(st: ExecutionState, k: nat, operation: string)
    requires WellFormed(st)
    ensures var r := StartStep(st, k, operation);
            r.Some? ==>
              && WellFormed(r.value) && OnlyStep(st, r.value, k)
              && st.steps[k].status.Pending? && r.value.steps[k].status.Running? && r.value.status.Running?
  {
  }

  lemma CompletingKeepsWellFormed(st: ExecutionState, k: nat, detail: string, operation: string)
    requires WellFormed(st)
    ensures var r := CompleteStep(st, k, detail, operation);
            r.Some? ==> WellFormed(r.value) && OnlyStep(st, r.value, k) && r.value.steps[k].status.Completed?
  {
  }

  lemma FailingKeepsWellFormed(st: ExecutionState, k: nat, detail: string, work: bool, operation: string)
    requires WellFormed(st)
    ensures var r := FailStep(st, k, detail, work, operation);
            r.Some? ==> WellFormed(r.value) && OnlyStep(st, r.value, k) && r.value.steps[k].status.Failed?
  {
  }

  lemma BlockingKeepsWellFormed(st: ExecutionState, k: nat, detail: string)
    requires WellFormed(st)
    ensures var r := BlockStep(st, k, detail);
            r.Some? ==> WellFormed(r.value) && OnlyStep(st, r.value, k) && r.value.steps[k].status.Blocked?
  {
  }

  lemma CancelKeepsWellFormed(st: ExecutionState, detail: string)
    requires WellFormed(st)
    ensures var r := Cancel(st, detail);
            r.Some? ==>
              && WellFormed(r.value) && r.value.status.Cancelled? && |r.value.steps| == |st.steps| && r.value.planId == st.planId
              && forall j :: 0 <= j < |st.steps| ==>
                   && r.value.steps[j].status.Terminal() && r.value.steps[j].id == st.steps[j].id
                   && (st.steps[j].status.Terminal() ==> r.value.steps[j] == st.steps[j])
                   && (r.value.steps[j].status.Completed? ==> st.steps[j].status.Completed?)
  {
  }

  /** A ruling reopens or closes exactly the interrupted step it names, and leaves no step running. */
  lemma RulingsKeepWellFormed(st: ExecutionState, k: nat, ruling: Resolution, moment: int)
    requires WellFormed(st)
    ensures var r := ResolveInterrupted(st, k, ruling, moment);
            r.Some? ==>
              && WellFormed(r.value) && OnlyStep(st, r.value, k) && RunningStep(r.value).None?
              && !r.value.status.Terminal() && !r.value.steps[k].status.Completed?
              && (r.value.steps[k].status.Pending? <==> ruling.NotPerformed?)
  {
  }

  lemma RecoveriesKeepWellFormed(st: ExecutionState, k: nat, recovery: Recovery)
    requires WellFormed(st)
    ensures var r := RecoverBlocked(st, k, recovery);
            r.Some? ==>
              && WellFormed(r.value) && OnlyStep(st, r.value, k) && RunningStep(r.value).None?
              && !r.value.status.Terminal()
              && (r.value.steps[k].status.Cancelled? || r.value.steps[k].status.Blocked?)
  {
  }

  lemma RecordedCompletionKeepsWellFormed(st: ExecutionState, k: nat, detail: string, operation: string)
    requires WellFormed(st)
    ensures var r := CompleteFromRecord(st, k, detail, operation);
            r.Some? ==> WellFormed(r.value) && OnlyStep(st, r.value, k) && r.value.steps[k].status.Completed? && r.value.steps[k].workPerformed
  {
  }
}
