/** The durable attempt protocol of one execution, interleaved at its atomic steps.

    A cell is everything the service, its store and its in-flight threads hold about
    one execution identifier. One advance may be in flight; it reads, charges, commits
    by compare-and-set, saves a checkpoint, dispatches, and commits the outcome by
    compare-and-set. Between any two of those steps a cancel, a ruling, a withdrawn
    ruling, somebody else's save or a crash may come. A save captures one document and
    later lands whole or not at all; any number of saves may overlap, and their documents
    land in any order. */
module AttemptProtocol {
  import opened Options
  import opened Allowances
  import opened Plans
  import opened ExecutionStates
  import opened Snapshots

  /** What an operation came back with. `Raised` is a `ResearchError`; any other
      exception leaves the advance without an outcome. */
  datatype OperationResult =
    | Raised(detail: string)
    | PerformedNothing(detail: string)
    | PerformedFailed(detail: string)
    | PerformedSucceeded(detail: string)
    | Escaped

  /** The history of one execution, kept for the proofs only. */
  datatype Event =
    | Dispatched(step: nat)
    | Returned(step: nat, result: OperationResult)
    | Ruled(step: nat, ruling: Resolution)
    | FoundOnRecord(step: nat)

  /** How far one attempt has come; `Saving` names the save that is its checkpoint. */
  datatype Phase = Prepared | Charged | Committed | Saving(key: nat) | Recorded | Performing | Undoing | Refunding

  /** The locals of one `process_advance` call. */
  datatype Attempt =
    | Idle
    | InFlight(phase: Phase, step: nat, before: ExecutionState, running: ExecutionState, allowance: Option<Allowance>)

  datatype SaveOwner = ForAttempt | ForOthers

  /** Documents captured and not written yet, by keys that grow with each capture. A document is
      `stale` once the checkpoint of an attempt has landed that was committed after the capture, and
      `overtaken` once any document captured later has landed. The `older` ones were captured before
      the last committed attempt. */
  datatype Saves = Saves(docs: map<nat, Option<Snapshot>>, older: set<nat>, stale: set<nat>, overtaken: set<nat>)

  const NoSaves := Saves(map[], {}, {}, {})

  /** The saves left once this one is over. */
  function Ended(saves: Saves, key: nat): Saves {
    Saves(saves.docs - {key}, saves.older - {key}, saves.stale - {key}, saves.overtaken - {key})
  }

  /** The saves left once this one has landed. */
  function Landed(saves: Saves, key: nat, checkpoint: bool): Saves {
    var left := Ended(saves, key);
    left.(stale := left.stale + if checkpoint then left.older else {},
          overtaken := left.overtaken + set j | j in left.docs && j < key)
  }

  datatype Cell = Cell(
    origin: PlanContent,             // the authored plan this identifier was minted for
    started: bool,
    withdrawn: bool,                 // a mission start was taken back after a save had captured it
    approved: Option<Budget>,        // the budget of the approval spent on it
    live: Option<Live>,
    allowance: Option<Allowance>,
    restored: Option<Snapshot>,
    stored: Option<Snapshot>,
    attempt: Attempt,
    saves: Saves,
    rulings: set<(ExecutionState, ExecutionState)>, // committed rulings that may yet be taken back
    log: seq<Event>)

  function Fresh(origin: PlanContent): Cell {
    Cell(origin, false, false, None, None, None, None, None, Idle, NoSaves, {}, [])
  }

  function StepCost(o: PlanContent, k: nat): Cost {
    if k < |o.steps| then CostFor(o.steps[k].capability) else Cost(0, 0)
  }

  /** What a save taken now would write for this execution. */
  function Current(c: Cell): Option<Snapshot> {
    if c.live.Some? then Some(Capture(c.live.value, c.allowance)) else c.restored
  }

  function WithState(c: Cell, st: ExecutionState): Cell
    requires c.live.Some?
  {
    c.(live := Some(c.live.value.(state := st)))
  }

  /** `_commit_outcome`: replace the state only if it is still the expected one. */
  function Commit(c: Cell, expected: ExecutionState, successor: ExecutionState): Cell {
    if c.live.Some? && c.live.value.state == expected then WithState(c, successor) else c
  }

  function Outcome(running: ExecutionState, k: nat, result: OperationResult): Option<ExecutionState>
    requires k < |running.steps|
  {
    match result
    case Raised(detail) => FailStep(running, k, detail, false, "")
    case PerformedNothing(detail) => BlockStep(running, k, detail)
    case PerformedFailed(detail) => FailStep(running, k, detail, true, running.steps[k].operation)
    case PerformedSucceeded(detail) => CompleteStep(running, k, detail, running.steps[k].operation)
    case Escaped => None
  }

  datatype Action =
    | Start(planId: string, budget: Option<Budget>, runId: Option<string>, disclosure: Disclosure, requestId: Option<string>)
    | WithdrawStart
    | CancelExecution(detail: string)
    | Resolve(step: nat, ruling: Resolution, moment: int)
    | Recover(step: nat, recovery: Recovery)
    | WithdrawRuling(before: ExecutionState, after: ExecutionState)
    | HoldStep(detail: string)
    | RefuseStep(detail: string)
    | PauseStep(digest: PlanContent, authorityRun: string, detail: string)
    | BeginAttempt(operation: string)
    | ChargeAttempt
    | CommitAttempt
    | UndoAttempt
    | RefundAttempt
    | Dispatch
    | Return(result: OperationResult, elapsed: real)
    | BeginSave(owner: SaveOwner, key: nat)
    | EndSave(key: nat, lands: bool)
    | Crash
    | Rebind(plan: Plan, rebindRun: string, ctx: RebindContext)

  // -- the atomic steps --------------------------------------------------------

  function StartedLive(c: Cell, a: Action): Live
    requires a.Start?
  {
    var mission := c.origin.mission.Some?;
    Live(Started(a.planId, StepIds(c.origin)), Plan(a.planId, c.origin), a.runId, a.disclosure,
         if mission then Some(c.origin) else None, if mission then a.requestId else None)
  }

  function DoStart(c: Cell, a: Action): Option<Cell>
    requires a.Start?
  {
    if c.started then None
    else Some(c.(started := true, approved := a.budget, live := Some(StartedLive(c, a)),
                 allowance := if a.budget.Some? then Some(Allowance(a.budget.value, NothingSpent)) else None))
  }

  /** A save has written or captured this execution. */
  predicate Held(c: Cell) {
    c.stored.Some? || exists key :: key in c.saves.docs && c.saves.docs[key].Some?
  }

  /** A mission whose first checkpoint failed leaves no entry behind, unless it has moved on. */
  function DoWithdrawStart(c: Cell): Option<Cell> {
    if c.origin.mission.Some? && c.live.Some? && c.live.value.state == Started(c.live.value.state.planId, StepIds(c.origin))
    then Some(c.(live := None, allowance := None, withdrawn := c.withdrawn || Held(c)))
    else None
  }

  function Ruling(c: Cell, st: Option<ExecutionState>): Option<Cell>
    requires c.live.Some?
  {
    if st.None? then None
    else Some(WithState(c, st.value).(rulings := c.rulings + {(c.live.value.state, st.value)}))
  }

  function DoResolve(c: Cell, k: nat, ruling: Resolution, moment: int): Option<Cell> {
    if c.live.None? then None
    else
      var r := Ruling(c, ResolveInterrupted(c.live.value.state, k, ruling, moment));
      if r.None? then None else Some(r.value.(log := c.log + [Ruled(k, ruling)]))
  }

  function DoRecover(c: Cell, k: nat, recovery: Recovery): Option<Cell> {
    if c.live.None? then None else Ruling(c, RecoverBlocked(c.live.value.state, k, recovery))
  }

  /** A replacement committed by an advance that dispatches nothing. */
  function Replace(c: Cell, st: Option<ExecutionState>): Option<Cell>
    requires c.live.Some?
  {
    if st.None? then None else Some(WithState(c, st.value))
  }

  /** The step the next advance would look at: none while an interrupted attempt is unruled. */
  function Advanceable(c: Cell): Option<nat> {
    if c.live.None? || !c.attempt.Idle? || InterruptedStep(c.live.value.state).Some? then None
    else NextPending(c.live.value.state)
  }

  /** An advance with no allowance may run only a local or network step that is no revalidation. */
  predicate Permitted(allowance: Option<Allowance>, cap: Capability) {
    if allowance.Some? then Affords(allowance.value, CostFor(cap))
    else CostFor(cap).llm == 0 && cap != SourceRevalidation
  }

  function DoBeginAttempt(c: Cell, operation: string): Option<Cell> {
    var k := Advanceable(c);
    if k.None? || k.value >= |c.origin.steps| then None
    else
      var cap := c.origin.steps[k.value].capability;
      var st := c.live.value.state;
      var running := StartStep(st, k.value, operation);
      if !Executable(cap) || !Permitted(c.allowance, cap) || running.None? then None
      else Some(c.(attempt := InFlight(Prepared, k.value, st, running.value, c.allowance)))
  }

  function DoChargeAttempt(c: Cell): Option<Cell> {
    if !c.attempt.InFlight? || !c.attempt.phase.Prepared? then None
    else Some(c.(attempt := c.attempt.(phase := Charged),
                 allowance := if c.attempt.allowance.Some?
                              then ChargedIfAny(c.attempt.allowance, StepCost(c.origin, c.attempt.step))
                              else c.allowance))
  }

  function DoCommitAttempt(c: Cell): Option<Cell> {
    if !c.attempt.InFlight? || !c.attempt.phase.Charged? then None
    else
      var won := c.live.Some? && c.live.value.state == c.attempt.before;
      Some(Commit(c, c.attempt.before, c.attempt.running).(
             attempt := c.attempt.(phase := if won then Committed else Refunding),
             saves := if won then c.saves.(older := c.saves.docs.Keys) else c.saves))
  }

  function DoUndoAttempt(c: Cell): Option<Cell> {
    if !c.attempt.InFlight? || !c.attempt.phase.Undoing? then None
    else Some(Commit(c, c.attempt.running, c.attempt.before).(attempt := c.attempt.(phase := Refunding)))
  }

  function DoRefundAttempt(c: Cell): Option<Cell> {
    if !c.attempt.InFlight? || !c.attempt.phase.Refunding? then None
    else Some(c.(attempt := Idle, allowance := if c.attempt.allowance.Some? then c.attempt.allowance else c.allowance))
  }

  function DoDispatch(c: Cell): Option<Cell> {
    if !c.attempt.InFlight? || !c.attempt.phase.Recorded? then None
    else Some(c.(attempt := c.attempt.(phase := Performing), log := c.log + [Dispatched(c.attempt.step)]))
  }

  function DoReturn(c: Cell, result: OperationResult, elapsed: real): Option<Cell> {
    if !c.attempt.InFlight? || !c.attempt.phase.Performing? || c.attempt.step >= |c.attempt.running.steps| then None
    else
      var outcome := Outcome(c.attempt.running, c.attempt.step, result);
      var settled := if outcome.Some? then Commit(c, c.attempt.running, outcome.value) else c;
      Some(settled.(attempt := Idle,
                    allowance := if result.Escaped? then c.allowance else ElapsedIfAny(c.allowance, elapsed),
                    log := c.log + [Returned(c.attempt.step, result)]))
  }

  function DoBeginSave(c: Cell, owner: SaveOwner, key: nat): Option<Cell> {
    var capturing := c.(saves := c.saves.(docs := c.saves.docs[key := Current(c)]));
    if exists j :: j in c.saves.docs && j >= key then None
    else if owner.ForOthers? then Some(capturing)
    else if c.attempt.InFlight? && c.attempt.phase.Committed?
    then Some(capturing.(attempt := c.attempt.(phase := Saving(key))))
    else None
  }

  /** The attempt waits for this save. */
  predicate Checkpoint(c: Cell, key: nat) { c.attempt.InFlight? && c.attempt.phase == Saving(key) }

  function DoEndSave(c: Cell, key: nat, lands: bool): Option<Cell> {
    if key !in c.saves.docs then None
    else
      var ended :=
        if lands then c.(saves := Landed(c.saves, key, Checkpoint(c, key)), stored := c.saves.docs[key])
        else c.(saves := Ended(c.saves, key));
      Some(if Checkpoint(c, key) then ended.(attempt := c.attempt.(phase := if lands then Recorded else Undoing)) else ended)
  }

  function DoCrash(c: Cell): Cell {
    c.(live := None, allowance := None, attempt := Idle, saves := NoSaves, rulings := {},
       restored := if c.stored.Some? then Some(Restored(c.stored.value)) else None)
  }

  function DoRebind(c: Cell, plan: Plan, runId: string, ctx: RebindContext): Option<Cell> {
    if c.live.Some? || c.restored.None? then None
    else
      var sn := c.restored.value;
      var l := Rebound(sn, plan, runId, ctx);
      if l.None? then None
      else
        var cut := InterruptedStep(sn.record);
        Some(c.(live := l, allowance := sn.allowance, restored := None,
                log := if cut.Some? && l.value.state != ReboundState(sn) then c.log + [FoundOnRecord(cut.value)] else c.log))
  }

  function DoCancel(c: Cell, detail: string): Option<Cell> {
    if c.live.None? then None else Replace(c, Cancel(c.live.value.state, detail))
  }

  function DoWithdrawRuling(c: Cell, before: ExecutionState, after: ExecutionState): Option<Cell> {
    if (before, after) in c.rulings then Some(Commit(c, after, before)) else None
  }

  /** An advance that ends before any attempt may still hold the step, or note why it cannot run. */
  function DoSetAside(c: Cell, a: Action): Option<Cell>
    requires a.HoldStep? || a.RefuseStep? || a.PauseStep?
  {
    var k := Advanceable(c);
    if k.None? then None
    else
      var st := c.live.value.state;
      Replace(c, match a
                 case HoldStep(detail) => BlockStep(st, k.value, detail)
                 case RefuseStep(detail) => RefuseAdvance(st, k.value, detail)
                 case PauseStep(digest, run, detail) => RequireAuthority(st, k.value, digest, run, detail))
  }

  /** One atomic step, if it is possible here. */
  function Next(c: Cell, a: Action): Option<Cell> {
    match a
    case Start(_, _, _, _, _) => DoStart(c, a)
    case WithdrawStart => DoWithdrawStart(c)
    case CancelExecution(detail) => DoCancel(c, detail)
    case Resolve(k, ruling, moment) => DoResolve(c, k, ruling, moment)
    case Recover(k, recovery) => DoRecover(c, k, recovery)
    case WithdrawRuling(before, after) => DoWithdrawRuling(c, before, after)
    case HoldStep(_) => DoSetAside(c, a)
    case RefuseStep(_) => DoSetAside(c, a)
    case PauseStep(_, _, _) => DoSetAside(c, a)
    case BeginAttempt(operation) => DoBeginAttempt(c, operation)
    case ChargeAttempt => DoChargeAttempt(c)
    case CommitAttempt => DoCommitAttempt(c)
    case UndoAttempt => DoUndoAttempt(c)
    case RefundAttempt => DoRefundAttempt(c)
    case Dispatch => DoDispatch(c)
    case Return(result, elapsed) => DoReturn(c, result, elapsed)
    case BeginSave(owner, key) => DoBeginSave(c, owner, key)
    case EndSave(key, lands) => DoEndSave(c, key, lands)
    case Crash => Some(DoCrash(c))
    case Rebind(plan, runId, ctx) => DoRebind(c, plan, runId, ctx)
  }

  /** A run: the cell after these steps, if each was possible. */
  function Exec(c: Cell, run: seq<Action>): Option<Cell>
    decreases |run|
  {
    if run == [] then Some(c)
    else
      var n := Next(c, run[0]);
      if n.None? then None else Exec(n.value, run[1..])
  }

  // -- which saves land ------------------------------------------------------------

  /** No document lands that was captured before an attempt whose checkpoint has landed since. */
  predicate Timely(c: Cell, a: Action) { a.EndSave? && a.lands ==> a.key !in c.saves.stale }

  /** No document lands after one captured later. */
  predicate InTurn(c: Cell, a: Action) { a.EndSave? && a.lands ==> a.key !in c.saves.overtaken }

  predicate TimelyRun(c: Cell, run: seq<Action>)
    decreases |run|
  {
    run == [] || (Timely(c, run[0]) && (Next(c, run[0]).Some? ==> TimelyRun(Next(c, run[0]).value, run[1..])))
  }

  predicate InTurnRun(c: Cell, run: seq<Action>)
    decreases |run|
  {
    run == [] || (InTurn(c, run[0]) && (Next(c, run[0]).Some? ==> InTurnRun(Next(c, run[0]).value, run[1..])))
  }
}
