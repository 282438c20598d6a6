/** The bounded autonomy run: the one-step advance, repeated under a second budget of its own.
    The run keeps a ledger of what it asked for; the execution keeps one of what it spent. */
module Autonomy {
  import opened Options
  import opened Allowances
  import opened Plans
  import opened ExecutionStates
  import opened Snapshots
  import opened AttemptProtocol
  import opened SequentialAdvance
  import opened Continuations
  import opened ExecutionMemory

  datatype RunBudget = RunBudget(steps: nat, network: nat, llm: nat, seconds: real)

  /** What one pass round the loop meets outside the execution. */
  datatype Round = Round(cancelled: bool, deliverableReady: bool, elapsed: real)

  datatype Stop =
    | RunCancelled
    | StepFailed
    | StepBlocked
    | StepInterrupted
    | ExecutionTerminal
    | NothingPending
    | DeliverableReady
    | StepBudgetExhausted
    | TimeBudgetExhausted
    | NetworkBudgetExhausted
    | LlmBudgetExhausted
    | AdvanceChangedNothing

  /** What a run has asked for so far, and how many steps it saw completed. */
  datatype Ledger = Ledger(attempted: nat, performed: nat, network: nat, llm: nat)

  datatype RunReport = NoSuchExecution | RunRaised(foreseen: bool) | Ran(stop: Stop, status: ExecutionStatus, ledger: Ledger)

  const NothingAsked := Ledger(0, 0, 0, 0)

  /** `progress_block`: why this execution can take no step, from its state alone. */
  function ProgressBlock(st: ExecutionState): (r: Option<Stop>)
    ensures r.None? ==> NextPending(st).Some?
    ensures r != Some(AdvanceChangedNothing)
  {
    if FirstWith(st.steps, StepStatus.Failed).Some? then Some(StepFailed)
    else if FirstWith(st.steps, StepStatus.Blocked).Some? then Some(StepBlocked)
    else if FirstWith(st.steps, StepStatus.Interrupted).Some? then Some(StepInterrupted)
    else if st.status.Terminal() then Some(ExecutionTerminal)
    else if NextPending(st).None? then Some(NothingPending)
    else None
  }

  /** `_stop_reason`: whether the loop may take one more step, whose declared cost is `cost`. */
  function StopReasonFor(st: ExecutionState, cost: Cost, budget: RunBudget, ledger: Ledger, round: Round): (r: Option<Stop>)
    ensures r != Some(AdvanceChangedNothing)
    ensures r.None? ==> NextPending(st).Some? && WithinRun(Asked(ledger, cost), budget)
  {
    if round.cancelled then Some(RunCancelled)
    else if ProgressBlock(st).Some? then ProgressBlock(st)
    else if round.deliverableReady then Some(DeliverableReady)
    else if ledger.attempted >= budget.steps then Some(StepBudgetExhausted)
    else if round.elapsed >= budget.seconds then Some(TimeBudgetExhausted)
    else if ledger.network + cost.network > budget.network then Some(NetworkBudgetExhausted)
    else if ledger.llm + cost.llm > budget.llm then Some(LlmBudgetExhausted)
    else None
  }

  /** The run counts an advance before it makes it. */
  function Asked(ledger: Ledger, cost: Cost): Ledger {
    ledger.(attempted := ledger.attempted + 1, network := ledger.network + cost.network, llm := ledger.llm + cost.llm)
  }

  /** What two runs asked for together. */
  function Sum(a: Ledger, b: Ledger): Ledger {
    Ledger(a.attempted + b.attempted, a.performed + b.performed, a.network + b.network, a.llm + b.llm)
  }

  predicate WithinRun(ledger: Ledger, budget: RunBudget) {
    ledger.attempted <= budget.steps && ledger.network <= budget.network && ledger.llm <= budget.llm
  }

  predicate Unfinished(s: StepState) { !s.status.Failed? && !s.status.Blocked? && !s.status.Interrupted? }

  /** The loop goes on if and only if nobody cancelled, no step failed, is blocked or was interrupted, the
      execution is open with a step pending, the deliverable is not ready, there is time left, and the
      next step's cost still fits the run's budget. */
  lemma GoesOnIff(st: ExecutionState, cost: Cost, budget: RunBudget, ledger: Ledger, round: Round)
    requires WithinRun(ledger, budget)
    ensures StopReasonFor(st, cost, budget, ledger, round).None? <==>
              && !round.cancelled && !round.deliverableReady && round.elapsed < budget.seconds
              && (forall j :: 0 <= j < |st.steps| ==> Unfinished(st.steps[j]))
              && !st.status.Terminal()
              && (exists j :: 0 <= j < |st.steps| && st.steps[j].status.Pending?)
              && WithinRun(Asked(ledger, cost), budget)
  {
    if StopReasonFor(st, cost, budget, ledger, round).None? {
      var k := NextPending(st).value;
      assert st.steps[k].status.Pending?;
    }
  }

  function CompletedIn(steps: seq<StepState>): nat {
    if steps == [] then 0
    else CompletedIn(steps[..|steps| - 1]) + if steps[|steps| - 1].status.Completed? then 1 else 0
  }

  lemma {:induction false} SameStepsSameCount(a: seq<StepState>, b: seq<StepState>)
    requires |a| == |b| && forall j :: 0 <= j < |a| ==> a[j].status.Completed? == b[j].status.Completed?
    ensures CompletedIn(a) == CompletedIn(b)
  {
    if a != [] {
      SameStepsSameCount(a[..|a| - 1], b[..|b| - 1]);
    }
  }

  lemma {:induction false} OneStepMoved(a: seq<StepState>, b: seq<StepState>, k: nat)
    requires |a| == |b| && k < |a| && !a[k].status.Completed?
    requires forall j :: 0 <= j < |a| && j != k ==> b[j] == a[j]
    ensures CompletedIn(b) == CompletedIn(a) + if b[k].status.Completed? then 1 else 0
  {
    if k == |a| - 1 {
      SameStepsSameCount(a[..k], b[..k]);
    } else {
      OneStepMoved(a[..|a| - 1], b[..|b| - 1], k);
    }
  }

  /** The execution's own ledger grew by no more than the run asked for. */
  predicate Bounded(first: Option<Allowance>, now: Option<Allowance>, ledger: Ledger) {
    first.Some? ==>
      && now.Some? && now.value.budget == first.value.budget
      && first.value.spend.steps <= now.value.spend.steps <= first.value.spend.steps + ledger.attempted
      && first.value.spend.network <= now.value.spend.network <= first.value.spend.network + ledger.network
      && first.value.spend.llm <= now.value.spend.llm <= first.value.spend.llm + ledger.llm
  }

  lemma BoundedTogether(a: Option<Allowance>, b: Option<Allowance>, c: Option<Allowance>, first: Ledger, second: Ledger)
    requires Bounded(a, b, first) && Bounded(b, c, second)
    ensures Bounded(a, c, Sum(first, second))
  {
  }

  /** Nothing has changed but what the store holds. */
  predicate OnlySaved(a: Cell, b: Cell) { b == a.(stored := b.stored) }

  ghost predicate OthersOnlySaved(before: map<string, Cell>, after: map<string, Cell>, id: string) {
    after.Keys == before.Keys && forall other :: other in before && other != id ==> OnlySaved(before[other], after[other])
  }

  /** One execution's own ledger grew by no more than this, and no other execution was touched. */
  ghost predicate Spends(before: map<string, Cell>, after: map<string, Cell>, id: string, ledger: Ledger) {
    OthersOnlySaved(before, after, id) && (id in before ==> Bounded(before[id].allowance, after[id].allowance, ledger))
  }

  lemma NothingSpends(cells: map<string, Cell>, id: string)
    ensures Spends(cells, cells, id, NothingAsked)
  {
  }

  lemma AdvanceOnlySavesOthers(cells: map<string, Cell>, id: string, inp: AdvanceInputs)
    requires id in cells
    ensures OthersOnlySaved(cells, AfterAdvance(cells, id, inp), id)
  {
    hide BesideAdvance, AdvanceCell, OnlySaved;
    forall other | other in cells && other != id ensures OnlySaved(cells[other], AfterAdvance(cells, id, inp)[other]) {
      BesideOnlySaves(cells[other], cells[id], inp);
    }
  }

  lemma BesideOnlySaves(other: Cell, c: Cell, inp: AdvanceInputs)
    ensures OnlySaved(other, BesideAdvance(other, c, inp))
  {
    hide CourseOf, Outcome, BlockStep, RefuseAdvance, RequireAuthority, Current;
  }

  lemma SpentSoFar(before: map<string, Cell>, after: map<string, Cell>, id: string, ledger: Ledger)
    requires OthersOnlySaved(before, after, id) && id in before && Bounded(before[id].allowance, after[id].allowance, ledger)
    ensures Spends(before, after, id, ledger)
  {
  }

  lemma OthersStayUntouched(a: map<string, Cell>, b: map<string, Cell>, c: map<string, Cell>, id: string)
    requires OthersOnlySaved(a, b, id) && OthersOnlySaved(b, c, id)
    ensures OthersOnlySaved(a, c, id)
  {
    forall other | other in a && other != id ensures OnlySaved(a[other], c[other]) {
      assert OnlySaved(a[other], b[other]) && OnlySaved(b[other], c[other]);
    }
  }

  /** After `n` advances from `first` the two ledgers agree, and the run saw every completion. */
  predicate Reconciles(first: Cell, inputs: nat -> AdvanceInputs, n: nat, ledger: Ledger, now: Cell) {
    && first.live.Some? && now.live.Some?
    && now == Advanced(first, inputs, n) && ledger.attempted == n
    && Bounded(first.allowance, now.allowance, ledger)
    && CompletedIn(now.live.value.state.steps) == CompletedIn(first.live.value.state.steps) + ledger.performed
  }

  lemma ReconcilesAt(first: Cell, inputs: nat -> AdvanceInputs, n: nat, ledger: Ledger, now: Cell)
    requires Reconciles(first, inputs, n, ledger, now)
    ensures now == Advanced(first, inputs, n) && Bounded(first.allowance, now.allowance, ledger)
  {
  }

  lemma NothingYet(first: Cell, inputs: nat -> AdvanceInputs)
    requires first.live.Some?
    ensures Reconciles(first, inputs, 0, NothingAsked, first)
  {
  }

  /** An allowance charged at most once for this cost. */
  predicate ChargedAtMost(before: Option<Allowance>, after: Option<Allowance>, cost: Cost) {
    before.Some? ==>
      && after.Some? && after.value.budget == before.value.budget
      && (after.value.spend.(seconds := 0.0) == before.value.spend.(seconds := 0.0)
          || after.value.spend.(seconds := 0.0) == PlusAttempt(before.value.spend, cost).(seconds := 0.0))
  }

  lemma ChargedOnceIsBounded(before: Option<Allowance>, after: Option<Allowance>, cost: Cost)
    requires ChargedAtMost(before, after, cost)
    ensures Bounded(before, after, Asked(NothingAsked, cost))
  {
    if before.Some? {
      var t := after.value.spend;
      assert t.steps == t.(seconds := 0.0).steps && t.network == t.(seconds := 0.0).network && t.llm == t.(seconds := 0.0).llm;
    }
  }

  lemma AttemptChargesOnce(c: Cell, k: nat, running: ExecutionState, inp: AdvanceInputs)
    requires c.live.Some? && k < |running.steps|
    ensures ChargedAtMost(c.allowance, AttemptedCell(c, k, running, inp).allowance, StepCost(c.origin, k))
  {
  }

  /** One advance spends at most what the run counted for it. */
  lemma AdvanceSpendsAtMostAsked(c: Cell, inp: AdvanceInputs, k: nat)
    requires c.live.Some? && NextPending(c.live.value.state) == Some(k)
    ensures ChargedAtMost(c.allowance, AdvanceCell(c, inp).allowance, StepCost(c.origin, k))
  {
    match CourseOf(c, inp)
    case Attempt(j, running) =>
      StartedStep(c, j, running, inp);
      AttemptChargesOnce(c, j, running, inp);
    case _ => SetAsideSpendsNothing(c, inp);
  }

  /** One advance more, refused or not, leaves the two ledgers in agreement. */
  lemma OneRoundMore(first: Cell, inputs: nat -> AdvanceInputs, n: nat, ledger: Ledger, now: Cell, k: nat)
    requires Reconciles(first, inputs, n, ledger, now) && NextPending(now.live.value.state) == Some(k)
    ensures var next := AdvanceCell(now, inputs(n));
            && next.live.Some? && k < |next.live.value.state.steps|
            && var asked := Asked(ledger, StepCost(now.origin, k));
               Reconciles(first, inputs, n + 1,
                          if next.live.value.state.steps[k].status.Completed? then asked.(performed := asked.performed + 1) else asked, next)
  {
    AdvanceSpendsAtMostAsked(now, inputs(n), k);
    ChargedOnceIsBounded(now.allowance, AdvanceCell(now, inputs(n)).allowance, StepCost(now.origin, k));
    AdvanceMovesOnlyTheNextStep(now, inputs(n));
    OneStepMoved(now.live.value.state.steps, AdvanceCell(now, inputs(n)).live.value.state.steps, k);
  }

  // -- a whole run, from what it meets ---------------------------------------------------

  /** What one run comes to: what is reported, how many advances were made, and what was asked for. */
  datatype Ended = Ended(report: RunReport, advances: nat, ledger: Ledger)

  /** The declared cost of the next pending step. */
  function NextCost(c: Cell): Cost
    requires c.live.Some?
  {
    var next := NextPending(c.live.value.state);
    if next.None? then Cost(0, 0) else StepCost(c.origin, next.value)
  }

  /** The run from here on, after `n` advances: it stops for a reason there is, goes on by one advance, and
      ends at one that raises or changes nothing. */
  function RunFrom(c: Cell, budget: RunBudget, rounds: nat -> Round, inputs: nat -> AdvanceInputs, n: nat, ledger: Ledger): Ended
    requires c.live.Some?
    decreases budget.steps - ledger.attempted
  {
    var st := c.live.value.state;
    var stop := StopReasonFor(st, NextCost(c), budget, ledger, rounds(n));
    if stop.Some? then Ended(Ran(stop.value, st.status, ledger), n, ledger)
    else
      AdvanceMovesOnlyTheNextStep(c, inputs(n));
      var next, k, asked := AdvanceCell(c, inputs(n)), NextPending(st).value, Asked(ledger, NextCost(c));
      var counted := if next.live.value.state.steps[k].status.Completed? then asked.(performed := asked.performed + 1) else asked;
      var report := ReportOf(c, inputs(n));
      if report.Escaping? then Ended(RunRaised(report.foreseen), n + 1, counted)
      else if next.live.value.state == st then Ended(Ran(AdvanceChangedNothing, st.status, asked), n + 1, asked)
      else RunFrom(next, budget, rounds, inputs, n + 1, counted)
  }

  /** Every cell after `n` advances of one of them. */
  ghost function AdvancedAll(cells: map<string, Cell>, id: string, inputs: nat -> AdvanceInputs, n: nat): (r: map<string, Cell>)
    requires id in cells
    ensures id in r && r[id] == Advanced(cells[id], inputs, n)
  {
    if n == 0 then cells
    else
      AdvancedCellOf(AdvancedAll(cells, id, inputs, n - 1), id, inputs(n - 1));
      AfterAdvance(AdvancedAll(cells, id, inputs, n - 1), id, inputs(n - 1))
  }

  lemma {:induction false} AdvancesOnlySaveOthers(cells: map<string, Cell>, id: string, inputs: nat -> AdvanceInputs, n: nat)
    requires id in cells
    ensures OthersOnlySaved(cells, AdvancedAll(cells, id, inputs, n), id)
    decreases n
  {
    hide AfterAdvance, OthersOnlySaved, Advanced;
    if n == 0 {
      NothingSpends(cells, id);
      assert Spends(cells, cells, id, NothingAsked);
    } else {
      var before := AdvancedAll(cells, id, inputs, n - 1);
      AdvancesOnlySaveOthers(cells, id, inputs, n - 1);
      AdvanceOnlySavesOthers(before, id, inputs(n - 1));
      OthersStayUntouched(cells, before, AfterAdvance(before, id, inputs(n - 1)), id);
    }
  }

  lemma CourseIgnoresTheStore(c: Cell, stored: Option<Snapshot>, inp: AdvanceInputs)
    ensures CourseOf(c.(stored := stored), inp) == CourseOf(c, inp)
  {
    hide StartStep, TurnedAway;
  }

  lemma AttemptIgnoresTheStore(c: Cell, stored: Option<Snapshot>, k: nat, running: ExecutionState, inp: AdvanceInputs)
    requires c.live.Some? && k < |running.steps|
    ensures var (n, m) := (AttemptedCell(c, k, running, inp), AttemptedCell(c.(stored := stored), k, running, inp)); m == n.(stored := m.stored)
  {
    hide Outcome, StepCost, Capture;
  }

  /** What the store held before has no part in what an advance comes to. */
  lemma AdvanceIgnoresTheStore(c: Cell, stored: Option<Snapshot>, inp: AdvanceInputs)
    requires c.live.Some?
    ensures ReportOf(c.(stored := stored), inp) == ReportOf(c, inp)
    ensures var (n, m) := (AdvanceCell(c, inp), AdvanceCell(c.(stored := stored), inp)); m == n.(stored := m.stored)
  {
    hide CourseOf, AttemptedCell, Outcome, BlockStep, RefuseAdvance, RequireAuthority, Capture, NoStepUnderway;
    CourseIgnoresTheStore(c, stored, inp);
    match CourseOf(c, inp)
    case Attempt(k, running) =>
      StartedStep(c, k, running, inp);
      AttemptIgnoresTheStore(c, stored, k, running, inp);
    case _ =>
  }

  lemma {:induction false} RunIgnoresTheStore(c: Cell, stored: Option<Snapshot>, budget: RunBudget, rounds: nat -> Round,
                                              inputs: nat -> AdvanceInputs, n: nat, ledger: Ledger)
    requires c.live.Some?
    ensures RunFrom(c.(stored := stored), budget, rounds, inputs, n, ledger) == RunFrom(c, budget, rounds, inputs, n, ledger)
    decreases budget.steps - ledger.attempted
  {
    hide AdvanceCell, ReportOf, StopReasonFor;
    AdvanceIgnoresTheStore(c, stored, inputs(n));
    AdvanceMovesOnlyTheNextStep(c, inputs(n));
    var st := c.live.value.state;
    if StopReasonFor(st, NextCost(c), budget, ledger, rounds(n)).None? {
      var next, other := AdvanceCell(c, inputs(n)), AdvanceCell(c.(stored := stored), inputs(n));
      var k, asked := NextPending(st).value, Asked(ledger, NextCost(c));
      var counted := if next.live.value.state.steps[k].status.Completed? then asked.(performed := asked.performed + 1) else asked;
      RunIgnoresTheStore(next, other.stored, budget, rounds, inputs, n + 1, counted);
    }
  }

  predicate SomeIs(st: ExecutionState, status: StepStatus) { exists j :: 0 <= j < |st.steps| && st.steps[j].status == status }

  /** Why a run stops before its next advance: the first of these that holds, in this order. */
  lemma StopLaw(st: ExecutionState, cost: Cost, budget: RunBudget, ledger: Ledger, round: Round)
    ensures var stop := StopReasonFor(st, cost, budget, ledger, round);
            var (failed, blocked) := (SomeIs(st, StepStatus.Failed), SomeIs(st, StepStatus.Blocked));
            var (interrupted, pending) := (SomeIs(st, StepStatus.Interrupted), SomeIs(st, StepStatus.Pending));
            var closed := st.status.Completed? || st.status.Failed? || st.status.Cancelled?;
            var movable := !round.cancelled && !failed && !blocked && !interrupted && !closed && pending;
            var open := movable && !round.deliverableReady;
            && (stop == Some(RunCancelled) <==> round.cancelled)
            && (stop == Some(StepFailed) <==> !round.cancelled && failed)
            && (stop == Some(StepBlocked) <==> !round.cancelled && !failed && blocked)
            && (stop == Some(StepInterrupted) <==> !round.cancelled && !failed && !blocked && interrupted)
            && (stop == Some(ExecutionTerminal) <==> !round.cancelled && !failed && !blocked && !interrupted && closed)
            && (stop == Some(NothingPending) <==> !round.cancelled && !failed && !blocked && !interrupted && !closed && !pending)
            && (stop == Some(DeliverableReady) <==> movable && round.deliverableReady)
            && (stop == Some(StepBudgetExhausted) <==> open && ledger.attempted >= budget.steps)
            && (stop == Some(TimeBudgetExhausted) <==> open && ledger.attempted < budget.steps && round.elapsed >= budget.seconds)
            && (stop == Some(NetworkBudgetExhausted) <==> open && ledger.attempted < budget.steps && round.elapsed < budget.seconds
                                                          && ledger.network + cost.network > budget.network)
            && (stop == Some(LlmBudgetExhausted) <==> open && ledger.attempted < budget.steps && round.elapsed < budget.seconds
                                                      && ledger.network + cost.network <= budget.network && ledger.llm + cost.llm > budget.llm)
  {
    IsFirst(st, StepStatus.Failed);
    IsFirst(st, StepStatus.Blocked);
    IsFirst(st, StepStatus.Interrupted);
    IsFirst(st, StepStatus.Pending);
    hide SomeIs, FirstWith;
  }

  lemma IsFirst(st: ExecutionState, status: StepStatus)
    ensures FirstWith(st.steps, status).Some? <==> SomeIs(st, status)
  {
    var r := FirstWith(st.steps, status);
    if r.Some? {
      assert st.steps[r.value].status == status;
    }
  }
}
