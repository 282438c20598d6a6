/** The service that runs one approved execution under a run budget, through its one-step advance only. */
module AutonomyService {
  import opened Options
  import opened Allowances
  import opened Plans
  import opened ExecutionStates
  import opened Snapshots
  import opened AttemptProtocol
  import opened SequentialAdvance
  import opened Continuations
  import opened ExecutionMemory
  import opened Autonomy
  import opened MissionRequests
  import P = PlanExecutionService

  /** One more advance keeps what a run keeps of every execution. */
  lemma RoundKeeps(before: map<string, Cell>, cells: map<string, Cell>, id: string, inp: AdvanceInputs)
    requires RequestsKept(before, cells) && OthersOnlySaved(before, cells, id) && id in cells
    ensures var after := AfterAdvance(cells, id, inp);
            RequestsKept(before, after) && OthersOnlySaved(before, after, id) && id in after && after[id] == AdvanceCell(cells[id], inp)
  {
    hide RequestsKept, OthersOnlySaved, AfterAdvance, AdvanceCell;
    AdvancedCellOf(cells, id, inp);
    AdvancingKeeps(cells, id, inp);
    KeptIsTransitive(before, cells, AfterAdvance(cells, id, inp));
    AdvanceOnlySavesOthers(cells, id, inp);
    OthersStayUntouched(before, cells, AfterAdvance(cells, id, inp), id);
  }

  /** One round of the run, as the loop makes it. */
  lemma RoundOfRun(c: Cell, budget: RunBudget, rounds: nat -> Round, inputs: nat -> AdvanceInputs, n: nat, ledger: Ledger, k: nat)
    requires c.live.Some? && NextPending(c.live.value.state) == Some(k)
    requires StopReasonFor(c.live.value.state, NextCost(c), budget, ledger, rounds(n)).None?
    ensures var (next, asked, report) := (AdvanceCell(c, inputs(n)), Asked(ledger, NextCost(c)), ReportOf(c, inputs(n)));
            && next.live.Some? && k < |next.live.value.state.steps|
            && var counted := if next.live.value.state.steps[k].status.Completed? then asked.(performed := asked.performed + 1) else asked;
            RunFrom(c, budget, rounds, inputs, n, ledger) ==
              if report.Escaping? then Ended(RunRaised(report.foreseen), n + 1, counted)
              else if next.live.value.state == c.live.value.state
              then Ended(Ran(AdvanceChangedNothing, c.live.value.state.status, asked), n + 1, asked)
              else RunFrom(next, budget, rounds, inputs, n + 1, counted)
  {
    hide AdvanceCell, ReportOf, StopReasonFor, NextCost;
    AdvanceMovesOnlyTheNextStep(c, inputs(n));
  }

  lemma StoppedRun(c: Cell, budget: RunBudget, rounds: nat -> Round, inputs: nat -> AdvanceInputs, n: nat, ledger: Ledger, stop: Stop)
    requires c.live.Some? && StopReasonFor(c.live.value.state, NextCost(c), budget, ledger, rounds(n)) == Some(stop)
    ensures RunFrom(c, budget, rounds, inputs, n, ledger) == Ended(Ran(stop, c.live.value.state.status, ledger), n, ledger)
  {
  }

  lemma OneMoreAdvance(cells: map<string, Cell>, id: string, inputs: nat -> AdvanceInputs, n: nat)
    requires id in cells
    ensures AdvancedAll(cells, id, inputs, n + 1) == AfterAdvance(AdvancedAll(cells, id, inputs, n), id, inputs(n))
    ensures AdvancedAll(cells, id, inputs, 0) == cells
  {
  }

  /** The advance after the first `i` of a run raises. */
  predicate Escapes(first: Cell, inputs: nat -> AdvanceInputs, i: nat) {
    ReportOf(Advanced(first, inputs, i), inputs(i)).Escaping?
  }

  class Runner {
    const execution: P.Service

    constructor (execution: P.Service)
      ensures this.execution == execution
    {
      this.execution := execution;
    }

    /** The declared cost of the next pending step of a live execution. */
    function CostOfNext(id: string): Cost
      requires id in execution.executions && id in execution.plans
      reads execution
    {
      var next := NextPending(execution.executions[id]);
      if next.None? then Cost(0, 0)
      else CostFor(CapabilityOr(execution.plans[id].content, execution.executions[id].steps[next.value].id))
    }

    /** The cost the run counts is the cost the execution will charge. */
    lemma CostIsCharged(id: string, k: nat)
      requires execution.Valid() && id in execution.executions && NextPending(execution.executions[id]) == Some(k)
      ensures id in execution.plans && id in execution.cells
      ensures CostOfNext(id) == StepCost(execution.cells[id].origin, k)
      ensures execution.cells[id].live.Some? && CostOfNext(id) == NextCost(execution.cells[id])
    {
      execution.Held(id);
      assert Agrees(execution.cells[id], execution.Remembered(), execution.store.saved, id);
      DeclaredAsAuthored(execution.cells[id], k);
    }

    lemma NothingToCost(id: string)
      requires execution.Valid() && id in execution.executions && NextPending(execution.executions[id]).None?
      ensures id in execution.plans && id in execution.cells && execution.cells[id].live.Some?
      ensures CostOfNext(id) == NextCost(execution.cells[id])
    {
      execution.Held(id);
    }

    /** Advance until something says stop. What it comes to is decided by the execution, the two budgets and
        what the advances meet, and the cells are those after its advances. The run's ledger stays within its budget, bounds what the
        execution spent in every component, and counts every step completed on the way. */
    method ProcessRun(id: string, budget: RunBudget, rounds: nat -> Round, inputs: nat -> AdvanceInputs)
      returns (r: RunReport, n: nat, ghost spent: Ledger)
      requires execution.Valid() && forall i: nat :: inputs(i).missionResolver == execution.missionResolver
      modifies execution`executions, execution`allowances, execution`cells, execution.store
      ensures execution.Valid() && RequestsKept(old(execution.cells), execution.cells)
      ensures r.NoSuchExecution? <==> id !in old(execution.executions)
      ensures r.NoSuchExecution? ==> execution.cells == old(execution.cells) && spent == NothingAsked
      ensures Spends(old(execution.cells), execution.cells, id, spent) && WithinRun(spent, budget)
      ensures !r.NoSuchExecution? ==>
                && id in old(execution.cells) && id in execution.cells && id in execution.executions && id in execution.plans
                && n <= budget.steps && old(execution.cells[id]).live.Some?
      ensures !r.NoSuchExecution? ==>
                && Ended(r, n, spent) == RunFrom(old(execution.cells[id]), budget, rounds, inputs, 0, NothingAsked)
                && execution.cells == AdvancedAll(old(execution.cells), id, inputs, n)
      ensures r.RunRaised? <==> id in old(execution.executions) && n > 0 && Escapes(old(execution.cells[id]), inputs, n - 1)
      ensures r.RunRaised? ==> ReportOf(Advanced(old(execution.cells[id]), inputs, n - 1), inputs(n - 1)) == Escaping(r.foreseen)
      ensures !r.NoSuchExecution? ==> forall i :: 0 <= i < n - 1 ==> !Escapes(old(execution.cells[id]), inputs, i)
      ensures !r.NoSuchExecution? ==> Reconciles(old(execution.cells[id]), inputs, n, spent, execution.cells[id])
      ensures r.Ran? ==>
                && r.ledger == spent && r.status == execution.executions[id].status
                && (if r.stop.AdvanceChangedNothing?
                    then n > 0 && Advanced(old(execution.cells[id]), inputs, n - 1).live.Some?
                         && Advanced(old(execution.cells[id]), inputs, n - 1).live.value.state == execution.executions[id]
                    else StopReasonFor(execution.executions[id], CostOfNext(id), budget, r.ledger, rounds(n)) == Some(r.stop))
    {
      hide P.Service.Valid, AfterAdvance, RequestsKept, AdvanceCell, ReportOf, Reconciles, CostOfNext, StopReasonFor,
           OthersOnlySaved, Spends, Bounded, RunFrom, NextCost, AdvancedAll;
      n, spent := 0, NothingAsked;
      NothingSpends(execution.cells, id);
      NothingDoneKeeps(execution.cells);
      if id !in execution.executions {
        return NoSuchExecution, 0, NothingAsked;
      }
      execution.Held(id);
      ghost var first := execution.cells[id];
      var ledger := NothingAsked;
      NothingYet(first, inputs);
      OneMoreAdvance(execution.cells, id, inputs, 0);
      while true
        invariant execution.Valid() && id in execution.executions && id in execution.cells && id in execution.plans
        invariant RequestsKept(old(execution.cells), execution.cells) && OthersOnlySaved(old(execution.cells), execution.cells, id)
        invariant forall i :: 0 <= i < n ==> !Escapes(first, inputs, i)
        invariant execution.cells[id].live.Some? && execution.cells == AdvancedAll(old(execution.cells), id, inputs, n)
        invariant RunFrom(first, budget, rounds, inputs, 0, NothingAsked) == RunFrom(execution.cells[id], budget, rounds, inputs, n, ledger)
        invariant Reconciles(first, inputs, n, ledger, execution.cells[id]) && WithinRun(ledger, budget) && ledger.attempted == n
        decreases budget.steps - n
      {
        execution.Held(id);
        var state := execution.executions[id];
        if NextPending(state).None? {
          NothingToCost(id);
        } else {
          CostIsCharged(id, NextPending(state).value);
        }
        var cost := CostOfNext(id);
        var stop := StopReasonFor(state, cost, budget, ledger, rounds(n));
        if stop.Some? {
          StoppedRun(execution.cells[id], budget, rounds, inputs, n, ledger, stop.value);
          ReconcilesAt(first, inputs, n, ledger, execution.cells[id]);
          SpentSoFar(old(execution.cells), execution.cells, id, ledger);
          return Ran(stop.value, state.status, ledger), n, ledger;
        }
        var k := NextPending(state).value;
        RoundOfRun(execution.cells[id], budget, rounds, inputs, n, ledger, k);
        OneMoreAdvance(old(execution.cells), id, inputs, n);
        ReconcilesAt(first, inputs, n, ledger, execution.cells[id]);
        OneRoundMore(first, inputs, n, ledger, execution.cells[id], k);
        ledger := Asked(ledger, cost);
        RoundKeeps(old(execution.cells), execution.cells, id, inputs(n));
        var response := execution.ProcessAdvance(id, inputs(n));
        n := n + 1;
        execution.Held(id);
        if response.Escaping? {
          ghost var seen := if execution.executions[id].steps[k].status.Completed? then ledger.(performed := ledger.performed + 1) else ledger;
          ReconcilesAt(first, inputs, n, seen, execution.cells[id]);
          SpentSoFar(old(execution.cells), execution.cells, id, seen);
          return RunRaised(response.foreseen), n, seen;
        }
        var advanced := execution.executions[id];
        if advanced == state {
          ReconcilesAt(first, inputs, n, ledger, execution.cells[id]);
          SpentSoFar(old(execution.cells), execution.cells, id, ledger);
          return Ran(AdvanceChangedNothing, state.status, ledger), n, ledger;
        }
        if advanced.steps[k].status.Completed? {
          ledger := ledger.(performed := ledger.performed + 1);
        }
      }
    }
  }
}
