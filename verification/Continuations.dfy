/** Continuing: the one-step advance, repeated at most a chosen number of times. */
module Continuations {
  import opened Options
  import opened Allowances
  import opened Plans
  import opened ExecutionStates
  import opened Snapshots
  import opened AttemptProtocol
  import opened SequentialAdvance
  import opened ExecutionMemory

  const MAX_FOREGROUND_CONTINUATION_STEPS: nat := 10

  datatype StopReason =
    | BoundReached
    | Halted(status: ExecutionStatus)
    | NoPendingStep
    | BudgetExhausted
    | AdvanceRefused

  datatype Continuation = Continuation(
    attempted: seq<nat>,
    reason: StopReason,
    finalStatus: ExecutionStatus,
    next: Option<nat>)

  datatype ContinueReport = BoundUnusable | NothingToContinue | RaisedWithin | Continued(c: Continuation)

  /** The statuses that end a continuation. */
  predicate Halts(status: ExecutionStatus) {
    status.Completed? || status.Failed? || status.Blocked? || status.Interrupted? || status.Cancelled?
  }

  /** Everything but a plan that has not started or runs. */
  lemma HaltsUnlessRunning(status: ExecutionStatus)
    ensures Halts(status) <==> status != ExecutionStatus.Ready && status != ExecutionStatus.Running
  {
  }

  /** The cell after the first `n` advances. */
  function Advanced(c: Cell, inputs: nat -> AdvanceInputs, n: nat): Cell {
    if n == 0 then c else AdvanceCell(Advanced(c, inputs, n - 1), inputs(n - 1))
  }

  predicate Ascending(s: seq<nat>) {
    forall i, j :: 0 <= i < j < |s| ==> s[i] < s[j]
  }

  /** `attempted` names, in plan order and once each, exactly the steps that left pending. */
  predicate Attempts(attempted: seq<nat>, before: ExecutionState, after: ExecutionState) {
    && Ascending(attempted)
    && |after.steps| == |before.steps|
    && (forall i :: 0 <= i < |attempted| ==> attempted[i] < |before.steps|)
    && (forall j :: 0 <= j < |before.steps| ==>
          (j in attempted <==> before.steps[j].status.Pending? && !after.steps[j].status.Pending?))
    && (forall j :: 0 <= j < |before.steps| && after.steps[j].status.Pending? ==> before.steps[j].status.Pending?)
    && (forall i, j :: 0 <= i < |attempted| && 0 <= j <= attempted[i] && j < |after.steps| ==> !after.steps[j].status.Pending?)
  }

  lemma NothingAttempted(st: ExecutionState)
    ensures Attempts([], st, st)
  {
  }

  /** One more advance adds the step it took out of the pending ones, if it took any. */
  lemma OneMoreAttempt(attempted: seq<nat>, before: ExecutionState, c: Cell, inp: AdvanceInputs, k: nat)
    requires c.live.Some? && Attempts(attempted, before, c.live.value.state) && NextPending(c.live.value.state) == Some(k)
    ensures var n := AdvanceCell(c, inp);
            && n.live.Some? && k < |n.live.value.state.steps|
            && Attempts(if n.live.value.state.steps[k].status.Pending? then attempted else attempted + [k], before, n.live.value.state)
            && (NextPending(n.live.value.state) == Some(k) <==> n.live.value.state.steps[k].status.Pending?)
  {
    AdvanceMovesOnlyTheNextStep(c, inp);
    AnotherStepIsNext(c, inp, k);
    var n := AdvanceCell(c, inp).live.value.state;
    var more := attempted + [k];
    assert c.live.value.state.steps[k].status.Pending?;
    assert forall i :: 0 <= i < |attempted| ==> attempted[i] < k;
    if !n.steps[k].status.Pending? {
      assert Ascending(more);
      forall j | 0 <= j < |before.steps|
        ensures j in more <==> before.steps[j].status.Pending? && !n.steps[j].status.Pending?
      {
        assert j in more <==> j in attempted || j == k;
      }
    }
  }

  /** No advance of a continuation is made from a state that ends one. */
  predicate NeverPastAHalt(c: Cell, inputs: nat -> AdvanceInputs, n: nat) {
    forall i :: 0 <= i < n ==>
      Advanced(c, inputs, i).live.Some? && !Halts(Advanced(c, inputs, i).live.value.state.status)
      && NextPending(Advanced(c, inputs, i).live.value.state).Some?
  }

  /** After `n` advances from `first`, none of them past a halt, these steps have been attempted. */
  predicate SoFar(first: Cell, inputs: nat -> AdvanceInputs, n: nat, attempted: seq<nat>, now: Cell) {
    && first.live.Some? && now.live.Some?
    && now == Advanced(first, inputs, n) && NeverPastAHalt(first, inputs, n)
    && Attempts(attempted, first.live.value.state, now.live.value.state)
  }

  lemma NothingSoFar(first: Cell, inputs: nat -> AdvanceInputs)
    requires first.live.Some?
    ensures SoFar(first, inputs, 0, [], first)
  {
    NothingAttempted(first.live.value.state);
  }

  lemma OneFurther(first: Cell, inputs: nat -> AdvanceInputs, n: nat, attempted: seq<nat>, now: Cell, k: nat)
    requires SoFar(first, inputs, n, attempted, now)
    requires !Halts(now.live.value.state.status) && NextPending(now.live.value.state) == Some(k)
    ensures var next := AdvanceCell(now, inputs(n));
            && next.live.Some? && k < |next.live.value.state.steps|
            && SoFar(first, inputs, n + 1,
                     if next.live.value.state.steps[k].status.Pending? then attempted else attempted + [k], next)
            && (NextPending(next.live.value.state) == Some(k) <==> next.live.value.state.steps[k].status.Pending?)
  {
    OneMoreAttempt(attempted, first.live.value.state, now, inputs(n), k);
  }

  // -- a whole continuation, from what it meets ------------------------------------------------

  /** Why an advance that changed nothing did: what is left no longer pays for the next step, or another
      reason. */
  function RefusalOf(c: Cell): StopReason
    requires c.live.Some?
  {
    var next := NextPending(c.live.value.state);
    if c.allowance.Some? && next.Some? && !Affords(c.allowance.value, StepCost(c.origin, next.value)) then BudgetExhausted else AdvanceRefused
  }

  function ContinuedAt(c: Cell, attempted: seq<nat>, reason: StopReason): ContinueReport
    requires c.live.Some?
  {
    Continued(Continuation(attempted, reason, c.live.value.state.status, NextPending(c.live.value.state)))
  }

  /** The continuation from here on, after `n` advances that attempted these steps: it stops at its bound, at
      a halt, with no step pending, at an advance that raises, and at one that does not get past its step. */
  function ContinueFrom(c: Cell, inputs: nat -> AdvanceInputs, bound: nat, n: nat, attempted: seq<nat>): (ContinueReport, nat)
    requires c.live.Some?
    decreases bound - |attempted|
  {
    var st := c.live.value.state;
    if |attempted| >= bound then (ContinuedAt(c, attempted, BoundReached), n)
    else if Halts(st.status) then (ContinuedAt(c, attempted, Halted(st.status)), n)
    else if NextPending(st).None? then (ContinuedAt(c, attempted, NoPendingStep), n)
    else
      var k := NextPending(st).value;
      AnotherStepIsNext(c, inputs(n), k);
      var next, report := AdvanceCell(c, inputs(n)), ReportOf(c, inputs(n));
      var more := if next.live.value.state.steps[k].status.Pending? then attempted else attempted + [k];
      if report.Escaping? then (RaisedWithin, n + 1)
      else if Halts(next.live.value.state.status) then (ContinuedAt(next, more, Halted(next.live.value.state.status)), n + 1)
      else if !report.Success() || NextPending(next.live.value.state) == Some(k) then (ContinuedAt(next, more, RefusalOf(next)), n + 1)
      else ContinueFrom(next, inputs, bound, n + 1, more)
  }

  /** One pass of the loop that advances. */
  lemma OnePass(c: Cell, inputs: nat -> AdvanceInputs, bound: nat, n: nat, attempted: seq<nat>, k: nat)
    requires c.live.Some? && |attempted| < bound && !Halts(c.live.value.state.status) && NextPending(c.live.value.state) == Some(k)
    ensures var (next, report) := (AdvanceCell(c, inputs(n)), ReportOf(c, inputs(n)));
            && next.live.Some? && k < |next.live.value.state.steps|
            && var more := if next.live.value.state.steps[k].status.Pending? then attempted else attempted + [k];
            ContinueFrom(c, inputs, bound, n, attempted) ==
              if report.Escaping? then (RaisedWithin, n + 1)
              else if Halts(next.live.value.state.status) then (ContinuedAt(next, more, Halted(next.live.value.state.status)), n + 1)
              else if !report.Success() || NextPending(next.live.value.state) == Some(k) then (ContinuedAt(next, more, RefusalOf(next)), n + 1)
              else ContinueFrom(next, inputs, bound, n + 1, more)
  {
    hide AdvanceCell, ReportOf, ContinuedAt, RefusalOf;
    AnotherStepIsNext(c, inputs(n), k);
  }

  /** A continuation that stops where it stands. */
  lemma StopsHere(c: Cell, inputs: nat -> AdvanceInputs, bound: nat, n: nat, attempted: seq<nat>)
    requires c.live.Some?
    ensures var st := c.live.value.state;
            && (|attempted| >= bound ==> ContinueFrom(c, inputs, bound, n, attempted) == (ContinuedAt(c, attempted, BoundReached), n))
            && (|attempted| < bound && Halts(st.status) ==>
                  ContinueFrom(c, inputs, bound, n, attempted) == (ContinuedAt(c, attempted, Halted(st.status)), n))
            && (|attempted| < bound && !Halts(st.status) && NextPending(st).None? ==>
                  ContinueFrom(c, inputs, bound, n, attempted) == (ContinuedAt(c, attempted, NoPendingStep), n))
  {
    hide AdvanceCell, ReportOf, ContinuedAt, RefusalOf;
  }
}
