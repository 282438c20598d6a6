/** A ruling or a recovery is acknowledged only once a save has landed. Whatever happens between the
    decision and that save, the store then says so, unless somebody decided again about the same step;
    and a refused decision is undone, unless something newer stands in its place by then. */
module AcknowledgedRulings {
  import opened Options
  import opened Allowances
  import opened Plans
  import opened ExecutionStates
  import opened Snapshots
  import opened AttemptProtocol
  import opened Histories
  import opened ProtocolSafety
  import opened AnyRuns
  import opened DurableHistory
  import opened ProtocolTheorems

  /** What an operator may decide about one step. */
  datatype Decision =
    | Verdict(step: nat, ruling: Resolution, moment: int)
    | Remedy(step: nat, recovery: Recovery)

  function Decide(c: Cell, d: Decision): Option<Cell> {
    match d
    case Verdict(k, ruling, moment) => DoResolve(c, k, ruling, moment)
    case Remedy(k, recovery) => DoRecover(c, k, recovery)
  }

  predicate Says(step: StepState, d: Decision) {
    match d
    case Verdict(_, ruling, _) => step.resolution == ruling
    case Remedy(_, recovery) => step.recovery == Some(recovery)
  }

  predicate Stands(live: Option<Live>, d: Decision) {
    live.Some? && d.step < |live.value.state.steps| && Says(live.value.state.steps[d.step], d)
  }

  predicate RecordedDecision(sn: Option<Snapshot>, d: Decision) {
    sn.Some? && d.step < |sn.value.record.steps| && Says(sn.value.record.steps[d.step], d)
  }

  // -- what leaves a decision alone ----------------------------------------------------

  /** A step of a process that lives on, and that takes back nothing decided about step `k`. */
  predicate Quiet(a: Action, k: nat) {
    !a.Crash? && !a.WithdrawStart?
    && (a.WithdrawRuling? ==> |a.before.steps| == |a.after.steps| && k < |a.before.steps| && a.before.steps[k] == a.after.steps[k])
  }

  /** A step that decides nothing new of the same kind about the same step. */
  predicate Leaves(a: Action, d: Decision) {
    Quiet(a, d.step) && !(if d.Verdict? then a.Resolve? && a.step == d.step else a.Recover? && a.step == d.step)
  }

  /** `b` has the same steps as `a`, with the same ruling and recovery on step `k`. */
  predicate SameMarks(a: ExecutionState, b: ExecutionState, k: nat) {
    && |a.steps| == |b.steps|
    && (k < |a.steps| ==> a.steps[k].resolution == b.steps[k].resolution && a.steps[k].recovery == b.steps[k].recovery)
  }

  predicate LiveMarks(a: Cell, b: Cell, k: nat) {
    a.live.Some? && b.live.Some? && SameMarks(a.live.value.state, b.live.value.state, k)
  }

  lemma OutcomeKeepsMarks(running: ExecutionState, at: nat, result: OperationResult, k: nat)
    requires at < |running.steps| && Outcome(running, at, result).Some?
    ensures SameMarks(running, Outcome(running, at, result).value, k)
  {
  }

  lemma ReturnKeepsMarks(c: Cell, result: OperationResult, elapsed: real, k: nat)
    requires c.live.Some? && DoReturn(c, result, elapsed).Some?
    ensures LiveMarks(c, DoReturn(c, result, elapsed).value, k)
  {
    if Outcome(c.attempt.running, c.attempt.step, result).Some? {
      OutcomeKeepsMarks(c.attempt.running, c.attempt.step, result, k);
    }
  }

  lemma CommitKeepsMarks(c: Cell, expected: ExecutionState, st: ExecutionState, k: nat)
    requires c.live.Some? && SameMarks(expected, st, k)
    ensures LiveMarks(c, Commit(c, expected, st), k)
  {
  }

  lemma AttemptHasMarks(c: Cell, k: nat)
    requires Truthful(c) && c.attempt.InFlight?
    ensures SameMarks(c.attempt.before, c.attempt.running, k)
  {
    hide WellFormed, TrueState, TrueRecord, TrueSaves, RulingsOk, Answered, DispatchedIn;
    assert Begun(c.attempt.before, c.attempt.running, c.attempt.step, c.origin);
  }

  lemma AttemptKeepsMarks(c: Cell, a: Action, k: nat)
    requires Truthful(c) && c.live.Some? && Next(c, a).Some? && (a.CommitAttempt? || a.UndoAttempt?)
    ensures LiveMarks(c, Next(c, a).value, k)
  {
    hide Truthful, Commit;
    AttemptHasMarks(c, k);
    CommitKeepsMarks(c, c.attempt.before, c.attempt.running, k);
    CommitKeepsMarks(c, c.attempt.running, c.attempt.before, k);
  }

  lemma CancelKeepsMarks(c: Cell, detail: string, k: nat)
    requires c.live.Some? && DoCancel(c, detail).Some?
    ensures LiveMarks(c, DoCancel(c, detail).value, k)
  {
  }

  lemma SetAsideKeepsMarks(c: Cell, a: Action, k: nat)
    requires c.live.Some? && (a.HoldStep? || a.RefuseStep? || a.PauseStep?) && DoSetAside(c, a).Some?
    ensures LiveMarks(c, DoSetAside(c, a).value, k)
  {
  }

  /** The steps that change no live state at all. */
  lemma BookkeepingKeepsLive(c: Cell, a: Action)
    requires c.live.Some? && Next(c, a).Some?
    requires a.BeginAttempt? || a.ChargeAttempt? || a.RefundAttempt? || a.Dispatch? || a.BeginSave? || a.EndSave? || a.Rebind?
    ensures Next(c, a).value.live == c.live
  {
  }

  lemma NothingStartsTwice(c: Cell, a: Action)
    requires OnlyStarted(c) && c.live.Some? && a.Start?
    ensures Next(c, a).None?
  {
  }

  lemma WithdrawalElsewhere(c: Cell, before: ExecutionState, after: ExecutionState, k: nat)
    requires c.live.Some? && DoWithdrawRuling(c, before, after).Some? && Quiet(WithdrawRuling(before, after), k)
    ensures LiveMarks(c, DoWithdrawRuling(c, before, after).value, k)
  {
  }

  lemma UndecidedKeepsMarks(c: Cell, a: Action, k: nat)
    requires Truthful(c) && OnlyStarted(c) && c.live.Some? && Next(c, a).Some? && Quiet(a, k) && !a.Resolve? && !a.Recover?
    ensures LiveMarks(c, Next(c, a).value, k)
  {
    hide Truthful, OnlyStarted, DoCommitAttempt, DoUndoAttempt, DoReturn, DoCancel, DoSetAside, DoWithdrawRuling, DoBeginSave, DoEndSave, DoRebind;
    match a
    case CommitAttempt => AttemptKeepsMarks(c, a, k);
    case UndoAttempt => AttemptKeepsMarks(c, a, k);
    case Return(result, elapsed) => ReturnKeepsMarks(c, result, elapsed, k);
    case CancelExecution(detail) => CancelKeepsMarks(c, detail, k);
    case HoldStep(_) => SetAsideKeepsMarks(c, a, k);
    case RefuseStep(_) => SetAsideKeepsMarks(c, a, k);
    case PauseStep(_, _, _) => SetAsideKeepsMarks(c, a, k);
    case WithdrawRuling(before, after) => WithdrawalElsewhere(c, before, after, k);
    case Start(_, _, _, _, _) => NothingStartsTwice(c, a);
    case _ => BookkeepingKeepsLive(c, a);
  }

  lemma ResolveLeaves(c: Cell, j: nat, other: Resolution, moment: int, d: Decision)
    requires Stands(c.live, d) && DoResolve(c, j, other, moment).Some? && Leaves(Resolve(j, other, moment), d)
    ensures Stands(DoResolve(c, j, other, moment).value.live, d)
  {
  }

  lemma RecoverLeaves(c: Cell, j: nat, recovery: Recovery, d: Decision)
    requires Stands(c.live, d) && DoRecover(c, j, recovery).Some? && Leaves(Recover(j, recovery), d)
    ensures Stands(DoRecover(c, j, recovery).value.live, d)
  {
  }

  lemma StepLeaves(c: Cell, a: Action, d: Decision)
    requires Truthful(c) && OnlyStarted(c) && Stands(c.live, d) && Next(c, a).Some? && Leaves(a, d)
    ensures Stands(Next(c, a).value.live, d)
  {
    hide Truthful, OnlyStarted, DoResolve, DoRecover;
    match a
    case Resolve(j, other, moment) => ResolveLeaves(c, j, other, moment, d);
    case Recover(j, recovery) => RecoverLeaves(c, j, recovery, d);
    case _ => UndecidedKeepsMarks(c, a, d.step);
  }

  lemma {:induction false} RunLeaves(c: Cell, run: seq<Action>, d: Decision)
    requires Truthful(c) && OnlyStarted(c) && Stands(c.live, d) && Exec(c, run).Some?
    requires forall i :: 0 <= i < |run| ==> Leaves(run[i], d)
    ensures Stands(Exec(c, run).value.live, d)
    decreases |run|
  {
    hide Truthful, OnlyStarted, Next, Stands;
    if run != [] {
      StepStaysTrue(c, run[0]);
      StepStaysStarted(c, run[0]);
      StepLeaves(c, run[0], d);
      RunLeaves(Next(c, run[0]).value, run[1..], d);
    }
  }

  // -- acknowledged means durable --------------------------------------------------------

  lemma DecidingStands(c: Cell, d: Decision)
    requires Decide(c, d).Some?
    ensures Stands(Decide(c, d).value.live, d)
  {
  }

  /** A decision is one step of the protocol. */
  lemma DecidingIsAStep(c: Cell, d: Decision)
    requires Decide(c, d).Some?
    ensures exists a :: Next(c, a) == Decide(c, d)
  {
    hide DoResolve, DoRecover;
    match d
    case Verdict(k, ruling, moment) => assert Next(c, Resolve(k, ruling, moment)) == Decide(c, d);
    case Remedy(k, recovery) => assert Next(c, Recover(k, recovery)) == Decide(c, d);
  }

  lemma CaptureRecords(c: Cell, d: Decision, owner: SaveOwner, key: nat)
    requires Stands(c.live, d) && DoBeginSave(c, owner, key).Some?
    ensures var n := DoBeginSave(c, owner, key).value; key in n.saves.docs && RecordedDecision(n.saves.docs[key], d)
  {
  }

  lemma LandingStores(c: Cell, key: nat)
    requires key in c.saves.docs
    ensures DoEndSave(c, key, true).Some? && DoEndSave(c, key, true).value.stored == c.saves.docs[key]
  {
  }

  /** Acknowledged means durable, after any run at all: a ruling or recovery is made, anything but another such decision on that
      step happens, a save captures, anything but a crash happens, and that save lands, in whatever order
      other saves do. Then the store holds the decision. */
  lemma LandedSaveHoldsTheDecision(c: Cell, d: Decision, decided: Cell, between: seq<Action>, before: Cell,
                                   owner: SaveOwner, key: nat, capturing: Cell, meanwhile: seq<Action>, saving: Cell)
    requires Attainable(c) && Decide(c, d) == Some(decided)
    requires Exec(decided, between) == Some(before) && forall i :: 0 <= i < |between| ==> Leaves(between[i], d)
    requires DoBeginSave(before, owner, key) == Some(capturing)
    requires Exec(capturing, meanwhile) == Some(saving)
    requires forall i :: 0 <= i < |meanwhile| ==> !meanwhile[i].Crash? && !(meanwhile[i].EndSave? && meanwhile[i].key == key)
    ensures DoEndSave(saving, key, true).Some? && RecordedDecision(DoEndSave(saving, key, true).value.stored, d)
  {
    hide Truthful, OnlyStarted, Exec, Next, Decide, DoBeginSave, DoEndSave, Attainable, Stands, RecordedDecision, Leaves;
    AttainableIsTrue(c);
    AttainableIsOpen(c);
    DecidingIsAStep(c, d);
    var a :| Next(c, a) == Decide(c, d);
    StepStaysTrue(c, a);
    StepStaysStarted(c, a);
    DecidingStands(c, d);
    RunLeaves(decided, between, d);
    CaptureRecords(before, d, owner, key);
    CaptureStands(capturing, meanwhile, key);
    LandingStores(saving, key);
  }

  // -- refused means undone or outlived ---------------------------------------------------

  function StateOf(c: Cell): Option<ExecutionState> {
    if c.live.Some? then Some(c.live.value.state) else None
  }

  /** Some step of the run made `st` the live state. */
  ghost predicate CommittedIn(c: Cell, run: seq<Action>, st: ExecutionState) {
    exists i :: 0 <= i < |run| && Makes(c, run, i, st)
  }

  predicate Makes(c: Cell, run: seq<Action>, i: nat, st: ExecutionState)
    requires i < |run|
  {
    && Exec(c, run[..i]).Some? && Exec(c, run[..i + 1]).Some?
    && StateOf(Exec(c, run[..i]).value) != Some(st) && StateOf(Exec(c, run[..i + 1]).value) == Some(st)
  }

  lemma {:induction false} SomebodyCommitted(c: Cell, run: seq<Action>, st: ExecutionState)
    requires Exec(c, run).Some? && StateOf(c) != Some(st) && StateOf(Exec(c, run).value) == Some(st)
    ensures CommittedIn(c, run, st)
    decreases |run|
  {
    hide Next;
    assert run != [];
    var n := Next(c, run[0]).value;
    if StateOf(n) == Some(st) {
      assert run[..0] == [] && run[..1][1..] == [] && run[..1][0] == run[0];
      assert Exec(n, []) == Some(n) && Exec(c, []) == Some(c);
      assert Exec(c, run[..1]) == Exec(n, run[..1][1..]);
      assert Makes(c, run, 0, st);
    } else {
      var rest := run[1..];
      SomebodyCommitted(n, rest, st);
      var i :| 0 <= i < |rest| && Makes(n, rest, i, st);
      assert run[..i + 1][1..] == rest[..i] && run[..i + 2][1..] == rest[..i + 1];
      assert Exec(c, run[..i + 1]) == Exec(n, rest[..i]) && Exec(c, run[..i + 2]) == Exec(n, rest[..i + 1]);
      assert Makes(c, run, i + 1, st);
    }
  }

  /** The steps that may move the money of an execution of a process that lives on. */
  predicate Pays(a: Action) {
    a.Start? || a.WithdrawStart? || a.ChargeAttempt? || a.RefundAttempt? || a.Return? || a.Rebind?
  }

  lemma StepKeepsRulings(c: Cell, a: Action)
    requires Next(c, a).Some? && !a.Crash?
    ensures c.rulings <= Next(c, a).value.rulings && (Pays(a) || Next(c, a).value.allowance == c.allowance)
  {
    hide Outcome, StartStep, BlockStep, RefuseAdvance, RequireAuthority, Rebound, ReboundState, Cancel, ResolveInterrupted, RecoverBlocked,
         Advanceable, StartedLive, Held, Permitted;
  }

  lemma {:induction false} RunKeepsRulings(c: Cell, run: seq<Action>)
    requires Exec(c, run).Some? && forall i :: 0 <= i < |run| ==> !run[i].Crash?
    ensures c.rulings <= Exec(c, run).value.rulings
    ensures (forall i :: 0 <= i < |run| ==> !Pays(run[i])) ==> Exec(c, run).value.allowance == c.allowance
    decreases |run|
  {
    hide Next;
    if run != [] {
      StepKeepsRulings(c, run[0]);
      RunKeepsRulings(Next(c, run[0]).value, run[1..]);
    }
  }

  lemma DecisionMayBeTakenBack(c: Cell, d: Decision)
    requires Decide(c, d).Some?
    ensures var n := Decide(c, d).value;
            c.live.Some? && n.live.Some? && (c.live.value.state, n.live.value.state) in n.rulings && n.allowance == c.allowance
  {
  }

  lemma TakingBack(c: Cell, before: ExecutionState, after: ExecutionState)
    requires (before, after) in c.rulings
    ensures var n := DoWithdrawRuling(c, before, after);
            && n.Some? && n.value.allowance == c.allowance && n.value.stored == c.stored && n.value.log == c.log
            && StateOf(n.value) == if StateOf(c) == Some(after) then Some(before) else StateOf(c)
  {
  }

  /** Refused means undone or outlived: a ruling or recovery is made, anything but a crash happens, its own
      save among it, and the decision is taken back. Then the live state is the one from before the decision,
      or one that somebody committed in between; and neither the decision nor taking it back moved the
      allowance, the store or the history. */
  lemma RefusedDecisionIsUndoneOrOutlived(c: Cell, d: Decision, decided: Cell, run: seq<Action>, now: Cell)
    requires Decide(c, d) == Some(decided)
    requires Exec(decided, run) == Some(now) && forall i :: 0 <= i < |run| ==> !run[i].Crash?
    ensures c.live.Some? && decided.live.Some?
    ensures var back := DoWithdrawRuling(now, c.live.value.state, decided.live.value.state);
            && back.Some? && back.value.stored == now.stored && back.value.log == now.log
            && (back.value.live.Some? ==>
                  back.value.live.value.state == c.live.value.state || CommittedIn(decided, run, back.value.live.value.state))
            && back.value.allowance == now.allowance && decided.allowance == c.allowance
            && ((forall i :: 0 <= i < |run| ==> !Pays(run[i])) ==> back.value.allowance == c.allowance)
  {
    DecisionMayBeTakenBack(c, d);
    hide Exec, Decide, DoWithdrawRuling, CommittedIn;
    RunKeepsRulings(decided, run);
    var before, after := c.live.value.state, decided.live.value.state;
    TakingBack(now, before, after);
    var back := DoWithdrawRuling(now, before, after).value;
    if back.live.Some? && back.live.value.state != before {
      assert StateOf(now) == StateOf(back) && StateOf(now) != Some(after);
      SomebodyCommitted(decided, run, back.live.value.state);
    }
  }
}
