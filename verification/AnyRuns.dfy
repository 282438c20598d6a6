/** What every step keeps whatever documents land and in whatever order, stale ones included: no completion
    is invented, in memory, in the store or in a document on its way there, and what is open stays open. */
module AnyRuns {
  import opened Options
  import opened Allowances
  import opened Plans
  import opened ExecutionStates
  import opened Snapshots
  import opened AttemptProtocol
  import opened Histories
  import opened ProtocolSafety

  /** Any run at all leads here, whatever documents landed and in whatever order. */
  ghost predicate Attainable(c: Cell) {
    exists o: PlanContent, run: seq<Action> :: Exec(Fresh(o), run) == Some(c)
  }

  // -- open and started --------------------------------------------------------------

  /** Attempts and rulings are about executions that were open. */
  predicate OpenOnly(c: Cell) {
    && (c.attempt.InFlight? ==> c.attempt.before.status.Running? && c.attempt.running.status.Running?)
    && forall r :: r in c.rulings ==> !r.0.status.Terminal() && !r.1.status.Terminal()
  }

  lemma RulingsAreOpen(c: Cell, a: Action)
    requires OpenOnly(c) && Next(c, a).Some? && (a.Resolve? || a.Recover?)
    ensures OpenOnly(Next(c, a).value)
  {
  }

  lemma StepStaysOpen(c: Cell, a: Action)
    requires OpenOnly(c) && Next(c, a).Some?
    ensures OpenOnly(Next(c, a).value)
  {
    if a.Resolve? || a.Recover? {
      RulingsAreOpen(c, a);
    } else {
      hide DoResolve, DoRecover, Outcome, BlockStep, RefuseAdvance, RequireAuthority, Rebound, ReboundState, Cancel, StartedLive, Held,
           Permitted, Current, Landed, Ended;
    }
  }

  /** Only what was started is live, restored, stored or being saved; and what is live is not restored. */
  predicate OnlyStarted(c: Cell) {
    && (c.live.Some? || c.restored.Some? || Held(c) ==> c.started)
    && !(c.live.Some? && c.restored.Some?)
  }

  lemma StepStaysStarted(c: Cell, a: Action)
    requires OnlyStarted(c) && Next(c, a).Some?
    ensures OnlyStarted(Next(c, a).value)
  {
    hide Outcome, StartStep, BlockStep, RefuseAdvance, RequireAuthority, Rebound, ReboundState, Cancel, ResolveInterrupted, RecoverBlocked,
         StartedLive, Permitted;
  }

  lemma {:induction false} RunStaysOpen(c: Cell, run: seq<Action>)
    requires OpenOnly(c) && OnlyStarted(c) && Exec(c, run).Some?
    ensures OpenOnly(Exec(c, run).value) && OnlyStarted(Exec(c, run).value)
    decreases |run|
  {
    hide Next, OpenOnly, OnlyStarted;
    if run != [] {
      StepStaysOpen(c, run[0]);
      StepStaysStarted(c, run[0]);
      RunStaysOpen(Next(c, run[0]).value, run[1..]);
    }
  }

  lemma AttainableIsOpen(c: Cell)
    requires Attainable(c)
    ensures OpenOnly(c) && OnlyStarted(c)
  {
    var o: PlanContent, run: seq<Action> :| Exec(Fresh(o), run) == Some(c);
    RunStaysOpen(Fresh(o), run);
  }

  // -- what is told is true ------------------------------------------------------------

  predicate DispatchedIn(log: seq<Event>, k: nat) { exists d :: 0 <= d < |log| && log[d] == Dispatched(k) }

  /** Whatever came back had been sent. */
  predicate Answered(log: seq<Event>) {
    forall i :: 0 <= i < |log| && log[i].Returned? ==> DispatchedIn(log[..i], log[i].step)
  }

  predicate TrueState(st: ExecutionState, o: PlanContent, log: seq<Event>) {
    && Shaped(st, o) && WellFormed(st)
    && forall j :: 0 <= j < |st.steps| && st.steps[j].status.Completed? ==> Proven(log, j)
  }

  predicate TrueRecord(sn: Option<Snapshot>, o: PlanContent, log: seq<Event>) {
    sn.Some? ==> TrueState(sn.value.record, o, log)
  }

  predicate TrueAttempt(attempt: Attempt, o: PlanContent, log: seq<Event>) {
    attempt.InFlight? ==>
      && Begun(attempt.before, attempt.running, attempt.step, o)
      && TrueState(attempt.before, o, log) && TrueState(attempt.running, o, log)
      && (attempt.phase.Performing? ==> DispatchedIn(log, attempt.step))
  }

  predicate TrueSaves(docs: map<nat, Option<Snapshot>>, o: PlanContent, log: seq<Event>) {
    forall key :: key in docs ==> TrueRecord(docs[key], o, log)
  }

  /** Everything that says a step is completed, live, restored, stored, on its way to the store or read by an
      attempt, can show for it. */
  predicate Truthful(c: Cell) {
    && (c.live.Some? ==> TrueState(c.live.value.state, c.origin, c.log))
    && TrueRecord(c.restored, c.origin, c.log) && TrueRecord(c.stored, c.origin, c.log)
    && TrueSaves(c.saves.docs, c.origin, c.log)
    && TrueAttempt(c.attempt, c.origin, c.log)
    && RulingsOk(c.rulings, c.origin)
    && Answered(c.log)
  }

  lemma FreshIsTruthful(o: PlanContent)
    ensures Truthful(Fresh(o))
  {
  }

  lemma StateOutlives(st: ExecutionState, o: PlanContent, log: seq<Event>, e: Event)
    requires TrueState(st, o, log)
    ensures TrueState(st, o, log + [e])
  {
    hide Shaped, WellFormed, Proven;
    Appending(log, e, o);
  }

  lemma RecordOutlives(sn: Option<Snapshot>, o: PlanContent, log: seq<Event>, e: Event)
    requires TrueRecord(sn, o, log)
    ensures TrueRecord(sn, o, log + [e])
  {
    hide TrueState;
    if sn.Some? {
      StateOutlives(sn.value.record, o, log, e);
    }
  }

  lemma StillDispatched(log: seq<Event>, e: Event, k: nat)
    requires DispatchedIn(log, k) || e == Dispatched(k)
    ensures DispatchedIn(log + [e], k)
  {
    if DispatchedIn(log, k) {
      var d :| 0 <= d < |log| && log[d] == Dispatched(k);
      assert (log + [e])[d] == Dispatched(k);
    } else {
      assert (log + [e])[|log|] == Dispatched(k);
    }
  }

  lemma StaysAnswered(log: seq<Event>, e: Event)
    requires Answered(log) && (e.Returned? ==> DispatchedIn(log, e.step))
    ensures Answered(log + [e])
  {
    var after := log + [e];
    forall i | 0 <= i < |after| && after[i].Returned? ensures DispatchedIn(after[..i], after[i].step) {
      if i < |log| {
        assert after[..i] == log[..i];
      } else {
        assert after[..i] == log;
      }
    }
  }

  /** Whatever more happens, what was told stays true. */
  lemma HistoryStaysTrue(c: Cell, e: Event)
    requires Truthful(c) && (e.Returned? ==> DispatchedIn(c.log, e.step))
    ensures Truthful(c.(log := c.log + [e]))
  {
    hide TrueState, TrueRecord, RulingsOk, Begun, DispatchedIn, Answered;
    var n := c.(log := c.log + [e]);
    StaysAnswered(c.log, e);
    RecordOutlives(c.restored, c.origin, c.log, e);
    RecordOutlives(c.stored, c.origin, c.log, e);
    forall key | key in c.saves.docs ensures TrueRecord(c.saves.docs[key], c.origin, n.log) {
      RecordOutlives(c.saves.docs[key], c.origin, c.log, e);
    }
    if c.live.Some? {
      StateOutlives(c.live.value.state, c.origin, c.log, e);
    }
    if c.attempt.InFlight? {
      StateOutlives(c.attempt.before, c.origin, c.log, e);
      StateOutlives(c.attempt.running, c.origin, c.log, e);
      if c.attempt.phase.Performing? {
        StillDispatched(c.log, e, c.attempt.step);
      }
    }
  }

  lemma StateStaysTrue(c: Cell, st: ExecutionState)
    requires Truthful(c) && c.live.Some? && TrueState(st, c.origin, c.log)
    ensures Truthful(WithState(c, st))
  {
    hide TrueState, TrueRecord, TrueSaves, TrueAttempt, RulingsOk, Answered;
  }

  lemma CommitStaysTrue(c: Cell, expected: ExecutionState, st: ExecutionState)
    requires Truthful(c) && TrueState(st, c.origin, c.log)
    ensures Truthful(Commit(c, expected, st))
  {
    hide Truthful, TrueState, WithState;
    if c.live.Some? && c.live.value.state == expected {
      StateStaysTrue(c, st);
    }
  }

  /** A transition that changes one step and completes none tells nothing new. */
  lemma OneStepTold(before: ExecutionState, after: ExecutionState, k: nat, o: PlanContent, log: seq<Event>)
    requires TrueState(before, o, log) && WellFormed(after) && OnlyStep(before, after, k)
    requires after.steps[k].status.Completed? ==> before.steps[k].status.Completed? || Proven(log, k)
    ensures TrueState(after, o, log)
  {
    hide WellFormed, Proven;
  }

  lemma StartIsTrue(c: Cell, a: Action)
    requires Truthful(c) && a.Start? && DoStart(c, a).Some?
    ensures Truthful(DoStart(c, a).value)
  {
    hide TrueRecord, TrueSaves, TrueAttempt, RulingsOk, Answered;
  }

  lemma WithdrawStartIsTrue(c: Cell)
    requires Truthful(c) && DoWithdrawStart(c).Some?
    ensures Truthful(DoWithdrawStart(c).value)
  {
    hide TrueState, TrueRecord, TrueSaves, TrueAttempt, RulingsOk, Answered, Held;
  }

  lemma CancelIsTrue(c: Cell, detail: string)
    requires Truthful(c) && DoCancel(c, detail).Some?
    ensures Truthful(DoCancel(c, detail).value)
  {
    var st := c.live.value.state;
    CancelKeepsWellFormed(st, detail);
    CancelledTold(st, Cancel(st, detail).value, c.origin, c.log);
    StateStaysTrue(c, Cancel(st, detail).value);
  }

  lemma CancelledTold(before: ExecutionState, after: ExecutionState, o: PlanContent, log: seq<Event>)
    requires TrueState(before, o, log) && WellFormed(after) && |after.steps| == |before.steps|
    requires forall j :: 0 <= j < |before.steps| ==>
               after.steps[j].id == before.steps[j].id && (after.steps[j].status.Completed? ==> before.steps[j].status.Completed?)
    ensures TrueState(after, o, log)
  {
    hide WellFormed, Proven;
  }

  lemma RulingIsTrue(c: Cell, before: ExecutionState, after: ExecutionState)
    requires Truthful(c) && Revocable(before, after, c.origin)
    ensures Truthful(c.(rulings := c.rulings + {(before, after)}))
  {
    hide TrueState, TrueRecord, TrueSaves, TrueAttempt, Answered, Revocable;
  }

  lemma ResolveIsTrue(c: Cell, k: nat, ruling: Resolution, moment: int)
    requires Truthful(c) && DoResolve(c, k, ruling, moment).Some?
    ensures Truthful(DoResolve(c, k, ruling, moment).value)
  {
    var before := c.live.value.state;
    var after := ResolveInterrupted(before, k, ruling, moment).value;
    assert before.status.Interrupted? && before.steps[k].status.Interrupted?;
    RulingsKeepWellFormed(before, k, ruling, moment);
    var grown := c.(log := c.log + [Ruled(k, ruling)]);
    HistoryStaysTrue(c, Ruled(k, ruling));
    hide Truthful, ResolveInterrupted;
    DecidedIsTrue(grown, before, after, k);
  }

  /** A ruling or recovery on an interrupted or blocked step. */
  lemma DecidedIsTrue(c: Cell, before: ExecutionState, after: ExecutionState, k: nat)
    requires Truthful(c) && c.live.Some? && c.live.value.state == before && WellFormed(after) && OnlyStep(before, after, k)
    requires before.status.Interrupted? || before.status.Blocked?
    requires before.steps[k].status.Interrupted? || before.steps[k].status.Blocked?
    requires !after.status.Terminal() && !after.steps[k].status.Completed? && RunningStep(after).None?
    ensures Truthful(WithState(c, after).(rulings := c.rulings + {(before, after)}))
  {
    hide TrueRecord, TrueSaves, TrueAttempt, Answered, WellFormed, Proven, RulingsOk;
    OneStepTold(before, after, k, c.origin, c.log);
    StateStaysTrue(c, after);
    assert Revocable(before, after, c.origin);
    RulingIsTrue(WithState(c, after), before, after);
  }

  lemma RecoverIsTrue(c: Cell, k: nat, recovery: Recovery)
    requires Truthful(c) && DoRecover(c, k, recovery).Some?
    ensures Truthful(DoRecover(c, k, recovery).value)
  {
    var before := c.live.value.state;
    var after := RecoverBlocked(before, k, recovery).value;
    assert before.status.Blocked? && before.steps[k].status.Blocked?;
    RecoveriesKeepWellFormed(before, k, recovery);
    hide Truthful, RecoverBlocked;
    DecidedIsTrue(c, before, after, k);
  }

  lemma WithdrawRulingIsTrue(c: Cell, before: ExecutionState, after: ExecutionState)
    requires Truthful(c) && (before, after) in c.rulings
    ensures Truthful(DoWithdrawRuling(c, before, after).value)
  {
    assert Revocable((before, after).0, (before, after).1, c.origin);
    if c.live.Some? && c.live.value.state == after {
      RevokedTold(before, after, c.origin, c.log);
      StateStaysTrue(c, before);
    }
  }

  lemma RevokedTold(before: ExecutionState, after: ExecutionState, o: PlanContent, log: seq<Event>)
    requires Revocable(before, after, o) && TrueState(after, o, log)
    ensures TrueState(before, o, log)
  {
    hide Proven, WellFormed;
  }

  lemma SetAsideIsTrue(c: Cell, a: Action)
    requires Truthful(c) && (a.HoldStep? || a.RefuseStep? || a.PauseStep?) && DoSetAside(c, a).Some?
    ensures Truthful(DoSetAside(c, a).value)
  {
    var k := Advanceable(c).value;
    var st := c.live.value.state;
    if a.HoldStep? {
      BlockingKeepsWellFormed(st, k, a.detail);
      OneStepTold(st, BlockStep(st, k, a.detail).value, k, c.origin, c.log);
      StateStaysTrue(c, BlockStep(st, k, a.detail).value);
    } else if a.RefuseStep? {
      StateStaysTrue(c, RefuseAdvance(st, k, a.detail).value);
    } else {
      StateStaysTrue(c, RequireAuthority(st, k, a.digest, a.authorityRun, a.detail).value);
    }
  }

  lemma BeginAttemptIsTrue(c: Cell, operation: string)
    requires Truthful(c) && DoBeginAttempt(c, operation).Some?
    ensures Truthful(DoBeginAttempt(c, operation).value)
  {
    hide TrueRecord, TrueSaves, RulingsOk, Answered, Proven;
    var k := Advanceable(c).value;
    var st := c.live.value.state;
    StartingKeepsWellFormed(st, k, operation);
    OneStepTold(st, StartStep(st, k, operation).value, k, c.origin, c.log);
  }

  /** The steps of an attempt that put one of its two states in the place of the other, or none. */
  lemma AttemptIsTrue(c: Cell, a: Action)
    requires Truthful(c) && Next(c, a).Some? && (a.ChargeAttempt? || a.CommitAttempt? || a.UndoAttempt? || a.RefundAttempt?)
    ensures Truthful(Next(c, a).value)
  {
    hide TrueState, TrueRecord, RulingsOk, Answered, Begun, DispatchedIn, StepCost, ChargedIfAny;
  }

  lemma DispatchIsTrue(c: Cell)
    requires Truthful(c) && DoDispatch(c).Some?
    ensures Truthful(DoDispatch(c).value)
  {
    hide TrueState, TrueRecord, RulingsOk, Answered, Begun, DispatchedIn, TrueSaves;
    HistoryStaysTrue(c, Dispatched(c.attempt.step));
    StillDispatched(c.log, Dispatched(c.attempt.step), c.attempt.step);
  }

  lemma OutcomeTold(running: ExecutionState, k: nat, result: OperationResult, o: PlanContent, log: seq<Event>)
    requires TrueState(running, o, log) && k < |running.steps| && Outcome(running, k, result).Some?
    ensures TrueState(Outcome(running, k, result).value, o, log + [Returned(k, result)])
  {
    Appending(log, Returned(k, result), o);
    StateOutlives(running, o, log, Returned(k, result));
    var op := running.steps[k].operation;
    if result.PerformedNothing? {
      BlockingKeepsWellFormed(running, k, result.detail);
    } else if result.PerformedSucceeded? {
      CompletingKeepsWellFormed(running, k, result.detail, op);
    } else if result.PerformedFailed? {
      FailingKeepsWellFormed(running, k, result.detail, true, op);
    } else {
      FailingKeepsWellFormed(running, k, result.detail, false, "");
    }
    hide TrueState, WellFormed, Proven;
    OneStepTold(running, Outcome(running, k, result).value, k, o, log + [Returned(k, result)]);
  }

  lemma ReturnIsTrue(c: Cell, result: OperationResult, elapsed: real)
    requires Truthful(c) && DoReturn(c, result, elapsed).Some?
    ensures Truthful(DoReturn(c, result, elapsed).value)
  {
    var k, running := c.attempt.step, c.attempt.running;
    var idle := WhenOver(c, result, elapsed);
    HistoryStaysTrue(c, Returned(k, result));
    assert Truthful(idle) by {
      hide TrueState, TrueRecord, RulingsOk, Answered, TrueSaves;
    }
    ReturnIsCommitWhenIdle(c, result, elapsed, idle);
    hide DoReturn;
    if Outcome(running, k, result).Some? {
      OutcomeTold(running, k, result, c.origin, c.log);
      CommitStaysTrue(idle, running, Outcome(running, k, result).value);
    }
  }

  lemma CaptureIsTrue(c: Cell, owner: SaveOwner, key: nat)
    requires Truthful(c) && DoBeginSave(c, owner, key).Some?
    ensures Truthful(DoBeginSave(c, owner, key).value)
  {
    if c.live.Some? {
      CapturedIsTrue(c.live.value, c.allowance, c.origin, c.log);
    }
    assert TrueRecord(Current(c), c.origin, c.log);
    hide TrueState, TrueRecord, RulingsOk, Answered, Begun, DispatchedIn, Current;
  }

  lemma CapturedIsTrue(l: Live, allowance: Option<Allowance>, o: PlanContent, log: seq<Event>)
    requires TrueState(l.state, o, log)
    ensures TrueRecord(Some(Capture(l, allowance)), o, log)
  {
    CapturingKeepsWellFormed(l.state);
    hide WellFormed, Proven;
  }

  lemma EndIsTrue(c: Cell, key: nat, lands: bool)
    requires Truthful(c) && DoEndSave(c, key, lands).Some?
    ensures Truthful(DoEndSave(c, key, lands).value)
  {
    hide TrueState, TrueRecord, RulingsOk, Answered, Begun, DispatchedIn;
  }

  lemma CrashIsTrue(c: Cell)
    requires Truthful(c)
    ensures Truthful(DoCrash(c))
  {
    if c.stored.Some? {
      RestoringKeepsWellFormed(c.stored.value);
      RestoredTold(c.stored.value, c.origin, c.log);
    }
    hide TrueState, Answered, Restored;
  }

  lemma RestoredTold(sn: Snapshot, o: PlanContent, log: seq<Event>)
    requires TrueState(sn.record, o, log)
    ensures TrueState(Restored(sn).record, o, log)
  {
    RestoringKeepsWellFormed(sn);
    hide WellFormed, Proven;
  }

  /** What a rebind brings back tells nothing new but one completion found on record. */
  lemma ReboundTold(sn: Snapshot, o: PlanContent, log: seq<Event>, ctx: RebindContext)
    requires TrueState(sn.record, o, log) && sn.record.status.Resumable()
    requires Reconciled(ReboundState(sn), sn, ctx).Some?
    ensures var back := Reconciled(ReboundState(sn), sn, ctx).value;
            if back == ReboundState(sn) then TrueState(back, o, log)
            else InterruptedStep(sn.record).Some? && TrueState(back, o, log + [FoundOnRecord(InterruptedStep(sn.record).value)])
  {
    var start := ReboundState(sn);
    RebindingKeepsWellFormed(sn);
    ReconcilingCompletesAtMostOneStep(start, sn, ctx, 0);
    var back := Reconciled(start, sn, ctx).value;
    assert TrueState(start, o, log);
    if back != start {
      var k :| 0 <= k < |start.steps| && Provable(sn, k, ctx) && Some(back) == CompleteFromRecord(
                 start, k, ctx.recordedResults[sn.record.steps[k].id], ctx.revalidationOperation);
      RecordedCompletionKeepsWellFormed(start, k, ctx.recordedResults[sn.record.steps[k].id], ctx.revalidationOperation);
      OnlyInterrupted(sn.record, k);
      FoundTold(start, back, k, o, log);
    }
  }

  lemma FoundTold(before: ExecutionState, after: ExecutionState, k: nat, o: PlanContent, log: seq<Event>)
    requires TrueState(before, o, log) && WellFormed(after) && OnlyStep(before, after, k)
    ensures TrueState(after, o, log + [FoundOnRecord(k)])
  {
    Appending(log, FoundOnRecord(k), o);
    hide WellFormed, Proven;
    StateOutlives(before, o, log, FoundOnRecord(k));
    OneStepTold(before, after, k, o, log + [FoundOnRecord(k)]);
  }

  lemma RebindIsTrue(c: Cell, plan: Plan, runId: string, ctx: RebindContext)
    requires Truthful(c) && DoRebind(c, plan, runId, ctx).Some?
    ensures Truthful(DoRebind(c, plan, runId, ctx).value)
  {
    var sn := c.restored.value;
    ReboundTold(sn, c.origin, c.log, ctx);
    var n := DoRebind(c, plan, runId, ctx).value;
    if n.live.value.state != ReboundState(sn) {
      HistoryStaysTrue(c, FoundOnRecord(InterruptedStep(sn.record).value));
    }
    hide TrueState, RulingsOk, Answered, TrueSaves, TrueAttempt, Reconciled, ReboundState;
  }

  /** Every step, the landing of a stale document included. */
  lemma StepStaysTrue(c: Cell, a: Action)
    requires Truthful(c) && Next(c, a).Some?
    ensures Truthful(Next(c, a).value)
  {
    hide Truthful, DoStart, DoRebind, DoWithdrawStart, DoCancel, DoResolve, DoRecover, DoSetAside, DoBeginAttempt, DoChargeAttempt,
         DoCommitAttempt, DoUndoAttempt, DoRefundAttempt, DoDispatch, DoReturn, DoBeginSave, DoEndSave, DoCrash;
    match a
    case Start(_, _, _, _, _) => StartIsTrue(c, a);
    case WithdrawStart => WithdrawStartIsTrue(c);
    case CancelExecution(detail) => CancelIsTrue(c, detail);
    case Resolve(k, ruling, moment) => ResolveIsTrue(c, k, ruling, moment);
    case Recover(k, recovery) => RecoverIsTrue(c, k, recovery);
    case WithdrawRuling(before, after) => WithdrawalNeedsARuling(c, a); WithdrawRulingIsTrue(c, before, after);
    case HoldStep(_) => SetAsideIsTrue(c, a);
    case RefuseStep(_) => SetAsideIsTrue(c, a);
    case PauseStep(_, _, _) => SetAsideIsTrue(c, a);
    case BeginAttempt(operation) => BeginAttemptIsTrue(c, operation);
    case ChargeAttempt => AttemptIsTrue(c, a);
    case CommitAttempt => AttemptIsTrue(c, a);
    case UndoAttempt => AttemptIsTrue(c, a);
    case RefundAttempt => AttemptIsTrue(c, a);
    case Dispatch => DispatchIsTrue(c);
    case Return(result, elapsed) => ReturnIsTrue(c, result, elapsed);
    case BeginSave(owner, key) => CaptureIsTrue(c, owner, key);
    case EndSave(key, lands) => EndIsTrue(c, key, lands);
    case Crash => CrashIsTrue(c);
    case Rebind(plan, runId, ctx) => RebindIsTrue(c, plan, runId, ctx);
  }

  lemma WithdrawalNeedsARuling(c: Cell, a: Action)
    requires a.WithdrawRuling? && Next(c, a).Some?
    ensures (a.before, a.after) in c.rulings
  {
  }

  lemma {:induction false} RunStaysTrue(c: Cell, run: seq<Action>)
    requires Truthful(c) && Exec(c, run).Some?
    ensures Truthful(Exec(c, run).value)
    decreases |run|
  {
    hide Next, Truthful;
    if run != [] {
      StepStaysTrue(c, run[0]);
      RunStaysTrue(Next(c, run[0]).value, run[1..]);
    }
  }

  lemma AttainableIsTrue(c: Cell)
    requires Attainable(c)
    ensures Truthful(c)
  {
    var o: PlanContent, run: seq<Action> :| Exec(Fresh(o), run) == Some(c);
    RunStaysTrue(Fresh(o), run);
  }
}
