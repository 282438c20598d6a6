/** What the attempt protocol relies on its callers for. Saves may overlap; what the store keeps counting
    is known as long as no stale document lands. The code does not see to that, so here is exactly what a
    document that lands late does: when it repeats a dispatch, that a stale one always can, and when taking
    a mission start back drops what a save had recorded. */
module Overlaps {
  import opened Options
  import opened Allowances
  import opened Plans
  import opened ExecutionStates
  import opened Snapshots
  import opened AttemptProtocol
  import opened Histories
  import opened ProtocolSafety
  import opened DurableHistory
  import opened ProtocolTheorems

  /** One undisturbed advance, up to the moment its operation is with the provider. */
  function ToDispatch(operation: string, key: nat): seq<Action> {
    [BeginAttempt(operation), ChargeAttempt, CommitAttempt, BeginSave(ForAttempt, key), EndSave(key, true), Dispatch]
  }

  // -- dispatching twice ---------------------------------------------------------------

  lemma {:induction false} Unanswered(log: seq<Event>, k: nat)
    requires Outstanding(log, k)
    ensures !AtMostOnce(log + [Dispatched(k)])
  {
    var i := LastDispatch(log, k);
    var after := log + [Dispatched(k)];
    assert after[i] == Dispatched(k) && after[|log|] == after[i];
    assert forall m :: i < m < |log| ==> after[m] == log[m];
  }

  lemma {:induction false} LastDispatch(log: seq<Event>, k: nat) returns (i: nat)
    requires Outstanding(log, k)
    ensures i < |log| && log[i] == Dispatched(k) && forall m :: i < m < |log| ==> log[m] != Ruled(k, NotPerformed)
  {
    if log[|log| - 1] == Dispatched(k) {
      i := |log| - 1;
    } else {
      i := LastDispatch(log[..|log| - 1], k);
    }
  }

  /** The attempt under way and the history, which the steps between its beginning and its dispatch keep. */
  predicate SameAttempt(a: Cell, b: Cell) {
    a.attempt.InFlight? && b.attempt.InFlight? && a.attempt.step == b.attempt.step && a.log == b.log
  }

  lemma OneStep(c: Cell, run: seq<Action>)
    requires run != [] && Exec(c, run).Some?
    ensures Next(c, run[0]).Some? && Exec(Next(c, run[0]).value, run[1..]) == Exec(c, run)
  {
  }

  /** An advance that reaches its dispatch dispatches the step that was next. */
  lemma DispatchesTheNext(c: Cell, operation: string, key: nat)
    requires Exec(c, ToDispatch(operation, key)).Some?
    ensures Advanceable(c).Some? && c.live.Some? && NextPending(c.live.value.state) == Advanceable(c)
    ensures Exec(c, ToDispatch(operation, key)).value.log == c.log + [Dispatched(Advanceable(c).value)]
  {
    hide Exec, StartStep, Permitted, Commit;
    var run := ToDispatch(operation, key);
    OneStep(c, run);
    var c1 := DoBeginAttempt(c, operation).value;
    OneStep(c1, run[1..]);
    var c2 := DoChargeAttempt(c1).value;
    OneStep(c2, run[1..][1..]);
    var c3 := DoCommitAttempt(c2).value;
    var rest := run[1..][1..][1..];
    assert rest == [BeginSave(ForAttempt, key), EndSave(key, true), Dispatch];
    CommitKeepsAttempt(c2);
    LastThree(c3, key);
  }

  lemma CommitKeepsAttempt(c: Cell)
    requires DoCommitAttempt(c).Some?
    ensures SameAttempt(c, DoCommitAttempt(c).value)
  {
  }

  lemma LastThree(c: Cell, key: nat)
    requires c.attempt.InFlight? && Exec(c, [BeginSave(ForAttempt, key), EndSave(key, true), Dispatch]).Some?
    ensures Exec(c, [BeginSave(ForAttempt, key), EndSave(key, true), Dispatch]).value.log == c.log + [Dispatched(c.attempt.step)]
  {
    hide Exec, Current, Landed;
    var run := [BeginSave(ForAttempt, key), EndSave(key, true), Dispatch];
    OneStep(c, run);
    var c1 := DoBeginSave(c, ForAttempt, key).value;
    OneStep(c1, run[1..]);
    var c2 := DoEndSave(c1, key, true).value;
    assert SameAttempt(c, c1) && SameAttempt(c1, c2);
    OneStep(c2, run[1..][1..]);
    assert run[1..][1..] == [Dispatch] && [Dispatch][1..] == [];
    Nothing(DoDispatch(c2).value);
  }

  lemma Nothing(c: Cell)
    ensures Exec(c, []) == Some(c)
  {
  }

  lemma RestartKeepsAnswers(landed: Cell, plan: Plan, runId: string, ctx: RebindContext, k: nat)
    requires DoRebind(DoCrash(landed), plan, runId, ctx).Some?
    ensures var back := DoRebind(DoCrash(landed), plan, runId, ctx).value;
            (Outstanding(back.log, k) <==> Outstanding(landed.log, k)) && (AtMostOnce(landed.log) ==> AtMostOnce(back.log))
  {
    var back := DoRebind(DoCrash(landed), plan, runId, ctx).value;
    if back.log != landed.log {
      var cut := InterruptedStep(DoCrash(landed).restored.value.record).value;
      Appending(landed.log, FoundOnRecord(cut), landed.origin);
      if AtMostOnce(landed.log) {
        OtherEventKeepsAtMostOnce(landed.log, FoundOnRecord(cut));
      }
    }
  }

  /** Landing a document that is not stale, a crash and a rebind make nothing pending that is unanswered for. */
  lemma TimelyLandingRepeatsNothing(c: Cell, key: nat, landed: Cell, plan: Plan, runId: string, ctx: RebindContext, k: nat)
    requires Inv(c) && DoEndSave(c, key, true) == Some(landed) && key !in c.saves.stale
    requires DoRebind(DoCrash(landed), plan, runId, ctx).Some?
    ensures var back := DoRebind(DoCrash(landed), plan, runId, ctx).value;
            back.live.Some? && (NextPending(back.live.value.state) == Some(k) ==> !Outstanding(back.log, k))
  {
    EndSaveKeepsInv(c, key, true);
    CrashKeepsInv(landed);
    RebindKeepsInv(DoCrash(landed), plan, runId, ctx);
    hide DoEndSave, DoCrash;
  }

  /** The operation of step `k` is with the provider. */
  predicate AwaitsResult(c: Cell, k: nat) { c.attempt.InFlight? && c.attempt.phase.Performing? && c.attempt.step == k }

  /** Let any document land, let the process die, and let the execution be rebound and advanced. The dispatch
      that follows repeats one no ruling has answered if and only if the step the document leaves next is such
      a step; then the document was stale; and a step whose operation is under way is always one. */
  lemma LandingRepeatsIffUnanswered(c: Cell, key: nat, landed: Cell, plan: Plan, runId: string, ctx: RebindContext, back: Cell,
                                    operation: string, again: Cell)
    requires Reachable(c) && DoEndSave(c, key, true) == Some(landed)
    requires DoRebind(DoCrash(landed), plan, runId, ctx) == Some(back)
    requires Exec(back, ToDispatch(operation, 0)) == Some(again)
    ensures back.live.Some? && NextPending(back.live.value.state).Some?
    ensures var k := NextPending(back.live.value.state).value;
            && (!AtMostOnce(again.log) <==> Outstanding(c.log, k))
            && (Outstanding(c.log, k) ==> key in c.saves.stale)
            && (AwaitsResult(c, k) ==> !AtMostOnce(again.log))
  {
    ReachableIsSafe(c);
    DispatchesTheNext(back, operation, 0);
    var k := NextPending(back.live.value.state).value;
    LandingKeepsLog(c, key);
    RestartKeepsAnswers(landed, plan, runId, ctx, k);
    AwaitedIsOutstanding(c);
    if Outstanding(c.log, k) {
      Unanswered(back.log, k);
      if key !in c.saves.stale {
        TimelyLandingRepeatsNothing(c, key, landed, plan, runId, ctx, k);
      }
    } else {
      ReachableIsAtMostOnce(c);
      DispatchKeepsAtMostOnce(back.log, k);
    }
  }

  lemma ReachableIsAtMostOnce(c: Cell)
    requires Inv(c)
    ensures AtMostOnce(c.log)
  {
  }

  lemma LandingKeepsLog(c: Cell, key: nat)
    requires DoEndSave(c, key, true).Some?
    ensures DoEndSave(c, key, true).value.log == c.log
  {
  }

  lemma AwaitedIsOutstanding(c: Cell)
    requires Inv(c)
    ensures c.attempt.InFlight? && c.attempt.phase.Performing? ==> Outstanding(c.log, c.attempt.step)
  {
  }

  // -- a late save can always repeat a dispatch ---------------------------------------------

  lemma CommittedAttempt(c: Cell, operation: string)
    requires DoBeginAttempt(c, operation).Some?
    ensures var c1 := DoBeginAttempt(c, operation).value;
            var c2 := DoChargeAttempt(c1);
            && c2.Some? && DoCommitAttempt(c2.value).Some?
            && var c3 := DoCommitAttempt(c2.value).value;
               && c3.attempt.InFlight? && c3.attempt.phase.Committed?
               && c3.saves.docs == c.saves.docs && c3.saves.older == c.saves.docs.Keys
               && c3.allowance == ChargedIfAny(c.allowance, StepCost(c.origin, c1.attempt.step)) && c3.restored == c.restored
               && c3.origin == c.origin && c.live.Some? && c3.live.Some? && c3.live.value.state != c.live.value.state
  {
    BegunDiffers(c, operation);
    hide StartStep, Permitted;
  }

  lemma BegunDiffers(c: Cell, operation: string)
    requires DoBeginAttempt(c, operation).Some?
    ensures var n := DoBeginAttempt(c, operation).value;
            c.live.Some? && n.attempt.InFlight? && n.attempt.before == c.live.value.state && n.attempt.running != c.live.value.state
  {
    var n := DoBeginAttempt(c, operation).value;
    assert n.attempt.running.steps[n.attempt.step].status.Running? && c.live.value.state.steps[n.attempt.step].status.Pending?;
  }

  lemma RecordedAttempt(c: Cell, key: nat)
    requires c.attempt.InFlight? && c.attempt.phase.Committed? && forall j :: j in c.saves.docs ==> j < key
    ensures var c1 := DoBeginSave(c, ForAttempt, key);
            && c1.Some? && DoEndSave(c1.value, key, true).Some?
            && var c2 := DoEndSave(c1.value, key, true).value;
               && DoDispatch(c2).Some?
               && var c3 := DoDispatch(c2).value;
                  && c3.saves.docs == c.saves.docs && c.saves.older * c.saves.docs.Keys <= c3.saves.stale
                  && c3.allowance == c.allowance && c3.origin == c.origin && c3.live == c.live
  {
    hide Current;
    assert c.saves.docs[key := Current(c)] - {key} == c.saves.docs;
  }

  lemma DispatchRun(c: Cell, operation: string, key: nat, c1: Cell, c2: Cell, c3: Cell, c4: Cell, c5: Cell, c6: Cell)
    requires DoBeginAttempt(c, operation) == Some(c1) && DoChargeAttempt(c1) == Some(c2) && DoCommitAttempt(c2) == Some(c3)
    requires DoBeginSave(c3, ForAttempt, key) == Some(c4) && DoEndSave(c4, key, true) == Some(c5) && DoDispatch(c5) == Some(c6)
    ensures Exec(c, ToDispatch(operation, key)) == Some(c6)
  {
    hide DoBeginAttempt, DoChargeAttempt, DoCommitAttempt, DoBeginSave, DoEndSave, DoDispatch, Exec;
    Nothing(c6);
    FrontStep(c5, Dispatch, c6, []);
    var r1 := [Dispatch] + [];
    FrontStep(c4, EndSave(key, true), c5, r1);
    var r2 := [EndSave(key, true)] + r1;
    FrontStep(c3, BeginSave(ForAttempt, key), c4, r2);
    var r3 := [BeginSave(ForAttempt, key)] + r2;
    FrontStep(c2, CommitAttempt, c3, r3);
    var r4 := [CommitAttempt] + r3;
    FrontStep(c1, ChargeAttempt, c2, r4);
    var r5 := [ChargeAttempt] + r4;
    FrontStep(c, BeginAttempt(operation), c1, r5);
    assert [BeginAttempt(operation)] + r5 == ToDispatch(operation, key);
  }

  lemma BegunStep(c: Cell, operation: string)
    requires DoBeginAttempt(c, operation).Some?
    ensures Advanceable(c).Some? && DoBeginAttempt(c, operation).value.attempt.InFlight?
    ensures DoBeginAttempt(c, operation).value.attempt.step == Advanceable(c).value
  {
  }

  /** From wherever an advance may begin, it reaches its dispatch when nothing comes between; every
      document captured before it is stale then. */
  lemma AdvanceReachesDispatch(c: Cell, operation: string, key: nat)
    requires DoBeginAttempt(c, operation).Some? && forall j :: j in c.saves.docs ==> j < key
    ensures Advanceable(c).Some?
    ensures var n := Exec(c, ToDispatch(operation, key));
            && n.Some? && n.value.log == c.log + [Dispatched(Advanceable(c).value)]
            && n.value.saves.docs == c.saves.docs && c.saves.docs.Keys <= n.value.saves.stale
            && n.value.allowance == ChargedIfAny(c.allowance, StepCost(c.origin, Advanceable(c).value)) && n.value.origin == c.origin
            && c.live.Some? && n.value.live.Some? && n.value.live.value.state != c.live.value.state
  {
    hide *;
    CommittedAttempt(c, operation);
    BegunStep(c, operation);
    var c1 := DoBeginAttempt(c, operation).value;
    var c2 := DoChargeAttempt(c1).value;
    var c3 := DoCommitAttempt(c2).value;
    RecordedAttempt(c3, key);
    var c4 := DoBeginSave(c3, ForAttempt, key).value;
    var c5 := DoEndSave(c4, key, true).value;
    var c6 := DoDispatch(c5).value;
    DispatchRun(c, operation, key, c1, c2, c3, c4, c5, c6);
    DispatchesTheNext(c, operation, key);
    assert c3.saves.older * c3.saves.docs.Keys == c.saves.docs.Keys;
  }

  lemma FrontStep(c: Cell, a: Action, n: Cell, run: seq<Action>)
    requires Next(c, a) == Some(n)
    ensures Exec(c, [a] + run) == Exec(n, run)
  {
    assert ([a] + run)[1..] == run;
  }

  /** Step `k` may be begun. */
  predicate Ready(st: ExecutionState, k: nat) {
    st.status.Running? && RunningStep(st).None? && InterruptedStep(st).None? && NextPending(st) == Some(k)
  }

  lemma SameStatuses(a: ExecutionState, b: ExecutionState)
    requires |a.steps| == |b.steps| && forall j :: 0 <= j < |a.steps| ==> a.steps[j].status == b.steps[j].status
    ensures RunningStep(a) == RunningStep(b) && InterruptedStep(a) == InterruptedStep(b) && NextPending(a) == NextPending(b)
  {
  }

  /** A running execution with no attempt open comes back ready to begin the same step. */
  lemma ComesBackReady(l: Live, allowance: Option<Allowance>, plan: Plan, runId: string, ctx: RebindContext, k: nat)
    requires Ready(l.state, k)
    ensures Restored(Capture(l, allowance)) == Capture(l, allowance) && InterruptedStep(Capture(l, allowance).record).None?
    ensures var back := Rebound(Capture(l, allowance), plan, runId, ctx); back.Some? ==> Ready(back.value.state, k)
  {
    hide MayRebind;
    var sn := Capture(l, allowance);
    SameStatuses(l.state, sn.record);
    SameStatuses(l.state, ReboundState(sn));
    NothingLeftToReconcile(ReboundState(sn), sn, ctx, 0);
  }

  /** The cell a restart and a rebind make of what one capture held. */
  lemma RebindsTheCapture(c: Cell, key: nat, l: Live, allowance: Option<Allowance>, plan: Plan, runId: string, ctx: RebindContext)
    requires key in c.saves.docs && c.saves.docs[key] == Some(Capture(l, allowance))
    requires Rebound(Restored(Capture(l, allowance)), plan, runId, ctx).Some?
    requires InterruptedStep(Restored(Capture(l, allowance)).record).None?
    ensures DoEndSave(c, key, true).Some?
    ensures var back := DoRebind(DoCrash(DoEndSave(c, key, true).value), plan, runId, ctx);
            && back.Some? && back.value.live == Rebound(Restored(Capture(l, allowance)), plan, runId, ctx)
            && back.value.allowance == allowance && back.value.attempt.Idle? && back.value.saves.docs == map[]
            && back.value.log == c.log && back.value.origin == c.origin
  {
    hide Rebound, Capture, Restored, Landed, Ended;
    RebindNeedsAnAllowance(Restored(Capture(l, allowance)), plan, runId, ctx);
    RestoringKeepsAllowance(Capture(l, allowance));
    CapturedAllowance(l, allowance);
  }

  lemma RebindNeedsAnAllowance(sn: Snapshot, plan: Plan, runId: string, ctx: RebindContext)
    requires Rebound(sn, plan, runId, ctx).Some?
    ensures sn.allowance.Some?
  {
  }

  lemma RestoringKeepsAllowance(sn: Snapshot)
    ensures Restored(sn).allowance == sn.allowance
  {
  }

  lemma CapturedAllowance(l: Live, allowance: Option<Allowance>)
    ensures Capture(l, allowance).allowance == allowance
  {
  }

  lemma BeginsAgain(c: Cell, back: Cell, k: nat, operation: string)
    requires DoBeginAttempt(c, operation).Some? && Advanceable(c) == Some(k) && back.allowance == c.allowance && back.origin == c.origin
    requires back.live.Some? && back.attempt.Idle? && Ready(back.live.value.state, k)
    ensures DoBeginAttempt(back, operation).Some? && Advanceable(back) == Some(k)
  {
  }

  lemma Readiness(c: Cell, operation: string)
    requires DoBeginAttempt(c, operation).Some?
    ensures c.live.Some? && Advanceable(c).Some? && Ready(c.live.value.state, Advanceable(c).value)
  {
  }

  lemma SameDispatchTwice(log: seq<Event>, k: nat)
    ensures !AtMostOnce(log + [Dispatched(k)] + [Dispatched(k)])
  {
    assert Outstanding(log + [Dispatched(k)], k) by {
      assert (log + [Dispatched(k)])[..|log|] == log;
    }
    Unanswered(log + [Dispatched(k)], k);
  }

  /** What a document held lands after its step was dispatched, and a restart begins that step again. */
  lemma LandsLate(c: Cell, dispatched: Cell, key: nat, operation: string, plan: Plan, runId: string, ctx: RebindContext)
    requires DoBeginAttempt(c, operation).Some? && c.live.Some? && Advanceable(c).Some?
    requires key in dispatched.saves.docs && dispatched.saves.docs[key] == Some(Capture(c.live.value, c.allowance))
    requires dispatched.origin == c.origin
    requires Rebound(Restored(Capture(c.live.value, c.allowance)), plan, runId, ctx).Some?
    ensures var again := Exec(dispatched, [EndSave(key, true), Crash, Rebind(plan, runId, ctx)] + ToDispatch(operation, 0));
            && again.Some? && again.value.log == dispatched.log + [Dispatched(Advanceable(c).value)]
            && again.value.allowance == ChargedIfAny(c.allowance, StepCost(c.origin, Advanceable(c).value))
  {
    hide *;
    var l, k := c.live.value, Advanceable(c).value;
    Readiness(c, operation);
    ComesBackReady(l, c.allowance, plan, runId, ctx, k);
    RebindsTheCapture(dispatched, key, l, c.allowance, plan, runId, ctx);
    var landed := DoEndSave(dispatched, key, true).value;
    var back := DoRebind(DoCrash(landed), plan, runId, ctx).value;
    BeginsAgain(c, back, k, operation);
    AdvanceReachesDispatch(back, operation, 0);
    RestartRun(dispatched, key, landed, plan, runId, ctx, back, ToDispatch(operation, 0));
  }

  lemma RestartRun(c: Cell, key: nat, landed: Cell, plan: Plan, runId: string, ctx: RebindContext, back: Cell, run: seq<Action>)
    requires DoEndSave(c, key, true) == Some(landed) && DoRebind(DoCrash(landed), plan, runId, ctx) == Some(back)
    ensures Exec(c, [EndSave(key, true), Crash, Rebind(plan, runId, ctx)] + run) == Exec(back, run)
  {
    hide Exec, DoEndSave, DoRebind, DoCrash;
    FrontStep(DoCrash(landed), Rebind(plan, runId, ctx), back, run);
    FrontStep(landed, Crash, DoCrash(landed), [Rebind(plan, runId, ctx)] + run);
    FrontStep(c, EndSave(key, true), landed, [Crash] + ([Rebind(plan, runId, ctx)] + run));
    assert [EndSave(key, true)] + ([Crash] + ([Rebind(plan, runId, ctx)] + run)) == [EndSave(key, true), Crash, Rebind(plan, runId, ctx)] + run;
  }

  /** Wherever an advance may begin: a save that captures just before it and lands once its operation is
      dispatched makes a restart dispatch the same step again, with no ruling and for a single charge. */
  lemma LateSaveRepeatsADispatch(c: Cell, key: nat, operation: string, plan: Plan, runId: string, ctx: RebindContext)
    requires Reachable(c) && DoBeginSave(c, ForOthers, key).Some? && DoBeginAttempt(c, operation).Some? && c.live.Some?
    requires Rebound(Restored(Capture(c.live.value, c.allowance)), plan, runId, ctx).Some?
    ensures Advanceable(c).Some?
    ensures var dispatched := Exec(c, [BeginSave(ForOthers, key)] + ToDispatch(operation, key + 1));
            && dispatched.Some? && key in dispatched.value.saves.stale
            && var again := Exec(dispatched.value, [EndSave(key, true), Crash, Rebind(plan, runId, ctx)] + ToDispatch(operation, 0));
               && again.Some? && again.value.allowance == dispatched.value.allowance
               && again.value.log == c.log + [Dispatched(Advanceable(c).value)] + [Dispatched(Advanceable(c).value)]
               && !AtMostOnce(again.value.log)
  {
    hide *;
    BegunStep(c, operation);
    var saving := DoBeginSave(c, ForOthers, key).value;
    SavingBegins(c, key, operation);
    AdvanceReachesDispatch(saving, operation, key + 1);
    var dispatched := Exec(saving, ToDispatch(operation, key + 1)).value;
    SaveThenRun(c, key, saving, ToDispatch(operation, key + 1));
    LandsLate(c, dispatched, key, operation, plan, runId, ctx);
    SameDispatchTwice(c.log, Advanceable(c).value);
  }

  lemma SaveThenRun(c: Cell, key: nat, saving: Cell, run: seq<Action>)
    requires DoBeginSave(c, ForOthers, key) == Some(saving)
    ensures Exec(c, [BeginSave(ForOthers, key)] + run) == Exec(saving, run)
  {
    FrontStep(c, BeginSave(ForOthers, key), saving, run);
  }

  lemma SavingBegins(c: Cell, key: nat, operation: string)
    requires DoBeginSave(c, ForOthers, key).Some? && DoBeginAttempt(c, operation).Some? && c.live.Some?
    ensures var saving := DoBeginSave(c, ForOthers, key).value;
            && DoBeginAttempt(saving, operation).Some? && Advanceable(saving) == Advanceable(c)
            && key in saving.saves.docs && saving.saves.docs[key] == Some(Capture(c.live.value, c.allowance))
            && saving.allowance == c.allowance && saving.origin == c.origin && saving.log == c.log
            && forall j :: j in saving.saves.docs ==> j < key + 1
  {
    hide StartStep, Permitted, Capture;
  }

  // -- a start that is taken back ------------------------------------------------------------

  lemma {:induction false} GoneForGood(c: Cell, run: seq<Action>)
    requires c.started && c.live.None? && c.restored.None? && Exec(c, run).Some?
    requires forall i :: 0 <= i < |run| ==> !run[i].Crash? && !(run[i].EndSave? && run[i].lands)
    ensures var n := Exec(c, run).value; n.started && n.live.None? && n.restored.None? && n.stored == c.stored
    decreases |run|
  {
    hide Next;
    if run != [] {
      StaysGone(c, run[0]);
      GoneForGood(Next(c, run[0]).value, run[1..]);
    }
  }

  lemma StaysGone(c: Cell, a: Action)
    requires c.started && c.live.None? && c.restored.None? && Next(c, a).Some? && !a.Crash? && !(a.EndSave? && a.lands)
    ensures var n := Next(c, a).value; n.started && n.live.None? && n.restored.None? && n.stored == c.stored
  {
  }

  /** A mission start is taken back, a save captures after that, and it is the next one to land. It drops an
      identity the store held if and only if the store held one when the start was taken back. */
  lemma WithdrawnStartDropsASavedIdentity(c: Cell, withdrawn: Cell, between: seq<Action>, before: Cell, owner: SaveOwner, key: nat,
                                          capturing: Cell, meanwhile: seq<Action>, saving: Cell)
    requires Reachable(c) && DoWithdrawStart(c) == Some(withdrawn)
    requires Exec(withdrawn, between) == Some(before) && DoBeginSave(before, owner, key) == Some(capturing)
    requires Exec(capturing, meanwhile) == Some(saving) && key in saving.saves.docs
    requires forall i :: 0 <= i < |between| ==> !between[i].Crash? && !(between[i].EndSave? && between[i].lands)
    requires forall i :: 0 <= i < |meanwhile| ==> !meanwhile[i].Crash? && !(meanwhile[i].EndSave? && meanwhile[i].lands)
                                                  && !(meanwhile[i].EndSave? && meanwhile[i].key == key)
    ensures DoEndSave(saving, key, true).Some? && saving.stored == c.stored
    ensures DoEndSave(saving, key, true).value.stored.None?
    ensures !Follows(c.stored, DoEndSave(saving, key, true).value.stored) <==> c.stored.Some?
    ensures c.stored.Some? ==> withdrawn.withdrawn
  {
    hide *;
    ReachableIsSafe(c);
    TakenBack(c);
    GoneForGood(withdrawn, between);
    CapturesNothing(before, owner, key);
    GoneForGood(capturing, meanwhile);
    CaptureStands(capturing, meanwhile, key);
    LandsNothing(saving, key);
    StoreFollowsItself(None);
    assert forall sn: Option<Snapshot> :: sn.Some? ==> !Follows(sn, None) by {
      NothingFollows();
    }
  }

  lemma NothingFollows()
    ensures forall sn: Option<Snapshot> :: sn.Some? ==> !Follows(sn, None)
  {
  }

  lemma TakenBack(c: Cell)
    requires Inv(c) && DoWithdrawStart(c).Some?
    ensures var n := DoWithdrawStart(c).value;
            n.started && n.live.None? && n.restored.None? && n.stored == c.stored && (c.stored.Some? ==> n.withdrawn)
  {
  }

  lemma CapturesNothing(c: Cell, owner: SaveOwner, key: nat)
    requires c.live.None? && c.restored.None? && DoBeginSave(c, owner, key).Some?
    ensures var n := DoBeginSave(c, owner, key).value;
            && n.started == c.started && n.live.None? && n.restored.None? && n.stored == c.stored
            && key in n.saves.docs && n.saves.docs[key].None?
  {
  }

  lemma LandsNothing(c: Cell, key: nat)
    requires key in c.saves.docs
    ensures DoEndSave(c, key, true).Some? && DoEndSave(c, key, true).value.stored == c.saves.docs[key]
  {
  }
}
