/** The main results about one execution, over every run of its atomic steps. */
module ProtocolTheorems {
  import opened Options
  import opened Allowances
  import opened Plans
  import opened ExecutionStates
  import opened Snapshots
  import opened AttemptProtocol
  import opened Histories
  import opened ProtocolSafety
  import opened AnyRuns
  import opened DurableHistory

  /** Some run of atomic steps leads here from a plan that was never started. Saves overlap freely, but
      no document lands that was captured before an attempt whose checkpoint has landed since. */
  ghost predicate Reachable(c: Cell) {
    exists o: PlanContent, run: seq<Action> :: ValidContent(o) && TimelyRun(Fresh(o), run) && Exec(Fresh(o), run) == Some(c)
  }

  /** The same, with no document landing after one captured later. */
  ghost predicate ReachableInTurn(c: Cell) {
    exists o: PlanContent, run: seq<Action> :: ValidContent(o) && InTurnRun(Fresh(o), run) && Exec(Fresh(o), run) == Some(c)
  }

  lemma {:induction false} RunKeepsInv(c: Cell, run: seq<Action>)
    requires Inv(c) && AllKeyed(c) && Exec(c, run).Some? && TimelyRun(c, run)
    ensures Inv(Exec(c, run).value) && AllKeyed(Exec(c, run).value)
    decreases |run|
  {
    hide Inv, AllKeyed, Next;
    if run != [] {
      StepKeepsInv(c, run[0]);
      InvIsFormed(c);
      StepKeepsKeyed(c, run[0]);
      RunKeepsInv(Next(c, run[0]).value, run[1..]);
    }
  }

  lemma ReachableIsSafe(c: Cell)
    requires Reachable(c)
    ensures Inv(c) && AllKeyed(c)
  {
    var o: PlanContent, run: seq<Action> :| ValidContent(o) && TimelyRun(Fresh(o), run) && Exec(Fresh(o), run) == Some(c);
    FreshSatisfiesInv(o);
    RunKeepsInv(Fresh(o), run);
  }

  lemma ReachableInTurnIsChained(c: Cell)
    requires ReachableInTurn(c)
    ensures Inv(c) && Chain(c)
  {
    var o: PlanContent, run: seq<Action> :| ValidContent(o) && InTurnRun(Fresh(o), run) && Exec(Fresh(o), run) == Some(c);
    FreshSatisfiesInv(o);
    RunKeepsChain(Fresh(o), run);
  }

  // -- what memory keeps whatever lands ----------------------------------------------

  /** The cell as if every save there is held what memory holds now. */
  function AsIfSaved(c: Cell): Cell {
    c.(withdrawn := false, stored := Current(c), saves := Saves(map key | key in c.saves.docs :: Current(c), {}, {}, {}))
  }

  lemma AsIfSavedKeepsInv(c: Cell)
    requires Inv(c)
    ensures Inv(AsIfSaved(c))
  {
    hide StateOk, Shaped, RecordOk, RecordsAttempt, RulingsOk, Begun, AtMostOnce, WithinApproval, ValidContent, Used, Honest, Paid, Outstanding;
    CurrentIsOk(c);
    if c.attempt.InFlight? && HasCommitted(c.attempt.phase) && BeforeDispatch(c.attempt.phase) {
      CurrentRecordsAttempt(c);
    }
  }

  /** All but the store, the documents on their way to it, and the flag that tells of both. */
  predicate SameButSaved(a: Cell, b: Cell) {
    && a.origin == b.origin && a.started == b.started && a.approved == b.approved && a.live == b.live && a.allowance == b.allowance
    && a.restored == b.restored && a.attempt == b.attempt && a.rulings == b.rulings && a.log == b.log
    && a.saves.docs.Keys == b.saves.docs.Keys
  }

  lemma SavedTheSame(a: Cell, b: Cell)
    requires SameButSaved(a, b)
    ensures AsIfSaved(a) == AsIfSaved(b)
  {
    assert AsIfSaved(a).saves.docs == AsIfSaved(b).saves.docs;
  }

  lemma CaptureIgnoresTheStore(c: Cell, owner: SaveOwner, key: nat)
    requires DoBeginSave(c, owner, key).Some?
    ensures var n := DoBeginSave(AsIfSaved(c), owner, key); n.Some? && SameButSaved(n.value, DoBeginSave(c, owner, key).value)
  {
    hide Current;
    assert AsIfSaved(c).saves.docs.Keys == c.saves.docs.Keys;
    assert forall j :: j in AsIfSaved(c).saves.docs ==> j in c.saves.docs;
  }

  lemma EndIgnoresTheStore(c: Cell, key: nat, lands: bool)
    requires DoEndSave(c, key, lands).Some?
    ensures var n := DoEndSave(AsIfSaved(c), key, lands); n.Some? && SameButSaved(n.value, DoEndSave(c, key, lands).value)
  {
    hide Current;
    assert AsIfSaved(c).saves.docs.Keys == c.saves.docs.Keys;
    EndRemoves(c, key, lands);
    EndRemoves(AsIfSaved(c), key, lands);
  }

  lemma EndRemoves(c: Cell, key: nat, lands: bool)
    requires DoEndSave(c, key, lands).Some?
    ensures DoEndSave(c, key, lands).value.saves.docs.Keys == c.saves.docs.Keys - {key}
  {
  }

  /** The steps of an advance that are no save. */
  predicate OfAttempt(a: Action) {
    a.BeginAttempt? || a.ChargeAttempt? || a.CommitAttempt? || a.UndoAttempt? || a.RefundAttempt? || a.Dispatch? || a.Return?
  }

  lemma ReturnIgnoresTheStore(c: Cell, result: OperationResult, elapsed: real)
    requires DoReturn(c, result, elapsed).Some?
    ensures var n := DoReturn(AsIfSaved(c), result, elapsed); n.Some? && SameButSaved(n.value, DoReturn(c, result, elapsed).value)
  {
    hide Outcome, Current, ElapsedIfAny;
    assert AsIfSaved(c).saves.docs.Keys == c.saves.docs.Keys;
  }

  lemma CommitIgnoresTheStore(c: Cell)
    requires DoCommitAttempt(c).Some?
    ensures var n := DoCommitAttempt(AsIfSaved(c)); n.Some? && SameButSaved(n.value, DoCommitAttempt(c).value)
  {
    hide Current;
    assert AsIfSaved(c).saves.docs.Keys == c.saves.docs.Keys;
  }

  lemma AttemptIgnoresTheStore(c: Cell, a: Action)
    requires Next(c, a).Some? && OfAttempt(a)
    ensures Next(AsIfSaved(c), a).Some? && SameButSaved(Next(AsIfSaved(c), a).value, Next(c, a).value)
  {
    hide Outcome, StartStep, Permitted, Current, Capture, Held, ChargedIfAny, ElapsedIfAny, StepCost, NextPending, InterruptedStep,
         DoReturn, DoCommitAttempt;
    assert AsIfSaved(c).saves.docs.Keys == c.saves.docs.Keys;
    if a.Return? {
      ReturnIgnoresTheStore(c, a.result, a.elapsed);
    } else if a.CommitAttempt? {
      CommitIgnoresTheStore(c);
    }
  }

  lemma OthersIgnoreTheStore(c: Cell, a: Action)
    requires Next(c, a).Some? && !a.Crash? && !a.BeginSave? && !a.EndSave? && !OfAttempt(a)
    ensures Next(AsIfSaved(c), a).Some? && SameButSaved(Next(AsIfSaved(c), a).value, Next(c, a).value)
  {
    hide BlockStep, RefuseAdvance, RequireAuthority, Rebound, ReboundState, Cancel, ResolveInterrupted, RecoverBlocked,
         Held, Permitted, Capture, Current, NextPending, InterruptedStep, Started, StepIds;
    assert AsIfSaved(c).saves.docs.Keys == c.saves.docs.Keys;
  }

  /** Within one process no step but a restart looks at the store. */
  lemma MemoryIgnoresTheStore(c: Cell, a: Action)
    requires Next(c, a).Some? && !a.Crash?
    ensures Next(AsIfSaved(c), a).Some? && AsIfSaved(Next(AsIfSaved(c), a).value) == AsIfSaved(Next(c, a).value)
  {
    hide DoBeginSave, DoEndSave, AsIfSaved, SameButSaved;
    match a {
      case BeginSave(owner, key) => CaptureIgnoresTheStore(c, owner, key);
      case EndSave(key, lands) => EndIgnoresTheStore(c, key, lands);
      case _ =>
        if OfAttempt(a) {
          AttemptIgnoresTheStore(c, a);
        } else {
          OthersIgnoreTheStore(c, a);
        }
    }
    SavedTheSame(Next(AsIfSaved(c), a).value, Next(c, a).value);
  }

  lemma StepKeepsMemory(c: Cell, a: Action)
    requires Inv(AsIfSaved(c)) && Next(c, a).Some? && !a.Crash?
    ensures Next(AsIfSaved(c), a).Some? && AsIfSaved(Next(AsIfSaved(c), a).value) == AsIfSaved(Next(c, a).value)
    ensures Inv(AsIfSaved(Next(c, a).value))
  {
    MemoryIgnoresTheStore(c, a);
    hide Inv, Next;
    StepKeepsInv(AsIfSaved(c), a);
    AsIfSavedKeepsInv(Next(AsIfSaved(c), a).value);
  }

  // -- a document under way does not change ------------------------------------------

  lemma {:induction false} CaptureStands(c: Cell, run: seq<Action>, key: nat)
    requires key in c.saves.docs && Exec(c, run).Some?
    requires forall i :: 0 <= i < |run| ==> !run[i].Crash? && !(run[i].EndSave? && run[i].key == key)
    ensures key in Exec(c, run).value.saves.docs && Exec(c, run).value.saves.docs[key] == c.saves.docs[key]
    decreases |run|
  {
    hide Next;
    if run != [] {
      StepLeavesCapture(c, run[0], key);
      CaptureStands(Next(c, run[0]).value, run[1..], key);
    }
  }

  lemma StepLeavesCapture(c: Cell, a: Action, key: nat)
    requires key in c.saves.docs && Next(c, a).Some? && !a.Crash? && !(a.EndSave? && a.key == key)
    ensures key in Next(c, a).value.saves.docs && Next(c, a).value.saves.docs[key] == c.saves.docs[key]
  {
    hide DoBeginSave, DoEndSave;
    match a
    case BeginSave(owner, other) => CaptureLeavesTheStore(c, owner, other);
    case EndSave(other, lands) => EndTouchesTheStore(c, other, lands);
    case _ => OthersLeaveTheStore(c, a);
  }

  // -- budget --------------------------------------------------------------------

  /** A record that could come back after a restart counts everything ever dispatched. */
  predicate CountsAll(sn: Option<Snapshot>, b: Budget, used: Spend) {
    sn.Some? ==>
      sn.value.allowance.Some? && sn.value.allowance.value.budget == b && Covers(sn.value.allowance.value.spend, used)
  }

  /** Lifetime budget: whatever crashes, failed saves, cancels, rulings and rebinds happen, all
      operations ever dispatched together stay within the approved budget, and every record the
      execution could be resumed from already counts them. */
  lemma LifetimeBudgetSafety(c: Cell)
    requires Reachable(c) && c.approved.Some?
    ensures var b, used := c.approved.value, Used(c.log, c.origin);
            && used.steps <= b.steps && used.network <= b.network && used.llm <= b.llm
            && CountsAll(c.stored, b, used) && CountsAll(c.restored, b, used) && CountsAll(Current(c), b, used)
            && forall key :: key in c.saves.docs && key !in c.saves.stale ==> CountsAll(c.saves.docs[key], b, used)
  {
    ReachableIsSafe(c);
    CurrentIsOk(c);
  }

  // -- dispatch ------------------------------------------------------------------

  /** A durable record never calls a step pending whose last dispatch is unanswered for. */
  predicate NothingToRepeat(sn: Option<Snapshot>, log: seq<Event>) {
    sn.Some? ==>
      forall k :: 0 <= k < |sn.value.record.steps| && sn.value.record.steps[k].status.Pending? ==> !Outstanding(log, k)
  }

  /** At most once: between two dispatches of one step an operator ruled that it was not performed. */
  lemma AtMostOnceDispatch(c: Cell)
    requires Reachable(c)
    ensures AtMostOnce(c.log)
    ensures NothingToRepeat(c.stored, c.log) && NothingToRepeat(c.restored, c.log) && NothingToRepeat(Current(c), c.log)
    ensures forall key :: key in c.saves.docs && key !in c.saves.stale ==> NothingToRepeat(c.saves.docs[key], c.log)
  {
    ReachableIsSafe(c);
    CurrentIsOk(c);
  }

  /** An operation is dispatched only after the store says it was begun and has counted its cost. */
  lemma DispatchIsRecordedAndPaidFirst(c: Cell)
    requires Reachable(c) && Next(c, Dispatch).Some?
    ensures var k := c.attempt.step;
            && k < |c.origin.steps| && c.stored.Some? && |c.stored.value.record.steps| == |c.origin.steps|
            && !c.stored.value.record.steps[k].status.Pending?
            && (c.approved.Some? ==>
                  && c.stored.value.allowance.Some?
                  && Covers(c.stored.value.allowance.value.spend, PlusAttempt(Used(c.log, c.origin), StepCost(c.origin, k))))
  {
    ReachableIsSafe(c);
  }

  /** Step `k` was dispatched and came back a success later, or its own result was found on record. */
  predicate SeenToSucceed(log: seq<Event>, k: nat) {
    || (exists d, i :: 0 <= d < i < |log| && log[d] == Dispatched(k)
                       && log[i].Returned? && log[i].step == k && log[i].result.PerformedSucceeded?)
    || FoundOnRecord(k) in log
  }

  lemma ProvenWasSeen(log: seq<Event>, k: nat)
    requires Answered(log) && Proven(log, k)
    ensures SeenToSucceed(log, k)
  {
    var i :| 0 <= i < |log| && ((log[i].Returned? && log[i].step == k && log[i].result.PerformedSucceeded?) || log[i] == FoundOnRecord(k));
    if log[i].Returned? {
      assert DispatchedIn(log[..i], k);
      var d :| 0 <= d < i && log[..i][d] == Dispatched(k);
      assert log[d] == Dispatched(k);
    }
  }

  /** A state that calls a step of the plan completed only if it was seen to succeed. */
  predicate CompletesHonestly(st: ExecutionState, k: nat, o: PlanContent, log: seq<Event>) {
    |st.steps| == |o.steps| && (k < |st.steps| && st.steps[k].status.Completed? ==> SeenToSucceed(log, k))
  }

  predicate RecordsHonestly(sn: Option<Snapshot>, k: nat, o: PlanContent, log: seq<Event>) {
    sn.Some? ==> CompletesHonestly(sn.value.record, k, o, log)
  }

  lemma TrueIsHonest(st: ExecutionState, k: nat, o: PlanContent, log: seq<Event>)
    requires TrueState(st, o, log) && Answered(log)
    ensures CompletesHonestly(st, k, o, log)
  {
    hide WellFormed, SeenToSucceed, Proven, Answered;
    if k < |st.steps| && st.steps[k].status.Completed? {
      ProvenWasSeen(log, k);
    }
  }

  lemma TrueRecordIsHonest(sn: Option<Snapshot>, k: nat, o: PlanContent, log: seq<Event>)
    requires TrueRecord(sn, o, log) && Answered(log)
    ensures RecordsHonestly(sn, k, o, log)
  {
    if sn.Some? {
      TrueIsHonest(sn.value.record, k, o, log);
    }
  }

  /** No completion is invented: after any run at all, stale documents landed or not, whatever calls a step
      completed, live, restored, stored, on its way to the store or read by an attempt, that step was
      dispatched and later seen to succeed, or proved by its own record. */
  lemma HonestCompletion(c: Cell, k: nat)
    requires Attainable(c)
    ensures c.live.Some? ==> CompletesHonestly(c.live.value.state, k, c.origin, c.log)
    ensures RecordsHonestly(c.restored, k, c.origin, c.log) && RecordsHonestly(c.stored, k, c.origin, c.log)
    ensures forall key :: key in c.saves.docs ==> RecordsHonestly(c.saves.docs[key], k, c.origin, c.log)
    ensures c.attempt.InFlight? ==>
              CompletesHonestly(c.attempt.before, k, c.origin, c.log) && CompletesHonestly(c.attempt.running, k, c.origin, c.log)
  {
    hide TrueState, TrueRecord, CompletesHonestly, RecordsHonestly, Answered, RulingsOk, Begun, DispatchedIn;
    AttainableIsTrue(c);
    TrueRecordIsHonest(c.restored, k, c.origin, c.log);
    TrueRecordIsHonest(c.stored, k, c.origin, c.log);
    forall key | key in c.saves.docs ensures RecordsHonestly(c.saves.docs[key], k, c.origin, c.log) {
      TrueRecordIsHonest(c.saves.docs[key], k, c.origin, c.log);
    }
    if c.live.Some? {
      TrueIsHonest(c.live.value.state, k, c.origin, c.log);
    }
    if c.attempt.InFlight? {
      TrueIsHonest(c.attempt.before, k, c.origin, c.log);
      TrueIsHonest(c.attempt.running, k, c.origin, c.log);
    }
  }

  // -- newest decision wins ----------------------------------------------------------

  predicate Closed(c: Cell) { c.live.Some? && c.live.value.state.status.Terminal() }

  lemma StepKeepsClosed(c: Cell, a: Action)
    requires OpenOnly(c) && OnlyStarted(c) && Closed(c) && Next(c, a).Some? && !a.Crash?
    ensures Closed(Next(c, a).value) && Next(c, a).value.live.value.state == c.live.value.state
  {
    hide Held, Capture, Rebound, Permitted, Current, Landed, Ended, Outcome, StartedLive;
  }

  lemma {:induction false} ClosedThroughout(c: Cell, run: seq<Action>)
    requires OpenOnly(c) && OnlyStarted(c) && Closed(c) && Exec(c, run).Some?
    requires forall i :: 0 <= i < |run| ==> !run[i].Crash?
    ensures Closed(Exec(c, run).value) && Exec(c, run).value.live.value.state == c.live.value.state
    decreases |run|
  {
    hide Next, OpenOnly, OnlyStarted;
    if run != [] {
      StepStaysOpen(c, run[0]);
      StepStaysStarted(c, run[0]);
      StepKeepsClosed(c, run[0]);
      ClosedThroughout(Next(c, run[0]).value, run[1..]);
    }
  }

  /** Newest decision wins: once an execution is cancelled, failed or completed, no in-flight attempt,
      rollback, ruling, withdrawn ruling or save of the same process ever changes its state again; this
      holds after any run at all, whatever documents landed before. */
  lemma ClosedStaysClosed(c: Cell, run: seq<Action>)
    requires Attainable(c) && Closed(c) && Exec(c, run).Some?
    requires forall i :: 0 <= i < |run| ==> !run[i].Crash?
    ensures Closed(Exec(c, run).value) && Exec(c, run).value.live.value.state == c.live.value.state
  {
    AttainableIsOpen(c);
    ClosedThroughout(c, run);
  }

  // -- nothing is forgotten ------------------------------------------------------------

  /** What holds after any run, whatever landed, and is enough to say what the next step keeps. */
  predicate Intact(c: Cell) { Truthful(c) && OnlyStarted(c) && AllKeyed(c) }

  lemma IntactIsFormed(c: Cell)
    requires Truthful(c) && OnlyStarted(c)
    ensures Formed(c)
  {
    hide WellFormed, Begun, RulingsOk, TrueSaves, Answered, Held, DispatchedIn;
  }

  lemma StepStaysIntact(c: Cell, a: Action)
    requires Intact(c) && Next(c, a).Some?
    ensures Intact(Next(c, a).value)
  {
    hide Truthful, OnlyStarted, AllKeyed, Next, Formed;
    IntactIsFormed(c);
    StepStaysTrue(c, a);
    StepStaysStarted(c, a);
    StepKeepsKeyed(c, a);
  }

  lemma {:induction false} RunStaysIntact(c: Cell, run: seq<Action>)
    requires Intact(c) && Exec(c, run).Some?
    ensures Intact(Exec(c, run).value)
    decreases |run|
  {
    hide Next, Intact;
    if run != [] {
      StepStaysIntact(c, run[0]);
      RunStaysIntact(Next(c, run[0]).value, run[1..]);
    }
  }

  lemma AttainableIsIntact(c: Cell)
    requires Attainable(c)
    ensures Intact(c)
  {
    var o: PlanContent, run: seq<Action> :| Exec(Fresh(o), run) == Some(c);
    FreshIsTruthful(o);
    RunStaysIntact(Fresh(o), run);
  }

  lemma StaysLive(c: Cell, a: Action)
    requires OnlyStarted(c) && c.live.Some? && Next(c, a).Some? && !a.Crash? && !a.WithdrawStart?
    ensures Next(c, a).value.live.Some? && !a.Start?
  {
    hide Outcome, Held, Capture, Rebound, StartStep, StartedLive, Current, Landed, Ended;
  }

  lemma RecordsTell(a: ExecutionState, b: ExecutionState)
    requires StateFollows(RecordOf(a), RecordOf(b))
    ensures StateFollows(a, b)
  {
    assert forall j :: 0 <= j < |a.steps| ==> RecordOf(a).steps[j] == RecordedStep(a.steps[j]);
    assert forall j :: 0 <= j < |b.steps| ==> RecordOf(b).steps[j] == RecordedStep(b.steps[j]);
  }

  lemma {:induction false} MemoryFollowsThroughout(c: Cell, run: seq<Action>)
    requires Intact(c) && c.live.Some? && Exec(c, run).Some?
    requires forall i :: 0 <= i < |run| ==> !run[i].Crash? && !run[i].WithdrawStart?
    ensures Exec(c, run).value.live.Some?
    ensures StateFollows(c.live.value.state, Exec(c, run).value.live.value.state)
    decreases |run|
  {
    hide Truthful, OnlyStarted, Formed, Next;
    if run != [] {
      var n := Next(c, run[0]).value;
      IntactIsFormed(c);
      StepStaysIntact(c, run[0]);
      StaysLive(c, run[0]);
      MemoryFollows(c, run[0]);
      MemoryFollowsThroughout(n, run[1..]);
      RecordsTell(c.live.value.state, n.live.value.state);
    }
  }

  /** Completed steps survive every interleaving of one process with their full record, whatever documents
      landed before it started or land meanwhile. */
  lemma CompletedStepsSurvive(c: Cell, run: seq<Action>)
    requires Attainable(c) && c.live.Some? && Exec(c, run).Some?
    requires forall i :: 0 <= i < |run| ==> !run[i].Crash? && !run[i].WithdrawStart?
    ensures Exec(c, run).value.live.Some?
    ensures StateFollows(c.live.value.state, Exec(c, run).value.live.value.state)
  {
    AttainableIsIntact(c);
    MemoryFollowsThroughout(c, run);
  }

  /** The durable form: no later save, of this process or the next, drops a saved execution,
      reopens a saved closing decision, or loses a saved completion or mission request. */
  lemma SavedHistoryIsNeverDropped(c: Cell, run: seq<Action>)
    requires ReachableInTurn(c) && Exec(c, run).Some? && InTurnRun(c, run) && !Exec(c, run).value.withdrawn
    ensures Follows(c.stored, Exec(c, run).value.stored)
  {
    ReachableInTurnIsChained(c);
    DurableRecordsPersist(c, run);
  }

  /** And exactly what the first document to land out of turn does: it keeps what the store holds if and
      only if nothing was completed, closed or first saved between its capture and the later one that
      landed before it. */
  lemma OvertakenLandingKeepsHistoryIff(c: Cell, key: nat)
    requires ReachableInTurn(c) && !c.withdrawn && key in c.saves.overtaken
    ensures key in c.saves.docs && DoEndSave(c, key, true).Some?
    ensures Follows(c.stored, DoEndSave(c, key, true).value.stored) <==> LacksNothing(c.saves.docs[key], c.stored)
  {
    ReachableInTurnIsChained(c);
    FollowsBackIff(c.saves.docs[key], c.stored);
  }
}
