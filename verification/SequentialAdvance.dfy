/** One whole `process_advance` call, and the other service calls, on one execution's cell when
    nothing interleaves; each is a run of the atomic steps, so every run theorem applies to it. */
module SequentialAdvance {
  import opened Options
  import opened Allowances
  import opened Plans
  import opened ExecutionStates
  import opened Snapshots
  import opened AttemptProtocol
  import opened Histories
  import opened ProtocolSafety
  import opened DurableHistory
  import opened ProtocolTheorems

  /** What a mission's follow-up policy says about the next step. */
  datatype Followup = Proceed | BudgetLimited | Refused

  /** Everything one advance meets that is not in the service: gates, registry, disk, provider, clock. */
  datatype AdvanceInputs = AdvanceInputs(
    missionResolver: bool,
    gateRefuses: bool,             // stale target scope, or the bounded deliverable is ready
    followup: Followup,            // read for missions only
    registered: set<Capability>,
    operation: string,
    note: string,                  // the text recorded when a step is held, refused or paused
    checkpointLands: bool,
    result: OperationResult,
    elapsed: real,
    finalSaveLands: bool)

  /** What the caller is told. `Escaping` is an exception that leaves `process_advance`,
      a `ResearchError` if it is `foreseen`. */
  datatype Report = Missing | Rejected | BudgetRefused | Reported | Escaping(foreseen: bool) {
    predicate Success() { Reported? }
  }

  /** The document now in the store, if the save landed. */
  function Saved(c: Cell, lands: bool): Cell {
    c.(stored := if lands then Current(c) else c.stored)
  }

  /** A mission that no longer has the authority it consumed, or work posing as one. */
  predicate LacksMissionAuthority(l: Live, allowance: Option<Allowance>, missionResolver: bool) {
    && (l.plan.content.mission.Some? || l.missionDigest.Some?)
    && (l.plan.content.mission.None? || l.missionDigest != Some(l.plan.content) || !missionResolver || allowance.None?)
  }

  predicate TurnedAway(l: Live, allowance: Option<Allowance>, inp: AdvanceInputs) {
    LacksMissionAuthority(l, allowance, inp.missionResolver) || inp.gateRefuses || InterruptedStep(l.state).Some?
  }

  /** Which of its endings an advance takes. */
  datatype Course =
    | NoExecution
    | Turned            // rejected, nothing recorded
    | Hold
    | Refuse
    | SeekAuthority
    | Attempt(step: nat, running: ExecutionState)

  function CourseOf(c: Cell, inp: AdvanceInputs): Course {
    if c.live.None? then NoExecution
    else if TurnedAway(c.live.value, c.allowance, inp) then Turned
    else
      var st := c.live.value.state;
      var next := NextPending(st);
      if next.None? || next.value >= |c.origin.steps| then Turned
      else
        var k := next.value;
        var cap := c.origin.steps[k].capability;
        var cost := CostFor(cap);
        var mission := c.live.value.plan.content.mission.Some?;
        if !Executable(cap) || cap !in inp.registered then Hold
        else if mission && inp.followup.BudgetLimited? then
          (if c.allowance.Some? && !Affords(c.allowance.value, cost) then Refuse else Turned)
        else if mission && inp.followup.Refused? then Turned
        else if c.allowance.None? && (cap == SourceRevalidation || cost.llm > 0) then SeekAuthority
        else if c.allowance.Some? && !Affords(c.allowance.value, cost) then Refuse
        else
          var running := StartStep(st, k, inp.operation);
          if running.None? then Turned else Attempt(k, running.value)
  }

  /** A replacement of the state followed by a save; an impossible one raises and changes nothing. */
  function ReplacedAndSaved(c: Cell, st: Option<ExecutionState>, lands: bool): Cell
    requires c.live.Some?
  {
    if st.None? then c else Saved(WithState(c, st.value), lands)
  }

  predicate NoStepUnderway(st: ExecutionState) { st.status.Running? && RunningStep(st).None? }

  /** Charged and committed as running. */
  function ChargedCell(c: Cell, k: nat, running: ExecutionState): Cell
    requires c.live.Some?
  {
    WithState(c, running).(allowance := ChargedIfAny(c.allowance, StepCost(c.origin, k)))
  }

  /** Back from the operation, which counts its time unless it left by an unforeseen exception. */
  function ReturnedCell(c: Cell, k: nat, inp: AdvanceInputs): Cell {
    c.(allowance := if inp.result.Escaped? then c.allowance else ElapsedIfAny(c.allowance, inp.elapsed),
       log := c.log + [Dispatched(k)] + [Returned(k, inp.result)])
  }

  /** The attempt proper, from the charge to the last save. */
  function AttemptedCell(c: Cell, k: nat, running: ExecutionState, inp: AdvanceInputs): Cell
    requires c.live.Some? && k < |running.steps|
  {
    if !inp.checkpointLands then c
    else
      var returned := ReturnedCell(Saved(ChargedCell(c, k, running), true), k, inp);
      var outcome := Outcome(running, k, inp.result);
      if outcome.None? then returned else Saved(WithState(returned, outcome.value), inp.finalSaveLands)
  }

  /** One advance that nothing interleaves with. */
  function AdvanceCell(c: Cell, inp: AdvanceInputs): Cell {
    match CourseOf(c, inp)
    case NoExecution => c
    case Turned => c
    case Hold => ReplacedAndSaved(c, BlockStep(c.live.value.state, NextPending(c.live.value.state).value, inp.note), inp.finalSaveLands)
    case Refuse =>
      var st := c.live.value.state;
      if !NoStepUnderway(st) then c
      else ReplacedAndSaved(c, RefuseAdvance(st, NextPending(st).value, inp.note), inp.finalSaveLands)
    case SeekAuthority =>
      var l := c.live.value;
      if !NoStepUnderway(l.state) || l.runId.None? then c
      else ReplacedAndSaved(c, RequireAuthority(l.state, NextPending(l.state).value, l.plan.content, l.runId.value, inp.note), inp.finalSaveLands)
    case Attempt(k, running) => AttemptedCell(c, k, running, inp)
  }

  function BesideAttempt(other: Cell, running: ExecutionState, k: nat, inp: AdvanceInputs): Cell {
    if !inp.checkpointLands then other
    else if k < |running.steps| && Outcome(running, k, inp.result).Some? then Saved(Saved(other, true), inp.finalSaveLands)
    else Saved(other, true)
  }

  /** The saves another execution sees while this one advances: a checkpoint, then a final save. */
  function BesideAdvance(other: Cell, c: Cell, inp: AdvanceInputs): Cell {
    match CourseOf(c, inp)
    case NoExecution => other
    case Turned => other
    case Hold => if BlockStep(c.live.value.state, NextPending(c.live.value.state).value, inp.note).None? then other
                 else Saved(other, inp.finalSaveLands)
    case Refuse =>
      var st := c.live.value.state;
      if !NoStepUnderway(st) || RefuseAdvance(st, NextPending(st).value, inp.note).None? then other else Saved(other, inp.finalSaveLands)
    case SeekAuthority =>
      var l := c.live.value;
      if !NoStepUnderway(l.state) || l.runId.None?
         || RequireAuthority(l.state, NextPending(l.state).value, l.plan.content, l.runId.value, inp.note).None?
      then other else Saved(other, inp.finalSaveLands)
    case Attempt(k, running) => BesideAttempt(other, running, k, inp)
  }

  // -- every call is a run of atomic steps -----------------------------------------

  predicate Resting(c: Cell) { c.attempt.Idle? && c.saves == NoSaves }

  predicate Sound(c: Cell) { Inv(c) && Chain(c) && Resting(c) && c.started && !c.withdrawn }

  lemma StepIsSound(c: Cell, a: Action)
    requires Inv(c) && Chain(c) && Next(c, a).Some? && !a.EndSave?
    ensures Inv(Next(c, a).value) && Chain(Next(c, a).value)
  {
    StepKeepsInv(c, a);
    StepKeepsChain(c, a);
  }

  /** Saves made one after another, all under one key, land in turn. */
  lemma {:induction false} OneSaveAtATime(c: Cell, run: seq<Action>)
    requires c.saves.overtaken == {} && forall i :: 0 <= i < |run| && run[i].EndSave? ==> run[i].key == 0
    ensures InTurnRun(c, run)
    decreases |run|
  {
    if run != [] && Next(c, run[0]).Some? {
      var n := Next(c, run[0]).value;
      assert n.saves.overtaken == {} by {
        match run[0]
        case Crash =>
        case BeginSave(owner, key) => CaptureLeavesTheStore(c, owner, key);
        case EndSave(key, lands) => EndTouchesTheStore(c, key, lands);
        case _ => OthersLeaveTheStore(c, run[0]);
      }
      OneSaveAtATime(n, run[1..]);
    }
  }

  lemma SaveAlone(doc: Option<Snapshot>, checkpoint: bool)
    ensures var one := NoSaves.(docs := NoSaves.docs[0 := doc]); Ended(one, 0) == NoSaves && Landed(one, 0, checkpoint) == NoSaves
  {
    assert Ended(NoSaves.(docs := NoSaves.docs[0 := doc]), 0).docs == map[];
  }

  lemma SaveIsARun(c: Cell, lands: bool)
    requires Resting(c)
    ensures Exec(c, [BeginSave(ForOthers, 0), EndSave(0, lands)]) == Some(Saved(c, lands))
  {
    var c1 := DoBeginSave(c, ForOthers, 0).value;
    SaveAlone(Current(c), Checkpoint(c1, 0));
    assert c1.saves == NoSaves.(docs := NoSaves.docs[0 := Current(c)]);
    var c2 := DoEndSave(c1, 0, lands).value;
    assert c2.saves == NoSaves && c2.attempt == c.attempt;
    TwoSteps([BeginSave(ForOthers, 0), EndSave(0, lands)], c, c1, c2);
  }

  lemma SavedIsSound(c: Cell, lands: bool)
    requires Sound(c)
    ensures Sound(Saved(c, lands))
  {
    SaveIsARun(c, lands);
    OneSaveAtATime(c, [BeginSave(ForOthers, 0), EndSave(0, lands)]);
    RunKeepsChain(c, [BeginSave(ForOthers, 0), EndSave(0, lands)]);
  }

  /** The run an attempt performs when nothing interleaves. */
  function AttemptRun(inp: AdvanceInputs): seq<Action> {
    [BeginAttempt(inp.operation), ChargeAttempt, CommitAttempt, BeginSave(ForAttempt, 0), EndSave(0, inp.checkpointLands)]
    + if inp.checkpointLands then [Dispatch, Return(inp.result, inp.elapsed)] else [UndoAttempt, RefundAttempt]
  }

  lemma {:induction false} ExecConcat(c: Cell, a: seq<Action>, b: seq<Action>)
    requires Exec(c, a).Some?
    ensures Exec(c, a + b) == Exec(Exec(c, a).value, b)
    decreases |a|
  {
    if a == [] {
      assert a + b == b;
    } else {
      assert (a + b)[1..] == a[1..] + b;
      ExecConcat(Next(c, a[0]).value, a[1..], b);
    }
  }

  /** The five steps up to the end of the checkpoint, one after another. */
  lemma CheckpointRun(c: Cell, operation: string, lands: bool, c1: Cell, c2: Cell, c3: Cell, c4: Cell)
    requires DoBeginAttempt(c, operation) == Some(c1) && DoChargeAttempt(c1) == Some(c2) && DoCommitAttempt(c2) == Some(c3)
    requires DoBeginSave(c3, ForAttempt, 0) == Some(c4) && DoEndSave(c4, 0, lands).Some?
    ensures Exec(c, [BeginAttempt(operation), ChargeAttempt, CommitAttempt, BeginSave(ForAttempt, 0), EndSave(0, lands)])
            == DoEndSave(c4, 0, lands)
  {
    hide DoBeginAttempt, DoChargeAttempt, DoCommitAttempt, DoBeginSave, DoEndSave;
    var c5 := DoEndSave(c4, 0, lands).value;
    TwoSteps([BeginSave(ForAttempt, 0), EndSave(0, lands)], c3, c4, c5);
    PrependStep(c2, CommitAttempt, c3, [BeginSave(ForAttempt, 0), EndSave(0, lands)]);
    PrependStep(c1, ChargeAttempt, c2, [CommitAttempt] + [BeginSave(ForAttempt, 0), EndSave(0, lands)]);
    PrependStep(c, BeginAttempt(operation), c1, [ChargeAttempt] + ([CommitAttempt] + [BeginSave(ForAttempt, 0), EndSave(0, lands)]));
    assert [BeginAttempt(operation)] + ([ChargeAttempt] + ([CommitAttempt] + [BeginSave(ForAttempt, 0), EndSave(0, lands)]))
        == [BeginAttempt(operation), ChargeAttempt, CommitAttempt, BeginSave(ForAttempt, 0), EndSave(0, lands)];
  }

  lemma PrependStep(c: Cell, a: Action, n: Cell, run: seq<Action>)
    requires Next(c, a) == Some(n)
    ensures Exec(c, [a] + run) == Exec(n, run)
  {
    assert ([a] + run)[1..] == run;
  }

  lemma TwoSteps(run: seq<Action>, c0: Cell, c1: Cell, c2: Cell)
    requires |run| == 2 && Next(c0, run[0]) == Some(c1) && Next(c1, run[1]) == Some(c2)
    ensures Exec(c0, run) == Some(c2)
  {
    assert run[1..][1..] == [];
    assert Exec(c1, run[1..]) == Exec(c2, run[1..][1..]);
  }

  /** The charge and the commit of an undisturbed attempt. */
  lemma ChargedThenCommitted(c: Cell, k: nat, running: ExecutionState)
    requires c.live.Some? && c.saves == NoSaves
    ensures var begun := InFlight(Prepared, k, c.live.value.state, running, c.allowance);
            var money := ChargedIfAny(c.allowance, StepCost(c.origin, k));
            && DoChargeAttempt(c.(attempt := begun)) == Some(c.(attempt := begun.(phase := Charged), allowance := money))
            && DoCommitAttempt(c.(attempt := begun.(phase := Charged), allowance := money))
               == Some(WithState(c, running).(allowance := money, attempt := begun.(phase := Committed)))
  {
    assert NoSaves.(older := NoSaves.docs.Keys) == NoSaves;
  }

  lemma CheckpointEnds(c: Cell, lands: bool)
    requires c.saves == NoSaves && c.live.Some? && c.attempt.InFlight? && c.attempt.phase.Committed?
    ensures var capturing := c.(saves := NoSaves.(docs := NoSaves.docs[0 := Current(c)]), attempt := c.attempt.(phase := Saving(0)));
            && DoBeginSave(c, ForAttempt, 0) == Some(capturing)
            && DoEndSave(capturing, 0, lands)
               == Some(Saved(c, lands).(attempt := c.attempt.(phase := if lands then Recorded else Undoing)))
  {
    SaveAlone(Current(c), true);
  }

  /** The cell an undisturbed attempt reaches when its checkpoint has ended. */
  lemma CheckpointedCell(c: Cell, k: nat, running: ExecutionState, operation: string, lands: bool)
    requires Resting(c) && c.live.Some?
    requires DoBeginAttempt(c, operation) == Some(c.(attempt := InFlight(Prepared, k, c.live.value.state, running, c.allowance)))
    ensures var run := [BeginAttempt(operation), ChargeAttempt, CommitAttempt, BeginSave(ForAttempt, 0), EndSave(0, lands)];
            var charged := WithState(c, running).(allowance := ChargedIfAny(c.allowance, StepCost(c.origin, k)));
            Exec(c, run) == Some(Saved(charged, lands).(
                                 attempt := InFlight(if lands then Recorded else Undoing, k, c.live.value.state, running, c.allowance)))
  {
    var begun := InFlight(Prepared, k, c.live.value.state, running, c.allowance);
    var money := ChargedIfAny(c.allowance, StepCost(c.origin, k));
    var c1 := c.(attempt := begun);
    var c2 := c.(attempt := begun.(phase := Charged), allowance := money);
    var c3 := WithState(c, running).(allowance := money, attempt := begun.(phase := Committed));
    var c4 := c3.(saves := NoSaves.(docs := NoSaves.docs[0 := Current(c3)]), attempt := begun.(phase := Saving(0)));
    ChargedThenCommitted(c, k, running);
    CheckpointEnds(c3, lands);
    CheckpointRun(c, operation, lands, c1, c2, c3, c4);
  }

  lemma BeginFollowsCourse(c: Cell, k: nat, running: ExecutionState, inp: AdvanceInputs)
    requires Resting(c) && CourseOf(c, inp) == Attempt(k, running)
    ensures DoBeginAttempt(c, inp.operation)
            == Some(c.(attempt := InFlight(Prepared, k, c.live.value.state, running, c.allowance)))
  {
  }

  lemma UndoneAttempt(c: Cell, c5: Cell, k: nat, running: ExecutionState)
    requires c.live.Some? && Resting(c)
    requires c5 == WithState(c, running).(allowance := ChargedIfAny(c.allowance, StepCost(c.origin, k)),
                   attempt := InFlight(Undoing, k, c.live.value.state, running, c.allowance))
    ensures Exec(c5, [UndoAttempt, RefundAttempt]) == Some(c)
  {
    var c6 := DoUndoAttempt(c5).value;
    var c7 := DoRefundAttempt(c6).value;
    assert c7 == c;
    TwoSteps([UndoAttempt, RefundAttempt], c5, c6, c7);
  }

  lemma SettledAttempt(c5: Cell, result: OperationResult, elapsed: real, c7: Cell)
    requires c5.attempt.InFlight? && c5.attempt.phase.Recorded? && c5.attempt.step < |c5.attempt.running.steps|
    requires c5.live.Some? && c5.live.value.state == c5.attempt.running
    requires var outcome := Outcome(c5.attempt.running, c5.attempt.step, result);
             c7 == (if outcome.Some? then WithState(c5, outcome.value) else c5).(
                   attempt := Idle, log := c5.log + [Dispatched(c5.attempt.step)] + [Returned(c5.attempt.step, result)],
                   allowance := if result.Escaped? then c5.allowance else ElapsedIfAny(c5.allowance, elapsed))
    ensures Exec(c5, [Dispatch, Return(result, elapsed)]) == Some(c7)
  {
    var c6 := DoDispatch(c5).value;
    assert DoReturn(c6, result, elapsed) == Some(c7);
    TwoSteps([Dispatch, Return(result, elapsed)], c5, c6, c7);
  }

  lemma AttemptIsARun(c: Cell, k: nat, running: ExecutionState, inp: AdvanceInputs)
    requires Resting(c) && CourseOf(c, inp) == Attempt(k, running)
    ensures k < |running.steps|
    ensures var run := AttemptRun(inp);
            if !inp.checkpointLands || Outcome(running, k, inp.result).None?
            then Exec(c, run) == Some(AttemptedCell(c, k, running, inp))
            else Exec(c, run + [BeginSave(ForOthers, 0), EndSave(0, inp.finalSaveLands)]) == Some(AttemptedCell(c, k, running, inp))
  {
    BeginFollowsCourse(c, k, running, inp);
    CheckpointedCell(c, k, running, inp.operation, inp.checkpointLands);
    var first := [BeginAttempt(inp.operation), ChargeAttempt, CommitAttempt, BeginSave(ForAttempt, 0), EndSave(0, inp.checkpointLands)];
    var c5 := Exec(c, first).value;
    if inp.checkpointLands {
      var outcome := Outcome(running, k, inp.result);
      var c7 := (if outcome.Some? then WithState(c5, outcome.value) else c5).(
                attempt := Idle, log := c5.log + [Dispatched(k)] + [Returned(k, inp.result)],
                allowance := if inp.result.Escaped? then c5.allowance else ElapsedIfAny(c5.allowance, inp.elapsed));
      SettledAttempt(c5, inp.result, inp.elapsed, c7);
      ExecConcat(c, first, [Dispatch, Return(inp.result, inp.elapsed)]);
      if outcome.Some? {
        SaveIsARun(c7, inp.finalSaveLands);
        ExecConcat(c, AttemptRun(inp), [BeginSave(ForOthers, 0), EndSave(0, inp.finalSaveLands)]);
      }
    } else {
      UndoneAttempt(c, c5, k, running);
      ExecConcat(c, first, [UndoAttempt, RefundAttempt]);
    }
  }

  lemma AttemptEndsRested(c: Cell, k: nat, running: ExecutionState, inp: AdvanceInputs)
    requires Sound(c) && c.live.Some? && k < |running.steps|
    ensures var n := AttemptedCell(c, k, running, inp); Resting(n) && n.started && !n.withdrawn
  {
  }

  lemma RunIsSound(c: Cell, run: seq<Action>, n: Cell)
    requires Sound(c) && Exec(c, run) == Some(n) && Resting(n) && n.started && !n.withdrawn
    requires forall i :: 0 <= i < |run| && run[i].EndSave? ==> run[i].key == 0
    ensures Sound(n)
  {
    assert c.saves.overtaken == {};
    hide Inv, Chain, Exec;
    OneSaveAtATime(c, run);
    RunKeepsChain(c, run);
  }

  lemma AttemptIsSound(c: Cell, k: nat, running: ExecutionState, inp: AdvanceInputs)
    requires Sound(c) && CourseOf(c, inp) == Attempt(k, running)
    ensures k < |running.steps| && Sound(AttemptedCell(c, k, running, inp))
  {
    hide Exec, CourseOf, AttemptedCell, Outcome, Inv, Chain;
    StartedStep(c, k, running, inp);
    AttemptIsARun(c, k, running, inp);
    AttemptEndsRested(c, k, running, inp);
    if !inp.checkpointLands || Outcome(running, k, inp.result).None? {
      RunIsSound(c, AttemptRun(inp), AttemptedCell(c, k, running, inp));
    } else {
      RunIsSound(c, AttemptRun(inp) + [BeginSave(ForOthers, 0), EndSave(0, inp.finalSaveLands)], AttemptedCell(c, k, running, inp));
    }
  }

  lemma SetAsideRests(c: Cell, a: Action)
    requires Resting(c) && (a.HoldStep? || a.RefuseStep? || a.PauseStep?) && DoSetAside(c, a).Some?
    ensures Resting(DoSetAside(c, a).value) && DoSetAside(c, a).value.started == c.started
  {
  }

  lemma ReplacementIsSound(c: Cell, a: Action, lands: bool)
    requires Sound(c) && (a.HoldStep? || a.RefuseStep? || a.PauseStep?) && DoSetAside(c, a).Some?
    ensures Sound(Saved(DoSetAside(c, a).value, lands))
  {
    SetAsideKeepsInv(c, a);
    SetAsideRests(c, a);
    SavedIsSound(DoSetAside(c, a).value, lands);
  }

  lemma DecisionKeepsChain(c: Cell, n: Cell)
    requires Chain(c) && Resting(c) && n.saves == c.saves && n.stored == c.stored && n.withdrawn == c.withdrawn
    requires Follows(Current(c), Current(n)) && Keyed(Current(n))
    ensures Chain(n)
  {
    if !c.withdrawn {
      FollowsIsTransitive(c.stored, Current(c), Current(n));
    }
  }

  lemma SetAsideKeepsInv(c: Cell, a: Action)
    requires Inv(c) && Chain(c) && Resting(c) && (a.HoldStep? || a.RefuseStep? || a.PauseStep?) && DoSetAside(c, a).Some?
    ensures Inv(DoSetAside(c, a).value) && Chain(DoSetAside(c, a).value)
  {
    ReplacingKeepsInv(c, a);
    SetAsideFollows(c, a);
    DecisionKeepsChain(c, DoSetAside(c, a).value);
  }

  /** Every advance keeps every promise of the protocol. */
  lemma AdvanceIsSound(c: Cell, inp: AdvanceInputs)
    requires Sound(c)
    ensures Sound(AdvanceCell(c, inp))
  {
    var course := CourseOf(c, inp);
    match course
    case Attempt(k, running) => AttemptIsSound(c, k, running, inp);
    case Hold =>
      if DoSetAside(c, HoldStep(inp.note)).Some? {
        ReplacementIsSound(c, HoldStep(inp.note), inp.finalSaveLands);
      }
    case Refuse =>
      if DoSetAside(c, RefuseStep(inp.note)).Some? {
        ReplacementIsSound(c, RefuseStep(inp.note), inp.finalSaveLands);
      }
    case SeekAuthority =>
      if c.live.value.runId.Some? {
        var a := PauseStep(c.live.value.plan.content, c.live.value.runId.value, inp.note);
        if DoSetAside(c, a).Some? {
          ReplacementIsSound(c, a, inp.finalSaveLands);
        }
      }
    case _ =>
  }

  lemma BesideAdvanceIsSound(other: Cell, c: Cell, inp: AdvanceInputs)
    requires Sound(other)
    ensures Sound(BesideAdvance(other, c, inp))
  {
    hide Inv, Chain, CourseOf, Outcome, BlockStep, RefuseAdvance, RequireAuthority;
    SavedIsSound(other, inp.finalSaveLands);
    SavedIsSound(other, true);
    SavedIsSound(Saved(other, true), inp.finalSaveLands);
  }

  // -- what one advance means ---------------------------------------------------------

  /** The change of one step between two states. */
  predicate LeftPending(before: Cell, after: Cell, k: nat) {
    && before.live.Some? && after.live.Some?
    && k < |before.live.value.state.steps| && k < |after.live.value.state.steps|
    && before.live.value.state.steps[k].status.Pending? && !after.live.value.state.steps[k].status.Pending?
  }

  function SpendOf(a: Option<Allowance>): Spend {
    if a.Some? then a.value.spend else NothingSpent
  }

  lemma OutcomeSettlesTheStep(running: ExecutionState, k: nat, result: OperationResult)
    requires k < |running.steps| && Outcome(running, k, result).Some?
    ensures var after := Outcome(running, k, result).value;
            && |after.steps| == |running.steps|
            && !after.steps[k].status.Pending?
            && (after.steps[k].status.Completed? <==> result.PerformedSucceeded?)
            && forall j :: 0 <= j < |running.steps| && j != k ==> after.steps[j] == running.steps[j]
  {
  }

  lemma StartedStep(c: Cell, k: nat, running: ExecutionState, inp: AdvanceInputs)
    requires CourseOf(c, inp) == Attempt(k, running)
    ensures c.live.Some? && NextPending(c.live.value.state) == Some(k) && k < |running.steps| == |c.live.value.state.steps|
    ensures running.steps[k].status.Running? && c.live.value.state.steps[k].status.Pending?
    ensures forall j :: 0 <= j < |running.steps| && j != k ==> running.steps[j] == c.live.value.state.steps[j]
  {
  }

  /** The states an attempt leaves: what `AttemptedCell` did to the live state, in one line. */
  lemma AttemptedState(c: Cell, k: nat, running: ExecutionState, inp: AdvanceInputs)
    requires CourseOf(c, inp) == Attempt(k, running) && k < |running.steps| && inp.checkpointLands && c.live.Some?
    ensures var n := AttemptedCell(c, k, running, inp);
            var outcome := Outcome(running, k, inp.result);
            && n.live.Some? && n.live.value.state == (if outcome.Some? then outcome.value else running)
            && n.log == c.log + [Dispatched(k)] + [Returned(k, inp.result)]
            && (c.allowance.Some? ==> n.allowance.Some? && SpendOf(n.allowance).(seconds := 0.0)
                                      == PlusAttempt(SpendOf(c.allowance), StepCost(c.origin, k)).(seconds := 0.0))
  {
  }

  lemma SetAsideSpendsNothing(c: Cell, inp: AdvanceInputs)
    requires !CourseOf(c, inp).Attempt?
    ensures AdvanceCell(c, inp).log == c.log && AdvanceCell(c, inp).allowance == c.allowance
  {
  }

  /** An advance either dispatches exactly the next pending step, once, and charges exactly its cost;
      or dispatches nothing and leaves the allowance exactly as it was. */
  lemma AdvanceChargesWhatItDispatches(c: Cell, inp: AdvanceInputs)
    ensures var n := AdvanceCell(c, inp);
            if CourseOf(c, inp).Attempt? && inp.checkpointLands then
              var k := CourseOf(c, inp).step;
              && c.live.Some? && NextPending(c.live.value.state) == Some(k)
              && n.log == c.log + [Dispatched(k)] + [Returned(k, inp.result)]
              && LeftPending(c, n, k)
              && (c.allowance.Some? ==> n.allowance.Some? && SpendOf(n.allowance).(seconds := 0.0)
                                        == PlusAttempt(SpendOf(c.allowance), StepCost(c.origin, k)).(seconds := 0.0))
            else n.log == c.log && n.allowance == c.allowance
  {
    match CourseOf(c, inp)
    case Attempt(k, running) =>
      StartedStep(c, k, running, inp);
      if inp.checkpointLands {
        AttemptedState(c, k, running, inp);
        if Outcome(running, k, inp.result).Some? {
          OutcomeSettlesTheStep(running, k, inp.result);
        }
      }
    case _ => SetAsideSpendsNothing(c, inp);
  }

  /** What holding, refusing or pausing does to the steps: at most the next pending one becomes blocked. */
  lemma SetAsideCompletesNothing(c: Cell, inp: AdvanceInputs)
    requires c.live.Some? && !CourseOf(c, inp).Attempt?
    ensures var n := AdvanceCell(c, inp);
            && n.live.Some? && |n.live.value.state.steps| == |c.live.value.state.steps|
            && forall j :: 0 <= j < |c.live.value.state.steps| ==>
                 || n.live.value.state.steps[j] == c.live.value.state.steps[j]
                 || (n.live.value.state.steps[j].status.Blocked? && NextPending(c.live.value.state) == Some(j) && CourseOf(c, inp).Hold?)
  {
  }

  /** A step that cannot be performed holds the whole execution blocked; one that is refused for its cost
      or lacks authority strands nothing: it stays the next pending step of a running execution. */
  lemma SettingAsideMeans(c: Cell, inp: AdvanceInputs)
    requires c.live.Some? && AdvanceCell(c, inp).live != c.live && !CourseOf(c, inp).Attempt?
    ensures AdvanceCell(c, inp).live.Some? && NextPending(c.live.value.state).Some?
    ensures var before, after, k := c.live.value.state, AdvanceCell(c, inp).live.value.state, NextPending(c.live.value.state).value;
            if CourseOf(c, inp).Hold?
            then after.status.Blocked? && after.steps[k].status.Blocked?
            else after.status.Running? && after.steps == before.steps && NextPending(after) == Some(k)
                 && (CourseOf(c, inp).Refuse? <==> after.refusal == Some(Refusal(k, inp.note)) && after.refusal.Some? && after.pause.None?)
  {
  }

  /** A step completed by an advance was the next pending one, dispatched in it and seen to succeed. */
  lemma AdvanceCompletesOnlySuccess(c: Cell, inp: AdvanceInputs, k: nat)
    requires c.live.Some? && k < |c.live.value.state.steps|
    ensures var n := AdvanceCell(c, inp);
            && n.live.Some? && |n.live.value.state.steps| == |c.live.value.state.steps|
            && (n.live.value.state.steps[k].status.Completed? <==>
                  || c.live.value.state.steps[k].status.Completed?
                  || (CourseOf(c, inp).Attempt? && CourseOf(c, inp).step == k && inp.checkpointLands
                      && Outcome(CourseOf(c, inp).running, k, inp.result).Some? && inp.result.PerformedSucceeded?))
  {
    match CourseOf(c, inp)
    case Attempt(j, running) =>
      StartedStep(c, j, running, inp);
      if inp.checkpointLands {
        AttemptedState(c, j, running, inp);
        if Outcome(running, j, inp.result).Some? {
          OutcomeSettlesTheStep(running, j, inp.result);
        }
      }
    case _ => SetAsideCompletesNothing(c, inp);
  }

  /** The only step an advance can take out of the pending ones is the next pending one; it never
      makes a step pending. */
  lemma AdvanceMovesOnlyTheNextStep(c: Cell, inp: AdvanceInputs)
    requires c.live.Some?
    ensures var n := AdvanceCell(c, inp);
            && n.live.Some? && |n.live.value.state.steps| == |c.live.value.state.steps|
            && forall j :: 0 <= j < |c.live.value.state.steps| ==>
                 && (n.live.value.state.steps[j].status.Pending? ==> c.live.value.state.steps[j].status.Pending?)
                 && (NextPending(c.live.value.state) != Some(j) ==> n.live.value.state.steps[j] == c.live.value.state.steps[j])
  {
    hide CourseOf, Outcome, BlockStep, RefuseAdvance, RequireAuthority;
    match CourseOf(c, inp)
    case Attempt(k, running) =>
      StartedStep(c, k, running, inp);
      if inp.checkpointLands {
        AttemptedState(c, k, running, inp);
        if Outcome(running, k, inp.result).Some? {
          OutcomeSettlesTheStep(running, k, inp.result);
        }
      }
    case _ => SetAsideCompletesNothing(c, inp);
  }

  /** An advance after which another step is next has taken the one before it out of the pending ones. */
  lemma AnotherStepIsNext(c: Cell, inp: AdvanceInputs, k: nat)
    requires c.live.Some? && NextPending(c.live.value.state) == Some(k)
    ensures var n := AdvanceCell(c, inp);
            n.live.Some? && k < |n.live.value.state.steps|
            && (NextPending(n.live.value.state) == Some(k) <==> n.live.value.state.steps[k].status.Pending?)
            && forall j :: 0 <= j < k ==> !n.live.value.state.steps[j].status.Pending?
  {
    hide AdvanceCell;
    AdvanceMovesOnlyTheNextStep(c, inp);
  }

  // -- an attempt nobody records the end of ----------------------------------------------

  /** A result no transition takes: an exception the advance does not foresee, a text longer than a step
      may carry, or work claimed for an operation without a name. */
  predicate Unrecordable(result: OperationResult, operation: string) {
    result.Escaped? || |result.detail| > MAX_DETAIL
    || (operation == "" && (result.PerformedFailed? || result.PerformedSucceeded?))
  }

  lemma OutcomeIffRecordable(running: ExecutionState, k: nat, result: OperationResult)
    requires k < |running.steps| && running.status.Running? && running.steps[k].status.Running?
    ensures Outcome(running, k, result).None? <==> Unrecordable(result, running.steps[k].operation)
    ensures Outcome(running, k, result).Some? ==>
              |Outcome(running, k, result).value.steps| == |running.steps| && !Outcome(running, k, result).value.steps[k].status.Running?
  {
  }

  lemma BegunStep(st: ExecutionState, k: nat, operation: string)
    requires StartStep(st, k, operation).Some?
    ensures var running := StartStep(st, k, operation).value;
            k < |running.steps| && running.status.Running? && running.steps[k].status.Running? && running.steps[k].operation == operation
  {
  }

  lemma NoneRuns(a: ExecutionState, b: ExecutionState)
    requires RunningStep(a).None? && |a.steps| == |b.steps|
    requires forall j :: 0 <= j < |a.steps| ==> b.steps[j] == a.steps[j] || !b.steps[j].status.Running?
    ensures RunningStep(b).None?
  {
  }

  lemma AttemptCourse(c: Cell, inp: AdvanceInputs)
    requires CourseOf(c, inp).Attempt?
    ensures c.live.Some? && Some(CourseOf(c, inp).running) == StartStep(c.live.value.state, CourseOf(c, inp).step, inp.operation)
  {
  }

  /** From an execution with no step running, an advance leaves one running if and only if its operation
      was dispatched and what came of it cannot be recorded: it escaped, or its text is too long. The
      step stays so until a restart finds it interrupted. */
  lemma StepLeftRunningIff(c: Cell, inp: AdvanceInputs)
    requires c.live.Some? && RunningStep(c.live.value.state).None?
    ensures var n := AdvanceCell(c, inp);
            n.live.Some? && (RunningStep(n.live.value.state).Some? <==>
                               CourseOf(c, inp).Attempt? && inp.checkpointLands && Unrecordable(inp.result, inp.operation))
  {
    match CourseOf(c, inp)
    case Attempt(k, running) =>
      AttemptCourse(c, inp);
      BegunStep(c.live.value.state, k, inp.operation);
      StartedStep(c, k, running, inp);
      OutcomeIffRecordable(running, k, inp.result);
      hide CourseOf, StartStep, Unrecordable;
      if inp.checkpointLands {
        AttemptedState(c, k, running, inp);
        if Outcome(running, k, inp.result).Some? {
          OutcomeSettlesTheStep(running, k, inp.result);
          NoneRuns(c.live.value.state, Outcome(running, k, inp.result).value);
        }
      }
    case _ =>
      SetAsideCompletesNothing(c, inp);
      NoneRuns(c.live.value.state, AdvanceCell(c, inp).live.value.state);
  }
}
