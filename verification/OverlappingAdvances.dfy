/** Two advances of one execution at once. The code lets a second one read, charge and commit while the
    first is under way; whichever loses the compare-and-set puts back the allowance it had read. Here is
    exactly when that forgets what the other one spent. */
module OverlappingAdvances {
  import opened Options
  import opened Allowances
  import opened Plans
  import opened ExecutionStates
  import opened Snapshots
  import opened AttemptProtocol
  import opened Histories
  import opened ProtocolSafety
  import opened ProtocolTheorems
  import opened Overlaps

  /** A cell and the locals of a second advance. */
  datatype Twofold = Twofold(cell: Cell, rival: Attempt)

  datatype Move = First(a: Action) | Second(a: Action)

  /** Either advance takes its own steps on what they share; the second is only ever seen to charge, to
      commit, and to give back. */
  function Moved(t: Twofold, m: Move): Option<Twofold> {
    match m
    case First(a) =>
      var n := Next(t.cell, a);
      if n.None? then None else Some(Twofold(n.value, if a.Crash? then Idle else t.rival))
    case Second(a) =>
      if !(a.ChargeAttempt? || a.CommitAttempt? || a.RefundAttempt?) then None
      else
        var n := Next(t.cell.(attempt := t.rival), a);
        if n.None? then None else Some(Twofold(n.value.(attempt := t.cell.attempt), n.value.attempt))
  }

  function Moves(t: Twofold, run: seq<Move>): Option<Twofold>
    decreases |run|
  {
    if run == [] then Some(t)
    else
      var n := Moved(t, run[0]);
      if n.None? then None else Moves(n.value, run[1..])
  }

  /** The first advance has charged and neither dispatched nor given back. */
  predicate ChargeStands(attempt: Attempt) { attempt.InFlight? && HasCharged(attempt.phase) }

  /** What the allowance has to count: everything dispatched, and the attempt already charged for. */
  function Owed(c: Cell): Spend {
    if ChargeStands(c.attempt) then PlusAttempt(Used(c.log, c.origin), StepCost(c.origin, c.attempt.step)) else Used(c.log, c.origin)
  }

  /** Charges of the first advance less those it gave back itself. */
  function Standing(run: seq<Move>): int {
    if run == [] then 0
    else (if run[0] == First(ChargeAttempt) then 1 else if run[0] == First(RefundAttempt) then -1 else 0) + Standing(run[1..])
  }

  /** `n` may follow `c`: what is used only grows, and by nothing when no attempt is added. */
  predicate UsedGrows(c: Cell, n: Cell) {
    && n.origin == c.origin
    && Covers(Used(n.log, n.origin), Used(c.log, c.origin))
    && Used(c.log, c.origin).seconds == 0.0 == Used(n.log, n.origin).seconds
    && (Used(n.log, n.origin).steps == Used(c.log, c.origin).steps ==> Used(n.log, n.origin) == Used(c.log, c.origin))
  }

  lemma UsedTakesNoTime(log: seq<Event>, o: PlanContent)
    ensures Used(log, o).seconds == 0.0
  {
  }

  /** How one step moves what is owed. */
  lemma StepOwes(c: Cell, a: Action)
    requires Next(c, a).Some? && !a.Crash?
    ensures var n := Next(c, a).value;
            && n.origin == c.origin
            && (n.log == c.log || exists e :: n.log == c.log + [e] && (e.Dispatched? <==> a.Dispatch?))
            && (a.Dispatch? ==> n.log == c.log + [Dispatched(c.attempt.step)])
            && (if ChargeStands(n.attempt) then 1 else 0) - (if ChargeStands(c.attempt) then 1 else 0)
               == if a.ChargeAttempt? then 1 else if a.RefundAttempt? || a.Dispatch? then -1 else 0
  {
    hide Outcome, StartStep, BlockStep, RefuseAdvance, RequireAuthority, Rebound, ReboundState, Cancel, ResolveInterrupted, RecoverBlocked,
         StartedLive, Held, Permitted, Current, Landed, Ended;
    assert a.Resolve? ==> Next(c, a).value.log == c.log + [Ruled(a.step, a.ruling)];
    assert a.Return? ==> Next(c, a).value.log == c.log + [Returned(c.attempt.step, a.result)];
  }

  lemma UsedAppends(log: seq<Event>, e: Event, o: PlanContent)
    ensures Used(log + [e], o) == if e.Dispatched? then PlusAttempt(Used(log, o), StepCost(o, e.step)) else Used(log, o)
  {
    assert (log + [e])[..|log|] == log;
  }

  lemma StepGrows(c: Cell, a: Action)
    requires Next(c, a).Some? && !a.Crash?
    ensures UsedGrows(c, Next(c, a).value)
    ensures Used(Next(c, a).value.log, Next(c, a).value.origin).steps == Used(c.log, c.origin).steps + if a.Dispatch? then 1 else 0
  {
    hide Next, ChargeStands, Used, StepCost;
    StepOwes(c, a);
    var n := Next(c, a).value;
    UsedTakesNoTime(c.log, c.origin);
    UsedTakesNoTime(n.log, n.origin);
    if n.log != c.log {
      var e :| n.log == c.log + [e] && (e.Dispatched? <==> a.Dispatch?);
      UsedAppends(c.log, e, c.origin);
    }
  }

  lemma SecondTouchesNothing(t: Twofold, a: Action)
    requires Moved(t, Second(a)).Some?
    ensures var n := Moved(t, Second(a)).value;
            n.cell.log == t.cell.log && n.cell.origin == t.cell.origin && n.cell.attempt == t.cell.attempt
  {
    hide Commit, StepCost, ChargedIfAny;
    assert Commit(t.cell.(attempt := t.rival), t.rival.before, t.rival.running).log == t.cell.log by {
      CommitKeepsLog(t.cell.(attempt := t.rival), t.rival);
    }
    CommitKeepsLog(t.cell.(attempt := t.rival), t.rival);
  }

  lemma CommitKeepsLog(c: Cell, r: Attempt)
    ensures r.InFlight? ==> Commit(c, r.before, r.running).log == c.log && Commit(c, r.before, r.running).origin == c.origin
  {
  }

  lemma {:induction false} MovesGrow(t: Twofold, run: seq<Move>)
    requires Moves(t, run).Some? && forall i :: 0 <= i < |run| ==> run[i] != First(Crash)
    ensures var n := Moves(t, run).value;
            && UsedGrows(t.cell, n.cell)
            && Used(n.cell.log, n.cell.origin).steps + (if ChargeStands(n.cell.attempt) then 1 else 0)
               == Used(t.cell.log, t.cell.origin).steps + (if ChargeStands(t.cell.attempt) then 1 else 0) + Standing(run)
    decreases |run|
  {
    hide Next, Used, ChargeStands;
    if run == [] {
      UsedTakesNoTime(t.cell.log, t.cell.origin);
    } else {
      var n := Moved(t, run[0]).value;
      match run[0] {
        case First(a) =>
          StepGrows(t.cell, a);
          StepOwes(t.cell, a);
        case Second(a) =>
          SecondTouchesNothing(t, a);
          UsedTakesNoTime(t.cell.log, t.cell.origin);
      }
      MovesGrow(n, run[1..]);
    }
  }

  /** The second advance's own locals: what it read, until it has given that back. */
  predicate Reads(rival: Attempt, read: Allowance) { rival.InFlight? ==> rival.allowance == Some(read) }

  lemma MoveKeepsRead(t: Twofold, m: Move, read: Allowance)
    requires Reads(t.rival, read) && Moved(t, m).Some?
    ensures Reads(Moved(t, m).value.rival, read)
    ensures m == Second(RefundAttempt) ==> Moved(t, m).value.cell.allowance == Some(read)
  {
    hide Next, Commit, StepCost;
    match m {
      case First(_) =>
      case Second(a) => RivalKeepsRead(t.cell.(attempt := t.rival), a, read);
    }
  }

  lemma RivalKeepsRead(c: Cell, a: Action, read: Allowance)
    requires Reads(c.attempt, read) && (a.ChargeAttempt? || a.CommitAttempt? || a.RefundAttempt?) && Next(c, a).Some?
    ensures Reads(Next(c, a).value.attempt, read)
    ensures a.RefundAttempt? ==> Next(c, a).value.allowance == Some(read)
  {
  }

  lemma {:induction false} GivesBackWhatItRead(t: Twofold, run: seq<Move>, read: Allowance)
    requires Reads(t.rival, read) && Moves(t, run).Some? && run != [] && run[|run| - 1] == Second(RefundAttempt)
    ensures Moves(t, run).value.cell.allowance == Some(read)
    decreases |run|
  {
    hide Moved;
    MoveKeepsRead(t, run[0], read);
    if |run| > 1 {
      assert run[1..][|run[1..]| - 1] == run[|run| - 1];
      GivesBackWhatItRead(Moved(t, run[0]).value, run[1..], read);
    } else {
      assert run[1..] == [];
    }
  }

  /** The locals of an advance that reads now, whatever else is under way. */
  function SecondReads(c: Cell, operation: string): Option<Attempt> {
    var n := DoBeginAttempt(c.(attempt := Idle), operation);
    if n.None? then None else Some(n.value.attempt)
  }

  /** A second advance reads, charges, loses the compare-and-set and gives back, with anything but a crash
      in between. What it puts back leaves uncounted exactly the charges the first advance made since the
      read and did not give back itself: it covers everything owed, in steps, if and only if there was room
      for them already; and where everything paid for had been used, it covers what is owed if and only if
      no such charge stands. */
  lemma OverlappingAdvanceForgetsACharge(c: Cell, operation: string, run: seq<Move>, read: Allowance)
    requires SecondReads(c, operation).Some? && c.allowance == Some(read) && !ChargeStands(c.attempt)
    requires Moves(Twofold(c, SecondReads(c, operation).value), run).Some?
    requires forall i :: 0 <= i < |run| ==> run[i] != First(Crash)
    requires run != [] && run[|run| - 1] == Second(RefundAttempt)
    ensures var end, used := Moves(Twofold(c, SecondReads(c, operation).value), run).value.cell, Used(c.log, c.origin);
            && end.allowance == Some(read) && Standing(run) >= 0
            && (Owed(end).steps <= read.spend.steps <==> Standing(run) <= read.spend.steps - used.steps)
            && (read.spend.(seconds := 0.0) == used ==> (Covers(end.allowance.value.spend, Owed(end)) <==> Standing(run) == 0))
  {
    var t := Twofold(c, SecondReads(c, operation).value);
    SecondReadsIt(c, operation);
    hide Moves, SecondReads, Used;
    GivesBackWhatItRead(t, run, read);
    MovesGrow(t, run);
    UsedTakesNoTime(c.log, c.origin);
  }

  lemma SecondReadsIt(c: Cell, operation: string)
    requires SecondReads(c, operation).Some?
    ensures SecondReads(c, operation).value.InFlight? && SecondReads(c, operation).value.allowance == c.allowance
    ensures SecondReads(c, operation).value.phase.Prepared? && SecondReads(c, operation).value.before == c.live.value.state && c.live.Some?
  {
    hide StartStep, Permitted;
  }

  // -- such a run exists wherever an advance may begin --------------------------------------

  function AsFirst(run: seq<Action>): seq<Move> {
    seq(|run|, i requires 0 <= i < |run| => First(run[i]))
  }

  lemma {:induction false} FirstAlone(c: Cell, rival: Attempt, run: seq<Action>)
    requires Exec(c, run).Some? && forall i :: 0 <= i < |run| ==> !run[i].Crash?
    ensures Moves(Twofold(c, rival), AsFirst(run)) == Some(Twofold(Exec(c, run).value, rival))
    decreases |run|
  {
    hide Next;
    if run != [] {
      FirstAlone(Next(c, run[0]).value, rival, run[1..]);
      assert AsFirst(run)[1..] == AsFirst(run[1..]);
    }
  }

  lemma {:induction false} MovesConcat(t: Twofold, a: seq<Move>, b: seq<Move>)
    requires Moves(t, a).Some?
    ensures Moves(t, a + b) == Moves(Moves(t, a).value, b)
    decreases |a|
  {
    hide Moved;
    if a == [] {
      assert a + b == b;
    } else {
      assert (a + b)[1..] == a[1..] + b;
      MovesConcat(Moved(t, a[0]).value, a[1..], b);
    }
  }

  const LosingSecond := [Second(ChargeAttempt), Second(CommitAttempt), Second(RefundAttempt)]

  lemma ChargesThenLoses(t: Twofold)
    requires t.rival.InFlight? && t.rival.phase.Prepared? && t.rival.allowance.Some?
    requires t.cell.live.Some? && t.cell.live.value.state != t.rival.before
    ensures var t1 := Moved(t, Second(ChargeAttempt));
            && t1.Some? && t1.value.cell == t.cell.(allowance := t1.value.cell.allowance) && t1.value.rival == t.rival.(phase := Charged)
            && var t2 := Moved(t1.value, Second(CommitAttempt));
               t2.Some? && t2.value.cell == t1.value.cell && t2.value.rival == t.rival.(phase := Refunding)
  {
    hide StepCost;
  }

  lemma RefundsWhatItRead(t: Twofold)
    requires t.rival.InFlight? && t.rival.phase.Refunding? && t.rival.allowance.Some?
    ensures var n := Moved(t, Second(RefundAttempt)); n.Some? && n.value.cell == t.cell.(allowance := t.rival.allowance)
  {
  }

  lemma SecondLoses(t: Twofold)
    requires t.rival.InFlight? && t.rival.phase.Prepared? && t.rival.allowance.Some?
    requires t.cell.live.Some? && t.cell.live.value.state != t.rival.before
    ensures Moves(t, LosingSecond).Some?
    ensures Moves(t, LosingSecond).value.cell == t.cell.(allowance := t.rival.allowance)
  {
    hide Moves, Moved;
    ChargesThenLoses(t);
    var t1 := Moved(t, Second(ChargeAttempt)).value;
    var t2 := Moved(t1, Second(CommitAttempt)).value;
    RefundsWhatItRead(t2);
    var t3 := Moved(t2, Second(RefundAttempt)).value;
    ThreeMoves(t, t1, t2, t3, LosingSecond);
  }

  lemma ThreeMoves(t0: Twofold, t1: Twofold, t2: Twofold, t3: Twofold, run: seq<Move>)
    requires |run| == 3 && Moved(t0, run[0]) == Some(t1) && Moved(t1, run[1]) == Some(t2) && Moved(t2, run[2]) == Some(t3)
    ensures Moves(t0, run) == Some(t3)
  {
    hide Moved;
    assert run[1..][1..] == run[2..] && run[2..][1..] == [];
    assert Moves(t3, []) == Some(t3);
    assert Moves(t2, run[2..]) == Moves(t3, run[2..][1..]);
    assert Moves(t1, run[1..]) == Moves(t2, run[1..][1..]);
  }

  /** Wherever an advance may begin, a second one that read the same state and allowance can put back that
      allowance once the first one's operation is with the provider: as if it had cost nothing. */
  lemma SecondAdvanceErasesADispatch(c: Cell, operation: string, key: nat)
    requires DoBeginAttempt(c, operation).Some? && c.allowance.Some? && forall j :: j in c.saves.docs ==> j < key
    ensures SecondReads(c, operation).Some? && Advanceable(c).Some?
    ensures var end := Moves(Twofold(c, SecondReads(c, operation).value), AsFirst(ToDispatch(operation, key)) + LosingSecond);
            end.Some? && end.value.cell.allowance == c.allowance && end.value.cell.log == c.log + [Dispatched(Advanceable(c).value)]
  {
    ReadsTheSame(c, operation);
    SecondReadsIt(c, operation);
    AdvanceReachesDispatch(c, operation, key);
    hide Moves, Exec, SecondReads, DoBeginAttempt, Advanceable;
    var run, rival := ToDispatch(operation, key), SecondReads(c, operation).value;
    FirstAlone(c, rival, run);
    SecondLoses(Twofold(Exec(c, run).value, rival));
    MovesConcat(Twofold(c, rival), AsFirst(run), LosingSecond);
  }

  lemma ReadsTheSame(c: Cell, operation: string)
    requires DoBeginAttempt(c, operation).Some?
    ensures SecondReads(c, operation).Some?
  {
    assert c.(attempt := Idle) == c;
  }
}
