/** What a document that lands late does to the money: when the record it leaves in the store still
    counts everything that was dispatched. */
module LateLandings {
  import opened Options
  import opened Allowances
  import opened Plans
  import opened ExecutionStates
  import opened Snapshots
  import opened AttemptProtocol
  import opened Histories
  import opened ProtocolSafety
  import opened DurableHistory
  import opened ProtocolTheorems
  import opened OverlappingAdvances

  function DispatchesIn(run: seq<Action>): nat {
    if run == [] then 0 else (if run[0].Dispatch? then 1 else 0) + DispatchesIn(run[1..])
  }

  lemma {:induction false} RunUses(c: Cell, run: seq<Action>)
    requires Exec(c, run).Some? && forall i :: 0 <= i < |run| ==> !run[i].Crash?
    ensures var n := Exec(c, run).value;
            UsedGrows(c, n) && Used(n.log, n.origin).steps == Used(c.log, c.origin).steps + DispatchesIn(run)
    decreases |run|
  {
    hide Next, Used;
    if run == [] {
      UsedTakesNoTime(c.log, c.origin);
    } else {
      StepGrows(c, run[0]);
      RunUses(Next(c, run[0]).value, run[1..]);
    }
  }

  /** What was paid covers what was used before and is used since, each cost separately. */
  predicate PaidAhead(paid: Spend, before: Spend, since: Spend) {
    && before.steps + since.steps <= paid.steps
    && before.network + since.network <= paid.network
    && before.llm + since.llm <= paid.llm
  }

  lemma {:induction false} UsedAdds(log: seq<Event>, more: seq<Event>, o: PlanContent)
    ensures var all, before, since := Used(log + more, o), Used(log, o), Used(more, o);
            && all.steps == before.steps + since.steps && all.network == before.network + since.network && all.llm == before.llm + since.llm
    decreases |more|
  {
    hide Used, StepCost;
    if more == [] {
      assert log + more == log;
      assert Used([], o) == NothingSpent by { NothingUsed(o); }
    } else {
      var init, last := more[..|more| - 1], more[|more| - 1];
      assert log + more == (log + init) + [last] && more == init + [last];
      UsedAdds(log, init, o);
      UsedAppends(log + init, last, o);
      UsedAppends(init, last, o);
    }
  }

  lemma NothingUsed(o: PlanContent)
    ensures Used([], o) == NothingSpent
  {
  }

  lemma {:induction false} RunExtends(c: Cell, run: seq<Action>)
    requires Exec(c, run).Some? && forall i :: 0 <= i < |run| ==> !run[i].Crash?
    ensures c.log <= Exec(c, run).value.log && Exec(c, run).value.origin == c.origin
    decreases |run|
  {
    hide Next;
    if run != [] {
      StepOwes(c, run[0]);
      RunExtends(Next(c, run[0]).value, run[1..]);
    }
  }

  lemma CoversIffPaidAhead(c: Cell, now: Cell, paid: Spend)
    requires c.log <= now.log && now.origin == c.origin
    ensures Covers(paid, Used(now.log, now.origin)) <==> PaidAhead(paid, Used(c.log, c.origin), Used(now.log[|c.log|..], c.origin))
  {
    hide Used;
    assert now.log == c.log + now.log[|c.log|..];
    UsedAdds(c.log, now.log[|c.log|..], c.origin);
  }

  lemma WaitsForDispatch(c: Cell, a: Action)
    requires ChargeStands(c.attempt) && Next(c, a).Some? && !a.Crash? && !a.RefundAttempt? && !a.Dispatch?
    ensures var n := Next(c, a).value; ChargeStands(n.attempt) && n.attempt.step == c.attempt.step
  {
    hide Outcome, StartStep, BlockStep, RefuseAdvance, RequireAuthority, Rebound, ReboundState, Cancel, ResolveInterrupted, RecoverBlocked,
         StartedLive, Held, Permitted, Current, Landed, Ended;
  }

  lemma SameUsedSameOwed(c: Cell, n: Cell)
    requires UsedGrows(c, n) && Used(n.log, n.origin).steps == Used(c.log, c.origin).steps
    requires ChargeStands(c.attempt) && ChargeStands(n.attempt) && n.attempt.step == c.attempt.step
    ensures Owed(n) == Owed(c)
  {
  }

  /** An attempt charged for and not given back is the next to be dispatched. */
  lemma {:induction false} FirstDispatchIsOwed(c: Cell, run: seq<Action>)
    requires ChargeStands(c.attempt) && Exec(c, run).Some?
    requires forall i :: 0 <= i < |run| ==> !run[i].Crash? && !run[i].RefundAttempt?
    ensures DispatchesIn(run) == 1 ==> Used(Exec(c, run).value.log, Exec(c, run).value.origin) == Owed(c)
    decreases |run|
  {
    hide Next, Used, ChargeStands, Owed;
    if run != [] {
      var n := Next(c, run[0]).value;
      if run[0].Dispatch? {
        DispatchIsNext(c);
        RunUses(n, run[1..]);
      } else {
        WaitsForDispatch(c, run[0]);
        StepGrows(c, run[0]);
        SameUsedSameOwed(c, n);
        FirstDispatchIsOwed(n, run[1..]);
      }
    }
  }

  lemma DispatchIsNext(c: Cell)
    requires ChargeStands(c.attempt) && Next(c, Dispatch).Some?
    ensures Used(Next(c, Dispatch).value.log, Next(c, Dispatch).value.origin) == Owed(c)
  {
    hide Used, StepCost;
    UsedAppends(c.log, Dispatched(c.attempt.step), c.origin);
  }

  /** What was paid covers what is used now if and only if nothing was dispatched since but the attempt
      already paid for. */
  lemma PaidThenStillCounts(c: Cell, run: seq<Action>, read: Allowance)
    requires Exec(c, run).Some? && forall i :: 0 <= i < |run| ==> !run[i].Crash?
    requires read.spend.(seconds := 0.0) == Owed(c)
    requires ChargeStands(c.attempt) ==> forall i :: 0 <= i < |run| ==> !run[i].RefundAttempt?
    ensures Covers(read.spend, Used(Exec(c, run).value.log, Exec(c, run).value.origin)) <==>
            DispatchesIn(run) <= if ChargeStands(c.attempt) then 1 else 0
  {
    hide Exec, Used;
    RunUses(c, run);
    UsedTakesNoTime(c.log, c.origin);
    if ChargeStands(c.attempt) {
      FirstDispatchIsOwed(c, run);
    }
  }

  lemma CaptureKeepsOwed(c: Cell, owner: SaveOwner, key: nat)
    requires DoBeginSave(c, owner, key).Some? && c.live.Some?
    ensures var n := DoBeginSave(c, owner, key).value;
            && Owed(n) == Owed(c) && (ChargeStands(n.attempt) <==> ChargeStands(c.attempt))
            && n.log == c.log && n.origin == c.origin && key in n.saves.docs && n.saves.docs[key] == Some(Capture(c.live.value, c.allowance))
  {
    hide Capture, Used;
  }

  lemma LandsAsCaptured(c: Cell, key: nat, l: Live, read: Allowance)
    requires key in c.saves.docs && c.saves.docs[key] == Some(Capture(l, Some(read)))
    ensures DoEndSave(c, key, true).Some?
    ensures CountsAll(DoEndSave(c, key, true).value.stored, read.budget, Used(c.log, c.origin)) <==> Covers(read.spend, Used(c.log, c.origin))
  {
  }

  /** A document captures what an execution has paid; anything but a crash and its own end happens; it lands.
      The record it leaves counts everything if and only if the cost of what was dispatched since fits into
      what had been paid ahead of use. So there is room for as many dispatches as steps had been paid ahead;
      and where exactly what was owed had been paid, it counts everything if and only if nothing was
      dispatched since the capture but the attempt already charged for then. */
  lemma LateLandingCountsIff(c: Cell, owner: SaveOwner, key: nat, capturing: Cell, run: seq<Action>, now: Cell, read: Allowance)
    requires c.live.Some? && c.allowance == Some(read) && DoBeginSave(c, owner, key) == Some(capturing)
    requires Exec(capturing, run) == Some(now)
    requires forall i :: 0 <= i < |run| ==> !run[i].Crash? && !(run[i].EndSave? && run[i].key == key)
    ensures DoEndSave(now, key, true).Some?
    ensures var counts := CountsAll(DoEndSave(now, key, true).value.stored, read.budget, Used(now.log, now.origin));
            && c.log <= now.log && Used(now.log[|c.log|..], c.origin).steps == DispatchesIn(run)
            && (counts <==> PaidAhead(read.spend, Used(c.log, c.origin), Used(now.log[|c.log|..], c.origin)))
            && (counts ==> DispatchesIn(run) <= read.spend.steps - Used(c.log, c.origin).steps)
            && (read.spend.(seconds := 0.0) == Owed(c)
                && (ChargeStands(c.attempt) ==> forall i :: 0 <= i < |run| ==> !run[i].RefundAttempt?) ==>
                  (counts <==> DispatchesIn(run) <= if ChargeStands(c.attempt) then 1 else 0))
  {
    hide Exec, Used, Owed, ChargeStands, DoBeginSave, DoEndSave, CountsAll;
    CaptureKeepsOwed(c, owner, key);
    CaptureStands(capturing, run, key);
    LandsAsCaptured(now, key, c.live.value, read);
    RunUses(capturing, run);
    RunExtends(capturing, run);
    CoversIffPaidAhead(capturing, now, read.spend);
    UsedAdds(c.log, now.log[|c.log|..], c.origin);
    assert c.log + now.log[|c.log|..] == now.log;
    if read.spend.(seconds := 0.0) == Owed(c) && (ChargeStands(c.attempt) ==> forall i :: 0 <= i < |run| ==> !run[i].RefundAttempt?) {
      PaidThenStillCounts(capturing, run, read);
    }
  }
}
