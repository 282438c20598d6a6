/** A cancellation stands in memory whatever its save does. Whether it outlives the process depends on
    which document landed last, in whatever order the saves of that process landed. */
module Cancellations {
  import opened Options
  import opened Plans
  import opened ExecutionStates
  import opened Snapshots
  import opened AttemptProtocol
  import opened DurableHistory
  import opened AnyRuns
  import opened ProtocolTheorems

  predicate SaysClosed(sn: Option<Snapshot>) { sn.Some? && sn.value.record.status.Terminal() }

  predicate SaysCancelled(sn: Option<Snapshot>) { sn.Some? && sn.value.record.status.Cancelled? }

  predicate LiveCancelled(c: Cell) { c.live.Some? && c.live.value.state.status.Cancelled? }

  // -- nothing is closed before memory is --------------------------------------------------

  /** Neither the store nor any document on its way there says closed what memory holds open. */
  predicate Trails(c: Cell) {
    && (SaysClosed(c.stored) ==> SaysClosed(Current(c)))
    && forall key :: key in c.saves.docs && SaysClosed(c.saves.docs[key]) ==> SaysClosed(Current(c))
  }

  lemma ClosedIsCurrent(c: Cell)
    requires c.live.Some?
    ensures SaysClosed(Current(c)) <==> Closed(c)
  {
  }

  /** Once memory says closed, it does so for the rest of the process. */
  lemma StaysSaid(c: Cell, a: Action)
    requires OpenOnly(c) && OnlyStarted(c) && SaysClosed(Current(c)) && Next(c, a).Some? && !a.Crash?
    ensures SaysClosed(Current(Next(c, a).value))
  {
    if c.live.Some? {
      ClosedIsCurrent(c);
      StepKeepsClosed(c, a);
      ClosedIsCurrent(Next(c, a).value);
    } else {
      StaysRestored(c, a);
    }
  }

  lemma StaysRestored(c: Cell, a: Action)
    requires OnlyStarted(c) && c.live.None? && SaysClosed(c.restored) && Next(c, a).Some? && !a.Crash?
    ensures Next(c, a).value.live.None? && Next(c, a).value.restored == c.restored
  {
    hide Outcome, StartStep, Reconciled, ReboundState, Permitted, Held, Current, Landed, Ended, StartedLive;
  }

  lemma RestartTrails(c: Cell)
    ensures Trails(DoCrash(c)) && (SaysCancelled(DoCrash(c).restored) <==> SaysCancelled(c.stored))
  {
  }

  lemma StepTrails(c: Cell, a: Action)
    requires OpenOnly(c) && OnlyStarted(c) && Trails(c) && Next(c, a).Some?
    ensures Trails(Next(c, a).value)
  {
    hide Next, SaysClosed, Current, OpenOnly, OnlyStarted;
    if a.Crash? {
      CrashTrails(c, a);
    } else {
      StepTouches(c, a);
      if SaysClosed(Current(c)) {
        StaysSaid(c, a);
      }
    }
  }

  lemma CrashTrails(c: Cell, a: Action)
    requires a.Crash? && Next(c, a).Some?
    ensures Trails(Next(c, a).value)
  {
    RestartTrails(c);
  }

  lemma {:induction false} RunTrails(c: Cell, run: seq<Action>)
    requires OpenOnly(c) && OnlyStarted(c) && Trails(c) && Exec(c, run).Some?
    ensures Trails(Exec(c, run).value)
    decreases |run|
  {
    hide Next, OpenOnly, OnlyStarted, Trails;
    if run != [] {
      StepStaysOpen(c, run[0]);
      StepStaysStarted(c, run[0]);
      StepTrails(c, run[0]);
      RunTrails(Next(c, run[0]).value, run[1..]);
    }
  }

  lemma AttainableTrails(c: Cell)
    requires Attainable(c)
    ensures Trails(c)
  {
    var o: PlanContent, run: seq<Action> :| Exec(Fresh(o), run) == Some(c);
    RunTrails(Fresh(o), run);
  }

  // -- what the last landing says -----------------------------------------------------------

  /** The last save of the run to land captured within it, or is one of the `begun` ones; when none
      lands, what was said before stands. */
  predicate LastLandedIsOwn(run: seq<Action>, begun: set<nat>, before: bool)
    decreases |run|
  {
    if run == [] then before
    else
      match run[0]
      case BeginSave(_, key) => LastLandedIsOwn(run[1..], begun + {key}, before)
      case EndSave(key, lands) => LastLandedIsOwn(run[1..], begun - {key}, if lands then key in begun else before)
      case _ => LastLandedIsOwn(run[1..], begun, before)
  }

  function BegunAfter(a: Action, begun: set<nat>): set<nat> {
    match a
    case BeginSave(_, key) => begun + {key}
    case EndSave(key, _) => begun - {key}
    case _ => begun
  }

  /** Exactly the saves begun since the cancellation hold it. */
  predicate Sorted(docs: map<nat, Option<Snapshot>>, begun: set<nat>) {
    begun <= docs.Keys && forall i :: i in docs ==> (SaysCancelled(docs[i]) <==> i in begun)
  }

  lemma CaptureHolds(c: Cell)
    ensures LiveCancelled(c) ==> SaysCancelled(Current(c))
  {
  }

  lemma StaysCancelled(c: Cell, a: Action)
    requires OpenOnly(c) && OnlyStarted(c) && LiveCancelled(c) && Next(c, a).Some? && !a.Crash?
    ensures LiveCancelled(Next(c, a).value)
  {
    hide OpenOnly, OnlyStarted, Next;
    StepKeepsClosed(c, a);
  }

  lemma StepSorts(c: Cell, a: Action, begun: set<nat>)
    requires LiveCancelled(c) && Next(c, a).Some? && !a.Crash? && Sorted(c.saves.docs, begun)
    ensures var n := Next(c, a).value;
            && Sorted(n.saves.docs, BegunAfter(a, begun))
            && (SaysCancelled(n.stored) <==> if a.EndSave? && a.lands then a.key in begun else SaysCancelled(c.stored))
  {
    hide DoBeginSave, DoEndSave, SaysCancelled, Current;
    CaptureHolds(c);
    match a
    case BeginSave(owner, key) => CaptureLeavesTheStore(c, owner, key);
    case EndSave(key, lands) => EndTouchesTheStore(c, key, lands);
    case _ => OthersLeaveTheStore(c, a);
  }

  lemma {:induction false} RunSorts(c: Cell, run: seq<Action>, begun: set<nat>)
    requires OpenOnly(c) && OnlyStarted(c) && LiveCancelled(c) && Exec(c, run).Some? && Sorted(c.saves.docs, begun)
    requires forall i :: 0 <= i < |run| ==> !run[i].Crash?
    ensures SaysCancelled(Exec(c, run).value.stored) <==> LastLandedIsOwn(run, begun, SaysCancelled(c.stored))
    decreases |run|
  {
    hide OpenOnly, OnlyStarted, Next, SaysCancelled, Sorted;
    if run != [] {
      StepStaysOpen(c, run[0]);
      StepStaysStarted(c, run[0]);
      StaysCancelled(c, run[0]);
      StepSorts(c, run[0], begun);
      RunSorts(Next(c, run[0]).value, run[1..], BegunAfter(run[0], begun));
    }
  }

  /** Nothing saved or being saved holds a cancellation that has only just been made. */
  lemma NothingHoldsItYet(c: Cell, detail: string)
    requires Trails(c) && OpenOnly(c) && OnlyStarted(c) && DoCancel(c, detail).Some?
    ensures var n := DoCancel(c, detail).value;
            LiveCancelled(n) && Sorted(n.saves.docs, {}) && !SaysCancelled(n.stored) && OpenOnly(n) && OnlyStarted(n)
  {
    StepStaysOpen(c, CancelExecution(detail));
    StepStaysStarted(c, CancelExecution(detail));
    assert Current(c).Some? && !SaysClosed(Current(c));
  }

  /** A cancellation comes back after a restart if and only if the last document to land since it was made
      was captured since it was made. This is over every run, with saves landing in any order. */
  lemma CancellationSurvivesIffSaved(c: Cell, detail: string, run: seq<Action>)
    requires Attainable(c) && DoCancel(c, detail).Some? && Exec(DoCancel(c, detail).value, run).Some?
    requires forall i :: 0 <= i < |run| ==> !run[i].Crash?
    ensures SaysCancelled(DoCrash(Exec(DoCancel(c, detail).value, run).value).restored) <==> LastLandedIsOwn(run, {}, false)
  {
    hide *;
    AttainableIsOpen(c);
    AttainableTrails(c);
    NothingHoldsItYet(c, detail);
    RunSorts(DoCancel(c, detail).value, run, {});
    RestartTrails(Exec(DoCancel(c, detail).value, run).value);
  }
}
