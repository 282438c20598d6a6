/** What the history of one execution says: which dispatch is still unanswered for,
    what was dispatched in total, and which completions were seen. */
module Histories {
  import opened Options
  import opened Allowances
  import opened Plans
  import opened ExecutionStates
  import opened Snapshots
  import opened AttemptProtocol

  /** Step `k` was dispatched, and no ruling since says that attempt never ran. */
  predicate Outstanding(log: seq<Event>, k: nat) {
    if log == [] then false
    else
      match log[|log| - 1]
      case Dispatched(j) => j == k || Outstanding(log[..|log| - 1], k)
      case Ruled(j, ruling) => !(j == k && ruling.NotPerformed?) && Outstanding(log[..|log| - 1], k)
      case _ => Outstanding(log[..|log| - 1], k)
  }

  /** The declared cost of everything ever dispatched. */
  function Used(log: seq<Event>, o: PlanContent): Spend {
    if log == [] then NothingSpent
    else
      var before := Used(log[..|log| - 1], o);
      match log[|log| - 1]
      case Dispatched(k) => PlusAttempt(before, StepCost(o, k))
      case _ => before
  }

  /** The operation of step `k` ran and succeeded, or its own result was found on record. */
  predicate Proven(log: seq<Event>, k: nat) {
    exists i :: 0 <= i < |log| && ((log[i].Returned? && log[i].step == k && log[i].result.PerformedSucceeded?)
                                   || log[i] == FoundOnRecord(k))
  }

  /** Between two dispatches of one step an operator ruled that it had not been performed. */
  predicate AtMostOnce(log: seq<Event>) {
    forall i, j :: 0 <= i < j < |log| && log[i].Dispatched? && log[j] == log[i] ==>
      exists m :: i < m < j && log[m] == Ruled(log[i].step, NotPerformed)
  }

  /** What one more event changes. */
  lemma Appending(log: seq<Event>, e: Event, o: PlanContent)
    ensures Used(log + [e], o) == if e.Dispatched? then PlusAttempt(Used(log, o), StepCost(o, e.step)) else Used(log, o)
    ensures forall k :: Outstanding(log + [e], k) ==
                          if e.Dispatched? && e.step == k then true
                          else if e == Ruled(k, NotPerformed) then false
                          else Outstanding(log, k)
    ensures forall k :: Proven(log, k) ==> Proven(log + [e], k)
    ensures e.Returned? && e.result.PerformedSucceeded? ==> Proven(log + [e], e.step)
    ensures e.FoundOnRecord? ==> Proven(log + [e], e.step)
  {
    assert (log + [e])[..|log + [e]| - 1] == log;
    forall k | Proven(log, k) ensures Proven(log + [e], k) {
      var i :| 0 <= i < |log| && ((log[i].Returned? && log[i].step == k && log[i].result.PerformedSucceeded?) || log[i] == FoundOnRecord(k));
      assert (log + [e])[i] == log[i];
    }
    assert (log + [e])[|log|] == e;
  }

  /** Every dispatch counts as one step and at the declared cost of the step it dispatched; nothing else counts. */
  lemma UsedLaw(log: seq<Event>, e: Event, o: PlanContent)
    ensures Used([], o) == Spend(0, 0, 0, 0.0)
    ensures var (before, after) := (Used(log, o), Used(log + [e], o));
            && after.steps == before.steps + (if e.Dispatched? then 1 else 0) && after.seconds == before.seconds
            && after.network == before.network + (if e.Dispatched? && e.step < |o.steps| then CostFor(o.steps[e.step].capability).network else 0)
            && after.llm == before.llm + (if e.Dispatched? && e.step < |o.steps| then CostFor(o.steps[e.step].capability).llm else 0)
  {
    Appending(log, e, o);
  }

  lemma {:induction false} AnsweredFor(log: seq<Event>, k: nat, i: nat)
    requires !Outstanding(log, k)
    requires i < |log| && log[i] == Dispatched(k)
    ensures exists m :: i < m < |log| && log[m] == Ruled(k, NotPerformed)
  {
    var last := log[|log| - 1];
    if last == Ruled(k, NotPerformed) {
      assert i < |log| - 1;
    } else {
      var init := log[..|log| - 1];
      assert i < |log| - 1;
      AnsweredFor(init, k, i);
      var m :| i < m < |init| && init[m] == Ruled(k, NotPerformed);
      assert log[m] == init[m];
    }
  }

  /** Dispatching a step that is not outstanding keeps every step at most once. */
  lemma DispatchKeepsAtMostOnce(log: seq<Event>, k: nat)
    requires AtMostOnce(log) && !Outstanding(log, k)
    ensures AtMostOnce(log + [Dispatched(k)])
  {
    var after := log + [Dispatched(k)];
    forall i, j | 0 <= i < j < |after| && after[i].Dispatched? && after[j] == after[i]
      ensures exists m :: i < m < j && after[m] == Ruled(after[i].step, NotPerformed)
    {
      if j < |log| {
        var m :| i < m < j && log[m] == Ruled(log[i].step, NotPerformed);
        assert after[m] == log[m];
      } else {
        AnsweredFor(log, k, i);
        var m :| i < m < |log| && log[m] == Ruled(k, NotPerformed);
        assert after[m] == log[m];
      }
    }
  }

  lemma OtherEventKeepsAtMostOnce(log: seq<Event>, e: Event)
    requires AtMostOnce(log) && !e.Dispatched?
    ensures AtMostOnce(log + [e])
  {
    var after := log + [e];
    forall i, j | 0 <= i < j < |after| && after[i].Dispatched? && after[j] == after[i]
      ensures exists m :: i < m < j && after[m] == Ruled(after[i].step, NotPerformed)
    {
      assert j < |log|;
      var m :| i < m < j && log[m] == Ruled(log[i].step, NotPerformed);
      assert after[m] == log[m];
    }
  }
}
