/** Which request identities the executions carry, live or durable, and what keeps them apart. */
module MissionRequests {
  import opened Options
  import opened Allowances
  import opened Plans
  import opened ExecutionStates
  import opened Snapshots
  import opened AttemptProtocol
  import opened ProtocolSafety
  import opened DurableHistory
  import opened SequentialAdvance
  import opened SequentialDecisions
  import opened ExecutionMemory
  import A = Approvals

  function InSnapshot(sn: Option<Snapshot>): set<string> {
    if sn.Some? && sn.value.requestId.Some? then {sn.value.requestId.value} else {}
  }

  function InLive(l: Option<Live>): set<string> {
    if l.Some? && l.value.requestId.Some? then {l.value.requestId.value} else {}
  }

  /** Every request identity one execution carries: in memory, restored, or in the store. */
  function Carried(c: Cell): set<string> { InLive(c.live) + InSnapshot(c.restored) + InSnapshot(c.stored) }

  /** No two executions carry the same request identity. */
  ghost predicate Unique(cells: map<string, Cell>) {
    forall a, b :: a in cells && b in cells && a != b ==> Carried(cells[a]) !! Carried(cells[b])
  }

  /** A save taken now keeps the request identity in the store. */
  predicate Lasting(c: Cell) {
    InSnapshot(c.stored) <= InSnapshot(Current(c)) && Keyed(c.stored) && Keyed(Current(c))
  }

  /** It carries no request identity it did not carry before, and the same approved budget; and what the
      store carried it still does. */
  predicate SameIdentity(before: Cell, after: Cell) {
    && Carried(after) <= Carried(before) && after.approved == before.approved
    && (Lasting(before) ==> Lasting(after) && InSnapshot(before.stored) <= InSnapshot(after.stored))
  }

  ghost predicate RequestsKept(before: map<string, Cell>, after: map<string, Cell>) {
    after.Keys == before.Keys && forall id :: id in before ==> SameIdentity(before[id], after[id])
  }

  /** Every request identity some execution carries. */
  ghost function Identities(cells: map<string, Cell>): set<string> {
    set id, x | id in cells && x in Carried(cells[id]) :: x
  }

  /** What the execution carries is durable, and trimmed. */
  predicate Steady(c: Cell) {
    Carried(c) == InSnapshot(c.stored) && Lasting(c) && forall x :: x in Carried(c) ==> Trimmed(x) == x
  }

  ghost predicate AllSteady(cells: map<string, Cell>) {
    forall id :: id in cells ==> Steady(cells[id])
  }

  lemma NothingDoneKeeps(cells: map<string, Cell>)
    ensures RequestsKept(cells, cells)
  {
  }

  lemma KeptIsTransitive(a: map<string, Cell>, b: map<string, Cell>, c: map<string, Cell>)
    requires RequestsKept(a, b) && RequestsKept(b, c)
    ensures RequestsKept(a, c)
  {
    forall id | id in a ensures SameIdentity(a[id], c[id]) {
      assert SameIdentity(a[id], b[id]) && SameIdentity(b[id], c[id]);
    }
  }

  lemma KeptCarriesTheSame(before: Cell, after: Cell)
    requires Steady(before) && SameIdentity(before, after)
    ensures Steady(after) && Carried(after) == Carried(before)
  {
  }

  /** Requests that keep identities neither lose one that is durable nor bring one in. */
  lemma KeptStaysSteady(before: map<string, Cell>, after: map<string, Cell>)
    requires RequestsKept(before, after) && AllSteady(before)
    ensures AllSteady(after) && Identities(after) == Identities(before) && (Unique(after) <==> Unique(before))
  {
    hide Steady, SameIdentity, Carried;
    forall id | id in before ensures Steady(after[id]) && Carried(after[id]) == Carried(before[id]) {
      KeptCarriesTheSame(before[id], after[id]);
    }
    SameCarriedSameUnique(before, after);
  }

  lemma SameCarriedSameUnique(a: map<string, Cell>, b: map<string, Cell>)
    requires b.Keys == a.Keys && forall id :: id in a ==> Carried(b[id]) == Carried(a[id])
    ensures Identities(b) == Identities(a) && (Unique(b) <==> Unique(a))
  {
    hide Carried;
  }

  lemma KeptStaysBacked(before: map<string, Cell>, after: map<string, Cell>, saved: map<string, A.Authorization>)
    requires RequestsKept(before, after) && AllBacked(before, saved)
    ensures AllBacked(after, saved) && after.Keys == before.Keys
  {
    forall id | id in after && after[id].approved.Some? ensures BackedBy(saved, id, after[id].approved.value) {
      assert SameIdentity(before[id], after[id]);
    }
  }

  lemma SavingCarries(c: Cell, lands: bool)
    ensures SameIdentity(c, Saved(c, lands))
  {
  }

  lemma SavingAllKeeps(cells: map<string, Cell>, lands: bool)
    ensures RequestsKept(cells, SavedAll(cells, lands))
  {
    forall id | id in cells ensures SameIdentity(cells[id], SavedAll(cells, lands)[id]) {
      SavingCarries(cells[id], lands);
    }
  }

  lemma ReplacingCarries(c: Cell, st: ExecutionState)
    requires c.live.Some?
    ensures SameIdentity(c, WithState(c, st)) && SameIdentity(WithState(c, st), c)
  {
  }

  lemma AttemptCarries(c: Cell, k: nat, running: ExecutionState, inp: AdvanceInputs)
    requires c.live.Some? && k < |running.steps|
    ensures SameIdentity(c, AttemptedCell(c, k, running, inp))
  {
    var charged := ChargedCell(c, k, running);
    var returned := ReturnedCell(Saved(charged, true), k, inp);
    ReplacingCarries(c, running);
    assert SameIdentity(c, charged);
    SavingCarries(charged, true);
    assert SameIdentity(Saved(charged, true), returned);
    var outcome := Outcome(running, k, inp.result);
    if outcome.Some? {
      ReplacingCarries(returned, outcome.value);
      SavingCarries(WithState(returned, outcome.value), inp.finalSaveLands);
    }
  }

  lemma ReplacementCarries(c: Cell, st: Option<ExecutionState>, lands: bool)
    requires c.live.Some?
    ensures SameIdentity(c, ReplacedAndSaved(c, st, lands))
  {
    if st.Some? {
      ReplacingCarries(c, st.value);
      SavingCarries(WithState(c, st.value), lands);
    }
  }

  lemma AdvanceCarries(c: Cell, inp: AdvanceInputs)
    ensures SameIdentity(c, AdvanceCell(c, inp))
  {
    var course := CourseOf(c, inp);
    match course
    case Attempt(k, running) =>
      StartedStep(c, k, running, inp);
      AttemptCarries(c, k, running, inp);
    case Hold => ReplacementCarries(c, BlockStep(c.live.value.state, NextPending(c.live.value.state).value, inp.note), inp.finalSaveLands);
    case Refuse => ReplacementCarries(c, RefuseAdvance(c.live.value.state, NextPending(c.live.value.state).value, inp.note), inp.finalSaveLands);
    case SeekAuthority =>
      if c.live.value.runId.Some? {
        ReplacementCarries(c, RequireAuthority(c.live.value.state, NextPending(c.live.value.state).value, c.live.value.plan.content,
                                               c.live.value.runId.value, inp.note), inp.finalSaveLands);
      }
    case _ =>
  }

  lemma BesideCarries(other: Cell, c: Cell, inp: AdvanceInputs)
    ensures SameIdentity(other, BesideAdvance(other, c, inp))
  {
    hide CourseOf, Saved;
    SavingCarries(other, inp.finalSaveLands);
    SavingCarries(other, true);
    SavingCarries(Saved(other, true), inp.finalSaveLands);
  }

  lemma AdvancingKeeps(cells: map<string, Cell>, id: string, inp: AdvanceInputs)
    requires id in cells
    ensures RequestsKept(cells, AfterAdvance(cells, id, inp))
  {
    forall other | other in cells ensures SameIdentity(cells[other], AfterAdvance(cells, id, inp)[other]) {
      AdvanceCarries(cells[id], inp);
      BesideCarries(cells[other], cells[id], inp);
    }
  }

  lemma RebindCarries(c: Cell, plan: Plan, runId: string, ctx: RebindContext, lands: bool)
    ensures SameIdentity(c, ReboundCell(c, plan, runId, ctx, lands))
  {
    var n := DoRebind(c, plan, runId, ctx);
    if n.Some? {
      assert SameIdentity(c, n.value);
      SavingCarries(n.value, lands);
    }
  }

  lemma RebindingKeeps(cells: map<string, Cell>, id: string, plan: Plan, runId: string, ctx: RebindContext, lands: bool)
    requires id in cells
    ensures RequestsKept(cells, AfterRebind(cells, id, plan, runId, ctx, lands))
  {
    forall other | other in cells ensures SameIdentity(cells[other], AfterRebind(cells, id, plan, runId, ctx, lands)[other]) {
      RebindCarries(cells[id], plan, runId, ctx, lands);
      SavingCarries(cells[other], lands);
    }
  }

  lemma CancellingKeeps(cells: map<string, Cell>, id: string, lands: bool)
    requires id in cells && DoCancel(cells[id], CANCELLED_BY_USER).Some?
    ensures RequestsKept(cells, SavedAll(cells[id := DoCancel(cells[id], CANCELLED_BY_USER).value], lands))
  {
    var n := DoCancel(cells[id], CANCELLED_BY_USER).value;
    SavingAllKeeps(cells[id := n], lands);
    assert SameIdentity(cells[id], n);
    hide DoCancel;
    assert RequestsKept(cells, cells[id := n]);
    KeptIsTransitive(cells, cells[id := n], SavedAll(cells[id := n], lands));
  }

  /** A decision differs from what it was made on in the state, the rulings and the history only. */
  lemma DecidingKeeps(cells: map<string, Cell>, id: string, decided: Option<Cell>, lands: bool)
    requires id in cells && (decided.Some? ==> SameIdentity(cells[id], decided.value))
    ensures RequestsKept(cells, AfterDecision(cells, id, decided, lands))
  {
    forall other | other in cells ensures SameIdentity(cells[other], AfterDecision(cells, id, decided, lands)[other]) {
      SavingCarries(cells[other], lands);
      if decided.Some? && decided.value.live.Some? && cells[id].live.Some? {
        SavingCarries(decided.value, lands);
        CommittingCarries(Saved(decided.value, lands), decided.value.live.value.state, cells[id].live.value.state);
      }
    }
  }

  lemma CommittingCarries(c: Cell, expected: ExecutionState, st: ExecutionState)
    ensures SameIdentity(c, Commit(c, expected, st))
  {
  }

  lemma ResolvingCarries(c: Cell, k: nat, ruling: Resolution, moment: int)
    requires DoResolve(c, k, ruling, moment).Some?
    ensures SameIdentity(c, DoResolve(c, k, ruling, moment).value)
  {
  }

  lemma RecoveringCarries(c: Cell, k: nat, recovery: Recovery)
    requires DoRecover(c, k, recovery).Some?
    ensures SameIdentity(c, DoRecover(c, k, recovery).value)
  {
  }

  /** A restart keeps what the store carries and forgets the rest. */
  lemma RestartingKeeps(history: map<string, Cell>)
    ensures RequestsKept(history, map id | id in history :: DoCrash(history[id]))
  {
  }

  /** A restart carries exactly the identities that were carried before: those were durable. */
  lemma RestartStaysUnique(history: map<string, Cell>)
    requires AllSteady(history)
    ensures var after := map id | id in history :: DoCrash(history[id]);
            AllSteady(after) && Identities(after) == Identities(history) && (Unique(after) <==> Unique(history))
  {
    RestartingKeeps(history);
    KeptStaysSteady(history, map id | id in history :: DoCrash(history[id]));
  }

  /** The identity a started goal carries from then on: only a mission has one, once its first save landed. */
  function StartCarries(plan: Plan, requestId: string, inp: StartInputs): set<string> {
    if plan.content.mission.Some? && inp.firstLands then {Trimmed(requestId)} else {}
  }

  lemma BegunCarries(plan: Plan, budget: Budget, ctx: Context, requestId: string, inp: StartInputs)
    ensures var begun := BegunCell(plan, Some(budget), ctx.runId, ctx.disclosure, Some(Trimmed(requestId)));
            var after := AfterStart(map[], begun, plan.planId, inp);
            && plan.planId in after && Steady(after[plan.planId]) && Carried(after[plan.planId]) == StartCarries(plan, requestId, inp)
  {
    TrimmingTwice(requestId);
  }

  lemma StartsElsewhere(cells: map<string, Cell>, begun: Cell, id: string, inp: StartInputs)
    requires begun.live.Some? && AllSteady(cells) && id !in cells
    ensures var after := AfterStart(cells, begun, id, inp);
            && after.Keys == cells.Keys + {id} && id in AfterStart(map[], begun, id, inp)
            && after[id] == AfterStart(map[], begun, id, inp)[id]
            && forall other :: other in cells ==> Steady(after[other]) && Carried(after[other]) == Carried(cells[other])
  {
    hide Steady, Carried;
    var after := AfterStart(cells, begun, id, inp);
    forall other | other in cells ensures Steady(after[other]) && Carried(after[other]) == Carried(cells[other]) {
      SavedStaysSteady(cells[other], inp.lands);
      SavedStaysSteady(cells[other], true);
      SavedStaysSteady(Saved(cells[other], true), inp.lands);
    }
  }

  lemma SavedStaysSteady(c: Cell, lands: bool)
    requires Steady(c)
    ensures Steady(Saved(c, lands)) && Carried(Saved(c, lands)) == Carried(c)
  {
    SavingCarries(c, lands);
    KeptCarriesTheSame(c, Saved(c, lands));
  }

  lemma OneMoreIsUnique(cells: map<string, Cell>, after: map<string, Cell>, id: string)
    requires id !in cells && after.Keys == cells.Keys + {id}
    requires forall other :: other in cells ==> Carried(after[other]) == Carried(cells[other])
    ensures Identities(after) == Identities(cells) + Carried(after[id])
    ensures Unique(after) <==> Unique(cells) && Carried(after[id]) !! Identities(cells)
  {
    hide Carried;
    if Unique(after) {
      forall a, b | a in cells && b in cells && a != b ensures Carried(cells[a]) !! Carried(cells[b]) {
        assert Carried(after[a]) !! Carried(after[b]);
      }
      forall x | x in Identities(cells) ensures x !in Carried(after[id]) {
        var other :| other in cells && x in Carried(cells[other]);
        assert Carried(after[other]) !! Carried(after[id]);
      }
    }
    if Unique(cells) && Carried(after[id]) !! Identities(cells) {
      forall a, b | a in after && b in after && a != b ensures Carried(after[a]) !! Carried(after[b]) {
        if a in cells && b in cells {
          assert Carried(cells[a]) !! Carried(cells[b]);
        } else if a in cells {
          assert Carried(cells[a]) <= Identities(cells);
        } else {
          assert Carried(cells[b]) <= Identities(cells);
        }
      }
    }
  }

  /** A started goal carries its trimmed identity if it is a mission whose first save landed, and none
      otherwise. So identities stay apart if and only if no execution carries that one already. */
  lemma StartingAdds(cells: map<string, Cell>, plan: Plan, budget: Budget, ctx: Context, requestId: string, inp: StartInputs)
    requires AllSteady(cells) && plan.planId !in cells
    ensures var after := AfterStart(cells, BegunCell(plan, Some(budget), ctx.runId, ctx.disclosure, Some(Trimmed(requestId))), plan.planId, inp);
            && AllSteady(after) && Identities(after) == Identities(cells) + StartCarries(plan, requestId, inp)
            && (Unique(after) <==> Unique(cells) && StartCarries(plan, requestId, inp) !! Identities(cells))
  {
    var begun := BegunCell(plan, Some(budget), ctx.runId, ctx.disclosure, Some(Trimmed(requestId)));
    BegunIsBare(plan, Some(budget), ctx.runId, ctx.disclosure, Some(Trimmed(requestId)));
    hide BegunCell, AfterStart, Steady, Carried, StartCarries, Unique, Identities;
    BegunCarries(plan, budget, ctx, requestId, inp);
    StartsElsewhere(cells, begun, plan.planId, inp);
    OneMoreIsUnique(cells, AfterStart(cells, begun, plan.planId, inp), plan.planId);
  }

  /** A start that is no goal brings no request identity in. */
  lemma OtherStartAddsNone(cells: map<string, Cell>, plan: Plan, budget: Option<Budget>, ctx: Context, inp: StartInputs)
    requires AllSteady(cells) && plan.planId !in cells
    ensures var after := AfterStart(cells, BegunCell(plan, budget, ctx.runId, ctx.disclosure, None), plan.planId, inp);
            AllSteady(after) && Identities(after) == Identities(cells) && (Unique(after) <==> Unique(cells))
  {
    var begun := BegunCell(plan, budget, ctx.runId, ctx.disclosure, None);
    BegunIsBare(plan, budget, ctx.runId, ctx.disclosure, None);
    OtherBegunCarriesNone(plan, budget, ctx, inp);
    hide BegunCell, AfterStart, Steady, Carried, Unique, Identities;
    StartsElsewhere(cells, begun, plan.planId, inp);
    OneMoreIsUnique(cells, AfterStart(cells, begun, plan.planId, inp), plan.planId);
  }

  lemma OtherBegunCarriesNone(plan: Plan, budget: Option<Budget>, ctx: Context, inp: StartInputs)
    ensures var after := AfterStart(map[], BegunCell(plan, budget, ctx.runId, ctx.disclosure, None), plan.planId, inp);
            plan.planId in after && Steady(after[plan.planId]) && Carried(after[plan.planId]) == {}
  {
  }

  // -- request identities as they are compared and as they are stored --------------------------

  const MAX_GOAL_REQUESTS: nat := 50
  const MAX_REQUEST_CHARACTERS: nat := 200

  predicate Blank(c: char) { c == ' ' || c == '\t' || c == '\n' || c == '\r' }

  function TrimmedLeft(s: string): (r: string)
    ensures |r| <= |s|
  {
    if s != "" && Blank(s[0]) then TrimmedLeft(s[1..]) else s
  }

  function TrimmedRight(s: string): (r: string)
    ensures |r| <= |s|
  {
    if s != "" && Blank(s[|s| - 1]) then TrimmedRight(s[..|s| - 1]) else s
  }

  /** The form in which an identity becomes durable. */
  function Trimmed(s: string): string { TrimmedRight(TrimmedLeft(s)) }

  /** A goal request is accepted when its identity, as sent, is usable and was not seen before. */
  predicate Acceptable(requestId: string, known: set<string>) {
    && Trimmed(requestId) != "" && |requestId| <= MAX_REQUEST_CHARACTERS
    && requestId !in known && |known| < MAX_GOAL_REQUESTS
  }

  predicate AllBlank(s: string) { forall i :: 0 <= i < |s| ==> s[i] in " \t\n\r" }

  lemma {:induction false} TrimmedLeftIsASuffix(s: string) returns (i: nat)
    ensures i <= |s| && TrimmedLeft(s) == s[i..] && AllBlank(s[..i]) && (i < |s| ==> !AllBlank([s[i]]))
  {
    i := 0;
    if s != "" && Blank(s[0]) {
      var j := TrimmedLeftIsASuffix(s[1..]);
      i := j + 1;
      assert s[1..][j..] == s[i..] && s[..i] == [s[0]] + s[1..][..j];
    } else if s != "" {
      assert [s[0]][0] == s[0];
    }
  }

  lemma {:induction false} TrimmedRightIsAPrefix(s: string) returns (j: nat)
    ensures j <= |s| && TrimmedRight(s) == s[..j] && AllBlank(s[j..]) && (j > 0 ==> !AllBlank([s[j - 1]]))
  {
    j := |s|;
    if s != "" && Blank(s[|s| - 1]) {
      j := TrimmedRightIsAPrefix(s[..|s| - 1]);
      assert s[..|s| - 1][..j] == s[..j] && s[j..] == s[..|s| - 1][j..] + [s[|s| - 1]];
    } else if s != "" {
      assert [s[|s| - 1]][0] == s[|s| - 1];
    }
  }

  /** What is left of an identity is its middle, neither beginning nor ending blank; only blanks were cut off. */
  lemma TrimmedIsTheMiddle(s: string) returns (i: nat, j: nat)
    ensures i <= j <= |s| && Trimmed(s) == s[i..j] && AllBlank(s[..i]) && AllBlank(s[j..])
    ensures i < j ==> !AllBlank([s[i]]) && !AllBlank([s[j - 1]])
    ensures i == j ==> AllBlank(s)
  {
    i := TrimmedLeftIsASuffix(s);
    var n := TrimmedRightIsAPrefix(s[i..]);
    j := i + n;
    assert s[i..][..n] == s[i..j] && s[i..][n..] == s[j..];
    assert n == 0 ==> s == s[..i] + s[i..];
    assert n > 0 ==> s[i..][n - 1] == s[j - 1];
  }

  lemma AcceptableLaw(requestId: string, known: set<string>)
    ensures Acceptable(requestId, known) <==>
              !AllBlank(requestId) && |requestId| <= 200 && requestId !in known && |known| < 50
  {
    var i, j := TrimmedIsTheMiddle(requestId);
    if i < j {
      assert [requestId[i]][0] == requestId[i];
    }
  }

  lemma TrimmedLeftStarts(s: string)
    ensures TrimmedLeft(s) == "" || !Blank(TrimmedLeft(s)[0])
  {
  }

  lemma TrimmedRightEnds(s: string)
    ensures TrimmedRight(s) <= s && (TrimmedRight(s) == "" || !Blank(TrimmedRight(s)[|TrimmedRight(s)| - 1]))
  {
  }

  /** Trimming leaves nothing to trim. */
  lemma TrimmingTwice(s: string)
    ensures Trimmed(Trimmed(s)) == Trimmed(s)
  {
    TrimmedLeftStarts(s);
    TrimmedRightEnds(TrimmedLeft(s));
  }

  /** The forms in which known identities are, or would be, durable. */
  function TrimmedForms(known: set<string>): set<string> { set x | x in known :: Trimmed(x) }
}
