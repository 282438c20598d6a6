/** Goal requests over runs: which identities the intake knows as sent, which the executions carry as
    stored, and exactly when one request starts two missions. */
module GoalIntake {
  import opened Options
  import opened Allowances
  import opened Plans
  import opened Snapshots
  import opened AttemptProtocol
  import opened SequentialAdvance
  import opened SequentialDecisions
  import opened ExecutionMemory
  import opened MissionRequests

  /** The identities known as they were sent, or read back; the trimmed ones of goals without a mission
      accepted in this process, kept for the proofs; and the executions. */
  datatype Intake = Intake(known: set<string>, plain: set<string>, cells: map<string, Cell>)

  datatype Event =
    | Ask(requestId: string, plan: Plan, budget: Budget, ctx: Context, inp: StartInputs)
    | Begin(plan: Plan, approved: Option<Budget>, ctx: Context, inp: StartInputs)   // a start that is no goal
    | Serve(after: map<string, Cell>)   // a request about executions there are
    | Reopen

  /** A goal counts as started when it is no mission, or when its first save landed. */
  predicate Starts(plan: Plan, inp: StartInputs) { plan.content.mission.None? || inp.firstLands }

  ghost function DoAsk(g: Intake, e: Event): Intake
    requires e.Ask?
  {
    if !Acceptable(e.requestId, g.known) || e.plan.planId in g.cells then g
    else
      var begun := BegunCell(e.plan, Some(e.budget), e.ctx.runId, e.ctx.disclosure, Some(Trimmed(e.requestId)));
      Intake(if Starts(e.plan, e.inp) then g.known + {e.requestId} else g.known,
             if e.plan.content.mission.None? then g.plain + {Trimmed(e.requestId)} else g.plain,
             AfterStart(g.cells, begun, e.plan.planId, e.inp))
  }

  /** Only a goal hands a request identity on. */
  ghost function DoBegin(g: Intake, e: Event): Intake
    requires e.Begin?
  {
    if e.plan.planId in g.cells then g
    else g.(cells := AfterStart(g.cells, BegunCell(e.plan, e.approved, e.ctx.runId, e.ctx.disclosure, None), e.plan.planId, e.inp))
  }

  ghost function DoReopen(g: Intake): Intake {
    var cells := map id | id in g.cells :: DoCrash(g.cells[id]);
    Intake(Identities(cells), {}, cells)
  }

  ghost function Happens(g: Intake, e: Event): Option<Intake> {
    match e
    case Ask(_, _, _, _, _) => Some(DoAsk(g, e))
    case Begin(_, _, _, _) => Some(DoBegin(g, e))
    case Serve(after) => if RequestsKept(g.cells, after) then Some(g.(cells := after)) else None
    case Reopen => Some(DoReopen(g))
  }

  ghost function Follow(g: Intake, events: seq<Event>): Option<Intake>
    decreases |events|
  {
    if events == [] then Some(g)
    else
      var n := Happens(g, events[0]);
      if n.None? then None else Follow(n.value, events[1..])
  }

  /** A mission is accepted and started whose trimmed identity an execution carries already: one accepted,
      or restored, before. */
  ghost predicate Repeats(g: Intake, e: Event) {
    e.Ask? && Acceptable(e.requestId, g.known) && e.plan.planId !in g.cells
    && e.plan.content.mission.Some? && e.inp.firstLands && Trimmed(e.requestId) in Identities(g.cells)
  }

  ghost predicate SomeRepeats(g: Intake, events: seq<Event>)
    decreases |events|
  {
    events != []
    && (Repeats(g, events[0]) || (Happens(g, events[0]).Some? && SomeRepeats(Happens(g, events[0]).value, events[1..])))
  }

  /** What is known and what is carried are the same identities once both are trimmed. */
  ghost predicate IntakeInv(g: Intake) {
    AllSteady(g.cells) && TrimmedForms(g.known) == Identities(g.cells) + g.plain
  }

  lemma FormsGrow(known: set<string>, r: string)
    ensures TrimmedForms(known + {r}) == TrimmedForms(known) + {Trimmed(r)}
  {
  }

  lemma CarriedIsTrimmed(cells: map<string, Cell>)
    requires AllSteady(cells)
    ensures TrimmedForms(Identities(cells)) == Identities(cells)
  {
    forall x | x in Identities(cells) ensures Trimmed(x) == x && x in TrimmedForms(Identities(cells)) {
      var id :| id in cells && x in Carried(cells[id]);
      assert Steady(cells[id]);
    }
  }

  /** What an accepted goal leaves. */
  lemma AcceptedAsk(g: Intake, e: Event)
    requires IntakeInv(g) && e.Ask? && Acceptable(e.requestId, g.known) && e.plan.planId !in g.cells
    ensures var n, more := DoAsk(g, e), StartCarries(e.plan, e.requestId, e.inp);
            && AllSteady(n.cells) && Identities(n.cells) == Identities(g.cells) + more
            && (Unique(n.cells) <==> Unique(g.cells) && more !! Identities(g.cells))
            && n.known == (if Starts(e.plan, e.inp) then g.known + {e.requestId} else g.known)
            && n.plain == if e.plan.content.mission.None? then g.plain + {Trimmed(e.requestId)} else g.plain
  {
    hide AfterStart, BegunCell, Identities, AllSteady, Unique, Acceptable, Trimmed, TrimmedForms, StartCarries;
    BegunIsBare(e.plan, Some(e.budget), e.ctx.runId, e.ctx.disclosure, Some(Trimmed(e.requestId)));
    StartingAdds(g.cells, e.plan, e.budget, e.ctx, e.requestId, e.inp);
  }

  lemma FormsStayMatched(forms: set<string>, ids: set<string>, plain: set<string>, t: string, mission: bool, lands: bool)
    requires forms == ids + plain
    ensures (if !mission || lands then forms + {t} else forms)
            == (ids + if mission && lands then {t} else {}) + if mission then plain else plain + {t}
  {
  }

  lemma AcceptedKeepsIntake(g: Intake, e: Event)
    requires IntakeInv(g) && e.Ask? && Acceptable(e.requestId, g.known) && e.plan.planId !in g.cells
    ensures IntakeInv(DoAsk(g, e))
  {
    AcceptedAsk(g, e);
    FormsGrow(g.known, e.requestId);
    FormsStayMatched(TrimmedForms(g.known), Identities(g.cells), g.plain, Trimmed(e.requestId), e.plan.content.mission.Some?, e.inp.firstLands);
    hide DoAsk, Identities, AllSteady, Unique, Acceptable, Trimmed, TrimmedForms;
  }

  lemma AcceptedStaysUnique(g: Intake, e: Event)
    requires IntakeInv(g) && e.Ask? && Acceptable(e.requestId, g.known) && e.plan.planId !in g.cells
    ensures Unique(DoAsk(g, e).cells) <==> Unique(g.cells) && !Repeats(g, e)
  {
    AcceptedAsk(g, e);
    hide DoAsk, Identities, AllSteady, Unique, Acceptable, Trimmed, TrimmedForms;
  }

  lemma RefusedAsk(g: Intake, e: Event)
    requires e.Ask? && !(Acceptable(e.requestId, g.known) && e.plan.planId !in g.cells)
    ensures DoAsk(g, e) == g && !Repeats(g, e)
  {
    hide Acceptable, AfterStart, BegunCell, Trimmed, Identities;
  }

  lemma AskKeepsIntake(g: Intake, e: Event)
    requires IntakeInv(g) && e.Ask?
    ensures IntakeInv(DoAsk(g, e)) && (Unique(DoAsk(g, e).cells) <==> Unique(g.cells) && !Repeats(g, e))
  {
    hide *;
    if Acceptable(e.requestId, g.known) && e.plan.planId !in g.cells {
      AcceptedKeepsIntake(g, e);
      AcceptedStaysUnique(g, e);
    } else {
      RefusedAsk(g, e);
    }
  }

  lemma ReopenKeepsIntake(g: Intake)
    requires IntakeInv(g)
    ensures IntakeInv(DoReopen(g)) && (Unique(DoReopen(g).cells) <==> Unique(g.cells))
  {
    hide AllSteady, Identities, Unique, DoCrash;
    RestartStaysUnique(g.cells);
    CarriedIsTrimmed(DoReopen(g).cells);
  }

  lemma BeginKeepsIntake(g: Intake, e: Event)
    requires IntakeInv(g) && e.Begin?
    ensures IntakeInv(DoBegin(g, e)) && (Unique(DoBegin(g, e).cells) <==> Unique(g.cells))
  {
    hide AfterStart, BegunCell, Identities, AllSteady, Unique, TrimmedForms;
    BegunIsBare(e.plan, e.approved, e.ctx.runId, e.ctx.disclosure, None);
    if e.plan.planId !in g.cells {
      OtherStartAddsNone(g.cells, e.plan, e.approved, e.ctx, e.inp);
    }
  }

  lemma EventKeepsIntake(g: Intake, e: Event)
    requires IntakeInv(g) && Happens(g, e).Some?
    ensures IntakeInv(Happens(g, e).value) && (Unique(Happens(g, e).value.cells) <==> Unique(g.cells) && !Repeats(g, e))
  {
    match e
    case Ask(_, _, _, _, _) => AskKeepsIntake(g, e);
    case Begin(_, _, _, _) => BeginKeepsIntake(g, e);
    case Serve(after) => KeptStaysSteady(g.cells, after);
    case Reopen => ReopenKeepsIntake(g);
  }

  /** Over every run of accepted and refused goals, other starts, other requests and restarts: the request identities
      executions carry are apart at the end if and only if they were at the beginning and no mission was
      accepted whose identity trims to the same text as one accepted, or restored, before it. */
  lemma {:induction false} UniqueIffNoneRepeats(g: Intake, events: seq<Event>)
    requires IntakeInv(g) && Follow(g, events).Some?
    ensures IntakeInv(Follow(g, events).value)
    ensures Unique(Follow(g, events).value.cells) <==> Unique(g.cells) && !SomeRepeats(g, events)
    decreases |events|
  {
    hide IntakeInv, Happens, Repeats, Unique;
    if events != [] {
      EventKeepsIntake(g, events[0]);
      UniqueIffNoneRepeats(Happens(g, events[0]).value, events[1..]);
    }
  }

  /** The check one call could make: after any run, a request is new, to every goal accepted in this
      process and every mission carried, if and only if its trimmed form is not among the trimmed forms
      of the identities known. The code compares it as sent instead. */
  lemma NewIffTrimmedFormIsUnknown(g: Intake, events: seq<Event>, requestId: string)
    requires IntakeInv(g) && Follow(g, events).Some?
    ensures var now := Follow(g, events).value;
            Trimmed(requestId) !in TrimmedForms(now.known) <==> Trimmed(requestId) !in Identities(now.cells) + now.plain
  {
    UniqueIffNoneRepeats(g, events);
  }

  predicate SentTrimmed(e: Event) { e.Ask? ==> Trimmed(e.requestId) == e.requestId }

  lemma TrimmedKeepsKnown(g: Intake, e: Event)
    requires IntakeInv(g) && Happens(g, e).Some? && SentTrimmed(e) && forall x :: x in g.known ==> Trimmed(x) == x
    ensures forall x :: x in Happens(g, e).value.known ==> Trimmed(x) == x
    ensures !Repeats(g, e)
  {
    hide AfterStart, BegunCell, Carried, Unique;
    assert TrimmedForms(g.known) == g.known;
    if e.Reopen? {
      hide Identities, AllSteady;
      ReopenKeepsIntake(g);
      var now := DoReopen(g);
      forall x | x in now.known ensures Trimmed(x) == x {
        ReadBackIsTrimmed(now.cells, x);
      }
    }
  }

  lemma ReadBackIsTrimmed(cells: map<string, Cell>, x: string)
    requires AllSteady(cells) && x in Identities(cells)
    ensures Trimmed(x) == x
  {
    var id :| id in cells && x in Carried(cells[id]);
    assert Steady(cells[id]);
  }

  /** As long as every request is sent trimmed, none starts two missions, across restarts too. */
  lemma {:induction false} TrimmedRequestsStayApart(g: Intake, events: seq<Event>)
    requires IntakeInv(g) && Follow(g, events).Some? && forall x :: x in g.known ==> Trimmed(x) == x
    requires forall i :: 0 <= i < |events| ==> SentTrimmed(events[i])
    ensures !SomeRepeats(g, events)
    decreases |events|
  {
    hide IntakeInv, Happens, Repeats;
    if events != [] {
      EventKeepsIntake(g, events[0]);
      TrimmedKeepsKnown(g, events[0]);
      TrimmedRequestsStayApart(Happens(g, events[0]).value, events[1..]);
    }
  }

  const NothingYet := Intake({}, {}, map[])

  lemma FirstMission(e: Event)
    requires e.Ask? && e.plan.content.mission.Some? && e.inp.firstLands && Acceptable(e.requestId, {})
    ensures IntakeInv(NothingYet)
    ensures var n := DoAsk(NothingYet, e);
            IntakeInv(n) && n.known == {e.requestId} && Trimmed(e.requestId) in Identities(n.cells) && n.cells.Keys <= {e.plan.planId}
  {
    assert IntakeInv(NothingYet);
    hide IntakeInv, Acceptable, Unique, Trimmed, AllSteady, TrimmedForms;
    AskKeepsIntake(NothingYet, e);
    AcceptedAsk(NothingYet, e);
    KeysAfterStart(e);
  }

  /** Any two forms of one identity are accepted one after the other, whichever comes first, and start two
      missions that carry it. */
  lemma TwoFormsStartTwoMissions(first: Event, second: Event)
    requires first.Ask? && second.Ask? && first.plan.planId != second.plan.planId
    requires first.plan.content.mission.Some? && second.plan.content.mission.Some? && first.inp.firstLands && second.inp.firstLands
    requires Acceptable(first.requestId, {}) && Acceptable(second.requestId, {})
    requires first.requestId != second.requestId && Trimmed(first.requestId) == Trimmed(second.requestId)
    ensures IntakeInv(NothingYet) && Follow(NothingYet, [first, second]).Some? && Repeats(DoAsk(NothingYet, first), second)
    ensures !Unique(Follow(NothingYet, [first, second]).value.cells)
  {
    hide DoAsk, Unique, IntakeInv, Trimmed, Identities, AllSteady;
    FirstMission(first);
    var one := DoAsk(NothingYet, first);
    OtherFormIsAcceptable(first.requestId, second.requestId);
    assert Repeats(one, second);
    hide Repeats, Acceptable;
    AskKeepsIntake(one, second);
    assert [first, second][1..] == [second] && [second][1..] == [];
    assert Follow(one, [second]) == Follow(DoAsk(one, second), []);
  }

  lemma OtherFormIsAcceptable(first: string, second: string)
    requires Acceptable(second, {}) && first != second
    ensures Acceptable(second, {first})
  {
    assert |{first}| == 1;
  }

  lemma KeysAfterStart(e: Event)
    requires e.Ask?
    ensures DoAsk(NothingYet, e).cells.Keys <= {e.plan.planId}
  {
  }

  /** The two orders, concretely: plain and then with a blank before it, and the other way round. */
  lemma PaddedRequestIsADuplicate()
    ensures Acceptable("goal", {}) && Acceptable(" goal", {"goal"})
    ensures Acceptable(" goal", {}) && Acceptable("goal", {" goal"})
    ensures Trimmed(" goal") == "goal" == Trimmed("goal")
  {
    assert " goal"[1..] == "goal";
    assert TrimmedLeft("goal") == "goal" && TrimmedRight("goal") == "goal";
    assert TrimmedLeft(" goal") == "goal";
  }
}
