/** The authored research plan, as far as its execution depends on it.

    A plan digest is modelled as the digested content itself, which ignores the plan
    identifier and is injective. */
module Plans {
  import opened Options
  import opened Allowances

  datatype Disclosure = Undisclosed | LocalOnly | RemotePermitted {
    function Rank(): nat { match this case Undisclosed => 0 case LocalOnly => 1 case RemotePermitted => 2 }
  }

  datatype PlanStep = PlanStep(id: string, instruction: string, capability: Capability)

  /** A mission scope; only a semantic one carries a disclosure policy. */
  datatype Mission = Mission(provider: string, policy: Option<Disclosure>)

  /** Everything the plan digest covers. */
  datatype PlanContent = PlanContent(
    question: string,
    steps: seq<PlanStep>,
    target: Option<string>,
    mission: Option<Mission>,
    restrictions: set<string>)   // the typed selections among its constraints

  datatype Plan = Plan(planId: string, content: PlanContent)

  /** What the plan constructor guarantees: at least one step, distinct identifiers. */
  predicate ValidContent(c: PlanContent) {
    && |c.steps| > 0
    && forall i, j :: 0 <= i < j < |c.steps| ==> c.steps[i].id != c.steps[j].id
  }

  function StepIds(c: PlanContent): seq<string> {
    seq(|c.steps|, j requires 0 <= j < |c.steps| => c.steps[j].id)
  }

  /** The capability the plan declares for a step identifier. */
  function CapabilityIn(steps: seq<PlanStep>, id: string): (r: Option<Capability>)
    ensures r.Some? ==> exists j :: 0 <= j < |steps| && steps[j].id == id && steps[j].capability == r.value
    ensures r.None? ==> forall j :: 0 <= j < |steps| ==> steps[j].id != id
  {
    if steps == [] then None
    else if steps[0].id == id then Some(steps[0].capability)
    else
      var r := CapabilityIn(steps[1..], id);
      assert forall j :: 1 <= j < |steps| ==> steps[j] == steps[1..][j - 1];
      assert forall j :: 0 <= j < |steps[1..]| ==> steps[1..][j] == steps[j + 1];
      r
  }

  function CapabilityOr(c: PlanContent, id: string): Capability {
    var r := CapabilityIn(c.steps, id);
    if r.Some? then r.value else NoCapability
  }

  predicate Revalidates(c: PlanContent) {
    exists j :: 0 <= j < |c.steps| && c.steps[j].capability == SourceRevalidation
  }
}
