/** The approved budget of one execution and what it has spent.

    Models `ResearchExecutionAllowance`, `ResearchExecutionSpend` and the
    declared capability cost table. Seconds are reals: rounding is not the point. */
module Allowances {
  import opened Options

  datatype Capability =
    | NoCapability
    | LocalKnowledgeSearch
    | AcceptedSourceListing
    | EvidenceIntegrityCheck
    | SourceDiscovery
    | SourceFetch
    | SourceAccept
    | SourceRevalidation
    | EvidenceRecording
    | SourceAssessment
    | ClaimCreation
    | ClaimContradiction
    | SourceComparison
    | ResearchRunCompletion
    | SemanticEvidenceProposal
    | SemanticEvidenceComparison

  /** External operations one attempt may consume. */
  datatype Cost = Cost(network: nat, llm: nat)

  datatype Budget = Budget(steps: nat, network: nat, llm: nat, seconds: real)

  datatype Spend = Spend(steps: nat, network: nat, llm: nat, seconds: real)

  datatype Allowance = Allowance(budget: Budget, spend: Spend)

  const NothingSpent := Spend(0, 0, 0, 0.0)

  /** The declared cost table. */
  function CostFor(c: Capability): Cost {
    match c
    case SourceDiscovery => Cost(1, 0)
    case SourceFetch => Cost(1, 0)
    case SourceAccept => Cost(1, 0)
    case SourceRevalidation => Cost(1, 0)
    case SemanticEvidenceProposal => Cost(1, 1)
    case SemanticEvidenceComparison => Cost(1, 1)
    case _ => Cost(0, 0)
  }

  /** The source and semantic operations reach the network, once each; only the semantic ones ask a model. */
  lemma CostTable(c: Capability)
    ensures CostFor(c).network == if c.SourceDiscovery? || c.SourceFetch? || c.SourceAccept? || c.SourceRevalidation?
                                     || c.SemanticEvidenceProposal? || c.SemanticEvidenceComparison? then 1 else 0
    ensures CostFor(c).llm == if c.SemanticEvidenceProposal? || c.SemanticEvidenceComparison? then 1 else 0
  {
  }

  /** What the allowance constructor insists on: seconds may overshoot, nothing else may. */
  predicate Within(a: Allowance) {
    && a.spend.steps <= a.budget.steps
    && a.spend.network <= a.budget.network
    && a.spend.llm <= a.budget.llm
  }

  predicate Affords(a: Allowance, cost: Cost) {
    && a.budget.steps - a.spend.steps >= 1
    && a.budget.seconds - a.spend.seconds > 0.0
    && a.budget.network - a.spend.network >= cost.network
    && a.budget.llm - a.spend.llm >= cost.llm
  }

  /** Count one attempted advance at this cost. */
  function Charge(a: Allowance, cost: Cost): Allowance {
    a.(spend := a.spend.(steps := a.spend.steps + 1,
                         network := a.spend.network + cost.network,
                         llm := a.spend.llm + cost.llm))
  }

  function WithElapsed(a: Allowance, seconds: real): Allowance {
    a.(spend := a.spend.(seconds := a.spend.seconds + if seconds > 0.0 then seconds else 0.0))
  }

  function ChargedIfAny(a: Option<Allowance>, cost: Cost): Option<Allowance> {
    if a.Some? then Some(Charge(a.value, cost)) else None
  }

  function ElapsedIfAny(a: Option<Allowance>, seconds: real): Option<Allowance> {
    if a.Some? then Some(WithElapsed(a.value, seconds)) else None
  }

  /** Time is counted and never given back, and moves nothing else. */
  lemma ElapsedOnlyGrows(a: Allowance, seconds: real)
    ensures var after := WithElapsed(a, seconds);
            && after.budget == a.budget && after.spend.(seconds := a.spend.seconds) == a.spend
            && after.spend.seconds >= a.spend.seconds && (seconds > 0.0 ==> after.spend.seconds == a.spend.seconds + seconds)
            && (seconds <= 0.0 ==> after == a)
  {
  }

  /** Component-wise order on what an execution has consumed, time aside. */
  predicate Covers(spend: Spend, used: Spend) {
    used.steps <= spend.steps && used.network <= spend.network && used.llm <= spend.llm
  }

  function PlusAttempt(s: Spend, cost: Cost): Spend {
    s.(steps := s.steps + 1, network := s.network + cost.network, llm := s.llm + cost.llm)
  }

  /** Asking before the attempt is exactly asking whether the charge would fit. */
  lemma AffordsIffChargeFits(a: Allowance, cost: Cost)
    ensures Affords(a, cost) <==>
            Within(Charge(a, cost)) && a.spend.seconds < a.budget.seconds
  {
  }
}
