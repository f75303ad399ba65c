/** The multi-agent workflow of the AI service: the five stages, the two
    topologies as data, and the stage wrappers that turn an agent's outcome
    into a state update. */
module AiGraph {
  import opened Wrappers
  import opened AiState

  // ---------------------------------------------------------------------
  // Stages and their fixed attributes
  // ---------------------------------------------------------------------

  datatype Stage = Parse | Evaluate | Synthesize | AssessRisk | PlanTreatment

  /** The node name under which a stage is registered in the graph. */
  function NodeName(s: Stage): string
  {
    match s
    case Parse => "parse"
    case Evaluate => "evaluate"
    case Synthesize => "synthesize"
    case AssessRisk => "assess_risk"
    case PlanTreatment => "plan_treatment"
  }

  /** The `agent_name` a stage's wrapper records. */
  function AgentName(s: Stage): string
  {
    match s
    case Parse => "parser"
    case Evaluate => "evaluator"
    case Synthesize => "synthesizer"
    case AssessRisk => "risk_assessor"
    case PlanTreatment => "treatment_planner"
  }

  /** The stage whose wrapper records `name`, if any. */
  function StageOfAgent(name: string): (r: Option<Stage>)
    ensures r.Some? ==> AgentName(r.value) == name
    ensures r.None? <==> forall s :: AgentName(s) != name
  {
    if name == "parser" then Some(Parse)
    else if name == "evaluator" then Some(Evaluate)
    else if name == "synthesizer" then Some(Synthesize)
    else if name == "risk_assessor" then Some(AssessRisk)
    else if name == "treatment_planner" then Some(PlanTreatment)
    else None
  }

  /** Confidence a successful stage reports, in hundredths. */
  function Confidence(s: Stage): (c: nat)
    ensures 0 < c <= 100
  {
    match s
    case Parse => 90
    case Evaluate => 85
    case Synthesize => 90
    case AssessRisk => 80
    case PlanTreatment => 85
  }

  function ErrorPrefix(s: Stage): string
  {
    match s
    case Parse => "Parser failed: "
    case Evaluate => "Evaluator failed: "
    case Synthesize => "Synthesizer failed: "
    case AssessRisk => "Risk assessment failed: "
    case PlanTreatment => "Treatment planning failed: "
  }

  /** The state fields a stage may write. */
  datatype Field = DataField | ValidatedDataField | ReportField | RiskAssessmentField | TreatmentPlanField

  function OwnedField(s: Stage): Field
  {
    match s
    case Parse => DataField
    case Evaluate => ValidatedDataField
    case Synthesize => ReportField
    case AssessRisk => RiskAssessmentField
    case PlanTreatment => TreatmentPlanField
  }

  /** No two stages own the same output field. */
  lemma OwnedFieldInjective(s: Stage, t: Stage)
    ensures OwnedField(s) == OwnedField(t) ==> s == t
  {
  }

  function Get(st: WorkflowState, f: Field): Option<string>
  {
    match f
    case DataField => st.data
    case ValidatedDataField => st.validatedData
    case ReportField => st.report
    case RiskAssessmentField => st.riskAssessment
    case TreatmentPlanField => st.treatmentPlan
  }

  function Set(st: WorkflowState, f: Field, v: Option<string>): (r: WorkflowState)
    ensures Get(r, f) == v
    ensures forall g :: g != f ==> Get(r, g) == Get(st, g)
    ensures r.note == st.note && r.sessionId == st.sessionId && r.errors == st.errors
    ensures r.warnings == st.warnings && r.agentResults == st.agentResults
    ensures r.workflowVersion == st.workflowVersion && r.processingTime == st.processingTime
  {
    match f
    case DataField => st.(data := v)
    case ValidatedDataField => st.(validatedData := v)
    case ReportField => st.(report := v)
    case RiskAssessmentField => st.(riskAssessment := v)
    case TreatmentPlanField => st.(treatmentPlan := v)
  }

  // ---------------------------------------------------------------------
  // Topologies
  // ---------------------------------------------------------------------

  /** A workflow graph as declared: nodes in registration order, edges in
      declaration order, one entry point and the finish points. */
  datatype Topology = Topology(nodes: seq<Stage>, edges: seq<(Stage, Stage)>, entry: Stage, finishes: seq<Stage>)

  /** The five-stage graph of `build_graph`. */
  function FullTopology(): Topology
  {
    Topology(
      [Parse, Evaluate, Synthesize, AssessRisk, PlanTreatment],
      [(Parse, Evaluate), (Evaluate, Synthesize), (Evaluate, AssessRisk), (AssessRisk, PlanTreatment)],
      Parse,
      [Synthesize, PlanTreatment])
  }

  /** The three-stage graph of `build_simple_graph`. */
  function SimpleTopology(): Topology
  {
    Topology([Parse, Evaluate, Synthesize], [(Parse, Evaluate), (Evaluate, Synthesize)], Parse, [Synthesize])
  }

  function Preds(g: Topology, n: Stage): set<Stage>
  {
    set e | e in g.edges && e.1 == n :: e.0
  }

  predicate Distinct<T(==)>(s: seq<T>)
  {
    forall i, j :: 0 <= i < j < |s| ==> s[i] != s[j]
  }

  /** Nodes are registered once and every edge joins registered nodes. */
  predicate WellFormed(g: Topology)
  {
    && Distinct(g.nodes)
    && g.entry in g.nodes
    && (forall f :: f in g.finishes ==> f in g.nodes)
    && (forall e :: e in g.edges ==> e.0 in g.nodes && e.1 in g.nodes)
  }

  /** `rank` strictly increases along every edge: a witness that the edges
      have no cycle. */
  predicate Ranked(g: Topology, rank: map<Stage, nat>)
  {
    && (forall n :: n in g.nodes ==> n in rank)
    && (forall e :: e in g.edges ==> e.0 in rank && e.1 in rank && rank[e.0] < rank[e.1])
  }

  /** `p` is a walk from the entry point to `n` along declared edges. */
  predicate PathTo(g: Topology, n: Stage, p: seq<Stage>)
  {
    && |p| > 0 && p[0] == g.entry && p[|p| - 1] == n
    && forall k :: 0 <= k < |p| - 1 ==> (p[k], p[k + 1]) in g.edges
  }

  ghost predicate Reachable(g: Topology, n: Stage)
  {
    exists p :: PathTo(g, n, p)
  }

  function FullRank(): map<Stage, nat>
  {
    map[Parse := 0, Evaluate := 1, Synthesize := 2, AssessRisk := 2, PlanTreatment := 3]
  }

  /** The full graph registers the five stages once each, and its edges
      follow a rank order, so it has no cycle. */
  lemma FullTopologyAcyclic()
    ensures WellFormed(FullTopology())
    ensures forall n :: n in FullTopology().nodes
    ensures Ranked(FullTopology(), FullRank())
  {
    FullTopologyRanked();
    FullTopologyDistinct();
    var g := FullTopology();
    forall n ensures n in g.nodes {
      match n
      case Parse => assert g.nodes[0] == n;
      case Evaluate => assert g.nodes[1] == n;
      case Synthesize => assert g.nodes[2] == n;
      case AssessRisk => assert g.nodes[3] == n;
      case PlanTreatment => assert g.nodes[4] == n;
    }
  }

  lemma FullTopologyRanked()
    ensures Ranked(FullTopology(), FullRank())
  {
  }

  lemma FullTopologyDistinct()
    ensures Distinct(FullTopology().nodes)
  {
  }

  /** Every stage of the full graph can be reached from `parse`. */
  lemma FullTopologyReachable()
    ensures forall n :: Reachable(FullTopology(), n)
  {
    var g := FullTopology();
    forall n ensures Reachable(g, n) {
      match n
      case Parse => assert PathTo(g, n, [Parse]);
      case Evaluate => assert PathTo(g, n, [Parse, Evaluate]);
      case Synthesize => assert PathTo(g, n, [Parse, Evaluate, Synthesize]);
      case AssessRisk => assert PathTo(g, n, [Parse, Evaluate, AssessRisk]);
      case PlanTreatment => assert PathTo(g, n, [Parse, Evaluate, AssessRisk, PlanTreatment]);
    }
  }

  /** `evaluate` fans out to `synthesize` and `assess_risk`; `plan_treatment`
      waits on `assess_risk` alone, not on the report. */
  lemma FullTopologyPredecessors()
    ensures Preds(FullTopology(), Parse) == {}
    ensures Preds(FullTopology(), Evaluate) == {Parse}
    ensures Preds(FullTopology(), Synthesize) == {Evaluate}
    ensures Preds(FullTopology(), AssessRisk) == {Evaluate}
    ensures Preds(FullTopology(), PlanTreatment) == {AssessRisk}
  {
    var g := FullTopology();
    assert (Parse, Evaluate) in g.edges;
    assert (Evaluate, Synthesize) in g.edges;
    assert (Evaluate, AssessRisk) in g.edges;
    assert (AssessRisk, PlanTreatment) in g.edges;
  }

  /** The simple graph registers parse, evaluate and synthesize once each,
      and its edges follow the same rank order as the full graph. */
  lemma SimpleTopologyShape()
    ensures WellFormed(SimpleTopology())
    ensures Ranked(SimpleTopology(), FullRank())
    ensures forall n :: n in SimpleTopology().nodes <==> n in {Parse, Evaluate, Synthesize}
  {
  }

  /** Every stage of the simple graph can be reached from `parse`. */
  lemma SimpleTopologyReachable()
    ensures forall n :: n in SimpleTopology().nodes ==> Reachable(SimpleTopology(), n)
  {
    var g := SimpleTopology();
    assert PathTo(g, Parse, [Parse]);
    assert PathTo(g, Evaluate, [Parse, Evaluate]);
    assert PathTo(g, Synthesize, [Parse, Evaluate, Synthesize]);
  }

  /** The simple graph is the chain parse → evaluate → synthesize. */
  lemma SimpleTopologyPredecessors()
    ensures Preds(SimpleTopology(), Evaluate) == {Parse} && Preds(SimpleTopology(), Synthesize) == {Evaluate}
    ensures Preds(SimpleTopology(), Parse) == {}
  {
    var g := SimpleTopology();
    assert (Parse, Evaluate) in g.edges;
    assert (Evaluate, Synthesize) in g.edges;
  }

  // ---------------------------------------------------------------------
  // Agents and stage wrappers
  // ---------------------------------------------------------------------

  /** What an agent returns: a message whose `content` may be present, and
      its `str()` rendering. */
  datatype Reply = Reply(content: Option<string>, rendered: string)

  /** `result.content if hasattr(result, 'content') else str(result)` */
  function ReplyText(r: Reply): string
  {
    match r.content
    case Some(c) => c
    case None => r.rendered
  }

  /** An agent call either returns or raises; `message` is `str(e)`. */
  datatype Outcome = Replied(reply: Reply) | Raised(message: string)

  /** The argument a stage passes to its agent. */
  datatype AgentInput =
    | NoteInput(note: string)
    | FieldInput(value: Option<string>)
    | RiskInput(note: string, parsedData: Option<string>)
    | PlanInput(validatedData: Option<string>, riskAssessment: Option<string>)

  /** Which state fields each stage hands to its agent. Inputs may be unset
      when an earlier stage failed; the agent is called anyway. */
  function AgentInputOf(s: Stage, st: WorkflowState): AgentInput
  {
    match s
    case Parse => NoteInput(st.note)
    case Evaluate => FieldInput(st.data)
    case Synthesize => FieldInput(st.validatedData)
    case AssessRisk => RiskInput(st.note, st.data)
    case PlanTreatment => PlanInput(st.validatedData, st.riskAssessment)
  }

  /** A wrapper's returned update: its own output field, the `errors` list
      when it is returned, and the `agent_results` list. */
  datatype Delta = Delta(field: Field, value: Option<string>, errors: Option<seq<string>>, agentResults: seq<AgentResult>)

  /** The stage wrapper of `build_graph`: on success, the reply text and a
      successful result with the stage's confidence; on failure, `None`, a
      prefixed error and a failed result. The parser starts fresh lists; the
      other stages extend the lists already in the state. */
  function NodeDelta(s: Stage, st: WorkflowState, outcome: Outcome, elapsed: nat): Delta
  {
    var priorResults := if s == Parse then [] else st.agentResults;
    var priorErrors := if s == Parse then [] else st.errors;
    match outcome
    case Replied(reply) =>
      Delta(OwnedField(s), Some(ReplyText(reply)), None,
            priorResults + [AgentResult(AgentName(s), true, Some(ReplyText(reply)), None, elapsed, Some(Confidence(s)))])
    case Raised(msg) =>
      Delta(OwnedField(s), None, Some(priorErrors + [ErrorPrefix(s) + msg]),
            priorResults + [AgentResult(AgentName(s), false, None, Some(msg), elapsed, None)])
  }

  /** Merging an update into the state: returned keys overwrite, others stay. */
  function ApplyDelta(st: WorkflowState, d: Delta): WorkflowState
  {
    var st1 := Set(st, d.field, d.value);
    var st2 := if d.errors.Some? then st1.(errors := d.errors.value) else st1;
    st2.(agentResults := d.agentResults)
  }

  /** One guarded step: call the agent on the stage's input, merge the update. */
  function Step(s: Stage, st: WorkflowState, agent: (Stage, AgentInput) -> Outcome, elapsed: nat): WorkflowState
  {
    ApplyDelta(st, NodeDelta(s, st, agent(s, AgentInputOf(s, st)), elapsed))
  }

  /** On success a wrapper writes its own field and nothing else of the
      outputs, keeps `errors`, and records a success with its confidence. */
  lemma WrapperOnSuccess(s: Stage, st: WorkflowState, reply: Reply, elapsed: nat)
    ensures var st' := ApplyDelta(st, NodeDelta(s, st, Replied(reply), elapsed));
      && Get(st', OwnedField(s)) == Some(ReplyText(reply))
      && (forall f :: f != OwnedField(s) ==> Get(st', f) == Get(st, f))
      && st'.errors == st.errors && st'.warnings == st.warnings && st'.note == st.note
      && st'.agentResults == (if s == Parse then [] else st.agentResults)
           + [AgentResult(AgentName(s), true, Some(ReplyText(reply)), None, elapsed, Some(Confidence(s)))]
  {
  }

  /** On failure a wrapper clears its own field, adds the prefixed message to
      `errors` and records a failure that carries the message and no confidence. */
  lemma WrapperOnFailure(s: Stage, st: WorkflowState, msg: string, elapsed: nat)
    ensures var st' := ApplyDelta(st, NodeDelta(s, st, Raised(msg), elapsed));
      && Get(st', OwnedField(s)) == None
      && (forall f :: f != OwnedField(s) ==> Get(st', f) == Get(st, f))
      && st'.errors == (if s == Parse then [] else st.errors) + [ErrorPrefix(s) + msg]
      && st'.warnings == st.warnings && st'.note == st.note
      && st'.agentResults == (if s == Parse then [] else st.agentResults)
           + [AgentResult(AgentName(s), false, None, Some(msg), elapsed, None)]
  {
  }

  /** Updates of two different stages that a parallel scheduler would merge:
      their output fields differ, but both return `agent_results`, so the
      order of merging decides which list survives. */
  lemma SiblingUpdatesOverlap(st: WorkflowState, o1: Outcome, o2: Outcome, t1: nat, t2: nat)
    ensures NodeDelta(Synthesize, st, o1, t1).field != NodeDelta(AssessRisk, st, o2, t2).field
    ensures ApplyDelta(ApplyDelta(st, NodeDelta(Synthesize, st, o1, t1)), NodeDelta(AssessRisk, st, o2, t2)).agentResults
         != ApplyDelta(ApplyDelta(st, NodeDelta(AssessRisk, st, o2, t2)), NodeDelta(Synthesize, st, o1, t1)).agentResults
  {
    var a := NodeDelta(Synthesize, st, o1, t1).agentResults;
    var b := NodeDelta(AssessRisk, st, o2, t2).agentResults;
    assert a[|a| - 1].agentName != b[|b| - 1].agentName;
  }

  /** Merging two updates that write different output fields and no lists
      commutes. */
  lemma DisjointOutputsCommute(st: WorkflowState, f1: Field, v1: Option<string>, f2: Field, v2: Option<string>)
    requires f1 != f2
    ensures Set(Set(st, f1, v1), f2, v2) == Set(Set(st, f2, v2), f1, v1)
  {
    var a := Set(Set(st, f1, v1), f2, v2);
    var b := Set(Set(st, f2, v2), f1, v1);
    assert forall g :: Get(a, g) == Get(b, g);
    assert Get(a, DataField) == Get(b, DataField);
  }

  // ---------------------------------------------------------------------
  // The unguarded nodes of build_simple_graph
  // ---------------------------------------------------------------------

  /** A node without error handling: the reply text goes into the stage's
      field; an agent error escapes the node. */
  function UnguardedStep(s: Stage, st: WorkflowState, agent: (Stage, AgentInput) -> Outcome): Result<WorkflowState, string>
  {
    match agent(s, AgentInputOf(s, st))
    case Replied(reply) => Ok(Set(st, OwnedField(s), Some(ReplyText(reply))))
    case Raised(msg) => Err(msg)
  }
}
