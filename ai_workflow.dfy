/** A sequential driver for the workflow graphs: it runs the stages one at a
    time in a topological order of the declared edges, choosing among ready
    stages by registration order, and merges each stage's update into the
    state. */
module AiWorkflow {
  import opened Wrappers
  import opened AiState
  import opened AiGraph

  // ---------------------------------------------------------------------
  // Scheduling
  // ---------------------------------------------------------------------

  /** `n` has not run yet and all its predecessors have. */
  predicate Ready(g: Topology, done: seq<Stage>, n: Stage)
  {
    n in g.nodes && n !in done && forall u :: u in Preds(g, n) ==> u in done
  }

  /** The first ready stage at or after position `i` of the registration order. */
  function FirstReady(g: Topology, done: seq<Stage>, i: nat): (r: Option<Stage>)
    requires i <= |g.nodes|
    decreases |g.nodes| - i
    ensures r.Some? ==> Ready(g, done, r.value)
    ensures r.Some? ==> exists k :: i <= k < |g.nodes| && g.nodes[k] == r.value
                          && forall j :: i <= j < k ==> !Ready(g, done, g.nodes[j])
    ensures r.None? ==> forall k :: i <= k < |g.nodes| ==> !Ready(g, done, g.nodes[k])
  {
    if i == |g.nodes| then None
    else if Ready(g, done, g.nodes[i]) then Some(g.nodes[i])
    else FirstReady(g, done, i + 1)
  }

  function Unrun(g: Topology, done: seq<Stage>): set<Stage>
  {
    set n | n in g.nodes && n !in done
  }

  /** Extends `done` with ready stages until none is left. */
  function ScheduleFrom(g: Topology, done: seq<Stage>): seq<Stage>
    decreases |Unrun(g, done)|
  {
    match FirstReady(g, done, 0)
    case None => done
    case Some(n) =>
      assert Unrun(g, done + [n]) == Unrun(g, done) - {n};
      ScheduleFrom(g, done + [n])
  }

  function Schedule(g: Topology): seq<Stage>
  {
    ScheduleFrom(g, [])
  }

  /** Every stage runs at most once, is a node of `g`, and runs after all of
      its predecessors. */
  predicate TopologicalOrder(g: Topology, order: seq<Stage>)
  {
    && Distinct(order)
    && (forall i :: 0 <= i < |order| ==> order[i] in g.nodes)
    && (forall i :: 0 <= i < |order| ==> forall u :: u in Preds(g, order[i]) ==> u in order[..i])
  }

  lemma {:induction false} ScheduleFromSound(g: Topology, done: seq<Stage>)
    requires TopologicalOrder(g, done)
    ensures TopologicalOrder(g, ScheduleFrom(g, done))
    ensures done <= ScheduleFrom(g, done)
    ensures FirstReady(g, ScheduleFrom(g, done), 0).None?
    decreases |Unrun(g, done)|
  {
    match FirstReady(g, done, 0)
    case None =>
    case Some(n) =>
      assert Unrun(g, done + [n]) == Unrun(g, done) - {n};
      var next := done + [n];
      assert next[..|done|] == done;
      forall i | 0 <= i < |next|
        ensures forall u :: u in Preds(g, next[i]) ==> u in next[..i]
      {
        if i < |done| {
          assert next[..i] == done[..i];
        }
      }
      ScheduleFromSound(g, next);
  }

  /** Some stage of a non-empty set has the smallest rank. */
  lemma {:induction false} MinimalRank(S: set<Stage>, rank: map<Stage, nat>) returns (m: Stage)
    requires S != {} && forall x :: x in S ==> x in rank
    ensures m in S && forall x :: x in S ==> rank[m] <= rank[x]
    decreases |S|
  {
    var x :| x in S;
    if S == {x} {
      m := x;
    } else {
      var m' := MinimalRank(S - {x}, rank);
      m := if rank[x] < rank[m'] then x else m';
    }
  }

  /** In an acyclic graph the driver only stops once every node has run. */
  lemma StuckMeansComplete(g: Topology, rank: map<Stage, nat>, done: seq<Stage>)
    requires WellFormed(g) && Ranked(g, rank)
    requires FirstReady(g, done, 0).None?
    ensures forall n :: n in g.nodes ==> n in done
  {
    var S := Unrun(g, done);
    if S != {} {
      var m := MinimalRank(S, rank);
      assert false;
    }
  }

  /** The driver runs every node of an acyclic, well-formed graph exactly
      once, each after all of its predecessors. */
  lemma ScheduleComplete(g: Topology, rank: map<Stage, nat>)
    requires WellFormed(g) && Ranked(g, rank)
    ensures TopologicalOrder(g, Schedule(g))
    ensures forall n :: n in g.nodes <==> n in Schedule(g)
  {
    ScheduleFromSound(g, []);
    StuckMeansComplete(g, rank, Schedule(g));
  }

  lemma {:induction false} FirstReadyAt(g: Topology, done: seq<Stage>, i: nat, k: nat)
    requires i <= k < |g.nodes| && Ready(g, done, g.nodes[k])
    requires forall j :: i <= j < k ==> !Ready(g, done, g.nodes[j])
    ensures FirstReady(g, done, i) == Some(g.nodes[k])
    decreases k - i
  {
    if i < k {
      FirstReadyAt(g, done, i + 1, k);
    }
  }

  /** The driver's next pick is the first ready node in registration order. */
  lemma ScheduleAdvance(g: Topology, done: seq<Stage>, k: nat)
    requires k < |g.nodes| && Ready(g, done, g.nodes[k])
    requires forall j :: 0 <= j < k ==> !Ready(g, done, g.nodes[j])
    ensures ScheduleFrom(g, done) == ScheduleFrom(g, done + [g.nodes[k]])
  {
    FirstReadyAt(g, done, 0, k);
  }

  /** The driver stops once every node has run. */
  lemma ScheduleStop(g: Topology, done: seq<Stage>)
    requires forall n :: n in g.nodes ==> n in done
    ensures ScheduleFrom(g, done) == done
  {
    assert FirstReady(g, done, 0).None?;
  }

  lemma FullPicksParse(g: Topology)
    requires g == FullTopology()
    ensures ScheduleFrom(g, []) == ScheduleFrom(g, [Parse])
  {
    var d: seq<Stage> := [];
    assert d + [Parse] == [Parse];
    assert Ready(g, d, Parse) by { FullTopologyPredecessors(); }
    ScheduleAdvance(g, d, 0);
  }

  lemma FullPicksEvaluate(g: Topology)
    requires g == FullTopology()
    ensures ScheduleFrom(g, [Parse]) == ScheduleFrom(g, [Parse, Evaluate])
  {
    var d: seq<Stage> := [Parse];
    assert d + [Evaluate] == [Parse, Evaluate];
    assert Ready(g, d, Evaluate) by { FullTopologyPredecessors(); }
    ScheduleAdvance(g, d, 1);
  }

  lemma FullPicksSynthesize(g: Topology)
    requires g == FullTopology()
    ensures ScheduleFrom(g, [Parse, Evaluate]) == ScheduleFrom(g, [Parse, Evaluate, Synthesize])
  {
    var d: seq<Stage> := [Parse, Evaluate];
    assert d + [Synthesize] == [Parse, Evaluate, Synthesize];
    assert Ready(g, d, Synthesize) by { FullTopologyPredecessors(); }
    ScheduleAdvance(g, d, 2);
  }

  lemma FullPicksAssessRisk(g: Topology)
    requires g == FullTopology()
    ensures ScheduleFrom(g, [Parse, Evaluate, Synthesize]) == ScheduleFrom(g, [Parse, Evaluate, Synthesize, AssessRisk])
  {
    var d: seq<Stage> := [Parse, Evaluate, Synthesize];
    assert d + [AssessRisk] == [Parse, Evaluate, Synthesize, AssessRisk];
    assert Ready(g, d, AssessRisk) by { FullTopologyPredecessors(); }
    ScheduleAdvance(g, d, 3);
  }

  lemma FullPicksPlanTreatment(g: Topology)
    requires g == FullTopology()
    ensures ScheduleFrom(g, [Parse, Evaluate, Synthesize, AssessRisk]) == ScheduleFrom(g, [Parse, Evaluate, Synthesize, AssessRisk, PlanTreatment])
  {
    var d: seq<Stage> := [Parse, Evaluate, Synthesize, AssessRisk];
    assert d + [PlanTreatment] == [Parse, Evaluate, Synthesize, AssessRisk, PlanTreatment];
    assert Ready(g, d, PlanTreatment) by { FullTopologyPredecessors(); }
    ScheduleAdvance(g, d, 4);
  }

  /** The order the driver picks for the full graph. */
  lemma FullSchedule(g: Topology)
    requires g == FullTopology()
    ensures Schedule(g) == [Parse, Evaluate, Synthesize, AssessRisk, PlanTreatment]
  {
    var d: seq<Stage> := [];
    FullPicksParse(g);
    FullPicksEvaluate(g);
    FullPicksSynthesize(g);
    FullPicksAssessRisk(g);
    FullPicksPlanTreatment(g);
    ScheduleStop(g, [Parse, Evaluate, Synthesize, AssessRisk, PlanTreatment]);
    assert Schedule(g) == ScheduleFrom(g, d);
  }

  /** The order the driver picks for the simple graph. */
  lemma SimpleSchedule(g: Topology)
    requires g == SimpleTopology()
    ensures Schedule(g) == [Parse, Evaluate, Synthesize]
  {
    var d0: seq<Stage> := [];
    var d1 := d0 + [Parse];
    var d2 := d1 + [Evaluate];
    var d3 := d2 + [Synthesize];
    assert Ready(g, d0, Parse) by { SimpleTopologyPredecessors(); }
    ScheduleAdvance(g, d0, 0);
    assert Ready(g, d1, Evaluate) by { SimpleTopologyPredecessors(); }
    ScheduleAdvance(g, d1, 1);
    assert Ready(g, d2, Synthesize) by { SimpleTopologyPredecessors(); }
    ScheduleAdvance(g, d2, 2);
    ScheduleStop(g, d3);
    assert Schedule(g) == ScheduleFrom(g, d0);
    assert d3 == [Parse, Evaluate, Synthesize];
  }

  // ---------------------------------------------------------------------
  // Guarded execution (build_graph)
  // ---------------------------------------------------------------------

  /** Runs the stages of `order` one after another; `timing` stands for the
      measured processing time of each stage. */
  function Execute(order: seq<Stage>, st: WorkflowState, agent: (Stage, AgentInput) -> Outcome, timing: Stage -> nat): WorkflowState
    decreases |order|
  {
    if order == [] then st
    else
      var s := order[|order| - 1];
      Step(s, Execute(order[..|order| - 1], st, agent, timing), agent, timing(s))
  }

  /** `invoke` of a compiled graph on a fresh state, by the driver's order. */
  function Run(g: Topology, note: string, sessionId: Option<string>, agent: (Stage, AgentInput) -> Outcome, timing: Stage -> nat): WorkflowState
  {
    Execute(Schedule(g), NewState(note, sessionId), agent, timing)
  }

  /** The error line a failed result stands for. */
  function FailureMessage(r: AgentResult): string
  {
    match StageOfAgent(r.agentName)
    case Some(s) => ErrorPrefix(s) + r.error.GetOr("")
    case None => r.error.GetOr("")
  }

  /** The error lines of the failed results, in order. */
  function FailureMessages(results: seq<AgentResult>): seq<string>
  {
    if results == [] then []
    else
      var r := results[|results| - 1];
      FailureMessages(results[..|results| - 1]) + (if r.success then [] else [FailureMessage(r)])
  }

  function AgentNames(results: seq<AgentResult>): seq<string>
  {
    seq(|results|, k requires 0 <= k < |results| => results[k].agentName)
  }

  function Owned(order: seq<Stage>): set<Field>
  {
    set s | s in order :: OwnedField(s)
  }

  /** One guarded step in uniform terms: one result is appended (to an
      empty list for the parser) whose output is what the stage's field
      now holds, and an error line is appended exactly when it failed. */
  lemma StepAppends(s: Stage, st: WorkflowState, agent: (Stage, AgentInput) -> Outcome, t: nat)
    ensures var st' := Step(s, st, agent, t);
      var prior := if s == Parse then [] else st.agentResults;
      var r := st'.agentResults[|st'.agentResults| - 1];
      && |st'.agentResults| > 0
      && st'.agentResults == prior + [r]
      && r.agentName == AgentName(s)
      && r.output == Get(st', OwnedField(s))
      && (r.success <==> r.output.Some?)
      && st'.errors == (if r.success then st.errors else (if s == Parse then [] else st.errors) + [FailureMessage(r)])
      && (forall f :: f != OwnedField(s) ==> Get(st', f) == Get(st, f))
      && st'.note == st.note && st'.sessionId == st.sessionId && st'.warnings == st.warnings
      && st'.workflowVersion == st.workflowVersion && st'.processingTime == st.processingTime
  {
    match agent(s, AgentInputOf(s, st))
    case Replied(reply) => WrapperOnSuccess(s, st, reply, t);
    case Raised(msg) => WrapperOnFailure(s, st, msg, t);
  }

  /** What a run of `order` from `st` leaves behind: one result per stage,
      in order; each stage's field holds exactly its result's output;
      `errors` lists the failures in order; every other field is kept. */
  ghost predicate Accounted(order: seq<Stage>, st: WorkflowState, st': WorkflowState)
  {
    && |st'.agentResults| == |order|
    && (forall k :: 0 <= k < |order| ==> st'.agentResults[k].agentName == AgentName(order[k]))
    && (forall k :: 0 <= k < |order| ==> Get(st', OwnedField(order[k])) == st'.agentResults[k].output)
    && (forall k :: 0 <= k < |order| ==> (st'.agentResults[k].success <==> st'.agentResults[k].output.Some?))
    && st'.errors == FailureMessages(st'.agentResults)
    && (forall f :: f !in Owned(order) ==> Get(st', f) == Get(st, f))
    && st'.note == st.note && st'.sessionId == st.sessionId && st'.warnings == st.warnings
    && st'.workflowVersion == st.workflowVersion && st'.processingTime == st.processingTime
  }

  lemma AccountedFirst(st: WorkflowState, agent: (Stage, AgentInput) -> Outcome, t: nat)
    requires st.errors == []
    ensures Accounted([Parse], st, Step(Parse, st, agent, t))
  {
    var st' := Step(Parse, st, agent, t);
    StepAppends(Parse, st, agent, t);
    var r := st'.agentResults[0];
    assert st'.agentResults == [r];
    assert [r][..0] == [];
    assert FailureMessages(st'.agentResults) == (if r.success then [] else [FailureMessage(r)]);
    assert Owned([Parse]) == {DataField};
  }

  lemma AccountedNext(init: seq<Stage>, s: Stage, st: WorkflowState, prior: WorkflowState, agent: (Stage, AgentInput) -> Outcome, t: nat)
    requires Accounted(init, st, prior) && s !in init && s != Parse
    ensures Accounted(init + [s], st, Step(s, prior, agent, t))
  {
    var order := init + [s];
    var st' := Step(s, prior, agent, t);
    StepAppends(s, prior, agent, t);
    var r := st'.agentResults[|st'.agentResults| - 1];
    assert st'.agentResults[..|init|] == prior.agentResults;
    assert FailureMessages(st'.agentResults) == FailureMessages(prior.agentResults) + (if r.success then [] else [FailureMessage(r)]);
    forall k | 0 <= k < |order| ensures Get(st', OwnedField(order[k])) == st'.agentResults[k].output {
      if k < |init| {
        assert order[k] == init[k];
        OwnedFieldInjective(init[k], s);
      }
    }
    forall f | f !in Owned(order) ensures Get(st', f) == Get(st, f) {
      assert f != OwnedField(s);
      assert f !in Owned(init);
    }
  }

  /** Running stages that start with the parser and never repeat, from a
      state without errors, is accounted for stage by stage. */
  lemma {:induction false} ExecuteFromParse(order: seq<Stage>, st: WorkflowState, agent: (Stage, AgentInput) -> Outcome, timing: Stage -> nat)
    requires |order| > 0 && order[0] == Parse && Distinct(order) && st.errors == []
    ensures Accounted(order, st, Execute(order, st, agent, timing))
    decreases |order|
  {
    var s := order[|order| - 1];
    var init := order[..|order| - 1];
    assert order == init + [s];
    if |order| == 1 {
      assert order == [Parse];
      assert [Parse][..0] == [];
      AccountedFirst(st, agent, timing(Parse));
    } else {
      assert init[0] == Parse && Distinct(init) by {
        assert forall i :: 0 <= i < |init| ==> init[i] == order[i];
      }
      ExecuteFromParse(init, st, agent, timing);
      assert s != Parse && s !in init by {
        assert forall i :: 0 <= i < |init| ==> init[i] == order[i];
      }
      var prior := Execute(init, st, agent, timing);
      assert Execute(order, st, agent, timing) == Step(s, prior, agent, timing(s));
      AccountedNext(init, s, st, prior, agent, timing(s));
    }
  }

  /** The results of any run accounted for along the full graph's order. */
  predicate FullOutcome(st0: WorkflowState, st: WorkflowState)
  {
    && AgentNames(st.agentResults) == ["parser", "evaluator", "synthesizer", "risk_assessor", "treatment_planner"]
    && st.data == st.agentResults[0].output
    && st.validatedData == st.agentResults[1].output
    && st.report == st.agentResults[2].output
    && st.riskAssessment == st.agentResults[3].output
    && st.treatmentPlan == st.agentResults[4].output
    && (forall k :: 0 <= k < 5 ==> (st.agentResults[k].success <==> st.agentResults[k].output.Some?))
    && st.errors == FailureMessages(st.agentResults)
    && st.warnings == st0.warnings && st.note == st0.note && st.sessionId == st0.sessionId
  }

  lemma AccountedFull(order: seq<Stage>, st0: WorkflowState, st: WorkflowState)
    requires order == [Parse, Evaluate, Synthesize, AssessRisk, PlanTreatment]
    requires Accounted(order, st0, st)
    ensures FullOutcome(st0, st)
  {
    assert order[0] == Parse && order[1] == Evaluate && order[2] == Synthesize && order[3] == AssessRisk && order[4] == PlanTreatment;
    assert Get(st, OwnedField(order[0])) == st.agentResults[0].output;
    assert Get(st, OwnedField(order[1])) == st.agentResults[1].output;
    assert Get(st, OwnedField(order[2])) == st.agentResults[2].output;
    assert Get(st, OwnedField(order[3])) == st.agentResults[3].output;
    assert Get(st, OwnedField(order[4])) == st.agentResults[4].output;
  }

  /** A full run from a fresh state: five results named after the five
      stages in order, whatever fails; each output field holds its stage's
      output; `errors` lists the failures; `warnings` stays empty. */
  lemma FullRun(note: string, sessionId: Option<string>, agent: (Stage, AgentInput) -> Outcome, timing: Stage -> nat)
    ensures FullOutcome(NewState(note, sessionId), Run(FullTopology(), note, sessionId, agent, timing))
  {
    var g := FullTopology();
    FullSchedule(g);
    FullOrderOutcome(Schedule(g), NewState(note, sessionId), agent, timing);
  }

  lemma FullOrderOutcome(order: seq<Stage>, st0: WorkflowState, agent: (Stage, AgentInput) -> Outcome, timing: Stage -> nat)
    requires order == [Parse, Evaluate, Synthesize, AssessRisk, PlanTreatment] && st0.errors == []
    ensures FullOutcome(st0, Execute(order, st0, agent, timing))
  {
    ExecuteFromParse(order, st0, agent, timing);
    AccountedFull(order, st0, Execute(order, st0, agent, timing));
  }

  /** A failed parser does not stop the run: the evaluator and the risk
      assessor are still called, with no parsed data. */
  lemma FailedParseFeedsNone(note: string, sessionId: Option<string>, agent: (Stage, AgentInput) -> Outcome, timing: Stage -> nat)
    requires agent(Parse, NoteInput(note)).Raised?
    ensures var st := Execute([Parse], NewState(note, sessionId), agent, timing);
      && AgentInputOf(Evaluate, st) == FieldInput(None)
      && AgentInputOf(AssessRisk, st) == RiskInput(note, None)
      && st.errors == ["Parser failed: " + agent(Parse, NoteInput(note)).message]
  {
    assert [Parse][..0] == [];
  }

  /** The outcome of the synthesizer cannot change the risk assessment or
      the treatment plan: those stages never read the report. */
  lemma ReportDoesNotReachPlan(note: string, sessionId: Option<string>, a1: (Stage, AgentInput) -> Outcome, a2: (Stage, AgentInput) -> Outcome, timing: Stage -> nat)
    requires forall s, x :: s != Synthesize ==> a1(s, x) == a2(s, x)
    ensures Run(FullTopology(), note, sessionId, a1, timing).riskAssessment == Run(FullTopology(), note, sessionId, a2, timing).riskAssessment
    ensures Run(FullTopology(), note, sessionId, a1, timing).treatmentPlan == Run(FullTopology(), note, sessionId, a2, timing).treatmentPlan
  {
    var g := FullTopology();
    FullSchedule(g);
    ReportIndependence([Parse, Evaluate], Schedule(g), NewState(note, sessionId), a1, a2, timing);
  }

  lemma ReportIndependence(o2: seq<Stage>, o5: seq<Stage>, st0: WorkflowState, a1: (Stage, AgentInput) -> Outcome, a2: (Stage, AgentInput) -> Outcome, timing: Stage -> nat)
    requires Synthesize !in o2 && o5 == o2 + [Synthesize, AssessRisk, PlanTreatment]
    requires forall s, x :: s != Synthesize ==> a1(s, x) == a2(s, x)
    ensures Execute(o5, st0, a1, timing).riskAssessment == Execute(o5, st0, a2, timing).riskAssessment
    ensures Execute(o5, st0, a2, timing).treatmentPlan == Execute(o5, st0, a1, timing).treatmentPlan
  {
    UnrollAfterEvaluate(o2, o5, st0, a1, timing);
    UnrollAfterEvaluate(o2, o5, st0, a2, timing);
    SameAgentsSameRun(o2, Synthesize, st0, a1, a2, timing);
    IndependentOfSynthesis(Execute(o2, st0, a1, timing), a1, a2, timing);
  }

  /** The full run is the last three stages applied to the run of the
      first two. */
  lemma UnrollAfterEvaluate(o2: seq<Stage>, o5: seq<Stage>, st0: WorkflowState, agent: (Stage, AgentInput) -> Outcome, timing: Stage -> nat)
    requires o5 == o2 + [Synthesize, AssessRisk, PlanTreatment]
    ensures Execute(o5, st0, agent, timing)
      == Step(PlanTreatment, Step(AssessRisk, Step(Synthesize, Execute(o2, st0, agent, timing), agent, timing(Synthesize)), agent, timing(AssessRisk)), agent, timing(PlanTreatment))
  {
    var o3 := o2 + [Synthesize];
    var o4 := o3 + [AssessRisk];
    assert o5 == o4 + [PlanTreatment];
    ExecuteSnoc(o2, Synthesize, st0, agent, timing);
    ExecuteSnoc(o3, AssessRisk, st0, agent, timing);
    ExecuteSnoc(o4, PlanTreatment, st0, agent, timing);
  }

  lemma ExecuteSnoc(order: seq<Stage>, s: Stage, st: WorkflowState, agent: (Stage, AgentInput) -> Outcome, timing: Stage -> nat)
    ensures Execute(order + [s], st, agent, timing) == Step(s, Execute(order, st, agent, timing), agent, timing(s))
  {
    assert (order + [s])[..|order|] == order;
  }

  /** Runs of stages whose agents agree everywhere except on one stage that
      the run does not contain are equal. */
  lemma {:induction false} SameAgentsSameRun(order: seq<Stage>, skip: Stage, st: WorkflowState, a1: (Stage, AgentInput) -> Outcome, a2: (Stage, AgentInput) -> Outcome, timing: Stage -> nat)
    requires skip !in order
    requires forall s, x :: s != skip ==> a1(s, x) == a2(s, x)
    ensures Execute(order, st, a1, timing) == Execute(order, st, a2, timing)
    decreases |order|
  {
    if order != [] {
      var init := order[..|order| - 1];
      var s := order[|order| - 1];
      assert skip !in init && s != skip;
      SameAgentsSameRun(init, skip, st, a1, a2, timing);
      var prior := Execute(init, st, a1, timing);
      assert a1(s, AgentInputOf(s, prior)) == a2(s, AgentInputOf(s, prior));
    }
  }

  lemma IndependentOfSynthesis(p: WorkflowState, a1: (Stage, AgentInput) -> Outcome, a2: (Stage, AgentInput) -> Outcome, timing: Stage -> nat)
    requires forall s, x :: s != Synthesize ==> a1(s, x) == a2(s, x)
    ensures var q1, q2 := Step(Synthesize, p, a1, timing(Synthesize)), Step(Synthesize, p, a2, timing(Synthesize));
      var r1, r2 := Step(AssessRisk, q1, a1, timing(AssessRisk)), Step(AssessRisk, q2, a2, timing(AssessRisk));
      var u1, u2 := Step(PlanTreatment, r1, a1, timing(PlanTreatment)), Step(PlanTreatment, r2, a2, timing(PlanTreatment));
      && u1.riskAssessment == u2.riskAssessment
      && u1.treatmentPlan == u2.treatmentPlan
  {
    var q1, q2 := Step(Synthesize, p, a1, timing(Synthesize)), Step(Synthesize, p, a2, timing(Synthesize));
    StepOutput(Synthesize, p, a1, timing(Synthesize));
    StepOutput(Synthesize, p, a2, timing(Synthesize));
    assert Get(q1, DataField) == Get(q2, DataField);
    assert Get(q1, ValidatedDataField) == Get(q2, ValidatedDataField);
    var x := AgentInputOf(AssessRisk, q1);
    assert x == AgentInputOf(AssessRisk, q2);
    assert a1(AssessRisk, x) == a2(AssessRisk, x);
    var r1, r2 := Step(AssessRisk, q1, a1, timing(AssessRisk)), Step(AssessRisk, q2, a2, timing(AssessRisk));
    StepOutput(AssessRisk, q1, a1, timing(AssessRisk));
    StepOutput(AssessRisk, q2, a2, timing(AssessRisk));
    assert Get(r1, RiskAssessmentField) == Get(r2, RiskAssessmentField);
    assert Get(r1, ValidatedDataField) == Get(r2, ValidatedDataField);
    var y := AgentInputOf(PlanTreatment, r1);
    assert y == AgentInputOf(PlanTreatment, r2);
    assert a1(PlanTreatment, y) == a2(PlanTreatment, y);
    StepOutput(PlanTreatment, r1, a1, timing(PlanTreatment));
    StepOutput(PlanTreatment, r2, a2, timing(PlanTreatment));
    var u1, u2 := Step(PlanTreatment, r1, a1, timing(PlanTreatment)), Step(PlanTreatment, r2, a2, timing(PlanTreatment));
    assert Get(u1, TreatmentPlanField) == Get(u2, TreatmentPlanField);
    assert Get(u1, RiskAssessmentField) == Get(u2, RiskAssessmentField);
  }

  /** The text a stage leaves in its own field for an agent outcome. */
  function OutputOf(o: Outcome): Option<string>
  {
    match o
    case Replied(reply) => Some(ReplyText(reply))
    case Raised(_) => None
  }

  /** A step writes the outcome's text into the stage's own field and
      leaves the note and every other field as they were. */
  lemma StepOutput(s: Stage, st: WorkflowState, agent: (Stage, AgentInput) -> Outcome, t: nat)
    ensures var st' := Step(s, st, agent, t);
      && Get(st', OwnedField(s)) == OutputOf(agent(s, AgentInputOf(s, st)))
      && (forall f :: f != OwnedField(s) ==> Get(st', f) == Get(st, f))
      && st'.note == st.note
  {
    match agent(s, AgentInputOf(s, st))
    case Replied(reply) => WrapperOnSuccess(s, st, reply, t);
    case Raised(msg) => WrapperOnFailure(s, st, msg, t);
  }

  // ---------------------------------------------------------------------
  // Unguarded execution (build_simple_graph)
  // ---------------------------------------------------------------------

  /** Runs unguarded stages in order; the first agent error aborts the run. */
  function ExecuteUnguarded(order: seq<Stage>, st: WorkflowState, agent: (Stage, AgentInput) -> Outcome): Result<WorkflowState, string>
    decreases |order|
  {
    if order == [] then Ok(st)
    else
      match ExecuteUnguarded(order[..|order| - 1], st, agent)
      case Err(msg) => Err(msg)
      case Ok(prior) => UnguardedStep(order[|order| - 1], prior, agent)
  }

  function RunSimple(note: string, sessionId: Option<string>, agent: (Stage, AgentInput) -> Outcome): Result<WorkflowState, string>
  {
    ExecuteUnguarded(Schedule(SimpleTopology()), NewState(note, sessionId), agent)
  }

  lemma SameInputs(s: Stage, a: WorkflowState, b: WorkflowState)
    requires SameOutputs(a, b)
    ensures AgentInputOf(s, a) == AgentInputOf(s, b)
  {
    assert Get(a, DataField) == Get(b, DataField);
    assert Get(a, ValidatedDataField) == Get(b, ValidatedDataField);
    assert Get(a, RiskAssessmentField) == Get(b, RiskAssessmentField);
  }

  predicate SameOutputs(a: WorkflowState, b: WorkflowState)
  {
    a.note == b.note && forall f :: Get(a, f) == Get(b, f)
  }

  predicate AllSucceeded(results: seq<AgentResult>)
  {
    forall k :: 0 <= k < |results| ==> results[k].success
  }

  /** The first failed result carries `msg`. */
  predicate FailsFirstWith(results: seq<AgentResult>, msg: string)
  {
    exists k :: 0 <= k < |results| && !results[k].success && results[k].error == Some(msg) && AllSucceeded(results[..k])
  }

  /** An unguarded run `u` matches a guarded run `g` on the same agents. */
  predicate Agrees(u: Result<WorkflowState, string>, g: WorkflowState)
  {
    && (u.Ok? <==> AllSucceeded(g.agentResults))
    && (u.Ok? ==> SameOutputs(u.value, g))
    && (u.Err? ==> FailsFirstWith(g.agentResults, u.error))
  }

  lemma AgreesFirst(st: WorkflowState, agent: (Stage, AgentInput) -> Outcome, t: nat)
    ensures Agrees(UnguardedStep(Parse, st, agent), Step(Parse, st, agent, t))
  {
    var g := Step(Parse, st, agent, t);
    StepAppends(Parse, st, agent, t);
    assert |g.agentResults| == 1;
    assert g.agentResults[..0] == [];
    match agent(Parse, AgentInputOf(Parse, st))
    case Replied(reply) => WrapperOnSuccess(Parse, st, reply, t);
    case Raised(msg) => WrapperOnFailure(Parse, st, msg, t);
  }

  lemma AgreesNext(u: Result<WorkflowState, string>, g: WorkflowState, s: Stage, agent: (Stage, AgentInput) -> Outcome, t: nat)
    requires Agrees(u, g) && s != Parse
    ensures Agrees(if u.Err? then u else UnguardedStep(s, u.value, agent), Step(s, g, agent, t))
  {
    var g' := Step(s, g, agent, t);
    StepAppends(s, g, agent, t);
    assert g'.agentResults[..|g.agentResults|] == g.agentResults;
    if u.Err? {
      var k :| 0 <= k < |g.agentResults| && !g.agentResults[k].success && g.agentResults[k].error == Some(u.error)
               && AllSucceeded(g.agentResults[..k]);
      assert g'.agentResults[k] == g.agentResults[k];
      assert g'.agentResults[..k] == g.agentResults[..k];
      assert !AllSucceeded(g'.agentResults);
    } else {
      SameInputs(s, u.value, g);
      match agent(s, AgentInputOf(s, g))
      case Replied(reply) =>
        WrapperOnSuccess(s, g, reply, t);
      case Raised(msg) =>
        WrapperOnFailure(s, g, msg, t);
        assert g'.agentResults[..|g.agentResults|] == g.agentResults;
        assert !AllSucceeded(g'.agentResults);
    }
  }

  /** The unguarded nodes against the guarded wrappers on the same agents:
      the unguarded run completes exactly when every guarded stage
      succeeds, and then both hold the same outputs; otherwise it fails with
      the message of the first failing stage. */
  lemma {:induction false} UnguardedAgreesWithGuarded(order: seq<Stage>, st: WorkflowState, agent: (Stage, AgentInput) -> Outcome, timing: Stage -> nat)
    requires |order| > 0 && order[0] == Parse && Distinct(order)
    ensures Agrees(ExecuteUnguarded(order, st, agent), Execute(order, st, agent, timing))
    decreases |order|
  {
    var s := order[|order| - 1];
    var init := order[..|order| - 1];
    if |order| == 1 {
      assert order == [Parse];
      assert [Parse][..0] == [];
      AgreesFirst(st, agent, timing(Parse));
    } else {
      assert init[0] == Parse && Distinct(init) by {
        assert forall i :: 0 <= i < |init| ==> init[i] == order[i];
      }
      UnguardedAgreesWithGuarded(init, st, agent, timing);
      assert s != Parse by { assert order[0] == Parse && order[|order| - 1] == s; }
      AgreesNext(ExecuteUnguarded(init, st, agent), Execute(init, st, agent, timing), s, agent, timing(s));
    }
  }

  /** The simple workflow against the guarded wrappers run along the same
      order: it completes exactly when no guarded stage records an error,
      and then all three outputs are set and the report is the same;
      otherwise it fails with the first failing stage's message. */
  lemma SimpleRunOutcome(note: string, sessionId: Option<string>, agent: (Stage, AgentInput) -> Outcome, timing: Stage -> nat)
    ensures var r := RunSimple(note, sessionId, agent);
      var g := Run(SimpleTopology(), note, sessionId, agent, timing);
      && (r.Ok? <==> g.errors == [])
      && (r.Ok? ==> r.value.data.Some? && r.value.validatedData.Some? && r.value.report.Some? && r.value.report == g.report)
      && (r.Err? ==> FailsFirstWith(g.agentResults, r.error))
  {
    var g := SimpleTopology();
    SimpleSchedule(g);
    SimpleOrderOutcome(Schedule(g), NewState(note, sessionId), agent, timing);
  }

  lemma SimpleOrderOutcome(order: seq<Stage>, st0: WorkflowState, agent: (Stage, AgentInput) -> Outcome, timing: Stage -> nat)
    requires order == [Parse, Evaluate, Synthesize] && st0.errors == []
    ensures var r := ExecuteUnguarded(order, st0, agent);
      var g := Execute(order, st0, agent, timing);
      && (r.Ok? <==> g.errors == [])
      && (r.Ok? ==> r.value.data.Some? && r.value.validatedData.Some? && r.value.report.Some? && r.value.report == g.report)
      && (r.Err? ==> FailsFirstWith(g.agentResults, r.error))
  {
    ExecuteFromParse(order, st0, agent, timing);
    UnguardedAgreesWithGuarded(order, st0, agent, timing);
    var g := Execute(order, st0, agent, timing);
    var r := ExecuteUnguarded(order, st0, agent);
    FailureMessagesEmpty(g.agentResults);
    if r.Ok? {
      assert order[0] == Parse && order[1] == Evaluate && order[2] == Synthesize;
      assert Get(g, OwnedField(order[0])) == g.agentResults[0].output;
      assert Get(g, OwnedField(order[1])) == g.agentResults[1].output;
      assert Get(g, OwnedField(order[2])) == g.agentResults[2].output;
      assert Get(r.value, DataField) == Get(g, DataField);
      assert Get(r.value, ValidatedDataField) == Get(g, ValidatedDataField);
      assert Get(r.value, ReportField) == Get(g, ReportField);
    }
  }

  /** The simple workflow spelled out by hand: the parser on the note, the
      evaluator on the parser's text, the synthesizer on the evaluator's
      text; the first raising agent's message ends it. On success it gives
      the three texts in that order. */
  function Chained(note: string, agent: (Stage, AgentInput) -> Outcome): Result<(string, string, string), string>
  {
    match agent(Parse, NoteInput(note))
    case Raised(m) => Err(m)
    case Replied(p) =>
      match agent(Evaluate, FieldInput(Some(ReplyText(p))))
      case Raised(m) => Err(m)
      case Replied(e) =>
        match agent(Synthesize, FieldInput(Some(ReplyText(e))))
        case Raised(m) => Err(m)
        case Replied(y) => Ok((ReplyText(p), ReplyText(e), ReplyText(y)))
  }

  /** The simple workflow computes the hand-chained replies: it fails with
      the same message, or sets data, validated data and report to the three
      texts. */
  lemma SimpleRunChained(note: string, sessionId: Option<string>, agent: (Stage, AgentInput) -> Outcome)
    ensures var r := RunSimple(note, sessionId, agent);
      var c := Chained(note, agent);
      && (r.Err? <==> c.Err?)
      && (r.Err? ==> r.error == c.error)
      && (r.Ok? ==> r.value.data == Some(c.value.0) && r.value.validatedData == Some(c.value.1) && r.value.report == Some(c.value.2))
  {
    var g := SimpleTopology();
    SimpleSchedule(g);
    SimpleOrderChained(Schedule(g), NewState(note, sessionId), agent);
  }

  lemma SimpleOrderChained(order: seq<Stage>, st0: WorkflowState, agent: (Stage, AgentInput) -> Outcome)
    requires order == [Parse, Evaluate, Synthesize]
    ensures var r := ExecuteUnguarded(order, st0, agent);
      var c := Chained(st0.note, agent);
      && (r.Err? <==> c.Err?)
      && (r.Err? ==> r.error == c.error)
      && (r.Ok? ==> r.value.data == Some(c.value.0) && r.value.validatedData == Some(c.value.1) && r.value.report == Some(c.value.2))
  {
    var o1, o2 := [Parse], [Parse, Evaluate];
    assert o1[..0] == [] && o2[..1] == o1 && order[..2] == o2;
    var r1 := ExecuteUnguarded(o1, st0, agent);
    assert r1 == UnguardedStep(Parse, st0, agent);
    var r2 := ExecuteUnguarded(o2, st0, agent);
    var r := ExecuteUnguarded(order, st0, agent);
    if r1.Ok? {
      assert r1.value.data.Some? && r1.value.note == st0.note;
      if r2.Ok? {
        assert r2.value.data == r1.value.data && r2.value.validatedData.Some?;
      }
    }
  }

  /** No error lines exactly when every result is a success. */
  lemma {:induction false} FailureMessagesEmpty(results: seq<AgentResult>)
    ensures FailureMessages(results) == [] <==> forall k :: 0 <= k < |results| ==> results[k].success
    decreases |results|
  {
    if results != [] {
      var init := results[..|results| - 1];
      FailureMessagesEmpty(init);
      assert forall k :: 0 <= k < |init| ==> init[k] == results[k];
    }
  }
}
