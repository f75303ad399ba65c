/** The AI service's HTTP handlers, reduced to what they compute: the note
    they build, the workflow they run and the response they assemble from
    the final state. Timing is a parameter. */
module AiRouters {
  import opened Wrappers
  import opened Models
  import opened AiState
  import opened AiGraph
  import opened AiWorkflow

  /** The values a caller reads from a finished run, each possibly absent. */
  datatype ResultView = ResultView(
    report: Option<string>,
    riskAssessment: Option<string>,
    treatmentPlan: Option<string>,
    agentResults: Option<seq<AgentResult>>,
    errors: Option<seq<string>>,
    warnings: Option<seq<string>>)

  /** A finished workflow state carries every list. */
  function ViewOf(st: WorkflowState): ResultView
  {
    ResultView(st.report, st.riskAssessment, st.treatmentPlan, Some(st.agentResults), Some(st.errors), Some(st.warnings))
  }

  datatype SimpleResponse = SimpleResponse(
    sessionId: string, success: bool, workflowType: string, patientReport: Option<string>, processingTime: nat)

  datatype FullResponse = FullResponse(
    sessionId: string, success: bool, workflowType: string,
    patientReport: Option<string>, riskAssessment: Option<string>, treatmentRecommendations: Option<string>,
    agentResults: seq<AgentResult>, processingTime: nat, errors: seq<string>, warnings: seq<string>)

  // ---------------------------------------------------------------------
  // process_note_simple / process_note_full
  // ---------------------------------------------------------------------

  /** `process_note_simple`: run the simple workflow; an escaping agent
      error becomes HTTP 500. */
  function ProcessNoteSimple(input: PatientNoteInput, agent: (Stage, AgentInput) -> Outcome, elapsed: nat): Result<SimpleResponse, HttpError>
    requires ValidPatientNoteInput(input)
  {
    match RunSimple(input.note, Some(input.sessionId), agent)
    case Err(msg) => Err(HttpError(500, "AI processing failed: " + msg))
    case Ok(st) => Ok(SimpleResponse(input.sessionId, true, "simple", st.report, elapsed))
  }

  /** The response of `process_note_full` for a result dict. */
  function FullResponseOf(sessionId: string, view: ResultView, elapsed: nat): (r: FullResponse)
    ensures r.success && r.workflowType == "full" && r.sessionId == sessionId
    ensures r.patientReport == view.report && r.riskAssessment == view.riskAssessment
    ensures r.treatmentRecommendations == view.treatmentPlan
    ensures r.agentResults == (if view.agentResults.Some? then view.agentResults.value else [])
    ensures r.errors == (if view.errors.Some? then view.errors.value else [])
    ensures r.warnings == (if view.warnings.Some? then view.warnings.value else [])
  {
    FullResponse(sessionId, true, "full", view.report, view.riskAssessment, view.treatmentPlan,
                 view.agentResults.GetOr([]), elapsed, view.errors.GetOr([]), view.warnings.GetOr([]))
  }

  /** `process_note_full`: run the full workflow and assemble the response. */
  function ProcessNoteFull(input: PatientNoteInput, agent: (Stage, AgentInput) -> Outcome, timing: Stage -> nat, elapsed: nat): Result<FullResponse, HttpError>
    requires ValidPatientNoteInput(input)
  {
    Ok(FullResponseOf(input.sessionId, ViewOf(Run(FullTopology(), input.note, Some(input.sessionId), agent, timing)), elapsed))
  }

  /** The simple endpoint answers 500 exactly when an agent raised, with
      the first raising agent's message; otherwise it reports success and
      the synthesizer's reply to the evaluator's reply to the parser's reply
      on the note. */
  lemma ProcessNoteSimpleOutcome(input: PatientNoteInput, agent: (Stage, AgentInput) -> Outcome, elapsed: nat)
    requires ValidPatientNoteInput(input)
    ensures var r := ProcessNoteSimple(input, agent, elapsed);
      var c := Chained(input.note, agent);
      && (r.Err? <==> c.Err?)
      && (r.Err? ==> r.error == HttpError(500, "AI processing failed: " + c.error))
      && (r.Ok? ==> r.value.success && r.value.workflowType == "simple" && r.value.sessionId == input.sessionId)
      && (r.Ok? ==> r.value.patientReport == Some(c.value.2))
  {
    SimpleRunChained(input.note, Some(input.sessionId), agent);
  }

  /** The full endpoint always answers with `success` true, even when stages
      failed: the failures only show in `errors`, one line per failed result,
      next to the five results in stage order. */
  lemma ProcessNoteFullOutcome(input: PatientNoteInput, agent: (Stage, AgentInput) -> Outcome, timing: Stage -> nat, elapsed: nat)
    requires ValidPatientNoteInput(input)
    ensures ProcessNoteFull(input, agent, timing, elapsed).Ok?
    ensures var r := ProcessNoteFull(input, agent, timing, elapsed).value;
      && r.success && r.workflowType == "full"
      && AgentNames(r.agentResults) == ["parser", "evaluator", "synthesizer", "risk_assessor", "treatment_planner"]
      && r.errors == FailureMessages(r.agentResults)
      && r.patientReport == r.agentResults[2].output
      && r.riskAssessment == r.agentResults[3].output
      && r.treatmentRecommendations == r.agentResults[4].output
      && r.warnings == []
  {
    FullRun(input.note, Some(input.sessionId), agent, timing);
  }

  // ---------------------------------------------------------------------
  // analyze_symptoms / generate_treatment_plan
  // ---------------------------------------------------------------------

  /** The note `analyze_symptoms` builds; an absent or empty context adds
      nothing. */
  function SymptomNote(symptoms: string, context: Option<string>): (note: string)
    ensures |note| >= 10 + |symptoms|
    ensures note[..10] == "Symptoms: " && note[10..10 + |symptoms|] == symptoms
    ensures context.None? || context.value == "" ==> note == "Symptoms: " + symptoms
    ensures context.Some? && context.value != "" ==> note == "Symptoms: " + symptoms + "\nPatient Context: " + context.value
  {
    var base := "Symptoms: " + symptoms;
    match context
    case Some(c) => if c != "" then base + "\nPatient Context: " + c else base
    case None => base
  }

  datatype SymptomResponse = SymptomResponse(symptoms: string, analysis: Option<string>, confidence: nat, recommendations: seq<string>)

  function AnalyzeSymptoms(symptoms: string, context: Option<string>, agent: (Stage, AgentInput) -> Outcome): Result<SymptomResponse, HttpError>
  {
    match RunSimple(SymptomNote(symptoms, context), None, agent)
    case Err(msg) => Err(HttpError(500, "Symptom analysis failed: " + msg))
    case Ok(st) => Ok(SymptomResponse(symptoms, st.report, 85,
                      ["Consult with healthcare provider", "Monitor symptoms", "Follow up if symptoms worsen"]))
  }

  /** The parser is handed the built note; a raising agent gives 500 with
      its message; otherwise the analysis is the synthesizer's reply in the
      chain started on that note, at confidence 0.85, with the three fixed
      recommendations. */
  lemma AnalyzeSymptomsOutcome(symptoms: string, context: Option<string>, agent: (Stage, AgentInput) -> Outcome)
    ensures var r := AnalyzeSymptoms(symptoms, context, agent);
      var c := Chained(SymptomNote(symptoms, context), agent);
      && (r.Err? <==> c.Err?)
      && (r.Err? ==> r.error == HttpError(500, "Symptom analysis failed: " + c.error))
      && (r.Ok? ==> r.value.symptoms == symptoms && r.value.analysis == Some(c.value.2) && r.value.confidence == 85)
      && (r.Ok? ==> r.value.recommendations == ["Consult with healthcare provider", "Monitor symptoms", "Follow up if symptoms worsen"])
  {
    SimpleRunChained(SymptomNote(symptoms, context), None, agent);
  }

  /** The note `generate_treatment_plan` builds; `patientData` is the
      rendering of the patient data dict. */
  function TreatmentNote(diagnosis: string, patientData: string): (note: string)
    ensures |note| == 11 + |diagnosis| + 15 + |patientData|
    ensures note[11..11 + |diagnosis|] == diagnosis && note[|note| - |patientData|..] == patientData
  {
    "Diagnosis: " + diagnosis + "\nPatient Data: " + patientData
  }

  datatype TreatmentResponse = TreatmentResponse(diagnosis: string, treatmentPlan: Option<string>, riskAssessment: Option<string>, confidence: nat, disclaimer: string)

  function GenerateTreatmentPlan(diagnosis: string, patientData: string, agent: (Stage, AgentInput) -> Outcome, timing: Stage -> nat): Result<TreatmentResponse, HttpError>
  {
    var st := Run(FullTopology(), TreatmentNote(diagnosis, patientData), None, agent, timing);
    Ok(TreatmentResponse(diagnosis, st.treatmentPlan, st.riskAssessment, 80,
       "This is AI-generated information. Always consult healthcare professionals."))
  }

  /** The plan and the risk assessment come from their stages' results; the
      plan is absent exactly when the planner failed. */
  lemma GenerateTreatmentPlanOutcome(diagnosis: string, patientData: string, agent: (Stage, AgentInput) -> Outcome, timing: Stage -> nat)
    ensures var r := GenerateTreatmentPlan(diagnosis, patientData, agent, timing);
      var st := Run(FullTopology(), TreatmentNote(diagnosis, patientData), None, agent, timing);
      && r.Ok? && r.value.confidence == 80 && |st.agentResults| == 5
      && r.value.treatmentPlan == st.agentResults[4].output
      && r.value.riskAssessment == st.agentResults[3].output
      && (r.value.treatmentPlan.None? <==> !st.agentResults[4].success)
  {
    FullRun(TreatmentNote(diagnosis, patientData), None, agent, timing);
  }

  // ---------------------------------------------------------------------
  // get_workflow_info
  // ---------------------------------------------------------------------

  function SimpleWorkflowAgents(): seq<string> { ["parser", "evaluator", "synthesizer"] }

  function FullWorkflowAgents(): seq<string> { ["parser", "evaluator", "synthesizer", "risk_assessor", "treatment_planner"] }

  function AgentsOf(order: seq<Stage>): (r: seq<string>)
    ensures |r| == |order| && forall k :: 0 <= k < |order| ==> r[k] == AgentName(order[k])
  {
    seq(|order|, k requires 0 <= k < |order| => AgentName(order[k]))
  }

  /** The advertised agent lists are the agent names of the two graphs'
      stages, in the order the driver runs them. */
  lemma WorkflowInfoMatchesGraphs()
    ensures SimpleWorkflowAgents() == AgentsOf(Schedule(SimpleTopology()))
    ensures FullWorkflowAgents() == AgentsOf(Schedule(FullTopology()))
  {
    SimpleSchedule(SimpleTopology());
    FullSchedule(FullTopology());
    AgentsOfOrder(Schedule(SimpleTopology()), Schedule(FullTopology()));
  }

  lemma AgentsOfOrder(simple: seq<Stage>, full: seq<Stage>)
    requires simple == [Parse, Evaluate, Synthesize]
    requires full == [Parse, Evaluate, Synthesize, AssessRisk, PlanTreatment]
    ensures AgentsOf(simple) == SimpleWorkflowAgents() && AgentsOf(full) == FullWorkflowAgents()
  {
  }
}
