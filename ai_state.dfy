/** The records threaded through one AI workflow run. Times are whole
    milliseconds read from a clock the caller supplies; confidences are
    integer hundredths (90 stands for 0.9). */
module AiState {
  import opened Wrappers

  /** The outcome of one agent stage. */
  datatype AgentResult = AgentResult(
    agentName: string,
    success: bool,
    output: Option<string>,
    error: Option<string>,
    processingTime: nat,
    confidence: Option<nat>)

  /** `AgentResult(agent_name=…, success=…, processing_time=…)`: only the three
      required fields are given, the optional ones take their defaults. */
  function NewAgentResult(agentName: string, success: bool, processingTime: nat): (r: AgentResult)
    ensures r.agentName == agentName && r.success == success && r.processingTime == processingTime
    ensures r.output.None? && r.error.None? && r.confidence.None?
  {
    AgentResult(agentName, success, None, None, processingTime, None)
  }

  const WorkflowVersion: string := "1.0.0"

  /** One run's state. `agentResults` is kept explicitly: the stage wrappers
      read and write it although the declared state has no such field. */
  datatype WorkflowState = WorkflowState(
    note: string,
    sessionId: Option<string>,
    data: Option<string>,
    validatedData: Option<string>,
    report: Option<string>,
    riskAssessment: Option<string>,
    treatmentPlan: Option<string>,
    workflowVersion: string,
    processingTime: Option<nat>,
    errors: seq<string>,
    warnings: seq<string>,
    agentResults: seq<AgentResult>)

  /** `WorkflowState(note=…, session_id=…)`: only the note is required. */
  function NewState(note: string, sessionId: Option<string>): WorkflowState
  {
    WorkflowState(note, sessionId, None, None, None, None, None, WorkflowVersion, None, [], [], [])
  }

  /** No stage output is set and nothing has been recorded yet. */
  predicate Pristine(s: WorkflowState)
  {
    && s.data.None? && s.validatedData.None? && s.report.None?
    && s.riskAssessment.None? && s.treatmentPlan.None? && s.processingTime.None?
    && s.errors == [] && s.warnings == [] && s.agentResults == []
    && s.workflowVersion == "1.0.0"
  }

  /** A freshly built state keeps exactly the inputs it was given and is pristine. */
  lemma NewStateIsPristine(note: string, sessionId: Option<string>)
    ensures Pristine(NewState(note, sessionId))
    ensures NewState(note, sessionId).note == note && NewState(note, sessionId).sessionId == sessionId
  {
  }

  /** The record returned to callers of a complete workflow. */
  datatype WorkflowResult = WorkflowResult(
    sessionId: string,
    success: bool,
    patientReport: Option<string>,
    riskAssessment: Option<string>,
    treatmentRecommendations: Option<string>,
    agentResults: seq<AgentResult>,
    totalProcessingTime: nat,
    workflowVersion: string)

  /** `WorkflowResult(session_id=…, success=…, total_processing_time=…)`. */
  function NewWorkflowResult(sessionId: string, success: bool, totalProcessingTime: nat): (r: WorkflowResult)
    ensures r.agentResults == [] && r.workflowVersion == "1.0.0"
    ensures r.patientReport.None? && r.riskAssessment.None? && r.treatmentRecommendations.None?
    ensures r.sessionId == sessionId && r.success == success && r.totalProcessingTime == totalProcessingTime
  {
    WorkflowResult(sessionId, success, None, None, None, [], totalProcessingTime, WorkflowVersion)
  }
}
