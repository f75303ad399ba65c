/** The three-node workflow of the standalone app: each node stores its
    agent's raw return value under one key and has no error handling. */
module AppGraph {
  import opened Wrappers
  import opened AiGraph
  import opened AiWorkflow

  /** What an app agent returns, stored as is. */
  type Value = Reply

  datatype AppState = AppState(note: string, data: Option<Value>, validatedData: Option<Value>, report: Option<Value>)

  datatype AppInput = NoteArg(note: string) | ValueArg(value: Value)

  datatype AppOutcome = Returned(value: Value) | Failed(message: string)

  /** An agent error escapes the node; reading a key no node has written
      fails with that key. */
  datatype AppError = AgentRaised(message: string) | MissingKey(key: string)

  /** Same node names and edges as the simple graph of the AI service. */
  function AppTopology(): Topology
  {
    Topology([Parse, Evaluate, Synthesize], [(Parse, Evaluate), (Evaluate, Synthesize)], Parse, [Synthesize])
  }

  lemma AppTopologyIsLinear()
    ensures AppTopology() == SimpleTopology()
    ensures Preds(AppTopology(), Evaluate) == {Parse} && Preds(AppTopology(), Synthesize) == {Evaluate}
    ensures Preds(AppTopology(), Parse) == {}
  {
    SimpleTopologyPredecessors();
  }

  /** The key each node writes. */
  function WrittenKey(s: Stage): string
  {
    match s
    case Parse => "data"
    case Evaluate => "validated_data"
    case Synthesize => "report"
    case _ => ""
  }

  /** The key each node reads. */
  function ReadKey(s: Stage): string
  {
    match s
    case Parse => "note"
    case Evaluate => "data"
    case Synthesize => "validated_data"
    case _ => ""
  }

  function Lookup(st: AppState, key: string): Option<AppInput>
  {
    if key == "note" then Some(NoteArg(st.note))
    else if key == "data" then (if st.data.Some? then Some(ValueArg(st.data.value)) else None)
    else if key == "validated_data" then (if st.validatedData.Some? then Some(ValueArg(st.validatedData.value)) else None)
    else if key == "report" then (if st.report.Some? then Some(ValueArg(st.report.value)) else None)
    else None
  }

  function Store(st: AppState, key: string, v: Value): AppState
  {
    if key == "data" then st.(data := Some(v))
    else if key == "validated_data" then st.(validatedData := Some(v))
    else if key == "report" then st.(report := Some(v))
    else st
  }

  /** One node: read its key, call its agent, write the raw value. */
  function AppStep(s: Stage, st: AppState, agent: (Stage, AppInput) -> AppOutcome): Result<AppState, AppError>
  {
    match Lookup(st, ReadKey(s))
    case None => Err(MissingKey(ReadKey(s)))
    case Some(arg) =>
      match agent(s, arg)
      case Failed(msg) => Err(AgentRaised(msg))
      case Returned(v) => Ok(Store(st, WrittenKey(s), v))
  }

  /** A node writes exactly its own key, with the agent's raw value, and
      reads only its predecessor's key. */
  lemma AppStepFrame(s: Stage, st: AppState, agent: (Stage, AppInput) -> AppOutcome)
    requires s in {Parse, Evaluate, Synthesize}
    ensures AppStep(s, st, agent).Ok? ==>
      && Lookup(st, ReadKey(s)).Some?
      && agent(s, Lookup(st, ReadKey(s)).value) == Returned(Lookup(AppStep(s, st, agent).value, WrittenKey(s)).value.value)
      && AppStep(s, st, agent).value.note == st.note
      && forall k :: k != WrittenKey(s) ==> Lookup(AppStep(s, st, agent).value, k) == Lookup(st, k)
    ensures AppStep(s, st, agent).Err? <==>
      Lookup(st, ReadKey(s)).None? || agent(s, Lookup(st, ReadKey(s)).value).Failed?
  {
  }

  /** Two states that agree on a node's read key give that node the same
      argument, whatever else they hold. */
  lemma AppStepReadsOneKey(s: Stage, st1: AppState, st2: AppState, agent: (Stage, AppInput) -> AppOutcome)
    requires s in {Parse, Evaluate, Synthesize}
    requires Lookup(st1, ReadKey(s)) == Lookup(st2, ReadKey(s))
    ensures AppStep(s, st1, agent).Ok? <==> AppStep(s, st2, agent).Ok?
    ensures AppStep(s, st1, agent).Ok? ==>
      Lookup(AppStep(s, st1, agent).value, WrittenKey(s)) == Lookup(AppStep(s, st2, agent).value, WrittenKey(s))
  {
  }

  function AppExecute(order: seq<Stage>, st: AppState, agent: (Stage, AppInput) -> AppOutcome): Result<AppState, AppError>
    decreases |order|
  {
    if order == [] then Ok(st)
    else
      match AppExecute(order[..|order| - 1], st, agent)
      case Err(e) => Err(e)
      case Ok(prior) => AppStep(order[|order| - 1], prior, agent)
  }

  /** `invoke` on a state holding only the note. */
  function AppRun(note: string, agent: (Stage, AppInput) -> AppOutcome): Result<AppState, AppError>
  {
    AppExecute(Schedule(AppTopology()), AppState(note, None, None, None), agent)
  }

  /** Along the linear order no node reads a missing key: the run fails only
      when an agent raises, and otherwise the report is the synthesizer's
      value on the evaluator's value on the parser's value on the note. */
  lemma AppRunOutcome(note: string, agent: (Stage, AppInput) -> AppOutcome)
    ensures AppRun(note, agent).Err? ==> AppRun(note, agent).error.AgentRaised?
    ensures AppRun(note, agent).Ok? <==>
      && agent(Parse, NoteArg(note)).Returned?
      && agent(Evaluate, ValueArg(agent(Parse, NoteArg(note)).value)).Returned?
      && agent(Synthesize, ValueArg(agent(Evaluate, ValueArg(agent(Parse, NoteArg(note)).value)).value)).Returned?
    ensures AppRun(note, agent).Ok? ==>
      var v1 := agent(Parse, NoteArg(note)).value;
      var v2 := agent(Evaluate, ValueArg(v1)).value;
      AppRun(note, agent).value == AppState(note, Some(v1), Some(v2), Some(agent(Synthesize, ValueArg(v2)).value))
  {
    AppTopologyIsLinear();
    SimpleSchedule(AppTopology());
    AppOrderOutcome(Schedule(AppTopology()), note, agent);
  }

  lemma AppOrderOutcome(order: seq<Stage>, note: string, agent: (Stage, AppInput) -> AppOutcome)
    requires order == [Parse, Evaluate, Synthesize]
    ensures var r := AppExecute(order, AppState(note, None, None, None), agent);
      && (r.Err? ==> r.error.AgentRaised?)
      && (r.Ok? <==>
        && agent(Parse, NoteArg(note)).Returned?
        && agent(Evaluate, ValueArg(agent(Parse, NoteArg(note)).value)).Returned?
        && agent(Synthesize, ValueArg(agent(Evaluate, ValueArg(agent(Parse, NoteArg(note)).value)).value)).Returned?)
      && (r.Ok? ==>
        var v1 := agent(Parse, NoteArg(note)).value;
        var v2 := agent(Evaluate, ValueArg(v1)).value;
        r.value == AppState(note, Some(v1), Some(v2), Some(agent(Synthesize, ValueArg(v2)).value)))
  {
    var st0 := AppState(note, None, None, None);
    var none: seq<Stage> := [];
    var p1 := none + [Parse];
    var p2 := p1 + [Evaluate];
    assert p1[..0] == none && p2[..1] == p1 && order[..2] == p2;
    assert AppExecute(p1, st0, agent) == AppStep(Parse, st0, agent);
    var o1 := agent(Parse, NoteArg(note));
    if o1.Returned? {
      var st1 := st0.(data := Some(o1.value));
      assert AppExecute(p2, st0, agent) == AppStep(Evaluate, st1, agent);
      var o2 := agent(Evaluate, ValueArg(o1.value));
      if o2.Returned? {
        var st2 := st1.(validatedData := Some(o2.value));
        assert AppExecute(order, st0, agent) == AppStep(Synthesize, st2, agent);
      }
    }
  }
}
