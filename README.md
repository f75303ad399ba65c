# LotusHealth core logic in Dafny

This project models the parts of the LotusHealth demo system (a FastAPI
healthcare application with an LLM-driven note-processing service) that hold
logic of their own rather than HTTP, SQL or model plumbing:

- **The multi-agent workflow** of the AI service: five stages (parse,
  evaluate, synthesize, assess risk, plan treatment), each wrapped so that an
  agent's outcome becomes a state update. The two graph topologies are
  modelled as data. A sequential driver runs the stages in a topological
  order of the declared edges. The routers turn the final state into
  responses. The three-node graph of `app/graph.py` is modelled too.
- **Role-based permissions** in the three authentication routers. Two of
  them share one role table; the in-memory router gives patients a
  different set.
- **The in-memory stores**: the user dictionary of the in-memory auth router
  and the five clinic dictionaries. The model covers insert, lookup, partial
  update, delete with 404, Python slice pagination and the dashboard counts.
- **Field validators** of the shared request models: length bounds, ranges,
  enumerations, and the e-mail and `HH:MM` patterns.
- **Text helpers**:
  - in the upload service: the format whitelist, the minimum-length checks,
    HTML tag stripping, the term and topic scan, the quality score and the
    chunk estimate;
  - in the LLM wrapper: the patient-context summary and the chat prompt.

Modules follow the source files:

| module | models |
|---|---|
| `AiState` | `services/ai_service/state.py` |
| `AiGraph` | `services/ai_service/graph.py`: stages, topologies, wrappers |
| `AiWorkflow` | the sequential driver; the shape of full and simple runs |
| `AiRouters` | `services/ai_service/routers.py` |
| `AppGraph` | `app/graph.py` |
| `AuthSimple` | `services/auth_service/routers_simple.py` |
| `AuthPostgres` | `services/auth_service/routers_postgres.py` |
| `AuthMemory` | `services/auth_service/routers.py` |
| `Clinic` | `services/clinic_service/routers.py` |
| `Models` | `shared/models.py` |
| `ContentUpload` | `services/ai_service/content_upload_service.py` |
| `HealthcareLlm` | `llm_integration/healthcare_llm.py` |
| `Text`, `Wrappers` | shared helpers: Python string operations, `Option` and `Result` |

Modelling choices:

- An agent call is a function parameter `(Stage, AgentInput) -> Outcome`. It
  either returns a reply or raises with a message.
- Clocks, generated UUIDs and bcrypt are parameters.
- Confidences are integer hundredths: 90 stands for 0.9.
- The content quality score is a count of quarters.
- Imperative code stays imperative:
  - the stores are classes with `modifies` clauses;
  - the field loops and the conditional appends are methods with loop
    invariants.
- Each such method is proved against a specification function, and the
  properties are proved about those functions.

Where the code and its documentation disagree, the model follows the code,
with two exceptions:

- The workflow state declares no `agent_results` field. The parser wrapper
  builds a fresh result list, but the four other wrappers read
  `state.agent_results` in both their success and failure paths
  (`services/ai_service/graph.py:88` and `:100-101`). On the declared
  pydantic model that read raises. As written, every full run therefore
  fails at `evaluate`. The model follows the evident intent instead: the
  state carries an explicit results sequence, and each wrapper extends it.
- `services/auth_service/routers.py:130-133` still holds the markers of an
  unresolved merge conflict inside `verify_password`, so that module does
  not parse as written. Both sides of the conflict differ only by a
  comment, and the `AuthMemory` module models the logic they share.
- `AgentResult.output` and the state fields are declared as dictionaries,
  but the wrappers store reply text. The model stores text.
- The in-memory auth router (`services/auth_service/routers.py`) grants
  patients `read_user`, `read_patient`, `update_patient`, `read_appointment`
  and `view_schedule`. The two database routers grant only
  `read_appointment` and `read_medical_record`. The model keeps both tables.

## Model

| member | source | states |
|---|---|---|
| AiState.NewAgentResult | services/ai_service/state.py:44-52 | only agent_name, success and processing_time are required; output, error and confidence default to None |
| AiState.NewStateIsPristine | services/ai_service/state.py:10-39 | a fresh state has the given note and session id, every stage output unset, no processing time, empty errors and warnings, and version "1.0.0" |
| AiState.NewWorkflowResult | services/ai_service/state.py:57-68 | a new result has no agent results, no report, risk assessment or recommendations, and version "1.0.0" |
| AiGraph.StageOfAgent | services/ai_service/graph.py:46-211 | the agent names the five wrappers record identify their stage: a name maps back to the stage that records it, and to none exactly when no stage records it |
| AiGraph.Confidence | services/ai_service/graph.py:50-192 | a successful stage reports a confidence in (0, 1] |
| AiGraph.OwnedFieldInjective | services/ai_service/graph.py:54-196 | no two stage wrappers write the same output field |
| AiGraph.Set | services/ai_service/graph.py:53-56 | merging one returned key changes that field and leaves every other field of the state as it was |
| AiGraph.FullTopologyAcyclic | services/ai_service/graph.py:214-224 | the full graph registers each of the five stages once, every edge joins registered nodes, and a rank strictly increasing along every edge exists, so there is no cycle |
| AiGraph.FullTopologyReachable | services/ai_service/graph.py:221-227 | every stage of the full graph is reachable from the entry `parse` along declared edges |
| AiGraph.FullTopologyPredecessors | services/ai_service/graph.py:221-229 | parse has no predecessor; evaluate waits on parse; synthesize and assess_risk wait on evaluate; plan_treatment waits on assess_risk alone, not on synthesize |
| AiGraph.SimpleTopologyShape | services/ai_service/graph.py:257-265 | the simple graph registers exactly parse, evaluate and synthesize, and is well formed and acyclic |
| AiGraph.SimpleTopologyReachable | services/ai_service/graph.py:261-264 | every stage of the simple graph is reachable from parse |
| AiGraph.SimpleTopologyPredecessors | services/ai_service/graph.py:261-262 | the simple graph is the chain parse → evaluate → synthesize |
| AiGraph.WrapperOnSuccess | services/ai_service/graph.py:44-56 | on success a wrapper writes the reply text into its own field only, keeps errors, and appends a success result with its confidence; the parser starts a fresh result list, the others extend the existing one |
| AiGraph.WrapperOnFailure | services/ai_service/graph.py:57-69 | on failure a wrapper sets its own field to None, appends the stage's prefixed error to errors and a failure result carrying the message and no confidence; the parser starts fresh lists |
| AiGraph.SiblingUpdatesOverlap | services/ai_service/graph.py:119-159 | synthesize and assess_risk write different output fields, but both return agent_results, so the two merge orders leave different result lists |
| AiGraph.DisjointOutputsCommute | services/ai_service/graph.py:119-159 | merging two updates that write different output fields commutes |
| AiWorkflow.FirstReady | services/ai_service/graph.py:214-224 | the driver's next stage is the first stage, in registration order, that has not run and whose predecessors have all run; none is returned only when no stage is ready |
| AiWorkflow.ScheduleFromSound | services/ai_service/graph.py:221-224 | extending a valid order with ready stages keeps it valid: no stage twice, each stage after all of its predecessors, and stops only when nothing is ready |
| AiWorkflow.StuckMeansComplete | services/ai_service/graph.py:221-224 | in a well-formed graph that has a rank function, the driver stops only once every node has run |
| AiWorkflow.ScheduleComplete | services/ai_service/graph.py:221-224 | on an acyclic, well-formed graph the driver runs exactly the graph's nodes, each once and after its predecessors |
| AiWorkflow.ScheduleAdvance | services/ai_service/graph.py:221-224 | when the k-th registered node is the first ready one, running it is the driver's next step |
| AiWorkflow.ScheduleStop | services/ai_service/graph.py:227-229 | once every node has run the driver adds nothing more |
| AiWorkflow.FullSchedule | services/ai_service/graph.py:214-229 | the full graph runs parse, evaluate, synthesize, assess_risk, plan_treatment |
| AiWorkflow.SimpleSchedule | services/ai_service/graph.py:257-265 | the simple graph runs parse, evaluate, synthesize |
| AiWorkflow.StepAppends | services/ai_service/graph.py:53-211 | each step appends one result named after its stage; the result's output is the stage's new field; success holds exactly when that output is set; an error line is added exactly when the stage failed; other outputs are kept |
| AiWorkflow.ExecuteFromParse | services/ai_service/graph.py:37-211 | a run that starts with the parser and repeats no stage has one result per stage, in order; each output field holds its stage's output; errors list the failures |
| AiWorkflow.FullRun | services/ai_service/graph.py:37-229 | a full run from a fresh state yields five results named after the five stages in order, whatever fails; each output field holds its stage's output; errors list exactly the failures; warnings stay empty |
| AiWorkflow.FailedParseFeedsNone | services/ai_service/graph.py:57-75 | a failed parser does not stop the run: the evaluator and the risk assessor are still called, with no parsed data, and errors holds the parser's message |
| AiWorkflow.ReportDoesNotReachPlan | services/ai_service/graph.py:137-197 | changing only the synthesizer's outcome changes neither the risk assessment nor the treatment plan of a full run |
| AiWorkflow.IndependentOfSynthesis | services/ai_service/graph.py:137-211 | from any state, agents that differ only on the synthesizer give the same risk assessment and treatment plan after synthesize, assess_risk and plan_treatment |
| AiWorkflow.SameAgentsSameRun | services/ai_service/graph.py:37-211 | runs whose agents agree on every stage they contain are equal |
| AiWorkflow.StepOutput | services/ai_service/graph.py:53-211 | a step writes its outcome's text, or None, into its own field and leaves the note and every other field unchanged |
| AiWorkflow.UnguardedAgreesWithGuarded | services/ai_service/graph.py:244-254 | the unguarded simple nodes succeed exactly when the guarded wrappers record no failure, with the same outputs; otherwise they fail with the first failing stage's message |
| AiWorkflow.SimpleRunOutcome | services/ai_service/graph.py:244-265 | a simple run either sets data, validated data and report, or fails with the message of the first raising stage |
| AiWorkflow.SimpleRunChained | services/ai_service/graph.py:233-265 | the simple workflow fails exactly when the parser on the note, the evaluator on the parser's text or the synthesizer on the evaluator's text raises, with the first such message; otherwise data, validated data and report are those three texts |
| AiWorkflow.FailureMessagesEmpty | services/ai_service/graph.py:57-211 | the error list is empty exactly when every recorded result is a success |
| AiRouters.FullResponseOf | services/ai_service/routers.py:97-109 | the full response reports success and maps report → patient_report, risk_assessment → risk_assessment, treatment_plan → treatment_recommendations; present result, error and warning lists pass through unchanged, missing ones become empty |
| AiRouters.ProcessNoteSimpleOutcome | services/ai_service/routers.py:43-71 | the simple endpoint answers 500 "AI processing failed: <message>" exactly when an agent raised, with the first raising agent's message; otherwise it reports success with the session id, and the report is the synthesizer's reply to the evaluator's reply to the parser's reply on the note |
| AiRouters.ProcessNoteFullOutcome | services/ai_service/routers.py:83-109 | the full endpoint always succeeds, whatever errors the run collected; it returns five results in stage order, errors equal to the failed results' messages, and outputs from the matching results |
| AiRouters.SymptomNote | services/ai_service/routers.py:124-127 | the symptom note is "Symptoms: <s>", with "\nPatient Context: <c>" appended only when a non-empty context is given |
| AiRouters.AnalyzeSymptomsOutcome | services/ai_service/routers.py:123-148 | symptom analysis fails with 500 "Symptom analysis failed: <message>" exactly when an agent raised in the chain started on the symptom note; otherwise it echoes the symptoms, the analysis is the synthesizer's reply in that chain, confidence is 0.85, and the recommendations are the three fixed texts |
| AiRouters.TreatmentNote | services/ai_service/routers.py:157 | the treatment note embeds the diagnosis and the patient data text at fixed places |
| AiRouters.GenerateTreatmentPlanOutcome | services/ai_service/routers.py:155-169 | the plan and the risk assessment come from the planner's and the assessor's results; the plan is absent exactly when the planner failed; confidence is 0.8 |
| AiRouters.WorkflowInfoMatchesGraphs | services/ai_service/routers.py:180-193 | the advertised agent lists equal the agent names of the stages the two graphs run, in run order |
| AppGraph.AppTopologyIsLinear | app/graph.py:16-24 | the app graph is the linear parse → evaluate → synthesize with entry parse and finish synthesize |
| AppGraph.AppStepFrame | app/graph.py:16-18 | a node writes exactly its own key with the agent's raw value, keeps every other key, and fails when its input key is unset or its agent raises |
| AppGraph.AppStepReadsOneKey | app/graph.py:16-18 | a node reads only its predecessor's key: states agreeing on it give the same written value |
| AppGraph.AppRunOutcome | app/graph.py:9-26 | a run succeeds exactly when the three agents return, and then holds the synthesizer's value on the evaluator's value on the parser's value on the note; any failure is an agent error |
| AuthSimple.ExpiresIn | services/auth_service/routers_simple.py:36-196 | a token expires in 1800 seconds, thirty minutes |
| AuthSimple.CheckPermission | services/auth_service/routers_simple.py:134-146 | false for a missing, empty or unknown role or an unknown permission; otherwise membership of the permission in that role's list |
| AuthSimple.AdminGrantedEverything | services/auth_service/routers_simple.py:39-40 | an admin is granted every permission value |
| AuthSimple.PatientGrantedExactly | services/auth_service/routers_simple.py:76-79 | a patient is granted exactly read_appointment and read_medical_record |
| AuthSimple.DeletePermissions | shared/models.py:22-48 | the permissions whose value starts with "delete_" are delete_user, delete_patient and delete_appointment |
| AuthSimple.NonAdminCannotDelete | services/auth_service/routers_simple.py:41-79 | no role other than admin holds a delete_* permission or create_user |
| AuthSimple.Authenticate | services/auth_service/routers_simple.py:125-132 | None for an unknown username or a wrong password, the stored row otherwise; `authenticate_user` at services/auth_service/routers_postgres.py:120-127 has the same body and is covered by the same contract |
| AuthSimple.AuthenticatedIsRequested | services/auth_service/routers_simple.py:125-132 | when the lookup returns only rows with the requested name, a login succeeds only for that name and only with a password that checks against its hash |
| AuthSimple.UpdateUserQuery | services/auth_service/routers_simple.py:427-459 | 403 without update_user; 400 "No fields to update" for an empty update; otherwise one clause and one parameter per provided field, in order, with the user id as the last parameter |
| AuthSimple.SetClauses | services/auth_service/routers_simple.py:443-454 | the field loop gives one SET clause and one value per field, in order: a password goes under password_hash as its hash, a role as its value, anything else unchanged |
| AuthSimple.PasswordStoredHashed | services/auth_service/routers_simple.py:444-446 | a provided password never reaches the query in clear |
| AuthPostgres.CheckPermission | services/auth_service/routers_postgres.py:129-141 | false for a missing or unknown role, otherwise membership of the permission in that role's list |
| AuthPostgres.SameGrantsAsSimpleRouter | services/auth_service/routers_postgres.py:46-87 | the database router grants every caller exactly what the simple router grants |
| AuthPostgres.CreateUserRow | services/auth_service/routers_postgres.py:212-251 | 403 without create_user, then 400 for a taken username, then 400 for a taken e-mail, in that order; an accepted row carries the hashed password and a username and e-mail no existing row has |
| AuthPostgres.CreateKeepsAccountsUnique | services/auth_service/routers_postgres.py:220-237 | inserting what create_user accepts keeps usernames and e-mails unique, and only a caller with create_user adds a row |
| AuthMemory.CheckPermission | services/auth_service/routers.py:169-173 | the stored role is always a key of the table, so the check is membership of the permission value in that role's list |
| AuthMemory.PatientGrants | services/auth_service/routers.py:70-76 | a patient is granted exactly read_user, read_patient, update_patient, read_appointment and view_schedule |
| AuthMemory.DiffersFromDatabaseRouters | services/auth_service/routers.py:33-76 | every role but patient has the same grants as in the database routers; a patient may read users but not medical records here, and the reverse there |
| AuthMemory.UserId | services/auth_service/routers.py:237 | a generated id is "user_" followed by the decimal digits of the number, with no leading zero; reading the digits back gives the number |
| AuthMemory.UserIdInjective | services/auth_service/routers.py:237 | different numbers give different generated ids |
| AuthMemory.FirstWith | services/auth_service/routers.py:136-140 | the account found has the username and is the first one with it in insertion order: no earlier account has that name; None exactly when no account has it |
| AuthMemory.InsertKeepsCoherent | services/auth_service/routers.py:237-250 | the next generated id is free, and adding an account under it with a new username keeps keys, order, ids and usernames consistent |
| AuthMemory.SeedCoherent | services/auth_service/routers.py:80-114 | the three seeded accounts satisfy the store invariant, with distinct usernames and no generated id in use |
| AuthMemory.UserStore.constructor | services/auth_service/routers.py:80-114 | the store starts with admin1, doctor1 and nurse1, in that order |
| AuthMemory.UserStore.GetUser | services/auth_service/routers.py:136-140 | the scan returns the first account with the name; since usernames are unique, that is the only account with the name |
| AuthMemory.UserStore.ExactlyOneWith | services/auth_service/routers.py:136-140 | with unique usernames, the first account with a name is the only one |
| AuthMemory.UserStore.Authenticate | services/auth_service/routers.py:142-148 | a login succeeds exactly when some account has the name and the password checks against its hash, and returns that account |
| AuthMemory.UserStore.CreateUser | services/auth_service/routers.py:220-250 | 403 without create_user, then 400 for a taken username, both leaving the store unchanged; otherwise an active account under "user_<n+1>", which was free, is added last and nothing else changes |
| AuthMemory.UserStore.Insert | services/auth_service/routers.py:250 | the new account is stored under its id and appended to the order; the store invariant is kept |
| Clinic.SliceBound | services/clinic_service/routers.py:72 | a slice bound is normalised into [0, n] |
| Clinic.PySlice | services/clinic_service/routers.py:72 | Python slicing: the elements from the normalised start up to the normalised stop, in order; empty when the stop is not past the start |
| Clinic.PageBounded | services/clinic_service/routers.py:69-72 | with a non-negative limit a page holds at most limit records; with a non-negative skip too, it is the run of records from skip that fits |
| Clinic.NegativeLimitPage | services/clinic_service/routers.py:69-72 | as written, ten records with skip 2 and limit -3 give a page of seven records |
| Clinic.BoundedPage | services/clinic_service/routers.py:69-72 | the corrected page: the records from position max(skip, 0), in order, as many as fit up to max(limit, 0) |
| Clinic.LastSet | services/clinic_service/routers.py:88-90 | the value a field ends up with is the one its last provided entry gives; None exactly when no entry names the field |
| Clinic.Without | services/clinic_service/routers.py:100 | dropping a key from the order removes exactly that key |
| Clinic.WithoutUnique | services/clinic_service/routers.py:100 | dropping a key from an order without repeats keeps it without repeats and one shorter |
| Clinic.RemoveKeepsIndexed | services/clinic_service/routers.py:95-101 | deleting a key keeps the dictionary and its insertion order in step |
| Clinic.Collection.constructor | services/clinic_service/routers.py:28-32 | a dictionary starts empty |
| Clinic.Collection.Put | services/clinic_service/routers.py:66 | storing under an id changes only that key; a new key goes last |
| Clinic.Collection.Page | services/clinic_service/routers.py:69-72 | a listing is values[skip:skip+limit]: the records in insertion order from the normalised start to the normalised stop |
| Clinic.Collection.BoundedListing | services/clinic_service/routers.py:69-72 | the corrected listing: the stored records in insertion order from position max(skip, 0), as many as fit up to max(limit, 0) |
| Clinic.Collection.Find | services/clinic_service/routers.py:74-79 | 404 "<what> not found" exactly when the id is absent or its record is empty, otherwise the stored record |
| Clinic.Collection.Update | services/clinic_service/routers.py:81-93 | 404 exactly when the id is absent or its record is empty, with nothing changed; otherwise only that record changes: each provided field takes its last given value, updated_at is set, every other field and record is kept |
| Clinic.Collection.Delete | services/clinic_service/routers.py:95-101 | 404 for an absent id, with nothing changed; otherwise exactly that key is removed and "<what> deleted successfully" returned |
| Clinic.PatientRecord | services/clinic_service/routers.py:47-64 | a new patient record carries its id and equal creation and update times |
| Clinic.DoctorRecord | services/clinic_service/routers.py:106-118 | a new doctor record carries its id and equal creation and update times |
| Clinic.AppointmentRecord | services/clinic_service/routers.py:138-150 | a new appointment is stored as scheduled whatever was asked, on the requested date |
| Clinic.VisitRecord | services/clinic_service/routers.py:184-202 | an office visit is dated when it is recorded |
| Clinic.ScheduleRecord | services/clinic_service/routers.py:222-233 | a new schedule record carries its id and equal creation and update times |
| Clinic.CountOn | services/clinic_service/routers.py:262-265 | the count of records on a day is at most the number of records, and zero exactly when none falls on that day |
| Clinic.CountOnFilter | services/clinic_service/routers.py:262-265 | the count equals the size of the list comprehension's filter: the positions whose record falls on the day |
| Clinic.CountToday | services/clinic_service/routers.py:262-265 | the comprehension's loop gives the count, or fails exactly when some record has no date to call `.date()` on |
| Clinic.ClinicDb.constructor | services/clinic_service/routers.py:28-32 | the five dictionaries start empty and separate |
| Clinic.ClinicDb.CreatePatient | services/clinic_service/routers.py:45-67 | the patient record is stored under the new id and returned; no other entry changes |
| Clinic.ClinicDb.CreateDoctor | services/clinic_service/routers.py:104-121 | the doctor record is stored under the new id and returned |
| Clinic.ClinicDb.CreateAppointment | services/clinic_service/routers.py:136-153 | the appointment is stored under the new id as scheduled and returned |
| Clinic.ClinicDb.CreateVisit | services/clinic_service/routers.py:182-205 | the office visit is stored under the new id and returned |
| Clinic.ClinicDb.CreateSchedule | services/clinic_service/routers.py:220-236 | the schedule is stored under the new id and returned |
| Clinic.ClinicDb.DashboardStats | services/clinic_service/routers.py:257-273 | fails with 500 exactly when some appointment has no scheduled date (an update may set it to None); otherwise the totals are the three dictionary sizes and today's count is the number of appointments dated today, at most the total |
| Models.ParseRole | shared/models.py:15-20 | a role string names the role with that value, or none when no role has it |
| Models.AllPermissionValues | shared/models.py:22-48 | there are 17 permission values and every permission's value is among them |
| Models.ParsePermission | shared/models.py:22-48 | a permission string names the permission with that value, or none when no permission has it |
| Models.PermissionValueInjective | shared/models.py:22-48 | no two permissions share a value |
| Models.EmailCheckMatchesPattern | shared/models.py:77 | the e-mail check accepts exactly the strings `^[^@]+@[^@]+\.[^@]+$` matches |
| Models.TimePatternMeaning | shared/models.py:316-317 | a time matches `^([01]?[0-9]\|2[0-3]):[0-5][0-9]$` exactly when it is a clock time: one or two hour digits worth at most 23, a colon, and two minute digits worth at most 59 |
| Models.AppointmentCreateAccepted | shared/models.py:203-212 | an appointment is accepted exactly when it lasts 15 to 480 minutes, so the default of 30 is accepted |
| Models.UserCreateAccepted | shared/models.py:75-85 | a new user is accepted exactly when the username has 3 to 50 characters, the e-mail has the pattern's shape, first and last names 1 to 50, the full name 2 to 100 and the password at least 8 |
| Models.PatientCreateAccepted | shared/models.py:120-135 | a new patient is accepted exactly when the names have 1 to 50 characters, the gender is male, female or other, the phone 10 to 20, the e-mail has the pattern's shape, the address 10 to 200 and the emergency contact 5 to 100 |
| Models.DoctorCreateAccepted | shared/models.py:162-171 | a new doctor is accepted exactly when the specialization has 2 to 100 characters, the licence number 5 to 50, and any years of experience lie in 0 to 50 |
| Models.OfficeVisitCreateAccepted | shared/models.py:247-260 | an office visit is accepted exactly when the chief complaint has 10 to 500 characters |
| Models.ScheduleCreateAccepted | shared/models.py:313-322 | a schedule is accepted exactly when both start and end are clock times |
| Models.PatientEducationCreateAccepted | shared/models.py:397-406 | an education item is accepted exactly when the topic has 5 to 200 characters, the content 10 to 5000, the difficulty is basic, intermediate or advanced, and the language code 2 to 10 |
| Models.PatientNoteInputAccepted | shared/models.py:426-428 | a note is accepted exactly when it has 10 to 5000 characters; the session id is unchecked |
| ContentUpload.LastIndexOf | services/ai_service/content_upload_service.py:37 | the position of the last occurrence of a character, or none exactly when it does not occur |
| ContentUpload.BaseName | services/ai_service/content_upload_service.py:37 | the file name is the last `/`-free part of the path once trailing slashes are dropped, and a slash precedes it when it is not the whole path |
| ContentUpload.Suffix | services/ai_service/content_upload_service.py:37 | a suffix is empty or starts with the last dot of the base name, which is neither its first nor its last character, and holds no other dot |
| ContentUpload.TrimSlashes | services/ai_service/content_upload_service.py:37 | dropping trailing slashes leaves a prefix of the path that does not end in `/`, with only slashes after it |
| ContentUpload.TrailingSlashSuffix | services/ai_service/content_upload_service.py:37 | "notes.txt/" has the file name "notes.txt" and the suffix ".txt", as a path object gives |
| ContentUpload.FormatsJoined | services/ai_service/content_upload_service.py:29-39 | the error message lists ".pdf, .txt, .md, .docx, .html" |
| ContentUpload.CheckFormat | services/ai_service/content_upload_service.py:37-39 | a file is accepted exactly when its lower-cased suffix is one of the five formats; otherwise the error names the suffix and the accepted formats |
| ContentUpload.StripTags | services/ai_service/content_upload_service.py:141 | tag removal never lengthens the text, adds no character, and keeps a first character that opens no tag |
| ContentUpload.TagLength | services/ai_service/content_upload_service.py:141 | a tag is `<`, one or more characters other than `>`, then the first `>`; there is none when no `>` follows or the brackets are empty |
| ContentUpload.StripTagsTagFree | services/ai_service/content_upload_service.py:141 | what tag removal leaves holds no tag |
| ContentUpload.TagFreeUnchanged | services/ai_service/content_upload_service.py:141 | text without tags is left unchanged |
| ContentUpload.StripTagsIdempotent | services/ai_service/content_upload_service.py:141 | removing tags twice removes no more than once |
| ContentUpload.TermsIn | services/ai_service/content_upload_service.py:261-270 | the terms found are exactly the listed terms that occur in the text |
| ContentUpload.TermsInOrdered | services/ai_service/content_upload_service.py:268-270 | the terms found form a subsequence of the list: they are appended in the list's order |
| ContentUpload.TermsInDistinct | services/ai_service/content_upload_service.py:268-270 | a list without repeats gives found terms without repeats |
| ContentUpload.TopicsIn | services/ai_service/content_upload_service.py:273-278 | cardiology, pulmonology and neurology are listed exactly when one of their two keywords occurs, in that fixed order |
| ContentUpload.CountTrueBounds | services/ai_service/content_upload_service.py:281-288 | a count of true factors equal to the length means all hold, zero means none holds |
| ContentUpload.InsightsOf | services/ai_service/content_upload_service.py:248-290 | the character count is the content length and the quality score is at most 4 quarters, that is at most 1.0 |
| ContentUpload.ScanTerms | services/ai_service/content_upload_service.py:267-270 | the term loop appends, in order, each term the text contains |
| ContentUpload.ScanTopics | services/ai_service/content_upload_service.py:273-278 | the three topic checks give the topics the keywords name |
| ContentUpload.ExtractInsights | services/ai_service/content_upload_service.py:248-290 | the insights are the character count, the terms found, the topics and the quality score of the content |
| ContentUpload.InsightsMeaning | services/ai_service/content_upload_service.py:260-288 | the found terms are the listed terms in the lower-cased content; a full score needs all four factors (more than 500 characters, more than 3 terms, a topic, and "conclusion" or "summary"); a zero score means none of them holds |
| ContentUpload.InsightsTermsOrdered | services/ai_service/content_upload_service.py:260-270 | `medical_terms_found` lists the found terms in the order of the fourteen terms, each once |
| ContentUpload.ContentChunks | services/ai_service/content_upload_service.py:233 | the chunk estimate n satisfies (n-1)·1000 ≤ length < n·1000 |
| ContentUpload.ProcessForLearning | services/ai_service/content_upload_service.py:207-240 | a stored document yields the insights, the chunk estimate and the metadata with its defaults; otherwise the fixed failure message |
| ContentUpload.UploadText | services/ai_service/content_upload_service.py:83-112 | content whose stripped length is under 50 is refused with a result, not an exception; otherwise it is processed under its title |
| ContentUpload.UploadFile | services/ai_service/content_upload_service.py:31-81 | an unsupported format, a failed temporary write, a failed extraction and a stripped text under 100 characters are refused in that order, each with its own message; a file is accepted exactly when none of these happens; accepted HTML text holds no tag |
| HealthcareLlm.Keep | llm_integration/healthcare_llm.py:92-105 | the kept entries are exactly the present ones of the list |
| HealthcareLlm.KeepOrdered | llm_integration/healthcare_llm.py:92-105 | filtering keeps the fixed order |
| HealthcareLlm.PresentFields | llm_integration/healthcare_llm.py:92-105 | the entries that give a line are exactly the present ones, in the order history, allergies, medications, age, gender |
| HealthcareLlm.PatientContext | llm_integration/healthcare_llm.py:107 | with no present entry the summary is "No specific patient context available."; with one, it is that entry's line |
| HealthcareLlm.PartsUpToKeep | llm_integration/healthcare_llm.py:90-105 | looking at the entries one by one gives the lines of the present ones, in order |
| HealthcareLlm.PartsUpToAll | llm_integration/healthcare_llm.py:107 | the collected lines joined with newlines, or the notice when there are none, give the summary |
| HealthcareLlm.AppendIfPresent | llm_integration/healthcare_llm.py:92-105 | one conditional append adds the entry's line exactly when the entry is present |
| HealthcareLlm.CollectParts | llm_integration/healthcare_llm.py:90-105 | the five conditional appends give the lines of the present entries in the fixed order |
| HealthcareLlm.GetPatientContext | llm_integration/healthcare_llm.py:88-107 | the method returns the summary |
| HealthcareLlm.FalsyEntriesOmitted | llm_integration/healthcare_llm.py:92-104 | falsy values, such as an empty allergy list or age 0, give no line; with nothing present the summary is the notice |
| HealthcareLlm.LastFive | llm_integration/healthcare_llm.py:349 | the recent messages are the last five, or all of them when there are fewer |
| HealthcareLlm.TranscriptOf | llm_integration/healthcare_llm.py:349-350 | the loop renders each recent message as "role: content" on its own line |
| HealthcareLlm.ChatPrompt | llm_integration/healthcare_llm.py:345-353 | the prompt is the context block followed by "Patient: <message>" |
| HealthcareLlm.ChatPromptContextFirst | llm_integration/healthcare_llm.py:345 | the prompt opens with "Patient Context: " exactly when a patient context is given |
| HealthcareLlm.ChatPromptEndsWithMessage | llm_integration/healthcare_llm.py:353 | the prompt always ends with "Patient: <message>" |
| HealthcareLlm.OnlyLastFiveMatter | llm_integration/healthcare_llm.py:347-351 | histories that agree on their last five messages give the same prompt |
| Text.Join | llm_integration/healthcare_llm.py:107 | joining no parts gives "", joining one part gives that part |
| Text.JoinLength | llm_integration/healthcare_llm.py:96-107 | the joined string is as long as the parts plus one separator between each two |
| Text.NatToString | llm_integration/healthcare_llm.py:102 | a number is rendered as digits without a leading zero |
| Text.IntToString | llm_integration/healthcare_llm.py:102 | a non-negative integer is rendered as its digits, a negative one as a minus sign before the digits of its magnitude |
| Text.NatToStringInjective | services/auth_service/routers.py:237 | different numbers are rendered differently |
| Text.ParseNatToString | services/auth_service/routers.py:237 | reading back a rendered number gives the number |
| Text.Lower | services/ai_service/content_upload_service.py:37-267 | lower-casing keeps the length and maps each character |
| Text.Strip | services/ai_service/content_upload_service.py:49-88 | the stripped text is no longer than the input and neither starts nor ends with whitespace |
| Text.LeadingSpace | services/ai_service/content_upload_service.py:49-88 | the leading run of whitespace: all whitespace, followed by a character that is not |
| Text.TrailingStart | services/ai_service/content_upload_service.py:49-88 | the end of the text without trailing whitespace: only whitespace after it, and a character that is not whitespace just before |
| Text.StripSpan | services/ai_service/content_upload_service.py:49-88 | strip removes only whitespace on both sides: the result is the slice after the leading whitespace, with only whitespace after it |
| Text.ContainsAt | services/ai_service/content_upload_service.py:269-285 | `sub in s` holds exactly when sub occurs at some position of s |

## Left out

- The LangGraph library: `StateGraph.compile` and `invoke`, and the parallel execution of the two branches after `evaluate`. The driver here is sequential and picks ready stages in registration order. `AiGraph.SiblingUpdatesOverlap` shows that the merge order of the two branches matters for `agent_results`.
- The agent prompt factories and every LLM or vector-store call. An agent is a parameter that returns or raises.
- Clocks, timestamps and processing times. They are parameters, or are dropped from the responses.
- AiGraph.Confidence: confidences are integer hundredths rather than floats.
- ContentUpload.InsightsOf: the quality score is a count of quarters rather than a float.
- Python validation of the declared `Dict` types in the workflow state. Outputs are opaque text.
- Clinic.PatientRecord and Clinic.VisitRecord store the dictionary-typed `insurance_info` and `vital_signs` fields as opaque text.
- ContentUpload.BaseName drops trailing slashes as a path object does. The model does not collapse repeated slashes or drop `.` components.
- Clinic.ClinicDb.DashboardStats reports the unhandled `AttributeError` as the framework's plain 500.
- The crash of the as-written workflow at `evaluate` (the undeclared `agent_results` read) is described above rather than modelled.
- bcrypt, JWT tokens and `get_current_user`. Hashing and checking are parameters; the caller's role is given directly.
- SQL and ORM access in the database routers. AuthSimple.Authenticate takes the lookup as a parameter. AuthSimple.UpdateUserQuery stops at the query it builds; its execution, the 404 for a missing row and the 500 wrapper are not modelled.
- AuthSimple.UpdateUserQuery: the password and role branches are modelled, although the update request model declares neither field.
- AuthPostgres.CreateUserRow: the account rows are a sequence and the generated UUID is a parameter; the commit and refresh are not modelled.
- Clinic.ClinicDb.CreatePatient, CreateDoctor, CreateAppointment, CreateVisit and CreateSchedule take the generated id as a parameter. The freshness of `uuid4` is not modelled, so a colliding id would overwrite a record.
- Clinic.Collection.Update: a record is a value in the map, so the model does not capture the aliasing of the returned dictionary with the stored one.
- The update and delete handlers are modelled once, in `Clinic.Collection`, for every dictionary. Update types are field lists; Pydantic's `exclude_unset` is the caller's choice of entries.
- `get_available_slots` returns a fixed list of mock slots and holds no logic. The health endpoints are constants.
- File I/O in the upload service, and PDF and DOCX text extraction. The outcome of writing the temporary copy and the extracted text are parameters, each with an error case. In the source the write fails, among other cases, for a file name with a directory part, since the file goes to `uploads/temp_<time>_<filename>`.
- Text.Lower: maps ASCII letters only, not Unicode case. Text.Strip and Text.WordCount use the full set of characters Python treats as whitespace.
- The knowledge-base call in the upload service is a boolean parameter saying whether the document was stored. As written, `add_medical_knowledge` (`llm_integration/healthcare_llm.py:70-86`) hands plain strings to `split_documents`, which expects document objects; the resulting error is caught and the call returns False. So in the source the parameter is always false and ContentUpload.ProcessForLearning never yields its `Learned` case; the model keeps both cases.
- The demo data loader, the gateway, launchers, servers, database scripts and tests.

## Findings

| source | as written | input that shows it | evidently intended | confidence | as-written member | corrected member |
|---|---|---|---|---|---|---|
| services/clinic_service/routers.py:69-72 | the list handlers return `values[skip:skip + limit]`, and a negative `limit` makes the stop count from the end of the list | 10 records, skip = 2, limit = -3: the page holds 7 records, not at most 0 | a page holds at most `max(limit, 0)` records from position `max(skip, 0)` | medium, not executed | Clinic.NegativeLimitPage | Clinic.BoundedPage |
