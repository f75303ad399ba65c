/** The prompt text the LLM wrapper builds before it calls the model: the
    patient-context summary and the chat prompt with the last five messages
    of the conversation. The model calls themselves are not modelled. */
module HealthcareLlm {
  import opened Wrappers
  import opened Text

  /** The `patient_data` entries the summary reads; absent is `None`. */
  datatype PatientData = PatientData(
    medicalHistory: Option<string>, allergies: Option<seq<string>>,
    medications: Option<seq<string>>, age: Option<int>, gender: Option<string>)

  /** The five possible summary lines, in the order they are written. */
  datatype ContextField = History | Allergies | Medications | Age | Gender

  function Rank(f: ContextField): nat
  {
    match f
    case History => 0
    case Allergies => 1
    case Medications => 2
    case Age => 3
    case Gender => 4
  }

  /** Whether the entry is present and truthy: a non-empty text or list, a
      non-zero age. */
  predicate Present(d: PatientData, f: ContextField)
  {
    match f
    case History => d.medicalHistory.Some? && d.medicalHistory.value != []
    case Allergies => d.allergies.Some? && d.allergies.value != []
    case Medications => d.medications.Some? && d.medications.value != []
    case Age => d.age.Some? && d.age.value != 0
    case Gender => d.gender.Some? && d.gender.value != []
  }

  /** The line a present entry contributes; lists are joined with ", ". */
  function Line(d: PatientData, f: ContextField): string
    requires Present(d, f)
  {
    match f
    case History => "Medical History: " + d.medicalHistory.value
    case Allergies => "Allergies: " + Join(d.allergies.value, ", ")
    case Medications => "Current Medications: " + Join(d.medications.value, ", ")
    case Age => "Age: " + IntToString(d.age.value) + " years"
    case Gender => "Gender: " + d.gender.value
  }

  function AllFields(): (fs: seq<ContextField>)
    ensures |fs| == 5
  {
    [History, Allergies, Medications, Age, Gender]
  }

  predicate RankIncreasing(fs: seq<ContextField>)
  {
    forall i, j :: 0 <= i < j < |fs| ==> Rank(fs[i]) < Rank(fs[j])
  }

  lemma AllFieldsListed()
    ensures forall f :: f in AllFields()
  {
    forall f ensures f in AllFields() {
      assert AllFields()[Rank(f)] == f;
    }
  }

  /** The fields of `fs` whose entry is present, order kept. */
  function Keep(d: PatientData, fs: seq<ContextField>): (r: seq<ContextField>)
    ensures forall f :: f in r <==> f in fs && Present(d, f)
    decreases |fs|
  {
    if fs == [] then []
    else
      var init := fs[..|fs| - 1];
      var last := fs[|fs| - 1];
      assert forall f :: f in fs <==> f in init || f == last;
      if Present(d, last) then Keep(d, init) + [last] else Keep(d, init)
  }

  /** Filtering keeps the order of the fields. */
  lemma {:induction false} KeepOrdered(d: PatientData, fs: seq<ContextField>)
    requires RankIncreasing(fs)
    ensures RankIncreasing(Keep(d, fs))
    decreases |fs|
  {
    if fs != [] {
      var init := fs[..|fs| - 1];
      var last := fs[|fs| - 1];
      assert RankIncreasing(init);
      KeepOrdered(d, init);
      assert forall f :: f in Keep(d, init) ==> f in init;
      assert forall f :: f in init ==> Rank(f) < Rank(last);
    }
  }

  /** The entries that produce a line, in the fixed order. */
  function PresentFields(d: PatientData): (fs: seq<ContextField>)
    ensures forall f :: f in fs <==> Present(d, f)
    ensures forall i, j :: 0 <= i < j < |fs| ==> Rank(fs[i]) < Rank(fs[j])
  {
    var all := AllFields();
    AllFieldsListed();
    KeepOrdered(d, all);
    Keep(d, all)
  }

  /** The lines of the given present entries. */
  function Lines(d: PatientData, fs: seq<ContextField>): (r: seq<string>)
    requires forall f :: f in fs ==> Present(d, f)
    ensures |r| == |fs| && forall i :: 0 <= i < |fs| ==> r[i] == Line(d, fs[i])
  {
    seq(|fs|, i requires 0 <= i < |fs| => Line(d, fs[i]))
  }

  const NoContext: string := "No specific patient context available."

  /** The summary: the lines of the present entries, in the fixed order,
      joined with newlines, or the fixed notice when there are none. */
  function PatientContext(d: PatientData): (s: string)
    ensures PresentFields(d) == [] ==> s == NoContext
    ensures |PresentFields(d)| == 1 ==> s == Line(d, PresentFields(d)[0])
  {
    var fs := PresentFields(d);
    if fs == [] then NoContext else Join(Lines(d, fs), "\n")
  }

  /** The lines written once the first `k` entries have been looked at. */
  function PartsUpTo(d: PatientData, k: nat): seq<string>
    requires k <= 5
  {
    if k == 0 then []
    else
      var f := AllFields()[k - 1];
      PartsUpTo(d, k - 1) + if Present(d, f) then [Line(d, f)] else []
  }

  /** Looking at the entries one by one gives the lines of the present
      ones, in order. */
  lemma {:induction false} PartsUpToKeep(d: PatientData, k: nat)
    requires k <= 5
    ensures PartsUpTo(d, k) == Lines(d, Keep(d, AllFields()[..k]))
  {
    if k > 0 {
      PartsUpToKeep(d, k - 1);
      assert AllFields()[..k][..k - 1] == AllFields()[..k - 1];
    } else {
      assert AllFields()[..k] == [];
    }
  }

  /** All five entries looked at give the lines of the summary. */
  lemma PartsUpToAll(d: PatientData)
    ensures PatientContext(d) == if PartsUpTo(d, 5) == [] then NoContext else Join(PartsUpTo(d, 5), "\n")
  {
    PartsUpToKeep(d, 5);
    assert AllFields()[..5] == AllFields();
  }

  /** One conditional append of `get_patient_context`: the parts grow by
      the line of entry `k` exactly when that entry is present. */
  method AppendIfPresent(d: PatientData, k: nat, parts: seq<string>) returns (parts': seq<string>)
    requires k < 5 && parts == PartsUpTo(d, k)
    ensures parts' == PartsUpTo(d, k + 1)
  {
    var f := AllFields()[k];
    if Present(d, f) {
      parts' := parts + [Line(d, f)];
    } else {
      parts' := parts;
    }
  }

  /** The five conditional appends of `get_patient_context`, in the order
      history, allergies, medications, age, gender. */
  method CollectParts(d: PatientData) returns (parts: seq<string>)
    ensures parts == PartsUpTo(d, 5)
  {
    parts := [];
    parts := AppendIfPresent(d, 0, parts);
    parts := AppendIfPresent(d, 1, parts);
    parts := AppendIfPresent(d, 2, parts);
    parts := AppendIfPresent(d, 3, parts);
    parts := AppendIfPresent(d, 4, parts);
  }

  /** `get_patient_context`: the collected lines joined with newlines, or
      the notice when there are none. */
  method GetPatientContext(d: PatientData) returns (s: string)
    ensures s == PatientContext(d)
  {
    var parts := CollectParts(d);
    PartsUpToAll(d);
    if parts == [] {
      s := NoContext;
    } else {
      s := Join(parts, "\n");
    }
  }

  /** Empty entries write nothing: with every entry absent or falsy the
      summary is the notice, and an empty list or a zero age never gives a
      line. */
  lemma FalsyEntriesOmitted(d: PatientData)
    ensures (forall f :: !Present(d, f)) ==> PatientContext(d) == NoContext
    ensures d.allergies == Some([]) ==> Allergies !in PresentFields(d)
    ensures d.age == Some(0) ==> Age !in PresentFields(d)
  {
    var fs := PresentFields(d);
    if fs != [] {
      assert fs[0] in fs;
    }
  }

  // ---------------------------------------------------------------------
  // chat_with_patient: the user prompt
  // ---------------------------------------------------------------------

  datatype ChatMessage = ChatMessage(role: string, content: string)

  /** `history[-5:]`. */
  function LastFive(h: seq<ChatMessage>): (r: seq<ChatMessage>)
    ensures |r| == (if |h| < 5 then |h| else 5)
    ensures r == h[|h| - |r|..]
  {
    if |h| <= 5 then h else h[|h| - 5..]
  }

  function LineOf(m: ChatMessage): string
  {
    m.role + ": " + m.content + "\n"
  }

  /** One `role: content` line per message. */
  function Transcript(ms: seq<ChatMessage>): string
    decreases |ms|
  {
    if ms == [] then "" else Transcript(ms[..|ms| - 1]) + LineOf(ms[|ms| - 1])
  }

  function Header(patientContext: string): string
  {
    if patientContext != [] then "Patient Context: " + patientContext + "\n\n" else ""
  }

  function Conversation(history: seq<ChatMessage>): string
  {
    if history != [] then "Recent conversation:\n" + Transcript(LastFive(history)) + "\n" else ""
  }

  /** The context block before the patient's message. */
  function ChatContext(patientContext: string, history: seq<ChatMessage>): string
  {
    Header(patientContext) + Conversation(history)
  }

  /** The loop of `chat_with_patient` over the recent messages. */
  method TranscriptOf(recent: seq<ChatMessage>) returns (transcript: string)
    ensures transcript == Transcript(recent)
  {
    transcript := "";
    var i := 0;
    while i < |recent|
      invariant 0 <= i <= |recent|
      invariant transcript == Transcript(recent[..i])
    {
      assert recent[..i + 1][..i] == recent[..i];
      transcript := transcript + LineOf(recent[i]);
      i := i + 1;
    }
    assert recent[..|recent|] == recent;
  }

  /** The prompt-building part of `chat_with_patient`; a missing history is
      the empty one. */
  method ChatPrompt(message: string, patientContext: string, history: seq<ChatMessage>) returns (prompt: string)
    ensures prompt == ChatContext(patientContext, history) + "Patient: " + message
  {
    var context := if patientContext != [] then "Patient Context: " + patientContext + "\n\n" else "";
    assert context == Header(patientContext);
    if history != [] {
      var transcript := TranscriptOf(LastFive(history));
      context := context + ("Recent conversation:\n" + transcript + "\n");
    }
    prompt := context + "Patient: " + message;
  }

  /** The prompt opens with the patient context label exactly when a
      patient context is given. */
  lemma ChatPromptContextFirst(message: string, patientContext: string, history: seq<ChatMessage>)
    ensures IsPrefix("Patient Context: ", ChatContext(patientContext, history) + "Patient: " + message)
      <==> patientContext != []
  {
    var pre := ChatContext(patientContext, history);
    if patientContext != [] {
      HeaderLabel(patientContext);
      PrefixExtends("Patient Context: ", Header(patientContext), Conversation(history));
      PrefixExtends("Patient Context: ", pre, "Patient: ");
      PrefixExtends("Patient Context: ", pre + "Patient: ", message);
    } else {
      assert pre == Conversation(history);
      NoContextPrefix(history, message);
    }
  }

  /** The prompt always ends with the patient's line. */
  lemma ChatPromptEndsWithMessage(message: string, patientContext: string, history: seq<ChatMessage>)
    ensures var p := ChatContext(patientContext, history) + "Patient: " + message;
      |p| >= |message| + 9 && p[|p| - |message| - 9..] == "Patient: " + message
  {
    var pre := ChatContext(patientContext, history);
    var p := pre + "Patient: " + message;
    assert p == pre + ("Patient: " + message);
    assert p[|pre|..] == "Patient: " + message;
  }

  lemma PrefixExtends(p: string, a: string, b: string)
    requires IsPrefix(p, a)
    ensures IsPrefix(p, a + b)
  {
    assert (a + b)[..|p|] == a[..|p|];
  }

  /** A non-empty patient context puts its label first. */
  lemma HeaderLabel(patientContext: string)
    requires patientContext != []
    ensures IsPrefix("Patient Context: ", Header(patientContext))
  {
    var lbl := "Patient Context: ";
    PrefixExtends(lbl, lbl, patientContext + "\n\n");
    assert Header(patientContext) == lbl + (patientContext + "\n\n");
  }

  /** Without a patient context the prompt starts with the conversation
      header or with the patient's line, never with the context label. */
  lemma NoContextPrefix(history: seq<ChatMessage>, message: string)
    ensures !IsPrefix("Patient Context: ", Conversation(history) + "Patient: " + message)
  {
    var p := Conversation(history) + "Patient: " + message;
    var lbl := "Patient Context: ";
    if history != [] {
      assert p[0] == 'R' && lbl[0] == 'P';
    } else {
      assert p == "Patient: " + message;
      assert p[7] == ':' && lbl[7] == ' ';
    }
  }

  /** Messages before the last five do not reach the prompt: histories that
      agree on their last five messages give the same prompt. */
  lemma OnlyLastFiveMatter(message: string, patientContext: string, h1: seq<ChatMessage>, h2: seq<ChatMessage>)
    requires h1 != [] && h2 != [] && LastFive(h1) == LastFive(h2)
    ensures ChatContext(patientContext, h1) == ChatContext(patientContext, h2)
  {
  }
}
