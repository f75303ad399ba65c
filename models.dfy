/** The shared request/record shapes: the enumerations with their string
    values and the field constraints that request validation enforces. */
module Models {
  import opened Wrappers
  import opened Text

  // ---------------------------------------------------------------------
  // Enumerations (string-valued enums)
  // ---------------------------------------------------------------------

  datatype Role = Admin | Doctor | Nurse | Receptionist | PatientRole

  function RoleValue(r: Role): string
  {
    match r
    case Admin => "admin"
    case Doctor => "doctor"
    case Nurse => "nurse"
    case Receptionist => "receptionist"
    case PatientRole => "patient"
  }

  /** `UserRole(s)`: the member whose value is `s`, or `None` where Python
      raises `ValueError`. */
  function ParseRole(s: string): (r: Option<Role>)
    ensures r.Some? ==> RoleValue(r.value) == s
    ensures r.None? <==> forall x :: RoleValue(x) != s
  {
    if s == "admin" then Some(Admin)
    else if s == "doctor" then Some(Doctor)
    else if s == "nurse" then Some(Nurse)
    else if s == "receptionist" then Some(Receptionist)
    else if s == "patient" then Some(PatientRole)
    else None
  }

  datatype Permission =
    | CreateUser | ReadUser | UpdateUser | DeleteUser
    | CreatePatient | ReadPatient | UpdatePatient | DeletePatient
    | CreateAppointment | ReadAppointment | UpdateAppointment | DeleteAppointment
    | CreateMedicalRecord | ReadMedicalRecord | UpdateMedicalRecord
    | ManageSchedule | ViewSchedule

  function PermissionValue(p: Permission): string
  {
    match p
    case CreateUser => "create_user"
    case ReadUser => "read_user"
    case UpdateUser => "update_user"
    case DeleteUser => "delete_user"
    case CreatePatient => "create_patient"
    case ReadPatient => "read_patient"
    case UpdatePatient => "update_patient"
    case DeletePatient => "delete_patient"
    case CreateAppointment => "create_appointment"
    case ReadAppointment => "read_appointment"
    case UpdateAppointment => "update_appointment"
    case DeleteAppointment => "delete_appointment"
    case CreateMedicalRecord => "create_medical_record"
    case ReadMedicalRecord => "read_medical_record"
    case UpdateMedicalRecord => "update_medical_record"
    case ManageSchedule => "manage_schedule"
    case ViewSchedule => "view_schedule"
  }

  /** `[perm.value for perm in Permission]`: every value, in declaration order. */
  function AllPermissionValues(): (r: seq<string>)
    ensures |r| == 17
    ensures forall p :: PermissionValue(p) in r
  {
    [ "create_user", "read_user", "update_user", "delete_user",
      "create_patient", "read_patient", "update_patient", "delete_patient",
      "create_appointment", "read_appointment", "update_appointment", "delete_appointment",
      "create_medical_record", "read_medical_record", "update_medical_record",
      "manage_schedule", "view_schedule" ]
  }

  /** `Permission(s)`: the member whose value is `s`, or `None` for a text
      that is no permission value. */
  function ParsePermission(s: string): (r: Option<Permission>)
    ensures r.Some? ==> PermissionValue(r.value) == s
    ensures r.None? ==> forall p :: PermissionValue(p) != s
  {
    if s == "create_user" then Some(CreateUser)
    else if s == "read_user" then Some(ReadUser)
    else if s == "update_user" then Some(UpdateUser)
    else if s == "delete_user" then Some(DeleteUser)
    else if s == "create_patient" then Some(CreatePatient)
    else if s == "read_patient" then Some(ReadPatient)
    else if s == "update_patient" then Some(UpdatePatient)
    else if s == "delete_patient" then Some(DeletePatient)
    else if s == "create_appointment" then Some(CreateAppointment)
    else if s == "read_appointment" then Some(ReadAppointment)
    else if s == "update_appointment" then Some(UpdateAppointment)
    else if s == "delete_appointment" then Some(DeleteAppointment)
    else if s == "create_medical_record" then Some(CreateMedicalRecord)
    else if s == "read_medical_record" then Some(ReadMedicalRecord)
    else if s == "update_medical_record" then Some(UpdateMedicalRecord)
    else if s == "manage_schedule" then Some(ManageSchedule)
    else if s == "view_schedule" then Some(ViewSchedule)
    else None
  }

  /** Permission values are pairwise distinct, so a value names one permission. */
  lemma PermissionValueInjective(p: Permission, q: Permission)
    requires PermissionValue(p) == PermissionValue(q)
    ensures p == q
  {
  }

  datatype AppointmentStatus = Scheduled | Confirmed | InProgress | Completed | Cancelled | NoShow

  function StatusValue(s: AppointmentStatus): string
  {
    match s
    case Scheduled => "scheduled"
    case Confirmed => "confirmed"
    case InProgress => "in_progress"
    case Completed => "completed"
    case Cancelled => "cancelled"
    case NoShow => "no_show"
  }

  datatype AppointmentType = OfficeVisitType | Consultation | FollowUp | Emergency | RoutineCheckup

  function AppointmentTypeValue(t: AppointmentType): string
  {
    match t
    case OfficeVisitType => "office_visit"
    case Consultation => "consultation"
    case FollowUp => "follow_up"
    case Emergency => "emergency"
    case RoutineCheckup => "routine_checkup"
  }

  datatype VisitType = NewPatient | EstablishedPatient | UrgentCare | SpecialistConsultation

  function VisitTypeValue(t: VisitType): string
  {
    match t
    case NewPatient => "new_patient"
    case EstablishedPatient => "established_patient"
    case UrgentCare => "urgent_care"
    case SpecialistConsultation => "specialist_consultation"
  }

  // ---------------------------------------------------------------------
  // Scalar constraints
  // ---------------------------------------------------------------------

  /** A calendar date and a time of day, in whole seconds. */
  datatype DateTime = DateTime(day: int, secondOfDay: nat)

  predicate LengthIn(s: string, lo: nat, hi: nat) { lo <= |s| <= hi }

  predicate NoAt(s: string) { forall k :: 0 <= k < |s| ==> s[k] != '@' }

  /** The way the pattern `^[^@]+@[^@]+\.[^@]+$` splits a matching string:
      `@` at `i`, the `.` at `j`, and three non-empty runs without `@`. */
  predicate EmailSplit(s: string, i: int, j: int)
  {
    && 0 < i && i + 1 < j && j + 1 < |s|
    && s[i] == '@' && s[j] == '.'
    && NoAt(s[..i]) && NoAt(s[i + 1..j]) && NoAt(s[j + 1..])
  }

  function CountChar(s: string, c: char): nat
  {
    if s == [] then 0 else (if s[0] == c then 1 else 0) + CountChar(s[1..], c)
  }

  function IndexOf(s: string, c: char): (r: Option<nat>)
    ensures r.Some? ==> r.value < |s| && s[r.value] == c && forall k :: 0 <= k < r.value ==> s[k] != c
    ensures r.None? ==> forall k :: 0 <= k < |s| ==> s[k] != c
  {
    if s == [] then None
    else if s[0] == c then Some(0)
    else match IndexOf(s[1..], c)
      case None => None
      case Some(k) => Some(k + 1)
  }

  /** The e-mail check done directly: exactly one `@`, not first, and a `.`
      strictly inside the part after it. */
  predicate ValidEmail(s: string)
  {
    CountChar(s, '@') == 1 &&
    match IndexOf(s, '@')
    case None => false
    case Some(a) => a > 0 && HasInnerDot(s[a + 1..])
  }

  predicate HasInnerDot(d: string)
  {
    exists k :: 0 < k < |d| - 1 && d[k] == '.'
  }

  lemma {:induction false} CountCharZero(s: string, c: char)
    ensures CountChar(s, c) == 0 <==> forall k :: 0 <= k < |s| ==> s[k] != c
  {
    if s != [] {
      CountCharZero(s[1..], c);
      assert forall k :: 1 <= k < |s| ==> s[k] == s[1..][k - 1];
    }
  }

  lemma {:induction false} CountCharSplit(s: string, i: nat, c: char)
    requires i <= |s|
    ensures CountChar(s, c) == CountChar(s[..i], c) + CountChar(s[i..], c)
  {
    if i > 0 {
      CountCharSplit(s[1..], i - 1, c);
      assert s[1..][..i - 1] == s[..i][1..];
      assert s[1..][i - 1..] == s[i..];
    }
  }

  /** The direct check accepts exactly the strings the pattern matches. */
  lemma EmailCheckMatchesPattern(s: string)
    ensures ValidEmail(s) <==> exists i, j :: EmailSplit(s, i, j)
  {
    if ValidEmail(s) {
      ValidEmailSplits(s);
    }
    if exists i, j :: EmailSplit(s, i, j) {
      var i, j :| EmailSplit(s, i, j);
      SplitIsValidEmail(s, i, j);
    }
  }

  lemma ValidEmailSplits(s: string)
    requires ValidEmail(s)
    ensures exists i, j :: EmailSplit(s, i, j)
  {
    var a := IndexOf(s, '@').value;
    var d := s[a + 1..];
    var k :| 0 < k < |d| - 1 && d[k] == '.';
    CountCharSplit(s, a, '@');
    CountCharSplit(s[a..], 1, '@');
    assert s[a..][1..] == d;
    CountCharZero(s[..a], '@');
    CountCharZero(d, '@');
    assert s[a + 1..a + 1 + k] == d[..k];
    assert s[a + 1 + k + 1..] == d[k + 1..];
    assert EmailSplit(s, a, a + 1 + k);
  }

  lemma SplitIsValidEmail(s: string, i: int, j: int)
    requires EmailSplit(s, i, j)
    ensures ValidEmail(s)
  {
    assert forall k :: 0 <= k < i ==> s[k] == s[..i][k];
    assert IndexOf(s, '@') == Some(i);
    CountCharZero(s[..i], '@');
    var d := s[i + 1..];
    assert forall k :: 0 <= k < |d| && k != j - i - 1 ==> d[k] != '@' by {
      forall k | 0 <= k < |d| && k != j - i - 1 ensures d[k] != '@' {
        if k < j - i - 1 { assert d[k] == s[i + 1..j][k]; }
        else { assert d[k] == s[j + 1..][k - (j - i)]; }
      }
    }
    CountCharZero(d, '@');
    CountCharSplit(s, i, '@');
    CountCharSplit(s[i..], 1, '@');
    assert s[i..][1..] == d;
    assert d[j - i - 1] == '.';
  }

  function HourDigits(s: string): string
    requires |s| >= 3
  {
    s[..|s| - 3]
  }

  /** `^([01]?[0-9]|2[0-3]):[0-5][0-9]$`, alternative by alternative. */
  predicate MatchesTime(s: string)
  {
    && (|s| == 4 || |s| == 5)
    && s[|s| - 3] == ':'
    && '0' <= s[|s| - 2] <= '5' && IsDigit(s[|s| - 1])
    && var h := HourDigits(s);
       || (|h| == 1 && IsDigit(h[0]))
       || (|h| == 2 && (h[0] == '0' || h[0] == '1') && IsDigit(h[1]))
       || (|h| == 2 && h[0] == '2' && '0' <= h[1] <= '3')
  }

  /** A time of day as `HH:MM` means it: one or two hour digits worth at
      most 23, a colon, and two minute digits worth at most 59. */
  predicate ClockTime(s: string)
  {
    && (|s| == 4 || |s| == 5)
    && s[|s| - 3] == ':'
    && AllDigits(HourDigits(s)) && AllDigits(s[|s| - 2..])
    && ParseNat(HourDigits(s)) <= 23
    && ParseNat(s[|s| - 2..]) <= 59
  }

  /** The time pattern accepts exactly the clock times. */
  lemma TimePatternMeaning(s: string)
    ensures MatchesTime(s) <==> ClockTime(s)
  {
    if |s| == 4 || |s| == 5 {
      var h := HourDigits(s);
      var m := s[|s| - 2..];
      assert m[..1] == [m[0]] && m[..0] == [];
      if AllDigits(m) {
        ParseNatTwoDigits(m);
      }
      if |h| == 2 {
        assert h[..1] == [h[0]] && h[..0] == [];
        if AllDigits(h) {
          ParseNatTwoDigits(h);
        }
      } else {
        assert h[..0] == [];
      }
    }
  }

  predicate ValidGender(s: string) { s == "male" || s == "female" || s == "other" }

  predicate ValidDifficulty(s: string) { s == "basic" || s == "intermediate" || s == "advanced" }

  // ---------------------------------------------------------------------
  // Request models and their constraints
  // ---------------------------------------------------------------------

  datatype UserCreate = UserCreate(
    username: string, email: string, firstName: string, lastName: string,
    fullName: string, role: Role, isActive: bool, password: string)

  predicate ValidUserCreate(u: UserCreate)
  {
    && LengthIn(u.username, 3, 50) && ValidEmail(u.email)
    && LengthIn(u.firstName, 1, 50) && LengthIn(u.lastName, 1, 50)
    && LengthIn(u.fullName, 2, 100) && |u.password| >= 8
  }

  datatype PatientCreate = PatientCreate(
    firstName: string, lastName: string, dateOfBirth: DateTime, gender: string,
    phone: string, email: string, address: string, emergencyContact: string,
    insuranceInfo: Option<string>, medicalHistory: Option<string>,
    allergies: Option<seq<string>>, medications: Option<seq<string>>)

  predicate ValidPatientCreate(p: PatientCreate)
  {
    && LengthIn(p.firstName, 1, 50) && LengthIn(p.lastName, 1, 50)
    && ValidGender(p.gender) && LengthIn(p.phone, 10, 20) && ValidEmail(p.email)
    && LengthIn(p.address, 10, 200) && LengthIn(p.emergencyContact, 5, 100)
  }

  datatype DoctorCreate = DoctorCreate(
    userId: Option<string>, specialization: string, licenseNumber: string,
    yearsExperience: Option<int>, education: Option<seq<string>>,
    certifications: Option<seq<string>>, isActive: bool)

  predicate ValidDoctorCreate(d: DoctorCreate)
  {
    && LengthIn(d.specialization, 2, 100) && LengthIn(d.licenseNumber, 5, 50)
    && (d.yearsExperience.Some? ==> 0 <= d.yearsExperience.value <= 50)
  }

  const DefaultDurationMinutes: int := 30

  datatype AppointmentCreate = AppointmentCreate(
    patientId: string, doctorId: string, appointmentType: AppointmentType,
    scheduledDate: DateTime, durationMinutes: int, notes: Option<string>)

  predicate ValidDuration(minutes: int) { 15 <= minutes <= 480 }

  predicate ValidAppointmentCreate(a: AppointmentCreate) { ValidDuration(a.durationMinutes) }

  /** An appointment is accepted exactly when it lasts 15 minutes to 8
      hours, so a request that keeps the default length is accepted. */
  lemma AppointmentCreateAccepted(a: AppointmentCreate)
    ensures ValidAppointmentCreate(a) <==> 15 <= a.durationMinutes <= 480
    ensures a.durationMinutes == DefaultDurationMinutes ==> ValidAppointmentCreate(a)
  {
  }

  /** The status an `Appointment` record takes when none is given. */
  const DefaultAppointmentStatus: AppointmentStatus := Scheduled

  datatype OfficeVisitCreate = OfficeVisitCreate(
    appointmentId: Option<string>, patientId: string, doctorId: string, nurseId: Option<string>,
    visitType: VisitType, chiefComplaint: string, vitalSigns: Option<string>,
    examinationNotes: Option<string>, diagnosis: Option<string>, treatmentPlan: Option<string>,
    prescriptions: Option<seq<string>>, followUpDate: Option<DateTime>)

  predicate ValidOfficeVisitCreate(v: OfficeVisitCreate) { LengthIn(v.chiefComplaint, 10, 500) }

  datatype ScheduleCreate = ScheduleCreate(
    doctorId: string, date: DateTime, startTime: string, endTime: string,
    isAvailable: bool, notes: Option<string>)

  predicate ValidScheduleCreate(s: ScheduleCreate) { MatchesTime(s.startTime) && MatchesTime(s.endTime) }

  datatype PatientEducationCreate = PatientEducationCreate(
    patientId: string, topic: string, content: string, difficultyLevel: string,
    language: string, isRead: bool)

  const DefaultLanguage: string := "en"

  predicate ValidPatientEducationCreate(e: PatientEducationCreate)
  {
    && LengthIn(e.topic, 5, 200) && LengthIn(e.content, 10, 5000)
    && ValidDifficulty(e.difficultyLevel) && LengthIn(e.language, 2, 10)
  }

  datatype PatientNoteInput = PatientNoteInput(sessionId: string, note: string)

  predicate ValidPatientNoteInput(n: PatientNoteInput) { LengthIn(n.note, 10, 5000) }

  // ---------------------------------------------------------------------
  // What each request model accepts
  // ---------------------------------------------------------------------

  /** A new user is accepted exactly when the username has 3 to 50
      characters, the e-mail has the pattern's shape, the first and last
      names 1 to 50, the full name 2 to 100, and the password at least 8. */
  lemma UserCreateAccepted(u: UserCreate)
    ensures ValidUserCreate(u) <==>
      && 3 <= |u.username| <= 50 && (exists i, j :: EmailSplit(u.email, i, j))
      && 1 <= |u.firstName| <= 50 && 1 <= |u.lastName| <= 50
      && 2 <= |u.fullName| <= 100 && |u.password| >= 8
  {
    EmailCheckMatchesPattern(u.email);
  }

  /** A new patient is accepted exactly when the names have 1 to 50
      characters, the gender is male, female or other, the phone has 10 to
      20, the e-mail has the pattern's shape, the address 10 to 200 and the
      emergency contact 5 to 100. */
  lemma PatientCreateAccepted(p: PatientCreate)
    ensures ValidPatientCreate(p) <==>
      && 1 <= |p.firstName| <= 50 && 1 <= |p.lastName| <= 50
      && (p.gender == "male" || p.gender == "female" || p.gender == "other")
      && 10 <= |p.phone| <= 20 && (exists i, j :: EmailSplit(p.email, i, j))
      && 10 <= |p.address| <= 200 && 5 <= |p.emergencyContact| <= 100
  {
    EmailCheckMatchesPattern(p.email);
  }

  /** A new doctor is accepted exactly when the specialization has 2 to 100
      characters, the licence number 5 to 50, and any years of experience
      lie between 0 and 50. */
  lemma DoctorCreateAccepted(d: DoctorCreate)
    ensures ValidDoctorCreate(d) <==>
      && 2 <= |d.specialization| <= 100 && 5 <= |d.licenseNumber| <= 50
      && (d.yearsExperience.None? || 0 <= d.yearsExperience.value <= 50)
  {
  }

  /** An office visit is accepted exactly when the chief complaint has 10
      to 500 characters. */
  lemma OfficeVisitCreateAccepted(v: OfficeVisitCreate)
    ensures ValidOfficeVisitCreate(v) <==> 10 <= |v.chiefComplaint| <= 500
  {
  }

  /** A schedule is accepted exactly when both its start and its end are
      clock times. */
  lemma ScheduleCreateAccepted(s: ScheduleCreate)
    ensures ValidScheduleCreate(s) <==> ClockTime(s.startTime) && ClockTime(s.endTime)
  {
    TimePatternMeaning(s.startTime);
    TimePatternMeaning(s.endTime);
  }

  /** An education item is accepted exactly when the topic has 5 to 200
      characters, the content 10 to 5000, the difficulty is basic,
      intermediate or advanced, and the language code 2 to 10. */
  lemma PatientEducationCreateAccepted(e: PatientEducationCreate)
    ensures ValidPatientEducationCreate(e) <==>
      && 5 <= |e.topic| <= 200 && 10 <= |e.content| <= 5000
      && (e.difficultyLevel == "basic" || e.difficultyLevel == "intermediate" || e.difficultyLevel == "advanced")
      && 2 <= |e.language| <= 10
  {
  }

  /** A note for the AI service is accepted exactly when it has 10 to 5000
      characters; the session id is not checked. */
  lemma PatientNoteInputAccepted(n: PatientNoteInput)
    ensures ValidPatientNoteInput(n) <==> 10 <= |n.note| <= 5000
  {
  }
}
