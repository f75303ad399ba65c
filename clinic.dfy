/** The clinic service's in-memory store: five dictionaries of records,
    keyed by generated id and kept in insertion order, with the create,
    list, get, update and delete handlers and the dashboard counts. Ids
    (`uuid4`) and the clock are parameters. */
module Clinic {
  import opened Wrappers
  import opened Models

  /** A field value of a stored record; enumerations are stored as their
      string value and `None` as `Null`. */
  datatype Value = Null | Str(s: string) | Int(i: int) | Flag(b: bool) | Time(t: DateTime) | Strings(items: seq<string>)

  /** A stored record, a dictionary from field name to value. */
  type Record = map<string, Value>

  function Get(r: Record, k: string): Option<Value>
  {
    if k in r then Some(r[k]) else None
  }

  function OptStr(o: Option<string>): Value { if o.Some? then Str(o.value) else Null }
  function OptInt(o: Option<int>): Value { if o.Some? then Int(o.value) else Null }
  function OptStrings(o: Option<seq<string>>): Value { if o.Some? then Strings(o.value) else Null }
  function OptTime(o: Option<DateTime>): Value { if o.Some? then Time(o.value) else Null }

  // ---------------------------------------------------------------------
  // Python list slicing
  // ---------------------------------------------------------------------

  /** A slice bound as Python normalises it: negative counts from the end,
      then clamped to `[0, n]`. */
  function SliceBound(b: int, n: nat): (r: nat)
    ensures r <= n
  {
    if b < 0 then (if b + n < 0 then 0 else b + n) else if b > n then n else b
  }

  /** `s[start:stop]` on a Python list. */
  function PySlice<T>(s: seq<T>, start: int, stop: int): (r: seq<T>)
    ensures |r| <= |s| && SliceBound(start, |s|) + |r| <= |s|
    ensures |r| == if SliceBound(start, |s|) < SliceBound(stop, |s|) then SliceBound(stop, |s|) - SliceBound(start, |s|) else 0
    ensures forall i :: 0 <= i < |r| ==> r[i] == s[SliceBound(start, |s|) + i]
  {
    var a := SliceBound(start, |s|);
    var b := SliceBound(stop, |s|);
    if a < b then s[a..b] else []
  }

  /** With a non-negative `limit`, `values[skip:skip + limit]` holds at most
      `limit` records, and with non-negative `skip` it is exactly the run of
      records from position `skip` that fits. */
  lemma PageBounded<T>(s: seq<T>, skip: int, limit: int)
    ensures limit >= 0 ==> |PySlice(s, skip, skip + limit)| <= limit
    ensures skip >= 0 && limit >= 0 ==>
      PySlice(s, skip, skip + limit) == s[(if skip < |s| then skip else |s|)..(if skip + limit < |s| then skip + limit else |s|)]
  {
  }

  /** A negative `limit` does not give an empty page: skipping 2 of 10
      records with limit -3 returns 7 of them. */
  lemma NegativeLimitPage(s: seq<int>)
    requires |s| == 10
    ensures |PySlice(s, 2, 2 + -3)| == 7
  {
  }

  /** The page the listing handlers evidently mean: negative `skip` and
      `limit` count as zero. */
  function BoundedPage<T>(s: seq<T>, skip: int, limit: int): (r: seq<T>)
    ensures |r| <= (if limit < 0 then 0 else limit)
    ensures |r| > 0 ==> (if skip < 0 then 0 else skip) + |r| <= |s|
    ensures var sk, li := (if skip < 0 then 0 else skip), (if limit < 0 then 0 else limit);
      |r| == if sk >= |s| then 0 else if sk + li <= |s| then li else |s| - sk
    ensures forall i :: 0 <= i < |r| ==> r[i] == s[(if skip < 0 then 0 else skip) + i]
  {
    var sk := if skip < 0 then 0 else skip;
    var li := if limit < 0 then 0 else limit;
    PySlice(s, sk, sk + li)
  }

  // ---------------------------------------------------------------------
  // Field updates
  // ---------------------------------------------------------------------

  /** The value the last provided entry for field `k` gives, if any. */
  function LastSet(fields: seq<(string, Value)>, k: string): (r: Option<Value>)
    ensures r.None? <==> forall i :: 0 <= i < |fields| ==> fields[i].0 != k
    ensures r.Some? ==> exists i :: 0 <= i < |fields| && fields[i] == (k, r.value) && forall j :: i < j < |fields| ==> fields[j].0 != k
    decreases |fields|
  {
    if fields == [] then None
    else if fields[|fields| - 1].0 == k then Some(fields[|fields| - 1].1)
    else
      var r := LastSet(fields[..|fields| - 1], k);
      assert forall i :: 0 <= i < |fields| - 1 ==> fields[..|fields| - 1][i] == fields[i];
      r
  }

  /** `s` without the element `x`, order kept. */
  function Without(s: seq<string>, x: string): (r: seq<string>)
    ensures forall y :: y in r <==> y in s && y != x
    ensures x !in s ==> r == s
    decreases |s|
  {
    if s == [] then []
    else
      var rest := Without(s[1..], x);
      assert forall y :: y in s <==> y == s[0] || y in s[1..];
      if s[0] == x then rest else [s[0]] + rest
  }

  predicate Unique(s: seq<string>)
  {
    forall i, j :: 0 <= i < j < |s| ==> s[i] != s[j]
  }

  /** Removing an element from a list without repeats drops one entry. */
  lemma {:induction false} WithoutUnique(s: seq<string>, x: string)
    requires Unique(s)
    ensures Unique(Without(s, x))
    ensures x in s ==> |Without(s, x)| == |s| - 1
    decreases |s|
  {
    if s != [] {
      var t := s[1..];
      assert Unique(t) by {
        forall i, j | 0 <= i < j < |t| ensures t[i] != t[j] { assert t[i] == s[i + 1] && t[j] == s[j + 1]; }
      }
      assert s[0] !in t by {
        forall k | 0 <= k < |t| ensures t[k] != s[0] { assert t[k] == s[k + 1]; }
      }
      WithoutUnique(t, x);
      var rest := Without(t, x);
      if s[0] != x {
        var r := [s[0]] + rest;
        assert Without(s, x) == r;
        forall i, j | 0 <= i < j < |r| ensures r[i] != r[j] {
          assert r[j] == rest[j - 1] && r[j] in rest;
          if i > 0 { assert r[i] == rest[i - 1]; }
        }
        if x in s { assert x in t; }
      } else {
        assert x !in t;
      }
    }
  }

  /** A dictionary's keys listed once each, in insertion order. */
  ghost predicate Indexed(order: seq<string>, rows: map<string, Record>)
  {
    && |order| == |rows|
    && (forall i :: 0 <= i < |order| ==> order[i] in rows)
    && (forall k :: k in rows ==> k in order)
    && Unique(order)
  }

  /** Deleting a key and dropping it from the order keeps the two in step. */
  lemma RemoveKeepsIndexed(order: seq<string>, rows: map<string, Record>, id: string)
    requires Indexed(order, rows) && id in rows
    ensures Indexed(Without(order, id), rows - {id})
  {
    WithoutUnique(order, id);
    var o := Without(order, id);
    var m := rows - {id};
    assert m.Keys == rows.Keys - {id};
    assert |m| == |rows| - 1;
    forall i | 0 <= i < |o| ensures o[i] in m { assert o[i] in o; }
  }

  /** One of the service's dictionaries: `rows` with its keys in insertion
      order. */
  class Collection {
    var order: seq<string>
    var rows: map<string, Record>

    ghost predicate Valid()
      reads this
    {
      Indexed(order, rows)
    }

    constructor ()
      ensures Valid() && order == [] && rows == map[]
    {
      order := [];
      rows := map[];
    }

    /** `list(db.values())`: the records in insertion order. */
    function Values(): (r: seq<Record>)
      reads this
      requires Valid()
      ensures |r| == |rows|
      ensures forall i :: 0 <= i < |r| ==> r[i] == rows[order[i]]
    {
      seq(|order|, i requires 0 <= i < |order| && order[i] in rows reads this => rows[order[i]])
    }

    /** `db[id] = record`: a new key goes last, an existing key keeps its
        place. */
    method Put(id: string, record: Record)
      requires Valid()
      modifies this
      ensures Valid()
      ensures rows == old(rows)[id := record]
      ensures order == if id in old(rows) then old(order) else old(order) + [id]
      ensures id !in old(rows) ==> |rows| == |old(rows)| + 1
    {
      if id !in rows {
        order := order + [id];
      }
      rows := rows[id := record];
      assert forall k :: k in rows ==> k == id || k in old(rows);
    }

    /** The list handlers: `values[skip:skip + limit]`. */
    function Page(skip: int, limit: int): (r: seq<Record>)
      reads this
      requires Valid()
      ensures |r| <= |rows| && SliceBound(skip, |rows|) + |r| <= |order|
      ensures var a, b := SliceBound(skip, |rows|), SliceBound(skip + limit, |rows|);
        |r| == if a < b then b - a else 0
      ensures forall i :: 0 <= i < |r| ==> r[i] == rows[order[SliceBound(skip, |rows|) + i]]
    {
      PySlice(Values(), skip, skip + limit)
    }

    /** The listing as evidently intended: at most `limit` records from
        position `skip`, with negative values read as zero. */
    function BoundedListing(skip: int, limit: int): (r: seq<Record>)
      reads this
      requires Valid()
      ensures |r| <= (if limit < 0 then 0 else limit)
      ensures var start, li := (if skip < 0 then 0 else skip), (if limit < 0 then 0 else limit);
        && (|r| > 0 ==> start + |r| <= |order|)
        && |r| == (if start >= |order| then 0 else if start + li <= |order| then li else |order| - start)
        && forall i :: 0 <= i < |r| ==> r[i] == rows[order[start + i]]
    {
      BoundedPage(Values(), skip, limit)
    }

    /** The get handlers: 404 "<what> not found" when the id is absent or
        its record is empty (falsy), else the record. */
    method Find(id: string, what: string) returns (r: Result<Record, HttpError>)
      ensures r.Err? <==> id !in rows || rows[id] == map[]
      ensures r.Err? ==> r.error == HttpError(404, what + " not found")
      ensures r.Ok? ==> r.value == rows[id]
    {
      if id !in rows || rows[id] == map[] {
        return Err(HttpError(404, what + " not found"));
      }
      r := Ok(rows[id]);
    }

    /** The update handlers: 404 as for a get; otherwise each provided field
        is written into the stored record in order, then `updated_at`, and
        the record is returned. No other record and no order changes. */
    method Update(id: string, fields: seq<(string, Value)>, now: DateTime, what: string) returns (r: Result<Record, HttpError>)
      requires Valid()
      modifies this
      ensures Valid()
      ensures order == old(order)
      ensures r.Err? <==> old(id !in rows || rows[id] == map[])
      ensures old(id !in rows || rows[id] == map[]) ==> r == Err(HttpError(404, what + " not found")) && rows == old(rows)
      ensures r.Ok? ==>
        && id in old(rows) && old(rows[id]) != map[]
        && rows == old(rows)[id := r.value]
        && Get(r.value, "updated_at") == Some(Time(now))
        && forall k :: k != "updated_at" ==>
             Get(r.value, k) == (if LastSet(fields, k).Some? then LastSet(fields, k) else Get(old(rows[id]), k))
    {
      if id !in rows || rows[id] == map[] {
        return Err(HttpError(404, what + " not found"));
      }
      var record := rows[id];
      ghost var original := record;
      var i := 0;
      while i < |fields|
        invariant 0 <= i <= |fields|
        invariant forall k :: Get(record, k) == (if LastSet(fields[..i], k).Some? then LastSet(fields[..i], k) else Get(original, k))
      {
        record := record[fields[i].0 := fields[i].1];
        assert fields[..i + 1][..i] == fields[..i];
        i := i + 1;
      }
      assert fields[..|fields|] == fields;
      record := record["updated_at" := Time(now)];
      rows := rows[id := record];
      r := Ok(record);
    }

    /** The delete handler: 404 when the id is not a key, otherwise exactly
        that key goes. */
    method Delete(id: string, what: string) returns (r: Result<string, HttpError>)
      requires Valid()
      modifies this
      ensures Valid()
      ensures id !in old(rows) ==> r == Err(HttpError(404, what + " not found")) && rows == old(rows) && order == old(order)
      ensures id in old(rows) ==>
        && r == Ok(what + " deleted successfully")
        && rows == old(rows) - {id} && order == Without(old(order), id)
    {
      if id !in rows {
        return Err(HttpError(404, what + " not found"));
      }
      RemoveKeepsIndexed(order, rows, id);
      rows := rows - {id};
      order := Without(order, id);
      r := Ok(what + " deleted successfully");
    }
  }

  // ---------------------------------------------------------------------
  // Records the create handlers store
  // ---------------------------------------------------------------------

  function PatientRecord(id: string, d: PatientCreate, now: DateTime): (r: Record)
    ensures Get(r, "id") == Some(Str(id)) && r != map[]
    ensures Get(r, "created_at") == Get(r, "updated_at") == Some(Time(now))
  {
    map[
      "id" := Str(id), "first_name" := Str(d.firstName), "last_name" := Str(d.lastName),
      "date_of_birth" := Time(d.dateOfBirth), "gender" := Str(d.gender), "phone" := Str(d.phone),
      "email" := Str(d.email), "address" := Str(d.address), "emergency_contact" := Str(d.emergencyContact),
      "insurance_info" := OptStr(d.insuranceInfo), "medical_history" := OptStr(d.medicalHistory),
      "allergies" := OptStrings(d.allergies), "medications" := OptStrings(d.medications),
      "created_at" := Time(now), "updated_at" := Time(now)]
  }

  function DoctorRecord(id: string, d: DoctorCreate, now: DateTime): (r: Record)
    ensures Get(r, "id") == Some(Str(id)) && r != map[]
    ensures Get(r, "created_at") == Get(r, "updated_at") == Some(Time(now))
  {
    map[
      "id" := Str(id), "user_id" := OptStr(d.userId), "specialization" := Str(d.specialization),
      "license_number" := Str(d.licenseNumber), "years_experience" := OptInt(d.yearsExperience),
      "education" := OptStrings(d.education), "certifications" := OptStrings(d.certifications),
      "is_active" := Flag(d.isActive), "created_at" := Time(now), "updated_at" := Time(now)]
  }

  /** Every new appointment is stored as scheduled, whatever was asked. */
  function AppointmentRecord(id: string, d: AppointmentCreate, now: DateTime): (r: Record)
    ensures Get(r, "id") == Some(Str(id)) && r != map[]
    ensures Get(r, "status") == Some(Str(StatusValue(Scheduled)))
    ensures Get(r, "scheduled_date") == Some(Time(d.scheduledDate))
    ensures Get(r, "created_at") == Get(r, "updated_at") == Some(Time(now))
  {
    map[
      "id" := Str(id), "patient_id" := Str(d.patientId), "doctor_id" := Str(d.doctorId),
      "appointment_type" := Str(AppointmentTypeValue(d.appointmentType)),
      "status" := Str(StatusValue(Scheduled)), "scheduled_date" := Time(d.scheduledDate),
      "duration_minutes" := Int(d.durationMinutes), "notes" := OptStr(d.notes),
      "created_at" := Time(now), "updated_at" := Time(now)]
  }

  /** An office visit is dated when it is recorded. */
  function VisitRecord(id: string, d: OfficeVisitCreate, now: DateTime): (r: Record)
    ensures Get(r, "id") == Some(Str(id)) && r != map[]
    ensures Get(r, "visit_date") == Get(r, "created_at") == Get(r, "updated_at") == Some(Time(now))
  {
    map[
      "id" := Str(id), "appointment_id" := OptStr(d.appointmentId), "patient_id" := Str(d.patientId),
      "doctor_id" := Str(d.doctorId), "nurse_id" := OptStr(d.nurseId),
      "visit_type" := Str(VisitTypeValue(d.visitType)), "chief_complaint" := Str(d.chiefComplaint),
      "vital_signs" := OptStr(d.vitalSigns), "examination_notes" := OptStr(d.examinationNotes),
      "diagnosis" := OptStr(d.diagnosis), "treatment_plan" := OptStr(d.treatmentPlan),
      "prescriptions" := OptStrings(d.prescriptions), "follow_up_date" := OptTime(d.followUpDate),
      "visit_date" := Time(now), "created_at" := Time(now), "updated_at" := Time(now)]
  }

  function ScheduleRecord(id: string, d: ScheduleCreate, now: DateTime): (r: Record)
    ensures Get(r, "id") == Some(Str(id)) && r != map[]
    ensures Get(r, "created_at") == Get(r, "updated_at") == Some(Time(now))
  {
    map[
      "id" := Str(id), "doctor_id" := Str(d.doctorId), "date" := Time(d.date),
      "start_time" := Str(d.startTime), "end_time" := Str(d.endTime),
      "is_available" := Flag(d.isAvailable), "notes" := OptStr(d.notes),
      "created_at" := Time(now), "updated_at" := Time(now)]
  }

  /** Whether a stored appointment has a date to call `.date()` on; an
      update may have set `scheduled_date` to None. */
  predicate Dated(r: Record)
  {
    "scheduled_date" in r && r["scheduled_date"].Time?
  }

  predicate AllDated(rs: seq<Record>)
  {
    forall i :: 0 <= i < |rs| ==> Dated(rs[i])
  }

  /** Whether a stored appointment falls on day `today`. */
  predicate OnDay(r: Record, today: int)
  {
    Dated(r) && r["scheduled_date"].t.day == today
  }

  /** How many of the records fall on day `today`. */
  function CountOn(rs: seq<Record>, today: int): (n: nat)
    ensures n <= |rs|
    ensures n == 0 <==> forall i :: 0 <= i < |rs| ==> !OnDay(rs[i], today)
    decreases |rs|
  {
    if rs == [] then 0
    else
      var n := CountOn(rs[..|rs| - 1], today);
      assert forall i :: 0 <= i < |rs| - 1 ==> rs[..|rs| - 1][i] == rs[i];
      n + (if OnDay(rs[|rs| - 1], today) then 1 else 0)
  }

  /** The dashboard's list comprehension: the number of records on day
      `today`, or None when some record has no date to compare (where the
      handler raises). */
  method CountToday(vs: seq<Record>, today: int) returns (r: Option<nat>)
    ensures r.Some? <==> AllDated(vs)
    ensures r.Some? ==> r.value == CountOn(vs, today)
  {
    var count := 0;
    var i := 0;
    while i < |vs|
      invariant 0 <= i <= |vs|
      invariant count == CountOn(vs[..i], today)
      invariant AllDated(vs[..i])
    {
      assert vs[..i + 1][..i] == vs[..i];
      if !Dated(vs[i]) {
        return None;
      }
      if OnDay(vs[i], today) {
        count := count + 1;
      }
      i := i + 1;
    }
    assert vs[..|vs|] == vs;
    r := Some(count);
  }

  /** The count is the size of the list comprehension's filter: the number
      of positions whose record falls on the day. */
  lemma {:induction false} CountOnFilter(rs: seq<Record>, today: int)
    ensures CountOn(rs, today) == |set i | 0 <= i < |rs| && OnDay(rs[i], today)|
    decreases |rs|
  {
    if rs != [] {
      var init := rs[..|rs| - 1];
      CountOnFilter(init, today);
      var a := set i | 0 <= i < |init| && OnDay(init[i], today);
      var b := set i | 0 <= i < |rs| && OnDay(rs[i], today);
      if OnDay(rs[|rs| - 1], today) {
        assert b == a + {|rs| - 1};
      } else {
        assert b == a;
      }
    }
  }

  datatype Stats = Stats(totalPatients: nat, totalAppointments: nat, totalDoctors: nat, todayAppointments: nat)

  /** The five dictionaries of the service. */
  class ClinicDb {
    const patients: Collection
    const appointments: Collection
    const visits: Collection
    const doctors: Collection
    const schedules: Collection

    ghost predicate Valid()
      reads this, patients, appointments, visits, doctors, schedules
    {
      && patients.Valid() && appointments.Valid() && visits.Valid() && doctors.Valid() && schedules.Valid()
      && patients != appointments && patients != visits && patients != doctors && patients != schedules
      && appointments != visits && appointments != doctors && appointments != schedules
      && visits != doctors && visits != schedules && doctors != schedules
    }

    constructor ()
      ensures Valid()
      ensures patients.rows == appointments.rows == visits.rows == doctors.rows == schedules.rows == map[]
      ensures fresh(patients) && fresh(appointments) && fresh(visits) && fresh(doctors) && fresh(schedules)
    {
      patients := new Collection();
      appointments := new Collection();
      visits := new Collection();
      doctors := new Collection();
      schedules := new Collection();
    }

    /** `create_patient`: the record stored under the new id and returned. */
    method CreatePatient(id: string, d: PatientCreate, now: DateTime) returns (r: Record)
      requires Valid()
      modifies patients
      ensures Valid()
      ensures r == PatientRecord(id, d, now) && patients.rows == old(patients.rows)[id := r]
      ensures id !in old(patients.rows) ==> patients.order == old(patients.order) + [id]
    {
      r := PatientRecord(id, d, now);
      patients.Put(id, r);
    }

    /** `create_doctor`. */
    method CreateDoctor(id: string, d: DoctorCreate, now: DateTime) returns (r: Record)
      requires Valid()
      modifies doctors
      ensures Valid()
      ensures r == DoctorRecord(id, d, now) && doctors.rows == old(doctors.rows)[id := r]
      ensures id !in old(doctors.rows) ==> doctors.order == old(doctors.order) + [id]
    {
      r := DoctorRecord(id, d, now);
      doctors.Put(id, r);
    }

    /** `create_appointment`. */
    method CreateAppointment(id: string, d: AppointmentCreate, now: DateTime) returns (r: Record)
      requires Valid()
      modifies appointments
      ensures Valid()
      ensures r == AppointmentRecord(id, d, now) && appointments.rows == old(appointments.rows)[id := r]
      ensures id !in old(appointments.rows) ==> appointments.order == old(appointments.order) + [id]
    {
      r := AppointmentRecord(id, d, now);
      appointments.Put(id, r);
    }

    /** `create_office_visit`. */
    method CreateVisit(id: string, d: OfficeVisitCreate, now: DateTime) returns (r: Record)
      requires Valid()
      modifies visits
      ensures Valid()
      ensures r == VisitRecord(id, d, now) && visits.rows == old(visits.rows)[id := r]
      ensures id !in old(visits.rows) ==> visits.order == old(visits.order) + [id]
    {
      r := VisitRecord(id, d, now);
      visits.Put(id, r);
    }

    /** `create_schedule`. */
    method CreateSchedule(id: string, d: ScheduleCreate, now: DateTime) returns (r: Record)
      requires Valid()
      modifies schedules
      ensures Valid()
      ensures r == ScheduleRecord(id, d, now) && schedules.rows == old(schedules.rows)[id := r]
      ensures id !in old(schedules.rows) ==> schedules.order == old(schedules.order) + [id]
    {
      r := ScheduleRecord(id, d, now);
      schedules.Put(id, r);
    }

    /** `get_dashboard_stats`: the three dictionary sizes and how many
        appointments are scheduled on day `today`. */
    method DashboardStats(today: int) returns (r: Result<Stats, HttpError>)
      requires Valid()
      ensures r.Ok? <==> AllDated(appointments.Values())
      ensures r.Err? ==> r.error == HttpError(500, "Internal Server Error")
      ensures r.Ok? ==> r.value.totalPatients == |patients.rows| && r.value.totalAppointments == |appointments.rows|
      ensures r.Ok? ==> r.value.totalDoctors == |doctors.rows|
      ensures r.Ok? ==> r.value.todayAppointments == CountOn(appointments.Values(), today)
      ensures r.Ok? ==> r.value.todayAppointments <= r.value.totalAppointments
    {
      var today_count := CountToday(appointments.Values(), today);
      if today_count.None? {
        return Err(HttpError(500, "Internal Server Error"));
      }
      r := Ok(Stats(|patients.rows|, |appointments.rows|, |doctors.rows|, today_count.value));
    }
  }
}
