/** The database-backed authentication router: the role table, the
    permission test, password authentication against a stored hash and the
    column list an update builds. The database and bcrypt are parameters. */
module AuthSimple {
  import opened Wrappers
  import opened Text
  import opened Models

  /** `ACCESS_TOKEN_EXPIRE_MINUTES`. */
  const AccessTokenExpireMinutes: nat := 30

  /** The `expires_in` of a token response, in seconds. */
  function ExpiresIn(): (s: nat)
    ensures s == 1800 && s / 60 == AccessTokenExpireMinutes
  {
    AccessTokenExpireMinutes * 60
  }

  /** `ROLE_PERMISSIONS`: the permissions each role is granted, in the
      table's order (the table holds their values). */
  function RolePermissions(r: Role): seq<Permission>
  {
    match r
    case Admin => [
      CreateUser, ReadUser, UpdateUser, DeleteUser,
      CreatePatient, ReadPatient, UpdatePatient, DeletePatient,
      CreateAppointment, ReadAppointment, UpdateAppointment, DeleteAppointment,
      CreateMedicalRecord, ReadMedicalRecord, UpdateMedicalRecord,
      ManageSchedule, ViewSchedule]
    case Doctor => [
      ReadUser, ReadPatient, CreatePatient, UpdatePatient, CreateAppointment, ReadAppointment,
      UpdateAppointment, CreateMedicalRecord, ReadMedicalRecord, UpdateMedicalRecord,
      ViewSchedule, ManageSchedule]
    case Nurse => [
      ReadUser, ReadPatient, UpdatePatient, CreateAppointment, ReadAppointment,
      UpdateAppointment, ReadMedicalRecord, UpdateMedicalRecord, ViewSchedule]
    case Receptionist => [
      ReadUser, ReadPatient, CreatePatient, UpdatePatient, CreateAppointment,
      ReadAppointment, UpdateAppointment, ViewSchedule]
    case PatientRole => [ReadAppointment, ReadMedicalRecord]
  }

  lemma RoleValueInjective(r: Role, q: Role)
    requires RoleValue(r) == RoleValue(q)
    ensures r == q
  {
  }

  /** `check_permission` on the caller's `role` entry (absent is `None`):
      granted exactly when the role names a `UserRole` whose list holds the
      permission's value; a missing, empty or unknown role is refused, and so
      is a text that is no permission value. */
  function CheckPermission(role: Option<string>, permission: string): (b: bool)
    ensures b ==> exists r, p :: role == Some(RoleValue(r)) && PermissionValue(p) == permission && p in RolePermissions(r)
    ensures forall r, p :: role == Some(RoleValue(r)) && PermissionValue(p) == permission ==> (b <==> p in RolePermissions(r))
  {
    if role.None? || role.value == [] then false
    else
      match ParseRole(role.value)
      case None => false
      case Some(r) =>
        match ParsePermission(permission)
        case None => false
        case Some(p) =>
          assert forall q :: role == Some(RoleValue(q)) ==> q == r by {
            forall q | role == Some(RoleValue(q)) ensures q == r { RoleValueInjective(q, r); }
          }
          assert forall x :: PermissionValue(x) == permission ==> x == p by {
            forall x | PermissionValue(x) == permission ensures x == p { PermissionValueInjective(x, p); }
          }
          p in RolePermissions(r)
  }

  /** An administrator is granted every permission. */
  lemma AdminGrantedEverything(p: Permission)
    ensures CheckPermission(Some("admin"), PermissionValue(p))
  {
    assert RoleValue(Admin) == "admin";
    AdminListHoldsAll(p);
  }

  lemma AdminListHoldsAll(p: Permission)
    ensures p in RolePermissions(Admin)
  {
    var all := RolePermissions(Admin);
    assert all[PermissionIndex(p)] == p;
  }

  /** The position of a permission in declaration order. */
  function PermissionIndex(p: Permission): (i: nat)
    ensures i < 17
  {
    match p
    case CreateUser => 0 case ReadUser => 1 case UpdateUser => 2 case DeleteUser => 3
    case CreatePatient => 4 case ReadPatient => 5 case UpdatePatient => 6 case DeletePatient => 7
    case CreateAppointment => 8 case ReadAppointment => 9 case UpdateAppointment => 10 case DeleteAppointment => 11
    case CreateMedicalRecord => 12 case ReadMedicalRecord => 13 case UpdateMedicalRecord => 14
    case ManageSchedule => 15 case ViewSchedule => 16
  }

  /** A patient reads appointments and medical records, nothing more. */
  lemma PatientGrantedExactly(s: string)
    ensures CheckPermission(Some("patient"), s) <==> s == "read_appointment" || s == "read_medical_record"
  {
    assert RoleValue(PatientRole) == "patient";
    assert PermissionValue(ReadAppointment) == "read_appointment";
    assert PermissionValue(ReadMedicalRecord) == "read_medical_record";
  }

  /** The permissions whose value starts with `delete_`. */
  lemma DeletePermissions(p: Permission)
    ensures IsPrefix("delete_", PermissionValue(p)) <==> p in {DeleteUser, DeletePatient, DeleteAppointment}
  {
    var v := PermissionValue(p);
    if IsPrefix("delete_", v) {
      assert v[0] == v[..7][0] == 'd';
    }
  }

  /** No role but admin may create users or delete anything. */
  lemma NonAdminCannotDelete(r: Role, s: string)
    requires r != Admin
    requires CheckPermission(Some(RoleValue(r)), s)
    ensures !IsPrefix("delete_", s) && s != "create_user"
  {
    var q, p :| Some(RoleValue(r)) == Some(RoleValue(q)) && PermissionValue(p) == s && p in RolePermissions(q);
    RoleValueInjective(r, q);
    NonAdminLists(r);
    DeletePermissions(p);
  }

  lemma NonAdminLists(r: Role)
    requires r != Admin
    ensures forall p :: p in {CreateUser, DeleteUser, DeletePatient, DeleteAppointment} ==> p !in RolePermissions(r)
  {
  }

  /** A user row as the login query returns it. */
  datatype StoredUser = StoredUser(
    id: string, username: string, email: string, fullName: string,
    role: string, passwordHash: string, isActive: bool)

  /** `authenticate_user`: the row found for the name, when the password
      checks against its stored hash. `lookup` stands for the query and
      `verify` for bcrypt's check. */
  function Authenticate(lookup: string -> Option<StoredUser>, verify: (string, string) -> bool,
                        username: string, password: string): (r: Option<StoredUser>)
    ensures r.Some? <==> lookup(username).Some? && verify(password, lookup(username).value.passwordHash)
    ensures r.Some? ==> r == lookup(username)
  {
    match lookup(username)
    case None => None
    case Some(u) => if verify(password, u.passwordHash) then Some(u) else None
  }

  /** When the query only returns rows with the requested name, a
      successful login is for that name and a wrong password never logs in. */
  lemma AuthenticatedIsRequested(lookup: string -> Option<StoredUser>, verify: (string, string) -> bool,
                                 username: string, password: string)
    requires forall n :: lookup(n).Some? ==> lookup(n).value.username == n
    ensures Authenticate(lookup, verify, username, password).Some? ==>
      && Authenticate(lookup, verify, username, password).value.username == username
      && verify(password, Authenticate(lookup, verify, username, password).value.passwordHash)
  {
  }

  // ---------------------------------------------------------------------
  // update_user: the SET list built from the provided fields
  // ---------------------------------------------------------------------

  datatype FieldValue = Text(text: string) | Flag(flag: bool) | RoleField(role: Role)

  /** One provided field of the request body, in order. */
  datatype Update = Update(field: string, value: FieldValue)

  /** The clause and parameter one provided field contributes: a password is
      stored hashed under `password_hash`, a role as its value, anything else
      as given. */
  predicate Assigned(u: Update, clause: string, v: FieldValue, hash: string -> string)
  {
    if u.field == "password" then clause == "password_hash = %s" && u.value.Text? && v == Text(hash(u.value.text))
    else if u.field == "role" then clause == "role = %s" && v == (if u.value.RoleField? then Text(RoleValue(u.value.role)) else u.value)
    else clause == u.field + " = %s" && v == u.value
  }

  /** `update_user` up to the query: the permission check, then one SET
      clause and one parameter per provided field, then the row id as the
      last parameter. */
  method UpdateUserQuery(callerRole: Option<string>, userId: string, fields: seq<Update>, hash: string -> string)
    returns (r: Result<(seq<string>, seq<FieldValue>), HttpError>)
    requires forall k :: 0 <= k < |fields| && fields[k].field == "password" ==> fields[k].value.Text?
    ensures !CheckPermission(callerRole, "update_user") ==> r == Err(HttpError(403, "Not enough permissions"))
    ensures CheckPermission(callerRole, "update_user") && fields == [] ==> r == Err(HttpError(400, "No fields to update"))
    ensures CheckPermission(callerRole, "update_user") && fields != [] ==>
      && r.Ok? && |r.value.0| == |fields| && |r.value.1| == |fields| + 1
      && r.value.1[|fields|] == Text(userId)
      && forall k :: 0 <= k < |fields| ==> Assigned(fields[k], r.value.0[k], r.value.1[k], hash)
  {
    if !CheckPermission(callerRole, "update_user") {
      return Err(HttpError(403, "Not enough permissions"));
    }
    var clauses, values := SetClauses(fields, hash);
    if clauses == [] {
      return Err(HttpError(400, "No fields to update"));
    }
    values := values + [Text(userId)];
    r := Ok((clauses, values));
  }

  /** The loop of `update_user` over the provided fields: one SET clause and
      one parameter per field, in order. */
  method SetClauses(fields: seq<Update>, hash: string -> string) returns (clauses: seq<string>, values: seq<FieldValue>)
    requires forall k :: 0 <= k < |fields| && fields[k].field == "password" ==> fields[k].value.Text?
    ensures |clauses| == |fields| && |values| == |fields|
    ensures forall k :: 0 <= k < |fields| ==> Assigned(fields[k], clauses[k], values[k], hash)
  {
    clauses, values := [], [];
    var i := 0;
    while i < |fields|
      invariant 0 <= i <= |fields|
      invariant |clauses| == i && |values| == i
      invariant forall k :: 0 <= k < i ==> Assigned(fields[k], clauses[k], values[k], hash)
    {
      var u := fields[i];
      if u.field == "password" {
        clauses := clauses + ["password_hash = %s"];
        values := values + [Text(hash(u.value.text))];
      } else if u.field == "role" {
        clauses := clauses + ["role = %s"];
        values := values + [if u.value.RoleField? then Text(RoleValue(u.value.role)) else u.value];
      } else {
        clauses := clauses + [u.field + " = %s"];
        values := values + [u.value];
      }
      i := i + 1;
    }
  }

  /** A password never reaches the database in clear: its clause names
      `password_hash` and carries the hash. */
  lemma PasswordStoredHashed(u: Update, clause: string, v: FieldValue, hash: string -> string)
    requires Assigned(u, clause, v, hash) && u.field == "password"
    ensures clause != "password = %s" && v == Text(hash(u.value.text))
  {
  }
}
