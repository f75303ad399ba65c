/** The ORM-backed authentication router: its own copy of the role table,
    the permission test and the guards `create_user` runs before it inserts.
    The session is a parameter: the rows it holds. */
module AuthPostgres {
  import opened Wrappers
  import opened Models
  import AuthSimple

  /** `ROLE_PERMISSIONS` as this router declares it. */
  function RolePermissions(r: Role): seq<Permission>
  {
    match r
    case Admin => [
      CreateUser, ReadUser, UpdateUser, DeleteUser,
      CreatePatient, ReadPatient, UpdatePatient, DeletePatient,
      CreateAppointment, ReadAppointment, UpdateAppointment, DeleteAppointment,
      CreateMedicalRecord, ReadMedicalRecord, UpdateMedicalRecord,
      ManageSchedule, ViewSchedule]
    case Doctor => [
      ReadUser, ReadPatient, CreatePatient, UpdatePatient, CreateAppointment, ReadAppointment,
      UpdateAppointment, CreateMedicalRecord, ReadMedicalRecord, UpdateMedicalRecord,
      ViewSchedule, ManageSchedule]
    case Nurse => [
      ReadUser, ReadPatient, UpdatePatient, CreateAppointment, ReadAppointment,
      UpdateAppointment, ReadMedicalRecord, UpdateMedicalRecord, ViewSchedule]
    case Receptionist => [
      ReadUser, ReadPatient, CreatePatient, UpdatePatient, CreateAppointment,
      ReadAppointment, UpdateAppointment, ViewSchedule]
    case PatientRole => [ReadAppointment, ReadMedicalRecord]
  }

  /** `check_permission`: a missing, empty or unknown role is refused;
      otherwise membership of the permission's value in the role's list. */
  function CheckPermission(role: Option<string>, permission: string): (b: bool)
    ensures b ==> exists r, p :: role == Some(RoleValue(r)) && PermissionValue(p) == permission && p in RolePermissions(r)
    ensures forall r, p :: role == Some(RoleValue(r)) && PermissionValue(p) == permission ==> (b <==> p in RolePermissions(r))
  {
    if role.None? || role.value == [] then false
    else
      match ParseRole(role.value)
      case None => false
      case Some(r) =>
        match ParsePermission(permission)
        case None => false
        case Some(p) =>
          assert forall q :: role == Some(RoleValue(q)) ==> q == r by {
            forall q | role == Some(RoleValue(q)) ensures q == r { AuthSimple.RoleValueInjective(q, r); }
          }
          assert forall x :: PermissionValue(x) == permission ==> x == p by {
            forall x | PermissionValue(x) == permission ensures x == p { PermissionValueInjective(x, p); }
          }
          p in RolePermissions(r)
  }

  /** The two routers grant the same permissions to every caller. */
  lemma SameGrantsAsSimpleRouter(role: Option<string>, permission: string)
    ensures CheckPermission(role, permission) == AuthSimple.CheckPermission(role, permission)
  {
    forall r ensures RolePermissions(r) == AuthSimple.RolePermissions(r) { }
    if CheckPermission(role, permission) {
      var r, p :| role == Some(RoleValue(r)) && PermissionValue(p) == permission && p in RolePermissions(r);
    }
  }

  predicate UsernameTaken(rows: seq<AuthSimple.StoredUser>, username: string)
  {
    exists k :: 0 <= k < |rows| && rows[k].username == username
  }

  predicate EmailTaken(rows: seq<AuthSimple.StoredUser>, email: string)
  {
    exists k :: 0 <= k < |rows| && rows[k].email == email
  }

  /** `create_user`: the permission check, then the username check, then
      the e-mail check; only a request passing all three yields the row to
      insert. `newId` stands for the generated UUID and `hash` for bcrypt. */
  function CreateUserRow(callerRole: Option<string>, data: UserCreate, rows: seq<AuthSimple.StoredUser>,
                         newId: string, hash: string -> string): (r: Result<AuthSimple.StoredUser, HttpError>)
    ensures !CheckPermission(callerRole, "create_user") ==> r == Err(HttpError(403, "Not enough permissions"))
    ensures CheckPermission(callerRole, "create_user") && UsernameTaken(rows, data.username) ==>
      r == Err(HttpError(400, "Username already registered"))
    ensures CheckPermission(callerRole, "create_user") && !UsernameTaken(rows, data.username) && EmailTaken(rows, data.email) ==>
      r == Err(HttpError(400, "Email already registered"))
    ensures r.Ok? ==>
      && r.value == AuthSimple.StoredUser(newId, data.username, data.email, data.fullName,
                                          RoleValue(data.role), hash(data.password), data.isActive)
      && forall k :: 0 <= k < |rows| ==> rows[k].username != r.value.username && rows[k].email != r.value.email
  {
    if !CheckPermission(callerRole, "create_user") then Err(HttpError(403, "Not enough permissions"))
    else if UsernameTaken(rows, data.username) then Err(HttpError(400, "Username already registered"))
    else if EmailTaken(rows, data.email) then Err(HttpError(400, "Email already registered"))
    else Ok(AuthSimple.StoredUser(newId, data.username, data.email, data.fullName,
                                  RoleValue(data.role), hash(data.password), data.isActive))
  }

  predicate UniqueAccounts(rows: seq<AuthSimple.StoredUser>)
  {
    forall i, j :: 0 <= i < j < |rows| ==> rows[i].username != rows[j].username && rows[i].email != rows[j].email
  }

  /** Inserting what `create_user` accepts keeps usernames and e-mails
      unique, and a caller without `create_user` never adds a row. */
  lemma CreateKeepsAccountsUnique(callerRole: Option<string>, data: UserCreate, rows: seq<AuthSimple.StoredUser>,
                                  newId: string, hash: string -> string)
    requires UniqueAccounts(rows)
    ensures CreateUserRow(callerRole, data, rows, newId, hash).Ok? ==>
      UniqueAccounts(rows + [CreateUserRow(callerRole, data, rows, newId, hash).value])
    ensures CreateUserRow(callerRole, data, rows, newId, hash).Ok? ==> CheckPermission(callerRole, "create_user")
  {
    var r := CreateUserRow(callerRole, data, rows, newId, hash);
    if r.Ok? {
      var rows' := rows + [r.value];
      forall i, j | 0 <= i < j < |rows'|
        ensures rows'[i].username != rows'[j].username && rows'[i].email != rows'[j].email
      {
        if j == |rows| {
          assert rows'[i] == rows[i];
        } else {
          assert rows'[i] == rows[i] && rows'[j] == rows[j];
        }
      }
    }
  }
}
