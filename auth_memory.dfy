/** The in-memory authentication router: its own role table, in which a
    patient holds more than in the database-backed routers, and the
    `users_db` dictionary of accounts that login reads and `create_user`
    extends in place. bcrypt is a parameter. */
module AuthMemory {
  import opened Wrappers
  import opened Text
  import opened Models
  import AuthSimple

  /** `ROLE_PERMISSIONS` as this router declares it. */
  function RolePermissions(r: Role): seq<Permission>
  {
    match r
    case Admin => [
      CreateUser, ReadUser, UpdateUser, DeleteUser,
      CreatePatient, ReadPatient, UpdatePatient, DeletePatient,
      CreateAppointment, ReadAppointment, UpdateAppointment, DeleteAppointment,
      CreateMedicalRecord, ReadMedicalRecord, UpdateMedicalRecord,
      ManageSchedule, ViewSchedule]
    case Doctor => [
      ReadUser, ReadPatient, CreatePatient, UpdatePatient, CreateAppointment, ReadAppointment,
      UpdateAppointment, CreateMedicalRecord, ReadMedicalRecord, UpdateMedicalRecord,
      ViewSchedule, ManageSchedule]
    case Nurse => [
      ReadUser, ReadPatient, UpdatePatient, CreateAppointment, ReadAppointment,
      UpdateAppointment, ReadMedicalRecord, UpdateMedicalRecord, ViewSchedule]
    case Receptionist => [
      ReadUser, CreatePatient, ReadPatient, UpdatePatient, CreateAppointment,
      ReadAppointment, UpdateAppointment, ViewSchedule]
    case PatientRole => [ReadUser, ReadPatient, UpdatePatient, ReadAppointment, ViewSchedule]
  }

  /** `check_permission`: the stored role is always a key of the table, so
      the answer is whether the permission's value is in the role's list. */
  function CheckPermission(role: Role, permission: string): (b: bool)
    ensures b <==> exists p :: PermissionValue(p) == permission && p in RolePermissions(role)
  {
    match ParsePermission(permission)
    case None => false
    case Some(p) =>
      assert forall x :: PermissionValue(x) == permission ==> x == p by {
        forall x | PermissionValue(x) == permission ensures x == p { PermissionValueInjective(x, p); }
      }
      p in RolePermissions(role)
  }

  /** Here a patient may read users and patients, update patients, read
      appointments and view schedules. */
  lemma PatientGrants(s: string)
    ensures CheckPermission(PatientRole, s) <==>
      s in ["read_user", "read_patient", "update_patient", "read_appointment", "view_schedule"]
  {
    if s in ["read_user", "read_patient", "update_patient", "read_appointment", "view_schedule"] {
      assert PermissionValue(ReadUser) == "read_user";
      assert PermissionValue(ReadPatient) == "read_patient";
      assert PermissionValue(UpdatePatient) == "update_patient";
      assert PermissionValue(ReadAppointment) == "read_appointment";
      assert PermissionValue(ViewSchedule) == "view_schedule";
    }
  }

  /** The routers disagree only on patients: the same other roles grant the
      same permissions, while a patient here reads users and may no longer
      read medical records. */
  lemma DiffersFromDatabaseRouters(r: Role, s: string)
    ensures r != PatientRole ==> (CheckPermission(r, s) <==> AuthSimple.CheckPermission(Some(RoleValue(r)), s))
    ensures CheckPermission(PatientRole, "read_user") && !AuthSimple.CheckPermission(Some("patient"), "read_user")
    ensures !CheckPermission(PatientRole, "read_medical_record") && AuthSimple.CheckPermission(Some("patient"), "read_medical_record")
  {
    AuthSimple.PatientGrantedExactly("read_user");
    AuthSimple.PatientGrantedExactly("read_medical_record");
    PatientGrants("read_user");
    PatientGrants("read_medical_record");
    if r != PatientRole {
      forall p ensures p in RolePermissions(r) <==> p in AuthSimple.RolePermissions(r) { }
    }
  }

  /** One entry of `users_db`. */
  datatype Account = Account(
    id: string, username: string, email: string, fullName: string,
    role: Role, passwordHash: string, isActive: bool)

  /** The id `create_user` gives the account it adds when the store holds
      `n - 1` accounts. */
  function UserId(n: nat): (id: string)
    ensures |id| > 5 && id[..5] == "user_"
    ensures AllDigits(id[5..]) && ParseNat(id[5..]) == n
    ensures |id| > 6 ==> id[5] != '0'
  {
    var id := "user_" + NatToString(n);
    assert id[5..] == NatToString(n);
    ParseNatToString(n);
    id
  }

  lemma UserIdInjective(m: nat, n: nat)
    requires UserId(m) == UserId(n)
    ensures m == n
  {
    assert UserId(m)[5..] == NatToString(m);
    assert UserId(n)[5..] == NatToString(n);
    NatToStringInjective(m, n);
  }

  /** The first account, in insertion order, with the given username. */
  function FirstWith(ids: seq<string>, rows: map<string, Account>, username: string): (r: Option<Account>)
    ensures r.Some? ==> r.value.username == username
    ensures r.Some? ==> exists i :: 0 <= i < |ids| && ids[i] in rows && rows[ids[i]] == r.value &&
                                    (forall j :: 0 <= j < i && ids[j] in rows ==> rows[ids[j]].username != username)
    ensures r.None? ==> forall i :: 0 <= i < |ids| && ids[i] in rows ==> rows[ids[i]].username != username
    decreases |ids|
  {
    if ids == [] then None
    else if ids[0] in rows && rows[ids[0]].username == username then Some(rows[ids[0]])
    else
      var r := FirstWith(ids[1..], rows, username);
      assert forall i :: 1 <= i < |ids| ==> ids[i] == ids[1..][i - 1];
      r
  }

  /** The store's invariant: `order` lists each key once, every account sits
      under its own id, usernames are unique, and every generated id
      `user_<n>` in use has `n` at most the number of accounts. */
  ghost predicate Coherent(order: seq<string>, rows: map<string, Account>)
  {
    && (forall i :: 0 <= i < |order| ==> order[i] in rows)
    && (forall id :: id in rows ==> id in order)
    && (forall i, j :: 0 <= i < j < |order| ==> order[i] != order[j])
    && (forall id :: id in rows ==> rows[id].id == id)
    && (forall a, b :: a in rows && b in rows && a != b ==> rows[a].username != rows[b].username)
    && (forall n: nat :: UserId(n) in rows ==> 1 <= n <= |rows|)
  }

  /** The next generated id is free, and adding an account under it with a
      new username keeps the invariant. */
  lemma InsertKeepsCoherent(order: seq<string>, rows: map<string, Account>, a: Account)
    requires Coherent(order, rows)
    requires a.id == UserId(|rows| + 1)
    requires forall id :: id in rows ==> rows[id].username != a.username
    ensures a.id !in rows
    ensures Coherent(order + [a.id], rows[a.id := a])
  {
    var n := |rows| + 1;
    var rows' := rows[a.id := a];
    var order' := order + [a.id];
    assert |rows'| == n;
    forall m: nat | UserId(m) in rows' ensures 1 <= m <= |rows'| {
      if UserId(m) == a.id { UserIdInjective(m, n); } else { assert UserId(m) in rows; }
    }
    forall x | x in rows' ensures x in order' {
      if x != a.id { assert x in order; }
    }
    forall i, j | 0 <= i < j < |order'| ensures order'[i] != order'[j] {
      if j == |order| { assert order'[i] == order[i] && order[i] in rows; }
    }
  }

  /** The three accounts `users_db` is seeded with; `hash` stands for
      bcrypt. */
  function SeedRows(hash: string -> string): map<string, Account>
  {
    map[
      "admin1" := Account("admin1", "admin", "admin@lotushealth.com", "System Administrator", Admin, hash("admin123"), true),
      "doctor1" := Account("doctor1", "dr.smith", "dr.smith@lotushealth.com", "Dr. John Smith", Doctor, hash("doctor123"), true),
      "nurse1" := Account("nurse1", "nurse.jones", "nurse.jones@lotushealth.com", "Nurse Sarah Jones", Nurse, hash("nurse123"), true)]
  }

  /** The seeded store satisfies the invariant, and no generated id is in
      use yet. */
  lemma SeedCoherent(hash: string -> string)
    ensures Coherent(["admin1", "doctor1", "nurse1"], SeedRows(hash))
    ensures forall n: nat :: UserId(n) !in SeedRows(hash)
  {
    var rows := SeedRows(hash);
    SeedKeys(hash);
    SeedUsernames(hash);
    SeedIdsNotGenerated(rows);
  }

  lemma SeedKeys(hash: string -> string)
    ensures SeedRows(hash).Keys == {"admin1", "doctor1", "nurse1"}
    ensures forall id :: id in SeedRows(hash) ==> SeedRows(hash)[id].id == id
  {
  }

  lemma SeedUsernames(hash: string -> string)
    ensures forall a, b :: a in SeedRows(hash) && b in SeedRows(hash) && a != b ==>
      SeedRows(hash)[a].username != SeedRows(hash)[b].username
  {
    var rows := SeedRows(hash);
    assert rows["admin1"].username[0] == 'a' && rows["doctor1"].username[0] == 'd' && rows["nurse1"].username[0] == 'n';
  }

  lemma SeedIdsNotGenerated(rows: map<string, Account>)
    requires rows.Keys == {"admin1", "doctor1", "nurse1"}
    ensures forall n: nat :: UserId(n) !in rows
  {
    forall n: nat ensures UserId(n) !in rows {
      assert UserId(n)[0] == 'u';
    }
  }

  class UserStore {
    /** Keys of `users_db` in insertion order. */
    var order: seq<string>
    /** `users_db` itself. */
    var rows: map<string, Account>

    ghost predicate Valid()
      reads this
    {
      Coherent(order, rows)
    }

    /** The three seeded accounts. */
    constructor (hash: string -> string)
      ensures Valid()
      ensures order == ["admin1", "doctor1", "nurse1"] && rows == SeedRows(hash)
      ensures forall n: nat :: UserId(n) !in rows
    {
      order := ["admin1", "doctor1", "nurse1"];
      rows := SeedRows(hash);
      new;
      SeedCoherent(hash);
    }

    /** `get_user`: scans the accounts in insertion order for the name. */
    method GetUser(username: string) returns (u: Option<Account>)
      requires Valid()
      ensures u == FirstWith(order, rows, username)
      ensures forall id :: id in rows ==> (rows[id].username == username <==> u == Some(rows[id]))
    {
      var i := 0;
      while i < |order|
        invariant 0 <= i <= |order|
        invariant FirstWith(order[i..], rows, username) == FirstWith(order, rows, username)
      {
        if rows[order[i]].username == username {
          return Some(rows[order[i]]);
        }
        assert order[i..][1..] == order[i + 1..];
        i := i + 1;
      }
      u := None;
      ExactlyOneWith(username);
    }

    /** With usernames unique, the first account with a name is the only one. */
    lemma ExactlyOneWith(username: string)
      requires Valid()
      ensures forall id :: id in rows ==> (rows[id].username == username <==> FirstWith(order, rows, username) == Some(rows[id]))
    {
      var f := FirstWith(order, rows, username);
      forall id | id in rows
        ensures rows[id].username == username <==> f == Some(rows[id])
      {
        var k :| 0 <= k < |order| && order[k] == id;
        if f.Some? {
          var i :| 0 <= i < |order| && order[i] in rows && rows[order[i]] == f.value;
        }
      }
    }

    /** `authenticate_user`: the account `get_user` finds, when the password
        checks against its hash; `verify` stands for bcrypt's check. */
    method Authenticate(username: string, password: string, verify: (string, string) -> bool) returns (u: Option<Account>)
      requires Valid()
      ensures u.Some? <==> exists id :: id in rows && rows[id].username == username && verify(password, rows[id].passwordHash)
      ensures u.Some? ==> u.value in rows.Values && u.value.username == username
    {
      var found := GetUser(username);
      if found.None? {
        return None;
      }
      var a := found.value;
      var i :| 0 <= i < |order| && order[i] in rows && rows[order[i]] == a;
      if !verify(password, a.passwordHash) {
        return None;
      }
      u := Some(a);
    }

    /** `create_user`: the permission check, then the username check (both
        leave the store unchanged), then a new active account under the id
        `user_<number of accounts + 1>`, which no account holds yet. */
    method CreateUser(caller: Role, data: UserCreate, hash: string -> string) returns (r: Result<Account, HttpError>)
      requires Valid()
      modifies this
      ensures Valid()
      ensures !CheckPermission(caller, "create_user") ==>
        r == Err(HttpError(403, "Not enough permissions")) && rows == old(rows) && order == old(order)
      ensures CheckPermission(caller, "create_user") && (exists id :: id in old(rows) && old(rows)[id].username == data.username) ==>
        r == Err(HttpError(400, "Username already registered")) && rows == old(rows) && order == old(order)
      ensures r.Ok? <==> CheckPermission(caller, "create_user") && forall id :: id in old(rows) ==> old(rows)[id].username != data.username
      ensures r.Ok? ==>
        && UserId(|old(rows)| + 1) !in old(rows)
        && r.value == Account(UserId(|old(rows)| + 1), data.username, data.email, data.fullName, data.role, hash(data.password), true)
        && rows == old(rows)[r.value.id := r.value]
        && order == old(order) + [r.value.id]
    {
      var allowed := CheckPermission(caller, "create_user");
      if !allowed {
        return Err(HttpError(403, "Not enough permissions"));
      }
      var existing := GetUser(data.username);
      if existing.Some? {
        var i :| 0 <= i < |order| && order[i] in rows && rows[order[i]] == existing.value;
        return Err(HttpError(400, "Username already registered"));
      }
      var account := Account(UserId(|rows| + 1), data.username, data.email, data.fullName, data.role, hash(data.password), true);
      Insert(account);
      r := Ok(account);
    }

    /** Stores a new account under the next generated id, after every
        account already stored. */
    method Insert(account: Account)
      requires Valid()
      requires account.id == UserId(|rows| + 1)
      requires forall id :: id in rows ==> rows[id].username != account.username
      modifies this
      ensures Valid()
      ensures account.id !in old(rows)
      ensures rows == old(rows)[account.id := account] && order == old(order) + [account.id]
    {
      InsertKeepsCoherent(order, rows, account);
      rows := rows[account.id := account];
      order := order + [account.id];
    }
  }
}
