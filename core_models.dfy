/** The core application's records: users and their roles, the user manager that
    creates them, spare parts and the inventory ledger's transactions. */
module CoreModels {
  import opened Common

  // ---------------------------------------------------------------- roles

  /** The four role choices of a user; a closed set, so a role is always one of them. */
  datatype Role = Admin | Manager | Technician | Requester

  /** The role a user gets when none is given. */
  const DefaultRole: Role := Requester

  /** The code stored in the database for each role choice. */
  function RoleCode(r: Role): string
  {
    match r
    case Admin => "admin"
    case Manager => "manager"
    case Technician => "technician"
    case Requester => "requester"
  }

  /** Reads a stored role code back; exactly the four choice codes are accepted. */
  function ParseRole(code: string): (r: Option<Role>)
    ensures r.Some? <==> code in {"admin", "manager", "technician", "requester"}
    ensures r.Some? ==> RoleCode(r.value) == code
  {
    if code == "admin" then Some(Admin)
    else if code == "manager" then Some(Manager)
    else if code == "technician" then Some(Technician)
    else if code == "requester" then Some(Requester)
    else None
  }

  lemma ParseRoleCode(r: Role)
    ensures ParseRole(RoleCode(r)) == Some(r)
  {
  }

  /** The privileged roles that every approval, resolution and closing demands. */
  predicate IsManagerOrAdmin(r: Role)
  {
    r == Manager || r == Admin
  }

  // ---------------------------------------------------------------- users

  /** A user account; `usablePassword` records whether a password was set
      (the hash itself is not modelled). */
  datatype User = User(
    id: UserId,
    email: string,
    fullName: string,
    role: Role,
    isActive: bool,
    isStaff: bool,
    isSuperuser: bool,
    usablePassword: bool)

  /** A value passed as a keyword argument to the user manager. */
  datatype Value = Flag(flag: bool) | Text(text: string)

  /** The `**extra_fields` keyword arguments, by name. */
  type ExtraFields = map<string, Value>

  /** The timestamp columns of a user (its last login and its own creation and update
      times). The model constructor accepts them, but clock values are not recorded here. */
  predicate IsTimestampField(key: string)
  {
    key == "last_login" || key == "created_at" || key == "updated_at"
  }

  /** Whether the User model accepts `v` for the field named `key`. */
  predicate Fits(key: string, v: Value)
  {
    if key == "full_name" then v.Text?
    else if key == "role" then v.Text? && ParseRole(v.text).Some?
    else if key == "is_active" || key == "is_staff" || key == "is_superuser" then v.Flag?
    else IsTimestampField(key)
  }

  predicate Accepted(extra: ExtraFields)
  {
    forall k :: k in extra ==> Fits(k, extra[k])
  }

  function FlagOr(extra: ExtraFields, key: string, default: bool): bool
  {
    if key in extra && extra[key].Flag? then extra[key].flag else default
  }

  /** `create_user`: an empty email is refused before anything else; the remaining
      fields come from the keyword arguments, falling back to the model's defaults
      (role requester, active, not staff, not superuser, empty full name). */
  function CreateUser(id: UserId, email: string, password: Option<string>, extra: ExtraFields): (r: Result<User>)
    ensures email == "" ==> r == Failure(ValueError(EmailRequired))
    ensures email != "" && !Accepted(extra) ==> r == Failure(TypeError)
    ensures r.Success? <==> email != "" && Accepted(extra)
    ensures r.Success? ==> r.value.id == id && r.value.email == email
    ensures r.Success? ==> r.value.usablePassword == password.Some?
    ensures r.Success? ==> ("role" !in extra ==> r.value.role == DefaultRole)
    ensures r.Success? ==> ("role" in extra ==> RoleCode(r.value.role) == extra["role"].text)
    ensures r.Success? ==> r.value.isActive == ("is_active" !in extra || extra["is_active"] == Flag(true))
    ensures r.Success? ==> r.value.isStaff == ("is_staff" in extra && extra["is_staff"] == Flag(true))
    ensures r.Success? ==> r.value.isSuperuser == ("is_superuser" in extra && extra["is_superuser"] == Flag(true))
    ensures r.Success? ==> r.value.fullName == (if "full_name" in extra then extra["full_name"].text else "")
  {
    if email == "" then Failure(ValueError(EmailRequired))
    else if !Accepted(extra) then Failure(TypeError)
    else
      var role := if "role" in extra then ParseRole(extra["role"].text).value else DefaultRole;
      var fullName := if "full_name" in extra then extra["full_name"].text else "";
      Success(User(id, email, fullName, role,
                   FlagOr(extra, "is_active", true),
                   FlagOr(extra, "is_staff", false),
                   FlagOr(extra, "is_superuser", false),
                   password.Some?))
  }

  /** Python's `dict.setdefault`: a value already present wins, otherwise `v` is added. */
  function SetDefault(m: ExtraFields, key: string, v: Value): (r: ExtraFields)
    ensures key in r && r[key] == (if key in m then m[key] else v)
    ensures r.Keys == m.Keys + {key}
    ensures forall k :: k in m && k != key ==> r[k] == m[k]
  {
    if key in m then m else m[key := v]
  }

  /** Whether a superuser flag was left out or given as exactly `True`. */
  predicate TrueOrAbsent(extra: ExtraFields, key: string)
  {
    key !in extra || extra[key] == Flag(true)
  }

  /** `create_superuser`: fills in staff, superuser and the admin role where they are
      absent, refuses an explicit staff or superuser flag that is not `True` (staff
      first), and then creates the user as `create_user` does. */
  method CreateSuperuser(id: UserId, email: string, password: Option<string>, extra: ExtraFields)
    returns (r: Result<User>)
    ensures !TrueOrAbsent(extra, "is_staff") ==> r == Failure(ValueError(SuperuserNeedsStaff))
    ensures (TrueOrAbsent(extra, "is_staff") && !TrueOrAbsent(extra, "is_superuser"))
      ==> r == Failure(ValueError(SuperuserNeedsSuperuser))
    ensures (TrueOrAbsent(extra, "is_staff") && TrueOrAbsent(extra, "is_superuser") && email == "")
      ==> r == Failure(ValueError(EmailRequired))
    ensures (TrueOrAbsent(extra, "is_staff") && TrueOrAbsent(extra, "is_superuser"))
      ==> (r.Success? <==> email != "" && Accepted(extra))
    ensures r.Success? ==> r.value.id == id && r.value.email == email
    ensures r.Success? ==> r.value.isStaff && r.value.isSuperuser
    ensures r.Success? ==> ("role" !in extra ==> r.value.role == Admin)
    ensures r.Success? ==> ("role" in extra ==> RoleCode(r.value.role) == extra["role"].text)
    ensures r.Success? ==> r.value.isActive == ("is_active" !in extra || extra["is_active"] == Flag(true))
    ensures r.Success? ==> r.value.usablePassword == password.Some?
    ensures r.Success? ==> r.value.fullName == (if "full_name" in extra then extra["full_name"].text else "")
    ensures (TrueOrAbsent(extra, "is_staff") && TrueOrAbsent(extra, "is_superuser") && email != "" && !Accepted(extra))
      ==> r == Failure(TypeError)
    ensures (TrueOrAbsent(extra, "is_staff") && TrueOrAbsent(extra, "is_superuser"))
      ==> r == CreateUser(id, email, password, SetDefault(SetDefault(SetDefault(extra, "is_staff", Flag(true)),
                                                                      "is_superuser", Flag(true)), "role", Text("admin")))
  {
    var fields := extra;
    fields := SetDefault(fields, "is_staff", Flag(true));
    fields := SetDefault(fields, "is_superuser", Flag(true));
    fields := SetDefault(fields, "role", Text("admin"));
    assert forall k :: k in extra ==> k in fields && fields[k] == extra[k];
    assert Accepted(fields) <==> Accepted(extra) by {
      if Accepted(extra) {
        forall k | k in fields ensures Fits(k, fields[k]) {
          if k !in extra {
            assert k == "is_staff" || k == "is_superuser" || k == "role";
          }
        }
      }
    }
    if fields["is_staff"] != Flag(true) {
      return Failure(ValueError(SuperuserNeedsStaff));
    }
    if fields["is_superuser"] != Flag(true) {
      return Failure(ValueError(SuperuserNeedsSuperuser));
    }
    r := CreateUser(id, email, password, fields);
  }

  // ---------------------------------------------------------------- inventory

  /** A spare part; the stock column is a non-negative integer (default 0). */
  datatype Part = Part(name: string, partNumber: Option<string>, quantityOnHand: nat)

  const DefaultQuantityOnHand: nat := 0

  /** A part entered into the catalogue without a stock count has none in stock. */
  function NewPart(name: string, partNumber: Option<string>): (r: Part)
    ensures r.name == name && r.partNumber == partNumber && r.quantityOnHand == 0
  {
    Part(name, partNumber, DefaultQuantityOnHand)
  }

  /** One ledger record. The model class declares no work-order column, but the
      completion service passes one, so the link is kept here as optional. */
  datatype InventoryTransaction = InventoryTransaction(
    part: PartId,
    quantityChanged: int,
    transactionType: string,
    user: Option<UserId>,
    workOrder: Option<WorkOrderId>)

  const Deduction: string := "deduction"
}
