/**
 * The pure part of the two staff endpoints: request bodies, their validation
 * with JavaScript truthiness, the accepted roles and the JSON responses.
 */
module StaffRequests {
  import opened Wrappers

  /** A staff role; on the wire and in the stores it is its lower-case name. */
  datatype Role = Doctor | Nurse | Receptionist | Admin

  function RoleName(r: Role): (name: string) {
    match r
    case Doctor => "doctor"
    case Nurse => "nurse"
    case Receptionist => "receptionist"
    case Admin => "admin"
  }

  /** The accepted role names, in the order the error message lists them. */
  const ValidRoles: seq<string> := ["doctor", "nurse", "receptionist", "admin"]

  /** Membership in the role list by strict equality, recovering the role. */
  function ParseRole(s: string): (r: Option<Role>)
    ensures r.Some? <==> s in ValidRoles
    ensures r.Some? ==> RoleName(r.value) == s
  {
    if s == "doctor" then Some(Doctor)
    else if s == "nurse" then Some(Nurse)
    else if s == "receptionist" then Some(Receptionist)
    else if s == "admin" then Some(Admin)
    else None
  }

  lemma RoleNameRoundTrip(r: Role)
    ensures RoleName(r) in ValidRoles
    ensures ParseRole(RoleName(r)) == Some(r)
  {
  }

  /** `Array.prototype.join`: the parts separated by `sep`. */
  function Join(parts: seq<string>, sep: string): (joined: string)
    decreases |parts|
  {
    if |parts| == 0 then ""
    else if |parts| == 1 then parts[0]
    else parts[0] + sep + Join(parts[1..], sep)
  }

  /** Joining at least two parts puts the separator after the first. */
  lemma JoinCons(x: string, rest: seq<string>, sep: string, joined: string)
    requires |rest| >= 1 && Join(rest, sep) == joined
    ensures Join([x] + rest, sep) == x + sep + joined
  {
    assert ([x] + rest)[1..] == rest;
  }

  /** The role list as the error message spells it. */
  lemma RoleListText()
    ensures Join(ValidRoles, ", ") == "doctor, nurse, receptionist, admin"
  {
    JoinCons("receptionist", ["admin"], ", ", "admin");
    JoinCons("nurse", ["receptionist", "admin"], ", ", "receptionist, admin");
    JoinCons("doctor", ["nurse", "receptionist", "admin"], ", ", "nurse, receptionist, admin");
  }

  /** The message of the invalid-role rejection, built from the role list. */
  function InvalidRoleMessage(): (m: string)
    ensures m == "Invalid role. Must be one of: doctor, nurse, receptionist, admin"
  {
    RoleListText();
    "Invalid role. Must be one of: " + Join(ValidRoles, ", ")
  }

  /** JavaScript truthiness of an optional string field: `undefined` and `''` are falsy. */
  predicate Truthy(v: Option<string>)
    ensures v.None? ==> !Truthy(v)
    ensures v == Some("") ==> !Truthy(v)
    ensures v.Some? && v.value != "" ==> Truthy(v)
  {
    v.Some? && v.value != ""
  }

  /** `v || ''` for an optional string: an empty string is falsy, so it yields `''` either way. */
  function OrEmpty(v: Option<string>): (r: string)
    ensures r == "" <==> !Truthy(v)
    ensures Truthy(v) ==> r == v.value
  {
    if v.Some? then v.value else ""
  }

  /** The JSON body of `POST /api/create-staff`; `None` is an absent field. */
  datatype CreateStaffBody = CreateStaffBody(
    email: Option<string>,
    password: Option<string>,
    name: Option<string>,
    role: Option<string>,
    phoneNumber: Option<string>,
    specialty: Option<string>,
    licenseNumber: Option<string>)

  /** A create-staff request that passed validation. */
  datatype NewStaff = NewStaff(
    email: string,
    password: string,
    name: string,
    role: Role,
    phoneNumber: Option<string>,
    specialty: Option<string>,
    licenseNumber: Option<string>)

  /** An HTTP status with its JSON body `{success, message, uid?, error?}`. */
  datatype Response = Response(status: nat, success: bool, message: string, uid: Option<string>, error: Option<string>)

  predicate RequiredPresent(body: CreateStaffBody) {
    Truthy(body.email) && Truthy(body.password) && Truthy(body.name) && Truthy(body.role)
  }

  /** The 400 answer to a body lacking a required field. */
  function MissingFields(): (r: Response)
    ensures r.status == 400 && !r.success && r.message == "Missing required fields"
    ensures r.uid.None? && r.error.None?
  {
    Response(400, false, "Missing required fields", None, None)
  }

  /** The 400 answer to a role outside the list; its message names the four roles. */
  function InvalidRole(): (r: Response)
    ensures r.status == 400 && !r.success
    ensures r.message == "Invalid role. Must be one of: doctor, nurse, receptionist, admin"
    ensures r.uid.None? && r.error.None?
  {
    Response(400, false, InvalidRoleMessage(), None, None)
  }

  /**
   * The two checks of the create handler, in order: every required field
   * truthy, then the role in the list. Either failure is a 400 response.
   */
  function ValidateCreate(body: CreateStaffBody): (r: Result<NewStaff, Response>)
    ensures r.Ok? <==> RequiredPresent(body) && body.role.value in ValidRoles
    ensures !RequiredPresent(body) ==> r == Err(MissingFields())
    ensures RequiredPresent(body) && body.role.value !in ValidRoles ==>
      r == Err(Response(400, false, "Invalid role. Must be one of: doctor, nurse, receptionist, admin", None, None))
    ensures r.Ok? ==>
      && r.value.email == body.email.value && r.value.email != ""
      && r.value.password == body.password.value && r.value.password != ""
      && r.value.name == body.name.value && r.value.name != ""
      && RoleName(r.value.role) == body.role.value
      && r.value.phoneNumber == body.phoneNumber
      && r.value.specialty == body.specialty
      && r.value.licenseNumber == body.licenseNumber
  {
    if !RequiredPresent(body) then Err(MissingFields())
    else match ParseRole(body.role.value)
      case None => Err(InvalidRole())
      case Some(role) =>
        Ok(NewStaff(body.email.value, body.password.value, body.name.value, role,
                    body.phoneNumber, body.specialty, body.licenseNumber))
  }

  /** The 400 answer to a status request without isActive. */
  function IsActiveRequired(): (r: Response)
    ensures r.status == 400 && !r.success && r.message == "isActive status is required"
    ensures r.uid.None? && r.error.None?
  {
    Response(400, false, "isActive status is required", None, None)
  }

  /** The status handler's only check: `isActive === undefined`; `false` passes. */
  function ValidateStatus(isActive: Option<bool>): (r: Result<bool, Response>)
    ensures r.Err? <==> isActive.None?
    ensures r.Err? ==> r.error == IsActiveRequired()
    ensures r.Err? ==> r.error.status == 400 && !r.error.success && r.error.message == "isActive status is required"
    ensures isActive == Some(false) ==> r == Ok(false)
    ensures isActive == Some(true) ==> r == Ok(true)
  {
    match isActive
    case None => Err(IsActiveRequired())
    case Some(a) => Ok(a)
  }

  /** The success message of the status handler. */
  function StatusMessage(isActive: bool): (m: string)
    ensures isActive <==> m == "Staff member activated successfully"
    ensures !isActive <==> m == "Staff member deactivated successfully"
  {
    "Staff member " + (if isActive then "activated" else "deactivated") + " successfully"
  }

  /** The 500 response of the create handler, carrying the failing call's error. */
  function CreateFailed(error: string): (r: Response)
    ensures r.status == 500 && !r.success && r.message == "Failed to create staff member"
    ensures r.error == Some(error) && r.uid.None?
  {
    Response(500, false, "Failed to create staff member", None, Some(error))
  }

  /** The 200 answer to a completed creation, carrying the new uid. */
  function Created(uid: string): (r: Response)
    ensures r.status == 200 && r.success && r.message == "Staff member created successfully"
    ensures r.uid == Some(uid) && r.error.None?
  {
    Response(200, true, "Staff member created successfully", Some(uid), None)
  }

  /** The 500 response of the status handler, carrying the failing call's error. */
  function StatusFailed(error: string): (r: Response)
    ensures r.status == 500 && !r.success && r.message == "Failed to update staff status"
    ensures r.error == Some(error) && r.uid.None?
  {
    Response(500, false, "Failed to update staff status", None, Some(error))
  }

  /** The 200 answer to a completed status update. */
  function StatusUpdated(isActive: bool): (r: Response)
    ensures r.status == 200 && r.success && r.uid.None? && r.error.None?
    ensures isActive ==> r.message == "Staff member activated successfully"
    ensures !isActive ==> r.message == "Staff member deactivated successfully"
  {
    Response(200, true, StatusMessage(isActive), None, None)
  }
}
