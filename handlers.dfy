/**
 * The two request handlers: validation first, then an ordered sequence of
 * Firebase calls in which the first failing call ends the request with a 500
 * response and nothing already written is undone.
 *
 * `CreateStaff` and `UpdateStaffStatus` state each handler on a value of both
 * stores; `HandleCreateStaff` and `HandleStaffStatus` run the same steps
 * against the `Admin` handle and are proved to agree with them.
 */
module Handlers {
  import opened Wrappers
  import opened StaffRequests
  import opened Backend

  /** The stores after a request, and the response the client receives. */
  datatype Handled = Handled(after: Stores, response: Response)

  /** A create-staff body that passes both checks. */
  predicate Admitted(body: CreateStaffBody) {
    RequiredPresent(body) && body.role.value in ValidRoles
  }

  /** The Firestore document written for a new staff member. */
  function StaffDocument(uid: Uid, staff: NewStaff, now: Timestamp): (d: StaffDoc)
    ensures d.id == uid && d.isActive
    ensures d.email == staff.email && d.name == staff.name && d.role == RoleName(staff.role)
    ensures d.createdAt == now && d.updatedAt == now
    ensures d.phoneNumber == OrEmpty(staff.phoneNumber)
    ensures d.specialty == OrEmpty(staff.specialty)
    ensures d.licenseNumber == OrEmpty(staff.licenseNumber)
  {
    StaffDoc(uid, staff.email, staff.name, RoleName(staff.role),
             OrEmpty(staff.phoneNumber), OrEmpty(staff.specialty), OrEmpty(staff.licenseNumber),
             now, now, true)
  }

  /**
   * `POST /api/create-staff`. `uid` is the id the provider issues for the new
   * user; `created`, `claimed` and `written` are the outcomes of the three calls.
   */
  function CreateStaff(s: Stores, body: CreateStaffBody, uid: Uid,
                       created: Outcome, claimed: Outcome, written: Outcome, now: Timestamp): (r: Handled)
    // Validation rejects with 400 before any backend call.
    ensures r.response.status == 400 <==> !Admitted(body)
    ensures !Admitted(body) ==> r.after == s && !r.response.success
    ensures !RequiredPresent(body) ==> r.response.message == "Missing required fields"
    ensures RequiredPresent(body) && !Admitted(body) ==>
      r.response.message == "Invalid role. Must be one of: doctor, nurse, receptionist, admin"
    // Every other request ends in 200 when all three calls succeed, and in 500 otherwise.
    ensures r.response.status in {200, 400, 500}
    ensures r.response.status == 200 <==>
      Admitted(body) && created.Done? && uid !in s.users && claimed.Done? && written.Done?
    ensures r.response.status == 500 ==>
      !r.response.success && r.response.message == "Failed to create staff member" && r.response.error.Some?
    // The 500 carries the error of the call that failed.
    ensures Admitted(body) && created.Failed? ==> r.response == CreateFailed(created.error)
    ensures Admitted(body) && created.Done? && uid !in s.users && claimed.Failed? ==>
      r.response == CreateFailed(claimed.error)
    ensures Admitted(body) && created.Done? && uid !in s.users && claimed.Done? && written.Failed? ==>
      r.response == CreateFailed(written.error)
    // Only the new uid is written, and an account the provider already holds is never touched.
    ensures r.after.users - {uid} == s.users - {uid} && r.after.docs - {uid} == s.docs - {uid}
    ensures uid in s.users ==> r.after == s
    // A failed createUser leaves both stores as they were.
    ensures created.Failed? ==> r.after == s
    // A failed setCustomUserClaims leaves a user without a role claim and no document.
    ensures Admitted(body) && created.Done? && uid !in s.users && claimed.Failed? ==>
      && r.after.docs == s.docs
      && r.after.users == s.users[uid := AuthUser(body.email.value, body.name.value, None, false)]
    // A failed document write leaves a user with its role claim and no document.
    ensures Admitted(body) && created.Done? && uid !in s.users && claimed.Done? && written.Failed? ==>
      && r.after.docs == s.docs
      && r.after.users == s.users[uid := AuthUser(body.email.value, body.name.value, body.role, false)]
    // On success both stores hold the new staff member, active and enabled.
    ensures r.response.status == 200 ==>
      && r.response == Created(uid)
      && r.response.success
      && r.response.message == "Staff member created successfully"
      && r.response.uid == Some(uid)
      && r.after.users == s.users[uid := AuthUser(body.email.value, body.name.value, body.role, false)]
      && r.after.docs == s.docs[uid := StaffDoc(uid, body.email.value, body.name.value, body.role.value,
                                                OrEmpty(body.phoneNumber), OrEmpty(body.specialty),
                                                OrEmpty(body.licenseNumber), now, now, true)]
  {
    match ValidateCreate(body)
    case Err(rejection) => Handled(s, rejection)
    case Ok(staff) =>
      match CreateUserStep(s, uid, staff.email, staff.password, staff.name, created)
      case Err(e) => Handled(s, CreateFailed(e))
      case Ok(s1) =>
        match SetCustomUserClaimsStep(s1, uid, RoleName(staff.role), claimed)
        case Err(e) => Handled(s1, CreateFailed(e))
        case Ok(s2) =>
          match SetDocStep(s2, uid, StaffDocument(uid, staff, now), written)
          case Err(e) => Handled(s2, CreateFailed(e))
          case Ok(s3) => Handled(s3, Created(uid))
  }

  /**
   * `PATCH /api/staff/:userId/status`. `updated` and `mirrored` are the
   * outcomes of the Firestore update and of the Auth `updateUser` call.
   */
  function UpdateStaffStatus(s: Stores, userId: Uid, isActive: Option<bool>,
                             updated: Outcome, mirrored: Outcome, now: Timestamp): (r: Handled)
    // Only an absent isActive is rejected; false is a value like true.
    ensures r.response.status == 400 <==> isActive.None?
    ensures isActive.None? ==> r.after == s && r.response == IsActiveRequired()
    ensures isActive.None? ==> !r.response.success && r.response.message == "isActive status is required"
    ensures r.response.status in {200, 400, 500}
    ensures r.response.status == 200 <==>
      isActive.Some? && updated.Done? && userId in s.docs && mirrored.Done? && userId in s.users
    ensures r.response.status == 200 ==> r.response == StatusUpdated(isActive.value) && r.response.success
    ensures r.response.status == 200 && isActive.value ==>
      r.response.message == "Staff member activated successfully"
    ensures r.response.status == 200 && !isActive.value ==>
      r.response.message == "Staff member deactivated successfully"
    ensures r.response.status == 500 ==>
      !r.response.success && r.response.message == "Failed to update staff status" && r.response.error.Some?
    // The 500 carries the error of the call that failed.
    ensures isActive.Some? && updated.Failed? ==> r.response == StatusFailed(updated.error)
    ensures isActive.Some? && updated.Done? && userId in s.docs && mirrored.Failed? ==>
      r.response == StatusFailed(mirrored.error)
    // Nothing is created or deleted, and only userId's entries change.
    ensures r.after.users.Keys == s.users.Keys && r.after.docs.Keys == s.docs.Keys
    ensures r.after.users - {userId} == s.users - {userId} && r.after.docs - {userId} == s.docs - {userId}
    // A failed document update leaves both stores, the user's disabled flag included, as they were.
    ensures isActive.Some? && (updated.Failed? || userId !in s.docs) ==> r.after == s
    // Once the document update succeeds it stays, whatever the later call does.
    ensures isActive.Some? && updated.Done? && userId in s.docs ==>
      r.after.docs == s.docs[userId := s.docs[userId].(isActive := isActive.value, updatedAt := now)]
    ensures isActive.Some? && updated.Done? && userId in s.docs && r.response.status == 500 ==>
      r.after.users == s.users
    // On success the user's disabled flag is the negation of the stored isActive.
    ensures r.response.status == 200 ==>
      && r.after.users == s.users[userId := s.users[userId].(disabled := !isActive.value)]
      && r.after.docs[userId].isActive == isActive.value
      && r.after.users[userId].disabled == !isActive.value
  {
    match ValidateStatus(isActive)
    case Err(rejection) => Handled(s, rejection)
    case Ok(active) =>
      match UpdateDocStep(s, userId, active, now, updated)
      case Err(e) => Handled(s, StatusFailed(e))
      case Ok(s1) =>
        match UpdateUserStep(s1, userId, !active, mirrored)
        case Err(e) => Handled(s1, StatusFailed(e))
        case Ok(s2) => Handled(s2, StatusUpdated(active))
  }

  /** The create-staff handler run against the Admin handle. */
  method HandleCreateStaff(admin: Admin, body: CreateStaffBody, uid: Uid,
                           created: Outcome, claimed: Outcome, written: Outcome, now: Timestamp)
    returns (response: Response)
    modifies admin
    ensures Handled(admin.State(), response) == CreateStaff(old(admin.State()), body, uid, created, claimed, written, now)
  {
    var checked := ValidateCreate(body);
    if checked.Err? {
      return checked.error;
    }
    var staff := checked.value;
    var err := admin.CreateUser(uid, staff.email, staff.password, staff.name, created);
    if err.Some? {
      return CreateFailed(err.value);
    }
    err := admin.SetCustomUserClaims(uid, RoleName(staff.role), claimed);
    if err.Some? {
      return CreateFailed(err.value);
    }
    err := admin.SetDoc(uid, StaffDocument(uid, staff, now), written);
    if err.Some? {
      return CreateFailed(err.value);
    }
    response := Created(uid);
  }

  /** The status handler run against the Admin handle. */
  method HandleStaffStatus(admin: Admin, userId: Uid, isActive: Option<bool>,
                           updated: Outcome, mirrored: Outcome, now: Timestamp)
    returns (response: Response)
    modifies admin
    ensures Handled(admin.State(), response) == UpdateStaffStatus(old(admin.State()), userId, isActive, updated, mirrored, now)
  {
    var checked := ValidateStatus(isActive);
    if checked.Err? {
      return checked.error;
    }
    var active := checked.value;
    var err := admin.UpdateDoc(userId, active, now, updated);
    if err.Some? {
      return StatusFailed(err.value);
    }
    err := admin.UpdateUser(userId, !active, mirrored);
    if err.Some? {
      return StatusFailed(err.value);
    }
    response := StatusUpdated(active);
  }
}
