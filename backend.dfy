/**
 * The two Firebase stores the handlers write to, seen only through the calls
 * the handlers make: Firebase Auth users (with the `role` custom claim and the
 * `disabled` flag) and the Firestore collection `users`. Firebase itself is not
 * visible, so every call takes an `Outcome` saying whether the remote call
 * succeeded; a failed call changes nothing and reports an error text.
 */
module Backend {
  import opened Wrappers

  type Uid = string

  /** The value a server timestamp field receives, supplied by the caller. */
  type Timestamp = nat

  /** A Firebase Auth user, as far as the handlers touch it. */
  datatype AuthUser = AuthUser(email: string, displayName: string, roleClaim: Option<string>, disabled: bool)

  /** A document of the Firestore collection `users`. */
  datatype StaffDoc = StaffDoc(
    id: Uid,
    email: string,
    name: string,
    role: string,
    phoneNumber: string,
    specialty: string,
    licenseNumber: string,
    createdAt: Timestamp,
    updatedAt: Timestamp,
    isActive: bool)

  /** Whether a remote call succeeded, and with what error text if not. */
  datatype Outcome = Done | Failed(error: string)

  /** Both stores as a value: Auth users and staff documents, each keyed by uid. */
  datatype Stores = Stores(users: map<Uid, AuthUser>, docs: map<Uid, StaffDoc>)

  const UidAlreadyExists := "auth/uid-already-exists"
  const UserNotFound := "auth/user-not-found"
  const DocumentNotFound := "NOT_FOUND"

  /**
   * `auth().createUser`: a new, enabled user without custom claims. The
   * provider issues the uid; refusing one it already holds stands for that
   * uid being fresh.
   */
  function CreateUserStep(s: Stores, uid: Uid, email: string, password: string, displayName: string, outcome: Outcome): (r: Result<Stores, string>) {
    if outcome.Failed? then Err(outcome.error)
    else if uid in s.users then Err(UidAlreadyExists)
    else Ok(s.(users := s.users[uid := AuthUser(email, displayName, None, false)]))
  }

  /** `auth().setCustomUserClaims(uid, {role})`: replaces the user's claims. */
  function SetCustomUserClaimsStep(s: Stores, uid: Uid, role: string, outcome: Outcome): (r: Result<Stores, string>) {
    if outcome.Failed? then Err(outcome.error)
    else if uid !in s.users then Err(UserNotFound)
    else Ok(s.(users := s.users[uid := s.users[uid].(roleClaim := Some(role))]))
  }

  /** `collection('users').doc(uid).set(doc)`: creates or overwrites the document. */
  function SetDocStep(s: Stores, uid: Uid, doc: StaffDoc, outcome: Outcome): (r: Result<Stores, string>) {
    if outcome.Failed? then Err(outcome.error)
    else Ok(s.(docs := s.docs[uid := doc]))
  }

  /** `collection('users').doc(uid).update({isActive, updatedAt})`: fails when the document is missing. */
  function UpdateDocStep(s: Stores, uid: Uid, isActive: bool, now: Timestamp, outcome: Outcome): (r: Result<Stores, string>) {
    if outcome.Failed? then Err(outcome.error)
    else if uid !in s.docs then Err(DocumentNotFound)
    else Ok(s.(docs := s.docs[uid := s.docs[uid].(isActive := isActive, updatedAt := now)]))
  }

  /** `auth().updateUser(uid, {disabled})`: fails when the user is unknown. */
  function UpdateUserStep(s: Stores, uid: Uid, disabled: bool, outcome: Outcome): (r: Result<Stores, string>) {
    if outcome.Failed? then Err(outcome.error)
    else if uid !in s.users then Err(UserNotFound)
    else Ok(s.(users := s.users[uid := s.users[uid].(disabled := disabled)]))
  }

  /** A call with result `step` took the stores from `before` to `after` and reported `err`. */
  predicate Performed(step: Result<Stores, string>, before: Stores, after: Stores, err: Option<string>) {
    match step
    case Ok(s) => err.None? && after == s
    case Err(e) => err == Some(e) && after == before
  }

  /** The Firebase Admin handle: both stores, updated in place by each call. */
  class Admin {
    var users: map<Uid, AuthUser>
    var docs: map<Uid, StaffDoc>

    function State(): (s: Stores)
      reads this
    {
      Stores(users, docs)
    }

    constructor (initial: Stores)
      ensures State() == initial
    {
      users := initial.users;
      docs := initial.docs;
    }

    method CreateUser(uid: Uid, email: string, password: string, displayName: string, outcome: Outcome) returns (err: Option<string>)
      modifies this
      ensures Performed(CreateUserStep(old(State()), uid, email, password, displayName, outcome), old(State()), State(), err)
    {
      if outcome.Failed? {
        return Some(outcome.error);
      }
      if uid in users {
        return Some(UidAlreadyExists);
      }
      users := users[uid := AuthUser(email, displayName, None, false)];
      err := None;
    }

    method SetCustomUserClaims(uid: Uid, role: string, outcome: Outcome) returns (err: Option<string>)
      modifies this
      ensures Performed(SetCustomUserClaimsStep(old(State()), uid, role, outcome), old(State()), State(), err)
    {
      if outcome.Failed? {
        return Some(outcome.error);
      }
      if uid !in users {
        return Some(UserNotFound);
      }
      users := users[uid := users[uid].(roleClaim := Some(role))];
      err := None;
    }

    method SetDoc(uid: Uid, doc: StaffDoc, outcome: Outcome) returns (err: Option<string>)
      modifies this
      ensures Performed(SetDocStep(old(State()), uid, doc, outcome), old(State()), State(), err)
    {
      if outcome.Failed? {
        return Some(outcome.error);
      }
      docs := docs[uid := doc];
      err := None;
    }

    method UpdateDoc(uid: Uid, isActive: bool, now: Timestamp, outcome: Outcome) returns (err: Option<string>)
      modifies this
      ensures Performed(UpdateDocStep(old(State()), uid, isActive, now, outcome), old(State()), State(), err)
    {
      if outcome.Failed? {
        return Some(outcome.error);
      }
      if uid !in docs {
        return Some(DocumentNotFound);
      }
      docs := docs[uid := docs[uid].(isActive := isActive, updatedAt := now)];
      err := None;
    }

    method UpdateUser(uid: Uid, disabled: bool, outcome: Outcome) returns (err: Option<string>)
      modifies this
      ensures Performed(UpdateUserStep(old(State()), uid, disabled, outcome), old(State()), State(), err)
    {
      if outcome.Failed? {
        return Some(outcome.error);
      }
      if uid !in users {
        return Some(UserNotFound);
      }
      users := users[uid := users[uid].(disabled := disabled)];
      err := None;
    }
  }
}
