/**
 * How the two stores relate across requests. Neither handler is
 * transactional, so the only relation every request keeps is `Coherent`:
 * each staff document belongs to a user that carries the document's role
 * claim. The stronger `Consistent` (one user per document and back, and
 * `isActive == !disabled`) survives requests whose backend calls all succeed,
 * and is broken by a failure in the middle of either handler.
 */
module Consistency {
  import opened Wrappers
  import opened StaffRequests
  import opened Backend
  import opened Handlers

  /** Every document has a user with the same id, email, name and role claim. */
  predicate Coherent(s: Stores) {
    forall u :: u in s.docs ==>
      && u in s.users
      && s.docs[u].id == u
      && s.users[u].email == s.docs[u].email
      && s.users[u].displayName == s.docs[u].name
      && s.users[u].roleClaim == Some(s.docs[u].role)
  }

  /** The intended relation: users and documents pair up and agree on activity. */
  predicate Consistent(s: Stores) {
    && Coherent(s)
    && s.users.Keys == s.docs.Keys
    && forall u :: u in s.docs ==> s.docs[u].isActive == !s.users[u].disabled
  }

  const Empty := Stores(map[], map[])

  /** One request with the outcomes of its backend calls. */
  datatype Request =
    | CreateCall(body: CreateStaffBody, uid: Uid, created: Outcome, claimed: Outcome, written: Outcome, now: Timestamp)
    | StatusCall(userId: Uid, isActive: Option<bool>, updated: Outcome, mirrored: Outcome, now: Timestamp)

  function Serve(s: Stores, q: Request): (r: Handled) {
    match q
    case CreateCall(body, uid, created, claimed, written, now) => CreateStaff(s, body, uid, created, claimed, written, now)
    case StatusCall(userId, isActive, updated, mirrored, now) => UpdateStaffStatus(s, userId, isActive, updated, mirrored, now)
  }

  /** The stores after serving the requests one after another. */
  function Run(s: Stores, qs: seq<Request>): (after: Stores)
    decreases |qs|
  {
    if qs == [] then s else Run(Serve(s, qs[0]).after, qs[1..])
  }

  /** Every backend call of the request succeeds. */
  predicate Unfailing(q: Request) {
    match q
    case CreateCall(_, _, created, claimed, written, _) => created.Done? && claimed.Done? && written.Done?
    case StatusCall(_, _, updated, mirrored, _) => updated.Done? && mirrored.Done?
  }

  lemma CreateStaffKeepsCoherent(s: Stores, body: CreateStaffBody, uid: Uid,
                                 created: Outcome, claimed: Outcome, written: Outcome, now: Timestamp)
    requires Coherent(s)
    ensures Coherent(CreateStaff(s, body, uid, created, claimed, written, now).after)
  {
  }

  lemma UpdateStaffStatusKeepsCoherent(s: Stores, userId: Uid, isActive: Option<bool>,
                                       updated: Outcome, mirrored: Outcome, now: Timestamp)
    requires Coherent(s)
    ensures Coherent(UpdateStaffStatus(s, userId, isActive, updated, mirrored, now).after)
  {
  }

  /** Whatever the backends do, no request leaves a document without its user and role claim. */
  lemma {:induction false} RunKeepsCoherent(s: Stores, qs: seq<Request>)
    requires Coherent(s)
    ensures Coherent(Run(s, qs))
    decreases |qs|
  {
    if qs != [] {
      match qs[0] {
        case CreateCall(body, uid, created, claimed, written, now) =>
          CreateStaffKeepsCoherent(s, body, uid, created, claimed, written, now);
        case StatusCall(userId, isActive, updated, mirrored, now) =>
          UpdateStaffStatusKeepsCoherent(s, userId, isActive, updated, mirrored, now);
      }
      RunKeepsCoherent(Serve(s, qs[0]).after, qs[1..]);
    }
  }

  /** Every reachable pair of stores is coherent, partial failures included. */
  lemma ReachableIsCoherent(qs: seq<Request>)
    ensures Coherent(Run(Empty, qs))
  {
    RunKeepsCoherent(Empty, qs);
  }

  /**
   * A create request from consistent stores keeps them consistent when it
   * does not end in 500, or when all three of its calls succeed.
   */
  lemma CreateStaffKeepsConsistent(s: Stores, body: CreateStaffBody, uid: Uid,
                                   created: Outcome, claimed: Outcome, written: Outcome, now: Timestamp)
    requires Consistent(s)
    requires CreateStaff(s, body, uid, created, claimed, written, now).response.status != 500
          || (created.Done? && claimed.Done? && written.Done?)
    ensures Consistent(CreateStaff(s, body, uid, created, claimed, written, now).after)
  {
  }

  /**
   * A status request from consistent stores keeps them consistent when it
   * does not end in 500, or when both of its calls succeed.
   */
  lemma UpdateStaffStatusKeepsConsistent(s: Stores, userId: Uid, isActive: Option<bool>,
                                         updated: Outcome, mirrored: Outcome, now: Timestamp)
    requires Consistent(s)
    requires UpdateStaffStatus(s, userId, isActive, updated, mirrored, now).response.status != 500
          || (updated.Done? && mirrored.Done?)
    ensures Consistent(UpdateStaffStatus(s, userId, isActive, updated, mirrored, now).after)
  {
  }

  /** A request that does not end in 500 keeps the stores consistent. */
  lemma AnsweredRequestKeepsConsistent(s: Stores, q: Request)
    requires Consistent(s)
    requires Serve(s, q).response.status != 500
    ensures Consistent(Serve(s, q).after)
  {
    match q {
      case CreateCall(body, uid, created, claimed, written, now) =>
        CreateStaffKeepsConsistent(s, body, uid, created, claimed, written, now);
      case StatusCall(userId, isActive, updated, mirrored, now) =>
        UpdateStaffStatusKeepsConsistent(s, userId, isActive, updated, mirrored, now);
    }
  }

  /** A request whose backend calls all succeed keeps the stores consistent, even when it ends in 500. */
  lemma UnfailingRequestKeepsConsistent(s: Stores, q: Request)
    requires Consistent(s)
    requires Unfailing(q)
    ensures Consistent(Serve(s, q).after)
  {
    match q {
      case CreateCall(body, uid, created, claimed, written, now) =>
        CreateStaffKeepsConsistent(s, body, uid, created, claimed, written, now);
      case StatusCall(userId, isActive, updated, mirrored, now) =>
        UpdateStaffStatusKeepsConsistent(s, userId, isActive, updated, mirrored, now);
    }
  }

  /** As long as no backend call fails, the two stores keep agreeing. */
  lemma {:induction false} UnfailingRunKeepsConsistent(s: Stores, qs: seq<Request>)
    requires Consistent(s)
    requires forall i :: 0 <= i < |qs| ==> Unfailing(qs[i])
    ensures Consistent(Run(s, qs))
    decreases |qs|
  {
    if qs != [] {
      UnfailingRequestKeepsConsistent(s, qs[0]);
      UnfailingRunKeepsConsistent(Serve(s, qs[0]).after, qs[1..]);
    }
  }

  /**
   * A failed role claim after a successful createUser answers 500 and leaves
   * a user without a role claim and without a document: the stores disagree.
   */
  lemma ClaimFailureOrphansUser(s: Stores, body: CreateStaffBody, uid: Uid, e: string, written: Outcome, now: Timestamp)
    requires Consistent(s)
    requires Admitted(body)
    requires uid !in s.users
    ensures var r := CreateStaff(s, body, uid, Done, Failed(e), written, now);
      && r.response.status == 500
      && uid in r.after.users && r.after.users[uid].roleClaim == None
      && uid !in r.after.docs
      && !Consistent(r.after)
  {
  }

  /**
   * A failed document write after the claim answers 500 and leaves a user with
   * its role claim but without a document.
   */
  lemma WriteFailureOrphansUser(s: Stores, body: CreateStaffBody, uid: Uid, e: string, now: Timestamp)
    requires Consistent(s)
    requires Admitted(body)
    requires uid !in s.users
    ensures var r := CreateStaff(s, body, uid, Done, Done, Failed(e), now);
      && r.response.status == 500
      && uid in r.after.users && r.after.users[uid].roleClaim == body.role
      && uid !in r.after.docs
      && !Consistent(r.after)
  {
  }

  /**
   * A failed `updateUser` after the document update answers 500 and leaves a
   * document with the new isActive next to a user whose disabled flag still
   * says the opposite.
   */
  lemma MirrorFailureLeavesStaleUser(s: Stores, userId: Uid, active: bool, e: string, now: Timestamp)
    requires Consistent(s)
    requires userId in s.docs
    requires s.docs[userId].isActive != active
    ensures var r := UpdateStaffStatus(s, userId, Some(active), Done, Failed(e), now);
      && r.response.status == 500
      && r.after.docs[userId].isActive == active
      && r.after.users[userId].disabled == active
      && !Consistent(r.after)
  {
  }

  /**
   * Repeating a status update whose calls all succeed gives what the second
   * request alone gives: the same stores, with that request's updatedAt, and
   * the same response.
   */
  lemma StatusUpdateIdempotent(s: Stores, userId: Uid, active: bool, first: Timestamp, second: Timestamp)
    ensures var once := UpdateStaffStatus(s, userId, Some(active), Done, Done, first);
      UpdateStaffStatus(once.after, userId, Some(active), Done, Done, second)
        == UpdateStaffStatus(s, userId, Some(active), Done, Done, second)
  {
  }
}
