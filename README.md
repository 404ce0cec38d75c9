# Staff provisioning server: a Dafny model

The server exposes two mutating endpoints over Firebase:

- `POST /api/create-staff` validates a body `{email, password, name, role, phoneNumber?, specialty?, licenseNumber?}`. It then runs three calls in order: Auth `createUser`, Auth `setCustomUserClaims(uid, {role})`, and a Firestore `set` of the staff document in collection `users`.
- `PATCH /api/staff/:userId/status` validates `{isActive}`. It then runs two calls in order: a Firestore `update` of `isActive` and `updatedAt`, and Auth `updateUser(uid, {disabled: !isActive})`.

In both handlers the first failing call ends the request with a 500 response. Nothing written before that call is undone.

The model has five modules:

- `Wrappers` (`wrappers.dfy`): `Option` and `Result`.
- `StaffRequests` (`staff_requests.dfy`): request bodies and JavaScript truthiness. It also holds the two validators, the role list with its error message, and every response the handlers send.
- `Backend` (`backend.dfy`): both stores.
  - Firebase Auth users and the Firestore `users` collection are two maps, keyed by uid, in class `Admin`. `Admin` has one method per backend call.
  - Each call is also a pure step function on a `Stores` value.
  - Firebase is not visible, so every call takes an `Outcome` parameter (`Done` or `Failed(error)`). A failed call changes nothing.
  - The provider's documented refusals are modelled too. `setCustomUserClaims` and `updateUser` refuse an unknown uid. Firestore `update` refuses a missing document.
  - The handler passes no uid to `createUser`; the provider issues a fresh one. The model takes the issued uid as a parameter, and `createUser` refusing a uid it already holds stands in for that freshness. So the 500 for a uid already held cannot occur in the program itself. It only rules out a non-fresh uid, which is why `uid !in s.users` appears in the success condition of `CreateStaff`.
- `Handlers` (`handlers.dfy`):
  - `CreateStaff` and `UpdateStaffStatus` state each handler as a function on `Stores`. Their contracts give every response and every half-written state.
  - `HandleCreateStaff` and `HandleStaffStatus` are the imperative handlers. They use early returns against an `Admin`, and each is proved equal to its function.
- `Consistency` (`consistency.dfy`): what holds across requests.
  - `Coherent` holds after every request, whatever the backends do. It says every document has a user with the same email and name, and with the document's role as its claim.
  - `Consistent` is the intended relation. Users and documents pair up, and `isActive == !disabled`. It survives every request that does not answer 500, and every request whose calls all succeed.
  - A mid-sequence failure breaks `Consistent`, and three lemmas show how.

Parameters stand in for things the server does not compute:

- the uid the provider issues;
- the outcome of each remote call;
- the server timestamp (`now`).

## Model

| member | source | states |
|---|---|---|
| `StaffRequests.ParseRole` | server/index.js:42-43 | a role string is accepted iff it is one of the four role names, and the parsed role's name is that string |
| `StaffRequests.RoleNameRoundTrip` | server/index.js:42 | every role's name is in the accepted list and parses back to the same role |
| `StaffRequests.RoleListText` | server/index.js:42-46 | joining the role list with ", " spells "doctor, nurse, receptionist, admin" |
| `StaffRequests.JoinCons` | server/index.js:46 | `join(', ')` puts the separator between the first part and the joined rest |
| `StaffRequests.InvalidRoleMessage` | server/index.js:42-46 | the invalid-role message lists exactly doctor, nurse, receptionist, admin, joined by ", " |
| `StaffRequests.Truthy` | server/index.js:34 | an absent field and `''` are falsy, and every other string is truthy |
| `StaffRequests.OrEmpty` | server/index.js:66-68 | `v \|\| ''` gives `''` exactly when the field is absent or empty, and the submitted value otherwise |
| `StaffRequests.ValidateCreate` | server/index.js:34-48 | a body passes iff email, password, name and role are all truthy and the role is in the list; a missing or empty field gives 400 "Missing required fields" before the role is checked; a bad role gives 400 with the role-list message; a passing body keeps the submitted values |
| `StaffRequests.ValidateStatus` | server/index.js:95-100 | only an undefined isActive is rejected, with the 400 body (success false, "isActive status is required"); an explicit false passes as false |
| `StaffRequests.StatusMessage` | server/index.js:115 | the message says "activated" iff isActive is true, and "deactivated" iff it is false |
| `StaffRequests.MissingFields` | server/index.js:35-38 | status 400, success false, message "Missing required fields" |
| `StaffRequests.InvalidRole` | server/index.js:44-47 | status 400, success false, and the message names exactly the four roles |
| `StaffRequests.Created` | server/index.js:74-78 | status 200, success true, message "Staff member created successfully", carrying the new uid |
| `StaffRequests.CreateFailed` | server/index.js:81-85 | status 500, success false, message "Failed to create staff member", carrying the failing call's error |
| `StaffRequests.IsActiveRequired` | server/index.js:96-99 | status 400, success false, message "isActive status is required" |
| `StaffRequests.StatusUpdated` | server/index.js:113-116 | status 200, success true, and the message is "Staff member activated successfully" for true and "Staff member deactivated successfully" for false |
| `StaffRequests.StatusFailed` | server/index.js:119-123 | status 500, success false, message "Failed to update staff status", carrying the failing call's error |
| `Handlers.StaffDocument` | server/index.js:61-72 | the document has id = uid, the submitted email and name, the role's name, `''` for each absent optional field, both timestamps set to the write's time, and isActive true |
| `Backend.Admin.CreateUser` | server/index.js:51-55 | adds an enabled user with no claims under a fresh uid; a failure changes nothing |
| `Backend.Admin.SetCustomUserClaims` | server/index.js:58 | sets the user's role claim; a failure changes nothing |
| `Backend.Admin.SetDoc` | server/index.js:61-72 | writes the document under the uid; a failure changes nothing |
| `Backend.Admin.UpdateDoc` | server/index.js:103-106 | sets isActive and updatedAt on an existing document; a missing document or a failure changes nothing |
| `Backend.Admin.UpdateUser` | server/index.js:109-111 | sets the user's disabled flag; an unknown user or a failure changes nothing |
| `Handlers.CreateStaff` | server/index.js:29-87 | a 400 rejection leaves both stores unchanged; 200 iff the body is valid and all three calls succeed; otherwise 500 "Failed to create staff member" carrying the error of the call that failed; a failed createUser changes nothing; a failed claim leaves a user without a claim and no document; a failed write leaves a user with its claim and no document; on success the response is 200 "Staff member created successfully" with the uid, the document has id = uid, the submitted email, name and role, '' for each absent optional field, isActive true, and the user carries claim {role}; only the new uid is touched |
| `Handlers.UpdateStaffStatus` | server/index.js:90-125 | 400 iff isActive is undefined, with the body {success false, "isActive status is required"} and both stores unchanged; 200 iff the document update and updateUser both succeed; otherwise 500 "Failed to update staff status" carrying the error of the call that failed; a failed document update leaves disabled untouched; a later updateUser failure leaves the document holding the new isActive; on success the message is "Staff member activated successfully" for true and "Staff member deactivated successfully" for false, the stored isActive is the requested value and disabled is its negation; nothing is created or deleted |
| `Handlers.HandleCreateStaff` | server/index.js:29-87 | running the create handler's steps against the Admin stores yields exactly the response and new stores that `CreateStaff` gives |
| `Handlers.HandleStaffStatus` | server/index.js:90-125 | running the status handler's steps against the Admin stores yields exactly the response and new stores that `UpdateStaffStatus` gives |
| `Consistency.CreateStaffKeepsCoherent` | server/index.js:51-72 | whatever the call outcomes, creation never leaves a document without a user carrying its role claim |
| `Consistency.UpdateStaffStatusKeepsCoherent` | server/index.js:103-111 | whatever the call outcomes, a status update never breaks the document-to-user relation |
| `Consistency.RunKeepsCoherent` | server/index.js:29-125 | any sequence of requests, with any failures, keeps every document paired with its user and role claim |
| `Consistency.ReachableIsCoherent` | server/index.js:29-125 | every state reachable from empty stores is coherent, partial failures included |
| `Consistency.CreateStaffKeepsConsistent` | server/index.js:51-78 | from agreeing stores, a create that does not answer 500, or whose three calls all succeed, leaves agreeing stores |
| `Consistency.UpdateStaffStatusKeepsConsistent` | server/index.js:103-116 | from agreeing stores, a status update that does not answer 500, or whose two calls succeed, leaves agreeing stores with isActive == !disabled |
| `Consistency.AnsweredRequestKeepsConsistent` | server/index.js:29-125 | any request that does not answer 500 keeps the stores in agreement |
| `Consistency.UnfailingRequestKeepsConsistent` | server/index.js:29-125 | any request whose backend calls all succeed keeps the stores in agreement |
| `Consistency.UnfailingRunKeepsConsistent` | server/index.js:29-125 | as long as no backend call fails, any sequence of requests keeps the stores in agreement |
| `Consistency.ClaimFailureOrphansUser` | server/index.js:51-86 | a claim failure after createUser answers 500 and leaves a user with no role claim and no document, so the stores disagree |
| `Consistency.WriteFailureOrphansUser` | server/index.js:58-86 | a document-write failure answers 500 and leaves a user with its role claim and no document, so the stores disagree |
| `Consistency.MirrorFailureLeavesStaleUser` | server/index.js:103-124 | an updateUser failure after the document update answers 500 and leaves the new isActive next to a stale disabled flag, so the stores disagree |
| `Consistency.StatusUpdateIdempotent` | server/index.js:103-116 | when all calls succeed, a status update sent twice gives the same stores and response as the second one alone, so only updatedAt's value differs from a single update |

## Left out

- Express setup, CORS, body parsing, `app.listen` and the health-check route (server/index.js:1-6, 19-26): transport plumbing and a constant response.
- Firebase Admin initialisation, including its logged and swallowed failure (server/index.js:8-17): configuration loading in a foreign library.
- Backend.Admin.CreateUser: stores the submitted email verbatim on the user. The provider may normalise addresses (for example lower-casing them), while the handler writes the document's email exactly as submitted. So the email agreement in `Consistency.Coherent`, which `Consistency.RunKeepsCoherent` and `Consistency.ReachableIsCoherent` carry, holds only for email addresses the provider keeps unchanged.
- Firebase internals are not modelled: duplicate-email and weak-password rejection, uid generation and password storage. They appear only as call outcomes and the supplied uid. `Backend.Admin.CreateUser` accepts the password and does not store it.
- Server timestamps are a caller-supplied `now` value, not the Firestore server clock.
- Exact error texts are left out. A failed call reports its `Outcome`'s text. The provider's own refusals report fixed codes. `console` logging is left out too.
- Request bodies are typed. Fields are strings or absent, and `isActive` is a boolean or absent. JavaScript truthiness of other value types is not modelled, and neither is `isActive: null`, which passes the `=== undefined` check.
- Concurrent requests are left out. Requests are served one after another (`Consistency.Run`), so interleaved backend calls from simultaneous requests are not modelled.
- Handlers.UpdateStaffStatus: the `userId` path parameter is never checked to be a single document id. Express decodes the segment, so `a%2Fsub%2Fb` becomes `a/sub/b`. `collection('users').doc(userId)` then addresses a nested document such as `users/a/sub/b`, outside the collection's own documents. If that document exists, server/index.js:103-106 writes `isActive` and `updatedAt` into it, and the later `updateUser` fails with 500. The model keys documents by id within `users` alone, so it does not represent that write: it answers 500 with both stores unchanged.
- A `userId` that Firestore refuses as a document path is covered only as a failed outcome.
