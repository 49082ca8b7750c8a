/**
 * The action handlers of the root controller (`App.tsx`): login and signup,
 * profile updates, the verification and withdrawal request lifecycles, and
 * the post/room prepends. Each handler is a pure transition of `App`.
 */
module AppHandlers {
  import opened Wrappers
  import opened Records
  import opened Api
  import Seqs
  import Text

  const SuperAdminEmail: string := "ssocialmediaservice573@gmail.com"
  const SuperAdminPass: string := "admin123"
  const AdminId: string := "admin-root"
  const AdminName: string := "المسؤول الرئيسي"
  /** The description used when a rejection comes without a (truthy) reason. */
  const DefaultRejectReason: string := "المستندات غير واضحة"

  datatype Route = LoginRoute | HomeRoute | RoomDetailRoute | OtherRoute

  /**
   * The controller: the store, the in-memory current user (`None` once it has
   * been set to `undefined`), the route and the selected live room.
   */
  datatype App = App(store: Store, currentUser: Option<User>, route: Route, selectedRoomId: Option<string>)

  datatype LoginResult = LoggedIn | InvalidCredentials

  /** The record the admin override logs in as: the mock profile with admin fields on top. */
  function AdminUser(mock: User): (u: User)
    ensures u.id == AdminId && u.role == Some(AdminRole) && u.email == Some(SuperAdminEmail)
    ensures u.name == Some(AdminName) && u.username == Some("admin_root")
    ensures u.coins == Some(1000000) && u.isVerified == Some(true) && u.supporterLevel == Some(50)
    ensures u.password == mock.password && u.avatar == mock.avatar && u.earnings == mock.earnings
    ensures u.verificationStatus == mock.verificationStatus && u.followers == mock.followers
    ensures u.following == mock.following && u.likes == mock.likes
  {
    mock.(id := AdminId, email := Some(SuperAdminEmail), role := Some(AdminRole),
          name := Some(AdminName), username := Some("admin_root"), coins := Some(1000000),
          isVerified := Some(true), supporterLevel := Some(50))
  }

  /** The login predicate: email or username equals the identifier and the password matches. */
  predicate Matches(u: User, identifier: string, password: string) {
    (u.email == Some(identifier) || u.username == Some(identifier)) && u.password == Some(password)
  }

  /** The position of the first stored user the credentials match. */
  function CredentialMatch(users: seq<User>, identifier: string, password: string): (r: Option<nat>)
    ensures r.Some? ==> r.value < |users| && Matches(users[r.value], identifier, password)
    ensures r.Some? ==> forall j :: 0 <= j < r.value ==> !Matches(users[j], identifier, password)
    ensures r.None? ==> forall j :: 0 <= j < |users| ==> !Matches(users[j], identifier, password)
  {
    Seqs.FirstWhere(users, (u: User) => Matches(u, identifier, password))
  }

  /** The store after a user logs in: that user in 'tikbook_user' and the session marked active. */
  function SignedIn(s: Store, u: User): Store {
    s.(userSlot := Holds(u), sessionActive := true)
  }

  /**
   * `handleLogin` in 'login' mode. The fixed admin identifier and password
   * are checked first and succeed whatever is stored; otherwise the first
   * stored user whose email or username and password match is logged in;
   * with no match nothing changes.
   */
  function HandleLogin(app: App, identifier: string, password: string, mock: User): (r: (App, LoginResult))
    ensures identifier == SuperAdminEmail && password == SuperAdminPass ==>
      && r.1 == LoggedIn
      && r.0.currentUser == Some(AdminUser(mock))
      && r.0.store == SignedIn(SyncUser(app.store, AdminUser(mock)), AdminUser(mock))
      && r.0.route == HomeRoute
    ensures r.0 == app.(store := r.0.store, currentUser := r.0.currentUser, route := r.0.route)
    ensures !(identifier == SuperAdminEmail && password == SuperAdminPass) ==>
      match CredentialMatch(app.store.allUsers, identifier, password)
      case None => r == (app, InvalidCredentials)
      case Some(i) =>
        var u := app.store.allUsers[i];
        && r.1 == LoggedIn
        && r.0.currentUser == Some(u)
        && r.0.store == SignedIn(app.store, u)
        && r.0.route == HomeRoute
  {
    if identifier == SuperAdminEmail && password == SuperAdminPass then
      var admin := AdminUser(mock);
      (app.(store := SignedIn(SyncUser(app.store, admin), admin), currentUser := Some(admin), route := HomeRoute),
       LoggedIn)
    else
      match CredentialMatch(GetAllUsers(app.store), identifier, password)
      case None => (app, InvalidCredentials)
      case Some(i) =>
        var u := app.store.allUsers[i];
        (app.(store := SignedIn(app.store, u), currentUser := Some(u), route := HomeRoute), LoggedIn)
  }

  /** The admin override ignores the stored users and the prior session entirely. */
  lemma AdminLoginIgnoresStore(a: App, b: App, mock: User)
    ensures HandleLogin(a, SuperAdminEmail, SuperAdminPass, mock).0.currentUser ==
            HandleLogin(b, SuperAdminEmail, SuperAdminPass, mock).0.currentUser
    ensures HandleLogin(a, SuperAdminEmail, SuperAdminPass, mock).0.currentUser.value.role == Some(AdminRole)
  {
  }

  /** The signup form fields `handleLogin` reads in 'signup' mode. */
  datatype SignupForm = SignupForm(
    name: string, username: string, email: string, password: string, referralCode: Option<string>)

  /** The new user record: the mock profile with the form and fixed starting fields on top. */
  function NewUser(form: SignupForm, freshId: string, mock: User): (u: User)
    ensures u.id == freshId
    ensures u.coins == Some(if Text.Truthy(form.referralCode) then 10 else 0)
    ensures u.role == Some(UserRole) && u.isVerified == Some(false) && u.supporterLevel == Some(1)
    ensures u.earnings == Some(0) && u.followers == Some(0) && u.following == Some(0) && u.likes == Some(0)
    ensures u.name == Some(form.name) && u.username == Some(form.username)
    ensures u.email == Some(form.email) && u.password == Some(form.password)
    ensures u.avatar == mock.avatar && u.verificationStatus == mock.verificationStatus
  {
    mock.(id := freshId, name := Some(form.name), username := Some(form.username),
          email := Some(form.email), password := Some(form.password),
          coins := Some(if Text.Truthy(form.referralCode) then 10 else 0),
          role := Some(UserRole), isVerified := Some(false), supporterLevel := Some(1),
          earnings := Some(0), followers := Some(0), following := Some(0), likes := Some(0))
  }

  /**
   * `handleLogin` in 'signup' mode: always succeeds, upserts the new record
   * (no uniqueness check on email or username) and makes it the session user.
   */
  function HandleSignup(app: App, form: SignupForm, freshId: string, mock: User): (r: App)
    ensures r.currentUser == Some(NewUser(form, freshId, mock))
    ensures r.store == SignedIn(SyncUser(app.store, NewUser(form, freshId, mock)), NewUser(form, freshId, mock))
    ensures r.route == HomeRoute && r.selectedRoomId == app.selectedRoomId
  {
    var u := NewUser(form, freshId, mock);
    app.(store := SignedIn(SyncUser(app.store, u), u), currentUser := Some(u), route := HomeRoute)
  }

  /**
   * Signing up with an email some stored user already has, under a fresh id,
   * succeeds and leaves two stored users with that email.
   */
  lemma SignupAllowsDuplicateEmail(app: App, form: SignupForm, freshId: string, mock: User, k: nat)
    requires k < |app.store.allUsers| && app.store.allUsers[k].email == Some(form.email)
    requires !HasId(app.store.allUsers, freshId)
    ensures var users := HandleSignup(app, form, freshId, mock).store.allUsers;
      && |users| == |app.store.allUsers| + 1
      && users[k].email == Some(form.email)
      && users[|users| - 1].email == Some(form.email)
      && users[|users| - 1].id == freshId
  {
  }

  /**
   * How a profile update of `userId` that wrote `after`'s collection leaves
   * the current user and 'tikbook_user': when the update returned and the id
   * is the current user's, both take the stored record with that id
   * (`undefined` when there is none); otherwise the current user stays and
   * the slot changes only where `updateProfile` mirrors into it, a slot
   * holding a user with that id.
   */
  predicate SessionFollows(before: App, after: App, userId: string, returned: bool) {
    var found := Find(after.store.allUsers, userId);
    if returned && before.currentUser.Some? && before.currentUser.value.id == userId then
      after.currentUser == found && after.store.userSlot == SlotOf(found)
    else
      && after.currentUser == before.currentUser
      && after.store.userSlot ==
           (if before.store.userSlot.Holds? && before.store.userSlot.user.id == userId then SlotOf(found)
            else before.store.userSlot)
  }

  /**
   * `handleUpdateUser`: `updateProfile`, then, only when the patched id is the
   * current user's, the returned record (possibly `undefined`) replaces the
   * in-memory current user and the session slot. A throw from
   * `updateProfile` propagates after the collection was written; with the
   * current user already `undefined`, reading its id throws after the write.
   */
  function HandleUpdateUser(app: App, userId: string, updates: Patch): (r: (App, Outcome<Option<User>, Error>))
    ensures r.0.store.allUsers == PatchAll(app.store.allUsers, userId, updates)
    ensures r.0.store == app.store.(allUsers := r.0.store.allUsers, userSlot := r.0.store.userSlot)
    ensures r.0 == app.(store := r.0.store, currentUser := r.0.currentUser)
    ensures app.store.userSlot.Undefined? ==> r.1 == Threw(MalformedJson)
    ensures !app.store.userSlot.Undefined? && app.currentUser.None? ==> r.1 == Threw(NoCurrentUser)
    ensures r.1.Threw? <==> app.store.userSlot.Undefined? || app.currentUser.None?
    ensures r.1.Returned? ==> r.1.value == Find(r.0.store.allUsers, userId)
    ensures SessionFollows(app, r.0, userId, r.1.Returned?)
  {
    var (s1, out) := UpdateProfile(app.store, userId, updates);
    FindAfterPatch(app.store.allUsers, userId, updates);
    match out
    case Threw(e) => (app.(store := s1), Threw(e))
    case Returned(updated) =>
      match app.currentUser
      case None => (app.(store := s1), Threw(NoCurrentUser))
      case Some(current) =>
        if userId == current.id then
          (app.(store := s1.(userSlot := SlotOf(updated)), currentUser := updated), Returned(updated))
        else (app.(store := s1), Returned(updated))
  }

  /**
   * The in-memory current user and 'tikbook_user' hold the same record, as
   * every login and signup leaves them.
   */
  predicate SessionAgrees(app: App) {
    app.currentUser.Some? && app.store.userSlot == Holds(app.currentUser.value)
  }

  /** A successful login leaves the session in agreement, whatever came before. */
  lemma LoginAgrees(app: App, identifier: string, password: string, mock: User)
    requires HandleLogin(app, identifier, password, mock).1 == LoggedIn
    ensures SessionAgrees(HandleLogin(app, identifier, password, mock).0)
  {
  }

  /** A signup leaves the session in agreement, whatever came before. */
  lemma SignupAgrees(app: App, form: SignupForm, freshId: string, mock: User)
    ensures SessionAgrees(HandleSignup(app, form, freshId, mock))
  {
  }

  /**
   * An update keeps the session in agreement except in exactly one case: it
   * targets the current user's own id while no stored record has that id,
   * which sets the current user to `undefined` and the slot to "undefined".
   */
  lemma UpdateKeepsAgreement(app: App, userId: string, updates: Patch)
    requires SessionAgrees(app)
    ensures var after := HandleUpdateUser(app, userId, updates).0;
      SessionAgrees(after) <==> !(userId == app.currentUser.value.id && !HasId(app.store.allUsers, userId))
    ensures userId == app.currentUser.value.id && !HasId(app.store.allUsers, userId) ==>
      var after := HandleUpdateUser(app, userId, updates).0;
      after.currentUser.None? && after.store.userSlot == Undefined
  {
    var after := HandleUpdateUser(app, userId, updates).0;
    FindAfterPatch(app.store.allUsers, userId, updates);
    assert Find(after.store.allUsers, userId).Some? <==> HasId(app.store.allUsers, userId);
  }

  /** The stored request `handleVerificationSubmit` builds: the draft, a fresh id and time, status pending. */
  function NewVerificationRequest(draft: VerificationDraft, freshId: string, timestamp: int): (q: VerificationRequest)
    ensures q.id == freshId && q.draft == draft && q.timestamp == timestamp
    ensures q.status == Pending && q.isVerified.None?
  {
    VerificationRequest(freshId, draft, timestamp, Pending, None)
  }

  /**
   * `handleVerificationSubmit`: prepend one pending request; then reading the
   * current user's id throws when it is `undefined`; otherwise its record is
   * marked 'pending' through `handleUpdateUser` (whose throw propagates) and
   * the returned record, `undefined` for an unstored id, becomes the current
   * user and the session slot. Route and selected room never change.
   */
  function HandleVerificationSubmit(app: App, draft: VerificationDraft, freshId: string, timestamp: int): (r: (App, Outcome<(), Error>))
    ensures r.0.store.verificationRequests ==
      [NewVerificationRequest(draft, freshId, timestamp)] + app.store.verificationRequests
    ensures r.0.store == app.store.(verificationRequests := r.0.store.verificationRequests,
                                    allUsers := r.0.store.allUsers, userSlot := r.0.store.userSlot)
    ensures r.0 == app.(store := r.0.store, currentUser := r.0.currentUser)
    ensures app.currentUser.None? ==>
      r.1 == Threw(NoCurrentUser) && r.0.store.allUsers == app.store.allUsers && r.0.store.userSlot == app.store.userSlot
    ensures app.currentUser.Some? && app.store.userSlot.Undefined? ==>
      && r.1 == Threw(MalformedJson)
      && r.0.store.allUsers == PatchAll(app.store.allUsers, app.currentUser.value.id, StatusPatch(PendingReview))
      && r.0.currentUser == app.currentUser && r.0.store.userSlot == Undefined
    ensures app.currentUser.Some? && !app.store.userSlot.Undefined? ==>
      var id := app.currentUser.value.id;
      && r.1 == Returned(())
      && r.0.store.allUsers == PatchAll(app.store.allUsers, id, StatusPatch(PendingReview))
      && r.0.currentUser == Find(r.0.store.allUsers, id)
      && r.0.store.userSlot == SlotOf(r.0.currentUser)
    ensures app.currentUser.Some? && !app.store.userSlot.Undefined? && HasId(app.store.allUsers, app.currentUser.value.id) ==>
      && r.0.currentUser.Some?
      && r.0.currentUser.value.verificationStatus == Some(PendingReview)
      && r.0.store.userSlot == Holds(r.0.currentUser.value)
  {
    var s1 := app.store.(verificationRequests :=
      [NewVerificationRequest(draft, freshId, timestamp)] + app.store.verificationRequests);
    match app.currentUser
    case None => (app.(store := s1), Threw(NoCurrentUser))
    case Some(current) =>
      var (app2, out) := HandleUpdateUser(app.(store := s1), current.id, StatusPatch(PendingReview));
      FindAfterPatch(s1.allUsers, current.id, StatusPatch(PendingReview));
      match out
      case Threw(e) => (app2, Threw(e))
      case Returned(updated) =>
        (app2.(currentUser := updated, store := app2.store.(userSlot := SlotOf(updated))), Returned(()))
  }

  /**
   * A submit keeps the session in agreement exactly when the current user's
   * id is stored; for an unstored id both sides become `undefined`.
   */
  lemma SubmitKeepsAgreement(app: App, draft: VerificationDraft, freshId: string, timestamp: int)
    requires SessionAgrees(app)
    ensures SessionAgrees(HandleVerificationSubmit(app, draft, freshId, timestamp).0) <==>
      HasId(app.store.allUsers, app.currentUser.value.id)
  {
    var id := app.currentUser.value.id;
    FindAfterPatch(app.store.allUsers, id, StatusPatch(PendingReview));
  }

  /** The admin's verdict on a verification request. */
  datatype VerificationDecision = Approve | Reject

  /** The notification text's reason: the given reason when truthy, else the default. */
  function RejectionReason(reason: Option<string>): (r: string)
    ensures Text.Truthy(reason) ==> r == reason.value
    ensures !Text.Truthy(reason) ==> r == DefaultRejectReason
  {
    if Text.Truthy(reason) then reason.value else DefaultRejectReason
  }

  /**
   * The user fields derived from a verdict, the only two the patch touches;
   * a rejection copies the request's own `isVerified`, present even when
   * that is `undefined`.
   */
  function VerdictPatch(decision: VerificationDecision, request: VerificationRequest): (p: Patch)
    ensures p == EmptyPatch.(verificationStatus := p.verificationStatus, isVerified := p.isVerified)
    ensures decision == Approve ==> p.verificationStatus == Put(NoRequest) && p.isVerified == Put(true)
    ensures decision == Reject ==> p.verificationStatus == Put(RequestRejected) && !p.isVerified.Keep?
  {
    match decision
    case Approve => EmptyPatch.(verificationStatus := Put(NoRequest), isVerified := Put(true))
    case Reject => EmptyPatch.(verificationStatus := Put(RequestRejected), isVerified := CopyOf(request.isVerified))
  }

  /**
   * Merging a verdict into any record sets its status and `isVerified` and
   * nothing else: approval gives 'none' and true, rejection 'rejected' and
   * the request's own `isVerified`.
   */
  lemma VerdictPatchEffect(u: User, decision: VerificationDecision, request: VerificationRequest)
    ensures Merge(u, VerdictPatch(decision, request)) ==
      u.(verificationStatus := Some(if decision == Approve then NoRequest else RequestRejected),
         isVerified := if decision == Approve then Some(true) else request.isVerified)
  {
  }

  /** The single notification a verdict produces for the request's owner. */
  function VerdictNotice(decision: VerificationDecision, request: VerificationRequest, reason: Option<string>,
                         notifId: string, timestamp: int): (n: Notification)
    ensures n.userId == request.draft.userId
    ensures n.kind == Reward <==> decision == Approve
    ensures decision == Reject ==> n.text == VerificationDenied(RejectionReason(reason))
    ensures decision == Approve ==> n.text == BadgeGranted
  {
    match decision
    case Approve => Notification(notifId, request.draft.userId, BadgeGranted, timestamp, Reward)
    case Reject => Notification(notifId, request.draft.userId, VerificationDenied(RejectionReason(reason)), timestamp, Security)
  }

  /** The position of the first stored verification request with the id. */
  function VerificationIndex(requests: seq<VerificationRequest>, requestId: string): Option<nat> {
    Seqs.FirstWhere(requests, (q: VerificationRequest) => q.id == requestId)
  }

  function DecidedStatus(decision: VerificationDecision): RequestStatus {
    if decision == Approve then Approved else Rejected
  }

  /**
   * `handleAdminVerificationAction`: an unknown request id changes nothing.
   * Otherwise the first request with the id takes the verdict's status, the
   * owner's record is patched through `handleUpdateUser`, and, unless that
   * threw, one notification is prepended. Route and selected room never change.
   */
  function ResolveVerification(app: App, requestId: string, decision: VerificationDecision, reason: Option<string>,
                               notifId: string, timestamp: int): (r: (App, Outcome<(), Error>))
    ensures VerificationIndex(app.store.verificationRequests, requestId).None? ==> r == (app, Returned(()))
    ensures VerificationIndex(app.store.verificationRequests, requestId).Some? ==>
      var i := VerificationIndex(app.store.verificationRequests, requestId).value;
      var request := app.store.verificationRequests[i];
      && r.0.store.verificationRequests == app.store.verificationRequests[i := request.(status := DecidedStatus(decision))]
      && r.0.store.allUsers == PatchAll(app.store.allUsers, request.draft.userId, VerdictPatch(decision, request))
      && r.0.store == app.store.(verificationRequests := r.0.store.verificationRequests, allUsers := r.0.store.allUsers,
                                 userSlot := r.0.store.userSlot, notifications := r.0.store.notifications)
      && r.0 == app.(store := r.0.store, currentUser := r.0.currentUser)
      && (r.1.Threw? <==> app.store.userSlot.Undefined? || app.currentUser.None?)
      && (r.1.Threw? ==> r.0.store.notifications == app.store.notifications)
      && (r.1.Returned? ==>
            r.0.store.notifications == [VerdictNotice(decision, request, reason, notifId, timestamp)] + app.store.notifications)
      && SessionFollows(app, r.0, request.draft.userId, r.1.Returned?)
  {
    match VerificationIndex(app.store.verificationRequests, requestId)
    case None => (app, Returned(()))
    case Some(i) =>
      var request := app.store.verificationRequests[i];
      var s1 := app.store.(verificationRequests :=
        app.store.verificationRequests[i := request.(status := DecidedStatus(decision))]);
      var (app2, out) := HandleUpdateUser(app.(store := s1), request.draft.userId, VerdictPatch(decision, request));
      match out
      case Threw(e) => (app2, Threw(e))
      case Returned(_) =>
        var notice := VerdictNotice(decision, request, reason, notifId, timestamp);
        (app2.(store := app2.store.(notifications := [notice] + app2.store.notifications)), Returned(()))
  }

  /**
   * What a verdict does to the owner's first stored record: approval sets
   * `isVerified` and status 'none'; rejection sets status 'rejected' and
   * `isVerified` to the request's own value (cleared when it has none).
   */
  lemma VerdictOnOwner(app: App, requestId: string, decision: VerificationDecision, reason: Option<string>,
                       notifId: string, timestamp: int, i: nat)
    requires VerificationIndex(app.store.verificationRequests, requestId) == Some(i)
    requires HasId(app.store.allUsers, app.store.verificationRequests[i].draft.userId)
    ensures var request := app.store.verificationRequests[i];
      var owner := Find(ResolveVerification(app, requestId, decision, reason, notifId, timestamp).0.store.allUsers,
                        request.draft.userId);
      && owner.Some?
      && (decision == Approve ==> owner.value.isVerified == Some(true) && owner.value.verificationStatus == Some(NoRequest))
      && (decision == Reject ==> owner.value.isVerified == request.isVerified
                                 && owner.value.verificationStatus == Some(RequestRejected))
  {
    var request := app.store.verificationRequests[i];
    FindAfterPatch(app.store.allUsers, request.draft.userId, VerdictPatch(decision, request));
    VerdictPatchEffect(Find(app.store.allUsers, request.draft.userId).value, decision, request);
  }

  /**
   * A verdict that did not throw grows the notification list by exactly one
   * entry, for the request's owner, of kind reward exactly when approved.
   */
  lemma VerdictNotifiesOnce(app: App, requestId: string, decision: VerificationDecision, reason: Option<string>,
                            notifId: string, timestamp: int, i: nat)
    requires app.currentUser.Some? && !app.store.userSlot.Undefined?
    requires VerificationIndex(app.store.verificationRequests, requestId) == Some(i)
    ensures var after := ResolveVerification(app, requestId, decision, reason, notifId, timestamp).0.store.notifications;
      && |after| == |app.store.notifications| + 1
      && after[1..] == app.store.notifications
      && after[0].userId == app.store.verificationRequests[i].draft.userId
      && (after[0].kind == Reward <==> decision == Approve)
  {
    var after := ResolveVerification(app, requestId, decision, reason, notifId, timestamp).0.store.notifications;
    assert after[1..] == app.store.notifications;
  }

  /**
   * A verdict keeps the session in agreement except when the request's owner
   * is the current user and no stored record has that id.
   */
  lemma VerdictKeepsAgreement(app: App, requestId: string, decision: VerificationDecision, reason: Option<string>,
                              notifId: string, timestamp: int, i: nat)
    requires SessionAgrees(app)
    requires VerificationIndex(app.store.verificationRequests, requestId) == Some(i)
    ensures var owner := app.store.verificationRequests[i].draft.userId;
      SessionAgrees(ResolveVerification(app, requestId, decision, reason, notifId, timestamp).0) <==>
        !(owner == app.currentUser.value.id && !HasId(app.store.allUsers, owner))
  {
    var request := app.store.verificationRequests[i];
    FindAfterPatch(app.store.allUsers, request.draft.userId, VerdictPatch(decision, request));
  }

  /**
   * Submitting a request and then deciding it: the stored request (now first)
   * takes the verdict's status and the submitter's record the verdict's fields.
   */
  lemma SubmitThenResolve(app: App, draft: VerificationDraft, freshId: string, timestamp: int,
                          decision: VerificationDecision, reason: Option<string>, notifId: string, later: int)
    requires SessionAgrees(app) && HasId(app.store.allUsers, app.currentUser.value.id)
    requires draft.userId == app.currentUser.value.id
    ensures var submitted := HandleVerificationSubmit(app, draft, freshId, timestamp).0;
      var resolved := ResolveVerification(submitted, freshId, decision, reason, notifId, later).0;
      var owner := Find(resolved.store.allUsers, draft.userId);
      && resolved.store.verificationRequests[0].status == DecidedStatus(decision)
      && resolved.store.verificationRequests[1..] == app.store.verificationRequests
      && owner.Some?
      && owner.value.verificationStatus == Some(if decision == Approve then NoRequest else RequestRejected)
      && (decision == Approve ==> owner.value.isVerified == Some(true))
      && (decision == Reject ==> owner.value.isVerified.None?)
  {
    var submitted := HandleVerificationSubmit(app, draft, freshId, timestamp).0;
    var request := NewVerificationRequest(draft, freshId, timestamp);
    assert submitted.store.verificationRequests[0] == request;
    assert VerificationIndex(submitted.store.verificationRequests, freshId) == Some(0);
    FindAfterPatch(app.store.allUsers, draft.userId, StatusPatch(PendingReview));
    VerdictOnOwner(submitted, freshId, decision, reason, notifId, later, 0);
  }

  /** The admin's verdict on a withdrawal request. */
  datatype WithdrawalDecision = Complete | Refuse

  /** The single notification a withdrawal verdict produces; a completion names the amount. */
  function PayoutNotice(decision: WithdrawalDecision, request: WithdrawalRequest, notifId: string, timestamp: int): (n: Notification)
    ensures n.userId == request.userId
    ensures n.kind == Reward <==> decision == Complete
    ensures decision == Complete ==> n.text == PayoutSent(request.amount)
    ensures decision == Refuse ==> n.text == PayoutFailed
  {
    match decision
    case Complete => Notification(notifId, request.userId, PayoutSent(request.amount), timestamp, Reward)
    case Refuse => Notification(notifId, request.userId, PayoutFailed, timestamp, Security)
  }

  function WithdrawalIndex(requests: seq<WithdrawalRequest>, requestId: string): Option<nat> {
    Seqs.FirstWhere(requests, (q: WithdrawalRequest) => q.id == requestId)
  }

  /**
   * `handleAdminWithdrawalAction`: an unknown id changes nothing; otherwise
   * the first request with the id takes the verdict's status and exactly one
   * notification is prepended. No user record, balance included, is touched.
   */
  function ResolveWithdrawal(s: Store, requestId: string, decision: WithdrawalDecision,
                             notifId: string, timestamp: int): (r: Store)
    ensures WithdrawalIndex(s.withdrawalRequests, requestId).None? ==> r == s
    ensures WithdrawalIndex(s.withdrawalRequests, requestId).Some? ==>
      var i := WithdrawalIndex(s.withdrawalRequests, requestId).value;
      && |r.withdrawalRequests| == |s.withdrawalRequests|
      && r.withdrawalRequests[i].status == (if decision == Complete then Completed else Declined)
      && r.withdrawalRequests[i] == s.withdrawalRequests[i].(status := r.withdrawalRequests[i].status)
      && (forall j :: 0 <= j < |s.withdrawalRequests| && j != i ==> r.withdrawalRequests[j] == s.withdrawalRequests[j])
      && r.notifications == [PayoutNotice(decision, s.withdrawalRequests[i], notifId, timestamp)] + s.notifications
      && r == s.(withdrawalRequests := r.withdrawalRequests, notifications := r.notifications)
  {
    match WithdrawalIndex(s.withdrawalRequests, requestId)
    case None => s
    case Some(i) =>
      var request := s.withdrawalRequests[i];
      var status := if decision == Complete then Completed else Declined;
      var notice := PayoutNotice(decision, request, notifId, timestamp);
      s.(withdrawalRequests := s.withdrawalRequests[i := request.(status := status)],
         notifications := [notice] + s.notifications)
  }

  /** A withdrawal verdict never changes anyone's coins. */
  lemma WithdrawalKeepsBalances(s: Store, requestId: string, decision: WithdrawalDecision, notifId: string, timestamp: int)
    ensures forall j :: 0 <= j < |s.allUsers| ==>
      ResolveWithdrawal(s, requestId, decision, notifId, timestamp).allUsers[j].coins == s.allUsers[j].coins
  {
  }

  /** `handleUploadPost`: the post goes first in the list and the route returns home. */
  function HandleUploadPost(app: App, post: Post): (r: App)
    ensures r.store.posts == [post] + app.store.posts
    ensures r.route == HomeRoute
    ensures r.store == app.store.(posts := r.store.posts)
    ensures r.currentUser == app.currentUser && r.selectedRoomId == app.selectedRoomId
  {
    app.(store := app.store.(posts := [post] + app.store.posts), route := HomeRoute)
  }

  /** `handleStartLive`: the room goes first in the list and becomes the selected room. */
  function HandleStartLive(app: App, room: Room): (r: App)
    ensures r.store.rooms == [room] + app.store.rooms
    ensures r.selectedRoomId == Some(room.id) && r.route == RoomDetailRoute
    ensures r.store == app.store.(rooms := r.store.rooms)
    ensures r.currentUser == app.currentUser
  {
    app.(store := app.store.(rooms := [room] + app.store.rooms), selectedRoomId := Some(room.id),
         route := RoomDetailRoute)
  }
}
