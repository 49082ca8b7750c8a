/**
 * The records the local backend keeps in `localStorage`, and the shallow
 * merge `{ ...base, ...patch }` that every update is built on.
 *
 * A JavaScript object may lack a property, so every user field except `id`
 * is an `Option`: `None` is a missing property.
 */
module Records {
  import opened Wrappers

  datatype Role = UserRole | AdminRole

  /** A user's `verificationStatus`: 'none', 'pending' or 'rejected'. */
  datatype VerificationStatus = NoRequest | PendingReview | RequestRejected

  datatype User = User(
    id: string,
    name: Option<string>,
    username: Option<string>,
    email: Option<string>,
    password: Option<string>,
    avatar: Option<string>,
    role: Option<Role>,
    coins: Option<int>,
    isVerified: Option<bool>,
    verificationStatus: Option<VerificationStatus>,
    supporterLevel: Option<int>,
    earnings: Option<int>,
    followers: Option<int>,
    following: Option<int>,
    likes: Option<int>)

  /**
   * One property of a spread patch: absent (`Keep`), present with a value
   * (`Put`), or present and `undefined` (`Clear`), which overwrites the base
   * property and then disappears when the record is serialised.
   */
  datatype Edit<T> = Keep | Put(value: T) | Clear

  /** A `Partial<User>` as spread by the update paths; `id` is never patched. */
  datatype Patch = Patch(
    name: Edit<string>,
    username: Edit<string>,
    email: Edit<string>,
    password: Edit<string>,
    avatar: Edit<string>,
    role: Edit<Role>,
    coins: Edit<int>,
    isVerified: Edit<bool>,
    verificationStatus: Edit<VerificationStatus>,
    supporterLevel: Edit<int>,
    earnings: Edit<int>,
    followers: Edit<int>,
    following: Edit<int>,
    likes: Edit<int>)

  const EmptyPatch: Patch :=
    Patch(Keep, Keep, Keep, Keep, Keep, Keep, Keep, Keep, Keep, Keep, Keep, Keep, Keep, Keep)

  /** One property of `{ ...base, ...patch }`. */
  function ApplyEdit<T>(base: Option<T>, e: Edit<T>): (r: Option<T>)
    ensures e.Keep? ==> r == base
    ensures e.Put? ==> r == Some(e.value)
    ensures e.Clear? ==> r == None
  {
    match e
    case Keep => base
    case Put(v) => Some(v)
    case Clear => None
  }

  /** A present property overwrites, an absent one keeps the base value. */
  function EditOf<T>(o: Option<T>): (e: Edit<T>)
    ensures o.None? <==> e.Keep?
    ensures o.Some? ==> e == Put(o.value)
  {
    match o
    case Some(v) => Put(v)
    case None => Keep
  }

  /** A property copied from an object where it may be `undefined`: `{ k: obj.k }`. */
  function CopyOf<T>(o: Option<T>): (e: Edit<T>)
    ensures !e.Keep?
    ensures ApplyEdit(None, e) == o
  {
    match o
    case Some(v) => Put(v)
    case None => Clear
  }

  /**
   * A whole user record used as the right-hand side of a spread. A property
   * the record lacks is left alone; a record that carries a property set to
   * `undefined` would overwrite it, but no handler here spreads such a record.
   */
  function AsPatch(u: User): Patch {
    Patch(EditOf(u.name), EditOf(u.username), EditOf(u.email), EditOf(u.password),
          EditOf(u.avatar), EditOf(u.role), EditOf(u.coins), EditOf(u.isVerified),
          EditOf(u.verificationStatus), EditOf(u.supporterLevel), EditOf(u.earnings),
          EditOf(u.followers), EditOf(u.following), EditOf(u.likes))
  }

  /** `{ ...u, ...p }`: the shallow merge of a patch into a user record. */
  function Merge(u: User, p: Patch): (r: User)
    ensures r.id == u.id
  {
    User(u.id,
         ApplyEdit(u.name, p.name), ApplyEdit(u.username, p.username),
         ApplyEdit(u.email, p.email), ApplyEdit(u.password, p.password),
         ApplyEdit(u.avatar, p.avatar), ApplyEdit(u.role, p.role),
         ApplyEdit(u.coins, p.coins), ApplyEdit(u.isVerified, p.isVerified),
         ApplyEdit(u.verificationStatus, p.verificationStatus),
         ApplyEdit(u.supporterLevel, p.supporterLevel), ApplyEdit(u.earnings, p.earnings),
         ApplyEdit(u.followers, p.followers), ApplyEdit(u.following, p.following),
         ApplyEdit(u.likes, p.likes))
  }

  /** An empty patch leaves the record as it was. */
  lemma MergeEmpty(u: User)
    ensures Merge(u, EmptyPatch) == u
  {
  }

  /** Merging a patch a second time changes nothing: the patch's fields already won. */
  lemma MergeIdempotent(u: User, p: Patch)
    ensures Merge(Merge(u, p), p) == Merge(u, p)
  {
  }

  /** Merging a record into itself is the identity. */
  lemma MergeSelf(u: User)
    ensures Merge(u, AsPatch(u)) == u
  {
  }

  /** A patch that sets exactly one property. */
  function CoinsPatch(n: int): Patch { EmptyPatch.(coins := Put(n)) }
  /** A coins-only patch sets the coins and nothing else. */
  lemma MergeCoins(u: User, n: int)
    ensures Merge(u, CoinsPatch(n)) == u.(coins := Some(n))
  {
  }

  function EmailPatch(e: string): Patch { EmptyPatch.(email := Put(e)) }
  function StatusPatch(s: VerificationStatus): Patch { EmptyPatch.(verificationStatus := Put(s)) }

  /** 'pending' | 'approved' | 'rejected' of a verification request. */
  datatype RequestStatus = Pending | Approved | Rejected

  /** What the verification page hands to `onSubmit`. */
  datatype VerificationDraft = VerificationDraft(
    userId: string,
    userName: Option<string>,
    userAvatar: Option<string>,
    category: string,
    reason: string,
    idFront: Option<string>,
    idBack: Option<string>,
    selfieWithId: Option<string>)

  /**
   * A stored verification request. `isVerified` is not a property the page
   * sets, but the rejection path reads it, so a stored request may carry one.
   */
  datatype VerificationRequest = VerificationRequest(
    id: string,
    draft: VerificationDraft,
    timestamp: int,
    status: RequestStatus,
    isVerified: Option<bool>)

  /** 'pending' | 'completed' | 'rejected' of a withdrawal request. */
  datatype WithdrawalStatus = Awaiting | Completed | Declined

  datatype WithdrawalRequest = WithdrawalRequest(
    id: string, userId: string, amount: int, status: WithdrawalStatus)

  datatype NotificationKind = Reward | Security

  /** The title/description pair of a notification, by what it announces. */
  datatype NotificationText =
    | BadgeGranted
    | VerificationDenied(reason: string)
    | PayoutSent(amount: int)
    | PayoutFailed

  datatype Notification = Notification(
    id: string, userId: string, text: NotificationText, timestamp: int, kind: NotificationKind)

  datatype ActivityKind = Like | Comment | Follow | Mention

  /** An activity-feed entry; `userId` is the user the entry is shown to. */
  datatype Activity = Activity(
    id: string,
    userId: string,
    kind: ActivityKind,
    fromUserId: string,
    fromUserName: Option<string>,
    fromUserAvatar: Option<string>,
    timestamp: int,
    postThumb: Option<string>,
    text: Option<string>)

  datatype Post = Post(id: string, userId: string, thumbnail: Option<string>)

  datatype Room = Room(id: string, title: string)

  /**
   * The 'tikbook_user' slot: empty, a serialised user, or the string
   * "undefined" (what `JSON.stringify(undefined)` leaves behind), which the
   * next `JSON.parse` of the slot rejects.
   */
  datatype SessionSlot = NoUser | Holds(user: User) | Undefined

  /** The slot after `setItem('tikbook_user', JSON.stringify(u))`. */
  function SlotOf(u: Option<User>): (s: SessionSlot)
    ensures u.Some? <==> s.Holds?
    ensures u.Some? ==> s.user == u.value
    ensures u.None? ==> s == Undefined
  {
    match u
    case Some(v) => Holds(v)
    case None => Undefined
  }

  /**
   * The `localStorage` slots, each already parsed. A list field holds what
   * the handlers read from its slot: `[]` where they fall back with
   * `|| '[]'`; for posts and rooms, the lists the controller holds.
   */
  datatype Store = Store(
    allUsers: seq<User>,                          // 'tikbook_all_users'
    userSlot: SessionSlot,                        // 'tikbook_user'
    sessionActive: bool,                          // 'tikbook_session' == 'active'
    verificationRequests: seq<VerificationRequest>, // 'tikbook_verification_requests'
    withdrawalRequests: seq<WithdrawalRequest>,   // 'tikbook_withdrawal_requests'
    notifications: seq<Notification>,             // 'tikbook_notifications'
    activities: seq<Activity>,                    // 'tikbook_activities'
    posts: seq<Post>,                             // 'tikbook_posts'
    rooms: seq<Room>)                             // 'tikbook_rooms'

  /**
   * The errors the modelled code can raise: "User not found", a `JSON.parse`
   * of the "undefined" slot, and the `TypeError` of reading `.id` from an
   * undefined current user.
   */
  datatype Error = UserNotFound | MalformedJson | NoCurrentUser
}
