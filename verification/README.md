# tikbook local backend, in Dafny

TikBook is a single-page social video and live-streaming app. It has no
server: every "backend" operation reads and writes JSON slots in the
browser's `localStorage`. This project models that core as pure functions
over an abstract store:

- the user-collection engine of `services/api.ts`: upsert, list, profile
  patch and coin credit;
- the state handlers of `App.tsx`:
  - login with the fixed admin override;
  - signup;
  - user update;
  - verification submit;
  - the admin verdicts on verification and withdrawal requests;
  - post upload and live start;
- the screen handlers that write the same slots: the live room's chat and
  gift debit, the badge tier table, the activity feed's load and clear, the
  comment sheet's send, the verification page's guards and three-step
  interval, and the settings screen's toggles and code-confirmed email
  change.

How the model is built:

- **Store.** `Records.Store` holds one field per `localStorage` slot, already
  parsed. The request, notification and activity lists read as `[]` when
  their slot is absent, as the `|| '[]'` fallbacks do. The post and room
  lists are the controller's in-memory lists.
- **Session slot.** The 'tikbook_user' slot is a `SessionSlot`. It is empty,
  holds a user, or holds the string "undefined" that
  `JSON.stringify(undefined)` writes. The next `JSON.parse` of that string
  throws. A throw is modelled as `Outcome.Threw`.
- **Users and merges.** A user is an `id` plus optional properties, because
  a property may be missing. A shallow merge `{ ...u, ...p }` is `Merge(u, p)`
  with a `Patch`. A `Patch` field is `Keep` (key absent), `Put(v)`, or `Clear`
  (an explicit `undefined`).
- **JavaScript semantics.** The model states them explicitly:
  - truthiness (`Text.Truthy`);
  - `String.prototype.trim` over the ECMAScript white-space set (`Text.Trim`);
  - `|| default`;
  - `.slice(-20)`;
  - `!value` on a toggle table;
  - the first-match behaviour of `find` and `findIndex`.
- **Timers.** Timers become explicit steps: `Tick` and `Run` for the
  verification page's interval, and `ConfirmVerification` then `TimerFires`
  for the settings timeout.
- **Parameters.** Fresh ids, timestamps, the built-in mock user and the
  answer to `confirm()` are parameters.

A rejected verification sets the owner's `isVerified` to the request's own
`isVerified` (`App.tsx:160`). Requests never carry that field, so the flag is
cleared. `AppHandlers.VerdictOnOwner` and `AppHandlers.SubmitThenResolve`
state this.

## Model

| member | source | states |
|---|---|---|
| Text.LeadingBlanks | pages/LiveRoom.tsx:67 | The count of white-space characters the text starts with: all of them are white space, and the next character, if any, is not. |
| Text.Trim | pages/LiveRoom.tsx:67 | `trim()` returns the slice that starts right after the leading white space, leaves only white space behind it, and neither starts nor ends with white space. |
| Text.TrimEmptyIffBlank | pages/LiveRoom.tsx:67 | `trim()` gives the empty string exactly when every character is JavaScript white space, so `!s.trim()` means "blank". |
| Records.Merge | services/api.ts:21 | A spread merge keeps the record's id. |
| Records.MergeEmpty | services/api.ts:21 | Merging an empty patch leaves the record as it was. |
| Records.MergeIdempotent | services/api.ts:21 | Merging the same patch twice equals merging it once. |
| Records.SlotOf | services/api.ts:46 | Serialising a found user stores that user; serialising `undefined` leaves the unparsable "undefined" slot, and only then. |
| Api.FindIndex | services/api.ts:20 | The index is the first user with the id; there is none exactly when no stored user has the id. |
| Api.Find | services/api.ts:16 | `find` succeeds exactly when some user has the id, and returns the first such user. |
| Api.Upsert | services/api.ts:14-23 | A new id is appended (length grows by one); a known id merges the incoming record into the first match and leaves every other position unchanged. |
| Api.FindAfterUpsert | services/api.ts:14-23 | After an upsert the id is found with the prior first match merged with the incoming record, or as the incoming record when the id was new. |
| Api.SyncUser | services/api.ts:14-24 | Syncing rewrites only the user collection slot. The collection grows by one exactly for a new id, records of other ids stay in place, and the synced id is then found as `FindAfterUpsert` says. |
| Api.GetAllUsers | services/api.ts:29-32 | Listing returns the stored collection unchanged, in stored order. |
| Api.UpsertIdempotent | services/api.ts:14-23 | Syncing the same record twice leaves the collection as syncing it once. |
| Api.ListAfterSync | services/api.ts:14-32 | Listing after a sync finds the synced id with the prior record merged with the incoming one, or the incoming record when the id was new. |
| Api.PatchAll | services/api.ts:39 | The collection keeps its length; records with the id are merged with the patch, every other record is unchanged. |
| Api.FindAfterPatch | services/api.ts:39-42 | Patching keeps the first-match position, and the record found afterwards is the old first match merged with the patch. |
| Api.PatchUnknownIsIdentity | services/api.ts:39 | Patching an id no record has changes nothing. |
| Api.UpdateProfile | services/api.ts:37-50 | The collection is patched; only the collection and session slots change. It throws exactly when the session slot holds "undefined". It returns the merged first match, or nothing for an unknown id. The session slot is mirrored only when it holds a user with the same id. |
| Api.UpdateUnknownId | services/api.ts:37-50 | An unknown id leaves the collection unchanged and returns no user, without raising. |
| Api.UpdateUnknownSessionId | services/api.ts:42-48 | Updating an unknown id that is the session user's id turns the session slot into the unparsable "undefined". |
| Api.CreditFacts | services/api.ts:59-60 | After a credit, the first record with the id holds its old balance (0 when missing) plus the amount. Every record with the id gets that balance and keeps its other properties; other ids' records and the length are unchanged. |
| Api.CreditSetsCoins | services/api.ts:59-60 | Every record with the id takes the first match's old balance plus the amount, and only its balance changes. |
| Api.CreditFinds | services/api.ts:57-60 | After a credit the id is still found, and the found record holds the first match's old balance plus the amount. |
| Api.CreditAt | services/api.ts:57-60 | A credit keeps the first match at the same position and sets that record's balance to its old balance plus the amount. |
| Api.CoinsPatchAt | services/api.ts:39 | Patching the coins of every record with the id keeps the first match's position and gives it the new balance. |
| Api.ChargeCoins | services/api.ts:55-61 | An unknown id throws "User not found" with nothing written. Otherwise the collection is credited (no floor) and only the collection and session slots change. It then throws exactly when the session slot holds "undefined". The session slot takes the returned record only when it holds a user with that id. The returned user is the stored first match. |
| Api.ChargeOfKnownId | services/api.ts:55-61 | For a known id, the `updateProfile` call `chargeCoins` makes writes the credited collection, mirrors into the session slot as above, and returns the stored first match. |
| Api.CreditTwice | services/api.ts:55-61 | Two credits add up: the balance ends at the original plus both amounts. |
| Api.ChargeTwice | services/api.ts:55-61 | Two `chargeCoins` calls on a known id leave its first record with the original balance plus both amounts, even when a negative amount takes it below zero. |
| AppHandlers.AdminUser | App.tsx:90-94 | The admin record has the fixed id, email, role, name, username, balance, verified flag and supporter level. Password, avatar, earnings, verification status, followers, following and likes come from the mock user. |
| AppHandlers.CredentialMatch | App.tsx:103 | The match is the first stored user whose email or username equals the identifier and whose password equals the password; none means no stored user matches. |
| AppHandlers.HandleLogin | App.tsx:87-111 | The admin credentials always log in as the admin, synced into the collection, with the session active and the route set to home. Other credentials log in the first matching stored user. With no match nothing changes. The selected room never changes. |
| AppHandlers.AdminLoginIgnoresStore | App.tsx:89-100 | The admin login yields the same admin user whatever the stored users or session, always with the admin role. |
| AppHandlers.NewUser | App.tsx:113-118 | A signup record has the fresh id, the form's fields, and 10 coins when a referral code is given (0 otherwise). It is a plain user: not verified, at level 1, with zero counters. |
| AppHandlers.HandleSignup | App.tsx:112-124 | Signup syncs the new record, makes it the current user, stores it in the session slot with the session active, and goes home. The selected room is unchanged. |
| AppHandlers.SignupAllowsDuplicateEmail | App.tsx:113-119 | Signing up with an email a stored user already has appends a second record with that email; no uniqueness check exists. |
| AppHandlers.HandleUpdateUser | App.tsx:127-135 | The collection is always patched as `updateProfile` does, and only the collection and session slots and the current user change. The "undefined" slot throws a parse error. An `undefined` current user throws when its id is read, after the write. Only a returned update of the current user's id replaces the current user and the session slot with the stored record (possibly none). Otherwise the current user stays, and the slot changes only where `updateProfile` mirrors. |
| AppHandlers.LoginAgrees | App.tsx:104-107 | Every successful login leaves the current user and 'tikbook_user' holding the same record. |
| AppHandlers.SignupAgrees | App.tsx:120-121 | A signup leaves the current user and 'tikbook_user' holding the same record. |
| AppHandlers.UpdateKeepsAgreement | App.tsx:127-132 | From agreement, an update keeps them agreeing except exactly for the current user's own id with no stored record. That case sets the current user to `undefined` and the slot to "undefined". |
| AppHandlers.NewVerificationRequest | App.tsx:139 | The stored request is the draft with the fresh id and timestamp, status pending, and no `isVerified` of its own. |
| AppHandlers.HandleVerificationSubmit | App.tsx:137-147 | One pending request is always prepended; no slot other than the requests, collection and session slot changes, and route and selected room stay. An `undefined` current user throws with nothing else written. The "undefined" slot throws after the collection marked the user 'pending'. Otherwise the current user and slot become the stored record, or `undefined` and "undefined" for an unstored id. A stored id ends 'pending' in memory and in the slot. |
| AppHandlers.SubmitKeepsAgreement | App.tsx:137-147 | From agreement, a submit keeps the current user and slot agreeing exactly when the current user's id is stored. |
| AppHandlers.RejectionReason | App.tsx:168 | A given non-empty reason is used, otherwise the default reason. |
| AppHandlers.VerdictNotice | App.tsx:164-171 | The notice goes to the request's owner; it is a reward exactly on approval, and a rejection carries the reason. |
| AppHandlers.VerdictPatch | App.tsx:158-161 | The verdict patch touches only the status and `isVerified`: approval puts 'none' and true, rejection puts 'rejected' and an explicit copy of the request's flag. |
| AppHandlers.VerdictPatchEffect | App.tsx:158-162 | Merging a verdict into any record sets exactly its status and `isVerified`, the latter to the request's own value on rejection. |
| AppHandlers.ResolveVerification | App.tsx:149-177 | An unknown request changes nothing. Otherwise the first request with the id takes the verdict's status and the owner's records are patched. Only the request list, collection, session slot, notifications and current user change; route and selected room stay. The call throws exactly on the "undefined" slot or an `undefined` current user. A throw writes no notice; otherwise one is prepended. The current user and slot follow the update as `SessionFollows` says. |
| AppHandlers.VerdictOnOwner | App.tsx:158-162 | Approval marks the owner verified with status 'none'. Rejection sets status 'rejected' and copies the request's own `isVerified`. |
| AppHandlers.VerdictNotifiesOnce | App.tsx:164-174 | A verdict that does not throw grows the notification list by exactly one entry at the front, for the owner, a reward exactly on approval. |
| AppHandlers.VerdictKeepsAgreement | App.tsx:149-162 | From agreement, a verdict keeps the current user and slot agreeing except exactly when the owner is the current user and has no stored record. |
| AppHandlers.SubmitThenResolve | App.tsx:137-162 | Submitting and then deciding that request leaves it first with the verdict's status and the earlier requests behind it. The submitter's record gets the verdict's status; it is verified on approval and has its flag cleared on rejection. |
| AppHandlers.PayoutNotice | App.tsx:188-195 | The withdrawal notice goes to the requester; it is a reward naming the amount on completion, a failure notice otherwise. |
| AppHandlers.ResolveWithdrawal | App.tsx:179-201 | An unknown request changes nothing. Otherwise only the first matching request's status changes, and one notice is prepended. No other slot is written. |
| AppHandlers.WithdrawalKeepsBalances | App.tsx:179-201 | A withdrawal verdict never changes any user's coins. |
| AppHandlers.HandleUploadPost | App.tsx:203-208 | The new post goes to the front of the post list, no other slot changes, and the route returns home. The current user and selected room are unchanged. |
| AppHandlers.HandleStartLive | App.tsx:210-217 | The new room goes to the front of the room list, is selected, and the route opens the room. No other slot changes and the current user is unchanged. |
| LiveRoom.RoomUser | pages/LiveRoom.tsx:29-36 | The room uses the stored user, or the mock user when the slot is empty or fails to parse. |
| LiveRoom.LevelOf | pages/LiveRoom.tsx:72 | The chat level is the supporter level when it is set and non-zero, otherwise 1. |
| LiveRoom.KeepLast | pages/LiveRoom.tsx:75 | `.slice(-20)` keeps the last 20 elements, or all when there are fewer. |
| LiveRoom.SendMessage | pages/LiveRoom.tsx:65-77 | Blank input changes nothing. Otherwise the untrimmed line is appended, the list becomes the last min(n + 1, 20) lines, and the input is cleared; nothing else changes. |
| LiveRoom.ChatOf | pages/LiveRoom.tsx:68-74 | The chat line carries the untrimmed input, the sender's name and chat level, and the fixed noble level 1 and VIP level 5. |
| LiveRoom.SendEndsWithNewLine | pages/LiveRoom.tsx:68-75 | After a send, the chat ends with the new line, preceded by the newest earlier lines, and never exceeds 20 lines. |
| LiveRoom.SendKeepsCap | pages/LiveRoom.tsx:75 | A chat within the cap stays within it after a send. |
| LiveRoom.SelectGift | pages/LiveRoom.tsx:79-95 | A balance below the price refuses the gift and changes nothing. Otherwise: the price is debited from the room's user only; that user goes to the session slot, not the collection; one uncapped gift line is appended; the drawer closes. |
| LiveRoom.GiftKeepsBalanceNonNegative | pages/LiveRoom.tsx:80-84 | A non-negative balance stays non-negative across any gift attempt. |
| LiveRoom.GiftLeavesCollection | pages/LiveRoom.tsx:84-86 | A gift never writes the user collection. |
| LevelBadge.NobleTier | components/LevelBadge.tsx:11-20 | The tier is the highest whose threshold (4, 7, 10, 13, 16, 19, 20) the level reaches, and N1 exactly below 4. |
| LevelBadge.NobleTierMonotone | components/LevelBadge.tsx:11-20 | A higher level never yields a lower tier. |
| LevelBadge.TopTiers | components/LevelBadge.tsx:12-13 | The label is N20 exactly from 20 up, and N19 exactly at 19. |
| LevelBadge.BadgeFor | components/LevelBadge.tsx:22-38 | 'vip' and 'level' show the level itself, and only the default 'noble' kind consults the tier table. |
| ActivityFeed.ViewerId | pages/Activity.tsx:11 | An empty session slot gives no viewer id, a stored user gives that user's id, and the "undefined" slot throws. |
| ActivityFeed.OwnedBy | pages/Activity.tsx:16 | It keeps exactly the stored entries addressed to the viewer. |
| ActivityFeed.NotOwnedBy | pages/Activity.tsx:26 | It keeps exactly the stored entries not addressed to the viewer. |
| ActivityFeed.OwnedByOfConcat | pages/Activity.tsx:16 | The viewer's filter keeps stored order: filtering a concatenation concatenates the filtered parts. |
| ActivityFeed.NotOwnedByOfConcat | pages/Activity.tsx:26 | The clear's filter keeps stored order in the same way. |
| ActivityFeed.FiltersOfSingleton | pages/Activity.tsx:16-26 | A single entry is kept by the viewer's filter exactly when it is addressed to the viewer, and by the other filter exactly when it is not. |
| ActivityFeed.FiltersPartition | pages/Activity.tsx:15-26 | The two filters split the stored entries: together they hold each entry exactly as often as storage does. |
| ActivityFeed.Insert | pages/Activity.tsx:17 | Inserting into a newest-first list keeps it newest first and adds exactly the one entry. |
| ActivityFeed.InsertInFront | pages/Activity.tsx:17 | An entry no older than the list's head can go in front, and the list stays newest first. |
| ActivityFeed.InsertBehind | pages/Activity.tsx:17 | Keeping a newer head in front of the insertion into the tail gives a newest-first list holding the old entries plus the new one. |
| ActivityFeed.PrependNewest | pages/Activity.tsx:17 | An entry no older than any entry of a newest-first list can go in front, and the list stays newest first. |
| ActivityFeed.SortNewestFirst | pages/Activity.tsx:17 | The result is newest first and is a permutation of the input. |
| ActivityFeed.LoadActivities | pages/Activity.tsx:9-20 | Opening the feed throws exactly on the "undefined" slot. Otherwise it shows newest first exactly the stored entries addressed to the viewer. |
| ActivityFeed.LoadIsPermutation | pages/Activity.tsx:15-17 | The shown list holds the viewer's entries exactly as many times as they are stored. |
| ActivityFeed.ClearActivities | pages/Activity.tsx:22-30 | Without confirmation nothing changes. With it, the viewer's entries are dropped from storage, and the others are kept in stored order as the `NotOwnedBy` filter gives them. The shown list is emptied and no other slot changes. |
| ActivityFeed.OwnedByNotOwned | pages/Activity.tsx:16-26 | What the clear keeps contains nothing the viewer's filter selects. |
| ActivityFeed.ReloadAfterClear | pages/Activity.tsx:9-30 | Opening the feed again after a confirmed clear shows nothing. |
| ActivityFeed.ClearKeepsOthers | pages/Activity.tsx:25-27 | The kept entries plus the viewer's entries are the stored entries, with multiplicity. |
| CommentSheet.SheetUser | components/CommentSheet.tsx:21 | The sheet uses the stored user, or the mock user when the slot is empty; the "undefined" slot throws. |
| CommentSheet.CommentActivity | components/CommentSheet.tsx:32-42 | The comment activity is addressed to the post's owner. It names the commenter and carries the post thumbnail and the untrimmed text. |
| CommentSheet.HandleSend | components/CommentSheet.tsx:23-48 | Blank text changes nothing. Otherwise the comment is prepended with 0 likes and the text is cleared. The activity list gains one entry at the front exactly when a post exists and belongs to someone else. |
| CommentSheet.OwnPostIsSilent | components/CommentSheet.tsx:31 | Commenting with no post, or on one's own post, writes nothing to storage. |
| CommentSheet.SendAddsOneActivity | components/CommentSheet.tsx:31-45 | A send adds at most one activity, in front of the unchanged earlier ones, and only one addressed to the post's owner, who is not the commenter. |
| VerificationPage.InitialPage | pages/VerificationRequestPage.tsx:13-25 | The page starts idle at step 0, with the category 'مبدع محتوى', an empty reason and no images. |
| VerificationPage.OrUndefined | pages/VerificationRequestPage.tsx:80-82 | `x \|\| undefined` keeps exactly the truthy image strings. |
| VerificationPage.DraftOf | pages/VerificationRequestPage.tsx:74-83 | The handed-over request carries the user's id, name and avatar, the form's category and untrimmed reason, and the truthy images. |
| VerificationPage.HandleSubmit | pages/VerificationRequestPage.tsx:52-63 | The checks run in order: a pending user is ignored, a missing document refuses, a blank reason refuses. Processing starts exactly when all three checks pass, capturing the request at step 0; a refusal changes nothing. |
| VerificationPage.Tick | pages/VerificationRequestPage.tsx:66-86 | A tick advances the counter and shows it while it is below 3. At 3 it stops the interval, hands over the captured request, and shows success. Ticks after the interval stopped do nothing. |
| VerificationPage.RunSubmitsOnce | pages/VerificationRequestPage.tsx:66-86 | From any reachable processing state, the request is handed over exactly once, on the tick that brings the counter to 3, and never before. The shown step stays among the three steps. |
| VerificationPage.RunIdleAfterSuccess | pages/VerificationRequestPage.tsx:72 | Once the interval is cleared, further time changes nothing and hands nothing over. |
| VerificationPage.StartedImpliesEnabled | pages/VerificationRequestPage.tsx:311-313 | Whatever the handler starts, the button was enabled for. |
| VerificationPage.EnabledDoesNotImplyStarted | pages/VerificationRequestPage.tsx:313 | The button checks only the front image. For a user who is not pending, an enabled press is refused for missing documents exactly when the front is present but the back or the selfie is missing. |
| VerificationPage.ScreenOf | pages/VerificationRequestPage.tsx:90-161 | Success shows first, then processing, then the pending screen for a pending user, and the form otherwise. |
| VerificationPage.FormScreenNeverPending | pages/VerificationRequestPage.tsx:53 | On the form screen, where the button lives, the pending guard never fires. |
| Settings.Negate | pages/Settings.tsx:44 | `!value` turns a switch over, and turns a mode string into a switch that is on exactly when the string is empty. |
| Settings.ToggleHandler | pages/Settings.tsx:43-45 | Toggling negates the entry (an unset entry becomes true), adds only that key, and changes no other entry. |
| Settings.ToggleTwiceRestores | pages/Settings.tsx:43-45 | Toggling a switch twice restores the table. |
| Settings.ToggleMessagingLosesMode | pages/Settings.tsx:40-44 | Toggling an entry holding a mode replaces it with a switch, off for any non-empty mode such as the initial messaging mode. A second toggle flips the switch but never restores the mode. |
| Settings.SetMessaging | pages/Settings.tsx:195 | A mode button sets exactly the messaging entry to that mode. |
| Settings.InitSettings | pages/Settings.tsx:22-33 | The screen uses the stored user or the mock user, and throws on the "undefined" slot. The form email is the user's, or 'user@tikbook.com' when it is missing or empty. The phone is the email only when it contains "01". The dialog starts closed and the timer idle. |
| Settings.HandleSaveAccount | pages/Settings.tsx:47-57 | An email that differs from the user's (a missing one always differs) becomes the pending update and opens the dialog; otherwise nothing changes. |
| Settings.SaveUneditedNeedsCodeIffNoEmail | pages/Settings.tsx:32-49 | Saving a fresh, unedited form asks for a code exactly when the user's email is missing or empty. |
| Settings.ConfirmVerification | pages/Settings.tsx:59-66 | An empty code is refused and changes nothing. Otherwise the timer is armed with the user id and pending update as they are now. |
| Settings.TimerFires | pages/Settings.tsx:66-76 | With the callback present and an update pending, that update is handed over for the captured id and merged into the screen's user. In every case the dialog closes and the code, pending update and timer are cleared. |
| Settings.EmailChangeRoundTrip | pages/Settings.tsx:47-76 | Save, code, confirm and timer in sequence hand exactly the edited email to the callback for the user's id, and leave the screen's user with that email. |
| Settings.CancelModal | pages/Settings.tsx:330 | Cancel hides the dialog and changes nothing else. |
| Settings.CancelDoesNotStopTimer | pages/Settings.tsx:330 | Cancel only hides the dialog; an armed timer still fires and hands over the pending update. |

## Left out

- I/O: JSON text itself is left out. Each slot is modelled as already parsed. A list slot with unparsable contents is not modelled; only the session slot's "undefined" is.
- Asynchrony: the `delay` in `getAllUsers` and the `async`/`await` interleavings are left out. Every handler runs to completion before the next event.
- `Date.now()`, `new Date().toISOString()` and the `u-`, `v-`, `n-` and `act-` id templates are left out. Fresh ids and timestamps are parameters, and ISO timestamps are modelled as integers with the same order.
- `alert` and `confirm` dialogs are left out. A refusal is a result value, and the answer to `confirm()` is a parameter.
- React re-render caching is left out. The upload and live handlers prepend to the stored post and room lists, which assumes the in-memory copies match storage. `refreshAppData` is not modelled.
- Display text is left out. The Arabic notification titles and descriptions are abstracted into `NotificationText`. Gift lines keep only the icon.
- `MOCK_USER`, `GIFTS` (`constants.ts`) and the type declarations (`types.ts`) are not part of this model. The mock user is a parameter.
- `pages/Upload.tsx`, `pages/LiveList.tsx`, `pages/SupporterLevel.tsx` and `index.tsx` are not part of this model.
- File reading (`FileReader`) on the verification page is left out. An upload is modelled as the image becoming a given string.
- Records.Merge: a `Patch` has no `id` field, so a patch that overwrites a user's id is not modelled. No handler of the core sends one.
- LiveRoom.SelectGift: a missing balance stays missing after a gift. The source would hold NaN in memory and `null` in storage, and the model does not tell those apart.
- ActivityFeed.SortNewestFirst: entries with equal timestamps keep their stored order, but the contract does not state this stability; it states only order and permutation.
- VerificationPage.HandleSubmit requires the idle phase. Both other phases render a screen without the button.
- Settings.ConfirmVerification requires that no timer is armed, because the button is disabled while one is.
- Activity timestamps that do not parse as dates (a NaN comparator) are not modelled.
- The fallbacks to `MOCK_POSTS` and `MOCK_ROOMS` (`App.tsx:48`, `App.tsx:65`) when those slots are absent are not modelled. `constants.ts` is not part of this model, so the post and room lists start from whatever the store holds.
- JavaScript numbers are doubles, but coins, prices, levels and timestamps are modelled as unbounded integers. Rounding above 2^53 and non-integer amounts are not modelled.
