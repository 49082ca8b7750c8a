/**
 * The settings screen (`pages/Settings.tsx`): the toggle table, and the
 * email change that waits for a verification code and a timer before it is
 * handed to the update callback.
 */
module Settings {
  import opened Wrappers
  import opened Records
  import Text

  /** A toggle value: the switches hold booleans, 'messaging' holds a mode string. */
  datatype Toggle = Flag(on: bool) | Mode(mode: string)

  /** `!value` in JavaScript: a non-empty mode string is truthy. */
  function Negate(t: Toggle): (r: Toggle)
    ensures r.Flag?
    ensures t.Flag? ==> r.on == !t.on
    ensures t.Mode? ==> (r.on <==> t.mode == "")
  {
    match t
    case Flag(b) => Flag(!b)
    case Mode(s) => Flag(s == "")
  }

  /** The table the screen starts with. */
  function InitialToggles(): map<string, Toggle> {
    map["private_account" := Flag(false), "save_data" := Flag(true), "notifications" := Flag(true),
        "dark_mode" := Flag(false), "messaging" := Mode("everyone")]
  }

  /**
   * `toggleHandler(id)`: the entry becomes the negation of what it held; an
   * entry that was never set reads as `undefined` and becomes true. No other
   * entry changes.
   */
  function ToggleHandler(toggles: map<string, Toggle>, id: string): (r: map<string, Toggle>)
    ensures r.Keys == toggles.Keys + {id}
    ensures id !in toggles ==> r[id] == Flag(true)
    ensures id in toggles ==> r[id] == Negate(toggles[id])
    ensures forall k :: k in toggles && k != id ==> r[k] == toggles[k]
  {
    toggles[id := if id in toggles then Negate(toggles[id]) else Flag(true)]
  }

  /** Toggling a switch twice puts it back. */
  lemma ToggleTwiceRestores(toggles: map<string, Toggle>, id: string)
    requires id in toggles && toggles[id].Flag?
    ensures ToggleHandler(ToggleHandler(toggles, id), id) == toggles
  {
  }

  /**
   * Toggling an entry that holds a mode turns it into a switch, off for any
   * non-empty mode such as the initial 'everyone'; a second toggle flips the
   * switch but never brings the mode back.
   */
  lemma ToggleMessagingLosesMode(toggles: map<string, Toggle>, id: string)
    requires id in toggles && toggles[id].Mode?
    ensures ToggleHandler(toggles, id)[id] == Flag(toggles[id].mode == "")
    ensures ToggleHandler(ToggleHandler(toggles, id), id)[id] == Flag(toggles[id].mode != "")
    ensures ToggleHandler(ToggleHandler(toggles, id), id) != toggles
    ensures ToggleHandler(InitialToggles(), "messaging")["messaging"] == Flag(false)
  {
    assert ToggleHandler(ToggleHandler(toggles, id), id)[id] != toggles[id];
  }

  /** A mode button: `setToggles({...toggles, messaging: mode})`. */
  function SetMessaging(toggles: map<string, Toggle>, mode: string): (r: map<string, Toggle>)
    ensures r.Keys == toggles.Keys + {"messaging"} && r["messaging"] == Mode(mode)
    ensures forall k :: k in toggles && k != "messaging" ==> r[k] == toggles[k]
  {
    toggles["messaging" := Mode(mode)]
  }

  /** The phone placeholder used when the email does not look like a number. */
  const DefaultPhone: string := "+20 100 000 0000"
  /** The email shown when the user has none. */
  const DefaultEmail: string := "user@tikbook.com"

  /** `s.includes(part)`. */
  predicate Contains(s: string, part: string) {
    part <= s || (s != [] && Contains(s[1..], part))
  }

  datatype AccountForm = AccountForm(phone: string, email: string)

  /**
   * The code-confirmation timer: armed with what its callback captured at
   * the click, the user id and the pending update.
   */
  datatype Timer = NoTimer | Armed(userId: string, pending: Option<Patch>)

  datatype SettingsPage = SettingsPage(
    user: User,
    form: AccountForm,
    showModal: bool,
    code: string,
    pending: Option<Patch>,
    timer: Timer)

  /** `isVerifying`: the confirm button is disabled while the timer runs. */
  predicate IsVerifying(p: SettingsPage) { p.timer.Armed? }

  /**
   * Opening the screen: the user is the stored session user or the mock
   * user when the slot is empty (a slot holding "undefined" throws); the
   * form shows the user's email, or the default address when it is missing
   * or empty, and the email as phone only when it contains "01".
   */
  function InitSettings(slot: SessionSlot, mock: User): (r: Outcome<SettingsPage, Error>)
    ensures r.Threw? <==> slot.Undefined?
    ensures r.Returned? ==> r.value.user == (if slot.Holds? then slot.user else mock)
    ensures r.Returned? ==>
      var u := r.value.user;
      && (Text.Truthy(u.email) ==> r.value.form.email == u.email.value)
      && (!Text.Truthy(u.email) ==> r.value.form.email == DefaultEmail)
      && (u.email.Some? && Contains(u.email.value, "01") ==> r.value.form.phone == u.email.value)
      && (!(u.email.Some? && Contains(u.email.value, "01")) ==> r.value.form.phone == DefaultPhone)
    ensures r.Returned? ==> !r.value.showModal && r.value.code == "" && r.value.pending.None? && r.value.timer.NoTimer?
  {
    match slot
    case Undefined => Threw(MalformedJson)
    case NoUser => Returned(PageFor(mock))
    case Holds(u) => Returned(PageFor(u))
  }

  /** The screen's first state for a given user. */
  function PageFor(u: User): SettingsPage {
    var phone := if u.email.Some? && Contains(u.email.value, "01") then u.email.value else DefaultPhone;
    var email := if Text.Truthy(u.email) then u.email.value else DefaultEmail;
    SettingsPage(u, AccountForm(phone, email), false, "", None, NoTimer)
  }

  /**
   * `handleSaveAccount`: when the form's email differs from the user's (a
   * missing email always differs), an email-only update is kept pending and
   * the code dialog opens; otherwise nothing changes.
   */
  function HandleSaveAccount(p: SettingsPage): (r: SettingsPage)
    ensures Some(p.form.email) != p.user.email ==>
      r == p.(pending := Some(EmailPatch(p.form.email)), showModal := true)
    ensures Some(p.form.email) == p.user.email ==> r == p
  {
    if Some(p.form.email) != p.user.email then p.(pending := Some(EmailPatch(p.form.email)), showModal := true)
    else p
  }

  /**
   * On a fresh screen, saving without editing asks for a code exactly when
   * the user's email is missing or empty: the form then shows the default.
   */
  lemma SaveUneditedNeedsCodeIffNoEmail(slot: SessionSlot, mock: User)
    requires !slot.Undefined?
    ensures var p := InitSettings(slot, mock).value;
      HandleSaveAccount(p).pending.Some? <==> !Text.Truthy(p.user.email)
  {
  }

  datatype ConfirmResult = CodeMissing | TimerStarted

  /**
   * `confirmVerification`, pressed while the confirm button is enabled: an
   * empty code is refused; otherwise the timer is armed with the current user
   * id and pending update.
   */
  function ConfirmVerification(p: SettingsPage): (r: (SettingsPage, ConfirmResult))
    requires !IsVerifying(p)
    ensures p.code == "" <==> r.1 == CodeMissing
    ensures r.1 == CodeMissing ==> r.0 == p
    ensures r.1 == TimerStarted ==> r.0 == p.(timer := Armed(p.user.id, p.pending))
  {
    if p.code == "" then (p, CodeMissing) else (p.(timer := Armed(p.user.id, p.pending)), TimerStarted)
  }

  /** The call the timer makes: `onUpdateUser(id, updates)`. */
  datatype UpdateCall = UpdateCall(userId: string, updates: Patch)

  /**
   * The timer firing: when the callback is wired and an update was pending
   * at the click, it is handed to the callback and merged into the screen's
   * user; in every case the dialog closes and the code, the pending update
   * and the timer are cleared. Without an armed timer nothing happens.
   */
  function TimerFires(p: SettingsPage, hasCallback: bool): (r: (SettingsPage, Option<UpdateCall>))
    ensures p.timer.NoTimer? ==> r == (p, None)
    ensures p.timer.Armed? ==>
      && !r.0.showModal && r.0.code == "" && r.0.pending.None? && r.0.timer.NoTimer? && r.0.form == p.form
    ensures p.timer.Armed? && hasCallback && p.timer.pending.Some? ==>
      r.1 == Some(UpdateCall(p.timer.userId, p.timer.pending.value))
      && r.0.user == Merge(p.user, p.timer.pending.value)
    ensures p.timer.Armed? && !(hasCallback && p.timer.pending.Some?) ==> r.1.None? && r.0.user == p.user
  {
    match p.timer
    case NoTimer => (p, None)
    case Armed(id, pending) =>
      var closed := p.(showModal := false, code := "", pending := None, timer := NoTimer);
      if hasCallback && pending.Some? then
        (closed.(user := Merge(p.user, pending.value)), Some(UpdateCall(id, pending.value)))
      else (closed, None)
  }

  /** The cancel button only hides the dialog: the code, the pending update and any armed timer stay. */
  function CancelModal(p: SettingsPage): (r: SettingsPage)
    ensures !r.showModal
    ensures r == p.(showModal := r.showModal)
  {
    p.(showModal := false)
  }

  /**
   * Save, code, confirm and timer in sequence hand exactly the edited email
   * to the callback for the screen's user, and leave the screen's user with
   * that email.
   */
  lemma EmailChangeRoundTrip(p: SettingsPage, code: string)
    requires !IsVerifying(p) && code != ""
    requires Some(p.form.email) != p.user.email
    ensures var saved := HandleSaveAccount(p).(code := code);
      var confirmed := ConfirmVerification(saved);
      var fired := TimerFires(confirmed.0, true);
      && confirmed.1 == TimerStarted
      && fired.1 == Some(UpdateCall(p.user.id, EmailPatch(p.form.email)))
      && fired.0.user.email == Some(p.form.email)
      && fired.0.user.id == p.user.id
      && !fired.0.showModal
  {
  }

  /**
   * Cancelling hides the dialog and nothing else: a timer armed before the
   * cancel still fires and still hands over the pending update.
   */
  lemma CancelDoesNotStopTimer(p: SettingsPage)
    requires p.timer.Armed? && p.timer.pending.Some?
    ensures !CancelModal(p).showModal && CancelModal(p).timer == p.timer && CancelModal(p).pending == p.pending
    ensures TimerFires(CancelModal(p), true).1 == Some(UpdateCall(p.timer.userId, p.timer.pending.value))
  {
  }
}
