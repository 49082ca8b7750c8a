/**
 * The verification request page (`pages/VerificationRequestPage.tsx`): the
 * submit guards, the three-step interval that hands the request over, and
 * which screen and button state the page shows.
 */
module VerificationPage {
  import opened Wrappers
  import opened Records
  import Text

  /** The number of processing steps the interval walks through. */
  const StepCount: nat := 3

  /** The default category, the first entry of the category list. */
  const DefaultCategory: string := "مبدع محتوى"

  /** The three uploads, each `null` until a file has been read as a data URL. */
  datatype Images = Images(idFront: Option<string>, idBack: Option<string>, selfie: Option<string>)

  datatype Form = Form(category: string, reason: string)

  /**
   * 'idle' | 'processing' | 'success'. While processing, the interval's own
   * counter and the request it captured at submit time travel with the phase.
   */
  datatype Phase = Idle | Processing(draft: VerificationDraft, counter: nat) | Success

  datatype Page = Page(form: Form, images: Images, phase: Phase, processStep: nat)

  function InitialPage(): (p: Page)
    ensures p.phase.Idle? && p.processStep == 0
    ensures p.form == Form(DefaultCategory, "")
    ensures p.images == Images(None, None, None)
  {
    Page(Form(DefaultCategory, ""), Images(None, None, None), Idle, 0)
  }

  /** `x || undefined`: an empty string is dropped along with a missing one. */
  function OrUndefined(o: Option<string>): (r: Option<string>)
    ensures r.Some? <==> Text.Truthy(o)
    ensures r.Some? ==> r == o
  {
    if Text.Truthy(o) then o else None
  }

  /** All three documents are present. */
  predicate HasAllDocuments(i: Images) {
    Text.Truthy(i.idFront) && Text.Truthy(i.idBack) && Text.Truthy(i.selfie)
  }

  /** The request the interval hands to `onSubmit` once its steps are done. */
  function DraftOf(p: Page, user: User): (d: VerificationDraft)
    ensures d.userId == user.id && d.userName == user.name && d.userAvatar == user.avatar
    ensures d.category == p.form.category && d.reason == p.form.reason
    ensures d.idFront == OrUndefined(p.images.idFront) && d.idBack == OrUndefined(p.images.idBack)
    ensures d.selfieWithId == OrUndefined(p.images.selfie)
  {
    VerificationDraft(user.id, user.name, user.avatar, p.form.category, p.form.reason,
      OrUndefined(p.images.idFront), OrUndefined(p.images.idBack), OrUndefined(p.images.selfie))
  }

  datatype SubmitResult = AlreadyPending | MissingDocuments | MissingReason | Started

  /**
   * `handleSubmit`, pressed on the idle form: a pending user is ignored, a
   * missing document or a whitespace-only reason is refused with an alert,
   * and otherwise processing starts with the interval at step 0.
   */
  function HandleSubmit(p: Page, user: User): (r: (Page, SubmitResult))
    requires p.phase.Idle?
    ensures r.1 != Started ==> r.0 == p
    ensures r.1 == AlreadyPending <==> user.verificationStatus == Some(PendingReview)
    ensures r.1 == MissingDocuments <==> user.verificationStatus != Some(PendingReview) && !HasAllDocuments(p.images)
    ensures r.1 == Started <==>
      user.verificationStatus != Some(PendingReview) && HasAllDocuments(p.images) && !Text.IsBlank(p.form.reason)
    ensures r.1 == Started ==> r.0 == p.(phase := Processing(DraftOf(p, user), 0))
  {
    Text.TrimEmptyIffBlank(p.form.reason);
    if user.verificationStatus == Some(PendingReview) then (p, AlreadyPending)
    else if !HasAllDocuments(p.images) then (p, MissingDocuments)
    else if Text.Trim(p.form.reason) == [] then (p, MissingReason)
    else (p.(phase := Processing(DraftOf(p, user), 0)), Started)
  }

  /**
   * One interval tick: the counter advances; below the step count it becomes
   * the shown step, otherwise the interval stops, the captured request is
   * handed over, and the page turns to success. Once the interval has stopped
   * a tick does nothing.
   */
  function Tick(p: Page): (r: (Page, Option<VerificationDraft>))
    ensures !p.phase.Processing? ==> r == (p, None)
    ensures p.phase.Processing? && p.phase.counter + 1 < StepCount ==>
      r == (p.(phase := p.phase.(counter := p.phase.counter + 1), processStep := p.phase.counter + 1), None)
    ensures p.phase.Processing? && p.phase.counter + 1 >= StepCount ==>
      r == (p.(phase := Success), Some(p.phase.draft))
  {
    match p.phase
    case Processing(d, c) =>
      if c + 1 < StepCount then (p.(phase := Processing(d, c + 1), processStep := c + 1), None)
      else (p.(phase := Success), Some(d))
    case _ => (p, None)
  }

  /** `n` ticks in a row, with every request handed over on the way. */
  function Run(p: Page, n: nat): (Page, seq<VerificationDraft>)
    decreases n
  {
    if n == 0 then (p, [])
    else
      var step := Tick(p);
      var rest := Run(step.0, n - 1);
      (rest.0, (if step.1.Some? then [step.1.value] else []) + rest.1)
  }

  /** The page's reachable shape: the shown step trails the interval's counter and stays below the step count. */
  predicate StepsInRange(p: Page) {
    p.processStep < StepCount && (p.phase.Processing? ==> p.phase.counter == p.processStep)
  }

  /**
   * From the start of processing, the captured request is handed over exactly
   * once, on the third tick, and never before; the shown step never leaves
   * the three steps.
   */
  lemma {:induction false} RunSubmitsOnce(p: Page, n: nat)
    requires p.phase.Processing? && StepsInRange(p)
    ensures var q := Run(p, n).0; var out := Run(p, n).1;
      && StepsInRange(q)
      && (n >= StepCount - p.phase.counter ==> q.phase == Success && out == [p.phase.draft])
      && (n < StepCount - p.phase.counter ==> q.phase.Processing? && q.phase.draft == p.phase.draft && out == [])
    decreases n
  {
    if n > 0 {
      var p1 := Tick(p).0;
      if p.phase.counter + 1 < StepCount {
        RunSubmitsOnce(p1, n - 1);
      } else {
        RunIdleAfterSuccess(p1, n - 1);
      }
    }
  }

  /** Ticks after the interval stopped change nothing. */
  lemma {:induction false} RunIdleAfterSuccess(p: Page, n: nat)
    requires p.phase.Success?
    ensures Run(p, n) == (p, [])
    decreases n
  {
    if n > 0 {
      RunIdleAfterSuccess(p, n - 1);
      assert Tick(p) == (p, None);
      assert [] + Run(p, n - 1).1 == [];
    }
  }

  /** `disabled={submissionState !== 'idle' || !images.idFront}`, negated. */
  predicate SubmitEnabled(p: Page) {
    p.phase.Idle? && Text.Truthy(p.images.idFront)
  }

  /** Whatever the enabled button lets start, the button had to be enabled for. */
  lemma StartedImpliesEnabled(p: Page, user: User)
    requires p.phase.Idle?
    requires HandleSubmit(p, user).1 == Started
    ensures SubmitEnabled(p)
  {
  }

  /**
   * The button checks only the front of the ID: for a user who is not
   * pending, an enabled button is refused for missing documents exactly when
   * the front is there but the back or the selfie is not.
   */
  lemma EnabledDoesNotImplyStarted(p: Page, user: User)
    requires p.phase.Idle? && user.verificationStatus != Some(PendingReview)
    ensures SubmitEnabled(p) && HandleSubmit(p, user).1 == MissingDocuments <==>
      Text.Truthy(p.images.idFront) && !(Text.Truthy(p.images.idBack) && Text.Truthy(p.images.selfie))
  {
  }

  datatype Screen = SuccessScreen | ProcessingScreen | PendingScreen | FormScreen

  /** The screen rendered, in the order the component checks: success, processing, pending, form. */
  function ScreenOf(p: Page, user: User): (s: Screen)
    ensures s == SuccessScreen <==> p.phase.Success?
    ensures s == ProcessingScreen <==> p.phase.Processing?
    ensures s == FormScreen <==> p.phase.Idle? && user.verificationStatus != Some(PendingReview)
  {
    match p.phase
    case Success => SuccessScreen
    case Processing(_, _) => ProcessingScreen
    case Idle => if user.verificationStatus == Some(PendingReview) then PendingScreen else FormScreen
  }

  /** On the form screen, where the button is, the pending guard of the submit handler never fires. */
  lemma FormScreenNeverPending(p: Page, user: User)
    requires ScreenOf(p, user) == FormScreen
    ensures HandleSubmit(p, user).1 != AlreadyPending
  {
  }
}
