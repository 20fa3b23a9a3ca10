/**
 * What the GST and Startup India wizards share: validators that answer `true` or
 * an error message, the arithmetic captcha, the progress status of a step, the
 * list of attached document slots, and the `formData` of the record written after
 * payment.
 */
module Wizard {
  import opened Wrappers
  import opened Text
  import opened Types
  import Helpers

  // ---------------------------------------------------------------------
  // Validators returning `true | message`
  // ---------------------------------------------------------------------

  /** A validator's answer: `true`, or the message string. */
  datatype Verdict = Pass | Fail(message: string)

  /** JavaScript truthiness of a verdict: `true` and every non-empty string are truthy. */
  predicate Truthy(v: Verdict) {
    v.Pass? || v.message != ""
  }

  /** `v === true ? '' : (v as string)` */
  function MessageOf(v: Verdict): (m: string)
    ensures m == "" <==> v == Pass || v == Fail("")
  {
    match v
    case Pass => ""
    case Fail(m) => m
  }

  const RequiredMessage := "This field is required"
  const EmailMessage := "Please enter a valid email address"
  const MobileMessage := "Enter a valid 10-digit mobile number"
  const PanMessage := "Invalid PAN format (e.g., ABCDE1234F)"
  const ZipMessage := "Pincode must be 6 digits"

  /** `required`: passes iff the value has a non-whitespace character. */
  function RequiredCheck(value: string): (r: Verdict)
    ensures Truthy(r)
    ensures r == Pass <==> HasVisible(value)
    ensures r != Pass ==> r == Fail(RequiredMessage)
  {
    TrimNonEmptyIff(value);
    if |Trim(value)| > 0 then Pass else Fail(RequiredMessage)
  }

  function EmailCheck(value: string): (r: Verdict)
    ensures Truthy(r)
  {
    if IsEmail(value) then Pass else Fail(EmailMessage)
  }

  function MobileCheck(value: string): (r: Verdict)
    ensures Truthy(r)
  {
    if IsIndianMobile(value) then Pass else Fail(MobileMessage)
  }

  function PanCheck(value: string): (r: Verdict)
    ensures Truthy(r)
  {
    if IsPan(value) then Pass else Fail(PanMessage)
  }

  function ZipCheck(value: string): (r: Verdict)
    ensures Truthy(r)
  {
    if IsDigitsOfLength(value, 6) then Pass else Fail(ZipMessage)
  }

  // ---------------------------------------------------------------------
  // Captcha
  // ---------------------------------------------------------------------

  datatype Captcha = Captcha(val1: int, val2: int, userAnswer: string)

  /** `generateCaptcha`: two operands `Math.floor(Math.random() * 10) + 1`, whose
      floors are `draw1` and `draw2`, and a cleared answer. */
  function GenerateCaptcha(draw1: nat, draw2: nat): (c: Captcha)
    requires draw1 < 10 && draw2 < 10
    ensures 1 <= c.val1 <= 10 && 1 <= c.val2 <= 10 && c.userAnswer == ""
  {
    Captcha(draw1 + 1, draw2 + 1, "")
  }

  /** `parseInt(captcha.userAnswer) === captcha.val1 + captcha.val2`; NaN never equals. */
  predicate CaptchaSolved(c: Captcha) {
    ParseInt(c.userAnswer) == Some(c.val1 + c.val2)
  }

  /** A blank answer (in particular the cleared answer of a fresh captcha) never passes. */
  lemma BlankAnswerFails(c: Captcha)
    requires !HasVisible(c.userAnswer)
    ensures !CaptchaSolved(c)
  {
    ParseIntOfBlank(c.userAnswer);
  }

  /** Typing the sum in decimal always passes. */
  lemma SumAnswerPasses(c: Captcha)
    requires c.val1 + c.val2 >= 0 && c.userAnswer == NatToString(c.val1 + c.val2)
    ensures CaptchaSolved(c)
  {
    var n: nat := c.val1 + c.val2;
    ParseIntOfNatToString(n);
    assert ParseInt(c.userAnswer) == Some(n);
  }

  /** For `3 + 5`, the answer "8" passes and "7" does not. */
  lemma CaptchaExample()
    ensures CaptchaSolved(Captcha(3, 5, "8"))
    ensures !CaptchaSolved(Captcha(3, 5, "7"))
  {
    assert NatToString(8) == "8";
    SumAnswerPasses(Captcha(3, 5, "8"));
    assert NatToString(7) == "7";
    ParseIntOfNatToString(7);
  }

  // ---------------------------------------------------------------------
  // Progress sidebar
  // ---------------------------------------------------------------------

  datatype StepStatus = Completed | ActiveStep | PendingStep

  /** `getStepStatus`: steps before the current one are completed, the current one
      is active, the later ones are pending. */
  function GetStepStatus(step: int, currentStep: int): (s: StepStatus)
    ensures s == ActiveStep <==> step == currentStep
    ensures s == Completed <==> step < currentStep
  {
    if step < currentStep then Completed
    else if step == currentStep then ActiveStep
    else PendingStep
  }

  /** With the wizard on one of its three steps, the sidebar shows exactly one active
      step, and every completed step comes before every pending one. */
  lemma OneActiveStep(currentStep: int)
    requires 1 <= currentStep <= 3
    ensures exists s :: 1 <= s <= 3 && GetStepStatus(s, currentStep) == ActiveStep
    ensures forall s, t ::
      (GetStepStatus(s, currentStep) == ActiveStep && GetStepStatus(t, currentStep) == ActiveStep) ==> s == t
    ensures forall s, t ::
      (GetStepStatus(s, currentStep) == Completed && GetStepStatus(t, currentStep) == PendingStep) ==> s < t
  {
    assert GetStepStatus(currentStep, currentStep) == ActiveStep;
  }

  // ---------------------------------------------------------------------
  // Documents and the submitted record
  // ---------------------------------------------------------------------

  /** `Object.keys(uploadedFiles).filter(k => uploadedFiles[k])`: the attached slots,
      in the order the slots were declared. */
  function AttachedSlots(order: seq<string>, files: map<string, bool>): (r: seq<string>)
    ensures |r| <= |order|
    ensures forall k :: k in r <==> k in order && k in files && files[k]
    ensures (forall k :: k in order ==> k in files && files[k]) ==> r == order
  {
    if order == [] then []
    else
      var k := order[0];
      (if k in files && files[k] then [k] else []) + AttachedSlots(order[1..], files)
  }

  /** The filter distributes over concatenation of slot lists, so the attached
      slots keep the order in which the slots were declared. */
  lemma {:induction false} AttachedSlotsAppend(a: seq<string>, b: seq<string>, files: map<string, bool>)
    ensures AttachedSlots(a + b, files) == AttachedSlots(a, files) + AttachedSlots(b, files)
  {
    if a == [] {
      assert a + b == b;
    } else {
      assert (a + b)[1..] == a[1..] + b;
      AttachedSlotsAppend(a[1..], b, files);
    }
  }

  /** A single slot is listed exactly when its flag is set. */
  lemma AttachedSlotsSingle(k: string, files: map<string, bool>)
    ensures AttachedSlots([k], files) == (if k in files && files[k] then [k] else [])
  {
    assert [k][1..] == [];
  }

  const UploadedFilesKey := "uploadedFiles"
  const PaymentIdKey := "paymentId"

  /** The form values as `formData` entries. */
  function AsFormData(values: map<string, string>): (r: map<string, FieldValue>)
    ensures r.Keys == values.Keys
    ensures forall k :: k in values ==> r[k] == Text(values[k])
  {
    map k | k in values :: Text(values[k])
  }

  /** `{ ...formData, uploadedFiles, paymentId }`: every form value, then the list of
      attached slots and the payment id. */
  function SubmissionData(values: map<string, string>, attached: seq<string>, paymentId: string)
    : (r: map<string, FieldValue>)
    ensures r.Keys == values.Keys + {UploadedFilesKey, PaymentIdKey}
    ensures r[UploadedFilesKey] == TextList(attached) && r[PaymentIdKey] == Text(paymentId)
    ensures forall k :: k in values && k != UploadedFilesKey && k != PaymentIdKey ==> r[k] == Text(values[k])
  {
    AsFormData(values)[UploadedFilesKey := TextList(attached)][PaymentIdKey := Text(paymentId)]
  }

  /** The form values recorded in a submitted `formData`. */
  function RecordedValues(data: map<string, FieldValue>): map<string, string> {
    map k | k in data && k != UploadedFilesKey && k != PaymentIdKey && data[k].Text? :: data[k].text
  }

  /** A submitted record gives back exactly the form values it was built from, the
      attached slots and the payment id: no key is lost and none is added. */
  lemma SubmissionRoundTrip(values: map<string, string>, attached: seq<string>, paymentId: string)
    requires UploadedFilesKey !in values && PaymentIdKey !in values
    ensures var data := SubmissionData(values, attached, paymentId);
      && RecordedValues(data) == values
      && data[UploadedFilesKey].items == attached
      && data[PaymentIdKey].text == paymentId
  {
    var data := SubmissionData(values, attached, paymentId);
    assert RecordedValues(data).Keys == values.Keys;
  }

  /** The record the wizards hand to `createDocument` after a successful payment. */
  function ServiceRecord(serviceType: ServiceType, title: string, prefix: string,
                         formData: map<string, FieldValue>, userId: string,
                         now: nat, year: nat, draw: nat): ServiceDocument
    requires draw < 9000
  {
    ServiceDocument("DOC-" + NatToString(now), serviceType, title,
                    Helpers.GenerateServiceId(prefix, year, draw), Paid, now, formData, userId)
  }

  /** What a wizard's "Proceed to Payment" did. */
  datatype Submission =
    | MissingDocuments   // alert: not every required document is attached
    | WrongCaptcha       // alert: the math answer is wrong
    | InvalidStep        // the current step's fields failed; errors are shown
    | PaymentStarted     // the checkout was invoked
}
