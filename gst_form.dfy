/**
 * The GST registration wizard: fourteen form fields over three steps (business
 * details, contact and address, documents and captcha), field validation that
 * answers with an error message or the empty string, input normalisation, the
 * step gate, and the payment pipeline that records a paid GST application.
 */
module GstForm {
  import opened Wrappers
  import opened Text
  import Types
  import opened Wizard
  import MockFirebase

  // ---------------------------------------------------------------------
  // Schema
  // ---------------------------------------------------------------------

  /** The keys of the form's `FormData`. */
  datatype GstField =
    | LegalName | Pan | Constitution | TradeName | DateCommencement | Aadhaar
    | Email | Mobile | AltMobile | Address1 | Address2 | City | State | Zip

  /** The form's values, one per field. */
  datatype GstData = GstData(
    legalName: string, pan: string, constitution: string, tradeName: string,
    dateCommencement: string, aadhaar: string, email: string, mobile: string,
    altMobile: string, address1: string, address2: string, city: string,
    state: string, zip: string)

  /** `initialData`: every field empty. */
  const InitialData := GstData("", "", "", "", "", "", "", "", "", "", "", "", "", "")

  /** `formData[key]` */
  function Get(d: GstData, f: GstField): string {
    match f
    case LegalName => d.legalName
    case Pan => d.pan
    case Constitution => d.constitution
    case TradeName => d.tradeName
    case DateCommencement => d.dateCommencement
    case Aadhaar => d.aadhaar
    case Email => d.email
    case Mobile => d.mobile
    case AltMobile => d.altMobile
    case Address1 => d.address1
    case Address2 => d.address2
    case City => d.city
    case State => d.state
    case Zip => d.zip
  }

  /** `{ ...prev, [key]: value }`: that field gets the value, every other keeps its own. */
  function Set(d: GstData, f: GstField, value: string): (r: GstData)
    ensures Get(r, f) == value
    ensures forall g :: g != f ==> Get(r, g) == Get(d, g)
  {
    match f
    case LegalName => d.(legalName := value)
    case Pan => d.(pan := value)
    case Constitution => d.(constitution := value)
    case TradeName => d.(tradeName := value)
    case DateCommencement => d.(dateCommencement := value)
    case Aadhaar => d.(aadhaar := value)
    case Email => d.(email := value)
    case Mobile => d.(mobile := value)
    case AltMobile => d.(altMobile := value)
    case Address1 => d.(address1 := value)
    case Address2 => d.(address2 := value)
    case City => d.(city := value)
    case State => d.(state := value)
    case Zip => d.(zip := value)
  }

  /** The property name of each field in the stored record. */
  function FieldName(f: GstField): string {
    match f
    case LegalName => "legalName"
    case Pan => "pan"
    case Constitution => "constitution"
    case TradeName => "tradeName"
    case DateCommencement => "dateCommencement"
    case Aadhaar => "aadhaar"
    case Email => "email"
    case Mobile => "mobile"
    case AltMobile => "altMobile"
    case Address1 => "address1"
    case Address2 => "address2"
    case City => "city"
    case State => "state"
    case Zip => "zip"
  }

  /** The form values as a plain object keyed by property name. */
  function AsValues(d: GstData): map<string, string> {
    map[
      "legalName" := d.legalName, "pan" := d.pan, "constitution" := d.constitution,
      "tradeName" := d.tradeName, "dateCommencement" := d.dateCommencement,
      "aadhaar" := d.aadhaar, "email" := d.email, "mobile" := d.mobile,
      "altMobile" := d.altMobile, "address1" := d.address1, "address2" := d.address2,
      "city" := d.city, "state" := d.state, "zip" := d.zip]
  }

  /** Each field's value is found under its property name, and the object has no
      `uploadedFiles` or `paymentId` entry of its own. */
  lemma AsValuesLookup(d: GstData)
    ensures forall f :: FieldName(f) in AsValues(d) && AsValues(d)[FieldName(f)] == Get(d, f)
    ensures UploadedFilesKey !in AsValues(d) && PaymentIdKey !in AsValues(d)
  {
  }

  /** The document slots, in declaration order; all four must be attached. */
  const Slots: seq<string> := ["panCard", "aadhaarCard", "addressProof", "bankCheque"]

  const SlotNames: set<string> := {"panCard", "aadhaarCard", "addressProof", "bankCheque"}

  const AadhaarMessage := "Aadhaar must be 12 digits"

  function AadhaarCheck(value: string): (r: Verdict)
    ensures Truthy(r)
  {
    if IsDigitsOfLength(value, 12) then Pass else Fail(AadhaarMessage)
  }

  // ---------------------------------------------------------------------
  // Field validation and normalisation
  // ---------------------------------------------------------------------

  /** The fields checked only for being non-blank. */
  predicate IsRequiredField(f: GstField) {
    f == LegalName || f == Address1 || f == City || f == State || f == Constitution
  }

  /** `validateField`: the empty string when `value` is acceptable for field `f`,
      otherwise the validator's message. */
  function ValidateField(f: GstField, value: string): (r: string)
  {
    match f
    case LegalName | Address1 | City | State | Constitution => MessageOf(RequiredCheck(value))
    case Pan => MessageOf(PanCheck(value))
    case Email => MessageOf(EmailCheck(value))
    case Mobile => MessageOf(MobileCheck(value))
    case Aadhaar => if |value| > 0 then MessageOf(AadhaarCheck(value)) else ""
    case Zip => MessageOf(ZipCheck(value))
    case _ => ""
  }

  /** Which values each field accepts, and the message it shows otherwise. Aadhaar
      is optional: empty is accepted. */
  lemma ValidateFieldTable(f: GstField, value: string)
    ensures var r := ValidateField(f, value);
      && (IsRequiredField(f) ==>
            (r == "" <==> HasVisible(value)) && (r == "" || r == RequiredMessage))
      && (f == Pan ==> (r == "" <==> IsPan(value)) && (r == "" || r == PanMessage))
      && (f == Email ==> (r == "" <==> IsEmail(value)) && (r == "" || r == EmailMessage))
      && (f == Mobile ==>
            (r == "" <==> IsIndianMobile(value)) && (r == "" || r == MobileMessage))
      && (f == Aadhaar ==>
            (r == "" <==> value == "" || IsDigitsOfLength(value, 12)) && (r == "" || r == AadhaarMessage))
      && (f == Zip ==>
            (r == "" <==> IsDigitsOfLength(value, 6)) && (r == "" || r == ZipMessage))
      && (f in {TradeName, DateCommencement, AltMobile, Address2} ==> r == "")
  {
  }

  /** The digit-only fields and how many digits each keeps. */
  function DigitCap(f: GstField): Option<nat> {
    match f
    case Mobile | AltMobile => Some(10)
    case Aadhaar => Some(12)
    case Zip => Some(6)
    case _ => None
  }

  /** What `handleChange` stores for a typed value: the PAN upper-cased and cut to
      ten characters, the phone, Aadhaar and PIN fields reduced to their digits and
      cut to their width, anything else as typed. */
  function Normalize(f: GstField, value: string): (r: string)
    ensures f == Pan ==>
      && |r| == (if |value| < 10 then |value| else 10)
      && NoLower(r)
      && forall i :: 0 <= i < |r| ==> r[i] == UpperChar(value[i])
    ensures DigitCap(f).Some? ==>
      && r == Take(KeepDigits(value), DigitCap(f).value)
      && AllDigits(r)
      && |r| <= DigitCap(f).value
      && (forall c :: c in r ==> c in value)
      && (AllDigits(value) && |value| <= DigitCap(f).value ==> r == value)
    ensures f != Pan && DigitCap(f).None? ==> r == value
  {
    if f == Pan then Take(ToUpperAscii(value), 10)
    else if DigitCap(f).Some? then Take(KeepDigits(value), DigitCap(f).value)
    else value
  }

  /** Normalising a stored value again changes nothing. */
  lemma NormalizeIdempotent(f: GstField, value: string)
    ensures Normalize(f, Normalize(f, value)) == Normalize(f, value)
  {
    if f == Pan {
      UpperCapIdempotent(value, 10);
    } else if DigitCap(f).Some? {
      DigitCapIdempotent(value, DigitCap(f).value);
    }
  }

  // ---------------------------------------------------------------------
  // Steps
  // ---------------------------------------------------------------------

  /** `getStepFields`: the fields the gate of each step checks. */
  function StepFields(step: int): (r: seq<GstField>)
    ensures step != 1 && step != 2 ==> r == []
  {
    if step == 1 then [LegalName, Pan, Constitution]
    else if step == 2 then [Email, Mobile, Address1, City, Zip, State]
    else []
  }

  /** Every field whose validation can fail is gated by step 1 or step 2, except the
      optional Aadhaar number, which no step checks; the two steps share no field. */
  lemma StepCoverage()
    ensures forall f :: (IsRequiredField(f) || f in {Pan, Email, Mobile, Zip}) ==>
      f in StepFields(1) + StepFields(2)
    ensures Aadhaar !in StepFields(1) + StepFields(2)
    ensures forall f :: f in StepFields(1) ==> f !in StepFields(2)
  {
  }

  /** All the given fields pass validation (checked from the last one back). */
  predicate StepPasses(fields: seq<GstField>, d: GstData)
    decreases |fields|
  {
    || fields == []
    || (&& StepPasses(fields[..|fields| - 1], d)
        && ValidateField(fields[|fields| - 1], Get(d, fields[|fields| - 1])) == "")
  }

  /** A step passes exactly when every one of its fields validates. */
  lemma {:induction false} StepPassesMeaning(fields: seq<GstField>, d: GstData)
    ensures StepPasses(fields, d) <==> forall f :: f in fields ==> ValidateField(f, Get(d, f)) == ""
    decreases |fields|
  {
    if fields != [] {
      StepPassesMeaning(fields[..|fields| - 1], d);
      assert forall f :: f in fields <==> f in fields[..|fields| - 1] || f == fields[|fields| - 1];
    }
  }

  /** The errors `validateCurrentStep` collects, field by field. */
  function StepErrors(fields: seq<GstField>, d: GstData): map<GstField, string>
    decreases |fields|
  {
    if fields == [] then map[]
    else
      var last := fields[|fields| - 1];
      var e := ValidateField(last, Get(d, last));
      var rest := StepErrors(fields[..|fields| - 1], d);
      if e != "" then rest[last := e] else rest
  }

  /** The collected errors hold one entry per failing field of the step, carrying
      that field's message, and nothing else. */
  lemma {:induction false} StepErrorsMeaning(fields: seq<GstField>, d: GstData)
    ensures var r := StepErrors(fields, d);
      && (forall f :: f in r <==> f in fields && ValidateField(f, Get(d, f)) != "")
      && (forall f :: f in r ==> r[f] == ValidateField(f, Get(d, f)))
    decreases |fields|
  {
    if fields != [] {
      StepErrorsMeaning(fields[..|fields| - 1], d);
      assert forall f :: f in fields <==> f in fields[..|fields| - 1] || f == fields[|fields| - 1];
    }
  }

  /** No error is collected exactly when the step passes. */
  lemma StepErrorsEmptyIff(fields: seq<GstField>, d: GstData)
    ensures StepErrors(fields, d) == map[] <==> StepPasses(fields, d)
  {
    StepPassesMeaning(fields, d);
    StepErrorsMeaning(fields, d);
    if StepPasses(fields, d) {
      assert StepErrors(fields, d).Keys == {};
    }
  }

  /** Checking one more field adds its error, if it has one, to those collected so far,
      and the step so far passes iff it passed before and this field validates. */
  lemma StepErrorsStep(fields: seq<GstField>, d: GstData, i: nat)
    requires i < |fields|
    ensures var e := ValidateField(fields[i], Get(d, fields[i]));
      && StepErrors(fields[..i + 1], d) ==
           (if e != "" then StepErrors(fields[..i], d)[fields[i] := e] else StepErrors(fields[..i], d))
      && (StepPasses(fields[..i + 1], d) <==> StepPasses(fields[..i], d) && e == "")
  {
    assert fields[..i + 1][..i] == fields[..i];
  }

  /** The blank form cannot leave step 1: legal name, PAN and constitution all fail. */
  lemma InitialStepBlocked()
    ensures !StepPasses(StepFields(1), InitialData)
    ensures StepErrors(StepFields(1), InitialData) ==
      map[LegalName := RequiredMessage, Pan := PanMessage, Constitution := RequiredMessage]
  {
    assert !HasVisible("");
    assert [LegalName, Pan, Constitution][..2] == [LegalName, Pan];
    assert [LegalName, Pan][..1] == [LegalName];
    assert [LegalName][..0] == [];
  }

  /** Every slot is attached. */
  predicate AllAttached(files: map<string, bool>) {
    forall k :: k in Slots ==> k in files && files[k]
  }

  /** The record written after a successful GST payment. */
  function GstRecord(d: GstData, files: map<string, bool>, paymentId: string,
                     userId: string, now: nat, year: nat, draw: nat): Types.ServiceDocument
    requires draw < 9000
  {
    ServiceRecord(Types.Gst, "GST Registration", "GST",
                  SubmissionData(AsValues(d), AttachedSlots(Slots, files), paymentId),
                  userId, now, year, draw)
  }

  /** The GST record is paid, belongs to the user, and its `formData` gives back every
      form value under its property name, the attached slots (all four once the
      document gate has passed) and the payment id. */
  lemma GstRecordContents(d: GstData, files: map<string, bool>, paymentId: string,
                          userId: string, now: nat, year: nat, draw: nat)
    requires draw < 9000
    ensures var r := GstRecord(d, files, paymentId, userId, now, year, draw);
      && r.serviceType == Types.Gst && r.title == "GST Registration" && r.status == Types.Paid
      && r.userId == userId && r.submittedAt == now
      && r.formData.Keys == AsValues(d).Keys + {UploadedFilesKey, PaymentIdKey}
      && RecordedValues(r.formData) == AsValues(d)
      && (forall f :: RecordedValues(r.formData)[FieldName(f)] == Get(d, f))
      && r.formData[UploadedFilesKey] == Types.TextList(AttachedSlots(Slots, files))
      && r.formData[PaymentIdKey] == Types.Text(paymentId)
      && (AllAttached(files) ==> r.formData[UploadedFilesKey] == Types.TextList(Slots))
  {
    AsValuesLookup(d);
    SubmissionRoundTrip(AsValues(d), AttachedSlots(Slots, files), paymentId);
  }

  /** The `fields.forEach` of `validateCurrentStep`: validate each field in turn,
      recording the error of every failing one. */
  method CollectStepErrors(fields: seq<GstField>, d: GstData)
    returns (isValid: bool, newErrors: map<GstField, string>)
    ensures newErrors == StepErrors(fields, d)
    ensures isValid <==> StepPasses(fields, d)
  {
    newErrors := map[];
    isValid := true;
    var i := 0;
    while i < |fields|
      invariant 0 <= i <= |fields|
      invariant newErrors == StepErrors(fields[..i], d)
      invariant isValid <==> StepPasses(fields[..i], d)
    {
      var key := fields[i];
      StepErrorsStep(fields, d, i);
      var error := ValidateField(key, Get(d, key));
      if error != "" {
        newErrors := newErrors[key := error];
        isValid := false;
      }
      i := i + 1;
    }
    assert fields[..i] == fields;
  }

  // ---------------------------------------------------------------------
  // The wizard component
  // ---------------------------------------------------------------------

  class GstWizard {
    var formData: GstData
    var errors: map<GstField, string>
    var touched: set<GstField>
    var currentStep: int
    var uploadedFiles: map<string, bool>
    var captcha: Captcha
    var isSubmitting: bool
    var isSuccess: bool

    /** Every document slot has a flag. */
    ghost predicate Valid()
      reads this
    {
      uploadedFiles.Keys == SlotNames
    }

    /** The mounted form, after its first effect has drawn a captcha. */
    constructor (draw1: nat, draw2: nat)
      requires draw1 < 10 && draw2 < 10
      ensures Valid()
      ensures formData == InitialData && errors == map[] && touched == {}
      ensures currentStep == 1 && uploadedFiles == map k | k in SlotNames :: false
      ensures captcha == GenerateCaptcha(draw1, draw2)
      ensures !isSubmitting && !isSuccess
    {
      formData := InitialData;
      errors := map[];
      touched := {};
      currentStep := 1;
      uploadedFiles := map k | k in SlotNames :: false;
      captcha := GenerateCaptcha(draw1, draw2);
      isSubmitting := false;
      isSuccess := false;
    }

    /** `generateCaptcha`: new operands, answer cleared. */
    method RefreshCaptcha(draw1: nat, draw2: nat)
      requires draw1 < 10 && draw2 < 10
      modifies this`captcha
      ensures captcha == GenerateCaptcha(draw1, draw2)
    {
      captcha := GenerateCaptcha(draw1, draw2);
    }

    /** Typing into the captcha box. */
    method SetCaptchaAnswer(answer: string)
      modifies this`captcha
      ensures captcha == old(captcha).(userAnswer := answer)
    {
      captcha := captcha.(userAnswer := answer);
    }

    /** `handleFileUpload(key)`: the slot records whether a file was chosen. */
    method HandleFileUpload(key: string, present: bool)
      requires Valid() && key in SlotNames
      modifies this`uploadedFiles
      ensures Valid()
      ensures uploadedFiles == old(uploadedFiles)[key := present]
    {
      uploadedFiles := uploadedFiles[key := present];
    }

    /** `handleChange`: store the normalised value; re-validate it only if the field
        was already touched. */
    method HandleChange(name: GstField, value: string)
      modifies this`formData, this`errors
      ensures formData == Set(old(formData), name, Normalize(name, value))
      ensures name in touched ==> errors == old(errors)[name := ValidateField(name, Normalize(name, value))]
      ensures name !in touched ==> errors == old(errors)
    {
      var formatted := Normalize(name, value);
      formData := Set(formData, name, formatted);
      if name in touched {
        errors := errors[name := ValidateField(name, formatted)];
      }
    }

    /** `handleBlur`: mark the field touched and validate the value the input holds. */
    method HandleBlur(name: GstField, value: string)
      modifies this`touched, this`errors
      ensures touched == old(touched) + {name}
      ensures errors == old(errors)[name := ValidateField(name, value)]
    {
      touched := touched + {name};
      errors := errors[name := ValidateField(name, value)];
    }

    /** `validateCurrentStep`: check every field of the current step whatever its
        touched state. On failure, merge the errors of all failing fields and mark
        every field of the step touched; on success change nothing, so stale
        errors of fields that now pass stay shown. */
    method ValidateCurrentStep() returns (isValid: bool)
      modifies this`errors, this`touched
      ensures isValid <==> StepPasses(StepFields(currentStep), formData)
      ensures isValid ==> errors == old(errors) && touched == old(touched)
      ensures !isValid ==>
        && errors == old(errors) + StepErrors(StepFields(currentStep), formData)
        && touched == old(touched) + set f | f in StepFields(currentStep)
    {
      var fields := StepFields(currentStep);
      var newErrors;
      isValid, newErrors := CollectStepErrors(fields, formData);
      if !isValid {
        errors := errors + newErrors;
        touched := touched + set f | f in fields;
      }
    }

    /** `handleNext`: advance one step only when the current step validates. */
    method HandleNext()
      modifies this`errors, this`touched, this`currentStep
      ensures var passes := StepPasses(StepFields(old(currentStep)), formData);
        && currentStep == old(currentStep) + (if passes then 1 else 0)
        && (passes ==> errors == old(errors) && touched == old(touched))
        && (!passes ==>
              && errors == old(errors) + StepErrors(StepFields(old(currentStep)), formData)
              && touched == old(touched) + set f | f in StepFields(old(currentStep)))
      ensures 1 <= old(currentStep) < 3 ==> 1 <= currentStep <= 3
    {
      var ok := ValidateCurrentStep();
      if ok {
        currentStep := currentStep + 1;
      }
    }

    /** `handlePrevious`: go back one step unconditionally. */
    method HandlePrevious()
      modifies this`currentStep
      ensures currentStep == old(currentStep) - 1
      ensures 1 < old(currentStep) <= 3 ==> 1 <= currentStep <= 3
    {
      currentStep := currentStep - 1;
    }

    /** The checkout started once every gate has passed: on success the application
        is recorded and the form shows success; a throw clears `isSubmitting`; a
        script that fails to load resolves without calling back. */
    method Checkout(outcome: Types.PaymentOutcome, store: MockFirebase.MockStore,
                    userUid: string, now: nat, year: nat, draw: nat)
      requires draw < 9000
      modifies this`isSubmitting, this`isSuccess, store`docs
      ensures outcome.PaymentSucceeded? ==>
        && store.docs == old(store.docs) +
             [GstRecord(formData, uploadedFiles, outcome.paymentId, userUid, now, year, draw)]
        && !isSubmitting && isSuccess
      ensures outcome.ScriptFailed? ==> unchanged(store) && isSubmitting && isSuccess == old(isSuccess)
      ensures outcome.Threw? ==> unchanged(store) && !isSubmitting && isSuccess == old(isSuccess)
    {
      isSubmitting := true;
      match outcome {
        case PaymentSucceeded(paymentId) =>
          var doc := GstRecord(formData, uploadedFiles, paymentId, userUid, now, year, draw);
          store.CreateDocument(doc);
          isSubmitting := false;
          isSuccess := true;
        case ScriptFailed =>
        case Threw =>
          isSubmitting := false;
      }
    }

    /** The last gate of `handleProceedToPayment`, the current step's fields,
        followed by the checkout when it passes. */
    method GateStepThenCheckout(outcome: Types.PaymentOutcome, store: MockFirebase.MockStore,
                                userUid: string, now: nat, year: nat, draw: nat)
      returns (s: Submission)
      requires draw < 9000
      modifies this`errors, this`touched, this`isSubmitting, this`isSuccess, store`docs
      ensures s == InvalidStep || s == PaymentStarted
      ensures s == PaymentStarted <==> StepPasses(StepFields(currentStep), formData)
      ensures s == InvalidStep ==>
        && unchanged(store)
        && errors == old(errors) + StepErrors(StepFields(currentStep), formData)
        && touched == old(touched) + set f | f in StepFields(currentStep)
        && isSubmitting == old(isSubmitting) && isSuccess == old(isSuccess)
      ensures s == PaymentStarted ==>
        && errors == old(errors) && touched == old(touched)
        && (outcome.PaymentSucceeded? ==>
              && store.docs == old(store.docs) +
                   [GstRecord(formData, uploadedFiles, outcome.paymentId, userUid, now, year, draw)]
              && !isSubmitting && isSuccess)
        && (outcome.ScriptFailed? ==> unchanged(store) && isSubmitting && isSuccess == old(isSuccess))
        && (outcome.Threw? ==> unchanged(store) && !isSubmitting && isSuccess == old(isSuccess))
    {
      var ok := ValidateCurrentStep();
      if !ok {
        return InvalidStep;
      }
      Checkout(outcome, store, userUid, now, year, draw);
      s := PaymentStarted;
    }

    /** `handleProceedToPayment`: documents, then captcha, then the current step's
        fields; any failure returns before anything is submitted. Then the checkout
        runs: on success the application is recorded and the form shows success; a
        throw clears `isSubmitting`; a checkout script that fails to load resolves
        without calling back, leaving `isSubmitting` set. */
    method HandleProceedToPayment(outcome: Types.PaymentOutcome, store: MockFirebase.MockStore,
                                  userUid: string, now: nat, year: nat, draw: nat)
      returns (s: Submission)
      requires draw < 9000
      modifies this, store`docs
      ensures formData == old(formData) && uploadedFiles == old(uploadedFiles)
      ensures captcha == old(captcha) && currentStep == old(currentStep)
      ensures !AllAttached(uploadedFiles) ==>
        s == MissingDocuments && unchanged(this) && unchanged(store)
      ensures AllAttached(uploadedFiles) && !CaptchaSolved(captcha) ==>
        s == WrongCaptcha && unchanged(this) && unchanged(store)
      ensures AllAttached(uploadedFiles) && CaptchaSolved(captcha)
              && !StepPasses(StepFields(currentStep), formData) ==>
        && s == InvalidStep && unchanged(store)
        && errors == old(errors) + StepErrors(StepFields(currentStep), formData)
        && touched == old(touched) + set f | f in StepFields(currentStep)
        && isSubmitting == old(isSubmitting) && isSuccess == old(isSuccess)
      ensures s == PaymentStarted <==>
        AllAttached(uploadedFiles) && CaptchaSolved(captcha) && StepPasses(StepFields(currentStep), formData)
      ensures s == PaymentStarted ==>
        && errors == old(errors) && touched == old(touched)
        && (outcome.PaymentSucceeded? ==>
              && store.docs == old(store.docs) +
                   [GstRecord(formData, uploadedFiles, outcome.paymentId, userUid, now, year, draw)]
              && !isSubmitting && isSuccess)
        && (outcome.ScriptFailed? ==> unchanged(store) && isSubmitting && isSuccess == old(isSuccess))
        && (outcome.Threw? ==> unchanged(store) && !isSubmitting && isSuccess == old(isSuccess))
    {
      if !AllAttached(uploadedFiles) {
        return MissingDocuments;
      }
      if !CaptchaSolved(captcha) {
        return WrongCaptcha;
      }
      s := GateStepThenCheckout(outcome, store, userUid, now, year, draw);
    }
  }
}
