/**
 * The MSME registration form: a single page of twelve fields, input normalisation,
 * a one-shot `validate` with boolean validators and a fixed message per field, and
 * the submission that records a paid MSME application with exactly the form values.
 */
module MsmeForm {
  import opened Wrappers
  import opened Text
  import Types
  import opened Wizard
  import MockFirebase

  // ---------------------------------------------------------------------
  // Schema
  // ---------------------------------------------------------------------

  /** The keys of the form's state object. */
  datatype MsmeField =
    | EnterpriseName | OrgType | MajorActivity | SocialCategory | Pan | AadhaarLast4
    | Email | Mobile | AddressLine1 | City | State | Pincode

  /** The form's values, one per field. */
  datatype MsmeData = MsmeData(
    enterpriseName: string, orgType: string, majorActivity: string,
    socialCategory: string, pan: string, aadhaarLast4: string, email: string,
    mobile: string, addressLine1: string, city: string, state: string, pincode: string)

  /** The initial state: every field empty. */
  const InitialData := MsmeData("", "", "", "", "", "", "", "", "", "", "", "")

  /** `formData[key]` */
  function Get(d: MsmeData, f: MsmeField): string {
    match f
    case EnterpriseName => d.enterpriseName
    case OrgType => d.orgType
    case MajorActivity => d.majorActivity
    case SocialCategory => d.socialCategory
    case Pan => d.pan
    case AadhaarLast4 => d.aadhaarLast4
    case Email => d.email
    case Mobile => d.mobile
    case AddressLine1 => d.addressLine1
    case City => d.city
    case State => d.state
    case Pincode => d.pincode
  }

  /** `{ ...prev, [name]: value }`: that field gets the value, every other keeps its own. */
  function Set(d: MsmeData, f: MsmeField, value: string): (r: MsmeData)
    ensures Get(r, f) == value
    ensures forall g :: g != f ==> Get(r, g) == Get(d, g)
  {
    match f
    case EnterpriseName => d.(enterpriseName := value)
    case OrgType => d.(orgType := value)
    case MajorActivity => d.(majorActivity := value)
    case SocialCategory => d.(socialCategory := value)
    case Pan => d.(pan := value)
    case AadhaarLast4 => d.(aadhaarLast4 := value)
    case Email => d.(email := value)
    case Mobile => d.(mobile := value)
    case AddressLine1 => d.(addressLine1 := value)
    case City => d.(city := value)
    case State => d.(state := value)
    case Pincode => d.(pincode := value)
  }

  /** The property name of each field in the stored record. */
  function FieldName(f: MsmeField): string {
    match f
    case EnterpriseName => "enterpriseName"
    case OrgType => "orgType"
    case MajorActivity => "majorActivity"
    case SocialCategory => "socialCategory"
    case Pan => "pan"
    case AadhaarLast4 => "aadhaarLast4"
    case Email => "email"
    case Mobile => "mobile"
    case AddressLine1 => "addressLine1"
    case City => "city"
    case State => "state"
    case Pincode => "pincode"
  }

  /** The form values as a plain object keyed by property name. */
  function AsValues(d: MsmeData): map<string, string> {
    map[
      "enterpriseName" := d.enterpriseName, "orgType" := d.orgType,
      "majorActivity" := d.majorActivity, "socialCategory" := d.socialCategory,
      "pan" := d.pan, "aadhaarLast4" := d.aadhaarLast4, "email" := d.email,
      "mobile" := d.mobile, "addressLine1" := d.addressLine1, "city" := d.city,
      "state" := d.state, "pincode" := d.pincode]
  }

  /** Each field's value is found under its property name, and the object has no
      `uploadedFiles` or `paymentId` entry. */
  lemma AsValuesLookup(d: MsmeData)
    ensures forall f :: FieldName(f) in AsValues(d) && AsValues(d)[FieldName(f)] == Get(d, f)
    ensures UploadedFilesKey !in AsValues(d) && PaymentIdKey !in AsValues(d)
  {
  }

  // ---------------------------------------------------------------------
  // Normalisation
  // ---------------------------------------------------------------------

  /** The digit-only fields and how many digits each keeps. */
  function DigitCap(f: MsmeField): Option<nat> {
    match f
    case Mobile => Some(10)
    case AadhaarLast4 => Some(4)
    case Pincode => Some(6)
    case _ => None
  }

  /** What `handleChange` stores for a typed value: the PAN upper-cased and cut to
      ten characters, the mobile, Aadhaar suffix and pincode reduced to their digits
      and cut to their width, anything else as typed. */
  function Normalize(f: MsmeField, value: string): (r: string)
    ensures f == Pan ==>
      && |r| == (if |value| < 10 then |value| else 10)
      && NoLower(r)
      && forall i :: 0 <= i < |r| ==> r[i] == UpperChar(value[i])
    ensures DigitCap(f).Some? ==>
      && r == Take(KeepDigits(value), DigitCap(f).value)
      && AllDigits(r)
      && |r| <= DigitCap(f).value
      && (forall c :: c in r ==> c in value)
      && (AllDigits(value) && |value| <= DigitCap(f).value ==> r == value)
    ensures f != Pan && DigitCap(f).None? ==> r == value
  {
    if f == Pan then Take(ToUpperAscii(value), 10)
    else if DigitCap(f).Some? then Take(KeepDigits(value), DigitCap(f).value)
    else value
  }

  /** Normalising a stored value again changes nothing. */
  lemma NormalizeIdempotent(f: MsmeField, value: string)
    ensures Normalize(f, Normalize(f, value)) == Normalize(f, value)
  {
    if f == Pan {
      UpperCapIdempotent(value, 10);
    } else if DigitCap(f).Some? {
      DigitCapIdempotent(value, DigitCap(f).value);
    }
  }

  // ---------------------------------------------------------------------
  // Validation
  // ---------------------------------------------------------------------

  /** The fields checked only for being non-blank. */
  predicate IsRequiredField(f: MsmeField) {
    f in {EnterpriseName, OrgType, MajorActivity, SocialCategory, AddressLine1, City, State}
  }

  /** The fixed message of each field. */
  function Message(f: MsmeField): string {
    match f
    case EnterpriseName => "Enterprise name is required"
    case OrgType => "Organisation type is required"
    case MajorActivity => "Major activity is required"
    case SocialCategory => "Social category is required"
    case Pan => PanMessage
    case AadhaarLast4 => "Enter last 4 digits of Aadhaar"
    case Email => "Invalid email address"
    case Mobile => "Enter valid 10-digit mobile number"
    case AddressLine1 => "Address line 1 is required"
    case City => "City is required"
    case State => "State is required"
    case Pincode => ZipMessage
  }

  /** The boolean validator each field is checked with. */
  predicate Accepts(f: MsmeField, value: string) {
    match f
    case EnterpriseName | OrgType | MajorActivity | SocialCategory
       | AddressLine1 | City | State => |Trim(value)| > 0
    case Pan => IsPan(value)
    case AadhaarLast4 => IsDigitsOfLength(value, 4)
    case Email => IsEmail(value)
    case Mobile => IsIndianMobile(value)
    case Pincode => IsDigitsOfLength(value, 6)
  }

  /** The regular expression or blank test behind each field's validator. */
  lemma AcceptsMeaning(f: MsmeField, value: string)
    ensures IsRequiredField(f) ==> (Accepts(f, value) <==> HasVisible(value))
    ensures f == Pan ==> (Accepts(f, value) <==> IsPan(value))
    ensures f == AadhaarLast4 ==> (Accepts(f, value) <==> |value| == 4 && AllDigits(value))
    ensures f == Email ==> (Accepts(f, value) <==> IsEmail(value))
    ensures f == Mobile ==> (Accepts(f, value) <==> IsIndianMobile(value))
    ensures f == Pincode ==> (Accepts(f, value) <==> |value| == 6 && AllDigits(value))
  {
    TrimNonEmptyIff(value);
  }

  /** The error map `validate` builds from its twelve checks: one entry per failing
      field, holding that field's message. */
  function ValidationErrors(d: MsmeData): (r: map<MsmeField, string>)
    ensures forall f :: f in r <==> !Accepts(f, Get(d, f))
    ensures forall f :: f in r ==> r[f] == Message(f)
  {
    map f | !Accepts(f, Get(d, f)) :: Message(f)
  }

  /** The form is accepted exactly when every field passes its validator. */
  lemma ValidationErrorsEmptyIff(d: MsmeData)
    ensures ValidationErrors(d) == map[] <==> forall f :: Accepts(f, Get(d, f))
  {
    if forall f :: Accepts(f, Get(d, f)) {
      assert ValidationErrors(d).Keys == {};
    }
  }

  /** The blank form is rejected on every one of its twelve fields. */
  lemma InitialDataRejected()
    ensures forall f :: f in ValidationErrors(InitialData)
  {
    assert !HasVisible("");
    forall f ensures !Accepts(f, Get(InitialData, f)) {
      AcceptsMeaning(f, "");
    }
  }

  // ---------------------------------------------------------------------
  // The submitted record
  // ---------------------------------------------------------------------

  /** The record written after a successful MSME payment: its `formData` is the
      form values and nothing else. */
  function MsmeRecord(d: MsmeData, userId: string, now: nat, year: nat, draw: nat): Types.ServiceDocument
    requires draw < 9000
  {
    ServiceRecord(Types.Msme, "MSME Registration", "MSME", AsFormData(AsValues(d)),
                  userId, now, year, draw)
  }

  /** The MSME record is paid, belongs to the user, and its `formData` holds every
      form value under its property name, with no `uploadedFiles` or `paymentId`. */
  lemma MsmeRecordContents(d: MsmeData, userId: string, now: nat, year: nat, draw: nat)
    requires draw < 9000
    ensures var r := MsmeRecord(d, userId, now, year, draw);
      && r.serviceType == Types.Msme && r.title == "MSME Registration" && r.status == Types.Paid
      && r.userId == userId && r.submittedAt == now
      && r.formData.Keys == AsValues(d).Keys
      && UploadedFilesKey !in r.formData && PaymentIdKey !in r.formData
      && RecordedValues(r.formData) == AsValues(d)
      && (forall f :: r.formData[FieldName(f)] == Types.Text(Get(d, f)))
  {
    AsValuesLookup(d);
    var data := AsFormData(AsValues(d));
    assert RecordedValues(data).Keys == AsValues(d).Keys;
  }

  // ---------------------------------------------------------------------
  // The form component
  // ---------------------------------------------------------------------

  class MsmeWizard {
    var formData: MsmeData
    var errors: map<MsmeField, string>
    var isSubmitting: bool
    var isSuccess: bool

    /** The mounted form. */
    constructor ()
      ensures formData == InitialData && errors == map[]
      ensures !isSubmitting && !isSuccess
    {
      formData := InitialData;
      errors := map[];
      isSubmitting := false;
      isSuccess := false;
    }

    /** `handleChange`: store the normalised value; errors are left alone. */
    method HandleChange(name: MsmeField, value: string)
      modifies this`formData
      ensures formData == Set(old(formData), name, Normalize(name, value))
    {
      formData := Set(formData, name, Normalize(name, value));
    }

    /** `validate`: replace the error map by the errors of the current values, and
        answer whether there are none. */
    method Validate() returns (ok: bool)
      modifies this`errors
      ensures errors == ValidationErrors(formData)
      ensures ok <==> errors == map[]
    {
      var newErrors := ValidationErrors(formData);
      errors := newErrors;
      ok := |newErrors.Keys| == 0;
      assert ok <==> newErrors.Keys == {};
    }

    /** `handleSubmit`: an invalid form returns at once, with the errors shown and no
        payment started. A valid one starts the checkout; on success the record is
        written and the form shows success; whatever the outcome, `finally` clears
        `isSubmitting`. */
    method HandleSubmit(outcome: Types.PaymentOutcome, store: MockFirebase.MockStore,
                        userUid: string, now: nat, year: nat, draw: nat)
      returns (submitted: bool)
      requires draw < 9000
      modifies this`errors, this`isSubmitting, this`isSuccess, store`docs
      ensures errors == ValidationErrors(formData)
      ensures submitted <==> errors == map[]
      ensures !submitted ==>
        unchanged(store) && isSubmitting == old(isSubmitting) && isSuccess == old(isSuccess)
      ensures submitted ==> !isSubmitting
      ensures submitted && outcome.PaymentSucceeded? ==>
        store.docs == old(store.docs) + [MsmeRecord(formData, userUid, now, year, draw)] && isSuccess
      ensures submitted && !outcome.PaymentSucceeded? ==>
        unchanged(store) && isSuccess == old(isSuccess)
    {
      var ok := Validate();
      if !ok {
        return false;
      }
      isSubmitting := true;
      match outcome {
        case PaymentSucceeded(_) =>
          store.CreateDocument(MsmeRecord(formData, userUid, now, year, draw));
          isSuccess := true;
        case ScriptFailed =>
        case Threw =>
      }
      isSubmitting := false;
      submitted := true;
    }
  }
}
