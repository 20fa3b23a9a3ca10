/**
 * The Startup India registration wizard: company, founder and contact fields over
 * three steps, input normalisation, field validation (as written its guards never
 * fire; the model gates the steps with the corrected test), the step gate, and the
 * payment pipeline that records a paid Startup India application.
 */
module StartupForm {
  import opened Wrappers
  import opened Text
  import Types
  import opened Wizard
  import MockFirebase

  // ---------------------------------------------------------------------
  // Schema
  // ---------------------------------------------------------------------

  /** The keys of the form's `FormData`; the four second-founder keys are optional. */
  datatype StartupField =
    | CompanyName | CompanyType | IncorporationDate | Cin | Pan | Gstin | Sector
    | InnovationType | FounderName1 | FounderEmail1 | FounderMobile1 | FounderPan1
    | FounderName2 | FounderEmail2 | FounderMobile2 | FounderPan2
    | Email | Mobile | AddressLine1 | AddressLine2 | City | State | Pincode

  /** The form's values; an optional key the user never filled is absent (`None`). */
  datatype StartupData = StartupData(
    companyName: string, companyType: string, incorporationDate: string,
    cin: string, pan: string, gstin: string, sector: string, innovationType: string,
    founderName1: string, founderEmail1: string, founderMobile1: string, founderPan1: string,
    founderName2: Option<string>, founderEmail2: Option<string>,
    founderMobile2: Option<string>, founderPan2: Option<string>,
    email: string, mobile: string, addressLine1: string, addressLine2: string,
    city: string, state: string, pincode: string)

  /** `initialData`: every declared field empty, no optional field present. */
  const InitialData := StartupData(
    "", "", "", "", "", "", "", "", "", "", "", "",
    None, None, None, None,
    "", "", "", "", "", "", "")

  predicate IsOptionalField(f: StartupField) {
    f == FounderName2 || f == FounderEmail2 || f == FounderMobile2 || f == FounderPan2
  }

  /** The field's entry in `formData`, `None` when the key is absent. */
  function Lookup(d: StartupData, f: StartupField): Option<string> {
    match f
    case CompanyName => Some(d.companyName)
    case CompanyType => Some(d.companyType)
    case IncorporationDate => Some(d.incorporationDate)
    case Cin => Some(d.cin)
    case Pan => Some(d.pan)
    case Gstin => Some(d.gstin)
    case Sector => Some(d.sector)
    case InnovationType => Some(d.innovationType)
    case FounderName1 => Some(d.founderName1)
    case FounderEmail1 => Some(d.founderEmail1)
    case FounderMobile1 => Some(d.founderMobile1)
    case FounderPan1 => Some(d.founderPan1)
    case FounderName2 => d.founderName2
    case FounderEmail2 => d.founderEmail2
    case FounderMobile2 => d.founderMobile2
    case FounderPan2 => d.founderPan2
    case Email => Some(d.email)
    case Mobile => Some(d.mobile)
    case AddressLine1 => Some(d.addressLine1)
    case AddressLine2 => Some(d.addressLine2)
    case City => Some(d.city)
    case State => Some(d.state)
    case Pincode => Some(d.pincode)
  }

  /** `formData[key]` as the step gate reads it; no step reads an optional key, and
      an absent one reads as empty. */
  function Get(d: StartupData, f: StartupField): string {
    match Lookup(d, f)
    case Some(v) => v
    case None => ""
  }

  /** `{ ...prev, [key]: value }`: that field holds the value, every other keeps its
      entry (present or absent). */
  function Set(d: StartupData, f: StartupField, value: string): (r: StartupData)
    ensures Lookup(r, f) == Some(value)
    ensures forall g :: g != f ==> Lookup(r, g) == Lookup(d, g)
  {
    match f
    case CompanyName => d.(companyName := value)
    case CompanyType => d.(companyType := value)
    case IncorporationDate => d.(incorporationDate := value)
    case Cin => d.(cin := value)
    case Pan => d.(pan := value)
    case Gstin => d.(gstin := value)
    case Sector => d.(sector := value)
    case InnovationType => d.(innovationType := value)
    case FounderName1 => d.(founderName1 := value)
    case FounderEmail1 => d.(founderEmail1 := value)
    case FounderMobile1 => d.(founderMobile1 := value)
    case FounderPan1 => d.(founderPan1 := value)
    case FounderName2 => d.(founderName2 := Some(value))
    case FounderEmail2 => d.(founderEmail2 := Some(value))
    case FounderMobile2 => d.(founderMobile2 := Some(value))
    case FounderPan2 => d.(founderPan2 := Some(value))
    case Email => d.(email := value)
    case Mobile => d.(mobile := value)
    case AddressLine1 => d.(addressLine1 := value)
    case AddressLine2 => d.(addressLine2 := value)
    case City => d.(city := value)
    case State => d.(state := value)
    case Pincode => d.(pincode := value)
  }

  /** The property name of each field in the stored record. */
  function FieldName(f: StartupField): string {
    match f
    case CompanyName => "companyName"
    case CompanyType => "companyType"
    case IncorporationDate => "incorporationDate"
    case Cin => "cin"
    case Pan => "pan"
    case Gstin => "gstin"
    case Sector => "sector"
    case InnovationType => "innovationType"
    case FounderName1 => "founderName1"
    case FounderEmail1 => "founderEmail1"
    case FounderMobile1 => "founderMobile1"
    case FounderPan1 => "founderPan1"
    case FounderName2 => "founderName2"
    case FounderEmail2 => "founderEmail2"
    case FounderMobile2 => "founderMobile2"
    case FounderPan2 => "founderPan2"
    case Email => "email"
    case Mobile => "mobile"
    case AddressLine1 => "addressLine1"
    case AddressLine2 => "addressLine2"
    case City => "city"
    case State => "state"
    case Pincode => "pincode"
  }

  /** Distinct fields have distinct property names, none of them `uploadedFiles`
      or `paymentId`. */
  lemma FieldNameInjective()
    ensures forall f, g :: FieldName(f) == FieldName(g) ==> f == g
    ensures forall f :: FieldName(f) != UploadedFilesKey && FieldName(f) != PaymentIdKey
  {
    forall f, g | FieldName(f) == FieldName(g) ensures f == g {
      var n := FieldName(f);
      assert n[0] == FieldName(g)[0] && n[|n| - 1] == FieldName(g)[|n| - 1];
    }
  }

  /** The keys of `FormData` in declaration order. */
  const AllFields: seq<StartupField> := [
    CompanyName, CompanyType, IncorporationDate, Cin, Pan, Gstin, Sector,
    InnovationType, FounderName1, FounderEmail1, FounderMobile1, FounderPan1,
    FounderName2, FounderEmail2, FounderMobile2, FounderPan2,
    Email, Mobile, AddressLine1, AddressLine2, City, State, Pincode]

  /** The position of a key in `AllFields`. */
  function Position(f: StartupField): nat {
    match f
    case CompanyName => 0
    case CompanyType => 1
    case IncorporationDate => 2
    case Cin => 3
    case Pan => 4
    case Gstin => 5
    case Sector => 6
    case InnovationType => 7
    case FounderName1 => 8
    case FounderEmail1 => 9
    case FounderMobile1 => 10
    case FounderPan1 => 11
    case FounderName2 => 12
    case FounderEmail2 => 13
    case FounderMobile2 => 14
    case FounderPan2 => 15
    case Email => 16
    case Mobile => 17
    case AddressLine1 => 18
    case AddressLine2 => 19
    case City => 20
    case State => 21
    case Pincode => 22
  }

  /** `AllFields` lists every key. */
  lemma AllFieldsListed()
    ensures forall f :: f in AllFields
  {
    forall f ensures f in AllFields {
      assert AllFields[Position(f)] == f;
    }
  }

  /** The present entries of the given fields, keyed by property name. */
  function Entries(fields: seq<StartupField>, d: StartupData): map<string, string>
    decreases |fields|
  {
    if fields == [] then map[]
    else
      var last := fields[|fields| - 1];
      var rest := Entries(fields[..|fields| - 1], d);
      match Lookup(d, last)
      case Some(v) => rest[FieldName(last) := v]
      case None => rest
  }

  /** The entries hold exactly the present fields among those given, and only
      property names as keys. */
  lemma {:induction false} EntriesKeys(fields: seq<StartupField>, d: StartupData)
    ensures forall f :: FieldName(f) in Entries(fields, d) <==> f in fields && Lookup(d, f).Some?
    ensures forall k :: k in Entries(fields, d) ==> k != UploadedFilesKey && k != PaymentIdKey
    decreases |fields|
  {
    FieldNameInjective();
    if fields != [] {
      var init := fields[..|fields| - 1];
      EntriesKeys(init, d);
      assert forall f :: f in fields <==> f in init || f == fields[|fields| - 1];
    }
  }

  /** Each entry holds its own field's value. */
  lemma {:induction false} EntriesValues(fields: seq<StartupField>, d: StartupData)
    ensures forall f :: Lookup(d, f).Some? && FieldName(f) in Entries(fields, d) ==>
      Entries(fields, d)[FieldName(f)] == Lookup(d, f).value
    decreases |fields|
  {
    FieldNameInjective();
    if fields != [] {
      EntriesKeys(fields[..|fields| - 1], d);
      EntriesValues(fields[..|fields| - 1], d);
    }
  }

  /** The form values as a plain object keyed by property name: every declared
      field, and the optional founder fields that are present. */
  function AsValues(d: StartupData): map<string, string> {
    Entries(AllFields, d)
  }

  /** A field's property name is in the object exactly when the field is present,
      with the field's value; the object has no `uploadedFiles` or `paymentId` entry
      of its own. */
  lemma AsValuesLookup(d: StartupData)
    ensures forall f :: (FieldName(f) in AsValues(d) <==> Lookup(d, f).Some?)
    ensures forall f :: FieldName(f) in AsValues(d) ==> AsValues(d)[FieldName(f)] == Lookup(d, f).value
    ensures UploadedFilesKey !in AsValues(d) && PaymentIdKey !in AsValues(d)
  {
    AllFieldsListed();
    EntriesKeys(AllFields, d);
    EntriesValues(AllFields, d);
  }

  /** The document slots, in declaration order; all four must be attached. */
  const Slots: seq<string> := ["aadhaarCard", "panCard", "incorpCert", "addressProof"]

  const SlotNames: set<string> := {"aadhaarCard", "panCard", "incorpCert", "addressProof"}

  const CinMessage := "Invalid CIN format"

  function CinCheck(value: string): (r: Verdict)
    ensures Truthy(r)
    ensures r == Pass <==> IsCin(value)
  {
    if IsCin(value) then Pass else Fail(CinMessage)
  }

  // ---------------------------------------------------------------------
  // Field validation and normalisation
  // ---------------------------------------------------------------------

  /** The fields of the first `case` group, checked with `required`. */
  predicate IsRequiredField(f: StartupField) {
    !IsOptionalField(f) && f != CompanyType && f != Gstin && f != AddressLine2
  }

  /** The verdict of the validator `validateField` routes each field to. The later
      `case` labels for email, founderEmail1, mobile, founderMobile1, PAN,
      founderPan1, CIN and pincode repeat keys of the first group and are never
      reached, so only the second founder's email, mobile and PAN get a format
      check. */
  function RoutedCheck(f: StartupField, value: string): Option<Verdict> {
    match f
    case CompanyName | IncorporationDate | Cin | Pan | Sector | InnovationType
       | FounderName1 | FounderEmail1 | FounderMobile1 | FounderPan1
       | Email | Mobile | AddressLine1 | City | State | Pincode => Some(RequiredCheck(value))
    case FounderEmail2 => Some(EmailCheck(value))
    case FounderMobile2 => Some(MobileCheck(value))
    case FounderPan2 => Some(PanCheck(value))
    case _ => None
  }

  /** `validateField` as written: each guard is `!validators.x(value)`, and a
      validator answers `true` or a non-empty message, both truthy, so no guard
      ever fires. */
  function ValidateFieldAsWritten(f: StartupField, value: string): string {
    match f
    case CompanyName | IncorporationDate | Cin | Pan | Sector | InnovationType
       | FounderName1 | FounderEmail1 | FounderMobile1 | FounderPan1
       | Email | Mobile | AddressLine1 | City | State | Pincode =>
      if !Truthy(RequiredCheck(value)) then MessageOf(RequiredCheck(value)) else ""
    case FounderEmail2 =>
      if !Truthy(EmailCheck(value)) then MessageOf(EmailCheck(value)) else ""
    case FounderMobile2 =>
      if !Truthy(MobileCheck(value)) then MessageOf(MobileCheck(value)) else ""
    case FounderPan2 =>
      if !Truthy(PanCheck(value)) then MessageOf(PanCheck(value)) else ""
    case _ => ""
  }

  /** The validators do reject bad input, but the `validateField` as written drops
      their verdict: a blank required field, a malformed second-founder email, mobile
      or PAN, each gets a message from its validator and the empty string from
      `validateField`, so no step gate would ever block. */
  lemma ValidatorVerdictDropped(f: StartupField, value: string)
    ensures IsRequiredField(f) ==>
      (RoutedCheck(f, value) == Some(Fail(RequiredMessage)) <==> !HasVisible(value))
    ensures f == FounderEmail2 ==> (RoutedCheck(f, value).value.Fail? <==> !IsEmail(value))
    ensures f == FounderMobile2 ==> (RoutedCheck(f, value).value.Fail? <==> !IsIndianMobile(value))
    ensures f == FounderPan2 ==> (RoutedCheck(f, value).value.Fail? <==> !IsPan(value))
    ensures RoutedCheck(f, value).Some? ==> Truthy(RoutedCheck(f, value).value)
    ensures ValidateFieldAsWritten(f, value) == ""
  {
  }

  /** A blank company name: its validator answers "This field is required", the
      `validateField` as written the empty string, the corrected one the message. */
  lemma BlankCompanyNameAccepted()
    ensures RoutedCheck(CompanyName, "") == Some(Fail(RequiredMessage))
    ensures ValidateFieldAsWritten(CompanyName, "") == ""
    ensures ValidateField(CompanyName, "") == RequiredMessage
  {
    assert !HasVisible("");
  }

  /** `validateField` with the test the GST form uses, `v === true ? '' : v`: the
      routed validator's message, or the empty string when it passes or when no
      validator is routed. */
  function ValidateField(f: StartupField, value: string): string {
    match RoutedCheck(f, value)
    case Some(v) => MessageOf(v)
    case None => ""
  }

  /** Which values each field accepts, and the message it shows otherwise. The
      company type, GSTIN, second address line and second founder's name are never
      checked. */
  lemma ValidateFieldTable(f: StartupField, value: string)
    ensures var r := ValidateField(f, value);
      && (IsRequiredField(f) ==>
            (r == "" <==> HasVisible(value)) && (r == "" || r == RequiredMessage))
      && (f == FounderEmail2 ==> (r == "" <==> IsEmail(value)) && (r == "" || r == EmailMessage))
      && (f == FounderMobile2 ==>
            (r == "" <==> IsIndianMobile(value)) && (r == "" || r == MobileMessage))
      && (f == FounderPan2 ==> (r == "" <==> IsPan(value)) && (r == "" || r == PanMessage))
      && (f in {CompanyType, Gstin, AddressLine2, FounderName2} ==> r == "")
  {
  }

  /** Which `validateField` the step gate and the handlers run: the function as
      written, or the corrected one that applies the validators' verdict. */
  datatype Validation = AsWritten | Corrected

  function ValidateWith(mode: Validation, f: StartupField, value: string): string {
    match mode
    case AsWritten => ValidateFieldAsWritten(f, value)
    case Corrected => ValidateField(f, value)
  }

  /** The characters of the PAN and CIN fields are upper-cased and filtered. */
  predicate IsUpperAlnumField(f: StartupField) {
    f == Pan || f == FounderPan1 || f == FounderPan2 || f == Cin
  }

  /** The digit-only fields and how many digits each keeps. */
  function DigitCap(f: StartupField): Option<nat> {
    match f
    case Mobile | FounderMobile1 | FounderMobile2 => Some(10)
    case Pincode => Some(6)
    case _ => None
  }

  /** What `handleChange` stores for a typed value: the PAN and CIN fields
      upper-cased with everything but `[A-Z0-9]` removed (no length cap), the mobile
      fields and the pincode reduced to their digits and cut to their width,
      anything else as typed. */
  function Normalize(f: StartupField, value: string): (r: string)
    ensures IsUpperAlnumField(f) ==>
      && r == KeepUpperAlnum(ToUpperAscii(value))
      && AllUpperAlnum(r) && |r| <= |value|
      && (forall c :: c in r <==> c in ToUpperAscii(value) && IsUpperAlnum(c))
    ensures DigitCap(f).Some? ==>
      && r == Take(KeepDigits(value), DigitCap(f).value)
      && AllDigits(r)
      && |r| <= DigitCap(f).value
      && (forall c :: c in r ==> c in value)
      && (AllDigits(value) && |value| <= DigitCap(f).value ==> r == value)
    ensures !IsUpperAlnumField(f) && DigitCap(f).None? ==> r == value
  {
    if IsUpperAlnumField(f) then KeepUpperAlnum(ToUpperAscii(value))
    else if DigitCap(f).Some? then Take(KeepDigits(value), DigitCap(f).value)
    else value
  }

  /** An already clean PAN or CIN is stored unchanged. */
  lemma NormalizeKeepsCleanCode(f: StartupField, value: string)
    requires IsUpperAlnumField(f) && AllUpperAlnum(value)
    ensures Normalize(f, value) == value
  {
    assert NoLower(value) by {
      forall i | 0 <= i < |value| ensures !IsLower(value[i]) { assert IsUpperAlnum(value[i]); }
    }
  }

  /** Normalising a stored value again changes nothing. */
  lemma NormalizeIdempotent(f: StartupField, value: string)
    ensures Normalize(f, Normalize(f, value)) == Normalize(f, value)
  {
    if IsUpperAlnumField(f) {
      UpperAlnumIdempotent(value);
    } else if DigitCap(f).Some? {
      DigitCapIdempotent(value, DigitCap(f).value);
    }
  }

  // ---------------------------------------------------------------------
  // Steps
  // ---------------------------------------------------------------------

  /** `getStepFields`: the fields the gate of each step checks. */
  function StepFields(step: int): (r: seq<StartupField>)
    ensures step != 1 && step != 2 ==> r == []
  {
    if step == 1 then
      [CompanyName, CompanyType, IncorporationDate, Cin, Pan, Sector, InnovationType,
       FounderName1, FounderEmail1, FounderMobile1, FounderPan1]
    else if step == 2 then [Email, Mobile, AddressLine1, AddressLine2, City, State, Pincode]
    else []
  }

  /** The steps list every declared field except `gstin` once, and no optional one. */
  lemma StepCoverage()
    ensures forall f :: f in StepFields(1) + StepFields(2) <==> !IsOptionalField(f) && f != Gstin
    ensures forall f :: f in StepFields(1) ==> f !in StepFields(2)
  {
  }

  /** All the given fields pass the `validateField` of `mode` (checked from the
      last one back). */
  predicate StepPasses(mode: Validation, fields: seq<StartupField>, d: StartupData)
    decreases |fields|
  {
    || fields == []
    || (&& StepPasses(mode, fields[..|fields| - 1], d)
        && ValidateWith(mode, fields[|fields| - 1], Get(d, fields[|fields| - 1])) == "")
  }

  /** The errors `validateCurrentStep` collects, field by field. */
  function StepErrors(mode: Validation, fields: seq<StartupField>, d: StartupData): map<StartupField, string>
    decreases |fields|
  {
    if fields == [] then map[]
    else
      var last := fields[|fields| - 1];
      var e := ValidateWith(mode, last, Get(d, last));
      var rest := StepErrors(mode, fields[..|fields| - 1], d);
      if e != "" then rest[last := e] else rest
  }

  /** A step passes exactly when every one of its fields validates. */
  lemma {:induction false} StepPassesMeaning(mode: Validation, fields: seq<StartupField>, d: StartupData)
    ensures StepPasses(mode, fields, d) <==> forall f :: f in fields ==> ValidateWith(mode, f, Get(d, f)) == ""
    decreases |fields|
  {
    if fields != [] {
      StepPassesMeaning(mode, fields[..|fields| - 1], d);
      assert forall f :: f in fields <==> f in fields[..|fields| - 1] || f == fields[|fields| - 1];
    }
  }

  /** The collected errors hold one entry per failing field of the step, carrying
      that field's message, and nothing else. */
  lemma {:induction false} StepErrorsMeaning(mode: Validation, fields: seq<StartupField>, d: StartupData)
    ensures var r := StepErrors(mode, fields, d);
      && (forall f :: f in r <==> f in fields && ValidateWith(mode, f, Get(d, f)) != "")
      && (forall f :: f in r ==> r[f] == ValidateWith(mode, f, Get(d, f)))
    decreases |fields|
  {
    if fields != [] {
      StepErrorsMeaning(mode, fields[..|fields| - 1], d);
      assert forall f :: f in fields <==> f in fields[..|fields| - 1] || f == fields[|fields| - 1];
    }
  }

  /** No error is collected exactly when the step passes. */
  lemma StepErrorsEmptyIff(mode: Validation, fields: seq<StartupField>, d: StartupData)
    ensures StepErrors(mode, fields, d) == map[] <==> StepPasses(mode, fields, d)
  {
    StepPassesMeaning(mode, fields, d);
    StepErrorsMeaning(mode, fields, d);
    if StepPasses(mode, fields, d) {
      assert StepErrors(mode, fields, d).Keys == {};
    }
  }

  /** As written, the gate of every step passes on every form and collects no
      error, since `validateField` answers the empty string for every field. */
  lemma {:induction false} AsWrittenGateNeverBlocks(fields: seq<StartupField>, d: StartupData)
    ensures StepPasses(AsWritten, fields, d)
    ensures StepErrors(AsWritten, fields, d) == map[]
    decreases |fields|
  {
    if fields != [] {
      var last := fields[|fields| - 1];
      ValidatorVerdictDropped(last, Get(d, last));
      AsWrittenGateNeverBlocks(fields[..|fields| - 1], d);
    }
  }

  /** On the blank form every required field reads empty and is reported. */
  lemma BlankRequiredFieldReported(f: StartupField)
    requires IsRequiredField(f)
    ensures ValidateField(f, Get(InitialData, f)) == RequiredMessage
  {
    assert Get(InitialData, f) == "";
    assert !HasVisible("");
    ValidateFieldTable(f, "");
  }

  /** Step 1 checks the company type and required fields only, the company name
      among them. */
  lemma StepOneRequired()
    ensures forall f :: f in StepFields(1) ==> f == CompanyType || IsRequiredField(f)
    ensures CompanyName in StepFields(1)
  {
  }

  /** A step of required fields and the company type, read on a form where they are
      all empty, is blocked, and every field but the company type is reported. */
  lemma BlankStepBlocked(fields: seq<StartupField>, d: StartupData)
    requires forall f :: f in fields ==> f == CompanyType || IsRequiredField(f)
    requires CompanyName in fields && d == InitialData
    ensures !StepPasses(Corrected, fields, d)
    ensures var e := StepErrors(Corrected, fields, d);
      && (forall f :: f in e <==> f in fields && f != CompanyType)
      && (forall f :: f in e ==> e[f] == RequiredMessage)
  {
    StepPassesMeaning(Corrected, fields, d);
    StepErrorsMeaning(Corrected, fields, d);
    forall f | f in fields && f != CompanyType
      ensures ValidateField(f, Get(d, f)) == RequiredMessage
    {
      BlankRequiredFieldReported(f);
    }
    assert ValidateField(CompanyType, Get(d, CompanyType)) == "";
    BlankRequiredFieldReported(CompanyName);
  }

  /** The blank form cannot leave step 1: every field of the step but the company
      type is reported as required. */
  lemma InitialStepBlocked()
    ensures !StepPasses(Corrected, StepFields(1), InitialData)
    ensures var e := StepErrors(Corrected, StepFields(1), InitialData);
      && (forall f :: f in e <==> f in StepFields(1) && f != CompanyType)
      && (forall f :: f in e ==> e[f] == RequiredMessage)
  {
    StepOneRequired();
    BlankStepBlocked(StepFields(1), InitialData);
  }

  /** The two gates part on the blank form: as written it leaves step 1 with no
      error shown, corrected it stays there. */
  lemma BlankFormGateDiffers()
    ensures StepPasses(AsWritten, StepFields(1), InitialData)
    ensures StepErrors(AsWritten, StepFields(1), InitialData) == map[]
    ensures !StepPasses(Corrected, StepFields(1), InitialData)
    ensures CompanyName in StepErrors(Corrected, StepFields(1), InitialData)
  {
    AsWrittenGateNeverBlocks(StepFields(1), InitialData);
    InitialStepBlocked();
  }

  /** Checking one more field adds its error, if it has one, to those collected so far,
      and the step so far passes iff it passed before and this field validates. */
  lemma StepErrorsStep(mode: Validation, fields: seq<StartupField>, d: StartupData, i: nat)
    requires i < |fields|
    ensures var e := ValidateWith(mode, fields[i], Get(d, fields[i]));
      && StepErrors(mode, fields[..i + 1], d) ==
           (if e != "" then StepErrors(mode, fields[..i], d)[fields[i] := e] else StepErrors(mode, fields[..i], d))
      && (StepPasses(mode, fields[..i + 1], d) <==> StepPasses(mode, fields[..i], d) && e == "")
  {
    assert fields[..i + 1][..i] == fields[..i];
  }

  /** Every slot is attached. */
  predicate AllAttached(files: map<string, bool>) {
    forall k :: k in Slots ==> k in files && files[k]
  }

  /** The `formData` of the record: the form values, the attached slots and the
      payment id. */
  function StartupFormData(d: StartupData, files: map<string, bool>, paymentId: string)
    : map<string, Types.FieldValue>
  {
    SubmissionData(AsValues(d), AttachedSlots(Slots, files), paymentId)
  }

  /** A submission built from values that hold exactly the present fields, each
      under its property name, records each present field and no absent one. */
  lemma PresentFieldsRecorded(d: StartupData, values: map<string, string>,
                              attached: seq<string>, paymentId: string)
    requires forall f :: FieldName(f) in values <==> Lookup(d, f).Some?
    requires forall f :: FieldName(f) in values ==> values[FieldName(f)] == Lookup(d, f).value
    requires UploadedFilesKey !in values && PaymentIdKey !in values
    ensures var data := SubmissionData(values, attached, paymentId);
      && (forall f :: Lookup(d, f).Some? ==>
            FieldName(f) in data && data[FieldName(f)] == Types.Text(Lookup(d, f).value))
      && (forall f :: Lookup(d, f).None? ==> FieldName(f) !in data)
  {
  }

  /** The recorded `formData` gives back every present form value under its property
      name and has no entry for an absent one, lists the attached slots (all four once
      the document gate has passed) and carries the payment id. */
  lemma StartupFormDataContents(d: StartupData, files: map<string, bool>, paymentId: string)
    ensures var data := StartupFormData(d, files, paymentId);
      && data.Keys == AsValues(d).Keys + {UploadedFilesKey, PaymentIdKey}
      && RecordedValues(data) == AsValues(d)
      && (forall f :: Lookup(d, f).Some? ==>
            FieldName(f) in data && data[FieldName(f)] == Types.Text(Lookup(d, f).value))
      && (forall f :: Lookup(d, f).None? ==> FieldName(f) !in data)
      && data[UploadedFilesKey] == Types.TextList(AttachedSlots(Slots, files))
      && data[PaymentIdKey] == Types.Text(paymentId)
      && (AllAttached(files) ==> data[UploadedFilesKey] == Types.TextList(Slots))
  {
    AsValuesLookup(d);
    SubmissionRoundTrip(AsValues(d), AttachedSlots(Slots, files), paymentId);
    PresentFieldsRecorded(d, AsValues(d), AttachedSlots(Slots, files), paymentId);
  }

  /** The record written after a successful Startup India payment. */
  function StartupRecord(d: StartupData, files: map<string, bool>, paymentId: string,
                         userId: string, now: nat, year: nat, draw: nat): Types.ServiceDocument
    requires draw < 9000
  {
    ServiceRecord(Types.StartupIndia, "Startup India Registration", "SI",
                  StartupFormData(d, files, paymentId), userId, now, year, draw)
  }

  /** The Startup India record is paid, belongs to the user, is stamped with the
      submission time, and carries the form data of `StartupFormDataContents`. */
  lemma StartupRecordContents(d: StartupData, files: map<string, bool>, paymentId: string,
                              userId: string, now: nat, year: nat, draw: nat)
    requires draw < 9000
    ensures var r := StartupRecord(d, files, paymentId, userId, now, year, draw);
      && r.serviceType == Types.StartupIndia && r.title == "Startup India Registration"
      && r.status == Types.Paid && r.userId == userId && r.submittedAt == now
      && r.formData == StartupFormData(d, files, paymentId)
  {
  }

  /** The `fields.forEach` of `validateCurrentStep`: validate each field in turn,
      recording the error of every failing one. */
  method CollectStepErrors(mode: Validation, fields: seq<StartupField>, d: StartupData)
    returns (isValid: bool, newErrors: map<StartupField, string>)
    ensures newErrors == StepErrors(mode, fields, d)
    ensures isValid <==> StepPasses(mode, fields, d)
  {
    newErrors := map[];
    isValid := true;
    var i := 0;
    while i < |fields|
      invariant 0 <= i <= |fields|
      invariant newErrors == StepErrors(mode, fields[..i], d)
      invariant isValid <==> StepPasses(mode, fields[..i], d)
    {
      var key := fields[i];
      StepErrorsStep(mode, fields, d, i);
      var error := ValidateWith(mode, key, Get(d, key));
      if error != "" {
        newErrors := newErrors[key := error];
        isValid := false;
      }
      i := i + 1;
    }
    assert fields[..i] == fields;
  }

  // ---------------------------------------------------------------------
  // The wizard component
  // ---------------------------------------------------------------------

  class StartupWizard {
    /** The `validateField` this component runs: `AsWritten` is the program as it
        stands, `Corrected` the one its validators were meant to drive. */
    const mode: Validation
    var formData: StartupData
    var errors: map<StartupField, string>
    var touched: set<StartupField>
    var currentStep: int
    var uploadedFiles: map<string, bool>
    var captcha: Captcha
    var isSubmitting: bool
    var isSuccess: bool

    /** Every document slot has a flag. */
    ghost predicate Valid()
      reads this
    {
      uploadedFiles.Keys == SlotNames
    }

    /** The mounted form, after its first effect has drawn a captcha. */
    constructor (mode: Validation, draw1: nat, draw2: nat)
      requires draw1 < 10 && draw2 < 10
      ensures this.mode == mode && Valid()
      ensures formData == InitialData && errors == map[] && touched == {}
      ensures currentStep == 1 && uploadedFiles == map k | k in SlotNames :: false
      ensures captcha == GenerateCaptcha(draw1, draw2)
      ensures !isSubmitting && !isSuccess
    {
      this.mode := mode;
      formData := InitialData;
      errors := map[];
      touched := {};
      currentStep := 1;
      uploadedFiles := map k | k in SlotNames :: false;
      captcha := GenerateCaptcha(draw1, draw2);
      isSubmitting := false;
      isSuccess := false;
    }

    /** `generateCaptcha`: new operands, answer cleared. */
    method RefreshCaptcha(draw1: nat, draw2: nat)
      requires draw1 < 10 && draw2 < 10
      modifies this`captcha
      ensures captcha == GenerateCaptcha(draw1, draw2)
    {
      captcha := GenerateCaptcha(draw1, draw2);
    }

    /** Typing into the captcha box. */
    method SetCaptchaAnswer(answer: string)
      modifies this`captcha
      ensures captcha == old(captcha).(userAnswer := answer)
    {
      captcha := captcha.(userAnswer := answer);
    }

    /** `handleFileUpload(key)`: the slot records whether a file was chosen. */
    method HandleFileUpload(key: string, present: bool)
      requires Valid() && key in SlotNames
      modifies this`uploadedFiles
      ensures Valid()
      ensures uploadedFiles == old(uploadedFiles)[key := present]
    {
      uploadedFiles := uploadedFiles[key := present];
    }

    /** `handleChange`: store the normalised value; re-validate it only if the field
        was already touched. */
    method HandleChange(name: StartupField, value: string)
      modifies this`formData, this`errors
      ensures formData == Set(old(formData), name, Normalize(name, value))
      ensures name in touched ==> errors == old(errors)[name := ValidateWith(mode, name, Normalize(name, value))]
      ensures name !in touched ==> errors == old(errors)
      ensures mode == AsWritten && name in touched ==> errors == old(errors)[name := ""]
    {
      var formatted := Normalize(name, value);
      formData := Set(formData, name, formatted);
      if name in touched {
        errors := errors[name := ValidateWith(mode, name, formatted)];
      }
    }

    /** `handleBlur`: mark the field touched and validate the value the input holds. */
    method HandleBlur(name: StartupField, value: string)
      modifies this`touched, this`errors
      ensures touched == old(touched) + {name}
      ensures errors == old(errors)[name := ValidateWith(mode, name, value)]
      ensures mode == AsWritten ==> errors == old(errors)[name := ""]
    {
      touched := touched + {name};
      errors := errors[name := ValidateWith(mode, name, value)];
    }

    /** `validateCurrentStep`: check every field of the current step whatever its
        touched state. On failure, merge the errors of all failing fields and mark
        every field of the step touched; on success change nothing, so stale
        errors of fields that now pass stay shown. As written it always passes
        and changes nothing. */
    method ValidateCurrentStep() returns (isValid: bool)
      modifies this`errors, this`touched
      ensures isValid <==> StepPasses(mode, StepFields(currentStep), formData)
      ensures isValid ==> errors == old(errors) && touched == old(touched)
      ensures !isValid ==>
        && errors == old(errors) + StepErrors(mode, StepFields(currentStep), formData)
        && touched == old(touched) + set f | f in StepFields(currentStep)
      ensures mode == AsWritten ==> isValid && errors == old(errors) && touched == old(touched)
    {
      var fields := StepFields(currentStep);
      if mode == AsWritten {
        AsWrittenGateNeverBlocks(fields, formData);
      }
      var newErrors;
      isValid, newErrors := CollectStepErrors(mode, fields, formData);
      if !isValid {
        errors := errors + newErrors;
        touched := touched + set f | f in fields;
      }
    }

    /** `handleNext`: advance one step only when the current step validates; as
        written, always advance. */
    method HandleNext()
      modifies this`errors, this`touched, this`currentStep
      ensures var passes := StepPasses(mode, StepFields(old(currentStep)), formData);
        && currentStep == old(currentStep) + (if passes then 1 else 0)
        && (passes ==> errors == old(errors) && touched == old(touched))
        && (!passes ==>
              && errors == old(errors) + StepErrors(mode, StepFields(old(currentStep)), formData)
              && touched == old(touched) + set f | f in StepFields(old(currentStep)))
      ensures 1 <= old(currentStep) < 3 ==> 1 <= currentStep <= 3
      ensures mode == AsWritten ==>
        currentStep == old(currentStep) + 1 && errors == old(errors) && touched == old(touched)
    {
      var ok := ValidateCurrentStep();
      if ok {
        currentStep := currentStep + 1;
      }
    }

    /** `handlePrevious`: go back one step unconditionally. */
    method HandlePrevious()
      modifies this`currentStep
      ensures currentStep == old(currentStep) - 1
      ensures 1 < old(currentStep) <= 3 ==> 1 <= currentStep <= 3
    {
      currentStep := currentStep - 1;
    }

    /** The checkout started once every gate has passed: on success the application
        is recorded and the form shows success; a throw clears `isSubmitting`; a
        script that fails to load resolves without calling back. */
    method Checkout(outcome: Types.PaymentOutcome, store: MockFirebase.MockStore,
                    userUid: string, now: nat, year: nat, draw: nat)
      requires draw < 9000
      modifies this`isSubmitting, this`isSuccess, store`docs
      ensures outcome.PaymentSucceeded? ==>
        && store.docs == old(store.docs) +
             [StartupRecord(formData, uploadedFiles, outcome.paymentId, userUid, now, year, draw)]
        && !isSubmitting && isSuccess
      ensures outcome.ScriptFailed? ==> unchanged(store) && isSubmitting && isSuccess == old(isSuccess)
      ensures outcome.Threw? ==> unchanged(store) && !isSubmitting && isSuccess == old(isSuccess)
    {
      isSubmitting := true;
      match outcome {
        case PaymentSucceeded(paymentId) =>
          var doc := StartupRecord(formData, uploadedFiles, paymentId, userUid, now, year, draw);
          store.CreateDocument(doc);
          isSubmitting := false;
          isSuccess := true;
        case ScriptFailed =>
        case Threw =>
          isSubmitting := false;
      }
    }

    /** The last gate of `handleProceedToPayment`, the current step's fields,
        followed by the checkout when it passes. */
    method GateStepThenCheckout(outcome: Types.PaymentOutcome, store: MockFirebase.MockStore,
                                userUid: string, now: nat, year: nat, draw: nat)
      returns (s: Submission)
      requires draw < 9000
      modifies this`errors, this`touched, this`isSubmitting, this`isSuccess, store`docs
      ensures s == InvalidStep || s == PaymentStarted
      ensures mode == AsWritten ==> s == PaymentStarted
      ensures s == PaymentStarted <==> StepPasses(mode, StepFields(currentStep), formData)
      ensures s == InvalidStep ==>
        && unchanged(store)
        && errors == old(errors) + StepErrors(mode, StepFields(currentStep), formData)
        && touched == old(touched) + set f | f in StepFields(currentStep)
        && isSubmitting == old(isSubmitting) && isSuccess == old(isSuccess)
      ensures s == PaymentStarted ==>
        && errors == old(errors) && touched == old(touched)
        && (outcome.PaymentSucceeded? ==>
              && store.docs == old(store.docs) +
                   [StartupRecord(formData, uploadedFiles, outcome.paymentId, userUid, now, year, draw)]
              && !isSubmitting && isSuccess)
        && (outcome.ScriptFailed? ==> unchanged(store) && isSubmitting && isSuccess == old(isSuccess))
        && (outcome.Threw? ==> unchanged(store) && !isSubmitting && isSuccess == old(isSuccess))
    {
      var ok := ValidateCurrentStep();
      if !ok {
        return InvalidStep;
      }
      Checkout(outcome, store, userUid, now, year, draw);
      s := PaymentStarted;
    }

    /** `handleProceedToPayment`: documents, then captcha, then the current step's
        fields; any failure returns before
        anything is submitted. Then the checkout runs: on success the application is
        recorded and the form shows success; a throw clears `isSubmitting`; a
        checkout script that fails to load resolves without calling back, leaving
        `isSubmitting` set. */
    method HandleProceedToPayment(outcome: Types.PaymentOutcome, store: MockFirebase.MockStore,
                                  userUid: string, now: nat, year: nat, draw: nat)
      returns (s: Submission)
      requires draw < 9000
      modifies this, store`docs
      ensures formData == old(formData) && uploadedFiles == old(uploadedFiles)
      ensures captcha == old(captcha) && currentStep == old(currentStep)
      ensures !AllAttached(uploadedFiles) ==>
        s == MissingDocuments && unchanged(this) && unchanged(store)
      ensures AllAttached(uploadedFiles) && !CaptchaSolved(captcha) ==>
        s == WrongCaptcha && unchanged(this) && unchanged(store)
      ensures AllAttached(uploadedFiles) && CaptchaSolved(captcha)
              && !StepPasses(mode, StepFields(currentStep), formData) ==>
        && s == InvalidStep && unchanged(store)
        && errors == old(errors) + StepErrors(mode, StepFields(currentStep), formData)
        && touched == old(touched) + set f | f in StepFields(currentStep)
        && isSubmitting == old(isSubmitting) && isSuccess == old(isSuccess)
      ensures s == PaymentStarted <==>
        AllAttached(uploadedFiles) && CaptchaSolved(captcha) && StepPasses(mode, StepFields(currentStep), formData)
      ensures mode == AsWritten ==> s != InvalidStep
      ensures s == PaymentStarted ==>
        && errors == old(errors) && touched == old(touched)
        && (outcome.PaymentSucceeded? ==>
              && store.docs == old(store.docs) +
                   [StartupRecord(formData, uploadedFiles, outcome.paymentId, userUid, now, year, draw)]
              && !isSubmitting && isSuccess)
        && (outcome.ScriptFailed? ==> unchanged(store) && isSubmitting && isSuccess == old(isSuccess))
        && (outcome.Threw? ==> unchanged(store) && !isSubmitting && isSuccess == old(isSuccess))
    {
      if !AllAttached(uploadedFiles) {
        return MissingDocuments;
      }
      if !CaptchaSolved(captcha) {
        return WrongCaptcha;
      }
      s := GateStepThenCheckout(outcome, store, userUid, now, year, draw);
    }
  }
}
