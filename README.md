# regibiz registration core in Dafny

This project models the client-side core of regibiz, a portal where Indian
businesses file registrations:

- **The browser-side mock backend** (`mockFirebase.ts`). It holds a list of
  users, a list of submitted service documents and the signed-in user. It
  provides e-mail login, OTP login with auto-registration, logout, the
  per-user document list, document creation, and the admin operations: role
  change, block toggle and invitation.
- **The helper functions** (`helpers.ts`). These are the role predicates and
  the `USR-…` and `{prefix}-…` identifier generators.
- **Three registration forms**:
  - **GST**: a three-step wizard.
  - **Startup India**: a three-step wizard.
  - **MSME**: a single page.

  Each form has:
  - field validators that answer `true`, a message or a boolean;
  - input normalisation (upper-casing, digit filtering, length caps);
  - the step gate (`validateCurrentStep`) with its `errors` and `touched` maps;
  - the arithmetic captcha, which is read back with `parseInt`;
  - the document-slot checklist;
  - the payment pipeline. A successful checkout writes a paid `ServiceDocument`
    whose `formData` holds the form values, the attached slots and the payment id.

Each source file becomes one module:

| file | models | form |
|---|---|---|
| `wrappers.dfy` | `Option`, `Result` | |
| `text.dfy` | the JavaScript string operations the core relies on: `trim`, `toUpperCase`, `replace(/\D/g,'')`, `replace(/[^A-Z0-9]/g,'')`, `slice`, the validators' regular expressions, `${n}` and `parseInt` | |
| `types.dfy` | roles, statuses, `UserProfile`, `ServiceDocument`, and the outcome of a checkout | |
| `helpers.dfy` | `helpers.ts` | pure |
| `mock_firebase.dfy` | `mockFirebase.ts` | class `MockStore` |
| `wizard.dfy` | validators, captcha, step status and the submitted record, shared by the GST and Startup India forms | pure |
| `gst_form.dfy` | the GST form | class `GstWizard` |
| `startup_form.dfy` | the Startup India form | class `StartupWizard` |
| `msme_form.dfy` | the MSME form | class `MsmeWizard` |

Each React component becomes a class:
- its `useState` variables are the class's fields;
- its handlers are methods that reassign those fields.

The mock store's `localStorage` keys are fields of `MockStore`. A wizard that
submits is handed the store and appends to its `docs`.

Some inputs come from the environment and are parameters here:
- `Math.random` becomes a `draw` below the source's range;
- `Date.now()` becomes `now`, and `getFullYear()` becomes `year`;
- `Math.random().toString(36)`, the invite token, becomes `token`;
- the checkout becomes a `PaymentOutcome`:
  - `PaymentSucceeded(id)`: the callback ran;
  - `ScriptFailed`: the promise resolved without calling back, because the
    script did not load or the modal was dismissed;
  - `Threw`: the promise rejected.

Two facts the proofs rest on:

- **GST and Startup India leave `isSubmitting` set when no callback comes.**
  These forms clear `isSubmitting` only in the success callback or the `catch`.
  The MSME form clears it in `finally`.
- **The Startup India `validateField` never reports an error as written.**
  Every guard is `!validators.x(value)`. Its validators answer `true` or a
  non-empty message, and both are truthy, so no guard fires. This is recorded
  under "## Findings" below.
  - The step gate, its `forEach` loop and the wizard take a `Validation`
    mode. `AsWritten` runs the function as it stands: the gate always passes
    and collects nothing, `handleNext` always advances, and blur and change
    store `''`. `Corrected` runs the test the GST form uses,
    `v === true ? '' : v`: the blank form cannot leave step 1.
  - The corrected test keeps the source's routing of the switch. In that
    switch, the later `case` labels for `email`, `founderEmail1`, `mobile`,
    `founderMobile1`, `pan`, `founderPan1`, `cin` and `pincode` repeat keys of
    the first group and are never reached. So only the second founder's email,
    mobile and PAN get a format check.

## Model

| member | source | states |
|---|---|---|
| Helpers.CanViewAdminPanel | client/utils/helpers.ts:28-33 | the admin panel is open exactly to the super admin and admin roles, never to support or customers |
| Helpers.CanInvite | client/utils/helpers.ts:21-26 | inviting is allowed exactly to the super admin and admin roles |
| Helpers.CanInviteIsCanViewAdminPanel | client/utils/helpers.ts:21-33 | the two permissions are granted to the same roles |
| Helpers.UserIdLayout | client/utils/helpers.ts:8-13 | a user id is `USR-`, the year and a dash, then a counter that always has exactly three digits (100..999). The year and the counter read back from their places |
| Helpers.ServiceIdLayout | client/utils/helpers.ts:15-19 | a service id is the prefix, a dash, the year and a dash, then a counter that always has exactly four digits (1000..9999). Both numbers read back from their places |
| Text.TrimNonEmptyIff | client/services/gst-registration-form.tsx:12 | `value.trim().length > 0` holds exactly when the value has a character outside JavaScript's whitespace class |
| Text.KeepDigits | client/services/gst-registration-form.tsx:471 | `replace(/\D/g,'')` yields only digits, no more characters than the input, a character exactly when it is a digit of the input, and leaves a digit string unchanged |
| Text.KeepDigitsAppend | client/services/gst-registration-form.tsx:471 | filtering a concatenation is concatenating the filtered parts, so the kept digits keep their order and multiplicity |
| Text.KeepDigitsChar | client/services/gst-registration-form.tsx:471 | one character is kept exactly when it is a digit |
| Text.KeepUpperAlnum | client/services/startup-india-registration-form.tsx:494 | `replace(/[^A-Z0-9]/g,'')` yields only `[A-Z0-9]`, a character exactly when it is an upper-case letter or digit of the input, and leaves a clean string unchanged |
| Text.KeepUpperAlnumAppend | client/services/startup-india-registration-form.tsx:494 | filtering a concatenation is concatenating the filtered parts, so order and multiplicity are kept |
| Text.KeepUpperAlnumChar | client/services/startup-india-registration-form.tsx:494 | one character is kept exactly when it is an upper-case letter or a digit |
| Text.Take | client/services/gst-registration-form.tsx:470 | `slice(0, n)` is the prefix of length min(n, length) |
| Text.ToUpperAscii | client/services/gst-registration-form.tsx:470 | upper-casing keeps the length, leaves no lower-case letter, maps each character in place, and changes nothing in a string without lower-case letters |
| Text.DigitCapIdempotent | client/services/gst-registration-form.tsx:471-473 | digit filtering with a cap yields only digits, at most the cap, and applying it twice is the same as once |
| Text.UpperAlnumIdempotent | client/services/startup-india-registration-form.tsx:493-495 | upper-casing then filtering to `[A-Z0-9]` yields only `[A-Z0-9]` and is idempotent |
| Text.UpperCapIdempotent | client/services/gst-registration-form.tsx:470 | upper-casing then cutting to n characters leaves no lower-case letter and is idempotent |
| Text.NatToString | client/utils/helpers.ts:12 | `${n}` of a non-negative integer is a non-empty digit string with no leading zero |
| Text.ParseIntOfNatToString | client/services/gst-registration-form.tsx:542 | `parseInt` reads back exactly the number `${n}` wrote |
| Text.ParseIntOfBlank | client/services/gst-registration-form.tsx:542 | `parseInt` of an empty or blank answer is NaN |
| MockFirebase.FindUser | client/services/mockFirebase.ts:73 | `find`/`findIndex` returns the first matching user, and finds none exactly when no user matches |
| MockFirebase.InitialUsersHaveUniquePhones | client/services/mockFirebase.ts:20-51 | the three seeded accounts have distinct phone numbers |
| MockFirebase.AppendNewPhone | client/services/mockFirebase.ts:88-100 | registering a phone that no user has keeps phone numbers unique |
| MockFirebase.WithRole | client/services/mockFirebase.ts:138-145 | only the role of the first user with the uid changes. Nothing changes when there is no such user |
| MockFirebase.ToggledStatus | client/services/mockFirebase.ts:151 | the new status is blocked exactly when the status the caller saw was active, and is never invited |
| MockFirebase.WithToggledStatus | client/services/mockFirebase.ts:147-154 | only the status of the first user with the uid changes, to the toggled status. Nothing changes when there is no such user |
| MockFirebase.DocumentsOf | client/services/mockFirebase.ts:119-123 | the filtered list holds exactly the documents of that user |
| MockFirebase.DocumentsOfAppend | client/services/mockFirebase.ts:125-130 | a created document appears last in its owner's list and in no other user's list |
| MockFirebase.MockStore.constructor | client/services/mockFirebase.ts:54-61 | the store starts with no users key, no documents and nobody signed in |
| MockFirebase.MockStore.GetLocalUsers | client/services/mockFirebase.ts:54-61 | an empty store is seeded with the three accounts, and the stored list is returned. Phone numbers stay unique |
| MockFirebase.MockStore.GetAllUsers | client/services/mockFirebase.ts:133-136 | returns the stored (or freshly seeded) user list |
| MockFirebase.MockStore.LoginWithEmail | client/services/mockFirebase.ts:69-78 | an unknown e-mail fails with "User not found"; a blocked account fails with "Account blocked"; otherwise the first user with that e-mail is signed in and returned |
| MockFirebase.MockStore.LoginWithPhone | client/services/mockFirebase.ts:80-105 | a wrong OTP fails before anything changes. An unknown phone is registered as a new active customer and appended. A blocked account fails. Otherwise the user is signed in. Phone numbers stay unique |
| MockFirebase.MockStore.GetCurrentUser | client/services/mockFirebase.ts:107-110 | returns the signed-in user, if any |
| MockFirebase.MockStore.Logout | client/services/mockFirebase.ts:112-114 | nobody is signed in afterwards |
| MockFirebase.MockStore.GetDocuments | client/services/mockFirebase.ts:119-123 | returns the user's documents in creation order |
| MockFirebase.MockStore.CreateDocument | client/services/mockFirebase.ts:125-130 | appends the document and changes nothing else |
| MockFirebase.MockStore.UpdateUserRole | client/services/mockFirebase.ts:138-145 | the stored list becomes the old one with the target's role replaced; phone numbers stay unique |
| MockFirebase.MockStore.ToggleUserBlock | client/services/mockFirebase.ts:147-154 | the stored list becomes the old one with the target's status toggled; phone numbers stay unique |
| MockFirebase.MockStore.InviteUser | client/services/mockFirebase.ts:156-177 | a pending invited user is added only for a phone nobody has; the token is returned; phone numbers stay unique |
| Wizard.MessageOf | client/services/gst-registration-form.tsx:449 | `v === true ? '' : v` is empty exactly when the validator passed (or answered an empty message) |
| Wizard.RequiredCheck | client/services/gst-registration-form.tsx:12 | `required` passes exactly when the value has a visible character, and otherwise answers "This field is required"; either answer is truthy |
| Wizard.EmailCheck | client/services/gst-registration-form.tsx:13 | the answer is `true` or a non-empty message, so it is always truthy |
| Wizard.MobileCheck | client/services/gst-registration-form.tsx:14 | the answer is always truthy |
| Wizard.PanCheck | client/services/gst-registration-form.tsx:15 | the answer is always truthy |
| Wizard.ZipCheck | client/services/gst-registration-form.tsx:17 | the answer is always truthy |
| Wizard.GenerateCaptcha | client/services/gst-registration-form.tsx:430-432 | both operands lie in 1..10, and the answer is cleared |
| Wizard.BlankAnswerFails | client/services/gst-registration-form.tsx:542 | an empty or blank answer never solves the captcha (NaN equals no sum) |
| Wizard.SumAnswerPasses | client/services/gst-registration-form.tsx:542 | typing the sum in decimal always solves the captcha |
| Wizard.CaptchaExample | client/services/gst-registration-form.tsx:542 | for 3 + 5 the answer "8" passes and "7" fails |
| Wizard.GetStepStatus | client/services/gst-registration-form.tsx:234-238 | a step is active exactly when it is the current one, and completed exactly when it comes before it |
| Wizard.OneActiveStep | client/services/gst-registration-form.tsx:234-238 | the sidebar shows exactly one active step, and every completed step precedes every pending one |
| Wizard.AttachedSlots | client/services/gst-registration-form.tsx:568 | the list holds exactly the attached slots, no more entries than there are slots, and is the whole slot list when all are attached |
| Wizard.AttachedSlotsAppend | client/services/gst-registration-form.tsx:568 | filtering a concatenation of slot lists is concatenating the filtered parts, so attached slots keep their declaration order |
| Wizard.AttachedSlotsSingle | client/services/gst-registration-form.tsx:568 | a single slot is listed exactly when its flag is set |
| Wizard.AsFormData | client/services/msme-registration-form.tsx:119 | every form value is stored under its own key as text, and no other key is added |
| Wizard.SubmissionData | client/services/gst-registration-form.tsx:566-570 | `{...formData, uploadedFiles, paymentId}` has the form keys plus the two extra keys, holding the slots and the payment id |
| Wizard.SubmissionRoundTrip | client/services/gst-registration-form.tsx:566-570 | the recorded `formData` gives back exactly the form values it was built from, the slot list and the payment id |
| GstForm.Set | client/services/gst-registration-form.tsx:475 | `{...prev, [key]: value}` sets that field and keeps every other |
| GstForm.AsValuesLookup | client/services/gst-registration-form.tsx:567 | each field's value sits under its property name, and the form has no `uploadedFiles` or `paymentId` key of its own |
| GstForm.AadhaarCheck | client/services/gst-registration-form.tsx:16 | the Aadhaar validator's answer is always truthy |
| GstForm.ValidateFieldTable | client/services/gst-registration-form.tsx:442-464 | for each field, exactly which values validate and the one message shown otherwise. Aadhaar accepts an empty value. Trade name, date, alternate mobile and address line 2 always validate |
| GstForm.Normalize | client/services/gst-registration-form.tsx:466-474 | the PAN is upper-cased character by character and cut to 10 characters. Mobile, alternate mobile, Aadhaar and PIN store the first 10, 10, 12 and 6 digits of the input. A clean value is kept as is, and other fields are stored as typed |
| GstForm.NormalizeIdempotent | client/services/gst-registration-form.tsx:466-474 | normalising a stored value again changes nothing |
| GstForm.StepFields | client/services/gst-registration-form.tsx:488-497 | any step other than 1 or 2 checks no field |
| GstForm.StepCoverage | client/services/gst-registration-form.tsx:488-497 | every field that can fail validation is gated by step 1 or 2, except Aadhaar, which no step checks. The two steps share no field |
| GstForm.StepPassesMeaning | client/services/gst-registration-form.tsx:499-519 | a step passes exactly when every one of its fields validates |
| GstForm.StepErrorsMeaning | client/services/gst-registration-form.tsx:499-519 | the collected errors hold exactly the failing fields of the step, each with its message |
| GstForm.StepErrorsEmptyIff | client/services/gst-registration-form.tsx:499-519 | no error is collected exactly when the step passes |
| GstForm.InitialStepBlocked | client/services/gst-registration-form.tsx:488-519 | the blank form cannot leave step 1: legal name, PAN and constitution are reported with their messages |
| GstForm.GstRecordContents | client/services/gst-registration-form.tsx:558-572 | the record is of type GST, titled, paid, owned by the user and stamped with the time. Its `formData` gives back every form value, the attached slots (all four after the document gate) and the payment id |
| GstForm.CollectStepErrors | client/services/gst-registration-form.tsx:503-509 | the `forEach` loop yields exactly the step's errors, and `isValid` exactly when the step passes |
| GstForm.GstWizard.constructor | client/services/gst-registration-form.tsx:415-436 | the mounted form: blank data, no errors, nothing touched, step 1, no slot attached, a fresh captcha, not submitting |
| GstForm.GstWizard.RefreshCaptcha | client/services/gst-registration-form.tsx:430-432 | new operands and a cleared answer |
| GstForm.GstWizard.SetCaptchaAnswer | client/services/gst-registration-form.tsx:917 | only the answer changes |
| GstForm.GstWizard.HandleFileUpload | client/services/gst-registration-form.tsx:438-440 | only that slot's flag changes |
| GstForm.GstWizard.HandleChange | client/services/gst-registration-form.tsx:466-479 | stores the normalised value. The field's error is refreshed only if the field was touched |
| GstForm.GstWizard.HandleBlur | client/services/gst-registration-form.tsx:481-486 | marks the field touched and stores its error for the value held |
| GstForm.GstWizard.ValidateCurrentStep | client/services/gst-registration-form.tsx:499-519 | the result is exactly whether the step passes. On failure the step's errors are merged and all its fields marked touched; on success nothing changes |
| GstForm.GstWizard.HandleNext | client/services/gst-registration-form.tsx:521-526 | advances one step exactly when the current step passes, otherwise shows its errors; steps stay within 1..3 |
| GstForm.GstWizard.HandlePrevious | client/services/gst-registration-form.tsx:528-531 | goes back one step unconditionally |
| GstForm.GstWizard.Checkout | client/services/gst-registration-form.tsx:552-582 | on success the GST record is appended and the form shows success. A throw clears `isSubmitting`. A checkout that never calls back leaves `isSubmitting` set and the store unchanged |
| GstForm.GstWizard.GateStepThenCheckout | client/services/gst-registration-form.tsx:548-582 | the checkout starts exactly when the current step passes; otherwise the step's errors are shown and nothing is submitted |
| GstForm.GstWizard.HandleProceedToPayment | client/services/gst-registration-form.tsx:534-583 | the gates run in order: documents, then captcha, then step. A failing gate returns before anything is submitted. Payment starts exactly when all three pass, with the checkout outcomes above. Form data, slots, captcha and step never change |
| StartupForm.Set | client/services/startup-india-registration-form.tsx:503 | sets that field (an optional one becomes present) and keeps every other entry, present or absent |
| StartupForm.FieldNameInjective | client/services/startup-india-registration-form.tsx:336-360 | distinct fields have distinct property names, and none is `uploadedFiles` or `paymentId` |
| StartupForm.AsValuesLookup | client/services/startup-india-registration-form.tsx:584 | a field's property name is in the spread object exactly when the field is present, with its value, and no extra key is added |
| StartupForm.CinCheck | client/services/startup-india-registration-form.tsx:16 | the CIN validator passes exactly on the CIN pattern and is always truthy |
| StartupForm.ValidatorVerdictDropped | client/services/startup-india-registration-form.tsx:441-486 | each validator rejects its bad inputs, yet `validateField` as written returns the empty string for every field and value |
| StartupForm.BlankCompanyNameAccepted | client/services/startup-india-registration-form.tsx:441-486 | a blank company name: the validator answers "This field is required", the as-written `validateField` gives the empty string, and the corrected one gives the message |
| StartupForm.ValidateFieldTable | client/services/startup-india-registration-form.tsx:441-486 | with the corrected test, for each field, exactly which values validate and the message otherwise. The required group needs a visible character. The second founder's email, mobile and PAN need their patterns. Company type, GSTIN, address line 2 and the second founder's name always validate |
| StartupForm.Normalize | client/services/startup-india-registration-form.tsx:488-502 | PAN, founder PANs and CIN store the `[A-Z0-9]` characters of the upper-cased input, with no length cap. The mobiles store the first 10 digits of the input and the pincode the first 6. Other fields are stored as typed |
| StartupForm.NormalizeKeepsCleanCode | client/services/startup-india-registration-form.tsx:492-494 | an already clean PAN or CIN is stored unchanged |
| StartupForm.NormalizeIdempotent | client/services/startup-india-registration-form.tsx:488-502 | normalising a stored value again changes nothing |
| StartupForm.StepFields | client/services/startup-india-registration-form.tsx:516-525 | any step other than 1 or 2 checks no field |
| StartupForm.StepCoverage | client/services/startup-india-registration-form.tsx:516-525 | the two steps together list every declared field except GSTIN, and no optional one. They share no field |
| StartupForm.StepPassesMeaning | client/services/startup-india-registration-form.tsx:527-547 | in either mode, a step passes exactly when every one of its fields validates |
| StartupForm.StepErrorsMeaning | client/services/startup-india-registration-form.tsx:527-547 | in either mode, the collected errors hold exactly the failing fields of the step, each with its message |
| StartupForm.StepErrorsEmptyIff | client/services/startup-india-registration-form.tsx:527-547 | no error is collected exactly when the step passes |
| StartupForm.AsWrittenGateNeverBlocks | client/services/startup-india-registration-form.tsx:527-547 | as written, every step passes on every form and collects no error |
| StartupForm.StepOneRequired | client/services/startup-india-registration-form.tsx:518-519 | step 1 checks the company name and otherwise only required fields and the company type |
| StartupForm.BlankFormGateDiffers | client/services/startup-india-registration-form.tsx:516-547 | on the blank form, step 1 passes with no error as written and is blocked with the company name reported when corrected |
| StartupForm.InitialStepBlocked | client/services/startup-india-registration-form.tsx:516-547 | with the corrected test, the blank form cannot leave step 1: every field of the step except the company type is reported as required |
| StartupForm.StartupFormDataContents | client/services/startup-india-registration-form.tsx:583-587 | the recorded `formData` gives back every present value and has no key for an absent one. It lists the attached slots (all four after the document gate) and carries the payment id |
| StartupForm.StartupRecordContents | client/services/startup-india-registration-form.tsx:575-589 | the record is of type Startup India, titled, paid, owned by the user and stamped with the time |
| StartupForm.CollectStepErrors | client/services/startup-india-registration-form.tsx:531-537 | the `forEach` loop yields exactly the step's errors under the mode's `validateField`, and `isValid` exactly when the step passes (as written: no error, always valid, by AsWrittenGateNeverBlocks) |
| StartupForm.StartupWizard.constructor | client/services/startup-india-registration-form.tsx:414-435 | the mounted form with the given `validateField` mode: blank data, no errors, nothing touched, step 1, no slot attached, a fresh captcha, not submitting |
| StartupForm.StartupWizard.RefreshCaptcha | client/services/startup-india-registration-form.tsx:429-431 | new operands and a cleared answer |
| StartupForm.StartupWizard.SetCaptchaAnswer | client/services/startup-india-registration-form.tsx:1013 | only the answer changes |
| StartupForm.StartupWizard.HandleFileUpload | client/services/startup-india-registration-form.tsx:437-439 | only that slot's flag changes |
| StartupForm.StartupWizard.HandleChange | client/services/startup-india-registration-form.tsx:488-507 | stores the normalised value; the field's error is refreshed only if it was touched, and as written it is refreshed to `''` |
| StartupForm.StartupWizard.HandleBlur | client/services/startup-india-registration-form.tsx:509-514 | marks the field touched and stores its error for the value held; as written that error is `''` |
| StartupForm.StartupWizard.ValidateCurrentStep | client/services/startup-india-registration-form.tsx:527-547 | the result is exactly whether the step passes. On failure the step's errors are merged and its fields marked touched; on success nothing changes. As written it always returns true and changes nothing |
| StartupForm.StartupWizard.HandleNext | client/services/startup-india-registration-form.tsx:549-554 | advances one step exactly when the current step passes, otherwise shows its errors; steps stay within 1..3. As written it always adds 1 and changes no error |
| StartupForm.StartupWizard.HandlePrevious | client/services/startup-india-registration-form.tsx:556-559 | goes back one step unconditionally |
| StartupForm.StartupWizard.Checkout | client/services/startup-india-registration-form.tsx:572-598 | on success the Startup India record is appended and the form shows success. A throw clears `isSubmitting`. A checkout that never calls back leaves `isSubmitting` set |
| StartupForm.StartupWizard.GateStepThenCheckout | client/services/startup-india-registration-form.tsx:570-598 | the checkout starts exactly when the current step passes; otherwise the step's errors are shown and nothing is submitted. As written the checkout always starts |
| StartupForm.StartupWizard.HandleProceedToPayment | client/services/startup-india-registration-form.tsx:561-599 | the gates run in order: documents, then captcha, then step. A failing gate returns before anything is submitted. Payment starts exactly when all three pass; as written the step gate never stops it. Form data, slots, captcha and step never change |
| MsmeForm.Set | client/services/msme-registration-form.tsx:83 | sets that field and keeps every other |
| MsmeForm.AsValuesLookup | client/services/msme-registration-form.tsx:119 | each field's value sits under its property name, with no `uploadedFiles` or `paymentId` key |
| MsmeForm.Normalize | client/services/msme-registration-form.tsx:76-84 | the PAN is upper-cased character by character and cut to 10 characters. Mobile, Aadhaar suffix and pincode store the first 10, 4 and 6 digits of the input. Other fields are stored as typed |
| MsmeForm.NormalizeIdempotent | client/services/msme-registration-form.tsx:76-84 | normalising a stored value again changes nothing |
| MsmeForm.AcceptsMeaning | client/services/msme-registration-form.tsx:10-17 | which values each boolean validator accepts: visible text, the PAN pattern, 4 digits, the e-mail pattern, an Indian mobile, 6 digits |
| MsmeForm.ValidationErrors | client/services/msme-registration-form.tsx:86-102 | the error map has exactly the failing fields, each with its fixed message |
| MsmeForm.ValidationErrorsEmptyIff | client/services/msme-registration-form.tsx:86-102 | the form is valid exactly when every field passes its validator |
| MsmeForm.InitialDataRejected | client/services/msme-registration-form.tsx:86-102 | the blank form is rejected on all twelve fields |
| MsmeForm.MsmeRecordContents | client/services/msme-registration-form.tsx:112-121 | the record is of type MSME, titled, paid, owned by the user and stamped with the time. Its `formData` is exactly the form values, with no slot list or payment id |
| MsmeForm.MsmeWizard.constructor | client/services/msme-registration-form.tsx:57-74 | blank data, no errors, not submitting, no success |
| MsmeForm.MsmeWizard.HandleChange | client/services/msme-registration-form.tsx:76-84 | stores the normalised value and leaves the errors alone |
| MsmeForm.MsmeWizard.Validate | client/services/msme-registration-form.tsx:86-102 | replaces the errors by those of the current values, and answers exactly whether there are none |
| MsmeForm.MsmeWizard.HandleSubmit | client/services/msme-registration-form.tsx:104-130 | an invalid form returns with its errors shown and nothing started. A valid one always ends with `isSubmitting` cleared. Only a successful payment appends the MSME record and shows success |

## Left out

- Rendering: the JSX, the preview modal, the status banner, the sidebars (except the step status), the drag-and-drop upload widget and the select options are not modelled.
- Effects outside the state: `alert`, `console`, `window.scrollTo`, navigation and the simulated `setTimeout` delays are left out. They change no modelled state.
- Storage: `localStorage` and its JSON round trip are modelled as the fields of `MockStore`. Parse failures of stored JSON are not modelled.
- Aliasing of the seed list: `getLocalUsers` returns the `INITIAL_USERS` array itself on first use, so a later `push` also changes that array. The model copies the list by value instead.
- React state scheduling: each handler runs to completion against the state it reads. Batched `setState` updates and stale closures are not modelled.
- Time and randomness: `Date.now()`, `getFullYear()`, the `Math.random` draws and the invite token are parameters. All `Date.now()` calls within one handler are taken to return the same `now`.
- The checkout hook (`useRazorpay`) is not part of this model. Its effect on the forms is the `PaymentOutcome` parameter, and the amount it is called with (always 0) plays no part.
- `getLocalDocs` is folded into the `docs` field, which reads as empty when nothing is stored.
- `formatDate` in `helpers.ts` is left out, because it relies on locale-dependent date formatting.
- Unicode: the validators' `\s` is modelled with JavaScript's whitespace set. `toUpperCase` is modelled on the letters a-z only, because the forms' codes are ASCII.
- UTF-16: Dafny strings count characters, while JavaScript's `length` and `slice(0, n)` count UTF-16 code units. A value holding a character outside the basic plane (an emoji, say) is cut at a different place by the PAN cap and by the digit caps, and the trim and regex tests see one character where JavaScript sees two.
- The Startup India inputs for a second founder belong to the rendering. `StartupWizard.HandleChange` lets any key be set, and the optional keys are absent until set.
- MsmeForm.MsmeWizard.Validate: the twelve `if` statements are modelled as one map comprehension with the same result, not as twelve sequential updates.
- MsmeForm.MsmeWizard.HandleSubmit: the model shows success before `finally` clears `isSubmitting`, so only the final state is stated, not the order of the two updates.
- Wizard.EmailCheck, Wizard.MobileCheck, Wizard.PanCheck, Wizard.ZipCheck, GstForm.AadhaarCheck: their own contracts state only that the answer is truthy. Which values each accepts is stated in the `ValidateFieldTable` lemmas instead.

## Findings

| source | as written | input that shows it | evidently intended | confidence | as-written member | corrected member |
|---|---|---|---|---|---|---|
| client/services/startup-india-registration-form.tsx:441-486 | each guard is `!validators.x(value)`. Every validator answers `true` or a non-empty message, both truthy, so no guard fires and every field validates | `companyName = ""`: `required` answers "This field is required", `validateField` answers `''`, and the blank form leaves step 1 | test the verdict with `=== true`, as the GST form does, and return the validator's message | high; not executed | StartupForm.ValidateFieldAsWritten (shown by StartupForm.ValidatorVerdictDropped, StartupForm.BlankCompanyNameAccepted, StartupForm.AsWrittenGateNeverBlocks and StartupForm.BlankFormGateDiffers; run by StartupForm.StartupWizard in mode `AsWritten`) | StartupForm.ValidateField (proved by StartupForm.ValidateFieldTable and StartupForm.InitialStepBlocked) |
