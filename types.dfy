/** The records of the portal: user profiles, submitted service documents, and the
    outcome of a checkout as the forms observe it. */
module Types {
  import opened Wrappers

  datatype UserRole = SuperAdmin | Admin | Support | Customer

  datatype UserStatus = Active | Invited | Blocked

  /** A user. `phoneNumber` and `email` are optional fields of the record. */
  datatype UserProfile = UserProfile(
    uid: string,
    phoneNumber: Option<string>,
    email: Option<string>,
    userId: string,
    role: UserRole,
    status: UserStatus,
    displayName: string,
    createdAt: int)

  /** The `type` tag of a submitted document ('startup-india' is written by the
      Startup India form although the declared union lacks it). */
  datatype ServiceType = Gst | Pan | Trademark | Fssai | Msme | StartupIndia

  datatype DocumentStatus = Submitted | Processing | Approved | Rejected | Paid

  /** A value inside a document's `formData`: a form field's text, or the list of
      attached document slots. */
  datatype FieldValue = Text(text: string) | TextList(items: seq<string>)

  datatype ServiceDocument = ServiceDocument(
    id: string,
    serviceType: ServiceType,
    title: string,
    serviceId: string,
    status: DocumentStatus,
    submittedAt: int,
    formData: map<string, FieldValue>,
    userId: string)

  /** What `await displayRazorpay(amount, onSuccess)` does, seen from a form:
      the success callback runs with a payment id, the call resolves without calling
      back (the checkout script failed to load), or the call throws. */
  datatype PaymentOutcome = PaymentSucceeded(paymentId: string) | ScriptFailed | Threw
}
