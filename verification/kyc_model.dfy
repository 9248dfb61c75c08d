/** The KYC sub-document embedded in a user record, and the states it may be in. */
module KycModel {
  import opened Wrappers

  datatype KycStatus = Pending | Submitted | Verified | Rejected

  datatype DocumentType = Passport | NationalId | DrivingLicense

  /** The enum spelling of a document type. */
  function DocumentTypeName(d: DocumentType): string {
    match d
    case Passport => "passport"
    case NationalId => "nationalId"
    case DrivingLicense => "drivingLicense"
  }

  /** The enum `passport | nationalId | drivingLicense`: exactly these three strings are accepted. */
  function ParseDocumentType(s: string): (r: Option<DocumentType>)
    ensures r.Some? <==> (s == "passport" || s == "nationalId" || s == "drivingLicense")
    ensures r.Some? ==> DocumentTypeName(r.value) == s
  {
    if s == "passport" then Some(Passport)
    else if s == "nationalId" then Some(NationalId)
    else if s == "drivingLicense" then Some(DrivingLicense)
    else None
  }

  /** Spelling a document type and reading it back gives the same type. */
  lemma DocumentTypeRoundTrip(d: DocumentType)
    ensures ParseDocumentType(DocumentTypeName(d)) == Some(d)
  {
  }

  function StatusName(s: KycStatus): string {
    match s
    case Pending => "pending"
    case Submitted => "submitted"
    case Verified => "verified"
    case Rejected => "rejected"
  }

  /** Absent fields are `null` or `undefined` in the document. */
  datatype Kyc = Kyc(
    status: KycStatus,
    documentType: Option<DocumentType>,
    documentNumber: Option<string>,
    documentExpiry: Option<int>,
    documentFront: Option<string>,
    documentBack: Option<string>,
    selfie: Option<string>,
    verificationDate: Option<int>,
    rejectionReason: Option<string>)

  /** The record a first status query creates: pending, with every document field null. */
  const PendingRecord := Kyc(Pending, None, None, None, None, None, None, None, None)

  predicate Decided(k: Kyc) {
    k.status == Verified || k.status == Rejected
  }

  /**
   * The sub-schema's conditional requirements: a submitted record carries a
   * document type, a non-empty document number and an expiry date.
   */
  predicate SchemaValid(k: Kyc) {
    k.status == Submitted ==>
      && k.documentType.Some?
      && k.documentNumber.Some? && k.documentNumber.value != ""
      && k.documentExpiry.Some?
  }

  /** A non-empty string. */
  predicate Filled(s: Option<string>) {
    s.Some? && s.value != ""
  }

  /**
   * The invariants of the review workflow:
   * a rejection reason is present exactly when the record is rejected, and is
   * then non-empty; a verification date is present exactly when the record is
   * decided; a submitted record carries every document field.
   */
  predicate Consistent(k: Kyc) {
    && SchemaValid(k)
    && (k.rejectionReason.Some? <==> k.status == Rejected)
    && (k.status == Rejected ==> Filled(k.rejectionReason))
    && (k.verificationDate.Some? <==> Decided(k))
    && (k.status == Submitted ==> Filled(k.documentFront) && Filled(k.documentBack) && Filled(k.selfie))
  }

  /** No record yet is consistent too. */
  predicate ConsistentRecord(k: Option<Kyc>) {
    k.Some? ==> Consistent(k.value)
  }
}
