/** The supplier registration form
    (frontend/src/components/RegistrationForm.jsx): the checks made before
    anything is sent, the multipart form data assembled field by field, and
    the move to the verification step. The `register` call is an input (its
    message, or the message of the error it throws), and so is
    `String(Number(text))`. */
module RegistrationForm {
  import opened Common

  /** The form's text inputs. */
  datatype RegistrationData = RegistrationData(
    firstName: string,
    lastName: string,
    username: string,
    email: string,
    phoneNumber: string,
    password: string,
    confirmPassword: string,
    businessRegNumber: string,
    businessCategory: string,
    experience: string,
    companyName: string)

  /** A selected file. */
  datatype File = File(name: string, size: nat)

  /** The three file inputs; None until a file is chosen. */
  datatype Uploads = Uploads(businessRegCertificate: Option<File>, taxComplianceCert: Option<File>, companyProfile: Option<File>)

  /** The keys the form data uses. */
  datatype FieldKey =
    | EmailKey | PasswordKey | ConfirmPasswordKey | FirstNameKey | LastNameKey | UsernameKey
    | PhoneNumberKey | CompanyNameKey | UserTypeKey | BusinessRegNumberKey | BusinessCategoryKey
    | ExperienceKey | BusinessRegCertificateKey | TaxComplianceCertKey | CompanyProfileKey

  /** The name each key is sent under. */
  function KeyName(k: FieldKey): string
  {
    match k
    case EmailKey => "email"
    case PasswordKey => "password"
    case ConfirmPasswordKey => "confirmPassword"
    case FirstNameKey => "firstName"
    case LastNameKey => "lastName"
    case UsernameKey => "username"
    case PhoneNumberKey => "phoneNumber"
    case CompanyNameKey => "company_name"
    case UserTypeKey => "user_type"
    case BusinessRegNumberKey => "businessRegNumber"
    case BusinessCategoryKey => "businessCategory"
    case ExperienceKey => "experience"
    case BusinessRegCertificateKey => "businessRegCertificate"
    case TaxComplianceCertKey => "taxComplianceCert"
    case CompanyProfileKey => "companyProfile"
  }

  /** One `fd.append(key, value)`. */
  datatype PartValue = Text(text: string) | Attachment(file: File)
  datatype Part = Part(key: FieldKey, value: PartValue)

  const MinPasswordLength: nat := 8
  const MismatchMessage := "Passwords do not match"
  const ShortPasswordMessage := "Password must be at least 8 characters long"
  const RegNumberMessage := "Business Registration Number is required"

  /** The first check that fails, in the order they are made: a mismatch
      is reported before the length, the length before the registration
      number. */
  function Problem(form: RegistrationData): (r: Option<string>)
    ensures r.None? <==> form.password == form.confirmPassword && |form.password| >= MinPasswordLength && NonBlank(form.businessRegNumber)
    ensures form.password != form.confirmPassword ==> r == Some(MismatchMessage)
    ensures form.password == form.confirmPassword && |form.password| < MinPasswordLength ==> r == Some(ShortPasswordMessage)
  {
    if form.password != form.confirmPassword then Some(MismatchMessage)
    else if |form.password| < MinPasswordLength then Some(ShortPasswordMessage)
    else if !NonBlank(form.businessRegNumber) then Some(RegNumberMessage)
    else None
  }

  /** The text fields always sent, the user type forced to `supplier`. */
  function FixedParts(form: RegistrationData): seq<Part>
  {
    [ Part(EmailKey, Text(form.email)),
      Part(PasswordKey, Text(form.password)),
      Part(ConfirmPasswordKey, Text(form.confirmPassword)),
      Part(FirstNameKey, Text(form.firstName)),
      Part(LastNameKey, Text(form.lastName)),
      Part(UsernameKey, Text(form.username)),
      Part(PhoneNumberKey, Text(form.phoneNumber)),
      Part(CompanyNameKey, Text(form.companyName)),
      Part(UserTypeKey, Text("supplier")),
      Part(BusinessRegNumberKey, Text(form.businessRegNumber)),
      Part(BusinessCategoryKey, Text(form.businessCategory)) ]
  }

  /** The experience, only when it was entered, as its numeric text. */
  function ExperienceParts(form: RegistrationData, numberText: string -> string): seq<Part>
  {
    if form.experience != "" then [Part(ExperienceKey, Text(numberText(form.experience)))] else []
  }

  /** A file input's part, only when a file was chosen. */
  function FilePart(key: FieldKey, file: Option<File>): seq<Part>
  {
    if file.Some? then [Part(key, Attachment(file.value))] else []
  }

  /** The form data sent to `register`, in the order it is appended. */
  function Parts(form: RegistrationData, uploads: Uploads, numberText: string -> string): seq<Part>
  {
    FixedParts(form) + OptionalParts(form, uploads, numberText)
  }

  /** The keys of the parts, in order. */
  function Keys(parts: seq<Part>): (ks: seq<FieldKey>)
    ensures |ks| == |parts|
    ensures forall i :: 0 <= i < |parts| ==> ks[i] == parts[i].key
  {
    seq(|parts|, i requires 0 <= i < |parts| => parts[i].key)
  }

  const FixedKeys := [EmailKey, PasswordKey, ConfirmPasswordKey, FirstNameKey, LastNameKey, UsernameKey,
                      PhoneNumberKey, CompanyNameKey, UserTypeKey, BusinessRegNumberKey, BusinessCategoryKey]

  /** The four keys sent only when there is something to send. */
  predicate OptionalKey(k: FieldKey)
  {
    k.ExperienceKey? || k.BusinessRegCertificateKey? || k.TaxComplianceCertKey? || k.CompanyProfileKey?
  }

  /** The optional keys a submission sends, in order. */
  function OptionalKeys(form: RegistrationData, uploads: Uploads): (ks: seq<FieldKey>)
    ensures forall k :: k in ks ==> OptionalKey(k)
    ensures ExperienceKey in ks <==> form.experience != ""
    ensures BusinessRegCertificateKey in ks <==> uploads.businessRegCertificate.Some?
    ensures TaxComplianceCertKey in ks <==> uploads.taxComplianceCert.Some?
    ensures CompanyProfileKey in ks <==> uploads.companyProfile.Some?
  {
    (if form.experience != "" then [ExperienceKey] else [])
    + (if uploads.businessRegCertificate.Some? then [BusinessRegCertificateKey] else [])
    + (if uploads.taxComplianceCert.Some? then [TaxComplianceCertKey] else [])
    + (if uploads.companyProfile.Some? then [CompanyProfileKey] else [])
  }

  /** The keys a submission sends, in order: the fixed text fields
      always, the experience exactly when entered, each file exactly when
      selected. */
  function SentKeys(form: RegistrationData, uploads: Uploads): (ks: seq<FieldKey>)
    ensures forall k :: k in FixedKeys ==> k in ks
    ensures ExperienceKey in ks <==> form.experience != ""
    ensures BusinessRegCertificateKey in ks <==> uploads.businessRegCertificate.Some?
    ensures TaxComplianceCertKey in ks <==> uploads.taxComplianceCert.Some?
    ensures CompanyProfileKey in ks <==> uploads.companyProfile.Some?
  {
    var opt := OptionalKeys(form, uploads);
    assert forall k :: k in FixedKeys ==> !OptionalKey(k);
    FixedKeys + opt
  }

  /** The form data carries exactly those keys, in that order. */
  lemma PartsKeys(form: RegistrationData, uploads: Uploads, numberText: string -> string)
    ensures Keys(Parts(form, uploads, numberText)) == SentKeys(form, uploads)
  {
    var fixed := FixedParts(form);
    var rest := OptionalParts(form, uploads, numberText);
    FixedPartsKeys(form);
    OptionalPartsKeys(form, uploads, numberText);
    KeysAppend(fixed, rest);
  }

  /** The parts after the fixed ones: the experience, then the three
      files. */
  function OptionalParts(form: RegistrationData, uploads: Uploads, numberText: string -> string): seq<Part>
  {
    ExperienceParts(form, numberText)
    + FilePart(BusinessRegCertificateKey, uploads.businessRegCertificate)
    + FilePart(TaxComplianceCertKey, uploads.taxComplianceCert)
    + FilePart(CompanyProfileKey, uploads.companyProfile)
  }

  lemma OptionalPartsKeys(form: RegistrationData, uploads: Uploads, numberText: string -> string)
    ensures Keys(OptionalParts(form, uploads, numberText)) == OptionalKeys(form, uploads)
  {
    var e := ExperienceParts(form, numberText);
    var b := FilePart(BusinessRegCertificateKey, uploads.businessRegCertificate);
    var t := FilePart(TaxComplianceCertKey, uploads.taxComplianceCert);
    var c := FilePart(CompanyProfileKey, uploads.companyProfile);
    KeysAppend(e, b);
    KeysAppend(e + b, t);
    KeysAppend(e + b + t, c);
    FilePartKeys(BusinessRegCertificateKey, uploads.businessRegCertificate);
    FilePartKeys(TaxComplianceCertKey, uploads.taxComplianceCert);
    FilePartKeys(CompanyProfileKey, uploads.companyProfile);
    assert Keys(e) == (if form.experience != "" then [ExperienceKey] else []);
  }

  lemma FixedPartsKeys(form: RegistrationData)
    ensures Keys(FixedParts(form)) == FixedKeys
  {
  }

  lemma FilePartKeys(key: FieldKey, file: Option<File>)
    ensures Keys(FilePart(key, file)) == (if file.Some? then [key] else [])
  {
  }

  lemma KeysAppend(a: seq<Part>, b: seq<Part>)
    ensures Keys(a + b) == Keys(a) + Keys(b)
  {
  }

  /** What the form data carries: the user type `supplier`, the experience
      as its numeric text, and as attachments exactly the selected files. */
  lemma PartsValues(form: RegistrationData, uploads: Uploads, numberText: string -> string)
    ensures var parts := Parts(form, uploads, numberText);
            && Part(UserTypeKey, Text("supplier")) in parts
            && (form.experience != "" ==> Part(ExperienceKey, Text(numberText(form.experience))) in parts)
            && (forall f :: (exists k :: Part(k, Attachment(f)) in parts) <==>
                              uploads.businessRegCertificate == Some(f) || uploads.taxComplianceCert == Some(f)
                              || uploads.companyProfile == Some(f))
  {
    var fixed := FixedParts(form);
    var rest := OptionalParts(form, uploads, numberText);
    var parts := Parts(form, uploads, numberText);
    assert fixed[8] in parts;
    if form.experience != "" {
      assert rest[0] in parts;
    }
    assert forall p :: p in fixed ==> p.value.Text?;
    OptionalAttachments(form, uploads, numberText);
  }

  /** The attachments among the optional parts are exactly the selected
      files. */
  lemma OptionalAttachments(form: RegistrationData, uploads: Uploads, numberText: string -> string)
    ensures var rest := OptionalParts(form, uploads, numberText);
            forall f :: (exists k :: Part(k, Attachment(f)) in rest) <==>
                          uploads.businessRegCertificate == Some(f) || uploads.taxComplianceCert == Some(f)
                          || uploads.companyProfile == Some(f)
  {
    var rest := OptionalParts(form, uploads, numberText);
    var b := FilePart(BusinessRegCertificateKey, uploads.businessRegCertificate);
    var t := FilePart(TaxComplianceCertKey, uploads.taxComplianceCert);
    var c := FilePart(CompanyProfileKey, uploads.companyProfile);
    var e := ExperienceParts(form, numberText);
    assert forall p :: p in rest <==> p in e || p in b || p in t || p in c;
    forall f | uploads.businessRegCertificate == Some(f) || uploads.taxComplianceCert == Some(f) || uploads.companyProfile == Some(f)
      ensures exists k :: Part(k, Attachment(f)) in rest
    {
      if uploads.businessRegCertificate == Some(f) {
        assert b[0] in rest;
      } else if uploads.taxComplianceCert == Some(f) {
        assert t[0] in rest;
      } else {
        assert c[0] in rest;
      }
    }
  }

  /** The screen's state: the step shown, the messages, the busy flag, and
      the address the verification step is for. */
  class RegistrationScreen {
    var step: nat
    var error: string
    var success: string
    var loading: bool
    var verificationEmail: string

    constructor()
      ensures step == 1 && error == "" && success == "" && !loading && verificationEmail == ""
    {
      step := 1;
      error := "";
      success := "";
      loading := false;
      verificationEmail := "";
    }

    /** `handleSubmitRegistration`: a failing check shows its message and
        sends nothing; otherwise the form data is sent and, when `register`
        succeeds, the screen moves to step 2 for the entered address, or
        shows the error it throws. */
    method SubmitRegistration(form: RegistrationData, uploads: Uploads, numberText: string -> string, register: Result<string, string>)
      returns (sent: Option<seq<Part>>)
      modifies this
      ensures !loading
      ensures Problem(form).Some? ==> sent.None? && error == Problem(form).value
                                      && step == old(step) && success == old(success) && verificationEmail == old(verificationEmail)
      ensures Problem(form).None? ==> sent == Some(Parts(form, uploads, numberText))
      ensures Problem(form).None? && register.Ok? ==>
                step == 2 && error == "" && success == register.value && verificationEmail == form.email
      ensures Problem(form).None? && register.Err? ==>
                step == old(step) && error == register.error && success == old(success) && verificationEmail == old(verificationEmail)
    {
      error := "";
      loading := true;

      if form.password != form.confirmPassword {
        error := MismatchMessage;
        loading := false;
        return None;
      }
      if |form.password| < MinPasswordLength {
        error := ShortPasswordMessage;
        loading := false;
        return None;
      }
      if !NonBlank(form.businessRegNumber) {
        error := RegNumberMessage;
        loading := false;
        return None;
      }

      var fd := FixedParts(form);
      var rest := ExperienceParts(form, numberText);
      rest := rest + FilePart(BusinessRegCertificateKey, uploads.businessRegCertificate);
      rest := rest + FilePart(TaxComplianceCertKey, uploads.taxComplianceCert);
      rest := rest + FilePart(CompanyProfileKey, uploads.companyProfile);
      sent := Some(fd + rest);

      if register.Ok? {
        verificationEmail := form.email;
        success := register.value;
        step := 2;
      } else {
        error := register.error;
      }
      loading := false;
    }
  }
}
