/** The registration page: an ordered validation of the seven form fields, the
    field-by-field input handler, and the submit handler that sends either a
    super-admin request or a tenant-with-owner request. */
module Register {
  import opened Common

  datatype RegistrationType = SuperAdmin | Tenant

  datatype Field = Name | Email | Password | ConfirmPassword | TenantName | Domain | ContactEmail

  datatype RegistrationData = RegistrationData(
    name: string, email: string, password: string, confirmPassword: string,
    tenantName: string, domain: string, contactEmail: string)

  /** What `handleSubmit` sends to the backend. `CreateTenant.tenantName` is sent
      under the JSON key `name`. */
  datatype Request =
    | CreateSuperAdmin(name: string, email: string, password: string)
    | CreateTenant(tenantName: string, domain: string, contactEmail: string,
                   ownerName: string, ownerEmail: string, ownerPassword: string)

  const AllFieldsRequired := "All fields are required"
  const PasswordsDoNotMatch := "Passwords do not match"
  const PasswordTooShort := "Password must be at least 6 characters long"
  const TenantFieldsRequired := "All tenant fields are required"
  const RegistrationFailed := "Registration failed. Please try again."
  const MinPasswordLength := 6
  const LoginHint := " You can now login."

  /** The form as it starts, and as a successful registration leaves it. */
  const EmptyForm := RegistrationData("", "", "", "", "", "", "")

  function Get(d: RegistrationData, f: Field): string
  {
    match f
    case Name => d.name
    case Email => d.email
    case Password => d.password
    case ConfirmPassword => d.confirmPassword
    case TenantName => d.tenantName
    case Domain => d.domain
    case ContactEmail => d.contactEmail
  }

  /** `{ ...prev, [field]: value }`: only the named field changes. */
  function With(d: RegistrationData, f: Field, v: string): (r: RegistrationData)
    ensures Get(r, f) == v
    ensures forall g :: g != f ==> Get(r, g) == Get(d, g)
  {
    match f
    case Name => d.(name := v)
    case Email => d.(email := v)
    case Password => d.(password := v)
    case ConfirmPassword => d.(confirmPassword := v)
    case TenantName => d.(tenantName := v)
    case Domain => d.(domain := v)
    case ContactEmail => d.(contactEmail := v)
  }

  predicate CommonFieldsPresent(d: RegistrationData)
  {
    d.name != "" && d.email != "" && d.password != "" && d.confirmPassword != ""
  }

  predicate TenantFieldsPresent(d: RegistrationData)
  {
    d.tenantName != "" && d.domain != "" && d.contactEmail != ""
  }

  /** `validateForm`: `None` when the form is valid, otherwise the message of the
      first failing check, in the order: required fields, matching passwords,
      password length, and (for a tenant only) the tenant fields. */
  function ValidateForm(d: RegistrationData, t: RegistrationType): (r: Option<string>)
    ensures r.None? <==>
      CommonFieldsPresent(d) && d.password == d.confirmPassword && |d.password| >= MinPasswordLength
      && (t == Tenant ==> TenantFieldsPresent(d))
  {
    if !CommonFieldsPresent(d) then Some(AllFieldsRequired)
    else if d.password != d.confirmPassword then Some(PasswordsDoNotMatch)
    else if |d.password| < MinPasswordLength then Some(PasswordTooShort)
    else if t == Tenant && !TenantFieldsPresent(d) then Some(TenantFieldsRequired)
    else None
  }

  /** Each message is reported exactly when its check is the first to fail. */
  lemma ValidateFormOrder(d: RegistrationData, t: RegistrationType)
    ensures ValidateForm(d, t) == Some(AllFieldsRequired) <==> !CommonFieldsPresent(d)
    ensures ValidateForm(d, t) == Some(PasswordsDoNotMatch) <==> CommonFieldsPresent(d) && d.password != d.confirmPassword
    ensures ValidateForm(d, t) == Some(PasswordTooShort) <==>
      CommonFieldsPresent(d) && d.password == d.confirmPassword && |d.password| < MinPasswordLength
    ensures ValidateForm(d, t) == Some(TenantFieldsRequired) <==>
      CommonFieldsPresent(d) && d.password == d.confirmPassword && |d.password| >= MinPasswordLength
      && t == Tenant && !TenantFieldsPresent(d)
  {
  }

  /** The tenant fields matter only for a tenant registration. */
  lemma TenantFieldsOnlyForTenant(d: RegistrationData, e: RegistrationData)
    requires d.(tenantName := "", domain := "", contactEmail := "") == e.(tenantName := "", domain := "", contactEmail := "")
    ensures ValidateForm(d, SuperAdmin) == ValidateForm(e, SuperAdmin)
  {
  }

  /** The request that `handleSubmit` sends for a valid form. */
  function BuildRequest(d: RegistrationData, t: RegistrationType): (r: Request)
    ensures t == SuperAdmin ==> r == CreateSuperAdmin(d.name, d.email, d.password)
    ensures t == Tenant ==>
      && r.CreateTenant? && r.tenantName == d.tenantName
      && r.ownerName == d.name && r.ownerEmail == d.email && r.ownerPassword == d.password
      && r.domain == d.domain && r.contactEmail == d.contactEmail
  {
    match t
    case SuperAdmin => CreateSuperAdmin(d.name, d.email, d.password)
    case Tenant => CreateTenant(d.tenantName, d.domain, d.contactEmail, d.name, d.email, d.password)
  }

  predicate StartsWith(s: string, prefix: string)
  {
    |prefix| <= |s| && s[..|prefix|] == prefix
  }

  /** The message after a successful registration: it names the kind of account
      created and sends the user to the login page. */
  function SuccessMessage(t: RegistrationType): (m: string)
    ensures |m| > |LoginHint| && m[|m| - |LoginHint|..] == LoginHint
    ensures t == SuperAdmin <==> StartsWith(m, "Super Admin")
  {
    match t
    case SuperAdmin => "Super Admin" + " account created successfully!" + LoginHint
    case Tenant =>
      var m := "Tenant and owner" + " account created successfully!" + LoginHint;
      assert m[0] != "Super Admin"[0];
      m
  }

  /** `error.message || "Registration failed. Please try again."` */
  function FailureMessage(message: string): (m: string)
    ensures m != ""
    ensures message != "" ==> m == message
    ensures message == "" ==> m == RegistrationFailed
  {
    if message != "" then message else RegistrationFailed
  }

  class RegisterPage {
    var registrationType: RegistrationType
    var formData: RegistrationData
    var isLoading: bool
    var error: string
    var success: string

    constructor ()
      ensures registrationType == SuperAdmin && formData == EmptyForm
      ensures !isLoading && error == "" && success == ""
    {
      registrationType := SuperAdmin;
      formData := EmptyForm;
      isLoading := false;
      error := "";
      success := "";
    }

    /** The two type buttons: `setRegistrationType`, which keeps the form as typed. */
    method SetRegistrationType(t: RegistrationType)
      modifies this`registrationType
      ensures registrationType == t
    {
      registrationType := t;
    }

    /** `handleInputChange`: changes only the named field and clears the error. */
    method HandleInputChange(f: Field, v: string)
      modifies this`formData, this`error
      ensures formData == With(old(formData), f, v) && error == ""
    {
      formData := With(formData, f, v);
      error := "";
    }

    /** `handleSubmit`: a failing validation sets its message and sends nothing;
        otherwise the request is sent, and on success the success message is shown
        and every field is reset, while on failure the error is shown and the form
        kept. Loading is over afterwards. */
    method HandleSubmit(call: Call<()>) returns (sent: Option<Request>)
      modifies this`isLoading, this`error, this`success, this`formData
      ensures ValidateForm(old(formData), registrationType).Some? ==>
        && sent.None?
        && error == ValidateForm(old(formData), registrationType).value
        && formData == old(formData) && success == old(success) && isLoading == old(isLoading)
      ensures ValidateForm(old(formData), registrationType).None? ==>
        && sent == Some(BuildRequest(old(formData), registrationType))
        && !isLoading
        && (call.Returned? ==> formData == EmptyForm && error == "" && success == SuccessMessage(registrationType))
        && (call.Threw? ==> formData == old(formData) && error == FailureMessage(call.message) && success == "")
    {
      var d, t := formData, registrationType;
      var invalid := ValidateForm(d, t);
      if invalid.Some? {
        error := invalid.value;
        return None;
      }
      isLoading := true;
      sent := Some(BuildRequest(d, t));
      if call.Returned? {
        error, success, formData := "", SuccessMessage(t), EmptyForm;
      } else {
        error, success := FailureMessage(call.message), "";
      }
      isLoading := false;
    }
  }
}
