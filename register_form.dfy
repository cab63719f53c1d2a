/** The sign-up form: its four fields, its ordered checks, and the error it
    shows. */
module RegisterForm {
  import opened Values
  import opened Text

  const MissingField := "All fields are required"
  const Mismatch := "Passwords do not match"
  const TooShort := "Password must be at least 6 characters long"
  const BadEmail := "Please enter a valid email address"
  const MinPasswordLength := 6

  datatype Form = Form(name: string, email: string, password: string, confirmPassword: string)

  /** The `name` attribute of the input that changed. */
  datatype Field = Name | Email | Password | ConfirmPassword

  const EmptyForm := Form("", "", "", "")

  /** `{ ...formData, [name]: value }`. */
  function WithField(f: Form, field: Field, value: string): (r: Form)
    ensures field == Name ==> r == f.(name := value)
    ensures field == Email ==> r == f.(email := value)
    ensures field == Password ==> r == f.(password := value)
    ensures field == ConfirmPassword ==> r == f.(confirmPassword := value)
  {
    match field
    case Name => f.(name := value)
    case Email => f.(email := value)
    case Password => f.(password := value)
    case ConfirmPassword => f.(confirmPassword := value)
  }

  predicate AllFilled(f: Form) {
    f.name != "" && f.email != "" && f.password != "" && f.confirmPassword != ""
  }

  /** The four conditions a submittable form meets, independent of order. */
  predicate Valid(f: Form) {
    AllFilled(f) && f.password == f.confirmPassword && |f.password| >= MinPasswordLength && '@' in f.email
  }

  /** The message of the first failing check, in the order the form runs
      them; `None` when every check passes. */
  function FirstError(f: Form): (e: Option<string>)
    ensures e.None? <==> Valid(f)
    ensures e == Some(MissingField) <==> !AllFilled(f)
    ensures e == Some(Mismatch) <==> AllFilled(f) && f.password != f.confirmPassword
    ensures e == Some(TooShort) <==> AllFilled(f) && f.password == f.confirmPassword && |f.password| < MinPasswordLength
    ensures e == Some(BadEmail) <==>
              AllFilled(f) && f.password == f.confirmPassword && |f.password| >= MinPasswordLength && '@' !in f.email
  {
    if !AllFilled(f) then Some(MissingField)
    else if f.password != f.confirmPassword then Some(Mismatch)
    else if |f.password| < MinPasswordLength then Some(TooShort)
    else if '@' !in f.email then Some(BadEmail)
    else None
  }

  /** A form with a mismatch and a short password reports the mismatch: an
      earlier check hides the later ones. */
  lemma MismatchBeforeLength(f: Form)
    requires AllFilled(f) && f.password != f.confirmPassword && |f.password| < MinPasswordLength
    ensures FirstError(f) == Some(Mismatch)
  {
  }

  /** The untouched form fails the first check. */
  lemma EmptyFormMissing()
    ensures FirstError(EmptyForm) == Some(MissingField)
  {
  }

  class Register {
    var form: Form
    var error: string
    var loading: bool

    constructor ()
      ensures form == EmptyForm && error == "" && !loading
    {
      form := EmptyForm;
      error := "";
      loading := false;
    }

    /** Typing in a field updates that field and clears the error. */
    method HandleChange(field: Field, value: string)
      modifies this
      ensures form == WithField(old(form), field, value)
      ensures error == ""
      ensures loading == old(loading)
    {
      form := WithField(form, field, value);
      error := "";
    }

    /** `validateForm`: sets the first failing check's message and reports
        whether the form may be sent. */
    method ValidateForm() returns (ok: bool)
      modifies this
      ensures ok == Valid(form)
      ensures !ok ==> error == FirstError(form).value
      ensures ok ==> error == old(error)
      ensures form == old(form) && loading == old(loading)
    {
      if !AllFilled(form) {
        error := MissingField;
        return false;
      }
      if form.password != form.confirmPassword {
        error := Mismatch;
        return false;
      }
      if |form.password| < MinPasswordLength {
        error := TooShort;
        return false;
      }
      if '@' !in form.email {
        error := BadEmail;
        return false;
      }
      return true;
    }

    /** The gate in front of the registration request: the error is cleared,
        then a form that fails a check is not sent. */
    method HandleSubmit() returns (send: bool)
      modifies this
      ensures send == Valid(form)
      ensures error == if send then "" else FirstError(form).value
      ensures form == old(form)
      ensures !send ==> loading == old(loading)
    {
      error := "";
      send := ValidateForm();
    }
  }
}
