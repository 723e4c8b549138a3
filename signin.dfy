/** The sign-in page: its form state, validator, change handler and submit guard. */
module SignIn {
  import opened Email
  import opened Credentials

  datatype Form = Form(email: string, password: string)
  datatype Errors = Errors(email: string, password: string)
  datatype Field = EmailAddress | Password

  const EmptyForm := Form("", "")
  const NoErrors := Errors("", "")

  /** The errors `validateForm` commits. */
  function Validate(f: Form): Errors
  {
    Errors(EmailError(f.email), PasswordError(f.password))
  }

  /** Sign-in is attempted exactly for a well-formed address and a password of at least 8 characters. */
  lemma ValidateAcceptsExactly(f: Form)
    ensures Validate(f) == NoErrors <==> MatchesEmailRegex(f.email) && |f.password| >= 8
  {
    EmailErrorCases(f.email);
    PasswordErrorCases(f.password);
  }

  function ErrorOf(e: Errors, field: Field): string
  {
    match field
    case EmailAddress => e.email
    case Password => e.password
  }

  function ValueOf(f: Form, field: Field): string
  {
    match field
    case EmailAddress => f.email
    case Password => f.password
  }

  /** The form with the named field replaced by the new value, the other field kept. */
  function SetField(f: Form, field: Field, value: string): Form
  {
    match field
    case EmailAddress => f.(email := value)
    case Password => f.(password := value)
  }

  function ClearError(e: Errors, field: Field): Errors
  {
    match field
    case EmailAddress => e.(email := "")
    case Password => e.(password := "")
  }

  lemma SetFieldOnlyItsField(f: Form, field: Field, value: string, other: Field)
    ensures ValueOf(SetField(f, field, value), other) == if other == field then value else ValueOf(f, other)
  {
  }

  lemma ClearErrorOnlyItsField(e: Errors, cleared: Field, field: Field)
    ensures ErrorOf(ClearError(e, cleared), field) == if field == cleared then "" else ErrorOf(e, field)
  {
  }

  /** What `supabase.auth.signInWithPassword` gave back. */
  datatype SignInReply = SignInFailed | NoUser | SignedIn | SignInThrew

  class SignInPage {
    var form: Form
    var errors: Errors
    var isLoading: bool

    constructor ()
      ensures form == EmptyForm && errors == NoErrors && !isLoading
    {
      form, errors, isLoading := EmptyForm, NoErrors, false;
    }

    method ValidateForm() returns (ok: bool)
      modifies this`errors
      ensures errors == Validate(form)
      ensures ok <==> MatchesEmailRegex(form.email) && |form.password| >= 8
    {
      var newErrors := NoErrors;
      newErrors := newErrors.(email := EmailError(form.email));
      newErrors := newErrors.(password := PasswordError(form.password));
      errors := newErrors;
      ok := newErrors.email == "" && newErrors.password == "";
      ValidateAcceptsExactly(form);
    }

    method HandleChange(field: Field, value: string)
      modifies this`form, this`errors
      ensures form == SetField(old(form), field, value)
      ensures errors == ClearError(old(errors), field)
    {
      form := SetField(form, field, value);
      if ErrorOf(errors, field) != "" {
        errors := ClearError(errors, field);
      }
    }

    /**
     * `handleSubmit` with the sign-in answer as a parameter.  Only a failed or
     * throwing call turns `isLoading` off again; on success the page stays
     * loading until the redirect to the dashboard.
     */
    method HandleSubmit(reply: SignInReply) returns (signInCalled: bool, redirect: bool)
      modifies this`errors, this`isLoading
      ensures errors == Validate(form)
      ensures signInCalled <==> MatchesEmailRegex(form.email) && |form.password| >= 8
      ensures redirect <==> signInCalled && reply == SignedIn
      ensures isLoading == if !signInCalled then old(isLoading) else reply == SignedIn || reply == NoUser
    {
      redirect := false;
      signInCalled := ValidateForm();
      if !signInCalled {
        return;
      }
      isLoading := true;
      match reply {
        case SignInFailed =>
          isLoading := false;
          return;
        case SignInThrew =>
          isLoading := false;
        case NoUser =>
        case SignedIn =>
          redirect := true;
      }
    }
  }
}
