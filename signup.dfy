/**
 * The sign-up page: its form state, the field-by-field validator, the
 * change handler, and the submit guard with the profile it inserts.
 */
module SignUp {
  import opened Common
  import opened Text
  import opened Email
  import opened Credentials

  datatype Form = Form(
    displayName: string, teamName: string, email: string,
    password: string, confirmPassword: string, termsAccepted: bool)

  /** One message per field; "" means no error. */
  datatype Errors = Errors(
    displayName: string, teamName: string, email: string,
    password: string, confirmPassword: string, termsAccepted: string)

  datatype Field = DisplayName | TeamName | EmailAddress | Password | ConfirmPassword | TermsAccepted

  const EmptyForm := Form("", "", "", "", "", false)
  const NoErrors := Errors("", "", "", "", "", "")

  const DisplayNameRequired := "Display name is required"
  const DisplayNameTooShort := "Display name must be at least 3 characters"
  const TeamRequired := "Please select a team"
  const ConfirmRequired := "Please confirm your password"
  const PasswordsDiffer := "Passwords do not match"
  const TermsRequired := "You must accept the terms and privacy policy"

  /** Blank after trimming is missing; otherwise the untrimmed length must reach 3. */
  function DisplayNameError(name: string): string
  {
    if Trim(name) == "" then DisplayNameRequired
    else if |name| < 3 then DisplayNameTooShort
    else ""
  }

  function TeamError(team: string): string
  {
    if team == "" then TeamRequired else ""
  }

  function ConfirmError(password: string, confirm: string): string
  {
    if confirm == "" then ConfirmRequired
    else if password != confirm then PasswordsDiffer
    else ""
  }

  function TermsError(accepted: bool): string
  {
    if !accepted then TermsRequired else ""
  }

  /** The errors `validateForm` commits: every field is checked, not only the first failing one. */
  function Validate(f: Form): Errors
  {
    Errors(
      DisplayNameError(f.displayName), TeamError(f.teamName), EmailError(f.email),
      PasswordError(f.password), ConfirmError(f.password, f.confirmPassword), TermsError(f.termsAccepted))
  }

  function ErrorOf(e: Errors, field: Field): string
  {
    match field
    case DisplayName => e.displayName
    case TeamName => e.teamName
    case EmailAddress => e.email
    case Password => e.password
    case ConfirmPassword => e.confirmPassword
    case TermsAccepted => e.termsAccepted
  }

  /** What each field must satisfy for the form to be accepted, stated without the messages. */
  ghost predicate FieldAcceptable(f: Form, field: Field)
  {
    match field
    case DisplayName => !IsBlank(f.displayName) && |f.displayName| >= 3
    case TeamName => f.teamName != ""
    case EmailAddress => MatchesEmailRegex(f.email)
    case Password => |f.password| >= 8
    case ConfirmPassword => f.confirmPassword != "" && f.confirmPassword == f.password
    case TermsAccepted => f.termsAccepted
  }

  /** All six fields are acceptable. */
  ghost predicate Acceptable(f: Form)
  {
    forall field :: FieldAcceptable(f, field)
  }

  /** A field gets a message exactly when its value is not acceptable, whatever the other fields hold. */
  lemma FieldErrorIffUnacceptable(f: Form, field: Field)
    ensures ErrorOf(Validate(f), field) == "" <==> FieldAcceptable(f, field)
  {
    var e := Validate(f);
    match field
    case DisplayName =>
      DisplayNameCases(f.displayName);
      assert e.displayName == DisplayNameError(f.displayName);
    case TeamName =>
      assert e.teamName == TeamError(f.teamName);
    case EmailAddress =>
      EmailErrorCases(f.email);
      assert e.email == EmailError(f.email);
    case Password =>
      PasswordErrorCases(f.password);
      assert e.password == PasswordError(f.password);
    case ConfirmPassword =>
      ConfirmCases(f.password, f.confirmPassword);
      assert e.confirmPassword == ConfirmError(f.password, f.confirmPassword);
    case TermsAccepted =>
      assert e.termsAccepted == TermsError(f.termsAccepted);
  }

  /** `validateForm` returns true exactly for forms whose six fields are all acceptable. */
  lemma ValidateAcceptsExactly(f: Form)
    ensures Validate(f) == NoErrors <==> Acceptable(f)
  {
    FieldErrorIffUnacceptable(f, DisplayName);
    FieldErrorIffUnacceptable(f, TeamName);
    FieldErrorIffUnacceptable(f, EmailAddress);
    FieldErrorIffUnacceptable(f, Password);
    FieldErrorIffUnacceptable(f, ConfirmPassword);
    FieldErrorIffUnacceptable(f, TermsAccepted);
    if Acceptable(f) {
      assert FieldAcceptable(f, DisplayName) && FieldAcceptable(f, TeamName) && FieldAcceptable(f, EmailAddress);
      assert FieldAcceptable(f, Password) && FieldAcceptable(f, ConfirmPassword) && FieldAcceptable(f, TermsAccepted);
    }
  }

  /**
   * The display name's two messages: missing when it is only white space;
   * too short when the untrimmed text has fewer than 3 characters, so
   * surrounding spaces count toward the length.
   */
  lemma DisplayNameCases(name: string)
    ensures DisplayNameError(name) == DisplayNameRequired <==> IsBlank(name)
    ensures DisplayNameError(name) == DisplayNameTooShort <==> !IsBlank(name) && |name| < 3
    ensures DisplayNameError(name) == "" <==> !IsBlank(name) && |name| >= 3
  {
    TrimEmptyIffBlank(name);
  }

  /** The confirmation's two messages: missing when empty, otherwise any difference from the password. */
  lemma ConfirmCases(password: string, confirm: string)
    ensures ConfirmError(password, confirm) == ConfirmRequired <==> confirm == ""
    ensures ConfirmError(password, confirm) == PasswordsDiffer <==> confirm != "" && confirm != password
    ensures ConfirmError(password, confirm) == "" <==> confirm != "" && confirm == password
  {
  }

  /**
   * A change event: the input's `name`, its `value` and, for the terms
   * checkbox (the form's only checkbox), `checked`.
   */
  datatype Change = Change(name: Field, value: string, checked: bool)

  datatype Value = TextValue(text: string) | Flag(flag: bool)

  function ValueOf(f: Form, field: Field): Value
  {
    match field
    case DisplayName => TextValue(f.displayName)
    case TeamName => TextValue(f.teamName)
    case EmailAddress => TextValue(f.email)
    case Password => TextValue(f.password)
    case ConfirmPassword => TextValue(f.confirmPassword)
    case TermsAccepted => Flag(f.termsAccepted)
  }

  /** The value a change stores: `checked` for the checkbox, the text otherwise. */
  function NewValue(ch: Change): Value
  {
    if ch.name == TermsAccepted then Flag(ch.checked) else TextValue(ch.value)
  }

  /** The form with the named field replaced: by `checked` for the terms checkbox, by the text for every other field. */
  function ApplyChange(f: Form, ch: Change): Form
  {
    match ch.name
    case DisplayName => f.(displayName := ch.value)
    case TeamName => f.(teamName := ch.value)
    case EmailAddress => f.(email := ch.value)
    case Password => f.(password := ch.value)
    case ConfirmPassword => f.(confirmPassword := ch.value)
    case TermsAccepted => f.(termsAccepted := ch.checked)
  }

  /** The errors with the named field's message emptied, the other five kept. */
  function ClearError(e: Errors, field: Field): Errors
  {
    match field
    case DisplayName => e.(displayName := "")
    case TeamName => e.(teamName := "")
    case EmailAddress => e.(email := "")
    case Password => e.(password := "")
    case ConfirmPassword => e.(confirmPassword := "")
    case TermsAccepted => e.(termsAccepted := "")
  }

  /** A change sets the named field to the new value and leaves every other field as it was. */
  lemma ChangeSetsOnlyItsField(f: Form, ch: Change, field: Field)
    ensures ValueOf(ApplyChange(f, ch), field) == if field == ch.name then NewValue(ch) else ValueOf(f, field)
  {
  }

  /** Clearing empties the named field's message and keeps every other message. */
  lemma ClearErrorOnlyItsField(e: Errors, cleared: Field, field: Field)
    ensures ErrorOf(ClearError(e, cleared), field) == if field == cleared then "" else ErrorOf(e, field)
  {
  }

  /** The row inserted into `profiles` after a successful sign-up. */
  datatype Profile = Profile(id: string, displayName: string, teamId: string, subscriptionStatus: string)

  /** The display name is always "Player" and the subscription starts inactive, whatever was typed. */
  function NewProfile(userId: string, f: Form): Profile
  {
    Profile(userId, "Player", f.teamName, "inactive")
  }

  lemma NewProfileIgnoresDisplayName(userId: string, f: Form, g: Form)
    requires f.teamName == g.teamName
    ensures NewProfile(userId, f) == NewProfile(userId, g)
    ensures NewProfile(userId, f).displayName == "Player" && NewProfile(userId, f).subscriptionStatus == "inactive"
  {
  }

  /** What `supabase.auth.signUp` gave back. */
  datatype SignUpReply = SignUpFailed | NoUser | UserCreated(userId: string) | SignUpThrew

  class SignUpPage {
    var form: Form
    var errors: Errors
    var isLoading: bool

    constructor ()
      ensures form == EmptyForm && errors == NoErrors && !isLoading
    {
      form, errors, isLoading := EmptyForm, NoErrors, false;
    }

    /** `validateForm`: fills a fresh error record field by field, commits it, and reports whether it is empty. */
    method ValidateForm() returns (ok: bool)
      modifies this`errors
      ensures errors == Validate(form)
      ensures ok <==> errors == NoErrors
    {
      var newErrors := NoErrors;
      newErrors := newErrors.(displayName := DisplayNameError(form.displayName));
      newErrors := newErrors.(teamName := TeamError(form.teamName));
      newErrors := newErrors.(email := EmailError(form.email));
      newErrors := newErrors.(password := PasswordError(form.password));
      newErrors := newErrors.(confirmPassword := ConfirmError(form.password, form.confirmPassword));
      newErrors := newErrors.(termsAccepted := TermsError(form.termsAccepted));
      errors := newErrors;
      ok := newErrors == NoErrors;
    }

    /** `handleChange`: stores the new value and clears that field's message if it had one. */
    method HandleChange(ch: Change)
      modifies this`form, this`errors
      ensures form == ApplyChange(old(form), ch)
      ensures errors == ClearError(old(errors), ch.name)
    {
      form := ApplyChange(form, ch);
      if ErrorOf(errors, ch.name) != "" {
        errors := ClearError(errors, ch.name);
      }
    }

    /**
     * `handleSubmit`, with the backend's answers as parameters: `auth` for the
     * sign-up call and `profileFailed` for the profile insert.  Returns whether
     * sign-up was called, the profile row inserted, and whether the page
     * schedules the redirect to sign-in.
     */
    method HandleSubmit(auth: SignUpReply, profileFailed: bool)
      returns (signUpCalled: bool, inserted: Option<Profile>, redirect: bool)
      modifies this`errors, this`isLoading
      ensures errors == Validate(form)
      ensures signUpCalled <==> errors == NoErrors
      ensures inserted == if signUpCalled && auth.UserCreated? then Some(NewProfile(auth.userId, form)) else None
      ensures redirect <==> inserted.Some? && !profileFailed
      ensures isLoading == if signUpCalled then false else old(isLoading)
    {
      inserted, redirect := None, false;
      signUpCalled := ValidateForm();
      if !signUpCalled {
        return;
      }
      inserted, redirect := SignUpAndCreateProfile(auth, profileFailed);
    }

    /**
     * The `try` block of `handleSubmit`: sign up, insert the profile when a
     * user comes back, and schedule the redirect; every path ends with
     * `isLoading` off.
     */
    method SignUpAndCreateProfile(auth: SignUpReply, profileFailed: bool)
      returns (inserted: Option<Profile>, redirect: bool)
      modifies this`isLoading
      ensures inserted == if auth.UserCreated? then Some(NewProfile(auth.userId, form)) else None
      ensures redirect <==> inserted.Some? && !profileFailed
      ensures !isLoading
    {
      inserted, redirect := None, false;
      isLoading := true;
      match auth {
        case SignUpFailed =>
          isLoading := false;
          return;
        case SignUpThrew =>
          isLoading := false;
        case NoUser =>
        case UserCreated(id) =>
          inserted := Some(NewProfile(id, form));
          if profileFailed {
            isLoading := false;
            return;
          }
          redirect := true;
      }
      isLoading := false;
    }
  }
}
