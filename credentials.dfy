/**
 * The e-mail and password checks that the sign-up and sign-in forms write
 * out identically, with their messages.
 */
module Credentials {
  import opened Text
  import opened Email

  const EmailRequired := "Email is required"
  const EmailInvalid := "Please enter a valid email"
  const PasswordRequired := "Password is required"
  const PasswordTooShort := "Password must be at least 8 characters"

  /** Blank after trimming: required; otherwise the untrimmed text must have the e-mail shape. */
  function EmailError(email: string): string
  {
    if Trim(email) == "" then EmailRequired
    else if !ValidateEmail(email) then EmailInvalid
    else ""
  }

  /** No trimming: only the empty password is missing, and fewer than 8 characters is too short. */
  function PasswordError(password: string): string
  {
    if password == "" then PasswordRequired
    else if |password| < 8 then PasswordTooShort
    else ""
  }

  /** The three outcomes of the e-mail check, each by what the text is. */
  lemma EmailErrorCases(email: string)
    ensures EmailError(email) == "" <==> MatchesEmailRegex(email)
    ensures EmailError(email) == EmailRequired <==> IsBlank(email)
    ensures EmailError(email) == EmailInvalid <==> !IsBlank(email) && !MatchesEmailRegex(email)
  {
    TrimEmptyIffBlank(email);
    ValidateEmailIsRegex(email);
    if ValidateEmail(email) {
      ValidEmailIsNotBlank(email);
    }
  }

  /** A typed address with a leading or trailing space is reported as invalid, not trimmed. */
  lemma PaddedEmailReported(email: string)
    requires !IsBlank(email)
    requires IsSpace(email[0]) || IsSpace(email[|email| - 1])
    ensures EmailError(email) == EmailInvalid
  {
    TrimEmptyIffBlank(email);
    PaddedEmailIsInvalid(email);
  }

  lemma PasswordErrorCases(password: string)
    ensures PasswordError(password) == "" <==> |password| >= 8
    ensures PasswordError(password) == PasswordRequired <==> |password| == 0
    ensures PasswordError(password) == PasswordTooShort <==> 0 < |password| < 8
  {
  }
}
