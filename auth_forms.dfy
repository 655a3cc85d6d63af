/** The `formIsValid` checks of the sign-up and sign-in forms, which enable
    their submit buttons, and the sign-up form's password-match indicator. */
module AuthForms {
  /** `password.count > 5`, counted here in Unicode scalars. */
  const MIN_PASSWORD_LENGTH: nat := 6

  /** `RegistrationView.formIsValid`. */
  predicate RegistrationFormIsValid(email: string, password: string, confirmPassword: string, fullname: string)
  {
    && email != []
    && '@' in email
    && password != []
    && |password| > 5
    && password == confirmPassword
    && fullname != []
  }

  /** `SignInEmailView.formIsValid`. */
  predicate SignInFormIsValid(email: string, password: string)
  {
    email != [] && '@' in email && password != [] && |password| > 5
  }

  /** The icon beside the confirmation field. */
  datatype MatchIndicator = NoIndicator | Checkmark | Cross

  function PasswordMatchIndicator(password: string, confirmPassword: string): MatchIndicator
  {
    if password != [] && confirmPassword != [] then
      if password == confirmPassword then Checkmark else Cross
    else NoIndicator
  }

  /** A valid sign-up form has a password of at least six characters typed
      twice the same, so its indicator shows the checkmark, and the same
      email and password also pass the sign-in check. */
  lemma RegistrationValidMeans(email: string, password: string, confirmPassword: string, fullname: string)
    requires RegistrationFormIsValid(email, password, confirmPassword, fullname)
    ensures |password| >= MIN_PASSWORD_LENGTH && password == confirmPassword
    ensures PasswordMatchIndicator(password, confirmPassword) == Checkmark
    ensures SignInFormIsValid(email, password)
  {
  }

  /** The indicator shows only once both fields hold something, and then
      shows the checkmark exactly when they agree. */
  lemma IndicatorMeans(password: string, confirmPassword: string)
    ensures PasswordMatchIndicator(password, confirmPassword) != NoIndicator <==> password != [] && confirmPassword != []
    ensures PasswordMatchIndicator(password, confirmPassword) == Checkmark <==> password != [] && password == confirmPassword
  {
  }

  /** Both emptiness tests of the sign-in check are implied by the others:
      an email holding `@` is not empty, nor is a password longer than
      five characters. */
  lemma SignInEmptinessTestsRedundant(email: string, password: string)
    ensures SignInFormIsValid(email, password) <==> '@' in email && |password| >= MIN_PASSWORD_LENGTH
  {
  }

  /** The sign-up form adds exactly the full name and the confirmation to
      the sign-in check. */
  lemma RegistrationExtendsSignIn(email: string, password: string, confirmPassword: string, fullname: string)
    ensures RegistrationFormIsValid(email, password, confirmPassword, fullname) <==>
      SignInFormIsValid(email, password) && password == confirmPassword && fullname != []
  {
  }
}
