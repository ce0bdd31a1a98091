/** The login screen (`loginPage.jsx`): both fields are required by the
    form library, and the submit handler compares the credentials with a
    fixed dummy account, the e-mail first. */
module Login {
  import opened Base

  datatype Credentials = Credentials(email: string, password: string)

  /** The only account the screen knows. */
  const DummyUser := Credentials("test@store.com", "1234")

  const EmailRequired := "이메일을 입력하세요."
  const PasswordRequired := "비밀번호를 입력하세요."
  const NoSuchEmail := "이메일이 존재하지 않습니다."
  const WrongPassword := "비밀번호가 틀렸습니다."

  /** What one press of the login button shows: the required-field
      messages (the handler does not run), an error under the e-mail or
      under the password, or the success alert and the move to the main
      page. */
  datatype LoginOutcome =
    | Missing(email: Option<string>, password: Option<string>)
    | EmailError(message: string)
    | PasswordError(message: string)
    | LoggedIn

  /** The submit handler: the e-mail is checked before the password. */
  function OnSubmit(c: Credentials): (r: LoginOutcome)
    ensures !r.Missing?
  {
    if c.email != DummyUser.email then EmailError(NoSuchEmail)
    else if c.password != DummyUser.password then PasswordError(WrongPassword)
    else LoggedIn
  }

  /** A press of the button: the form library reports every empty field
      and otherwise runs the handler. */
  function Press(c: Credentials): (r: LoginOutcome)
    ensures r.Missing? <==> c.email == "" || c.password == ""
    ensures r.Missing? ==> (r.email.Some? <==> c.email == "") && (r.password.Some? <==> c.password == "")
    ensures r == LoggedIn <==> c == DummyUser
  {
    if c.email == "" || c.password == "" then
      Missing(if c.email == "" then Some(EmailRequired) else None,
              if c.password == "" then Some(PasswordRequired) else None)
    else OnSubmit(c)
  }

  /** An unknown e-mail is reported whatever the password. */
  lemma UnknownEmail(c: Credentials)
    requires c.email != "" && c.password != ""
    ensures c.email != DummyUser.email <==> Press(c) == EmailError(NoSuchEmail)
  {
  }

  /** With the right e-mail, a wrong password is reported. */
  lemma WrongPasswordReported(c: Credentials)
    requires c.email == DummyUser.email && c.password != ""
    ensures c.password != DummyUser.password <==> Press(c) == PasswordError(WrongPassword)
  {
  }

  /** With both fields filled the handler runs and ends in exactly one of
      its three outcomes. */
  lemma OneOutcome(c: Credentials)
    requires c.email != "" && c.password != ""
    ensures Press(c) == OnSubmit(c)
    ensures Press(c) in {EmailError(NoSuchEmail), PasswordError(WrongPassword), LoggedIn}
  {
  }
}
