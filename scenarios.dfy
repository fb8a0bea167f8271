/**
 * Sequences of events on a fresh form, each establishing one behaviour of
 * the account form that spans several handlers.
 */
module FormScenarios {
  import opened Optional
  import opened FieldValidators
  import opened AccountFormState

  /**
   * A sign-up sends the phone as "91" + phone, but the profile published
   * when the success callback fires keeps the phone as typed, and the form
   * is closed and cleared.
   */
  method SignupPublishesUnprefixedPhone(p: string, e: string, pw: string, d: LoginData)
    returns (sent: Option<Request>, published: Option<UserInfo>, open: bool)
    requires PhoneValid(p) && EmailValid(e) && PasswdValid(pw)
    ensures sent.Some? && Path(sent.value) == "/register"
    ensures sent.value.phone == "91" + p && sent.value.email == e && sent.value.passwd == pw
    ensures published.Some? && published.value.phone == p && !published.value.verified
    ensures published.value.email == e && published.value.passwd == pw
    ensures !open
  {
    var form := new AccountForm(true);
    form.HandleIsSignupVisible();
    form.OnPhoneChange(p);
    form.OnEmailChange(e);
    form.OnPasswdChange(pw);
    sent := form.HandleFormSubmit(Success(d));
    assert form.timers == [FinishSignup(SignupInfo(InitialFields.(phone := p, email := e, passwd := pw)))];
    form.RunTimer();
    published, open := form.userInfo, form.isFormOpen;
  }

  /**
   * A failed sign-up sends the request, shows "User already exists" and
   * leaves the form open with what was typed.
   */
  method FailedSignupKeepsFields(p: string, e: string, pw: string)
    returns (sent: Option<Request>, alert: string, open: bool, phone: string, email: string)
    requires PhoneValid(p) && EmailValid(e) && PasswdValid(pw)
    ensures sent.Some? && Path(sent.value) == "/register"
    ensures alert == UserAlreadyExists
    ensures open && phone == p && email == e
  {
    var form := new AccountForm(true);
    form.HandleIsSignupVisible();
    form.OnPhoneChange(p);
    form.OnEmailChange(e);
    form.OnPasswdChange(pw);
    sent := form.HandleFormSubmit(Failure);
    alert, open, phone, email := form.alertCont, form.isFormOpen, form.fields.phone, form.fields.email;
  }

  /**
   * A successful login stores the server's token, and the profile published
   * by the callback is the server's, with the typed email and password.
   */
  method LoginStoresToken(e: string, pw: string, d: LoginData)
    returns (sent: Option<Request>, token: Option<string>, published: Option<UserInfo>)
    requires EmailValid(e) && PasswdValid(pw)
    ensures sent == Some(Login(e, pw))
    ensures token == Some(d.accessToken)
    ensures published == Some(LoginInfo(d, e, pw))
  {
    var form := new AccountForm(true);
    form.OnEmailChange(e);
    form.OnPasswdChange(pw);
    sent := form.HandleFormSubmit(Success(d));
    form.RunTimer();
    token, published := form.token, form.userInfo;
  }

  /**
   * The phone flag is consulted in login mode too, where no phone field is
   * shown: an invalid phone typed during sign-up silently blocks a later
   * login, whatever the email and password.
   */
  method StalePhoneFlagBlocksLogin(p: string, e: string, pw: string, reply: Reply)
    returns (sent: Option<Request>)
    requires !PhoneValid(p)
    ensures sent == None
  {
    var form := new AccountForm(true);
    form.HandleIsSignupVisible();
    form.OnPhoneChange(p);
    form.HandleIsSignupVisible();
    form.OnEmailChange(e);
    form.OnPasswdChange(pw);
    sent := form.Submit(reply);
  }

  /**
   * Closing the form from outside clears the fields but not the flags, so an
   * invalid email typed before closing still blocks the forgot-password
   * request that follows. In a browser the emptied email input, being
   * `required`, stops the submission before the handler runs; the browser's
   * own form validation is not part of this model, so here the handler runs
   * and its stale-flag guard is what blocks the request.
   */
  method ResetKeepsEmailFlag(e: string, reply: Reply)
    returns (sent: Option<Request>, email: string)
    requires !EmailValid(e)
    ensures sent == None && email == ""
  {
    var form := new AccountForm(true);
    form.OnEmailChange(e);
    form.ResetForm();
    form.isFormOpen := true;  // reopened through the shared context, outside this component
    form.ShowForgotPassword();
    sent := form.Submit(reply);
    email := form.fields.email;
  }

  /**
   * The submit guard ignores the age flag: with `checkAge` failing on `a`,
   * the login request is still sent. No event of the form can set this
   * flag (there is no age input, and `Dispatch` keeps it false), so the
   * scenario sets it by calling `CheckAge` directly; it shows that the guard
   * would ignore the flag, not that a user can reach this state.
   */
  method AgeFlagIgnored(a: string, e: string, pw: string, reply: Reply) returns (sent: Option<Request>)
    requires !AgeValid(a) && EmailValid(e) && PasswdValid(pw)
    ensures sent == Some(Login(e, pw))
  {
    var form := new AccountForm(true);
    var ok := form.CheckAge(a);
    assert form.validity.isInvAge;
    form.OnEmailChange(e);
    form.OnPasswdChange(pw);
    sent := form.HandleFormSubmit(reply);
  }
}
