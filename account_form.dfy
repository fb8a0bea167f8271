/**
 * The state of the account form (login, sign-up and forgot-password modes)
 * and its handlers. Every React state variable is a field that the handlers
 * assign directly; the awaited POST is a `Reply` argument, and each handler
 * returns the request it would send. The `setTimeout` callbacks that a
 * handler schedules are kept, in firing order, in `timers`, and run one at a
 * time by `RunTimer` when a `TimerFires` event arrives.
 */
module AccountFormState {
  import opened Optional
  import opened FieldValidators

  /** Severity of the alert; `NoAlert` is the empty string, which hides it */
  datatype AlertKind = NoAlert | SuccessAlert | ErrorAlert

  /** The `data` of a successful `/login` response */
  datatype LoginData = LoginData(
    accessToken: string, username: string, usertype: string, gender: string,
    phone: string, specialization: string, age: string, verified: bool)

  /** How the awaited `httpClient.post` ended: it threw, or it resolved with a response */
  datatype Reply = Failure | Success(data: LoginData)

  /** The body of each POST the form sends; the constructor names the endpoint */
  datatype Request =
    | ForgotPassword(email: string)
    | Register(username: string, registerer: string, age: string, gender: string,
               phone: string, email: string, passwd: string, specialization: string)
    | Login(email: string, passwd: string)

  /** The profile handed to the shared context's `setFormUserInfo` */
  datatype UserInfo = UserInfo(
    username: string, usertype: string, gender: string, phone: string, email: string,
    passwd: string, specialization: string, age: string, verified: bool)

  /**
   * A callback scheduled with `setTimeout(…, 1500)`. The callbacks of a
   * successful sign-up or login carry the profile their closure captured.
   */
  datatype Deferred =
    | ClearAlert
    | ClearAlertEndForgot
    | FinishSignup(info: UserInfo)
    | FinishLogin(info: UserInfo)

  /** A new value typed or picked in one of the inputs */
  datatype InputEvent =
    | UsertypeChange(value: string)
    | UsernameChange(value: string)
    | SpecializationChange(value: string)
    | DoctorIdChange(value: string)
    | GenderChange(value: string)
    | PhoneChange(value: string)
    | EmailChange(value: string)
    | PasswdChange(value: string)

  /** The buttons that change the mode or close the form, and a click outside it */
  datatype Control = ToggleSignup | ForgotPasswordOn | ForgotPasswordOff | CloseButton | OutsideClick

  /** What the rendered form reacts to, and the timer */
  datatype Event =
    | Input(input: InputEvent)
    | Click(control: Control)
    | SubmitForm(reply: Reply)
    | TimerFires

  function Path(r: Request): (path: string)
    ensures path == "/forgot_password" <==> r.ForgotPassword?
    ensures path == "/register" <==> r.Register?
    ensures path == "/login" <==> r.Login?
  {
    match r
    case ForgotPassword(_) => "/forgot_password"
    case Register(_, _, _, _, _, _, _, _) => "/register"
    case Login(_, _) => "/login"
  }

  /** The alert texts */
  const ResetLinkSent := "Password reset link sent to your email"
  const SignupSuccessful := "Signup Successful"
  const LoginSuccessful := "Login Successful"
  const EmailNotFound := "Email not found"
  const UserAlreadyExists := "User already exists"
  const LoginFailed := "Login Failed"

  /** The alert after a request succeeds; each endpoint has its own text */
  function SuccessText(r: Request): (t: string)
    ensures t == ResetLinkSent <==> r.ForgotPassword?
    ensures t == SignupSuccessful <==> r.Register?
    ensures t == LoginSuccessful <==> r.Login?
  {
    match r
    case ForgotPassword(_) => ResetLinkSent
    case Register(_, _, _, _, _, _, _, _) => SignupSuccessful
    case Login(_, _) => LoginSuccessful
  }

  /** The alert after a request throws; each endpoint has its own text */
  function FailureText(r: Request): (t: string)
    ensures t == EmailNotFound <==> r.ForgotPassword?
    ensures t == UserAlreadyExists <==> r.Register?
    ensures t == LoginFailed <==> r.Login?
  {
    match r
    case ForgotPassword(_) => EmailNotFound
    case Register(_, _, _, _, _, _, _, _) => UserAlreadyExists
    case Login(_, _) => LoginFailed
  }

  /**
   * The alert text alone tells which endpoint was called and whether the
   * call succeeded: no success text is a failure text, and two requests
   * share a text only when they go to the same endpoint.
   */
  lemma AlertTextIdentifiesOutcome(r: Request, r': Request)
    ensures SuccessText(r) != FailureText(r')
    ensures SuccessText(r) == SuccessText(r') <==> Path(r) == Path(r')
    ensures FailureText(r) == FailureText(r') <==> Path(r) == Path(r')
  {
  }

  /** The profile a successful login publishes: the server's, with the typed email and password */
  function LoginInfo(d: LoginData, email: string, passwd: string): (info: UserInfo)
    ensures info.email == email && info.passwd == passwd
    ensures info.phone == d.phone && info.verified == d.verified
    ensures info.username == d.username && info.usertype == d.usertype && info.gender == d.gender
    ensures info.specialization == d.specialization && info.age == d.age
  {
    UserInfo(d.username, d.usertype, d.gender, d.phone, email, passwd, d.specialization, d.age, d.verified)
  }

  /** The values of the form's inputs */
  datatype Fields = Fields(
    username: string, usertype: string, age: string, gender: string, phone: string,
    email: string, passwd: string, specialization: string, doctorId: string)

  /** The inputs' initial values */
  const InitialFields := Fields("", "patient", "", "male", "", "", "", "", "")

  /** The validity flags; each holds the negation of its validator's last result */
  datatype Validity = Validity(isInvEmail: bool, isInvPass: bool, isInvPhone: bool, isInvAge: bool)

  /**
   * The request `handleFormSubmit` sends: a registration in sign-up mode,
   * with the phone prefixed by "91" and without the doctor ID, and a login
   * otherwise.
   */
  function FormRequest(f: Fields, signup: bool): (r: Request)
    ensures r.Register? <==> signup
    ensures r.Login? <==> !signup
    ensures r.email == f.email && r.passwd == f.passwd
    ensures r.Register? ==>
              r.phone == "91" + f.phone && r.registerer == f.usertype && r.age == f.age &&
              r.username == f.username && r.gender == f.gender && r.specialization == f.specialization
  {
    if signup then
      Register(f.username, f.usertype, f.age, f.gender, "91" + f.phone, f.email, f.passwd, f.specialization)
    else
      Login(f.email, f.passwd)
  }

  /** The profile the sign-up callback captures: the inputs as typed, the phone without "91", not verified */
  function SignupInfo(f: Fields): (info: UserInfo)
    ensures info.phone == f.phone && info.usertype == f.usertype && info.email == f.email
    ensures info.username == f.username && info.passwd == f.passwd && info.age == f.age
    ensures info.gender == f.gender && info.specialization == f.specialization
    ensures !info.verified
  {
    UserInfo(f.username, f.usertype, f.gender, f.phone, f.email, f.passwd, f.specialization, f.age, false)
  }

  /** The registration payload and the published profile differ in the phone, by the "91" prefix only */
  lemma RegisterPhonePrefixed(f: Fields)
    ensures FormRequest(f, true).phone == "91" + SignupInfo(f).phone
    ensures FormRequest(f, true).phone != SignupInfo(f).phone
  {
  }

  class AccountForm {
    /** `isFormOpen` of the shared context, set through `toggleForm` */
    var isFormOpen: bool
    var fields: Fields
    var validity: Validity
    var isForgotPassword: bool
    var isSignupVisible: bool
    var isAlert: AlertKind
    var alertCont: string
    var isSuccessLoading: bool
    /** Pending `setTimeout` callbacks; all have the same delay, so they fire in this order */
    var timers: seq<Deferred>
    /** The last profile given to the shared context's `setFormUserInfo` */
    var userInfo: Option<UserInfo>
    /** The browser's stored `"token"` */
    var token: Option<string>

    /**
     * What holds between events: no handler is half-way through; the
     * forgot-password and sign-up modes exclude each other; no age is ever
     * entered or checked; an alert is only shown while a callback that
     * hides it is pending, and its text matches its kind; the radio
     * buttons only offer the listed values; a non-empty phone, email or
     * password has its flag set exactly when its check rejects it.
     */
    ghost predicate Valid()
      reads this
    {
      && !isSuccessLoading
      && !(isForgotPassword && isSignupVisible)
      && fields.age == "" && !validity.isInvAge
      && (isAlert != NoAlert ==> timers != [])
      && (isAlert == SuccessAlert ==>
            alertCont in [ResetLinkSent, SignupSuccessful, LoginSuccessful])
      && (isAlert == ErrorAlert ==>
            alertCont in [EmailNotFound, UserAlreadyExists, LoginFailed])
      && fields.usertype in ["patient", "doctor"]
      && fields.gender in ["male", "female", "other"]
      && (fields.phone != "" ==> validity.isInvPhone == !PhoneValid(fields.phone))
      && (fields.email != "" ==> validity.isInvEmail == !EmailValid(fields.email))
      && (fields.passwd != "" ==> validity.isInvPass == !PasswdValid(fields.passwd))
    }

    /** The initial `useState` values */
    constructor (formOpen: bool)
      ensures Valid()
      ensures isFormOpen == formOpen
      ensures fields == InitialFields
      ensures validity == Validity(false, false, false, false)
      ensures !isForgotPassword && !isSignupVisible
      ensures isAlert == NoAlert && alertCont == ""
      ensures timers == [] && userInfo == None && token == None
    {
      isFormOpen := formOpen;
      fields := InitialFields;
      validity := Validity(false, false, false, false);
      isForgotPassword, isSignupVisible := false, false;
      isAlert, alertCont, isSuccessLoading := NoAlert, "", false;
      timers, userInfo, token := [], None, None;
    }

    // -------------------------------------------------------------------
    // Validators: each records the negation of its result in its own flag

    method CheckAge(a: string) returns (t: bool)
      modifies this`validity
      ensures t == AgeValid(a)
      ensures t <==> 1 <= |a| <= 3 && AllDigits(a) && 1 <= DecimalValue(a) <= 120
      ensures validity == old(validity).(isInvAge := !t)
    {
      t := AgeValid(a);
      AgeValidIff(a);
      validity := validity.(isInvAge := !t);
    }

    method CheckEmail(e: string) returns (res: bool)
      modifies this`validity
      ensures res == EmailValid(e)
      ensures res ==> Count('@', e) == 1
      ensures validity == old(validity).(isInvEmail := !res)
    {
      res := EmailValid(e);
      if res {
        EmailShape(e);
      }
      validity := validity.(isInvEmail := !res);
    }

    method CheckPasswd(p: string) returns (res: bool)
      modifies this`validity
      ensures res == PasswdValid(p)
      ensures res <==> |p| >= 6 && NoLineTerminator(p)
      ensures validity == old(validity).(isInvPass := !res)
    {
      res := PasswdValid(p);
      PasswdValidIff(p);
      validity := validity.(isInvPass := !res);
    }

    method ValidatePhoneNumber(p: string) returns (res: bool)
      modifies this`validity
      ensures res == PhoneValid(p)
      ensures res ==> 10 <= |p| <= 12
      ensures validity == old(validity).(isInvPhone := !res)
    {
      res := PhoneValid(p);
      if res {
        PhoneLength(p);
      }
      validity := validity.(isInvPhone := !res);
    }

    /** The phone input: validate the new value, then store it */
    method OnPhoneChange(v: string)
      modifies this`validity, this`fields
      ensures fields == old(fields).(phone := v)
      ensures validity == old(validity).(isInvPhone := !PhoneValid(v))
      ensures old(Valid()) ==> Valid()
    {
      var _ := ValidatePhoneNumber(v);
      fields := fields.(phone := v);
    }

    /** The email input: validate the new value, then store it */
    method OnEmailChange(v: string)
      modifies this`validity, this`fields
      ensures fields == old(fields).(email := v)
      ensures validity == old(validity).(isInvEmail := !EmailValid(v))
      ensures old(Valid()) ==> Valid()
    {
      var _ := CheckEmail(v);
      fields := fields.(email := v);
    }

    /** The password input: validate the new value, then store it */
    method OnPasswdChange(v: string)
      modifies this`validity, this`fields
      ensures fields == old(fields).(passwd := v)
      ensures validity == old(validity).(isInvPass := !PasswdValid(v))
      ensures old(Valid()) ==> Valid()
    {
      var _ := CheckPasswd(v);
      fields := fields.(passwd := v);
    }

    /** The user-type radio buttons store the value of the one chosen */
    method OnUsertypeChange(v: string)
      modifies this`fields
      ensures fields == old(fields).(usertype := v)
      ensures old(Valid()) && v in ["patient", "doctor"] ==> Valid()
    {
      fields := fields.(usertype := v);
    }

    /** The name input stores its value unchecked */
    method OnUsernameChange(v: string)
      modifies this`fields
      ensures fields == old(fields).(username := v)
      ensures old(Valid()) ==> Valid()
    {
      fields := fields.(username := v);
    }

    /** The specialization input stores its value unchecked */
    method OnSpecializationChange(v: string)
      modifies this`fields
      ensures fields == old(fields).(specialization := v)
      ensures old(Valid()) ==> Valid()
    {
      fields := fields.(specialization := v);
    }

    /** The doctor ID input stores its value unchecked; nothing sends or resets it */
    method OnDoctorIdChange(v: string)
      modifies this`fields
      ensures fields == old(fields).(doctorId := v)
      ensures old(Valid()) ==> Valid()
    {
      fields := fields.(doctorId := v);
    }

    /** The gender radio buttons store the value of the one chosen */
    method OnGenderChange(v: string)
      modifies this`fields
      ensures fields == old(fields).(gender := v)
      ensures old(Valid()) && v in ["male", "female", "other"] ==> Valid()
    {
      fields := fields.(gender := v);
    }

    // -------------------------------------------------------------------
    // Mode transitions

    /**
     * Closes the form, puts every input except the doctor ID back to its
     * initial value and leaves both special modes; the validity flags are kept.
     */
    method ResetForm()
      modifies this`isFormOpen, this`fields, this`isForgotPassword, this`isSignupVisible
      ensures !isFormOpen
      ensures fields == InitialFields.(doctorId := old(fields.doctorId))
      ensures !isForgotPassword && !isSignupVisible
      ensures validity == old(validity)
    {
      isFormOpen := false;
      fields := fields.(username := "", usertype := "patient", age := "", gender := "male", phone := "",
                        email := "", passwd := "", specialization := "");
      isForgotPassword := false;
      isSignupVisible := false;
    }

    /** Switches between login and sign-up, always leaving forgot-password mode */
    method HandleIsSignupVisible()
      modifies this`isSignupVisible, this`isForgotPassword
      ensures isSignupVisible == !old(isSignupVisible)
      ensures !isForgotPassword
    {
      isSignupVisible := !isSignupVisible;
      isForgotPassword := false;
    }

    /** The "Forgot Password?" button, shown in login mode only */
    method ShowForgotPassword()
      modifies this`isForgotPassword
      ensures isForgotPassword
    {
      isForgotPassword := true;
    }

    /** The "Back to Login" button */
    method HideForgotPassword()
      modifies this`isForgotPassword
      ensures !isForgotPassword
    {
      isForgotPassword := false;
    }

    // -------------------------------------------------------------------
    // Submission

    /** Sends the reset request unless the email is flagged invalid */
    method HandleForgotPassword(reply: Reply) returns (sent: Option<Request>)
      modifies this`isSuccessLoading, this`isAlert, this`alertCont, this`timers
      ensures sent.None? <==> old(validity.isInvEmail)
      ensures sent.None? ==> unchanged(this)
      ensures sent.Some? ==> sent.value == ForgotPassword(old(fields.email))
      ensures sent.Some? && reply.Success? ==>
                isAlert == SuccessAlert && alertCont == ResetLinkSent &&
                timers == old(timers) + [ClearAlertEndForgot]
      ensures sent.Some? && reply.Failure? ==>
                isAlert == ErrorAlert && alertCont == EmailNotFound &&
                timers == old(timers) + [ClearAlert]
      ensures !isSuccessLoading || sent.None?
    {
      if validity.isInvEmail {
        return None;
      }
      isSuccessLoading := true;
      sent := Some(ForgotPassword(fields.email));
      if reply.Success? {
        isAlert := SuccessAlert;
        alertCont := ResetLinkSent;
        timers := timers + [ClearAlertEndForgot];
      } else {
        isAlert := ErrorAlert;
        alertCont := EmailNotFound;
        timers := timers + [ClearAlert];
      }
      isSuccessLoading := false;
    }

    /**
     * Registers or logs in unless the email, password or phone is flagged
     * invalid; the age flag is not consulted.
     */
    method HandleFormSubmit(reply: Reply) returns (sent: Option<Request>)
      modifies this`isSuccessLoading, this`isAlert, this`alertCont, this`timers, this`token
      ensures sent.None? <==> old(validity.isInvEmail || validity.isInvPass || validity.isInvPhone)
      ensures sent.None? ==> unchanged(this)
      ensures sent.Some? ==> sent.value == old(FormRequest(fields, isSignupVisible))
      ensures sent.Some? && reply.Failure? ==>
                isAlert == ErrorAlert && timers == old(timers) + [ClearAlert] && token == old(token) &&
                alertCont == (if old(isSignupVisible) then UserAlreadyExists else LoginFailed)
      ensures sent.Some? && reply.Success? && old(isSignupVisible) ==>
                isAlert == SuccessAlert && alertCont == SignupSuccessful && token == old(token) &&
                timers == old(timers) + [FinishSignup(SignupInfo(old(fields)))]
      ensures sent.Some? && reply.Success? && !old(isSignupVisible) ==>
                isAlert == SuccessAlert && alertCont == LoginSuccessful &&
                token == Some(reply.data.accessToken) &&
                timers == old(timers) + [FinishLogin(LoginInfo(reply.data, old(fields.email), old(fields.passwd)))]
      ensures !isSuccessLoading || sent.None?
    {
      if validity.isInvEmail || validity.isInvPass || validity.isInvPhone {
        return None;
      }
      isSuccessLoading := true;
      sent := Some(FormRequest(fields, isSignupVisible));
      if reply.Failure? {
        isAlert := ErrorAlert;
        alertCont := if isSignupVisible then UserAlreadyExists else LoginFailed;
        timers := timers + [ClearAlert];
      } else if isSignupVisible {
        isAlert := SuccessAlert;
        alertCont := SignupSuccessful;
        timers := timers + [FinishSignup(SignupInfo(fields))];
      } else {
        token := Some(reply.data.accessToken);
        isAlert := SuccessAlert;
        alertCont := LoginSuccessful;
        timers := timers + [FinishLogin(LoginInfo(reply.data, fields.email, fields.passwd))];
      }
      isSuccessLoading := false;
    }

    /**
     * Submitting the form runs the forgot-password handler in that mode and
     * `handleFormSubmit` otherwise: the request goes to `/forgot_password`,
     * `/register` or `/login`, and the alert names its outcome.
     */
    method Submit(reply: Reply) returns (sent: Option<Request>)
      requires Valid()
      modifies this`isSuccessLoading, this`isAlert, this`alertCont, this`timers, this`token
      ensures Valid()
      ensures sent.None? <==>
                if old(isForgotPassword) then old(validity.isInvEmail)
                else old(validity.isInvEmail || validity.isInvPass || validity.isInvPhone)
      ensures sent.None? ==> unchanged(this)
      ensures sent.Some? ==>
                Path(sent.value) ==
                  if old(isForgotPassword) then "/forgot_password"
                  else if old(isSignupVisible) then "/register" else "/login"
      ensures sent.Some? ==> sent.value.email == old(fields.email)
      ensures sent.Some? && sent.value.Register? ==>
                sent.value.phone == "91" + old(fields.phone) && sent.value.age == ""
      ensures sent.Some? && sent.value.Register? ==>
                (old(fields.phone) == "" || PhoneValid(old(fields.phone))) && !PhoneValid(sent.value.phone)
      ensures sent.Some? ==>
                (old(fields.email) == "" || EmailValid(old(fields.email))) &&
                (sent.value.ForgotPassword? || old(fields.passwd) == "" || PasswdValid(old(fields.passwd)))
      ensures sent.Some? ==>
                isAlert == (if reply.Success? then SuccessAlert else ErrorAlert) &&
                alertCont == (if reply.Success? then SuccessText(sent.value) else FailureText(sent.value))
      ensures sent.Some? ==> |timers| == |old(timers)| + 1 && timers[..|old(timers)|] == old(timers)
    {
      if fields.phone != "" && !validity.isInvPhone {
        PrefixedPhoneRejected(fields.phone);
      }
      if isForgotPassword {
        sent := HandleForgotPassword(reply);
      } else {
        sent := HandleFormSubmit(reply);
      }
    }

    // -------------------------------------------------------------------
    // Closing and the deferred callbacks

    /** The close button hides the form through the context only; the inputs keep their values */
    method CloseForm()
      modifies this`isFormOpen
      ensures !isFormOpen
    {
      isFormOpen := false;
    }

    /** The oldest pending callback runs: it hides the alert, and the sign-up and login ones publish and reset */
    method RunTimer()
      requires timers != []
      modifies this`timers, this`isAlert, this`isForgotPassword, this`userInfo,
               this`isFormOpen, this`fields, this`isSignupVisible
      ensures timers == old(timers[1..])
      ensures isAlert == NoAlert
      ensures old(timers[0]).ClearAlert? ==>
                isForgotPassword == old(isForgotPassword) && isSignupVisible == old(isSignupVisible) &&
                isFormOpen == old(isFormOpen) && fields == old(fields) && userInfo == old(userInfo)
      ensures old(timers[0]).ClearAlertEndForgot? ==>
                !isForgotPassword && isSignupVisible == old(isSignupVisible) &&
                isFormOpen == old(isFormOpen) && fields == old(fields) && userInfo == old(userInfo)
      ensures old(timers[0]).FinishSignup? || old(timers[0]).FinishLogin? ==>
                userInfo == Some(old(timers[0]).info) && !isFormOpen &&
                !isForgotPassword && !isSignupVisible &&
                fields == InitialFields.(doctorId := old(fields.doctorId))
    {
      var callback := timers[0];
      timers := timers[1..];
      match callback
      case ClearAlert =>
        isAlert := NoAlert;
      case ClearAlertEndForgot =>
        isAlert := NoAlert;
        isForgotPassword := false;
      case FinishSignup(info) =>
        isAlert := NoAlert;
        userInfo := Some(info);
        ResetForm();
      case FinishLogin(info) =>
        isAlert := NoAlert;
        ResetForm();
        userInfo := Some(info);
    }

    // -------------------------------------------------------------------
    // Events

    /** Whether the input an event comes from is rendered, and the value is one it can produce */
    predicate InputEnabled(e: InputEvent)
      reads this
    {
      && isFormOpen
      && match e
         case UsertypeChange(v) => isSignupVisible && v in ["patient", "doctor"]
         case UsernameChange(_) => isSignupVisible
         case SpecializationChange(_) => isSignupVisible && fields.usertype == "doctor"
         case DoctorIdChange(_) => isSignupVisible && fields.usertype == "doctor"
         case GenderChange(v) => isSignupVisible && v in ["male", "female", "other"]
         case PhoneChange(_) => isSignupVisible
         case EmailChange(_) => true
         case PasswdChange(_) => !isForgotPassword
    }

    /** Whether the button is rendered; a click outside counts while the form is open */
    predicate ControlEnabled(c: Control)
      reads this
    {
      && isFormOpen
      && match c
         case ToggleSignup => !isForgotPassword
         case ForgotPasswordOn => !isSignupVisible && !isForgotPassword
         case ForgotPasswordOff => isForgotPassword
         case CloseButton => true
         case OutsideClick => true
    }

    /** Whether the event can happen: its control is rendered, or the timer has a callback to run */
    predicate Enabled(ev: Event)
      reads this
    {
      match ev
      case Input(e) => InputEnabled(e)
      case Click(c) => ControlEnabled(c)
      case SubmitForm(_) => isFormOpen && !isSuccessLoading
      case TimerFires => timers != []
    }

    /** The `onChange` handlers: the three validated inputs check the new value before storing it */
    method HandleInput(e: InputEvent)
      requires Valid() && InputEnabled(e)
      modifies this`fields, this`validity
      ensures Valid()
      ensures e.UsertypeChange? ==> fields == old(fields).(usertype := e.value) && validity == old(validity)
      ensures e.UsernameChange? ==> fields == old(fields).(username := e.value) && validity == old(validity)
      ensures e.SpecializationChange? ==>
                fields == old(fields).(specialization := e.value) && validity == old(validity)
      ensures e.DoctorIdChange? ==> fields == old(fields).(doctorId := e.value) && validity == old(validity)
      ensures e.GenderChange? ==> fields == old(fields).(gender := e.value) && validity == old(validity)
      ensures e.PhoneChange? ==>
                fields == old(fields).(phone := e.value) &&
                validity == old(validity).(isInvPhone := !PhoneValid(e.value))
      ensures e.EmailChange? ==>
                fields == old(fields).(email := e.value) &&
                validity == old(validity).(isInvEmail := !EmailValid(e.value))
      ensures e.PasswdChange? ==>
                fields == old(fields).(passwd := e.value) &&
                validity == old(validity).(isInvPass := !PasswdValid(e.value))
    {
      match e
      case UsertypeChange(v) =>
        OnUsertypeChange(v);
      case UsernameChange(v) =>
        OnUsernameChange(v);
      case SpecializationChange(v) =>
        OnSpecializationChange(v);
      case DoctorIdChange(v) =>
        OnDoctorIdChange(v);
      case GenderChange(v) =>
        OnGenderChange(v);
      case PhoneChange(v) =>
        OnPhoneChange(v);
      case EmailChange(v) =>
        OnEmailChange(v);
      case PasswdChange(v) =>
        OnPasswdChange(v);
    }

    /** The `onClick` handlers of the mode buttons and the close button, and the outside-click hook */
    method HandleClick(c: Control)
      requires Valid() && ControlEnabled(c)
      modifies this`isFormOpen, this`fields, this`isForgotPassword, this`isSignupVisible
      ensures Valid()
      ensures c.ToggleSignup? ==>
                isSignupVisible == !old(isSignupVisible) && !isForgotPassword &&
                isFormOpen && fields == old(fields)
      ensures c.ForgotPasswordOn? ==>
                isForgotPassword && !isSignupVisible && isFormOpen && fields == old(fields)
      ensures c.ForgotPasswordOff? ==>
                !isForgotPassword && isSignupVisible == old(isSignupVisible) &&
                isFormOpen && fields == old(fields)
      ensures c.CloseButton? ==>
                !isFormOpen && fields == old(fields) &&
                isForgotPassword == old(isForgotPassword) && isSignupVisible == old(isSignupVisible)
      ensures c.OutsideClick? ==>
                !isFormOpen && !isForgotPassword && !isSignupVisible &&
                fields == InitialFields.(doctorId := old(fields.doctorId))
    {
      match c
      case ToggleSignup =>
        HandleIsSignupVisible();
      case ForgotPasswordOn =>
        ShowForgotPassword();
      case ForgotPasswordOff =>
        HideForgotPassword();
      case CloseButton =>
        CloseForm();
      case OutsideClick =>
        ResetForm();
    }

    /**
     * Runs the handler wired to an event. No event reaches `checkAge` or
     * edits the age, and only a submission sends a request.
     */
    method Dispatch(ev: Event) returns (sent: Option<Request>)
      requires Valid() && Enabled(ev)
      modifies this
      ensures Valid()
      ensures !ev.SubmitForm? ==> sent == None
      ensures validity.isInvAge == old(validity.isInvAge) && fields.age == old(fields.age)
      ensures !(ev.Input? && ev.input.DoctorIdChange?) ==> fields.doctorId == old(fields.doctorId)
      ensures !ev.SubmitForm? ==> token == old(token)
      ensures !ev.TimerFires? ==> userInfo == old(userInfo)
      ensures ev.Input? || ev.Click? ==>
                timers == old(timers) && isAlert == old(isAlert) && alertCont == old(alertCont)
      ensures !ev.Input? ==> validity == old(validity)
    {
      sent := None;
      match ev
      case Input(e) =>
        HandleInput(e);
      case Click(c) =>
        HandleClick(c);
      case SubmitForm(reply) =>
        sent := Submit(reply);
      case TimerFires =>
        RunTimer();
    }
  }
}
