# Account form of TelMedSphere: validators and mode state machine

This project models the two parts of the telemedicine web client's account
form (`frontend/src/components/form/Accountform.jsx`) that can be stated
exactly:

- **The four field validators.** `checkAge`, `checkEmail`, `checkPasswd` and
  `validatePhoneNumber` are written as predicates over `seq<char>` in module
  `FieldValidators` (`validators.dfy`). Each predicate follows the structure of
  its JavaScript regular expression. The patterns use non-unicode mode and no
  flags, so `^` and `$` anchor at the two ends of the string. The character
  classes are spelled out:
  - `\d` is `0-9`.
  - `\w` is `A-Za-z0-9_`.
  - `[\w-\.]` is `\w` plus `-` plus `.`.
  - `.` matches anything except `\n`, `\r`, U+2028 and U+2029.

  `checkAge` uses `parseInt`, modelled as `ParseInt`: it reads the leading
  decimal digits, and `None` stands for NaN, which makes both comparisons false.
- **The form's state and handlers.** Class `AccountForm` in module
  `AccountFormState` (`account_form.dfy`) holds:
  - the input values, as a `Fields` record;
  - the four validity flags, as a `Validity` record;
  - the mode flags `isSignupVisible` and `isForgotPassword`;
  - the loading flag, the alert kind and the alert text;
  - the shared context's `isFormOpen`.

  The handlers are methods that assign these fields. The awaited POST becomes a
  `Reply` argument: `Failure` when it throws, `Success(data)` when it resolves.
  Each handler returns the request it sends, which is the endpoint
  (`/forgot_password`, `/register` or `/login`) together with the payload.
  Callbacks scheduled with `setTimeout(…, 1500)` wait in a first-in,
  first-out `timers` queue, and `RunTimer` fires the oldest one. A callback
  captures the values its closure saw when it was scheduled. What a callback
  gives to `setFormUserInfo` is recorded in `userInfo`. The login token written
  to browser storage is recorded in `token`.

  `Valid()` is the invariant that holds between events:
  - the sign-up and forgot-password modes exclude each other;
  - no handler is half-way through;
  - the age is always `""` and its flag is always false;
  - an alert is only visible while a callback that will hide it is pending;
  - the radio buttons only hold the values they offer;
  - a non-empty phone, email or password has its flag set exactly when its
    check rejects it.

  `Dispatch` runs the handler of any event whose control is rendered and
  preserves `Valid()`.
- **Scenarios.** Module `FormScenarios` (`scenarios.dfy`) runs event sequences
  on a fresh form. They show the behaviours that span several handlers.

Some of what the model shows about the component:

- **The age is never checked.** The form has no age input, and no event
  reaches `checkAge`. The submit guard does not read the age flag either.
- **The register payload and the profile disagree on the phone.** `/register`
  gets `"91" + phone`, while the profile published after sign-up keeps the
  phone as typed. A registration is only sent with an accepted or empty phone.
  The prefixed number sent is never one that the phone pattern itself accepts.
- **In the phone pattern, the `+` and the `1` are optional independently.**
  So `"+"` followed by ten digits is accepted, and so is an 11-digit number
  that starts with `1`.
- **The password pattern rejects line terminators.** `.` does not match
  `\n`, `\r`, U+2028 or U+2029, so a password containing one is rejected
  whatever its length.
- **The validity flags outlive what they describe.** Closing the form keeps
  them. The phone flag is checked in login mode too, where no phone field is
  shown. So an invalid phone typed during sign-up silently blocks a later
  login.

## Model

| member | source | states |
|---|---|---|
| FieldValidators.DigitRun | frontend/src/components/form/Accountform.jsx:79 | the digits `parseInt` reads are the longest run of digits at the start of the string |
| FieldValidators.ParseInt | frontend/src/components/form/Accountform.jsx:79 | `parseInt` is NaN exactly when the string does not start with a digit |
| FieldValidators.ParseIntAllDigits | frontend/src/components/form/Accountform.jsx:79 | on a non-empty all-digit string, the model's `ParseInt` gives its exact decimal value |
| FieldValidators.AgeValid | frontend/src/components/form/Accountform.jsx:79 | `checkAge`'s test: `parseInt` gives a number above 0 and at most 120, and the whole string is 1 to 3 digits |
| FieldValidators.AgeValidIff | frontend/src/components/form/Accountform.jsx:78-82 | `checkAge` accepts exactly 1 to 3 ASCII digits whose value is in 1..120 |
| FieldValidators.AgeAccepted | frontend/src/components/form/Accountform.jsx:79 | "007", "1" and "120" are accepted |
| FieldValidators.AgeRejected | frontend/src/components/form/Accountform.jsx:79 | "", "0", "000", "121", "12a" and "1000" are rejected |
| FieldValidators.EmailValid | frontend/src/components/form/Accountform.jsx:85 | `checkEmail`'s test: an anchored match of `[\w-\.]+`, then `@`, then `([\w-]+\.)+`, then `[\w-]{2,4}` |
| FieldValidators.DottedLabelsShape | frontend/src/components/form/Accountform.jsx:85 | `([\w-]+\.)+` matches only `[\w-]` characters and dots, has at least two characters and ends in a dot |
| FieldValidators.EmailParts | frontend/src/components/form/Accountform.jsx:85 | an accepted address has its only `@` before a dot-terminated run of labels, then a 2 to 4 character final label |
| FieldValidators.EmailShape | frontend/src/components/form/Accountform.jsx:84-88 | every address `checkEmail` accepts has exactly one `@`, a `.` after it, and 2 to 4 `[\w-]` characters after its last `.` |
| FieldValidators.EmailLastLabel | frontend/src/components/form/Accountform.jsx:85 | in an accepted address, 2 to 4 characters follow the last `.` |
| FieldValidators.EmailAccepted | frontend/src/components/form/Accountform.jsx:85 | "a@b.co" is accepted |
| FieldValidators.EmailRejected | frontend/src/components/form/Accountform.jsx:85 | "a@b", "a.com" and "a@b.cdefg" are rejected |
| FieldValidators.PasswdValid | frontend/src/components/form/Accountform.jsx:91 | `checkPasswd`'s test: an anchored match of `.{6,}` |
| FieldValidators.DotsAtLeastIff | frontend/src/components/form/Accountform.jsx:91 | `.{n,}` between the anchors matches exactly the strings of at least n characters without a line terminator |
| FieldValidators.PasswdValidIff | frontend/src/components/form/Accountform.jsx:90-94 | `checkPasswd` accepts exactly the strings of 6 or more characters that contain no line terminator |
| FieldValidators.PasswdExamples | frontend/src/components/form/Accountform.jsx:91 | "secret" and six spaces are accepted; "abc12", "abc\ndef" and "" are rejected |
| FieldValidators.PhoneValid | frontend/src/components/form/Accountform.jsx:97 | `validatePhoneNumber`'s test: an anchored match of an optional `+`, an optional `1`, then exactly ten digits |
| FieldValidators.PhoneValidIff | frontend/src/components/form/Accountform.jsx:96-101 | the phone pattern accepts exactly ten digits after one of the prefixes "", "+", "1", "+1" |
| FieldValidators.PhoneLength | frontend/src/components/form/Accountform.jsx:97 | an accepted phone has 10 to 12 characters, and 12 only with the prefix "+1"; so 9 and 12 digits are rejected |
| FieldValidators.PhoneElevenDigits | frontend/src/components/form/Accountform.jsx:97 | an 11-digit string is accepted exactly when it starts with `1` |
| FieldValidators.PhonePlusWithoutOne | frontend/src/components/form/Accountform.jsx:97 | a lone `+` followed by ten digits is accepted |
| FieldValidators.PrefixedPhoneRejected | frontend/src/components/form/Accountform.jsx:115 | for every phone the pattern accepts, `"91"` followed by that phone is rejected |
| AccountFormState.Path | frontend/src/components/form/Accountform.jsx:63-138 | the three requests go to three distinct endpoints: `/forgot_password`, `/register`, `/login` |
| AccountFormState.SuccessText | frontend/src/components/form/Accountform.jsx:65-141 | the success alert names its endpoint: "Password reset link sent to your email" exactly for `/forgot_password`, "Signup Successful" exactly for `/register`, "Login Successful" exactly for `/login` |
| AccountFormState.FailureText | frontend/src/components/form/Accountform.jsx:72-160 | the failure alert names its endpoint: "Email not found" exactly for `/forgot_password`, "User already exists" exactly for `/register`, "Login Failed" exactly for `/login` |
| AccountFormState.AlertTextIdentifiesOutcome | frontend/src/components/form/Accountform.jsx:64-160 | no success text is a failure text, and two requests share an alert text only when they go to the same endpoint, so the alert tells which call was made and how it ended |
| AccountFormState.LoginInfo | frontend/src/components/form/Accountform.jsx:145-155 | the profile published after login takes the name, user type, gender, phone, specialization, age and `verified` from the server's reply, and the email and password as typed |
| AccountFormState.FormRequest | frontend/src/components/form/Accountform.jsx:109-138 | sign-up mode sends a registration with the phone prefixed by "91" and no doctor ID; otherwise a login with email and password |
| AccountFormState.SignupInfo | frontend/src/components/form/Accountform.jsx:124-134 | the profile published after sign-up has the name, user type, gender, email, password, specialization and age as typed, the unprefixed phone, and `verified` false |
| AccountFormState.RegisterPhonePrefixed | frontend/src/components/form/Accountform.jsx:115-128 | the registered phone is the published phone with "91" in front, so the two always differ |
| AccountFormState.AccountForm.constructor | frontend/src/components/form/Accountform.jsx:11-28 | the initial state: empty inputs, usertype "patient", gender "male", all flags false, no alert, no callbacks, and `Valid()` holds |
| AccountFormState.AccountForm.CheckAge | frontend/src/components/form/Accountform.jsx:78-82 | returns the age test and sets only the age flag, to its negation |
| AccountFormState.AccountForm.CheckEmail | frontend/src/components/form/Accountform.jsx:84-88 | returns the email test and sets only the email flag, to its negation |
| AccountFormState.AccountForm.CheckPasswd | frontend/src/components/form/Accountform.jsx:90-94 | returns the password test, which is true exactly for 6 or more characters without a line terminator, and sets only the password flag, to its negation |
| AccountFormState.AccountForm.ValidatePhoneNumber | frontend/src/components/form/Accountform.jsx:96-101 | returns the phone test and sets only the phone flag, to its negation |
| AccountFormState.AccountForm.OnPhoneChange | frontend/src/components/form/Accountform.jsx:286-289 | typing a phone validates it, then stores it; `Valid()` is preserved |
| AccountFormState.AccountForm.OnEmailChange | frontend/src/components/form/Accountform.jsx:309-312 | typing an email validates it, then stores it; `Valid()` is preserved |
| AccountFormState.AccountForm.OnPasswdChange | frontend/src/components/form/Accountform.jsx:330-333 | typing a password validates it, then stores it; `Valid()` is preserved |
| AccountFormState.AccountForm.OnUsertypeChange | frontend/src/components/form/Accountform.jsx:213 | the chosen user type is stored, no flag changes, and `Valid()` is kept when the value is one the radio buttons offer |
| AccountFormState.AccountForm.OnUsernameChange | frontend/src/components/form/Accountform.jsx:229 | the name is stored unchecked, no flag changes, and `Valid()` is kept |
| AccountFormState.AccountForm.OnSpecializationChange | frontend/src/components/form/Accountform.jsx:243 | the specialization is stored unchecked, no flag changes, and `Valid()` is kept |
| AccountFormState.AccountForm.OnDoctorIdChange | frontend/src/components/form/Accountform.jsx:253 | the doctor ID is stored unchecked, no flag changes, and `Valid()` is kept |
| AccountFormState.AccountForm.OnGenderChange | frontend/src/components/form/Accountform.jsx:270 | the chosen gender is stored, no flag changes, and `Valid()` is kept when the value is one the radio buttons offer |
| AccountFormState.AccountForm.ResetForm | frontend/src/components/form/Accountform.jsx:38-50 | closes the form, resets every input except the doctor ID (usertype "patient", gender "male", the rest empty), clears both modes, keeps all four validity flags |
| AccountFormState.AccountForm.HandleIsSignupVisible | frontend/src/components/form/Accountform.jsx:52-55 | flips sign-up mode and always leaves forgot-password mode |
| AccountFormState.AccountForm.ShowForgotPassword | frontend/src/components/form/Accountform.jsx:345 | enters forgot-password mode |
| AccountFormState.AccountForm.HideForgotPassword | frontend/src/components/form/Accountform.jsx:355 | leaves forgot-password mode |
| AccountFormState.AccountForm.HandleForgotPassword | frontend/src/components/form/Accountform.jsx:57-76 | blocked, with nothing changed, exactly when the email flag is set; otherwise it sends `ForgotPassword(email)`, shows the success text or "Email not found", schedules the matching callback, and ends not loading |
| AccountFormState.AccountForm.HandleFormSubmit | frontend/src/components/form/Accountform.jsx:103-164 | blocked, with nothing changed, exactly when the email, password or phone flag is set, whatever the age flag; otherwise it sends the registration or the login; on failure it shows "User already exists" or "Login Failed"; on success it stores the login token and schedules the callback with the captured profile; it ends not loading |
| AccountFormState.AccountForm.Submit | frontend/src/components/form/Accountform.jsx:173 | the request goes to `/forgot_password` in forgot-password mode, else to `/register` in sign-up mode, else to `/login`; the alert text matches the endpoint and the outcome; `Valid()` is preserved; a sent email (and, outside forgot-password mode, the password) is empty or accepted by its check; a registration is sent only with an empty or accepted phone, and the `"91" + phone` it sends is never accepted by the phone check |
| AccountFormState.AccountForm.CloseForm | frontend/src/components/form/Accountform.jsx:381 | the close button only closes the form; the inputs keep their values |
| AccountFormState.AccountForm.RunTimer | frontend/src/components/form/Accountform.jsx:66-161 | the oldest callback runs. It always hides the alert. The forgot-password one also leaves that mode. The sign-up and login ones publish the captured profile and reset the form |
| AccountFormState.AccountForm.Valid | frontend/src/components/form/Accountform.jsx:11-381 | what holds between events: nothing half-way, the two modes exclusive, the age empty and unflagged, an alert shown only while a callback will hide it and with a text of its kind, radio values among those offered, and each non-empty checked input flagged exactly when its check rejects it |
| AccountFormState.AccountForm.InputEnabled | frontend/src/components/form/Accountform.jsx:186-333 | which inputs are rendered: the sign-up inputs only in sign-up mode, specialization and doctor ID only for a doctor, the password outside forgot-password mode, the email always; the radio values are those offered |
| AccountFormState.AccountForm.ControlEnabled | frontend/src/components/form/Accountform.jsx:186-381 | which buttons are rendered: the sign-up link outside forgot-password mode, "Forgot Password?" only in login mode, "Back to Login" only in forgot-password mode, the close button and the outside click while the form is open |
| AccountFormState.AccountForm.Enabled | frontend/src/components/form/Accountform.jsx:166-381 | an event can happen when its control is rendered, a submission when the form is open and not loading, and a timer when a callback is pending |
| AccountFormState.AccountForm.HandleInput | frontend/src/components/form/Accountform.jsx:213-333 | each input event stores its value in its own field and changes nothing else; the phone, email and password events also set their own flag to the negation of their check, and the other inputs leave every flag as it was; `Valid()` is preserved |
| AccountFormState.AccountForm.HandleClick | frontend/src/components/form/Accountform.jsx:32-381 | the sign-up link flips sign-up mode and leaves forgot-password mode; "Forgot Password?" enters that mode and "Back to Login" leaves it; in each of these three the form stays open and the inputs are unchanged. The close button only closes the form. The outside click closes it, resets every input except the doctor ID and leaves both modes. `Valid()` is preserved |
| AccountFormState.AccountForm.Dispatch | frontend/src/components/form/Accountform.jsx:166-390 | every enabled event preserves `Valid()`; no event changes the age flag (so `checkAge` is never reached) or the age; only a submission sends a request or writes the token; only a callback publishes a profile; only an input changes a validity flag; inputs and clicks leave the alert and the pending callbacks alone; only a doctor ID input changes the doctor ID |
| FormScenarios.SignupPublishesUnprefixedPhone | frontend/src/components/form/Accountform.jsx:109-136 | after a successful sign-up, `/register` received "91" + phone, the published profile has the phone as typed, and the form is closed |
| FormScenarios.FailedSignupKeepsFields | frontend/src/components/form/Accountform.jsx:158-162 | a failed sign-up shows "User already exists" and leaves the form open with its inputs |
| FormScenarios.LoginStoresToken | frontend/src/components/form/Accountform.jsx:138-156 | a successful login stores the server's token and publishes the server's profile with the typed email and password |
| FormScenarios.StalePhoneFlagBlocksLogin | frontend/src/components/form/Accountform.jsx:105 | an invalid phone typed in sign-up mode blocks a later login, whatever the email and password |
| FormScenarios.ResetKeepsEmailFlag | frontend/src/components/form/Accountform.jsx:38-59 | after closing by an outside click, an earlier invalid email still blocks the forgot-password request |
| FormScenarios.AgeFlagIgnored | frontend/src/components/form/Accountform.jsx:105 | with the age flag set, a login with a valid email and password is still sent |

## Left out

- Rendering: the JSX markup, CSS classes, the MUI `Alert` and `CircularProgress`, and the icons. Which controls are rendered is kept only as the `Enabled` predicates that gate events.
- `httpClient.post`: it is foreign network code. The model replaces it with the `Reply` argument. Neither of two malformed login responses is modelled. A response without `data` throws when the token is read (line 139), which leads into the `catch` branch (line 158). A response whose `data` lacks fields does not throw: the string "undefined" is stored as the token, and `undefined` values are published in the profile (lines 146-154).
- Time: the 1500 ms delay is not modelled. Callbacks fire in the order they were scheduled, whenever `RunTimer` is called.
- The await as a suspension point: each handler runs to completion in one step. So no event can happen while a request is in flight, and `isSuccessLoading` is never seen true from outside.
- React's batching of `setState` calls: setters are immediate assignments. Closures capture the current values only in the scheduled callbacks, which carry their profile.
- Browser storage and the shared context are recorded as the `token`, `userInfo` and `isFormOpen` fields. Opening the form is done by other components, and is not part of this model.
- `useScrollDisable` is not modelled. `useOutsideClose` is not part of this model either: the outside click is an event that calls `resetForm` while the form is open.
- The browser's own form validation (`required`, `type="email"`) is not modelled. Neither is the disabled state of the submit button beyond `Enabled`.
- Strings are sequences of Unicode scalar values, not of UTF-16 code units. So a character outside the Basic Multilingual Plane counts once toward the six-character password minimum instead of twice.
- FieldValidators.ParseInt: leading white space, a sign and a `0x` prefix are not modelled. The `^[0-9]{1,3}$` conjunct of `checkAge` rejects every such string, so `checkAge`'s result is unaffected.
- FieldValidators.ParseInt: JavaScript's `parseInt` returns a double. So it rounds above 2^53 and gives Infinity for very long digit strings, whereas the model's value is exact. `checkAge`'s pattern allows at most 3 digits, so its result is unaffected.
- FieldValidators.EmailShape: it states necessary conditions on accepted addresses, not a characterisation. The pattern itself is modelled exactly by `EmailValid`.
