/** The sign-in page (auth.js): the checks a sign-up passes before any
    request, the checkUser / createUser exchange, the authenticateUser
    exchange of a sign-in, and the session each writes. The script's
    answers are a parameter, `server`, giving the parsed reply to each
    request or `None` when the request or its parsing fails. */
module Auth {
  import opened Wrappers
  import opened Text
  import opened Sessions

  const PasswordsDoNotMatch := "Passwords do not match!"
  const PasswordTooShort := "Password must be at least 6 characters long."
  const AccountExists := "An account with this email already exists. Please sign in instead."
  const AccountCreated := "Account created successfully! Welcome to Church Retreat Sign-Up."
  const CreateFailedPrefix := "Failed to create account: "
  const SignUpError := "An error occurred during sign up. Please try again."
  const InvalidCredentials := "Invalid email or password. Please try again."
  const SignInError := "An error occurred during sign in. Please try again."

  /** The shortest password sign-up accepts, in UTF-16 code units. */
  const MinPasswordLength := 6

  /** `btoa(password)`: the password as sent, Base64-encoded by the browser.
      The encoding itself is not modelled. */
  datatype Obscured = Btoa(plain: string)

  /** `btoa` accepts only strings whose characters are all at most U+00FF
      and throws on any other. */
  predicate BtoaAccepts(s: string) {
    forall i | 0 <= i < |s| :: s[i] as int <= 0xFF
  }

  /** The requests the page sends to the script. */
  datatype Request =
    | CheckUser(email: string)
    | CreateUser(name: string, email: string, password: Obscured, timestamp: string)
    | AuthenticateUser(email: string, password: Obscured)

  /** The fields of a parsed reply the page reads. */
  datatype Reply = Reply(success: bool, exists_: bool, userId: string, name: string, message: string)

  /** Where the page goes next. */
  datatype Next = Stay | ShowSignInTab | GoToDashboard

  /** What a sign-up or sign-in did: the requests sent, in order, the
      session written (if any), the alert shown (if any) and where the page
      went. */
  datatype Outcome = Outcome(sent: seq<Request>, session: Option<Session>, alert: Option<string>, next: Next)

  /** `password.length`: the number of UTF-16 code units, two for a
      character outside the Basic Multilingual Plane. */
  function Utf16Length(s: string): (n: nat)
    ensures |s| <= n <= 2 * |s|
  {
    if s == [] then 0 else Utf16Length(s[..|s| - 1]) + (if s[|s| - 1] as int > 0xFFFF then 2 else 1)
  }

  /** The check made before anything is sent: the confirmation must match,
      then the password must be long enough. */
  function SignUpCheck(password: string, confirmPassword: string): Option<string> {
    if password != confirmPassword then Some(PasswordsDoNotMatch)
    else if Utf16Length(password) < MinPasswordLength then Some(PasswordTooShort)
    else None
  }

  /** signUpWithEmail, from the entered name, email, password and
      confirmation, the ISO timestamp and `Date.now()`. */
  function SignUp(
    nameInput: string, emailInput: string, password: string, confirmPassword: string,
    timestamp: string, now: int, server: Request -> Option<Reply>): Outcome
  {
    var name, email := Trim(nameInput), Trim(emailInput);
    match SignUpCheck(password, confirmPassword)
    case Some(message) => Outcome([], None, Some(message), Stay)
    case None =>
      var check := CheckUser(email);
      match server(check)
      case None => Outcome([check], None, Some(SignUpError), Stay)
      case Some(checked) =>
        if checked.exists_ then Outcome([check], None, Some(AccountExists), ShowSignInTab)
        else if !BtoaAccepts(password) then Outcome([check], None, Some(SignUpError), Stay)
        else
          var create := CreateUser(name, email, Btoa(password), timestamp);
          match server(create)
          case None => Outcome([check, create], None, Some(SignUpError), Stay)
          case Some(created) =>
            if created.success then
              Outcome([check, create], Some(Session(created.userId, name, email, now)), Some(AccountCreated), GoToDashboard)
            else Outcome([check, create], None, Some(CreateFailedPrefix + created.message), Stay)
  }

  /** signInWithEmail, from the entered email and password and
      `Date.now()`. */
  function SignIn(emailInput: string, password: string, now: int, server: Request -> Option<Reply>): Outcome {
    var email := Trim(emailInput);
    var request := AuthenticateUser(email, Btoa(password));
    if !BtoaAccepts(password) then Outcome([], None, Some(SignInError), Stay)
    else match server(request)
    case None => Outcome([request], None, Some(SignInError), Stay)
    case Some(result) =>
      if result.success then Outcome([request], Some(Session(result.userId, result.name, email, now)), None, GoToDashboard)
      else Outcome([request], None, Some(InvalidCredentials), Stay)
  }

  /** A password of BMP characters only has as many code units as
      characters. */
  lemma {:induction false} Utf16LengthBmp(s: string)
    requires forall i | 0 <= i < |s| :: s[i] as int <= 0xFFFF
    ensures Utf16Length(s) == |s|
  {
    if s != [] {
      Utf16LengthBmp(s[..|s| - 1]);
    }
  }

  /** A mismatched confirmation is refused before anything else, whatever
      the password's length: nothing is sent and no session is written. */
  lemma MismatchRefusedFirst(
    name: string, email: string, password: string, confirmPassword: string,
    timestamp: string, now: int, server: Request -> Option<Reply>)
    requires password != confirmPassword
    ensures SignUp(name, email, password, confirmPassword, timestamp, now, server)
      == Outcome([], None, Some(PasswordsDoNotMatch), Stay)
  {
  }

  /** A sign-up sends nothing, or checkUser alone, or checkUser and then
      createUser. Something is sent exactly when the confirmation matches
      and the password is at least six code units long; createUser follows
      exactly when, in addition, checkUser said the email is free and
      `btoa` accepts the password, and it carries the trimmed name and
      email and the obscured password. */
  lemma CreateUserOnlyForValidPasswords(
    name: string, email: string, password: string, confirmPassword: string,
    timestamp: string, now: int, server: Request -> Option<Reply>)
    ensures var sent := SignUp(name, email, password, confirmPassword, timestamp, now, server).sent;
      || sent == []
      || sent == [CheckUser(Trim(email))]
      || sent == [CheckUser(Trim(email)), CreateUser(Trim(name), Trim(email), Btoa(password), timestamp)]
    ensures SignUp(name, email, password, confirmPassword, timestamp, now, server).sent != [] <==>
      password == confirmPassword && Utf16Length(password) >= MinPasswordLength
    ensures |SignUp(name, email, password, confirmPassword, timestamp, now, server).sent| == 2 <==>
      && password == confirmPassword && Utf16Length(password) >= MinPasswordLength
      && server(CheckUser(Trim(email))).Some? && !server(CheckUser(Trim(email))).value.exists_
      && BtoaAccepts(password)
  {
  }

  /** When checkUser reports the email exists, no account is requested and
      no session is written; the page switches to the sign-in tab. */
  lemma ExistingEmailStops(
    name: string, email: string, password: string, confirmPassword: string,
    timestamp: string, now: int, server: Request -> Option<Reply>)
    requires SignUpCheck(password, confirmPassword).None?
    requires server(CheckUser(Trim(email))).Some? && server(CheckUser(Trim(email))).value.exists_
    ensures SignUp(name, email, password, confirmPassword, timestamp, now, server)
      == Outcome([CheckUser(Trim(email))], None, Some(AccountExists), ShowSignInTab)
  {
  }

  /** A sign-up writes a session exactly when the checks pass, the email is
      free, `btoa` accepts the password and the account is created; the session holds the new user ID,
      the entered name and email and the current time, and is live. */
  lemma SignUpSession(
    name: string, email: string, password: string, confirmPassword: string,
    timestamp: string, now: int, server: Request -> Option<Reply>)
    ensures var out := SignUp(name, email, password, confirmPassword, timestamp, now, server);
      var create := CreateUser(Trim(name), Trim(email), Btoa(password), timestamp);
      out.session.Some? <==>
        && SignUpCheck(password, confirmPassword).None?
        && server(CheckUser(Trim(email))).Some? && !server(CheckUser(Trim(email))).value.exists_
        && BtoaAccepts(password)
        && server(create).Some? && server(create).value.success
    ensures var out := SignUp(name, email, password, confirmPassword, timestamp, now, server);
      var create := CreateUser(Trim(name), Trim(email), Btoa(password), timestamp);
      out.session.Some? ==>
        && out.session.value == Session(server(create).value.userId, Trim(name), Trim(email), now)
        && out.next == GoToDashboard
        && !IsExpired(out.session.value, now)
  {
  }

  /** A sign-in sends one request unless `btoa` refuses the password, and
      writes a session exactly when the script accepts it; the session takes
      the user ID and name from the reply but the email as entered. */
  lemma SignInSession(email: string, password: string, now: int, server: Request -> Option<Reply>)
    ensures var out := SignIn(email, password, now, server);
      var request := AuthenticateUser(Trim(email), Btoa(password));
      && out.sent == (if BtoaAccepts(password) then [request] else [])
      && (out.session.Some? <==> BtoaAccepts(password) && server(request).Some? && server(request).value.success)
      && (out.session.Some? ==>
            out.session.value == Session(server(request).value.userId, server(request).value.name, Trim(email), now)
            && !IsExpired(out.session.value, now))
  {
  }

  /** The sign-in page's `localStorage` entry. */
  class AuthPage {
    var storedSession: StoredSession

    constructor (stored: StoredSession)
      ensures storedSession == stored
    {
      storedSession := stored;
    }

    /** Runs a sign-up and stores the session it produces, if any; nothing
        is stored otherwise. */
    method SignUpWithEmail(
      name: string, email: string, password: string, confirmPassword: string,
      timestamp: string, now: int, server: Request -> Option<Reply>) returns (outcome: Outcome)
      modifies this
      ensures outcome == SignUp(name, email, password, confirmPassword, timestamp, now, server)
      ensures storedSession == if outcome.session.Some? then Stored(outcome.session.value) else old(storedSession)
    {
      outcome := SignUp(name, email, password, confirmPassword, timestamp, now, server);
      if outcome.session.Some? {
        storedSession := Stored(outcome.session.value);
      }
    }

    /** Runs a sign-in and stores the session it produces, if any. */
    method SignInWithEmail(email: string, password: string, now: int, server: Request -> Option<Reply>)
      returns (outcome: Outcome)
      modifies this
      ensures outcome == SignIn(email, password, now, server)
      ensures storedSession == if outcome.session.Some? then Stored(outcome.session.value) else old(storedSession)
    {
      outcome := SignIn(email, password, now, server);
      if outcome.session.Some? {
        storedSession := Stored(outcome.session.value);
      }
    }
  }
}
