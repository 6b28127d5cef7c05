/** The state the route handlers of app.py read and write, as a value, and one
    transition function per handler. Each returns the new state together with
    the outcome the handler reports (its flash message and redirect). The class
    in site.dfy performs the same transitions in place. */
module Accounts {
  import opened Wrappers
  import opened Forms
  import opened Tokens
  import opened Passwords

  /** A row of the `User` table; the email, its unique key, is the map key. */
  datatype User = User(id: nat, password: PasswordHash, isVerified: bool)

  /** A row of the `ScheduledCall` table. */
  datatype ScheduledCall = ScheduledCall(firstName: string, lastName: string, email: string, message: string)

  /** A row of the `ContactSubmission` table. */
  datatype ContactSubmission = ContactSubmission(
    firstName: string, lastName: string, email: string,
    companyName: string, phone: string, message: string)

  /** The user table keyed by email, the next primary key, the subscribed
      emails, the two submission tables in insertion order, and the
      `user_id` entry of the client's session. */
  datatype Store = Store(
    users: map<string, User>,
    nextId: nat,
    subscriptions: set<string>,
    calls: seq<ScheduledCall>,
    contacts: seq<ContactSubmission>,
    sessionUserId: Option<nat>)

  const Empty := Store(map[], 1, {}, [], [], None)

  /** A session names a user who exists and has verified their email. */
  ghost predicate SessionOfVerifiedUser(users: map<string, User>, id: nat) {
    exists e :: e in users && users[e].id == id && users[e].isVerified
  }

  /** The invariant every handler keeps. */
  ghost predicate Valid(st: Store) {
    && (forall e :: e in st.users ==> EmailShaped(e) && st.users[e].id < st.nextId)
    && (forall e1, e2 :: e1 in st.users && e2 in st.users && e1 != e2 ==> st.users[e1].id != st.users[e2].id)
    && (forall e :: e in st.subscriptions ==> EmailShaped(e))
    && (st.sessionUserId.Some? ==> SessionOfVerifiedUser(st.users, st.sessionUserId.value))
  }

  lemma EmptyValid()
    ensures Valid(Empty)
  {
  }

  // ---------------------------------------------------------------------
  // signup (app.py:1116-1167)
  // ---------------------------------------------------------------------

  datatype SignupError = MissingFields | PasswordMismatch | InvalidEmail | PasswordTooShort | TermsNotAccepted

  datatype SignupOutcome =
    | SignupRejected(reason: SignupError)
    | AlreadyRegistered
    | AccountCreated(verification: Token)

  /** The form checks of signup, in the order the handler makes them; the
      first that fails is the one reported. */
  function SignupFormError(email: Field, password: Field, confirm: Field, terms: Field): (r: Option<SignupError>)
    ensures r == Some(MissingFields) <==> !(Filled(email) && Filled(password) && Filled(confirm))
    ensures r == Some(PasswordMismatch) <==>
      Filled(email) && Filled(password) && Filled(confirm) && password != confirm
    ensures r == Some(InvalidEmail) <==>
      Filled(email) && Filled(password) && password == confirm && !EmailShaped(email.value)
    ensures r == Some(PasswordTooShort) <==>
      Filled(email) && Filled(password) && password == confirm && EmailShaped(email.value)
      && !LongEnough(password.value)
    ensures r == Some(TermsNotAccepted) <==>
      Filled(email) && Filled(password) && password == confirm && EmailShaped(email.value)
      && LongEnough(password.value) && !Filled(terms)
    ensures r == None <==>
      Filled(email) && Filled(password) && password == confirm && EmailShaped(email.value)
      && LongEnough(password.value) && Filled(terms)
  {
    if !Filled(email) || !Filled(password) || !Filled(confirm) then Some(MissingFields)
    else if password != confirm then Some(PasswordMismatch)
    else if !IsEmailAddress(email.value) then Some(InvalidEmail)
    else if !LongEnough(password.value) then Some(PasswordTooShort)
    else if !Filled(terms) then Some(TermsNotAccepted)
    else None
  }

  function Signup(st: Store, email: Field, password: Field, confirm: Field, terms: Field, salt: nat, now: int)
    : (r: (Store, SignupOutcome))
    requires Valid(st)
    ensures Valid(r.0)
  {
    match SignupFormError(email, password, confirm, terms)
    case Some(reason) => (st, SignupRejected(reason))
    case None =>
      var e := email.value;
      if e in st.users then (st, AlreadyRegistered)
      else
        var user := User(st.nextId, GeneratePasswordHash(password.value, salt), false);
        (st.(users := st.users[e := user], nextId := st.nextId + 1),
         AccountCreated(Dumps(e, EmailConfirm, now)))
  }

  // ---------------------------------------------------------------------
  // confirm_email (app.py:1170-1183)
  // ---------------------------------------------------------------------

  datatype ConfirmOutcome = EmailVerified | ConfirmLinkInvalid | NoSuchAccount

  function ConfirmEmail(st: Store, token: Token, now: int): (r: (Store, ConfirmOutcome))
    requires Valid(st)
    ensures Valid(r.0)
  {
    match Loads(token, EmailConfirm, now)
    case None => (st, ConfirmLinkInvalid)
    case Some(e) =>
      if e in st.users then
        (st.(users := st.users[e := st.users[e].(isVerified := true)]), EmailVerified)
      else (st, NoSuchAccount)
  }

  // ---------------------------------------------------------------------
  // signin (app.py:1186-1204) and logout (app.py:1207-1211)
  // ---------------------------------------------------------------------

  datatype SigninOutcome = LoggedIn | VerifyEmailFirst | InvalidCredentials

  function Signin(st: Store, email: string, password: string): (r: (Store, SigninOutcome))
    requires Valid(st)
    ensures Valid(r.0)
  {
    if email in st.users && CheckPasswordHash(st.users[email].password, password) then
      if st.users[email].isVerified then (st.(sessionUserId := Some(st.users[email].id)), LoggedIn)
      else (st, VerifyEmailFirst)
    else (st, InvalidCredentials)
  }

  function Logout(st: Store): (r: Store)
    requires Valid(st)
    ensures Valid(r)
  {
    st.(sessionUserId := None)
  }

  // ---------------------------------------------------------------------
  // forget_password (app.py:1214-1230) and reset_with_token (app.py:1233-1254)
  // ---------------------------------------------------------------------

  datatype ForgetOutcome = ResetLinkSent(reset: Token) | EmailNotFound

  /** Changes no state, so only the outcome is returned. */
  function ForgetPassword(st: Store, email: string, now: int): (r: ForgetOutcome)
    ensures r.ResetLinkSent? <==> email in st.users
    ensures r.ResetLinkSent? ==> Loads(r.reset, PasswordReset, now) == Some(email)
  {
    if email in st.users then ResetLinkSent(Dumps(email, PasswordReset, now)) else EmailNotFound
  }

  datatype ResetOutcome = PasswordUpdated | ResetLinkInvalid | NewPasswordTooShort | ResetFormShown

  /** The POST form of reset_with_token. An absent `newPassword` makes
      `len(None)` raise, and the handler's broad `except` reports that as an
      invalid link. */
  function ResetWithToken(st: Store, token: Token, newPassword: Field, salt: nat, now: int)
    : (r: (Store, ResetOutcome))
    requires Valid(st)
    ensures Valid(r.0)
  {
    match Loads(token, PasswordReset, now)
    case None => (st, ResetLinkInvalid)
    case Some(e) =>
      match newPassword
      case None => (st, ResetLinkInvalid)
      case Some(p) =>
        if !LongEnough(p) then (st, NewPasswordTooShort)
        else if e in st.users then
          (st.(users := st.users[e := st.users[e].(password := GeneratePasswordHash(p, salt))]), PasswordUpdated)
        else (st, ResetFormShown)
  }

  /** The GET form of reset_with_token: only the token is checked. */
  function ResetPage(token: Token, now: int): (r: ResetOutcome)
    ensures r == ResetFormShown || r == ResetLinkInvalid
    ensures token.Tampered? ==> r == ResetLinkInvalid
    ensures forall e, p, t :: token == Dumps(e, p, t) ==>
      (r == ResetFormShown <==> p == PasswordReset && now - t <= MaxAge)
  {
    if Loads(token, PasswordReset, now).Some? then ResetFormShown else ResetLinkInvalid
  }

  // ---------------------------------------------------------------------
  // subscribe (app.py:963-996), schedule_call (app.py:999-1029),
  // submit_contact (app.py:1032-1073)
  // ---------------------------------------------------------------------

  datatype SubscribeOutcome = Subscribed | SubscribeInvalidEmail | AlreadySubscribed

  function Subscribe(st: Store, email: string): (r: (Store, SubscribeOutcome))
    requires Valid(st)
    ensures Valid(r.0)
  {
    if !IsEmailAddress(email) then (st, SubscribeInvalidEmail)
    else if email in st.subscriptions then (st, AlreadySubscribed)
    else (st.(subscriptions := st.subscriptions + {email}), Subscribed)
  }

  datatype SubmitOutcome = Saved | FieldsMissing

  function ScheduleCall(st: Store, firstName: Field, lastName: Field, email: Field, message: Field)
    : (r: (Store, SubmitOutcome))
    requires Valid(st)
    ensures Valid(r.0)
  {
    if !Filled(firstName) || !Filled(lastName) || !Filled(email) || !Filled(message) then (st, FieldsMissing)
    else
      var call := ScheduledCall(firstName.value, lastName.value, email.value, message.value);
      (st.(calls := st.calls + [call]), Saved)
  }

  function SubmitContact(st: Store, firstName: Field, lastName: Field, email: Field,
                         companyName: Field, phone: Field, message: Field)
    : (r: (Store, SubmitOutcome))
    requires Valid(st)
    ensures Valid(r.0)
  {
    if !Filled(firstName) || !Filled(lastName) || !Filled(email)
       || !Filled(companyName) || !Filled(phone) || !Filled(message) then (st, FieldsMissing)
    else
      var submission := ContactSubmission(firstName.value, lastName.value, email.value,
                                          companyName.value, phone.value, message.value);
      (st.(contacts := st.contacts + [submission]), Saved)
  }

  // ---------------------------------------------------------------------
  // Any sequence of requests.
  // ---------------------------------------------------------------------

  /** One POST (or GET, for logout) to a handler, with the clock reading and
      the hashing salt it happens with. */
  datatype Request =
    | SignupRequest(email: Field, password: Field, confirm: Field, terms: Field, salt: nat, now: int)
    | ConfirmRequest(token: Token, now: int)
    | SigninRequest(signinEmail: string, signinPassword: string)
    | LogoutRequest
    | ForgetRequest(forgetEmail: string, now: int)
    | ResetRequest(token: Token, newPassword: Field, salt: nat, now: int)
    | SubscribeRequest(subscribeEmail: string)
    | ScheduleCallRequest(firstName: Field, lastName: Field, email: Field, message: Field)
    | ContactRequest(firstName: Field, lastName: Field, email: Field, companyName: Field, phone: Field, message: Field)

  function Step(st: Store, req: Request): (r: Store)
    requires Valid(st)
    ensures Valid(r)
  {
    match req
    case SignupRequest(e, p, c, t, salt, now) => Signup(st, e, p, c, t, salt, now).0
    case ConfirmRequest(token, now) => ConfirmEmail(st, token, now).0
    case SigninRequest(e, p) => Signin(st, e, p).0
    case LogoutRequest => Logout(st)
    case ForgetRequest(_, _) => st
    case ResetRequest(token, p, salt, now) => ResetWithToken(st, token, p, salt, now).0
    case SubscribeRequest(e) => Subscribe(st, e).0
    case ScheduleCallRequest(f, l, e, m) => ScheduleCall(st, f, l, e, m).0
    case ContactRequest(f, l, e, c, ph, m) => SubmitContact(st, f, l, e, c, ph, m).0
  }

  /** The state after handling `reqs` in order. */
  function Run(st: Store, reqs: seq<Request>): (r: Store)
    requires Valid(st)
    ensures Valid(r)
    decreases |reqs|
  {
    if reqs == [] then st else Run(Step(st, reqs[0]), reqs[1..])
  }
}
