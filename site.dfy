/** The handlers of app.py as they run: the database tables and the session are
    fields of one object that each handler updates in place (`db.session.add`,
    `user.is_verified = True`, `user.password = ...`, `session['user_id'] = ...`,
    `session.pop`). Every method is proved to perform exactly the transition of
    the same name in accounts.dfy, whose properties accounts_props.dfy proves;
    its `modifies` clause names the only fields it may touch. */
module App {
  import opened Wrappers
  import opened Forms
  import opened Tokens
  import opened Passwords
  import opened Accounts

  class Site {
    var users: map<string, User>
    var nextId: nat
    var subscriptions: set<string>
    var scheduledCalls: seq<ScheduledCall>
    var contactSubmissions: seq<ContactSubmission>
    var sessionUserId: Option<nat>

    /** The tables and the session as one value. */
    function State(): Store
      reads this
    {
      Store(users, nextId, subscriptions, scheduledCalls, contactSubmissions, sessionUserId)
    }

    ghost predicate Valid()
      reads this
    {
      Accounts.Valid(State())
    }

    /** The freshly created tables (`db.create_all()`) and an empty session. */
    constructor ()
      ensures Valid() && State() == Empty
    {
      users, nextId, subscriptions := map[], 1, {};
      scheduledCalls, contactSubmissions, sessionUserId := [], [], None;
      EmptyValid();
    }

    method Signup(email: Field, password: Field, confirm: Field, terms: Field, salt: nat, now: int)
      returns (outcome: SignupOutcome)
      requires Valid()
      modifies this`users, this`nextId
      ensures Valid()
      ensures (State(), outcome) == Accounts.Signup(old(State()), email, password, confirm, terms, salt, now)
    {
      var error := SignupFormError(email, password, confirm, terms);
      if error.Some? {
        return SignupRejected(error.value);
      }
      if email.value in users {
        return AlreadyRegistered;
      }
      users := users[email.value := User(nextId, GeneratePasswordHash(password.value, salt), false)];
      nextId := nextId + 1;
      outcome := AccountCreated(Dumps(email.value, EmailConfirm, now));
    }

    method ConfirmEmail(token: Token, now: int) returns (outcome: ConfirmOutcome)
      requires Valid()
      modifies this`users
      ensures Valid()
      ensures (State(), outcome) == Accounts.ConfirmEmail(old(State()), token, now)
    {
      var email := Loads(token, EmailConfirm, now);
      if email.None? {
        return ConfirmLinkInvalid;
      }
      if email.value !in users {
        return NoSuchAccount;
      }
      var user := users[email.value];
      users := users[email.value := user.(isVerified := true)];
      outcome := EmailVerified;
    }

    method Signin(email: string, password: string) returns (outcome: SigninOutcome)
      requires Valid()
      modifies this`sessionUserId
      ensures Valid()
      ensures (State(), outcome) == Accounts.Signin(old(State()), email, password)
    {
      if email in users && CheckPasswordHash(users[email].password, password) {
        if users[email].isVerified {
          sessionUserId := Some(users[email].id);
          return LoggedIn;
        }
        return VerifyEmailFirst;
      }
      outcome := InvalidCredentials;
    }

    method Logout()
      requires Valid()
      modifies this`sessionUserId
      ensures Valid()
      ensures State() == Accounts.Logout(old(State()))
    {
      sessionUserId := None;
    }

    /** Reads the user table only; nothing is modified. */
    method ForgetPassword(email: string, now: int) returns (outcome: ForgetOutcome)
      requires Valid()
      ensures outcome == Accounts.ForgetPassword(State(), email, now)
    {
      if email in users {
        return ResetLinkSent(Dumps(email, PasswordReset, now));
      }
      outcome := EmailNotFound;
    }

    method ResetWithToken(token: Token, newPassword: Field, salt: nat, now: int) returns (outcome: ResetOutcome)
      requires Valid()
      modifies this`users
      ensures Valid()
      ensures (State(), outcome) == Accounts.ResetWithToken(old(State()), token, newPassword, salt, now)
    {
      var email := Loads(token, PasswordReset, now);
      if email.None? || newPassword.None? {
        return ResetLinkInvalid;
      }
      if !LongEnough(newPassword.value) {
        return NewPasswordTooShort;
      }
      if email.value !in users {
        return ResetFormShown;
      }
      var user := users[email.value];
      users := users[email.value := user.(password := GeneratePasswordHash(newPassword.value, salt))];
      outcome := PasswordUpdated;
    }

    method Subscribe(email: string) returns (outcome: SubscribeOutcome)
      requires Valid()
      modifies this`subscriptions
      ensures Valid()
      ensures (State(), outcome) == Accounts.Subscribe(old(State()), email)
    {
      if !IsEmailAddress(email) {
        return SubscribeInvalidEmail;
      }
      if email in subscriptions {
        return AlreadySubscribed;
      }
      subscriptions := subscriptions + {email};
      outcome := Subscribed;
    }

    method ScheduleCall(firstName: Field, lastName: Field, email: Field, message: Field)
      returns (outcome: SubmitOutcome)
      requires Valid()
      modifies this`scheduledCalls
      ensures Valid()
      ensures (State(), outcome) == Accounts.ScheduleCall(old(State()), firstName, lastName, email, message)
    {
      if !Filled(firstName) || !Filled(lastName) || !Filled(email) || !Filled(message) {
        return FieldsMissing;
      }
      scheduledCalls := scheduledCalls + [ScheduledCall(firstName.value, lastName.value, email.value, message.value)];
      outcome := Saved;
    }

    method SubmitContact(firstName: Field, lastName: Field, email: Field,
                         companyName: Field, phone: Field, message: Field)
      returns (outcome: SubmitOutcome)
      requires Valid()
      modifies this`contactSubmissions
      ensures Valid()
      ensures (State(), outcome)
           == Accounts.SubmitContact(old(State()), firstName, lastName, email, companyName, phone, message)
    {
      if !Filled(firstName) || !Filled(lastName) || !Filled(email)
         || !Filled(companyName) || !Filled(phone) || !Filled(message) {
        return FieldsMissing;
      }
      var submission := ContactSubmission(firstName.value, lastName.value, email.value,
                                          companyName.value, phone.value, message.value);
      contactSubmissions := contactSubmissions + [submission];
      outcome := Saved;
    }
  }

  /** A client of the class: the registration, verification and sign-in
      sequence, with every intermediate fact derived from the contracts. */
  method RegisterAndSignIn(site: Site, salt: nat, now: int) returns (session: Option<nat>)
    requires site.Valid() && site.State() == Empty
    modifies site
    ensures session.Some? && site.sessionUserId == session
  {
    var email := "alice@example.com";
    assert PatternMatchesPrefix(email, 5, 13, 17);
    var created := site.Signup(Some(email), Some("Passw0rd"), Some("Passw0rd"), Some("on"), salt, now);
    assert created.AccountCreated?;
    var confirmed := site.ConfirmEmail(created.verification, now + 60);
    assert confirmed == EmailVerified;
    var signedIn := site.Signin(email, "Passw0rd");
    assert signedIn == LoggedIn;
    session := site.sessionUserId;
  }
}
