/** What the handlers of app.py promise, proved of the transition functions in
    accounts.dfy: the order and frame of signup's rejections, the effect of
    redeeming each kind of token, sign-in's three outcomes, and the invariants
    that hold over any sequence of requests. */
module AccountFacts {
  import opened Wrappers
  import opened Forms
  import opened Tokens
  import opened Passwords
  import opened Accounts

  // ---------------------------------------------------------------------
  // signup
  // ---------------------------------------------------------------------

  /** Every rejection, and a duplicate email, leaves the whole store as it was. */
  lemma SignupRejectionChangesNothing(st: Store, email: Field, password: Field, confirm: Field, terms: Field, salt: nat, now: int)
    requires Valid(st)
    requires !Signup(st, email, password, confirm, terms, salt, now).1.AccountCreated?
    ensures Signup(st, email, password, confirm, terms, salt, now).0 == st
  {
  }

  /** A form that fails a check is rejected with the first failing check as
      the reason, and the store is left as it was. */
  lemma SignupRejectedForFirstFailure(st: Store, email: Field, password: Field, confirm: Field, terms: Field,
                                      salt: nat, now: int, reason: SignupError)
    requires Valid(st)
    requires SignupFormError(email, password, confirm, terms) == Some(reason)
    ensures Signup(st, email, password, confirm, terms, salt, now) == (st, SignupRejected(reason))
  {
  }

  /** A successful signup happened because the form passed and the email was
      new; nothing else creates an account. */
  lemma SignupCreatedOnlyIfNew(st: Store, email: Field, password: Field, confirm: Field, terms: Field, salt: nat, now: int)
    requires Valid(st)
    ensures Signup(st, email, password, confirm, terms, salt, now).1.AccountCreated?
        <==> SignupFormError(email, password, confirm, terms) == None && email.value !in st.users
  {
  }

  /** A duplicate is reported exactly when the form is acceptable and the email
      is already a key of the user table. */
  lemma SignupDuplicate(st: Store, email: Field, password: Field, confirm: Field, terms: Field, salt: nat, now: int)
    requires Valid(st)
    ensures Signup(st, email, password, confirm, terms, salt, now).1 == AlreadyRegistered
        <==> SignupFormError(email, password, confirm, terms) == None && email.value in st.users
  {
  }

  /** A form that passes every check with an email not yet registered creates
      the account: exactly one unverified user is added under that email,
      storing a hash that accepts the password and nothing else, and mails a
      confirmation token for that email. */
  lemma SignupCreatesOneUser(st: Store, email: Field, password: Field, confirm: Field, terms: Field, salt: nat, now: int)
    requires Valid(st)
    requires SignupFormError(email, password, confirm, terms) == None
    requires email.value !in st.users
    ensures var (st', out) := Signup(st, email, password, confirm, terms, salt, now);
      && out.AccountCreated?
      && st'.users.Keys == st.users.Keys + {email.value}
      && |st'.users| == |st.users| + 1
      && (forall e :: e in st.users ==> st'.users[e] == st.users[e])
      && !st'.users[email.value].isVerified
      && (forall q :: CheckPasswordHash(st'.users[email.value].password, q) <==> q == password.value)
      && Loads(out.verification, EmailConfirm, now) == Some(email.value)
      && st'.subscriptions == st.subscriptions && st'.calls == st.calls
      && st'.contacts == st.contacts && st'.sessionUserId == st.sessionUserId
  {
  }

  // ---------------------------------------------------------------------
  // confirm_email
  // ---------------------------------------------------------------------

  /** A fresh email-confirm token for an existing user sets that user's flag
      and changes nothing else. */
  lemma ConfirmVerifiesOnlyThatUser(st: Store, token: Token, now: int)
    requires Valid(st)
    requires Loads(token, EmailConfirm, now).Some?
    requires Loads(token, EmailConfirm, now).value in st.users
    ensures var e := Loads(token, EmailConfirm, now).value;
      var (st', out) := ConfirmEmail(st, token, now);
      && out == EmailVerified
      && st'.users[e] == st.users[e].(isVerified := true)
      && st'.users.Keys == st.users.Keys
      && (forall other :: other in st.users && other != e ==> st'.users[other] == st.users[other])
      && st'.(users := st.users) == st
  {
  }

  /** An invalid, expired or wrong-purpose token, or a valid one whose email has
      no user, changes nothing. */
  lemma ConfirmFailureChangesNothing(st: Store, token: Token, now: int)
    requires Valid(st)
    requires Loads(token, EmailConfirm, now).None? || Loads(token, EmailConfirm, now).value !in st.users
    ensures ConfirmEmail(st, token, now).0 == st
    ensures ConfirmEmail(st, token, now).1 != EmailVerified
  {
  }

  /** Redeeming a token a second time, at the same time or later, leaves the
      state the first redemption produced. */
  lemma ConfirmIdempotent(st: Store, token: Token, now: int, later: int)
    requires Valid(st)
    requires now <= later
    ensures var st1 := ConfirmEmail(st, token, now).0;
      ConfirmEmail(st1, token, later).0 == st1
  {
  }

  // ---------------------------------------------------------------------
  // Purpose separation and expiry
  // ---------------------------------------------------------------------

  /** A password-reset token is refused by confirm_email. */
  lemma ConfirmRefusesResetToken(st: Store, email: string, issued: int, now: int)
    requires Valid(st)
    ensures ConfirmEmail(st, Dumps(email, PasswordReset, issued), now) == (st, ConfirmLinkInvalid)
  {
  }

  /** An email-confirm token is refused by reset_with_token. */
  lemma ResetRefusesConfirmToken(st: Store, email: string, issued: int, newPassword: Field, salt: nat, now: int)
    requires Valid(st)
    ensures ResetWithToken(st, Dumps(email, EmailConfirm, issued), newPassword, salt, now) == (st, ResetLinkInvalid)
  {
  }

  /** A token more than an hour old is refused by both handlers. */
  lemma ExpiredTokenRefused(st: Store, email: string, purpose: Purpose, issued: int, newPassword: Field, salt: nat, now: int)
    requires Valid(st)
    requires now - issued > MaxAge
    ensures ConfirmEmail(st, Dumps(email, purpose, issued), now) == (st, ConfirmLinkInvalid)
    ensures ResetWithToken(st, Dumps(email, purpose, issued), newPassword, salt, now) == (st, ResetLinkInvalid)
  {
  }

  // ---------------------------------------------------------------------
  // signin and logout
  // ---------------------------------------------------------------------

  /** Sign-in opens a session exactly for an existing, verified user whose
      password checks; a correct password on an unverified account asks for
      verification; everything else is "invalid email or password". Only the
      session can change, and only on success. */
  lemma SigninOutcomes(st: Store, email: string, password: string)
    requires Valid(st)
    ensures var (st', out) := Signin(st, email, password);
      && (out == LoggedIn <==>
            email in st.users && CheckPasswordHash(st.users[email].password, password) && st.users[email].isVerified)
      && (out == VerifyEmailFirst <==>
            email in st.users && CheckPasswordHash(st.users[email].password, password) && !st.users[email].isVerified)
      && (out == LoggedIn ==> st' == st.(sessionUserId := Some(st.users[email].id)))
      && (out != LoggedIn ==> st' == st)
  {
  }

  /** Logout removes the session entry, and does nothing when there is none. */
  lemma LogoutClearsSession(st: Store)
    requires Valid(st)
    ensures Logout(st).sessionUserId == None
    ensures Logout(st).(sessionUserId := st.sessionUserId) == st
    ensures st.sessionUserId == None ==> Logout(st) == st
  {
  }

  // ---------------------------------------------------------------------
  // reset_with_token
  // ---------------------------------------------------------------------

  /** With a valid reset token and a long enough password, only that user's
      hash is replaced; the new password then checks and any other does not. */
  lemma ResetReplacesOnlyThatHash(st: Store, token: Token, newPassword: string, salt: nat, now: int)
    requires Valid(st)
    requires Loads(token, PasswordReset, now).Some?
    requires Loads(token, PasswordReset, now).value in st.users
    requires LongEnough(newPassword)
    ensures var e := Loads(token, PasswordReset, now).value;
      var (st', out) := ResetWithToken(st, token, Some(newPassword), salt, now);
      && out == PasswordUpdated
      && st'.users.Keys == st.users.Keys
      && st'.users[e].isVerified == st.users[e].isVerified
      && st'.users[e].id == st.users[e].id
      && (forall q :: CheckPasswordHash(st'.users[e].password, q) <==> q == newPassword)
      && (forall other :: other in st.users && other != e ==> st'.users[other] == st.users[other])
      && st'.(users := st.users) == st
  {
  }

  /** Every outcome but a successful update leaves the store as it was; in
      particular a short new password leaves every hash unchanged. */
  lemma ResetFailureChangesNothing(st: Store, token: Token, newPassword: Field, salt: nat, now: int)
    requires Valid(st)
    ensures ResetWithToken(st, token, newPassword, salt, now).1 != PasswordUpdated
        ==> ResetWithToken(st, token, newPassword, salt, now).0 == st
    ensures newPassword.Some? && !LongEnough(newPassword.value) && Loads(token, PasswordReset, now).Some?
        ==> ResetWithToken(st, token, newPassword, salt, now) == (st, NewPasswordTooShort)
  {
  }

  /** A token that does not load as a reset token (a bad signature, the other
      salt, or more than an hour old) is refused and changes nothing. */
  lemma ResetRefusesUnloadableToken(st: Store, token: Token, newPassword: Field, salt: nat, now: int)
    requires Valid(st)
    requires Loads(token, PasswordReset, now).None?
    ensures ResetWithToken(st, token, newPassword, salt, now) == (st, ResetLinkInvalid)
  {
  }

  /** A token whose signature does not verify is refused by both the GET and
      the POST form of the reset page. */
  lemma ResetRefusesTampered(st: Store, newPassword: Field, salt: nat, now: int)
    requires Valid(st)
    ensures ResetWithToken(st, Tampered, newPassword, salt, now) == (st, ResetLinkInvalid)
    ensures ResetPage(Tampered, now) == ResetLinkInvalid
  {
  }

  /** A password is replaced exactly when the token loads as a reset token for
      an existing user and the new password is present and long enough. */
  lemma ResetUpdatesOnlyIfAllowed(st: Store, token: Token, newPassword: Field, salt: nat, now: int)
    requires Valid(st)
    ensures ResetWithToken(st, token, newPassword, salt, now).1 == PasswordUpdated
        <==> && Loads(token, PasswordReset, now).Some?
             && Loads(token, PasswordReset, now).value in st.users
             && newPassword.Some? && LongEnough(newPassword.value)
  {
  }

  /** The GET and the POST form of the reset page refuse the same tokens. */
  lemma ResetPageAgreesWithPost(st: Store, token: Token, newPassword: string, salt: nat, now: int)
    requires Valid(st)
    ensures ResetPage(token, now) == ResetLinkInvalid
        <==> ResetWithToken(st, token, Some(newPassword), salt, now) == (st, ResetLinkInvalid)
  {
  }

  // ---------------------------------------------------------------------
  // subscribe, schedule_call, submit_contact
  // ---------------------------------------------------------------------

  /** An email is added exactly when it has the email shape and is new;
      otherwise nothing changes. */
  lemma SubscribeAddsNewValidEmail(st: Store, email: string)
    requires Valid(st)
    ensures var (st', out) := Subscribe(st, email);
      && (out == Subscribed <==> EmailShaped(email) && email !in st.subscriptions)
      && (out == AlreadySubscribed <==> EmailShaped(email) && email in st.subscriptions)
      && st'.subscriptions == (if out == Subscribed then st.subscriptions + {email} else st.subscriptions)
      && st'.(subscriptions := st.subscriptions) == st
  {
  }

  /** A call request is appended exactly when all four fields are filled. */
  lemma ScheduleCallAppendsOne(st: Store, firstName: Field, lastName: Field, email: Field, message: Field)
    requires Valid(st)
    ensures var (st', out) := ScheduleCall(st, firstName, lastName, email, message);
      && (out == Saved <==> Filled(firstName) && Filled(lastName) && Filled(email) && Filled(message))
      && (out == Saved ==> |st'.calls| == |st.calls| + 1 && st'.calls[..|st.calls|] == st.calls
                           && st'.calls[|st.calls|] == ScheduledCall(firstName.value, lastName.value, email.value, message.value))
      && (out == FieldsMissing ==> st'.calls == st.calls)
      && st'.(calls := st.calls) == st
  {
  }

  /** A contact submission is appended exactly when all six fields are filled. */
  lemma SubmitContactAppendsOne(st: Store, firstName: Field, lastName: Field, email: Field,
                                companyName: Field, phone: Field, message: Field)
    requires Valid(st)
    ensures var (st', out) := SubmitContact(st, firstName, lastName, email, companyName, phone, message);
      && (out == Saved <==> Filled(firstName) && Filled(lastName) && Filled(email)
                            && Filled(companyName) && Filled(phone) && Filled(message))
      && (out == Saved ==> |st'.contacts| == |st.contacts| + 1 && st'.contacts[..|st.contacts|] == st.contacts
                           && st'.contacts[|st.contacts|]
                              == ContactSubmission(firstName.value, lastName.value, email.value,
                                                   companyName.value, phone.value, message.value))
      && (out == FieldsMissing ==> st'.contacts == st.contacts)
      && st'.(contacts := st.contacts) == st
  {
  }

  // ---------------------------------------------------------------------
  // Any sequence of requests
  // ---------------------------------------------------------------------

  /** `u` keeps every user of `users`, with the same id, and no flag of a kept
      user goes from true to false. */
  ghost predicate UsersKept(users: map<string, User>, u: map<string, User>) {
    forall e :: e in users ==> e in u && u[e].id == users[e].id && (users[e].isVerified ==> u[e].isVerified)
  }

  /** No handler deletes a user, renumbers one or clears its flag. */
  lemma StepKeepsUsers(st: Store, req: Request)
    requires Valid(st)
    ensures UsersKept(st.users, Step(st, req).users)
  {
  }

  /** Only confirm_email sets a flag: after any other request every verified
      user was already a verified user before it. */
  lemma OnlyConfirmVerifies(st: Store, req: Request)
    requires Valid(st)
    requires !req.ConfirmRequest?
    ensures forall e :: e in Step(st, req).users && Step(st, req).users[e].isVerified
                    ==> e in st.users && st.users[e].isVerified
  {
  }

  /** Over any sequence of requests, users persist with their ids and
      `is_verified` never goes from true to false. */
  lemma {:induction false} RunKeepsUsers(st: Store, reqs: seq<Request>)
    requires Valid(st)
    ensures UsersKept(st.users, Run(st, reqs).users)
    decreases |reqs|
  {
    if reqs != [] {
      var next := Step(st, reqs[0]);
      StepKeepsUsers(st, reqs[0]);
      RunKeepsUsers(next, reqs[1..]);
    }
  }

  /** Over any sequence of requests from the empty store, the session, when
      set, belongs to a verified user, and emails and ids stay unique. */
  lemma RunFromEmpty(reqs: seq<Request>)
    ensures var st := Run(Empty, reqs);
      && (st.sessionUserId.Some? ==> SessionOfVerifiedUser(st.users, st.sessionUserId.value))
      && (forall e1, e2 :: e1 in st.users && e2 in st.users && e1 != e2 ==> st.users[e1].id != st.users[e2].id)
  {
    EmptyValid();
  }
}
