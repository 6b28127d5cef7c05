/** Concrete runs of the handlers: a registration, verification and sign-in;
    a password reset; a short password; and what the email pattern accepts. */
module Scenarios {
  import opened Wrappers
  import opened Forms
  import opened Tokens
  import opened Passwords
  import opened Accounts

  const Alice := "alice@example.com"

  lemma AliceIsEmailShaped()
    ensures EmailShaped(Alice)
  {
    assert PatternMatchesPrefix(Alice, 5, 13, 17);
  }

  /** Alice registers, confirms her address within the hour and signs in; a
      wrong password is refused. */
  lemma RegisterConfirmSignin(salt: nat, t: int)
    ensures var (st1, out1) := Signup(Empty, Some(Alice), Some("Passw0rd"), Some("Passw0rd"), Some("on"), salt, t);
      && out1.AccountCreated?
      && Alice in st1.users && !st1.users[Alice].isVerified
      && var (st2, out2) := ConfirmEmail(st1, out1.verification, t + 600);
      && out2 == EmailVerified && st2.users[Alice].isVerified
      && Signin(st2, Alice, "Passw0rd") == (st2.(sessionUserId := Some(st2.users[Alice].id)), LoggedIn)
      && Signin(st2, Alice, "wrong") == (st2, InvalidCredentials)
  {
    EmptyValid();
    AliceIsEmailShaped();
  }

  /** Before confirming, the right password only asks for verification. */
  lemma UnverifiedCannotSignIn(salt: nat, t: int)
    ensures var st1 := Signup(Empty, Some(Alice), Some("Passw0rd"), Some("Passw0rd"), Some("on"), salt, t).0;
      Signin(st1, Alice, "Passw0rd") == (st1, VerifyEmailFirst)
  {
    EmptyValid();
    AliceIsEmailShaped();
  }

  /** A reset link arrives for Alice; after the reset the old password no
      longer authenticates and the new one does. */
  lemma ResetPasswordFlow(st: Store, salt: nat, t: int)
    requires Valid(st)
    requires Alice in st.users && st.users[Alice].isVerified
    requires CheckPasswordHash(st.users[Alice].password, "Passw0rd")
    ensures var out := ForgetPassword(st, Alice, t);
      && out.ResetLinkSent?
      && var (st2, out2) := ResetWithToken(st, out.reset, Some("NewPass1"), salt, t + 60);
      && out2 == PasswordUpdated
      && Signin(st2, Alice, "Passw0rd").1 == InvalidCredentials
      && Signin(st2, Alice, "NewPass1").1 == LoggedIn
  {
  }

  /** A short password is refused before the table is looked at. */
  lemma ShortPasswordRejected(salt: nat, t: int)
    ensures Signup(Empty, Some("bob@x.com"), Some("short"), Some("short"), Some("on"), salt, t)
         == (Empty, SignupRejected(PasswordTooShort))
  {
    EmptyValid();
    assert PatternMatchesPrefix("bob@x.com", 3, 5, 7);
  }

  /** Registering the same email twice is refused and leaves one row. */
  lemma SecondSignupIsDuplicate(salt: nat, salt2: nat, t: int)
    ensures var st1 := Signup(Empty, Some(Alice), Some("Passw0rd"), Some("Passw0rd"), Some("on"), salt, t).0;
      var (st2, out2) := Signup(st1, Some(Alice), Some("Other123"), Some("Other123"), Some("on"), salt2, t);
      out2 == AlreadyRegistered && st2 == st1 && |st2.users| == 1
  {
    EmptyValid();
    AliceIsEmailShaped();
  }

  /** Text after a matching prefix is accepted, because the match is anchored
      only at the start. */
  lemma TrailingGarbageAccepted()
    ensures IsEmailAddress("a@b.c@@ <script>")
  {
    assert PatternMatchesPrefix("a@b.c@@ <script>", 1, 3, 5);
  }

  /** Inputs the pattern refuses: no dot after the `@`, an empty local part,
      an empty domain before the dot, nothing after the dot. */
  lemma RejectedShapes()
    ensures !IsEmailAddress("a@b")
    ensures !IsEmailAddress("@b.c")
    ensures !IsEmailAddress("a@.c")
    ensures !IsEmailAddress("a@b.")
  {
  }
}
