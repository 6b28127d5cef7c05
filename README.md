# Account and verification-token model of the SOJT site

The site (`app.py`, a Flask application) lets visitors subscribe to a
newsletter, request a call, send a contact form, and hold an account. An
account is created by `signup` with `is_verified = false`. It is verified by
redeeming a signed `email-confirm` token. It is signed into by `signin`, which
opens a session only for a verified user. Its password is reset through a
signed `password-reset` token. Both kinds of token expire after 3600 seconds.

This project models that decision logic and proves what it promises:

- `wrappers.dfy`: `Option`, for absent form fields.
- `forms.dfy`: the validators. `Filled` is Python's `not x` on a request field.
  `LongEnough` is the 8-character minimum. `EmailShaped` is the regular
  expression `[^@]+@[^@]+\.[^@]+` as `re.match` applies it: some prefix must
  match, and anything may follow. `IsEmailAddress` is a one-pass scanner,
  proved equal to `EmailShaped`.
- `tokens.dfy`: the `URLSafeTimedSerializer`, seen from outside. A token is
  either `Signed(email, salt, issuedAt)` or `Tampered`. `Loads` accepts a
  token only when it was signed under the salt of the expected purpose and
  `now - issuedAt <= 3600`. The clock
  `now` is an integer parameter.
- `passwords.dfy`: werkzeug hashing, reduced to two facts. A hash accepts the
  password it was made from and rejects every other. The random salt is a
  parameter.
- `accounts.dfy`: the state as a value (`Store`: user table keyed by email,
  next id, subscriptions, the two submission tables, the session's `user_id`),
  the invariant `Valid`, and one transition function per handler. Each returns
  the new state and the handler's outcome (its flash message).
- `accounts_props.dfy`: the properties of those transitions, and invariants
  over any sequence of requests.
- `scenarios.dfy`: concrete runs, and strings the email pattern accepts or
  refuses.
- `site.dfy`: the handlers as they run. Class `Site` holds the tables and the
  session as fields. Each method updates them in place, touches only the fields
  its `modifies` clause names, and is proved to perform exactly the transition
  of the same name.

Behaviour of the code that the model keeps, which a reader might not expect:

- A failed sign-in does not clear a session that is already open. The code
  never touches `session` on that path.
- A valid confirmation token whose email has no user is not reported as an
  invalid link. The handler falls through to a silent redirect (`NoSuchAccount`).
- A valid reset token with an acceptable password but no matching user
  re-renders the reset form (`ResetFormShown`).
- A reset POST without a `newPassword` field makes `len(None)` raise. The broad
  `except` reports this as an invalid link.

## Model

| member | source | states |
|---|---|---|
| `Forms.IsEmailAddress` | app.py:968 | the validator accepts a string exactly when some prefix matches non-`@`+ `@` non-`@`+ `.` non-`@`+ |
| `Forms.ScanLocalCorrect` | app.py:1133 | the left-to-right scan succeeds if and only if `re.match` of the pattern succeeds |
| `Forms.ScanDomainSound` | app.py:1133 | a successful domain scan has found a dot ending a non-empty `@`-free run and followed by a non-`@` |
| `Forms.ScanDomainComplete` | app.py:1133 | if such a dot exists at or after the scan position, the domain scan succeeds |
| `Forms.ScanLocalSound` | app.py:1133 | a successful scan yields a matching prefix |
| `Forms.ScanLocalComplete` | app.py:1133 | every matching prefix makes the scan succeed |
| `Forms.TrailingTextAccepted` | app.py:968 | anything appended to an accepted string is accepted too, since the match is anchored only at the start |
| `Forms.AcceptedHasAt` | app.py:968 | an accepted string has an `@` after a non-empty `@`-free prefix |
| `Tokens.SaltsDistinct` | app.py:1158 | the salts `email-confirm` and `password-reset` differ, so each purpose has its own salt; purpose separation rests on this |
| `Tokens.Dumps` | app.py:1158 | a freshly issued token loads back to its email under its own purpose, is refused under the other purpose, and is refused once more than 3600 seconds have passed |
| `Tokens.Loads` | app.py:1173 | a bad signature is refused; an accepted token carries the returned email, was signed under the expected salt and is at most 3600 seconds old (the converse is `Tokens.LoadsDumps`) |
| `Tokens.LoadsDumps` | app.py:1173 | a token loads back to its email under its own purpose exactly while it is at most 3600 seconds old |
| `Tokens.PurposeSeparation` | app.py:1236 | a token signed for one purpose never loads under the other |
| `Tokens.LoadsSound` | app.py:1173 | whatever loads is a token the server signed for that purpose no more than 3600 seconds earlier |
| `Tokens.ExpiredStaysExpired` | app.py:1236 | for a token issued no later than the first clock reading, refusal at that reading means refusal at every later reading |
| `Passwords.GeneratePasswordHash` | app.py:1152 | the generated hash records the salt it was made with; with `Passwords.CheckGenerated` it accepts its password and no other |
| `Passwords.CheckPasswordHash` | app.py:1193 | a candidate checks exactly when hashing it again with the stored salt reproduces the stored hash |
| `Passwords.CheckGenerated` | app.py:1193 | `check_password_hash(generate_password_hash(p), q)` holds exactly when `q == p`, whatever the salt |
| `Accounts.EmptyValid` | app.py:88-89 | the freshly created tables satisfy the invariant |
| `Accounts.SignupFormError` | app.py:1125-1143 | each rejection is reported exactly when every earlier check passes and its own fails, in the order missing field, mismatch, email shape, length under 8, terms not ticked |
| `Accounts.Signup` | app.py:1146-1162 | signup keeps the invariant: emails unique, ids unique and below the next id, every email well formed, any session belongs to a verified user |
| `Accounts.ConfirmEmail` | app.py:1171-1183 | confirming an email keeps the invariant |
| `Accounts.Signin` | app.py:1187-1202 | sign-in keeps the invariant, so a session only ever names a verified user |
| `Accounts.Logout` | app.py:1208-1209 | logout keeps the invariant |
| `Accounts.ForgetPassword` | app.py:1215-1228 | a reset link is issued exactly for a registered email, and it loads back to that email under the `password-reset` purpose |
| `Accounts.ResetWithToken` | app.py:1234-1252 | password reset keeps the invariant |
| `Accounts.ResetPage` | app.py:1234-1254 | the GET request either shows the form or reports an invalid link; a bad signature is refused; a signed token is accepted exactly when it was issued for password reset no more than 3600 seconds ago |
| `Accounts.Subscribe` | app.py:964-981 | subscribing keeps every subscribed email well formed |
| `Accounts.ScheduleCall` | app.py:1000-1014 | a call request keeps the invariant |
| `Accounts.SubmitContact` | app.py:1033-1058 | a contact submission keeps the invariant |
| `Accounts.Step` | app.py:63-67 | every handler keeps the invariant of the user table and the session |
| `Accounts.Run` | app.py:63-67 | every sequence of requests keeps the invariant |
| `AccountFacts.SignupRejectionChangesNothing` | app.py:1125-1149 | a rejected or duplicate signup leaves the whole store unchanged |
| `AccountFacts.SignupDuplicate` | app.py:1146-1149 | a duplicate is reported exactly when the form passes and the email is already registered |
| `AccountFacts.SignupRejectedForFirstFailure` | app.py:1125-1143 | a form failing a check is rejected with the first failing check as its reason, and the store is unchanged |
| `AccountFacts.SignupCreatedOnlyIfNew` | app.py:1146-1154 | an account is created exactly when the form passes and the email is not yet registered |
| `AccountFacts.SignupCreatesOneUser` | app.py:1151-1158 | a signup whose form passes with an unregistered email creates the account: it adds exactly one user under the new email, unverified, with a hash that accepts that password and no other; existing users and other tables are untouched; the mailed token confirms that email |
| `AccountFacts.ConfirmVerifiesOnlyThatUser` | app.py:1173-1176 | a fresh email-confirm token for an existing user sets only that user's `is_verified` |
| `AccountFacts.ConfirmFailureChangesNothing` | app.py:1173-1183 | an invalid, expired or wrong-purpose token, or one whose email has no user, changes nothing |
| `AccountFacts.ConfirmIdempotent` | app.py:1173-1177 | redeeming the same token again, at the same time or later, changes nothing further (for a token issued no later than the first redemption) |
| `AccountFacts.ConfirmRefusesResetToken` | app.py:1173 | `confirm_email` refuses a `password-reset` token and changes nothing |
| `AccountFacts.ResetRefusesConfirmToken` | app.py:1236 | `reset_with_token` refuses an `email-confirm` token and changes nothing |
| `AccountFacts.ExpiredTokenRefused` | app.py:1236 | a token more than 3600 seconds old is refused by both handlers |
| `AccountFacts.SigninOutcomes` | app.py:1192-1202 | a session is opened exactly for an existing, verified user whose password checks; a correct password on an unverified account gives "verify your email"; sign-in never changes the user table |
| `AccountFacts.LogoutClearsSession` | app.py:1209 | logout removes the session's `user_id`, changes nothing else, and is a no-op when none is set |
| `AccountFacts.ResetReplacesOnlyThatHash` | app.py:1236-1246 | a valid reset replaces only that user's hash; the new password checks and no other does; `is_verified` and the id are kept |
| `AccountFacts.ResetFailureChangesNothing` | app.py:1236-1252 | every outcome except a successful update leaves the store unchanged; a short new password is reported and changes no hash |
| `AccountFacts.ResetRefusesUnloadableToken` | app.py:1236 | a token that does not load as a reset token (bad signature, other salt, expired) is refused and changes nothing |
| `AccountFacts.ResetRefusesTampered` | app.py:1236 | a token with a bad signature is refused by both the GET and the POST reset page |
| `AccountFacts.ResetUpdatesOnlyIfAllowed` | app.py:1236-1246 | a password is replaced exactly when the token loads as a reset token for an existing user and the new password is present and at least 8 characters |
| `AccountFacts.ResetPageAgreesWithPost` | app.py:1236 | the GET and the POST reset page refuse the same tokens |
| `AccountFacts.SubscribeAddsNewValidEmail` | app.py:968-981 | an email is added exactly when it is well formed and not yet subscribed; nothing else changes |
| `AccountFacts.ScheduleCallAppendsOne` | app.py:1007-1014 | one call record is appended, with the submitted fields, exactly when all four fields are filled |
| `AccountFacts.SubmitContactAppendsOne` | app.py:1042-1058 | one contact record holding all six submitted fields is appended exactly when all six are filled |
| `AccountFacts.StepKeepsUsers` | app.py:1176 | no handler deletes a user, changes a user's id or sets `is_verified` back to false |
| `AccountFacts.OnlyConfirmVerifies` | app.py:1176 | no handler except `confirm_email` makes any user verified who was not verified before |
| `AccountFacts.RunKeepsUsers` | app.py:1176 | over any sequence of requests, users persist with their ids and `is_verified` never goes from true to false |
| `AccountFacts.RunFromEmpty` | app.py:1195 | after any sequence of requests, a session belongs to a verified user and ids stay unique |
| `Scenarios.AliceIsEmailShaped` | app.py:1133 | `alice@example.com` has the email shape |
| `Scenarios.RegisterConfirmSignin` | app.py:1117-1202 | register, confirm within the hour, then sign in with the right password opens a session; a wrong password is refused |
| `Scenarios.UnverifiedCannotSignIn` | app.py:1193-1199 | before confirmation the right password gives "verify your email" and no session |
| `Scenarios.ResetPasswordFlow` | app.py:1215-1246 | after a reset through the mailed link, the old password no longer authenticates and the new one does |
| `Scenarios.ShortPasswordRejected` | app.py:1137-1139 | a 5-character password is refused and no user row is created |
| `Scenarios.SecondSignupIsDuplicate` | app.py:1146-1149 | a second signup for the same email is refused and leaves exactly one row |
| `Scenarios.TrailingGarbageAccepted` | app.py:1133 | `a@b.c@@ <script>` passes the validator |
| `Scenarios.RejectedShapes` | app.py:1133 | `a@b`, `@b.c`, `a@.c` and `a@b.` fail the validator |
| `App.Site.constructor` | app.py:88-89 | a new site has empty tables and no session |
| `App.Site.Signup` | app.py:1117-1162 | updates only the user table and the id counter, performing exactly `Accounts.Signup` |
| `App.Site.ConfirmEmail` | app.py:1171-1183 | writes only the user table, performing exactly `Accounts.ConfirmEmail` |
| `App.Site.Signin` | app.py:1187-1202 | writes only the session, performing exactly `Accounts.Signin` |
| `App.Site.Logout` | app.py:1208-1209 | writes only the session, performing exactly `Accounts.Logout` |
| `App.Site.ForgetPassword` | app.py:1215-1228 | modifies nothing and returns exactly `Accounts.ForgetPassword` |
| `App.Site.ResetWithToken` | app.py:1234-1252 | writes only the user table, performing exactly `Accounts.ResetWithToken` |
| `App.Site.Subscribe` | app.py:964-981 | writes only the subscription set, performing exactly `Accounts.Subscribe` |
| `App.Site.ScheduleCall` | app.py:1000-1014 | writes only the call table, performing exactly `Accounts.ScheduleCall` |
| `App.Site.SubmitContact` | app.py:1033-1058 | writes only the contact table, performing exactly `Accounts.SubmitContact` |
| `App.RegisterAndSignIn` | app.py:1117-1202 | a client of the class: register, confirm and sign in end with an open session |

## Left out

- The HTML email bodies (`create_client_email_body`, `create_notification_email_body`) and all mail sending. Signup and forget-password return the token that would be mailed; the other handlers send nothing in the model.
- Page rendering, `flash` categories, `redirect` and `url_for`. Each handler's flash message is an outcome value. GET requests to signup, signin and forget-password only render a page and are not modelled.
- The Redis connection and Flask-Limiter. They are configured but never applied to a route.
- Environment configuration, logging, `get_current_year` and `datetime.now()`. Token issue and expiry use an integer clock parameter.
- Concurrency. Two simultaneous signups for one email are not modelled. Email uniqueness holds because the user table is a map keyed by email.
- One session is modelled, the one of the client making the requests. Flask keeps one signed session per browser.
- Tokens.Loads: does not model signature bytes, the secret key or the serializer's payload encoding. A token whose signature does not verify is the single value `Tampered`. itsdangerous also refuses a timestamp later than the current clock; that is not modelled, so the model accepts a future-dated token that the library would refuse.
- Passwords.GeneratePasswordHash: does not model one-wayness. The stored value keeps the password so that "accepts its own password and no other" can be proved rather than assumed. It is still a distinct type from a plaintext string.
- Subscribe: takes the email as a string. An absent `subscribeEmail` field makes `re.match(None)` raise an uncaught error, which is not modelled.
- Signin: takes email and password as strings. An absent email finds no user, which matches the empty string in the model because no registered email is empty. An absent password raises inside `check_password_hash`, which is not modelled.
- Subscription, ScheduledCall and ContactSubmission ids and column length limits (`String(120)` and similar) are not modelled. Submissions are kept in insertion order.
