/** The `URLSafeTimedSerializer` of app.py:52, seen from outside: a token is
    either one the server signed (an email, under a salt, at an issue time) or
    a string whose signature does not verify. A token signed under one salt
    does not verify under another. Signing internals and the secret key are
    not modelled. */
module Tokens {
  import opened Wrappers

  /** The salt passed to `dumps`/`loads`: 'email-confirm' or 'password-reset'. */
  datatype Purpose = EmailConfirm | PasswordReset

  /** The salt string each purpose stands for. */
  function SaltOf(p: Purpose): string {
    match p
    case EmailConfirm => "email-confirm"
    case PasswordReset => "password-reset"
  }

  datatype Token =
    | Signed(email: string, salt: string, issuedAt: int)
    | Tampered

  /** The `max_age` both handlers pass to `loads`, in seconds. */
  const MaxAge: int := 3600

  /** `s.dumps(email, salt=...)` at clock reading `now`. */
  function Dumps(email: string, purpose: Purpose, now: int): (t: Token)
    ensures Loads(t, purpose, now) == Some(email)
    ensures forall other :: other != purpose ==> Loads(t, other, now) == None
    ensures Loads(t, purpose, now + MaxAge + 1) == None
  {
    SaltsDistinct();
    Signed(email, SaltOf(purpose), now)
  }

  /** `s.loads(token, salt=..., max_age=3600)` at clock reading `now`; `None`
      stands for the exception it raises. */
  function Loads(token: Token, purpose: Purpose, now: int): (r: Option<string>)
    ensures token.Tampered? ==> r == None
    ensures r.Some? ==> token.Signed? && r.value == token.email
    ensures r.Some? ==> token.salt == SaltOf(purpose) && now - token.issuedAt <= MaxAge
  {
    match token
    case Signed(email, salt, issuedAt) =>
      if salt == SaltOf(purpose) && now - issuedAt <= MaxAge then Some(email) else None
    case Tampered => None
  }

  /** The two salts differ, so the purposes really are two namespaces. */
  lemma SaltsDistinct()
    ensures forall p, q :: SaltOf(p) == SaltOf(q) ==> p == q
  {
    assert SaltOf(EmailConfirm)[0] != SaltOf(PasswordReset)[0];
  }

  /** A token loads back to its email, under its own purpose, exactly while it
      is no older than `MaxAge`. */
  lemma LoadsDumps(email: string, purpose: Purpose, issued: int, now: int)
    ensures Loads(Dumps(email, purpose, issued), purpose, now) == (if now - issued <= MaxAge then Some(email) else None)
  {
  }

  /** A token signed for one purpose never loads under the other, because the
      two salts differ. */
  lemma PurposeSeparation(email: string, purpose: Purpose, other: Purpose, issued: int, now: int)
    requires other != purpose
    ensures Loads(Dumps(email, purpose, issued), other, now) == None
  {
    SaltsDistinct();
  }

  /** Whatever `Loads` accepts is a token the server signed for that very
      purpose no more than `MaxAge` seconds before `now`. */
  lemma LoadsSound(token: Token, purpose: Purpose, now: int)
    requires Loads(token, purpose, now).Some?
    ensures token == Dumps(Loads(token, purpose, now).value, purpose, token.issuedAt)
    ensures now - token.issuedAt <= MaxAge
  {
  }

  /** Expiry is monotone in the clock: once rejected, always rejected later. */
  lemma ExpiredStaysExpired(token: Token, purpose: Purpose, now: int, later: int)
    requires now <= later
    requires Loads(token, purpose, now) == None
    ensures Loads(token, purpose, later) == None
  {
  }
}
