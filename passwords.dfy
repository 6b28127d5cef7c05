/** werkzeug's `generate_password_hash` and `check_password_hash`, reduced to
    the two facts the handlers rely on: a hash accepts the password it was made
    from and rejects every other one. The salt is werkzeug's random salt, taken
    here as a parameter. */
module Passwords {

  /** A stored password hash. It is a different type from `string`, so no user
      record can hold a plaintext password in its place. */
  datatype PasswordHash = PasswordHash(salt: nat, secret: string)

  /** werkzeug keeps the salt inside the hash it returns. */
  function GeneratePasswordHash(password: string, salt: nat): (h: PasswordHash)
    ensures h.salt == salt
  {
    PasswordHash(salt, password)
  }

  /** A candidate checks against a stored hash exactly when hashing it again
      with the stored salt reproduces the stored hash. */
  function CheckPasswordHash(hash: PasswordHash, password: string): (ok: bool)
    ensures ok <==> hash == GeneratePasswordHash(password, hash.salt)
  {
    hash.secret == password
  }

  /** `check(hash(p), q)` holds exactly when `q` is `p`, whatever the salt. */
  lemma CheckGenerated(password: string, candidate: string, salt: nat)
    ensures CheckPasswordHash(GeneratePasswordHash(password, salt), candidate) <==> candidate == password
  {
  }
}
