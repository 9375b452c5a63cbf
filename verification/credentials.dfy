/**
 * Password hashing (bcrypt) and token signing (jwt), reduced to what the
 * account handlers rely on. A hash embeds its salt and a key derived from the
 * password; the derivation is idealised as collision-free, and only `Verify`
 * looks inside a hash. A token carries the user id it was signed for.
 */
module Credentials {

  /** A salt as produced by bcrypt's salt generator (its cost factor is not modelled). */
  type Salt = string

  /** The key bcrypt derives from a password under a salt. */
  datatype DerivedKey = DerivedKey(source: string)

  /** A stored bcrypt hash: the salt it was made with and the derived key. */
  datatype PasswordHash = PasswordHash(salt: Salt, key: DerivedKey)

  /** `bcrypt.hash(password, salt)`. */
  function Hash(password: string, salt: Salt): PasswordHash
  {
    PasswordHash(salt, DerivedKey(password))
  }

  /** `bcrypt.compare(candidate, hash)`: re-derive under the embedded salt and compare. */
  predicate Verify(candidate: string, hash: PasswordHash)
  {
    Hash(candidate, hash.salt) == hash
  }

  /** The identifier the store assigns to an account document (`_id`). */
  type ObjectId = nat

  /** A signed token with payload `{ user: { id } }`; its signature and expiry are not modelled. */
  datatype Token = Token(userId: ObjectId)

  /** `jwt.sign({ user: { id } }, secret, ...)`. */
  function Sign(id: ObjectId): Token
  {
    Token(id)
  }

  /** A hash verifies exactly the password it was made from, whatever the salt. */
  lemma VerifyHash(password: string, candidate: string, salt: Salt)
    ensures Verify(candidate, Hash(password, salt)) <==> candidate == password
  {
  }

  /** Tokens for different users differ. */
  lemma SignInjective(a: ObjectId, b: ObjectId)
    ensures Sign(a) == Sign(b) <==> a == b
  {
  }
}
