/**
 An ideal stand-in for the bcrypt calls of the signup and login handlers.
 A digest remembers the salt it was made with and an image of the password
 that only `Compare` inspects, so that comparing a password against a digest
 succeeds exactly for the password the digest was made from.
 */
module Crypto {

  /** The salt bcrypt draws at random on signup; the model takes it as an input. */
  type Salt = string

  datatype Digest = Digest(salt: Salt, image: string)

  /** bcrypt.hash(password, salt) */
  function Hash(password: string, salt: Salt): (d: Digest)
    ensures d.salt == salt
    ensures forall p :: Compare(p, d) <==> p == password
  {
    Digest(salt, password)
  }

  /** bcrypt.compare(password, digest) */
  predicate Compare(password: string, d: Digest)
  {
    d.image == password
  }

  /** A password matches a digest exactly when the digest is that password's hash under the digest's own salt. */
  lemma MatchingDigestIsHash(password: string, d: Digest)
    ensures Compare(password, d) <==> d == Hash(password, d.salt)
  {
  }
}
