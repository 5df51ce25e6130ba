/**
 An idealised model of the bcrypt pair `hashpw(secret, gensalt())` / `checkpw(secret, stored)`.

 The real algorithm is a foreign, deliberately slow, salted one-way function. The model keeps
 only what the portal relies on: a digest made from a secret accepts that secret and no other
 (collision freedom), and the salt chosen at random by `gensalt()` is a parameter.
 */
module Hashing {

  /** The random salt `gensalt()` returns, supplied by the caller in the model. */
  type Salt = nat

  /** A stored credential hash. It records its salt; equality with another secret is all `CheckPw` observes. */
  datatype Digest = Digest(salt: Salt, secret: string)

  /** `hashpw(password, salt)`: the digest accepts exactly the password it was made from. */
  function HashPw(password: string, salt: Salt): (d: Digest)
    ensures d.salt == salt
    ensures CheckPw(password, d)
    ensures forall other :: CheckPw(other, d) ==> other == password
  {
    Digest(salt, password)
  }

  /** `checkpw(password, stored)`. */
  predicate CheckPw(password: string, stored: Digest)
  {
    password == stored.secret
  }

  /** Two digests of the same secret made with different salts are different stored values. */
  lemma SaltsSeparateDigests(password: string, s1: Salt, s2: Salt)
    requires s1 != s2
    ensures HashPw(password, s1) != HashPw(password, s2)
    ensures CheckPw(password, HashPw(password, s1)) && CheckPw(password, HashPw(password, s2))
  {
  }
}
