/** bcryptjs as an ideal salted hash: `hash(plain, salt)` yields a value that
    is not the plaintext string, and `compare(plain, hash)` holds exactly for
    the plaintext that was hashed. The salt stands for the random salt bcrypt
    draws; it is an input of the model. */
module Bcrypt {

  datatype PasswordHash = BcryptHash(salt: nat, digestOf: string)

  function Hash(plain: string, salt: nat): PasswordHash {
    BcryptHash(salt, plain)
  }

  predicate Compare(plain: string, hash: PasswordHash) {
    hash.digestOf == plain
  }

  /** `compare` accepts the hashed password, whatever the salt, and rejects
      every other one. */
  lemma CompareHash(plain: string, other: string, salt: nat)
    ensures Compare(plain, Hash(plain, salt))
    ensures other != plain ==> !Compare(other, Hash(plain, salt))
  {
  }
}
