/**
 * A stand-in for bcryptjs's `hash(value, 12)` and `compare(value, hash)`. Only the relation the
 * server relies on is kept: a hash starts with the cost-12 header, carries a 22-character salt,
 * and `Compare` accepts exactly the value that was hashed.
 */
module Bcrypt {
  import opened Text

  const HASH_HEADER := "$2a$12$"
  const SALT_LENGTH := 22
  const PREFIX_LENGTH := 29

  type Salt = s: string | |s| == SALT_LENGTH witness "0000000000000000000000"

  /** `bcrypt.hash(plain, 12)` with the random salt passed in. */
  function Hash(plain: string, salt: Salt): (h: string)
    ensures StartsWith(h, HASH_HEADER) && |h| == PREFIX_LENGTH + |plain|
  {
    HASH_HEADER + salt + plain
  }

  /** `bcrypt.compare(plain, hash)`. */
  function Compare(plain: string, hash: string): (ok: bool)
    ensures ok ==> StartsWith(hash, HASH_HEADER) && |hash| == PREFIX_LENGTH + |plain|
  {
    |hash| >= PREFIX_LENGTH && StartsWith(hash, HASH_HEADER) && hash[PREFIX_LENGTH..] == plain
  }

  /** A hash accepts the value it was made from and nothing else, whatever the salt. */
  lemma CompareHash(plain: string, candidate: string, salt: Salt)
    ensures Compare(candidate, Hash(plain, salt)) <==> candidate == plain
  {
    assert Hash(plain, salt)[PREFIX_LENGTH..] == plain;
  }

  /** A hash is never the value it hides. */
  lemma HashDiffersFromPlain(plain: string, salt: Salt)
    ensures Hash(plain, salt) != plain
  {
  }
}
