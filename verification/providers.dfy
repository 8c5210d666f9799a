/** The salt source (`ISaltProvider`) and the hash function
    (`IHashProvider`). Neither is computed here: the salt source answers the
    n-th call from a script of salts, and the hash is a function given when
    the provider is made. Both count their calls, as the unit tests' mocks
    do. */
module Providers {
  import opened Bytes
  import KeyDerivation

  class SaltProvider {
    /** The salt the n-th call returns. */
    const salts: nat -> seq<Byte>
    var calls: nat

    constructor (salts: nat -> seq<Byte>)
      ensures this.salts == salts && calls == 0
    {
      this.salts := salts;
      calls := 0;
    }

    /** `GetSalt()`: the next salt of the script. */
    method GetSalt() returns (salt: seq<Byte>)
      modifies this
      ensures salt == salts(old(calls)) && calls == old(calls) + 1
    {
      salt := salts(calls);
      calls := calls + 1;
    }
  }

  class HashProvider {
    /** The digest of a byte sequence; deterministic. */
    const hash: seq<Byte> -> seq<Byte>
    var calls: nat

    constructor (hash: seq<Byte> -> seq<Byte>)
      ensures this.hash == hash && calls == 0
    {
      this.hash := hash;
      calls := 0;
    }

    /** SHA-256 answers `DigestLength` bytes for every input. */
    ghost predicate IsProduction() {
      KeyDerivation.Sha256Sized(hash)
    }

    /** `CalculateHash(input)`. */
    method CalculateHash(input: seq<Byte>) returns (digest: seq<Byte>)
      modifies this
      ensures digest == hash(input) && calls == old(calls) + 1
    {
      digest := hash(input);
      calls := calls + 1;
    }
  }
}
