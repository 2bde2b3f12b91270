/**
 * bcrypt, as the user model uses it: `hash(value, rounds)` and
 * `compare(candidate, digest)`. Hashing is modelled symbolically: a digest is
 * a free term over the value it was computed from, so two different inputs
 * never give the same digest and the only way to learn anything about the
 * input is `Compare`. Salts and the cost of a round are not modelled.
 */
module Bcrypt {

  /**
   * The value of a password field: plaintext as the caller assigned it, or
   * the digest of an earlier value (which may itself be a digest, if a
   * digest were ever hashed again).
   */
  datatype Password = Plain(text: string) | Digest(input: Password, rounds: nat)

  /** How many times the plaintext under `p` has been hashed. */
  function Layers(p: Password): nat {
    match p
    case Plain(_) => 0
    case Digest(input, _) => Layers(input) + 1
  }

  /** `bcrypt.hash(p, rounds)`: a digest that records its cost factor and is never its own input. */
  function Hash(p: Password, rounds: nat): (h: Password)
    ensures h.Digest? && h.rounds == rounds
    ensures Layers(h) == Layers(p) + 1 && h != p
  {
    Digest(p, rounds)
  }

  /** `bcrypt.compare(candidate, stored)`: stored must be a digest of exactly that plaintext. */
  predicate Compare(candidate: string, stored: Password) {
    stored.Digest? && stored.input == Plain(candidate)
  }

  /** Password round trip: a hashed plaintext matches itself and nothing else. */
  lemma HashThenCompare(p: string, q: string, rounds: nat)
    ensures Compare(q, Hash(Plain(p), rounds)) <==> q == p
  {
  }

  /** Hashing a digest a second time loses the plaintext: it no longer matches. */
  lemma RehashNeverMatches(p: string, q: string, rounds: nat)
    ensures !Compare(q, Hash(Hash(Plain(p), rounds), rounds))
  {
  }
}
