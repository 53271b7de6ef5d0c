/** Shared vocabulary of the Raffle and ChaseTheAce contracts. */
module Common {

  /** An account address (msg.sender, a contract address). */
  type Address = nat

  /** A 32-byte commit hash, as produced by `soliditySha3`. */
  type Digest = nat

  /** Keccak-256 of a revealed number. Kept uninterpreted: every contract receives it as a value. */
  type Hasher = int -> Digest

  /** The on-chain derivation that turns revealed numbers into a random number. Kept uninterpreted. */
  type Mixer = seq<int> -> nat

  /** The outcome of a transaction: it either goes through or reverts with a reason. */
  datatype Outcome<+E> = Pass | Fail(error: E)

  datatype Option<+T> = None | Some(value: T)

  /** `n` copies of `a`: the tickets one purchase of `n` tickets appends. */
  function Repeat(a: Address, n: nat): (s: seq<Address>)
    ensures |s| == n
    ensures forall i :: 0 <= i < n ==> s[i] == a
  {
    if n == 0 then [] else Repeat(a, n - 1) + [a]
  }

  /** Every element of `s` occurs once. */
  predicate Distinct(s: seq<Address>)
  {
    forall i, j :: 0 <= i < j < |s| ==> s[i] != s[j]
  }
}
