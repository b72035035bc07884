/**
 * The small part of the SwiftVectorCore package that the flight core uses:
 * identifiers, timestamps, digests and the reducer result. Only the shapes
 * are modelled; the package's hashing is a parameter (see Orchestrator).
 */
module VectorCore {

  /** A 128-bit UUID. */
  type Uuid = x: int | 0 <= x < 0x1_0000_0000_0000_0000_0000_0000_0000_0000

  /** Foundation's `Date`, as seconds since the Unix epoch. */
  datatype Date = Date(timeIntervalSince1970: real)

  /** `Date(timeIntervalSince1970: 0)`. */
  const Epoch: Date := Date(0.0)

  /** A hex-encoded digest, as produced by `stateHash()` and `entryHash`. */
  type Digest = string

  /** What a reducer returns: the next state, whether the action was applied, and why. */
  datatype ReducerResult<S> = ReducerResult(newState: S, applied: bool, rationale: string)

  /** `ReducerResult.accepted(_:rationale:)`. */
  function Accepted<S>(newState: S, rationale: string): ReducerResult<S> {
    ReducerResult(newState, true, rationale)
  }

  /** `ReducerResult.rejected(_:rationale:)`: the state handed back is the input state. */
  function Rejected<S>(state: S, rationale: string): ReducerResult<S> {
    ReducerResult(state, false, rationale)
  }

  /** The law every reducer keeps: a rejection hands back the state it was given. */
  ghost predicate KeepsStateOnRejection<S(!new), A(!new)>(reduce: (S, A) -> ReducerResult<S>) {
    forall s, a :: !reduce(s, a).applied ==> reduce(s, a).newState == s
  }
}
