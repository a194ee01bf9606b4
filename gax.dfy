/** The Gax support library types the Spanner settings work with, reduced to what the
    settings need: `Expiration` (with `GaxPreconditions`, from `Google.Api.Gax`) and
    `CallSettings` (from `Google.Api.Gax.Grpc`).  Their internals are opaque here; the
    seconds they carry stand for the base class library's `TimeSpan`.
 */
module Gax {

  /** When an RPC attempt expires: never, or after a number of seconds from its start.
      The number of seconds is not range-checked, so it may be zero or negative. */
  datatype Expiration = None | Timeout(seconds: int)

  /** Whether an attempt that has been running for `elapsedSeconds` is past its expiration.
      `None` never expires; `Timeout(s)` expires once `s` seconds have passed, so a timeout of
      zero (or less) has expired from the start — an immediate timeout. */
  predicate HasExpired(e: Expiration, elapsedSeconds: nat)
  {
    match e
    case None => false
    case Timeout(s) => s <= elapsedSeconds
  }

  /** Per-call settings; the only part kept is the call timeout, in seconds. */
  datatype CallSettings = CallSettings(timeoutSeconds: int)
}
