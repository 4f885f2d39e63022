/**
 * The kinds of error that a provider reports, and the one rule by which a caller decides whether
 * to try again.
 */
module ProviderErrors {

  /** `Unclassified` is any thrown value that is not a provider error. */
  datatype ErrorKind = Auth | Transport | Precondition | NotFound | Unsupported | Unclassified

  predicate Retriable(kind: ErrorKind) {
    kind == Transport
  }
}
