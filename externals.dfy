/**
 * The values the gateway exchanges with the libraries it wraps: the key produced by the
 * address resolver, the session produced by the archive library, and the errors either may
 * reject with. Their internals are not part of this model.
 */
module Externals {
  import opened Wrappers

  /** A canonical archive key as the resolver produces it (its textual form). */
  type Key = string

  /**
   * A live archive session. `handle` stands for the identity of the library object, so two
   * sessions opened for the same key are still different sessions. Which key a session was
   * opened for is recorded by the cache entry that holds it, not by the session.
   */
  datatype Session = Session(handle: nat)

  /**
   * A rejection value: its `message` property (absent when the rejected value has none) and
   * its JSON serialization, which is kept as an opaque string.
   */
  datatype Error = Error(message: Option<string>, json: string)
}
