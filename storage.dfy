/** Shared value types for the app's persisted state. */
module Storage {

  /** A value that may be missing (JavaScript `null`). */
  datatype Option<T> = None | Some(value: T)

  /**
   * The lasting state of one AsyncStorage key. `Unreadable` is a key whose
   * every read fails: the stored text makes `JSON.parse` throw, or
   * `AsyncStorage.getItem` keeps rejecting. Every reader in the app catches
   * the failure and falls back to a default. A one-off rejection of a single
   * read over a key that still holds data is a per-call fault, given where a
   * later write depends on that read.
   */
  datatype Slot<T> = Absent | Unreadable | Holds(value: T)
}
