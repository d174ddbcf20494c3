/** Vocabulary shared by every module. */
module Base {

  datatype Option<+T> = None | Some(value: T)

  /** One CRDT operation. Applying an update unites its operations with the document's. */
  type Op = nat
  type Update = set<Op>

  /** Attempts of a client for one entry, or one enqueue, before it stops setting timers for it. */
  const SYNC_MAX_RETRIES: nat := 3

  lemma Associate<T>(x: seq<T>, y: seq<T>, z: seq<T>)
    ensures x + (y + z) == (x + y) + z
  {
  }
}
