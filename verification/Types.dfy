/** Shared value types: 64-bit UUIDs and the conventional option type. */
module Types {
  /** The largest UUID; the index reserves it as the right fence of every level. */
  const INF: int := 0xFFFF_FFFF_FFFF_FFFF

  /** A UUID is an unsigned 64-bit number. */
  type Uuid = u: int | 0 <= u <= INF

  /** The null UUID. */
  const NIL: Uuid := 0

  /** The size of a page in bytes. */
  const PAGE_SIZE: nat := 8192

  datatype Option<+T> = None | Some(value: T)
}
