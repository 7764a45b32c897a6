/** What the lease protocol and the table both know about a chunk. */
module Chunks {
  import opened Bytes

  /** Size of the header at the start of every chunk. */
  const CHUNK_HEADER: nat := 40

  /** Timestamp bounds of a chunk without rows: the extremes of i64, the wrong way round. */
  const TS_MIN_INIT: int := TWO_63 - 1
  const TS_MAX_INIT: int := -TWO_63

  datatype Phase = Empty | Writing | Sealed

  /** Places of equal size lie one after the other. */
  lemma {:induction false} ProductGrows(a: nat, b: nat, size: nat)
    requires a < b
    ensures a * size + size <= b * size
    decreases b
  {
    assert b * size == (b - 1) * size + size;
    if a < b - 1 {
      ProductGrows(a, b - 1, size);
    }
  }
}
