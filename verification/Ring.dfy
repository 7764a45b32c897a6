/** The ring of chunks as a value: appending rows, advancing, and what every operation keeps. */
module Ring {
  import opened Bytes
  import opened Chunks
  import opened Schema
  import opened RowCodec
  import opened Dedup

  const MIN_CHUNK: nat := CHUNK_HEADER + 8
  const MAX_DEDUP_COLS: nat := 64

  datatype Head = Head(state: Phase, gen: nat, used: nat, rows: nat, minTs: int, maxTs: int)

  /** The parts of the header that never change after `init_buf`; `tsCol` is an index plus one, or 0. */
  datatype Cfg = Cfg(types: seq<DType>, chunkSize: nat, numChunks: nat, dataOffset: nat, tsCol: nat, hash: Hash)

  datatype Tab = Tab(cfg: Cfg, bytes: seq<Byte>, heads: seq<Head>, wc: nat,
                     recycled: nat, overwritten: nat, blocked: nat, dedup: bool, memo: Option<Memo>)

  datatype AdvanceOutcome = Advanced | AdvancePinned
  datatype WriteOutcome = Written | SchemaMismatch | RowTooLarge | ReadersPinned

  function StartOf(cfg: Cfg, i: nat): nat
  {
    cfg.dataOffset + i * cfg.chunkSize
  }

  /** End of the committed rows of chunk i, as a buffer offset. */
  function EndOf(t: Tab, i: nat): nat
    requires i < |t.heads|
  {
    StartOf(t.cfg, i) + CHUNK_HEADER + t.heads[i].used
  }

  predicate Sized(t: Tab)
  {
    && t.cfg.numChunks > 0 && |t.heads| == t.cfg.numChunks && t.wc < t.cfg.numChunks
    && MIN_CHUNK <= t.cfg.chunkSize < TWO_32
    && StartOf(t.cfg, t.cfg.numChunks) <= |t.bytes|
    && forall i :: 0 <= i < |t.heads| ==> CHUNK_HEADER + t.heads[i].used <= t.cfg.chunkSize
  }

  /** Chunks lie one after the other inside the buffer. */
  lemma ChunksApart(cfg: Cfg, i: nat, j: nat)
    requires i < j
    ensures StartOf(cfg, i) + cfg.chunkSize <= StartOf(cfg, j)
  {
    ProductGrows(i, j, cfg.chunkSize);
  }

  lemma ChunkInside(t: Tab, i: nat)
    requires Sized(t) && i < |t.heads|
    ensures StartOf(t.cfg, i) + t.cfg.chunkSize <= |t.bytes|
    ensures EndOf(t, i) <= StartOf(t.cfg, i) + t.cfg.chunkSize
  {
    ChunksApart(t.cfg, i, t.cfg.numChunks);
  }

  // ----- timestamps

  function RowTs(tsCol: nat, row: Row): Option<I64>
  {
    if tsCol == 0 || tsCol - 1 >= |row| || !row[tsCol - 1].I64V? then None else Some(row[tsCol - 1].i64)
  }

  /** The timestamp of a row is the I64 cell of the recorded column, which counts from 1. */
  lemma RowTsExactly(tsCol: nat, row: Row, x: I64)
    ensures RowTs(tsCol, row) == Some(x) <==> 0 < tsCol <= |row| && row[tsCol - 1] == I64V(x)
  {
  }

  function Noted(h: Head, ts: Option<I64>): Head
  {
    match ts
    case None => h
    case Some(x) =>
      h.(minTs := if x < h.minTs then x else h.minTs, maxTs := if x > h.maxTs then x else h.maxTs)
  }

  // ----- appending

  function Fits(t: Tab, body: nat): bool
    requires Sized(t)
  {
    CHUNK_HEADER + t.heads[t.wc].used + 4 + body <= t.cfg.chunkSize
  }

  function Record(cells: seq<Stored>): seq<Byte>
  {
    Le4(|RowBytes(cells)| % TWO_32) + RowBytes(cells)
  }

  /** The head after one more row of `body` bytes. */
  function Grown(h: Head, body: nat, ts: Option<I64>): Head
  {
    Noted(h, ts).(used := h.used + 4 + body, rows := h.rows + 1)
  }

  /** The table after the stored cells of a row are written and published in the current chunk. */
  function Commit(t: Tab, cells: seq<Stored>, row: Row): Tab
    requires Sized(t) && Fits(t, |RowBytes(cells)|)
  {
    ChunkInside(t, t.wc);
    t.(bytes := Splice(t.bytes, EndOf(t, t.wc), Record(cells)),
       heads := t.heads[t.wc := Grown(t.heads[t.wc], |RowBytes(cells)|, RowTs(t.cfg.tsCol, row))])
  }

  /** The cells a row is stored as: inline without dedup, by lookup with it. */
  function CellsOf(t: Tab, row: Row): (cells: seq<Stored>)
    ensures |cells| == |row| && forall k :: 0 <= k < |row| ==> cells[k].v == row[k]
  {
    match t.memo
    case None => AllInline(row)
    case Some(m) => CellsFor(t.cfg.hash, m, row, t.bytes, StartOf(t.cfg, t.wc))
  }

  /** The memory after a row is committed. */
  function MemoAfter(t: Tab, cells: seq<Stored>): Option<Memo>
    requires Sized(t)
  {
    match t.memo
    case None => None
    case Some(m) =>
      var first := CHUNK_HEADER + t.heads[t.wc].used + 4;
      Some(m.(seen := Remember(m.seen, Entries(t.cfg.hash, m.minLen, cells, 0, first))))
  }

  /** One row appended to the current chunk, where it fits. */
  function Append(t: Tab, row: Row): Tab
    requires Sized(t) && Fits(t, |RowBytes(CellsOf(t, row))|)
  {
    Commit(t, CellsOf(t, row), row).(memo := MemoAfter(t, CellsOf(t, row)))
  }

  predicate Appendable(t: Tab, row: Row)
    requires Sized(t)
  {
    Fits(t, |RowBytes(CellsOf(t, row))|)
  }

  /** `append_row` after the schema check: false leaves the table alone. */
  function TryAppend(t: Tab, row: Row): (Tab, bool)
    requires Sized(t)
  {
    if (t.memo.Some? ==> |row| <= MAX_DEDUP_COLS) && Appendable(t, row) then (Append(t, row), true) else (t, false)
  }

  // ----- advancing

  function NextChunk(t: Tab): nat
    requires Sized(t)
  {
    (t.wc + 1) % t.cfg.numChunks
  }

  function Recycled(h: Head): Head
  {
    Head(Writing, h.gen + 1, 0, 0, TS_MIN_INIT, TS_MAX_INIT)
  }

  /** `advance_chunk_raw_detailed`; `pinned` is the answer of the lease scan. */
  function Advance(t: Tab, pinned: bool): (Tab, AdvanceOutcome)
    requires Sized(t)
  {
    if pinned then (t.(blocked := t.blocked + 1), AdvancePinned)
    else
      var next := NextChunk(t);
      var lost := t.heads[next].rows;
      var heads := t.heads[t.wc := t.heads[t.wc].(state := Sealed)];
      (t.(heads := heads[next := Recycled(t.heads[next])],
          wc := next,
          recycled := if lost > 0 then (t.recycled + 1) % TWO_32 else t.recycled,
          overwritten := if lost > 0 then (t.overwritten + lost) % TWO_32 else t.overwritten,
          memo := if t.memo.Some? then Some(Memo(map[], [], t.memo.value.minLen)) else None),
       Advanced)
  }

  /** `try_push_row`: append, and on a full chunk advance once and try again. */
  function TryPush(t: Tab, row: Row, pinned: bool): (Tab, WriteOutcome)
    requires Sized(t)
  {
    if !Matches(row, t.cfg.types) then (t, SchemaMismatch)
    else if TryAppend(t, row).1 then (TryAppend(t, row).0, Written)
    else if pinned then (Advance(t, true).0, ReadersPinned)
    else
      AdvanceSized(t, false);
      var next := Advance(t, false).0;
      if TryAppend(next, row).1 then (TryAppend(next, row).0, Written) else (next, RowTooLarge)
  }

  lemma AdvanceSized(t: Tab, pinned: bool)
    requires Sized(t)
    ensures Sized(Advance(t, pinned).0)
  {
  }
}
