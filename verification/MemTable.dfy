/** The table and its streaming writer as objects over one byte buffer, each method proved against the ring. */
module MemTables {
  import opened Bytes
  import opened Chunks
  import opened Schema
  import opened RowCodec
  import opened Dedup
  import opened Ring
  import opened RingRuns
  import opened RingOutcomes
  import opened Stream

  class MemTable {
    const cfg: Cfg
    const buf: array<Byte>
    var heads: seq<Head>
    var writeChunk: nat
    var recycled: nat
    var overwritten: nat
    var blocked: nat
    var dedupFlag: bool
    var dedup: DedupState?

    ghost function Model(): Tab
      reads this, buf, dedup
    {
      Tab(cfg, buf[..], heads, writeChunk, recycled, overwritten, blocked, dedupFlag,
          if dedup == null then None else Some(dedup.Model()))
    }

    ghost predicate Valid()
      reads this, buf, dedup
    {
      && Ring.Sized(Model())
      && (dedup != null ==> dedup.hash == cfg.hash)
    }

    /** Chunk headers of `init_buf`: all chunks empty, then chunk 0 made the write target. */
    constructor (cfg: Cfg, buf: array<Byte>)
      requires cfg.numChunks > 0 && MIN_CHUNK <= cfg.chunkSize < TWO_32 && StartOf(cfg, cfg.numChunks) <= buf.Length
      ensures this.cfg == cfg && this.buf == buf && dedup == null
      ensures Valid() && Initial(Model()) && Model().bytes == buf[..]
    {
      this.cfg := cfg;
      this.buf := buf;
      var hs := seq(cfg.numChunks, i => Head(Empty, 0, 0, 0, TS_MIN_INIT, TS_MAX_INIT));
      heads := hs[0 := hs[0].(gen := 1, state := Writing)];
      writeChunk := 0;
      recycled, overwritten, blocked := 0, 0, 0;
      dedupFlag := false;
      dedup := null;
    }

    method EnableDedup()
      requires Valid()
      modifies this
      ensures Valid() && fresh(dedup) && Model() == Do(old(Model()), AttachDedup)
    {
      dedupFlag := true;
      dedup := new DedupState(cfg.hash);
    }

    /** The cells of a row, one after the other from an offset on. */
    method WriteCells(row: Row, at: nat)
      requires at + |RowBytes(AllInline(row))| <= buf.Length
      modifies buf
      ensures buf[..] == Splice(old(buf[..]), at, RowBytes(AllInline(row)))
    {
      hide RowBytes, Encode, EncodedSize;
      ghost var was := buf[..];
      var off, k := at, 0;
      assert AllInline(row[..0]) == [];
      NoCellsNoBytes();
      EmptySplice(was, at);
      while k < |row|
        invariant 0 <= k <= |row| && at + |RowBytes(AllInline(row))| <= buf.Length == |was|
        invariant off == at + |RowBytes(AllInline(row[..k]))| && off <= buf.Length
        invariant buf[..] == Splice(was, at, RowBytes(AllInline(row[..k])))
      {
        NextInline(row, k);
        var n := EncodeInto(row[k], buf, off);
        SpliceTwice(was, at, RowBytes(AllInline(row[..k])), Encode(row[k]));
        off := off + n;
        k := k + 1;
      }
      assert row[..k] == row;
    }

    /** `write_row_bytes`: length, cells one after the other, then the header of the chunk. */
    method WriteRowBytes(row: Row, rowData: nat) returns (ok: bool)
      requires Valid() && rowData == RowDataSize(row)
      modifies this, buf
      ensures Valid() && dedup == old(dedup)
      ensures ok == Fits(old(Model()), rowData)
      ensures ok ==> |RowBytes(AllInline(row))| == rowData && Model() == Commit(old(Model()), AllInline(row), row)
      ensures !ok ==> Model() == old(Model())
    {
      hide RowBytes, Le4, Splice, RowDataSize, Commit, Noted, RowTs;
      ghost var t := Model();
      ChunkInside(t, writeChunk);
      InlineSize(row);
      var cs := cfg.dataOffset + writeChunk * cfg.chunkSize;
      var used := heads[writeChunk].used;
      if CHUNK_HEADER + used + 4 + rowData > cfg.chunkSize {
        return false;
      }
      PlainParts(t, row);
      var rowStart := cs + CHUNK_HEADER + used;
      CopyInto(buf, rowStart, Le4(rowData % TWO_32));
      WriteCells(row, rowStart + 4);
      SpliceTwice(t.bytes, rowStart, Le4(rowData % TWO_32), RowBytes(AllInline(row)));
      NoteAndPublish(RowTs(cfg.tsCol, row), used + 4 + rowData);
      ok := true;
    }

    /** Where one cell of the first pass already lies in the chunk, and the bytes it will take. */
    method LookUpCell(v: Value, col: nat, cs: nat) returns (dup: Option<nat>, n: nat)
      requires dedup != null
      ensures var c := CellFor(dedup.hash, dedup.Model(), col, v, buf[..], cs); dup == RefOf(c) && n == |CellBytes(c)|
    {
      hide Lookup, Encode, RefBytes;
      dup := None;
      if IsVar(TypeOf(v)) {
        dup := dedup.Find(col, Payload(v), buf, cs);
      }
      n := if dup.Some? then 4 else EncodedSize(v);
    }

    /** First pass over the cells of a row: what is already in the chunk, and the bytes the row will take. */
    method LookUpCells(row: Row, cs: nat) returns (lookups: seq<Option<nat>>, rowData: nat)
      requires Valid() && dedup != null && cs == StartOf(cfg, writeChunk)
      ensures |lookups| == |row| && rowData == |RowBytes(CellsOf(Model(), row))|
      ensures forall j :: 0 <= j < |row| ==> lookups[j] == RefOf(CellsOf(Model(), row)[j])
    {
      hide RowBytes, StartOf, CellsOf, CellBytes, CellFor;
      ghost var t := Model();
      ghost var cells := CellsOf(t, row);
      lookups, rowData := [], 0;
      var k := 0;
      NoCellsNoBytes();
      while k < |row|
        invariant 0 <= k <= |row| == |cells| && |lookups| == k
        invariant rowData == |RowBytes(cells[..k])|
        invariant forall j :: 0 <= j < k ==> lookups[j] == RefOf(cells[j])
      {
        CellOfMemo(t, row, k);
        NextCellBytes(cells, k);
        var dup, n := LookUpCell(row[k], k, cs);
        lookups := lookups + [dup];
        rowData := rowData + n;
        k := k + 1;
      }
      assert cells[..k] == cells;
    }

    /** One cell of the second pass. */
    method WriteDedupCell(v: Value, col: nat, dup: Option<nat>, cs: nat, off: nat, ghost c: Stored) returns (n: nat)
      requires dedup != null && cs <= off && off + |CellBytes(c)| <= buf.Length
      requires c.v == v && dup == RefOf(c) && (c.Ref? ==> IsVar(TypeOf(v)))
      modifies buf, dedup
      ensures n == |CellBytes(c)| && buf[..] == Splice(old(buf[..]), off, CellBytes(c))
      ensures var entry := CellEntry(dedup.hash, old(dedup.minLen), col, c, off - cs);
              dedup.Model() == old(dedup.Model()).(seen := Remember(old(dedup.seen), entry))
    {
      hide Encode, EncodedSize, RefBytes, Splice;
      if IsVar(TypeOf(v)) && dup.Some? {
        CopyInto(buf, off, RefBytes(dup.value));
        n := 4;
      } else {
        n := EncodeInto(v, buf, off);
        if IsVar(TypeOf(v)) {
          dedup.Insert(col, Payload(v), off - cs);
        }
      }
    }

    /** Second pass: write references and inline values, remembering where each inline value went. */
    method WriteDedupCells(row: Row, lookups: seq<Option<nat>>, cs: nat, at: nat, ghost cells: seq<Stored>)
      requires dedup != null && |lookups| == |row| == |cells| && cs <= at && at + |RowBytes(cells)| <= buf.Length
      requires forall j :: 0 <= j < |row| ==> cells[j].v == row[j] && lookups[j] == RefOf(cells[j])
      requires forall j :: 0 <= j < |row| ==> (cells[j].Ref? ==> IsVar(TypeOf(row[j])))
      modifies buf, dedup
      ensures buf[..] == Splice(old(buf[..]), at, RowBytes(cells))
      ensures var entries := Entries(dedup.hash, old(dedup.minLen), cells, 0, at - cs);
              dedup.Model() == old(dedup.Model()).(seen := Remember(old(dedup.seen), entries))
    {
      hide RowBytes, CellBytes, CellEntry, Entries, Remember, Splice;
      ghost var was, seen, minLen := buf[..], dedup.seen, dedup.minLen;
      var off, k := at, 0;
      NoCellsNoBytes();
      NoEntries(dedup.hash, minLen, seen, at - cs);
      EmptySplice(was, at);
      while k < |row|
        invariant 0 <= k <= |row| && at + |RowBytes(cells)| <= buf.Length == |was|
        invariant off == at + |RowBytes(cells[..k])| && off <= buf.Length
        invariant buf[..] == Splice(was, at, RowBytes(cells[..k]))
        invariant dedup.minLen == minLen && dedup.pending == old(dedup.pending)
        invariant dedup.seen == Remember(seen, Entries(dedup.hash, minLen, cells[..k], 0, at - cs))
      {
        NextCellBytes(cells, k);
        NextEntry(dedup.hash, minLen, seen, cells, k, at - cs);
        SpliceTwice(was, at, RowBytes(cells[..k]), CellBytes(cells[k]));
        var n := WriteDedupCell(row[k], k, lookups[k], cs, off, cells[k]);
        off := off + n;
        k := k + 1;
      }
      assert cells[..k] == cells;
    }

    /** The writing half of `append_row_dedup_bytes`, for a row that has room. */
    method WriteDedupRow(row: Row, lookups: seq<Option<nat>>, cs: nat, used: nat, rowData: nat)
      requires Valid() && dedup != null && Appendable(Model(), row)
      requires cs == StartOf(cfg, writeChunk) && used == heads[writeChunk].used
      requires rowData == |RowBytes(CellsOf(Model(), row))|
      requires |lookups| == |row| && forall j :: 0 <= j < |row| ==> lookups[j] == RefOf(CellsOf(Model(), row)[j])
      modifies this, buf, dedup
      ensures Valid() && dedup == old(dedup) && Model() == Append(old(Model()), row)
    {
      hide RowBytes, Le4, Splice, CellsOf, Entries, Remember, RowTs, Noted, RefOf, StartOf, Append;
      ghost var t := Model();
      ghost var cells := CellsOf(t, row);
      ChunkInside(t, writeChunk);
      AppendParts(t, row);
      var rowStart := cs + CHUNK_HEADER + used;
      CopyInto(buf, rowStart, Le4(rowData % TWO_32));
      RefsAreVar(t, row);
      WriteDedupCells(row, lookups, cs, rowStart + 4, cells);
      SpliceTwice(t.bytes, rowStart, Le4(rowData % TWO_32), RowBytes(cells));
      NoteAndPublish(RowTs(cfg.tsCol, row), used + 4 + rowData);
    }

    /** `append_row_dedup_bytes`. */
    method AppendDedupBytes(row: Row) returns (ok: bool)
      requires Valid() && dedup != null
      modifies this, buf, dedup
      ensures Valid() && dedup == old(dedup)
      ensures ok == Accepts(old(Model()), row)
      ensures Model() == if ok then Append(old(Model()), row) else old(Model())
    {
      hide RowBytes, CellsOf, RefOf, Append;
      if |row| > MAX_DEDUP_COLS {
        return false;
      }
      var cs := cfg.dataOffset + writeChunk * cfg.chunkSize;
      var used := heads[writeChunk].used;
      var lookups, rowData := LookUpCells(row, cs);
      if CHUNK_HEADER + used + 4 + rowData > cfg.chunkSize {
        return false;
      }
      WriteDedupRow(row, lookups, cs, used, rowData);
      ok := true;
    }

    method ValidateRowSchema(row: Row) returns (ok: bool)
      ensures ok == Matches(row, cfg.types)
      ensures ok <==> |row| == |cfg.types| && forall j :: 0 <= j < |row| ==> TypeOf(row[j]) == cfg.types[j]
    {
      if |row| != |cfg.types| {
        return false;
      }
      var k := 0;
      while k < |row|
        invariant 0 <= k <= |row| && forall j :: 0 <= j < k ==> TypeOf(row[j]) == cfg.types[j]
      {
        if TypeOf(row[k]) != cfg.types[k] {
          return false;
        }
        k := k + 1;
      }
      ok := true;
    }

    method AppendUnchecked(row: Row) returns (ok: bool)
      requires Valid()
      modifies this, buf, dedup
      ensures Valid() && dedup == old(dedup)
      ensures (Model(), ok) == TryAppend(old(Model()), row)
    {
      hide Append, RowBytes, Commit;
      if dedup != null {
        ok := AppendDedupBytes(row);
      } else {
        InlineSize(row);
        ghost var t := Model();
        PlainAppend(t, row);
        ok := WriteRowBytes(row, RowDataSize(row));
      }
    }

    method AppendRow(row: Row) returns (ok: bool)
      requires Valid()
      modifies this, buf, dedup
      ensures Valid() && dedup == old(dedup)
      ensures (Model(), ok) == AppendChecked(old(Model()), row)
    {
      hide TryAppend;
      var matching := ValidateRowSchema(row);
      if !matching {
        return false;
      }
      ok := AppendUnchecked(row);
    }

    /** The recycling half of `advance_chunk_raw_detailed`; the target is already marked empty. */
    method Recycle(next: nat)
      requires |heads| == cfg.numChunks && writeChunk < |heads| && next == (writeChunk + 1) % cfg.numChunks
      modifies this`heads, this`recycled, this`overwritten, this`writeChunk
      ensures writeChunk == next && next < |heads|
      ensures var cur := old(writeChunk);
              heads == old(heads)[cur := old(heads)[cur].(state := Sealed)][next := Recycled(old(heads)[next])]
      ensures recycled == if old(heads)[next].rows > 0 then (old(recycled) + 1) % TWO_32 else old(recycled)
      ensures var lost := old(heads)[next].rows;
              overwritten == if lost > 0 then (old(overwritten) + lost) % TWO_32 else old(overwritten)
    {
      if next != writeChunk {
        heads := heads[writeChunk := heads[writeChunk].(state := Sealed)];
      }
      var target := heads[next];
      if target.rows > 0 {
        recycled := (recycled + 1) % TWO_32;
        overwritten := (overwritten + target.rows) % TWO_32;
      }
      target := target.(gen := target.gen + 1, used := 0, rows := 0);
      target := target.(minTs := TS_MIN_INIT, maxTs := TS_MAX_INIT);
      target := target.(state := Writing);
      heads := heads[next := target];
      writeChunk := next;
    }

    /** `advance_chunk_raw_detailed`; `pinned` is the answer of the lease scan. */
    method AdvanceRaw(pinned: bool) returns (r: AdvanceOutcome)
      requires Valid()
      modifies this
      ensures Valid() && dedup == old(dedup)
      ensures var (t', outcome) := Ring.Advance(old(Model()), pinned);
              Model() == t'.(memo := old(Model()).memo) && r == outcome
    {
      hide StartOf, Recycled;
      ghost var t := Model();
      var next := (writeChunk + 1) % cfg.numChunks;
      var prev := heads[next].state;
      heads := heads[next := heads[next].(state := Empty)];
      if pinned {
        heads := heads[next := heads[next].(state := prev)];
        assert heads == t.heads;
        blocked := blocked + 1;
        return AdvancePinned;
      }
      Recycle(next);
      MarkedEmpty(t.heads, t.wc, next);
      AdvanceSized(t, false);
      r := Advanced;
    }

    method AdvanceChunk(pinned: bool) returns (r: AdvanceOutcome)
      requires Valid()
      modifies this, dedup
      ensures Valid() && dedup == old(dedup)
      ensures (Model(), r) == Ring.Advance(old(Model()), pinned)
    {
      ghost var t := Model();
      r := AdvanceRaw(pinned);
      if r == Advanced && dedup != null {
        dedup.Clear();
      }
    }

    /** `try_push_row`. */
    method TryPushRow(row: Row, pinned: bool) returns (r: WriteOutcome)
      requires Valid()
      modifies this, buf, dedup
      ensures Valid() && dedup == old(dedup)
      ensures (Model(), r) == TryPush(old(Model()), row, pinned)
    {
      hide TryAppend, Ring.Advance;
      ghost var t := Model();
      var matching := ValidateRowSchema(row);
      if !matching {
        return SchemaMismatch;
      }
      var ok := AppendUnchecked(row);
      if ok {
        return Ring.Written;
      }
      RefusedAppend(t, row);
      var moved := AdvanceChunk(pinned);
      AdvanceAnswer(t, pinned);
      if moved == AdvancePinned {
        return ReadersPinned;
      }
      AdvanceSized(t, false);
      ok := AppendUnchecked(row);
      if ok {
        return Ring.Written;
      }
      RefusedAppend(Ring.Advance(t, false).0, row);
      return RowTooLarge;
    }

    /** Fold in the timestamp, then publish the extent and count the row. */
    method NoteAndPublish(ts: Option<I64>, used: nat)
      requires writeChunk < |heads|
      modifies this`heads
      ensures var h := old(heads)[writeChunk];
              heads == old(heads)[writeChunk := Noted(h, ts).(used := used, rows := h.rows + 1)]
    {
      if ts.Some? {
        if ts.value < heads[writeChunk].minTs {
          heads := heads[writeChunk := heads[writeChunk].(minTs := ts.value)];
        }
        if ts.value > heads[writeChunk].maxTs {
          heads := heads[writeChunk := heads[writeChunk].(maxTs := ts.value)];
        }
      }
      heads := heads[writeChunk := heads[writeChunk].(used := used)];
      heads := heads[writeChunk := heads[writeChunk].(rows := heads[writeChunk].rows + 1)];
    }
  }

  lemma NoCellsNoBytes()
    ensures RowBytes([]) == []
  {
  }

  /** The offset a stored cell refers to. */
  function RefOf(c: Stored): Option<nat>
  {
    if c.Ref? then Some(c.off) else None
  }

  lemma NextCellBytes(cells: seq<Stored>, k: nat)
    requires k < |cells|
    ensures RowBytes(cells[..k + 1]) == RowBytes(cells[..k]) + CellBytes(cells[k])
    ensures |RowBytes(cells[..k + 1])| <= |RowBytes(cells)|
  {
    hide CellBytes, RowBytes;
    assert cells[..k + 1] == cells[..k] + [cells[k]];
    RowBytesSnoc(cells[..k], cells[k]);
    PrefixShorter(cells, k + 1);
  }

  lemma CellOfMemo(t: Tab, row: Row, k: nat)
    requires t.memo.Some? && k < |row|
    ensures CellsOf(t, row)[k] == CellFor(t.cfg.hash, t.memo.value, k, row[k], t.bytes, StartOf(t.cfg, t.wc))
  {
    hide CellFor, StartOf;
  }

  lemma NoEntries(h: Hash, minLen: nat, seen: map<nat, nat>, off: nat)
    ensures Remember(seen, Entries(h, minLen, [], 0, off)) == seen
  {
  }

  lemma NextEntry(h: Hash, minLen: nat, seen: map<nat, nat>, cells: seq<Stored>, k: nat, off: nat)
    requires k < |cells|
    ensures Remember(seen, Entries(h, minLen, cells[..k + 1], 0, off))
            == Remember(Remember(seen, Entries(h, minLen, cells[..k], 0, off)),
                        CellEntry(h, minLen, k, cells[k], off + |RowBytes(cells[..k])|))
  {
    hide Entries, RowBytes, Remember, CellEntry;
    assert cells[..k + 1] == cells[..k] + [cells[k]];
    EntriesSnoc(h, minLen, cells[..k], cells[k], 0, off);
    RememberAppend(seen, Entries(h, minLen, cells[..k], 0, off),
                   CellEntry(h, minLen, k, cells[k], off + |RowBytes(cells[..k])|));
  }

  lemma PlainParts(t: Tab, row: Row)
    requires Ring.Sized(t) && Fits(t, |RowBytes(AllInline(row))|)
    ensures var body, h := RowBytes(AllInline(row)), t.heads[t.wc];
            var h' := Noted(h, RowTs(t.cfg.tsCol, row)).(used := h.used + 4 + |body|, rows := h.rows + 1);
            && EndOf(t, t.wc) + 4 + |body| <= |t.bytes| && Ring.Sized(Commit(t, AllInline(row), row))
            && Commit(t, AllInline(row), row) == t.(
                 bytes := Splice(t.bytes, EndOf(t, t.wc), Le4(|body| % TWO_32) + body),
                 heads := t.heads[t.wc := h'])
  {
    hide RowBytes, Le4, Splice, RowTs, StartOf;
    ChunkInside(t, t.wc);
  }

  lemma AppendParts(t: Tab, row: Row)
    requires Ring.Sized(t) && Appendable(t, row) && t.memo.Some?
    ensures var body := RowBytes(CellsOf(t, row));
            var h, m := t.heads[t.wc], t.memo.value;
            var h' := Noted(h, RowTs(t.cfg.tsCol, row)).(used := h.used + 4 + |body|, rows := h.rows + 1);
            var entries := Entries(t.cfg.hash, m.minLen, CellsOf(t, row), 0, CHUNK_HEADER + h.used + 4);
            && EndOf(t, t.wc) + 4 + |body| <= |t.bytes| && Ring.Sized(Append(t, row))
            && Append(t, row) == t.(
                 bytes := Splice(t.bytes, EndOf(t, t.wc), Le4(|body| % TWO_32) + body),
                 heads := t.heads[t.wc := h'],
                 memo := Some(m.(seen := Remember(m.seen, entries))))
  {
    hide RowBytes, Le4, Splice, CellsOf, Entries, Remember, RowTs, StartOf;
    ChunkInside(t, t.wc);
  }

  lemma RefsAreVar(t: Tab, row: Row)
    ensures forall j :: 0 <= j < |row| ==> (CellsOf(t, row)[j].Ref? ==> IsVar(TypeOf(row[j])))
  {
  }

  lemma PlainAppend(t: Tab, row: Row)
    requires Ring.Sized(t) && t.memo.None?
    ensures CellsOf(t, row) == AllInline(row)
    ensures Appendable(t, row) ==> Append(t, row) == Commit(t, AllInline(row), row)
  {
    hide RowBytes;
  }

  lemma RefusedAppend(t: Tab, row: Row)
    requires Ring.Sized(t) && !TryAppend(t, row).1
    ensures TryAppend(t, row).0 == t
  {
    hide Append, RowBytes;
  }

  /** Marking the target empty first makes no difference to the recycled ring. */
  lemma MarkedEmpty(heads: seq<Head>, wc: nat, next: nat)
    requires wc < |heads| && next < |heads|
    ensures var marked := heads[next := heads[next].(state := Empty)];
            marked[wc := marked[wc].(state := Sealed)][next := Recycled(marked[next])]
            == heads[wc := heads[wc].(state := Sealed)][next := Recycled(heads[next])]
  {
  }

  lemma AdvanceAnswer(t: Tab, pinned: bool)
    requires Ring.Sized(t)
    ensures Ring.Advance(t, pinned).1 == if pinned then AdvancePinned else Advanced
  {
  }

  /** One more cell written inline. */
  lemma NextInline(row: Row, k: nat)
    requires k < |row|
    ensures RowBytes(AllInline(row[..k + 1])) == RowBytes(AllInline(row[..k])) + Encode(row[k])
    ensures |RowBytes(AllInline(row[..k]))| + EncodedSize(row[k]) <= |RowBytes(AllInline(row))|
  {
    hide Encode, EncodedSize, RowBytes;
    assert AllInline(row[..k + 1]) == AllInline(row[..k]) + [Inline(row[k])];
    RowBytesSnoc(AllInline(row[..k]), Inline(row[k]));
    PrefixShorter(AllInline(row), k + 1);
    assert AllInline(row)[..k + 1] == AllInline(row[..k + 1]);
  }

  lemma {:induction false} PrefixShorter(cells: seq<Stored>, k: nat)
    requires k <= |cells|
    ensures |RowBytes(cells[..k])| <= |RowBytes(cells)|
    decreases k
  {
    hide CellBytes;
    if k > 0 {
      PrefixShorter(cells[1..], k - 1);
      assert cells[..k][1..] == cells[1..][..k - 1];
    }
  }
}
