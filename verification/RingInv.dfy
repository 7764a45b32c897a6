/** What every resting state of a table satisfies, and why appends and advances keep it. */
module RingInv {
  import opened Bytes
  import opened Chunks
  import opened Schema
  import opened RowCodec
  import opened RowCheck
  import opened Ring

  /** Ghost history: the rows held by each chunk, the rows overwritten, and all rows ever written, in order. */
  datatype Log = Log(rows: seq<seq<Row>>, lost: seq<Row>, all: seq<Row>)

  /** Length prefixes and references are read as signed 32-bit numbers. */
  predicate Small(cfg: Cfg)
  {
    cfg.chunkSize <= TWO_31
  }

  /** A row of chunk i, seen through the committed bytes of the chunk only. */
  function RowEnv(t: Tab, i: nat, span: Span): Env
    requires i < |t.heads| && span.from <= span.to <= |t.bytes|
  {
    Env(t.bytes[span.from..span.to], t.bytes, StartOf(t.cfg, i), CHUNK_HEADER + t.heads[i].used)
  }

  function Records(t: Tab, i: nat): (w: Walked)
    requires Ring.Sized(t) && i < |t.heads|
  {
    ChunkInside(t, i);
    Walk(t.bytes, StartOf(t.cfg, i) + CHUNK_HEADER, EndOf(t, i))
  }

  ghost predicate RowOk(t: Tab, i: nat, span: Span, row: Row)
    requires i < |t.heads|
  {
    && span.from <= span.to <= |t.bytes|
    && Matches(row, t.cfg.types)
    && (Small(t.cfg) ==>
          && CursorRow(RowEnv(t, i, span), 0, t.cfg.types) == Some(row)
          && ColsPass(t.bytes[span.from..span.to], 0, t.cfg.types, t.dedup, t.heads[i].used))
  }

  // ----- timestamp ranges

  predicate HasTs(tsCol: nat, rows: seq<Row>)
  {
    exists k :: 0 <= k < |rows| && RowTs(tsCol, rows[k]).Some?
  }

  predicate Attained(x: int, tsCol: nat, rows: seq<Row>)
  {
    exists k :: 0 <= k < |rows| && RowTs(tsCol, rows[k]) == Some(x)
  }

  /** The recorded range is the exact minimum and maximum, or the two sentinels where there is none. */
  predicate RangeExact(h: Head, tsCol: nat, rows: seq<Row>)
  {
    && (forall k :: 0 <= k < |rows| && RowTs(tsCol, rows[k]).Some? ==>
          h.minTs <= RowTs(tsCol, rows[k]).value <= h.maxTs)
    && (if HasTs(tsCol, rows) then Attained(h.minTs, tsCol, rows) && Attained(h.maxTs, tsCol, rows)
        else h.minTs == TS_MIN_INIT && h.maxTs == TS_MAX_INIT)
  }

  lemma RangeGrows(h: Head, tsCol: nat, rows: seq<Row>, row: Row)
    requires RangeExact(h, tsCol, rows)
    ensures RangeExact(Noted(h, RowTs(tsCol, row)), tsCol, rows + [row])
  {
    var more, h' := rows + [row], Noted(h, RowTs(tsCol, row));
    assert forall k :: 0 <= k < |rows| ==> more[k] == rows[k];
    assert more[|rows|] == row;
    if RowTs(tsCol, row).Some? {
      var x := RowTs(tsCol, row).value;
      assert RowTs(tsCol, more[|rows|]) == Some(x);
      if HasTs(tsCol, rows) {
        var a :| 0 <= a < |rows| && RowTs(tsCol, rows[a]) == Some(h.minTs);
        var b :| 0 <= b < |rows| && RowTs(tsCol, rows[b]) == Some(h.maxTs);
        assert RowTs(tsCol, more[a]) == Some(h.minTs) && RowTs(tsCol, more[b]) == Some(h.maxTs);
      }
    } else if HasTs(tsCol, rows) {
      var a :| 0 <= a < |rows| && RowTs(tsCol, rows[a]) == Some(h.minTs);
      var b :| 0 <= b < |rows| && RowTs(tsCol, rows[b]) == Some(h.maxTs);
      assert RowTs(tsCol, more[a]) == Some(h.minTs) && RowTs(tsCol, more[b]) == Some(h.maxTs);
    }
  }

  lemma GrownRange(h: Head, body: nat, tsCol: nat, rows: seq<Row>, row: Row)
    requires RangeExact(h, tsCol, rows)
    ensures RangeExact(Grown(h, body, RowTs(tsCol, row)), tsCol, rows + [row])
  {
    RangeGrows(h, tsCol, rows, row);
  }

  // ----- chunks

  ghost predicate ChunkOk(t: Tab, i: nat, rows: seq<Row>)
    requires Ring.Sized(t) && i < |t.heads|
  {
    var h, w := t.heads[i], Records(t, i);
    && h.rows == |rows| == |w.spans| && w.stop == EndOf(t, i)
    && (h.gen == 0 ==> h.used == 0)
    && (h.state == Empty <==> h.gen == 0)
    && RangeExact(h, t.cfg.tsCol, rows)
    && forall k :: 0 <= k < |rows| ==> RowOk(t, i, w.spans[k], rows[k])
  }

  /** Generations of a ring whose write chunk is `wc`, at generation g. */
  predicate Laps(heads: seq<Head>, wc: nat, g: nat)
  {
    && g > 0 && wc < |heads|
    && (forall i :: 0 <= i < |heads| ==> heads[i].gen == if i <= wc then g else g - 1)
    && (forall i :: 0 <= i < |heads| ==> (heads[i].state == Writing <==> i == wc))
  }

  /** Generations fall by one behind the write chunk, which alone is being written. */
  predicate RingShape(t: Tab)
    requires Ring.Sized(t)
  {
    Laps(t.heads, t.wc, t.heads[t.wc].gen)
  }

  function Flat(rows: seq<seq<Row>>): seq<Row>
  {
    if rows == [] then [] else rows[0] + Flat(rows[1..])
  }

  /** The chunks from oldest to newest hold what is left of the history. */
  ghost predicate LogOk(t: Tab, g: Log)
  {
    && |g.rows| == |t.heads| && t.wc < |g.rows|
    && g.all == g.lost + Flat(g.rows[t.wc + 1..]) + Flat(g.rows[..t.wc + 1])
    && t.overwritten == |g.lost| % TWO_32
  }

  function HereEnv(t: Tab): Env
    requires Ring.Sized(t)
  {
    Env([], t.bytes, StartOf(t.cfg, t.wc), CHUNK_HEADER + t.heads[t.wc].used)
  }

  /** Every remembered offset names an inline value inside the committed bytes of the current chunk. */
  ghost predicate MemoOk(t: Tab)
    requires Ring.Sized(t)
  {
    t.memo.Some? ==>
      && t.dedup && t.memo.value.pending == []
      && forall key :: key in t.memo.value.seen ==> ResolveRef(HereEnv(t), t.memo.value.seen[key]).Some?
  }

  ghost predicate TableOk(t: Tab, g: Log)
  {
    && Ring.Sized(t) && RingShape(t) && LogOk(t, g) && MemoOk(t)
    && forall i :: 0 <= i < |t.heads| ==> ChunkOk(t, i, g.rows[i])
  }

  // ----- a chunk that is not written to

  lemma RowKept(t: Tab, t': Tab, i: nat, span: Span, row: Row)
    requires Ring.Sized(t) && Ring.Sized(t') && i < |t.heads| == |t'.heads| && t'.cfg == t.cfg && (t.dedup ==> t'.dedup)
    requires t.heads[i].used <= t'.heads[i].used
    requires Agree(t.bytes, t'.bytes, StartOf(t.cfg, i), EndOf(t, i))
    requires StartOf(t.cfg, i) <= span.from <= span.to <= EndOf(t, i) && RowOk(t, i, span, row)
    ensures RowOk(t', i, span, row)
  {
    ChunkInside(t, i);
    ChunkInside(t', i);
    AgreeSub(t.bytes, t'.bytes, StartOf(t.cfg, i), EndOf(t, i), span.from, span.to);
    if Small(t.cfg) {
      AgreeSub(t.bytes, t'.bytes, StartOf(t.cfg, i), EndOf(t, i), StartOf(t.cfg, i) + CHUNK_HEADER, EndOf(t, i));
      RowStable(RowEnv(t, i, span), RowEnv(t', i, span), 0, t.cfg.types);
      ColsPassMore(t.bytes[span.from..span.to], 0, t.cfg.types, t.dedup, t.heads[i].used, t'.dedup, t'.heads[i].used);
    }
  }

  lemma RangeFields(h: Head, h': Head, tsCol: nat, rows: seq<Row>)
    requires RangeExact(h, tsCol, rows) && h'.minTs == h.minTs && h'.maxTs == h.maxTs
    ensures RangeExact(h', tsCol, rows)
  {
  }

  lemma ChunkKept(t: Tab, t': Tab, i: nat, rows: seq<Row>)
    requires Ring.Sized(t) && Ring.Sized(t') && i < |t.heads| == |t'.heads| && t'.cfg == t.cfg && (t.dedup ==> t'.dedup)
    requires t'.heads[i].(state := Empty) == t.heads[i].(state := Empty)
    requires t'.heads[i].state == Empty <==> t.heads[i].state == Empty
    requires Agree(t.bytes, t'.bytes, StartOf(t.cfg, i), EndOf(t, i))
    requires ChunkOk(t, i, rows)
    ensures ChunkOk(t', i, rows)
  {
    hide StartOf, Agree, Walk, RowOk, RangeExact;
    var base := StartOf(t.cfg, i) + CHUNK_HEADER;
    ChunkInside(t, i);
    AgreeSub(t.bytes, t'.bytes, StartOf(t.cfg, i), EndOf(t, i), base, EndOf(t, i));
    RangeFields(t.heads[i], t'.heads[i], t.cfg.tsCol, rows);
    WalkFrame(t.bytes, t'.bytes, base, EndOf(t, i));
    forall k | 0 <= k < |rows|
      ensures RowOk(t', i, Records(t', i).spans[k], rows[k])
    {
      RowKept(t, t', i, Records(t, i).spans[k], rows[k]);
    }
  }

  // ----- the chunk that is written to

  lemma SpliceParts(s: seq<Byte>, at: nat, a: seq<Byte>, b: seq<Byte>)
    requires at + |a| + |b| <= |s|
    ensures var r := Splice(s, at, a + b);
            && r[at..at + |a|] == a && r[at + |a|..at + |a| + |b|] == b
            && Agree(s, r, 0, at) && Agree(s, r, at + |a| + |b|, |s|)
  {
    var r := Splice(s, at, a + b);
    SliceOfSlice(r, at, at + |a + b|, 0, |a|);
    SliceOfSlice(r, at, at + |a + b|, |a|, |a| + |b|);
    assert (a + b)[0..|a|] == a && (a + b)[|a|..|a| + |b|] == b;
    assert r[0..at] == s[0..at];
    assert r[at + |a| + |b|..|s|] == s[at + |a| + |b|..|s|];
  }

  /** What Commit does to the buffer. */
  lemma CommitBytes(t: Tab, cells: seq<Stored>, row: Row)
    requires Ring.Sized(t) && Fits(t, |RowBytes(cells)|)
    ensures var t' := Commit(t, cells, row);
            var end := EndOf(t, t.wc);
            var body := |RowBytes(cells)|;
            && Ring.Sized(t') && EndOf(t', t.wc) == end + 4 + body && body < TWO_32
            && |t'.bytes| == |t.bytes| && end + 4 + body <= |t.bytes|
            && t'.bytes[end..end + 4] == Le4(body)
            && t'.bytes[end + 4..end + 4 + body] == RowBytes(cells)
            && Agree(t.bytes, t'.bytes, 0, end)
            && Agree(t.bytes, t'.bytes, end + 4 + body, |t.bytes|)
  {
    hide Le4, RowBytes, Splice, StartOf, Agree;
    ChunkInside(t, t.wc);
    SpliceParts(t.bytes, EndOf(t, t.wc), Le4(|RowBytes(cells)|), RowBytes(cells));
  }

  lemma CommitFrame(t: Tab, cells: seq<Stored>, row: Row)
    requires Ring.Sized(t) && Fits(t, |RowBytes(cells)|)
    ensures var t' := Commit(t, cells, row);
            && t'.cfg == t.cfg && t'.wc == t.wc && t'.dedup == t.dedup && t'.memo == t.memo
            && t'.overwritten == t.overwritten
            && |t'.heads| == |t.heads| && (forall j :: 0 <= j < |t.heads| && j != t.wc ==> t'.heads[j] == t.heads[j])
            && t'.heads[t.wc] == Grown(t.heads[t.wc], |RowBytes(cells)|, RowTs(t.cfg.tsCol, row))
  {
    hide RowBytes, Record, Splice, StartOf;
  }

  /** The new record is the last one of the walk, and the earlier ones stay. */
  lemma CommitWalk(t: Tab, cells: seq<Stored>, row: Row)
    requires Ring.Sized(t) && Fits(t, |RowBytes(cells)|) && Records(t, t.wc).stop == EndOf(t, t.wc)
    ensures Ring.Sized(Commit(t, cells, row))
    ensures var end := EndOf(t, t.wc);
            var body := |RowBytes(cells)|;
            Records(Commit(t, cells, row), t.wc)
            == Walked(Records(t, t.wc).spans + [Span(end + 4, end + 4 + body)], end + 4 + body)
  {
    hide Commit, StartOf, Le4, RowBytes, Walk, Agree;
    var t' := Commit(t, cells, row);
    var base, end := StartOf(t.cfg, t.wc) + CHUNK_HEADER, EndOf(t, t.wc);
    assert t'.cfg == t.cfg by {
      CommitFrame(t, cells, row);
    }
    ChunkInside(t, t.wc);
    CommitBytes(t, cells, row);
    AgreeSub(t.bytes, t'.bytes, 0, end, base, end);
    WalkAppend(t.bytes, t'.bytes, base, end, |RowBytes(cells)|);
  }

  /** The stored cells of a row read back in the grown chunk. */
  ghost predicate CellsGood(t: Tab, cells: seq<Stored>)
    requires Ring.Sized(t)
  {
    forall k :: 0 <= k < |cells| ==>
      (cells[k].Ref? ==>
         && t.dedup && IsVar(TypeOf(cells[k].v))
         && ResolveRef(HereEnv(t), cells[k].off) == Some(Payload(cells[k].v)))
  }

  lemma {:induction false} CellWithinRow(cells: seq<Stored>, k: nat)
    requires k < |cells|
    ensures |CellBytes(cells[k])| <= |RowBytes(cells)|
    decreases |cells|
  {
    if k > 0 {
      CellWithinRow(cells[1..], k - 1);
    }
  }

  lemma CellStaysReadable(t: Tab, cells: seq<Stored>, k: nat, e: Env)
    requires Ring.Sized(t) && Small(t.cfg) && Fits(t, |RowBytes(cells)|) && CellsGood(t, cells) && k < |cells|
    requires e.start == StartOf(t.cfg, t.wc) && CHUNK_HEADER + t.heads[t.wc].used <= e.size
    requires Agree(t.bytes, e.buf, 0, EndOf(t, t.wc))
    ensures RowCodec.Readable(e, cells[k])
  {
    hide RowBytes, StartOf, Agree, ResolveRef;
    ChunkInside(t, t.wc);
    CellWithinRow(cells, k);
    if cells[k].Ref? {
      AgreeSub(t.bytes, e.buf, 0, EndOf(t, t.wc), StartOf(t.cfg, t.wc) + CHUNK_HEADER, EndOf(t, t.wc));
      RefStable(HereEnv(t), e, cells[k].off);
    }
  }

  lemma NewRowOk(t: Tab, cells: seq<Stored>, row: Row)
    requires Ring.Sized(t) && Fits(t, |RowBytes(cells)|) && CellsGood(t, cells)
    requires CellValues(cells) == row && Matches(row, t.cfg.types) && (!t.dedup ==> cells == AllInline(row))
    ensures Ring.Sized(Commit(t, cells, row))
    ensures var end := EndOf(t, t.wc);
            RowOk(Commit(t, cells, row), t.wc, Span(end + 4, end + 4 + |RowBytes(cells)|), row)
  {
    hide Commit, StartOf, Le4, RowBytes, Agree, CursorRow, ColsPass;
    var t' := Commit(t, cells, row);
    var end := EndOf(t, t.wc);
    var span := Span(end + 4, end + 4 + |RowBytes(cells)|);
    CommitBytes(t, cells, row);
    CommitFrame(t, cells, row);
    if Small(t.cfg) {
      NewRowReads(t, cells, row, RowEnv(t', t.wc, span));
    }
  }

  lemma NewRowReads(t: Tab, cells: seq<Stored>, row: Row, e: Env)
    requires Ring.Sized(t) && Small(t.cfg) && Fits(t, |RowBytes(cells)|) && CellsGood(t, cells)
    requires CellValues(cells) == row && Matches(row, t.cfg.types) && (!t.dedup ==> cells == AllInline(row))
    requires e.data == RowBytes(cells) && e.start == StartOf(t.cfg, t.wc) && Agree(t.bytes, e.buf, 0, EndOf(t, t.wc))
    requires CHUNK_HEADER + t.heads[t.wc].used <= e.size
    ensures CursorRow(e, 0, t.cfg.types) == Some(row)
    ensures ColsPass(e.data, 0, t.cfg.types, t.dedup, e.size - CHUNK_HEADER)
  {
    hide StartOf, RowBytes, Agree, CursorRow, ColsPass, CellsGood, RowCodec.Readable;
    forall k | 0 <= k < |cells|
      ensures RowCodec.Readable(e, cells[k])
    {
      CellStaysReadable(t, cells, k, e);
    }
    assert e.data[0..0 + |RowBytes(cells)|] == RowBytes(cells);
    RowReads(e, 0, cells, t.cfg.types);
    if !t.dedup {
      InlineShort(e, row);
      assert e.data[0..] == e.data;
      InlineRowPasses(e.data, 0, row, t.cfg.types);
    }
    ReadableRowPasses(e, 0, t.cfg.types, t.dedup, e.size - CHUNK_HEADER);
  }

  lemma InlineShort(e: Env, row: Row)
    requires forall k :: 0 <= k < |row| ==> RowCodec.Readable(e, AllInline(row)[k])
    ensures ShortCells(row)
  {
    forall k | 0 <= k < |row| && IsVar(TypeOf(row[k]))
      ensures |Payload(row[k])| < TWO_31
    {
      assert RowCodec.Readable(e, AllInline(row)[k]);
    }
  }

  lemma WrittenChunk(t: Tab, cells: seq<Stored>, row: Row, rows: seq<Row>)
    requires Ring.Sized(t) && Fits(t, |RowBytes(cells)|) && CellsGood(t, cells) && ChunkOk(t, t.wc, rows)
    requires CellValues(cells) == row && Matches(row, t.cfg.types) && (!t.dedup ==> cells == AllInline(row))
    requires t.heads[t.wc].gen > 0
    ensures Ring.Sized(Commit(t, cells, row)) && ChunkOk(Commit(t, cells, row), t.wc, rows + [row])
  {
    hide Commit, StartOf, Le4, RowBytes, Agree, Walk, RowOk, RangeExact, CellsGood;
    var t' := Commit(t, cells, row);
    var end := EndOf(t, t.wc);
    CommitBytes(t, cells, row);
    CommitFrame(t, cells, row);
    CommitWalk(t, cells, row);
    NewRowOk(t, cells, row);
    GrownRange(t.heads[t.wc], |RowBytes(cells)|, t.cfg.tsCol, rows, row);
    var spans := Records(t, t.wc).spans;
    AgreeSub(t.bytes, t'.bytes, 0, end, StartOf(t.cfg, t.wc), end);
    forall k | 0 <= k < |rows + [row]|
      ensures RowOk(t', t.wc, Records(t', t.wc).spans[k], (rows + [row])[k])
    {
      if k < |rows| {
        assert Records(t', t.wc).spans[k] == spans[k];
        RowKept(t, t', t.wc, spans[k], rows[k]);
      }
    }
  }
}
