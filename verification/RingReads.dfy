/** What readers of a table see: pinned snapshots, the logical order of chunks, counters and time ranges. */
module RingReads {
  import opened Bytes
  import opened Chunks
  import opened Schema
  import opened RowCodec
  import opened Dedup
  import opened Ring
  import opened RingInv
  import opened RingSteps
  import opened Stream
  import opened RingRuns

  // ----- reading a chunk

  /** A row as readers decode it: references may lead anywhere in the chunk, committed or not. */
  function ReadRow(t: Tab, i: nat, span: Span): Option<Row>
    requires span.from <= span.to <= |t.bytes|
  {
    CursorRow(Env(t.bytes[span.from..span.to], t.bytes, StartOf(t.cfg, i), t.cfg.chunkSize), 0, t.cfg.types)
  }

  function ReadSpans(t: Tab, i: nat, spans: seq<Span>): Option<seq<Row>>
    requires forall k :: 0 <= k < |spans| ==> spans[k].from <= spans[k].to <= |t.bytes|
  {
    if spans == [] then Some([])
    else
      match ReadRow(t, i, spans[0])
      case None => None
      case Some(row) =>
        match ReadSpans(t, i, spans[1..])
        case None => None
        case Some(rest) => Some([row] + rest)
  }

  /** The rows of the first `used` committed bytes of chunk i, as an iterator that captured `used` yields them. */
  function ReadAt(t: Tab, i: nat, used: nat): Option<seq<Row>>
    requires Ring.Sized(t) && i < |t.heads| && CHUNK_HEADER + used <= t.cfg.chunkSize
  {
    ChunkInside(t, i);
    var base := StartOf(t.cfg, i) + CHUNK_HEADER;
    ReadSpans(t, i, Walk(t.bytes, base, base + used).spans)
  }

  lemma {:induction false} SpansRead(t: Tab, i: nat, spans: seq<Span>, rows: seq<Row>)
    requires |spans| == |rows| && forall k :: 0 <= k < |spans| ==> spans[k].from <= spans[k].to <= |t.bytes|
    requires forall k :: 0 <= k < |spans| ==> ReadRow(t, i, spans[k]) == Some(rows[k])
    ensures ReadSpans(t, i, spans) == Some(rows)
    decreases |spans|
  {
    hide ReadRow;
    if spans != [] {
      SpansRead(t, i, spans[1..], rows[1..]);
      assert rows == [rows[0]] + rows[1..];
    }
  }

  /** Two tables whose committed bytes of chunk i agree up to the extent that `t` has there. */
  ghost predicate SameCommitted(t: Tab, t': Tab, i: nat)
    requires Ring.Sized(t) && Ring.Sized(t') && i < |t.heads|
  {
    && t'.cfg == t.cfg && |t'.heads| == |t.heads| && t.heads[i].used <= t'.heads[i].used
    && Agree(t.bytes, t'.bytes, StartOf(t.cfg, i), EndOf(t, i))
  }

  lemma SnapshotRow(t: Tab, t': Tab, i: nat, span: Span, row: Row)
    requires Ring.Sized(t) && i < |t.heads| && t'.cfg == t.cfg && Small(t.cfg)
    requires Agree(t.bytes, t'.bytes, StartOf(t.cfg, i) + CHUNK_HEADER, EndOf(t, i))
    requires StartOf(t.cfg, i) + CHUNK_HEADER <= span.from <= span.to <= EndOf(t, i) && RowOk(t, i, span, row)
    ensures span.to <= |t'.bytes| && ReadRow(t', i, span) == Some(row)
  {
    hide StartOf, CursorRow;
    ChunkInside(t, i);
    AgreeSub(t.bytes, t'.bytes, StartOf(t.cfg, i) + CHUNK_HEADER, EndOf(t, i), span.from, span.to);
    var e' := Env(t'.bytes[span.from..span.to], t'.bytes, StartOf(t.cfg, i), t.cfg.chunkSize);
    RowStable(RowEnv(t, i, span), e', 0, t.cfg.types);
  }

  /** A chunk read later through an earlier extent gives the rows it held then. */
  lemma SnapshotReads(t: Tab, t': Tab, i: nat, rows: seq<Row>)
    requires Ring.Sized(t) && Ring.Sized(t') && i < |t.heads| && t'.cfg == t.cfg && Small(t.cfg)
    requires Agree(t.bytes, t'.bytes, StartOf(t.cfg, i) + CHUNK_HEADER, EndOf(t, i)) && ChunkOk(t, i, rows)
    ensures ReadAt(t', i, t.heads[i].used) == Some(rows)
  {
    hide StartOf, Walk, RowOk, ReadRow, ReadSpans, RangeExact;
    ChunkInside(t, i);
    ChunkInside(t', i);
    WalkFrame(t.bytes, t'.bytes, StartOf(t.cfg, i) + CHUNK_HEADER, EndOf(t, i));
    var spans := Records(t, i).spans;
    forall k | 0 <= k < |spans|
      ensures spans[k].to <= |t'.bytes| && ReadRow(t', i, spans[k]) == Some(rows[k])
    {
      SnapshotRow(t, t', i, spans[k], rows[k]);
    }
    SpansRead(t', i, spans, rows);
  }

  // ----- a generation's committed prefix never changes

  /** Generations never fall, and while one lives its committed bytes stay. */
  ghost predicate Settled(t: Tab, t': Tab, i: nat)
    requires Ring.Sized(t) && Ring.Sized(t') && i < |t.heads|
  {
    && t'.cfg == t.cfg && |t'.heads| == |t.heads| && t.heads[i].gen <= t'.heads[i].gen
    && (t'.heads[i].gen == t.heads[i].gen ==> SameCommitted(t, t', i))
  }

  lemma SettledTrans(a: Tab, b: Tab, c: Tab, i: nat)
    requires Ring.Sized(a) && Ring.Sized(b) && Ring.Sized(c) && i < |a.heads| && Settled(a, b, i) && Settled(b, c, i)
    ensures Settled(a, c, i)
  {
    hide StartOf, Agree;
    if c.heads[i].gen == a.heads[i].gen {
      AgreeSub(b.bytes, c.bytes, StartOf(a.cfg, i), EndOf(b, i), StartOf(a.cfg, i), EndOf(a, i));
      AgreeTrans(a.bytes, b.bytes, c.bytes, StartOf(a.cfg, i), EndOf(a, i));
    }
  }

  lemma AgreeTrans(a: seq<Byte>, b: seq<Byte>, c: seq<Byte>, from: nat, to: nat)
    requires Agree(a, b, from, to) && Agree(b, c, from, to)
    ensures Agree(a, c, from, to)
  {
  }

  lemma CommitSettles(t: Tab, cells: seq<Stored>, row: Row, memo: Option<Memo>, i: nat)
    requires Ring.Sized(t) && Fits(t, |RowBytes(cells)|) && i < |t.heads|
    ensures var t' := Commit(t, cells, row).(memo := memo); Ring.Sized(t') && Settled(t, t', i)
  {
    hide StartOf, RowBytes, Commit, Agree, Le4;
    var t' := Commit(t, cells, row).(memo := memo);
    CommitFrame(t, cells, row);
    CommitBytes(t, cells, row);
    ChunkInside(t, i);
    ChunkInside(t, t.wc);
    if i <= t.wc {
      if i < t.wc {
        ChunksApart(t.cfg, i, t.wc);
      }
      AgreeSub(t.bytes, t'.bytes, 0, EndOf(t, t.wc), StartOf(t.cfg, i), EndOf(t, i));
    } else {
      ChunksApart(t.cfg, t.wc, i);
      AgreeSub(t.bytes, t'.bytes, EndOf(t, t.wc) + 4 + |RowBytes(cells)|, |t.bytes|, StartOf(t.cfg, i), EndOf(t, i));
    }
  }

  lemma AppendSettles(t: Tab, row: Row, i: nat)
    requires Ring.Sized(t) && Appendable(t, row) && i < |t.heads|
    ensures Ring.Sized(Append(t, row)) && Settled(t, Append(t, row), i)
  {
    hide StartOf, RowBytes, Commit, Settled;
    CommitSettles(t, CellsOf(t, row), row, MemoAfter(t, CellsOf(t, row)), i);
  }

  lemma AdvanceSettles(t: Tab, pinned: bool, i: nat)
    requires Ring.Sized(t) && i < |t.heads|
    ensures Ring.Sized(Ring.Advance(t, pinned).0) && Settled(t, Ring.Advance(t, pinned).0, i)
  {
    hide StartOf;
    AdvanceSized(t, pinned);
    ChunkInside(t, i);
  }

  lemma FreeBytesSettle(t: Tab, b: seq<Byte>, i: nat)
    requires Ring.Sized(t) && OnlyFree(t, b) && i < |t.heads|
    ensures Ring.Sized(t.(bytes := b)) && Settled(t, t.(bytes := b), i)
  {
    hide StartOf;
    ChunkInside(t, i);
    ChunkInside(t, t.wc);
    if i < t.wc {
      ChunksApart(t.cfg, i, t.wc);
    } else if t.wc < i {
      ChunksApart(t.cfg, t.wc, i);
    }
    assert t.bytes[StartOf(t.cfg, i)..EndOf(t, i)] == b[StartOf(t.cfg, i)..EndOf(t, i)];
  }

  lemma SelfSettled(t: Tab, t': Tab, i: nat)
    requires Ring.Sized(t) && t' == t.(dedup := t'.dedup, memo := t'.memo) && i < |t.heads|
    ensures Ring.Sized(t') && Settled(t, t', i)
  {
    ChunkInside(t, i);
  }

  lemma PushSettles(t: Tab, row: Row, pinned: bool, i: nat)
    requires Ring.Sized(t) && i < |t.heads|
    ensures Ring.Sized(TryPush(t, row, pinned).0) && Settled(t, TryPush(t, row, pinned).0, i)
  {
    hide Settled, Append, Ring.Advance, RowBytes, CellsOf;
    if !Matches(row, t.cfg.types) {
      SelfSettled(t, t, i);
    } else if TryAppend(t, row).1 {
      AppendSettles(t, row, i);
    } else {
      AdvanceSettles(t, pinned, i);
      if !pinned {
        var t' := Ring.Advance(t, false).0;
        AdvanceKeepsCfg(t);
        if TryAppend(t', row).1 {
          AppendSettles(t', row, i);
          SettledTrans(t, t', Append(t', row), i);
        }
      }
    }
  }

  lemma StepSettles(t: Tab, g: Log, op: Op, i: nat)
    requires TableOk(t, g) && Legal(t, op) && i < |t.heads|
    ensures Ring.Sized(Do(t, op)) && Settled(t, Do(t, op), i)
  {
    hide TableOk, Settled, Append, Ring.Advance, TryPush, Puts, Finish, Abandon, OnlyFree, RowBytes, CellsOf;
    Shape(t, g);
    match op
    case AppendRow(row) =>
      if AppendChecked(t, row).1 {
        AppendSettles(t, row, i);
      } else {
        SelfSettled(t, t, i);
      }
    case PushRow(row, pinned) => PushSettles(t, row, pinned, i);
    case AdvanceChunk(pinned) => AdvanceSettles(t, pinned, i);
    case StreamRow(row) =>
      RoomForLength(t, row);
      StreamingEqualsBatch(t, row);
      if Appendable(t, row) {
        AppendSettles(t, row, i);
      } else {
        FreeBytesSettle(t, Puts(t, row).bytes, i);
      }
    case StreamDropped(puts) =>
      DroppedRow(t, puts);
      FreeBytesSettle(t, Puts(t, puts).bytes, i);
    case Scribble(b) => FreeBytesSettle(t, b, i);
    case _ => SelfSettled(t, Do(t, op), i);
  }

  lemma {:induction false} RunSettles(ts: seq<Tab>, ops: seq<Op>, j: nat, k: nat, i: nat)
    requires IsRun(ts, ops) && j <= k < |ts| && Ring.Sized(ts[j]) && Ring.Sized(ts[k]) && i < |ts[j].heads|
    ensures Settled(ts[j], ts[k], i)
    decreases k
  {
    hide TableOk, Settled, Do, Legal, Initial;
    if j == k {
      SelfSettled(ts[j], ts[j], i);
    } else {
      var g := LogAt(ts, ops, k - 1);
      Shape(ts[k - 1], g);
      RunSettles(ts, ops, j, k - 1, i);
      SettledHeads(ts[j], ts[k - 1], i);
      StepSettles(ts[k - 1], g, ops[k - 1], i);
      SettledTrans(ts[j], ts[k - 1], ts[k], i);
    }
  }

  lemma SettledHeads(t: Tab, t': Tab, i: nat)
    requires Ring.Sized(t) && Ring.Sized(t') && i < |t.heads| && Settled(t, t', i)
    ensures |t'.heads| == |t.heads| && t'.cfg == t.cfg
  {
  }

  /**
   Snapshot stability. An iterator that captured chunk i's extent in state j and reads in any later
   state k of the same run, while the chunk is still at the generation it had, sees the very bytes
   committed in state j and decodes exactly the rows the chunk held then, however many rows were
   appended, overflowed, dropped half-written or refused to recycle in between.
   */
  lemma SnapshotStable(ts: seq<Tab>, ops: seq<Op>, j: nat, k: nat, i: nat)
    requires IsRun(ts, ops) && j <= k < |ts| && i < |ts[j].heads|
    ensures Ring.Sized(ts[j]) && Ring.Sized(ts[k]) && ts[k].cfg == ts[j].cfg && |ts[k].heads| == |ts[j].heads|
    ensures ts[j].heads[i].gen <= ts[k].heads[i].gen
    ensures ts[k].heads[i].gen == ts[j].heads[i].gen ==>
              && Agree(ts[j].bytes, ts[k].bytes, StartOf(ts[j].cfg, i), EndOf(ts[j], i))
              && (Small(ts[j].cfg) ==> ReadAt(ts[k], i, ts[j].heads[i].used) == Some(LogAt(ts, ops, j).rows[i]))
  {
    hide Do, Legal, Initial, ChunkOk, ReadAt, Agree, StartOf, LogAt, RingShape, Flat, MemoOk;
    var g, g' := LogAt(ts, ops, j), LogAt(ts, ops, k);
    assert TableOk(ts[j], g) && TableOk(ts[k], g');
    RunSettles(ts, ops, j, k, i);
    if ts[k].heads[i].gen == ts[j].heads[i].gen && Small(ts[j].cfg) {
      var start, end := StartOf(ts[j].cfg, i), EndOf(ts[j], i);
      AgreeSub(ts[j].bytes, ts[k].bytes, start, end, start + CHUNK_HEADER, end);
      SnapshotReads(ts[j], ts[k], i, g.rows[i]);
    }
  }

  /** Dedup is invisible: with any hash function, every chunk decodes to the rows written to it. */
  lemma DedupInvisible(ts: seq<Tab>, ops: seq<Op>, k: nat, i: nat)
    requires IsRun(ts, ops) && k < |ts| && i < |ts[k].heads| && Small(ts[k].cfg)
    ensures Ring.Sized(ts[k]) && i < |LogAt(ts, ops, k).rows|
    ensures ReadAt(ts[k], i, ts[k].heads[i].used) == Some(LogAt(ts, ops, k).rows[i])
  {
    hide Do, Legal, Initial, ReadAt, LogAt;
    var g := LogAt(ts, ops, k);
    Shape(ts[k], g);
    SnapshotStable(ts, ops, k, k, i);
  }

  // ----- rows by generation

  /** The rows reported as written to chunk i at this generation, up to state k. */
  ghost function WrittenTo(ts: seq<Tab>, ops: seq<Op>, i: nat, gen: nat, k: nat): seq<Row>
    requires IsRun(ts, ops) && k < |ts|
    decreases k
  {
    if k == 0 then []
    else
      WrittenTo(ts, ops, i, gen, k - 1)
      + if ts[k].wc == i && i < |ts[k].heads| && ts[k].heads[i].gen == gen then Reported(ts[k - 1], ops[k - 1]) else []
  }

  /** What one operation does to the rows of one chunk. */
  ghost predicate RowsMove(t: Tab, g: Log, op: Op, t': Tab, g': Log, i: nat)
    requires Ring.Sized(t) && Legal(t, op) && i < |t.heads| == |t'.heads| && i < |g.rows| && i < |g'.rows|
  {
    g'.rows[i] == (if t'.heads[i].gen == t.heads[i].gen then g.rows[i] else [])
                  + (if t'.wc == i then Reported(t, op) else [])
  }

  lemma AppendedRows(t: Tab, g: Log, row: Row, i: nat)
    requires TableOk(t, g) && Appendable(t, row) && i < |t.heads|
    ensures var t', g' := Append(t, row), Logged(t, g, row);
            && t'.wc == t.wc && |t'.heads| == |t.heads| && t'.heads[i].gen == t.heads[i].gen
            && i < |g.rows| && i < |g'.rows| && g'.rows[i] == g.rows[i] + (if t.wc == i then [row] else [])
  {
    hide StartOf, RowBytes, CellsOf, Commit, ChunkOk, Flat, RingShape, MemoOk;
    CommitFrame(t, CellsOf(t, row), row);
  }

  lemma DroppedRows(t: Tab, g: Log, i: nat)
    requires TableOk(t, g) && i < |t.heads|
    ensures var t', g' := Ring.Advance(t, false).0, Dropped(t, g);
            && t'.wc == NextChunk(t) && |t'.heads| == |t.heads| && i < |g.rows| && i < |g'.rows|
            && g'.rows[i] == (if t'.heads[i].gen == t.heads[i].gen then g.rows[i] else [])
            && (t'.heads[i].gen == t.heads[i].gen <==> i != NextChunk(t))
  {
    hide StartOf, ChunkOk, Flat, RingShape, MemoOk, Ring.Advance;
    AdvanceFrame(t);
  }

  lemma PushRowsMove(t: Tab, g: Log, row: Row, pinned: bool, i: nat)
    requires TableOk(t, g) && i < |t.heads|
    ensures var op := PushRow(row, pinned);
            && |Do(t, op).heads| == |t.heads| && i < |g.rows| && i < |Logs(t, g, op).rows|
            && RowsMove(t, g, op, Do(t, op), Logs(t, g, op), i)
  {
    hide TableOk, Append, RowBytes, CellsOf, Ring.Advance, Logged, Dropped;
    Shape(t, g);
    if Matches(row, t.cfg.types) {
      if Accepts(t, row) {
        AppendedRows(t, g, row, i);
      } else if !pinned {
        DroppedRows(t, g, i);
        AdvanceKeeps(t, g, false);
        var t', g' := Ring.Advance(t, false).0, Dropped(t, g);
        Shape(t', g');
        if Accepts(t', row) {
          AppendedRows(t', g', row, i);
        }
      } else {
        PinnedHeads(t);
      }
    }
  }

  lemma PinnedHeads(t: Tab)
    requires Ring.Sized(t)
    ensures Ring.Advance(t, true).0.heads == t.heads && Ring.Advance(t, true).0.wc == t.wc
  {
  }

  lemma StepRowsMove(t: Tab, g: Log, op: Op, i: nat)
    requires TableOk(t, g) && Legal(t, op) && i < |t.heads|
    ensures |Do(t, op).heads| == |t.heads| && i < |g.rows| && i < |Logs(t, g, op).rows|
    ensures RowsMove(t, g, op, Do(t, op), Logs(t, g, op), i)
  {
    hide TableOk, Append, RowBytes, CellsOf, Ring.Advance, Logged, Dropped, Puts, Publish;
    Shape(t, g);
    match op
    case AppendRow(row) =>
      if AppendChecked(t, row).1 {
        AppendedRows(t, g, row, i);
      }
    case PushRow(row, pinned) => PushRowsMove(t, g, row, pinned, i);
    case AdvanceChunk(pinned) =>
      if pinned {
        PinnedHeads(t);
      } else {
        DroppedRows(t, g, i);
      }
    case StreamRow(row) =>
      RoomForLength(t, row);
      StreamingEqualsBatch(t, row);
      if Appendable(t, row) {
        AppendedRows(t, g, row, i);
      }
    case _ =>
  }

  /** Nothing was written to a generation that the chunk has not reached. */
  lemma {:induction false} NothingAhead(ts: seq<Tab>, ops: seq<Op>, i: nat, gen: nat, k: nat)
    requires IsRun(ts, ops) && k < |ts| && Ring.Sized(ts[k]) && i < |ts[k].heads| && ts[k].heads[i].gen < gen
    ensures WrittenTo(ts, ops, i, gen, k) == []
    decreases k
  {
    hide TableOk, Do, Legal, Initial, Reported;
    if k > 0 {
      var g, g' := LogAt(ts, ops, k - 1), LogAt(ts, ops, k);
      Shape(ts[k - 1], g);
      Shape(ts[k], g');
      BeforeIsOlder(ts, ops, k, i);
      NothingAhead(ts, ops, i, gen, k - 1);
    }
  }

  lemma BeforeIsOlder(ts: seq<Tab>, ops: seq<Op>, k: nat, i: nat)
    requires IsRun(ts, ops) && 0 < k < |ts| && Ring.Sized(ts[k - 1]) && Ring.Sized(ts[k]) && i < |ts[k].heads|
    ensures |ts[k - 1].heads| == |ts[k].heads| && ts[k - 1].heads[i].gen <= ts[k].heads[i].gen
  {
    hide Do, Legal, Initial;
    RunSettles(ts, ops, k - 1, k, 0);
    RunSettles(ts, ops, k - 1, k, i);
  }

  /** The rows a chunk holds are those reported as written to its present generation. */
  lemma {:induction false} HeldIsWritten(ts: seq<Tab>, ops: seq<Op>, i: nat, k: nat)
    requires IsRun(ts, ops) && k < |ts| && i < |ts[k].heads|
    ensures i < |LogAt(ts, ops, k).rows|
    ensures LogAt(ts, ops, k).rows[i] == WrittenTo(ts, ops, i, ts[k].heads[i].gen, k)
    decreases k
  {
    hide TableOk, Do, Legal, Initial, Reported, Logs;
    var g' := LogAt(ts, ops, k);
    Shape(ts[k], g');
    if k > 0 {
      var g := LogAt(ts, ops, k - 1);
      Shape(ts[k - 1], g);
      BeforeIsOlder(ts, ops, k, i);
      StepRowsMove(ts[k - 1], g, ops[k - 1], i);
      HeldIsWritten(ts, ops, i, k - 1);
      if ts[k - 1].heads[i].gen < ts[k].heads[i].gen {
        NothingAhead(ts, ops, i, ts[k].heads[i].gen, k - 1);
      }
    }
  }
}
