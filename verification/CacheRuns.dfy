/** One cached reader over a whole life of a table: every cached read gives the value written. */
module CacheRuns {
  import opened Bytes
  import opened Chunks
  import opened Schema
  import opened RowCodec
  import opened RowCheck
  import opened Ring
  import opened RingInv
  import opened RingRuns
  import opened RingReads
  import C = Cache

  function CommittedEnv(t: Tab, i: nat): Env
    requires i < |t.heads|
  {
    Env([], t.bytes, StartOf(t.cfg, i), CHUNK_HEADER + t.heads[i].used)
  }

  predicate InRegion(t: Tab, i: nat, off: nat)
  {
    StartOf(t.cfg, i) <= off < StartOf(t.cfg, i) + t.cfg.chunkSize
  }

  /** An entry is no younger than the chunk it points into, and true while that generation lives. */
  ghost predicate EntryOkAt(t: Tab, i: nat, key: C.Key, range: C.Range)
    requires i < |t.heads|
  {
    InRegion(t, i, key.0) ==>
      && key.1 <= t.heads[i].gen
      && (key.1 == t.heads[i].gen ==>
            && ResolveRef(CommittedEnv(t, i), key.0 - StartOf(t.cfg, i)).Some?
            && key.0 + 4 <= |t.bytes| && range == C.Found(t.bytes, key.0))
  }

  ghost predicate CacheOk(t: Tab, c: C.State)
  {
    forall key, i :: key in c.entries && 0 <= i < |t.heads| ==> EntryOkAt(t, i, key, c.entries[key])
  }

  // ----- the table changes

  lemma EntrySurvives(t: Tab, t': Tab, i: nat, key: C.Key, range: C.Range)
    requires Ring.Sized(t) && Ring.Sized(t') && i < |t.heads| && Settled(t, t', i) && EntryOkAt(t, i, key, range)
    ensures i < |t'.heads| && EntryOkAt(t', i, key, range)
  {
    hide StartOf, Read32;
    if InRegion(t, i, key.0) && key.1 == t'.heads[i].gen {
      var off := key.0 - StartOf(t.cfg, i);
      assert SameCommitted(t, t', i);
      assert ResolveRef(CommittedEnv(t, i), off).Some?;
      AgreeSub(t.bytes, t'.bytes, StartOf(t.cfg, i), EndOf(t, i), StartOf(t.cfg, i) + CHUNK_HEADER, EndOf(t, i));
      RefStable(CommittedEnv(t, i), CommittedEnv(t', i), off);
      AgreeSub(t.bytes, t'.bytes, StartOf(t.cfg, i), EndOf(t, i), key.0, key.0 + 4);
    }
  }

  /** No operation of the writer makes a cached entry wrong. */
  lemma CacheSurvives(t: Tab, g: Log, op: Op, c: C.State)
    requires TableOk(t, g) && Legal(t, op) && CacheOk(t, c)
    ensures CacheOk(Do(t, op), c)
  {
    hide TableOk, Settled, Do, EntryOkAt, Legal;
    Shape(t, g);
    StepKeeps(t, g, op);
    Shape(Do(t, op), Logs(t, g, op));
    forall key, i | key in c.entries && 0 <= i < |Do(t, op).heads|
      ensures EntryOkAt(Do(t, op), i, key, c.entries[key])
    {
      SameWidth(t, g, op);
      StepSettles(t, g, op, i);
      EntrySurvives(t, Do(t, op), i, key, c.entries[key]);
    }
  }

  lemma SameWidth(t: Tab, g: Log, op: Op)
    requires TableOk(t, g) && Legal(t, op)
    ensures |Do(t, op).heads| == |t.heads|
  {
    hide TableOk, Settled, Do, Legal;
    Shape(t, g);
    StepSettles(t, g, op, t.wc);
    SettledHeads(t, Do(t, op), t.wc);
  }

  // ----- a cell is read

  /** What a reader of record r of chunk i looks at. */
  function ReaderEnv(t: Tab, i: nat, span: Span): Env
    requires span.from <= span.to <= |t.bytes|
  {
    Env(t.bytes[span.from..span.to], t.bytes, StartOf(t.cfg, i), t.cfg.chunkSize)
  }

  function PosOf(data: seq<Byte>, types: seq<DType>, col: nat): nat
    requires col < |types|
  {
    match ColOffset(data, types, col) case None => 0 case Some(off) => off
  }

  lemma ColumnReads(e: Env, types: seq<DType>, row: Row, col: nat)
    requires col < |types| && CursorRow(e, 0, types) == Some(row)
    ensures var pos := PosOf(e.data, types, col);
            && CursorCell(e, pos, types[col]).Cell? && CursorCell(e, pos, types[col]).v == row[col]
  {
    hide CursorRow, Read32, ResolveRef, DecodeFixed, ColOffset;
    IndexedAgreesEverywhere(e, types, row);
    assert IndexedCell(e, types, col) == Some(row[col]);
  }

  /** The reference in a cell that reads back leads into the committed bytes. */
  lemma ReferenceCommitted(e: Env, pos: nat, dt: DType)
    requires IsVar(dt) && CursorCell(e, pos, dt).Cell? && C.RefAt(e.data, pos).Some?
    ensures ResolveRef(e, C.RefAt(e.data, pos).value).Some?
  {
    hide Read32, ResolveRef;
  }

  lemma ReferenceInPlace(t: Tab, i: nat, e: Env, delta: nat)
    requires Ring.Sized(t) && i < |t.heads|
    requires e == Env(e.data, t.bytes, StartOf(t.cfg, i), CHUNK_HEADER + t.heads[i].used)
    requires ResolveRef(e, delta).Some?
    ensures ResolveRef(CommittedEnv(t, i), delta).Some?
  {
    hide Read32, StartOf;
  }

  lemma CacheTrusted(t: Tab, i: nat, c: C.State, e: Env)
    requires Ring.Sized(t) && i < |t.heads| && CacheOk(t, c)
    requires e == Env(e.data, t.bytes, StartOf(t.cfg, i), t.cfg.chunkSize)
    ensures C.Trusted(c, e, t.heads[i].gen)
  {
    hide StartOf, ResolveRef, C.Found;
    forall key | key in c.entries && C.InChunk(e, t.heads[i].gen, key)
      ensures c.entries[key] == C.Found(e.buf, key.0)
    {
      assert EntryOkAt(t, i, key, c.entries[key]);
    }
  }

  /** A cached read of a committed cell gives the value written, as the plain read does. */
  lemma CachedReadIsPlain(t: Tab, i: nat, span: Span, row: Row, c: C.State, col: nat)
    requires Ring.Sized(t) && i < |t.heads| && Small(t.cfg) && C.Wf(c) && c.limit == |t.bytes| && CacheOk(t, c)
    requires StartOf(t.cfg, i) + CHUNK_HEADER <= span.from <= span.to <= EndOf(t, i) && RowOk(t, i, span, row)
    requires col < |t.cfg.types|
    ensures C.InReach(c, ReaderEnv(t, i, span))
    ensures var e := ReaderEnv(t, i, span);
            var pos := PosOf(e.data, t.cfg.types, col);
            var (c', r) := C.CachedCell(c, e, t.heads[i].gen, pos, t.cfg.types[col]);
            C.Wf(c') && c'.limit == c.limit && r == CursorCell(e, pos, t.cfg.types[col]) && r.Cell? && r.v == row[col]
  {
    hide StartOf, CursorCell, C.CachedCell, PosOf, CacheOk, C.Wf, CursorRow, ColsPass;
    var e, e0 := ReaderEnv(t, i, span), RowEnv(t, i, span);
    var pos, dt := PosOf(e.data, t.cfg.types, col), t.cfg.types[col];
    ChunkInside(t, i);
    ColumnReads(e0, t.cfg.types, row, col);
    CellStable(e0, e, pos, dt);
    CacheTrusted(t, i, c, e);
    C.CachedCellKeeps(c, e, t.heads[i].gen, pos, dt);
    C.CachedCellIsPlain(c, e, t.heads[i].gen, pos, dt);
  }

  /** A cached read leaves a cache whose entries are all true. */
  lemma CachedReadKeeps(t: Tab, i: nat, span: Span, row: Row, c: C.State, col: nat)
    requires Ring.Sized(t) && i < |t.heads| && Small(t.cfg) && C.Wf(c) && c.limit == |t.bytes| && CacheOk(t, c)
    requires StartOf(t.cfg, i) + CHUNK_HEADER <= span.from <= span.to <= EndOf(t, i) && RowOk(t, i, span, row)
    requires col < |t.cfg.types|
    ensures C.InReach(c, ReaderEnv(t, i, span))
    ensures var e := ReaderEnv(t, i, span);
            CacheOk(t, C.CachedCell(c, e, t.heads[i].gen, PosOf(e.data, t.cfg.types, col), t.cfg.types[col]).0)
  {
    hide StartOf, CursorCell, C.CachedCell, PosOf, C.Wf, CursorRow, ResolveRef, C.Found, C.RefAt, EntryOkAt, ColsPass;
    var e, e0 := ReaderEnv(t, i, span), RowEnv(t, i, span);
    var pos, dt, gen := PosOf(e.data, t.cfg.types, col), t.cfg.types[col], t.heads[i].gen;
    ChunkInside(t, i);
    var c' := C.CachedCell(c, e, gen, pos, dt).0;
    ColumnReads(e0, t.cfg.types, row, col);
    forall key, j | key in c'.entries && 0 <= j < |t.heads|
      ensures EntryOkAt(t, j, key, c'.entries[key])
    {
      C.CachedCellAdds(c, e, gen, pos, dt, key);
      if !(key in c.entries && c.entries[key] == c'.entries[key]) {
        var delta := C.RefAt(e.data, pos).value;
        ReferenceCommitted(e0, pos, dt);
        ReferenceInPlace(t, i, e0, delta);
        NewEntryOk(t, i, j, key, c'.entries[key]);
      }
    }
  }

  lemma NewEntryOk(t: Tab, i: nat, j: nat, key: C.Key, range: C.Range)
    requires Ring.Sized(t) && i < |t.heads| && j < |t.heads| && key.1 == t.heads[i].gen && StartOf(t.cfg, i) <= key.0
    requires ResolveRef(CommittedEnv(t, i), key.0 - StartOf(t.cfg, i)).Some?
    requires key.0 + 4 <= |t.bytes| && range == C.Found(t.bytes, key.0)
    ensures EntryOkAt(t, j, key, range)
  {
    hide StartOf, C.Found, Read32;
    ChunkInside(t, i);
    assert InRegion(t, i, key.0);
    if j < i {
      ChunksApart(t.cfg, j, i);
    } else if i < j {
      ChunksApart(t.cfg, i, j);
    }
  }

  // ----- histories

  /** Record r of chunk i. */
  function SpanAt(t: Tab, i: nat, r: nat): (span: Span)
    requires Ring.Sized(t) && i < |t.heads| && r < |Records(t, i).spans|
    ensures span == Records(t, i).spans[r] && span.from <= span.to <= |t.bytes|
  {
    ChunkInside(t, i);
    Records(t, i).spans[r]
  }

  function RecordEnv(t: Tab, i: nat, r: nat): (e: Env)
    requires Ring.Sized(t) && i < |t.heads| && r < |Records(t, i).spans|
    ensures e.buf == t.bytes && e.start + e.size <= |t.bytes|
  {
    ChunkInside(t, i);
    ReaderEnv(t, i, SpanAt(t, i, r))
  }

  datatype Event = Write(op: Op) | ReadCell(chunk: nat, row: nat, col: nat)

  ghost predicate Happens(t: Tab, c: C.State, ev: Event, t': Tab, c': C.State)
  {
    && Ring.Sized(t) && C.Wf(c) && c.limit == |t.bytes|
    && match ev {
         case Write(op) => Legal(t, op) && t' == Do(t, op) && c' == c
         case ReadCell(i, r, col) =>
           && i < |t.heads| && r < |Records(t, i).spans| && col < |t.cfg.types| && t' == t
           && var e := RecordEnv(t, i, r);
              c' == C.CachedCell(c, e, t.heads[i].gen, PosOf(e.data, t.cfg.types, col), t.cfg.types[col]).0
       }
  }

  /** A table from its initialisation on, read through one cache that starts empty. */
  ghost predicate IsHistory(ts: seq<Tab>, cs: seq<C.State>, evs: seq<Event>)
  {
    && |ts| == |cs| == |evs| + 1 && Initial(ts[0]) && Small(ts[0].cfg)
    && cs[0].entries == map[] && C.Wf(cs[0]) && cs[0].limit == |ts[0].bytes|
    && forall k :: 0 <= k < |evs| ==> Happens(ts[k], cs[k], evs[k], ts[k + 1], cs[k + 1])
  }

  ghost predicate Good(t: Tab, g: Log, c: C.State)
  {
    TableOk(t, g) && Small(t.cfg) && C.Wf(c) && c.limit == |t.bytes| && CacheOk(t, c)
  }

  lemma WriteKeepsGood(t: Tab, g: Log, c: C.State, op: Op)
    requires Good(t, g, c) && Legal(t, op)
    ensures Good(Do(t, op), Logs(t, g, op), c)
  {
    hide TableOk, CacheOk, Do, Legal, Logs, C.Wf;
    Shape(t, g);
    StepKeeps(t, g, op);
    CacheSurvives(t, g, op, c);
    StepKeepsSize(t, g, op);
  }

  lemma RecordOk(t: Tab, g: Log, i: nat, r: nat)
    requires TableOk(t, g) && i < |t.heads| && r < |Records(t, i).spans|
    ensures i < |g.rows| && r < |g.rows[i]| && RowOk(t, i, Records(t, i).spans[r], g.rows[i][r])
    ensures var span := Records(t, i).spans[r]; StartOf(t.cfg, i) + CHUNK_HEADER <= span.from <= span.to <= EndOf(t, i)
  {
    hide StartOf, RowOk, Walk, RangeExact, Flat, MemoOk, RingShape;
    assert ChunkOk(t, i, g.rows[i]);
  }

  /** The history of rows beside a history of reads and writes; the cache stays true all along. */
  ghost function RowsAt(ts: seq<Tab>, cs: seq<C.State>, evs: seq<Event>, k: nat): (g: Log)
    requires IsHistory(ts, cs, evs) && k < |ts|
    ensures Good(ts[k], g, cs[k])
    decreases k
  {
    hide TableOk, CacheOk, Initial, Do, Legal, Logs, C.Wf, Records, RowOk, C.CachedCell;
    if k == 0 then
      InitialOk(ts[0]);
      EmptyCacheOk(ts[0], cs[0]);
      EmptyLog(|ts[0].heads|)
    else
      var g := RowsAt(ts, cs, evs, k - 1);
      assert Happens(ts[k - 1], cs[k - 1], evs[k - 1], ts[k - 1 + 1], cs[k - 1 + 1]);
      Shape(ts[k - 1], g);
      match evs[k - 1]
      case Write(op) =>
        WriteKeepsGood(ts[k - 1], g, cs[k - 1], op);
        Logs(ts[k - 1], g, op)
      case ReadCell(i, r, col) =>
        RecordOk(ts[k - 1], g, i, r);
        CachedReadKeeps(ts[k - 1], i, SpanAt(ts[k - 1], i, r), g.rows[i][r], cs[k - 1], col);
        CachedReadIsPlain(ts[k - 1], i, SpanAt(ts[k - 1], i, r), g.rows[i][r], cs[k - 1], col);
        g
  }

  /** The answer of the plain cursor to column col of record r of chunk i, which is the value written. */
  ghost predicate ReadsWritten(t: Tab, rows: seq<seq<Row>>, i: nat, r: nat, col: nat, answer: Read)
    requires Ring.Sized(t) && i < |t.heads| && r < |Records(t, i).spans| && col < |t.cfg.types|
  {
    var e := RecordEnv(t, i, r);
    && i < |rows| && r < |rows[i]| && col < |rows[i][r]|
    && answer == CursorCell(e, PosOf(e.data, t.cfg.types, col), t.cfg.types[col])
    && answer.Cell? && answer.v == rows[i][r][col]
  }

  lemma EmptyCacheOk(t: Tab, c: C.State)
    requires c.entries == map[]
    ensures CacheOk(t, c)
  {
  }

  /**
   Cached reading refines plain reading. Over any history of writes, recycles and reads through one
   cache, every read through the cache answers what the plain cursor answers: the value written.
   */
  lemma CachedRefinesPlain(ts: seq<Tab>, cs: seq<C.State>, evs: seq<Event>, k: nat)
    requires IsHistory(ts, cs, evs) && k < |evs| && evs[k].ReadCell?
    ensures Happens(ts[k], cs[k], evs[k], ts[k + 1], cs[k + 1])
    ensures var t, ReadCell(i, r, col) := ts[k], evs[k];
            var e := RecordEnv(t, i, r);
            var pos, dt := PosOf(e.data, t.cfg.types, col), t.cfg.types[col];
            var (_, answer) := C.CachedCell(cs[k], e, t.heads[i].gen, pos, dt);
            ReadsWritten(t, RowsAt(ts, cs, evs, k).rows, i, r, col, answer)
  {
    hide TableOk, CacheOk, Initial, Do, Legal, C.Wf, Records, RowsAt, C.CachedCell, CursorCell;
    var g := RowsAt(ts, cs, evs, k);
    assert Happens(ts[k], cs[k], evs[k], ts[k + 1], cs[k + 1]);
    Shape(ts[k], g);
    var ReadCell(i, r, col) := evs[k];
    RecordOk(ts[k], g, i, r);
    CachedReadIsPlain(ts[k], i, SpanAt(ts[k], i, r), g.rows[i][r], cs[k], col);
  }
}
