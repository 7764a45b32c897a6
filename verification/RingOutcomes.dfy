/** What the answer of a push means for the rows held, and when each answer is given; time ranges. */
module RingOutcomes {
  import opened Bytes
  import opened Chunks
  import opened Schema
  import opened RowCodec
  import opened Dedup
  import opened Ring
  import opened RingInv
  import opened RingSteps
  import opened RingRuns
  import opened RingOrder
  import Stream

  /** `row_data_size`: the bytes of a row with every cell inline. */
  function RowDataSize(row: Row): nat
  {
    if row == [] then 0 else EncodedSize(row[0]) + RowDataSize(row[1..])
  }

  lemma {:induction false} InlineSize(row: Row)
    ensures |RowBytes(AllInline(row))| == RowDataSize(row)
    decreases |row|
  {
    hide Encode, EncodedSize;
    if row != [] {
      InlineSize(row[1..]);
      assert AllInline(row)[1..] == AllInline(row[1..]);
    }
  }

  /** Room in a chunk that holds nothing yet. */
  predicate FitsFresh(t: Tab, row: Row)
  {
    40 + 4 + RowDataSize(row) <= t.cfg.chunkSize && (t.memo.Some? ==> |row| <= 64)
  }

  lemma NothingRemembered(h: Hash, minLen: nat, row: Row, buf: seq<Byte>, start: nat)
    ensures CellsFor(h, Memo(map[], [], minLen), row, buf, start) == AllInline(row)
  {
  }

  /** After an advance, a row is accepted exactly when it fits a fresh chunk with every cell inline. */
  lemma FreshAccepts(t: Tab, row: Row)
    requires Ring.Sized(t)
    ensures Ring.Sized(Ring.Advance(t, false).0)
    ensures Accepts(Ring.Advance(t, false).0, row) <==> FitsFresh(t, row)
  {
    hide StartOf, RowBytes, CellsFor;
    AdvanceFrame(t);
    InlineSize(row);
    var t' := Ring.Advance(t, false).0;
    if t.memo.Some? {
      NothingRemembered(t.cfg.hash, t.memo.value.minLen, row, t'.bytes, StartOf(t'.cfg, t'.wc));
    }
  }

  // ----- rows held

  lemma HeldGrows(t: Tab, t': Tab, g: Log, row: Row)
    requires TableOk(t, g) && TableOk(t', Logged(t, g, row)) && t'.wc == t.wc
    ensures Held(t', Logged(t, g, row)) == Held(t, g) + [row]
  {
    hide StartOf, Flat, ChunkOk, MemoOk, RingShape;
    var g' := Logged(t, g, row);
    Regroup(g.lost, Flat(g.rows[t.wc + 1..]), Flat(g.rows[..t.wc + 1]), []);
    Regroup(g.lost, Flat(g'.rows[t.wc + 1..]), Flat(g'.rows[..t.wc + 1]), []);
    Regroup(g.lost, Held(t, g), [row], []);
    Cancel(g.lost, Held(t', g'), Held(t, g) + [row]);
  }

  lemma Cancel(a: seq<Row>, b: seq<Row>, c: seq<Row>)
    requires a + b == a + c
    ensures b == c
  {
    assert (a + b)[|a|..] == b && (a + c)[|a|..] == c;
  }

  /** The dropped chunk held the oldest rows. */
  lemma HeldDrops(t: Tab, t': Tab, g: Log)
    requires TableOk(t, g) && TableOk(t', Dropped(t, g))
    ensures Held(t, g) == g.rows[NextChunk(t)] + Held(t', Dropped(t, g))
  {
    hide StartOf, Flat, ChunkOk, MemoOk, RingShape;
    var g', x := Dropped(t, g), g.rows[NextChunk(t)];
    Regroup(g.lost, Flat(g.rows[t.wc + 1..]), Flat(g.rows[..t.wc + 1]), []);
    Regroup(g'.lost, Flat(g'.rows[t'.wc + 1..]), Flat(g'.rows[..t'.wc + 1]), []);
    Regroup(g.lost, x, Held(t', g'), []);
    Cancel(g.lost, Held(t, g), x + Held(t', g'));
  }

  /** Which answer a push gives, from what the caller can see before it. */
  lemma PushAnswer(t: Tab, row: Row, pinned: bool)
    requires Ring.Sized(t)
    ensures TryPush(t, row, pinned).1 ==
            if !Matches(row, t.cfg.types) then SchemaMismatch
            else if Accepts(t, row) then Ring.Written
            else if pinned then ReadersPinned
            else if FitsFresh(t, row) then Ring.Written
            else RowTooLarge
  {
    hide StartOf, RowBytes, CellsOf, Append, Ring.Advance, FitsFresh;
    FreshAccepts(t, row);
  }

  /** A table that dedups more than 64 columns never takes a pushed row, and each unpinned try still drops a chunk. */
  lemma TooManyDedupColumns(t: Tab, row: Row)
    requires Ring.Sized(t) && t.memo.Some? && |t.cfg.types| > 64 && Matches(row, t.cfg.types)
    ensures TryPush(t, row, false) == (Ring.Advance(t, false).0, RowTooLarge)
    ensures TryPush(t, row, true).1 == ReadersPinned
  {
    hide StartOf, RowBytes, CellsOf, Append;
    AdvanceSized(t, false);
  }

  /** A push of a matching row that no reader blocks. */
  predicate FreePush(op: Op, types: seq<DType>)
  {
    op.PushRow? && !op.pinned && Matches(op.row, types)
  }

  /** Chunks the writer passes within x advances from `from` in a ring of n: it is i's turn after this many. */
  function Turn(from: nat, i: nat, n: nat): int
  {
    if i > from then i - from - 1 else i - from - 1 + n
  }

  /** After x refused pushes the writer stands x chunks further and the chunks it passed are empty. */
  ghost predicate DrainedBy(t: Tab, t': Tab, x: nat)
  {
    && Ring.Sized(t') && t'.cfg == t.cfg && |t'.heads| == |t.heads| && t'.memo.Some?
    && t'.wc == (if t.wc + x < |t.heads| then t.wc + x else t.wc + x - |t.heads|)
    && forall i :: 0 <= i < |t.heads| && Turn(t.wc, i, |t.heads|) < x ==> t'.heads[i].rows == 0
  }

  lemma OneMoreDrained(t: Tab, t': Tab, x: nat)
    requires Ring.Sized(t) && DrainedBy(t, t', x) && x < |t.heads|
    ensures DrainedBy(t, Ring.Advance(t', false).0, x + 1)
  {
    hide StartOf, Ring.Advance;
    AdvanceFrame(t');
    AdvanceKeepsMemo(t');
    NextInRing(t');
  }

  lemma AdvanceKeepsMemo(t: Tab)
    requires Ring.Sized(t) && t.memo.Some?
    ensures Ring.Advance(t, false).0.memo.Some? && |Ring.Advance(t, false).0.heads| == |t.heads|
  {
  }

  lemma {:induction false} WideDrains(ts: seq<Tab>, ops: seq<Op>, j: nat, x: nat)
    requires IsRun(ts, ops) && j + x < |ts| && Ring.Sized(ts[j]) && x <= |ts[j].heads|
    requires ts[j].memo.Some? && |ts[j].cfg.types| > 64
    requires forall m :: j <= m < j + x ==> FreePush(ops[m], ts[j].cfg.types)
    ensures DrainedBy(ts[j], ts[j + x], x) && AllReported(ts, ops, j + x) == AllReported(ts, ops, j)
    decreases x
  {
    hide Legal, Initial, Ring.Advance, TryPush, DrainedBy;
    if x == 0 {
      NoneDrained(ts[j]);
    } else {
      var m := j + x - 1;
      WideDrains(ts, ops, j, x - 1);
      DrainedCfg(ts[j], ts[m], x - 1);
      assert FreePush(ops[m], ts[j].cfg.types);
      TooManyDedupColumns(ts[m], ops[m].row);
      OneMoreDrained(ts[j], ts[m], x - 1);
    }
  }

  lemma NoneDrained(t: Tab)
    requires Ring.Sized(t) && t.memo.Some?
    ensures DrainedBy(t, t, 0)
  {
  }

  lemma DrainedCfg(t: Tab, t': Tab, x: nat)
    requires DrainedBy(t, t', x)
    ensures Ring.Sized(t') && t'.cfg == t.cfg && t'.memo.Some?
  {
  }

  /**
   What that costs over a run: as many unblocked pushes as there are chunks write nothing and leave a
   dedup table of more than 64 columns without a single row, whatever it held.
   */
  lemma WideTableEmpties(ts: seq<Tab>, ops: seq<Op>, j: nat, k: nat)
    requires IsRun(ts, ops) && j <= k < |ts| && Ring.Sized(ts[j]) && k - j == |ts[j].heads|
    requires ts[j].memo.Some? && |ts[j].cfg.types| > 64
    requires forall m :: j <= m < k ==> FreePush(ops[m], ts[j].cfg.types)
    ensures CountRows(ts[k].heads) == 0 && AllReported(ts, ops, k) == AllReported(ts, ops, j)
  {
    hide Legal, Initial, Do, AllReported;
    WideDrains(ts, ops, j, k - j);
    NothingCounted(ts[k].heads);
  }

  lemma {:induction false} NothingCounted(heads: seq<Head>)
    requires forall i :: 0 <= i < |heads| ==> heads[i].rows == 0
    ensures CountRows(heads) == 0
    decreases |heads|
  {
    if heads != [] {
      NothingCounted(heads[1..]);
    }
  }

  /** The rows a push leaves, by its answer; `g'` is the history afterwards. */
  lemma PushEffect(t: Tab, g: Log, row: Row, pinned: bool)
    requires TableOk(t, g)
    ensures var g' := Logs(t, g, PushRow(row, pinned));
            var (t', answer) := TryPush(t, row, pinned);
            && TableOk(t', g')
            && match answer {
                 case Written =>
                   if Accepts(t, row) then Held(t', g') == Held(t, g) + [row]
                   else g.rows[NextChunk(t)] + Held(t', g') == Held(t, g) + [row]
                 case RowTooLarge => g.rows[NextChunk(t)] + Held(t', g') == Held(t, g) && t'.wc == NextChunk(t)
                 case ReadersPinned => Held(t', g') == Held(t, g) && t' == t.(blocked := t.blocked + 1)
                 case SchemaMismatch => Held(t', g') == Held(t, g) && t' == t
               }
  {
    hide TableOk, Append, RowBytes, CellsOf, StartOf, Logged, Dropped, Held, MemoOk;
    Shape(t, g);
    PushKeeps(t, g, row, pinned);
    if Matches(row, t.cfg.types) {
      if Accepts(t, row) {
        AppendStays(t, row);
        HeldGrows(t, Append(t, row), g, row);
      } else if !pinned {
        AdvanceSized(t, false);
        AdvanceKeeps(t, g, false);
        var t', g' := Ring.Advance(t, false).0, Dropped(t, g);
        Shape(t', g');
        HeldDrops(t, t', g);
        if Accepts(t', row) {
          AppendStays(t', row);
          HeldGrows(t', Append(t', row), g', row);
          Regroup(g.rows[NextChunk(t)], Held(t', g'), [row], []);
        }
      } else {
        HeldSame(t, Ring.Advance(t, true).0, g);
      }
    }
  }

  lemma HeldSame(t: Tab, t': Tab, g: Log)
    requires t'.wc == t.wc < |g.rows|
    ensures Held(t', g) == Held(t, g)
  {
  }

  lemma AppendStays(t: Tab, row: Row)
    requires Ring.Sized(t) && Appendable(t, row)
    ensures Append(t, row).wc == t.wc && Append(t, row).cfg == t.cfg
  {
    hide StartOf, RowBytes, CellsOf;
  }

  // ----- rows without cells

  /** An empty row takes its length field and nothing else. */
  lemma EmptyAppend(t: Tab)
    requires Ring.Sized(t) && t.cfg.types == [] && t.memo.None?
    requires CHUNK_HEADER + t.heads[t.wc].used + 4 <= t.cfg.chunkSize
    ensures var t' := Append(t, []);
            && Appendable(t, []) && AppendChecked(t, []) == (t', true) && Ring.Sized(t')
            && t'.cfg == t.cfg && t'.memo.None? && t'.wc == t.wc && |t'.bytes| == |t.bytes|
            && t'.heads[t.wc].used == t.heads[t.wc].used + 4
  {
    hide StartOf;
    assert CellsOf(t, []) == [] && RowBytes([]) == [];
    CommitBytes(t, [], []);
    CommitFrame(t, [], []);
  }

  /** Two chunks of the smallest size, and no column. */
  ghost function Cramped(): Tab
  {
    Tab(Cfg([], MIN_CHUNK, 2, 0, 0, (c, d) => 0), seq(2 * MIN_CHUNK, _ => 0), [InitialHead(0), InitialHead(1)],
        0, 0, 0, 0, false, None)
  }

  lemma CrampedInitial()
    ensures Initial(Cramped())
  {
    var t := Cramped();
    assert StartOf(t.cfg, 2) == 2 * MIN_CHUNK;
  }

  /** A run after which a streamed row without cells publishes an extent beyond its chunk. */
  lemma NoRoomWitness() returns (ts: seq<Tab>, ops: seq<Op>)
    ensures IsRun(ts, ops) && |ts| == 3 && Ring.Sized(ts[2]) && ts[2].cfg.types == []
    ensures !Appendable(ts[2], []) && EndOf(ts[2], ts[2].wc) + 4 <= |ts[2].bytes|
    ensures !Ring.Sized(Stream.Finish(ts[2], Stream.Puts(ts[2], [])).0)
  {
    hide Initial, Append, Stream.Finish, Stream.Puts;
    CrampedInitial();
    var t := Cramped();
    assert StartOf(t.cfg, 2) == 2 * MIN_CHUNK && Ring.Sized(t);
    EmptyAppend(t);
    EmptyAppend(Append(t, []));
    var t2 := Append(Append(t, []), []);
    ts, ops := [t, Append(t, []), t2], [AppendRow([]), AppendRow([])];
    Stream.NoCells(t2);
    Stream.NoCellsTable(t2);
    assert EndOf(t2, t2.wc) == MIN_CHUNK;
  }

  // ----- counters

  /** The operation answered that readers pin the next chunk. */
  predicate Blocked(t: Tab, op: Op)
    requires Ring.Sized(t)
  {
    match op
    case PushRow(row, pinned) => TryPush(t, row, pinned).1 == ReadersPinned
    case AdvanceChunk(pinned) => Ring.Advance(t, pinned).1 == AdvancePinned
    case _ => false
  }

  lemma StepCounters(t: Tab, g: Log, op: Op)
    requires TableOk(t, g) && Legal(t, op)
    ensures Do(t, op).recycled == if Logs(t, g, op).lost != g.lost then (t.recycled + 1) % TWO_32 else t.recycled
    ensures Do(t, op).blocked == if Blocked(t, op) then t.blocked + 1 else t.blocked
  {
    hide TableOk, Append, RowBytes, CellsOf, StartOf, Stream.Puts, Stream.Publish, MemoOk;
    Shape(t, g);
    if op.PushRow? || op.AdvanceChunk? {
      DroppedCounted(t, g);
    }
    match op
    case AppendRow(row) =>
      if AppendChecked(t, row).1 {
        AppendCounters(t, row);
      }
    case PushRow(row, pinned) =>
      AdvanceSized(t, pinned);
      var t' := Ring.Advance(t, pinned).0;
      if TryAppend(t, row).1 {
        AppendCounters(t, row);
      } else if TryAppend(t', row).1 {
        AppendCounters(t', row);
      }
    case StreamRow(row) =>
      Stream.StreamingEqualsBatch(t, row);
      if Appendable(t, row) {
        AppendCounters(t, row);
      }
    case _ =>
  }

  lemma AppendCounters(t: Tab, row: Row)
    requires Ring.Sized(t) && Appendable(t, row)
    ensures Append(t, row).recycled == t.recycled && Append(t, row).blocked == t.blocked
  {
    hide StartOf, RowBytes, CellsOf;
  }

  lemma DroppedCounted(t: Tab, g: Log)
    requires TableOk(t, g)
    ensures |g.rows| == |t.heads| && t.heads[NextChunk(t)].rows == |g.rows[NextChunk(t)]|
    ensures Dropped(t, g).lost != g.lost <==> t.heads[NextChunk(t)].rows > 0
  {
    hide StartOf, Flat, ChunkOk, MemoOk, RingShape;
    HeldRows(t, NextChunk(t), g.rows[NextChunk(t)]);
  }

  /** How many steps up to k overwrote rows, and how many were refused because of readers. */
  ghost function Overwrites(ts: seq<Tab>, ops: seq<Op>, k: nat): nat
    requires IsRun(ts, ops) && k < |ts|
    decreases k
  {
    if k == 0 then 0
    else Overwrites(ts, ops, k - 1) + if LogAt(ts, ops, k).lost != LogAt(ts, ops, k - 1).lost then 1 else 0
  }

  ghost function Refusals(ts: seq<Tab>, ops: seq<Op>, k: nat): nat
    requires IsRun(ts, ops) && k < |ts|
    decreases k
  {
    if k == 0 then 0
    else Refusals(ts, ops, k - 1) + if Blocked(ts[k - 1], ops[k - 1]) then 1 else 0
  }

  /** The header counts, modulo 2^32, the steps that overwrote rows, and all writes refused because of readers. */
  lemma {:induction false} CountersExact(ts: seq<Tab>, ops: seq<Op>, k: nat)
    requires IsRun(ts, ops) && k < |ts|
    ensures ts[k].recycled == Overwrites(ts, ops, k) % TWO_32
    ensures ts[k].blocked == Refusals(ts, ops, k)
    decreases k
  {
    hide TableOk, Do, Legal, Logs, Blocked;
    if k > 0 {
      CountersExact(ts, ops, k - 1);
      StepCounters(ts[k - 1], LogAt(ts, ops, k - 1), ops[k - 1]);
      CountedModulo(Overwrites(ts, ops, k - 1), 1);
    }
  }

  // ----- time ranges

  /** `chunk_ts_range`. */
  function TsRange(t: Tab, i: nat): Option<(int, int)>
    requires i < |t.heads|
  {
    if t.cfg.tsCol == 0 then None
    else if t.heads[i].minTs > t.heads[i].maxTs then None
    else Some((t.heads[i].minTs, t.heads[i].maxTs))
  }

  lemma RangeReads(t: Tab, i: nat, rows: seq<Row>)
    requires i < |t.heads| && RangeExact(t.heads[i], t.cfg.tsCol, rows)
    ensures TsRange(t, i) == None <==> !HasTs(t.cfg.tsCol, rows)
    ensures TsRange(t, i).Some? ==>
              && Attained(TsRange(t, i).value.0, t.cfg.tsCol, rows)
              && Attained(TsRange(t, i).value.1, t.cfg.tsCol, rows)
              && forall k :: 0 <= k < |rows| && RowTs(t.cfg.tsCol, rows[k]).Some? ==>
                   TsRange(t, i).value.0 <= RowTs(t.cfg.tsCol, rows[k]).value <= TsRange(t, i).value.1
  {
    if HasTs(t.cfg.tsCol, rows) {
      var k :| 0 <= k < |rows| && RowTs(t.cfg.tsCol, rows[k]).Some?;
      assert t.heads[i].minTs <= RowTs(t.cfg.tsCol, rows[k]).value <= t.heads[i].maxTs;
    }
  }

  /**
   After any run the reported range of a chunk is the exact minimum and maximum of the timestamps it
   holds, the extremes of i64 included, and is missing exactly when it holds none.
   */
  lemma TsRangeExact(ts: seq<Tab>, ops: seq<Op>, k: nat, i: nat)
    requires IsRun(ts, ops) && k < |ts| && i < |ts[k].heads|
    ensures i < |LogAt(ts, ops, k).rows|
    ensures var t, rows := ts[k], LogAt(ts, ops, k).rows[i];
            && (TsRange(t, i) == None <==> !HasTs(t.cfg.tsCol, rows))
            && (TsRange(t, i).Some? ==>
                  && Attained(TsRange(t, i).value.0, t.cfg.tsCol, rows)
                  && Attained(TsRange(t, i).value.1, t.cfg.tsCol, rows)
                  && forall k :: 0 <= k < |rows| && RowTs(t.cfg.tsCol, rows[k]).Some? ==>
                       TsRange(t, i).value.0 <= RowTs(t.cfg.tsCol, rows[k]).value <= TsRange(t, i).value.1)
            && (0 < t.cfg.tsCol <= |t.cfg.types| && t.cfg.types[t.cfg.tsCol - 1] == DI64 ==>
                  (TsRange(t, i) == None <==> rows == []))
  {
    hide Do, Legal, Initial, LogAt, RingShape, MemoOk, StartOf, Flat, TsRange, Walk, CursorRow;
    hide RangeExact, HasTs, Attained;
    var t, g := ts[k], LogAt(ts, ops, k);
    assert TableOk(t, g);
    assert ChunkOk(t, i, g.rows[i]);
    RangeReads(t, i, g.rows[i]);
    if 0 < t.cfg.tsCol <= |t.cfg.types| && t.cfg.types[t.cfg.tsCol - 1] == DI64 {
      forall r | 0 <= r < |g.rows[i]|
        ensures Matches(g.rows[i][r], t.cfg.types)
      {
        assert RowOk(t, i, Records(t, i).spans[r], g.rows[i][r]);
      }
      MatchingRowsHaveTs(t.cfg, g.rows[i]);
    }
  }

  lemma MatchingRowsHaveTs(cfg: Cfg, rows: seq<Row>)
    requires 0 < cfg.tsCol <= |cfg.types| && cfg.types[cfg.tsCol - 1] == DI64
    requires forall r :: 0 <= r < |rows| ==> Matches(rows[r], cfg.types)
    ensures HasTs(cfg.tsCol, rows) <==> rows != []
  {
    if rows != [] {
      assert Matches(rows[0], cfg.types);
      assert RowTs(cfg.tsCol, rows[0]).Some?;
    }
  }
}
