/** Appends and advances keep the table invariant and move the history as promised. */
module RingSteps {
  import opened Bytes
  import opened Chunks
  import opened Schema
  import opened RowCodec
  import opened Dedup
  import opened Ring
  import opened RingInv

  // ----- history

  lemma {:induction false} FlatAppend(a: seq<seq<Row>>, b: seq<seq<Row>>)
    ensures Flat(a + b) == Flat(a) + Flat(b)
    decreases |a|
  {
    if a == [] {
      assert a + b == b;
    } else {
      assert (a + b)[1..] == a[1..] + b;
      FlatAppend(a[1..], b);
    }
  }

  lemma FlatOne(rows: seq<Row>)
    ensures Flat([rows]) == rows
  {
    assert [rows][1..] == [];
    assert Flat([rows]) == rows + [];
  }

  lemma FlatLast(rows: seq<seq<Row>>, last: seq<Row>)
    ensures Flat(rows + [last]) == Flat(rows) + last
  {
    FlatAppend(rows, [last]);
    FlatOne(last);
  }

  function Logged(t: Tab, g: Log, row: Row): Log
    requires t.wc < |g.rows|
  {
    Log(g.rows[t.wc := g.rows[t.wc] + [row]], g.lost, g.all + [row])
  }

  /** One more row at the end of the write chunk is one more row at the end of the history. */
  lemma LogGrows(t: Tab, g: Log, row: Row)
    requires LogOk(t, g)
    ensures var g' := Logged(t, g, row);
            |g'.rows| == |g.rows| && g'.all == g'.lost + Flat(g'.rows[t.wc + 1..]) + Flat(g'.rows[..t.wc + 1])
  {
    var g', w := Logged(t, g, row), t.wc;
    assert g'.rows[w + 1..] == g.rows[w + 1..];
    assert g.rows[..w + 1] == g.rows[..w] + [g.rows[w]];
    assert g'.rows[..w + 1] == g.rows[..w] + [g.rows[w] + [row]];
    FlatLast(g.rows[..w], g.rows[w]);
    FlatLast(g.rows[..w], g.rows[w] + [row]);
    assert Flat(g'.rows[..w + 1]) == Flat(g.rows[..w + 1]) + [row];
  }

  // ----- dedup memory

  /** A looked-up cell refers to an equal value in the committed bytes. */
  lemma LookedUpCellsGood(t: Tab, row: Row)
    requires Ring.Sized(t) && MemoOk(t)
    ensures CellsGood(t, CellsOf(t, row))
    ensures CellValues(CellsOf(t, row)) == row
    ensures !t.dedup ==> CellsOf(t, row) == AllInline(row)
  {
    hide ResolveRef, StartOf;
    var cells := CellsOf(t, row);
    if t.memo.Some? {
      forall k | 0 <= k < |cells| && cells[k].Ref?
        ensures t.dedup && IsVar(TypeOf(cells[k].v))
        ensures ResolveRef(HereEnv(t), cells[k].off) == Some(Payload(cells[k].v))
      {
        LookedUpCell(t, k, row[k]);
      }
    }
  }

  lemma LookedUpCell(t: Tab, k: nat, v: Value)
    requires Ring.Sized(t) && MemoOk(t) && t.memo.Some? && IsVar(TypeOf(v))
    requires Lookup(t.cfg.hash, t.memo.value, k, Payload(v), t.bytes, StartOf(t.cfg, t.wc)).Some?
    ensures var off := Lookup(t.cfg.hash, t.memo.value, k, Payload(v), t.bytes, StartOf(t.cfg, t.wc)).value;
            ResolveRef(HereEnv(t), off) == Some(Payload(v))
  {
    hide Read32, StartOf;
    var off := Lookup(t.cfg.hash, t.memo.value, k, Payload(v), t.bytes, StartOf(t.cfg, t.wc)).value;
    assert ResolveRef(HereEnv(t), off).Some?;
  }

  /** Every inline value of a record that lies in the chunk can be referred to. */
  lemma {:induction false} EntriesResolve(e: Env, h: Hash, minLen: nat, cells: seq<Stored>, col: nat, off: nat, k: nat)
    requires RowCodec.Sized(e) && CHUNK_HEADER <= off && off + |RowBytes(cells)| <= e.size
    requires e.buf[e.start + off..e.start + off + |RowBytes(cells)|] == RowBytes(cells)
    requires k < |Entries(h, minLen, cells, col, off)|
    ensures ResolveRef(e, Entries(h, minLen, cells, col, off)[k].1).Some?
    decreases |cells|
  {
    hide CellBytes, ResolveRef, CellEntry;
    var n, m := |CellBytes(cells[0])|, |RowBytes(cells)|;
    var at := e.start + off;
    SliceOfSlice(e.buf, at, at + m, 0, n);
    SliceOfSlice(e.buf, at, at + m, n, m);
    assert RowBytes(cells)[0..n] == CellBytes(cells[0]) && RowBytes(cells)[n..m] == RowBytes(cells[1..]);
    var first := CellEntry(h, minLen, col, cells[0], off);
    if k < |first| {
      FirstResolves(e, h, minLen, cells[0], col, off);
    } else {
      EntriesResolve(e, h, minLen, cells[1..], col + 1, off + n, k - |first|);
    }
  }

  lemma FirstResolves(e: Env, h: Hash, minLen: nat, c: Stored, col: nat, off: nat)
    requires RowCodec.Sized(e) && CHUNK_HEADER <= off && off + |CellBytes(c)| <= e.size
    requires e.buf[e.start + off..e.start + off + |CellBytes(c)|] == CellBytes(c)
    requires CellEntry(h, minLen, col, c, off) != []
    ensures |CellEntry(h, minLen, col, c, off)| == 1 && CellEntry(h, minLen, col, c, off)[0].1 == off
    ensures c.Inline? && IsVar(TypeOf(c.v)) && ResolveRef(e, off) == Some(Payload(c.v))
  {
    hide Read32, Le4;
    var d := Payload(c.v);
    var at := e.start + off;
    SliceOfSlice(e.buf, at, at + 4 + |d|, 0, 4);
    assert LengthPrefixed(d)[0..4] == Le4(|d|);
    Read32Back(|d|);
  }

  /** The memory stays inside the committed bytes. */
  lemma MemoGrows(t: Tab, cells: seq<Stored>, row: Row)
    requires Ring.Sized(t) && Fits(t, |RowBytes(cells)|) && MemoOk(t)
    ensures var t' := Commit(t, cells, row).(memo := MemoAfter(t, cells)); Ring.Sized(t') && MemoOk(t')
  {
    hide Commit, StartOf, RowBytes, Entries, Remember, Le4, Agree;
    var t' := Commit(t, cells, row).(memo := MemoAfter(t, cells));
    CommitBytes(t, cells, row);
    CommitFrame(t, cells, row);
    if t.memo.Some? {
      var m := t.memo.value;
      var first := CHUNK_HEADER + t.heads[t.wc].used + 4;
      var entries := Entries(t.cfg.hash, m.minLen, cells, 0, first);
      forall key | key in t'.memo.value.seen
        ensures ResolveRef(HereEnv(t'), t'.memo.value.seen[key]).Some?
      {
        assert t'.memo.value.seen == Remember(m.seen, entries);
        RememberFrom(m.seen, entries, key);
        EntryStays(t, t', cells, key, t'.memo.value.seen[key]);
      }
    }
  }

  lemma EntryStays(t: Tab, t': Tab, cells: seq<Stored>, key: nat, off: nat)
    requires Ring.Sized(t) && Ring.Sized(t') && MemoOk(t) && t.memo.Some? && t'.cfg == t.cfg && t'.wc == t.wc
    requires Fits(t, |RowBytes(cells)|) && EndOf(t', t.wc) == EndOf(t, t.wc) + 4 + |RowBytes(cells)|
    requires EndOf(t', t.wc) <= |t'.bytes| && t'.bytes[EndOf(t, t.wc) + 4..EndOf(t', t.wc)] == RowBytes(cells)
    requires Agree(t.bytes, t'.bytes, 0, EndOf(t, t.wc))
    requires (key in t.memo.value.seen && t.memo.value.seen[key] == off)
             || (key, off) in Entries(t.cfg.hash, t.memo.value.minLen, cells, 0, CHUNK_HEADER + t.heads[t.wc].used + 4)
    ensures ResolveRef(HereEnv(t'), off).Some?
  {
    hide StartOf, RowBytes, Entries, Agree, ResolveRef;
    ChunkInside(t, t.wc);
    ChunkInside(t', t.wc);
    var first := CHUNK_HEADER + t.heads[t.wc].used + 4;
    var entries := Entries(t.cfg.hash, t.memo.value.minLen, cells, 0, first);
    if key in t.memo.value.seen && t.memo.value.seen[key] == off {
      AgreeSub(t.bytes, t'.bytes, 0, EndOf(t, t.wc), StartOf(t.cfg, t.wc) + CHUNK_HEADER, EndOf(t, t.wc));
      RefStable(HereEnv(t), HereEnv(t'), off);
    } else {
      var k :| 0 <= k < |entries| && entries[k] == (key, off);
      EntriesResolve(HereEnv(t'), t.cfg.hash, t.memo.value.minLen, cells, 0, first, k);
    }
  }

  // ----- append

  lemma OtherChunk(t: Tab, t': Tab, cells: seq<Stored>, row: Row, j: nat, rows: seq<Row>)
    requires Ring.Sized(t) && Fits(t, |RowBytes(cells)|) && t' == Commit(t, cells, row).(memo := t'.memo)
    requires j < |t.heads| && j != t.wc && ChunkOk(t, j, rows)
    ensures Ring.Sized(t') && ChunkOk(t', j, rows)
  {
    hide Commit, StartOf, RowBytes, Le4, Agree, ChunkOk;
    CommitBytes(t, cells, row);
    CommitFrame(t, cells, row);
    ChunkInside(t, j);
    ChunkInside(t, t.wc);
    if j < t.wc {
      ChunksApart(t.cfg, j, t.wc);
      AgreeSub(t.bytes, t'.bytes, 0, EndOf(t, t.wc), StartOf(t.cfg, j), EndOf(t, j));
    } else {
      ChunksApart(t.cfg, t.wc, j);
      AgreeSub(t.bytes, t'.bytes, EndOf(t, t.wc) + 4 + |RowBytes(cells)|, |t.bytes|, StartOf(t.cfg, j), EndOf(t, j));
    }
    ChunkKept(t, t', j, rows);
  }

  /** A committed row: the invariant is kept and the history grows by exactly that row. */
  lemma CommitKeeps(t: Tab, g: Log, cells: seq<Stored>, row: Row)
    requires TableOk(t, g) && Fits(t, |RowBytes(cells)|) && CellsGood(t, cells)
    requires CellValues(cells) == row && Matches(row, t.cfg.types) && (!t.dedup ==> cells == AllInline(row))
    ensures TableOk(Commit(t, cells, row).(memo := MemoAfter(t, cells)), Logged(t, g, row))
  {
    hide Commit, StartOf, RowBytes, Le4, ChunkOk, MemoOk, MemoAfter, CellsGood, Flat;
    var t', g' := Commit(t, cells, row).(memo := MemoAfter(t, cells)), Logged(t, g, row);
    CommitFrame(t, cells, row);
    CommitBytes(t, cells, row);
    MemoGrows(t, cells, row);
    LogGrows(t, g, row);
    WrittenChunk(t, cells, row, g.rows[t.wc]);
    forall j | 0 <= j < |t.heads|
      ensures ChunkOk(t', j, g'.rows[j])
    {
      if j == t.wc {
        MemoIrrelevant(Commit(t, cells, row), t', j, g'.rows[j]);
      } else {
        OtherChunk(t, t', cells, row, j, g.rows[j]);
      }
    }
  }

  lemma MemoIrrelevant(t: Tab, t': Tab, i: nat, rows: seq<Row>)
    requires Ring.Sized(t) && t' == t.(memo := t'.memo) && i < |t.heads| && ChunkOk(t, i, rows)
    ensures Ring.Sized(t') && ChunkOk(t', i, rows)
  {
    ChunkInside(t, i);
    ChunkKept(t, t', i, rows);
  }

  lemma AppendKeeps(t: Tab, g: Log, row: Row)
    requires TableOk(t, g) && Matches(row, t.cfg.types) && Appendable(t, row)
    ensures TableOk(Append(t, row), Logged(t, g, row))
  {
    hide RowBytes, ChunkOk, RingShape, LogOk, Commit;
    LookedUpCellsGood(t, row);
    CommitKeeps(t, g, CellsOf(t, row), row);
  }

  // ----- advance

  function Dropped(t: Tab, g: Log): Log
    requires Ring.Sized(t) && |g.rows| == |t.heads|
  {
    Log(g.rows[NextChunk(t) := []], g.lost + g.rows[NextChunk(t)], g.all)
  }

  lemma DropMiddle(rows: seq<seq<Row>>, w: nat)
    requires 0 < w < |rows|
    ensures rows[w] + Flat(rows[w + 1..]) == Flat(rows[w..])
    ensures Flat(rows[w := []][..w + 1]) == Flat(rows[..w])
    ensures rows[w := []][w + 1..] == rows[w + 1..]
  {
    hide Flat;
    assert rows[w..] == [rows[w]] + rows[w + 1..];
    FlatAppend([rows[w]], rows[w + 1..]);
    FlatOne(rows[w]);
    assert rows[w := []][..w + 1] == rows[..w] + [[]];
    FlatLast(rows[..w], []);
  }

  lemma DropFirst(rows: seq<seq<Row>>)
    requires |rows| > 0
    ensures rows[0] + Flat(rows[1..]) == Flat(rows)
    ensures Flat(rows[0 := []][..1]) == [] && rows[0 := []][1..] == rows[1..]
  {
    hide Flat;
    assert rows == [rows[0]] + rows[1..];
    FlatAppend([rows[0]], rows[1..]);
    FlatOne(rows[0]);
    assert rows[0 := []][..1] == [[]];
    FlatOne([]);
  }

  lemma Regroup(a: seq<Row>, b: seq<Row>, c: seq<Row>, d: seq<Row>)
    ensures (a + b) + c + d == a + (b + c) + d
    ensures (a + b) + c == a + (b + c)
    ensures a + [] + b == a + b && a + b + [] == a + b
  {
  }

  lemma LogDropsNext(t: Tab, g: Log)
    requires Ring.Sized(t) && LogOk(t, g) && t.wc + 1 < |g.rows|
    ensures var g', w := Dropped(t, g), t.wc + 1;
            NextChunk(t) == w && g'.all == g'.lost + Flat(g'.rows[w + 1..]) + Flat(g'.rows[..w + 1])
  {
    hide Flat, StartOf;
    var w := t.wc + 1;
    assert NextChunk(t) == w;
    DropMiddle(g.rows, w);
    Regroup(g.lost, g.rows[w], Flat(g.rows[w + 1..]), Flat(g.rows[..w]));
  }

  lemma LogDropsWrapped(t: Tab, g: Log)
    requires Ring.Sized(t) && LogOk(t, g) && t.wc + 1 == |g.rows|
    ensures var g' := Dropped(t, g);
            NextChunk(t) == 0 && g'.all == g'.lost + Flat(g'.rows[1..]) + Flat(g'.rows[..1])
  {
    hide StartOf;
    assert NextChunk(t) == 0;
    assert g.rows[t.wc + 1..] == [] && g.rows[..t.wc + 1] == g.rows;
    assert Flat(g.rows[t.wc + 1..]) == [];
    DropFirst(g.rows);
    Regroup(g.lost, g.rows[0], Flat(g.rows[1..]), []);
    Regroup(g.lost, Flat(g.rows), [], []);
    Regroup(g.lost + g.rows[0], Flat(g.rows[1..]), [], []);
  }

  /** Dropping the oldest chunk moves its rows, and only them, to the overwritten ones. */
  lemma LogDrops(t: Tab, g: Log)
    requires Ring.Sized(t) && LogOk(t, g)
    ensures var g', w := Dropped(t, g), NextChunk(t);
            |g'.rows| == |g.rows| && w < |g.rows| && g'.all == g'.lost + Flat(g'.rows[w + 1..]) + Flat(g'.rows[..w + 1])
  {
    hide Flat, StartOf;
    if t.wc + 1 < |g.rows| {
      LogDropsNext(t, g);
    } else {
      LogDropsWrapped(t, g);
    }
  }

  lemma {:induction false} FreshWalk(t: Tab, i: nat)
    requires Ring.Sized(t) && i < |t.heads| && t.heads[i].used == 0
    ensures Records(t, i) == Walked([], EndOf(t, i))
  {
  }

  lemma RecycledChunk(t: Tab, i: nat)
    requires Ring.Sized(t) && i < |t.heads| && t.heads[i].used == 0 && t.heads[i].rows == 0
    requires t.heads[i].gen > 0 && t.heads[i].state != Empty
    requires t.heads[i].minTs == TS_MIN_INIT && t.heads[i].maxTs == TS_MAX_INIT
    ensures ChunkOk(t, i, [])
  {
    FreshWalk(t, i);
  }

  lemma AdvanceFrame(t: Tab)
    requires Ring.Sized(t)
    ensures var t' := Advance(t, false).0;
            && Ring.Sized(t') && t'.wc == NextChunk(t) && t'.cfg == t.cfg && t'.bytes == t.bytes
            && |t'.heads| == |t.heads|
            && t'.heads[t'.wc] == Recycled(t.heads[t'.wc])
            && (forall j :: 0 <= j < |t.heads| && j != t'.wc ==>
                  t'.heads[j] == if j == t.wc then t.heads[j].(state := Sealed) else t.heads[j])
  {
    hide StartOf;
    AdvanceSized(t, false);
  }

  lemma LapsNext(heads: seq<Head>, heads': seq<Head>, wc: nat, g: nat)
    requires Laps(heads, wc, g) && wc + 1 < |heads| == |heads'|
    requires heads' == heads[wc := heads[wc].(state := Sealed)][wc + 1 := Recycled(heads[wc + 1])]
    ensures Laps(heads', wc + 1, g)
  {
  }

  lemma LapsWrapped(heads: seq<Head>, heads': seq<Head>, wc: nat, g: nat)
    requires Laps(heads, wc, g) && wc + 1 == |heads| == |heads'|
    requires heads' == heads[wc := heads[wc].(state := Sealed)][0 := Recycled(heads[0])]
    ensures Laps(heads', 0, g + 1)
  {
  }

  lemma NextInRing(t: Tab)
    requires Ring.Sized(t)
    ensures NextChunk(t) == if t.wc + 1 == |t.heads| then 0 else t.wc + 1
  {
  }

  lemma AdvancedHeads(t: Tab)
    requires Ring.Sized(t)
    ensures var t', next := Advance(t, false).0, NextChunk(t);
            && t'.wc == next < |t.heads|
            && t'.heads == t.heads[t.wc := t.heads[t.wc].(state := Sealed)][next := Recycled(t.heads[next])]
  {
    hide StartOf, Recycled;
  }

  lemma AdvanceShape(t: Tab)
    requires Ring.Sized(t) && RingShape(t)
    ensures Ring.Sized(Advance(t, false).0) && RingShape(Advance(t, false).0)
  {
    hide StartOf, Advance, NextChunk;
    AdvanceSized(t, false);
    AdvancedHeads(t);
    NextInRing(t);
    var t', g := Advance(t, false).0, t.heads[t.wc].gen;
    if t.wc + 1 == |t.heads| {
      LapsWrapped(t.heads, t'.heads, t.wc, g);
    } else {
      LapsNext(t.heads, t'.heads, t.wc, g);
    }
  }

  lemma AdvancedChunk(t: Tab, t': Tab, j: nat, rows: seq<Row>)
    requires Ring.Sized(t) && Ring.Sized(t') && j < |t.heads| == |t'.heads| && t'.cfg == t.cfg && t'.bytes == t.bytes
    requires t'.dedup == t.dedup
    requires t'.heads[j] == t.heads[j] || (t.heads[j].state == Writing && t'.heads[j] == t.heads[j].(state := Sealed))
    requires ChunkOk(t, j, rows)
    ensures ChunkOk(t', j, rows)
  {
    hide StartOf, ChunkOk;
    ChunkInside(t, j);
    ChunkKept(t, t', j, rows);
  }

  lemma DropKeepsChunk(t: Tab, g: Log, j: nat)
    requires TableOk(t, g) && j < |t.heads|
    ensures Ring.Sized(Advance(t, false).0) && j < |Dropped(t, g).rows|
    ensures ChunkOk(Advance(t, false).0, j, Dropped(t, g).rows[j])
  {
    hide StartOf, Flat, ChunkOk, RingShape;
    var t', g' := Advance(t, false).0, Dropped(t, g);
    AdvanceFrame(t);
    if j != t'.wc {
      WritingIsCurrent(t);
      AdvancedChunk(t, t', j, g.rows[j]);
    } else {
      RecycledChunk(t', j);
    }
  }

  lemma CountedModulo(a: nat, b: nat)
    ensures (a % TWO_32 + b) % TWO_32 == (a + b) % TWO_32
  {
  }

  lemma DropKeepsMemo(t: Tab)
    requires Ring.Sized(t) && MemoOk(t)
    ensures Ring.Sized(Advance(t, false).0) && MemoOk(Advance(t, false).0)
  {
    hide StartOf, ResolveRef;
    AdvanceSized(t, false);
  }

  lemma DropKeepsLog(t: Tab, g: Log)
    requires TableOk(t, g)
    ensures LogOk(Advance(t, false).0, Dropped(t, g)) && |g.rows| == |t.heads| == |Dropped(t, g).rows|
  {
    hide StartOf, Flat, ChunkOk, RingShape, MemoOk;
    LogDrops(t, g);
    HeldRows(t, NextChunk(t), g.rows[NextChunk(t)]);
    CountedModulo(|g.lost|, t.heads[NextChunk(t)].rows);
  }

  lemma DropKeeps(t: Tab, g: Log)
    requires TableOk(t, g)
    ensures TableOk(Advance(t, false).0, Dropped(t, g))
  {
    hide StartOf, LogOk, MemoOk, ChunkOk, RingShape, Advance, Dropped;
    AdvanceShape(t);
    DropKeepsMemo(t);
    DropKeepsLog(t, g);
    AdvanceFrame(t);
    forall j | 0 <= j < |t.heads|
      ensures ChunkOk(Advance(t, false).0, j, Dropped(t, g).rows[j])
    {
      DropKeepsChunk(t, g, j);
    }
  }

  lemma WritingIsCurrent(t: Tab)
    requires Ring.Sized(t) && RingShape(t)
    ensures t.heads[t.wc].state == Writing
  {
  }

  lemma HeldRows(t: Tab, i: nat, rows: seq<Row>)
    requires Ring.Sized(t) && i < |t.heads| && ChunkOk(t, i, rows)
    ensures t.heads[i].rows == |rows|
  {
  }

  lemma PinnedKeeps(t: Tab, g: Log)
    requires TableOk(t, g)
    ensures TableOk(Advance(t, true).0, g)
  {
    hide StartOf, Flat, ChunkOk;
    var t' := Advance(t, true).0;
    forall j | 0 <= j < |t.heads|
      ensures ChunkOk(t', j, g.rows[j])
    {
      AdvancedChunk(t, t', j, g.rows[j]);
    }
  }

  /** Advancing keeps the invariant; a pinned target changes no row, a free one drops the oldest chunk. */
  lemma AdvanceKeeps(t: Tab, g: Log, pinned: bool)
    requires TableOk(t, g)
    ensures TableOk(Advance(t, pinned).0, if pinned then g else Dropped(t, g))
  {
    hide TableOk;
    if pinned {
      PinnedKeeps(t, g);
    } else {
      DropKeeps(t, g);
    }
  }
}
