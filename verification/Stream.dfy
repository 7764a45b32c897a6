/** The streaming row writer as a value, and its equality with the batch writer. */
module Stream {
  import opened Bytes
  import opened Chunks
  import opened Schema
  import opened RowCodec
  import opened Dedup
  import opened Ring
  import opened RingInv

  /** An open row: `pending` holds the entries staged for the dedup memory. */
  datatype Pen = Pen(bytes: seq<Byte>, pos: nat, overflow: bool, col: nat, ts: Option<I64>, pending: seq<Entry>)

  function ChunkEnd(t: Tab): nat
  {
    StartOf(t.cfg, t.wc) + t.cfg.chunkSize
  }

  predicate PenOk(t: Tab, p: Pen)
  {
    Ring.Sized(t) && |p.bytes| == |t.bytes| && EndOf(t, t.wc) <= p.pos
  }

  /** `make_row_writer`; the space of the row length is skipped without a look at the chunk end. */
  function Open(t: Tab): (p: Pen)
    requires Ring.Sized(t)
    ensures PenOk(t, p) && EndOf(t, t.wc) + 4 <= p.pos
  {
    Pen(t.bytes, EndOf(t, t.wc) + 4, false, 0, None, [])
  }

  /** The table as a new row finds it: `begin_row` discards whatever is still staged. */
  function Discarded(t: Tab): Tab
  {
    t.(memo := if t.memo.Some? then Some(t.memo.value.(pending := [])) else None)
  }

  /** How the open row stores a cell; an overflowed row no longer looks anything up. */
  function PenCell(t: Tab, p: Pen, v: Value): Stored
  {
    if t.memo.None? || p.overflow then Inline(v)
    else CellFor(t.cfg.hash, t.memo.value, p.col, v, p.bytes, StartOf(t.cfg, t.wc))
  }

  function PenEntry(t: Tab, p: Pen, c: Stored): seq<Entry>
    requires StartOf(t.cfg, t.wc) <= p.pos
  {
    if t.memo.None? then []
    else CellEntry(t.cfg.hash, t.memo.value.minLen, p.col, c, p.pos - StartOf(t.cfg, t.wc))
  }

  /** One `put_*` call. */
  function Put(t: Tab, p: Pen, v: Value): (p': Pen)
    requires PenOk(t, p)
    ensures PenOk(t, p') && p.pos <= p'.pos
  {
    ChunkInside(t, t.wc);
    var c := PenCell(t, p, v);
    var n := |CellBytes(c)|;
    var ts := if v.I64V? && t.cfg.tsCol == p.col + 1 then Some(v.i64) else p.ts;
    if !p.overflow && p.pos + n <= ChunkEnd(t) then
      Pen(Splice(p.bytes, p.pos, CellBytes(c)), p.pos + n, false, p.col + 1, ts, p.pending + PenEntry(t, p, c))
    else p.(overflow := true, col := p.col + 1, ts := ts)
  }

  function Puts(t: Tab, row: Row): (p: Pen)
    requires Ring.Sized(t)
    ensures PenOk(t, p) && EndOf(t, t.wc) + 4 <= p.pos
    decreases |row|
  {
    if row == [] then Open(t) else Put(t, Puts(t, row[..|row| - 1]), row[|row| - 1])
  }

  /** An open row that ends without being published: `rollback_row` after an overflow or on drop. */
  function Abandon(t: Tab, p: Pen): Tab
  {
    Discarded(t).(bytes := p.bytes)
  }

  /** The publishing half of `finish`. */
  function Publish(t: Tab, p: Pen): Tab
    requires PenOk(t, p) && EndOf(t, t.wc) + 4 <= |t.bytes| && EndOf(t, t.wc) + 4 <= p.pos
  {
    var at := EndOf(t, t.wc);
    var h := t.heads[t.wc];
    var h' := Noted(h, p.ts).(used := p.pos - StartOf(t.cfg, t.wc) - CHUNK_HEADER, rows := h.rows + 1);
    t.(bytes := Splice(p.bytes, at, Le4((p.pos - at - 4) % TWO_32)),
       heads := t.heads[t.wc := h'],
       memo := match t.memo
               case None => None
               case Some(m) => Some(m.(seen := Remember(m.seen, p.pending), pending := [])))
  }

  /** `finish`: true exactly when the row did not overflow. */
  function Finish(t: Tab, p: Pen): (Tab, bool)
    requires PenOk(t, p) && (p.overflow || EndOf(t, t.wc) + 4 <= |t.bytes|) && EndOf(t, t.wc) + 4 <= p.pos
  {
    if p.overflow then (Abandon(t, p), false) else (Publish(t, p), true)
  }

  /** A row with a cell either overflows or has room for its length field. */
  lemma RoomForLength(t: Tab, row: Row)
    requires Ring.Sized(t) && row != []
    ensures Puts(t, row).overflow || EndOf(t, t.wc) + 4 <= |t.bytes|
  {
    ChunkInside(t, t.wc);
  }

  // ----- appending at the right end

  lemma {:induction false} RowBytesSnoc(cells: seq<Stored>, c: Stored)
    ensures RowBytes(cells + [c]) == RowBytes(cells) + CellBytes(c)
    decreases |cells|
  {
    hide CellBytes;
    if cells == [] {
      assert cells + [c] == [c] && [c][1..] == [];
      assert RowBytes([c]) == CellBytes(c) + RowBytes([]);
    } else {
      assert (cells + [c])[1..] == cells[1..] + [c];
      RowBytesSnoc(cells[1..], c);
      assert CellBytes(cells[0]) + (RowBytes(cells[1..]) + CellBytes(c)) == RowBytes(cells) + CellBytes(c);
    }
  }

  lemma {:induction false} EntriesSnoc(h: Hash, minLen: nat, cells: seq<Stored>, c: Stored, col: nat, off: nat)
    ensures Entries(h, minLen, cells + [c], col, off)
            == Entries(h, minLen, cells, col, off) + CellEntry(h, minLen, col + |cells|, c, off + |RowBytes(cells)|)
    decreases |cells|
  {
    hide CellBytes, CellEntry;
    if cells == [] {
      assert cells + [c] == [c] && [c][1..] == [];
    } else {
      var n := |CellBytes(cells[0])|;
      assert (cells + [c])[1..] == cells[1..] + [c];
      EntriesSnoc(h, minLen, cells[1..], c, col + 1, off + n);
      assert off + n + |RowBytes(cells[1..])| == off + |RowBytes(cells)|;
    }
  }

  // ----- what an open row has written so far

  /** Bytes outside the free part of the write chunk, after the length field, are as they were. */
  ghost predicate OnlyFree(t: Tab, b: seq<Byte>)
    requires Ring.Sized(t)
  {
    |b| == |t.bytes| && forall k :: 0 <= k < |b| && !(EndOf(t, t.wc) <= k < ChunkEnd(t)) ==> b[k] == t.bytes[k]
  }

  /** A value that resolves in the committed bytes is found alike after writes to the free part. */
  lemma CommittedSettled(t: Tab, b: seq<Byte>, off: nat)
    requires Ring.Sized(t) && OnlyFree(t, b) && ResolveRef(HereEnv(t), off).Some?
    ensures var at := StartOf(t.cfg, t.wc) + off;
            && at + 4 <= |b| && b[at..at + 4] == t.bytes[at..at + 4]
            && var end := at + 4 + Read32(t.bytes[at..at + 4]);
               end <= |b| && b[at + 4..end] == t.bytes[at + 4..end]
  {
    hide Read32, StartOf;
    ChunkInside(t, t.wc);
    var at := StartOf(t.cfg, t.wc) + off;
    var end := at + 4 + Read32(t.bytes[at..at + 4]);
    assert end <= EndOf(t, t.wc);
    assert b[at..at + 4] == t.bytes[at..at + 4];
    assert b[at + 4..end] == t.bytes[at + 4..end];
  }

  /** Nothing that is put, into an open row or after its end, reaches beyond the free bytes of the write chunk. */
  lemma PutStaysFree(t: Tab, p: Pen, v: Value)
    requires PenOk(t, p) && OnlyFree(t, p.bytes)
    ensures OnlyFree(t, Put(t, p, v).bytes)
  {
    hide StartOf, CellBytes, PenCell;
    ChunkInside(t, t.wc);
  }

  /** A lookup made in the middle of a row finds what the same lookup finds at its start. */
  lemma LookupSettled(t: Tab, b: seq<Byte>, col: nat, v: Value)
    requires Ring.Sized(t) && MemoOk(t) && t.memo.Some? && OnlyFree(t, b)
    ensures CellFor(t.cfg.hash, t.memo.value, col, v, b, StartOf(t.cfg, t.wc))
            == CellFor(t.cfg.hash, t.memo.value, col, v, t.bytes, StartOf(t.cfg, t.wc))
  {
    hide Read32, StartOf, ResolveRef;
    if IsVar(TypeOf(v)) {
      var key := t.cfg.hash(col, Payload(v));
      if key in t.memo.value.seen {
        CommittedSettled(t, b, t.memo.value.seen[key]);
      }
    }
  }

  /** The cells a row is stored as, column by column. */
  lemma CellsPrefix(t: Tab, row: Row, v: Value)
    ensures CellsOf(t, row + [v]) == CellsOf(t, row) + [CellsOf(t, row + [v])[|row|]]
    ensures CellsOf(t, row + [v])[|row|]
            == if t.memo.None? then Inline(v)
               else CellFor(t.cfg.hash, t.memo.value, |row|, v, t.bytes, StartOf(t.cfg, t.wc))
  {
    hide CellFor;
    var a, b := CellsOf(t, row + [v]), CellsOf(t, row);
    assert forall k :: 0 <= k < |row| ==> (row + [v])[k] == row[k];
    assert a[..|row|] == b;
  }

  function StagedFor(t: Tab, cells: seq<Stored>): seq<Entry>
    requires Ring.Sized(t)
  {
    if t.memo.None? then []
    else Entries(t.cfg.hash, t.memo.value.minLen, cells, 0, CHUNK_HEADER + t.heads[t.wc].used + 4)
  }

  /** State of an open row after the cells of `row`: either all of them are in place, or it overflowed. */
  ghost predicate Written(t: Tab, p: Pen, row: Row)
    requires Ring.Sized(t)
  {
    var cells := CellsOf(t, row);
    var at := EndOf(t, t.wc) + 4;
    && p.col == |row| && p.ts == RowTs(t.cfg.tsCol, row) && OnlyFree(t, p.bytes)
    && (p.overflow <==> row != [] && !Appendable(t, row))
    && (!p.overflow && row != [] ==>
          && at + |RowBytes(cells)| <= |t.bytes| && p.bytes == Splice(t.bytes, at, RowBytes(cells)))
    && (!p.overflow ==> p.pos == at + |RowBytes(cells)| && p.pending == StagedFor(t, cells))
    && (row == [] ==> p.bytes == t.bytes)
  }

  lemma OpenWritten(t: Tab)
    requires Ring.Sized(t)
    ensures Written(t, Open(t), [])
  {
    assert CellsOf(t, []) == [];
  }

  lemma SpliceMore(t: Tab, b: seq<Byte>, at: nat, a: seq<Byte>, c: seq<Byte>)
    requires Ring.Sized(t) && EndOf(t, t.wc) <= at && at + |a| + |c| <= ChunkEnd(t) <= |t.bytes|
    requires b == Splice(t.bytes, at, a)
    ensures Splice(b, at + |a|, c) == Splice(t.bytes, at, a + c)
    ensures OnlyFree(t, Splice(b, at + |a|, c))
  {
    hide StartOf;
    SpliceTwice(t.bytes, at, a, c);
  }

  lemma PutTs(t: Tab, p: Pen, row: Row, v: Value)
    requires PenOk(t, p) && p.col == |row| && p.ts == RowTs(t.cfg.tsCol, row)
    ensures Put(t, p, v).ts == RowTs(t.cfg.tsCol, row + [v]) && Put(t, p, v).col == |row + [v]|
  {
    hide StartOf, CellBytes, PenCell;
    var i := t.cfg.tsCol - 1;
    if 0 <= i < |row| {
      assert (row + [v])[i] == row[i];
    }
  }

  /** The cell put next is the one the batch writer stores in that column, and stages the same entry. */
  lemma NextCell(t: Tab, p: Pen, row: Row, v: Value)
    requires Ring.Sized(t) && MemoOk(t) && PenOk(t, p) && Written(t, p, row) && !p.overflow
    ensures var c, cells := PenCell(t, p, v), CellsOf(t, row + [v]);
            && |RowBytes(cells)| == |RowBytes(CellsOf(t, row))| + |CellBytes(c)|
            && RowBytes(cells) == RowBytes(CellsOf(t, row)) + CellBytes(c)
            && StagedFor(t, cells) == p.pending + PenEntry(t, p, c)
  {
    hide StartOf, CellBytes, RowBytes, Entries, CellFor, CellEntry, OnlyFree, Splice, MemoOk;
    var cells, c := CellsOf(t, row), PenCell(t, p, v);
    if t.memo.Some? {
      LookupSettled(t, p.bytes, |row|, v);
      EntriesSnoc(t.cfg.hash, t.memo.value.minLen, cells, c, 0, CHUNK_HEADER + t.heads[t.wc].used + 4);
    }
    CellsPrefix(t, row, v);
    assert CellsOf(t, row + [v]) == cells + [c];
    RowBytesSnoc(cells, c);
  }

  /** A cell put into a row that has room so far. */
  lemma PutFits(t: Tab, p: Pen, row: Row, v: Value)
    requires Ring.Sized(t) && MemoOk(t) && PenOk(t, p) && Written(t, p, row) && !p.overflow
    ensures Written(t, Put(t, p, v), row + [v])
  {
    hide StartOf, CellBytes, RowBytes, PenCell, PenEntry, StagedFor, OnlyFree, Splice, MemoOk, CellsOf;
    var cells, c := CellsOf(t, row), PenCell(t, p, v);
    var at := EndOf(t, t.wc) + 4;
    ChunkInside(t, t.wc);
    PutTs(t, p, row, v);
    NextCell(t, p, row, v);
    if p.pos + |CellBytes(c)| <= ChunkEnd(t) {
      if row == [] {
        NoBytesYet(t);
        EmptySplice(t.bytes, at);
      }
      SpliceMore(t, p.bytes, at, RowBytes(cells), CellBytes(c));
    }
  }

  lemma NoBytesYet(t: Tab)
    ensures CellsOf(t, []) == [] && RowBytes(CellsOf(t, [])) == []
  {
  }

  lemma EmptySplice(s: seq<Byte>, at: nat)
    requires at <= |s|
    ensures Splice(s, at, []) == s
  {
  }

  lemma PutOverflowed(t: Tab, p: Pen, row: Row, v: Value)
    requires Ring.Sized(t) && PenOk(t, p) && Written(t, p, row) && p.overflow
    ensures Written(t, Put(t, p, v), row + [v])
  {
    hide StartOf, CellBytes, RowBytes, CellFor, OnlyFree;
    PutTs(t, p, row, v);
    CellsPrefix(t, row, v);
    RowBytesSnoc(CellsOf(t, row), CellsOf(t, row + [v])[|row|]);
  }

  lemma {:induction false} PutsWritten(t: Tab, row: Row)
    requires Ring.Sized(t) && MemoOk(t)
    ensures Written(t, Puts(t, row), row)
    decreases |row|
  {
    hide Put, Written, MemoOk;
    if row == [] {
      OpenWritten(t);
    } else {
      var init, last := row[..|row| - 1], row[|row| - 1];
      var p := Puts(t, init);
      PutsWritten(t, init);
      assert init + [last] == row;
      if p.overflow {
        PutOverflowed(t, p, init, last);
      } else {
        PutFits(t, p, init, last);
      }
    }
  }

  /** The length field is written last, the batch writer writes it first. */
  lemma LengthLast(s: seq<Byte>, at: nat, len: seq<Byte>, body: seq<Byte>)
    requires |len| == 4 && at + 4 + |body| <= |s|
    ensures Splice(Splice(s, at + 4, body), at, len) == Splice(s, at, len + body)
  {
  }

  lemma NothingStaged(t: Tab)
    requires Ring.Sized(t) && MemoOk(t)
    ensures t.memo.Some? ==> t.memo.value.pending == []
  {
  }

  lemma PublishIsAppend(t: Tab, p: Pen, row: Row)
    requires Ring.Sized(t) && MemoOk(t) && PenOk(t, p) && Written(t, p, row) && !p.overflow && row != []
    requires EndOf(t, t.wc) + 4 <= p.pos
    ensures Appendable(t, row) && EndOf(t, t.wc) + 4 <= |t.bytes| && Publish(t, p) == Append(t, row)
  {
    hide StartOf, RowBytes, Entries, Remember, Le4, CellsOf, OnlyFree, MemoOk, Splice;
    NothingStaged(t);
    ChunkInside(t, t.wc);
    var cells := CellsOf(t, row);
    var at := EndOf(t, t.wc);
    var body := |RowBytes(cells)|;
    assert p.pos - at - 4 == body;
    LengthLast(t.bytes, at, Le4(body % TWO_32), RowBytes(cells));
  }

  /**
   Streaming equals batch. For every row of at least one cell, `finish` succeeds exactly when the
   row would be appended, and then gives the very same table; otherwise heads, counters and dedup
   memory stay, and so does every byte outside the free part of the write chunk.
   */
  lemma StreamingEqualsBatch(t: Tab, row: Row)
    requires Ring.Sized(t) && MemoOk(t) && row != []
    ensures var p := Puts(t, row);
            && (p.overflow || EndOf(t, t.wc) + 4 <= |t.bytes|)
            && Finish(t, p).1 == Appendable(t, row)
            && (Appendable(t, row) ==> Finish(t, p).0 == Append(t, row))
            && (!Appendable(t, row) ==> Finish(t, p).0 == t.(bytes := p.bytes) && OnlyFree(t, p.bytes))
  {
    hide StartOf, RowBytes, CellsOf, OnlyFree, Puts, Publish, Append;
    var p := Puts(t, row);
    PutsWritten(t, row);
    ChunkInside(t, t.wc);
    if !p.overflow {
      PublishIsAppend(t, p, row);
    }
  }

  /** `append_row` and the streaming calls agree, except that the batch refuses to dedup more than 64 columns. */
  lemma StreamAgainstAppendRow(t: Tab, row: Row)
    requires Ring.Sized(t) && MemoOk(t) && row != []
    ensures var p := Puts(t, row);
            && (p.overflow || EndOf(t, t.wc) + 4 <= |t.bytes|)
            && (TryAppend(t, row).1 <==> Finish(t, p).1 && (t.memo.Some? ==> |row| <= 64))
            && (TryAppend(t, row).1 ==> Finish(t, p).0 == TryAppend(t, row).0)
  {
    hide StartOf, RowBytes, CellsOf, OnlyFree, Puts, Append, Finish, MemoOk;
    StreamingEqualsBatch(t, row);
  }

  /** A row dropped after any number of puts leaves everything but free bytes as it was. */
  lemma DroppedRow(t: Tab, row: Row)
    requires Ring.Sized(t) && MemoOk(t)
    ensures Abandon(t, Puts(t, row)) == t.(bytes := Puts(t, row).bytes)
    ensures OnlyFree(t, Puts(t, row).bytes)
  {
    hide StartOf, OnlyFree, Puts;
    PutsWritten(t, row);
  }

  /**
   The one exception: a row without cells. Batch appending asks for room for the length field,
   streaming never does, so they agree exactly when that room is there.
   */
  lemma NoCells(t: Tab)
    requires Ring.Sized(t)
    ensures !Puts(t, []).overflow
    ensures (!Puts(t, []).overflow <==> Appendable(t, [])) <==> CHUNK_HEADER + t.heads[t.wc].used + 4 <= t.cfg.chunkSize
    ensures Puts(t, []).pos > ChunkEnd(t) <==> !Appendable(t, [])
  {
    assert CellsOf(t, []) == [];
  }

  /** With that room the tables agree too; without it, what is published has an extent beyond its chunk. */
  lemma NoCellsTable(t: Tab)
    requires Ring.Sized(t) && MemoOk(t)
    ensures Appendable(t, []) ==>
              EndOf(t, t.wc) + 4 <= |t.bytes| && Finish(t, Puts(t, [])) == (Append(t, []), true)
    ensures !Appendable(t, []) && EndOf(t, t.wc) + 4 <= |t.bytes| ==>
              Finish(t, Puts(t, [])).1 && !Ring.Sized(Finish(t, Puts(t, [])).0)
  {
    hide StartOf, Le4, Splice, MemoOk;
    ChunkInside(t, t.wc);
    NothingStaged(t);
    assert CellsOf(t, []) == [] && RowBytes([]) == [];
    assert Record([]) == Le4(0);
    if t.memo.Some? {
      NoEntriesYet(t);
    }
    if Appendable(t, []) {
      var p := Puts(t, []);
      assert p == Open(t) && p.pos - EndOf(t, t.wc) - 4 == 0;
      assert Publish(t, p).bytes == Append(t, []).bytes;
      assert Publish(t, p).heads == Append(t, []).heads;
      assert Publish(t, p).memo == Append(t, []).memo;
    } else if EndOf(t, t.wc) + 4 <= |t.bytes| {
      var t' := Publish(t, Puts(t, []));
      assert t'.heads[t.wc].used == t.heads[t.wc].used + 4;
      assert CHUNK_HEADER + t'.heads[t.wc].used > t'.cfg.chunkSize;
    }
  }

  lemma NoEntriesYet(t: Tab)
    requires Ring.Sized(t) && t.memo.Some?
    ensures Entries(t.cfg.hash, t.memo.value.minLen, [], 0, CHUNK_HEADER + t.heads[t.wc].used + 4) == []
    ensures Remember(t.memo.value.seen, []) == t.memo.value.seen
  {
  }
}
