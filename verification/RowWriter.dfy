/** The streaming row writer as an object, proved against the open row of module Stream. */
module RowWriters {
  import opened Bytes
  import opened Chunks
  import opened Schema
  import opened RowCodec
  import opened Dedup
  import opened Ring
  import opened Stream
  import opened MemTables

  class RowWriter {
    const table: MemTable
    const chunkStart: nat
    const rowStart: nat
    var pos: nat
    var overflow: bool
    var done: bool
    var colIdx: nat
    var pendingTs: Option<I64>

    /** The table when the row was opened and, once the row is finished, the table it left. */
    ghost var base: Tab

    /** The open row as a value. */
    ghost function Open(): Pen
      reads this, table, table.buf, table.dedup
    {
      Pen(table.buf[..], pos, overflow, colIdx, pendingTs, if table.dedup == null then [] else table.dedup.pending)
    }

    /** What no put changes: everything of the table but its bytes and the staged entries. */
    ghost predicate Unpublished()
      reads this`base, table, table.dedup
    {
      && table.cfg == base.cfg && table.heads == base.heads && table.writeChunk == base.wc
      && table.recycled == base.recycled && table.overwritten == base.overwritten && table.blocked == base.blocked
      && table.dedupFlag == base.dedup && (table.dedup == null <==> base.memo.None?)
      && (table.dedup != null ==>
            && table.dedup.hash == base.cfg.hash
            && table.dedup.seen == base.memo.value.seen && table.dedup.minLen == base.memo.value.minLen)
    }

    ghost predicate Valid()
      reads this, table, table.buf, table.dedup
    {
      && PenOk(base, Open()) && ChunkEnd(base) <= |base.bytes| && OnlyFree(base, table.buf[..])
      && chunkStart == StartOf(base.cfg, base.wc) && (!done ==> rowStart == EndOf(base, base.wc) && rowStart + 4 <= pos)
      && Unpublished()
    }

    /** `make_row_writer`; entries that an earlier row left staged are discarded. */
    constructor (table: MemTable)
      requires table.Valid()
      modifies table.dedup
      ensures this.table == table && base == Discarded(old(table.Model())) && Valid() && !done
      ensures Open() == Stream.Open(base)
    {
      this.table := table;
      var cs := table.cfg.dataOffset + table.writeChunk * table.cfg.chunkSize;
      var used := table.heads[table.writeChunk].used;
      chunkStart := cs;
      rowStart := cs + CHUNK_HEADER + used;
      pos := cs + CHUNK_HEADER + used + 4;
      overflow, done, colIdx, pendingTs := false, false, 0, None;
      base := Discarded(table.Model());
      new;
      PenRoom(base, Stream.Open(base));
      if table.dedup != null {
        table.dedup.BeginRow();
      }
    }

    /** Write bytes if the chunk has room for them, else mark the row as overflowed. */
    method WriteRaw(b: seq<Byte>)
      requires Valid()
      modifies this`pos, this`overflow, table.buf
      ensures Valid()
      ensures var p := old(Open());
              Open() == if !p.overflow && p.pos + |b| <= ChunkEnd(base)
                        then p.(bytes := Splice(p.bytes, p.pos, b), pos := p.pos + |b|) else p.(overflow := true)
    {
      hide StartOf, Splice, Ring.Sized;
      ghost var p := Open();
      if p.pos + |b| <= ChunkEnd(base) {
        SpliceStaysFree(base, p.bytes, p.pos, b);
      }
      hide OnlyFree;
      if !overflow && pos + |b| <= chunkStart + table.cfg.chunkSize {
        CopyInto(table.buf, pos, b);
        pos := pos + |b|;
      } else {
        overflow := true;
      }
    }

    /** A variable-length cell of a dedup table: a reference where the value is known, else the value itself. */
    method WriteDedup(v: Value)
      requires Valid() && table.dedup != null && IsVar(TypeOf(v))
      modifies this`pos, this`overflow, table.buf, table.dedup
      ensures Valid()
      ensures Open() == Stream.Put(base, old(Open()), v).(col := old(colIdx))
    {
      hide StartOf, Splice, Lookup, DupBytes, Ring.Sized, Stream.Put, Payload, OnlyFree;
      ghost var p := Open();
      PenRoom(base, p);
      PutVar(base, p, v);
      assert p.pending + [] == p.pending;
      StagedUnseen(base.cfg.hash, base.memo.value, table.dedup.pending, p.col, Payload(v), p.bytes, chunkStart);
      var dup: Option<nat> := None;
      if !overflow {
        dup := table.dedup.Find(colIdx, Payload(v), table.buf, chunkStart);
      }
      var off := pos - chunkStart;
      assert dup == DupOf(base, p, v);
      WriteRaw(DupBytes(dup, Payload(v)));
      if dup.None? && !overflow {
        table.dedup.StageInsert(colIdx, Payload(v), off);
      }
    }

    /**
     The `put_*` calls, before and after `finish`. A put after it writes free bytes and stages entries as
     any other; nothing committed and nothing looked up changes, and the next row discards what is staged.
     */
    method Put(v: Value)
      requires Valid()
      modifies this`pos, this`overflow, this`colIdx, this`pendingTs, table.buf, table.dedup
      ensures Valid()
      ensures Open() == Stream.Put(base, old(Open()), v)
      ensures OnlyFree(base, table.buf[..])
      ensures table.dedup != null ==> table.dedup.seen == old(table.dedup.seen)
    {
      hide StartOf, Splice, Encode, CellFor, LengthPrefixed, Ring.Sized, Stream.Put, OnlyFree, PenCell, ChunkEnd;
      ghost var p := Open();
      if v.I64V? && table.cfg.tsCol == colIdx + 1 {
        pendingTs := Some(v.i64);
      }
      if IsVar(TypeOf(v)) && table.dedup != null {
        WriteDedup(v);
        PutVarTs(base, p, v);
      } else {
        WriteRaw(Encode(v));
        PutPlain(base, p, v);
      }
      colIdx := colIdx + 1;
    }

    /**
     `finish`: publish the row, or take back its dedup entries; a second call does nothing. Only a row
     without cells can have no room for its length field.
     */
    method Finish() returns (ok: bool)
      requires Valid() && (done || overflow || EndOf(base, base.wc) + 4 <= |base.bytes|)
      modifies this`done, this`base, table, table.buf, table.dedup
      ensures done && table.dedup == old(table.dedup)
      ensures old(done) ==> !ok && table.Model() == old(table.Model()) && base == old(base) && Valid()
      ensures !old(done) ==> (table.Model(), ok) == Stream.Finish(old(base), old(Open())) && base == table.Model()
      ensures overflow || pos <= ChunkEnd(old(base)) ==> Valid() && table.Valid()
    {
      hide StartOf, Splice, Le4, Remember, OnlyFree;
      if done {
        StillSized(base, table.Model());
        return false;
      }
      ghost var t, p := base, Open();
      done := true;
      if overflow {
        if table.dedup != null {
          table.dedup.RollbackRow();
        }
        base := table.Model();
        StillSized(t, base);
        OwnBytes(base);
        return false;
      }
      CopyInto(table.buf, rowStart, Le4((pos - rowStart - 4) % TWO_32));
      table.NoteAndPublish(pendingTs, pos - chunkStart - CHUNK_HEADER);
      if table.dedup != null {
        table.dedup.CommitRow();
      }
      ok := true;
      base := table.Model();
      if p.pos <= ChunkEnd(t) {
        PublishedSized(t, p);
        OwnBytes(base);
      }
    }

    /** What happens when a row writer goes out of scope; entries staged after `finish` stay behind. */
    method Drop()
      requires Valid()
      modifies table.dedup
      ensures table.dedup == old(table.dedup) && table.Valid()
      ensures done ==> table.Model() == old(table.Model())
      ensures !done ==> table.Model() == Abandon(base, old(Open()))
    {
      if !done && table.dedup != null {
        table.dedup.RollbackRow();
      }
      StillSized(base, table.Model());
    }
  }

  /** The sizes of a table do not depend on its bytes or its dedup memory. */
  lemma StillSized(t: Tab, t': Tab)
    requires Ring.Sized(t) && t'.cfg == t.cfg && t'.heads == t.heads && t'.wc == t.wc && |t'.bytes| == |t.bytes|
    ensures Ring.Sized(t') && EndOf(t', t'.wc) == EndOf(t, t.wc) && ChunkEnd(t') == ChunkEnd(t)
  {
  }

  lemma OwnBytes(t: Tab)
    requires Ring.Sized(t)
    ensures OnlyFree(t, t.bytes)
  {
  }

  lemma PublishedSized(t: Tab, p: Pen)
    requires PenOk(t, p) && EndOf(t, t.wc) + 4 <= p.pos <= ChunkEnd(t) && EndOf(t, t.wc) + 4 <= |t.bytes|
    ensures var t' := Publish(t, p); Ring.Sized(t') && EndOf(t', t'.wc) == p.pos && ChunkEnd(t') == ChunkEnd(t)
  {
    hide StartOf, Splice, Le4;
  }

  lemma SpliceStaysFree(t: Tab, s: seq<Byte>, at: nat, b: seq<Byte>)
    requires Ring.Sized(t) && OnlyFree(t, s) && EndOf(t, t.wc) <= at && at + |b| <= ChunkEnd(t) <= |s|
    ensures OnlyFree(t, Splice(s, at, b))
  {
    hide StartOf;
  }

  lemma PenRoom(t: Tab, p: Pen)
    requires PenOk(t, p)
    ensures ChunkEnd(t) <= |p.bytes| && StartOf(t.cfg, t.wc) <= p.pos
  {
    hide StartOf;
    ChunkInside(t, t.wc);
  }

  /** Staged entries are not looked up. */
  lemma StagedUnseen(h: Hash, m: Memo, pending: seq<Entry>, col: nat, data: seq<Byte>, buf: seq<Byte>, start: nat)
    ensures Lookup(h, m.(pending := pending), col, data, buf, start) == Lookup(h, m, col, data, buf, start)
  {
  }

  lemma PutPlain(t: Tab, p: Pen, v: Value)
    requires PenOk(t, p) && (IsVar(TypeOf(v)) ==> t.memo.None?)
    ensures p.pos + |Encode(v)| <= ChunkEnd(t) ==> p.pos + |Encode(v)| <= |p.bytes|
    ensures var ts := if v.I64V? && t.cfg.tsCol == p.col + 1 then Some(v.i64) else p.ts;
            Stream.Put(t, p, v) ==
            if !p.overflow && p.pos + |Encode(v)| <= ChunkEnd(t)
            then Pen(Splice(p.bytes, p.pos, Encode(v)), p.pos + |Encode(v)|, false, p.col + 1, ts, p.pending)
            else p.(overflow := true, col := p.col + 1, ts := ts)
  {
    hide StartOf, Splice, Encode;
    ChunkInside(t, t.wc);
  }

  lemma PutVarTs(t: Tab, p: Pen, v: Value)
    requires PenOk(t, p) && IsVar(TypeOf(v))
    ensures Stream.Put(t, p, v).ts == p.ts && Stream.Put(t, p, v).col == p.col + 1
  {
    hide StartOf, Splice, CellFor;
  }

  function DupOf(t: Tab, p: Pen, v: Value): Option<nat>
    requires IsVar(TypeOf(v)) && t.memo.Some?
  {
    if p.overflow then None else Lookup(t.cfg.hash, t.memo.value, p.col, Payload(v), p.bytes, StartOf(t.cfg, t.wc))
  }

  function DupBytes(dup: Option<nat>, data: seq<Byte>): seq<Byte>
  {
    if dup.Some? then RefBytes(dup.value) else LengthPrefixed(data)
  }

  /** How a variable-length cell of a dedup table is put. */
  lemma PutVar(t: Tab, p: Pen, v: Value)
    requires PenOk(t, p) && IsVar(TypeOf(v)) && t.memo.Some?
    ensures var m, data, dup := t.memo.value, Payload(v), DupOf(t, p, v);
            var b := DupBytes(dup, data);
            && StartOf(t.cfg, t.wc) <= p.pos
            && (p.pos + |b| <= ChunkEnd(t) ==> p.pos + |b| <= |p.bytes|)
            && Stream.Put(t, p, v) ==
               if !p.overflow && p.pos + |b| <= ChunkEnd(t)
               then Pen(Splice(p.bytes, p.pos, b), p.pos + |b|, false, p.col + 1, p.ts,
                        p.pending + if dup.None? && |data| >= m.minLen
                                    then [(t.cfg.hash(p.col, data), p.pos - StartOf(t.cfg, t.wc))] else [])
               else p.(overflow := true, col := p.col + 1)
  {
    hide StartOf, Splice, Lookup, RefBytes, LengthPrefixed;
    ChunkInside(t, t.wc);
  }
}
