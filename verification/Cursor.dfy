/** Row iterator and row cursor as objects; `pinned` is the answer of `ensure_current_process` during a call. */
module Cursors {
  import opened Bytes
  import opened Chunks
  import opened Schema
  import opened RowCodec

  /** What a stale cursor answers: zero or empty. */
  function Blank(dt: DType): (v: Value)
    ensures TypeOf(v) == dt
  {
    match dt
    case DU8 => U8V(0)
    case DU32 => U32V(0)
    case DI32 => I32V(0)
    case DI64 => I64V(0)
    case DF32 => F32V(0)
    case DF64 => F64V(0)
    case DU64 => U64V(0)
    case DStr => StrV([])
    case DBytes => BytesV([])
  }

  /** A blank cell is what the encoder makes zero bytes of: zero, or a length of zero and nothing behind it. */
  lemma BlankIsZero(dt: DType)
    ensures |Encode(Blank(dt))| == if dt.DStr? || dt.DBytes? then 4 else FixedSize(dt)
    ensures forall k :: 0 <= k < |Encode(Blank(dt))| ==> Encode(Blank(dt))[k] == 0
  {
  }

  class RowCursor {
    const e: Env
    var pos: nat
    var stale: bool

    constructor (e: Env, pinned: bool)
      ensures this.e == e && pos == 0 && stale == !pinned
    {
      this.e := e;
      pos := 0;
      stale := !pinned;
    }

    method ReadFixed(n: nat, pinned: bool) returns (b: Option<seq<Byte>>)
      modifies this
      ensures b.Some? <==> !old(stale) && pinned && old(pos) + n <= |e.data|
      ensures b.Some? ==> !stale && pos == old(pos) + n && b.value == e.data[old(pos)..pos]
      ensures b.None? ==> stale
    {
      if stale || !pinned || pos + n > |e.data| {
        stale := true;
        return None;
      }
      b := Some(e.data[pos..pos + n]);
      pos := pos + n;
    }

    method ReadLp(pinned: bool) returns (b: Option<seq<Byte>>)
      modifies this
      ensures b == if !old(stale) && pinned then ResolveVar(e, old(pos)) else None
      ensures b.Some? ==> !stale && pos == old(pos) + VarFieldSize(e.data, old(pos)).value
      ensures b.None? ==> stale
    {
      hide Read32;
      var head := ReadFixed(4, pinned);
      if head.None? {
        return None;
      }
      var raw := Signed32(Read32(head.value));
      if raw < 0 {
        if raw == -TWO_31 {
          stale := true;
          return None;
        }
        var refOff := e.start + -raw;
        var chunkEnd := e.start + e.size;
        if refOff < e.start + CHUNK_HEADER || refOff + 4 > chunkEnd || refOff + 4 > |e.buf| {
          stale := true;
          return None;
        }
        var end := refOff + 4 + Read32(e.buf[refOff..refOff + 4]);
        if end > chunkEnd || end > |e.buf| {
          stale := true;
          return None;
        }
        return Some(e.buf[refOff + 4..end]);
      }
      if pos + raw > |e.data| {
        stale := true;
        return None;
      }
      b := Some(e.data[pos..pos + raw]);
      pos := pos + raw;
    }

    /** `next_*`: the cell the codec finds at the cursor, or a blank one and the stale mark for good. */
    method Next(dt: DType, pinned: bool) returns (v: Value)
      modifies this
      ensures var r := CursorCell(e, old(pos), dt);
              if !old(stale) && pinned && r.Cell? then v == r.v && pos == r.next && !stale
              else v == Blank(dt) && stale
    {
      hide ResolveVar, DecodeFixed;
      if IsVar(dt) {
        var b := ReadLp(pinned);
        v := if b.Some? then VarValue(dt, b.value) else Blank(dt);
      } else {
        var b := ReadFixed(FixedSize(dt), pinned);
        v := if b.Some? then DecodeFixed(dt, b.value) else Blank(dt);
      }
    }
  }

  /** Reading a whole row cell by cell is what the codec calls reading a row. */
  method ReadWholeRow(e: Env, types: seq<DType>) returns (row: Row, stale: bool)
    ensures stale <==> CursorRow(e, 0, types).None?
    ensures !stale ==> CursorRow(e, 0, types) == Some(row)
    ensures Matches(row, types)
  {
    hide CursorCell, Blank;
    var c := new RowCursor(e, true);
    row := [];
    var k := 0;
    assert types[0..] == types;
    assert forall rest: Row :: row + rest == rest;
    while k < |types|
      invariant 0 <= k <= |types| && |row| == k && c.e == e
      invariant forall j :: 0 <= j < k ==> TypeOf(row[j]) == types[j]
      invariant c.stale ==> CursorRow(e, 0, types).None?
      invariant !c.stale ==>
                  CursorRow(e, 0, types) == match CursorRow(e, c.pos, types[k..])
                                            case None => None
                                            case Some(rest) => Some(row + rest)
    {
      ghost var at := c.pos;
      assert types[k..][0] == types[k] && types[k..][1..] == types[k + 1..];
      var v := c.Next(types[k], true);
      assert forall rest :: row + ([v] + rest) == (row + [v]) + rest;
      row := row + [v];
      k := k + 1;
    }
    assert types[k..] == [];
    stale := c.stale;
    assert row + [] == row;
  }

  class RowIter {
    const buf: seq<Byte>
    const end: nat
    var pos: nat

    ghost predicate Valid()
      reads this
    {
      pos <= end <= |buf|
    }

    constructor (buf: seq<Byte>, pos: nat, end: nat)
      requires pos <= end <= |buf|
      ensures this.buf == buf && this.end == end && this.pos == pos && Valid()
    {
      this.buf := buf;
      this.end := end;
      this.pos := pos;
    }

    /** `next`: the first record of what is left of the walk. */
    method Next(pinned: bool) returns (r: Option<Span>)
      requires Valid()
      modifies this
      ensures Valid()
      ensures var w := Walk(buf, old(pos), end);
              if pinned && w.spans != [] then
                r == Some(w.spans[0]) && pos == w.spans[0].to && Walk(buf, pos, end) == Walked(w.spans[1..], w.stop)
              else r == None && pos == old(pos)
    {
      hide Read32;
      if pos + 4 > end || !pinned {
        return None;
      }
      var total := 4 + Read32(buf[pos..pos + 4]);
      if total > end - pos {
        return None;
      }
      r := Some(Span(pos + 4, pos + total));
      pos := pos + total;
    }
  }

  /** Iterating to the end yields the records of the walk, for any bytes whatsoever. */
  method Collect(buf: seq<Byte>, pos: nat, end: nat) returns (spans: seq<Span>)
    requires pos <= end <= |buf|
    ensures spans == Walk(buf, pos, end).spans
  {
    hide Walk;
    var it := new RowIter(buf, pos, end);
    spans := [];
    var going := true;
    while going
      invariant it.Valid() && it.buf == buf && it.end == end
      invariant spans + Walk(buf, it.pos, end).spans == Walk(buf, pos, end).spans
      invariant !going ==> Walk(buf, it.pos, end).spans == []
      decreases going, end - it.pos
    {
      ghost var rest := Walk(buf, it.pos, end).spans;
      var r := it.Next(true);
      if r.None? {
        going := false;
      } else {
        assert rest == [r.value] + rest[1..];
        spans := spans + [r.value];
      }
    }
  }
}
