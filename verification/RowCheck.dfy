/** The per-row structural check of the buffer validator. */
module RowCheck {
  import opened Bytes
  import opened Chunks
  import opened Schema
  import opened RowCodec

  /**
   Walk the columns of a row body from `off` on. Only a negative length prefix can fail: it needs a
   dedup table and must point at committed bytes of the chunk, of which there are `used`.
   */
  predicate ColsPass(data: seq<Byte>, off: nat, types: seq<DType>, dedup: bool, used: nat)
    decreases |types|
  {
    if types == [] || off >= |data| then true
    else if !IsVar(types[0]) then ColsPass(data, off + FixedSize(types[0]), types[1..], dedup, used)
    else if off + 4 <= |data| then
      var raw: int := Signed32(Read32(data[off..off + 4]));
      if raw < 0 then
        && dedup && CHUNK_HEADER <= -raw < CHUNK_HEADER + used && -raw < TWO_31
        && ColsPass(data, off + 4, types[1..], dedup, used)
      else ColsPass(data, off + 4 + raw, types[1..], dedup, used)
    else ColsPass(data, off, types[1..], dedup, used)
  }

  lemma {:induction false} ColsPassMore(data: seq<Byte>, off: nat, types: seq<DType>, dedup: bool, used: nat,
                                        dedup': bool, used': nat)
    requires ColsPass(data, off, types, dedup, used) && used <= used' && (dedup ==> dedup')
    ensures ColsPass(data, off, types, dedup', used')
    decreases |types|
  {
    if types == [] || off >= |data| {
    } else if !IsVar(types[0]) {
      ColsPassMore(data, off + FixedSize(types[0]), types[1..], dedup, used, dedup', used');
    } else if off + 4 <= |data| {
      var raw := Signed32(Read32(data[off..off + 4]));
      ColsPassMore(data, if raw < 0 then off + 4 else off + 4 + raw, types[1..], dedup, used, dedup', used');
    } else {
      ColsPassMore(data, off, types[1..], dedup, used, dedup', used');
    }
  }

  /** A row the cursor can read to its end passes, where its references need a dedup table. */
  lemma {:induction false} ReadableRowPasses(e: Env, pos: nat, types: seq<DType>, dedup: bool, used: nat)
    requires CursorRow(e, pos, types).Some? && e.size == CHUNK_HEADER + used
    requires dedup || ColsPass(e.data, pos, types, false, 0)
    ensures ColsPass(e.data, pos, types, dedup, used)
    decreases |types|
  {
    if !dedup {
      ColsPassMore(e.data, pos, types, false, 0, false, used);
    } else if types != [] {
      var next := CursorCell(e, pos, types[0]).next;
      ReadableRowPasses(e, next, types[1..], dedup, used);
    }
  }

  lemma PrefixReads(data: seq<Byte>, off: nat, d: seq<Byte>)
    requires |d| < TWO_31 && off + 4 + |d| <= |data| && data[off..off + 4 + |d|] == LengthPrefixed(d)
    ensures Signed32(Read32(data[off..off + 4])) == |d|
  {
    hide Read32, Le4;
    SliceOfSlice(data, off, off + 4 + |d|, 0, 4);
    assert LengthPrefixed(d)[0..4] == Le4(|d|);
    Read32Back(|d|);
  }

  /** The check steps over an inline cell as the encoder wrote it. */
  lemma InlineCellPasses(data: seq<Byte>, off: nat, v: Value, types: seq<DType>)
    requires types != [] && TypeOf(v) == types[0] && (IsVar(types[0]) ==> |Payload(v)| < TWO_31)
    requires off + EncodedSize(v) <= |data| && data[off..off + EncodedSize(v)] == Encode(v)
    requires ColsPass(data, off + EncodedSize(v), types[1..], false, 0)
    ensures ColsPass(data, off, types, false, 0)
  {
    hide Read32, Le4, LengthPrefixed;
    if IsVar(types[0]) {
      assert Encode(v) == LengthPrefixed(Payload(v));
      PrefixReads(data, off, Payload(v));
    }
  }

  /** A row stored inline passes even without dedup. */
  lemma {:induction false} InlineRowPasses(data: seq<Byte>, off: nat, row: Row, types: seq<DType>)
    requires Matches(row, types) && ShortCells(row)
    requires off + |RowBytes(AllInline(row))| == |data| && data[off..] == RowBytes(AllInline(row))
    ensures ColsPass(data, off, types, false, 0)
    decreases |row|
  {
    hide Encode, EncodedSize;
    if row != [] {
      var cells := AllInline(row);
      var n := |Encode(row[0])|;
      assert AllInline(row[1..]) == cells[1..];
      assert RowBytes(cells) == Encode(row[0]) + RowBytes(cells[1..]);
      assert data[off..off + n] == data[off..][..n] == Encode(row[0]);
      assert data[off + n..] == data[off..][n..] == RowBytes(cells[1..]);
      InlineRowPasses(data, off + n, row[1..], types[1..]);
      InlineCellPasses(data, off, row[0], types);
    }
  }
}
