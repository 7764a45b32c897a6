/** Reading rows: sequential cursor, access by column number, back-references, and the walk over records. */
module RowCodec {
  import opened Bytes
  import opened Chunks
  import opened Schema

  /**
   What a row reader looks at: the bytes of the row, the whole buffer, and the chunk that
   back-references resolve in, which starts at `start` and ends `size` bytes later.
   */
  datatype Env = Env(data: seq<Byte>, buf: seq<Byte>, start: nat, size: nat)

  /** A chunk that lies in its buffer and whose offsets fit the format. */
  predicate Sized(e: Env)
  {
    e.start + e.size <= |e.buf| && e.size < TWO_32
  }

  function TryRead32(s: seq<Byte>, off: nat): Option<U32>
  {
    if off + 4 <= |s| then Some(Read32(s[off..off + 4])) else None
  }

  function TryReadI32(s: seq<Byte>, off: nat): Option<I32>
  {
    match TryRead32(s, off)
    case None => None
    case Some(u) => Some(Signed32(u))
  }

  /** The inline value at chunk offset `delta`, if it lies between the chunk header and the chunk end. */
  function ResolveRef(e: Env, delta: nat): (r: Option<seq<Byte>>)
    ensures r.Some? ==> CHUNK_HEADER <= delta && delta + 4 + |r.value| <= e.size
  {
    var off := e.start + delta;
    if off < e.start + CHUNK_HEADER || off + 4 > e.start + e.size then None
    else
      match TryRead32(e.buf, off)
      case None => None
      case Some(len) =>
        var end := off + 4 + len;
        if end > e.start + e.size || end > |e.buf| then None else Some(e.buf[off + 4..end])
  }

  /** `try_resolve_var`: an inline value or, for a negative prefix, the value it refers to. */
  function ResolveVar(e: Env, off: nat): Option<seq<Byte>>
  {
    match TryReadI32(e.data, off)
    case None => None
    case Some(raw) =>
      if raw < 0 then
        if raw == -TWO_31 then None else ResolveRef(e, -raw)
      else if off + 4 + raw <= |e.data| then Some(e.data[off + 4..off + 4 + raw])
      else None
  }

  function VarFieldSize(data: seq<Byte>, off: nat): Option<nat>
  {
    match TryReadI32(data, off)
    case None => None
    case Some(raw) => Some(if raw < 0 then 4 else 4 + raw)
  }

  function VarValue(dt: DType, b: seq<Byte>): (v: Value)
    requires IsVar(dt)
    ensures TypeOf(v) == dt && Payload(v) == b
  {
    if dt.DStr? then StrV(b) else BytesV(b)
  }

  // ----- sequential access

  datatype Read = Stale | Cell(v: Value, next: nat)

  /** One read of `RowCursor`: the cell at `pos` and the position after it, or the stale mark. */
  function CursorCell(e: Env, pos: nat, dt: DType): (r: Read)
    ensures r.Cell? ==> TypeOf(r.v) == dt && r.next > pos
    ensures r.Cell? ==> r.next <= |e.data|
  {
    if !IsVar(dt) then
      var n := FixedSize(dt);
      if pos + n <= |e.data| then Cell(DecodeFixed(dt, e.data[pos..pos + n]), pos + n) else Stale
    else
      match ResolveVar(e, pos)
      case None => Stale
      case Some(b) => Cell(VarValue(dt, b), pos + VarFieldSize(e.data, pos).value)
  }

  /** Reading one cell per column from `pos` on. */
  function CursorRow(e: Env, pos: nat, types: seq<DType>): (r: Option<Row>)
    ensures r.Some? ==> Matches(r.value, types)
    decreases |types|
  {
    if types == [] then Some([])
    else
      match CursorCell(e, pos, types[0])
      case Stale => None
      case Cell(v, next) =>
        match CursorRow(e, next, types[1..])
        case None => None
        case Some(rest) => Some([v] + rest)
  }

  // ----- access by column number

  function ColOffset(data: seq<Byte>, types: seq<DType>, col: nat): Option<nat>
    requires col <= |types|
  {
    if col == 0 then Some(0)
    else
      match ColOffset(data, types, col - 1)
      case None => None
      case Some(off) =>
        if IsVar(types[col - 1]) then
          match VarFieldSize(data, off)
          case None => None
          case Some(n) => Some(off + n)
        else Some(off + FixedSize(types[col - 1]))
  }

  /** `Row::try_col_offset`, as a loop over the columns before the wanted one. */
  method TryColOffset(data: seq<Byte>, types: seq<DType>, col: nat) returns (r: Option<nat>)
    ensures r == if col < |types| then ColOffset(data, types, col) else None
  {
    if col >= |types| {
      return None;
    }
    var off := 0;
    var k := 0;
    while k < col
      invariant 0 <= k <= col
      invariant ColOffset(data, types, k) == Some(off)
    {
      if IsVar(types[k]) {
        var n := VarFieldSize(data, off);
        if n.None? {
          NoOffsetAfter(data, types, k + 1, col);
          return None;
        }
        off := off + n.value;
      } else {
        off := off + FixedSize(types[k]);
      }
      k := k + 1;
    }
    return Some(off);
  }

  lemma {:induction false} NoOffsetAfter(data: seq<Byte>, types: seq<DType>, k: nat, col: nat)
    requires k <= col <= |types| && ColOffset(data, types, k).None?
    ensures ColOffset(data, types, col).None?
    decreases col
  {
    if k < col {
      NoOffsetAfter(data, types, k, col - 1);
    }
  }

  /** `col_*`: the cell of a column, or nothing where the accessors answer zero or empty. */
  function IndexedCell(e: Env, types: seq<DType>, col: nat): Option<Value>
    requires col < |types|
  {
    match ColOffset(e.data, types, col)
    case None => None
    case Some(off) =>
      if IsVar(types[col]) then
        match ResolveVar(e, off)
        case None => None
        case Some(b) => Some(VarValue(types[col], b))
      else if off + FixedSize(types[col]) <= |e.data| then
        Some(DecodeFixed(types[col], e.data[off..off + FixedSize(types[col])]))
      else None
  }

  /** A successful cursor read sits at the column's offset and leads to the next one. */
  lemma CursorAtOffset(e: Env, types: seq<DType>, k: nat, pos: nat)
    requires k < |types| && ColOffset(e.data, types, k) == Some(pos) && CursorCell(e, pos, types[k]).Cell?
    ensures ColOffset(e.data, types, k + 1) == Some(CursorCell(e, pos, types[k]).next)
    ensures IndexedCell(e, types, k) == Some(CursorCell(e, pos, types[k]).v)
  {
  }

  lemma {:induction false} CursorFollowsOffsets(e: Env, types: seq<DType>, k: nat, col: nat, pos: nat)
    requires k <= col < |types| && ColOffset(e.data, types, k) == Some(pos)
    requires CursorRow(e, pos, types[k..col + 1]).Some?
    ensures IndexedCell(e, types, col) == Some(CursorRow(e, pos, types[k..col + 1]).value[col - k])
    decreases col - k
  {
    hide CursorCell, IndexedCell, ColOffset;
    var rest := types[k..col + 1];
    var next := CursorCell(e, pos, rest[0]).next;
    assert rest[0] == types[k];
    CursorAtOffset(e, types, k, pos);
    if k < col {
      assert rest[1..] == types[k + 1..col + 1];
      CursorFollowsOffsets(e, types, k + 1, col, next);
    }
  }

  /** On any bytes: as long as the cursor has not gone stale, access by number gives the same cell. */
  lemma IndexedAgrees(e: Env, types: seq<DType>, col: nat)
    requires col < |types| && CursorRow(e, 0, types[..col + 1]).Some?
    ensures IndexedCell(e, types, col) == Some(CursorRow(e, 0, types[..col + 1]).value[col])
  {
    assert types[0..col + 1] == types[..col + 1];
    CursorFollowsOffsets(e, types, 0, col, 0);
  }

  lemma {:induction false} CursorPrefix(e: Env, pos: nat, types: seq<DType>, n: nat)
    requires n <= |types| && CursorRow(e, pos, types).Some?
    ensures CursorRow(e, pos, types[..n]) == Some(CursorRow(e, pos, types).value[..n])
    decreases n
  {
    hide CursorCell;
    if n == 0 {
      assert types[..0] == [];
    } else {
      var next := CursorCell(e, pos, types[0]).next;
      CursorPrefix(e, next, types[1..], n - 1);
      assert types[..n][1..] == types[1..][..n - 1];
      var v, rest := CursorCell(e, pos, types[0]).v, CursorRow(e, next, types[1..]).value;
      assert CursorRow(e, pos, types).value == [v] + rest;
      assert ([v] + rest)[..n] == [v] + rest[..n - 1];
      assert CursorRow(e, pos, types[..n]) == Some([v] + rest[..n - 1]);
    }
  }

  /** A row that the cursor reads to its end is read alike by every column number. */
  lemma IndexedAgreesEverywhere(e: Env, types: seq<DType>, row: Row)
    requires CursorRow(e, 0, types) == Some(row)
    ensures forall col :: 0 <= col < |types| ==> IndexedCell(e, types, col) == Some(row[col])
  {
    hide CursorCell, IndexedCell;
    forall col | 0 <= col < |types|
      ensures IndexedCell(e, types, col) == Some(row[col])
    {
      CursorPrefix(e, 0, types, col + 1);
      IndexedAgrees(e, types, col);
    }
  }

  // ----- the bytes of a row

  /** A cell as stored: inline, or as a reference to an equal inline value at a chunk offset. */
  datatype Stored = Inline(v: Value) | Ref(v: Value, off: nat)

  /** The four bytes of `-(off as i32)`. */
  function RefBytes(off: nat): (s: seq<Byte>)
    ensures |s| == 4
  {
    Le4((TWO_32 - off % TWO_32) % TWO_32)
  }

  function CellBytes(c: Stored): seq<Byte>
  {
    if c.Inline? then Encode(c.v) else RefBytes(c.off)
  }

  function RowBytes(cells: seq<Stored>): seq<Byte>
  {
    if cells == [] then [] else CellBytes(cells[0]) + RowBytes(cells[1..])
  }

  function CellValues(cells: seq<Stored>): (row: Row)
    ensures |row| == |cells|
    ensures forall k :: 0 <= k < |cells| ==> row[k] == cells[k].v
  {
    seq(|cells|, k requires 0 <= k < |cells| => cells[k].v)
  }

  /** The stored cell reads back in this chunk: short enough, and a reference finds its value. */
  predicate Readable(e: Env, c: Stored)
  {
    match c
    case Inline(v) => IsVar(TypeOf(v)) ==> |Payload(v)| < TWO_31
    case Ref(v, off) => IsVar(TypeOf(v)) && off < TWO_31 && ResolveRef(e, off) == Some(Payload(v))
  }

  lemma RefReads(e: Env, pos: nat, v: Value, off: nat)
    requires Readable(e, Ref(v, off)) && pos + 4 <= |e.data| && e.data[pos..pos + 4] == RefBytes(off)
    ensures CursorCell(e, pos, TypeOf(v)) == Cell(v, pos + 4)
  {
    hide Read32, Le4, ResolveRef;
    assert CHUNK_HEADER <= off < TWO_31;
    assert (TWO_32 - off % TWO_32) % TWO_32 == TWO_32 - off;
    Read32Back(TWO_32 - off);
    var o: int := off;
    var neg: I32 := 0 - o;
    assert TryReadI32(e.data, pos) == Some(neg);
  }

  lemma InlineReads(e: Env, pos: nat, dt: DType, d: seq<Byte>)
    requires IsVar(dt) && |d| < TWO_31 && pos + 4 + |d| <= |e.data|
    requires e.data[pos..pos + 4 + |d|] == LengthPrefixed(d)
    ensures CursorCell(e, pos, dt) == Cell(VarValue(dt, d), pos + 4 + |d|)
  {
    hide Read32, Le4;
    SliceOfSlice(e.data, pos, pos + 4 + |d|, 0, 4);
    SliceOfSlice(e.data, pos, pos + 4 + |d|, 4, 4 + |d|);
    assert LengthPrefixed(d)[0..4] == Le4(|d|);
    assert LengthPrefixed(d)[4..4 + |d|] == d;
    Read32Back(|d|);
    assert TryReadI32(e.data, pos) == Some(|d|);
  }

  lemma CellReads(e: Env, pos: nat, c: Stored)
    requires Readable(e, c) && pos + |CellBytes(c)| <= |e.data|
    requires e.data[pos..pos + |CellBytes(c)|] == CellBytes(c)
    ensures CursorCell(e, pos, TypeOf(c.v)) == Cell(c.v, pos + |CellBytes(c)|)
  {
    if c.Ref? {
      RefReads(e, pos, c.v, c.off);
    } else if IsVar(TypeOf(c.v)) {
      InlineReads(e, pos, TypeOf(c.v), Payload(c.v));
    } else {
      FixedRoundTrip(c.v);
    }
  }

  lemma RowBytesSplit(e: Env, pos: nat, cells: seq<Stored>)
    requires cells != []
    requires pos + |RowBytes(cells)| <= |e.data| && e.data[pos..pos + |RowBytes(cells)|] == RowBytes(cells)
    ensures var n := |CellBytes(cells[0])|;
            && |RowBytes(cells)| == n + |RowBytes(cells[1..])|
            && e.data[pos..pos + n] == CellBytes(cells[0])
            && e.data[pos + n..pos + n + |RowBytes(cells[1..])|] == RowBytes(cells[1..])
  {
    hide CellBytes;
    var n, m := |CellBytes(cells[0])|, |RowBytes(cells)|;
    SliceOfSlice(e.data, pos, pos + m, 0, n);
    SliceOfSlice(e.data, pos, pos + m, n, m);
    assert RowBytes(cells)[0..n] == CellBytes(cells[0]);
    assert RowBytes(cells)[n..m] == RowBytes(cells[1..]);
  }

  lemma CursorRowCons(e: Env, pos: nat, types: seq<DType>, v: Value, next: nat, rest: Row)
    requires types != [] && CursorCell(e, pos, types[0]) == Cell(v, next)
    requires CursorRow(e, next, types[1..]) == Some(rest)
    ensures CursorRow(e, pos, types) == Some([v] + rest)
  {
  }

  lemma CellsTail(e: Env, cells: seq<Stored>, types: seq<DType>)
    requires cells != [] && Matches(CellValues(cells), types)
    requires forall k :: 0 <= k < |cells| ==> Readable(e, cells[k])
    ensures TypeOf(cells[0].v) == types[0] && Matches(CellValues(cells[1..]), types[1..])
    ensures CellValues(cells) == [cells[0].v] + CellValues(cells[1..])
    ensures forall k :: 0 <= k < |cells[1..]| ==> Readable(e, cells[1..][k])
  {
    assert CellValues(cells)[0] == cells[0].v;
    forall k | 0 <= k < |cells| - 1
      ensures TypeOf(CellValues(cells[1..])[k]) == types[1..][k]
    {
      assert CellValues(cells)[k + 1] == CellValues(cells[1..])[k];
    }
  }

  lemma {:induction false} RowReads(e: Env, pos: nat, cells: seq<Stored>, types: seq<DType>)
    requires Matches(CellValues(cells), types)
    requires forall k :: 0 <= k < |cells| ==> Readable(e, cells[k])
    requires pos + |RowBytes(cells)| <= |e.data| && e.data[pos..pos + |RowBytes(cells)|] == RowBytes(cells)
    ensures CursorRow(e, pos, types) == Some(CellValues(cells))
    decreases |cells|
  {
    hide CursorCell, CellBytes, Readable;
    if cells != [] {
      var n := |CellBytes(cells[0])|;
      RowBytesSplit(e, pos, cells);
      CellsTail(e, cells, types);
      var dt, v, rest := types[0], cells[0].v, CellValues(cells[1..]);
      assert CursorCell(e, pos, dt) == Cell(v, pos + n) by {
        CellReads(e, pos, cells[0]);
      }
      RowReads(e, pos + n, cells[1..], types[1..]);
      CursorRowCons(e, pos, types, v, pos + n, rest);
    }
  }

  /** All cells stored inline, as the plain writer does. */
  function AllInline(row: Row): (cells: seq<Stored>)
    ensures |cells| == |row| && forall k :: 0 <= k < |row| ==> cells[k] == Inline(row[k])
  {
    seq(|row|, k requires 0 <= k < |row| => Inline(row[k]))
  }

  predicate ShortCells(row: Row)
  {
    forall k :: 0 <= k < |row| ==> (IsVar(TypeOf(row[k])) ==> |Payload(row[k])| < TWO_31)
  }

  /** Round trip of the row codec, by cursor and by column number, for every row of short cells. */
  lemma RowRoundTrip(e: Env, types: seq<DType>, row: Row)
    requires Matches(row, types) && ShortCells(row) && e.data == RowBytes(AllInline(row))
    ensures CursorRow(e, 0, types) == Some(row)
    ensures forall col :: 0 <= col < |types| ==> IndexedCell(e, types, col) == Some(row[col])
  {
    var cells := AllInline(row);
    assert e.data[0..0 + |RowBytes(cells)|] == RowBytes(cells);
    assert CellValues(cells) == row;
    RowReads(e, 0, cells, types);
    IndexedAgreesEverywhere(e, types, row);
  }

  /**
   The exact limit of the codec: in a chunk whose size fits 32 bits, an inline cell reads back if and
   only if it is shorter than 2^31 bytes. A longer one is taken for a reference, and never for one
   that leads back to the same value.
   */
  lemma VarCellExact(e: Env, pos: nat, v: Value)
    requires Sized(e) && IsVar(TypeOf(v)) && |Payload(v)| < TWO_32
    requires pos + |Encode(v)| <= |e.data| && e.data[pos..pos + |Encode(v)|] == Encode(v)
    ensures CursorCell(e, pos, TypeOf(v)) == Cell(v, pos + |Encode(v)|) <==> |Payload(v)| < TWO_31
    ensures |Payload(v)| >= TWO_31 ==> CursorCell(e, pos, TypeOf(v)).Stale? || CursorCell(e, pos, TypeOf(v)).v != v
  {
    hide Read32, Le4;
    var d := Payload(v);
    if |d| < TWO_31 {
      CellReads(e, pos, Inline(v));
    } else {
      SliceOfSlice(e.data, pos, pos + |Encode(v)|, 0, 4);
      assert e.data[pos..pos + 4] == Encode(v)[..4] == Le4(|d|);
      Read32Back(|d|);
      assert TryReadI32(e.data, pos) == Some(|d| - TWO_32);
    }
  }

  // ----- what a read depends on

  /** Two buffers agree on a stretch of bytes. */
  predicate Agree(a: seq<Byte>, b: seq<Byte>, from: nat, to: nat)
  {
    from <= to <= |a| && to <= |b| && a[from..to] == b[from..to]
  }

  lemma AgreeSub(a: seq<Byte>, b: seq<Byte>, from: nat, to: nat, from': nat, to': nat)
    requires Agree(a, b, from, to) && from <= from' <= to' <= to
    ensures Agree(a, b, from', to')
  {
    SliceOfSlice(a, from, to, from' - from, to' - from);
    SliceOfSlice(b, from, to, from' - from, to' - from);
  }

  /** A reference that resolves inside a committed prefix resolves alike in every longer or later one. */
  lemma RefStable(e: Env, e': Env, delta: nat)
    requires e'.start == e.start && e.size <= e'.size && Agree(e.buf, e'.buf, e.start + CHUNK_HEADER, e.start + e.size)
    requires ResolveRef(e, delta).Some?
    ensures ResolveRef(e', delta) == ResolveRef(e, delta)
  {
    hide Read32;
    var off := e.start + delta;
    AgreeSub(e.buf, e'.buf, e.start + CHUNK_HEADER, e.start + e.size, off, off + 4);
    AgreeSub(e.buf, e'.buf, e.start + CHUNK_HEADER, e.start + e.size, off + 4, off + 4 + |ResolveRef(e, delta).value|);
  }

  lemma CellStable(e: Env, e': Env, pos: nat, dt: DType)
    requires e'.data == e.data && e'.start == e.start && e.size <= e'.size
    requires Agree(e.buf, e'.buf, e.start + CHUNK_HEADER, e.start + e.size)
    requires CursorCell(e, pos, dt).Cell?
    ensures CursorCell(e', pos, dt) == CursorCell(e, pos, dt)
  {
    hide Read32, ResolveRef, DecodeFixed, Signed32, Agree;
    if IsVar(dt) {
      var raw := TryReadI32(e.data, pos).value;
      if raw < 0 {
        RefStable(e, e', -raw);
      }
    }
  }

  lemma {:induction false} RowStable(e: Env, e': Env, pos: nat, types: seq<DType>)
    requires e'.data == e.data && e'.start == e.start && e.size <= e'.size
    requires Agree(e.buf, e'.buf, e.start + CHUNK_HEADER, e.start + e.size)
    requires CursorRow(e, pos, types).Some?
    ensures CursorRow(e', pos, types) == CursorRow(e, pos, types)
    decreases |types|
  {
    hide CursorCell, Agree;
    if types != [] {
      CellStable(e, e', pos, types[0]);
      RowStable(e, e', CursorCell(e, pos, types[0]).next, types[1..]);
    }
  }

  // ----- the walk over the records of a chunk

  datatype Span = Span(from: nat, to: nat)

  datatype Walked = Walked(spans: seq<Span>, stop: nat)

  /** Records from `pos` up to `end`, as `RowIter` yields them, and where the walk stops. */
  function Walk(buf: seq<Byte>, pos: nat, end: nat): (w: Walked)
    requires pos <= end <= |buf|
    ensures pos <= w.stop <= end
    ensures forall k :: 0 <= k < |w.spans| ==> pos + 4 <= w.spans[k].from <= w.spans[k].to <= w.stop
    ensures 4 * |w.spans| <= w.stop - pos
    decreases end - pos
  {
    if pos + 4 > end then Walked([], pos)
    else
      var next := pos + 4 + Read32(buf[pos..pos + 4]);
      if next > end then Walked([], pos)
      else
        var rest := Walk(buf, next, end);
        Walked([Span(pos + 4, next)] + rest.spans, rest.stop)
  }

  lemma {:induction false} WalkFrame(a: seq<Byte>, b: seq<Byte>, pos: nat, end: nat)
    requires pos <= end && Agree(a, b, pos, end)
    ensures Walk(a, pos, end) == Walk(b, pos, end)
    decreases end - pos
  {
    hide Read32;
    if pos + 4 <= end {
      AgreeSub(a, b, pos, end, pos, pos + 4);
      var next := pos + 4 + Read32(a[pos..pos + 4]);
      if next <= end {
        AgreeSub(a, b, pos, end, next, end);
        WalkFrame(a, b, next, end);
      }
    }
  }

  lemma WalkOne(b: seq<Byte>, pos: nat, end: nat, len: nat)
    requires len < TWO_32 && end == pos + 4 + len && end <= |b| && b[pos..pos + 4] == Le4(len)
    ensures Walk(b, pos, end) == Walked([Span(pos + 4, end)], end)
  {
    hide Read32, Le4;
    Read32Back(len);
    assert Walk(b, end, end) == Walked([], end);
    assert [Span(pos + 4, end)] + [] == [Span(pos + 4, end)];
  }

  lemma WalkStep(b: seq<Byte>, pos: nat, next: nat, end: nat)
    requires pos + 4 <= end <= |b| && next == pos + 4 + Read32(b[pos..pos + 4]) && next <= end
    ensures Walk(b, pos, end) == Walked([Span(pos + 4, next)] + Walk(b, next, end).spans, Walk(b, next, end).stop)
  {
  }

  /** Extending the walked region by one whole record adds exactly one row. */
  lemma {:induction false} WalkAppend(a: seq<Byte>, b: seq<Byte>, pos: nat, end: nat, len: nat)
    requires pos <= end && Agree(a, b, pos, end) && Walk(a, pos, end).stop == end
    requires len < TWO_32 && end + 4 + len <= |b| && b[end..end + 4] == Le4(len)
    ensures Walk(b, pos, end + 4 + len)
            == Walked(Walk(a, pos, end).spans + [Span(end + 4, end + 4 + len)], end + 4 + len)
    decreases end - pos
  {
    hide Read32, Le4;
    if pos == end {
      WalkOne(b, pos, end + 4 + len, len);
    } else {
      var last := [Span(end + 4, end + 4 + len)];
      AgreeSub(a, b, pos, end, pos, pos + 4);
      var next := pos + 4 + Read32(a[pos..pos + 4]);
      AgreeSub(a, b, pos, end, next, end);
      WalkStep(a, pos, next, end);
      WalkAppend(a, b, next, end, len);
      WalkStep(b, pos, next, end + 4 + len);
      var first := [Span(pos + 4, next)];
      assert first + (Walk(a, next, end).spans + last) == (first + Walk(a, next, end).spans) + last;
    }
  }
}
