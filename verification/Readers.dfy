/**
 Readers of accepted buffers. Every read below is as unchecked as in the source: what it needs is a
 precondition, and the driver at the end meets all of them on any buffer the validator accepts.
 */
module Readers {
  import opened Chunks
  import opened Schema
  import opened RowCodec
  import opened Cursors
  import opened Cache
  import opened Validate
  import L = Layout

  // ----- columns by number

  /** `col_desc`: the descriptor is read from its place without a check. */
  function DescAt(img: Image, i: nat): Desc
    requires L.HEADER_SIZE + (i + 1) * L.DESC_SIZE <= |img.bytes|
  {
    img.cols(i)
  }

  /** All descriptors lie in the buffer. */
  predicate DescsInside(img: Image)
  {
    L.HEADER_SIZE + img.numCols * L.DESC_SIZE <= |img.bytes|
  }

  /** `col_*`: any accessor on any column; where there is no cell of that kind it answers zero or empty. */
  function ColAs(e: Env, types: seq<DType>, col: nat, dt: DType): (v: Value)
    ensures TypeOf(v) == dt
  {
    if col >= |types| then Blank(dt)
    else
      match ColOffset(e.data, types, col)
      case None => Blank(dt)
      case Some(off) => ValueAt(e, off, dt)
  }

  function ValueAt(e: Env, off: nat, dt: DType): (v: Value)
    ensures TypeOf(v) == dt
  {
    if IsVar(dt) then
      match ResolveVar(e, off)
      case None => Blank(dt)
      case Some(b) => VarValue(dt, b)
    else if off + FixedSize(dt) <= |e.data| then DecodeFixed(dt, e.data[off..off + FixedSize(dt)])
    else Blank(dt)
  }

  /** An accessor of the column's own type answers the cell that access by number finds. */
  lemma ColAsIsIndexed(e: Env, types: seq<DType>, col: nat)
    requires col < |types|
    ensures ColAs(e, types, col, types[col])
            == match IndexedCell(e, types, col) case None => Blank(types[col]) case Some(v) => v
  {
  }

  /**
   An accessor of any type on any column answers a value encoded by the bytes at the column's offset, or
   zero or empty where there is no such offset or the record ends before.
   */
  lemma ColAsBytes(e: Env, types: seq<DType>, col: nat, dt: DType)
    requires !IsVar(dt)
    ensures var n, v := FixedSize(dt), ColAs(e, types, col, dt);
            if col >= |types| || ColOffset(e.data, types, col).None? then v == Blank(dt)
            else
              var off := ColOffset(e.data, types, col).value;
              if off + n <= |e.data| then Encode(v) == e.data[off..off + n] else v == Blank(dt)
  {
    hide Encode, DecodeFixed;
    if col < |types| && ColOffset(e.data, types, col).Some? {
      var off := ColOffset(e.data, types, col).value;
      if off + FixedSize(dt) <= |e.data| {
        FixedBytesBack(dt, e.data[off..off + FixedSize(dt)]);
      }
    }
  }

  method ReadCol(img: Image, e: Env, col: nat, dt: DType) returns (v: Value)
    requires DescsInside(img) && ColsOk(img)
    ensures v == ColAs(e, TypesOf(img), col, dt)
  {
    hide ResolveVar, VarFieldSize, DecodeFixed, ColsOk;
    ghost var types := TypesOf(img);
    if col >= img.numCols {
      return Blank(dt);
    }
    var off: nat, k: nat := 0, 0;
    while k < col
      invariant 0 <= k <= col
      invariant ColOffset(e.data, types, k) == Some(off)
    {
      var code := DescAt(img, k).dtype;
      var colType := FromCode(code).value;
      if IsVar(colType) {
        var n := VarFieldSize(e.data, off);
        if n.None? {
          NoOffsetAfter(e.data, types, k + 1, col);
          return Blank(dt);
        }
        off := off + n.value;
      } else {
        off := off + FixedSize(colType);
      }
      k := k + 1;
    }
    v := ValueAt(e, off, dt);
  }

  // ----- cursors

  /** The answers of a plain cursor asked for one cell after the other, of any types. */
  function CursorAnswers(e: Env, pos: nat, stale: bool, types: seq<DType>): Row
    decreases |types|
  {
    if types == [] then []
    else
      var r := CursorCell(e, pos, types[0]);
      if !stale && r.Cell? then [r.v] + CursorAnswers(e, r.next, false, types[1..])
      else [Blank(types[0])] + CursorAnswers(e, pos, true, types[1..])
  }

  lemma {:induction false} StaleAnswers(e: Env, pos: nat, pos': nat, types: seq<DType>)
    ensures CursorAnswers(e, pos, true, types) == CursorAnswers(e, pos', true, types)
    decreases |types|
  {
    hide CursorCell;
    if types != [] {
      StaleAnswers(e, pos, pos', types[1..]);
    }
  }

  method ReadPlain(e: Env, types: seq<DType>) returns (row: Row)
    ensures row == CursorAnswers(e, 0, false, types)
  {
    hide CursorCell, Blank;
    var c := new RowCursor(e, true);
    row := [];
    var k := 0;
    assert types[0..] == types;
    while k < |types|
      invariant 0 <= k <= |types| && c.e == e
      invariant row + CursorAnswers(e, c.pos, c.stale, types[k..]) == CursorAnswers(e, 0, false, types)
    {
      ghost var pos, stale, rest := c.pos, c.stale, types[k..];
      assert rest[0] == types[k] && rest[1..] == types[k + 1..];
      var v := c.Next(types[k], true);
      if c.stale {
        StaleAnswers(e, pos, c.pos, rest[1..]);
      }
      assert CursorAnswers(e, pos, stale, rest) == [v] + CursorAnswers(e, c.pos, c.stale, rest[1..]);
      Shift(row, v, CursorAnswers(e, c.pos, c.stale, rest[1..]));
      row := row + [v];
      k := k + 1;
    }
    assert types[k..] == [] && row + [] == row;
  }

  lemma Shift(row: Row, v: Value, rest: Row)
    ensures row + ([v] + rest) == (row + [v]) + rest
  {
  }

  method ReadCached(reader: CachedReader, e: Env, gen: nat, types: seq<DType>) returns (row: Row)
    requires Wf(reader.Model()) && InReach(reader.Model(), e)
    modifies reader
    ensures Wf(reader.Model()) && InReach(reader.Model(), e)
    ensures Matches(row, types)
    ensures Trusted(old(reader.Model()), e, gen) ==>
              Trusted(reader.Model(), e, gen) && row == CursorAnswers(e, 0, false, types)
  {
    hide CursorCell, Blank, Wf, InReach, Trusted, CachedCell;
    var c := new CachedCursor(e, gen, reader);
    row := [];
    var k := 0;
    ghost var trusted := Trusted(reader.Model(), e, gen);
    assert types[0..] == types;
    while k < |types|
      invariant 0 <= k <= |types| && |row| == k && c.e == e && c.gen == gen && c.reader == reader && fresh(c)
      invariant Wf(reader.Model()) && InReach(reader.Model(), e)
      invariant forall j :: 0 <= j < k ==> TypeOf(row[j]) == types[j]
      invariant trusted ==> Trusted(reader.Model(), e, gen)
      invariant trusted ==> row + CursorAnswers(e, c.pos, c.stale, types[k..]) == CursorAnswers(e, 0, false, types)
    {
      ghost var pos, stale, rest := c.pos, c.stale, types[k..];
      assert rest[0] == types[k] && rest[1..] == types[k + 1..];
      CachedCellKeeps(reader.Model(), e, gen, pos, types[k]);
      var v := c.Next(types[k]);
      if trusted {
        if c.stale {
          StaleAnswers(e, pos, c.pos, rest[1..]);
        }
        assert CursorAnswers(e, pos, stale, rest) == [v] + CursorAnswers(e, c.pos, c.stale, rest[1..]);
        Shift(row, v, CursorAnswers(e, c.pos, c.stale, rest[1..]));
      }
      row := row + [v];
      k := k + 1;
    }
    assert types[k..] == [] && row + [] == row;
  }

  // ----- everything a reader can ask

  /** One pass over a chunk: the extent a pin captured, the cells asked of the cursors, the columns by number. */
  datatype Request = Request(img: Image, pins: nat -> Pin, chunk: nat, used: nat, gen: nat,
                             cells: seq<DType>, cols: seq<(nat, DType)>)

  datatype Answer = Answer(plain: Row, cached: Row, cols: Row)

  /** An accepted buffer and an extent that `pin_chunk` can answer for one of its chunks. */
  ghost predicate Askable(q: Request, len: nat)
  {
    && Accepted(q.img, q.pins) && |q.img.bytes| == len
    && q.chunk < q.img.numChunks && CHUNK_HEADER + q.used <= q.img.chunkSize
  }

  function Base(q: Request): nat
  {
    ChunkAt(q.img, q.chunk) + CHUNK_HEADER
  }

  function EnvOf(q: Request, span: Span): Env
    requires span.from <= span.to <= |q.img.bytes|
  {
    Env(q.img.bytes[span.from..span.to], q.img.bytes, ChunkAt(q.img, q.chunk), q.img.chunkSize)
  }

  /** What acceptance gives the readers: descriptors and the whole chunk are in the buffer. */
  lemma AcceptedInside(q: Request, len: nat)
    requires Askable(q, len)
    ensures DescsInside(q.img) && ColsOk(q.img) && Base(q) + q.used <= ChunkAt(q.img, q.chunk) + q.img.chunkSize <= len
  {
    hide ColsOk, ChunkPasses;
    ChunkFits(q.img, q.chunk);
  }

  method ReadCols(q: Request, e: Env) returns (row: Row)
    requires DescsInside(q.img) && ColsOk(q.img)
    ensures |row| == |q.cols|
    ensures forall j :: 0 <= j < |row| ==> row[j] == ColAs(e, TypesOf(q.img), q.cols[j].0, q.cols[j].1)
  {
    hide ColAs, ColsOk;
    row := [];
    while |row| < |q.cols|
      invariant |row| <= |q.cols|
      invariant forall j :: 0 <= j < |row| ==> row[j] == ColAs(e, TypesOf(q.img), q.cols[j].0, q.cols[j].1)
    {
      var v := ReadCol(q.img, e, q.cols[|row|].0, q.cols[|row|].1);
      row := row + [v];
    }
  }

  /** The answers for one record. */
  ghost predicate Answers(q: Request, span: Span, a: Answer)
  {
    && span.from <= span.to <= |q.img.bytes| && ColsOk(q.img)
    && a.plain == CursorAnswers(EnvOf(q, span), 0, false, q.cells)
    && Matches(a.cached, q.cells)
    && |a.cols| == |q.cols|
    && forall j :: 0 <= j < |q.cols| ==>
         a.cols[j] == ColAs(EnvOf(q, span), TypesOf(q.img), q.cols[j].0, q.cols[j].1)
  }

  method ReadRecord(q: Request, span: Span, reader: CachedReader, ghost len: nat) returns (a: Answer)
    requires Askable(q, len) && Wf(reader.Model()) && reader.limit == len && span.from <= span.to <= len
    modifies reader
    ensures Wf(reader.Model()) && Answers(q, span, a)
  {
    hide Wf, ColAs, Accepted, CursorAnswers;
    AcceptedInside(q, len);
    var e := EnvOf(q, span);
    var plain := ReadPlain(e, q.cells);
    var cached := ReadCached(reader, e, q.gen, q.cells);
    var cols := ReadCols(q, e);
    a := Answer(plain, cached, cols);
  }

  /** All records of one request. */
  method ReadChunk(q: Request, reader: CachedReader, ghost len: nat) returns (answers: seq<Answer>)
    requires Askable(q, len) && Wf(reader.Model()) && reader.limit == len
    modifies reader
    ensures Wf(reader.Model())
    ensures Base(q) + q.used <= |q.img.bytes| && |answers| == |Walk(q.img.bytes, Base(q), Base(q) + q.used).spans|
    ensures forall r :: 0 <= r < |answers| ==>
              Answers(q, Walk(q.img.bytes, Base(q), Base(q) + q.used).spans[r], answers[r])
  {
    hide Wf, Walk, Answers, Accepted;
    AcceptedInside(q, len);
    var base, end := ChunkAt(q.img, q.chunk) + CHUNK_HEADER, ChunkAt(q.img, q.chunk) + CHUNK_HEADER + q.used;
    ghost var spans := Walk(q.img.bytes, base, end).spans;
    var it := new RowIter(q.img.bytes, base, end);
    answers := [];
    var going := true;
    while going
      invariant it.Valid() && it.buf == q.img.bytes && it.end == end && fresh(it) && Wf(reader.Model())
      invariant |answers| <= |spans| && spans[|answers|..] == Walk(q.img.bytes, it.pos, end).spans
      invariant forall r :: 0 <= r < |answers| ==> Answers(q, spans[r], answers[r])
      invariant !going ==> |answers| == |spans|
      decreases going, end - it.pos
    {
      var r := it.Next(true);
      if r.None? {
        going := false;
      } else {
        assert spans[|answers|..][0] == spans[|answers|] == r.value;
        var a := ReadRecord(q, r.value, reader, len);
        assert spans[|answers|..][1..] == spans[|answers| + 1..];
        answers := answers + [a];
      }
    }
  }

  /**
   Reader totality. Any sequence of requests on accepted buffers of one length, whoever wrote them and
   however their bytes changed from one request to the next, read through one cache: every iteration
   ends, every read meets its precondition, and each record is answered.
   */
  method ReadAll(requests: seq<Request>, len: nat, maxEntries: nat) returns (answers: seq<seq<Answer>>)
    requires forall k :: 0 <= k < |requests| ==> Askable(requests[k], len)
    ensures |answers| == |requests|
    ensures forall k :: 0 <= k < |requests| ==>
              var q := requests[k];
              && Base(q) + q.used <= |q.img.bytes|
              && var spans := Walk(q.img.bytes, Base(q), Base(q) + q.used).spans;
                 && |answers[k]| == |spans|
                 && forall r :: 0 <= r < |spans| ==> Answers(q, spans[r], answers[k][r])
  {
    hide Wf, Walk, Answers, Askable;
    var reader := new CachedReader(len, maxEntries);
    answers := [];
    while |answers| < |requests|
      invariant |answers| <= |requests| && fresh(reader) && Wf(reader.Model()) && reader.limit == len
      invariant forall k :: 0 <= k < |answers| ==>
                  var q := requests[k];
                  && Base(q) + q.used <= |q.img.bytes|
                  && var spans := Walk(q.img.bytes, Base(q), Base(q) + q.used).spans;
                     && |answers[k]| == |spans|
                     && forall r :: 0 <= r < |spans| ==> Answers(q, spans[r], answers[k][r])
    {
      var more := ReadChunk(requests[|answers|], reader, len);
      answers := answers + [more];
    }
  }
}
