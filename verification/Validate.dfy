/** The structural validator, what the writer's buffers owe it, and what readers may rely on after it. */
module Validate {
  import opened Bytes
  import opened Chunks
  import opened Schema
  import opened RowCodec
  import opened RowCheck
  import L = Layout
  import opened Ring
  import opened RingInv
  import opened RingRuns
  import Stream

  const MAGIC: nat := 0x4D45_4D54
  const VERSION: nat := 5
  const BYTE_ORDER: nat := 0x0201

  datatype Desc = Desc(nameLen: nat, dtype: nat)

  datatype ChunkImage = ChunkImage(state: nat, used: nat)

  /** A buffer by the fields the validator reads; descriptors and chunk headers by index. */
  datatype Image = Image(aligned: bool, bytes: seq<Byte>, magic: nat, version: nat, headerSize: nat, byteOrder: nat,
                         flags: nat, numCols: nat, numChunks: nat, chunkSize: nat, leaseOffset: nat, leaseSlots: nat,
                         dataOffset: nat, tsCol: nat, cols: nat -> Desc, chunks: nat -> ChunkImage)

  /** What `pin_chunk` answers for a chunk. */
  datatype Pin = Exhausted | NoRows | Snapshot(used: nat)

  /** A pin never captures more than the payload holds. */
  ghost predicate PinsFit(img: Image, pins: nat -> Pin)
  {
    forall i: nat :: pins(i).Snapshot? ==> CHUNK_HEADER + pins(i).used <= img.chunkSize
  }

  // ----- rows of a chunk

  ghost predicate RowsPass(buf: seq<Byte>, pos: nat, end: nat, types: seq<DType>, dedup: bool, used: nat)
    requires pos <= end <= |buf|
  {
    var w := Walk(buf, pos, end);
    && end - w.stop < 4
    && forall k :: 0 <= k < |w.spans| ==> ColsPass(buf[w.spans[k].from..w.spans[k].to], 0, types, dedup, used)
  }

  method CheckCols(data: seq<Byte>, types: seq<DType>, dedup: bool, used: nat) returns (ok: bool)
    ensures ok == ColsPass(data, 0, types, dedup, used)
  {
    hide Read32;
    var off: nat, ci: nat := 0, 0;
    assert types[0..] == types;
    while ci < |types|
      invariant 0 <= ci <= |types|
      invariant ColsPass(data, 0, types, dedup, used) == ColsPass(data, off, types[ci..], dedup, used)
    {
      assert types[ci..][0] == types[ci] && types[ci..][1..] == types[ci + 1..];
      if off >= |data| {
        return true;
      }
      if !IsVar(types[ci]) {
        off := off + FixedSize(types[ci]);
      } else if off + 4 <= |data| {
        var raw: int := Signed32(Read32(data[off..off + 4]));
        if raw < 0 {
          if !dedup || raw == -TWO_31 || -raw < CHUNK_HEADER || -raw >= CHUNK_HEADER + used {
            return false;
          }
          off := off + 4;
        } else {
          off := off + 4 + raw;
        }
      }
      ci := ci + 1;
    }
    ok := true;
  }

  lemma RowsStep(buf: seq<Byte>, pos: nat, next: nat, end: nat, types: seq<DType>, dedup: bool, used: nat)
    requires pos + 4 <= end <= |buf| && next == pos + 4 + Read32(buf[pos..pos + 4]) && next <= end
    ensures RowsPass(buf, pos, end, types, dedup, used)
            <==> ColsPass(buf[pos + 4..next], 0, types, dedup, used) && RowsPass(buf, next, end, types, dedup, used)
  {
    hide Read32, ColsPass;
    WalkStep(buf, pos, next, end);
    var w, rest := Walk(buf, pos, end), Walk(buf, next, end);
    assert w.spans[0] == Span(pos + 4, next);
    if RowsPass(buf, pos, end, types, dedup, used) {
      forall k | 0 <= k < |rest.spans|
        ensures ColsPass(buf[rest.spans[k].from..rest.spans[k].to], 0, types, dedup, used)
      {
        assert w.spans[k + 1] == rest.spans[k];
      }
    }
  }

  lemma RowsStuck(buf: seq<Byte>, pos: nat, end: nat, types: seq<DType>, dedup: bool, used: nat)
    requires pos <= end <= |buf|
    ensures pos + 4 > end ==> RowsPass(buf, pos, end, types, dedup, used)
    ensures pos + 4 <= end && pos + 4 + Read32(buf[pos..pos + 4]) > end ==> !RowsPass(buf, pos, end, types, dedup, used)
  {
    hide Read32;
  }

  /** `validate_chunk_rows`. */
  method ValidateChunkRows(buf: seq<Byte>, cs: nat, used: nat, types: seq<DType>, dedup: bool) returns (ok: bool)
    requires cs + CHUNK_HEADER + used <= |buf|
    ensures ok == RowsPass(buf, cs + CHUNK_HEADER, cs + CHUNK_HEADER + used, types, dedup, used)
  {
    hide RowsPass, Read32, ColsPass;
    var base := cs + CHUNK_HEADER;
    var pos := 0;
    while pos + 4 <= used
      invariant pos <= used
      invariant RowsPass(buf, base, base + used, types, dedup, used)
                == RowsPass(buf, base + pos, base + used, types, dedup, used)
    {
      var rowLen := Read32(buf[base + pos..base + pos + 4]);
      RowsStuck(buf, base + pos, base + used, types, dedup, used);
      if pos + 4 + rowLen > used {
        return false;
      }
      var rowStart := base + pos + 4;
      RowsStep(buf, base + pos, rowStart + rowLen, base + used, types, dedup, used);
      var cols := CheckCols(buf[rowStart..rowStart + rowLen], types, dedup, used);
      if !cols {
        return false;
      }
      pos := pos + 4 + rowLen;
    }
    RowsStuck(buf, base + pos, base + used, types, dedup, used);
    ok := true;
  }

  // ----- the whole buffer

  predicate HeaderOk(img: Image)
  {
    && |img.bytes| >= L.HEADER_SIZE && img.aligned && img.magic == MAGIC && img.version == VERSION
    && img.headerSize >= L.HEADER_SIZE && img.byteOrder == BYTE_ORDER && img.flags <= 1 && img.numChunks > 0
    && img.chunkSize >= CHUNK_HEADER + 8 && img.chunkSize % L.CHUNK_ALIGN == 0
    && L.CheckedLeaseOffset(img.numCols) == Some(img.leaseOffset) && img.leaseSlots == L.LEASE_SLOTS
    && L.CheckedDataOffset(img.numCols, img.numChunks) == Some(img.dataOffset) && img.dataOffset < TWO_32
    && img.dataOffset + img.chunkSize * img.numChunks < TWO_64
    && img.dataOffset + img.chunkSize * img.numChunks <= |img.bytes|
  }

  predicate DescOk(d: Desc)
  {
    d.nameLen <= L.MAX_NAME && 1 <= d.dtype <= 9
  }

  predicate ColsOk(img: Image)
  {
    forall i :: 0 <= i < img.numCols ==> DescOk(img.cols(i))
  }

  function TypesOf(img: Image): (types: seq<DType>)
    requires ColsOk(img)
    ensures |types| == img.numCols && forall i :: 0 <= i < img.numCols ==> FromCode(img.cols(i).dtype) == Some(types[i])
  {
    seq(img.numCols, i requires 0 <= i < img.numCols => assert DescOk(img.cols(i)); FromCode(img.cols(i).dtype).value)
  }

  predicate TsOk(img: Image)
  {
    img.tsCol != 0 ==> img.tsCol <= img.numCols && img.cols(img.tsCol - 1).dtype == Code(DI64)
  }

  function ChunkAt(img: Image, i: nat): nat
  {
    img.dataOffset + i * img.chunkSize
  }

  lemma ChunkFits(img: Image, i: nat)
    requires HeaderOk(img) && i < img.numChunks
    ensures ChunkAt(img, i) + img.chunkSize <= |img.bytes|
  {
    ProductGrows(i, img.numChunks, img.chunkSize);
    assert img.chunkSize * img.numChunks == img.numChunks * img.chunkSize;
  }

  ghost predicate ChunkPasses(img: Image, i: nat, pin: Pin)
    requires HeaderOk(img) && ColsOk(img) && i < img.numChunks
  {
    && img.chunks(i).state <= 2 && CHUNK_HEADER + img.chunks(i).used <= img.chunkSize && !pin.Exhausted?
    && (pin.Snapshot? && CHUNK_HEADER + pin.used <= img.chunkSize ==>
          (ChunkFits(img, i);
           var base := ChunkAt(img, i) + CHUNK_HEADER;
           RowsPass(img.bytes, base, base + pin.used, TypesOf(img), img.flags == 1, pin.used)))
  }

  /** Everything `validate_buf` checks. */
  ghost predicate Accepted(img: Image, pins: nat -> Pin)
  {
    HeaderOk(img) && ColsOk(img) && TsOk(img) && forall i :: 0 <= i < img.numChunks ==> ChunkPasses(img, i, pins(i))
  }

  method ValidateChunk(img: Image, i: nat, pin: Pin) returns (ok: bool)
    requires HeaderOk(img) && ColsOk(img) && i < img.numChunks
    requires pin.Snapshot? ==> CHUNK_HEADER + pin.used <= img.chunkSize
    ensures ok == ChunkPasses(img, i, pin)
  {
    hide RowsPass, ColsOk, HeaderOk;
    ChunkFits(img, i);
    if img.chunks(i).state > 2 || img.chunks(i).used > img.chunkSize - CHUNK_HEADER {
      assert img.chunkSize >= CHUNK_HEADER by {
        ChunkRoom(img);
      }
      return false;
    }
    match pin {
      case Exhausted => ok := false;
      case NoRows => ok := true;
      case Snapshot(used) =>
        if used > 0 {
          ok := ValidateChunkRows(img.bytes, ChunkAt(img, i), used, TypesOf(img), img.flags == 1);
        } else {
          var base := ChunkAt(img, i) + CHUNK_HEADER;
          RowsStuck(img.bytes, base, base, TypesOf(img), img.flags == 1, 0);
          ok := true;
        }
    }
  }

  lemma ChunkRoom(img: Image)
    requires HeaderOk(img)
    ensures img.chunkSize >= CHUNK_HEADER + 8
  {
  }

  method ValidateCols(img: Image) returns (ok: bool)
    ensures ok == ColsOk(img)
  {
    var i := 0;
    while i < img.numCols
      invariant 0 <= i <= img.numCols && forall j :: 0 <= j < i ==> DescOk(img.cols(j))
    {
      if img.cols(i).nameLen > L.MAX_NAME || !(1 <= img.cols(i).dtype <= 9) {
        assert !DescOk(img.cols(i));
        return false;
      }
      i := i + 1;
    }
    ok := true;
  }

  /** `validate_buf`. */
  method ValidateBuf(img: Image, pins: nat -> Pin) returns (ok: bool)
    requires PinsFit(img, pins)
    ensures ok == Accepted(img, pins)
  {
    hide ChunkPasses, HeaderOk, ColsOk;
    if !HeaderOk(img) {
      return false;
    }
    var cols := ValidateCols(img);
    if !cols || !TsOk(img) {
      return false;
    }
    var i := 0;
    while i < img.numChunks
      invariant 0 <= i <= img.numChunks && forall j :: 0 <= j < i ==> ChunkPasses(img, j, pins(j))
    {
      var one := ValidateChunk(img, i, pins(i));
      if !one {
        return false;
      }
      i := i + 1;
    }
    ok := true;
  }

  // ----- the writer's buffers are accepted

  function StateCode(p: Phase): nat
  {
    match p case Empty => 0 case Writing => 1 case Sealed => 2
  }

  function NameLen(name: seq<Byte>): nat
  {
    if |name| < L.MAX_NAME then |name| else L.MAX_NAME
  }

  /** A table as the validator sees it. */
  ghost function ImageOf(t: Tab, cols: seq<L.Col>): Image
  {
    Image(true, t.bytes, MAGIC, VERSION, L.HEADER_SIZE, BYTE_ORDER, if t.dedup then 1 else 0,
          |cols|, t.cfg.numChunks, t.cfg.chunkSize,
          match L.CheckedLeaseOffset(|cols|) case None => 0 case Some(off) => off,
          L.LEASE_SLOTS, t.cfg.dataOffset, t.cfg.tsCol,
          (i: nat) => if i < |cols| then Desc(NameLen(cols[i].name), Code(cols[i].dtype)) else Desc(0, 0),
          (i: nat) => if i < |t.heads| then ChunkImage(StateCode(t.heads[i].state), t.heads[i].used)
                      else ChunkImage(0, 0))
  }

  /** On a quiescent table with a free lease slot, a pin captures the published extent. */
  function PinsOf(t: Tab): nat -> Pin
  {
    (i: nat) => if i < |t.heads| && t.heads[i].state != Empty then Snapshot(t.heads[i].used) else NoRows
  }

  /** The table was laid out by `init_buf` for these columns. */
  ghost predicate LaidOut(t: Tab, cols: seq<L.Col>)
  {
    && 0 < t.cfg.numChunks < TWO_32 && t.cfg.chunkSize < TWO_32
    && L.InitPlan(true, |t.bytes|, |cols|, t.cfg.chunkSize, t.cfg.numChunks).Some?
    && t.cfg.dataOffset == L.InitPlan(true, |t.bytes|, |cols|, t.cfg.chunkSize, t.cfg.numChunks).value.dataOffset
    && |t.cfg.types| == |cols| && (forall i :: 0 <= i < |cols| ==> t.cfg.types[i] == cols[i].dtype)
    && t.cfg.tsCol == L.TsColOf(cols)
  }

  lemma LaidOutHeader(t: Tab, cols: seq<L.Col>)
    requires LaidOut(t, cols)
    ensures HeaderOk(ImageOf(t, cols)) && ColsOk(ImageOf(t, cols)) && TypesOf(ImageOf(t, cols)) == t.cfg.types
  {
    hide LaidOut, HeaderOk;
    LaidOutOffsets(t, cols);
    LaidOutCols(t, cols);
  }

  lemma LaidOutOffsets(t: Tab, cols: seq<L.Col>)
    requires LaidOut(t, cols)
    ensures HeaderOk(ImageOf(t, cols))
  {
    hide L.CheckedDataOffset, L.CheckedLeaseOffset, L.TsColOf;
    L.PlanFacts(true, |t.bytes|, |cols|, t.cfg.chunkSize, t.cfg.numChunks);
  }

  lemma LaidOutCols(t: Tab, cols: seq<L.Col>)
    requires LaidOut(t, cols)
    ensures ColsOk(ImageOf(t, cols)) && TypesOf(ImageOf(t, cols)) == t.cfg.types
  {
    hide L.InitPlan, L.TsColOf, L.CheckedLeaseOffset, Code, FromCode;
    var img := ImageOf(t, cols);
    CodesBack();
    forall i | 0 <= i < |cols|
      ensures DescOk(img.cols(i)) && FromCode(img.cols(i).dtype) == Some(t.cfg.types[i])
    {
      assert img.cols(i) == Desc(NameLen(cols[i].name), Code(cols[i].dtype));
    }
  }

  lemma CodesBack()
    ensures forall dt :: 1 <= Code(dt) <= 9 && FromCode(Code(dt)) == Some(dt)
  {
  }

  lemma ChunkOfTable(t: Tab, cols: seq<L.Col>, i: nat, rows: seq<Row>)
    requires LaidOut(t, cols) && Ring.Sized(t) && Small(t.cfg) && i < |t.heads| && ChunkOk(t, i, rows)
    requires HeaderOk(ImageOf(t, cols)) && ColsOk(ImageOf(t, cols)) && TypesOf(ImageOf(t, cols)) == t.cfg.types
    ensures ChunkPasses(ImageOf(t, cols), i, PinsOf(t)(i))
  {
    hide Walk, ColsPass, CursorRow, RangeExact, LaidOut, HeaderOk, ColsOk, TypesOf;
    var img, w := ImageOf(t, cols), Records(t, i);
    ChunkInside(t, i);
    assert ChunkAt(img, i) == StartOf(t.cfg, i);
    forall k | 0 <= k < |w.spans|
      ensures ColsPass(t.bytes[w.spans[k].from..w.spans[k].to], 0, t.cfg.types, t.dedup, t.heads[i].used)
    {
      assert RowOk(t, i, w.spans[k], rows[k]);
    }
  }

  lemma RunLaidOut(ts: seq<Tab>, ops: seq<Op>, k: nat, cols: seq<L.Col>)
    requires IsRun(ts, ops) && k < |ts| && LaidOut(ts[0], cols)
    ensures LaidOut(ts[k], cols)
  {
    hide Do, Legal, LaidOut, TableOk, StartOf;
    var g, g' := LogAt(ts, ops, 0), LogAt(ts, ops, k);
    Shape(ts[0], g);
    Shape(ts[k], g');
    RunKeepsSize(ts, ops, k);
    SameLaidOut(ts[0], ts[k], cols);
  }

  lemma SameLaidOut(t: Tab, t': Tab, cols: seq<L.Col>)
    requires LaidOut(t, cols) && t'.cfg == t.cfg && |t'.bytes| == |t.bytes|
    ensures LaidOut(t', cols)
  {
  }

  /**
   Writer output is valid. After `init_buf` and any run, the validator accepts the buffer if and only
   if the recorded timestamp column, an index cut to 16 bits, is none or names an I64 column.
   */
  lemma WriterOutputValid(ts: seq<Tab>, ops: seq<Op>, k: nat, cols: seq<L.Col>)
    requires IsRun(ts, ops) && k < |ts| && LaidOut(ts[0], cols) && Small(ts[0].cfg)
    ensures Accepted(ImageOf(ts[k], cols), PinsOf(ts[k]))
            <==> (L.TsColOf(cols) == 0 || cols[L.TsColOf(cols) - 1].dtype == DI64)
    ensures |cols| <= 0xFFFF ==> Accepted(ImageOf(ts[k], cols), PinsOf(ts[k]))
  {
    hide Do, Legal, Initial, LogAt, ChunkOk, MemoOk, RingShape, Flat, StartOf, HeaderOk, ColsOk;
    hide TypesOf, ChunkPasses, PinsOf;
    var t, g, img := ts[k], LogAt(ts, ops, k), ImageOf(ts[k], cols);
    assert TableOk(t, g);
    RunKeepsSize(ts, ops, k);
    RunLaidOut(ts, ops, k, cols);
    LaidOutHeader(t, cols);
    forall i | 0 <= i < img.numChunks
      ensures ChunkPasses(img, i, PinsOf(t)(i))
    {
      ChunkOfTable(t, cols, i, g.rows[i]);
    }
    TsOfImage(t, cols);
  }

  lemma TsOfImage(t: Tab, cols: seq<L.Col>)
    requires t.cfg.tsCol == L.TsColOf(cols)
    ensures L.TsColOf(cols) <= |cols|
    ensures TsOk(ImageOf(t, cols)) <==> (L.TsColOf(cols) == 0 || cols[L.TsColOf(cols) - 1].dtype == DI64)
    ensures |cols| <= 0xFFFF ==> TsOk(ImageOf(t, cols))
  {
    if L.FirstTs(cols).Some? {
      L.TsColExact(cols);
    }
  }

  lemma DedupKept(t: Tab, g: Log, op: Op)
    requires TableOk(t, g) && Legal(t, op)
    ensures Do(t, op).dedup <==> t.dedup || op.AttachDedup?
  {
    hide TableOk, Append, Appendable, StartOf, Stream.Puts, Stream.OnlyFree, MemoOk;
    Shape(t, g);
    match op
    case AppendRow(row) =>
      if AppendChecked(t, row).1 {
        AppendDedup(t, row);
      }
    case PushRow(row, pinned) =>
      AdvanceSized(t, pinned);
      if Accepts(t, row) {
        AppendDedup(t, row);
      } else if Accepts(Ring.Advance(t, pinned).0, row) {
        AppendDedup(Ring.Advance(t, pinned).0, row);
      }
    case StreamRow(row) =>
      Stream.RoomForLength(t, row);
      Stream.StreamingEqualsBatch(t, row);
      if Appendable(t, row) {
        AppendDedup(t, row);
      }
    case StreamDropped(puts) => Stream.DroppedRow(t, puts);
    case _ =>
  }

  lemma AppendDedup(t: Tab, row: Row)
    requires Ring.Sized(t) && Appendable(t, row)
    ensures Append(t, row).dedup == t.dedup
  {
    hide StartOf, RowBytes, CellsOf, Record;
    CommitFrame(t, CellsOf(t, row), row);
  }

  lemma {:induction false} DedupSince(ts: seq<Tab>, ops: seq<Op>, k: nat)
    requires IsRun(ts, ops) && k < |ts|
    ensures ts[k].dedup <==> exists j :: 0 <= j < k && ops[j] == AttachDedup
    decreases k
  {
    hide TableOk, Do, Legal;
    if k > 0 {
      DedupSince(ts, ops, k - 1);
      DedupKept(ts[k - 1], LogAt(ts, ops, k - 1), ops[k - 1]);
      assert ops[k - 1].AttachDedup? <==> ops[k - 1] == AttachDedup;
    }
  }

  /**
   What the buffer says after a run. The dedup flag is set exactly if a dedup writer was ever attached, a
   chunk reads 0 exactly if it was never written to, 1 if it is the write chunk and 2 otherwise, and a
   column name is kept whole exactly up to 54 bytes.
   */
  lemma WriterHeader(ts: seq<Tab>, ops: seq<Op>, k: nat, cols: seq<L.Col>, i: nat)
    requires IsRun(ts, ops) && k < |ts|
    ensures var t, img := ts[k], ImageOf(ts[k], cols);
            && img.flags == (if exists j :: 0 <= j < k && ops[j] == AttachDedup then 1 else 0)
            && (i < |t.heads| ==>
                  && img.chunks(i).used == t.heads[i].used
                  && img.chunks(i).state == if t.heads[i].gen == 0 then 0 else if i == t.wc then 1 else 2)
            && (i < |cols| ==>
                  (img.cols(i).nameLen == |cols[i].name| <==> |cols[i].name| <= 54) && img.cols(i).nameLen <= 54)
  {
    hide Do, Legal, LogOk, MemoOk, Walk, RowOk, RangeExact, StartOf;
    var t, g := ts[k], LogAt(ts, ops, k);
    DedupSince(ts, ops, k);
    assert TableOk(t, g);
    if i < |t.heads| {
      Shape(t, g);
      assert ChunkOk(t, i, g.rows[i]);
    }
  }

  /** 65536 columns of bytes and then a timestamp column. */
  function WideCols(): (cols: seq<L.Col>)
    ensures |cols| == 0x1_0001 && cols[0x1_0000] == L.Col(L.TS, DI64)
    ensures forall i :: 0 <= i < 0x1_0000 ==> cols[i] == L.Col([], DU8)
  {
    seq(0x1_0000, _ => L.Col([], DU8)) + [L.Col(L.TS, DI64)]
  }

  lemma WideTsCol()
    ensures L.TsColOf(WideCols()) == 1
  {
    var cols := WideCols();
    assert L.IsTsCol(cols[0x1_0000]);
    assert forall i :: 0 <= i < 0x1_0000 ==> !L.IsTsCol(cols[i]);
    assert L.FirstTs(cols) == Some(0x1_0000);
  }

  /** A table of one chunk that `init_buf` makes for these columns. */
  ghost function WideTable(): Tab
  {
    var cols := WideCols();
    var offset := match L.CheckedDataOffset(|cols|, 1) case None => 0 case Some(off) => off;
    var cfg := Cfg(seq(|cols|, i requires 0 <= i < |cols| => cols[i].dtype), MIN_CHUNK, 1, offset, 1, (c, d) => 0);
    Tab(cfg, seq(offset + MIN_CHUNK, _ => 0), [InitialHead(0)], 0, 0, 0, 0, false, None)
  }

  lemma WideOffset()
    ensures L.CheckedDataOffset(0x1_0001, 1).Some? && L.CheckedDataOffset(0x1_0001, 1).value < 0x41_0000
  {
    assert L.CheckedLeaseOffset(0x1_0001).Some? && L.CheckedLeaseOffset(0x1_0001).value < 0x40_1000;
  }

  lemma WideTableInit()
    ensures Initial(WideTable()) && LaidOut(WideTable(), WideCols())
  {
    hide L.CheckedDataOffset, L.CheckedLeaseOffset, L.TsColOf;
    WideTsCol();
    WideOffset();
    var t := WideTable();
    assert StartOf(t.cfg, 1) == t.cfg.dataOffset + MIN_CHUNK;
  }

  /**
   A layout that `init_buf` accepts and the validator rejects: the timestamp column at index 65536 is
   recorded as column 0, which holds bytes.
   */
  lemma WideTableRejected()
    ensures var t, cols := WideTable(), WideCols();
            Initial(t) && LaidOut(t, cols) && !Accepted(ImageOf(t, cols), PinsOf(t))
  {
    hide Initial, LaidOut, Accepted, ImageOf, PinsOf, WideTable;
    WideTsCol();
    WideTableInit();
    WideSmall();
    WriterOutputValid([WideTable()], [], 0, WideCols());
  }

  lemma WideSmall()
    ensures Small(WideTable().cfg)
  {
  }
}
