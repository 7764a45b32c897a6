/** A value repeated within a chunk is stored once: what the dedup memory knows over a run, and what that saves. */
module Repeats {
  import opened Bytes
  import opened Chunks
  import opened Schema
  import opened RowCodec
  import opened Dedup
  import opened Ring
  import opened RingInv
  import opened RingSteps
  import opened RingRuns
  import Stream

  /** The memory of the write chunk leads from this column and these bytes to a place that holds them. */
  ghost predicate Knows(t: Tab, col: nat, data: seq<Byte>)
    requires Ring.Sized(t)
  {
    && t.memo.Some? && t.cfg.hash(col, data) in t.memo.value.seen
    && ResolveRef(HereEnv(t), t.memo.value.seen[t.cfg.hash(col, data)]) == Some(data)
  }

  /** Another value of the row, long enough to be remembered, takes the key of these bytes. */
  predicate Clashes(h: Hash, minLen: nat, row: Row, col: nat, data: seq<Byte>)
  {
    exists k :: 0 <= k < |row| && IsVar(TypeOf(row[k])) && |Payload(row[k])| >= minLen
                && h(k, Payload(row[k])) == h(col, data) && (k != col || Payload(row[k]) != data)
  }

  /** Long enough to be remembered and looked up. */
  predicate LongEnough(t: Tab, data: seq<Byte>)
  {
    t.memo.Some? && |data| >= t.memo.value.minLen
  }

  // ----- what an append teaches the memory

  /** Every new entry is the key and the place of an inline cell. */
  lemma {:induction false} EntryHolds(e: Env, h: Hash, minLen: nat, cells: seq<Stored>, col: nat, off: nat, i: nat)
      returns (k: nat)
    requires RowCodec.Sized(e) && CHUNK_HEADER <= off && off + |RowBytes(cells)| <= e.size
    requires e.buf[e.start + off..e.start + off + |RowBytes(cells)|] == RowBytes(cells)
    requires i < |Entries(h, minLen, cells, col, off)|
    ensures k < |cells| && IsVar(TypeOf(cells[k].v)) && |Payload(cells[k].v)| >= minLen
    ensures Entries(h, minLen, cells, col, off)[i].0 == h(col + k, Payload(cells[k].v))
    ensures ResolveRef(e, Entries(h, minLen, cells, col, off)[i].1) == Some(Payload(cells[k].v))
    decreases |cells|
  {
    hide CellBytes, ResolveRef;
    var n, m := |CellBytes(cells[0])|, |RowBytes(cells)|;
    var at := e.start + off;
    SliceOfSlice(e.buf, at, at + m, 0, n);
    SliceOfSlice(e.buf, at, at + m, n, m);
    assert RowBytes(cells)[0..n] == CellBytes(cells[0]) && RowBytes(cells)[n..m] == RowBytes(cells[1..]);
    var first := CellEntry(h, minLen, col, cells[0], off);
    if i < |first| {
      FirstResolves(e, h, minLen, cells[0], col, off);
      k := 0;
    } else {
      k := EntryHolds(e, h, minLen, cells[1..], col + 1, off + n, i - |first|);
      k := k + 1;
    }
  }

  /** Every inline cell that is long enough has its entry. */
  lemma {:induction false} EntryThere(h: Hash, minLen: nat, cells: seq<Stored>, col: nat, off: nat, k: nat)
      returns (i: nat)
    requires k < |cells| && cells[k].Inline? && IsVar(TypeOf(cells[k].v)) && |Payload(cells[k].v)| >= minLen
    ensures i < |Entries(h, minLen, cells, col, off)|
    ensures Entries(h, minLen, cells, col, off)[i].0 == h(col + k, Payload(cells[k].v))
    decreases |cells|
  {
    hide CellBytes;
    if k == 0 {
      i := 0;
    } else {
      i := EntryThere(h, minLen, cells[1..], col + 1, off + |CellBytes(cells[0])|, k - 1);
      i := i + |CellEntry(h, minLen, col, cells[0], off)|;
    }
  }

  /** A reference is only ever written for bytes the memory already knows. */
  lemma RefIsKnown(t: Tab, row: Row, col: nat)
    requires Ring.Sized(t) && MemoOk(t) && t.memo.Some? && col < |row|
    requires CellsOf(t, row)[col].Ref?
    ensures IsVar(TypeOf(row[col])) && Knows(t, col, Payload(row[col]))
  {
    hide StartOf, ResolveRef, LiesAt;
    LookedUpCell(t, col, row[col]);
  }

  /** After a row is appended the memory knows its long enough cells, and what it knew before. */
  lemma AppendKnows(t: Tab, row: Row, col: nat, data: seq<Byte>)
    requires Ring.Sized(t) && MemoOk(t) && t.memo.Some? && Appendable(t, row)
    requires !Clashes(t.cfg.hash, t.memo.value.minLen, row, col, data)
    requires Knows(t, col, data)
             || (col < |row| && IsVar(TypeOf(row[col])) && Payload(row[col]) == data && |data| >= t.memo.value.minLen)
    ensures Ring.Sized(Append(t, row)) && Knows(Append(t, row), col, data)
  {
    hide StartOf, RowBytes, CellsOf, Commit, Entries, Remember, ResolveRef, Agree, Le4;
    var t', cells, m, key := Append(t, row), CellsOf(t, row), t.memo.value, t.cfg.hash(col, data);
    CommitBytes(t, cells, row);
    CommitFrame(t, cells, row);
    var first := CHUNK_HEADER + t.heads[t.wc].used + 4;
    var entries := Entries(t.cfg.hash, m.minLen, cells, 0, first);
    assert t'.memo.value.seen == Remember(m.seen, entries);
    if Knows(t, col, data) {
      RememberHas(m.seen, entries, key);
    } else {
      if cells[col].Ref? {
        RefIsKnown(t, row, col);
      }
      var i := EntryThere(t.cfg.hash, m.minLen, cells, 0, first, col);
      RememberNew(m.seen, entries, i);
    }
    var off := t'.memo.value.seen[key];
    if (key, off) in entries {
      EntryKnown(t, t', row, col, data, off);
    } else {
      RememberFrom(m.seen, entries, key);
      PlaceStays(t, t', off);
    }
  }

  lemma EntryKnown(t: Tab, t': Tab, row: Row, col: nat, data: seq<Byte>, off: nat)
    requires Ring.Sized(t) && Ring.Sized(t') && t.memo.Some? && t'.cfg == t.cfg && t'.wc == t.wc
    requires !Clashes(t.cfg.hash, t.memo.value.minLen, row, col, data)
    requires var body := RowBytes(CellsOf(t, row));
             && EndOf(t', t.wc) == EndOf(t, t.wc) + 4 + |body| && EndOf(t', t.wc) <= |t'.bytes|
             && t'.bytes[EndOf(t, t.wc) + 4..EndOf(t', t.wc)] == body
    requires (t.cfg.hash(col, data), off)
             in Entries(t.cfg.hash, t.memo.value.minLen, CellsOf(t, row), 0, CHUNK_HEADER + t.heads[t.wc].used + 4)
    ensures ResolveRef(HereEnv(t'), off) == Some(data)
  {
    hide StartOf, RowBytes, CellsOf, Entries, ResolveRef;
    ChunkInside(t', t.wc);
    var cells, first := CellsOf(t, row), CHUNK_HEADER + t.heads[t.wc].used + 4;
    var entries := Entries(t.cfg.hash, t.memo.value.minLen, cells, 0, first);
    var i :| 0 <= i < |entries| && entries[i] == (t.cfg.hash(col, data), off);
    var k := EntryHolds(HereEnv(t'), t.cfg.hash, t.memo.value.minLen, cells, 0, first, i);
    assert cells[k].v == row[k];
  }

  lemma PlaceStays(t: Tab, t': Tab, off: nat)
    requires Ring.Sized(t) && Ring.Sized(t') && t'.cfg == t.cfg && t'.wc == t.wc
    requires t.heads[t.wc].used <= t'.heads[t.wc].used
    requires Agree(t.bytes, t'.bytes, 0, EndOf(t, t.wc)) && ResolveRef(HereEnv(t), off).Some?
    ensures ResolveRef(HereEnv(t'), off) == ResolveRef(HereEnv(t), off)
  {
    hide StartOf, ResolveRef, Agree;
    AgreeSub(t.bytes, t'.bytes, 0, EndOf(t, t.wc), StartOf(t.cfg, t.wc) + CHUNK_HEADER, EndOf(t, t.wc));
    RefStable(HereEnv(t), HereEnv(t'), off);
  }

  // ----- what the memory knows, over a run

  /** The write chunk is the same one and was not recycled in between. */
  predicate SameChunk(t: Tab, t': Tab)
  {
    t.wc == t'.wc < |t.heads| && t.wc < |t'.heads| && t'.heads[t.wc].gen == t.heads[t.wc].gen
  }

  /** Writes to free bytes leave known what was known. */
  lemma FreeBytesKnow(t: Tab, b: seq<Byte>, col: nat, data: seq<Byte>)
    requires Ring.Sized(t) && Stream.OnlyFree(t, b) && Knows(t, col, data)
    ensures Ring.Sized(t.(bytes := b)) && Knows(t.(bytes := b), col, data)
  {
    hide StartOf, ResolveRef;
    ChunkInside(t, t.wc);
    assert t.bytes[0..EndOf(t, t.wc)] == b[0..EndOf(t, t.wc)];
    PlaceStays(t, t.(bytes := b), t.memo.value.seen[t.cfg.hash(col, data)]);
  }

  lemma KnowsMemo(t: Tab, col: nat, data: seq<Byte>)
    requires Ring.Sized(t) && Knows(t, col, data)
    ensures t.memo.Some?
  {
  }

  /** A refused advance, or another minimum length, changes nothing the memory leads to. */
  lemma OthersKnow(t: Tab, len: nat, col: nat, data: seq<Byte>)
    requires Ring.Sized(t) && Knows(t, col, data)
    ensures Ring.Sized(Ring.Advance(t, true).0) && Knows(Ring.Advance(t, true).0, col, data)
    ensures var t' := t.(memo := Some(t.memo.value.(minLen := len))); Ring.Sized(t') && Knows(t', col, data)
  {
    var t' := t.(memo := Some(t.memo.value.(minLen := len)));
    assert HereEnv(t') == HereEnv(Ring.Advance(t, true).0) == HereEnv(t);
  }

  lemma AdvanceLeaves(t: Tab)
    requires Ring.Sized(t)
    ensures !SameChunk(t, Ring.Advance(t, false).0)
  {
    hide StartOf, NextChunk;
    AdvanceFrame(t);
  }

  lemma AppendInPlace(t: Tab, row: Row)
    requires Ring.Sized(t) && Appendable(t, row)
    ensures SameChunk(t, Append(t, row)) && Ring.Sized(Append(t, row))
    ensures t.memo.Some? ==> Append(t, row).memo.Some? && Append(t, row).memo.value.minLen == t.memo.value.minLen
    ensures t.memo.None? ==> Append(t, row).memo.None?
  {
    hide StartOf, RowBytes, CellsOf, Record, Entries;
    CommitFrame(t, CellsOf(t, row), row);
    CommitBytes(t, CellsOf(t, row), row);
  }

  /** A push that does not fit leaves the chunk, unless a reader keeps it from doing so. */
  lemma PushLeaves(t: Tab, row: Row)
    requires Ring.Sized(t) && Matches(row, t.cfg.types) && !Accepts(t, row)
    ensures !SameChunk(t, TryPush(t, row, false).0)
  {
    hide StartOf, Append, Appendable, Ring.Advance;
    AdvanceSized(t, false);
    AdvanceLeaves(t);
    AdvanceFrame(t);
    var t' := Ring.Advance(t, false).0;
    if Accepts(t', row) {
      AppendInPlace(t', row);
    }
  }

  /** An operation that leaves the write chunk in place and takes no key keeps what is known. */
  lemma StepKnows(t: Tab, g: Log, op: Op, col: nat, data: seq<Byte>)
    requires TableOk(t, g) && Legal(t, op) && Knows(t, col, data)
    requires SameChunk(t, Do(t, op)) && Do(t, op).memo.Some? && !op.AttachDedup?
    requires forall row :: row in Reported(t, op) ==> !Clashes(t.cfg.hash, t.memo.value.minLen, row, col, data)
    ensures Ring.Sized(Do(t, op)) && Knows(Do(t, op), col, data)
  {
    hide TableOk, Append, Appendable, Stream.OnlyFree, Stream.Puts, Knows, MemoOk, Clashes, StartOf;
    Shape(t, g);
    KnowsMemo(t, col, data);
    match op
    case AppendRow(row) =>
      if AppendChecked(t, row).1 {
        AppendKnows(t, row, col, data);
      }
    case PushRow(row, pinned) =>
      if Matches(row, t.cfg.types) {
        if Accepts(t, row) {
          AppendKnows(t, row, col, data);
        } else if pinned {
          OthersKnow(t, 0, col, data);
        } else {
          PushLeaves(t, row);
        }
      }
    case AdvanceChunk(pinned) =>
      if pinned {
        OthersKnow(t, 0, col, data);
      } else {
        AdvanceLeaves(t);
      }
    case StreamRow(row) =>
      Stream.RoomForLength(t, row);
      Stream.StreamingEqualsBatch(t, row);
      if Appendable(t, row) {
        AppendKnows(t, row, col, data);
      } else {
        FreeBytesKnow(t, Stream.Puts(t, row).bytes, col, data);
      }
    case StreamDropped(puts) =>
      Stream.DroppedRow(t, puts);
      FreeBytesKnow(t, Stream.Puts(t, puts).bytes, col, data);
    case Scribble(b) => FreeBytesKnow(t, b, col, data);
    case SetMinLen(len) => OthersKnow(t, len, col, data);
    case _ =>
  }

  /** No row the operation reports takes the key of these bytes in the dedup memory. */
  ghost predicate KeyKept(t: Tab, op: Op, col: nat, data: seq<Byte>)
    requires Ring.Sized(t) && Legal(t, op)
  {
    && Do(t, op).memo.Some?
    && forall row :: row in Reported(t, op) ==> !Clashes(t.cfg.hash, Do(t, op).memo.value.minLen, row, col, data)
  }

  lemma AppendedKnown(t: Tab, row: Row, col: nat)
    requires Ring.Sized(t) && MemoOk(t) && Appendable(t, row) && col < |row| && IsVar(TypeOf(row[col]))
    requires LongEnough(Append(t, row), Payload(row[col]))
    requires !Clashes(t.cfg.hash, Append(t, row).memo.value.minLen, row, col, Payload(row[col]))
    ensures Ring.Sized(Append(t, row)) && Knows(Append(t, row), col, Payload(row[col]))
  {
    hide Append, StartOf, RowBytes, CellsOf, MemoOk, Clashes;
    AppendInPlace(t, row);
    AppendKnows(t, row, col, Payload(row[col]));
  }

  /** The table a reported row was appended to: the one before, or the advanced one. */
  lemma WrittenWhere(t: Tab, g: Log, op: Op, row: Row) returns (here: Tab)
    requires TableOk(t, g) && Legal(t, op) && Reported(t, op) == [row]
    ensures Ring.Sized(here) && MemoOk(here) && here.cfg == t.cfg && Appendable(here, row)
    ensures Do(t, op) == Append(here, row)
  {
    hide TableOk, Append, Appendable, Ring.Advance, Stream.Puts, MemoOk, StartOf;
    Shape(t, g);
    here := t;
    if op.StreamRow? {
      Stream.RoomForLength(t, row);
      Stream.StreamingEqualsBatch(t, row);
    } else if op.PushRow? && !Accepts(t, row) {
      AdvanceKeeps(t, g, false);
      AdvanceKeepsCfg(t);
      here := Ring.Advance(t, false).0;
      Shape(here, Dropped(t, g));
    }
  }

  /** The written row's long enough cells are known afterwards. */
  lemma WrittenKnown(t: Tab, g: Log, op: Op, row: Row, col: nat)
    requires TableOk(t, g) && Legal(t, op) && Reported(t, op) == [row]
    requires col < |row| && IsVar(TypeOf(row[col])) && LongEnough(Do(t, op), Payload(row[col]))
    requires KeyKept(t, op, col, Payload(row[col]))
    ensures Ring.Sized(Do(t, op)) && Knows(Do(t, op), col, Payload(row[col]))
  {
    hide TableOk, Legal, Do, Reported, Appendable, Append, MemoOk, Clashes, Knows, StartOf;
    var here := WrittenWhere(t, g, op, row);
    assert row in [row];
    AppendedKnown(here, row, col);
  }

  /** The writer is in the same chunk afterwards, and with the same memory. */
  ghost predicate StaysPut(t: Tab, op: Op)
    requires Ring.Sized(t) && Legal(t, op)
  {
    SameChunk(t, Do(t, op)) && op != AttachDedup
  }

  /** From step j to state k the writer stays in its chunk and no row it reports takes the key of these bytes. */
  ghost predicate Undisturbed(ts: seq<Tab>, ops: seq<Op>, j: nat, k: nat, col: nat, data: seq<Byte>)
    requires IsRun(ts, ops) && j < k < |ts|
  {
    && (forall m :: j <= m < k ==> KeyKept(ts[m], ops[m], col, data))
    && (forall m :: j < m < k ==> StaysPut(ts[m], ops[m]))
  }

  lemma {:induction false} StaysKnown(ts: seq<Tab>, ops: seq<Op>, j: nat, k: nat, row: Row, col: nat)
    requires IsRun(ts, ops) && j < k < |ts| && Reported(ts[j], ops[j]) == [row]
    requires col < |row| && IsVar(TypeOf(row[col])) && Undisturbed(ts, ops, j, k, col, Payload(row[col]))
    requires LongEnough(ts[j + 1], Payload(row[col]))
    ensures Ring.Sized(ts[k]) && Knows(ts[k], col, Payload(row[col]))
    decreases k
  {
    hide TableOk, Legal, Initial, Do, Reported, KeyKept, Knows, StaysPut;
    var m := k - 1;
    Shape(ts[k], LogAt(ts, ops, k));
    if m == j {
      WrittenKnown(ts[j], LogAt(ts, ops, j), ops[j], row, col);
    } else {
      StaysKnown(ts, ops, j, m, row, col);
      KeptStep(ts[m], LogAt(ts, ops, m), ops[m], col, Payload(row[col]));
    }
  }

  lemma KeptStep(t: Tab, g: Log, op: Op, col: nat, data: seq<Byte>)
    requires TableOk(t, g) && Legal(t, op) && Ring.Sized(t) && Knows(t, col, data)
    requires KeyKept(t, op, col, data) && StaysPut(t, op)
    ensures Ring.Sized(Do(t, op)) && Knows(Do(t, op), col, data)
  {
    hide TableOk, Reported, SameChunk, Clashes, ResolveRef, StartOf, TryPush, TryAppend, Stream.Puts, Stream.Finish;
    if Reported(t, op) != [] {
      SameMinLen(t, g, op);
    }
    StepKnows(t, g, op, col, data);
  }

  lemma SameMinLen(t: Tab, g: Log, op: Op)
    requires TableOk(t, g) && Legal(t, op) && Ring.Sized(t) && Reported(t, op) != []
    ensures MinLenOf(Do(t, op)) == MinLenOf(t)
  {
    hide TableOk, Legal, Do;
    MinLenStays(t, g, op);
  }

  // ----- the minimum length in force

  /** The minimum length the last call asked for, while a dedup writer is attached. */
  function InForce(ops: seq<Op>): Option<nat>
  {
    if ops == [] then None
    else
      match ops[|ops| - 1]
      case AttachPlain => None
      case AttachDedup => Some(0)
      case SetMinLen(len) => if InForce(ops[..|ops| - 1]).Some? then Some(len) else None
      case _ => InForce(ops[..|ops| - 1])
  }

  function MinLenOf(t: Tab): Option<nat>
  {
    if t.memo.None? then None else Some(t.memo.value.minLen)
  }

  /** Only attaching a writer and asking for another minimum length change it. */
  lemma MinLenStays(t: Tab, g: Log, op: Op)
    requires TableOk(t, g) && Legal(t, op) && !op.AttachPlain? && !op.AttachDedup? && !op.SetMinLen?
    ensures MinLenOf(Do(t, op)) == MinLenOf(t)
  {
    hide TableOk, Append, Appendable, Stream.OnlyFree, Stream.Puts, MemoOk, StartOf;
    Shape(t, g);
    match op
    case AppendRow(row) =>
      if AppendChecked(t, row).1 {
        AppendInPlace(t, row);
      }
    case PushRow(row, pinned) =>
      AdvanceSized(t, pinned);
      if Accepts(t, row) {
        AppendInPlace(t, row);
      } else if Accepts(Ring.Advance(t, pinned).0, row) {
        AppendInPlace(Ring.Advance(t, pinned).0, row);
      }
    case StreamRow(row) =>
      Stream.RoomForLength(t, row);
      Stream.StreamingEqualsBatch(t, row);
      if Appendable(t, row) {
        AppendInPlace(t, row);
      }
    case StreamDropped(puts) => Stream.DroppedRow(t, puts);
    case _ =>
  }

  /** Over any run, rows and advances included, the minimum length is the one last asked for. */
  lemma {:induction false} MinLenInForce(ts: seq<Tab>, ops: seq<Op>, k: nat)
    requires IsRun(ts, ops) && k < |ts|
    ensures MinLenOf(ts[k]) == InForce(ops[..k])
    decreases k
  {
    hide TableOk, Legal, Do;
    if k > 0 {
      var op := ops[k - 1];
      MinLenInForce(ts, ops, k - 1);
      assert ops[..k][..k - 1] == ops[..k - 1] && ops[..k][k - 1] == op;
      if op.AttachPlain? || op.AttachDedup? || op.SetMinLen? {
        AskedMinLen(ts[k - 1], op);
      } else {
        MinLenStays(ts[k - 1], LogAt(ts, ops, k - 1), op);
      }
    }
  }

  lemma AskedMinLen(t: Tab, op: Op)
    requires Ring.Sized(t) && Legal(t, op)
    ensures op.AttachPlain? ==> MinLenOf(Do(t, op)) == None
    ensures op.AttachDedup? ==> MinLenOf(Do(t, op)) == Some(0)
    ensures op.SetMinLen? ==> MinLenOf(Do(t, op)) == if MinLenOf(t).Some? then Some(op.len) else None
  {
  }

  // ----- what it saves

  /** The bytes a cell can take in a row: its own size, or four for a value that lies in the chunk already. */
  predicate CellTakes(v: Value, n: nat, minLen: nat)
  {
    match v
    case U8V(_) => n == 1
    case U32V(_) => n == 4
    case I32V(_) => n == 4
    case F32V(_) => n == 4
    case I64V(_) => n == 8
    case F64V(_) => n == 8
    case U64V(_) => n == 8
    case StrV(text) => n == 4 + |text| || (n == 4 && |text| >= minLen)
    case BytesV(blob) => n == 4 + |blob| || (n == 4 && |blob| >= minLen)
  }

  function Sum(sizes: seq<nat>): nat
  {
    if sizes == [] then 0 else sizes[0] + Sum(sizes[1..])
  }

  function CellSizes(cells: seq<Stored>): (sizes: seq<nat>)
    ensures |sizes| == |cells| && forall k :: 0 <= k < |cells| ==> sizes[k] == |CellBytes(cells[k])|
  {
    seq(|cells|, k requires 0 <= k < |cells| => |CellBytes(cells[k])|)
  }

  lemma {:induction false} SumOfCells(cells: seq<Stored>)
    ensures |RowBytes(cells)| == Sum(CellSizes(cells))
    decreases |cells|
  {
    hide CellBytes;
    if cells != [] {
      SumOfCells(cells[1..]);
      assert CellSizes(cells)[1..] == CellSizes(cells[1..]);
    }
  }

  /** The next row takes four bytes of length and these sizes, and is taken exactly if that fits the chunk. */
  ghost predicate Takes(t: Tab, row: Row, sizes: seq<nat>)
    requires Ring.Sized(t)
  {
    && |sizes| == |row|
    && (forall k :: 0 <= k < |row| ==> CellTakes(row[k], sizes[k], if t.memo.Some? then t.memo.value.minLen else 0))
    && (TryAppend(t, row).1 <==> (t.memo.Some? ==> |row| <= 64)
                                 && 40 + t.heads[t.wc].used + 4 + Sum(sizes) <= t.cfg.chunkSize)
    && (TryAppend(t, row).1 ==>
          && SameChunk(t, TryAppend(t, row).0)
          && TryAppend(t, row).0.heads[t.wc].used == t.heads[t.wc].used + 4 + Sum(sizes))
  }

  lemma RowTakes(t: Tab, row: Row) returns (sizes: seq<nat>)
    requires Ring.Sized(t)
    ensures sizes == CellSizes(CellsOf(t, row)) && Takes(t, row, sizes)
  {
    hide StartOf, RowBytes, CellBytes, Append;
    var cells := CellsOf(t, row);
    sizes := CellSizes(cells);
    SumOfCells(cells);
    forall k | 0 <= k < |row|
      ensures CellTakes(row[k], sizes[k], if t.memo.Some? then t.memo.value.minLen else 0)
    {
      OneCellTakes(t, row, k);
    }
    if Appendable(t, row) {
      AppendInPlace(t, row);
      AppendGrows(t, row);
    }
  }

  lemma AppendGrows(t: Tab, row: Row)
    requires Ring.Sized(t) && Appendable(t, row)
    ensures t.wc < |Append(t, row).heads|
    ensures Append(t, row).heads[t.wc].used == t.heads[t.wc].used + 4 + |RowBytes(CellsOf(t, row))|
  {
    hide StartOf, RowBytes, CellsOf, Record, Entries;
    CommitFrame(t, CellsOf(t, row), row);
  }

  lemma OneCellTakes(t: Tab, row: Row, k: nat)
    requires Ring.Sized(t) && k < |row|
    ensures CellTakes(row[k], |CellBytes(CellsOf(t, row)[k])|, if t.memo.Some? then t.memo.value.minLen else 0)
  {
    hide StartOf;
  }

  /** A value the memory knows, no shorter than the minimum length, takes four bytes. */
  lemma KnownTakesFour(t: Tab, row: Row, col: nat) returns (sizes: seq<nat>)
    requires Ring.Sized(t) && col < |row| && IsVar(TypeOf(row[col])) && Knows(t, col, Payload(row[col]))
    requires |Payload(row[col])| >= t.memo.value.minLen
    ensures Takes(t, row, sizes) && sizes[col] == 4
  {
    hide Takes, StartOf;
    sizes := RowTakes(t, row);
    KnownIsRef(t, row, col);
  }

  lemma KnownIsRef(t: Tab, row: Row, col: nat)
    requires Ring.Sized(t) && col < |row| && IsVar(TypeOf(row[col])) && Knows(t, col, Payload(row[col]))
    requires |Payload(row[col])| >= t.memo.value.minLen
    ensures CellsOf(t, row)[col].Ref?
  {
    hide StartOf, Read32;
    ChunkInside(t, t.wc);
  }

  /**
   A value no shorter than the minimum length that a row brought to the chunk takes four bytes in every
   later row of the same chunk, unless another value has taken its hash key meanwhile.
   */
  lemma RepeatTakesFour(ts: seq<Tab>, ops: seq<Op>, j: nat, k: nat, row: Row, again: Row, col: nat)
      returns (sizes: seq<nat>)
    requires IsRun(ts, ops) && j < k < |ts| && Reported(ts[j], ops[j]) == [row]
    requires col < |row| && col < |again| && IsVar(TypeOf(row[col])) && again[col] == row[col]
    requires Undisturbed(ts, ops, j, k, col, Payload(row[col]))
    requires LongEnough(ts[j + 1], Payload(row[col])) && LongEnough(ts[k], Payload(row[col]))
    ensures Ring.Sized(ts[k]) && Takes(ts[k], again, sizes) && sizes[col] == 4
  {
    hide Takes, Undisturbed, IsRun, Reported;
    StaysKnown(ts, ops, j, k, row, col);
    sizes := KnownTakesFour(ts[k], again, col);
  }

  // ----- an example

  /** One column of text and one chunk of 64 bytes. */
  ghost function OneText(h: Hash): Tab
  {
    Tab(Cfg([DStr], 64, 1, 0, 0, h), seq(64, _ => 0), [InitialHead(0)], 0, 0, 0, 0, false, None)
  }

  /** A row of one cell, the text `hello`. */
  const HELLO: Row := [StrV([104, 101, 108, 108, 111])]

  ghost predicate HoldsRows(t: Tab, rows: nat, used: nat)
  {
    && |t.heads| == 1 && t.wc == 0 && t.heads[0].gen == 1 && t.heads[0].rows == rows && t.heads[0].used == used
    && t.cfg.types == [DStr] && t.cfg.chunkSize == 64 && MinLenOf(t) == Some(0)
  }

  /** Pushing a row that takes one more cell of n bytes. */
  lemma PushHello(t: Tab, sizes: seq<nat>, rows: nat, used: nat)
    requires Ring.Sized(t) && HoldsRows(t, rows, used) && Takes(t, HELLO, sizes) && |sizes| == 1
    requires 40 + used + 4 + sizes[0] <= 64
    ensures TryPush(t, HELLO, false).1 == Ring.Written
    ensures HoldsRows(TryPush(t, HELLO, false).0, rows + 1, used + 4 + sizes[0])
  {
    hide StartOf, RowBytes, CellsOf, Record, Entries;
    assert sizes[1..] == [];
    assert Sum(sizes) == sizes[0];
    AppendInPlace(t, HELLO);
    CommitFrame(t, CellsOf(t, HELLO), HELLO);
  }

  lemma OneTextInitial(h: Hash)
    ensures Initial(OneText(h))
  {
    assert StartOf(OneText(h).cfg, 1) == 64;
  }

  /**
   The text `hello` pushed twice into a chunk of 64 bytes: 13 bytes for the first row and 8 for the
   second, and both rows are held. Twice inline would be 66 bytes with the chunk header.
   */
  lemma HelloTwice(h: Hash) returns (ts: seq<Tab>, ops: seq<Op>)
    ensures IsRun(ts, ops) && ts[0] == OneText(h)
    ensures ops == [AttachDedup, PushRow(HELLO, false), PushRow(HELLO, false)]
    ensures AllReported(ts, ops, 3) == [HELLO, HELLO]
    ensures HoldsRows(ts[2], 1, 13) && HoldsRows(ts[3], 2, 21)
  {
    hide Initial, Takes, TryPush, HoldsRows;
    OneTextInitial(h);
    ops := [AttachDedup, PushRow(HELLO, false), PushRow(HELLO, false)];
    ts := ScriptRuns(OneText(h), ops);
    FirstHello(h, ts[1]);
    assert Reported(ts[1], ops[1]) == [HELLO];
    var sizes := RepeatTakesFour(ts, ops, 1, 2, HELLO, HELLO, 0) by {
      HelloUndisturbed(ts[1]);
      HeldLong(ts[2]);
    }
    TakesShape(ts[2], HELLO, sizes);
    PushHello(ts[2], sizes, 1, 13);
    assert Reported(ts[0], ops[0]) == [];
    assert AllReported(ts, ops, 1) == [];
    assert AllReported(ts, ops, 2) == [HELLO];
  }

  lemma HeldLong(t: Tab)
    requires HoldsRows(t, 1, 13)
    ensures LongEnough(t, Payload(HELLO[0]))
  {
  }

  lemma HelloUndisturbed(t: Tab)
    requires Ring.Sized(t) && TryPush(t, HELLO, false).1 == Ring.Written && TryPush(t, HELLO, false).0.memo.Some?
    ensures KeyKept(t, PushRow(HELLO, false), 0, Payload(HELLO[0]))
  {
    hide TryPush;
  }

  lemma FirstHello(h: Hash, t: Tab)
    requires Initial(OneText(h)) && t == Do(OneText(h), AttachDedup)
    ensures Ring.Sized(t) && TryPush(t, HELLO, false).1 == Ring.Written && HoldsRows(TryPush(t, HELLO, false).0, 1, 13)
    ensures TryPush(t, HELLO, false).0.memo.Some?
  {
    hide TryPush, Takes;
    assert CellsOf(t, HELLO)[0] == Inline(HELLO[0]);
    var sizes := RowTakes(t, HELLO);
    assert sizes[0] == 9;
    PushHello(t, sizes, 0, 0) by {
      TakesShape(t, HELLO, sizes);
    }
    assert MinLenOf(TryPush(t, HELLO, false).0) == Some(0);
  }

  lemma TakesShape(t: Tab, row: Row, sizes: seq<nat>)
    requires Ring.Sized(t) && Takes(t, row, sizes)
    ensures |sizes| == |row|
  {
  }
}
