/** Protocol and table in one run: which table operation each writer step is, and why memory and table stay in step. */
module Joint {
  import opened Bytes
  import opened Chunks
  import opened Schema
  import opened RowCodec
  import opened Ring
  import opened RingInv
  import opened RingSteps
  import opened RingRuns
  import opened Stream
  import L = Lease
  import LeaseSafety
  import opened LeaseWriter

  // ----- the view

  function PayloadFrom(t: Tab, c: nat): nat
  {
    StartOf(t.cfg, c) + CHUNK_HEADER
  }

  /** The payload bytes of chunk c of the table are those of the protocol state. */
  ghost predicate SameBytes(t: Tab, s: L.State, c: nat)
    requires Ring.Sized(t) && c < |t.heads| && c < |s.chunks|
  {
    && PayloadFrom(t, c) + |s.chunks[c].data| == StartOf(t.cfg, c) + t.cfg.chunkSize <= |t.bytes|
    && s.chunks[c].data == t.bytes[PayloadFrom(t, c)..StartOf(t.cfg, c) + t.cfg.chunkSize]
  }

  /** Chunk c of the protocol state is the memory of chunk c of the table: payload, extent and generation. */
  ghost predicate Views(t: Tab, s: L.State, c: nat)
    requires Ring.Sized(t) && c < |t.heads| && c < |s.chunks|
  {
    SameBytes(t, s, c) && s.chunks[c].used == t.heads[c].used && s.chunks[c].gen == t.heads[c].gen
  }

  /** As `Views`, except that a chunk being reset is ahead of the table by one generation. */
  ghost predicate ChunkLinked(t: Tab, s: L.State, c: nat)
    requires Ring.Sized(t) && c < |t.heads| == |s.chunks|
  {
    if Resetting(s.writer) && c == L.Target(s) then
      SameBytes(t, s, c) && s.chunks[c].gen == t.heads[c].gen + 1 && (!s.writer.ResetUsed? ==> s.chunks[c].used == 0)
    else Views(t, s, c)
  }

  ghost predicate Linked(t: Tab, s: L.State)
  {
    && Ring.Sized(t) && |s.chunks| == |t.heads| && s.writeChunk < |s.chunks|
    && t.wc == (if s.writer.StoreWriteChunk? then L.Target(s) else s.writeChunk)
    && forall c :: 0 <= c < |t.heads| ==> ChunkLinked(t, s, c)
  }

  // ----- which table operation a step is

  function MaybeTsOf(ts: Option<I64>): L.MaybeTs
  {
    match ts case None => L.NoTs case Some(x) => L.Ts(x)
  }

  /** The record of this row lies in place behind the committed bytes, ready to be published. */
  ghost predicate InPlace(t: Tab, row: Row, ts: L.MaybeTs, upto: nat)
    requires Ring.Sized(t)
  {
    && Matches(row, t.cfg.types) && Appendable(t, row) && Append(t, row).bytes == t.bytes
    && upto == t.heads[t.wc].used + 4 + |RowBytes(CellsOf(t, row))|
    && ts == MaybeTsOf(RowTs(t.cfg.tsCol, row))
  }

  /** The batch or the streaming writer publishes the row. */
  ghost predicate Publishes(t: Tab, op: Op, ts: L.MaybeTs, upto: nat)
    requires Ring.Sized(t)
  {
    && (op.AppendRow? || op.StreamRow?) && InPlace(t, op.row, ts, upto)
    && (if op.AppendRow? then Accepts(t, op.row) else op.row != [])
  }

  /** An operation that writes no byte of the buffer: none, a refused append, or a writer attached anew. */
  ghost predicate Silent(t: Tab, op: Op)
    requires Ring.Sized(t)
  {
    match op
    case Scribble(b) => b == t.bytes
    case AppendRow(row) => !AppendChecked(t, row).1
    case AttachPlain => true
    case AttachDedup => true
    case SetMinLen(_) => true
    case _ => false
  }

  function WithByte(t: Tab, at: nat, b: Byte): seq<Byte>
  {
    var i := PayloadFrom(t, t.wc) + at;
    if i < |t.bytes| then t.bytes[i := b] else t.bytes
  }

  /**
   Every byte the writer stores is a partial write of the table. A commit is the append of a row whose
   bytes are in place, and happens when the extent is published. An advance is answered by the scan:
   refused when the old state is restored, done when the recycled chunk becomes writable. All other
   steps do nothing to the table, and an idle writer may be attached anew.
   */
  ghost predicate Mirrors(s: L.State, step: L.Step, t: Tab, op: Op)
    requires Ring.Sized(t)
  {
    match step
    case Scribble(at, b) => op == Op.Scribble(WithByte(t, at, b))
    case BeginCommit(ts, upto) => op == Op.Scribble(t.bytes) && exists row :: InPlace(t, row, ts, upto)
    case WriterTick(_) =>
      (match s.writer
       case Publish(ts, upto) => Publishes(t, op, ts, upto)
       case Restore(_) => op == AdvanceChunk(true)
       case StoreWriting => op == AdvanceChunk(false)
       case Idle => Silent(t, op)
       case _ => op == Op.Scribble(t.bytes))
    case _ => op == Op.Scribble(t.bytes)
  }

  /** One run of the protocol and one of the table, step by step. */
  ghost predicate JointRun(states: seq<L.State>, steps: seq<L.Step>, ts: seq<Tab>, ops: seq<Op>)
  {
    && LeaseSafety.GoodRun(states, steps) && RingRuns.IsRun(ts, ops) && |ts| == |states| && Linked(ts[0], states[0])
    && forall k :: 0 <= k < |steps| ==> Ring.Sized(ts[k]) && Mirrors(states[k], steps[k], ts[k], ops[k])
  }

  // ----- the link is kept

  /** Nothing moved on either side. */
  lemma LinkFrame(t: Tab, t': Tab, s: L.State, s': L.State)
    requires Linked(t, s) && Ring.Sized(t') && t'.cfg == t.cfg && t'.bytes == t.bytes && t'.wc == t.wc
    requires |t'.heads| == |t.heads|
    requires forall c :: 0 <= c < |t.heads| ==> t'.heads[c].gen == t.heads[c].gen && t'.heads[c].used == t.heads[c].used
    requires CoresKept(s, s') && s'.writeChunk == s.writeChunk
    requires Resetting(s'.writer) <==> Resetting(s.writer)
    requires s.writer.ResetUsed? || !s'.writer.ResetUsed?
    requires s'.writer.ResetUsed? || (s.writer.ResetUsed? ==> !Resetting(s'.writer))
    requires s'.writer.StoreWriteChunk? <==> s.writer.StoreWriteChunk?
    ensures Linked(t', s')
  {
    hide StartOf;
    forall c | 0 <= c < |t.heads|
      ensures ChunkLinked(t', s', c)
    {
      assert ChunkLinked(t, s, c) && CoreOf(s'.chunks[c]) == CoreOf(s.chunks[c]);
    }
  }

  lemma SilentKeeps(t: Tab, op: Op)
    requires Ring.Sized(t) && Silent(t, op) && Legal(t, op)
    ensures var t' := Do(t, op);
            && Ring.Sized(t') && t'.cfg == t.cfg && t'.bytes == t.bytes && t'.wc == t.wc && t'.heads == t.heads
  {
    hide StartOf, Append, RowBytes, CellsOf;
  }

  lemma SameBytesElsewhere(t: Tab, t': Tab, s: L.State, s': L.State, c: nat)
    requires Ring.Sized(t) && Ring.Sized(t') && c < |t.heads| == |t'.heads| && c < |s.chunks| && c < |s'.chunks|
    requires t'.cfg == t.cfg && SameBytes(t, s, c) && s'.chunks[c].data == s.chunks[c].data && |t'.bytes| == |t.bytes|
    requires forall k :: PayloadFrom(t, c) <= k < StartOf(t.cfg, c) + t.cfg.chunkSize <= |t.bytes| ==>
               t'.bytes[k] == t.bytes[k]
    ensures SameBytes(t', s', c)
  {
    hide StartOf;
    var to := StartOf(t.cfg, c) + t.cfg.chunkSize;
    assert t'.bytes[PayloadFrom(t, c)..to] == t.bytes[PayloadFrom(t, c)..to];
  }

  lemma ScribbledChunk(t: Tab, s: L.State, at: nat, b: Byte)
    requires Linked(t, s) && s.writer.Idle? && at < |s.chunks[t.wc].data|
    ensures var c := s.writeChunk;
            var s' := L.SetChunk(s, c, s.chunks[c].(data := s.chunks[c].data[at := b]));
            var t' := t.(bytes := WithByte(t, at, b));
            Ring.Sized(t') && c == t.wc && SameBytes(t', s', c)
  {
    hide StartOf;
    var c := t.wc;
    assert ChunkLinked(t, s, c);
    var from, to := PayloadFrom(t, c), StartOf(t.cfg, c) + t.cfg.chunkSize;
    var b' := WithByte(t, at, b);
    assert b'[from..to] == t.bytes[from..to][at := b];
  }

  lemma ScribbleLinks(t: Tab, s: L.State, at: nat, b: Byte)
    requires Linked(t, s) && L.Can(s, L.Step.Scribble(at, b)) && L.Shape(s)
    ensures Linked(t.(bytes := WithByte(t, at, b)), L.Do(s, L.Step.Scribble(at, b)))
  {
    hide StartOf;
    var s', t' := L.Do(s, L.Step.Scribble(at, b)), t.(bytes := WithByte(t, at, b));
    ScribbledChunk(t, s, at, b);
    forall c | 0 <= c < |t.heads|
      ensures ChunkLinked(t', s', c)
    {
      assert ChunkLinked(t, s, c);
      if c != t.wc {
        FarByte(t, s, c, at);
        SameBytesElsewhere(t, t', s, s', c);
      }
    }
  }

  /** A byte of the write chunk is no byte of another chunk. */
  lemma FarByte(t: Tab, s: L.State, c: nat, at: nat)
    requires Linked(t, s) && c < |t.heads| && c != t.wc && at < |s.chunks[t.wc].data| && !Resetting(s.writer)
    ensures !(PayloadFrom(t, c) <= PayloadFrom(t, t.wc) + at < StartOf(t.cfg, c) + t.cfg.chunkSize)
  {
    assert ChunkLinked(t, s, t.wc);
    hide StartOf;
    if c < t.wc {
      ChunksApart(t.cfg, c, t.wc);
    } else {
      ChunksApart(t.cfg, t.wc, c);
    }
  }

  lemma PublishedTable(t: Tab, g: Log, op: Op, ts: L.MaybeTs, upto: nat)
    requires TableOk(t, g) && Legal(t, op) && Publishes(t, op, ts, upto)
    ensures Do(t, op) == Append(t, op.row) && Reported(t, op) == [op.row]
  {
    hide TableOk, Append, RowBytes, CellsOf, StartOf, Puts, Publish;
    Shape(t, g);
    if op.StreamRow? {
      RoomForLength(t, op.row);
      StreamingEqualsBatch(t, op.row);
    }
  }

  lemma AppendedHeads(t: Tab, row: Row)
    requires Ring.Sized(t) && Appendable(t, row)
    ensures var t' := Append(t, row);
            && Ring.Sized(t') && t'.cfg == t.cfg && t'.wc == t.wc && |t'.heads| == |t.heads|
            && (forall c :: 0 <= c < |t.heads| && c != t.wc ==> t'.heads[c] == t.heads[c])
            && t'.heads[t.wc].gen == t.heads[t.wc].gen
            && t'.heads[t.wc].used == t.heads[t.wc].used + 4 + |RowBytes(CellsOf(t, row))|
  {
    hide StartOf, RowBytes, CellsOf, Commit;
    CommitBytes(t, CellsOf(t, row), row);
    CommitFrame(t, CellsOf(t, row), row);
  }

  lemma PublishedView(t: Tab, t': Tab, s: L.State, s': L.State, upto: nat)
    requires Linked(t, s) && s.writer.Publish? && s'.writer.Idle?
    requires Ring.Sized(t') && t'.cfg == t.cfg && t'.bytes == t.bytes && t'.wc == t.wc && |t'.heads| == |t.heads|
    requires forall c :: 0 <= c < |t.heads| && c != t.wc ==> t'.heads[c] == t.heads[c]
    requires t'.heads[t.wc].gen == t.heads[t.wc].gen && t'.heads[t.wc].used == upto
    requires s'.writeChunk == s.writeChunk && |s'.chunks| == |s.chunks|
    requires s'.chunks[s.writeChunk].gen == s.chunks[s.writeChunk].gen
    requires s'.chunks[s.writeChunk].used == upto && s'.chunks[s.writeChunk].data == s.chunks[s.writeChunk].data
    requires forall c :: 0 <= c < |s.chunks| && c != s.writeChunk ==> CoreOf(s'.chunks[c]) == CoreOf(s.chunks[c])
    ensures Linked(t', s')
  {
    hide StartOf;
    forall c | 0 <= c < |t.heads|
      ensures ChunkLinked(t', s', c)
    {
      assert ChunkLinked(t, s, c);
    }
  }

  lemma PublishLinks(t: Tab, g: Log, op: Op, s: L.State, dead: bool)
    requires TableOk(t, g) && Legal(t, op) && Linked(t, s) && L.Shape(s) && s.writer.Publish?
    requires Publishes(t, op, s.writer.ts, s.writer.upto)
    ensures Linked(Do(t, op), L.WriterStep(s, dead))
  {
    hide StartOf, TableOk, Append, RowBytes, CellsOf, Do, L.WriterStep;
    PublishedTable(t, g, op, s.writer.ts, s.writer.upto);
    AppendedHeads(t, op.row);
    PublishCores(s, dead);
    assert CoreOf(L.WriterStep(s, dead).chunks[s.writeChunk]) == PublishedCore(s.chunks[s.writeChunk], s.writer);
    PublishedView(t, Do(t, op), s, L.WriterStep(s, dead), s.writer.upto);
  }

  lemma BumpLinks(t: Tab, s: L.State, dead: bool)
    requires Linked(t, s) && L.Shape(s) && (s.writer.BumpGen? || s.writer.ResetUsed?)
    ensures Linked(t, L.WriterStep(s, dead))
  {
    hide StartOf;
    var s' := L.WriterStep(s, dead);
    forall c | 0 <= c < |t.heads|
      ensures ChunkLinked(t, s', c)
    {
      assert ChunkLinked(t, s, c);
    }
  }

  lemma TargetIsNext(t: Tab, s: L.State)
    requires Linked(t, s) && !s.writer.StoreWriteChunk?
    ensures L.Target(s) == NextChunk(t)
  {
  }

  lemma RecycleLinks(t: Tab, s: L.State, dead: bool)
    requires Linked(t, s) && L.Shape(s) && s.writer.StoreWriting?
    ensures Linked(Ring.Advance(t, false).0, L.WriterStep(s, dead))
  {
    hide StartOf, Ring.Advance;
    var s', t' := L.WriterStep(s, dead), Ring.Advance(t, false).0;
    TargetIsNext(t, s);
    AdvanceFrame(t);
    forall c | 0 <= c < |t.heads|
      ensures ChunkLinked(t', s', c)
    {
      assert ChunkLinked(t, s, c);
    }
  }

  lemma WriteChunkLinks(t: Tab, s: L.State, dead: bool)
    requires Linked(t, s) && L.Shape(s) && s.writer.StoreWriteChunk?
    ensures Linked(t, L.WriterStep(s, dead))
  {
    hide StartOf;
    var s' := L.WriterStep(s, dead);
    forall c | 0 <= c < |t.heads|
      ensures ChunkLinked(t, s', c)
    {
      assert ChunkLinked(t, s, c);
    }
  }

  lemma RefusedTable(t: Tab)
    requires Ring.Sized(t)
    ensures var t' := Ring.Advance(t, true).0;
            && Ring.Sized(t') && t'.cfg == t.cfg && t'.bytes == t.bytes && t'.wc == t.wc && t'.heads == t.heads
  {
    hide StartOf;
  }

  lemma QuietTable(t: Tab, g: Log)
    requires TableOk(t, g)
    ensures Legal(t, Op.Scribble(t.bytes)) && Do(t, Op.Scribble(t.bytes)) == t
  {
  }

  lemma WriterLinks(t: Tab, g: Log, op: Op, s: L.State, dead: bool)
    requires TableOk(t, g) && Legal(t, op) && Linked(t, s) && L.Shape(s) && Mirrors(s, L.WriterTick(dead), t, op)
    ensures Linked(Do(t, op), L.WriterStep(s, dead))
  {
    hide TableOk, Linked, Do, L.WriterStep, Publishes, Silent, Legal, Ring.Advance;
    Shape(t, g);
    QuietTable(t, g);
    if s.writer.Publish? {
      PublishLinks(t, g, op, s, dead);
    } else if s.writer.BumpGen? || s.writer.ResetUsed? {
      BumpLinks(t, s, dead);
    } else if s.writer.StoreWriting? {
      RecycleLinks(t, s, dead);
      DoAdvance(t, op);
    } else if s.writer.StoreWriteChunk? {
      WriteChunkLinks(t, s, dead);
    } else {
      WriterKeepsCores(s, dead);
      if s.writer.Restore? {
        RefusedTable(t);
        DoAdvance(t, op);
      } else if s.writer.Idle? {
        SilentKeeps(t, op);
      }
      LinkFrame(t, Do(t, op), s, L.WriterStep(s, dead));
    }
  }

  lemma DoAdvance(t: Tab, op: Op)
    requires Ring.Sized(t) && op.AdvanceChunk?
    ensures Legal(t, op) && Do(t, op) == Ring.Advance(t, op.pinned).0
  {
  }

  lemma StepLinks(t: Tab, g: Log, op: Op, s: L.State, step: L.Step)
    requires TableOk(t, g) && Legal(t, op) && Linked(t, s) && L.Shape(s) && L.Can(s, step) && Mirrors(s, step, t, op)
    ensures Linked(Do(t, op), L.Do(s, step))
  {
    hide TableOk, Linked, Do, L.Shape;
    Shape(t, g);
    QuietTable(t, g);
    match step
    case Scribble(at, b) =>
      assert Do(t, op) == t.(bytes := WithByte(t, at, b)) by {
        DoScribble(t, op);
      }
      ScribbleLinks(t, s, at, b);
    case WriterTick(dead) =>
      hide L.WriterStep;
      WriterLinks(t, g, op, s, dead);
    case BeginCommit(_, _) =>
      hide L.Do;
      BeginKeepsCores(s, step);
      LinkFrame(t, t, s, L.Do(s, step));
    case BeginAdvance =>
      hide L.Do;
      BeginKeepsCores(s, step);
      LinkFrame(t, t, s, L.Do(s, step));
    case _ =>
      hide L.Do;
      OthersKeepCores(s, step);
      LinkFrame(t, t, s, L.Do(s, step));
  }

  lemma DoScribble(t: Tab, op: Op)
    requires Ring.Sized(t) && op.Scribble? && Legal(t, op)
    ensures Do(t, op) == t.(bytes := op.bytes)
  {
  }

  /** In every state of a joint run the table is a view of the protocol's memory. */
  lemma {:induction false} JointLinked(states: seq<L.State>, steps: seq<L.Step>, ts: seq<Tab>, ops: seq<Op>, k: nat)
    requires JointRun(states, steps, ts, ops) && k < |ts|
    ensures Linked(ts[k], states[k])
    decreases k
  {
    hide TableOk, Linked, Do, L.Do, L.Can, Legal, Mirrors, LeaseSafety.Init, Initial;
    if k > 0 {
      JointLinked(states, steps, ts, ops, k - 1);
      StepLinks(ts[k - 1], LogAt(ts, ops, k - 1), ops[k - 1], states[k - 1], steps[k - 1]);
    }
  }

  /**
   The answer `pinned` of an advance is what a scan of the lease slots saw. The pass that decided it found
   a slot of the target whose owner it took for alive, or it found or made every slot free; and nothing
   happened to the answer since.
   */
  lemma AdvanceAnswersScan(states: seq<L.State>, steps: seq<L.Step>, ts: seq<Tab>, ops: seq<Op>, k: nat)
    requires JointRun(states, steps, ts, ops) && k < |ops| && ops[k].AdvanceChunk?
    ensures exists m :: 0 <= m < k && m < |steps| && L.Shape(states[m]) && Decides(states[m], steps[m], ops[k].pinned)
                        && PassMet(states, steps, m, ops[k].pinned)
                        && forall x :: m < x <= k ==> CarriesOut(states[x].writer, ops[k].pinned)
  {
    hide PassMet, Decides;
    assert Mirrors(states[k], steps[k], ts[k], ops[k]);
    assert CarriesOut(states[k].writer, ops[k].pinned);
    CarriesOutDecision(states, steps, k, ops[k].pinned);
    var m :| 0 <= m < k && m < |steps| && Decides(states[m], steps[m], ops[k].pinned)
             && forall x :: m < x <= k ==> CarriesOut(states[x].writer, ops[k].pinned);
    DecisionIsSeen(states, steps, m, ops[k].pinned);
  }
}
