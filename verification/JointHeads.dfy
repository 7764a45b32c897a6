/** State and timestamp bounds of every chunk over a joint run: what memory shows while the writer is at work. */
module JointHeads {
  import opened Chunks
  import opened Schema
  import opened RowCodec
  import opened Ring
  import opened RingInv
  import opened RingSteps
  import opened RingRuns
  import L = Lease
  import LeaseSafety
  import opened LeaseWriter
  import opened Joint

  datatype Bounds = Bounds(state: Phase, minTs: int, maxTs: int)

  function BoundsOf(ch: L.Chunk): Bounds
  {
    Bounds(ch.state, ch.minTs, ch.maxTs)
  }

  /** The target of an advance under way: closed to new pins. */
  predicate Closing(w: L.WriterPc)
  {
    w.Scan? || w.Restore? || w.Seal? || Recycling(w)
  }

  /** Between sealing the old chunk and opening the new one. */
  predicate Recycling(w: L.WriterPc)
  {
    w.BumpGen? || Resetting(w)
  }

  /** A row's timestamp is noted, and the row not yet published. */
  predicate Noting(w: L.WriterPc)
  {
    w.NoteMax? || w.Publish?
  }

  function ShownState(w: L.WriterPc, h: Head, current: bool, target: bool): Phase
  {
    if target && Closing(w) then Empty
    else if current && Recycling(w) then Sealed
    else h.state
  }

  function ShownMin(w: L.WriterPc, h: Head, current: bool, target: bool): int
  {
    if current && Noting(w) && w.ts.Ts? && w.ts.value < h.minTs then w.ts.value
    else if target && (w.ResetMax? || w.StoreWriting?) then 0x7FFF_FFFF_FFFF_FFFF
    else h.minTs
  }

  function ShownMax(w: L.WriterPc, h: Head, current: bool, target: bool): int
  {
    if current && w.Publish? && w.ts.Ts? && w.ts.value > h.maxTs then w.ts.value
    else if target && w.StoreWriting? then -0x8000_0000_0000_0000
    else h.maxTs
  }

  /**
   What memory shows of a chunk with table head h while the writer is at w: its head, but the timestamp of
   a row not yet published, the closed target, the old chunk sealed early, the bounds reset early.
   */
  function Shown(w: L.WriterPc, h: Head, current: bool, target: bool): Bounds
  {
    Bounds(ShownState(w, h, current, target), ShownMin(w, h, current, target), ShownMax(w, h, current, target))
  }

  ghost predicate ChunkShown(t: Tab, s: L.State, c: nat)
    requires c < |t.heads| && c < |s.chunks|
  {
    BoundsOf(s.chunks[c]) == Shown(s.writer, t.heads[c], c == s.writeChunk, c == L.Target(s))
  }

  /** The state an advance will put back if it is refused. */
  ghost predicate PrevKept(t: Tab, s: L.State)
    requires |s.chunks| == |t.heads| > 0
  {
    && (s.writer.StoreEmpty? ==> s.writer.prev == t.heads[L.Target(s)].state)
    && (s.writer.Scan? ==> s.writer.prev == t.heads[L.Target(s)].state)
    && (s.writer.Restore? ==> s.writer.prev == t.heads[L.Target(s)].state)
  }

  ghost predicate HeadsShown(t: Tab, s: L.State)
  {
    && |s.chunks| == |t.heads| > 0 && s.writeChunk < |s.chunks| && PrevKept(t, s)
    && forall c :: 0 <= c < |t.heads| ==> ChunkShown(t, s, c)
  }

  // ----- steps that touch no bounds

  ghost predicate BoundsKept(s: L.State, s': L.State)
  {
    && |s'.chunks| == |s.chunks| && s'.writeChunk == s.writeChunk
    && forall c :: 0 <= c < |s.chunks| ==> BoundsOf(s'.chunks[c]) == BoundsOf(s.chunks[c])
  }

  lemma InspectBounds(s: L.State, o: nat, dead: bool)
    requires L.Shape(s) && o in s.ops && s.ops[o].pc.Inspect?
    ensures BoundsKept(s, L.InspectStep(s, o, dead)) && L.InspectStep(s, o, dead).writer == s.writer
  {
  }

  lemma TickBounds(s: L.State, o: nat, dead: bool, start: nat)
    requires L.Shape(s) && o in s.ops
    ensures BoundsKept(s, L.OpStep(s, o, dead, start)) && L.OpStep(s, o, dead, start).writer == s.writer
  {
    if s.ops[o].pc.Inspect? {
      InspectBounds(s, o, dead);
    }
  }

  lemma OthersKeepBounds(s: L.State, step: L.Step)
    requires L.Shape(s) && L.Can(s, step) && !WriterActs(step)
    ensures BoundsKept(s, L.Do(s, step)) && L.Do(s, step).writer == s.writer
  {
    match step
    case Tick(o, dead, start) =>
      assert L.Do(s, step) == L.OpStep(s, o, dead, start);
      hide L.Do, L.OpStep;
      TickBounds(s, o, dead, start);
    case _ =>
  }

  lemma BeginBounds(s: L.State, step: L.Step)
    requires L.Shape(s) && L.Can(s, step) && (step.Scribble? || step.BeginCommit? || step.BeginAdvance?)
    ensures BoundsKept(s, L.Do(s, step)) && s.writer.Idle?
    ensures var w := L.Do(s, step).writer;
            && (step.Scribble? ==> w.Idle?) && (step.BeginCommit? ==> w.NoteMin?)
            && (step.BeginAdvance? ==> |s.chunks| > 0 && w == L.StoreEmpty(s.chunks[L.Target(s)].state))
  {
  }

  lemma ScanBounds(s: L.State, dead: bool)
    requires L.Shape(s) && s.writer.Scan?
    ensures BoundsKept(s, L.ScanStep(s, dead))
    ensures var w := L.ScanStep(s, dead).writer;
            (w.Scan? && w.prev == s.writer.prev) || w == L.Restore(s.writer.prev) || w.Seal?
  {
  }

  /** The table does not move, memory neither, and the writer moves between points that show the same. */
  lemma ShownStays(t: Tab, t': Tab, s: L.State, s': L.State)
    requires HeadsShown(t, s) && BoundsKept(s, s') && t'.heads == t.heads && PrevKept(t', s')
    requires Closing(s'.writer) <==> Closing(s.writer)
    requires !Recycling(s.writer) && !Recycling(s'.writer)
    requires s'.writer == s.writer || (!Noting(s.writer) && !Noting(s'.writer))
    ensures HeadsShown(t', s')
  {
    forall c | 0 <= c < |t.heads|
      ensures ChunkShown(t', s', c)
    {
      assert ChunkShown(t, s, c);
    }
  }

  lemma ShownStill(t: Tab, s: L.State, s': L.State)
    requires HeadsShown(t, s) && BoundsKept(s, s') && s'.writer == s.writer
    ensures HeadsShown(t, s')
  {
    forall c | 0 <= c < |t.heads|
      ensures ChunkShown(t, s', c)
    {
      assert ChunkShown(t, s, c);
    }
  }

  // ----- the writer

  /** Writer steps between the announcements and the publication, restoration or opening of a chunk. */
  lemma InnerStep(t: Tab, s: L.State, dead: bool)
    requires HeadsShown(t, s) && L.Shape(s) && !s.writer.Idle? && !s.writer.Scan?
    requires !s.writer.Publish? && !s.writer.Restore? && !s.writer.StoreWriting?
    ensures HeadsShown(t, L.WriterStep(s, dead))
  {
    var s' := L.WriterStep(s, dead);
    forall c | 0 <= c < |t.heads|
      ensures ChunkShown(t, s', c)
    {
      assert ChunkShown(t, s, c);
    }
  }

  lemma ScanStepShown(t: Tab, s: L.State, dead: bool)
    requires HeadsShown(t, s) && L.Shape(s) && s.writer.Scan?
    ensures HeadsShown(t, L.WriterStep(s, dead))
  {
    assert L.WriterStep(s, dead) == L.ScanStep(s, dead);
    hide L.ScanStep, L.WriterStep;
    ScanBounds(s, dead);
    ShownStays(t, t, s, L.WriterStep(s, dead));
  }

  lemma RestoreShown(t: Tab, s: L.State, dead: bool)
    requires Ring.Sized(t) && HeadsShown(t, s) && L.Shape(s) && s.writer.Restore?
    ensures HeadsShown(Ring.Advance(t, true).0, L.WriterStep(s, dead))
  {
    var s' := L.WriterStep(s, dead);
    forall c | 0 <= c < |t.heads|
      ensures ChunkShown(Ring.Advance(t, true).0, s', c)
    {
      assert ChunkShown(t, s, c);
    }
  }

  lemma OpenShown(t: Tab, s: L.State, dead: bool)
    requires Linked(t, s) && HeadsShown(t, s) && L.Shape(s) && s.writer.StoreWriting?
    ensures HeadsShown(Ring.Advance(t, false).0, L.WriterStep(s, dead))
  {
    hide Ring.Advance, StartOf;
    var s', t' := L.WriterStep(s, dead), Ring.Advance(t, false).0;
    TargetIsNext(t, s);
    AdvanceFrame(t);
    forall c | 0 <= c < |t.heads|
      ensures ChunkShown(t', s', c)
    {
      assert ChunkShown(t, s, c);
    }
  }

  lemma PublishShown(t: Tab, g: Log, op: Op, s: L.State, dead: bool)
    requires TableOk(t, g) && Legal(t, op) && Linked(t, s) && HeadsShown(t, s) && L.Shape(s) && s.writer.Publish?
    requires Publishes(t, op, s.writer.ts, s.writer.upto)
    ensures HeadsShown(Do(t, op), L.WriterStep(s, dead))
  {
    hide TableOk, Append, Appendable, Do, StartOf, Legal, HeadsShown;
    PublishedTable(t, g, op, s.writer.ts, s.writer.upto);
    AppendNotes(t, op.row);
    NotedShown(t, Do(t, op), RowTs(t.cfg.tsCol, op.row), s, dead);
  }

  lemma NotedShown(t: Tab, t': Tab, ts: Option<I64>, s: L.State, dead: bool)
    requires HeadsShown(t, s) && L.Shape(s) && s.writer.Publish? && s.writer.ts == MaybeTsOf(ts) && t.wc == s.writeChunk
    requires |t'.heads| == |t.heads|
    requires forall c :: 0 <= c < |t.heads| && c != t.wc ==> t'.heads[c] == t.heads[c]
    requires NotesTs(t.heads[t.wc], t'.heads[t.wc], ts)
    ensures HeadsShown(t', L.WriterStep(s, dead))
  {
    var s' := L.WriterStep(s, dead);
    forall c | 0 <= c < |t.heads|
      ensures ChunkShown(t', s', c)
    {
      assert ChunkShown(t, s, c);
    }
  }

  predicate NotesTs(h: Head, h': Head, ts: Option<I64>)
  {
    && h'.state == h.state
    && h'.minTs == (if ts.Some? && ts.value < h.minTs then ts.value else h.minTs)
    && h'.maxTs == (if ts.Some? && ts.value > h.maxTs then ts.value else h.maxTs)
  }

  lemma AppendNotes(t: Tab, row: Row)
    requires Ring.Sized(t) && Appendable(t, row)
    ensures var t' := Append(t, row);
            && |t'.heads| == |t.heads|
            && (forall c :: 0 <= c < |t.heads| && c != t.wc ==> t'.heads[c] == t.heads[c])
            && NotesTs(t.heads[t.wc], t'.heads[t.wc], RowTs(t.cfg.tsCol, row))
  {
    hide StartOf, RowBytes, CellsOf, Commit, RowTs;
    CommitFrame(t, CellsOf(t, row), row);
  }

  lemma WriterShown(t: Tab, g: Log, op: Op, s: L.State, dead: bool)
    requires TableOk(t, g) && Legal(t, op) && Linked(t, s) && HeadsShown(t, s) && L.Shape(s)
    requires Mirrors(s, L.WriterTick(dead), t, op)
    ensures HeadsShown(Do(t, op), L.WriterStep(s, dead))
  {
    hide TableOk, Linked, Do, HeadsShown, Publishes, Silent, Legal, Ring.Advance;
    Shape(t, g);
    QuietTable(t, g);
    if s.writer.Publish? {
      PublishShown(t, g, op, s, dead);
    } else if s.writer.StoreWriting? {
      OpenShown(t, s, dead);
      DoAdvance(t, op);
    } else if s.writer.Restore? {
      RestoreShown(t, s, dead);
      DoAdvance(t, op);
    } else if s.writer.Scan? {
      ScanStepShown(t, s, dead);
    } else if s.writer.Idle? {
      SilentKeeps(t, op);
      IdleShown(t, Do(t, op), s);
    } else {
      InnerStep(t, s, dead);
    }
  }

  lemma IdleShown(t: Tab, t': Tab, s: L.State)
    requires HeadsShown(t, s) && t'.heads == t.heads && s.writer.Idle?
    ensures HeadsShown(t', s)
  {
    ShownStays(t, t', s, s);
  }

  lemma StepShown(t: Tab, g: Log, op: Op, s: L.State, step: L.Step)
    requires TableOk(t, g) && Legal(t, op) && Linked(t, s) && HeadsShown(t, s)
    requires L.Shape(s) && L.Can(s, step) && Mirrors(s, step, t, op)
    ensures HeadsShown(Do(t, op), L.Do(s, step))
  {
    hide TableOk, Linked, Do, L.Shape, HeadsShown, L.Do, L.Can;
    Shape(t, g);
    QuietTable(t, g);
    match step
    case WriterTick(dead) =>
      WriterShown(t, g, op, s, dead);
      DoWriter(s, dead);
    case Scribble(at, b) => BeginShown(t, Do(t, op), s, step) by { DoScribble(t, op); }
    case BeginCommit(_, _) => BeginShown(t, t, s, step);
    case BeginAdvance => BeginShown(t, t, s, step);
    case _ =>
      OthersKeepBounds(s, step);
      ShownStill(t, s, L.Do(s, step));
  }

  lemma DoWriter(s: L.State, dead: bool)
    requires L.Shape(s) && L.Can(s, L.WriterTick(dead))
    ensures L.Do(s, L.WriterTick(dead)) == L.WriterStep(s, dead)
  {
  }

  lemma BeginShown(t: Tab, t': Tab, s: L.State, step: L.Step)
    requires HeadsShown(t, s) && t'.heads == t.heads && L.Shape(s) && L.Can(s, step)
    requires step.Scribble? || step.BeginCommit? || step.BeginAdvance?
    ensures HeadsShown(t', L.Do(s, step))
  {
    hide L.Do, L.Can, L.Shape;
    BeginBounds(s, step);
    assert ChunkShown(t, s, L.Target(s));
    ShownStays(t, t', s, L.Do(s, step));
  }

  /** In every state of a joint run memory shows of every chunk what its head in the table and the writer say. */
  lemma {:induction false} JointShown(states: seq<L.State>, steps: seq<L.Step>, ts: seq<Tab>, ops: seq<Op>, k: nat)
    requires JointRun(states, steps, ts, ops) && k < |ts|
    ensures HeadsShown(ts[k], states[k])
    decreases k
  {
    hide TableOk, Linked, Do, L.Do, L.Can, Legal, Mirrors, LeaseSafety.Init, Initial, HeadsShown;
    if k > 0 {
      JointShown(states, steps, ts, ops, k - 1);
      JointLinked(states, steps, ts, ops, k - 1);
      StepShown(ts[k - 1], LogAt(ts, ops, k - 1), ops[k - 1], states[k - 1], steps[k - 1]);
    } else {
      InitialShown(ts[0], states[0]);
    }
  }

  lemma InitialShown(t: Tab, s: L.State)
    requires Initial(t) && Linked(t, s) && LeaseSafety.Init(s)
    ensures HeadsShown(t, s)
  {
    hide StartOf;
    forall c | 0 <= c < |t.heads|
      ensures ChunkShown(t, s, c)
    {
      assert t.heads[c] == InitialHead(c) && LeaseSafety.FreshChunk(s.chunks[c], c);
    }
  }

  /** With the writer at rest, state and bounds in memory are those of the table. */
  lemma RestingHeads(states: seq<L.State>, steps: seq<L.Step>, ts: seq<Tab>, ops: seq<Op>, k: nat, c: nat)
    requires JointRun(states, steps, ts, ops) && k < |ts| && states[k].writer.Idle? && c < |ts[k].heads|
    ensures c < |states[k].chunks|
    ensures var ch, h := states[k].chunks[c], ts[k].heads[c];
            ch.state == h.state && ch.minTs == h.minTs && ch.maxTs == h.maxTs
  {
    hide Mirrors, L.Do, L.Can, Linked, LeaseSafety.Init, Initial, Do, Legal, TableOk;
    JointShown(states, steps, ts, ops, k);
    assert ChunkShown(ts[k], states[k], c);
  }

  /**
   A chunk reads as empty, and a pin of it is answered with nothing, exactly if it was never written to or
   is the target of an advance under way.
   */
  lemma EmptyExactly(states: seq<L.State>, steps: seq<L.Step>, ts: seq<Tab>, ops: seq<Op>, k: nat, c: nat)
    requires JointRun(states, steps, ts, ops) && k < |ts| && c < |ts[k].heads|
    ensures c < |states[k].chunks|
    ensures states[k].chunks[c].state == Empty
            <==> ts[k].heads[c].gen == 0 || (c == L.Target(states[k]) && Closing(states[k].writer))
  {
    hide Mirrors, L.Do, L.Can, Linked, LeaseSafety.Init, Initial, Do, Legal, TableOk;
    JointShown(states, steps, ts, ops, k);
    JointLinked(states, steps, ts, ops, k);
    EmptyUnwritten(ts[k], LogAt(ts, ops, k), c);
    WriteChunkIs(ts[k], states[k]);
    assert ChunkShown(ts[k], states[k], c);
  }

  lemma WriteChunkIs(t: Tab, s: L.State)
    requires Linked(t, s)
    ensures |s.chunks| == |t.heads| && (Recycling(s.writer) ==> t.wc == s.writeChunk)
  {
  }

  lemma EmptyUnwritten(t: Tab, g: Log, c: nat)
    requires TableOk(t, g) && c < |t.heads|
    ensures t.heads[c].state == Empty <==> t.heads[c].gen == 0
    ensures t.wc < |t.heads| && t.heads[t.wc].gen > 0
  {
    Shape(t, g);
    assert ChunkOk(t, c, g.rows[c]);
  }
}
