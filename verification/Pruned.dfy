/** Time ranges over joint runs: what a range read by a concurrent reader covers, in terms of rows. */
module Pruned {
  import opened Schema
  import opened RowCodec
  import opened Ring
  import opened RingInv
  import opened RingSteps
  import opened RingRuns
  import opened RingReads
  import L = Lease
  import LeaseInv
  import LeaseSafety
  import opened LeaseWriter
  import opened Joint

  // ----- the timestamps of a chunk are those of its rows

  /** The timestamps of rows, in order; rows without one are skipped. */
  function Stamps(tsCol: nat, rows: seq<Row>): seq<int>
  {
    if rows == [] then []
    else
      var last := RowTs(tsCol, rows[|rows| - 1]);
      Stamps(tsCol, rows[..|rows| - 1]) + (if last.Some? then [last.value] else [])
  }

  lemma StampsSnoc(tsCol: nat, rows: seq<Row>, row: Row)
    ensures Stamps(tsCol, rows + [row])
            == Stamps(tsCol, rows) + (if RowTs(tsCol, row).Some? then [RowTs(tsCol, row).value] else [])
  {
    assert (rows + [row])[..|rows|] == rows;
  }

  lemma {:induction false} StampedRow(tsCol: nat, rows: seq<Row>, k: nat)
    requires k < |rows| && RowTs(tsCol, rows[k]).Some?
    ensures RowTs(tsCol, rows[k]).value in Stamps(tsCol, rows)
    decreases |rows|
  {
    if k < |rows| - 1 {
      StampedRow(tsCol, rows[..|rows| - 1], k);
    }
  }

  /** The protocol's record of committed timestamps; a chunk being reset has none. */
  ghost predicate TsLinked(t: Tab, g: Log, s: L.State, c: nat)
    requires c < |s.chunks| && c < |g.rows| && s.writeChunk < |s.chunks|
  {
    s.chunks[c].ts == if Resetting(s.writer) && c == L.Target(s) then [] else Stamps(t.cfg.tsCol, g.rows[c])
  }

  ghost predicate AllTsLinked(t: Tab, g: Log, s: L.State)
  {
    && |s.chunks| == |g.rows| && s.writeChunk < |s.chunks|
    && forall c :: 0 <= c < |g.rows| ==> TsLinked(t, g, s, c)
  }

  lemma TsFrame(t: Tab, t': Tab, g: Log, s: L.State, s': L.State)
    requires AllTsLinked(t, g, s) && t'.cfg == t.cfg && CoresKept(s, s') && s'.writeChunk == s.writeChunk
    requires Resetting(s'.writer) <==> Resetting(s.writer)
    ensures AllTsLinked(t', g, s')
  {
    hide Stamps;
    forall c | 0 <= c < |g.rows|
      ensures TsLinked(t', g, s', c)
    {
      assert TsLinked(t, g, s, c) && CoreOf(s'.chunks[c]) == CoreOf(s.chunks[c]);
    }
  }

  lemma ScribbleTs(t: Tab, t': Tab, g: Log, s: L.State, step: L.Step)
    requires AllTsLinked(t, g, s) && t'.cfg == t.cfg && L.Shape(s) && L.Can(s, step) && step.Scribble?
    ensures AllTsLinked(t', g, L.Do(s, step))
  {
    hide Stamps;
    var s' := L.Do(s, step);
    forall c | 0 <= c < |g.rows|
      ensures TsLinked(t', g, s', c)
    {
      assert TsLinked(t, g, s, c) && s'.chunks[c].ts == s.chunks[c].ts;
    }
  }

  lemma PublishTs(t: Tab, t': Tab, g: Log, row: Row, s: L.State, dead: bool)
    requires AllTsLinked(t, g, s) && L.Shape(s) && s.writer.Publish? && t'.cfg == t.cfg
    requires t.wc == s.writeChunk < |g.rows| && s.writer.ts == MaybeTsOf(RowTs(t.cfg.tsCol, row))
    ensures AllTsLinked(t', Logged(t, g, row), L.WriterStep(s, dead))
  {
    hide Stamps, L.WriterStep;
    var s', g' := L.WriterStep(s, dead), Logged(t, g, row);
    PublishCores(s, dead);
    forall c | 0 <= c < |g'.rows|
      ensures TsLinked(t', g', s', c)
    {
      assert TsLinked(t, g, s, c);
      if c == t.wc {
        StampsSnoc(t.cfg.tsCol, g.rows[c], row);
        assert CoreOf(s'.chunks[c]) == PublishedCore(s.chunks[c], s.writer);
      } else {
        assert CoreOf(s'.chunks[c]) == CoreOf(s.chunks[c]);
      }
    }
  }

  lemma BumpTs(t: Tab, g: Log, s: L.State, dead: bool)
    requires AllTsLinked(t, g, s) && L.Shape(s)
    requires s.writer.BumpGen? || s.writer.ResetUsed? || s.writer.StoreWriteChunk?
    ensures AllTsLinked(t, g, L.WriterStep(s, dead))
  {
    hide Stamps;
    var s' := L.WriterStep(s, dead);
    forall c | 0 <= c < |g.rows|
      ensures TsLinked(t, g, s', c)
    {
      assert TsLinked(t, g, s, c);
    }
  }

  lemma RecycleTs(t: Tab, t': Tab, g: Log, s: L.State, dead: bool)
    requires AllTsLinked(t, g, s) && L.Shape(s) && s.writer.StoreWriting? && t'.cfg == t.cfg
    requires Ring.Sized(t) && |g.rows| == |t.heads| && NextChunk(t) == L.Target(s)
    ensures AllTsLinked(t', Dropped(t, g), L.WriterStep(s, dead))
  {
    hide L.WriterStep;
    var s', g' := L.WriterStep(s, dead), Dropped(t, g);
    WriterKeepsCores(s, dead);
    forall c | 0 <= c < |g'.rows|
      ensures TsLinked(t', g', s', c)
    {
      assert TsLinked(t, g, s, c) && CoreOf(s'.chunks[c]) == CoreOf(s.chunks[c]);
    }
  }

  lemma SilentLogs(t: Tab, g: Log, op: Op)
    requires TableOk(t, g) && Silent(t, op) && |g.rows| == |t.heads|
    ensures Logs(t, g, op) == g
  {
    hide TableOk, Append, RowBytes, CellsOf;
  }

  lemma PublishLogs(t: Tab, g: Log, op: Op, ts: L.MaybeTs, upto: nat)
    requires TableOk(t, g) && Publishes(t, op, ts, upto) && |g.rows| == |t.heads|
    ensures op.AppendRow? || op.StreamRow?
    ensures Logs(t, g, op) == Logged(t, g, op.row) && ts == MaybeTsOf(RowTs(t.cfg.tsCol, op.row))
  {
    hide TableOk, Append, RowBytes, CellsOf;
  }

  lemma AdvanceLogs(t: Tab, g: Log, op: Op)
    requires Ring.Sized(t) && op.AdvanceChunk? && |g.rows| == |t.heads|
    ensures Logs(t, g, op) == if op.pinned then g else Dropped(t, g)
  {
  }

  lemma WriterTs(t: Tab, g: Log, op: Op, s: L.State, dead: bool)
    requires TableOk(t, g) && Legal(t, op) && Linked(t, s) && L.Shape(s) && Mirrors(s, L.WriterTick(dead), t, op)
    requires AllTsLinked(t, g, s) && |g.rows| == |t.heads|
    ensures AllTsLinked(Do(t, op), Logs(t, g, op), L.WriterStep(s, dead))
  {
    hide TableOk, Do, L.WriterStep, Publishes, Silent, Legal, Ring.Advance, Logs, AllTsLinked;
    Shape(t, g);
    QuietTable(t, g);
    StepKeepsSize(t, g, op);
    SilentScribble(t);
    if s.writer.Publish? {
      PublishLogs(t, g, op, s.writer.ts, s.writer.upto);
      PublishTs(t, Do(t, op), g, op.row, s, dead);
    } else if s.writer.BumpGen? || s.writer.ResetUsed? || s.writer.StoreWriteChunk? {
      SilentLogs(t, g, op);
      BumpTs(t, g, s, dead);
    } else if s.writer.StoreWriting? {
      AdvanceLogs(t, g, op);
      TargetIsNext(t, s);
      RecycleTs(t, Do(t, op), g, s, dead);
    } else {
      WriterKeepsCores(s, dead);
      if s.writer.Restore? {
        AdvanceLogs(t, g, op);
      } else {
        SilentLogs(t, g, op);
      }
      TsFrame(t, Do(t, op), g, s, L.WriterStep(s, dead));
    }
  }

  lemma SilentScribble(t: Tab)
    requires Ring.Sized(t)
    ensures Silent(t, Op.Scribble(t.bytes))
  {
  }

  lemma ScribbleLogs(t: Tab, g: Log, op: Op)
    requires Ring.Sized(t) && op.Scribble? && |g.rows| == |t.heads|
    ensures Logs(t, g, op) == g
  {
  }

  lemma StepTs(t: Tab, g: Log, op: Op, s: L.State, step: L.Step)
    requires TableOk(t, g) && Legal(t, op) && Linked(t, s) && L.Shape(s) && L.Can(s, step) && Mirrors(s, step, t, op)
    requires AllTsLinked(t, g, s) && |g.rows| == |t.heads|
    ensures AllTsLinked(Do(t, op), Logs(t, g, op), L.Do(s, step))
  {
    hide TableOk, Linked, Do, L.Shape, AllTsLinked, Logs;
    Shape(t, g);
    StepKeepsSize(t, g, op);
    match step
    case Scribble(at, b) =>
      ScribbleLogs(t, g, op);
      ScribbleTs(t, Do(t, op), g, s, step);
    case WriterTick(dead) =>
      hide L.WriterStep;
      WriterTs(t, g, op, s, dead);
    case BeginCommit(_, _) =>
      hide L.Do;
      ScribbleLogs(t, g, op);
      BeginKeepsCores(s, step);
      TsFrame(t, Do(t, op), g, s, L.Do(s, step));
    case BeginAdvance =>
      hide L.Do;
      ScribbleLogs(t, g, op);
      BeginKeepsCores(s, step);
      TsFrame(t, Do(t, op), g, s, L.Do(s, step));
    case _ =>
      hide L.Do;
      ScribbleLogs(t, g, op);
      OthersKeepCores(s, step);
      TsFrame(t, Do(t, op), g, s, L.Do(s, step));
  }

  lemma StartTs(t: Tab, s: L.State, g: Log)
    requires LeaseSafety.Init(s) && |s.chunks| == |g.rows| && forall c :: 0 <= c < |g.rows| ==> g.rows[c] == []
    ensures AllTsLinked(t, g, s)
  {
  }

  lemma {:induction false} JointTs(states: seq<L.State>, steps: seq<L.Step>, ts: seq<Tab>, ops: seq<Op>, k: nat)
    requires JointRun(states, steps, ts, ops) && k < |ts|
    ensures AllTsLinked(ts[k], LogAt(ts, ops, k), states[k])
    decreases k
  {
    hide TableOk, Do, L.Do, L.Can, Legal, Mirrors, Initial, Logs, AllTsLinked;
    JointLinked(states, steps, ts, ops, k);
    Shape(ts[k], LogAt(ts, ops, k));
    if k == 0 {
      StartTs(ts[0], states[0], LogAt(ts, ops, 0));
    } else {
      hide LeaseSafety.Init;
      JointTs(states, steps, ts, ops, k - 1);
      JointLinked(states, steps, ts, ops, k - 1);
      var g := LogAt(ts, ops, k - 1);
      Shape(ts[k - 1], g);
      StepTs(ts[k - 1], g, ops[k - 1], states[k - 1], steps[k - 1]);
    }
  }

  /** The timestamps the protocol records for a chunk are those of the rows written to its generation. */
  lemma StampsWritten(states: seq<L.State>, steps: seq<L.Step>, ts: seq<Tab>, ops: seq<Op>, k: nat, c: nat)
    requires JointRun(states, steps, ts, ops) && k < |ts| && c < |states[k].chunks|
    ensures states[k].chunks[c].ts == Stamps(ts[k].cfg.tsCol, WrittenTo(ts, ops, c, states[k].chunks[c].gen, k))
  {
    hide TableOk, Do, L.Do, L.Can, Legal, Mirrors, LeaseSafety.Init, Initial, LogAt, WrittenTo;
    var t, g, s := ts[k], LogAt(ts, ops, k), states[k];
    JointLinked(states, steps, ts, ops, k);
    JointTs(states, steps, ts, ops, k);
    Shape(t, g);
    assert TsLinked(t, g, s, c) && ChunkLinked(t, s, c);
    if Resetting(s.writer) && c == L.Target(s) {
      NothingAhead(ts, ops, c, s.chunks[c].gen, k);
    } else {
      HeldIsWritten(ts, ops, c, k);
    }
  }

  // ----- range reads

  lemma WriterGen(s: L.State, dead: bool, c: nat)
    requires L.Shape(s) && c < |s.chunks|
    ensures c < |L.WriterStep(s, dead).chunks| && s.chunks[c].gen <= L.WriterStep(s, dead).chunks[c].gen
  {
    if s.writer.Publish? {
      PublishCores(s, dead);
      assert c == s.writeChunk || CoreOf(L.WriterStep(s, dead).chunks[c]) == CoreOf(s.chunks[c]);
    } else if !s.writer.BumpGen? && !s.writer.ResetUsed? && !s.writer.StoreWriteChunk? {
      WriterKeepsCores(s, dead);
      assert CoreOf(L.WriterStep(s, dead).chunks[c]) == CoreOf(s.chunks[c]);
    }
  }

  lemma StepGen(s: L.State, step: L.Step, c: nat)
    requires L.Shape(s) && L.Can(s, step) && c < |s.chunks|
    ensures c < |L.Do(s, step).chunks| && s.chunks[c].gen <= L.Do(s, step).chunks[c].gen
  {
    if !WriterActs(step) {
      OthersKeepCores(s, step);
      assert CoreOf(L.Do(s, step).chunks[c]) == CoreOf(s.chunks[c]);
    } else if step.WriterTick? {
      WriterGen(s, step.dead, c);
    }
  }

  lemma {:induction false} GenGrows(states: seq<L.State>, steps: seq<L.Step>, j: nat, k: nat, c: nat)
    requires LeaseSafety.IsRun(states, steps) && j <= k < |states| && c < |states[j].chunks|
    ensures c < |states[k].chunks| && states[j].chunks[c].gen <= states[k].chunks[c].gen
    decreases k
  {
    hide L.Do, L.Can;
    if j < k {
      GenGrows(states, steps, j, k - 1, c);
      StepGen(states[k - 1], steps[k - 1], c);
    }
  }

  /** A range read that is done ended with its chunk at the generation it began with. */
  ghost predicate Bracketed(s: L.State, o: nat, c: nat, gen: nat, now: nat)
  {
    LeaseSafety.InRange(s, o) ==>
      && s.ops[o].chunk == c && s.ops[o].pc.gen == gen
      && (s.ops[o].pc.Ranged? ==> now <= gen)
  }

  lemma RangeTick(s: L.State, step: L.Step, o: nat, c: nat, gen: nat, now: nat)
    requires L.Shape(s) && L.Can(s, step) && LeaseSafety.InRange(s, o) && Bracketed(s, o, c, gen, now)
    requires c < |s.chunks| && now <= s.chunks[c].gen
    ensures Bracketed(L.Do(s, step), o, c, gen, now)
  {
    LeaseSafety.StepFrame(s, step, o);
  }

  lemma LoadTick(s: L.State, step: L.Step, o: nat)
    requires LeaseInv.Inv(s) && L.Can(s, step) && step.Tick? && step.o == o && s.ops[o].pc.RangeUsed?
    ensures var c := s.ops[o].chunk;
            && c < |s.chunks| && s.ops[o].pc.gen <= s.chunks[c].gen
            && Bracketed(L.Do(s, step), o, c, s.ops[o].pc.gen, s.chunks[c].gen)
  {
    LeaseInv.InvOp(s, o);
  }

  lemma {:induction false} StillBracketed(states: seq<L.State>, steps: seq<L.Step>, j: nat, k: nat, o: nat)
    requires LeaseSafety.GoodRun(states, steps) && j < k < |states|
    requires o in states[j].ops && states[j].ops[o].pc.RangeUsed? && steps[j].Tick? && steps[j].o == o
    requires forall m :: j < m <= k ==> LeaseSafety.InRange(states[m], o)
    ensures var c := states[j].ops[o].chunk;
            && c < |states[j].chunks| && states[j].ops[o].pc.gen <= states[j].chunks[c].gen
            && Bracketed(states[k], o, c, states[j].ops[o].pc.gen, states[j].chunks[c].gen)
    decreases k
  {
    hide L.Do, L.Can, LeaseInv.Inv, Bracketed;
    LeaseSafety.RunHolds(states, steps, j);
    LoadTick(states[j], steps[j], o);
    if j + 1 < k {
      var c := states[j].ops[o].chunk;
      StillBracketed(states, steps, j, k - 1, o);
      GenGrows(states, steps, j, k - 1, c);
      RangeTick(states[k - 1], steps[k - 1], o, c, states[j].ops[o].pc.gen, states[j].chunks[c].gen);
    }
  }

  /**
   Pruning by time is sound. In any joint run, a range that a reader got between two equal reads of the
   generation covers the timestamp of every row reported as written to that chunk and generation before
   the step j that loaded `used`, whatever the writer did meanwhile.
   */
  lemma PrunedRowsCovered(states: seq<L.State>, steps: seq<L.Step>, ts: seq<Tab>, ops: seq<Op>, j: nat, k: nat, o: nat)
    requires JointRun(states, steps, ts, ops) && j < k < |states|
    requires o in states[j].ops && states[j].ops[o].pc.RangeUsed? && steps[j].Tick? && steps[j].o == o
    requires forall m :: j < m <= k ==> LeaseSafety.InRange(states[m], o)
    requires L.Live(states[k], o) && states[k].ops[o].pc.Ranged?
    ensures var c, pc := states[j].ops[o].chunk, states[k].ops[o].pc;
            var rows := WrittenTo(ts, ops, c, pc.gen, j);
            forall r :: 0 <= r < |rows| && RowTs(ts[j].cfg.tsCol, rows[r]).Some? ==>
              pc.lo <= RowTs(ts[j].cfg.tsCol, rows[r]).value <= pc.hi
  {
    hide Do, L.Do, L.Can, Legal, Mirrors, LeaseSafety.Init, Initial, WrittenTo, LeaseInv.Inv, Stamps;
    var c, pc := states[j].ops[o].chunk, states[k].ops[o].pc;
    StillBracketed(states, steps, j, k, o);
    LeaseSafety.RangeSound(states, steps, j, k, o);
    StampsWritten(states, steps, ts, ops, j, c);
    var rows := WrittenTo(ts, ops, c, pc.gen, j);
    assert pc.gen == states[j].chunks[c].gen;
    forall r | 0 <= r < |rows| && RowTs(ts[j].cfg.tsCol, rows[r]).Some?
      ensures pc.lo <= RowTs(ts[j].cfg.tsCol, rows[r]).value <= pc.hi
    {
      StampedRow(ts[j].cfg.tsCol, rows, r);
    }
  }
}
