/** What a pinned iterator decodes, over joint runs of protocol and table; and appends as runs of writer steps. */
module Pinned {
  import opened Bytes
  import opened Chunks
  import opened Schema
  import opened RowCodec
  import opened Dedup
  import opened Ring
  import opened RingInv
  import opened RingRuns
  import opened RingReads
  import opened Stream
  import L = Lease
  import LeaseInv
  import LeaseSafety
  import LeaseWriter
  import opened Joint

  // ----- pinned rows

  /** A chunk on which some activity is validated is seen alike by protocol and table. */
  lemma ValidatedViews(states: seq<L.State>, steps: seq<L.Step>, ts: seq<Tab>, ops: seq<Op>, k: nat, o: nat)
    requires JointRun(states, steps, ts, ops) && k < |ts| && L.Live(states[k], o)
    requires LeaseInv.Validated(states[k].ops[o].pc, L.PidOf(states[k], o))
    ensures var c := states[k].ops[o].chunk;
            Ring.Sized(ts[k]) && c < |ts[k].heads| && c < |states[k].chunks| && Views(ts[k], states[k], c)
  {
    hide LeaseInv.Inv, L.Do, L.Can, Do, Legal, Mirrors, Views, LeaseSafety.Init, Initial;
    LeaseSafety.RunHolds(states, steps, k);
    JointLinked(states, steps, ts, ops, k);
    LeaseWriter.ValidatedNotReset(states[k], o);
    LeaseInv.InvOp(states[k], o);
    assert ChunkLinked(ts[k], states[k], states[k].ops[o].chunk);
  }

  /** The bytes of the snapshot are the committed bytes of the table at capture. */
  lemma CapturedViews(states: seq<L.State>, steps: seq<L.Step>, ts: seq<Tab>, ops: seq<Op>,
                      j: nat, c: nat, snap: L.Snap)
    requires JointRun(states, steps, ts, ops) && j < |steps| && LeaseSafety.Capture(states, steps, j, c, snap)
    ensures Ring.Sized(ts[j]) && c < |ts[j].heads|
    ensures snap.gen == ts[j].heads[c].gen && snap.used == ts[j].heads[c].used
  {
    hide LeaseInv.Inv, L.Do, L.Can, Do, Legal, Mirrors, LeaseSafety.Init, Initial;
    ValidatedViews(states, steps, ts, ops, j, steps[j].o);
  }

  /**
   Pinned rows, over the whole system. Take any joint run of readers, writer, deaths, forks and table
   operations, and any pin that is readable in state k, inherited or not. There was a step j that loaded
   `used` for its snapshot, and an iterator over the captured extent decodes in state k, from the memory
   as it is then, exactly the rows reported as written to that chunk and generation before step j.
   */
  lemma PinnedRowsStable(states: seq<L.State>, steps: seq<L.Step>, ts: seq<Tab>, ops: seq<Op>, k: nat, o: nat)
    requires JointRun(states, steps, ts, ops) && k < |ts| && Small(ts[0].cfg) && LeaseSafety.Readable(states[k], o)
    ensures var c, snap := states[k].ops[o].chunk, states[k].ops[o].pc.snap;
            && Ring.Sized(ts[k]) && c < |ts[k].heads| && c < |states[k].chunks| && Views(ts[k], states[k], c)
            && CHUNK_HEADER + snap.used <= ts[k].cfg.chunkSize
            && exists j :: 0 <= j < k && LeaseSafety.Capture(states, steps, j, c, snap)
                           && ReadAt(ts[k], c, snap.used) == Some(WrittenTo(ts, ops, c, snap.gen, j))
  {
    hide LeaseInv.Inv, L.Do, L.Can, Do, Legal, Mirrors, LeaseSafety.Init, Initial, ReadAt, Views, SameCommitted;
    hide LeaseSafety.Capture, LogAt;
    var c, snap := states[k].ops[o].chunk, states[k].ops[o].pc.snap;
    ValidatedViews(states, steps, ts, ops, k, o);
    PinAtGeneration(states, steps, k, o);
    LeaseSafety.SnapshotProvenance(states, steps, k, o);
    var j :| 0 <= j < k && LeaseSafety.Capture(states, steps, j, c, snap);
    CapturedViews(states, steps, ts, ops, j, c, snap);
    ViewsGen(ts[k], states[k], c);
    SnapshotStable(ts, ops, j, k, c);
    RunKeepsSize(ts, ops, j);
    HeldIsWritten(ts, ops, c, j);
  }

  lemma ViewsGen(t: Tab, s: L.State, c: nat)
    requires Ring.Sized(t) && c < |t.heads| && c < |s.chunks| && Views(t, s, c)
    ensures t.heads[c].gen == s.chunks[c].gen
  {
  }

  lemma PinAtGeneration(states: seq<L.State>, steps: seq<L.Step>, k: nat, o: nat)
    requires LeaseSafety.GoodRun(states, steps) && k < |states| && LeaseSafety.Readable(states[k], o)
    ensures states[k].ops[o].chunk < |states[k].chunks|
    ensures states[k].chunks[states[k].ops[o].chunk].gen == states[k].ops[o].pc.snap.gen
  {
    LeaseSafety.RunHolds(states, steps, k);
    LeaseSafety.ReadableHasOwnLease(states[k], o);
  }

  // ----- an append is a run of writer steps

  datatype Run = Run(states: seq<L.State>, steps: seq<L.Step>, ts: seq<Tab>, ops: seq<Op>)

  ghost predicate IsJoint(r: Run)
  {
    JointRun(r.states, r.steps, r.ts, r.ops)
  }

  /** The longer run begins with the shorter one. */
  ghost predicate Continues(r: Run, r': Run)
  {
    && |r.states| <= |r'.states| && r.states == r'.states[..|r.states|]
    && |r.ts| <= |r'.ts| && r.ts == r'.ts[..|r.ts|]
  }

  lemma ContinuesOn(a: Run, b: Run, c: Run)
    requires Continues(a, b) && Continues(b, c)
    ensures Continues(a, c)
  {
    assert c.states[..|b.states|][..|a.states|] == c.states[..|a.states|];
    assert c.ts[..|b.ts|][..|a.ts|] == c.ts[..|a.ts|];
  }

  ghost function Last(r: Run): (L.State, Tab)
    requires IsJoint(r)
  {
    (r.states[|r.steps|], r.ts[|r.steps|])
  }

  /** One more step on both sides. */
  lemma ExtendRun(r: Run, step: L.Step, op: Op) returns (r': Run)
    requires IsJoint(r) && L.Shape(Last(r).0) && L.Can(Last(r).0, step) && LeaseInv.Benign(Last(r).0, step)
    requires Ring.Sized(Last(r).1) && Legal(Last(r).1, op) && Mirrors(Last(r).0, step, Last(r).1, op)
    ensures IsJoint(r') && Last(r') == (L.Do(Last(r).0, step), Do(Last(r).1, op))
    ensures Continues(r, r')
  {
    hide L.Do, L.Can, Do, Legal, Mirrors, LeaseSafety.Init, Initial, LeaseInv.Benign, Linked;
    r' := Run(r.states + [L.Do(Last(r).0, step)], r.steps + [step], r.ts + [Do(Last(r).1, op)], r.ops + [op]);
    var n := |r.steps|;
    forall k | 0 <= k < |r'.steps|
      ensures L.Shape(r'.states[k]) && L.Can(r'.states[k], r'.steps[k]) && LeaseInv.Benign(r'.states[k], r'.steps[k])
      ensures r'.states[k + 1] == L.Do(r'.states[k], r'.steps[k])
      ensures Ring.Sized(r'.ts[k]) && Legal(r'.ts[k], r'.ops[k]) && r'.ts[k + 1] == Do(r'.ts[k], r'.ops[k])
      ensures Mirrors(r'.states[k], r'.steps[k], r'.ts[k], r'.ops[k])
    {
      if k < n {
        assert r'.states[k] == r.states[k] && r'.states[k + 1] == r.states[k + 1] && r'.steps[k] == r.steps[k];
        assert r'.ts[k] == r.ts[k] && r'.ts[k + 1] == r.ts[k + 1] && r'.ops[k] == r.ops[k];
      }
    }
  }

  /** At rest: the writer is idle, so memory and table agree on every chunk. */
  ghost predicate AtRest(r: Run)
  {
    IsJoint(r) && Last(r).0.writer.Idle?
  }

  lemma RestFacts(r: Run)
    requires AtRest(r)
    ensures var (s, t) := Last(r);
            && L.Shape(s) && Ring.Sized(t) && MemoOk(t) && t.wc == s.writeChunk < |s.chunks| && t.wc < |t.heads|
            && Views(t, s, t.wc)
  {
    hide L.Do, L.Can, Do, Legal, Mirrors, LeaseSafety.Init, Initial, Views, TableOk, LeaseInv.Inv;
    var n := |r.steps|;
    LeaseSafety.RunHolds(r.states, r.steps, n);
    JointLinked(r.states, r.steps, r.ts, r.ops, n);
    Shape(r.ts[n], LogAt(r.ts, r.ops, n));
    LeaseInv.InvShape(r.states[n]);
    assert ChunkLinked(r.ts[n], r.states[n], r.ts[n].wc);
  }

  /** The buffer with the first m bytes of a record in place. */
  function Partly(t: Tab, rec: seq<Byte>, m: nat): seq<Byte>
    requires Ring.Sized(t) && m <= |rec| && EndOf(t, t.wc) + |rec| <= |t.bytes|
  {
    Splice(t.bytes, EndOf(t, t.wc), rec[..m])
  }

  lemma PartlyMore(t: Tab, rec: seq<Byte>, m: nat)
    requires Ring.Sized(t) && m < |rec| && EndOf(t, t.wc) + |rec| <= |t.bytes|
    ensures Partly(t, rec, m + 1) == WithByte(t.(bytes := Partly(t, rec, m)), t.heads[t.wc].used + m, rec[m])
  {
    hide StartOf;
    assert rec[..m + 1] == rec[..m] + [rec[m]];
    SpliceTwice(t.bytes, EndOf(t, t.wc), rec[..m], [rec[m]]);
  }

  lemma PartlyFree(t: Tab, rec: seq<Byte>, m: nat)
    requires Ring.Sized(t) && m < |rec| && EndOf(t, t.wc) + |rec| <= ChunkEnd(t) <= |t.bytes|
    ensures OnlyFree(t.(bytes := Partly(t, rec, m)), Partly(t, rec, m + 1))
  {
    hide StartOf;
    PartlyMore(t, rec, m);
  }

  /** Write a record byte by byte. */
  lemma {:induction false} WriteBytes(r: Run, rec: seq<Byte>, m: nat) returns (r': Run)
    requires AtRest(r) && Ring.Sized(Last(r).1) && m <= |rec|
    requires EndOf(Last(r).1, Last(r).1.wc) + |rec| <= ChunkEnd(Last(r).1)
    requires ChunkEnd(Last(r).1) <= |Last(r).1.bytes|
    ensures AtRest(r') && Last(r').1 == Last(r).1.(bytes := Partly(Last(r).1, rec, m))
    ensures Continues(r, r')
    decreases m
  {
    hide L.Can, Legal, Mirrors, Partly, JointRun, StartOf, Linked;
    var t := Last(r).1;
    if m == 0 {
      r' := r;
      assert rec[..0] == [];
      NothingWritten(t, rec);
    } else {
      var before := WriteBytes(r, rec, m - 1);
      var (s1, t1) := Last(before);
      RestFacts(before);
      PartlyMore(t, rec, m - 1);
      PartlyFree(t, rec, m - 1);
      var at, b := t.heads[t.wc].used + (m - 1), rec[m - 1];
      ByteStep(s1, t1, at, b);
      r' := ExtendRun(before, L.Step.Scribble(at, b), Op.Scribble(WithByte(t1, at, b)));
      ContinuesOn(r, before, r');
    }
  }

  lemma NothingWritten(t: Tab, rec: seq<Byte>)
    requires Ring.Sized(t) && EndOf(t, t.wc) + |rec| <= |t.bytes|
    ensures Partly(t, rec, 0) == t.bytes
  {
    assert rec[..0] == [];
    EmptySplice(t.bytes, EndOf(t, t.wc));
  }

  /** Storing a byte behind the committed ones is a step of protocol and table. */
  lemma ByteStep(s: L.State, t: Tab, at: nat, b: Byte)
    requires L.Shape(s) && s.writer.Idle? && Ring.Sized(t) && t.wc == s.writeChunk < |s.chunks| && Views(t, s, t.wc)
    requires t.heads[t.wc].used <= at && EndOf(t, t.wc) + (at - t.heads[t.wc].used) < ChunkEnd(t)
    requires OnlyFree(t, WithByte(t, at, b))
    ensures var step := L.Step.Scribble(at, b);
            && L.Can(s, step) && LeaseInv.Benign(s, step) && Legal(t, Op.Scribble(WithByte(t, at, b)))
            && Mirrors(s, step, t, Op.Scribble(WithByte(t, at, b)))
            && L.Do(s, step).writer.Idle?
  {
    hide StartOf;
  }

  /** With its record in place, appending a row writes no further byte and gives the same table. */
  lemma AppendInPlace(t: Tab, row: Row)
    requires Ring.Sized(t) && MemoOk(t) && Appendable(t, row)
    ensures var rec := Record(CellsOf(t, row));
            && EndOf(t, t.wc) + |rec| <= ChunkEnd(t) <= |t.bytes|
            && var t1 := t.(bytes := Partly(t, rec, |rec|));
               && Ring.Sized(t1) && CellsOf(t1, row) == CellsOf(t, row) && Appendable(t1, row)
               && Append(t1, row) == Append(t, row) && Append(t1, row).bytes == t1.bytes
  {
    hide StartOf, RowBytes, Le4, MemoOk, CellFor, Entries, Remember;
    ChunkInside(t, t.wc);
    var rec := Record(CellsOf(t, row));
    assert rec[..|rec|] == rec;
    var t1 := t.(bytes := Partly(t, rec, |rec|));
    SameCells(t, t1, row);
    SpliceAgain(t.bytes, EndOf(t, t.wc), rec);
  }

  lemma SpliceAgain(s: seq<Byte>, at: nat, b: seq<Byte>)
    requires at + |b| <= |s|
    ensures Splice(Splice(s, at, b), at, b) == Splice(s, at, b)
  {
  }

  lemma SameCells(t: Tab, t1: Tab, row: Row)
    requires Ring.Sized(t) && MemoOk(t) && t1 == t.(bytes := t1.bytes) && OnlyFree(t, t1.bytes)
    ensures CellsOf(t1, row) == CellsOf(t, row)
  {
    hide StartOf, CellFor, MemoOk, OnlyFree;
    if t.memo.Some? {
      forall k | 0 <= k < |row|
        ensures CellsOf(t1, row)[k] == CellsOf(t, row)[k]
      {
        LookupSettled(t, t1.bytes, k, row[k]);
      }
    }
  }

  /** Note the timestamp bounds, then publish. */
  lemma CommitSteps(r: Run, row: Row) returns (r': Run)
    requires AtRest(r) && Ring.Sized(Last(r).1) && Accepts(Last(r).1, row) && Matches(row, Last(r).1.cfg.types)
    requires Append(Last(r).1, row).bytes == Last(r).1.bytes
    ensures AtRest(r') && Last(r').1 == Append(Last(r).1, row)
    ensures Continues(r, r')
  {
    hide Append, RowBytes, CellsOf, JointRun, Mirrors, Legal, L.Can, LeaseInv.Benign, LeaseInv.Inv;
    hide Do, L.Do, Linked, InPlace;
    var (s, t) := Last(r);
    RestFacts(r);
    var upto := t.heads[t.wc].used + 4 + |RowBytes(CellsOf(t, row))|;
    var stamp := MaybeTsOf(RowTs(t.cfg.tsCol, row));
    BeginStep(s, t, row, stamp, upto);
    var r1 := ExtendRun(r, L.BeginCommit(stamp, upto), Op.Scribble(t.bytes));
    var r2 := NoteStep(r1, t, row, stamp, upto, L.NoteMin(stamp, upto), L.NoteMax(stamp, upto));
    var r3 := NoteStep(r2, t, row, stamp, upto, L.NoteMax(stamp, upto), L.Publish(stamp, upto));
    r' := PublishStep(r3, t, row, stamp, upto);
    ContinuesOn(r, r1, r2);
    ContinuesOn(r, r2, r3);
    ContinuesOn(r, r3, r');
  }

  lemma BeginStep(s: L.State, t: Tab, row: Row, stamp: L.MaybeTs, upto: nat)
    requires L.Shape(s) && s.writer.Idle? && Ring.Sized(t) && t.wc == s.writeChunk < |s.chunks| && Views(t, s, t.wc)
    requires Appendable(t, row) && Matches(row, t.cfg.types) && Append(t, row).bytes == t.bytes
    requires upto == t.heads[t.wc].used + 4 + |RowBytes(CellsOf(t, row))| && stamp == MaybeTsOf(RowTs(t.cfg.tsCol, row))
    ensures var step, op := L.BeginCommit(stamp, upto), Op.Scribble(t.bytes);
            && InPlace(t, row, stamp, upto)
            && L.Can(s, step) && LeaseInv.Benign(s, step) && Legal(t, op) && Mirrors(s, step, t, op)
            && L.Do(s, step).writer == L.NoteMin(stamp, upto) && Do(t, op) == t
  {
    hide StartOf, RowBytes, CellsOf, Append;
    assert InPlace(t, row, stamp, upto);
  }

  lemma JointShape(r: Run)
    requires IsJoint(r)
    ensures L.Shape(Last(r).0) && Ring.Sized(Last(r).1) && MemoOk(Last(r).1)
  {
    hide L.Do, L.Can, Do, Legal, Mirrors, LeaseSafety.Init, Initial, TableOk, LeaseInv.Inv;
    LeaseSafety.RunHolds(r.states, r.steps, |r.steps|);
    LeaseInv.InvShape(Last(r).0);
    Shape(Last(r).1, LogAt(r.ts, r.ops, |r.steps|));
  }

  lemma NoteStep(r: Run, t: Tab, row: Row, stamp: L.MaybeTs, upto: nat, from: L.WriterPc, to: L.WriterPc)
    returns (r': Run)
    requires IsJoint(r) && Last(r).1 == t && Ring.Sized(t) && Last(r).0.writer == from
    requires (from == L.NoteMin(stamp, upto) && to == L.NoteMax(stamp, upto))
             || (from == L.NoteMax(stamp, upto) && to == L.Publish(stamp, upto))
    ensures IsJoint(r') && Last(r').1 == t && Last(r').0.writer == to
    ensures Continues(r, r')
  {
    hide JointRun;
    JointShape(r);
    hide StartOf;
    r' := ExtendRun(r, L.WriterTick(false), Op.Scribble(t.bytes));
  }

  lemma PublishStep(r: Run, t: Tab, row: Row, stamp: L.MaybeTs, upto: nat) returns (r': Run)
    requires IsJoint(r) && Last(r).1 == t && Ring.Sized(t) && Last(r).0.writer == L.Publish(stamp, upto)
    requires InPlace(t, row, stamp, upto) && Accepts(t, row)
    ensures AtRest(r') && Last(r').1 == Append(t, row)
    ensures Continues(r, r')
  {
    hide JointRun, Append, RowBytes, CellsOf, StartOf;
    JointShape(r);
    r' := ExtendRun(r, L.WriterTick(false), AppendRow(row));
  }

  /**
   A table append is a run of protocol steps: from any joint run at rest, storing the bytes of the record
   one by one, noting the timestamp and publishing the extent leads to a joint run at rest whose table is
   the one with the row appended.
   */
  lemma AppendIsSteps(r: Run, row: Row) returns (r': Run)
    requires AtRest(r) && Ring.Sized(Last(r).1) && Accepts(Last(r).1, row) && Matches(row, Last(r).1.cfg.types)
    ensures AtRest(r') && Last(r').1 == Append(Last(r).1, row)
    ensures Continues(r, r')
  {
    hide Append, RowBytes, CellsOf, JointRun, StartOf, Partly;
    var t := Last(r).1;
    RestFacts(r);
    AppendInPlace(t, row);
    var rec := Record(CellsOf(t, row));
    var r1 := WriteBytes(r, rec, |rec|);
    r' := CommitSteps(r1, row);
    ContinuesOn(r, r1, r');
  }

  // ----- an advance is a run of writer steps

  /** Some slot of the chunk, from i on, is owned. */
  predicate OwnedFrom(ch: L.Chunk, i: nat)
  {
    exists j :: i <= j < |ch.slots| && ch.slots[j].word.Owned?
  }

  /** A writer tick that leaves the table alone. */
  predicate TableRests(w: L.WriterPc)
  {
    !w.Publish? && !w.Restore? && !w.StoreWriting? && !w.Idle?
  }

  lemma TickOn(r: Run) returns (r': Run)
    requires IsJoint(r) && L.Shape(Last(r).0) && TableRests(Last(r).0.writer)
    requires Last(r).0.writer.Scan? ==> !Last(r).0.writer.look.Clear?
    ensures IsJoint(r') && Continues(r, r') && L.Shape(Last(r').0)
    ensures Last(r') == (L.WriterStep(Last(r).0, false), Last(r).1)
  {
    hide JointRun, StartOf, L.WriterStep;
    JointShape(r);
    var t := Last(r).1;
    r' := ExtendRun(r, L.WriterTick(false), Op.Scribble(t.bytes));
    hide L.Do, Do;
    JointShape(r');
  }

  /** The writer looks at slot i of the target and goes on to the next one. */
  lemma SlotPassed(r: Run, prev: Phase, attempt: nat, i: nat, live: bool) returns (r': Run)
    requires IsJoint(r) && L.Shape(Last(r).0) && i < L.SLOTS
    requires Last(r).0.writer == L.Scan(prev, attempt, i, live, L.Load)
    ensures IsJoint(r') && Continues(r, r') && L.Shape(Last(r').0) && Last(r').1 == Last(r).1
    ensures var s := Last(r).0;
            var owned := L.SlotAt(s, L.Target(s), i).word.Owned?;
            Last(r').0 == L.NextScan(s, prev, attempt, i, live || owned)
  {
    hide JointRun, L.NextScan;
    var s := Last(r).0;
    var slot := L.SlotAt(s, L.Target(s), i);
    var r1 := TickOn(r);
    if slot.word.Free? {
      r' := r1;
      NextScanIgnoresWriter(s, s.writer, prev, attempt, i, live);
    } else {
      assert Last(r1).0.writer == L.Scan(prev, attempt, i, live, L.GotWord(slot.word, slot.ver));
      var r2 := TickOn(r1);
      assert Last(r2).0.writer == L.Scan(prev, attempt, i, live, L.GotStart(slot.word, slot.ver, slot.start));
      r' := TickOn(r2);
      ContinuesOn(r, r1, r2);
      ContinuesOn(r, r2, r');
      NextScanIgnoresWriter(s, Last(r2).0.writer, prev, attempt, i, true);
    }
  }

  lemma NextScanIgnoresWriter(s: L.State, w: L.WriterPc, prev: Phase, attempt: nat, i: nat, live: bool)
    ensures L.NextScan(s.(writer := w), prev, attempt, i, live) == L.NextScan(s, prev, attempt, i, live)
  {
  }

  /** One pass over the slots from i on, while nobody else moves. */
  lemma {:induction false} PassOver(r: Run, prev: Phase, attempt: nat, i: nat, live: bool) returns (r': Run)
    requires IsJoint(r) && L.Shape(Last(r).0) && i < L.SLOTS
    requires Last(r).0.writer == L.Scan(prev, attempt, i, live, L.Load)
    ensures IsJoint(r') && Continues(r, r') && L.Shape(Last(r').0) && Last(r').1 == Last(r).1
    ensures var s := Last(r).0;
            Last(r').0 == L.EndScan(s, prev, attempt, live || OwnedFrom(s.chunks[L.Target(s)], i))
    decreases L.SLOTS - i
  {
    hide JointRun;
    var s := Last(r).0;
    var ch := s.chunks[L.Target(s)];
    var owned := ch.slots[i].word.Owned?;
    assert |ch.slots| == L.SLOTS;
    var r1 := SlotPassed(r, prev, attempt, i, live);
    assert OwnedFrom(ch, i) <==> owned || OwnedFrom(ch, i + 1);
    if i + 1 < L.SLOTS {
      r' := PassOver(r1, prev, attempt, i + 1, live || owned);
      ContinuesOn(r, r1, r');
    } else {
      r' := r1;
    }
  }

  /** Passes until one decides. */
  lemma {:induction false} ScanOut(r: Run, prev: Phase, attempt: nat) returns (r': Run)
    requires IsJoint(r) && L.Shape(Last(r).0) && attempt <= L.DRAIN_SPINS
    requires Last(r).0.writer == L.Scan(prev, attempt, 0, false, L.Load)
    ensures IsJoint(r') && Continues(r, r') && L.Shape(Last(r').0) && Last(r').1 == Last(r).1
    ensures var s := Last(r).0;
            Last(r').0 == s.(writer := if OwnedFrom(s.chunks[L.Target(s)], 0) then L.Restore(prev) else L.Seal)
    decreases L.DRAIN_SPINS - attempt
  {
    hide JointRun, OwnedFrom;
    var s := Last(r).0;
    var live := OwnedFrom(s.chunks[L.Target(s)], 0);
    var r1 := PassOver(r, prev, attempt, 0, false);
    if attempt < L.DRAIN_SPINS {
      r' := ScanOut(r1, prev, if live then attempt + 1 else L.DRAIN_SPINS);
      ContinuesOn(r, r1, r');
    } else {
      r' := r1;
    }
  }

  /** The table operation at the end of an advance. */
  lemma AnswerStep(r: Run, pinned: bool) returns (r': Run)
    requires IsJoint(r) && L.Shape(Last(r).0)
    requires if pinned then Last(r).0.writer.Restore? else Last(r).0.writer.StoreWriting?
    ensures IsJoint(r') && Continues(r, r') && L.Shape(Last(r').0) && Ring.Sized(Last(r).1)
    ensures Last(r').1 == Ring.Advance(Last(r).1, pinned).0
    ensures Last(r').0.writer == if pinned then L.Idle else L.StoreWriteChunk
  {
    hide JointRun, StartOf, Ring.Advance;
    JointShape(r);
    r' := ExtendRun(r, L.WriterTick(false), AdvanceChunk(pinned));
    JointShape(r');
  }

  /** From the seal to the new write chunk. */
  lemma RecycleSteps(r: Run) returns (r': Run)
    requires IsJoint(r) && L.Shape(Last(r).0) && Last(r).0.writer.Seal?
    ensures AtRest(r') && Continues(r, r') && Ring.Sized(Last(r).1) && Last(r').1 == Ring.Advance(Last(r).1, false).0
  {
    hide JointRun, Ring.Advance;
    var a := TickOn(r);
    var b := TickOn(a);
    var c := TickOn(b);
    var d := TickOn(c);
    var e := TickOn(d);
    ContinuesOn(r, a, b);
    ContinuesOn(r, b, c);
    ContinuesOn(r, c, d);
    ContinuesOn(r, d, e);
    var f := AnswerStep(e, false);
    r' := TickOn(f);
    ContinuesOn(r, e, f);
    ContinuesOn(r, f, r');
  }

  /**
   A table advance is a run of protocol steps: from any joint run at rest, marking the target empty,
   scanning its slots and then restoring or recycling it leads to a joint run at rest whose table has
   been advanced, refused exactly when a slot of the target is owned.
   */
  lemma AdvanceIsSteps(r: Run) returns (r': Run, pinned: bool)
    requires AtRest(r) && L.Shape(Last(r).0) && Ring.Sized(Last(r).1)
    ensures pinned == OwnedFrom(Last(r).0.chunks[L.Target(Last(r).0)], 0)
    ensures AtRest(r') && Continues(r, r') && Last(r').1 == Ring.Advance(Last(r).1, pinned).0
  {
    hide JointRun, Ring.Advance, OwnedFrom;
    var (s, t) := Last(r);
    pinned := OwnedFrom(s.chunks[L.Target(s)], 0);
    QuietTableStep(r);
    var r1 := ExtendRun(r, L.BeginAdvance, Op.Scribble(t.bytes));
    JointShape(r1);
    var r2 := TickOn(r1);
    SameSlots(s, L.Target(s));
    var r3 := ScanOut(r2, s.chunks[L.Target(s)].state, 0);
    ContinuesOn(r, r1, r2);
    ContinuesOn(r, r2, r3);
    if pinned {
      r' := AnswerStep(r3, true);
    } else {
      r' := RecycleSteps(r3);
    }
    ContinuesOn(r, r3, r');
  }

  lemma QuietTableStep(r: Run)
    requires AtRest(r) && L.Shape(Last(r).0) && Ring.Sized(Last(r).1)
    ensures var (s, t) := Last(r);
            && L.Can(s, L.BeginAdvance) && LeaseInv.Benign(s, L.BeginAdvance) && Legal(t, Op.Scribble(t.bytes))
            && Mirrors(s, L.BeginAdvance, t, Op.Scribble(t.bytes)) && Do(t, Op.Scribble(t.bytes)) == t
  {
    hide JointRun, StartOf;
    JointShape(r);
  }

  /** Marking a chunk empty leaves its slots. */
  lemma SameSlots(s: L.State, c: nat)
    requires c < |s.chunks|
    ensures OwnedFrom(s.chunks[c].(state := Empty), 0) == OwnedFrom(s.chunks[c], 0)
  {
  }

  // ----- pushes and the start

  lemma PushParts(t: Tab, row: Row, pinned: bool)
    requires Ring.Sized(t) && Matches(row, t.cfg.types)
    ensures Accepts(t, row) ==> TryPush(t, row, pinned).0 == Append(t, row)
    ensures !Accepts(t, row) && pinned ==> TryPush(t, row, pinned).0 == Ring.Advance(t, true).0
    ensures !Accepts(t, row) && !pinned ==>
              var t' := Ring.Advance(t, false).0;
              && Ring.Sized(t') && t'.cfg == t.cfg
              && TryPush(t, row, pinned).0 == if Accepts(t', row) then Append(t', row) else t'
  {
    hide StartOf, RowBytes, CellsOf, Append;
    AdvanceSized(t, false);
    AdvanceKeepsCfg(t);
  }

  /** A push is a run of protocol steps, with the scan's answer as its `pinned`. */
  lemma PushIsSteps(r: Run, row: Row) returns (r': Run, pinned: bool)
    requires AtRest(r) && L.Shape(Last(r).0) && Ring.Sized(Last(r).1) && Matches(row, Last(r).1.cfg.types)
    ensures AtRest(r') && Continues(r, r') && Last(r').1 == TryPush(Last(r).1, row, pinned).0
  {
    hide JointRun, TryPush, Append, RowBytes, CellsOf, Ring.Advance, StartOf;
    var t := Last(r).1;
    pinned := true;
    if Accepts(t, row) {
      PushParts(t, row, pinned);
      r' := AppendIsSteps(r, row);
    } else {
      var r1, answer := AdvanceIsSteps(r);
      pinned := answer;
      PushParts(t, row, pinned);
      r' := r1;
      if !pinned && Accepts(Last(r1).1, row) {
        r' := AppendIsSteps(r1, row);
        ContinuesOn(r, r1, r');
      }
    }
  }

  /** The protocol state of a table that was just initialised. */
  ghost function StartState(t: Tab): L.State
    requires Ring.Sized(t)
  {
    L.State(seq(|t.heads|, c requires 0 <= c < |t.heads| => StartChunk(t, c)), map[], map[], 0, L.Idle)
  }

  ghost function StartChunk(t: Tab, c: nat): L.Chunk
    requires Ring.Sized(t) && c < |t.heads|
  {
    ChunkInside(t, c);
    L.Chunk(if c == 0 then Writing else Empty, if c == 0 then 1 else 0, 0, TS_MIN_INIT, TS_MAX_INIT,
            t.bytes[PayloadFrom(t, c)..StartOf(t.cfg, c) + t.cfg.chunkSize], [],
            seq(L.SLOTS, _ => L.Slot(L.Free, 0, 0)))
  }

  /** Every initialised table begins a joint run. */
  lemma JointStart(t: Tab) returns (r: Run)
    requires Initial(t)
    ensures AtRest(r) && Last(r).1 == t
  {
    hide StartOf;
    var s := StartState(t);
    r := Run([s], [], [t], []);
    forall c | 0 <= c < |t.heads|
      ensures ChunkLinked(t, s, c)
    {
      ChunkInside(t, c);
      assert t.heads[c] == InitialHead(c) && s.chunks[c] == StartChunk(t, c);
    }
    assert LeaseSafety.Init(s);
  }
}
