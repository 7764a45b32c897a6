/** The invariant across the steps of the writer and of the operating system. */
module LeaseWorld {
  import opened Bytes
  import opened Chunks
  import opened Lease
  import opened LeaseInv
  import opened LeaseProof
  import opened LeaseSteps
  import opened LeaseFork

  // ----- processes

  /** An activity that is new in s' is an inherited pin that its process does not yet own. */
  ghost predicate Arrives(s': State, x: nat)
    requires Shape(s') && x in s'.ops
  {
    var op := s'.ops[x];
    op.pc.Pinned? && op.pc.tag != Owner(PidOf(s', x)) && SnapOk(s'.chunks[op.chunk], op.pc.snap)
  }

  ghost predicate Persists(s: State, s': State, x: nat)
  {
    Live(s, x) && Live(s', x) && s'.ops[x] == s.ops[x] && s'.procs[s.ops[x].proc] == s.procs[s.ops[x].proc]
  }

  lemma FewerHolders(s: State, s': State, c: nat, i: nat)
    requires Shape(s) && Shape(s')
    requires forall x :: x in s'.ops && Live(s', x) ==> Persists(s, s', x) || Arrives(s', x)
    ensures Holders(s', c, i) <= Holders(s, c, i) && |Holders(s', c, i)| <= |Holders(s, c, i)|
    ensures Unclaimed(s, c, i) ==> Unclaimed(s', c, i)
  {
    forall x | x in Holders(s', c, i)
      ensures x in Holders(s, c, i)
    {
      assert Persists(s, s', x);
    }
    SubsetSize(Holders(s', c, i), Holders(s, c, i));
  }

  lemma SubsetSize(a: set<nat>, b: set<nat>)
    requires a <= b
    ensures |a| <= |b|
  {
    assert b == a + (b - a);
  }

  /** Processes come and go; pins may arrive as foreign copies. */
  lemma WorldStep(s: State, s': State)
    requires Inv(s) && Shape(s') && UniquePids(s')
    requires s'.chunks == s.chunks && s'.writer == s.writer && s'.writeChunk == s.writeChunk
    requires forall x :: x in s'.ops && Live(s', x) ==> Persists(s, s', x) || Arrives(s', x)
    requires s.writer.ResetUsed? ==> Unsnapped(s', Target(s))
    ensures Inv(s')
  {
    forall c, i
      ensures Holders(s', c, i) <= Holders(s, c, i) && |Holders(s', c, i)| <= |Holders(s, c, i)|
      ensures Unclaimed(s, c, i) ==> Unclaimed(s', c, i)
    {
      FewerHolders(s, s', c, i);
    }
    forall x | x in s'.ops && Live(s', x)
      ensures OpOk(s', x)
    {
      if Persists(s, s', x) {
        assert OpOk(s, x);
      }
    }
    forall c, i | 0 <= c < |s.chunks| && 0 <= i < SLOTS
      ensures SlotOk(s', c, i)
    {
      WorldSlot(s, s', c, i);
    }
    forall o, i | ValidatedAt(s', o, Target(s), i)
      ensures ValidatedAt(s, o, Target(s), i)
    {
      assert Persists(s, s', o);
    }
    SameWriter(s, s');
    forall o1, o2, c, i | ClaimsAt(s', o1, c, i) && ClaimsAt(s', o2, c, i)
      ensures o1 == o2
    {
      assert Persists(s, s', o1) && Persists(s, s', o2);
      assert ClaimsAt(s, o1, c, i) && ClaimsAt(s, o2, c, i);
    }
  }

  lemma WorldSlot(s: State, s': State, c: nat, i: nat)
    requires Inv(s) && Shape(s') && s'.chunks == s.chunks && c < |s.chunks| && i < SLOTS
    requires forall x :: x in s'.ops && Live(s', x) ==> Persists(s, s', x) || Arrives(s', x)
    ensures SlotOk(s', c, i)
  {
    FewerHolders(s, s', c, i);
    assert SlotOk(s, c, i);
    forall x | x in Holders(s', c, i)
      ensures PidOf(s', x) == PidOf(s, x) && s'.procs[s'.ops[x].proc] == s.procs[s.ops[x].proc]
    {
      assert Persists(s, s', x);
    }
  }

  lemma SpawnKeeps(s: State, q: nat, pid: nat, start: nat)
    requires Inv(s) && Can(s, Spawn(q, pid, start))
    ensures Inv(Do(s, Spawn(q, pid, start)))
  {
    var s' := Do(s, Spawn(q, pid, start));
    assert forall x :: x in s'.ops && Live(s', x) ==> Persists(s, s', x);
    WorldStep(s, s');
  }

  lemma DieKeeps(s: State, p: nat)
    requires Inv(s) && Can(s, Die(p))
    ensures Inv(Do(s, Die(p)))
  {
    var s' := Do(s, Die(p));
    assert forall x :: x in s'.ops && Live(s', x) ==> Persists(s, s', x);
    WorldStep(s, s');
  }

  lemma ForkOp(s: State, step: Step, x: nat)
    requires Inv(s) && step.Fork? && Can(s, step) && !TagReuse(s, step) && x in Do(s, step).ops
    ensures OpShape(Do(s, step), Do(s, step).ops[x])
    ensures x in s.ops && Live(Do(s, step), x) ==> Persists(s, Do(s, step), x)
    ensures x !in s.ops ==>
              var op := Do(s, step).ops[x];
              && op.pc.Pinned? && op.pc.tag != Owner(step.pid) && op.proc == step.q
              && SnapOk(s.chunks[op.chunk], op.pc.snap)
              && exists y :: y in s.ops && Live(s, y) && s.ops[y].chunk == op.chunk
                             && PinSnap(s.ops[y].pc) == Some(op.pc.snap)
  {
    if x !in s.ops {
      var y := step.copies[x];
      assert OpOk(s, y) && Live(s, y);
      assert Do(s, step).ops[x] == Inherited(s.ops[y], step.q);
    }
  }

  // ----- the writer: header fields

  /** A header change of chunk d that every live activity on d can bear. */
  ghost predicate HeaderFits(s: State, d: nat, ch: Chunk)
    requires Shape(s) && d < |s.chunks|
  {
    && ch.slots == s.chunks[d].slots && ch.used <= |ch.data|
    && Covers(ch.minTs, ch.maxTs, ch.ts)
    && forall x :: x in s.ops && Live(s, x) && s.ops[x].chunk == d ==> OpBears(s, x, s.chunks[d], ch)
  }

  ghost predicate OpBears(s: State, x: nat, ch: Chunk, ch': Chunk)
    requires x in s.ops && s.ops[x].proc in s.procs
  {
    && ch.gen <= ch'.gen
    && (Validated(s.ops[x].pc, PidOf(s, x)) && !s.ops[x].pc.CheckGen? ==> ch'.gen == ch.gen)
    && (ch'.gen == ch.gen ==> ch.ts <= ch'.ts)
    && (PinSnap(s.ops[x].pc).Some? && SnapOk(ch, PinSnap(s.ops[x].pc).snap) ==> SnapOk(ch', PinSnap(s.ops[x].pc).snap))
  }

  lemma SameOps(s: State, s': State, c: nat, i: nat)
    requires s'.ops == s.ops && s'.procs == s.procs
    ensures Holders(s', c, i) == Holders(s, c, i)
    ensures Unclaimed(s', c, i) == Unclaimed(s, c, i)
  {
    assert forall o :: HoldsAt(s', o, c, i) <==> HoldsAt(s, o, c, i);
    assert forall o :: ClaimsAt(s', o, c, i) <==> ClaimsAt(s, o, c, i);
  }

  lemma BearingOp(s: State, s': State, d: nat, ch: Chunk, x: nat)
    requires Inv(s) && Shape(s') && d < |s.chunks| && s'.ops == s.ops && s'.procs == s.procs
    requires s'.chunks == s.chunks[d := ch] && HeaderFits(s, d, ch)
    requires x in s.ops && Live(s, x)
    ensures OpOk(s', x)
  {
    assert OpOk(s, x);
    SameOps(s, s', s.ops[x].chunk, SlotOf(s.ops[x].pc));
  }

  lemma HeaderStep(s: State, d: nat, ch: Chunk, w: WriterPc)
    requires Inv(s) && d < |s.chunks| && HeaderFits(s, d, ch) && !w.Scan?
    requires var s' := SetWriter(SetChunk(s, d, ch), w); Shape(s') ==> WriterOk(s')
    ensures Inv(SetWriter(SetChunk(s, d, ch), w))
  {
    var s' := SetWriter(SetChunk(s, d, ch), w);
    forall x | x in s'.ops && Live(s', x)
      ensures OpOk(s', x)
    {
      BearingOp(s, s', d, ch, x);
    }
    forall c, i | 0 <= c < |s.chunks| && 0 <= i < SLOTS
      ensures SlotOk(s', c, i)
    {
      SameOps(s, s', c, i);
      OtherSlot(s, s', c, i);
    }
    forall o1, o2, c, i | ClaimsAt(s', o1, c, i) && ClaimsAt(s', o2, c, i)
      ensures o1 == o2
    {
      assert ClaimsAt(s, o1, c, i) && ClaimsAt(s, o2, c, i);
    }
  }

  lemma SameDrained(s: State, s': State, t: nat, n: nat)
    requires s'.ops == s.ops && s'.procs == s.procs && Drained(s, t, n)
    ensures Drained(s', t, n)
  {
    assert forall o, i :: ValidatedAt(s', o, t, i) <==> ValidatedAt(s, o, t, i);
  }

  lemma CommitKeeps(s: State)
    requires Inv(s) && (s.writer.NoteMin? || s.writer.NoteMax? || s.writer.Publish?)
    ensures Inv(WriterStep(s, false))
  {
    var c := s.writeChunk;
    var cur := s.chunks[c];
    var s' := WriterStep(s, false);
    HeaderStep(s, c, s'.chunks[c], s'.writer);
  }

  lemma ScribbleKeeps(s: State, at: nat, b: Byte)
    requires Inv(s) && Can(s, Scribble(at, b))
    ensures Inv(Do(s, Scribble(at, b)))
  {
    var c := s.writeChunk;
    var ch := s.chunks[c].(data := s.chunks[c].data[at := b]);
    forall x | x in s.ops && Live(s, x) && s.ops[x].chunk == c
      ensures OpBears(s, x, s.chunks[c], ch)
    {
      if PinSnap(s.ops[x].pc).Some? && SnapOk(s.chunks[c], PinSnap(s.ops[x].pc).snap) {
        var snap := PinSnap(s.ops[x].pc).snap;
        if snap.gen == ch.gen {
          assert ch.data[..snap.used] == s.chunks[c].data[..snap.used];
        }
      }
    }
    HeaderStep(s, c, ch, Idle);
  }

  /** Changing only the state word of a chunk. */
  lemma StateKeeps(s: State, d: nat, phase: Phase, w: WriterPc)
    requires Inv(s) && d < |s.chunks| && !w.Scan?
    requires var s' := SetWriter(SetChunk(s, d, s.chunks[d].(state := phase)), w); Shape(s') ==> WriterOk(s')
    ensures Inv(SetWriter(SetChunk(s, d, s.chunks[d].(state := phase)), w))
  {
    HeaderStep(s, d, s.chunks[d].(state := phase), w);
  }

  lemma BumpGenKeeps(s: State)
    requires Inv(s) && s.writer.BumpGen?
    ensures Inv(WriterStep(s, false))
  {
    var t := Target(s);
    var ch := s.chunks[t].(gen := s.chunks[t].gen + 1, ts := []);
    var s' := WriterStep(s, false);
    forall x | x in s.ops && Live(s, x) && s.ops[x].chunk == t
      ensures OpBears(s, x, s.chunks[t], ch)
      ensures PinSnap(s.ops[x].pc).Some? ==> PinSnap(s.ops[x].pc).snap.gen < ch.gen
    {
      assert OpOk(s, x);
      assert !ValidatedAt(s, x, t, SlotOf(s.ops[x].pc));
    }
    SameDrained(s, s', t, SLOTS);
    HeaderStep(s, t, ch, ResetUsed);
  }

  lemma ResetKeeps(s: State)
    requires Inv(s) && (s.writer.ResetUsed? || s.writer.ResetMin? || s.writer.ResetMax?)
    ensures Inv(WriterStep(s, false))
  {
    var t := Target(s);
    var s' := WriterStep(s, false);
    var ch := s'.chunks[t];
    forall x | x in s.ops && Live(s, x) && s.ops[x].chunk == t
      ensures OpBears(s, x, s.chunks[t], ch)
    {
    }
    SameDrained(s, s', t, SLOTS);
    HeaderStep(s, t, ch, s'.writer);
  }

  // ----- the writer: the scan

  /** Moving the writer alone. */
  lemma WriterMove(s: State, w: WriterPc)
    requires Inv(s) && (w.Scan? ==> w.slot < SLOTS)
    requires WriterOk(SetWriter(s, w))
    ensures Inv(SetWriter(s, w))
  {
    var s' := SetWriter(s, w);
    forall x | x in s'.ops && Live(s', x)
      ensures OpOk(s', x)
    {
      assert OpOk(s, x);
      SameOps(s, s', s.ops[x].chunk, SlotOf(s.ops[x].pc));
    }
    forall c, i | 0 <= c < |s.chunks| && 0 <= i < SLOTS
      ensures SlotOk(s', c, i)
    {
      SameOps(s, s', c, i);
      OtherSlot(s, s', c, i);
    }
    forall o1, o2, c, i | ClaimsAt(s', o1, c, i) && ClaimsAt(s', o2, c, i)
      ensures o1 == o2
    {
      assert ClaimsAt(s, o1, c, i) && ClaimsAt(s, o2, c, i);
    }
  }

  lemma StoreEmptyKeeps(s: State)
    requires Inv(s) && s.writer.StoreEmpty?
    ensures Inv(WriterStep(s, false))
  {
    var t := Target(s);
    var mid := SetWriter(SetChunk(s, t, s.chunks[t].(state := Empty)), Idle);
    StateKeeps(s, t, Empty, Idle);
    WriterMove(mid, Scan(s.writer.prev, 0, 0, false, Load));
  }

  lemma OneMoreDrained(s: State, t: nat, i: nat)
    requires Drained(s, t, i) && Holders(s, t, i) == {}
    ensures Drained(s, t, i + 1)
  {
    forall o, j | o in s.ops && 0 <= j < i + 1
      ensures !ValidatedAt(s, o, t, j)
    {
      assert ValidatedAt(s, o, t, i) ==> o in Holders(s, t, i);
    }
  }

  /** A slot passed while free adds one slot to the drained ones. */
  lemma NextScanKeeps(s: State, prev: Phase, attempt: nat, i: nat, live: bool)
    requires Inv(s) && i < SLOTS && s.chunks[Target(s)].state.Empty?
    requires !live ==> Drained(s, Target(s), i) && Holders(s, Target(s), i) == {}
    ensures Inv(NextScan(s, prev, attempt, i, live))
  {
    hide SlotsOk, OpsOk, RangesOk, UniquePids, OneClaimant, Holders;
    var t := Target(s);
    var s' := NextScan(s, prev, attempt, i, live);
    if !live {
      OneMoreDrained(s, t, i);
      SameDrained(s, s', t, i + 1);
    }
    WriterMove(s, s'.writer);
  }

  ghost predicate ClearsUnheld(s: State)
    requires Shape(s)
  {
    && s.writer.Scan? && s.writer.look.Clear? && Unheld(s, Target(s), s.writer.slot)
    && SlotAt(s, Target(s), s.writer.slot).word == s.writer.look.w
  }

  lemma WriterClearOp(s: State, s': State, x: nat)
    requires Inv(s) && ClearsUnheld(s) && s' == SetWriter(SetWord(s, Target(s), s.writer.slot, Free), Idle)
    requires Live(s, x)
    ensures Shape(s') && OpOk(s', x)
  {
    var t := Target(s);
    var i := s.writer.slot;
    forall c2, i2
      ensures Quiet(s, s', c2, i2)
    {
      SameOps(s, s', c2, i2);
    }
    EmptyWordFits(s, x + 1, t, i, Free);
    WordStepOthers(s, s', x + 1, t, i, Free, x);
  }

  /** The reclaiming compare-exchange of the writer. */
  lemma WriterClear(s: State, s': State)
    requires Inv(s) && ClearsUnheld(s) && s' == SetWriter(SetWord(s, Target(s), s.writer.slot, Free), Idle)
    ensures Inv(s') && Holders(s', Target(s), s.writer.slot) == {}
  {
    SameOps(s, s', Target(s), s.writer.slot);
    forall x | x in s'.ops && Live(s', x)
      ensures OpOk(s', x)
    {
      WriterClearOp(s, s', x);
    }
    forall c2, i2 | 0 <= c2 < |s.chunks| && 0 <= i2 < SLOTS
      ensures SlotOk(s', c2, i2)
    {
      SameOps(s, s', c2, i2);
      if c2 != Target(s) || i2 != s.writer.slot {
        OtherSlot(s, s', c2, i2);
      }
    }
    forall o1, o2, c, j | ClaimsAt(s', o1, c, j) && ClaimsAt(s', o2, c, j)
      ensures o1 == o2
    {
      assert ClaimsAt(s, o1, c, j) && ClaimsAt(s, o2, c, j);
    }
  }

  lemma ScanKeeps(s: State, dead: bool)
    requires Inv(s) && s.writer.Scan? && Can(s, WriterTick(dead)) && Benign(s, WriterTick(dead))
    ensures Inv(ScanStep(s, dead))
  {
    var Scan(prev, attempt, i, live, look) := s.writer;
    var t := Target(s);
    var slot := SlotAt(s, t, i);
    match look
    case GotWord(w, v) => ScanMove(s, GotStart(w, v, slot.start));
    case GotStart(w, v, rec) =>
      if dead {
        DeadOwnerHoldsNothing(s, t, i, w, v, rec);
        ScanMove(s, Clear(w, v));
      } else {
        NextScanKeeps(s, prev, attempt, i, true);
      }
    case Clear(w, v) =>
      if slot.word == w {
        var mid := SetWriter(SetWord(s, t, i, Free), Idle);
        WriterClear(s, mid);
        if !live {
          SameDrained(s, mid, t, i);
        }
        NextScanKeeps(mid, prev, attempt, i, live);
      } else {
        ScanMove(s, Load);
      }
    case _ =>
      if slot.word.Free? {
        if Holders(s, t, i) != {} {
          HeldSlotIsLive(s, t, i);
        }
        NextScanKeeps(s, prev, attempt, i, live);
      } else {
        ScanMove(s, GotWord(slot.word, slot.ver));
      }
  }

  lemma ScanMove(s: State, look: Look)
    requires Inv(s) && s.writer.Scan? && LookOk(s, Target(s), s.writer.slot, look) && !look.TryClaim? && !look.Bump?
    ensures Inv(SetWriter(s, s.writer.(look := look)))
  {
    var s' := SetWriter(s, s.writer.(look := look));
    SameOps(s, s', Target(s), s.writer.slot);
    if !s.writer.live {
      SameDrained(s, s', Target(s), s.writer.slot);
    }
    WriterMove(s, s'.writer);
  }

  // ----- all steps

  lemma WriterKeeps(s: State, dead: bool)
    requires Inv(s) && Can(s, WriterTick(dead)) && Benign(s, WriterTick(dead))
    ensures Inv(WriterStep(s, dead))
  {
    var t := Target(s);
    var c := s.writeChunk;
    var s' := WriterStep(s, dead);
    match s.writer
    case Idle =>
    case NoteMin(_, _) => CommitKeeps(s);
    case NoteMax(_, _) => CommitKeeps(s);
    case Publish(_, _) => CommitKeeps(s);
    case StoreEmpty(_) => StoreEmptyKeeps(s);
    case Scan(_, _, _, _, _) => ScanKeeps(s, dead);
    case Restore(prev) => StateKeeps(s, t, prev, Idle);
    case Seal =>
      SameDrained(s, s', t, SLOTS);
      if c != t {
        StateKeeps(s, c, Sealed, BumpGen);
      } else {
        WriterMove(s, BumpGen);
      }
    case BumpGen => BumpGenKeeps(s);
    case StoreWriting => StateKeeps(s, t, Writing, StoreWriteChunk);
    case StoreWriteChunk => WriteChunkKeeps(s);
    case _ => ResetKeeps(s);
  }

  lemma WriteChunkKeeps(s: State)
    requires Inv(s) && s.writer.StoreWriteChunk?
    ensures Inv(WriterStep(s, false))
  {
    var s' := WriterStep(s, false);
    forall x | x in s'.ops && Live(s', x)
      ensures OpOk(s', x)
    {
      assert OpOk(s, x);
      SameOps(s, s', s.ops[x].chunk, SlotOf(s.ops[x].pc));
    }
    forall c, i | 0 <= c < |s.chunks| && 0 <= i < SLOTS
      ensures SlotOk(s', c, i)
    {
      SameOps(s, s', c, i);
      OtherSlot(s, s', c, i);
    }
    forall o1, o2, c, i | ClaimsAt(s', o1, c, i) && ClaimsAt(s', o2, c, i)
      ensures o1 == o2
    {
      assert ClaimsAt(s, o1, c, i) && ClaimsAt(s, o2, c, i);
    }
  }

  /** Every benign step keeps the invariant. */
  lemma StepKeeps(s: State, step: Step)
    requires Inv(s) && Can(s, step) && Benign(s, step)
    ensures Inv(Do(s, step))
  {
    match step
    case Spawn(q, pid, start) => SpawnKeeps(s, q, pid, start);
    case Die(p) => DieKeeps(s, p);
    case Fork(_, _, _, _, _) => ForkKeeps(s, step);
    case BeginPin(o, p, c) => BeginKeeps(s, o, p, c, LoadState(0));
    case BeginRange(o, p, c) => BeginKeeps(s, o, p, c, RangeGen);
    case Tick(o, dead, start) => TickKeeps(s, o, dead, start);
    case StartAdopt(o, start) => AdoptKeeps(s, o, start);
    case Drop(o) => DropKeeps(s, o);
    case Scribble(at, b) => ScribbleKeeps(s, at, b);
    case BeginCommit(ts, upto) => WriterMove(s, NoteMin(ts, upto));
    case BeginAdvance => WriterMove(s, StoreEmpty(s.chunks[Target(s)].state));
    case WriterTick(dead) => WriterKeeps(s, dead);
  }
}
