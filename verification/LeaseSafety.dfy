/** What the lease protocol guarantees over whole runs. */
module LeaseSafety {
  import opened Chunks
  import opened Lease
  import opened LeaseInv
  import opened LeaseSteps
  import opened LeaseWorld

  // ----- runs

  /** A freshly initialised table with no reader yet: chunk 0 is being written, all leases are free. */
  ghost predicate Init(s: State)
  {
    && |s.chunks| > 0 && s.writeChunk == 0 && s.writer == Idle && s.ops == map[] && s.procs == map[]
    && forall c :: 0 <= c < |s.chunks| ==> FreshChunk(s.chunks[c], c)
  }

  predicate FreshChunk(ch: Chunk, c: nat)
  {
    && ch.state == (if c == 0 then Writing else Empty) && ch.gen == (if c == 0 then 1 else 0)
    && ch.used == 0 && ch.ts == [] && ch.minTs == TS_MIN_INIT && ch.maxTs == TS_MAX_INIT
    && |ch.slots| == SLOTS && forall i :: 0 <= i < SLOTS ==> ch.slots[i] == Slot(Free, 0, 0)
  }

  ghost predicate IsRun(states: seq<State>, steps: seq<Step>)
  {
    && |states| == |steps| + 1
    && forall k :: 0 <= k < |steps| ==>
         Shape(states[k]) && Can(states[k], steps[k]) && states[k + 1] == Do(states[k], steps[k])
  }

  /** A run from a fresh table without a harmful step. */
  ghost predicate GoodRun(states: seq<State>, steps: seq<Step>)
  {
    IsRun(states, steps) && Init(states[0]) && forall k :: 0 <= k < |steps| ==> Benign(states[k], steps[k])
  }

  lemma InitHolds(s: State)
    requires Init(s)
    ensures Inv(s)
  {
    assert forall c, i :: Holders(s, c, i) == {};
  }

  lemma {:induction false} RunHolds(states: seq<State>, steps: seq<Step>, k: nat)
    requires GoodRun(states, steps) && k < |states|
    ensures Inv(states[k])
  {
    if k == 0 {
      InitHolds(states[0]);
    } else {
      RunHolds(states, steps, k - 1);
      StepKeeps(states[k - 1], steps[k - 1]);
    }
  }

  // ----- what a step can touch

  lemma InspectFrame(s: State, o: nat, dead: bool)
    requires Shape(s) && o in s.ops && s.ops[o].pc.Inspect?
    ensures OnlyOp(s, InspectStep(s, o, dead), o) && |InspectStep(s, o, dead).chunks| == |s.chunks|
  {
  }

  lemma TickFrame(s: State, o: nat, dead: bool, start: nat)
    requires Shape(s) && o in s.ops
    ensures OnlyOp(s, OpStep(s, o, dead, start), o) && |OpStep(s, o, dead, start).chunks| == |s.chunks|
  {
    if s.ops[o].pc.Inspect? {
      InspectFrame(s, o, dead);
    }
  }

  lemma WriterFrame(s: State, dead: bool)
    requires Shape(s)
    ensures var s' := WriterStep(s, dead); s'.ops == s.ops && s'.procs == s.procs && |s'.chunks| == |s.chunks|
  {
  }

  /** The activity a step advances or creates, if any. */
  predicate Touches(step: Step, o: nat)
  {
    match step
    case Tick(x, _, _) => x == o
    case StartAdopt(x, _) => x == o
    case Drop(x) => x == o
    case BeginPin(x, _, _) => x == o
    case BeginRange(x, _, _) => x == o
    case _ => false
  }

  lemma StepFrame(s: State, step: Step, o: nat)
    requires Shape(s) && Can(s, step)
    ensures |Do(s, step).chunks| == |s.chunks|
    ensures o in s.ops && !Touches(step, o) ==> o in Do(s, step).ops && Do(s, step).ops[o] == s.ops[o]
    ensures o in s.ops && (step.BeginPin? || step.BeginRange?) ==> !Touches(step, o)
  {
    match step
    case Tick(x, dead, start) => TickFrame(s, x, dead, start);
    case WriterTick(dead) => WriterFrame(s, dead);
    case _ =>
  }

  // ----- pin safety

  /** The pin object o may be read in its process: `ensure_current_process` answers true at once. */
  predicate Readable(s: State, o: nat)
  {
    Live(s, o) && s.ops[o].pc.Pinned? && s.ops[o].pc.tag == Owner(PidOf(s, o))
  }

  lemma SamePin(s: State, step: Step, o: nat)
    requires Shape(s) && Can(s, step) && Readable(s, o) && Readable(Do(s, step), o)
    ensures Do(s, step).ops[o] == s.ops[o]
  {
    StepFrame(s, step, o);
  }

  lemma PinStep(states: seq<State>, steps: seq<Step>, k: nat, o: nat)
    requires IsRun(states, steps) && k < |steps| && Readable(states[k], o) && Readable(states[k + 1], o)
    ensures states[k + 1].ops[o] == states[k].ops[o]
  {
    SamePin(states[k], steps[k], o);
  }

  lemma {:induction false} OpStays(states: seq<State>, j: nat, k: nat, o: nat)
    requires j <= k < |states|
    requires forall m :: j <= m <= k ==> o in states[m].ops
    requires forall m :: j <= m < k ==> states[m + 1].ops[o] == states[m].ops[o]
    ensures states[k].ops[o] == states[j].ops[o]
  {
    if j < k {
      OpStays(states, j, k - 1, o);
      assert states[(k - 1) + 1].ops[o] == states[k - 1].ops[o];
    }
  }

  lemma PinStays(states: seq<State>, steps: seq<Step>, j: nat, k: nat, o: nat)
    requires IsRun(states, steps) && j <= k < |states|
    requires forall m :: j <= m <= k ==> Readable(states[m], o)
    ensures o in states[j].ops && o in states[k].ops && states[k].ops[o] == states[j].ops[o]
  {
    forall m | j <= m < k
      ensures states[m + 1].ops[o] == states[m].ops[o]
    {
      assert Readable(states[m], o) && Readable(states[m + 1], o);
      PinStep(states, steps, m, o);
    }
    OpStays(states, j, k, o);
  }

  /**
   Pin safety and snapshot stability. While a pin stays readable, its chunk keeps its generation, its
   extent does not fall below the captured one, and the bytes below the captured extent do not change.
   */
  lemma PinSafety(states: seq<State>, steps: seq<Step>, j: nat, k: nat, o: nat)
    requires GoodRun(states, steps) && j <= k < |states|
    requires forall m :: j <= m <= k ==> Readable(states[m], o)
    ensures o in states[j].ops && o in states[k].ops && states[k].ops[o] == states[j].ops[o]
    ensures states[j].ops[o].pc.Pinned?
    ensures var Op(_, c, Pinned(_, _, snap)) := states[j].ops[o];
            && c < |states[j].chunks| == |states[k].chunks|
            && states[k].chunks[c].gen == states[j].chunks[c].gen == snap.gen
            && snap.used <= states[k].chunks[c].used <= |states[k].chunks[c].data|
            && states[k].chunks[c].data[..snap.used] == snap.bytes
  {
    PinStays(states, steps, j, k, o);
    RunHolds(states, steps, j);
    RunHolds(states, steps, k);
    SameLength(states, steps, j, k);
    assert Readable(states[j], o) && Readable(states[k], o);
    assert OpOk(states[j], o) && OpOk(states[k], o);
  }

  lemma LengthStep(states: seq<State>, steps: seq<Step>, k: nat)
    requires IsRun(states, steps) && k < |steps|
    ensures |states[k + 1].chunks| == |states[k].chunks|
  {
    StepFrame(states[k], steps[k], 0);
  }

  lemma {:induction false} LengthStays(states: seq<State>, j: nat, k: nat)
    requires j <= k < |states|
    requires forall m :: j <= m < k ==> |states[m + 1].chunks| == |states[m].chunks|
    ensures |states[k].chunks| == |states[j].chunks|
  {
    if j < k {
      LengthStays(states, j, k - 1);
      assert |states[(k - 1) + 1].chunks| == |states[k - 1].chunks|;
    }
  }

  lemma SameLength(states: seq<State>, steps: seq<Step>, j: nat, k: nat)
    requires IsRun(states, steps) && j <= k < |states|
    ensures |states[k].chunks| == |states[j].chunks|
  {
    forall m | j <= m < k
      ensures |states[m + 1].chunks| == |states[m].chunks|
    {
      LengthStep(states, steps, m);
    }
    LengthStays(states, j, k);
  }

  // ----- where snapshots come from

  /** Step j loads `used` for a pin on chunk c, and the snapshot is what is published there at that moment. */
  ghost predicate Capture(states: seq<State>, steps: seq<Step>, j: nat, c: nat, snap: Snap)
  {
    && j < |steps| && j < |states| && steps[j].Tick? && Live(states[j], steps[j].o)
    && Loads(states[j], steps[j].o, c, snap)
  }

  ghost predicate Loads(s: State, o: nat, c: nat, snap: Snap)
    requires o in s.ops
  {
    && s.ops[o].pc.LoadUsed? && s.ops[o].chunk == c && c < |s.chunks|
    && s.chunks[c].used <= |s.chunks[c].data|
    && snap == Snap(s.chunks[c].gen, s.chunks[c].used, s.chunks[c].data[..s.chunks[c].used])
  }

  /** The activity had this snapshot already, or one it was copied from had. */
  ghost predicate HadSnap(s: State, c: nat, snap: Snap)
  {
    exists y :: y in s.ops && s.ops[y].chunk == c && PinSnap(s.ops[y].pc) == MaybeSnap.Some(snap)
  }

  lemma InspectSnap(s: State, o: nat, dead: bool)
    requires Shape(s) && o in s.ops && s.ops[o].pc.Inspect? && o in InspectStep(s, o, dead).ops
    requires PinSnap(InspectStep(s, o, dead).ops[o].pc).Some?
    ensures PinSnap(InspectStep(s, o, dead).ops[o].pc) == PinSnap(s.ops[o].pc)
  {
  }

  lemma OtherTickSnap(s: State, o: nat, dead: bool, start: nat)
    requires Shape(s) && o in s.ops && !s.ops[o].pc.Inspect? && !s.ops[o].pc.LoadUsed?
    requires o in OpStep(s, o, dead, start).ops && PinSnap(OpStep(s, o, dead, start).ops[o].pc).Some?
    ensures PinSnap(OpStep(s, o, dead, start).ops[o].pc) == PinSnap(s.ops[o].pc)
  {
  }

  lemma LoadSnap(s: State, o: nat, dead: bool, start: nat)
    requires Inv(s) && Live(s, o) && s.ops[o].pc.LoadUsed?
    ensures var s' := OpStep(s, o, dead, start);
            && o in s'.ops && PinSnap(s'.ops[o].pc).Some?
            && Loads(s, o, s.ops[o].chunk, PinSnap(s'.ops[o].pc).snap)
  {
    assert OpOk(s, o);
  }

  lemma TickSnap(s: State, o: nat, dead: bool, start: nat)
    requires Inv(s) && Live(s, o) && o in OpStep(s, o, dead, start).ops
    requires PinSnap(OpStep(s, o, dead, start).ops[o].pc).Some?
    ensures var op := OpStep(s, o, dead, start).ops[o];
            && op.chunk == s.ops[o].chunk
            && (PinSnap(s.ops[o].pc) == PinSnap(op.pc) || Loads(s, o, op.chunk, PinSnap(op.pc).snap))
  {
    TickFrame(s, o, dead, start);
    if s.ops[o].pc.Inspect? {
      assert OpStep(s, o, dead, start) == InspectStep(s, o, dead);
      InspectSnap(s, o, dead);
    } else if s.ops[o].pc.LoadUsed? {
      LoadSnap(s, o, dead, start);
    } else {
      OtherTickSnap(s, o, dead, start);
    }
  }

  lemma ForkSnap(s: State, step: Step, o: nat)
    requires Shape(s) && Can(s, step) && step.Fork? && o !in s.ops && o in Do(s, step).ops
    requires PinSnap(Do(s, step).ops[o].pc).Some?
    ensures HadSnap(s, Do(s, step).ops[o].chunk, PinSnap(Do(s, step).ops[o].pc).snap)
  {
    var y := step.copies[o];
    assert Do(s, step).ops[o] == Inherited(s.ops[y], step.q);
    assert PinSnap(s.ops[y].pc) == PinSnap(Do(s, step).ops[o].pc);
  }

  lemma OtherStepSnap(s: State, step: Step, o: nat)
    requires Shape(s) && Can(s, step) && !step.Fork? && !step.Tick? && Touches(step, o) && o in Do(s, step).ops
    requires PinSnap(Do(s, step).ops[o].pc).Some?
    ensures HadSnap(s, Do(s, step).ops[o].chunk, PinSnap(Do(s, step).ops[o].pc).snap)
  {
    assert o in s.ops && PinSnap(s.ops[o].pc) == PinSnap(Do(s, step).ops[o].pc);
  }

  lemma NewOps(s: State, step: Step, o: nat)
    requires Shape(s) && Can(s, step) && o !in s.ops && o in Do(s, step).ops
    ensures step.Fork? || Touches(step, o)
  {
    match step
    case Tick(x, dead, start) => TickFrame(s, x, dead, start);
    case WriterTick(dead) => WriterFrame(s, dead);
    case _ =>
  }

  lemma StepSnap(s: State, step: Step, o: nat)
    requires Inv(s) && Can(s, step) && o in Do(s, step).ops && PinSnap(Do(s, step).ops[o].pc).Some?
    ensures var op := Do(s, step).ops[o];
            || HadSnap(s, op.chunk, PinSnap(op.pc).snap)
            || (step.Tick? && Live(s, step.o) && Loads(s, step.o, op.chunk, PinSnap(op.pc).snap))
  {
    var s' := Do(s, step);
    var op := s'.ops[o];
    StepFrame(s, step, o);
    if o !in s.ops {
      NewOps(s, step, o);
    }
    if step.Tick? && step.o == o {
      assert s' == OpStep(s, o, step.dead, step.start);
      hide Do, Inv, OpStep;
      TickSnap(s, o, step.dead, step.start);
    } else if step.Fork? && o !in s.ops {
      hide Do, Inv;
      ForkSnap(s, step, o);
    } else if Touches(step, o) {
      hide Do, Inv;
      OtherStepSnap(s, step, o);
    } else {
      hide Do, Inv;
      assert op == s.ops[o];
    }
  }

  lemma {:induction false} SnapFromCapture(states: seq<State>, steps: seq<Step>, k: nat, o: nat)
    requires GoodRun(states, steps) && k < |states| && o in states[k].ops && PinSnap(states[k].ops[o].pc).Some?
    ensures var op := states[k].ops[o];
            exists j :: 0 <= j < k && Capture(states, steps, j, op.chunk, PinSnap(op.pc).snap)
    decreases k
  {
    hide Inv, Can, Do;
    var c, snap := states[k].ops[o].chunk, PinSnap(states[k].ops[o].pc).snap;
    if k > 0 {
      RunHolds(states, steps, k - 1);
      StepSnap(states[k - 1], steps[k - 1], o);
      if HadSnap(states[k - 1], c, snap) {
        var before := states[k - 1].ops;
        var y :| y in before && before[y].chunk == c && PinSnap(before[y].pc) == MaybeSnap.Some(snap);
        SnapFromCapture(states, steps, k - 1, y);
      } else {
        assert Capture(states, steps, k - 1, c, snap);
      }
    }
  }

  /**
   The snapshot of every readable pin, an inherited one included, is what its chunk had published at
   one earlier step of the run: the step that loaded `used`.
   */
  lemma SnapshotProvenance(states: seq<State>, steps: seq<Step>, k: nat, o: nat)
    requires GoodRun(states, steps) && k < |states| && Readable(states[k], o)
    ensures exists j :: 0 <= j < k && Capture(states, steps, j, states[k].ops[o].chunk, states[k].ops[o].pc.snap)
  {
    SnapFromCapture(states, steps, k, o);
  }

  // ----- lease accounting

  function PinsOf(s: State, p: nat, c: nat, i: nat): set<nat>
  {
    set o | o in s.ops && HoldsAt(s, o, c, i) && s.ops[o].proc == p
  }

  /**
   Accounting in every reachable state: the recorded references cover the outstanding pins of the live
   owner, nobody else has any, and a claim in progress has exactly one claimant and no reference.
   */
  lemma LeaseAccounting(states: seq<State>, steps: seq<Step>, k: nat, p: nat, c: nat, i: nat)
    requires GoodRun(states, steps) && k < |states|
    requires p in states[k].procs && states[k].procs[p].live && c < |states[k].chunks| && i < SLOTS
    ensures |states[k].chunks[c].slots| == SLOTS
    ensures |PinsOf(states[k], p, c, i)| <= SlotAt(states[k], c, i).word.Refs()
    ensures PinsOf(states[k], p, c, i) != {} ==>
              && SlotAt(states[k], c, i).word.pid == states[k].procs[p].pid
              && PinsOf(states[k], p, c, i) == Holders(states[k], c, i)
    ensures forall o1, o2 :: ClaimsAt(states[k], o1, c, i) && ClaimsAt(states[k], o2, c, i) ==> o1 == o2
    ensures forall o :: ClaimsAt(states[k], o, c, i) ==> SlotAt(states[k], c, i).word == Owned(PidOf(states[k], o), 0)
  {
    RunHolds(states, steps, k);
    var s := states[k];
    assert SlotOk(s, c, i);
    SubsetSize(PinsOf(s, p, c, i), Holders(s, c, i));
    forall o | ClaimsAt(s, o, c, i)
      ensures SlotAt(s, c, i).word == Owned(PidOf(s, o), 0)
    {
      assert OpOk(s, o);
    }
    if PinsOf(s, p, c, i) != {} {
      var x :| x in PinsOf(s, p, c, i);
      forall y | y in Holders(s, c, i)
        ensures s.ops[y].proc == p
      {
        assert PidOf(s, y) == PidOf(s, x);
      }
      assert Holders(s, c, i) == PinsOf(s, p, c, i);
    }
  }

  // ----- whose step may change a lease word

  /** The process on whose behalf a step is taken, if any. */
  predicate StepOf(s: State, step: Step, p: nat)
  {
    match step
    case Tick(o, _, _) => o in s.ops && s.ops[o].proc == p
    case StartAdopt(o, _) => o in s.ops && s.ops[o].proc == p
    case Drop(o) => o in s.ops && s.ops[o].proc == p
    case BeginPin(_, q, _) => q == p
    case BeginRange(_, q, _) => q == p
    case _ => false
  }

  /** Among the steps of a reader, a held or claimed word is changed only under its own pid. */
  lemma InspectWordChange(s: State, o: nat, dead: bool)
    requires Inv(s) && Live(s, o) && s.ops[o].pc.Inspect? && HarmlessReclaim(s, Tick(o, dead, 0))
    ensures var Op(p, c, Inspect(_, _, i, look)) := s.ops[o];
            var s' := InspectStep(s, o, dead);
            var w := SlotAt(s, c, i).word;
            || s'.chunks == s.chunks
            || ((exists w' :: s'.chunks == SetWord(s, c, i, w').chunks)
                && ((w.Owned? && w.pid == PidOf(s, o)) || (Holders(s, c, i) == {} && Unclaimed(s, c, i))))
  {
    var Op(p, c, Inspect(_, _, i, look)) := s.ops[o];
    assert OpOk(s, o);
    if look.TryClaim? && SlotAt(s, c, i).word.Free? {
      if Holders(s, c, i) != {} {
        HeldSlotIsLive(s, c, i);
      }
      if !Unclaimed(s, c, i) {
        ClaimedSlotIsLive(s, c, i);
      }
    }
  }

  lemma WordChange(s: State, o: nat, dead: bool, start: nat)
    requires Inv(s) && Live(s, o) && HarmlessReclaim(s, Tick(o, dead, start))
    ensures var Op(p, c, pc) := s.ops[o];
            var i := SlotOf(pc);
            var s' := OpStep(s, o, dead, start);
            var w := SlotAt(s, c, i).word;
            || s'.chunks == s.chunks
            || ((exists slot :: s'.chunks == SetSlot(s, c, i, slot).chunks)
                && ((w.Owned? && w.pid == PidOf(s, o)) || (Holders(s, c, i) == {} && Unclaimed(s, c, i))))
  {
    var Op(p, c, pc) := s.ops[o];
    assert OpOk(s, o);
    if pc.Inspect? {
      InspectWordChange(s, o, dead);
      var s' := InspectStep(s, o, dead);
      if s'.chunks != s.chunks {
        var w' :| s'.chunks == SetWord(s, c, pc.slot, w').chunks;
      }
    }
  }

  /**
   The lease of a live process is changed by that process only. In particular no adoption, failed
   adoption or drop in a forked child, no scan of the writer and no death elsewhere touches it.
   */
  lemma OnlyOwnerChangesLease(s: State, step: Step, p: nat, o: nat, c: nat, i: nat)
    requires Inv(s) && Can(s, step) && Benign(s, step) && c < |s.chunks| && i < SLOTS
    requires Live(s, o) && s.ops[o].proc == p && (HoldsAt(s, o, c, i) || ClaimsAt(s, o, c, i))
    requires !StepOf(s, step, p)
    ensures Shape(Do(s, step)) && |Do(s, step).chunks| == |s.chunks|
    ensures SlotAt(Do(s, step), c, i).word == SlotAt(s, c, i).word
  {
    StepKeeps(s, step);
    StepFrame(s, step, o);
    assert HoldsAt(s, o, c, i) ==> o in Holders(s, c, i);
    match step
    case Tick(x, dead, start) => OtherReader(s, x, dead, start, o, c, i);
    case WriterTick(dead) => WriterSpares(s, dead, o, c, i);
    case _ =>
  }

  lemma WriterSpares(s: State, dead: bool, o: nat, c: nat, i: nat)
    requires Shape(s) && WriterOk(s) && HarmlessReclaim(s, WriterTick(dead)) && c < |s.chunks| && i < SLOTS
    requires HoldsAt(s, o, c, i) || ClaimsAt(s, o, c, i)
    requires var s' := WriterStep(s, dead); |s'.chunks| == |s.chunks| && Shape(s')
    ensures SlotAt(WriterStep(s, dead), c, i).word == SlotAt(s, c, i).word
  {
    if s.writer.Scan? {
      ScanSpares(s, dead, o, c, i);
    } else {
      HeaderStepsKeepSlots(s, dead, c);
    }
  }

  lemma OtherReader(s: State, x: nat, dead: bool, start: nat, o: nat, c: nat, i: nat)
    requires Inv(s) && Live(s, x) && HarmlessReclaim(s, Tick(x, dead, start)) && c < |s.chunks| && i < SLOTS
    requires HoldsAt(s, o, c, i) || ClaimsAt(s, o, c, i)
    requires s.ops[x].proc != s.ops[o].proc
    requires var s' := OpStep(s, x, dead, start); |s'.chunks| == |s.chunks| && Shape(s')
    ensures SlotAt(OpStep(s, x, dead, start), c, i).word == SlotAt(s, c, i).word
  {
    WordChange(s, x, dead, start);
    assert SlotOk(s, c, i) && OpOk(s, o);
    assert HoldsAt(s, o, c, i) ==> o in Holders(s, c, i);
    assert PidOf(s, x) != PidOf(s, o);
  }

  lemma HeaderStepsKeepSlots(s: State, dead: bool, c: nat)
    requires Shape(s) && !s.writer.Scan? && c < |s.chunks|
    ensures |WriterStep(s, dead).chunks| == |s.chunks| && WriterStep(s, dead).chunks[c].slots == s.chunks[c].slots
  {
  }

  lemma ScanSpares(s: State, dead: bool, o: nat, c: nat, i: nat)
    requires Shape(s) && WriterOk(s) && s.writer.Scan? && HarmlessReclaim(s, WriterTick(dead)) && c < |s.chunks|
    requires i < SLOTS
    requires HoldsAt(s, o, c, i) || ClaimsAt(s, o, c, i)
    requires var s' := ScanStep(s, dead); |s'.chunks| == |s.chunks| && Shape(s')
    ensures SlotAt(ScanStep(s, dead), c, i).word == SlotAt(s, c, i).word
  {
    if s.writer.look.Clear? && Target(s) == c && s.writer.slot == i {
      assert HoldsAt(s, o, c, i) ==> o in Holders(s, c, i);
    }
  }

  /** An inherited pin becomes readable in the child only with a lease of its own, at the pinned generation. */
  lemma ReadableHasOwnLease(s: State, o: nat)
    requires Inv(s) && Readable(s, o)
    ensures var Op(p, c, Pinned(_, i, snap)) := s.ops[o];
            && c < |s.chunks| && i < |s.chunks[c].slots|
            && SlotAt(s, c, i).word.Refs() > 0 && SlotAt(s, c, i).word.pid == PidOf(s, o)
            && o in Holders(s, c, i) && s.chunks[c].gen == snap.gen
  {
    var Op(p, c, Pinned(_, i, snap)) := s.ops[o];
    assert OpOk(s, o) && SlotOk(s, c, i);
    assert o in Holders(s, c, i);
    assert Holders(s, c, i) >= {o};
  }

  // ----- timestamp ranges

  /** The rows a range read answers for, while it is under way and when it is done. */
  predicate RangePc(pc: Pc)
  {
    pc.RangeMin? || pc.RangeMax? || pc.RangeEnd? || pc.Ranged?
  }

  lemma SameRange(s: State, step: Step, o: nat)
    requires Shape(s) && Can(s, step) && o in s.ops && RangePc(s.ops[o].pc) && o in Do(s, step).ops
    requires RangePc(Do(s, step).ops[o].pc)
    ensures Do(s, step).ops[o].pc.rows == s.ops[o].pc.rows
  {
    StepFrame(s, step, o);
  }

  predicate InRange(s: State, o: nat)
  {
    o in s.ops && RangePc(s.ops[o].pc)
  }

  function RangeRows(s: State, o: nat): seq<int>
  {
    if InRange(s, o) then s.ops[o].pc.rows else []
  }

  lemma RangeStep(states: seq<State>, steps: seq<Step>, k: nat, o: nat)
    requires IsRun(states, steps) && k < |steps|
    requires InRange(states[k], o) && InRange(states[k + 1], o)
    ensures RangeRows(states[k + 1], o) == RangeRows(states[k], o)
  {
    SameRange(states[k], steps[k], o);
  }

  lemma {:induction false} RowsStay(states: seq<State>, j: nat, k: nat, o: nat)
    requires j <= k < |states|
    requires forall m :: j <= m < k ==> RangeRows(states[m + 1], o) == RangeRows(states[m], o)
    ensures RangeRows(states[k], o) == RangeRows(states[j], o)
  {
    if j < k {
      RowsStay(states, j, k - 1, o);
      assert RangeRows(states[(k - 1) + 1], o) == RangeRows(states[k - 1], o);
    }
  }

  lemma RangeRowsStay(states: seq<State>, steps: seq<Step>, j: nat, k: nat, o: nat)
    requires IsRun(states, steps) && j <= k < |states|
    requires forall m :: j <= m <= k ==> InRange(states[m], o)
    ensures RangeRows(states[k], o) == RangeRows(states[j], o)
  {
    forall m | j <= m < k
      ensures RangeRows(states[m + 1], o) == RangeRows(states[m], o)
    {
      assert InRange(states[m], o) && InRange(states[m + 1], o);
      RangeStep(states, steps, m, o);
    }
    RowsStay(states, j, k, o);
  }

  /**
   Pruning is sound under a concurrent writer: a range bracketed by two equal generation reads covers
   every timestamp committed in the chunk when `used` was loaded, at step j.
   */
  lemma RangeSound(states: seq<State>, steps: seq<Step>, j: nat, k: nat, o: nat)
    requires GoodRun(states, steps) && j < k < |states|
    requires o in states[j].ops && states[j].ops[o].pc.RangeUsed? && states[j].ops[o].chunk < |states[j].chunks|
    requires steps[j].Tick? && steps[j].o == o
    requires forall m :: j < m <= k ==> InRange(states[m], o)
    requires Live(states[k], o) && states[k].ops[o].pc.Ranged?
    ensures Covers(states[k].ops[o].pc.lo, states[k].ops[o].pc.hi, states[j].chunks[states[j].ops[o].chunk].ts)
  {
    RunHolds(states, steps, k);
    assert states[j + 1] == Do(states[j], steps[j]);
    RangeRowsStay(states, steps, j + 1, k, o);
    assert OpOk(states[k], o);
  }
}
