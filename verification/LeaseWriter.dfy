/** What each protocol step does to the generation, extent and bytes of a chunk. */
module LeaseWriter {
  import opened Bytes
  import opened Chunks
  import opened Lease
  import opened LeaseInv
  import opened LeaseSafety

  /** The part of a chunk that readers of rows and of time ranges rely on. */
  datatype Core = Core(gen: nat, used: nat, data: seq<Byte>, ts: seq<int>)

  function CoreOf(ch: Chunk): Core
  {
    Core(ch.gen, ch.used, ch.data, ch.ts)
  }

  /** A step that leaves generations, extents, bytes and the writer alone. */
  ghost predicate CoresKept(s: State, s': State)
  {
    |s'.chunks| == |s.chunks| && forall c :: 0 <= c < |s.chunks| ==> CoreOf(s'.chunks[c]) == CoreOf(s.chunks[c])
  }

  lemma InspectCores(s: State, o: nat, dead: bool)
    requires Shape(s) && o in s.ops && s.ops[o].pc.Inspect?
    ensures CoresKept(s, InspectStep(s, o, dead))
    ensures InspectStep(s, o, dead).writer == s.writer && InspectStep(s, o, dead).writeChunk == s.writeChunk
  {
  }

  lemma TickCores(s: State, o: nat, dead: bool, start: nat)
    requires Shape(s) && o in s.ops
    ensures CoresKept(s, OpStep(s, o, dead, start))
    ensures OpStep(s, o, dead, start).writer == s.writer && OpStep(s, o, dead, start).writeChunk == s.writeChunk
  {
    if s.ops[o].pc.Inspect? {
      InspectCores(s, o, dead);
    }
  }

  predicate WriterActs(step: Step)
  {
    step.Scribble? || step.BeginCommit? || step.BeginAdvance? || step.WriterTick?
  }

  /** Readers, starts, forks and deaths. */
  lemma OthersKeepCores(s: State, step: Step)
    requires Shape(s) && Can(s, step) && !WriterActs(step)
    ensures CoresKept(s, Do(s, step)) && Do(s, step).writer == s.writer && Do(s, step).writeChunk == s.writeChunk
  {
    match step
    case Tick(o, dead, start) =>
      assert Do(s, step) == OpStep(s, o, dead, start);
      hide Do, OpStep;
      TickCores(s, o, dead, start);
    case _ =>
  }

  /** After the generation is bumped and until the chunk is writable again. */
  predicate Resetting(w: WriterPc)
  {
    w.ResetUsed? || w.ResetMin? || w.ResetMax? || w.StoreWriting?
  }

  lemma ScanCores(s: State, dead: bool)
    requires Shape(s) && s.writer.Scan?
    ensures CoresKept(s, ScanStep(s, dead)) && ScanStep(s, dead).writeChunk == s.writeChunk
    ensures var w := ScanStep(s, dead).writer; w.Scan? || w.Restore? || w.Seal?
  {
  }

  /** Writer steps that change neither generation, extent nor bytes. */
  lemma WriterKeepsCores(s: State, dead: bool)
    requires Shape(s) && !s.writer.Publish? && !s.writer.BumpGen? && !s.writer.ResetUsed? && !s.writer.StoreWriteChunk?
    ensures CoresKept(s, WriterStep(s, dead)) && WriterStep(s, dead).writeChunk == s.writeChunk
    ensures var w := WriterStep(s, dead).writer;
            && (Resetting(w) <==> s.writer.ResetMin? || s.writer.ResetMax?)
            && !w.ResetUsed? && (w.StoreWriteChunk? <==> s.writer.StoreWriting?)
  {
    if s.writer.Scan? {
      ScanCores(s, dead);
    }
  }

  function PublishedCore(ch: Chunk, w: WriterPc): Core
    requires w.Publish?
  {
    CoreOf(ch).(used := w.upto, ts := if w.ts.Ts? then ch.ts + [w.ts.value] else ch.ts)
  }

  /** Publishing moves the extent of the write chunk, notes the timestamp, and does nothing else. */
  lemma PublishCores(s: State, dead: bool)
    requires Shape(s) && s.writer.Publish?
    ensures var s' := WriterStep(s, dead);
            && s'.writer == Idle && s'.writeChunk == s.writeChunk && |s'.chunks| == |s.chunks|
            && CoreOf(s'.chunks[s.writeChunk]) == PublishedCore(s.chunks[s.writeChunk], s.writer)
            && forall c :: 0 <= c < |s.chunks| && c != s.writeChunk ==> CoreOf(s'.chunks[c]) == CoreOf(s.chunks[c])
  {
  }

  /** Announcing a commit or an advance only moves the writer. */
  lemma BeginKeepsCores(s: State, step: Step)
    requires Shape(s) && Can(s, step) && (step.BeginCommit? || step.BeginAdvance?)
    ensures s.writer.Idle? && CoresKept(s, Do(s, step)) && Do(s, step).writeChunk == s.writeChunk
    ensures Do(s, step).writer.NoteMin? || Do(s, step).writer.StoreEmpty?
  {
  }

  /** A validated activity is never on a chunk that is being reset. */
  lemma ValidatedNotReset(s: State, o: nat)
    requires Inv(s) && Live(s, o) && Validated(s.ops[o].pc, PidOf(s, o))
    ensures !(Resetting(s.writer) && s.ops[o].chunk == Target(s))
  {
    assert OpShape(s, s.ops[o]);
    assert ValidatedAt(s, o, s.ops[o].chunk, SlotOf(s.ops[o].pc));
  }

  // ----- the answer of the scan

  /** The writer is carrying out the answer of a scan: giving up, or recycling. */
  predicate CarriesOut(w: WriterPc, live: bool)
  {
    if live then w.Restore? else w.Seal? || w.BumpGen? || Resetting(w)
  }

  /** The last step of the deciding pass, with its answer. */
  predicate Decides(s: State, step: Step, live: bool)
    requires Shape(s)
  {
    && step.WriterTick? && s.writer.Scan? && s.writer.attempt == DRAIN_SPINS && s.writer.slot == SLOTS - 1
    && ScanStep(s, step.dead).writer == if live then Restore(s.writer.prev) else Seal
  }

  lemma NextScanOutcome(s: State, prev: Phase, attempt: nat, i: nat, found: bool, live: bool)
    requires i < SLOTS && CarriesOut(NextScan(s, prev, attempt, i, found).writer, live)
    ensures attempt >= DRAIN_SPINS && i == SLOTS - 1 && found == live
    ensures NextScan(s, prev, attempt, i, found).writer == if live then Restore(prev) else Seal
  {
  }

  /**
   How often the writer looks. A pass over the sixteen slots that met a live owner is followed by another
   one, up to 1024 of them; one that met none, and the 1024th, by the deciding pass, which ends the scan.
   */
  lemma PassesCounted(s: State, dead: bool)
    requires Shape(s) && s.writer.Scan?
    ensures var w, w' := s.writer, ScanStep(s, dead).writer;
            && (w'.Scan? && w'.attempt == w.attempt ==> w'.slot == w.slot || w'.slot == w.slot + 1)
            && (w'.Scan? && w'.attempt != w.attempt ==> w.attempt < 1024 && w.slot == 15 && w'.slot == 0 && !w'.live)
            && (w'.Scan? && w'.attempt != w.attempt ==>
                  w'.attempt == if w.live || (w.look.GotStart? && !dead) then w.attempt + 1 else 1024)
            && (!w'.Scan? ==> w.attempt >= 1024 && w.slot == 15)
            && (!w'.Scan? ==> (w'.Restore? <==> w.live || (w.look.GotStart? && !dead)))
  {
  }

  lemma ScanOutcome(s: State, step: Step, live: bool)
    requires Shape(s) && s.writer.Scan? && step.WriterTick? && CarriesOut(ScanStep(s, step.dead).writer, live)
    ensures s.writer.attempt >= DRAIN_SPINS && s.writer.slot == SLOTS - 1
    ensures ScanStep(s, step.dead).writer == if live then Restore(s.writer.prev) else Seal
  {
    var Scan(prev, attempt, i, found, look) := s.writer;
    var cleared := SetWord(s, Target(s), i, Free);
    var s' := ScanStep(s, step.dead);
    hide NextScan;
    if s' == NextScan(s, prev, attempt, i, true) {
      NextScanOutcome(s, prev, attempt, i, true, live);
    } else if s' == NextScan(s, prev, attempt, i, found) {
      NextScanOutcome(s, prev, attempt, i, found, live);
    } else if s' == NextScan(cleared, prev, attempt, i, found) {
      NextScanOutcome(cleared, prev, attempt, i, found, live);
    }
  }

  /** A pass that has come to its end decides nothing before the drain is over. */
  ghost predicate ScanBounded(s: State)
  {
    s.writer.Scan? ==> s.writer.attempt <= DRAIN_SPINS
  }

  lemma StepBounded(s: State, step: Step)
    requires Shape(s) && Can(s, step) && ScanBounded(s)
    ensures ScanBounded(Do(s, step))
  {
    if WriterActs(step) {
      if step.WriterTick? {
        WriterBounded(s, step.dead);
      }
    } else {
      OthersKeepCores(s, step);
    }
  }

  lemma WriterBounded(s: State, dead: bool)
    requires Shape(s) && ScanBounded(s)
    ensures ScanBounded(WriterStep(s, dead))
  {
  }

  lemma {:induction false} RunBounded(states: seq<State>, steps: seq<Step>, k: nat)
    requires GoodRun(states, steps) && k < |states|
    ensures ScanBounded(states[k])
    decreases k
  {
    hide Do, Can;
    if k > 0 {
      RunBounded(states, steps, k - 1);
      StepBounded(states[k - 1], steps[k - 1]);
    }
  }

  lemma EnterCarriesOut(s: State, step: Step, live: bool)
    requires Shape(s) && Can(s, step) && ScanBounded(s)
    requires CarriesOut(Do(s, step).writer, live) && !CarriesOut(s.writer, live)
    ensures Decides(s, step, live)
  {
    if !WriterActs(step) {
      OthersKeepCores(s, step);
    } else if step.WriterTick? && s.writer.Scan? {
      assert Do(s, step) == ScanStep(s, step.dead);
      ScanOutcome(s, step, live);
    }
  }

  /** Whatever a writer carries out was decided by a scan of all slots, and nothing happened to it since. */
  lemma {:induction false} CarriesOutDecision(states: seq<State>, steps: seq<Step>, k: nat, live: bool)
    requires GoodRun(states, steps) && k < |states| && CarriesOut(states[k].writer, live)
    ensures exists m :: 0 <= m < k && m < |steps| && Decides(states[m], steps[m], live)
                        && forall x :: m < x <= k ==> CarriesOut(states[x].writer, live)
    decreases k
  {
    hide Do, Can, Decides;
    if k > 0 {
      if CarriesOut(states[k - 1].writer, live) {
        CarriesOutDecision(states, steps, k - 1, live);
        var m :| 0 <= m < k - 1 && m < |steps| && Decides(states[m], steps[m], live)
                 && forall x :: m < x <= k - 1 ==> CarriesOut(states[x].writer, live);
        assert forall x :: m < x <= k ==> CarriesOut(states[x].writer, live);
      } else {
        RunBounded(states, steps, k - 1);
        EnterCarriesOut(states[k - 1], steps[k - 1], live);
      }
    }
  }

  // ----- what a pass saw

  /** The scan finds slot j free, or frees it by a successful reclaim. */
  predicate MeetsFree(s: State, step: Step, j: nat)
    requires Shape(s)
  {
    && step.WriterTick? && s.writer.Scan? && s.writer.slot == j
    && var word := SlotAt(s, Target(s), j).word;
       match s.writer.look
       case GotWord(_, _) => false
       case GotStart(_, _, _) => false
       case Clear(w, _) => word == w
       case _ => word.Free?
  }

  /** The scan takes the owner of the word it loaded from slot j for alive. */
  predicate MeetsLive(s: State, step: Step, j: nat)
  {
    && step.WriterTick? && !step.dead && s.writer.Scan? && s.writer.slot == j && s.writer.look.GotStart?
    && s.writer.look.w.Owned?
  }

  /** From state x to state k the writer is in one and the same pass. */
  ghost predicate OnePass(states: seq<State>, x: nat, k: nat, attempt: nat)
  {
    k < |states| && forall y :: x <= y <= k ==> states[y].writer.Scan? && states[y].writer.attempt == attempt
  }

  ghost predicate MetFree(states: seq<State>, steps: seq<Step>, k: nat, attempt: nat, j: nat)
  {
    exists x :: 0 <= x < k && x < |steps| && x < |states| && Shape(states[x])
                && MeetsFree(states[x], steps[x], j) && OnePass(states, x, k, attempt)
  }

  ghost predicate MetLive(states: seq<State>, steps: seq<Step>, k: nat, attempt: nat, n: nat)
  {
    exists x, j :: 0 <= x < k && x < |steps| && x < |states| && 0 <= j < n
                   && MeetsLive(states[x], steps[x], j) && OnePass(states, x, k, attempt)
  }

  /** What one tick of a scan does to the place of the writer. */
  lemma ScanTickPlace(s: State, step: Step)
    requires Inv(s) && step.WriterTick? && s.writer.Scan? && ScanStep(s, step.dead).writer.Scan?
    ensures var w, w' := s.writer, ScanStep(s, step.dead).writer;
            || (w'.slot == w.slot && w'.live == w.live && w'.attempt == w.attempt)
            || (w'.slot == w.slot + 1 && w'.attempt == w.attempt
                && ((w'.live == w.live && MeetsFree(s, step, w.slot)) || (w'.live && MeetsLive(s, step, w.slot))))
            || (w'.slot == 0 && !w'.live)
  {
    hide Holders, Drained;
    assert WriterOk(s);
  }

  /** The last tick of a pass that decides. */
  lemma ScanTickDecides(s: State, step: Step, live: bool)
    requires Inv(s) && Decides(s, step, live)
    ensures live ==> s.writer.live || MeetsLive(s, step, SLOTS - 1)
    ensures !live ==> !s.writer.live && MeetsFree(s, step, SLOTS - 1)
  {
    hide Holders, Drained;
    assert WriterOk(s);
  }

  lemma PassGoesOn(states: seq<State>, steps: seq<Step>, k: nat, attempt: nat, j: nat, n: nat)
    requires 0 < k < |states| && states[k].writer.Scan? && states[k].writer.attempt == attempt
    ensures MetFree(states, steps, k - 1, attempt, j) ==> MetFree(states, steps, k, attempt, j)
    ensures MetLive(states, steps, k - 1, attempt, n) ==> MetLive(states, steps, k, attempt, n)
    ensures MetLive(states, steps, k - 1, attempt, n) ==> MetLive(states, steps, k, attempt, n + 1)
  {
    if MetFree(states, steps, k - 1, attempt, j) {
      var x :| 0 <= x < k - 1 && x < |steps| && x < |states| && Shape(states[x])
               && MeetsFree(states[x], steps[x], j) && OnePass(states, x, k - 1, attempt);
      assert OnePass(states, x, k, attempt);
    }
    if MetLive(states, steps, k - 1, attempt, n) {
      var x, i :| 0 <= x < k - 1 && x < |steps| && x < |states| && 0 <= i < n
                  && MeetsLive(states[x], steps[x], i) && OnePass(states, x, k - 1, attempt);
      assert OnePass(states, x, k, attempt);
    }
  }

  /** In the middle of a pass: without a live owner so far, every slot passed was free; else one had a live owner. */
  ghost predicate PassSaw(states: seq<State>, steps: seq<Step>, k: nat)
    requires k < |states|
  {
    var w := states[k].writer;
    w.Scan? ==>
      && (!w.live ==> forall j :: 0 <= j < w.slot ==> MetFree(states, steps, k, w.attempt, j))
      && (w.live ==> MetLive(states, steps, k, w.attempt, w.slot))
  }

  lemma PassSawStep(states: seq<State>, steps: seq<Step>, k: nat)
    requires 0 < k < |states| && k - 1 < |steps| && PassSaw(states, steps, k - 1) && Inv(states[k - 1])
    requires Can(states[k - 1], steps[k - 1]) && states[k] == Do(states[k - 1], steps[k - 1])
    ensures PassSaw(states, steps, k)
  {
    var s, step := states[k - 1], steps[k - 1];
    InvShape(s);
    var w, w' := s.writer, states[k].writer;
    if !WriterActs(step) {
      OthersKeepCores(s, step);
    }
    if w'.Scan? && w.Scan? {
      if step.WriterTick? {
        assert states[k] == ScanStep(s, step.dead);
        ScanTickPlace(s, step);
      }
      hide Inv, Can, Do, MetFree, MetLive;
      forall j | 0 <= j < w'.slot && !w'.live
        ensures MetFree(states, steps, k, w'.attempt, j)
      {
        PassGoesOn(states, steps, k, w'.attempt, j, w.slot);
        MetNow(states, steps, k);
      }
      PassGoesOn(states, steps, k, w'.attempt, 0, w.slot);
      MetNow(states, steps, k);
    }
  }

  lemma MetNow(states: seq<State>, steps: seq<Step>, k: nat)
    requires 0 < k < |states| && k - 1 < |steps| && Shape(states[k - 1])
    requires states[k - 1].writer.Scan? && states[k].writer.Scan?
    requires states[k].writer.attempt == states[k - 1].writer.attempt || states[k].writer.slot == 0
    ensures var w, w' := states[k - 1].writer, states[k].writer;
            w'.attempt == w.attempt ==>
              && (MeetsFree(states[k - 1], steps[k - 1], w.slot) ==> MetFree(states, steps, k, w.attempt, w.slot))
              && (MeetsLive(states[k - 1], steps[k - 1], w.slot) ==> MetLive(states, steps, k, w.attempt, w.slot + 1))
  {
    if states[k].writer.attempt == states[k - 1].writer.attempt {
      assert OnePass(states, k - 1, k, states[k].writer.attempt);
    }
  }

  lemma {:induction false} RunPassSaw(states: seq<State>, steps: seq<Step>, k: nat)
    requires GoodRun(states, steps) && k < |states|
    ensures PassSaw(states, steps, k)
    decreases k
  {
    hide Inv, Can, Do;
    if k > 0 {
      RunPassSaw(states, steps, k - 1);
      RunHolds(states, steps, k - 1);
      PassSawStep(states, steps, k);
    }
  }

  /** By step m the deciding pass has found or made slot j free. */
  ghost predicate FreeBy(states: seq<State>, steps: seq<Step>, m: nat, j: nat)
  {
    exists x :: 0 <= x <= m && x < |states| && x < |steps| && Shape(states[x])
                && MeetsFree(states[x], steps[x], j) && OnePass(states, x, m, DRAIN_SPINS)
  }

  /** By step m the deciding pass has taken the owner of slot j for alive. */
  ghost predicate LiveBy(states: seq<State>, steps: seq<Step>, m: nat, j: nat)
  {
    exists x :: 0 <= x <= m && x < |states| && x < |steps|
                && MeetsLive(states[x], steps[x], j) && OnePass(states, x, m, DRAIN_SPINS)
  }

  /** A pass that ends at step m with every slot met free, or with one whose owner was taken for alive. */
  ghost predicate PassMet(states: seq<State>, steps: seq<Step>, m: nat, live: bool)
  {
    if live then exists j :: 0 <= j < SLOTS && LiveBy(states, steps, m, j)
    else forall j :: 0 <= j < SLOTS ==> FreeBy(states, steps, m, j)
  }

  lemma MetBy(states: seq<State>, steps: seq<Step>, m: nat, n: nat)
    requires m < |states| && n <= SLOTS
    ensures forall j :: 0 <= j < SLOTS && MetFree(states, steps, m, DRAIN_SPINS, j) ==> FreeBy(states, steps, m, j)
    ensures MetLive(states, steps, m, DRAIN_SPINS, n) ==> PassMet(states, steps, m, true)
  {
    forall j | 0 <= j < SLOTS && MetFree(states, steps, m, DRAIN_SPINS, j)
      ensures FreeBy(states, steps, m, j)
    {
      var x :| 0 <= x < m && x < |steps| && x < |states| && Shape(states[x])
               && MeetsFree(states[x], steps[x], j) && OnePass(states, x, m, DRAIN_SPINS);
    }
    if MetLive(states, steps, m, DRAIN_SPINS, n) {
      var x, j :| 0 <= x < m && x < |steps| && x < |states| && 0 <= j < n
                  && MeetsLive(states[x], steps[x], j) && OnePass(states, x, m, DRAIN_SPINS);
      assert LiveBy(states, steps, m, j);
    }
  }

  /** The answer of a deciding pass is what it saw. */
  lemma DecisionIsSeen(states: seq<State>, steps: seq<Step>, m: nat, live: bool)
    requires GoodRun(states, steps) && m < |steps| && Shape(states[m]) && Decides(states[m], steps[m], live)
    ensures PassMet(states, steps, m, live)
  {
    RunPassSaw(states, steps, m);
    RunHolds(states, steps, m);
    ScanTickDecides(states[m], steps[m], live);
    hide Inv, Can, Do, MetFree, MetLive;
    assert OnePass(states, m, m, DRAIN_SPINS);
    MetBy(states, steps, m, SLOTS - 1);
    assert MeetsLive(states[m], steps[m], SLOTS - 1) ==> LiveBy(states, steps, m, SLOTS - 1);
    assert MeetsFree(states[m], steps[m], SLOTS - 1) ==> FreeBy(states, steps, m, SLOTS - 1);
  }
}
