/**
 Where the lease protocol stops being safe: a reclaiming compare-exchange that meets a word which left
 and came back, and a forked child that is given the pid tagging a pin it inherits.
 */
module LeaseLimits {
  import opened Chunks
  import opened Lease
  import opened LeaseInv
  import opened LeaseProof
  import opened LeaseFork
  import opened LeaseWorld
  import opened LeaseSafety
  import opened LeaseExact

  // ----- exactly when a reclaim breaks the accounting

  /** Lease accounting of all slots, and every claim in progress still on its slot. */
  ghost predicate LeasesIntact(s: State)
  {
    && Shape(s)
    && SlotsOk(s)
    && forall o, c, i :: 0 <= c < |s.chunks| && 0 <= i < SLOTS && ClaimsAt(s, o, c, i)
                         ==> SlotAt(s, c, i).word == Owned(PidOf(s, o), 0)
  }

  /** A reclaim leaves every slot as it was but the one it clears, and moves nobody's lease. */
  ghost predicate OnlyClears(s: State, s': State, c: nat, i: nat)
    requires c < |s.chunks| && i < |s.chunks[c].slots|
  {
    && Shape(s') && s'.procs == s.procs && s'.chunks == SetWord(s, c, i, Free).chunks
    && (forall x :: x in s.ops <==> x in s'.ops)
    && (forall x :: x in s.ops ==> s'.ops[x].proc == s.ops[x].proc)
    && (forall x, d, j :: HoldsAt(s', x, d, j) <==> HoldsAt(s, x, d, j))
    && (forall x, d, j :: ClaimsAt(s', x, d, j) <==> ClaimsAt(s, x, d, j))
  }

  lemma ReaderReclaim(s: State, o: nat, dead: bool, start: nat)
    requires Shape(s) && o in s.ops && s.ops[o].pc.Inspect? && s.ops[o].pc.look.Clear?
    requires SlotAt(s, s.ops[o].chunk, s.ops[o].pc.slot).word == s.ops[o].pc.look.w
    ensures OnlyClears(s, OpStep(s, o, dead, start), s.ops[o].chunk, s.ops[o].pc.slot)
  {
  }

  lemma WriterReclaim(s: State, dead: bool)
    requires Shape(s) && s.writer.Scan? && s.writer.look.Clear?
    requires SlotAt(s, Target(s), s.writer.slot).word == s.writer.look.w
    ensures OnlyClears(s, WriterStep(s, dead), Target(s), s.writer.slot)
  {
    assert WriterStep(s, dead).ops == s.ops && WriterStep(s, dead).procs == s.procs;
  }

  lemma ReclaimEffect(s: State, step: Step, c: nat, i: nat)
    requires Shape(s) && Can(s, step) && c < |s.chunks| && i < SLOTS && ReclaimHits(s, step, c, i)
    ensures OnlyClears(s, Do(s, step), c, i)
  {
    if step.Tick? {
      ReaderReclaim(s, step.o, step.dead, step.start);
    } else {
      WriterReclaim(s, step.dead);
    }
  }

  lemma ReclaimOfUnheld(s: State, s': State, c: nat, i: nat)
    requires Inv(s) && c < |s.chunks| && i < SLOTS && OnlyClears(s, s', c, i)
    requires Holders(s, c, i) == {} && Unclaimed(s, c, i)
    ensures LeasesIntact(s')
  {
    forall d, j | 0 <= d < |s.chunks| && 0 <= j < SLOTS
      ensures SlotOk(s', d, j)
    {
      assert Holders(s', d, j) == Holders(s, d, j);
      if d != c || j != i {
        OtherSlot(s, s', d, j);
      }
    }
    forall o, d, j | 0 <= d < |s.chunks| && 0 <= j < SLOTS && ClaimsAt(s', o, d, j)
      ensures SlotAt(s', d, j).word == Owned(PidOf(s', o), 0)
    {
      assert ClaimsAt(s, o, d, j) && OpOk(s, o);
    }
  }

  lemma ReclaimOfHeld(s: State, s': State, c: nat, i: nat)
    requires Inv(s) && c < |s.chunks| && i < SLOTS && OnlyClears(s, s', c, i)
    requires Holders(s, c, i) != {} || !Unclaimed(s, c, i)
    ensures !LeasesIntact(s')
  {
    assert Holders(s', c, i) == Holders(s, c, i);
    if Holders(s, c, i) != {} {
      assert !SlotOk(s', c, i);
    } else {
      var x :| x in s.ops && ClaimsAt(s, x, c, i);
      assert ClaimsAt(s', x, c, i);
    }
  }

  /** In terms of the ghost holders: a reclaim keeps the accounting exactly when nobody holds or claims the slot. */
  lemma ReclaimOfHeldOrFree(s: State, step: Step, c: nat, i: nat)
    requires Inv(s) && Can(s, step) && c < |s.chunks| && i < SLOTS && ReclaimHits(s, step, c, i)
    ensures LeasesIntact(Do(s, step)) <==> Holders(s, c, i) == {} && Unclaimed(s, c, i)
    ensures !StaleClear(s, step) ==> LeasesIntact(Do(s, step))
  {
    ReclaimEffect(s, step, c, i);
    if step.Tick? {
      assert OpOk(s, step.o);
    }
    if Holders(s, c, i) == {} && Unclaimed(s, c, i) {
      ReclaimOfUnheld(s, Do(s, step), c, i);
    } else {
      ReclaimOfHeld(s, Do(s, step), c, i);
    }
  }

  lemma ReclaimedIsOwned(s: State, step: Step, c: nat, i: nat)
    requires Inv(s) && Can(s, step) && c < |s.chunks| && i < SLOTS && ReclaimHits(s, step, c, i)
    ensures SlotAt(s, c, i).word.Owned?
  {
    if step.Tick? {
      assert OpOk(s, step.o);
    }
  }

  /** With exact counts and claims, somebody holds or claims an owned slot exactly when its recorded owner lives. */
  lemma OwnerLivesExactly(s: State, c: nat, i: nat)
    requires Inv(s) && Exact(s) && ClaimsMade(s) && c < |s.chunks| && i < SLOTS && SlotAt(s, c, i).word.Owned?
    ensures Holders(s, c, i) == {} && Unclaimed(s, c, i) <==> !LivePid(s, SlotAt(s, c, i).word.pid)
  {
    var w := SlotAt(s, c, i).word;
    assert SlotOk(s, c, i) && SlotExact(s, c, i) && ClaimMade(s, c, i);
    if !LivePid(s, w.pid) {
      forall o | o in s.ops
        ensures !HoldsAt(s, o, c, i) && !ClaimsAt(s, o, c, i)
      {
        NotOfTheDead(s, o, c, i);
      }
    }
  }

  lemma NotOfTheDead(s: State, o: nat, c: nat, i: nat)
    requires Inv(s) && c < |s.chunks| && i < SLOTS && SlotAt(s, c, i).word.Owned?
    requires o in s.ops && !LivePid(s, SlotAt(s, c, i).word.pid)
    ensures !HoldsAt(s, o, c, i) && !ClaimsAt(s, o, c, i)
  {
    assert SlotOk(s, c, i);
    assert HoldsAt(s, o, c, i) ==> o in Holders(s, c, i);
    assert Live(s, o) ==> LivePid(s, PidOf(s, o)) && OpOk(s, o);
  }

  // ----- exactly when a fork breaks the accounting

  /** A child can read an inherited pin at once exactly when the pin carries the child's pid. */
  lemma ForkReadableExact(s: State, step: Step)
    requires Shape(s) && step.Fork? && Can(s, step)
    ensures (exists n :: n in step.copies && n in Do(s, step).ops && Readable(Do(s, step), n)) <==> TagReuse(s, step)
  {
    var s' := Do(s, step);
    forall n | n in step.copies
      ensures n in s'.ops
      ensures Readable(s', n) <==> s.ops[step.copies[n]].pc.Pinned? && s.ops[step.copies[n]].pc.tag == Owner(step.pid)
    {
      assert s'.ops[n] == Inherited(s.ops[step.copies[n]], step.q);
    }
  }

  /** The accounting alone: a fork keeps it if and only if every slot covers the tagged copies. */
  lemma ForkAccounting(s: State, step: Step)
    requires Inv(s) && step.Fork? && Can(s, step)
    ensures LeasesIntact(Do(s, step))
            <==> forall c, i :: 0 <= c < |s.chunks| && 0 <= i < SLOTS ==> CopiesCovered(s, step, c, i)
    ensures !TagReuse(s, step) ==> LeasesIntact(Do(s, step))
  {
    var s' := Do(s, step);
    ForkedShape(s, step);
    assert |s'.chunks| == |s.chunks|;
    hide Inv, Can, Do, SlotOk, CopiesCovered, TagReuse;
    forall c, i | 0 <= c < |s.chunks| && 0 <= i < SLOTS
      ensures SlotOk(s', c, i) <==> CopiesCovered(s, step, c, i)
    {
      ForkedSlot(s, step, c, i);
    }
    forall o, c, i | 0 <= c < |s.chunks| && 0 <= i < SLOTS && ClaimsAt(s', o, c, i)
      ensures SlotAt(s', c, i).word == Owned(PidOf(s', o), 0)
    {
      ForkedClaim(s, step, c, i, o);
    }
    if !TagReuse(s, step) {
      forall c, i | 0 <= c < |s.chunks| && 0 <= i < SLOTS
        ensures CopiesCovered(s, step, c, i)
      {
        NoTagNoCopies(s, step, c, i);
      }
    }
  }

  /**
   Exactly when a fork is safe. In every state that satisfies the invariant, a fork keeps it if and only
   if every inherited pin that carries the child's pid finds its slot covered by the word, references and
   start time, its chunk at the pinned generation, and nobody under way to take the slot: no inspector or
   writer about to reclaim it, no scan that has passed it, no reset that has begun.
   */
  lemma ForkExactly(s: State, step: Step)
    requires Inv(s) && step.Fork? && Can(s, step)
    ensures Inv(Do(s, step)) <==> HarmlessFork(s, step)
    ensures !TagReuse(s, step) ==> HarmlessFork(s, step)
  {
    assert Shape(s);
    hide Inv, Can, Do, TagReuse, SlotInherits;
    if HarmlessFork(s, step) {
      ForkKeeps(s, step);
    }
    if Inv(Do(s, step)) {
      ForkHarmless(s, step);
    }
    if !TagReuse(s, step) {
      forall c, i | 0 <= c < |s.chunks| && 0 <= i < SLOTS
        ensures SlotInherits(s, step, c, i)
      {
        NoTagNoCopies(s, step, c, i);
      }
    }
  }

  // ----- exactly which steps keep the invariant

  lemma InvIsIntact(s: State)
    requires Inv(s)
    ensures LeasesIntact(s)
  {
    forall o, c, i | 0 <= c < |s.chunks| && 0 <= i < SLOTS && ClaimsAt(s, o, c, i)
      ensures SlotAt(s, c, i).word == Owned(PidOf(s, o), 0)
    {
      assert OpOk(s, o);
    }
  }

  /** A step that reclaims does harm exactly when somebody holds or claims the slot. */
  lemma ReclaimHarms(s: State, step: Step, c: nat, i: nat)
    requires Inv(s) && Can(s, step) && c < |s.chunks| && i < SLOTS && ReclaimHits(s, step, c, i)
    ensures Benign(s, step) <==> Unheld(s, c, i)
    ensures !StaleClear(s, step) ==> Unheld(s, c, i)
  {
    if step.Tick? {
      assert OpOk(s, step.o);
    }
  }

  lemma NoReclaimNoHarm(s: State, step: Step)
    requires Inv(s) && Can(s, step)
    requires forall c, i :: 0 <= c < |s.chunks| && 0 <= i < SLOTS ==> !ReclaimHits(s, step, c, i)
    ensures HarmlessReclaim(s, step)
  {
    match step
    case Tick(o, _, _) =>
      assert OpShape(s, s.ops[o]);
      if s.ops[o].pc.Inspect? {
        assert !ReclaimHits(s, step, s.ops[o].chunk, s.ops[o].pc.slot);
      }
    case WriterTick(_) =>
      if s.writer.Scan? {
        assert !ReclaimHits(s, step, Target(s), s.writer.slot);
      }
    case _ =>
  }

  /**
   The exact frontier of the protocol. From a state that satisfies the invariant, a step leads to one that
   does if and only if it does no harm: what it reclaims is held and claimed by nobody alive, and what it
   inherits is covered and current. Steps without a stale reclaim and without a reused tag do no harm.
   */
  lemma StepExactly(s: State, step: Step)
    requires Inv(s) && Can(s, step)
    ensures Inv(Do(s, step)) <==> Benign(s, step)
    ensures !StaleClear(s, step) && !TagReuse(s, step) ==> Benign(s, step)
  {
    if c: nat, i: nat :| c < |s.chunks| && i < SLOTS && ReclaimHits(s, step, c, i) {
      ReclaimHarms(s, step, c, i);
      ReclaimOfHeldOrFree(s, step, c, i);
      if Inv(Do(s, step)) {
        InvIsIntact(Do(s, step));
      }
    } else {
      NoReclaimNoHarm(s, step);
      if step.Fork? {
        ForkExactly(s, step);
      }
    }
    if Benign(s, step) {
      StepKeeps(s, step);
    }
  }

  /** A run from a fresh table is good exactly as long as every state of it satisfies the invariant. */
  lemma GoodRunExactly(states: seq<State>, steps: seq<Step>)
    requires IsRun(states, steps) && Init(states[0])
    ensures GoodRun(states, steps) <==> forall k :: 0 <= k < |states| ==> Inv(states[k])
  {
    hide Inv, Can, Do, Benign, Init;
    if GoodRun(states, steps) {
      forall k | 0 <= k < |states|
        ensures Inv(states[k])
      {
        RunHolds(states, steps, k);
      }
    }
    if forall k :: 0 <= k < |states| ==> Inv(states[k]) {
      forall k | 0 <= k < |steps|
        ensures Benign(states[k], steps[k])
      {
        assert Inv(states[k]) && Inv(states[k + 1]);
        StepExactly(states[k], steps[k]);
      }
    }
  }

  // ----- exactly when a reclaim is safe

  /**
   Exactly when a reclaim is safe. In every state of every run that never reuses a pid, a successful
   reclaim, stale or not, keeps the whole invariant if and only if the process recorded in the word it
   compares is dead at the compare-exchange.
   */
  lemma ReclaimExact(states: seq<State>, steps: seq<Step>, k: nat, step: Step, c: nat, i: nat)
    requires GoodRun(states, steps) && k < |states|
    requires forall m :: 0 <= m < |steps| ==> NewPid(states[m], steps[m])
    requires Shape(states[k]) && Can(states[k], step) && c < |states[k].chunks| && i < SLOTS
    requires ReclaimHits(states[k], step, c, i)
    ensures SlotAt(states[k], c, i).word.Owned?
    ensures Inv(Do(states[k], step)) <==> !LivePid(states[k], SlotAt(states[k], c, i).word.pid)
    ensures LeasesIntact(Do(states[k], step)) <==> !LivePid(states[k], SlotAt(states[k], c, i).word.pid)
  {
    hide Inv, Exact, Can, Do, ReclaimHits, LeasesIntact, Benign;
    RunHolds(states, steps, k);
    RunExact(states, steps, k);
    RunClaimsMade(states, steps, k);
    ReclaimedIsOwned(states[k], step, c, i);
    OwnerLivesExactly(states[k], c, i);
    ReclaimOfHeldOrFree(states[k], step, c, i);
    ReclaimHarms(states[k], step, c, i);
    StepExactly(states[k], step);
  }

  // ----- reachability

  ghost predicate Reach(s: State, t: State)
  {
    exists states: seq<State>, steps: seq<Step> ::
      IsRun(states, steps) && states[0] == s && states[|states| - 1] == t
  }

  lemma ReachSelf(s: State)
    ensures Reach(s, s)
  {
    var states := [s];
    var steps: seq<Step> := [];
    assert IsRun(states, steps) && states[0] == s && states[|states| - 1] == s;
  }

  lemma Extend(s: State, t: State, step: Step, u: State)
    requires Reach(s, t) && Shape(t) && Can(t, step) && u == Do(t, step)
    ensures Reach(s, u)
  {
    var states: seq<State>, steps: seq<Step> :| IsRun(states, steps) && states[0] == s && states[|states| - 1] == t;
    ExtendRun(states, steps, step, u);
    assert IsRun(states + [u], steps + [step]) && (states + [u])[0] == s && (states + [u])[|states + [u]| - 1] == u;
  }

  lemma ExtendRun(states: seq<State>, steps: seq<Step>, step: Step, u: State)
    requires IsRun(states, steps)
    requires var t := states[|states| - 1]; Shape(t) && Can(t, step) && u == Do(t, step)
    ensures IsRun(states + [u], steps + [step])
  {
    var st, sp := states + [u], steps + [step];
    forall k | 0 <= k < |sp|
      ensures Shape(st[k]) && Can(st[k], sp[k]) && st[k + 1] == Do(st[k], sp[k])
    {
      if k < |steps| {
        assert st[k] == states[k] && sp[k] == steps[k] && st[k + 1] == states[k + 1];
      } else {
        assert st[k] == states[|states| - 1] && sp[k] == step && st[k + 1] == u;
      }
    }
  }

  // ----- a one-chunk table in which only slot 0 is ever used

  function FreeSlots(n: nat): (r: seq<Slot>)
    ensures |r| == n && forall i :: 0 <= i < n ==> r[i] == Slot(Free, 0, 0)
  {
    seq(n, _ => Slot(Free, 0, 0))
  }

  function OneChunk(state: Phase, gen: nat, slot: Slot): Chunk
  {
    Chunk(state, gen, 0, TS_MIN_INIT, TS_MAX_INIT, [], [], [slot] + FreeSlots(SLOTS - 1))
  }

  function World(gen: nat, procs: map<nat, Proc>, ops: map<nat, Op>, slot: Slot): State
  {
    State([OneChunk(Writing, gen, slot)], procs, ops, 0, Idle)
  }

  const Start: State := World(1, map[], map[], Slot(Free, 0, 0))

  lemma StartIsInitial()
    ensures Init(Start)
  {
  }

  predicate Sane(procs: map<nat, Proc>, ops: map<nat, Op>)
  {
    forall o :: o in ops ==> ops[o].proc in procs && ops[o].chunk == 0 && SlotOf(ops[o].pc) == 0
  }

  function With(ops: map<nat, Op>, o: nat, p: nat, pc: Pc): map<nat, Op>
  {
    ops[o := Op(p, 0, pc)]
  }

  lemma WorldShape(gen: nat, procs: map<nat, Proc>, ops: map<nat, Op>, slot: Slot)
    requires Sane(procs, ops)
    ensures Shape(World(gen, procs, ops, slot)) && SlotAt(World(gen, procs, ops, slot), 0, 0) == slot
  {
  }

  lemma SaneWith(procs: map<nat, Proc>, ops: map<nat, Op>, o: nat, p: nat, pc: Pc, pc': Pc)
    requires Sane(procs, With(ops, o, p, pc)) && SlotOf(pc') == 0
    ensures Sane(procs, With(ops, o, p, pc'))
  {
    forall x | x in With(ops, o, p, pc')
      ensures var op := With(ops, o, p, pc')[x]; op.proc in procs && op.chunk == 0 && SlotOf(op.pc) == 0
    {
      assert x in With(ops, o, p, pc);
    }
  }

  lemma WorldMove(gen: nat, procs: map<nat, Proc>, ops: map<nat, Op>, o: nat, p: nat, pc: Pc, slot: Slot,
                  pc': Pc, slot': Slot)
    requires Sane(procs, With(ops, o, p, pc))
    ensures SetPc(World(gen, procs, With(ops, o, p, pc), slot), o, pc') == World(gen, procs, With(ops, o, p, pc'), slot)
    ensures Shape(World(gen, procs, With(ops, o, p, pc), slot))
    ensures SetSlot(World(gen, procs, With(ops, o, p, pc), slot), 0, 0, slot')
            == World(gen, procs, With(ops, o, p, pc), slot')
    ensures SetPc(World(gen, procs, With(ops, o, p, pc), slot'), o, pc')
            == World(gen, procs, With(ops, o, p, pc'), slot')
  {
    assert With(ops, o, p, pc)[o := Op(p, 0, pc')] == With(ops, o, p, pc');
    assert OneChunk(Writing, gen, slot).slots[0 := slot'] == OneChunk(Writing, gen, slot').slots;
  }

  /** One tick of activity o, from pc to pc', turning the slot into slot'. */
  lemma Advance(gen: nat, procs: map<nat, Proc>, ops: map<nat, Op>, o: nat, p: nat, pc: Pc, slot: Slot, dead: bool,
                pc': Pc, slot': Slot)
    requires Sane(procs, With(ops, o, p, pc)) && p in procs && procs[p].live
    requires Reach(Start, World(gen, procs, With(ops, o, p, pc), slot))
    requires Can(World(gen, procs, With(ops, o, p, pc), slot), Tick(o, dead, procs[p].start))
    requires Shape(World(gen, procs, With(ops, o, p, pc), slot))
    requires slot' == slot ==> OpStep(World(gen, procs, With(ops, o, p, pc), slot), o, dead, procs[p].start)
                               == SetPc(World(gen, procs, With(ops, o, p, pc), slot), o, pc')
    requires slot' != slot ==> OpStep(World(gen, procs, With(ops, o, p, pc), slot), o, dead, procs[p].start)
                               == SetPc(SetSlot(World(gen, procs, With(ops, o, p, pc), slot), 0, 0, slot'), o, pc')
    requires SlotOf(pc') == 0
    ensures Reach(Start, World(gen, procs, With(ops, o, p, pc'), slot'))
    ensures Sane(procs, With(ops, o, p, pc')) && Shape(World(gen, procs, With(ops, o, p, pc'), slot'))
    ensures SlotAt(World(gen, procs, With(ops, o, p, pc'), slot'), 0, 0) == slot'
  {
    SaneWith(procs, ops, o, p, pc, pc');
    WorldShape(gen, procs, With(ops, o, p, pc'), slot');
    WorldMove(gen, procs, ops, o, p, pc, slot, pc', slot');
    Extend(Start, World(gen, procs, With(ops, o, p, pc), slot), Tick(o, dead, procs[p].start),
           World(gen, procs, With(ops, o, p, pc'), slot'));
  }

  function MyGoal(gen: nat): Goal { Fresh(0, Writing, gen) }

  /** A reader begins to pin and arrives at the inspection of slot 0. */
  lemma Approach(gen: nat, procs: map<nat, Proc>, ops: map<nat, Op>, slot: Slot, o: nat, p: nat)
    requires Sane(procs, ops) && o !in ops && p in procs && procs[p].live
    requires Reach(Start, World(gen, procs, ops, slot))
    ensures Reach(Start, World(gen, procs, With(ops, o, p, Inspect(MyGoal(gen), procs[p].start, 0, Load)), slot))
  {
    var st := procs[p].start;
    WorldShape(gen, procs, ops, slot);
    Extend(Start, World(gen, procs, ops, slot), BeginPin(o, p, 0),
           World(gen, procs, With(ops, o, p, LoadState(0)), slot));
    WorldShape(gen, procs, With(ops, o, p, LoadState(0)), slot);
    Advance(gen, procs, ops, o, p, LoadState(0), slot, false, LoadGen(0, Writing), slot);
    Advance(gen, procs, ops, o, p, LoadGen(0, Writing), slot, false, Inspect(MyGoal(gen), st, 0, Load), slot);
  }

  /** From there it claims the free slot and records its start time. */
  lemma ClaimFree(gen: nat, procs: map<nat, Proc>, ops: map<nat, Op>, slot: Slot, o: nat, p: nat)
    requires Sane(procs, With(ops, o, p, LoadState(0))) && p in procs && procs[p].live && slot.word.Free?
    requires Reach(Start, World(gen, procs, With(ops, o, p, Inspect(MyGoal(gen), procs[p].start, 0, Load)), slot))
    ensures Reach(Start, World(gen, procs, With(ops, o, p, Confirm(MyGoal(gen), procs[p].start, 0)),
                               Slot(Owned(procs[p].pid, 0), procs[p].start, slot.ver + 1)))
  {
    var st := procs[p].start;
    var pc1 := Inspect(MyGoal(gen), st, 0, Load);
    var pc2 := Inspect(MyGoal(gen), st, 0, TryClaim);
    var slot1 := Slot(Owned(procs[p].pid, 0), slot.start, slot.ver + 1);
    SaneWith(procs, ops, o, p, LoadState(0), pc1);
    WorldShape(gen, procs, With(ops, o, p, pc1), slot);
    Advance(gen, procs, ops, o, p, pc1, slot, false, pc2, slot);
    Advance(gen, procs, ops, o, p, pc2, slot, false, Claimed(MyGoal(gen), st, 0), slot1);
    RecordFree(gen, procs, ops, slot1, o, p);
  }

  lemma RecordFree(gen: nat, procs: map<nat, Proc>, ops: map<nat, Op>, slot: Slot, o: nat, p: nat)
    requires p in procs && procs[p].live && Sane(procs, With(ops, o, p, Claimed(MyGoal(gen), procs[p].start, 0)))
    requires Reach(Start, World(gen, procs, With(ops, o, p, Claimed(MyGoal(gen), procs[p].start, 0)), slot))
    ensures var st := procs[p].start;
            Reach(Start, World(gen, procs, With(ops, o, p, Confirm(MyGoal(gen), st, 0)), slot.(start := st)))
  {
    var st := procs[p].start;
    var pc := Claimed(MyGoal(gen), st, 0);
    WorldShape(gen, procs, With(ops, o, p, pc), slot);
    WorldMove(gen, procs, ops, o, p, pc, slot, Confirm(MyGoal(gen), st, 0), slot.(start := st));
    Extend(Start, World(gen, procs, With(ops, o, p, pc), slot), Tick(o, false, st),
           World(gen, procs, With(ops, o, p, Confirm(MyGoal(gen), st, 0)), slot.(start := st)));
  }

  function EmptySnap(gen: nat): Snap { Snap(gen, 0, []) }

  /** It confirms the claim and has its lease. */
  lemma ConfirmFree(gen: nat, procs: map<nat, Proc>, ops: map<nat, Op>, v: nat, o: nat, p: nat)
    requires Sane(procs, With(ops, o, p, LoadState(0))) && p in procs && procs[p].live
    requires Reach(Start, World(gen, procs, With(ops, o, p, Confirm(MyGoal(gen), procs[p].start, 0)),
                                Slot(Owned(procs[p].pid, 0), procs[p].start, v)))
    ensures Reach(Start, World(gen, procs, With(ops, o, p, CheckState(MyGoal(gen), 0)),
                               Slot(Owned(procs[p].pid, 1), procs[p].start, v + 1)))
  {
    var st, pid := procs[p].start, procs[p].pid;
    var slot0 := Slot(Owned(pid, 0), st, v);
    var pc0 := Confirm(MyGoal(gen), st, 0);
    SaneWith(procs, ops, o, p, LoadState(0), pc0);
    WorldShape(gen, procs, With(ops, o, p, pc0), slot0);
    Advance(gen, procs, ops, o, p, pc0, slot0, false, CheckState(MyGoal(gen), 0), Slot(Owned(pid, 1), st, v + 1));
  }

  /** It validates and is pinned. */
  lemma Validate(gen: nat, procs: map<nat, Proc>, ops: map<nat, Op>, slot: Slot, o: nat, p: nat)
    requires Sane(procs, With(ops, o, p, LoadState(0))) && p in procs && procs[p].live
    requires Reach(Start, World(gen, procs, With(ops, o, p, CheckState(MyGoal(gen), 0)), slot))
    ensures Reach(Start, World(gen, procs, With(ops, o, p, Pinned(Owner(procs[p].pid), 0, EmptySnap(gen))), slot))
  {
    hide Reach;
    var pc1 := CheckState(MyGoal(gen), 0);
    var pc2 := CheckGen(MyGoal(gen), 0);
    var pc3 := LoadUsed(0, gen, 0);
    SaneWith(procs, ops, o, p, LoadState(0), pc1);
    WorldShape(gen, procs, With(ops, o, p, pc1), slot);
    Advance(gen, procs, ops, o, p, pc1, slot, false, pc2, slot);
    Advance(gen, procs, ops, o, p, pc2, slot, false, pc3, slot);
    Advance(gen, procs, ops, o, p, pc3, slot, false, Pinned(Owner(procs[p].pid), 0, EmptySnap(gen)), slot);
  }

  /** Pinning through a free slot, from beginning to end. */
  lemma PinFree(gen: nat, procs: map<nat, Proc>, ops: map<nat, Op>, slot: Slot, o: nat, p: nat)
    requires Sane(procs, ops) && o !in ops && p in procs && procs[p].live && slot.word.Free?
    requires Reach(Start, World(gen, procs, ops, slot))
    ensures Reach(Start, World(gen, procs, With(ops, o, p, Pinned(Owner(procs[p].pid), 0, EmptySnap(gen))),
                               Slot(Owned(procs[p].pid, 1), procs[p].start, slot.ver + 2)))
  {
    Approach(gen, procs, ops, slot, o, p);
    ClaimFree(gen, procs, ops, slot, o, p);
    ConfirmFree(gen, procs, ops, slot.ver + 1, o, p);
    Validate(gen, procs, ops, Slot(Owned(procs[p].pid, 1), procs[p].start, slot.ver + 2), o, p);
  }

  /** The pin is dropped and the slot is free again. */
  lemma DropPin(gen: nat, procs: map<nat, Proc>, ops: map<nat, Op>, slot: Slot, o: nat, p: nat)
    requires Sane(procs, ops) && p in procs && procs[p].live && o !in ops && slot.word == Owned(procs[p].pid, 1)
    requires Reach(Start, World(gen, procs, With(ops, o, p, Pinned(Owner(procs[p].pid), 0, EmptySnap(gen))), slot))
    ensures Reach(Start, World(gen, procs, ops, Slot(Free, slot.start, slot.ver + 1)))
  {
    var pc0 := Pinned(Owner(procs[p].pid), 0, EmptySnap(gen));
    var pc1 := ReleaseLoad(Dropped, 0);
    WorldMove(gen, procs, ops, o, p, pc0, slot, pc1, slot);
    Extend(Start, World(gen, procs, With(ops, o, p, pc0), slot), Drop(o),
           World(gen, procs, With(ops, o, p, pc1), slot));
    WorldShape(gen, procs, With(ops, o, p, pc1), slot);
    Advance(gen, procs, ops, o, p, pc1, slot, false, ReleaseCas(Dropped, 0, slot.word), slot);
    FinishDrop(gen, procs, ops, slot, o, p);
  }

  lemma FinishDrop(gen: nat, procs: map<nat, Proc>, ops: map<nat, Op>, slot: Slot, o: nat, p: nat)
    requires p in procs && procs[p].live && o !in ops && slot.word == Owned(procs[p].pid, 1)
    requires Sane(procs, With(ops, o, p, ReleaseCas(Dropped, 0, slot.word)))
    requires Reach(Start, World(gen, procs, With(ops, o, p, ReleaseCas(Dropped, 0, slot.word)), slot))
    ensures Reach(Start, World(gen, procs, ops, Slot(Free, slot.start, slot.ver + 1)))
  {
    var pc := ReleaseCas(Dropped, 0, slot.word);
    WorldShape(gen, procs, With(ops, o, p, pc), slot);
    WorldMove(gen, procs, ops, o, p, pc, slot, pc, Slot(Free, slot.start, slot.ver + 1));
    assert With(ops, o, p, pc) - {o} == ops;
    Extend(Start, World(gen, procs, With(ops, o, p, pc), slot), Tick(o, false, 0),
           World(gen, procs, ops, Slot(Free, slot.start, slot.ver + 1)));
  }

  // ----- the writer recycles a chunk whose slots are all free

  predicate AllFree(s: State)
  {
    && |s.chunks| == 1 && |s.chunks[0].slots| == SLOTS && s.writeChunk == 0
    && forall i :: 0 <= i < SLOTS ==> s.chunks[0].slots[i].word.Free?
  }

  lemma ScanOn(s: State, attempt: nat, i: nat)
    requires Shape(s) && AllFree(s) && i < SLOTS
    requires Reach(Start, SetWriter(s, Scan(Writing, attempt, i, false, Load)))
    ensures Reach(Start, EndScan(s, Writing, attempt, false))
    decreases SLOTS - i
  {
    var t := SetWriter(s, Scan(Writing, attempt, i, false, Load));
    var u := NextScan(s, Writing, attempt, i, false);
    assert WriterStep(t, false) == u;
    Extend(Start, t, WriterTick(false), u);
    if i + 1 < SLOTS {
      ScanOn(s, attempt, i + 1);
    }
  }

  lemma ScanTwice(s: State)
    requires Shape(s) && AllFree(s) && Reach(Start, SetWriter(s, Scan(Writing, 0, 0, false, Load)))
    ensures Reach(Start, SetWriter(s, Seal))
  {
    ScanOn(s, 0, 0);
    ScanOn(s, DRAIN_SPINS, 0);
  }

  lemma EmptyAndScan(s: State)
    requires Shape(s) && AllFree(s) && s.writer.Idle? && s.chunks[0].state.Writing? && Reach(Start, s)
    ensures var e := SetChunk(s, 0, s.chunks[0].(state := Empty));
            Shape(e) && AllFree(e) && Reach(Start, SetWriter(e, Scan(Writing, 0, 0, false, Load)))
  {
    var t1 := SetWriter(s, StoreEmpty(Writing));
    Extend(Start, s, BeginAdvance, t1);
    var e := SetChunk(s, 0, s.chunks[0].(state := Empty));
    Extend(Start, t1, WriterTick(false), SetWriter(e, Scan(Writing, 0, 0, false, Load)));
  }

  /** Nothing but the leases keeps the writer from starting a new generation. */
  lemma Recycle(s: State)
    requires Shape(s) && AllFree(s) && s.writer.Idle? && s.chunks[0].state.Writing? && Reach(Start, s)
    ensures exists u :: Reach(Start, u) && u.ops == s.ops && u.procs == s.procs
                        && |u.chunks| == 1 && u.chunks[0].gen == s.chunks[0].gen + 1
  {
    EmptyAndScan(s);
    var e := SetChunk(s, 0, s.chunks[0].(state := Empty));
    ScanTwice(e);
    var t := SetWriter(e, Seal);
    Extend(Start, t, WriterTick(false), SetWriter(e, BumpGen));
    var u := SetWriter(SetChunk(e, 0, e.chunks[0].(gen := e.chunks[0].gen + 1, ts := [])), ResetUsed);
    Extend(Start, SetWriter(e, BumpGen), WriterTick(false), u);
  }

  /** A readable pin on slot 0 that no lease covers loses its chunk. */
  lemma UncoveredPinIsLost(gen: nat, procs: map<nat, Proc>, ops: map<nat, Op>, slot: Slot, o: nat)
    requires Sane(procs, ops) && slot.word.Free? && Reach(Start, World(gen, procs, ops, slot))
    requires Readable(World(gen, procs, ops, slot), o) && ops[o].pc.snap == EmptySnap(gen)
    ensures exists u :: Reach(Start, u) && LostPin(u, o)
  {
    WorldShape(gen, procs, ops, slot);
    Recycle(World(gen, procs, ops, slot));
  }

  /** The pin o may be read although its chunk is in another generation. */
  predicate LostPin(s: State, o: nat)
  {
    Readable(s, o) && s.ops[o].chunk < |s.chunks| && s.chunks[s.ops[o].chunk].gen != s.ops[o].pc.snap.gen
  }

  // ----- a word that leaves and comes back

  const Three: map<nat, Proc> := map[0 := Proc(1, 10, true), 1 := Proc(2, 20, true), 2 := Proc(3, 30, true)]

  lemma SpawnThree()
    ensures Reach(Start, World(1, Three, map[], Slot(Free, 0, 0)))
  {
    var slot := Slot(Free, 0, 0);
    var m1 := map[0 := Proc(1, 10, true)];
    var m2 := map[0 := Proc(1, 10, true), 1 := Proc(2, 20, true)];
    ReachSelf(Start);
    WorldShape(1, map[], map[], slot);
    Extend(Start, Start, Spawn(0, 1, 10), World(1, m1, map[], slot));
    WorldShape(1, m1, map[], slot);
    Extend(Start, World(1, m1, map[], slot), Spawn(1, 2, 20), World(1, m2, map[], slot));
    WorldShape(1, m2, map[], slot);
    assert m2[2 := Proc(3, 30, true)] == Three;
    Extend(Start, World(1, m2, map[], slot), Spawn(2, 3, 30), World(1, Three, map[], slot));
  }

  function Looking(look: Look): Pc { Inspect(MyGoal(1), 30, 0, look) }
  function MyPin(): Pc { Pinned(Owner(1), 0, EmptySnap(1)) }

  /** Process 3 loads the word of process 1; process 1 then drops its pin. */
  lemma LoadThenDrop()
    ensures Reach(Start, World(1, Three, With(map[], 3, 2, Looking(GotWord(Owned(1, 1), 2))), Slot(Free, 10, 3)))
  {
    hide Reach;
    LoadPinned();
    var slot := Slot(Owned(1, 1), 10, 2);
    var other := With(map[], 3, 2, Looking(GotWord(Owned(1, 1), 2)));
    assert With(With(map[], 1, 0, MyPin()), 3, 2, Looking(GotWord(Owned(1, 1), 2))) == With(other, 1, 0, MyPin());
    DropPin(1, Three, other, slot, 1, 0);
  }

  /** Process 3 loads the word of the pin of process 1. */
  lemma LoadPinned()
    ensures var ops := With(With(map[], 1, 0, MyPin()), 3, 2, Looking(GotWord(Owned(1, 1), 2)));
            Reach(Start, World(1, Three, ops, Slot(Owned(1, 1), 10, 2)))
  {
    hide Reach;
    SpawnThree();
    var slot := Slot(Owned(1, 1), 10, 2);
    var ops := With(map[], 1, 0, MyPin());
    PinFree(1, Three, map[], Slot(Free, 0, 0), 1, 0);
    Approach(1, Three, ops, slot, 3, 2);
    SaneWith(Three, ops, 3, 2, Looking(Load), Looking(Load));
    WorldShape(1, Three, With(ops, 3, 2, Looking(Load)), slot);
    Advance(1, Three, ops, 3, 2, Looking(Load), slot, false, Looking(GotWord(Owned(1, 1), 2)), slot);
  }

  /** Process 2 claims the slot. */
  lemma OtherClaims()
    ensures var ops := With(map[], 3, 2, Looking(GotWord(Owned(1, 1), 2)));
            Reach(Start, World(1, Three, With(ops, 2, 1, Confirm(MyGoal(1), 20, 0)), Slot(Owned(2, 0), 20, 4)))
  {
    hide Reach;
    LoadThenDrop();
    var old3 := Looking(GotWord(Owned(1, 1), 2));
    Approach(1, Three, With(map[], 3, 2, old3), Slot(Free, 10, 3), 2, 1);
    ClaimFree(1, Three, With(map[], 3, 2, old3), Slot(Free, 10, 3), 2, 1);
  }

  /** Process 3 now loads the start time of process 2. */
  lemma LoadOtherStart()
    ensures var ops := With(map[], 3, 2, Looking(GotStart(Owned(1, 1), 2, 20)));
            Reach(Start, World(1, Three, With(ops, 2, 1, Confirm(MyGoal(1), 20, 0)), Slot(Owned(2, 0), 20, 4)))
  {
    hide Reach;
    OtherClaims();
    var old3 := Looking(GotWord(Owned(1, 1), 2));
    var new3 := Looking(GotStart(Owned(1, 1), 2, 20));
    var pc2 := Confirm(MyGoal(1), 20, 0);
    var slot := Slot(Owned(2, 0), 20, 4);
    var ops := With(map[], 2, 1, pc2);
    assert With(With(map[], 3, 2, old3), 2, 1, pc2) == With(ops, 3, 2, old3);
    WorldShape(1, Three, With(ops, 3, 2, old3), slot);
    Advance(1, Three, ops, 3, 2, old3, slot, false, new3, slot);
    assert With(ops, 3, 2, new3) == With(With(map[], 3, 2, new3), 2, 1, pc2);
  }

  /** Process 2 comes and goes, and process 1 pins again: the word is back. */
  lemma WordIsBack()
    ensures Reach(Start, World(1, Three, With(With(map[], 3, 2, Looking(GotStart(Owned(1, 1), 2, 20))), 4, 0, MyPin()),
                               Slot(Owned(1, 1), 10, 8)))
  {
    LoadOtherStart();
    var ops := With(map[], 3, 2, Looking(GotStart(Owned(1, 1), 2, 20)));
    ConfirmFree(1, Three, ops, 4, 2, 1);
    Validate(1, Three, ops, Slot(Owned(2, 1), 20, 5), 2, 1);
    DropPin(1, Three, ops, Slot(Owned(2, 1), 20, 5), 2, 1);
    PinFree(1, Three, ops, Slot(Free, 20, 6), 4, 0);
  }

  /** Process 3 compares the old word with a start time that is not its own, and clears a live lease. */
  lemma StaleReclaim()
    ensures Reach(Start, World(1, Three, With(With(map[], 4, 0, MyPin()), 3, 2, Looking(Load)), Slot(Free, 10, 9)))
  {
    WordIsBack();
    var ops := With(map[], 4, 0, MyPin());
    var pc1 := Looking(GotStart(Owned(1, 1), 2, 20));
    var pc2 := Looking(Clear(Owned(1, 1), 2));
    var slot := Slot(Owned(1, 1), 10, 8);
    assert With(With(map[], 3, 2, pc1), 4, 0, MyPin()) == With(ops, 3, 2, pc1);
    WorldShape(1, Three, With(ops, 3, 2, pc1), slot);
    Advance(1, Three, ops, 3, 2, pc1, slot, true, pc2, slot);
    Advance(1, Three, ops, 3, 2, pc2, slot, false, Looking(Load), Slot(Free, 10, 9));
  }

  /** Without the hypothesis on reclaims, pin safety fails: a live, readable pin loses its generation. */
  lemma StaleReclaimLosesPin()
    ensures Init(Start) && exists u :: Reach(Start, u) && LostPin(u, 4)
  {
    StartIsInitial();
    StaleReclaim();
    UncoveredPinIsLost(1, Three, With(With(map[], 4, 0, MyPin()), 3, 2, Looking(Load)), Slot(Free, 10, 9), 4);
  }

  // ----- a pid that comes back as the tag of an inherited pin

  const One: map<nat, Proc> := map[0 := Proc(1, 10, true)]
  const Two: map<nat, Proc> := map[0 := Proc(1, 10, true), 1 := Proc(2, 20, true)]
  const TwoOneDead: map<nat, Proc> := map[0 := Proc(1, 10, false), 1 := Proc(2, 20, true)]
  const Reused: map<nat, Proc> := map[0 := Proc(1, 10, false), 1 := Proc(2, 20, true), 2 := Proc(1, 30, true)]

  const Pins1: map<nat, Op> := With(map[], 1, 0, MyPin())
  const Pins2: map<nat, Op> := With(Pins1, 2, 1, MyPin())
  const Pins3: map<nat, Op> := With(Pins2, 3, 2, MyPin())
  const OldLease: Slot := Slot(Owned(1, 1), 10, 2)

  lemma FirstPin()
    ensures Reach(Start, World(1, One, Pins1, OldLease))
  {
    var free := Slot(Free, 0, 0);
    ReachSelf(Start);
    WorldShape(1, map[], map[], free);
    assert map[][0 := Proc(1, 10, true)] == One;
    Extend(Start, Start, Spawn(0, 1, 10), World(1, One, map[], free));
    PinFree(1, One, map[], free, 1, 0);
  }

  /** The effect of forking process p into q, which inherits the pin y as n. */
  lemma ForkOne(gen: nat, procs: map<nat, Proc>, ops: map<nat, Op>, slot: Slot, p: nat, q: nat, pid: nat, start: nat,
                y: nat, n: nat)
    requires Sane(procs, ops) && p in procs && procs[p].live && q !in procs && y in ops && n !in ops
    requires ops[y] == Op(p, 0, MyPin())
    requires forall r :: r in procs && procs[r].live ==> procs[r].pid != pid
    requires Reach(Start, World(gen, procs, ops, slot))
    ensures Reach(Start, World(gen, procs[q := Proc(pid, start, true)], With(ops, n, q, MyPin()), slot))
  {
    var step := Fork(p, q, pid, start, map[n := y]);
    var t := World(gen, procs, ops, slot);
    WorldShape(gen, procs, ops, slot);
    assert Can(t, step);
    assert Do(t, step).ops == With(ops, n, q, MyPin());
    Extend(Start, t, step, World(gen, procs[q := Proc(pid, start, true)], With(ops, n, q, MyPin()), slot));
  }

  lemma FirstFork()
    ensures Reach(Start, World(1, TwoOneDead, Pins2, OldLease))
  {
    FirstPin();
    ForkOne(1, One, Pins1, OldLease, 0, 1, 2, 20, 1, 2);
    assert One[1 := Proc(2, 20, true)] == Two;
    WorldShape(1, Two, Pins2, OldLease);
    assert Two[0 := Proc(1, 10, false)] == TwoOneDead;
    Extend(Start, World(1, Two, Pins2, OldLease), Die(0), World(1, TwoOneDead, Pins2, OldLease));
  }

  /** The grandchild is given the pid of its dead grandparent, and with it the inherited pin. */
  lemma SecondFork()
    ensures TagReuse(World(1, TwoOneDead, Pins2, OldLease), Fork(1, 2, 1, 30, map[3 := 2]))
    ensures Reach(Start, World(1, Reused, Pins3, OldLease))
  {
    FirstFork();
    ForkOne(1, TwoOneDead, Pins2, OldLease, 1, 2, 1, 30, 2, 3);
    assert TwoOneDead[2 := Proc(1, 30, true)] == Reused;
    assert 3 in map[3 := 2] && Pins2[2].pc == MyPin();
  }

  lemma FindOldLease()
    ensures Reach(Start, World(1, Reused, With(Pins3, 4, 2, Looking(GotStart(Owned(1, 1), 2, 10))), OldLease))
  {
    SecondFork();
    var w := Owned(1, 1);
    Approach(1, Reused, Pins3, OldLease, 4, 2);
    WorldShape(1, Reused, With(Pins3, 4, 2, Looking(Load)), OldLease);
    Advance(1, Reused, Pins3, 4, 2, Looking(Load), OldLease, false, Looking(GotWord(w, 2)), OldLease);
    Advance(1, Reused, Pins3, 4, 2, Looking(GotWord(w, 2)), OldLease, false, Looking(GotStart(w, 2, 10)), OldLease);
  }

  /** The grandchild itself finds the old lease under its own pid, with a foreign start time, and clears it. */
  lemma OldLeaseCleared()
    ensures Reach(Start, World(1, Reused, With(Pins3, 4, 2, Looking(Load)), Slot(Free, 10, 3)))
  {
    FindOldLease();
    var w := Owned(1, 1);
    WorldShape(1, Reused, With(Pins3, 4, 2, Looking(GotStart(w, 2, 10))), OldLease);
    Advance(1, Reused, Pins3, 4, 2, Looking(GotStart(w, 2, 10)), OldLease, false, Looking(Clear(w, 2)), OldLease);
    Advance(1, Reused, Pins3, 4, 2, Looking(Clear(w, 2)), OldLease, false, Looking(Load), Slot(Free, 10, 3));
  }

  /** Without the hypothesis on forks, pin safety fails as well. */
  lemma TagReuseLosesPin()
    ensures Init(Start) && exists u :: Reach(Start, u) && LostPin(u, 3)
  {
    StartIsInitial();
    OldLeaseCleared();
    UncoveredPinIsLost(1, Reused, With(Pins3, 4, 2, Looking(Load)), Slot(Free, 10, 3), 3);
  }

  // ----- a covered copy of an older generation

  /** The writer recycles the chunk and is idle again. */
  lemma RecycleFully(gen: nat, procs: map<nat, Proc>, ops: map<nat, Op>, slot: Slot)
    requires Sane(procs, ops) && slot.word.Free? && Reach(Start, World(gen, procs, ops, slot))
    ensures Reach(Start, World(gen + 1, procs, ops, slot))
  {
    hide Reach;
    var s := World(gen, procs, ops, slot);
    WorldShape(gen, procs, ops, slot);
    EmptyAndScan(s);
    var e := SetChunk(s, 0, s.chunks[0].(state := Empty));
    ScanTwice(e);
    var f := SetChunk(e, 0, e.chunks[0].(gen := gen + 1));
    Extend(Start, SetWriter(e, Seal), WriterTick(false), SetWriter(e, BumpGen));
    Extend(Start, SetWriter(e, BumpGen), WriterTick(false), SetWriter(f, ResetUsed));
    ResetSteps(f, gen, procs, ops, slot);
  }

  lemma ResetTick(f: State, w: WriterPc, w': WriterPc)
    requires Shape(f) && |f.chunks| == 1 && f.writeChunk == 0 && f.chunks[0].used == 0
    requires f.chunks[0].minTs == TS_MIN_INIT && f.chunks[0].maxTs == TS_MAX_INIT
    requires || (w == ResetUsed && w' == ResetMin) || (w == ResetMin && w' == ResetMax)
             || (w == ResetMax && w' == StoreWriting)
    ensures Shape(SetWriter(f, w)) && WriterStep(SetWriter(f, w), false) == SetWriter(f, w')
  {
    assert f.chunks[0 := f.chunks[0]] == f.chunks;
  }

  lemma ReopenTick(f: State, g: State)
    requires Shape(f) && |f.chunks| == 1 && f.writeChunk == 0 && g == SetChunk(f, 0, f.chunks[0].(state := Writing))
    ensures Shape(SetWriter(f, StoreWriting)) && Shape(SetWriter(g, StoreWriteChunk))
    ensures WriterStep(SetWriter(f, StoreWriting), false) == SetWriter(g, StoreWriteChunk)
    ensures WriterStep(SetWriter(g, StoreWriteChunk), false) == SetWriter(g, Idle)
  {
  }

  lemma Ticked(s: State, u: State)
    requires Reach(Start, s) && Shape(s) && !s.writer.Scan? && WriterStep(s, false) == u
    ensures Reach(Start, u)
  {
    hide Reach;
    assert Can(s, WriterTick(false)) && Do(s, WriterTick(false)) == u;
    Extend(Start, s, WriterTick(false), u);
  }

  lemma ResetSteps(f: State, gen: nat, procs: map<nat, Proc>, ops: map<nat, Op>, slot: Slot)
    requires Shape(f) && f == State([OneChunk(Empty, gen + 1, slot)], procs, ops, 0, Idle)
    requires Reach(Start, SetWriter(f, ResetUsed))
    ensures Reach(Start, World(gen + 1, procs, ops, slot))
  {
    hide Reach, WriterStep;
    var w := World(gen + 1, procs, ops, slot);
    ResetTick(f, ResetUsed, ResetMin);
    Ticked(SetWriter(f, ResetUsed), SetWriter(f, ResetMin));
    ResetTick(f, ResetMin, ResetMax);
    Ticked(SetWriter(f, ResetMin), SetWriter(f, ResetMax));
    ResetTick(f, ResetMax, StoreWriting);
    Ticked(SetWriter(f, ResetMax), SetWriter(f, StoreWriting));
    assert SetChunk(f, 0, f.chunks[0].(state := Writing)) == w;
    ReopenTick(f, w);
    Ticked(SetWriter(f, StoreWriting), SetWriter(w, StoreWriteChunk));
    Ticked(SetWriter(w, StoreWriteChunk), SetWriter(w, Idle));
  }

  const Old1: map<nat, Proc> := map[0 := Proc(1, 0, true)]
  const Old2: map<nat, Proc> := map[0 := Proc(1, 0, true), 1 := Proc(2, 0, true)]
  const Old2Dead: map<nat, Proc> := map[0 := Proc(1, 0, false), 1 := Proc(2, 0, true)]

  /** Process 1, its start time unknown, pins generation 1 and forks process 2. */
  lemma OldPin()
    ensures Reach(Start, World(1, Old2, Pins2, Slot(Owned(1, 1), 0, 2)))
  {
    hide Reach;
    var free := Slot(Free, 0, 0);
    ReachSelf(Start);
    WorldShape(1, map[], map[], free);
    assert map[][0 := Proc(1, 0, true)] == Old1;
    Extend(Start, Start, Spawn(0, 1, 0), World(1, Old1, map[], free));
    PinFree(1, Old1, map[], free, 1, 0);
    ForkOne(1, Old1, Pins1, Slot(Owned(1, 1), 0, 2), 0, 1, 2, 0, 1, 2);
    assert Old1[1 := Proc(2, 0, true)] == Old2;
  }

  const Inherited2: map<nat, Op> := With(map[], 2, 1, MyPin())

  /** Process 1 drops its pin and the writer recycles the chunk. */
  lemma OldRecycled()
    ensures Reach(Start, World(2, Old2, Inherited2, Slot(Free, 0, 3)))
  {
    hide Reach;
    OldPin();
    assert Pins2 == With(Inherited2, 1, 0, MyPin());
    DropPin(1, Old2, Inherited2, Slot(Owned(1, 1), 0, 2), 1, 0);
    RecycleFully(1, Old2, Inherited2, Slot(Free, 0, 3));
  }

  const OldOps: map<nat, Op> := With(Inherited2, 4, 0, CheckState(MyGoal(2), 0))
  const OldSlot: Slot := Slot(Owned(1, 1), 0, 5)

  /** Process 1 takes the slot again, in generation 2, and dies before it checks the chunk. */
  lemma OldTaken()
    ensures Reach(Start, World(2, Old2Dead, OldOps, OldSlot))
  {
    hide Reach;
    OldRecycled();
    Approach(2, Old2, Inherited2, Slot(Free, 0, 3), 4, 0);
    ClaimFree(2, Old2, Inherited2, Slot(Free, 0, 3), 4, 0);
    ConfirmFree(2, Old2, Inherited2, 4, 4, 0);
    WorldShape(2, Old2, OldOps, OldSlot);
    assert Old2[0 := Proc(1, 0, false)] == Old2Dead;
    Extend(Start, World(2, Old2, OldOps, OldSlot), Die(0), World(2, Old2Dead, OldOps, OldSlot));
  }

  const OldState: State := World(2, Old2Dead, OldOps, OldSlot)
  const OldFork: Step := Fork(1, 2, 1, 0, map[3 := 2])

  lemma OldStateOk()
    ensures Inv(OldState) && Can(OldState, OldFork)
  {
    var s := OldState;
    WorldShape(2, Old2Dead, OldOps, OldSlot);
    assert forall c, i :: Holders(s, c, i) == {};
    assert forall o :: Live(s, o) ==> o == 2;
    assert OpOk(s, 2);
  }

  lemma OldCopies(c: nat, i: nat)
    requires c < |OldState.chunks| && i < SLOTS
    ensures |OldState.chunks[c].slots| == SLOTS && CopiesCovered(OldState, OldFork, c, i)
  {
    if i == 0 {
      assert TaggedCopies(OldState, OldFork, c, i) == {3};
    } else {
      assert TaggedCopies(OldState, OldFork, c, i) == {};
    }
  }

  /**
   Covering is not enough. Process 1, its start time unknown, pins generation 1, forks process 2, drops the
   pin and, after a recycle, dies holding the same slot again. A child of process 2 that gets pid 1 finds
   every inherited pin covered, the accounting stays intact, and it reads a pin of a generation that is gone.
   */
  lemma OldGenerationLosesPin()
    ensures Reach(Start, OldState) && Inv(OldState) && OldFork.Fork? && Can(OldState, OldFork)
    ensures forall c, i :: 0 <= c < |OldState.chunks| && 0 <= i < SLOTS ==>
              |OldState.chunks[c].slots| == SLOTS && CopiesCovered(OldState, OldFork, c, i)
    ensures LeasesIntact(Do(OldState, OldFork)) && LostPin(Do(OldState, OldFork), 3)
  {
    OldTaken();
    OldStateOk();
    hide Inv, Can, CopiesCovered, LeasesIntact, Reach;
    forall c, i | 0 <= c < |OldState.chunks| && 0 <= i < SLOTS
      ensures |OldState.chunks[c].slots| == SLOTS && CopiesCovered(OldState, OldFork, c, i)
    {
      OldCopies(c, i);
    }
    ForkAccounting(OldState, OldFork);
    assert Do(OldState, OldFork).ops[3] == Op(2, 0, MyPin());
  }
}
