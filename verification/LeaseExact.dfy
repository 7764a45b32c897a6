/** When pids are never used twice, the recorded references equal the outstanding pins. */
module LeaseExact {
  import opened Lease
  import opened LeaseInv
  import opened LeaseSteps
  import opened LeaseFork
  import opened LeaseWorld
  import opened LeaseSafety

  ghost predicate SlotExact(s: State, c: nat, i: nat)
    requires c < |s.chunks| && i < |s.chunks[c].slots|
  {
    var w := SlotAt(s, c, i).word;
    w.Owned? && LivePid(s, w.pid) ==> w.refs == |Holders(s, c, i)|
  }

  ghost predicate WordKnown(s: State, c: nat, i: nat)
    requires c < |s.chunks| && i < |s.chunks[c].slots|
  {
    var w := SlotAt(s, c, i).word;
    w.Owned? ==> exists p :: p in s.procs && s.procs[p].pid == w.pid
  }

  /** Every process ever started has its own pid, every recorded pid is one of theirs, and counts are exact. */
  ghost predicate Exact(s: State)
  {
    && Shape(s)
    && (forall p, q :: p in s.procs && q in s.procs && s.procs[p].pid == s.procs[q].pid ==> p == q)
    && (forall c, i :: 0 <= c < |s.chunks| && 0 <= i < SLOTS ==> WordKnown(s, c, i) && SlotExact(s, c, i))
  }

  /** The step starts no process under a pid that was used before. */
  predicate NewPid(s: State, step: Step)
  {
    match step
    case Spawn(_, pid, _) => forall p :: p in s.procs ==> s.procs[p].pid != pid
    case Fork(_, _, pid, _, _) => forall p :: p in s.procs ==> s.procs[p].pid != pid
    case _ => true
  }

  lemma SlotFrame(s: State, s': State, c: nat, i: nat)
    requires Exact(s) && Shape(s') && c < |s.chunks| == |s'.chunks| && i < SLOTS
    requires SlotAt(s', c, i).word == SlotAt(s, c, i).word && s'.procs == s.procs
    requires Holders(s', c, i) == Holders(s, c, i)
    ensures WordKnown(s', c, i) && SlotExact(s', c, i)
  {
    assert WordKnown(s, c, i) && SlotExact(s, c, i);
    assert forall pid :: LivePid(s', pid) == LivePid(s, pid);
  }

  /** Steps that move no holder and no word. */
  lemma LocalExact(s: State, s': State, o: nat)
    requires Exact(s) && Shape(s') && OnlyOp(s, s', o) && |s'.chunks| == |s.chunks|
    requires forall c, i :: 0 <= c < |s.chunks| && 0 <= i < SLOTS ==> SlotAt(s', c, i).word == SlotAt(s, c, i).word
    requires forall c, i :: HoldsAt(s', o, c, i) <==> HoldsAt(s, o, c, i)
    ensures Exact(s')
  {
    forall c, i | 0 <= c < |s.chunks| && 0 <= i < SLOTS
      ensures WordKnown(s', c, i) && SlotExact(s', c, i)
    {
      SameHolders(s, s', o, c, i);
      SlotFrame(s, s', c, i);
    }
  }

  /** Steps of o that store a word at its own slot. */
  lemma WordExact(s: State, s': State, o: nat, c: nat, i: nat, w: Word)
    requires Exact(s) && Shape(s') && OnlyOp(s, s', o) && At(s, o, c, i) && c < |s.chunks| && i < SLOTS
    requires s'.chunks == SetWord(s, c, i, w).chunks
    requires o in s'.ops && Holding(s'.ops[o].pc, PidOf(s', o)) ==> SlotOf(s'.ops[o].pc) == i
    requires w.Owned? ==> w.pid == PidOf(s, o) && w.refs == |Holders(s', c, i)|
    ensures Exact(s')
  {
    forall d, j | 0 <= d < |s.chunks| && 0 <= j < SLOTS
      ensures WordKnown(s', d, j) && SlotExact(s', d, j)
    {
      if d != c || j != i {
        SameHolders(s, s', o, d, j);
        SlotFrame(s, s', d, j);
      } else if w.Owned? {
        assert s'.procs[s.ops[o].proc].pid == w.pid;
      }
    }
  }

  // ----- reader steps

  lemma ClaimExact(s: State, o: nat)
    requires Exact(s) && Live(s, o) && s.ops[o].pc.Inspect? && s.ops[o].pc.look.TryClaim?
    requires SlotAt(s, s.ops[o].chunk, s.ops[o].pc.slot).word.Free?
    requires Holders(s, s.ops[o].chunk, s.ops[o].pc.slot) == {} && Shape(InspectStep(s, o, false))
    ensures Exact(InspectStep(s, o, false))
  {
    var Op(p, c, Inspect(goal, start, i, look)) := s.ops[o];
    var s' := InspectStep(s, o, false);
    SameHolders(s, s', o, c, i);
    WordExact(s, s', o, c, i, Owned(PidOf(s, o), 0));
  }

  lemma ClearExact(s: State, o: nat)
    requires Exact(s) && Live(s, o) && s.ops[o].pc.Inspect? && s.ops[o].pc.look.Clear?
    requires SlotAt(s, s.ops[o].chunk, s.ops[o].pc.slot).word == s.ops[o].pc.look.w && Shape(InspectStep(s, o, false))
    ensures Exact(InspectStep(s, o, false))
  {
    WordExact(s, InspectStep(s, o, false), o, s.ops[o].chunk, s.ops[o].pc.slot, Free);
  }

  /** Taking one more reference on a word of this pid, from either compare-exchange. */
  lemma TakeExact(s: State, s': State, o: nat, c: nat, i: nat, refs: nat)
    requires Exact(s) && Shape(s') && OnlyOp(s, s', o) && At(s, o, c, i) && c < |s.chunks| && i < SLOTS
    requires SlotAt(s, c, i).word == Owned(PidOf(s, o), refs)
    requires s'.chunks == SetWord(s, c, i, Owned(PidOf(s, o), refs + 1)).chunks
    requires !HoldsAt(s, o, c, i) && HoldsAt(s', o, c, i)
    ensures Exact(s')
  {
    assert SlotExact(s, c, i) && LivePid(s, PidOf(s, o));
    HoldersFrame(s, s', o, c, i);
    WordExact(s, s', o, c, i, Owned(PidOf(s, o), refs + 1));
  }

  lemma GiveExact(s: State, s': State, o: nat, c: nat, i: nat, w: Word)
    requires Exact(s) && Shape(s') && OnlyOp(s, s', o) && HoldsAt(s, o, c, i) && c < |s.chunks| && i < SLOTS
    requires w.Owned? && w.refs > 0 && w.pid == PidOf(s, o) && SlotAt(s, c, i).word == w
    requires s'.chunks == SetWord(s, c, i, OneLess(w)).chunks
    requires o in s'.ops ==> !Holding(s'.ops[o].pc, PidOf(s', o))
    ensures Exact(s')
  {
    assert SlotExact(s, c, i) && LivePid(s, PidOf(s, o));
    HoldersFrame(s, s', o, c, i);
    assert o in Holders(s, c, i);
    WordExact(s, s', o, c, i, OneLess(w));
  }

  /** The inspections that neither claim, clear nor take. */
  lemma LookExact(s: State, o: nat, dead: bool)
    requires Exact(s) && Live(s, o) && s.ops[o].pc.Inspect? && Shape(InspectStep(s, o, dead))
    requires InspectStep(s, o, dead).chunks == s.chunks
    ensures Exact(InspectStep(s, o, dead))
  {
    InspectFrame(s, o, dead);
    LocalExact(s, InspectStep(s, o, dead), o);
  }

  lemma BumpExact(s: State, o: nat, dead: bool)
    requires Exact(s) && Live(s, o) && s.ops[o].pc.Inspect? && Shape(InspectStep(s, o, dead))
    requires OpOk(s, o) && SlotOk(s, s.ops[o].chunk, s.ops[o].pc.slot)
    requires s.ops[o].pc.look.Bump? && SlotAt(s, s.ops[o].chunk, s.ops[o].pc.slot).word == s.ops[o].pc.look.w
    ensures Exact(InspectStep(s, o, dead))
  {
    var Op(p, c, Inspect(goal, start, i, look)) := s.ops[o];
    TakeExact(s, InspectStep(s, o, dead), o, c, i, look.w.refs);
  }

  lemma InspectExact(s: State, o: nat, dead: bool)
    requires Exact(s) && Live(s, o) && s.ops[o].pc.Inspect? && Shape(InspectStep(s, o, dead))
    requires OpOk(s, o) && SlotOk(s, s.ops[o].chunk, s.ops[o].pc.slot)
    ensures Exact(InspectStep(s, o, dead))
  {
    var Op(p, c, Inspect(goal, start, i, look)) := s.ops[o];
    var slot := SlotAt(s, c, i);
    if look.TryClaim? && slot.word.Free? {
      ClaimExact(s, o);
    } else if look.Clear? && slot.word == look.w {
      ClearExact(s, o);
    } else if look.Bump? && slot.word == look.w {
      BumpExact(s, o, dead);
    } else {
      LookExact(s, o, dead);
    }
  }

  lemma ReleaseExact(s: State, o: nat)
    requires Exact(s) && Live(s, o) && s.ops[o].pc.ReleaseCas? && Shape(OpStep(s, o, false, 0)) && OpOk(s, o)
    ensures Exact(OpStep(s, o, false, 0))
  {
    var Op(p, c, ReleaseCas(after, i, w)) := s.ops[o];
    var s' := OpStep(s, o, false, 0);
    TickFrame(s, o, false, 0);
    if SlotAt(s, c, i).word == w {
      GiveExact(s, s', o, c, i, w);
    } else {
      LocalExact(s, s', o);
    }
  }

  lemma QuietWords(s: State, o: nat, start: nat)
    requires Shape(s) && Live(s, o) && !s.ops[o].pc.Inspect? && !s.ops[o].pc.Confirm? && !s.ops[o].pc.ReleaseCas?
    requires Shape(OpStep(s, o, false, start)) && |OpStep(s, o, false, start).chunks| == |s.chunks|
    ensures forall c, i :: 0 <= c < |s.chunks| && 0 <= i < SLOTS ==>
              SlotAt(OpStep(s, o, false, start), c, i).word == SlotAt(s, c, i).word
  {
    if !s.ops[o].pc.Claimed? {
      assert OpStep(s, o, false, start).chunks == s.chunks;
    }
  }

  lemma QuietTickExact(s: State, o: nat, start: nat)
    requires Exact(s) && Live(s, o) && Shape(OpStep(s, o, false, start))
    requires !s.ops[o].pc.Inspect? && !s.ops[o].pc.Confirm? && !s.ops[o].pc.ReleaseCas?
    requires s.ops[o].pc.ReleaseLoad? ==> OwnWord(SlotAt(s, s.ops[o].chunk, s.ops[o].pc.slot).word, PidOf(s, o))
    ensures Exact(OpStep(s, o, false, start))
  {
    var s' := OpStep(s, o, false, start);
    TickFrame(s, o, false, start);
    QuietWords(s, o, start);
    hide Exact;
    LocalExact(s, s', o);
  }

  lemma TickExact(s: State, o: nat, dead: bool, start: nat)
    requires Inv(s) && Exact(s) && Can(s, Tick(o, dead, start)) && Shape(OpStep(s, o, dead, start))
    ensures Exact(OpStep(s, o, dead, start))
  {
    assert OpOk(s, o) && SlotOk(s, s.ops[o].chunk, SlotOf(s.ops[o].pc));
    if s.ops[o].pc.Inspect? {
      InspectExact(s, o, dead);
    } else if s.ops[o].pc.Confirm? {
      TakeExact(s, OpStep(s, o, dead, start), o, s.ops[o].chunk, s.ops[o].pc.slot, 0);
    } else if s.ops[o].pc.ReleaseCas? {
      ReleaseExact(s, o);
    } else {
      if s.ops[o].pc.ReleaseLoad? {
        ReleaseLoadKeeps(s, o);
      }
      QuietTickExact(s, o, start);
    }
  }

  // ----- processes and writer

  lemma HoldersOfOthers(s: State, s': State, c: nat, i: nat)
    requires Inv(s) && Inv(s') && s'.chunks == s.chunks && c < |s.chunks| && i < SLOTS
    requires forall x :: x in s'.ops && Live(s', x) ==> Persists(s, s', x) || Arrives(s', x)
    requires forall x :: x in Holders(s, c, i) ==> Persists(s, s', x)
    ensures Holders(s', c, i) == Holders(s, c, i)
  {
    FewerHolders(s, s', c, i);
    assert forall x :: x in Holders(s, c, i) ==> x in Holders(s', c, i);
  }

  lemma DeadHoldsNothing(s: State, p: nat, c: nat, i: nat)
    requires Inv(s) && Exact(s) && p in s.procs && c < |s.chunks| && i < SLOTS && SlotAt(s, c, i).word.Owned?
    requires LivePid(Do(s, Die(p)), SlotAt(s, c, i).word.pid)
    ensures LivePid(s, SlotAt(s, c, i).word.pid)
    ensures forall x :: x in Holders(s, c, i) ==> Persists(s, Do(s, Die(p)), x)
  {
    var w := SlotAt(s, c, i).word;
    assert SlotOk(s, c, i);
    var q :| q in s.procs && q != p && s.procs[q].live && s.procs[q].pid == w.pid;
    assert forall x :: x in Holders(s, c, i) ==> s.ops[x].proc == q;
  }

  lemma DieSlot(s: State, p: nat, c: nat, i: nat)
    requires Inv(s) && Exact(s) && p in s.procs && Inv(Do(s, Die(p))) && c < |s.chunks| && i < SLOTS
    ensures WordKnown(Do(s, Die(p)), c, i) && SlotExact(Do(s, Die(p)), c, i)
  {
    var s' := Do(s, Die(p));
    assert forall x :: x in s'.ops && Live(s', x) ==> Persists(s, s', x);
    assert WordKnown(s, c, i) && SlotExact(s, c, i);
    hide Inv, Exact;
    var w := SlotAt(s, c, i).word;
    if w.Owned? {
      var q :| q in s.procs && s.procs[q].pid == w.pid;
      assert s'.procs[q].pid == w.pid;
      if LivePid(s', w.pid) {
        DeadHoldsNothing(s, p, c, i);
        HoldersOfOthers(s, s', c, i);
      }
    }
  }

  lemma DieExact(s: State, p: nat)
    requires Inv(s) && Exact(s) && p in s.procs
    ensures Exact(Do(s, Die(p)))
  {
    DieKeeps(s, p);
    forall c, i | 0 <= c < |s.chunks| && 0 <= i < SLOTS
      ensures WordKnown(Do(s, Die(p)), c, i) && SlotExact(Do(s, Die(p)), c, i)
    {
      DieSlot(s, p, c, i);
    }
  }

  /** A process that starts under a new pid owns no recorded word yet. */
  lemma StartExact(s: State, s': State, q: nat, pid: nat, start: nat)
    requires Inv(s) && Exact(s) && Inv(s') && s'.chunks == s.chunks && q !in s.procs
    requires s'.procs == s.procs[q := Proc(pid, start, true)]
    requires forall p :: p in s.procs ==> s.procs[p].pid != pid
    requires forall x :: x in s'.ops && Live(s', x) ==> Persists(s, s', x) || Arrives(s', x)
    requires forall x :: Live(s, x) ==> Persists(s, s', x)
    ensures Exact(s')
  {
    forall c, i | 0 <= c < |s.chunks| && 0 <= i < SLOTS
      ensures WordKnown(s', c, i) && SlotExact(s', c, i)
    {
      assert WordKnown(s, c, i) && SlotExact(s, c, i);
      HoldersOfOthers(s, s', c, i);
      var w := SlotAt(s, c, i).word;
      if w.Owned? {
        var r :| r in s.procs && s.procs[r].pid == w.pid;
        assert s'.procs[r].pid == w.pid;
        if LivePid(s', w.pid) {
          assert LivePid(s, w.pid);
        }
      }
    }
  }

  /** A slot that covers a tagged copy records the child's pid, so some process had it before. */
  lemma TagIsKnown(s: State, step: Step, n: nat)
    requires Inv(s) && Exact(s) && step.Fork? && Can(s, step) && HarmlessFork(s, step)
    requires n in step.copies && step.copies[n] in s.ops
    requires s.ops[step.copies[n]].pc.Pinned? && s.ops[step.copies[n]].pc.tag == Owner(step.pid)
    ensures exists p :: p in s.procs && s.procs[p].pid == step.pid
  {
    var op := s.ops[step.copies[n]];
    assert OpShape(s, op);
    assert n in TaggedCopies(s, step, op.chunk, op.pc.slot);
    assert SlotInherits(s, step, op.chunk, op.pc.slot) && WordKnown(s, op.chunk, op.pc.slot);
  }

  /** A harmless fork under a new pid tags nothing. */
  lemma NewPidUntagged(s: State, step: Step)
    requires Inv(s) && Exact(s) && step.Fork? && Can(s, step) && HarmlessFork(s, step) && NewPid(s, step)
    ensures !TagReuse(s, step)
  {
    if n :| n in step.copies && step.copies[n] in s.ops
            && s.ops[step.copies[n]].pc.Pinned? && s.ops[step.copies[n]].pc.tag == Owner(step.pid) {
      TagIsKnown(s, step, n);
    }
  }

  lemma ForkExact(s: State, step: Step)
    requires Inv(s) && Exact(s) && step.Fork? && Can(s, step) && Benign(s, step) && NewPid(s, step)
    ensures Exact(Do(s, step))
  {
    var s' := Do(s, step);
    NewPidUntagged(s, step);
    ForkKeeps(s, step);
    forall x | x in s'.ops && Live(s', x)
      ensures Persists(s, s', x) || Arrives(s', x)
    {
      ForkOp(s, step, x);
    }
    StartExact(s, s', step.q, step.pid, step.start);
  }

  lemma WriterExact(s: State, dead: bool)
    requires Exact(s) && Shape(WriterStep(s, dead))
    ensures Exact(WriterStep(s, dead))
  {
    var s' := WriterStep(s, dead);
    WriterFrame(s, dead);
    forall c, i | 0 <= c < |s.chunks| && 0 <= i < SLOTS
      ensures WordKnown(s', c, i) && SlotExact(s', c, i)
    {
      SameOps(s, s', c, i);
      WriterWord(s, dead, c, i);
      if SlotAt(s', c, i).word == SlotAt(s, c, i).word {
        SlotFrame(s, s', c, i);
      }
    }
  }

  lemma ScanWord(s: State, dead: bool, c: nat, i: nat)
    requires Shape(s) && s.writer.Scan? && Shape(ScanStep(s, dead)) && |ScanStep(s, dead).chunks| == |s.chunks|
    requires c < |s.chunks| && i < SLOTS
    ensures SlotAt(ScanStep(s, dead), c, i).word == SlotAt(s, c, i).word || SlotAt(ScanStep(s, dead), c, i).word.Free?
  {
    assert || ScanStep(s, dead).chunks == s.chunks
           || ScanStep(s, dead).chunks == SetWord(s, Target(s), s.writer.slot, Free).chunks;
  }

  lemma WriterWord(s: State, dead: bool, c: nat, i: nat)
    requires Shape(s) && Shape(WriterStep(s, dead)) && |WriterStep(s, dead).chunks| == |s.chunks|
    requires c < |s.chunks| && i < SLOTS
    ensures || SlotAt(WriterStep(s, dead), c, i).word == SlotAt(s, c, i).word
            || SlotAt(WriterStep(s, dead), c, i).word.Free?
  {
    if s.writer.Scan? {
      assert WriterStep(s, dead) == ScanStep(s, dead);
      hide WriterStep, ScanStep;
      ScanWord(s, dead, c, i);
    } else {
      hide WriterStep;
      HeaderStepsKeepSlots(s, dead, c);
    }
  }

  lemma StepExact(s: State, step: Step)
    requires Inv(s) && Exact(s) && Can(s, step) && Benign(s, step) && NewPid(s, step)
    ensures Exact(Do(s, step))
  {
    StepKeeps(s, step);
    match step
    case Spawn(q, pid, start) => StartExact(s, Do(s, step), q, pid, start);
    case Die(p) => DieExact(s, p);
    case Fork(_, _, _, _, _) => ForkExact(s, step);
    case Tick(o, dead, start) => TickExact(s, o, dead, start);
    case WriterTick(dead) => WriterExact(s, dead);
    case BeginPin(o, _, _) => PinExact(s, step, o);
    case BeginRange(o, _, _) => PinExact(s, step, o);
    case StartAdopt(o, _) => PinExact(s, step, o);
    case Drop(o) => PinExact(s, step, o);
    case _ => WriteExact(s, step);
  }

  lemma PinExact(s: State, step: Step, o: nat)
    requires Exact(s) && Can(s, step) && Shape(Do(s, step))
    requires step.BeginPin? || step.BeginRange? || step.StartAdopt? || step.Drop?
    requires Touches(step, o)
    ensures Exact(Do(s, step))
  {
    var s' := Do(s, step);
    assert s'.chunks == s.chunks && OnlyOp(s, s', o);
    assert forall c, i :: HoldsAt(s', o, c, i) <==> HoldsAt(s, o, c, i);
    LocalExact(s, s', o);
  }

  lemma WriteExact(s: State, step: Step)
    requires Exact(s) && Can(s, step) && Shape(Do(s, step))
    requires (step.Scribble? || step.BeginCommit? || step.BeginAdvance?)
    ensures Exact(Do(s, step))
  {
    var s' := Do(s, step);
    assert s'.ops == s.ops && s'.procs == s.procs;
    LocalExact(s, s', 0);
  }

  lemma InitExact(s: State)
    requires Init(s)
    ensures Exact(s)
  {
  }

  lemma {:induction false} RunExact(states: seq<State>, steps: seq<Step>, k: nat)
    requires GoodRun(states, steps) && k < |states|
    requires forall m :: 0 <= m < |steps| ==> NewPid(states[m], steps[m])
    ensures Exact(states[k])
  {
    if k == 0 {
      InitExact(states[0]);
    } else {
      hide Inv, Exact, Can, Do, Init, NewPid;
      RunExact(states, steps, k - 1);
      RunHolds(states, steps, k - 1);
      StepExact(states[k - 1], steps[k - 1]);
    }
  }

  /** In runs that never reuse a pid, a live owner's recorded references are exactly its outstanding pins. */
  lemma ExactAccounting(states: seq<State>, steps: seq<Step>, k: nat, p: nat, c: nat, i: nat)
    requires GoodRun(states, steps) && k < |states|
    requires forall m :: 0 <= m < |steps| ==> NewPid(states[m], steps[m])
    requires p in states[k].procs && states[k].procs[p].live && c < |states[k].chunks| && i < SLOTS
    requires |states[k].chunks[c].slots| == SLOTS
    requires SlotAt(states[k], c, i).word.Owned? && SlotAt(states[k], c, i).word.pid == states[k].procs[p].pid
    ensures SlotAt(states[k], c, i).word.refs == |PinsOf(states[k], p, c, i)|
  {
    RunExact(states, steps, k);
    RunHolds(states, steps, k);
    var s := states[k];
    assert SlotExact(s, c, i) && SlotOk(s, c, i) && LivePid(s, s.procs[p].pid);
    assert forall o :: o in Holders(s, c, i) ==> s.ops[o].proc == p;
    assert Holders(s, c, i) == PinsOf(s, p, c, i);
  }

  // ----- claims in progress

  /** A recorded claim of a live process has its claimant. */
  ghost predicate ClaimMade(s: State, c: nat, i: nat)
    requires c < |s.chunks| && i < |s.chunks[c].slots|
  {
    var w := SlotAt(s, c, i).word;
    w.Owned? && w.refs == 0 && LivePid(s, w.pid) ==> exists o :: o in s.ops && ClaimsAt(s, o, c, i)
  }

  ghost predicate ClaimsMade(s: State)
  {
    Shape(s) && forall c, i :: 0 <= c < |s.chunks| && 0 <= i < SLOTS ==> ClaimMade(s, c, i)
  }

  predicate NoNewClaim(w: Word, w': Word)
  {
    w' == w || w'.Free? || w'.refs > 0
  }

  lemma InspectClaims(s: State, o: nat, dead: bool, c: nat, i: nat)
    requires Shape(s) && Live(s, o) && s.ops[o].pc.Inspect? && c < |s.chunks| && i < SLOTS
    requires Shape(InspectStep(s, o, dead)) && |InspectStep(s, o, dead).chunks| == |s.chunks|
    ensures NoNewClaim(SlotAt(s, c, i).word, SlotAt(InspectStep(s, o, dead), c, i).word)
            || ClaimsAt(InspectStep(s, o, dead), o, c, i)
  {
  }

  lemma TickClaims(s: State, o: nat, dead: bool, start: nat, c: nat, i: nat)
    requires Shape(s) && Live(s, o) && !s.ops[o].pc.Inspect? && c < |s.chunks| && i < SLOTS
    requires Shape(OpStep(s, o, dead, start)) && |OpStep(s, o, dead, start).chunks| == |s.chunks|
    ensures NoNewClaim(SlotAt(s, c, i).word, SlotAt(OpStep(s, o, dead, start), c, i).word)
  {
  }

  /** Only a successful claim records a claim, and it leaves its claimant. */
  lemma NewClaim(s: State, step: Step, c: nat, i: nat)
    requires Inv(s) && Can(s, step) && Shape(Do(s, step)) && |Do(s, step).chunks| == |s.chunks| && c < |s.chunks|
    requires i < SLOTS
    ensures || NoNewClaim(SlotAt(s, c, i).word, SlotAt(Do(s, step), c, i).word)
            || (exists o :: o in Do(s, step).ops && ClaimsAt(Do(s, step), o, c, i))
  {
    match step
    case Tick(o, dead, start) =>
      if s.ops[o].pc.Inspect? {
        InspectClaims(s, o, dead, c, i);
      } else {
        TickClaims(s, o, dead, start, c, i);
      }
    case WriterTick(dead) => WriterWord(s, dead, c, i);
    case _ =>
  }

  /** A claimant stays until its word moves or its process is gone. */
  lemma ClaimantStays(s: State, step: Step, o: nat, c: nat, i: nat)
    requires Inv(s) && Can(s, step) && Shape(Do(s, step)) && |Do(s, step).chunks| == |s.chunks| && c < |s.chunks|
    requires i < SLOTS
    requires o in s.ops && ClaimsAt(s, o, c, i) && SlotAt(Do(s, step), c, i).word == SlotAt(s, c, i).word
    requires SlotAt(s, c, i).word.Owned? && LivePid(Do(s, step), SlotAt(s, c, i).word.pid)
    ensures ClaimsAt(Do(s, step), o, c, i)
  {
    StepFrame(s, step, o);
    assert OpOk(s, o) && UniquePids(s);
    if !Touches(step, o) {
      OtherLives(s, step, o);
    }
  }

  lemma OtherLives(s: State, step: Step, o: nat)
    requires Inv(s) && Can(s, step) && Live(s, o) && !Touches(step, o) && o in Do(s, step).ops
    requires Do(s, step).ops[o] == s.ops[o]
    requires LivePid(Do(s, step), PidOf(s, o))
    ensures Live(Do(s, step), o) && PidOf(Do(s, step), o) == PidOf(s, o)
  {
    match step
    case Tick(x, dead, start) => TickFrame(s, x, dead, start);
    case WriterTick(dead) => WriterFrame(s, dead);
    case Die(p) => assert UniquePids(s);
    case _ =>
  }

  lemma KnownPidLives(s: State, step: Step, c: nat, i: nat)
    requires Inv(s) && Exact(s) && Can(s, step) && NewPid(s, step) && c < |s.chunks| && i < SLOTS
    requires SlotAt(s, c, i).word.Owned? && LivePid(Do(s, step), SlotAt(s, c, i).word.pid)
    ensures LivePid(s, SlotAt(s, c, i).word.pid)
  {
    assert WordKnown(s, c, i);
    match step
    case Tick(x, dead, start) => TickFrame(s, x, dead, start);
    case WriterTick(dead) => WriterFrame(s, dead);
    case _ =>
  }

  lemma ClaimMadeStep(s: State, step: Step, c: nat, i: nat)
    requires Inv(s) && Exact(s) && ClaimsMade(s) && Can(s, step) && NewPid(s, step)
    requires Shape(Do(s, step)) && |Do(s, step).chunks| == |s.chunks| && c < |s.chunks| && i < SLOTS
    ensures ClaimMade(Do(s, step), c, i)
  {
    NewClaim(s, step, c, i);
    hide Inv, Exact, Do, Can, NewPid;
    var w, w' := SlotAt(s, c, i).word, SlotAt(Do(s, step), c, i).word;
    if w' == w && w.Owned? && w.refs == 0 && LivePid(Do(s, step), w.pid) {
      KnownPidLives(s, step, c, i);
      assert ClaimMade(s, c, i);
      var o :| o in s.ops && ClaimsAt(s, o, c, i);
      ClaimantStays(s, step, o, c, i);
    }
  }

  lemma {:induction false} RunClaimsMade(states: seq<State>, steps: seq<Step>, k: nat)
    requires GoodRun(states, steps) && k < |states|
    requires forall m :: 0 <= m < |steps| ==> NewPid(states[m], steps[m])
    ensures ClaimsMade(states[k])
    decreases k
  {
    RunHolds(states, steps, k);
    if k > 0 {
      hide Inv, Exact, Do, Can, Init;
      RunClaimsMade(states, steps, k - 1);
      RunExact(states, steps, k - 1);
      RunHolds(states, steps, k - 1);
      LengthStep(states, steps, k - 1);
      InvShape(states[k]);
      forall c, i | 0 <= c < |states[k].chunks| && 0 <= i < SLOTS
        ensures ClaimMade(states[k], c, i)
      {
        ClaimMadeStep(states[k - 1], steps[k - 1], c, i);
      }
    }
  }
}
