/** The invariant across each step of a reader activity. */
module LeaseSteps {
  import opened Lease
  import opened LeaseInv
  import opened LeaseProof

  // ----- local moves

  /** Moving the program counter of o to a state that owes, claims and validates nothing new. */
  lemma MovePc(s: State, o: nat, pc: Pc)
    requires Inv(s) && Live(s, o) && SlotOf(pc) < SLOTS
    requires Holding(pc, PidOf(s, o)) <==> Holding(s.ops[o].pc, PidOf(s, o))
    requires Holding(pc, PidOf(s, o)) ==> SlotOf(pc) == SlotOf(s.ops[o].pc)
    requires !pc.Claimed? && !pc.Confirm?
    requires Validated(pc, PidOf(s, o)) ==>
               Validated(s.ops[o].pc, PidOf(s, o)) || !s.chunks[s.ops[o].chunk].state.Empty?
    requires pc.Inspect? ==> !pc.look.Clear?
    requires PcOk(s, s.ops[o].(pc := pc))
    requires PinSnap(pc).Some? ==>
               && SnapOk(s.chunks[s.ops[o].chunk], PinSnap(pc).snap)
               && (PinSnap(s.ops[o].pc) == PinSnap(pc) || Validated(s.ops[o].pc, PidOf(s, o)))
    ensures Inv(SetPc(s, o, pc))
  {
    var s' := SetPc(s, o, pc);
    LocalStep(s, s', o);
  }

  /** As MovePc, for a verdict that the remembered word may be cleared. */
  lemma MoveToClear(s: State, o: nat, w: Word, v: nat)
    requires Inv(s) && Live(s, o) && s.ops[o].pc.Inspect?
    requires LookOk(s, s.ops[o].chunk, s.ops[o].pc.slot, Clear(w, v))
    ensures Inv(SetPc(s, o, s.ops[o].pc.(look := Clear(w, v))))
  {
    var pc := s.ops[o].pc.(look := Clear(w, v));
    var s' := SetPc(s, o, pc);
    assert OpOk(s, o);
    QuietElsewhere(s, s', o, s.ops[o].chunk, pc.slot);
    LocalStep(s, s', o);
  }

  lemma EndOpStep(s: State, o: nat)
    requires Inv(s) && Live(s, o) && !Holding(s.ops[o].pc, PidOf(s, o))
    ensures Inv(EndOp(s, o))
  {
    LocalStep(s, EndOp(s, o), o);
  }

  lemma GiveUpStep(s: State, o: nat, goal: Goal)
    requires Inv(s) && Live(s, o) && !Holding(s.ops[o].pc, PidOf(s, o))
    requires goal.Adopt? ==> SnapOk(s.chunks[s.ops[o].chunk], goal.snap) && PinSnap(s.ops[o].pc) == Some(goal.snap)
    ensures Inv(GiveUp(s, o, goal))
  {
    match goal
    case Fresh(_, _, _) => EndOpStep(s, o);
    case Adopt(snap) => MovePc(s, o, Pinned(Invalid, 0, snap));
  }

  lemma NextSlotStep(s: State, o: nat, goal: Goal, start: nat, i: nat)
    requires Inv(s) && Live(s, o) && !Holding(s.ops[o].pc, PidOf(s, o))
    requires start == 0 || start == s.procs[s.ops[o].proc].start
    requires goal.Adopt? ==> SnapOk(s.chunks[s.ops[o].chunk], goal.snap) && PinSnap(s.ops[o].pc) == Some(goal.snap)
    ensures Inv(NextSlot(s, o, goal, start, i))
  {
    if i + 1 < SLOTS {
      MovePc(s, o, Inspect(goal, start, i + 1, Load));
    } else {
      GiveUpStep(s, o, goal);
    }
  }

  // ----- verdicts

  /** A slot with live holders is recorded under a live pid, at a start time its owner accepts. */
  lemma HeldSlotIsLive(s: State, c: nat, i: nat)
    requires Inv(s) && c < |s.chunks| && i < SLOTS && Holders(s, c, i) != {}
    ensures SlotAt(s, c, i).word.Refs() > 0
    ensures exists p :: p in s.procs && s.procs[p].live && s.procs[p].pid == SlotAt(s, c, i).word.pid
                        && StartOk(SlotAt(s, c, i), s.procs[p])
  {
    assert SlotOk(s, c, i);
    var x :| x in Holders(s, c, i);
    assert Holders(s, c, i) >= {x};
    var p := s.ops[x].proc;
    assert p in s.procs && s.procs[p].live;
  }

  lemma ClaimedSlotIsLive(s: State, c: nat, i: nat)
    requires Inv(s) && c < |s.chunks| && i < SLOTS && !Unclaimed(s, c, i)
    ensures SlotAt(s, c, i).word.Owned? && SlotAt(s, c, i).word.refs == 0 && LivePid(s, SlotAt(s, c, i).word.pid)
  {
    var x :| x in s.ops && ClaimsAt(s, x, c, i);
    assert OpOk(s, x);
    var p := s.ops[x].proc;
    assert p in s.procs && s.procs[p].live;
  }

  /** An owner reported dead leaves no live holder and no live claimant behind an unchanged word. */
  lemma DeadOwnerHoldsNothing(s: State, c: nat, i: nat, w: Word, v: nat, rec: nat)
    requires Inv(s) && c < |s.chunks| && i < SLOTS
    requires LookOk(s, c, i, GotStart(w, v, rec)) && DeadOwner(s, w, rec)
    ensures LookOk(s, c, i, Clear(w, v))
  {
    if v == SlotAt(s, c, i).ver {
      if Holders(s, c, i) != {} {
        HeldSlotIsLive(s, c, i);
      }
      if !Unclaimed(s, c, i) {
        ClaimedSlotIsLive(s, c, i);
      }
    }
  }

  /** A slot recorded under this pid with another start time belongs to an earlier, dead instance. */
  lemma ForeignStartHoldsNothing(s: State, o: nat, c: nat, i: nat, w: Word, v: nat, rec: nat, start: nat)
    requires Inv(s) && Live(s, o) && c < |s.chunks| && i < SLOTS
    requires LookOk(s, c, i, GotStart(w, v, rec)) && w.refs > 0 && w.pid == PidOf(s, o)
    requires start == s.procs[s.ops[o].proc].start && rec != 0 && rec != start
    ensures LookOk(s, c, i, Clear(w, v))
  {
    if v == SlotAt(s, c, i).ver {
      if Holders(s, c, i) != {} {
        HeldSlotIsLive(s, c, i);
      }
      if !Unclaimed(s, c, i) {
        ClaimedSlotIsLive(s, c, i);
      }
    }
  }

  // ----- word changes

  /** A word nobody holds or claims may be replaced by one that grants nothing. */
  lemma EmptyWordFits(s: State, o: nat, c: nat, i: nat, w: Word)
    requires Inv(s) && c < |s.chunks| && i < SLOTS && w.Refs() == 0
    requires Unclaimed(s, c, i)
    ensures WordFits(s, o, c, i, w)
  {
  }

  lemma ClaimStep(s: State, o: nat)
    requires Inv(s) && Live(s, o) && s.ops[o].pc.Inspect? && s.ops[o].pc.look.TryClaim?
    ensures Inv(InspectStep(s, o, false))
  {
    var Op(p, c, Inspect(goal, start, i, _)) := s.ops[o];
    var s' := InspectStep(s, o, false);
    assert OpOk(s, o);
    if SlotAt(s, c, i).word.Free? {
      var w := Owned(s.procs[p].pid, 0);
      if Holders(s, c, i) != {} {
        HeldSlotIsLive(s, c, i);
      }
      if !Unclaimed(s, c, i) {
        ClaimedSlotIsLive(s, c, i);
      }
      SameHolders(s, s', o, c, i);
      EmptyWordFits(s, o, c, i, w);
      WordStep(s, s', o, c, i, w);
    } else {
      MovePc(s, o, Inspect(goal, start, i, Load));
    }
  }

  lemma ClearStep(s: State, o: nat)
    requires Inv(s) && Live(s, o) && s.ops[o].pc.Inspect? && s.ops[o].pc.look.Clear?
    requires HarmlessReclaim(s, Tick(o, false, 0))
    ensures Inv(InspectStep(s, o, false))
  {
    var Op(p, c, Inspect(goal, start, i, Clear(w, v))) := s.ops[o];
    var s' := InspectStep(s, o, false);
    assert OpOk(s, o);
    if SlotAt(s, c, i).word == w {
      SameHolders(s, s', o, c, i);
      EmptyWordFits(s, o, c, i, Free);
      WordStep(s, s', o, c, i, Free);
    } else {
      MovePc(s, o, Inspect(goal, start, i, Load));
    }
  }

  /** Activities that compare against a word of this pid belong to this process. */
  lemma OwnWordFits(s: State, o: nat, c: nat, i: nat, w: Word)
    requires Inv(s) && At(s, o, c, i) && c < |s.chunks| && i < SLOTS
    requires SlotAt(s, c, i).word.Refs() > 0 || ClaimsAt(s, o, c, i)
    requires w.Owned? ==> w.pid == PidOf(s, o)
    requires StartOk(SlotAt(s, c, i), s.procs[s.ops[o].proc])
    ensures WordFits(s, o, c, i, w)
  {
    forall x | x in s.ops && x != o && At(s, x, c, i)
      ensures !ClaimsAt(s, x, c, i)
      ensures s.ops[x].pc.Inspect? && OwnWord(w, PidOf(s, x))
              ==> StartOk(SlotAt(s, c, i), s.procs[s.ops[x].proc])
    {
      assert OpOk(s, x);
      if s.ops[x].pc.Inspect? && OwnWord(w, PidOf(s, x)) {
        assert s.ops[x].proc == s.ops[o].proc;
      }
    }
  }

  /** Accounting after o takes one more reference on a word of its own pid. */
  lemma TakeRef(s: State, s': State, o: nat, c: nat, i: nat, refs: nat)
    requires Inv(s) && Shape(s') && OnlyOp(s, s', o) && At(s, o, c, i) && c < |s.chunks| && i < SLOTS
    requires SlotAt(s, c, i).word == Owned(PidOf(s, o), refs)
    requires s'.chunks == SetWord(s, c, i, Owned(PidOf(s, o), refs + 1)).chunks
    requires StartOk(SlotAt(s, c, i), s.procs[s.ops[o].proc])
    requires HoldsAt(s', o, c, i)
    ensures SlotOk(s', c, i)
  {
    assert SlotOk(s, c, i);
    HoldersFrame(s, s', o, c, i);
  }

  /** Accounting after the holder o gives its reference back. */
  lemma GiveRef(s: State, s': State, o: nat, c: nat, i: nat, w: Word)
    requires Inv(s) && Shape(s') && OnlyOp(s, s', o) && HoldsAt(s, o, c, i) && c < |s.chunks| && i < SLOTS
    requires w.Owned? && w.refs > 0 && SlotAt(s, c, i).word == w
    requires s'.chunks == SetWord(s, c, i, OneLess(w)).chunks
    requires !HoldsAt(s', o, c, i)
    ensures SlotOk(s', c, i)
  {
    assert SlotOk(s, c, i);
    HoldersFrame(s, s', o, c, i);
    assert |Holders(s', c, i)| == |Holders(s, c, i)| - 1;
    assert w.refs == 1 ==> Holders(s', c, i) == {};
  }

  lemma BumpStep(s: State, o: nat)
    requires Inv(s) && Live(s, o) && s.ops[o].pc.Inspect? && s.ops[o].pc.look.Bump?
    ensures Inv(InspectStep(s, o, false))
  {
    var Op(p, c, Inspect(goal, start, i, Bump(w))) := s.ops[o];
    var s' := InspectStep(s, o, false);
    assert OpOk(s, o);
    if SlotAt(s, c, i).word == w {
      TakeRef(s, s', o, c, i, w.refs);
      OwnWordFits(s, o, c, i, Owned(PidOf(s, o), w.refs + 1));
      WordStep(s, s', o, c, i, Owned(PidOf(s, o), w.refs + 1));
    } else {
      MovePc(s, o, Inspect(goal, start, i, Load));
    }
  }

  /** The confirming compare-exchange of a claim cannot fail. */
  lemma ConfirmStep(s: State, o: nat)
    requires Inv(s) && Live(s, o) && s.ops[o].pc.Confirm?
    ensures SlotAt(s, s.ops[o].chunk, s.ops[o].pc.slot).word == Owned(PidOf(s, o), 0)
    ensures Inv(OpStep(s, o, false, 0))
  {
    var Op(p, c, Confirm(goal, start, i)) := s.ops[o];
    var s' := OpStep(s, o, false, 0);
    assert OpOk(s, o);
    TakeRef(s, s', o, c, i, 0);
    OwnWordFits(s, o, c, i, Owned(PidOf(s, o), 1));
    WordStep(s, s', o, c, i, Owned(PidOf(s, o), 1));
  }

  lemma ReleaseCasStep(s: State, o: nat)
    requires Inv(s) && Live(s, o) && s.ops[o].pc.ReleaseCas?
    ensures Inv(OpStep(s, o, false, 0))
  {
    var Op(p, c, ReleaseCas(after, i, w)) := s.ops[o];
    assert OpOk(s, o);
    if SlotAt(s, c, i).word == w {
      ReleaseFits(s, o);
      ReleaseWord(s, o, OpStep(s, o, false, 0));
    } else {
      MovePc(s, o, ReleaseLoad(after, i));
    }
  }

  /** The holder that is about to give its reference back finds its word, and disturbs nobody. */
  lemma ReleaseFits(s: State, o: nat)
    requires Inv(s) && Live(s, o) && s.ops[o].pc.ReleaseCas?
    requires SlotAt(s, s.ops[o].chunk, s.ops[o].pc.slot).word == s.ops[o].pc.w
    ensures s.ops[o].pc.w.Refs() > 0 && o in Holders(s, s.ops[o].chunk, s.ops[o].pc.slot)
    ensures WordFits(s, o, s.ops[o].chunk, s.ops[o].pc.slot, OneLess(s.ops[o].pc.w))
  {
    var Op(p, c, ReleaseCas(after, i, w)) := s.ops[o];
    assert OpOk(s, o) && SlotOk(s, c, i);
    assert o in Holders(s, c, i);
    OwnWordFits(s, o, c, i, OneLess(w));
  }

  lemma ReleaseWord(s: State, o: nat, s': State)
    requires Inv(s) && Live(s, o) && s.ops[o].pc.ReleaseCas? && s.ops[o].pc.w.Refs() > 0
    requires SlotAt(s, s.ops[o].chunk, s.ops[o].pc.slot).word == s.ops[o].pc.w
    requires o in Holders(s, s.ops[o].chunk, s.ops[o].pc.slot)
    requires WordFits(s, o, s.ops[o].chunk, s.ops[o].pc.slot, OneLess(s.ops[o].pc.w))
    requires s' == Released(SetWord(s, s.ops[o].chunk, s.ops[o].pc.slot, OneLess(s.ops[o].pc.w)), o, s.ops[o].pc.after)
    ensures Inv(s')
  {
    var Op(p, c, ReleaseCas(after, i, w)) := s.ops[o];
    ReleaseResult(s, o, s');
    GiveRef(s, s', o, c, i, w);
    WordStep(s, s', o, c, i, OneLess(w));
  }

  /** Where a release leaves its activity: gone, retrying, or an invalid pin with the snapshot it had. */
  lemma ReleaseResult(s: State, o: nat, s': State)
    requires Shape(s) && Live(s, o) && s.ops[o].pc.ReleaseCas? && s.ops[o].pc.w.Refs() > 0 && OpOk(s, o)
    requires s' == Released(SetWord(s, s.ops[o].chunk, s.ops[o].pc.slot, OneLess(s.ops[o].pc.w)), o, s.ops[o].pc.after)
    ensures Shape(s') && OnlyOp(s, s', o) && SnapFrom(s, s', o)
    ensures s'.chunks == SetWord(s, s.ops[o].chunk, s.ops[o].pc.slot, OneLess(s.ops[o].pc.w)).chunks
    ensures s'.writer == s.writer && s'.writeChunk == s.writeChunk
    ensures o in s'.ops ==> OpOk(s', o)
    ensures o in s'.ops ==> !Holding(s'.ops[o].pc, PidOf(s', o)) && !s'.ops[o].pc.Claimed? && !s'.ops[o].pc.Confirm?
  {
  }

  // ----- the start time of a claim

  lemma RecordStartOthers(s: State, o: nat, x: nat)
    requires Inv(s) && Live(s, o) && s.ops[o].pc.Claimed? && x != o && Live(s, x)
    requires var s' := OpStep(s, o, false, 0);
             Shape(s') && Quiet(s, s', s.ops[x].chunk, SlotOf(s.ops[x].pc))
    ensures OpOk(OpStep(s, o, false, 0), x)
  {
    var Op(p, c, Claimed(goal, start, i)) := s.ops[o];
    assert OpOk(s, o) && OpOk(s, x);
    assert ClaimsAt(s, o, c, i) && !ClaimsAt(s, x, c, i);
  }

  lemma RecordStartQuiet(s: State, o: nat, d: nat, j: nat)
    requires Inv(s) && Live(s, o) && s.ops[o].pc.Claimed?
    ensures Quiet(s, OpStep(s, o, false, 0), d, j)
  {
    QuietElsewhere(s, OpStep(s, o, false, 0), o, d, j);
  }

  lemma RecordStartSlot(s: State, o: nat, d: nat, j: nat)
    requires Inv(s) && Live(s, o) && s.ops[o].pc.Claimed? && d < |s.chunks| && j < SLOTS
    ensures Shape(OpStep(s, o, false, 0)) && SlotOk(OpStep(s, o, false, 0), d, j)
  {
    var s' := OpStep(s, o, false, 0);
    assert OpOk(s, o);
    RecordStartQuiet(s, o, d, j);
    if d != s.ops[o].chunk || j != s.ops[o].pc.slot {
      OtherSlot(s, s', d, j);
    } else {
      assert SlotOk(s, d, j);
      assert Holders(s', d, j) == {};
    }
  }

  /** Recording the start time of a claim disturbs nobody: no reference exists on the slot yet. */
  lemma RecordStart(s: State, o: nat)
    requires Inv(s) && Live(s, o) && s.ops[o].pc.Claimed?
    ensures Inv(OpStep(s, o, false, 0))
  {
    var s' := OpStep(s, o, false, 0);
    assert OpOk(s, o);
    RecordStartWriter(s, o);
    forall x | x in s'.ops && Live(s', x)
      ensures OpOk(s', x)
    {
      if x != o {
        RecordStartQuiet(s, o, s.ops[x].chunk, SlotOf(s.ops[x].pc));
        RecordStartOthers(s, o, x);
      }
    }
    forall d, j | 0 <= d < |s.chunks| && 0 <= j < SLOTS
      ensures SlotOk(s', d, j)
    {
      RecordStartSlot(s, o, d, j);
    }
    forall o1, o2, d, j | ClaimsAt(s', o1, d, j) && ClaimsAt(s', o2, d, j)
      ensures o1 == o2
    {
      assert ClaimsAt(s, o1, d, j) && ClaimsAt(s, o2, d, j);
    }
  }

  lemma RecordStartLook(s: State, o: nat)
    requires Inv(s) && Live(s, o) && s.ops[o].pc.Claimed? && s.writer.Scan? && Shape(OpStep(s, o, false, 0))
    ensures LookOk(OpStep(s, o, false, 0), Target(s), s.writer.slot, s.writer.look)
  {
    assert OpOk(s, o);
    RecordStartQuiet(s, o, Target(s), s.writer.slot);
  }

  lemma RecordStartWriter(s: State, o: nat)
    requires Inv(s) && Live(s, o) && s.ops[o].pc.Claimed?
    ensures Shape(OpStep(s, o, false, 0)) && WriterOk(OpStep(s, o, false, 0))
  {
    var s' := OpStep(s, o, false, 0);
    assert OpOk(s, o);
    assert Shape(s') && OnlyOp(s, s', o) && SnapFrom(s, s', o);
    if s.writer.Scan? {
      RecordStartLook(s, o);
    }
    StillUnsnapped(s, s', o);
    SameWriter(s, s');
  }

  // ----- all steps of an activity

  lemma InspectKeeps(s: State, o: nat, dead: bool)
    requires Inv(s) && Can(s, Tick(o, dead, 0)) && Benign(s, Tick(o, dead, 0)) && s.ops[o].pc.Inspect?
    ensures Inv(InspectStep(s, o, dead))
  {
    var Op(p, c, Inspect(goal, start, i, look)) := s.ops[o];
    assert OpOk(s, o);
    match look
    case Load =>
      var slot := SlotAt(s, c, i);
      MovePc(s, o, Inspect(goal, start, i, if slot.word.Free? then TryClaim else GotWord(slot.word, slot.ver)));
    case TryClaim => ClaimStep(s, o);
    case GotWord(w, v) =>
      if w.Refs() > 0 {
        MovePc(s, o, Inspect(goal, start, i, GotStart(w, v, SlotAt(s, c, i).start)));
      } else if dead {
        DeadOwnerHoldsNothing(s, c, i, w, v, 0);
        MoveToClear(s, o, w, v);
      } else {
        NextSlotStep(s, o, goal, start, i);
      }
    case GotStart(w, v, rec) => GotStartKeeps(s, o, dead);
    case Clear(w, v) => ClearStep(s, o);
    case Bump(w) => BumpStep(s, o);
  }

  lemma GotStartKeeps(s: State, o: nat, dead: bool)
    requires Inv(s) && Can(s, Tick(o, dead, 0)) && s.ops[o].pc.Inspect? && s.ops[o].pc.look.GotStart?
    ensures Inv(InspectStep(s, o, dead))
  {
    var Op(p, c, Inspect(goal, start, i, GotStart(w, v, rec))) := s.ops[o];
    assert OpOk(s, o);
    if w.pid == PidOf(s, o) {
      if rec != start {
        if rec != 0 && start != 0 {
          ForeignStartHoldsNothing(s, o, c, i, w, v, rec, start);
          MoveToClear(s, o, w, v);
        } else {
          NextSlotStep(s, o, goal, start, i);
        }
      } else if w.refs == MAX_REFS {
        GiveUpStep(s, o, goal);
      } else {
        MovePc(s, o, Inspect(goal, start, i, Bump(w)));
      }
    } else if dead {
      DeadOwnerHoldsNothing(s, c, i, w, v, rec);
      MoveToClear(s, o, w, v);
    } else {
      NextSlotStep(s, o, goal, start, i);
    }
  }

  lemma ReleaseLoadKeeps(s: State, o: nat)
    requires Inv(s) && Live(s, o) && s.ops[o].pc.ReleaseLoad?
    ensures var w := SlotAt(s, s.ops[o].chunk, s.ops[o].pc.slot).word; OwnWord(w, PidOf(s, o))
    ensures Inv(OpStep(s, o, false, 0))
  {
    var Op(p, c, ReleaseLoad(after, i)) := s.ops[o];
    assert OpOk(s, o);
    assert o in Holders(s, c, i) && SlotOk(s, c, i);
    assert Holders(s, c, i) >= {o};
    MovePc(s, o, ReleaseCas(after, i, SlotAt(s, c, i).word));
  }

  lemma ValidateKeeps(s: State, o: nat)
    requires Inv(s) && Live(s, o)
    requires s.ops[o].pc.CheckState? || s.ops[o].pc.CheckGen? || s.ops[o].pc.LoadUsed?
    ensures Inv(OpStep(s, o, false, 0))
  {
    var Op(p, c, pc) := s.ops[o];
    var ch := s.chunks[c];
    assert OpOk(s, o);
    match pc
    case CheckState(goal, i) =>
      if !ch.state.Empty? && (goal.Fresh? ==> ch.state == goal.before) {
        MovePc(s, o, CheckGen(goal, i));
      } else {
        MovePc(s, o, ReleaseLoad(Reject(goal), i));
      }
    case CheckGen(goal, i) =>
      if goal.Fresh? && ch.gen == goal.gen {
        MovePc(s, o, LoadUsed(goal.attempt, goal.gen, i));
      } else if goal.Adopt? && ch.gen == goal.snap.gen {
        MovePc(s, o, Pinned(Owner(PidOf(s, o)), i, goal.snap));
      } else {
        MovePc(s, o, ReleaseLoad(Reject(goal), i));
      }
    case LoadUsed(attempt, gen, i) =>
      MovePc(s, o, Pinned(Owner(PidOf(s, o)), i, Snap(gen, ch.used, ch.data[..ch.used])));
  }

  lemma RangeKeeps(s: State, o: nat)
    requires Inv(s) && Live(s, o)
    requires s.ops[o].pc.RangeGen? || s.ops[o].pc.RangeUsed? || s.ops[o].pc.RangeMin? || s.ops[o].pc.RangeMax?
             || s.ops[o].pc.RangeEnd?
    ensures Inv(OpStep(s, o, false, 0))
  {
    var Op(p, c, pc) := s.ops[o];
    var ch := s.chunks[c];
    assert OpOk(s, o);
    match pc
    case RangeGen => MovePc(s, o, RangeUsed(ch.gen));
    case RangeUsed(gen) => MovePc(s, o, RangeMin(gen, ch.ts));
    case RangeMin(gen, rows) => MovePc(s, o, RangeMax(gen, rows, ch.minTs));
    case RangeMax(gen, rows, lo) => MovePc(s, o, RangeEnd(gen, rows, lo, ch.maxTs));
    case RangeEnd(gen, rows, lo, hi) =>
      if ch.gen == gen {
        MovePc(s, o, Ranged(gen, rows, lo, hi));
      } else {
        EndOpStep(s, o);
      }
  }

  lemma TickKeeps(s: State, o: nat, dead: bool, start: nat)
    requires Inv(s) && Can(s, Tick(o, dead, start)) && Benign(s, Tick(o, dead, start))
    ensures Inv(OpStep(s, o, dead, start))
  {
    var Op(p, c, pc) := s.ops[o];
    assert OpOk(s, o);
    match pc
    case LoadState(attempt) =>
      if s.chunks[c].state.Empty? {
        EndOpStep(s, o);
      } else {
        MovePc(s, o, LoadGen(attempt, s.chunks[c].state));
      }
    case LoadGen(attempt, before) =>
      MovePc(s, o, Inspect(Fresh(attempt, before, s.chunks[c].gen), start, 0, Load));
    case Inspect(_, _, _, _) => InspectKeeps(s, o, dead);
    case Claimed(_, _, _) => RecordStart(s, o);
    case Confirm(_, _, _) => ConfirmStep(s, o);
    case CheckState(_, _) => ValidateKeeps(s, o);
    case CheckGen(_, _) => ValidateKeeps(s, o);
    case LoadUsed(_, _, _) => ValidateKeeps(s, o);
    case ReleaseLoad(_, _) => ReleaseLoadKeeps(s, o);
    case ReleaseCas(_, _, _) => ReleaseCasStep(s, o);
    case Pinned(_, _, _) =>
    case Ranged(_, _, _, _) =>
    case _ => RangeKeeps(s, o);
  }

  // ----- pins: begin, adopt, drop

  lemma BeginKeeps(s: State, o: nat, p: nat, c: nat, pc: Pc)
    requires Inv(s) && o !in s.ops && p in s.procs && c < |s.chunks|
    requires pc == LoadState(0) || pc == RangeGen
    ensures Inv(s.(ops := s.ops[o := Op(p, c, pc)]))
  {
    LocalStep(s, s.(ops := s.ops[o := Op(p, c, pc)]), o);
  }

  lemma AdoptKeeps(s: State, o: nat, start: nat)
    requires Inv(s) && Can(s, StartAdopt(o, start))
    ensures Inv(Do(s, StartAdopt(o, start)))
  {
    assert OpOk(s, o);
    MovePc(s, o, Inspect(Adopt(s.ops[o].pc.snap), start, 0, Load));
  }

  lemma DropKeeps(s: State, o: nat)
    requires Inv(s) && Can(s, Drop(o))
    ensures Inv(Do(s, Drop(o)))
  {
    assert OpOk(s, o);
    if s.ops[o].pc.Pinned? && s.ops[o].pc.tag == Owner(PidOf(s, o)) {
      MovePc(s, o, ReleaseLoad(Dropped, s.ops[o].pc.slot));
    } else {
      EndOpStep(s, o);
    }
  }
}
