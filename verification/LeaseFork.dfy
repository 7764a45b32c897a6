/** Forks: what a child inherits, and exactly when the invariant survives. */
module LeaseFork {
  import opened Lease
  import opened LeaseInv

  lemma ForkedShape(s: State, step: Step)
    requires Shape(s) && step.Fork? && Can(s, step)
    ensures Shape(Do(s, step))
  {
    var s' := Do(s, step);
    forall x | x in s'.ops
      ensures OpShape(s', s'.ops[x])
    {
      if x in step.copies {
        assert s'.ops[x] == Inherited(s.ops[step.copies[x]], step.q);
        assert OpShape(s, s.ops[step.copies[x]]);
      } else {
        assert s'.ops[x] == s.ops[x];
      }
    }
  }

  /** Who holds and who claims after a fork. */
  lemma ForkedHolders(s: State, step: Step, c: nat, i: nat)
    requires Shape(s) && step.Fork? && Can(s, step) && Shape(Do(s, step))
    ensures Holders(Do(s, step), c, i) == Holders(s, c, i) + TaggedCopies(s, step, c, i)
    ensures Holders(s, c, i) !! TaggedCopies(s, step, c, i)
    ensures forall o :: ClaimsAt(Do(s, step), o, c, i) <==> ClaimsAt(s, o, c, i)
    ensures forall o :: o in Holders(s, c, i) ==> Do(s, step).ops[o] == s.ops[o] && PidOf(Do(s, step), o) == PidOf(s, o)
                                                  && Do(s, step).procs[s.ops[o].proc] == s.procs[s.ops[o].proc]
    ensures forall o :: o in TaggedCopies(s, step, c, i) ==>
              && PidOf(Do(s, step), o) == step.pid
              && Do(s, step).procs[Do(s, step).ops[o].proc] == Proc(step.pid, step.start, true)
  {
    var s' := Do(s, step);
    forall x | x in s'.ops
      ensures HoldsAt(s', x, c, i) <==> x in Holders(s, c, i) || x in TaggedCopies(s, step, c, i)
      ensures ClaimsAt(s', x, c, i) <==> ClaimsAt(s, x, c, i)
    {
      if x in step.copies {
        assert s'.ops[x] == Inherited(s.ops[step.copies[x]], step.q);
      } else {
        assert s'.ops[x] == s.ops[x] && OpShape(s, s.ops[x]);
      }
    }
    assert forall x :: x in s.ops ==> x in s'.ops;
    assert forall x :: x in step.copies ==> x in s'.ops && s'.ops[x] == Inherited(s.ops[step.copies[x]], step.q);
  }

  lemma HolderIsLive(s: State, c: nat, i: nat, o: nat)
    requires Shape(s) && c < |s.chunks| && i < SLOTS && SlotOk(s, c, i)
    ensures o in Holders(s, c, i) ==> SlotAt(s, c, i).word.Owned? && LivePid(s, SlotAt(s, c, i).word.pid)
  {
  }

  /** Nobody holds a slot whose word records a pid that is not live. */
  lemma NoHolderOfDead(s: State, c: nat, i: nat)
    requires Shape(s) && c < |s.chunks| && i < SLOTS && SlotOk(s, c, i)
    requires SlotAt(s, c, i).word.Owned? && !LivePid(s, SlotAt(s, c, i).word.pid)
    ensures Holders(s, c, i) == {}
  {
    forall o
      ensures o !in Holders(s, c, i)
    {
      HolderIsLive(s, c, i, o);
    }
  }

  lemma ForkKeepsSlot(s: State, step: Step, c: nat, i: nat)
    requires Inv(s) && step.Fork? && Can(s, step) && Shape(Do(s, step)) && c < |s.chunks| && i < SLOTS
    ensures c < |Do(s, step).chunks| && SlotAt(Do(s, step), c, i) == SlotAt(s, c, i)
    ensures Shape(s) && SlotOk(s, c, i) && !LivePid(s, step.pid)
  {
  }

  lemma UntaggedSlot(s: State, step: Step, c: nat, i: nat)
    requires Inv(s) && step.Fork? && Can(s, step) && Shape(Do(s, step)) && c < |s.chunks| && i < SLOTS
    requires TaggedCopies(s, step, c, i) == {}
    ensures SlotOk(Do(s, step), c, i)
  {
    hide Inv, Do, Can, TaggedCopies, Holders, LivePid;
    ForkKeepsSlot(s, step, c, i);
    ForkedHolders(s, step, c, i);
    assert Holders(Do(s, step), c, i) == Holders(s, c, i);
  }

  lemma TaggedSlot(s: State, step: Step, c: nat, i: nat)
    requires Inv(s) && step.Fork? && Can(s, step) && Shape(Do(s, step)) && c < |s.chunks| && i < SLOTS
    requires TaggedCopies(s, step, c, i) != {}
    requires SlotAt(s, c, i).word.Owned? && SlotAt(s, c, i).word.pid == step.pid
    ensures var slot := SlotAt(s, c, i);
            SlotOk(Do(s, step), c, i)
            <==> |TaggedCopies(s, step, c, i)| <= slot.word.refs && (slot.start == 0 || slot.start == step.start)
  {
    hide Inv, Do, Can, TaggedCopies, Holders, LivePid;
    ForkKeepsSlot(s, step, c, i);
    NoHolderOfDead(s, c, i);
    ForkedHolders(s, step, c, i);
    assert Holders(Do(s, step), c, i) == TaggedCopies(s, step, c, i);
    var n :| n in TaggedCopies(s, step, c, i);
  }

  lemma ForeignSlot(s: State, step: Step, c: nat, i: nat)
    requires Inv(s) && step.Fork? && Can(s, step) && Shape(Do(s, step)) && c < |s.chunks| && i < SLOTS
    requires TaggedCopies(s, step, c, i) != {}
    requires SlotAt(s, c, i).word.Free? || SlotAt(s, c, i).word.pid != step.pid
    ensures !SlotOk(Do(s, step), c, i)
  {
    hide Inv, Do, Can, TaggedCopies, Holders, LivePid;
    ForkKeepsSlot(s, step, c, i);
    ForkedHolders(s, step, c, i);
    var n :| n in TaggedCopies(s, step, c, i);
    assert n in Holders(Do(s, step), c, i);
  }

  lemma ForkedSlot(s: State, step: Step, c: nat, i: nat)
    requires Inv(s) && step.Fork? && Can(s, step) && Shape(Do(s, step)) && c < |s.chunks| && i < SLOTS
    ensures SlotOk(Do(s, step), c, i) <==> CopiesCovered(s, step, c, i)
  {
    assert |s.chunks[c].slots| == SLOTS;
    hide Inv, Do, Can, TaggedCopies, Holders, SlotOk;
    if TaggedCopies(s, step, c, i) == {} {
      UntaggedSlot(s, step, c, i);
    } else if SlotAt(s, c, i).word.Owned? && SlotAt(s, c, i).word.pid == step.pid {
      TaggedSlot(s, step, c, i);
    } else {
      ForeignSlot(s, step, c, i);
    }
  }

  lemma ForkedClaim(s: State, step: Step, c: nat, i: nat, o: nat)
    requires Inv(s) && step.Fork? && Can(s, step) && Shape(Do(s, step)) && c < |s.chunks| && i < SLOTS
    requires |Do(s, step).chunks| == |s.chunks| && ClaimsAt(Do(s, step), o, c, i)
    ensures SlotAt(Do(s, step), c, i).word == Owned(PidOf(Do(s, step), o), 0)
  {
    ForkedHolders(s, step, c, i);
    assert ClaimsAt(s, o, c, i) && OpOk(s, o);
  }

  lemma NoTagNoCopies(s: State, step: Step, c: nat, i: nat)
    requires Shape(s) && step.Fork? && !TagReuse(s, step) && c < |s.chunks| && i < SLOTS
    ensures TaggedCopies(s, step, c, i) == {} && SlotInherits(s, step, c, i)
  {
    assert TaggedCopies(s, step, c, i) == {};
  }

  // ----- a harmless fork keeps the invariant

  /** An activity that was there before. */
  lemma ForkedOldOp(s: State, step: Step, x: nat)
    requires Inv(s) && step.Fork? && Can(s, step) && Shape(Do(s, step)) && HarmlessFork(s, step)
    requires x in s.ops && Live(Do(s, step), x)
    ensures OpOk(Do(s, step), x)
  {
    var s' := Do(s, step);
    assert s'.ops[x] == s.ops[x] && Live(s, x) && OpOk(s, x);
    var c, i := s.ops[x].chunk, SlotOf(s.ops[x].pc);
    if s.ops[x].pc.Inspect? && s.ops[x].pc.look.Clear? && s.ops[x].pc.look.v == SlotAt(s, c, i).ver {
      ForkedHolders(s, step, c, i);
      assert SlotInherits(s, step, c, i) && AboutToClear(s, x, c, i);
      assert TaggedCopies(s, step, c, i) == {};
    }
  }

  /** An inherited pin. */
  lemma ForkedNewOp(s: State, step: Step, x: nat)
    requires Inv(s) && step.Fork? && Can(s, step) && Shape(Do(s, step)) && HarmlessFork(s, step)
    requires x !in s.ops && x in Do(s, step).ops
    ensures OpOk(Do(s, step), x)
  {
    var s' := Do(s, step);
    var y := step.copies[x];
    assert OpOk(s, y) && s'.ops[x] == Inherited(s.ops[y], step.q);
    if s.ops[y].pc.Pinned? && s.ops[y].pc.tag == Owner(step.pid) {
      var c, i := s.ops[y].chunk, s.ops[y].pc.slot;
      assert OpShape(s, s.ops[y]);
      assert x in TaggedCopies(s, step, c, i) && SlotInherits(s, step, c, i);
    }
  }

  /** Who is validated after a fork: those that were, and the tagged copies. */
  lemma ForkedValidated(s: State, step: Step, o: nat, c: nat, i: nat)
    requires Shape(s) && step.Fork? && Can(s, step) && Shape(Do(s, step)) && ValidatedAt(Do(s, step), o, c, i)
    ensures ValidatedAt(s, o, c, i) || o in TaggedCopies(s, step, c, i)
  {
    var s' := Do(s, step);
    if o in step.copies {
      assert s'.ops[o] == Inherited(s.ops[step.copies[o]], step.q);
    } else {
      assert s'.ops[o] == s.ops[o] && OpShape(s, s.ops[o]);
    }
  }

  lemma ForkedDrained(s: State, step: Step, n: nat)
    requires Inv(s) && step.Fork? && Can(s, step) && Shape(Do(s, step)) && HarmlessFork(s, step)
    requires n <= SLOTS && Drained(s, Target(s), n)
    requires forall i :: 0 <= i < n ==> !WriterAway(s, Target(s), i)
    ensures Drained(Do(s, step), Target(s), n)
  {
    var s', t := Do(s, step), Target(s);
    forall o, i | o in s'.ops && 0 <= i < n
      ensures !ValidatedAt(s', o, t, i)
    {
      assert SlotInherits(s, step, t, i);
      if ValidatedAt(s', o, t, i) {
        ForkedValidated(s, step, o, t, i);
      }
    }
  }

  /** What a fork leaves alone. */
  lemma ForkFrame(s: State, step: Step)
    requires Shape(s) && step.Fork? && Can(s, step)
    ensures var s' := Do(s, step);
            && s'.chunks == s.chunks && s'.writer == s.writer && s'.writeChunk == s.writeChunk
            && (forall x :: x in s.ops ==> x in s'.ops && s'.ops[x] == s.ops[x])
            && (forall x :: Live(s, x) ==> Live(s', x) && PidOf(s', x) == PidOf(s, x))
            && (forall x :: x in s.ops && Live(s', x) ==> Live(s, x))
            && (forall x :: x in s'.ops && x !in s.ops ==>
                  && x in step.copies && step.copies[x] in s.ops && Live(s, step.copies[x])
                  && IsPinObject(s.ops[step.copies[x]].pc) && s'.ops[x] == Inherited(s.ops[step.copies[x]], step.q))
  {
    forall x | x in s.ops
      ensures x in Do(s, step).ops && Do(s, step).ops[x] == s.ops[x]
    {
      assert OpShape(s, s.ops[x]);
    }
  }

  lemma SameSnap(op: Op, q: nat)
    requires IsPinObject(op.pc)
    ensures Inherited(op, q).chunk == op.chunk && PinSnap(Inherited(op, q).pc) == PinSnap(op.pc)
  {
  }

  lemma ForkedUnsnapped(s: State, step: Step)
    requires Inv(s) && step.Fork? && Can(s, step) && Shape(Do(s, step)) && s.writer.ResetUsed?
    ensures Target(s) < |Do(s, step).chunks| && Unsnapped(Do(s, step), Target(s))
  {
    hide Inv, Can, Do, Inherited, IsPinObject;
    InvShape(s);
    ForkFrame(s, step);
    var s', t := Do(s, step), Target(s);
    forall x | x in s'.ops && Live(s', x) && s'.ops[x].chunk == t && PinSnap(s'.ops[x].pc).Some?
      ensures PinSnap(s'.ops[x].pc).snap.gen < s.chunks[t].gen
    {
      if x !in s.ops {
        SameSnap(s.ops[step.copies[x]], step.q);
      }
    }
  }

  lemma ForkedLook(s: State, step: Step)
    requires Inv(s) && step.Fork? && Can(s, step) && Shape(Do(s, step)) && HarmlessFork(s, step) && s.writer.Scan?
    ensures LookOk(Do(s, step), Target(s), s.writer.slot, s.writer.look)
  {
    var t, i := Target(s), s.writer.slot;
    ForkedHolders(s, step, t, i);
    assert SlotInherits(s, step, t, i);
    if s.writer.look.Clear? && s.writer.look.v == SlotAt(s, t, i).ver {
      assert !WriterAway(s, t, i);
      assert TaggedCopies(s, step, t, i) == {};
    }
  }

  lemma ForkedWriter(s: State, step: Step)
    requires Inv(s) && step.Fork? && Can(s, step) && Shape(Do(s, step)) && HarmlessFork(s, step)
    ensures WriterOk(Do(s, step))
  {
    var s' := Do(s, step);
    assert s'.chunks == s.chunks && s'.writer == s.writer && s'.writeChunk == s.writeChunk;
    match s.writer
    case Scan(_, _, j, live, _) =>
      ForkedLook(s, step);
      if !live {
        ForkedDrained(s, step, j);
      }
    case Idle =>
    case NoteMin(_, _) =>
    case NoteMax(_, _) =>
    case Publish(_, _) =>
    case StoreEmpty(_) =>
    case Restore(_) =>
    case StoreWriteChunk =>
    case ResetUsed =>
      ForkedUnsnapped(s, step);
      ForkedDrained(s, step, SLOTS);
    case _ => ForkedDrained(s, step, SLOTS);
  }

  lemma ForkedPids(s: State, step: Step)
    requires Inv(s) && step.Fork? && Can(s, step)
    ensures UniquePids(Do(s, step))
  {
  }

  /** A harmless fork keeps the invariant. */
  lemma ForkKeeps(s: State, step: Step)
    requires Inv(s) && step.Fork? && Can(s, step) && HarmlessFork(s, step)
    ensures Inv(Do(s, step))
  {
    var s' := Do(s, step);
    ForkedShape(s, step);
    ForkedPids(s, step);
    ForkedWriter(s, step);
    assert |s'.chunks| == |s.chunks| && RangesOk(s') && OneClaimant(s);
    hide Do, Can, WriterOk, SlotOk, OpOk;
    forall x | x in s'.ops && Live(s', x)
      ensures OpOk(s', x)
    {
      if x in s.ops {
        ForkedOldOp(s, step, x);
      } else {
        ForkedNewOp(s, step, x);
      }
    }
    forall c, i | 0 <= c < |s.chunks| && 0 <= i < SLOTS
      ensures SlotOk(s', c, i)
    {
      assert SlotInherits(s, step, c, i);
      ForkedSlot(s, step, c, i);
    }
    forall o1, o2, c, i | ClaimsAt(s', o1, c, i) && ClaimsAt(s', o2, c, i)
      ensures o1 == o2
    {
      ForkedHolders(s, step, c, i);
      assert ClaimsAt(s, o1, c, i) && ClaimsAt(s, o2, c, i);
    }
  }

  // ----- and only a harmless one does

  lemma CopyHolds(s: State, step: Step, n: nat, c: nat, i: nat)
    requires Shape(s) && step.Fork? && Can(s, step) && Shape(Do(s, step)) && n in TaggedCopies(s, step, c, i)
    ensures n in Holders(Do(s, step), c, i) && ValidatedAt(Do(s, step), n, c, i)
    ensures n in Do(s, step).ops && Live(Do(s, step), n)
    ensures Do(s, step).ops[n] == Op(step.q, c, s.ops[step.copies[n]].pc)
  {
    ForkedHolders(s, step, c, i);
    assert Do(s, step).ops[n] == Inherited(s.ops[step.copies[n]], step.q);
  }

  lemma CopyCurrent(s: State, step: Step, n: nat, c: nat, i: nat)
    requires Inv(s) && step.Fork? && Can(s, step) && Inv(Do(s, step)) && n in TaggedCopies(s, step, c, i)
    requires c < |s.chunks| && i < SLOTS
    ensures s.ops[step.copies[n]].pc.snap.gen == s.chunks[c].gen
  {
    hide Inv, Can, Do, Holders;
    InvShape(s);
    InvShape(Do(s, step));
    ForkFrame(s, step);
    CopyHolds(s, step, n, c, i);
    InvOp(Do(s, step), n);
  }

  lemma NoClearer(s: State, step: Step, n: nat, c: nat, i: nat, x: nat)
    requires Inv(s) && step.Fork? && Can(s, step) && Inv(Do(s, step)) && n in TaggedCopies(s, step, c, i)
    requires Shape(s) && c < |s.chunks| && i < SLOTS && x in s.ops
    ensures !AboutToClear(s, x, c, i)
  {
    hide Inv, Can, Do, Holders, TaggedCopies;
    InvShape(Do(s, step));
    ForkFrame(s, step);
    CopyHolds(s, step, n, c, i);
    if Live(s, x) {
      InvOp(Do(s, step), x);
    }
  }

  lemma WriterIsAway(s: State, step: Step, n: nat, c: nat, i: nat)
    requires Inv(s) && step.Fork? && Can(s, step) && Inv(Do(s, step)) && n in TaggedCopies(s, step, c, i)
    requires Shape(s) && c < |s.chunks| && i < SLOTS
    ensures WriterAway(s, c, i)
  {
    hide Inv, Can, Do, Holders, TaggedCopies;
    InvShape(Do(s, step));
    ForkFrame(s, step);
    CopyHolds(s, step, n, c, i);
  }

  lemma ForkHarmless(s: State, step: Step)
    requires Inv(s) && step.Fork? && Can(s, step) && Inv(Do(s, step))
    ensures HarmlessFork(s, step)
  {
    assert Shape(s) && Shape(Do(s, step)) && |Do(s, step).chunks| == |s.chunks|;
    forall c, i | 0 <= c < |s.chunks| && 0 <= i < SLOTS
      ensures SlotInherits(s, step, c, i)
    {
      assert SlotOk(Do(s, step), c, i);
      ForkedSlot(s, step, c, i);
      forall n | n in TaggedCopies(s, step, c, i)
        ensures CopyTimely(s, step, n, c, i)
      {
        CopyCurrent(s, step, n, c, i);
        WriterIsAway(s, step, n, c, i);
        forall x | x in s.ops
          ensures !AboutToClear(s, x, c, i)
        {
          NoClearer(s, step, n, c, i, x);
        }
      }
    }
  }
}
