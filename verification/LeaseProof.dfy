/** Every benign step of the lease protocol preserves the invariant. */
module LeaseProof {
  import opened Lease
  import opened LeaseInv

  // ----- what a step leaves alone

  /** Nothing that the invariant counts at slot i of chunk c moves from s to s'. */
  ghost predicate Quiet(s: State, s': State, c: nat, i: nat)
  {
    Holders(s', c, i) == Holders(s, c, i) && (Unclaimed(s, c, i) ==> Unclaimed(s', c, i))
  }

  lemma QuietElsewhere(s: State, s': State, o: nat, c: nat, i: nat)
    requires OnlyOp(s, s', o)
    requires HoldsAt(s', o, c, i) <==> HoldsAt(s, o, c, i)
    requires !ClaimsAt(s', o, c, i) || ClaimsAt(s, o, c, i)
    ensures Quiet(s, s', c, i)
  {
    SameHolders(s, s', o, c, i);
    if Unclaimed(s, c, i) {
      SameUnclaimed(s, s', o, c, i);
    }
  }

  /** An activity that does not move keeps its invariant while its chunk and the counts at its slot stay. */
  lemma OtherOp(s: State, s': State, x: nat)
    requires Inv(s) && Shape(s') && x in s.ops && x in s'.ops && s'.ops[x] == s.ops[x] && Live(s, x)
    requires s'.procs == s.procs && |s'.chunks| == |s.chunks|
    requires s'.chunks[s.ops[x].chunk] == s.chunks[s.ops[x].chunk]
    requires Quiet(s, s', s.ops[x].chunk, SlotOf(s.ops[x].pc))
    ensures OpOk(s', x)
  {
    assert OpOk(s, x);
  }

  /** A slot whose word and start stay, and whose holders stay, keeps its accounting. */
  lemma OtherSlot(s: State, s': State, c: nat, i: nat)
    requires Inv(s) && Shape(s') && c < |s.chunks| == |s'.chunks| && i < SLOTS
    requires SlotAt(s', c, i) == SlotAt(s, c, i) && Holders(s', c, i) == Holders(s, c, i) && s'.procs == s.procs
    requires forall x :: x in s.ops && x in s'.ops ==> s'.ops[x].proc == s.ops[x].proc
    ensures SlotOk(s', c, i)
  {
    assert SlotOk(s, c, i);
  }

  /** The writer's own invariant survives steps that leave its target chunk and the validated pins alone. */
  lemma SameWriter(s: State, s': State)
    requires Inv(s) && Shape(s')
    requires |s'.chunks| == |s.chunks| && s'.writer == s.writer && s'.writeChunk == s.writeChunk
    requires s'.chunks[s.writeChunk].(slots := []) == s.chunks[s.writeChunk].(slots := [])
    requires s'.chunks[Target(s)].(slots := []) == s.chunks[Target(s)].(slots := [])
    requires s.writer.ResetUsed? ==> Unsnapped(s', Target(s))
    requires s.writer.Scan? ==> LookOk(s', Target(s), s.writer.slot, s.writer.look)
    requires s.chunks[Target(s)].state.Empty? ==>
               forall o, i :: ValidatedAt(s', o, Target(s), i) ==> ValidatedAt(s, o, Target(s), i)
    ensures WriterOk(s')
  {
  }

  lemma StillUnsnapped(s: State, s': State, o: nat)
    requires Inv(s) && Shape(s') && OnlyOp(s, s', o) && SnapFrom(s, s', o) && |s'.chunks| == |s.chunks|
    requires s'.chunks[Target(s)].gen == s.chunks[Target(s)].gen
    ensures s.writer.ResetUsed? ==> Unsnapped(s', Target(s))
  {
    if s.writer.ResetUsed? {
      var t := Target(s);
      forall x | x in s'.ops && Live(s', x) && s'.ops[x].chunk == t && PinSnap(s'.ops[x].pc).Some?
        ensures PinSnap(s'.ops[x].pc).snap.gen < s'.chunks[t].gen
      {
        if x == o {
          assert !ValidatedAt(s, o, t, SlotOf(s.ops[o].pc));
        }
      }
    }
  }

  // ----- steps of one activity that change no shared memory

  lemma StillOneClaimant(s: State, s': State, o: nat)
    requires OneClaimant(s) && OnlyOp(s, s', o)
    requires forall c, i :: ClaimsAt(s', o, c, i) ==> ClaimsAt(s, o, c, i)
    ensures OneClaimant(s')
  {
    forall o1, o2, c, i | ClaimsAt(s', o1, c, i) && ClaimsAt(s', o2, c, i)
      ensures o1 == o2
    {
      assert ClaimsAt(s, o1, c, i) && ClaimsAt(s, o2, c, i);
    }
  }

  lemma LocalStep(s: State, s': State, o: nat)
    requires Inv(s) && Shape(s') && OnlyOp(s, s', o)
    requires s'.chunks == s.chunks && s'.writer == s.writer && s'.writeChunk == s.writeChunk
    requires forall c, i :: HoldsAt(s', o, c, i) <==> HoldsAt(s, o, c, i)
    requires forall c, i :: ClaimsAt(s', o, c, i) ==> ClaimsAt(s, o, c, i)
    requires forall c: nat, i: nat :: ValidatedAt(s', o, c, i) ==>
               ValidatedAt(s, o, c, i) || (c < |s.chunks| && !s.chunks[c].state.Empty?)
    requires o in s'.ops && Live(s', o) ==> OpOk(s', o)
    requires SnapFrom(s, s', o)
    ensures Inv(s')
  {
    forall c, i
      ensures Quiet(s, s', c, i)
    {
      QuietElsewhere(s, s', o, c, i);
    }
    forall x | x in s'.ops && Live(s', x)
      ensures OpOk(s', x)
    {
      if x != o {
        OtherOp(s, s', x);
      }
    }
    forall c, i | 0 <= c < |s.chunks| && 0 <= i < SLOTS
      ensures SlotOk(s', c, i)
    {
      OtherSlot(s, s', c, i);
    }
    if s.writer.Scan? {
      assert Quiet(s, s', Target(s), s.writer.slot);
    }
    StillUnsnapped(s, s', o);
    SameWriter(s, s');
    StillOneClaimant(s, s', o);
  }

  // ----- steps of one activity that change the word of its slot

  /** What the new word means for the activities other than o that look at the same slot. */
  ghost predicate WordFits(s: State, o: nat, c: nat, i: nat, w: Word)
    requires Shape(s) && c < |s.chunks| && i < SLOTS
  {
    forall x :: x in s.ops && x != o && At(s, x, c, i) ==>
      && !ClaimsAt(s, x, c, i)
      && (s.ops[x].pc.Inspect? && OwnWord(w, PidOf(s, x)) ==> StartOk(SlotAt(s, c, i), s.procs[s.ops[x].proc]))
  }

  lemma OtherOpSameSlot(s: State, s': State, x: nat, o: nat, w: Word)
    requires Inv(s) && Shape(s') && x != o && x in s.ops && x in s'.ops && s'.ops[x] == s.ops[x] && Live(s, x)
    requires s'.procs == s.procs
    requires s'.chunks == SetWord(s, s.ops[x].chunk, SlotOf(s.ops[x].pc), w).chunks
    requires WordFits(s, o, s.ops[x].chunk, SlotOf(s.ops[x].pc), w)
    ensures OpOk(s', x)
  {
    assert OpOk(s, x);
    assert At(s, x, s.ops[x].chunk, SlotOf(s.ops[x].pc));
  }

  lemma OtherOpSameChunk(s: State, s': State, x: nat, i: nat, w: Word)
    requires Inv(s) && Shape(s') && x in s.ops && x in s'.ops && s'.ops[x] == s.ops[x] && Live(s, x)
    requires s'.procs == s.procs && i < SLOTS && i != SlotOf(s.ops[x].pc)
    requires s'.chunks == SetWord(s, s.ops[x].chunk, i, w).chunks
    requires Quiet(s, s', s.ops[x].chunk, SlotOf(s.ops[x].pc))
    ensures OpOk(s', x)
  {
    assert OpOk(s, x);
  }

  lemma WordStepOthers(s: State, s': State, o: nat, c: nat, i: nat, w: Word, x: nat)
    requires Inv(s) && Shape(s') && OnlyOp(s, s', o) && c < |s.chunks| && i < SLOTS
    requires s'.chunks == SetWord(s, c, i, w).chunks
    requires forall c2, i2 :: (c2 != c || i2 != i) ==> Quiet(s, s', c2, i2)
    requires WordFits(s, o, c, i, w)
    requires x != o && x in s'.ops && Live(s', x)
    ensures OpOk(s', x)
  {
    if s.ops[x].chunk != c {
      OtherOp(s, s', x);
    } else if SlotOf(s.ops[x].pc) != i {
      OtherOpSameChunk(s, s', x, i, w);
    } else {
      OtherOpSameSlot(s, s', x, o, w);
    }
  }

  /** A step of activity o that stores word w in its slot i of its chunk c. */
  lemma WordStep(s: State, s': State, o: nat, c: nat, i: nat, w: Word)
    requires Inv(s) && Shape(s') && OnlyOp(s, s', o) && At(s, o, c, i) && c < |s.chunks| && i < SLOTS
    requires s'.chunks == SetWord(s, c, i, w).chunks && s'.writer == s.writer && s'.writeChunk == s.writeChunk
    requires o in s'.ops && (Holding(s'.ops[o].pc, PidOf(s', o)) || s'.ops[o].pc.Claimed?) ==> SlotOf(s'.ops[o].pc) == i
    requires o in s'.ops ==> !Validated(s'.ops[o].pc, PidOf(s', o)) && !s'.ops[o].pc.Confirm?
    requires WordFits(s, o, c, i, w)
    requires SlotOk(s', c, i)
    requires o in s'.ops ==> OpOk(s', o)
    requires SnapFrom(s, s', o)
    ensures Inv(s')
  {
    forall c2, i2 | c2 != c || i2 != i
      ensures Quiet(s, s', c2, i2)
    {
      QuietElsewhere(s, s', o, c2, i2);
    }
    forall x | x in s'.ops && Live(s', x)
      ensures OpOk(s', x)
    {
      if x != o {
        WordStepOthers(s, s', o, c, i, w, x);
      }
    }
    forall c2, i2 | 0 <= c2 < |s.chunks| && 0 <= i2 < SLOTS
      ensures SlotOk(s', c2, i2)
    {
      if c2 != c || i2 != i {
        OtherSlot(s, s', c2, i2);
      }
    }
    WordStepWriter(s, s', o, c, i, w);
    OneClaimantAfter(s, s', o, c, i, w);
  }

  lemma WordStepWriter(s: State, s': State, o: nat, c: nat, i: nat, w: Word)
    requires Inv(s) && Shape(s') && OnlyOp(s, s', o) && c < |s.chunks| && i < SLOTS
    requires s'.chunks == SetWord(s, c, i, w).chunks && s'.writer == s.writer && s'.writeChunk == s.writeChunk
    requires forall c2, i2 :: (c2 != c || i2 != i) ==> Quiet(s, s', c2, i2)
    requires o in s'.ops ==> !Validated(s'.ops[o].pc, PidOf(s', o))
    requires SnapFrom(s, s', o)
    ensures WriterOk(s')
  {
    if s.writer.Scan? && (Target(s) != c || s.writer.slot != i) {
      assert Quiet(s, s', Target(s), s.writer.slot);
    }
    StillUnsnapped(s, s', o);
    SameWriter(s, s');
  }

  lemma OneClaimantAfter(s: State, s': State, o: nat, c: nat, i: nat, w: Word)
    requires Inv(s) && Shape(s') && OnlyOp(s, s', o) && At(s, o, c, i) && c < |s.chunks| && i < SLOTS
    requires o in s'.ops && s'.ops[o].pc.Claimed? ==> SlotOf(s'.ops[o].pc) == i
    requires o in s'.ops ==> !s'.ops[o].pc.Confirm?
    requires WordFits(s, o, c, i, w)
    ensures OneClaimant(s')
  {
    forall o1, o2, d, j | ClaimsAt(s', o1, d, j) && ClaimsAt(s', o2, d, j)
      ensures o1 == o2
    {
      if o1 != o && o2 != o {
        assert ClaimsAt(s, o1, d, j) && ClaimsAt(s, o2, d, j);
      } else if o1 != o2 {
        var x := if o1 == o then o2 else o1;
        assert d == c && j == i;
        assert ClaimsAt(s, x, c, i);
      }
    }
  }
}
