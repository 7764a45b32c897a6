/** The inductive invariant of the lease protocol, and the frame lemmas of its steps. */
module LeaseInv {
  import opened Lease

  // ----- who holds, claims, and has validated a lease

  /** The activity owes one reference on its slot. */
  predicate Holding(pc: Pc, pid: nat)
  {
    || pc.CheckState? || pc.CheckGen? || pc.LoadUsed? || pc.ReleaseLoad? || pc.ReleaseCas?
    || (pc.Pinned? && pc.tag == Owner(pid))
  }

  /** The activity has seen its chunk readable after taking the lease, and may go on to read bytes. */
  predicate Validated(pc: Pc, pid: nat)
  {
    pc.CheckGen? || pc.LoadUsed? || (pc.Pinned? && pc.tag == Owner(pid))
  }

  predicate At(s: State, o: nat, c: nat, i: nat)
  {
    Live(s, o) && s.ops[o].chunk == c && SlotOf(s.ops[o].pc) == i
  }

  predicate HoldsAt(s: State, o: nat, c: nat, i: nat)
  {
    At(s, o, c, i) && Holding(s.ops[o].pc, PidOf(s, o))
  }

  predicate ClaimsAt(s: State, o: nat, c: nat, i: nat)
  {
    At(s, o, c, i) && (s.ops[o].pc.Claimed? || s.ops[o].pc.Confirm?)
  }

  predicate ValidatedAt(s: State, o: nat, c: nat, i: nat)
  {
    At(s, o, c, i) && Validated(s.ops[o].pc, PidOf(s, o))
  }

  /** The outstanding references of live processes on one slot. */
  function Holders(s: State, c: nat, i: nat): set<nat>
  {
    set o | o in s.ops && HoldsAt(s, o, c, i)
  }

  ghost predicate Unclaimed(s: State, c: nat, i: nat)
  {
    forall o :: o in s.ops ==> !ClaimsAt(s, o, c, i)
  }

  // ----- the invariant

  predicate StartOk(slot: Slot, p: Proc)
  {
    slot.start == 0 || slot.start == p.start
  }

  /** Lease accounting: references cover the outstanding pins, which all belong to the recorded owner. */
  ghost predicate SlotOk(s: State, c: nat, i: nat)
    requires Shape(s) && c < |s.chunks| && i < SLOTS
  {
    var slot := SlotAt(s, c, i);
    && |Holders(s, c, i)| <= slot.word.Refs()
    && forall o :: o in Holders(s, c, i) ==>
         slot.word.Owned? && slot.word.pid == PidOf(s, o) && StartOk(slot, s.procs[s.ops[o].proc])
  }

  /** A remembered word still describes the slot as long as the version has not moved. */
  ghost predicate LookOk(s: State, c: nat, i: nat, look: Look)
    requires Shape(s) && c < |s.chunks| && i < SLOTS
  {
    var slot := SlotAt(s, c, i);
    match look
    case GotWord(w, v) => w.Owned? && v <= slot.ver && (v == slot.ver ==> slot.word == w)
    case GotStart(w, v, rec) =>
      w.Owned? && v <= slot.ver && (v == slot.ver ==> slot.word == w && (w.refs > 0 ==> slot.start == rec))
    case Clear(w, v) =>
      w.Owned? && v <= slot.ver && (v == slot.ver ==> slot.word == w && Holders(s, c, i) == {} && Unclaimed(s, c, i))
    case _ => true
  }

  predicate SnapOk(ch: Chunk, snap: Snap)
  {
    && snap.gen <= ch.gen
    && (snap.gen == ch.gen ==> snap.used <= ch.used <= |ch.data| && ch.data[..snap.used] == snap.bytes)
  }

  /** The word an inspection will compare against. */
  function Seen(look: Look): (w: Word)
    ensures w.Owned? ==> look.GotWord? || look.GotStart? || look.Bump?
  {
    match look
    case GotWord(w, _) => w
    case GotStart(w, _, _) => w
    case Bump(w) => w
    case _ => Free
  }

  predicate OwnWord(w: Word, pid: nat)
  {
    w.Owned? && w.refs > 0 && w.pid == pid
  }

  ghost predicate PcOk(s: State, op: Op)
    requires Shape(s) && OpShape(s, op)
  {
    var ch := s.chunks[op.chunk];
    var p := s.procs[op.proc];
    match op.pc
    case Inspect(_, start, i, look) =>
      && (start == 0 || start == p.start)
      && LookOk(s, op.chunk, i, look)
      && (look.GotStart? ==> look.w.refs > 0)
      && (look.Bump? ==> OwnWord(look.w, p.pid))
      && (OwnWord(Seen(look), p.pid) && Seen(look) == ch.slots[i].word && (look.Bump? || look.v < ch.slots[i].ver)
          ==> StartOk(ch.slots[i], p))
    case Claimed(_, start, i) => (start == 0 || start == p.start) && ch.slots[i].word == Owned(p.pid, 0)
    case Confirm(_, start, i) =>
      (start == 0 || start == p.start) && ch.slots[i].word == Owned(p.pid, 0) && ch.slots[i].start == start
    case LoadUsed(_, gen, _) => ch.gen == gen
    case Pinned(tag, _, snap) => tag == Owner(p.pid) ==> snap.gen == ch.gen
    case ReleaseCas(_, _, w) => w.Owned? && w.pid == p.pid && w.refs > 0
    case RangeUsed(gen) => gen <= ch.gen
    case RangeMin(gen, rows) => gen <= ch.gen && (gen == ch.gen ==> rows <= ch.ts)
    case RangeMax(gen, rows, lo) => gen <= ch.gen && (gen == ch.gen ==> rows <= ch.ts && Below(lo, rows))
    case RangeEnd(gen, rows, lo, hi) => gen <= ch.gen && (gen == ch.gen ==> Covers(lo, hi, rows))
    case Ranged(gen, rows, lo, hi) => Covers(lo, hi, rows)
    case _ => true
  }

  predicate Below(lo: int, rows: seq<int>)
  {
    forall k :: 0 <= k < |rows| ==> lo <= rows[k]
  }

  predicate Covers(lo: int, hi: int, rows: seq<int>)
  {
    forall k :: 0 <= k < |rows| ==> lo <= rows[k] <= hi
  }

  ghost predicate OpOk(s: State, o: nat)
    requires Shape(s) && o in s.ops
  {
    PcOk(s, s.ops[o]) && (PinSnap(s.ops[o].pc).Some? ==> SnapOk(s.chunks[s.ops[o].chunk], PinSnap(s.ops[o].pc).snap))
  }

  /** No live activity has validated a pin on the first n slots of chunk t. */
  ghost predicate Drained(s: State, t: nat, n: nat)
  {
    forall o, i :: o in s.ops && 0 <= i < n ==> !ValidatedAt(s, o, t, i)
  }

  /** No live pin object names the current generation of chunk t. */
  ghost predicate Unsnapped(s: State, t: nat)
    requires t < |s.chunks|
  {
    forall o :: o in s.ops && Live(s, o) && s.ops[o].chunk == t && PinSnap(s.ops[o].pc).Some?
                ==> PinSnap(s.ops[o].pc).snap.gen < s.chunks[t].gen
  }

  predicate TsNoted(ts: MaybeTs, lo: bool, hi: bool, ch: Chunk)
  {
    ts.Ts? ==> (lo ==> ch.minTs <= ts.value) && (hi ==> ts.value <= ch.maxTs)
  }

  ghost predicate WriterOk(s: State)
    requires Shape(s)
  {
    var t := Target(s);
    var cur := s.chunks[s.writeChunk];
    match s.writer
    case Idle => true
    case NoteMin(ts, upto) => cur.used <= upto <= |cur.data|
    case NoteMax(ts, upto) => cur.used <= upto <= |cur.data| && TsNoted(ts, true, false, cur)
    case Publish(ts, upto) => cur.used <= upto <= |cur.data| && TsNoted(ts, true, true, cur)
    case StoreEmpty(_) => true
    case Scan(_, _, i, live, look) =>
      && s.chunks[t].state.Empty? && LookOk(s, t, i, look) && !look.TryClaim? && !look.Bump?
      && (!live ==> Drained(s, t, i))
    case Restore(_) => s.chunks[t].state.Empty?
    case ResetUsed => s.chunks[t].state.Empty? && Drained(s, t, SLOTS) && s.chunks[t].ts == [] && Unsnapped(s, t)
    case ResetMin => s.chunks[t].state.Empty? && Drained(s, t, SLOTS) && s.chunks[t].ts == []
    case ResetMax => s.chunks[t].state.Empty? && Drained(s, t, SLOTS) && s.chunks[t].ts == []
    case StoreWriteChunk => true
    case _ => s.chunks[t].state.Empty? && Drained(s, t, SLOTS)
  }

  ghost predicate UniquePids(s: State)
  {
    forall p, q :: p in s.procs && s.procs[p].live && q in s.procs && s.procs[q].live ==>
                     (s.procs[p].pid == s.procs[q].pid ==> p == q)
  }

  ghost predicate OneClaimant(s: State)
  {
    forall o1, o2, c, i :: ClaimsAt(s, o1, c, i) && ClaimsAt(s, o2, c, i) ==> o1 == o2
  }

  ghost predicate OpsOk(s: State)
    requires Shape(s)
  {
    forall o :: o in s.ops && Live(s, o) ==> OpOk(s, o)
  }

  ghost predicate SlotsOk(s: State)
    requires Shape(s)
  {
    forall c, i :: 0 <= c < |s.chunks| && 0 <= i < SLOTS ==> SlotOk(s, c, i)
  }

  ghost predicate RangesOk(s: State)
  {
    forall c :: 0 <= c < |s.chunks| ==> Covers(s.chunks[c].minTs, s.chunks[c].maxTs, s.chunks[c].ts)
  }

  ghost predicate Inv(s: State)
  {
    Shape(s) && UniquePids(s) && OneClaimant(s) && OpsOk(s) && SlotsOk(s) && RangesOk(s) && WriterOk(s)
  }

  lemma InvOp(s: State, x: nat)
    requires Inv(s) && Live(s, x)
    ensures Shape(s) && OpOk(s, x)
  {
  }

  lemma InvShape(s: State)
    requires Inv(s)
    ensures Shape(s) && WriterOk(s)
  {
  }

  // ----- harmful and harmless steps

  /** A reclaiming compare-exchange succeeds although the word it compares had changed since it was loaded. */
  predicate StaleClear(s: State, step: Step)
    requires Shape(s)
  {
    match step
    case Tick(o, _, _) =>
      && o in s.ops && s.ops[o].pc.Inspect? && s.ops[o].pc.look.Clear?
      && var slot := SlotAt(s, s.ops[o].chunk, s.ops[o].pc.slot);
         slot.word == s.ops[o].pc.look.w && slot.ver != s.ops[o].pc.look.v
    case WriterTick(_) =>
      && s.writer.Scan? && s.writer.look.Clear?
      && var slot := SlotAt(s, Target(s), s.writer.slot);
         slot.word == s.writer.look.w && slot.ver != s.writer.look.v
    case _ => false
  }

  /** The reclaiming compare-exchange of this step succeeds on slot i of chunk c. */
  predicate ReclaimHits(s: State, step: Step, c: nat, i: nat)
    requires Shape(s)
  {
    match step
    case Tick(o, _, _) =>
      && o in s.ops && s.ops[o].pc.Inspect? && s.ops[o].pc.look.Clear? && s.ops[o].chunk == c && s.ops[o].pc.slot == i
      && SlotAt(s, c, i).word == s.ops[o].pc.look.w
    case WriterTick(_) =>
      && s.writer.Scan? && s.writer.look.Clear? && Target(s) == c && s.writer.slot == i
      && SlotAt(s, c, i).word == s.writer.look.w
    case _ => false
  }

  ghost predicate Unheld(s: State, c: nat, i: nat)
  {
    Holders(s, c, i) == {} && Unclaimed(s, c, i)
  }

  /** Whatever the step reclaims, no live process holds or claims it. */
  ghost predicate HarmlessReclaim(s: State, step: Step)
    requires Shape(s)
  {
    match step
    case Tick(o, _, _) =>
      o in s.ops && s.ops[o].pc.Inspect? && s.ops[o].pc.look.Clear?
      && SlotAt(s, s.ops[o].chunk, s.ops[o].pc.slot).word == s.ops[o].pc.look.w
      ==> Unheld(s, s.ops[o].chunk, s.ops[o].pc.slot)
    case WriterTick(_) =>
      s.writer.Scan? && s.writer.look.Clear? && SlotAt(s, Target(s), s.writer.slot).word == s.writer.look.w
      ==> Unheld(s, Target(s), s.writer.slot)
    case _ => true
  }

  /** A forked child gets the pid that tags one of the pins it inherits. */
  predicate TagReuse(s: State, step: Step)
  {
    step.Fork? && exists n :: n in step.copies && step.copies[n] in s.ops
                              && s.ops[step.copies[n]].pc.Pinned? && s.ops[step.copies[n]].pc.tag == Owner(step.pid)
  }

  predicate TaggedAt(op: Op, pid: nat, c: nat, i: nat)
  {
    op.chunk == c && op.pc.Pinned? && op.pc.slot == i && op.pc.tag == Owner(pid)
  }

  /** Inherited pins on slot i of chunk c that carry the child's pid as their tag. */
  function TaggedCopies(s: State, step: Step, c: nat, i: nat): set<nat>
    requires step.Fork?
  {
    set n | n in step.copies && step.copies[n] in s.ops && TaggedAt(s.ops[step.copies[n]], step.pid, c, i)
  }

  /** The slot's word, references and start time cover the inherited pins that the child takes for its own. */
  predicate CopiesCovered(s: State, step: Step, c: nat, i: nat)
    requires step.Fork? && c < |s.chunks| && i < |s.chunks[c].slots|
  {
    var slot := SlotAt(s, c, i);
    TaggedCopies(s, step, c, i) != {} ==>
      && slot.word.Owned? && slot.word.pid == step.pid && |TaggedCopies(s, step, c, i)| <= slot.word.refs
      && (slot.start == 0 || slot.start == step.start)
  }

  /** Activity x is about to reclaim slot i of chunk c as it is now. */
  predicate AboutToClear(s: State, x: nat, c: nat, i: nat)
    requires c < |s.chunks| && i < |s.chunks[c].slots|
  {
    At(s, x, c, i) && s.ops[x].pc.Inspect? && s.ops[x].pc.look.Clear? && s.ops[x].pc.look.v == SlotAt(s, c, i).ver
  }

  /** The writer has not passed slot i of chunk c in a scan that found nothing yet, nor is it about to reclaim it. */
  predicate WriterAway(s: State, c: nat, i: nat)
    requires c < |s.chunks| && i < |s.chunks[c].slots|
  {
    c == Target(s) ==>
      match s.writer
      case Scan(_, _, j, live, look) =>
        && (live || j <= i)
        && (j == i && look.Clear? ==> look.v != SlotAt(s, c, i).ver)
      case Idle => true
      case NoteMin(_, _) => true
      case NoteMax(_, _) => true
      case Publish(_, _) => true
      case StoreEmpty(_) => true
      case Restore(_) => true
      case StoreWriteChunk => true
      case _ => false
  }

  /** The chunk is at the generation of the inherited pin, and nobody is under way to take its slot. */
  ghost predicate CopyTimely(s: State, step: Step, n: nat, c: nat, i: nat)
    requires step.Fork? && n in TaggedCopies(s, step, c, i) && c < |s.chunks| && i < |s.chunks[c].slots|
  {
    && s.ops[step.copies[n]].pc.snap.gen == s.chunks[c].gen
    && WriterAway(s, c, i)
    && forall x :: x in s.ops ==> !AboutToClear(s, x, c, i)
  }

  ghost predicate SlotInherits(s: State, step: Step, c: nat, i: nat)
    requires step.Fork? && c < |s.chunks| && i < |s.chunks[c].slots|
  {
    CopiesCovered(s, step, c, i) && forall n :: n in TaggedCopies(s, step, c, i) ==> CopyTimely(s, step, n, c, i)
  }

  /** Every slot can bear the pins that the child takes for its own. */
  ghost predicate HarmlessFork(s: State, step: Step)
    requires Shape(s) && step.Fork?
  {
    forall c, i :: 0 <= c < |s.chunks| && 0 <= i < SLOTS ==> SlotInherits(s, step, c, i)
  }

  /** A step that does no harm: what it reclaims is nobody's, and what it inherits is covered and current. */
  ghost predicate Benign(s: State, step: Step)
    requires Shape(s)
  {
    HarmlessReclaim(s, step) && (step.Fork? ==> HarmlessFork(s, step))
  }

  // ----- frames

  /** Activity o got its snapshot, if it has one, before this step or from a validated pin. */
  ghost predicate SnapFrom(s: State, s': State, o: nat)
  {
    o in s'.ops && Live(s', o) && PinSnap(s'.ops[o].pc).Some? ==>
      Live(s, o) && (PinSnap(s.ops[o].pc) == PinSnap(s'.ops[o].pc) || Validated(s.ops[o].pc, PidOf(s, o)))
  }

  ghost predicate OnlyOp(s: State, s': State, o: nat)
  {
    && s'.procs == s.procs
    && (forall x :: x != o ==> (x in s'.ops <==> x in s.ops))
    && (forall x :: x != o && x in s.ops ==> x in s'.ops && s'.ops[x] == s.ops[x])
    && (o in s.ops && o in s'.ops ==> s'.ops[o].proc == s.ops[o].proc && s'.ops[o].chunk == s.ops[o].chunk)
  }

  /** A step of activity o moves only o in or out of the holders of a slot. */
  lemma HoldersFrame(s: State, s': State, o: nat, c: nat, i: nat)
    requires OnlyOp(s, s', o)
    ensures HoldsAt(s', o, c, i) ==> Holders(s', c, i) == Holders(s, c, i) + {o}
    ensures !HoldsAt(s', o, c, i) ==> Holders(s', c, i) == Holders(s, c, i) - {o}
  {
    assert forall x :: x != o ==> (HoldsAt(s', x, c, i) <==> HoldsAt(s, x, c, i));
  }

  lemma SameHolders(s: State, s': State, o: nat, c: nat, i: nat)
    requires OnlyOp(s, s', o)
    requires HoldsAt(s', o, c, i) <==> HoldsAt(s, o, c, i)
    ensures Holders(s', c, i) == Holders(s, c, i)
  {
    HoldersFrame(s, s', o, c, i);
  }

  lemma SameUnclaimed(s: State, s': State, o: nat, c: nat, i: nat)
    requires OnlyOp(s, s', o) && Unclaimed(s, c, i)
    requires !ClaimsAt(s', o, c, i)
    ensures Unclaimed(s', c, i)
  {
    assert forall x :: x != o ==> (ClaimsAt(s', x, c, i) <==> ClaimsAt(s, x, c, i));
  }
}
