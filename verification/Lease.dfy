/**
 The reader-lease and chunk-recycle protocol as a transition system.

 Every step below is one atomic load, store or compare-exchange of a reader, of the single writer,
 or one event of the operating system (a process starts, forks or dies). Steps of different agents
 interleave freely. Compare-exchanges compare words only, as the hardware does; the counter `ver` of a
 slot is an auxiliary that no step tests. It exists to say when a word left and came back.
 */
module Lease {
  import opened Bytes
  import opened Chunks

  const SLOTS: nat := 16
  const MAX_REFS: nat := 0xFFFF_FFFF
  const PIN_ATTEMPTS: nat := 64
  const DRAIN_SPINS: nat := 1024

  /** A lease word: zero, or an owner pid with a reference count; `Owned(pid, 0)` is a claim in progress. */
  datatype Word = Free | Owned(pid: nat, refs: nat)
  {
    function Refs(): nat { if Free? then 0 else refs }
  }

  datatype Slot = Slot(word: Word, start: nat, ver: nat)

  /** Chunk header, payload bytes, lease slots; `ts` lists the timestamps committed in this generation. */
  datatype Chunk = Chunk(state: Phase, gen: nat, used: nat, minTs: int, maxTs: int,
                         data: seq<Byte>, ts: seq<int>, slots: seq<Slot>)

  /** One process instance; pids may be used again by later instances. Start time 0 means unknown. */
  datatype Proc = Proc(pid: nat, start: nat, live: bool)

  /** What a pin promises: the generation, the published extent and the bytes below it at capture. */
  datatype Snap = Snap(gen: nat, used: nat, bytes: seq<Byte>)

  datatype Goal = Fresh(attempt: nat, before: Phase, gen: nat) | Adopt(snap: Snap)

  /** Progress of the inspection of one slot. */
  datatype Look =
    | Load
    | TryClaim
    | GotWord(w: Word, v: nat)
    | GotStart(w: Word, v: nat, rec: nat)
    | Clear(w: Word, v: nat)
    | Bump(w: Word)

  /** `owner_pid` of a pin object. */
  datatype Tag = Owner(pid: nat) | Adopting | Invalid

  datatype After = Retry(attempt: nat) | Dropped | Rejected(snap: Snap)

  /** Program counter of one reader activity: a pin from `pin_chunk` to its drop, or a range read. */
  datatype Pc =
    | LoadState(attempt: nat)
    | LoadGen(attempt: nat, before: Phase)
    | Inspect(goal: Goal, start: nat, slot: nat, look: Look)
    | Claimed(goal: Goal, start: nat, slot: nat)
    | Confirm(goal: Goal, start: nat, slot: nat)
    | CheckState(goal: Goal, slot: nat)
    | CheckGen(goal: Goal, slot: nat)
    | LoadUsed(attempt: nat, gen: nat, slot: nat)
    | Pinned(tag: Tag, slot: nat, snap: Snap)
    | ReleaseLoad(after: After, slot: nat)
    | ReleaseCas(after: After, slot: nat, w: Word)
    | RangeGen
    | RangeUsed(gen: nat)
    | RangeMin(gen: nat, rows: seq<int>)
    | RangeMax(gen: nat, rows: seq<int>, lo: int)
    | RangeEnd(gen: nat, rows: seq<int>, lo: int, hi: int)
    | Ranged(gen: nat, rows: seq<int>, lo: int, hi: int)

  datatype Op = Op(proc: nat, chunk: nat, pc: Pc)

  datatype MaybeTs = NoTs | Ts(value: int)

  /** Program counter of the writer: row commit (`Note*`, `Publish`) and `advance_chunk_raw_detailed`. */
  datatype WriterPc =
    | Idle
    | NoteMin(ts: MaybeTs, upto: nat)
    | NoteMax(ts: MaybeTs, upto: nat)
    | Publish(ts: MaybeTs, upto: nat)
    | StoreEmpty(prev: Phase)
    | Scan(prev: Phase, attempt: nat, slot: nat, live: bool, look: Look)
    | Restore(prev: Phase)
    | Seal
    | BumpGen
    | ResetUsed
    | ResetMin
    | ResetMax
    | StoreWriting
    | StoreWriteChunk

  datatype State = State(chunks: seq<Chunk>, procs: map<nat, Proc>, ops: map<nat, Op>,
                         writeChunk: nat, writer: WriterPc)

  datatype Step =
    | Spawn(q: nat, pid: nat, start: nat)
    | Die(p: nat)
    | Fork(p: nat, q: nat, pid: nat, start: nat, copies: map<nat, nat>)
    | BeginPin(o: nat, p: nat, chunk: nat)
    | BeginRange(o: nat, p: nat, chunk: nat)
    | Tick(o: nat, dead: bool, start: nat)
    | StartAdopt(o: nat, start: nat)
    | Drop(o: nat)
    | Scribble(at: nat, b: Byte)
    | BeginCommit(ts: MaybeTs, upto: nat)
    | BeginAdvance
    | WriterTick(dead: bool)

  // ----- state access and update

  ghost predicate Shape(s: State)
  {
    && s.writeChunk < |s.chunks|
    && (forall c :: 0 <= c < |s.chunks| ==> |s.chunks[c].slots| == SLOTS && s.chunks[c].used <= |s.chunks[c].data|)
    && (forall o :: o in s.ops ==> OpShape(s, s.ops[o]))
    && (s.writer.Scan? ==> s.writer.slot < SLOTS)
  }

  predicate OpShape(s: State, op: Op)
  {
    op.proc in s.procs && op.chunk < |s.chunks| && SlotOf(op.pc) < SLOTS
  }

  function SlotOf(pc: Pc): nat
  {
    match pc
    case Inspect(_, _, i, _) => i
    case Claimed(_, _, i) => i
    case Confirm(_, _, i) => i
    case CheckState(_, i) => i
    case CheckGen(_, i) => i
    case LoadUsed(_, _, i) => i
    case Pinned(_, i, _) => i
    case ReleaseLoad(_, i) => i
    case ReleaseCas(_, i, _) => i
    case _ => 0
  }

  function Target(s: State): nat
    requires |s.chunks| > 0
  {
    (s.writeChunk + 1) % |s.chunks|
  }

  predicate Live(s: State, o: nat)
  {
    o in s.ops && s.ops[o].proc in s.procs && s.procs[s.ops[o].proc].live
  }

  function PidOf(s: State, o: nat): nat
    requires o in s.ops && s.ops[o].proc in s.procs
  {
    s.procs[s.ops[o].proc].pid
  }

  predicate LivePid(s: State, pid: nat)
  {
    exists p :: p in s.procs && s.procs[p].live && s.procs[p].pid == pid
  }

  function SlotAt(s: State, c: nat, i: nat): Slot
    requires c < |s.chunks| && i < |s.chunks[c].slots|
  {
    s.chunks[c].slots[i]
  }

  function SetPc(s: State, o: nat, pc: Pc): State
    requires o in s.ops
  {
    s.(ops := s.ops[o := s.ops[o].(pc := pc)])
  }

  function EndOp(s: State, o: nat): State
  {
    s.(ops := s.ops - {o})
  }

  function SetChunk(s: State, c: nat, ch: Chunk): State
    requires c < |s.chunks|
  {
    s.(chunks := s.chunks[c := ch])
  }

  function SetSlot(s: State, c: nat, i: nat, slot: Slot): State
    requires c < |s.chunks| && i < |s.chunks[c].slots|
  {
    SetChunk(s, c, s.chunks[c].(slots := s.chunks[c].slots[i := slot]))
  }

  /** Store a new lease word; every change of the word gets a new version. */
  function SetWord(s: State, c: nat, i: nat, w: Word): State
    requires c < |s.chunks| && i < |s.chunks[c].slots|
  {
    SetSlot(s, c, i, SlotAt(s, c, i).(word := w, ver := SlotAt(s, c, i).ver + 1))
  }

  // ----- the liveness oracle: "dead" is only ever reported of an instance that is gone

  predicate DeadPid(s: State, pid: nat)
  {
    !LivePid(s, pid)
  }

  predicate DeadInstance(s: State, pid: nat, rec: nat)
  {
    || !LivePid(s, pid)
    || (rec != 0 && forall p :: p in s.procs && s.procs[p].live && s.procs[p].pid == pid
                                ==> s.procs[p].start != 0 && s.procs[p].start != rec)
  }

  predicate DeadOwner(s: State, w: Word, rec: nat)
  {
    w.Owned? && if w.refs == 0 then DeadPid(s, w.pid) else DeadInstance(s, w.pid, rec)
  }

  // ----- acquire_process_lease

  function GiveUp(s: State, o: nat, goal: Goal): State
    requires o in s.ops
  {
    match goal
    case Fresh(_, _, _) => EndOp(s, o)
    case Adopt(snap) => SetPc(s, o, Pinned(Invalid, 0, snap))
  }

  function NextSlot(s: State, o: nat, goal: Goal, start: nat, i: nat): State
    requires o in s.ops
  {
    if i + 1 < SLOTS then SetPc(s, o, Inspect(goal, start, i + 1, Load)) else GiveUp(s, o, goal)
  }

  function InspectStep(s: State, o: nat, dead: bool): State
    requires Shape(s) && o in s.ops && s.ops[o].pc.Inspect?
  {
    var Op(p, c, Inspect(goal, start, i, look)) := s.ops[o];
    var pid := s.procs[p].pid;
    var slot := SlotAt(s, c, i);
    match look
    case Load =>
      if slot.word.Free? then SetPc(s, o, Inspect(goal, start, i, TryClaim))
      else SetPc(s, o, Inspect(goal, start, i, GotWord(slot.word, slot.ver)))
    case TryClaim =>
      if slot.word.Free? then SetPc(SetWord(s, c, i, Owned(pid, 0)), o, Claimed(goal, start, i))
      else SetPc(s, o, Inspect(goal, start, i, Load))
    case GotWord(w, v) =>
      if w.Refs() > 0 then SetPc(s, o, Inspect(goal, start, i, GotStart(w, v, slot.start)))
      else if dead then SetPc(s, o, Inspect(goal, start, i, Clear(w, v)))
      else NextSlot(s, o, goal, start, i)
    case GotStart(w, v, rec) =>
      if w.Owned? && w.pid == pid then
        if rec != start then
          if rec != 0 && start != 0 then SetPc(s, o, Inspect(goal, start, i, Clear(w, v)))
          else NextSlot(s, o, goal, start, i)
        else if w.refs == MAX_REFS then GiveUp(s, o, goal)
        else SetPc(s, o, Inspect(goal, start, i, Bump(w)))
      else if dead then SetPc(s, o, Inspect(goal, start, i, Clear(w, v)))
      else NextSlot(s, o, goal, start, i)
    case Clear(w, v) =>
      SetPc(if slot.word == w then SetWord(s, c, i, Free) else s, o, Inspect(goal, start, i, Load))
    case Bump(w) =>
      if slot.word == w && w.Owned? then SetPc(SetWord(s, c, i, Owned(pid, w.refs + 1)), o, CheckState(goal, i))
      else SetPc(s, o, Inspect(goal, start, i, Load))
  }

  // ----- release_process_lease

  function Released(s: State, o: nat, after: After): State
    requires o in s.ops
  {
    match after
    case Retry(attempt) => if attempt + 1 < PIN_ATTEMPTS then SetPc(s, o, LoadState(attempt + 1)) else EndOp(s, o)
    case Dropped => EndOp(s, o)
    case Rejected(snap) => SetPc(s, o, Pinned(Invalid, 0, snap))
  }

  function OneLess(w: Word): Word
    requires w.Owned? && w.refs > 0
  {
    if w.refs == 1 then Free else Owned(w.pid, w.refs - 1)
  }

  function Reject(goal: Goal): After
  {
    match goal
    case Fresh(attempt, _, _) => Retry(attempt)
    case Adopt(snap) => Rejected(snap)
  }

  // ----- pin_chunk, ensure_current_process and chunk_ts_range

  function OpStep(s: State, o: nat, dead: bool, start: nat): State
    requires Shape(s) && o in s.ops
  {
    var Op(p, c, pc) := s.ops[o];
    var pid := s.procs[p].pid;
    var ch := s.chunks[c];
    match pc
    case LoadState(attempt) =>
      if ch.state.Empty? then EndOp(s, o) else SetPc(s, o, LoadGen(attempt, ch.state))
    case LoadGen(attempt, before) =>
      SetPc(s, o, Inspect(Fresh(attempt, before, ch.gen), start, 0, Load))
    case Inspect(_, _, _, _) =>
      InspectStep(s, o, dead)
    case Claimed(goal, st, i) =>
      SetPc(SetSlot(s, c, i, ch.slots[i].(start := st)), o, Confirm(goal, st, i))
    case Confirm(goal, st, i) =>
      if ch.slots[i].word == Owned(pid, 0) then SetPc(SetWord(s, c, i, Owned(pid, 1)), o, CheckState(goal, i))
      else NextSlot(s, o, goal, st, i)
    case CheckState(goal, i) =>
      if !ch.state.Empty? && (goal.Fresh? ==> ch.state == goal.before) then SetPc(s, o, CheckGen(goal, i))
      else SetPc(s, o, ReleaseLoad(Reject(goal), i))
    case CheckGen(goal, i) =>
      (match goal
       case Fresh(attempt, _, gen) =>
         if ch.gen == gen then SetPc(s, o, LoadUsed(attempt, gen, i)) else SetPc(s, o, ReleaseLoad(Reject(goal), i))
       case Adopt(snap) =>
         if ch.gen == snap.gen then SetPc(s, o, Pinned(Owner(pid), i, snap))
         else SetPc(s, o, ReleaseLoad(Reject(goal), i)))
    case LoadUsed(attempt, gen, i) =>
      if ch.used <= |ch.data| then SetPc(s, o, Pinned(Owner(pid), i, Snap(gen, ch.used, ch.data[..ch.used])))
      else SetPc(s, o, ReleaseLoad(Retry(attempt), i))
    case Pinned(_, _, _) => s
    case ReleaseLoad(after, i) =>
      var w := ch.slots[i].word;
      if w.Free? || w.pid != pid || w.refs == 0 then Released(s, o, after)
      else SetPc(s, o, ReleaseCas(after, i, w))
    case ReleaseCas(after, i, w) =>
      if ch.slots[i].word == w && w.Refs() > 0 then Released(SetWord(s, c, i, OneLess(w)), o, after)
      else SetPc(s, o, ReleaseLoad(after, i))
    case RangeGen => SetPc(s, o, RangeUsed(ch.gen))
    case RangeUsed(gen) => SetPc(s, o, RangeMin(gen, ch.ts))
    case RangeMin(gen, rows) => SetPc(s, o, RangeMax(gen, rows, ch.minTs))
    case RangeMax(gen, rows, lo) => SetPc(s, o, RangeEnd(gen, rows, lo, ch.maxTs))
    case RangeEnd(gen, rows, lo, hi) =>
      if ch.gen == gen then SetPc(s, o, Ranged(gen, rows, lo, hi)) else EndOp(s, o)
    case Ranged(_, _, _, _) => s
  }

  // ----- the writer

  function SetWriter(s: State, w: WriterPc): State
  {
    s.(writer := w)
  }

  /** End of one pass over the slots: drain again, take the deciding pass, give up or recycle. */
  function EndScan(s: State, prev: Phase, attempt: nat, live: bool): State
  {
    if attempt < DRAIN_SPINS then
      SetWriter(s, Scan(prev, if live then attempt + 1 else DRAIN_SPINS, 0, false, Load))
    else if live then SetWriter(s, Restore(prev))
    else SetWriter(s, Seal)
  }

  function NextScan(s: State, prev: Phase, attempt: nat, i: nat, live: bool): State
  {
    if i + 1 < SLOTS then SetWriter(s, Scan(prev, attempt, i + 1, live, Load))
    else EndScan(s, prev, attempt, live)
  }

  function ScanStep(s: State, dead: bool): State
    requires Shape(s) && s.writer.Scan?
  {
    var Scan(prev, attempt, i, live, look) := s.writer;
    var slot := SlotAt(s, Target(s), i);
    match look
    case GotWord(w, v) => SetWriter(s, Scan(prev, attempt, i, live, GotStart(w, v, slot.start)))
    case GotStart(w, v, _) =>
      if dead then SetWriter(s, Scan(prev, attempt, i, live, Clear(w, v)))
      else NextScan(s, prev, attempt, i, true)
    case Clear(w, v) =>
      if slot.word == w then NextScan(SetWord(s, Target(s), i, Free), prev, attempt, i, live)
      else SetWriter(s, Scan(prev, attempt, i, live, Load))
    case _ =>
      if slot.word.Free? then NextScan(s, prev, attempt, i, live)
      else SetWriter(s, Scan(prev, attempt, i, live, GotWord(slot.word, slot.ver)))
  }

  function Min(a: int, b: int): int { if a < b then a else b }
  function Max(a: int, b: int): int { if a > b then a else b }

  function WriterStep(s: State, dead: bool): State
    requires Shape(s)
  {
    var c := s.writeChunk;
    var t := Target(s);
    var cur := s.chunks[c];
    var next := s.chunks[t];
    match s.writer
    case Idle => s
    case NoteMin(ts, upto) =>
      SetWriter(SetChunk(s, c, if ts.Ts? then cur.(minTs := Min(cur.minTs, ts.value)) else cur), NoteMax(ts, upto))
    case NoteMax(ts, upto) =>
      SetWriter(SetChunk(s, c, if ts.Ts? then cur.(maxTs := Max(cur.maxTs, ts.value)) else cur), Publish(ts, upto))
    case Publish(ts, upto) =>
      SetWriter(SetChunk(s, c, cur.(used := upto, ts := if ts.Ts? then cur.ts + [ts.value] else cur.ts)), Idle)
    case StoreEmpty(prev) =>
      SetWriter(SetChunk(s, t, next.(state := Empty)), Scan(prev, 0, 0, false, Load))
    case Scan(_, _, _, _, _) => ScanStep(s, dead)
    case Restore(prev) => SetWriter(SetChunk(s, t, next.(state := prev)), Idle)
    case Seal => SetWriter(if c != t then SetChunk(s, c, cur.(state := Sealed)) else s, BumpGen)
    case BumpGen => SetWriter(SetChunk(s, t, next.(gen := next.gen + 1, ts := [])), ResetUsed)
    case ResetUsed => SetWriter(SetChunk(s, t, next.(used := 0)), ResetMin)
    case ResetMin => SetWriter(SetChunk(s, t, next.(minTs := TS_MIN_INIT)), ResetMax)
    case ResetMax => SetWriter(SetChunk(s, t, next.(maxTs := TS_MAX_INIT)), StoreWriting)
    case StoreWriting => SetWriter(SetChunk(s, t, next.(state := Writing)), StoreWriteChunk)
    case StoreWriteChunk => s.(writeChunk := t, writer := Idle)
  }

  // ----- processes

  /** The part of an activity that lives in memory shared with nobody and is copied by `fork`. */
  predicate IsPinObject(pc: Pc)
  {
    pc.Pinned? || PinSnap(pc).Some?
  }

  datatype MaybeSnap = None | Some(snap: Snap)

  /** The snapshot of a pin object, also while its adoption is under way. */
  function PinSnap(pc: Pc): MaybeSnap
  {
    match pc
    case Pinned(_, _, snap) => Some(snap)
    case Inspect(Adopt(snap), _, _, _) => Some(snap)
    case Claimed(Adopt(snap), _, _) => Some(snap)
    case Confirm(Adopt(snap), _, _) => Some(snap)
    case CheckState(Adopt(snap), _) => Some(snap)
    case CheckGen(Adopt(snap), _) => Some(snap)
    case ReleaseLoad(Rejected(snap), _) => Some(snap)
    case ReleaseCas(Rejected(snap), _, _) => Some(snap)
    case _ => None
  }

  /** The child's copy: same owner tag; a copy made while the parent was adopting stays in that state. */
  function Inherited(op: Op, q: nat): Op
    requires IsPinObject(op.pc)
  {
    if op.pc.Pinned? then Op(q, op.chunk, op.pc) else Op(q, op.chunk, Pinned(Adopting, 0, PinSnap(op.pc).snap))
  }

  // ----- steps

  predicate Can(s: State, step: Step)
  {
    match step
    case Spawn(q, pid, start) => q !in s.procs && !LivePid(s, pid)
    case Die(p) => p in s.procs
    case Fork(p, q, pid, start, copies) =>
      && p in s.procs && s.procs[p].live && q !in s.procs && !LivePid(s, pid)
      && (forall n :: n in copies ==> n !in s.ops && copies[n] in s.ops && s.ops[copies[n]].proc == p
                                      && IsPinObject(s.ops[copies[n]].pc))
    case BeginPin(o, p, c) => o !in s.ops && p in s.procs && s.procs[p].live && c < |s.chunks|
    case BeginRange(o, p, c) => o !in s.ops && p in s.procs && s.procs[p].live && c < |s.chunks|
    case Tick(o, dead, start) =>
      && Live(s, o)
      && (s.ops[o].pc.LoadGen? ==> start == 0 || start == s.procs[s.ops[o].proc].start)
      && (dead && s.ops[o].pc.Inspect? ==>
            match s.ops[o].pc.look
            case GotWord(w, _) => DeadOwner(s, w, 0)
            case GotStart(w, _, rec) => DeadOwner(s, w, rec)
            case _ => true)
    case StartAdopt(o, start) =>
      && Live(s, o) && s.ops[o].pc.Pinned? && s.ops[o].pc.tag.Owner? && s.ops[o].pc.tag.pid != PidOf(s, o)
      && (start == 0 || start == s.procs[s.ops[o].proc].start)
    case Drop(o) => Live(s, o) && (s.ops[o].pc.Pinned? || s.ops[o].pc.Ranged?)
    case Scribble(at, b) =>
      && s.writer.Idle? && s.writeChunk < |s.chunks|
      && s.chunks[s.writeChunk].used <= at < |s.chunks[s.writeChunk].data|
    case BeginCommit(ts, upto) =>
      && s.writer.Idle? && s.writeChunk < |s.chunks|
      && s.chunks[s.writeChunk].used <= upto <= |s.chunks[s.writeChunk].data|
    case BeginAdvance => s.writer.Idle?
    case WriterTick(dead) =>
      dead && s.writer.Scan? && s.writer.look.GotStart? ==> DeadOwner(s, s.writer.look.w, s.writer.look.rec)
  }

  function Do(s: State, step: Step): State
    requires Shape(s) && Can(s, step)
  {
    match step
    case Spawn(q, pid, start) => s.(procs := s.procs[q := Proc(pid, start, true)])
    case Die(p) => s.(procs := s.procs[p := s.procs[p].(live := false)])
    case Fork(p, q, pid, start, copies) =>
      s.(procs := s.procs[q := Proc(pid, start, true)],
         ops := s.ops + map n | n in copies :: Inherited(s.ops[copies[n]], q))
    case BeginPin(o, p, c) => s.(ops := s.ops[o := Op(p, c, LoadState(0))])
    case BeginRange(o, p, c) => s.(ops := s.ops[o := Op(p, c, RangeGen)])
    case Tick(o, dead, start) => OpStep(s, o, dead, start)
    case StartAdopt(o, start) => SetPc(s, o, Inspect(Adopt(s.ops[o].pc.snap), start, 0, Load))
    case Drop(o) =>
      if s.ops[o].pc.Pinned? && s.ops[o].pc.tag == Owner(PidOf(s, o))
      then SetPc(s, o, ReleaseLoad(Dropped, s.ops[o].pc.slot)) else EndOp(s, o)
    case Scribble(at, b) =>
      SetChunk(s, s.writeChunk, s.chunks[s.writeChunk].(data := s.chunks[s.writeChunk].data[at := b]))
    case BeginCommit(ts, upto) => SetWriter(s, NoteMin(ts, upto))
    case BeginAdvance => SetWriter(s, StoreEmpty(s.chunks[Target(s)].state))
    case WriterTick(dead) => WriterStep(s, dead)
  }
}
