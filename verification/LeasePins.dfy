/** What pins, adoptions, drops and range reads come to when nobody else moves. */
module LeasePins {
  import opened Chunks
  import opened Lease
  import opened LeaseSafety

  // ----- steps of one activity alone

  datatype Trace = Trace(states: seq<State>, steps: seq<Step>)

  predicate By(step: Step, o: nat)
  {
    match step
    case Tick(x, _, _) => x == o
    case BeginPin(x, _, _) => x == o
    case BeginRange(x, _, _) => x == o
    case StartAdopt(x, _) => x == o
    case Drop(x) => x == o
    case _ => false
  }

  /** A run in which only activity o takes steps. */
  ghost predicate Alone(r: Trace, o: nat)
  {
    IsRun(r.states, r.steps) && Shape(End(r)) && forall k :: 0 <= k < |r.steps| ==> By(r.steps[k], o)
  }

  function End(r: Trace): State
    requires |r.states| == |r.steps| + 1
  {
    r.states[|r.steps|]
  }

  /** The longer run begins with the shorter one's first state. */
  ghost predicate From(r: Trace, s: State, o: nat)
  {
    Alone(r, o) && r.states[0] == s
  }

  lemma Go(r: Trace, s: State, o: nat, step: Step) returns (r': Trace)
    requires From(r, s, o) && Can(End(r), step) && By(step, o) && Shape(Do(End(r), step))
    ensures From(r', s, o) && End(r') == Do(End(r), step)
  {
    hide Can, Do, Shape;
    r' := Trace(r.states + [Do(End(r), step)], r.steps + [step]);
    forall k | 0 <= k < |r'.steps|
      ensures Shape(r'.states[k]) && Can(r'.states[k], r'.steps[k]) && By(r'.steps[k], o)
      ensures r'.states[k + 1] == Do(r'.states[k], r'.steps[k])
    {
      if k < |r.steps| {
        assert r'.states[k] == r.states[k] && r'.states[k + 1] == r.states[k + 1] && r'.steps[k] == r.steps[k];
      } else {
        assert r'.states[k] == End(r);
      }
    }
  }

  /** One tick. */
  lemma Tock(r: Trace, s: State, o: nat, dead: bool, start: nat) returns (r': Trace)
    requires From(r, s, o) && Can(End(r), Tick(o, dead, start)) && Shape(OpStep(End(r), o, dead, start))
    ensures From(r', s, o) && End(r') == OpStep(End(r), o, dead, start)
  {
    r' := Go(r, s, o, Tick(o, dead, start));
  }

  // ----- one slot

  datatype Visit = Skipped | Taken | Joined | Full

  /**
   What an acquiring process with this pid and start time makes of a slot. A free slot is taken; its own
   slot with its own start time is joined, unless 2^32 - 1 references are out; its own slot with another
   known start time is left over from an earlier process and taken; that of a dead owner is taken; any
   other is skipped.
   */
  function VisitOf(slot: Slot, pid: nat, start: nat, dead: bool): Visit
  {
    match slot.word
    case Free => Taken
    case Owned(owner, refs) =>
      if refs > 0 && owner == pid then
        if slot.start == start then if refs == 0xFFFF_FFFF then Full else Joined
        else if slot.start != 0 && start != 0 then Taken
        else Skipped
      else if dead then Taken
      else Skipped
  }

  /** The word a successful visit leaves. */
  function After(slot: Slot, pid: nat, v: Visit): Word
    requires v.Taken? || (v.Joined? && slot.word.Owned?)
  {
    if v.Taken? then Owned(pid, 1) else Owned(pid, slot.word.refs + 1)
  }

  /** s with one slot and the pc of o changed. */
  function Moved(s: State, o: nat, c: nat, i: nat, slot: Slot, pc: Pc): State
    requires Shape(s) && o in s.ops && c < |s.chunks| && i < SLOTS
  {
    SetPc(SetSlot(s, c, i, slot), o, pc)
  }

  lemma MovedShape(s: State, o: nat, c: nat, i: nat, slot: Slot, pc: Pc)
    requires Shape(s) && o in s.ops && c < |s.chunks| && i < SLOTS && SlotOf(pc) < SLOTS
    ensures Shape(Moved(s, o, c, i, slot, pc))
    ensures SlotAt(Moved(s, o, c, i, slot, pc), c, i) == slot
    ensures Live(Moved(s, o, c, i, slot, pc), o) <==> Live(s, o)
  {
  }

  lemma MovedTwice(s: State, o: nat, c: nat, i: nat, slot: Slot, pc: Pc, slot': Slot, pc': Pc)
    requires Shape(s) && o in s.ops && c < |s.chunks| && i < SLOTS && SlotOf(pc) < SLOTS
    ensures Shape(Moved(s, o, c, i, slot, pc))
    ensures Moved(Moved(s, o, c, i, slot, pc), o, c, i, slot', pc') == Moved(s, o, c, i, slot', pc')
  {
    MovedShape(s, o, c, i, slot, pc);
    assert s.chunks[c].slots[i := slot][i := slot'] == s.chunks[c].slots[i := slot'];
  }

  lemma MovedSame(s: State, o: nat, c: nat, i: nat, pc: Pc)
    requires Shape(s) && o in s.ops && c < |s.chunks| && i < SLOTS
    ensures Moved(s, o, c, i, SlotAt(s, c, i), pc) == SetPc(s, o, pc)
  {
    assert s.chunks[c].slots[i := s.chunks[c].slots[i]] == s.chunks[c].slots;
    assert s.chunks[c := s.chunks[c]] == s.chunks;
  }

  /** Nothing has moved yet. */
  lemma MovedNone(s: State, o: nat, c: nat, i: nat)
    requires Shape(s) && o in s.ops && c < |s.chunks| && i < SLOTS
    ensures Moved(s, o, c, i, SlotAt(s, c, i), s.ops[o].pc) == s
  {
    MovedSame(s, o, c, i, s.ops[o].pc);
    assert s.ops[o := s.ops[o].(pc := s.ops[o].pc)] == s.ops;
  }

  /** What a step of o at its slot reads and writes. */
  predicate StepsTo(pid: nat, slot: Slot, pc: Pc, slot': Slot, pc': Pc)
  {
    match pc
    case Inspect(goal, start, i, Load) =>
      && slot' == slot
      && pc' == Inspect(goal, start, i, if slot.word.Free? then TryClaim else GotWord(slot.word, slot.ver))
    case Inspect(goal, start, i, TryClaim) =>
      slot.word.Free? && slot' == Slot(Owned(pid, 0), slot.start, slot.ver + 1) && pc' == Claimed(goal, start, i)
    case Inspect(goal, start, i, GotWord(w, v)) =>
      slot' == slot && w.Refs() > 0 && pc' == Inspect(goal, start, i, GotStart(w, v, slot.start))
    case Inspect(goal, start, i, GotStart(w, v, rec)) =>
      && slot' == slot && w.Owned? && w.pid == pid
      && ((rec != start && rec != 0 && start != 0 && pc' == Inspect(goal, start, i, Clear(w, v)))
          || (rec == start && w.refs != 0xFFFF_FFFF && pc' == Inspect(goal, start, i, Bump(w))))
    case Inspect(goal, start, i, Clear(w, v)) =>
      slot.word == w && slot' == Slot(Free, slot.start, slot.ver + 1) && pc' == Inspect(goal, start, i, Load)
    case Inspect(goal, start, i, Bump(w)) =>
      && slot.word == w && w.Owned?
      && slot' == Slot(Owned(pid, w.refs + 1), slot.start, slot.ver + 1) && pc' == CheckState(goal, i)
    case Claimed(goal, start, i) => slot' == slot.(start := start) && pc' == Confirm(goal, start, i)
    case Confirm(goal, start, i) =>
      && slot.word == Owned(pid, 0)
      && slot' == Slot(Owned(pid, 1), slot.start, slot.ver + 1) && pc' == CheckState(goal, i)
    case _ => false
  }

  lemma TickTo(e: State, o: nat, c: nat, i: nat, slot: Slot, pc: Pc, slot': Slot, pc': Pc)
    requires Shape(e) && Live(e, o) && e.ops[o].chunk == c && i < SLOTS && SlotOf(pc) == i
    requires e.ops[o].pc == pc && SlotAt(e, c, i) == slot && StepsTo(PidOf(e, o), slot, pc, slot', pc')
    ensures Can(e, Tick(o, false, 0)) && OpStep(e, o, false, 0) == Moved(e, o, c, i, slot', pc')
  {
    MovedSame(e, o, c, i, pc');
  }

  lemma StepTo(r: Trace, s: State, e: State, o: nat, c: nat, i: nat, slot: Slot, pc: Pc, slot': Slot, pc': Pc)
    returns (r': Trace)
    requires From(r, s, o) && Shape(e) && Live(e, o) && e.ops[o].chunk == c && i < SLOTS
    requires SlotOf(pc) == i && SlotOf(pc') == i && End(r) == Moved(e, o, c, i, slot, pc)
    requires StepsTo(PidOf(e, o), slot, pc, slot', pc')
    ensures From(r', s, o) && End(r') == Moved(e, o, c, i, slot', pc')
  {
    hide Can, OpStep, StepsTo;
    MovedShape(e, o, c, i, slot, pc);
    MovedTwice(e, o, c, i, slot, pc, slot', pc');
    TickTo(End(r), o, c, i, slot, pc, slot', pc');
    MovedShape(e, o, c, i, slot', pc');
    r' := Tock(r, s, o, false, 0);
  }

  /** The setting of a visit: activity o of process pid at slot i of chunk c, in a state that is e but for both. */
  ghost predicate Visits(r: Trace, s: State, e: State, o: nat, c: nat, i: nat, slot: Slot, pc: Pc)
  {
    && From(r, s, o) && Shape(e) && Live(e, o) && e.ops[o].chunk == c && i < SLOTS && SlotOf(pc) == i
    && End(r) == Moved(e, o, c, i, slot, pc)
  }

  /** A free slot: claimed, stamped with the start time, confirmed. */
  lemma TakeFree(r: Trace, s: State, e: State, o: nat, c: nat, i: nat, slot: Slot, goal: Goal, start: nat)
    returns (r': Trace)
    requires Visits(r, s, e, o, c, i, slot, Inspect(goal, start, i, Load)) && slot.word.Free?
    ensures Visits(r', s, e, o, c, i, Slot(Owned(PidOf(e, o), 1), start, slot.ver + 2), CheckState(goal, i))
  {
    hide Moved, From;
    var pid := PidOf(e, o);
    var r1 := StepTo(r, s, e, o, c, i, slot, Inspect(goal, start, i, Load), slot, Inspect(goal, start, i, TryClaim));
    var slot1 := Slot(Owned(pid, 0), slot.start, slot.ver + 1);
    var r2 := StepTo(r1, s, e, o, c, i, slot, Inspect(goal, start, i, TryClaim), slot1, Claimed(goal, start, i));
    var slot2 := slot1.(start := start);
    var r3 := StepTo(r2, s, e, o, c, i, slot1, Claimed(goal, start, i), slot2, Confirm(goal, start, i));
    var slot3 := Slot(Owned(pid, 1), start, slot.ver + 2);
    r' := StepTo(r3, s, e, o, c, i, slot2, Confirm(goal, start, i), slot3, CheckState(goal, i));
  }

  /** The word is loaded. */
  lemma LoadWord(r: Trace, s: State, e: State, o: nat, c: nat, i: nat, slot: Slot, goal: Goal, start: nat)
    returns (r': Trace)
    requires Visits(r, s, e, o, c, i, slot, Inspect(goal, start, i, Load)) && slot.word.Owned?
    ensures Visits(r', s, e, o, c, i, slot, Inspect(goal, start, i, GotWord(slot.word, slot.ver)))
  {
    hide Moved, From;
    r' := StepTo(r, s, e, o, c, i, slot, Inspect(goal, start, i, Load),
                 slot, Inspect(goal, start, i, GotWord(slot.word, slot.ver)));
  }

  /** Word and start time are loaded. */
  lemma LoadBoth(r: Trace, s: State, e: State, o: nat, c: nat, i: nat, slot: Slot, goal: Goal, start: nat)
    returns (r': Trace)
    requires Visits(r, s, e, o, c, i, slot, Inspect(goal, start, i, Load)) && slot.word.Owned? && slot.word.refs > 0
    ensures Visits(r', s, e, o, c, i, slot, Inspect(goal, start, i, GotStart(slot.word, slot.ver, slot.start)))
  {
    hide Moved, From;
    var r1 := LoadWord(r, s, e, o, c, i, slot, goal, start);
    r' := StepTo(r1, s, e, o, c, i, slot, Inspect(goal, start, i, GotWord(slot.word, slot.ver)),
                 slot, Inspect(goal, start, i, GotStart(slot.word, slot.ver, slot.start)));
  }

  lemma JoinOwn(r: Trace, s: State, e: State, o: nat, c: nat, i: nat, slot: Slot, goal: Goal, start: nat)
    returns (r': Trace)
    requires Visits(r, s, e, o, c, i, slot, Inspect(goal, start, i, Load))
    requires VisitOf(slot, PidOf(e, o), start, false).Joined?
    ensures Visits(r', s, e, o, c, i, Slot(Owned(PidOf(e, o), slot.word.refs + 1), start, slot.ver + 1),
                   CheckState(goal, i))
  {
    hide Moved, From;
    var w, v := slot.word, slot.ver;
    var r1 := LoadBoth(r, s, e, o, c, i, slot, goal, start);
    var r2 := StepTo(r1, s, e, o, c, i, slot, Inspect(goal, start, i, GotStart(w, v, slot.start)),
                     slot, Inspect(goal, start, i, Bump(w)));
    r' := StepTo(r2, s, e, o, c, i, slot, Inspect(goal, start, i, Bump(w)),
                 Slot(Owned(PidOf(e, o), w.refs + 1), start, v + 1), CheckState(goal, i));
  }

  lemma ClearTo(r: Trace, s: State, e: State, o: nat, c: nat, i: nat, slot: Slot, goal: Goal, start: nat)
    returns (r': Trace)
    requires Visits(r, s, e, o, c, i, slot, Inspect(goal, start, i, Clear(slot.word, slot.ver)))
    ensures Visits(r', s, e, o, c, i, Slot(Free, slot.start, slot.ver + 1), Inspect(goal, start, i, Load))
  {
    hide Moved, From;
    r' := StepTo(r, s, e, o, c, i, slot, Inspect(goal, start, i, Clear(slot.word, slot.ver)),
                 Slot(Free, slot.start, slot.ver + 1), Inspect(goal, start, i, Load));
  }

  /** The owner is found dead: the slot will be reclaimed. */
  lemma DeadTick(r: Trace, s: State, e: State, o: nat, c: nat, i: nat, slot: Slot, goal: Goal, start: nat, look: Look)
    returns (r': Trace)
    requires Visits(r, s, e, o, c, i, slot, Inspect(goal, start, i, look)) && slot.word.Owned?
    requires DeadOwner(e, slot.word, slot.start)
    requires if slot.word.refs == 0 then look == GotWord(slot.word, slot.ver)
             else look == GotStart(slot.word, slot.ver, slot.start) && slot.word.pid != PidOf(e, o)
    ensures Visits(r', s, e, o, c, i, slot, Inspect(goal, start, i, Clear(slot.word, slot.ver)))
  {
    var pc, pc' := Inspect(goal, start, i, look), Inspect(goal, start, i, Clear(slot.word, slot.ver));
    MovedShape(e, o, c, i, slot, pc);
    MovedTwice(e, o, c, i, slot, pc, slot, pc');
    MovedSame(End(r), o, c, i, pc');
    MovedShape(e, o, c, i, slot, pc');
    assert End(r).procs == e.procs && forall pid :: LivePid(End(r), pid) == LivePid(e, pid);
    assert DeadOwner(End(r), slot.word, slot.start);
    r' := Tock(r, s, o, true, 0);
  }

  /** A slot that is nobody's any more is reclaimed and taken. */
  lemma Reclaim(r: Trace, s: State, e: State, o: nat, c: nat, i: nat, slot: Slot, goal: Goal, start: nat, dead: bool)
    returns (r': Trace, ver: nat)
    requires Visits(r, s, e, o, c, i, slot, Inspect(goal, start, i, Load)) && slot.word.Owned?
    requires VisitOf(slot, PidOf(e, o), start, dead).Taken? && (dead ==> DeadOwner(e, slot.word, slot.start))
    ensures Visits(r', s, e, o, c, i, Slot(Owned(PidOf(e, o), 1), start, ver), CheckState(goal, i))
  {
    hide Moved, From, DeadOwner;
    var w, v := slot.word, slot.ver;
    var r1 := r;
    if w.refs > 0 {
      r1 := LoadBoth(r, s, e, o, c, i, slot, goal, start);
      if w.pid == PidOf(e, o) {
        r1 := StepTo(r1, s, e, o, c, i, slot, Inspect(goal, start, i, GotStart(w, v, slot.start)),
                     slot, Inspect(goal, start, i, Clear(w, v)));
      } else {
        r1 := DeadTick(r1, s, e, o, c, i, slot, goal, start, GotStart(w, v, slot.start));
      }
    } else {
      r1 := LoadWord(r, s, e, o, c, i, slot, goal, start);
      r1 := DeadTick(r1, s, e, o, c, i, slot, goal, start, GotWord(w, v));
    }
    var r2 := ClearTo(r1, s, e, o, c, i, slot, goal, start);
    r' := TakeFree(r2, s, e, o, c, i, Slot(Free, slot.start, v + 1), goal, start);
    ver := v + 3;
  }

  /** The last look at a slot that is passed over, or at a full one. */
  lemma LeaveSlot(r: Trace, s: State, e: State, o: nat, c: nat, i: nat, slot: Slot, goal: Goal, start: nat)
    returns (r': Trace)
    requires Visits(r, s, e, o, c, i, slot, Inspect(goal, start, i, Load))
    requires SlotAt(e, c, i) == slot && slot.word.Owned?
    requires var v := VisitOf(slot, PidOf(e, o), start, false); v.Skipped? || v.Full?
    ensures From(r', s, o)
    ensures End(r') == Left(e, o, VisitOf(slot, PidOf(e, o), start, false), goal, start, i)
  {
    var w, v := slot.word, slot.ver;
    var r1, look := r, GotWord(w, v);
    if w.refs > 0 {
      r1 := LoadBoth(r, s, e, o, c, i, slot, goal, start);
      look := GotStart(w, v, slot.start);
    } else {
      r1 := LoadWord(r, s, e, o, c, i, slot, goal, start);
    }
    var pc := Inspect(goal, start, i, look);
    MovedShape(e, o, c, i, slot, pc);
    MovedSame(e, o, c, i, pc);
    LeaveTick(e, o, c, i, slot, goal, start, look);
    r' := Tock(r1, s, o, false, 0);
  }

  lemma SetPcTwice(e: State, o: nat, pc: Pc, pc': Pc)
    requires o in e.ops
    ensures SetPc(SetPc(e, o, pc), o, pc') == SetPc(e, o, pc') && EndOp(SetPc(e, o, pc), o) == EndOp(e, o)
  {
    assert e.ops[o := e.ops[o].(pc := pc)][o := e.ops[o].(pc := pc')] == e.ops[o := e.ops[o].(pc := pc')];
    assert e.ops[o := e.ops[o].(pc := pc)] - {o} == e.ops - {o};
  }

  lemma SameNext(e: State, o: nat, pc: Pc, goal: Goal, start: nat, i: nat)
    requires o in e.ops
    ensures NextSlot(SetPc(e, o, pc), o, goal, start, i) == NextSlot(e, o, goal, start, i)
    ensures GiveUp(SetPc(e, o, pc), o, goal) == GiveUp(e, o, goal)
  {
    SetPcTwice(e, o, pc, Inspect(goal, start, i + 1, Load));
    if goal.Adopt? {
      SetPcTwice(e, o, pc, Pinned(Invalid, 0, goal.snap));
    } else {
      SetPcTwice(e, o, pc, pc);
    }
  }

  /** Where a slot that is not taken leaves the walk. */
  function Left(e: State, o: nat, v: Visit, goal: Goal, start: nat, i: nat): State
    requires o in e.ops
  {
    if v.Full? then GiveUp(e, o, goal) else NextSlot(e, o, goal, start, i)
  }

  lemma LeftShape(e: State, o: nat, v: Visit, goal: Goal, start: nat, i: nat)
    requires Shape(e) && o in e.ops
    ensures Shape(Left(e, o, v, goal, start, i))
  {
  }

  lemma LeaveTick(e: State, o: nat, c: nat, i: nat, slot: Slot, goal: Goal, start: nat, look: Look)
    requires Shape(e) && Live(e, o) && e.ops[o].chunk == c && i < SLOTS && SlotAt(e, c, i) == slot && slot.word.Owned?
    requires var v := VisitOf(slot, PidOf(e, o), start, false); v.Skipped? || v.Full?
    requires look == if slot.word.refs > 0 then GotStart(slot.word, slot.ver, slot.start)
                     else GotWord(slot.word, slot.ver)
    ensures var t := SetPc(e, o, Inspect(goal, start, i, look));
            var u := Left(e, o, VisitOf(slot, PidOf(e, o), start, false), goal, start, i);
            Shape(t) && Can(t, Tick(o, false, 0)) && OpStep(t, o, false, 0) == u && Shape(u)
  {
    var pc := Inspect(goal, start, i, look);
    SameNext(e, o, pc, goal, start, i);
    LeftShape(e, o, VisitOf(slot, PidOf(e, o), start, false), goal, start, i);
    hide NextSlot, GiveUp;
    var t := SetPc(e, o, pc);
    assert OpStep(t, o, false, 0) == InspectStep(t, o, false);
  }

  // ----- the walk over the sixteen slots

  /** The first slot from i on that is not passed over, or 16. */
  function Stop(slots: seq<Slot>, pid: nat, start: nat, dead: seq<bool>, i: nat): (n: nat)
    requires |slots| == |dead| == 16 && i <= 16
    ensures i <= n <= 16
    ensures forall k :: i <= k < n ==> VisitOf(slots[k], pid, start, dead[k]).Skipped?
    ensures n < 16 ==> !VisitOf(slots[n], pid, start, dead[n]).Skipped?
    decreases 16 - i
  {
    if i == 16 then 16
    else if VisitOf(slots[i], pid, start, dead[i]).Skipped? then Stop(slots, pid, start, dead, i + 1)
    else i
  }

  /** The walk gets a lease at slot n. */
  predicate Gets(slots: seq<Slot>, pid: nat, start: nat, dead: seq<bool>, n: nat)
    requires |slots| == |dead| == 16
  {
    n < 16 && (VisitOf(slots[n], pid, start, dead[n]).Taken? || VisitOf(slots[n], pid, start, dead[n]).Joined?)
  }

  /** The answers of the liveness oracle, slot by slot, are true. */
  ghost predicate TrueAnswers(s: State, c: nat, dead: seq<bool>)
    requires Shape(s) && c < |s.chunks|
  {
    |dead| == 16 && forall i :: 0 <= i < 16 && dead[i] ==> DeadOwner(s, SlotAt(s, c, i).word, SlotAt(s, c, i).start)
  }

  /** One slot of the walk. */
  lemma OneSlot(r: Trace, s: State, e: State, o: nat, c: nat, i: nat, goal: Goal, start: nat, dead: bool)
    returns (r': Trace, ver: nat)
    requires Shape(e) && c < |e.chunks| && i < SLOTS
    requires Visits(r, s, e, o, c, i, SlotAt(e, c, i), Inspect(goal, start, i, Load))
    requires dead ==> DeadOwner(e, SlotAt(e, c, i).word, SlotAt(e, c, i).start)
    ensures var slot, pid := SlotAt(e, c, i), PidOf(e, o);
            var v := VisitOf(slot, pid, start, dead);
            if v.Taken? || v.Joined? then
              Visits(r', s, e, o, c, i, Slot(After(slot, pid, v), start, ver), CheckState(goal, i))
            else From(r', s, o) && End(r') == Left(e, o, v, goal, start, i)
  {
    hide Moved, From, DeadOwner, Left;
    var slot, pid := SlotAt(e, c, i), PidOf(e, o);
    var v := VisitOf(slot, pid, start, dead);
    ver := 0;
    if slot.word.Free? {
      r' := TakeFree(r, s, e, o, c, i, slot, goal, start);
      ver := slot.ver + 2;
    } else if v.Taken? {
      r', ver := Reclaim(r, s, e, o, c, i, slot, goal, start, dead);
    } else if v.Joined? {
      r' := JoinOwn(r, s, e, o, c, i, slot, goal, start);
      ver := slot.ver + 1;
    } else {
      r' := LeaveSlot(r, s, e, o, c, i, slot, goal, start);
    }
  }

  /** From slot i on: a lease at the slot where the walk stops, or nothing at all. */
  lemma {:induction false} Walk(r: Trace, s: State, e: State, o: nat, c: nat, i: nat, goal: Goal, start: nat,
                                dead: seq<bool>)
    returns (r': Trace, ver: nat)
    requires From(r, s, o) && Shape(e) && Live(e, o) && c < |e.chunks| && e.ops[o].chunk == c && i < 16
    requires TrueAnswers(e, c, dead)
    requires End(r) == SetPc(e, o, Inspect(goal, start, i, Load))
    ensures var slots, pid := e.chunks[c].slots, PidOf(e, o);
            |slots| == 16 &&
            var n := Stop(slots, pid, start, dead, i);
            if Gets(slots, pid, start, dead, n) then
              var v := VisitOf(slots[n], pid, start, dead[n]);
              Visits(r', s, e, o, c, n, Slot(After(slots[n], pid, v), start, ver), CheckState(goal, n))
            else From(r', s, o) && End(r') == GiveUp(e, o, goal)
    decreases 16 - i
  {
    hide From, DeadOwner, GiveUp, VisitOf, Shape;
    SixteenSlots(e, c);
    SameStart(e, o, c, i, goal, start);
    r', ver := OneSlot(r, s, e, o, c, i, goal, start, dead[i]);
    var v := VisitOf(e.chunks[c].slots[i], PidOf(e, o), start, dead[i]);
    if v.Skipped? && i + 1 < 16 {
      r', ver := Walk(r', s, e, o, c, i + 1, goal, start, dead);
    }
  }

  lemma SixteenSlots(e: State, c: nat)
    requires Shape(e) && c < |e.chunks|
    ensures |e.chunks[c].slots| == 16
  {
  }

  lemma SameStart(e: State, o: nat, c: nat, i: nat, goal: Goal, start: nat)
    requires Shape(e) && Live(e, o) && e.ops[o].chunk == c && i < SLOTS
    ensures c < |e.chunks|
    ensures SetPc(e, o, Inspect(goal, start, i, Load))
            == Moved(e, o, c, i, SlotAt(e, c, i), Inspect(goal, start, i, Load))
  {
    MovedSame(e, o, c, i, Inspect(goal, start, i, Load));
  }

  // ----- pinning

  /** The chunk as it is seen by a pin taken now. */
  function Now(ch: Chunk): Snap
    requires ch.used <= |ch.data|
  {
    Snap(ch.gen, ch.used, ch.data[..ch.used])
  }

  /** With its lease in hand and nobody moving, the chunk still is what it was: the pin succeeds. */
  lemma ConfirmPin(r: Trace, s: State, e: State, o: nat, c: nat, i: nat, slot: Slot, start: nat)
    returns (r': Trace)
    requires Shape(e) && c < |e.chunks| && !e.chunks[c].state.Empty?
    requires Visits(r, s, e, o, c, i, slot, CheckState(Fresh(0, e.chunks[c].state, e.chunks[c].gen), i))
    ensures e.chunks[c].used <= |e.chunks[c].data|
    ensures Visits(r', s, e, o, c, i, slot, Pinned(Owner(PidOf(e, o)), i, Now(e.chunks[c])))
  {
    hide From;
    var goal := Fresh(0, e.chunks[c].state, e.chunks[c].gen);
    var pc1, pc2 := CheckGen(goal, i), LoadUsed(0, e.chunks[c].gen, i);
    var pc3 := Pinned(Owner(PidOf(e, o)), i, Now(e.chunks[c]));
    MovedShape(e, o, c, i, slot, CheckState(goal, i));
    MovedTwice(e, o, c, i, slot, CheckState(goal, i), slot, pc1);
    MovedSame(Moved(e, o, c, i, slot, CheckState(goal, i)), o, c, i, pc1);
    MovedShape(e, o, c, i, slot, pc1);
    var r1 := Tock(r, s, o, false, 0);
    MovedTwice(e, o, c, i, slot, pc1, slot, pc2);
    MovedSame(Moved(e, o, c, i, slot, pc1), o, c, i, pc2);
    MovedShape(e, o, c, i, slot, pc2);
    var r2 := Tock(r1, s, o, false, 0);
    MovedTwice(e, o, c, i, slot, pc2, slot, pc3);
    MovedSame(Moved(e, o, c, i, slot, pc2), o, c, i, pc3);
    MovedShape(e, o, c, i, slot, pc3);
    r' := Tock(r2, s, o, false, 0);
  }

  /** s with a pin of process p on chunk c, through slot i that now reads like `slot`. */
  function WithPin(s: State, o: nat, p: nat, c: nat, i: nat, slot: Slot): State
    requires Shape(s) && c < |s.chunks| && i < SLOTS && p in s.procs
  {
    SetSlot(s, c, i, slot).(ops := s.ops[o := Op(p, c, Pinned(Owner(s.procs[p].pid), i, Now(s.chunks[c])))])
  }

  /** s with one more activity. */
  function WithOp(s: State, o: nat, p: nat, c: nat, pc: Pc): State
  {
    s.(ops := s.ops[o := Op(p, c, pc)])
  }

  lemma WithOpTwice(s: State, o: nat, p: nat, c: nat, pc: Pc, pc': Pc)
    ensures SetPc(WithOp(s, o, p, c, pc), o, pc') == WithOp(s, o, p, c, pc')
  {
    assert s.ops[o := Op(p, c, pc)][o := Op(p, c, pc')] == s.ops[o := Op(p, c, pc')];
  }

  lemma WithOpShape(s: State, o: nat, p: nat, c: nat, pc: Pc)
    requires Shape(s) && p in s.procs && c < |s.chunks| && SlotOf(pc) < SLOTS
    ensures Shape(WithOp(s, o, p, c, pc)) && (Live(WithOp(s, o, p, c, pc), o) <==> s.procs[p].live)
  {
  }

  lemma WalkTicks(s: State, o: nat, p: nat, c: nat, start: nat)
    requires Shape(s) && p in s.procs && s.procs[p].live && c < |s.chunks| && !s.chunks[c].state.Empty?
    requires start == 0 || start == s.procs[p].start
    ensures var e, ch := WithOp(s, o, p, c, LoadState(0)), s.chunks[c];
            && Shape(e) && Can(e, Tick(o, false, start))
            && OpStep(e, o, false, start) == WithOp(s, o, p, c, LoadGen(0, ch.state))
    ensures var e, ch := WithOp(s, o, p, c, LoadGen(0, s.chunks[c].state)), s.chunks[c];
            && Shape(e) && Can(e, Tick(o, false, start))
            && OpStep(e, o, false, start) == WithOp(s, o, p, c, Inspect(Fresh(0, ch.state, ch.gen), start, 0, Load))
  {
    var ch := s.chunks[c];
    WithOpShape(s, o, p, c, LoadState(0));
    WithOpShape(s, o, p, c, LoadGen(0, ch.state));
    WithOpTwice(s, o, p, c, LoadState(0), LoadGen(0, ch.state));
    WithOpTwice(s, o, p, c, LoadGen(0, ch.state), Inspect(Fresh(0, ch.state, ch.gen), start, 0, Load));
  }

  /** The first three steps. */
  lemma BeginWalk(s: State, o: nat, p: nat, c: nat, start: nat) returns (r: Trace)
    requires Shape(s) && o !in s.ops && p in s.procs && s.procs[p].live && c < |s.chunks| && !s.chunks[c].state.Empty?
    requires start == 0 || start == s.procs[p].start
    ensures From(r, s, o)
    ensures var pc := Inspect(Fresh(0, s.chunks[c].state, s.chunks[c].gen), start, 0, Load);
            End(r) == WithOp(s, o, p, c, pc)
  {
    WalkTicks(s, o, p, c, start);
    WithOpShape(s, o, p, c, Inspect(Fresh(0, s.chunks[c].state, s.chunks[c].gen), start, 0, Load));
    r := Trace([s], []);
    FromSelf(s, o);
    hide From, Shape, OpStep;
    r := Go(r, s, o, BeginPin(o, p, c));
    hide Can, Do;
    r := Tock(r, s, o, false, start);
    r := Tock(r, s, o, false, start);
  }

  /**
   Exactly when a pin succeeds. From any state, while nobody else moves, beginning to pin chunk c leads to
   a pin of the chunk's present generation, extent and bytes if and only if the chunk is not empty and the
   walk over the sixteen slots gets a lease: its first slot that is not passed over is one to take or to
   join. The slot then reads one reference, or one more. Otherwise everything is as it was before.
   */
  lemma PinIsSteps(s: State, o: nat, p: nat, c: nat, start: nat, dead: seq<bool>) returns (r: Trace, ver: nat)
    requires Shape(s) && o !in s.ops && p in s.procs && s.procs[p].live && c < |s.chunks| && TrueAnswers(s, c, dead)
    requires start == 0 || start == s.procs[p].start
    ensures From(r, s, o)
    ensures var slots, pid := s.chunks[c].slots, s.procs[p].pid;
            |slots| == 16 &&
            var n := Stop(slots, pid, start, dead, 0);
            if !s.chunks[c].state.Empty? && Gets(slots, pid, start, dead, n) then
              var v := VisitOf(slots[n], pid, start, dead[n]);
              End(r) == WithPin(s, o, p, c, n, Slot(After(slots[n], pid, v), start, ver))
            else End(r) == s
  {
    hide TrueAnswers;
    SixteenSlots(s, c);
    ver := 0;
    if s.chunks[c].state.Empty? {
      r := PinNothing(s, o, p, c, start);
    } else {
      r := BeginWalk(s, o, p, c, start);
      var goal := Fresh(0, s.chunks[c].state, s.chunks[c].gen);
      var e := End(r);
      var slots, pid := s.chunks[c].slots, s.procs[p].pid;
      StartsWalk(s, e, o, p, c, Inspect(goal, start, 0, Load), dead);
      hide Shape, From;
      r, ver := Walk(r, s, e, o, c, 0, goal, start, dead);
      var n := Stop(slots, pid, start, dead, 0);
      if Gets(slots, pid, start, dead, n) {
        var slot := Slot(After(slots[n], pid, VisitOf(slots[n], pid, start, dead[n])), start, ver);
        r := ConfirmPin(r, s, e, o, c, n, slot, start);
        PinnedState(s, e, o, p, c, n, slot, Inspect(goal, start, 0, Load));
      } else {
        assert e.ops - {o} == s.ops;
      }
    }
  }

  lemma PinNothing(s: State, o: nat, p: nat, c: nat, start: nat) returns (r: Trace)
    requires Shape(s) && o !in s.ops && p in s.procs && s.procs[p].live && c < |s.chunks| && s.chunks[c].state.Empty?
    ensures From(r, s, o) && End(r) == s
  {
    assert s.ops[o := Op(p, c, LoadState(0))] - {o} == s.ops;
    r := Trace([s], []);
    r := Go(r, s, o, BeginPin(o, p, c));
    r := Tock(r, s, o, false, start);
  }

  lemma PinnedState(s: State, e: State, o: nat, p: nat, c: nat, n: nat, slot: Slot, pc: Pc)
    requires Shape(s) && p in s.procs && c < |s.chunks| && n < SLOTS && Shape(e)
    requires e == s.(ops := s.ops[o := Op(p, c, pc)])
    ensures Moved(e, o, c, n, slot, Pinned(Owner(s.procs[p].pid), n, Now(s.chunks[c]))) == WithPin(s, o, p, c, n, slot)
  {
    var pin := Op(p, c, Pinned(Owner(s.procs[p].pid), n, Now(s.chunks[c])));
    assert e.ops[o := pin] == s.ops[o := pin];
  }

  lemma StartsWalk(s: State, e: State, o: nat, p: nat, c: nat, pc: Pc, dead: seq<bool>)
    requires Shape(s) && o !in s.ops && p in s.procs && s.procs[p].live && c < |s.chunks| && TrueAnswers(s, c, dead)
    requires e == s.(ops := s.ops[o := Op(p, c, pc)]) && SlotOf(pc) < SLOTS
    ensures Shape(e) && Live(e, o) && PidOf(e, o) == s.procs[p].pid && TrueAnswers(e, c, dead) && SetPc(e, o, pc) == e
  {
    assert forall pid :: LivePid(e, pid) == LivePid(s, pid);
    assert e.ops[o := e.ops[o].(pc := pc)] == e.ops;
  }

  // ----- giving a lease back

  function Less(w: Word): Word
    requires w.Owned? && w.refs > 0
  {
    if w.refs == 1 then Free else Owned(w.pid, w.refs - 1)
  }

  /** The two steps that take back one reference of process pid. */
  lemma GiveBack(r: Trace, s: State, e: State, o: nat, c: nat, i: nat, slot: Slot, after: After) returns (r': Trace)
    requires Visits(r, s, e, o, c, i, slot, ReleaseLoad(after, i)) && c < |e.chunks|
    requires slot.word.Owned? && slot.word.pid == PidOf(e, o) && slot.word.refs > 0
    ensures From(r', s, o) && Shape(Moved(e, o, c, i, slot, ReleaseCas(after, i, slot.word)))
    ensures var back := Slot(Less(slot.word), slot.start, slot.ver + 1);
            End(r') == Released(Moved(e, o, c, i, back, ReleaseCas(after, i, slot.word)), o, after)
  {
    var w := slot.word;
    var pc0, pc1 := ReleaseLoad(after, i), ReleaseCas(after, i, w);
    var back := Slot(Less(w), slot.start, slot.ver + 1);
    MovedShape(e, o, c, i, slot, pc0);
    MovedTwice(e, o, c, i, slot, pc0, slot, pc1);
    MovedSame(Moved(e, o, c, i, slot, pc0), o, c, i, pc1);
    MovedShape(e, o, c, i, slot, pc1);
    var r1 := Tock(r, s, o, false, 0);
    MovedShape(e, o, c, i, back, pc1);
    BackState(e, o, c, i, slot, pc1, back);
    ReleasedShape(Moved(e, o, c, i, back, pc1), o, after);
    r' := Tock(r1, s, o, false, 0);
  }

  lemma BackState(e: State, o: nat, c: nat, i: nat, slot: Slot, pc: Pc, back: Slot)
    requires Shape(e) && o in e.ops && c < |e.chunks| && i < SLOTS && SlotOf(pc) < SLOTS
    requires Shape(Moved(e, o, c, i, slot, pc)) && back == Slot(back.word, slot.start, slot.ver + 1)
    ensures SetWord(Moved(e, o, c, i, slot, pc), c, i, back.word) == Moved(e, o, c, i, back, pc)
  {
    assert e.chunks[c].slots[i := slot][i := back] == e.chunks[c].slots[i := back];
  }

  lemma ReleasedShape(e: State, o: nat, after: After)
    requires Shape(e) && o in e.ops
    ensures Shape(Released(e, o, after))
  {
  }

  /** Dropping a readable pin gives back exactly one reference, the last one with the slot. */
  lemma DropIsSteps(s: State, o: nat) returns (r: Trace)
    requires Shape(s) && Readable(s, o)
    requires var op := s.ops[o];
             var w := SlotAt(s, op.chunk, op.pc.slot).word;
             w.Owned? && w.pid == PidOf(s, o) && w.refs > 0
    ensures From(r, s, o)
    ensures var Op(_, c, Pinned(_, i, _)) := s.ops[o];
            var w := SlotAt(s, c, i).word;
            End(r) == SetWord(s, c, i, if w.refs == 1 then Free else Owned(w.pid, w.refs - 1)).(ops := s.ops - {o})
  {
    var Op(p, c, Pinned(tag, i, snap)) := s.ops[o];
    var slot := SlotAt(s, c, i);
    r := Trace([s], []);
    r := Go(r, s, o, Drop(o));
    MovedSame(s, o, c, i, ReleaseLoad(Dropped, i));
    r := GiveBack(r, s, s, o, c, i, slot, Dropped);
    var pc := ReleaseCas(Dropped, i, slot.word);
    assert s.ops[o := s.ops[o].(pc := pc)] - {o} == s.ops - {o};
  }

  /** Dropping a pin that belongs to another process, or to none, changes no shared memory. */
  lemma ForeignDrop(s: State, o: nat) returns (r: Trace)
    requires Shape(s) && Live(s, o) && s.ops[o].pc.Pinned? && s.ops[o].pc.tag != Owner(PidOf(s, o))
    ensures From(r, s, o) && End(r) == s.(ops := s.ops - {o})
  {
    r := Trace([s], []);
    r := Go(r, s, o, Drop(o));
  }

  lemma RetryState(s: State, o: nat, c: nat, i: nat, slot: Slot, pc: Pc, attempt: nat)
    requires Shape(s) && o in s.ops && s.ops[o].chunk == c && c < |s.chunks| && i < SLOTS
    requires slot == Slot(slot.word, SlotAt(s, c, i).start, SlotAt(s, c, i).ver + 1)
    ensures var u := Released(Moved(s, o, c, i, slot, pc), o, Retry(attempt));
            && u.chunks == SetWord(s, c, i, slot.word).chunks
            && (o in u.ops <==> attempt < 63)
            && (attempt < 63 ==> u.ops[o].pc == LoadState(attempt + 1))
  {
  }

  /** A pin that fails its re-check gives its lease back and tries again, 64 times in all. */
  lemma FailedPinRetries(s: State, o: nat, slot: nat, attempt: nat, before: Phase, gen: nat) returns (r: Trace)
    requires Shape(s) && Live(s, o) && slot < 16
    requires var ch := s.chunks[s.ops[o].chunk];
             && (|| (s.ops[o].pc == CheckState(Fresh(attempt, before, gen), slot) && ch.state != before)
                 || (s.ops[o].pc == CheckGen(Fresh(attempt, before, gen), slot) && ch.gen != gen))
             && ch.slots[slot].word.Owned?
             && ch.slots[slot].word.pid == PidOf(s, o) && ch.slots[slot].word.refs > 0
    ensures From(r, s, o)
    ensures o in End(r).ops <==> attempt < 63
    ensures attempt < 63 ==> End(r).ops[o].pc == LoadState(attempt + 1)
    ensures var c := s.ops[o].chunk;
            End(r).chunks == SetWord(s, c, slot, Less(SlotAt(s, c, slot).word)).chunks
  {
    var c := s.ops[o].chunk;
    var held := SlotAt(s, c, slot);
    r := Trace([s], []);
    MovedSame(s, o, c, slot, ReleaseLoad(Retry(attempt), slot));
    MovedShape(s, o, c, slot, held, ReleaseLoad(Retry(attempt), slot));
    assert OpStep(s, o, false, 0) == Moved(s, o, c, slot, held, ReleaseLoad(Retry(attempt), slot));
    r := Tock(r, s, o, false, 0);
    hide OpStep, Moved, Released, Less, Shape, Can, From;
    r := GiveBack(r, s, s, o, c, slot, held, Retry(attempt));
    RetryState(s, o, c, slot, Slot(Less(held.word), held.start, held.ver + 1),
               ReleaseCas(Retry(attempt), slot, held.word), attempt);
  }

  // ----- adopting an inherited pin

  /** The lease is taken and the chunk is still at the pinned generation. */
  lemma ConfirmAdopt(r: Trace, s: State, e: State, o: nat, c: nat, i: nat, slot: Slot, snap: Snap) returns (r': Trace)
    requires Visits(r, s, e, o, c, i, slot, CheckState(Adopt(snap), i)) && c < |e.chunks|
    requires !e.chunks[c].state.Empty? && e.chunks[c].gen == snap.gen
    ensures Visits(r', s, e, o, c, i, slot, Pinned(Owner(PidOf(e, o)), i, snap))
  {
    hide From;
    var pc0, pc1, pc2 := CheckState(Adopt(snap), i), CheckGen(Adopt(snap), i), Pinned(Owner(PidOf(e, o)), i, snap);
    MovedShape(e, o, c, i, slot, pc0);
    MovedTwice(e, o, c, i, slot, pc0, slot, pc1);
    MovedSame(Moved(e, o, c, i, slot, pc0), o, c, i, pc1);
    MovedShape(e, o, c, i, slot, pc1);
    var r1 := Tock(r, s, o, false, 0);
    MovedTwice(e, o, c, i, slot, pc1, slot, pc2);
    MovedSame(Moved(e, o, c, i, slot, pc1), o, c, i, pc2);
    MovedShape(e, o, c, i, slot, pc2);
    r' := Tock(r1, s, o, false, 0);
  }

  /** The chunk has moved on: the lease is given back and the pin is invalid for good. */
  lemma RejectAdopt(r: Trace, s: State, e: State, o: nat, c: nat, i: nat, slot: Slot, snap: Snap) returns (r': Trace)
    requires Visits(r, s, e, o, c, i, slot, CheckState(Adopt(snap), i)) && c < |e.chunks|
    requires e.chunks[c].state.Empty? || e.chunks[c].gen != snap.gen
    requires slot.word.Owned? && slot.word.pid == PidOf(e, o) && slot.word.refs > 0
    ensures From(r', s, o)
    ensures End(r') == Moved(e, o, c, i, Slot(Less(slot.word), slot.start, slot.ver + 1), Pinned(Invalid, 0, snap))
  {
    hide From, Less;
    var pc0, pc1, pc2 := CheckState(Adopt(snap), i), CheckGen(Adopt(snap), i), ReleaseLoad(Rejected(snap), i);
    var r1 := r;
    MovedShape(e, o, c, i, slot, pc0);
    MovedTwice(e, o, c, i, slot, pc0, slot, pc2);
    MovedSame(Moved(e, o, c, i, slot, pc0), o, c, i, pc2);
    MovedShape(e, o, c, i, slot, pc2);
    if !e.chunks[c].state.Empty? {
      MovedTwice(e, o, c, i, slot, pc0, slot, pc1);
      MovedSame(Moved(e, o, c, i, slot, pc0), o, c, i, pc1);
      MovedShape(e, o, c, i, slot, pc1);
      r1 := Tock(r, s, o, false, 0);
      MovedTwice(e, o, c, i, slot, pc1, slot, pc2);
      MovedSame(Moved(e, o, c, i, slot, pc1), o, c, i, pc2);
    }
    var r2 := Tock(r1, s, o, false, 0);
    r' := GiveBack(r2, s, e, o, c, i, slot, Rejected(snap));
    var back := Slot(Less(slot.word), slot.start, slot.ver + 1);
    MovedPc(e, o, c, i, back, ReleaseCas(Rejected(snap), i, slot.word), Pinned(Invalid, 0, snap));
  }

  lemma MovedPc(e: State, o: nat, c: nat, i: nat, slot: Slot, pc: Pc, pc': Pc)
    requires Shape(e) && o in e.ops && c < |e.chunks| && i < SLOTS
    ensures SetPc(Moved(e, o, c, i, slot, pc), o, pc') == Moved(e, o, c, i, slot, pc')
  {
    assert e.ops[o := e.ops[o].(pc := pc)][o := e.ops[o].(pc := pc')] == e.ops[o := e.ops[o].(pc := pc')];
  }

  /**
   Exactly when an inherited pin becomes readable. From any state, while nobody else moves, the adoption of
   a pin in a forked child leads to a pin under the child's pid if and only if the walk gets a lease and the
   chunk is not empty and at the pinned generation. A lease taken in vain is given back: a joined slot reads
   as before, a taken one is free. The pin is then invalid.
   */
  lemma AdoptIsSteps(s: State, o: nat, start: nat, dead: seq<bool>) returns (r: Trace, ver: nat)
    requires Shape(s) && Live(s, o) && s.ops[o].pc.Pinned? && s.ops[o].pc.tag.Owner?
    requires s.ops[o].pc.tag.pid != PidOf(s, o)
    requires s.ops[o].chunk < |s.chunks| && TrueAnswers(s, s.ops[o].chunk, dead)
    requires start == 0 || start == s.procs[s.ops[o].proc].start
    ensures From(r, s, o)
    ensures var Op(_, c, Pinned(_, _, snap)) := s.ops[o];
            var slots, pid := s.chunks[c].slots, PidOf(s, o);
            |slots| == 16 &&
            var n := Stop(slots, pid, start, dead, 0);
            if !Gets(slots, pid, start, dead, n) then End(r) == SetPc(s, o, Pinned(Invalid, 0, snap))
            else
              var v := VisitOf(slots[n], pid, start, dead[n]);
              if !s.chunks[c].state.Empty? && s.chunks[c].gen == snap.gen then
                End(r) == Moved(s, o, c, n, Slot(After(slots[n], pid, v), start, ver), Pinned(Owner(pid), n, snap))
              else
                var word := if v.Taken? then Free else slots[n].word;
                End(r) == Moved(s, o, c, n, Slot(word, start, ver), Pinned(Invalid, 0, snap))
  {
    var Op(p, c, Pinned(tag, j, snap)) := s.ops[o];
    var goal, pc := Adopt(snap), Inspect(Adopt(snap), start, 0, Load);
    SixteenSlots(s, c);
    r := Trace([s], []);
    r := Go(r, s, o, StartAdopt(o, start));
    var e := End(r);
    AdoptStart(s, o, pc, c, dead);
    assert SetPc(e, o, pc) == e by {
      SetPcTwice(s, o, pc, pc);
    }
    hide Shape, From, TrueAnswers;
    r, ver := Walk(r, s, e, o, c, 0, goal, start, dead);
    var slots, pid := s.chunks[c].slots, PidOf(s, o);
    var n := Stop(slots, pid, start, dead, 0);
    if Gets(slots, pid, start, dead, n) {
      var slot := Slot(After(slots[n], pid, VisitOf(slots[n], pid, start, dead[n])), start, ver);
      if !s.chunks[c].state.Empty? && s.chunks[c].gen == snap.gen {
        r := ConfirmAdopt(r, s, e, o, c, n, slot, snap);
        MovedFrom(s, o, c, n, slot, pc, Pinned(Owner(pid), n, snap));
      } else {
        r := RejectAdopt(r, s, e, o, c, n, slot, snap);
        ver := ver + 1;
        MovedFrom(s, o, c, n, Slot(Less(slot.word), start, ver), pc, Pinned(Invalid, 0, snap));
      }
    } else {
      SetPcTwice(s, o, pc, Pinned(Invalid, 0, snap));
    }
  }

  lemma AdoptStart(s: State, o: nat, pc: Pc, c: nat, dead: seq<bool>)
    requires Shape(s) && Live(s, o) && c < |s.chunks| && TrueAnswers(s, c, dead) && SlotOf(pc) < SLOTS
    ensures var e := SetPc(s, o, pc);
            Shape(e) && Live(e, o) && PidOf(e, o) == PidOf(s, o) && TrueAnswers(e, c, dead)
  {
    assert forall pid :: LivePid(SetPc(s, o, pc), pid) == LivePid(s, pid);
  }

  lemma MovedFrom(s: State, o: nat, c: nat, i: nat, slot: Slot, pc: Pc, pc': Pc)
    requires Shape(s) && o in s.ops && c < |s.chunks| && i < SLOTS && Shape(SetPc(s, o, pc))
    ensures Moved(SetPc(s, o, pc), o, c, i, slot, pc') == Moved(s, o, c, i, slot, pc')
  {
    assert s.ops[o := s.ops[o].(pc := pc)][o := s.ops[o].(pc := pc')] == s.ops[o := s.ops[o].(pc := pc')];
  }

  // ----- reading a time range

  lemma RangeStep(s: State, o: nat, p: nat, c: nat, pc: Pc, pc': Pc)
    requires Shape(s) && p in s.procs && s.procs[p].live && c < |s.chunks| && Precedes(s.chunks[c], pc, pc')
    ensures Shape(WithOp(s, o, p, c, pc)) && Shape(WithOp(s, o, p, c, pc'))
    ensures Can(WithOp(s, o, p, c, pc), Tick(o, false, 0))
    ensures OpStep(WithOp(s, o, p, c, pc), o, false, 0) == WithOp(s, o, p, c, pc')
  {
    WithOpShape(s, o, p, c, pc);
    WithOpShape(s, o, p, c, pc');
    WithOpTwice(s, o, p, c, pc, pc');
  }

  function RangePcs(ch: Chunk): (pcs: seq<Pc>)
    ensures |pcs| == 6 && pcs[0] == RangeGen && pcs[5] == Ranged(ch.gen, ch.ts, ch.minTs, ch.maxTs)
    ensures forall k :: 0 <= k < 5 ==> Precedes(ch, pcs[k], pcs[k + 1])
  {
    [RangeGen, RangeUsed(ch.gen), RangeMin(ch.gen, ch.ts), RangeMax(ch.gen, ch.ts, ch.minTs),
     RangeEnd(ch.gen, ch.ts, ch.minTs, ch.maxTs), Ranged(ch.gen, ch.ts, ch.minTs, ch.maxTs)]
  }

  /** A range read that nobody disturbs answers the bounds in the chunk header. */
  lemma RangeIsSteps(s: State, o: nat, p: nat, c: nat) returns (r: Trace)
    requires Shape(s) && o !in s.ops && p in s.procs && s.procs[p].live && c < |s.chunks|
    ensures From(r, s, o)
    ensures var ch := s.chunks[c];
            End(r) == WithOp(s, o, p, c, Ranged(ch.gen, ch.ts, ch.minTs, ch.maxTs))
  {
    var ch := s.chunks[c];
    var pcs := RangePcs(ch);
    r := Trace([s], []);
    FromSelf(s, o);
    WithOpShape(s, o, p, c, RangeGen);
    r := Go(r, s, o, BeginRange(o, p, c));
    hide From, Can, OpStep, Shape, WithOp, Do, Precedes;
    var k := 0;
    while k < 5
      invariant 0 <= k <= 5 && From(r, s, o) && End(r) == WithOp(s, o, p, c, pcs[k])
    {
      RangeStep(s, o, p, c, pcs[k], pcs[k + 1]);
      r := Tock(r, s, o, false, 0);
      k := k + 1;
    }
  }

  lemma FromSelf(s: State, o: nat)
    requires Shape(s)
    ensures From(Trace([s], []), s, o)
  {
  }

  predicate Precedes(ch: Chunk, pc: Pc, pc': Pc)
  {
    match pc'
    case RangeUsed(gen) => pc == RangeGen && gen == ch.gen
    case RangeMin(gen, rows) => pc == RangeUsed(gen) && rows == ch.ts
    case RangeMax(gen, rows, lo) => pc == RangeMin(gen, rows) && lo == ch.minTs
    case RangeEnd(gen, rows, lo, hi) => pc == RangeMax(gen, rows, lo) && hi == ch.maxTs
    case Ranged(gen, rows, lo, hi) => pc == RangeEnd(gen, rows, lo, hi) && gen == ch.gen
    case _ => false
  }
}
