/** When a walk over the lease slots fails, in any interleaving: every slot was in other hands when it was passed. */
module LeaseWalks {
  import opened Lease
  import opened LeaseSafety

  /** Activity o is looking for a lease, for this goal, and stands at this slot. */
  predicate WalksAt(s: State, o: nat, goal: Goal, start: nat, i: nat)
  {
    o in s.ops && match s.ops[o].pc
                  case Inspect(g, st, j, _) => g == goal && st == start && j == i
                  case Claimed(g, st, j) => g == goal && st == start && j == i
                  case Confirm(g, st, j) => g == goal && st == start && j == i
                  case _ => false
  }

  /**
   The step passes slot i over: it holds a claim of a process not known dead, or references of one, or
   references of the walker's own pid while one of the two start times is unknown; or the walker's claim
   of it was taken away.
   */
  predicate Passes(s: State, step: Step, o: nat, i: nat)
    requires Shape(s)
  {
    && step.Tick? && step.o == o && o in s.ops
    && match s.ops[o].pc {
         case Inspect(_, start, j, GotWord(w, _)) => j == i && w.Refs() == 0 && !step.dead
         case Inspect(_, start, j, GotStart(w, _, rec)) =>
           && j == i
           && (if w.Owned? && w.pid == PidOf(s, o) then rec != start && (rec == 0 || start == 0) else !step.dead)
         case Confirm(_, _, j) => j == i && SlotAt(s, s.ops[o].chunk, i).word != Owned(PidOf(s, o), 0)
         case _ => false
       }
  }

  /** The walker's own slot has as many references as fit. */
  predicate AtLimit(s: State, o: nat)
    requires o in s.ops && s.ops[o].proc in s.procs
  {
    && s.ops[o].pc.Inspect? && s.ops[o].pc.look.GotStart?
    && s.ops[o].pc.look.w == Owned(PidOf(s, o), 0xFFFF_FFFF)
  }

  /** In one and the same walk, slot i was passed over before state k, at most. */
  ghost predicate PassedBy(states: seq<State>, steps: seq<Step>, k: nat, o: nat, goal: Goal, start: nat, i: nat)
    requires k < |states|
  {
    exists m :: 0 <= m <= k && m < |steps| && PassedAt(states, steps, m, k, o, goal, start, i)
  }

  ghost predicate PassedAt(states: seq<State>, steps: seq<Step>, m: nat, k: nat, o: nat, goal: Goal, start: nat, i: nat)
    requires m <= k < |states| && m < |steps|
  {
    Shape(states[m]) && WalksAt(states[m], o, goal, start, i) && Passes(states[m], steps[m], o, i)
    && forall x :: m <= x <= k ==> Walks(states[x], o, goal, start)
  }

  predicate Walks(s: State, o: nat, goal: Goal, start: nat)
  {
    o in s.ops && WalksAt(s, o, goal, start, SlotOf(s.ops[o].pc))
  }

  /** One step of a walker: it stays at its slot, or passes it over and goes to the next one. */
  lemma WalkTick(s: State, step: Step, o: nat, goal: Goal, start: nat, i: nat)
    requires Shape(s) && Can(s, step) && step.Tick? && step.o == o && WalksAt(s, o, goal, start, i)
    ensures var s' := Do(s, step);
            || WalksAt(s', o, goal, start, i)
            || (WalksAt(s', o, goal, start, i + 1) && Passes(s, step, o, i))
            || (Refused(s', o) && ((i == 15 && Passes(s, step, o, i)) || AtLimit(s, o)))
            || Leased(s', o, i)
  {
    assert Do(s, step) == OpStep(s, o, step.dead, step.start);
    hide Do, Can;
    if s.ops[o].pc.Inspect? {
      WalkInspect(s, step, o, goal, start, i);
    }
  }

  lemma WalkInspect(s: State, step: Step, o: nat, goal: Goal, start: nat, i: nat)
    requires Shape(s) && step.Tick? && step.o == o && WalksAt(s, o, goal, start, i) && s.ops[o].pc.Inspect?
    ensures var s' := InspectStep(s, o, step.dead);
            || WalksAt(s', o, goal, start, i)
            || (WalksAt(s', o, goal, start, i + 1) && Passes(s, step, o, i))
            || (Refused(s', o) && ((i == 15 && Passes(s, step, o, i)) || AtLimit(s, o)))
            || Leased(s', o, i)
  {
  }

  /** The walk ended without a lease: the pin is gone, or invalid. */
  predicate Refused(s: State, o: nat)
  {
    o !in s.ops || (s.ops[o].pc.Pinned? && s.ops[o].pc.tag == Invalid)
  }

  predicate Leased(s: State, o: nat, i: nat)
  {
    o in s.ops && s.ops[o].pc.CheckState? && s.ops[o].pc.slot == i
  }

  /** Steps of others leave a walker where it is. */
  lemma OthersWalk(s: State, step: Step, o: nat)
    requires Shape(s) && Can(s, step) && o in s.ops && !(step.Tick? && step.o == o)
    requires s.ops[o].pc.Inspect? || s.ops[o].pc.Claimed? || s.ops[o].pc.Confirm?
    ensures o in Do(s, step).ops && Do(s, step).ops[o] == s.ops[o]
  {
    match step
    case Tick(x, dead, start) =>
      assert Do(s, step) == OpStep(s, x, dead, start);
      hide Do, Can;
      if s.ops[x].pc.Inspect? {
        OtherInspect(s, x, dead, o);
      }
    case WriterTick(dead) =>
      assert Do(s, step) == WriterStep(s, dead);
      hide Do, Can;
      if s.writer.Scan? {
        OtherScan(s, dead);
      }
    case _ =>
  }

  lemma OtherInspect(s: State, x: nat, dead: bool, o: nat)
    requires Shape(s) && x in s.ops && s.ops[x].pc.Inspect? && o in s.ops && o != x
    ensures o in InspectStep(s, x, dead).ops && InspectStep(s, x, dead).ops[o] == s.ops[o]
  {
  }

  lemma OtherScan(s: State, dead: bool)
    requires Shape(s) && s.writer.Scan?
    ensures ScanStep(s, dead).ops == s.ops
  {
  }

  predicate InWalk(s: State, o: nat)
  {
    o in s.ops && (s.ops[o].pc.Inspect? || s.ops[o].pc.Claimed? || s.ops[o].pc.Confirm?)
  }

  lemma TickBegins(s: State, o: nat, dead: bool, start: nat)
    requires Shape(s) && o in s.ops && !InWalk(s, o)
    ensures InWalk(OpStep(s, o, dead, start), o) ==> SlotOf(OpStep(s, o, dead, start).ops[o].pc) == 0
  {
  }

  /** A walk begins at the first slot. */
  lemma WalkBegins(s: State, step: Step, o: nat)
    requires Shape(s) && Can(s, step) && !InWalk(s, o) && InWalk(Do(s, step), o)
    ensures SlotOf(Do(s, step).ops[o].pc) == 0
  {
    match step
    case Tick(x, dead, start) =>
      assert Do(s, step) == OpStep(s, x, dead, start);
      hide Do, Can;
      if x == o {
        TickBegins(s, o, dead, start);
      } else {
        OtherTick(s, x, dead, start, o);
      }
    case WriterTick(dead) =>
      assert Do(s, step) == WriterStep(s, dead);
      hide Do, Can;
      if s.writer.Scan? {
        OtherScan(s, dead);
      }
    case _ =>
  }

  lemma OtherTick(s: State, x: nat, dead: bool, start: nat, o: nat)
    requires Shape(s) && x in s.ops && o != x
    ensures o in OpStep(s, x, dead, start).ops <==> o in s.ops
    ensures o in s.ops ==> OpStep(s, x, dead, start).ops[o] == s.ops[o]
  {
    if s.ops[x].pc.Inspect? && o in s.ops {
      OtherInspect(s, x, dead, o);
    }
  }

  // ----- whole walks

  lemma Earlier(states: seq<State>, steps: seq<Step>, k: nat, o: nat, goal: Goal, start: nat, i: nat)
    requires 0 < k < |states| && Walks(states[k], o, goal, start)
    requires PassedBy(states, steps, k - 1, o, goal, start, i)
    ensures PassedBy(states, steps, k, o, goal, start, i)
  {
    var m :| 0 <= m <= k - 1 && m < |steps| && PassedAt(states, steps, m, k - 1, o, goal, start, i);
    assert PassedAt(states, steps, m, k, o, goal, start, i);
  }

  /** A walk that stands at a slot has passed over every slot before it, and nothing but walked in between. */
  lemma {:induction false} WalkedSoFar(states: seq<State>, steps: seq<Step>, k: nat, o: nat, goal: Goal, start: nat,
                                       i: nat)
    requires IsRun(states, steps) && Init(states[0]) && k < |states| && WalksAt(states[k], o, goal, start, i)
    ensures forall j :: 0 <= j < i ==> PassedBy(states, steps, k, o, goal, start, j)
    decreases k
  {
    hide Can, Do, Shape, PassedBy, Passes, Init, FreshChunk;
    if k > 0 {
      var s, step := states[k - 1], steps[k - 1];
      if !InWalk(s, o) {
        WalkBegins(s, step, o);
      } else {
        var goal0, start0, i0 := s.ops[o].pc.goal, s.ops[o].pc.start, SlotOf(s.ops[o].pc);
        if step.Tick? && step.o == o {
          WalkTick(s, step, o, goal0, start0, i0);
        } else {
          OthersWalk(s, step, o);
        }
        WalkedSoFar(states, steps, k - 1, o, goal, start, i0);
        forall j | 0 <= j < i
          ensures PassedBy(states, steps, k, o, goal, start, j)
        {
          if j < i0 {
            Earlier(states, steps, k, o, goal, start, j);
          } else {
            JustPassed(states, steps, k, o, goal, start, i0);
          }
        }
      }
    } else {
      NobodyYet(states[0], o);
    }
  }

  lemma NobodyYet(s: State, o: nat)
    requires Init(s)
    ensures o !in s.ops
  {
  }

  lemma JustPassed(states: seq<State>, steps: seq<Step>, k: nat, o: nat, goal: Goal, start: nat, i: nat)
    requires 0 < k < |states| && k <= |steps| && Shape(states[k - 1])
    requires WalksAt(states[k - 1], o, goal, start, i) && Passes(states[k - 1], steps[k - 1], o, i)
    requires Walks(states[k], o, goal, start)
    ensures PassedBy(states, steps, k, o, goal, start, i)
  {
    assert PassedAt(states, steps, k - 1, k, o, goal, start, i);
  }

  lemma KnownProc(s: State, o: nat)
    requires Shape(s)
    ensures o in s.ops ==> s.ops[o].proc in s.procs
  {
  }

  lemma PassedNow(states: seq<State>, steps: seq<Step>, k: nat, o: nat, goal: Goal, start: nat, i: nat)
    requires k < |states| && k < |steps| && Shape(states[k])
    requires WalksAt(states[k], o, goal, start, i) && Passes(states[k], steps[k], o, i)
    ensures PassedBy(states, steps, k, o, goal, start, i)
  {
    assert PassedAt(states, steps, k, k, o, goal, start, i);
  }

  /**
   A pin or an adoption is refused for want of a lease only if, in this very walk, each of the sixteen slots
   was passed over as being in other hands, or if the process's own slot has all the references that fit.
   Lost compare-exchanges on the way never cost the walk a slot.
   */
  lemma RefusedOnlyWhenHeld(states: seq<State>, steps: seq<Step>, k: nat, o: nat, goal: Goal, start: nat, i: nat)
    requires IsRun(states, steps) && Init(states[0]) && k < |steps| && WalksAt(states[k], o, goal, start, i)
    requires Refused(states[k + 1], o)
    ensures (o in states[k].ops && states[k].ops[o].proc in states[k].procs && AtLimit(states[k], o))
            || forall j :: 0 <= j < 16 ==> PassedBy(states, steps, k, o, goal, start, j)
  {
    hide Can, Do, PassedBy, Passes, Init, FreshChunk, Shape;
    var s, step := states[k], steps[k];
    assert states[k + 1] == Do(s, step);
    KnownProc(s, o);
    if step.Tick? && step.o == o {
      WalkTick(s, step, o, goal, start, i);
      WalkedSoFar(states, steps, k, o, goal, start, i);
      if i == 15 && Passes(s, step, o, i) {
        PassedNow(states, steps, k, o, goal, start, 15);
      }
    } else {
      OthersWalk(s, step, o);
    }
  }
}
