/** Generation-tagged task replacement: the remote listener with a candidate, and the replaceable tasks. */
module Supervisor {
  import opened Bytes
  import opened Schema

  type Gen = U64

  datatype Status =
    | Stopped
    | Starting(gen: Gen, key: string)
    | Running(gen: Gen, key: string)
    | Failed(gen: Gen, key: string, error: string)

  datatype Task = Task(gen: Gen, key: string)

  /** `wrapping_add(1).max(1)`. */
  function NextGen(g: Gen): Gen
  {
    if g + 1 == TWO_64 then 1 else g + 1
  }

  function CompletionState(t: Task, error: Option<string>): Status
  {
    match error
    case Some(e) => Failed(t.gen, t.key, e)
    case None => Stopped
  }

  predicate Is(t: Option<Task>, g: Gen)
  {
    t.Some? && t.value.gen == g
  }

  function GenOf(t: Option<Task>): set<Gen>
  {
    if t.Some? then {t.value.gen} else {}
  }

  // ----- the remote listener

  datatype Remote = Remote(next: Gen, active: Option<Task>, candidate: Option<Task>, state: Status)

  /** Calls on the slot; `*Done` and `spawnError` are what the runtime answers. */
  datatype RemoteCall =
    | StartRemote(key: string, activeDone: bool, candidateDone: bool, spawnError: Option<string>)
    | Promote(gen: Gen)
    | RemoteFinished(gen: Gen, error: Option<string>)
    | ShutdownRemote

  predicate AlreadyThere(t: Option<Task>, key: string, done: bool)
  {
    t.Some? && t.value.key == key && !done
  }

  function StartedRemote(r: Remote, key: string, spawnError: Option<string>): Remote
  {
    var g := NextGen(r.next);
    match spawnError
    case Some(e) => Remote(g, r.active, None, Failed(g, key, e))
    case None => Remote(g, r.active, Some(Task(g, key)), Starting(g, key))
  }

  function RemoteStep(r: Remote, call: RemoteCall): Remote
  {
    match call
    case StartRemote(key, activeDone, candidateDone, spawnError) =>
      if AlreadyThere(r.active, key, activeDone) || AlreadyThere(r.candidate, key, candidateDone) then r
      else StartedRemote(r, key, spawnError)
    case Promote(g) =>
      if Is(r.candidate, g) then Remote(r.next, r.candidate, None, Running(g, r.candidate.value.key)) else r
    case RemoteFinished(g, error) =>
      if Is(r.candidate, g) then
        r.(candidate := None,
           state := if r.active.Some? then Running(r.active.value.gen, r.active.value.key)
                    else CompletionState(r.candidate.value, error))
      else if Is(r.active, g) then r.(active := None, state := CompletionState(r.active.value, error))
      else r
    case ShutdownRemote => Remote(NextGen(r.next), None, None, Stopped)
  }

  /** Generations whose tasks a call aborts. */
  function Aborted(r: Remote, call: RemoteCall): set<Gen>
  {
    match call
    case StartRemote(key, activeDone, candidateDone, _) =>
      if AlreadyThere(r.active, key, activeDone) || AlreadyThere(r.candidate, key, candidateDone) then {}
      else GenOf(r.candidate)
    case Promote(g) => if Is(r.candidate, g) then GenOf(r.active) else {}
    case RemoteFinished(_, _) => {}
    case ShutdownRemote => GenOf(r.candidate) + GenOf(r.active)
  }

  /** What the state of the slot says about its tasks, in every case. */
  predicate RemoteOk(r: Remote)
  {
    && (r.active.Some? ==> 0 < r.active.value.gen <= r.next)
    && (r.candidate.Some? ==> 0 < r.candidate.value.gen <= r.next)
    && (r.active.Some? && r.candidate.Some? ==> r.active.value.gen < r.candidate.value.gen)
    && match (r.active, r.candidate) {
         case (Some(a), Some(c)) => r.state == Starting(c.gen, c.key)
         case (None, Some(c)) =>
           r.state == Starting(c.gen, c.key) || r.state == Stopped || (r.state.Failed? && r.state.gen < c.gen)
         case (Some(a), None) => r.state == Running(a.gen, a.key) || (r.state.Failed? && a.gen < r.state.gen)
         case (None, None) => r.state.Stopped? || r.state.Failed?
       }
  }

  /** Generations have not come round. */
  predicate NoWrap(r: Remote)
  {
    r.next + 1 < TWO_64
  }

  lemma RemoteStepKeeps(r: Remote, call: RemoteCall)
    requires RemoteOk(r) && NoWrap(r)
    ensures RemoteOk(RemoteStep(r, call))
  {
  }

  const FRESH_REMOTE := Remote(0, None, None, Stopped)

  /** Any sequence of calls on a new slot, early, late or from tasks long replaced, short of 2^64 starts. */
  ghost predicate RemoteRun(rs: seq<Remote>, calls: seq<RemoteCall>)
  {
    && |rs| == |calls| + 1 && rs[0] == FRESH_REMOTE
    && forall k :: 0 <= k < |calls| ==> NoWrap(rs[k]) && rs[k + 1] == RemoteStep(rs[k], calls[k])
  }

  lemma {:induction false} RemoteRunOk(rs: seq<Remote>, calls: seq<RemoteCall>, k: nat)
    requires RemoteRun(rs, calls) && k < |rs|
    ensures RemoteOk(rs[k])
    decreases k
  {
    hide RemoteStep, RemoteOk;
    if k > 0 {
      RemoteRunOk(rs, calls, k - 1);
      RemoteStepKeeps(rs[k - 1], calls[k - 1]);
    } else {
      FreshOk();
    }
  }

  lemma FreshOk()
    ensures RemoteOk(FRESH_REMOTE)
  {
  }

  /** `Running` names the active task and `Starting` the candidate, in every reachable state. */
  lemma RemoteStateNames(rs: seq<Remote>, calls: seq<RemoteCall>, k: nat)
    requires RemoteRun(rs, calls) && k < |rs|
    ensures rs[k].state.Running? ==> rs[k].active == Some(Task(rs[k].state.gen, rs[k].state.key))
    ensures rs[k].state.Starting? ==> rs[k].candidate == Some(Task(rs[k].state.gen, rs[k].state.key))
    ensures rs[k].active.Some? && rs[k].candidate.Some? ==> rs[k].state.Starting?
  {
    RemoteRunOk(rs, calls, k);
  }

  // ----- superseded generations

  /** A generation that was handed out and is no longer that of any task. */
  predicate Superseded(r: Remote, g: Gen)
  {
    0 < g <= r.next && !Is(r.active, g) && !Is(r.candidate, g)
  }

  lemma SupersededStays(r: Remote, call: RemoteCall, g: Gen)
    requires RemoteOk(r) && NoWrap(r) && Superseded(r, g)
    ensures Superseded(RemoteStep(r, call), g)
  {
  }

  lemma {:induction false} SupersededForever(rs: seq<Remote>, calls: seq<RemoteCall>, j: nat, k: nat, g: Gen)
    requires RemoteRun(rs, calls) && j <= k < |rs| && Superseded(rs[j], g)
    ensures Superseded(rs[k], g)
    decreases k
  {
    hide RemoteStep, Superseded;
    if j < k {
      SupersededForever(rs, calls, j, k - 1, g);
      RemoteRunOk(rs, calls, k - 1);
      SupersededStays(rs[k - 1], calls[k - 1], g);
    }
  }

  /** Once replaced, a generation can change nothing any more: its promotion fails and its end is ignored. */
  lemma LateEventsHarmless(rs: seq<Remote>, calls: seq<RemoteCall>, j: nat, k: nat, g: Gen, error: Option<string>)
    requires RemoteRun(rs, calls) && j <= k < |rs| && Superseded(rs[j], g)
    ensures RemoteStep(rs[k], Promote(g)) == rs[k] && Aborted(rs[k], Promote(g)) == {}
    ensures RemoteStep(rs[k], RemoteFinished(g, error)) == rs[k]
  {
    SupersededForever(rs, calls, j, k, g);
  }

  // ----- the active listener

  /** The active listener is aborted only by shutdown or by the promotion of a newer candidate. */
  lemma ActiveAbortedOnlyBy(rs: seq<Remote>, calls: seq<RemoteCall>, k: nat)
    requires RemoteRun(rs, calls) && k < |calls| && rs[k].active.Some?
    ensures rs[k].active.value.gen in Aborted(rs[k], calls[k]) <==>
              || calls[k].ShutdownRemote?
              || (calls[k].Promote? && Is(rs[k].candidate, calls[k].gen))
    ensures calls[k].Promote? && Is(rs[k].candidate, calls[k].gen) ==> calls[k].gen > rs[k].active.value.gen
    ensures rs[k + 1].active != rs[k].active ==>
              || rs[k].active.value.gen in Aborted(rs[k], calls[k])
              || (calls[k].RemoteFinished? && calls[k].gen == rs[k].active.value.gen)
  {
    RemoteRunOk(rs, calls, k);
  }

  /** A task of the slot with this generation. */
  predicate Holds(r: Remote, g: Gen)
  {
    (r.active.Some? && r.active.value.gen == g) || (r.candidate.Some? && r.candidate.value.gen == g)
  }

  /**
   No task is lost and none goes on unseen: a call keeps every task in the slot that it neither aborts nor
   reports as ended, and aborts only tasks of the slot. A candidate is aborted exactly by shutdown and by a
   start that takes effect.
   */
  lemma NoTaskLost(rs: seq<Remote>, calls: seq<RemoteCall>, k: nat, g: Gen)
    requires RemoteRun(rs, calls) && k < |calls|
    ensures Holds(rs[k], g) ==>
              (Holds(rs[k + 1], g)
               <==> g !in Aborted(rs[k], calls[k]) && !(calls[k].RemoteFinished? && calls[k].gen == g))
    ensures g in Aborted(rs[k], calls[k]) ==> Holds(rs[k], g) && !calls[k].RemoteFinished?
    ensures rs[k].candidate.Some? ==>
              (rs[k].candidate.value.gen in Aborted(rs[k], calls[k])
               <==> calls[k].ShutdownRemote? || (calls[k].StartRemote? && rs[k + 1] != rs[k]))
  {
    RemoteRunOk(rs, calls, k);
  }

  /** A candidate that ends restores the old listener's `Running`, exactly when there is an old listener. */
  lemma FailedCandidateRestores(rs: seq<Remote>, calls: seq<RemoteCall>, k: nat, error: Option<string>)
    requires RemoteRun(rs, calls) && k < |rs| && rs[k].candidate.Some?
    ensures var r' := RemoteStep(rs[k], RemoteFinished(rs[k].candidate.value.gen, error));
            && r'.active == rs[k].active && r'.candidate == None
            && (r'.state.Running? <==> rs[k].active.Some?)
            && (rs[k].active.Some? ==> r'.state == Running(rs[k].active.value.gen, rs[k].active.value.key))
  {
    RemoteRunOk(rs, calls, k);
  }

  /**
   A start whose task cannot be spawned is different: the listener in place goes on, but the state
   reads `Failed`. After any start that is not ignored, the state is `Running` in no case, and it
   tells of a live listener again only after a later call.
   */
  lemma SpawnFailureHidesListener(rs: seq<Remote>, calls: seq<RemoteCall>, k: nat)
    requires RemoteRun(rs, calls) && k < |calls| && calls[k].StartRemote? && rs[k + 1].next != rs[k].next
    ensures rs[k + 1].active == rs[k].active
    ensures rs[k + 1].state.Failed? <==> calls[k].spawnError.Some?
    ensures rs[k + 1].candidate.None? <==> calls[k].spawnError.Some?
  {
  }

  /** Calls that come too late or ask for what is there already. */
  predicate Idle(r: Remote, call: RemoteCall)
  {
    match call
    case StartRemote(key, activeDone, candidateDone, _) =>
      AlreadyThere(r.active, key, activeDone) || AlreadyThere(r.candidate, key, candidateDone)
    case Promote(g) => Superseded(r, g)
    case RemoteFinished(g, _) => Superseded(r, g)
    case ShutdownRemote => false
  }

  lemma {:induction false} IdleCallsKeep(rs: seq<Remote>, calls: seq<RemoteCall>, j: nat, k: nat)
    requires RemoteRun(rs, calls) && j <= k < |rs| && forall m :: j <= m < k ==> Idle(rs[j], calls[m])
    ensures rs[k] == rs[j]
    decreases k
  {
    if j < k {
      IdleCallsKeep(rs, calls, j, k - 1);
    }
  }

  /**
   A failed replacement leaves no trace. From a state `Running`, start a candidate, let any number of
   late and repeated calls come in, and let the candidate end, in whatever way: listener and state are
   those from before, and only the generation counter has moved.
   */
  lemma FailedReplacementTraceless(rs: seq<Remote>, calls: seq<RemoteCall>, j: nat, k: nat, error: Option<string>)
    requires RemoteRun(rs, calls) && j < k < |rs| && rs[j].state.Running? && calls[j].StartRemote?
    requires calls[j].spawnError.None? && rs[j + 1].next != rs[j].next
    requires forall m :: j < m < k ==> Idle(rs[j + 1], calls[m])
    ensures rs[j + 1].candidate.Some? && rs[j + 1].candidate.value.gen == rs[j + 1].next
    ensures RemoteStep(rs[k], RemoteFinished(rs[j + 1].next, error)) == rs[j].(next := rs[j + 1].next)
  {
    RemoteRunOk(rs, calls, j);
    IdleCallsKeep(rs, calls, j + 1, k);
  }

  /** A start that cannot be spawned does leave one: the state reads `Failed` until a call takes effect. */
  lemma SpawnFailureLasts(rs: seq<Remote>, calls: seq<RemoteCall>, j: nat, k: nat)
    requires RemoteRun(rs, calls) && j < k < |rs| && rs[j].state.Running? && calls[j].StartRemote?
    requires calls[j].spawnError.Some? && rs[j + 1].next != rs[j].next
    requires forall m :: j < m < k ==> Idle(rs[j + 1], calls[m])
    ensures rs[k].active == rs[j].active && rs[k].active.Some? && rs[k].candidate == None
    ensures rs[k].state == Failed(rs[j + 1].next, calls[j].key, calls[j].spawnError.value)
  {
    RemoteRunOk(rs, calls, j);
    IdleCallsKeep(rs, calls, j + 1, k);
  }

  /** A run after which a listener is active and the state reads `Failed`. */
  lemma SpawnFailureWitness()
    ensures exists rs: seq<Remote>, calls: seq<RemoteCall> ::
              && RemoteRun(rs, calls) && |rs| == 4
              && rs[3].active == Some(Task(1, "a")) && rs[3].state == Failed(2, "b", "e")
  {
    var calls := [StartRemote("a", false, false, None), Promote(1), StartRemote("b", false, false, Some("e"))];
    var r1 := RemoteStep(FRESH_REMOTE, calls[0]);
    var r2 := RemoteStep(r1, calls[1]);
    var r3 := RemoteStep(r2, calls[2]);
    var rs := [FRESH_REMOTE, r1, r2, r3];
    assert RemoteRun(rs, calls);
  }

  /** A run after which a candidate is starting and the state reads `Stopped`: the old listener ended meanwhile. */
  lemma StoppedWhileStartingWitness()
    ensures exists rs: seq<Remote>, calls: seq<RemoteCall> ::
              && RemoteRun(rs, calls) && |rs| == 5
              && rs[4].candidate == Some(Task(2, "b")) && rs[4].state == Stopped
  {
    var calls := [StartRemote("a", false, false, None), Promote(1),
                  StartRemote("b", false, false, None), RemoteFinished(1, None)];
    var r1 := RemoteStep(FRESH_REMOTE, calls[0]);
    var r2 := RemoteStep(r1, calls[1]);
    var r3 := RemoteStep(r2, calls[2]);
    var r4 := RemoteStep(r3, calls[3]);
    var rs := [FRESH_REMOTE, r1, r2, r3, r4];
    assert RemoteRun(rs, calls);
  }

  /** A step makes a candidate go unnamed exactly when the active listener ends while it is starting. */
  lemma CandidateUnnamedExactly(rs: seq<Remote>, calls: seq<RemoteCall>, k: nat)
    requires RemoteRun(rs, calls) && k < |calls|
    requires rs[k].candidate.Some? ==> rs[k].state.Starting?
    ensures (rs[k + 1].candidate.Some? && !rs[k + 1].state.Starting?)
            <==> (rs[k].candidate.Some? && rs[k].active.Some?
                  && calls[k].RemoteFinished? && calls[k].gen == rs[k].active.value.gen)
  {
    RemoteRunOk(rs, calls, k);
  }

  /**
   A sole active listener that reads `Running` stops doing so exactly at a start that takes effect and
   cannot be spawned.
   */
  lemma ListenerUnnamedExactly(rs: seq<Remote>, calls: seq<RemoteCall>, k: nat)
    requires RemoteRun(rs, calls) && k < |calls|
    requires rs[k].active.Some? && rs[k].candidate.None? && rs[k].state.Running?
    ensures (rs[k + 1].active.Some? && rs[k + 1].candidate.None? && !rs[k + 1].state.Running?)
            <==> (calls[k].StartRemote? && calls[k].spawnError.Some? && rs[k + 1].next != rs[k].next)
  {
    RemoteRunOk(rs, calls, k);
  }

  // ----- what starts, ends and shutdown come to

  /** An unfinished task of this key is in place. */
  predicate Unfinished(t: Option<Task>, key: string, done: bool)
  {
    t.Some? && t.value.key == key && !done
  }

  /** How a task that ends leaves the slot: with its error, or stopped. */
  predicate Told(state: Status, g: Gen, key: string, error: Option<string>)
  {
    && (error.Some? ==> state.Failed? && state.gen == g && state.key == key && state.error == error.value)
    && (error.None? ==> state.Stopped?)
  }

  /** The end of the active listener, or of a candidate without one, is told with its error, over any run. */
  lemma EndsAreTold(rs: seq<Remote>, calls: seq<RemoteCall>, k: nat)
    requires RemoteRun(rs, calls) && k < |calls| && calls[k].RemoteFinished?
    ensures rs[k].active.Some? && rs[k].active.value.gen == calls[k].gen ==>
              && Told(rs[k + 1].state, calls[k].gen, rs[k].active.value.key, calls[k].error)
              && rs[k + 1].active.None? && rs[k + 1].candidate == rs[k].candidate
    ensures rs[k].active.None? && rs[k].candidate.Some? && rs[k].candidate.value.gen == calls[k].gen ==>
              && Told(rs[k + 1].state, calls[k].gen, rs[k].candidate.value.key, calls[k].error)
              && rs[k + 1].active.None? && rs[k + 1].candidate.None?
  {
    RemoteRunOk(rs, calls, k);
  }

  /** `Failed` is entered only by an end with that error, or by a start that could not be spawned for it. */
  lemma FailedOnlyBy(rs: seq<Remote>, calls: seq<RemoteCall>, k: nat)
    requires RemoteRun(rs, calls) && k < |calls| && rs[k + 1].state.Failed? && rs[k + 1].state != rs[k].state
    ensures var g, key, e := rs[k + 1].state.gen, rs[k + 1].state.key, rs[k + 1].state.error;
            || (calls[k] == RemoteFinished(g, Some(e))
                && (if rs[k].active.Some? then rs[k].active else rs[k].candidate) == Some(Task(g, key)))
            || (calls[k].StartRemote? && calls[k].key == key && calls[k].spawnError == Some(e)
                && g == rs[k + 1].next && rs[k + 1].next != rs[k].next)
  {
    RemoteRunOk(rs, calls, k);
  }

  /**
   A start takes effect exactly when no unfinished task of its key is in place. It then hands out the next
   generation, and where the task can be spawned makes it the candidate and the state name it.
   */
  lemma StartTakesEffect(rs: seq<Remote>, calls: seq<RemoteCall>, k: nat)
    requires RemoteRun(rs, calls) && k < |calls| && calls[k].StartRemote?
    ensures var StartRemote(key, activeDone, candidateDone, spawnError) := calls[k];
            && (rs[k + 1] == rs[k]
                <==> Unfinished(rs[k].active, key, activeDone) || Unfinished(rs[k].candidate, key, candidateDone))
            && (rs[k + 1] != rs[k] ==> rs[k + 1].next == rs[k].next + 1 && rs[k + 1].active == rs[k].active)
            && (rs[k + 1] != rs[k] && spawnError.None? ==>
                  && rs[k + 1].candidate == Some(Task(rs[k].next + 1, key))
                  && rs[k + 1].state == Starting(rs[k].next + 1, key))
  {
    RemoteRunOk(rs, calls, k);
  }

  /** Shutdown leaves no task and no way for one to come back under its generation. */
  lemma ShutdownStops(rs: seq<Remote>, calls: seq<RemoteCall>, k: nat, g: Gen)
    requires RemoteRun(rs, calls) && k < |calls| && calls[k].ShutdownRemote?
    ensures rs[k + 1] == Remote(rs[k].next + 1, None, None, Stopped)
    ensures 0 < g <= rs[k].next ==> Superseded(rs[k + 1], g)
  {
    RemoteRunOk(rs, calls, k);
  }

  /** Generations are counted up from 1, and after the last one come round to 1. */
  lemma GenerationsComeRound(g: Gen)
    ensures NextGen(g) > 0 && (g < 0xFFFF_FFFF_FFFF_FFFF ==> NextGen(g) == g + 1)
    ensures g == 0xFFFF_FFFF_FFFF_FFFF ==> NextGen(g) == 1
  {
  }

  // ----- replaceable tasks

  datatype Slot = Slot(next: Gen, active: Option<Task>, state: Status)

  datatype SlotCall =
    | StartTask(key: string, done: bool, spawnError: Option<string>)
    | MarkRunning(gen: Gen)
    | TaskFinished(gen: Gen, error: Option<string>)
    | StopTask

  function SlotStep(s: Slot, call: SlotCall): Slot
  {
    match call
    case StartTask(key, done, spawnError) =>
      if AlreadyThere(s.active, key, done) then s
      else
        (var g := NextGen(s.next);
         match spawnError
         case Some(e) => Slot(g, None, Failed(g, key, e))
         case None => Slot(g, Some(Task(g, key)), Starting(g, key)))
    case MarkRunning(g) => if Is(s.active, g) then s.(state := Running(g, s.active.value.key)) else s
    case TaskFinished(g, error) =>
      if Is(s.active, g) then s.(active := None, state := CompletionState(s.active.value, error)) else s
    case StopTask => Slot(NextGen(s.next), None, Stopped)
  }

  /** Generations whose tasks a call on a replaceable slot aborts. */
  function SlotAborted(s: Slot, call: SlotCall): set<Gen>
  {
    match call
    case StartTask(key, done, _) => if AlreadyThere(s.active, key, done) then {} else GenOf(s.active)
    case MarkRunning(_) => {}
    case TaskFinished(_, _) => {}
    case StopTask => GenOf(s.active)
  }

  /** A slot is starting or running exactly while it has a task, and then names it. */
  predicate SlotOk(s: Slot)
  {
    && (s.active.Some? ==> 0 < s.active.value.gen <= s.next)
    && match s.active {
         case Some(t) => s.state == Starting(t.gen, t.key) || s.state == Running(t.gen, t.key)
         case None => s.state.Stopped? || s.state.Failed?
       }
  }

  const FRESH_SLOT := Slot(0, None, Stopped)

  ghost predicate SlotRun(ss: seq<Slot>, calls: seq<SlotCall>)
  {
    && |ss| == |calls| + 1 && ss[0] == FRESH_SLOT
    && forall k :: 0 <= k < |calls| ==> ss[k].next + 1 < TWO_64 && ss[k + 1] == SlotStep(ss[k], calls[k])
  }

  lemma SlotStepKeeps(s: Slot, call: SlotCall)
    requires SlotOk(s) && s.next + 1 < TWO_64
    ensures SlotOk(SlotStep(s, call)) && s.next <= SlotStep(s, call).next
    ensures forall g: Gen :: 0 < g <= s.next && !Is(s.active, g) ==> !Is(SlotStep(s, call).active, g)
  {
  }

  lemma {:induction false} SlotRunOk(ss: seq<Slot>, calls: seq<SlotCall>, k: nat)
    requires SlotRun(ss, calls) && k < |ss|
    ensures SlotOk(ss[k])
    ensures (ss[k].state.Starting? || ss[k].state.Running?) <==> ss[k].active.Some?
    decreases k
  {
    hide SlotStep;
    if k > 0 {
      SlotRunOk(ss, calls, k - 1);
      SlotStepKeeps(ss[k - 1], calls[k - 1]);
    }
  }

  /** The end of the task of a replaceable slot is told with its error. */
  lemma TaskEndsAreTold(ss: seq<Slot>, calls: seq<SlotCall>, k: nat)
    requires SlotRun(ss, calls) && k < |calls| && calls[k].TaskFinished?
    requires ss[k].active.Some? && ss[k].active.value.gen == calls[k].gen
    ensures Told(ss[k + 1].state, calls[k].gen, ss[k].active.value.key, calls[k].error) && ss[k + 1].active.None?
  {
    SlotRunOk(ss, calls, k);
  }

  /** `Failed` is entered only by an end with that error, or by a start that could not be spawned for it. */
  lemma TaskFailedOnlyBy(ss: seq<Slot>, calls: seq<SlotCall>, k: nat)
    requires SlotRun(ss, calls) && k < |calls| && ss[k + 1].state.Failed? && ss[k + 1].state != ss[k].state
    ensures var g, key, e := ss[k + 1].state.gen, ss[k + 1].state.key, ss[k + 1].state.error;
            || (calls[k] == TaskFinished(g, Some(e)) && ss[k].active == Some(Task(g, key)))
            || (calls[k].StartTask? && calls[k].key == key && calls[k].spawnError == Some(e)
                && g == ss[k + 1].next && ss[k + 1].next != ss[k].next)
  {
    SlotRunOk(ss, calls, k);
  }

  /** Starts, the mark of a running task, and stops of a replaceable slot. */
  lemma TaskCallsTakeEffect(ss: seq<Slot>, calls: seq<SlotCall>, k: nat)
    requires SlotRun(ss, calls) && k < |calls|
    ensures calls[k].StartTask? ==>
              && (ss[k + 1] == ss[k] <==> Unfinished(ss[k].active, calls[k].key, calls[k].done))
              && (ss[k + 1] != ss[k] ==> ss[k + 1].next == ss[k].next + 1)
              && (ss[k + 1] != ss[k] && calls[k].spawnError.None? ==>
                    && ss[k + 1].active == Some(Task(ss[k].next + 1, calls[k].key))
                    && ss[k + 1].state == Starting(ss[k].next + 1, calls[k].key))
    ensures calls[k].MarkRunning? && ss[k].active.Some? && ss[k].active.value.gen == calls[k].gen ==>
              ss[k + 1].state == Running(calls[k].gen, ss[k].active.value.key) && ss[k + 1].active == ss[k].active
    ensures calls[k].StopTask? ==> ss[k + 1] == Slot(ss[k].next + 1, None, Stopped)
  {
    SlotRunOk(ss, calls, k);
  }

  /** Events of a replaced task of a replaceable slot change nothing, ever after. */
  lemma {:induction false} LateTaskEventsHarmless(ss: seq<Slot>, calls: seq<SlotCall>, j: nat, k: nat, g: Gen,
                                                  error: Option<string>)
    requires SlotRun(ss, calls) && j <= k < |ss| && 0 < g <= ss[j].next && !Is(ss[j].active, g)
    ensures g <= ss[k].next && !Is(ss[k].active, g)
    ensures SlotStep(ss[k], MarkRunning(g)) == ss[k] && SlotStep(ss[k], TaskFinished(g, error)) == ss[k]
    decreases k
  {
    if j < k {
      LateTaskEventsHarmless(ss, calls, j, k - 1, g, error);
      SlotRunOk(ss, calls, k - 1);
      SlotStepKeeps(ss[k - 1], calls[k - 1]);
    }
  }

  /** A task leaves its slot in one of three ways: it ends, it is aborted by a stop, or by a start that replaces it. */
  lemma TaskLeavesOnlyBy(ss: seq<Slot>, calls: seq<SlotCall>, k: nat)
    requires SlotRun(ss, calls) && k < |calls| && ss[k].active.Some?
    ensures ss[k + 1].active != ss[k].active <==>
              || (calls[k].TaskFinished? && calls[k].gen == ss[k].active.value.gen)
              || ss[k].active.value.gen in SlotAborted(ss[k], calls[k])
    ensures ss[k].active.value.gen in SlotAborted(ss[k], calls[k]) <==>
              calls[k].StopTask? || (calls[k].StartTask? && ss[k + 1] != ss[k])
  {
    SlotRunOk(ss, calls, k);
  }

  // ----- the slots as objects

  class RemoteListenerSlot {
    var nextGeneration: Gen
    var active: Option<Task>
    var candidate: Option<Task>
    var state: Status

    ghost function Model(): Remote
      reads this
    {
      Remote(nextGeneration, active, candidate, state)
    }

    constructor ()
      ensures Model() == FRESH_REMOTE
    {
      nextGeneration, active, candidate, state := 0, None, None, Stopped;
    }

    method Start(key: string, activeDone: bool, candidateDone: bool, spawnError: Option<string>)
      returns (aborted: set<Gen>)
      modifies this
      ensures Model() == RemoteStep(old(Model()), StartRemote(key, activeDone, candidateDone, spawnError))
      ensures aborted == Aborted(old(Model()), StartRemote(key, activeDone, candidateDone, spawnError))
    {
      aborted := {};
      if (active.Some? && active.value.key == key && !activeDone)
         || (candidate.Some? && candidate.value.key == key && !candidateDone) {
        return;
      }
      if candidate.Some? {
        aborted := {candidate.value.gen};
        candidate := None;
      }
      nextGeneration := NextGen(nextGeneration);
      state := Starting(nextGeneration, key);
      if spawnError.Some? {
        state := Failed(nextGeneration, key, spawnError.value);
        return;
      }
      candidate := Some(Task(nextGeneration, key));
    }

    method Promote(gen: Gen) returns (ok: bool, aborted: set<Gen>)
      modifies this
      ensures Model() == RemoteStep(old(Model()), RemoteCall.Promote(gen))
      ensures aborted == Aborted(old(Model()), RemoteCall.Promote(gen)) && ok == Is(old(candidate), gen)
    {
      aborted := {};
      if candidate.None? || candidate.value.gen != gen {
        return false, aborted;
      }
      if active.Some? {
        aborted := {active.value.gen};
      }
      state := Running(gen, candidate.value.key);
      active := candidate;
      candidate := None;
      ok := true;
    }

    method Finished(gen: Gen, error: Option<string>)
      modifies this
      ensures Model() == RemoteStep(old(Model()), RemoteFinished(gen, error))
    {
      if candidate.Some? && candidate.value.gen == gen {
        state := if active.Some? then Running(active.value.gen, active.value.key)
                 else CompletionState(candidate.value, error);
        candidate := None;
        return;
      }
      if active.Some? && active.value.gen == gen {
        state := CompletionState(active.value, error);
        active := None;
      }
    }

    method Shutdown() returns (aborted: set<Gen>)
      modifies this
      ensures Model() == RemoteStep(old(Model()), ShutdownRemote) && aborted == Aborted(old(Model()), ShutdownRemote)
    {
      nextGeneration := NextGen(nextGeneration);
      aborted := GenOf(candidate) + GenOf(active);
      candidate, active, state := None, None, Stopped;
    }
  }

  class ReplaceableTaskSlot {
    var nextGeneration: Gen
    var active: Option<Task>
    var state: Status

    ghost function Model(): Slot
      reads this
    {
      Slot(nextGeneration, active, state)
    }

    constructor ()
      ensures Model() == FRESH_SLOT
    {
      nextGeneration, active, state := 0, None, Stopped;
    }

    method Start(key: string, done: bool, spawnError: Option<string>) returns (aborted: set<Gen>)
      modifies this
      ensures Model() == SlotStep(old(Model()), StartTask(key, done, spawnError))
      ensures aborted == SlotAborted(old(Model()), StartTask(key, done, spawnError))
    {
      aborted := {};
      if active.Some? && active.value.key == key && !done {
        return;
      }
      aborted := GenOf(active);
      active := None;
      nextGeneration := NextGen(nextGeneration);
      state := Starting(nextGeneration, key);
      if spawnError.Some? {
        state := Failed(nextGeneration, key, spawnError.value);
        return;
      }
      active := Some(Task(nextGeneration, key));
    }

    method Stop() returns (aborted: set<Gen>)
      modifies this
      ensures Model() == SlotStep(old(Model()), StopTask) && aborted == SlotAborted(old(Model()), StopTask)
    {
      aborted := GenOf(active);
      nextGeneration := NextGen(nextGeneration);
      active, state := None, Stopped;
    }

    method MarkRunning(gen: Gen)
      modifies this
      ensures Model() == SlotStep(old(Model()), SlotCall.MarkRunning(gen))
    {
      if active.Some? && active.value.gen == gen {
        state := Running(gen, active.value.key);
      }
    }

    method Finished(gen: Gen, error: Option<string>)
      modifies this
      ensures Model() == SlotStep(old(Model()), TaskFinished(gen, error))
    {
      if active.Some? && active.value.gen == gen {
        state := CompletionState(active.value, error);
        active := None;
      }
    }
  }

  class ServerSupervisor {
    const remote: RemoteListenerSlot
    const local: ReplaceableTaskSlot
    const report: ReplaceableTaskSlot
    const torchrun: ReplaceableTaskSlot

    ghost predicate Valid()
    {
      local != report && local != torchrun && report != torchrun
    }

    constructor ()
      ensures Valid() && fresh(remote) && fresh(local) && fresh(report) && fresh(torchrun)
      ensures remote.Model() == FRESH_REMOTE
      ensures local.Model() == report.Model() == torchrun.Model() == FRESH_SLOT
    {
      remote := new RemoteListenerSlot();
      local := new ReplaceableTaskSlot();
      report := new ReplaceableTaskSlot();
      torchrun := new ReplaceableTaskSlot();
    }

    method TorchrunClusterActive() returns (b: bool)
      requires SlotOk(torchrun.Model())
      ensures b == torchrun.active.Some?
    {
      b := torchrun.state.Starting? || torchrun.state.Running?;
    }

    /** Every slot is stopped and every task there was is aborted. */
    method Shutdown() returns (remotes: set<Gen>, locals: set<Gen>, reports: set<Gen>, torchruns: set<Gen>)
      requires Valid()
      modifies remote, local, report, torchrun
      ensures remotes == GenOf(old(remote.active)) + GenOf(old(remote.candidate))
      ensures locals == GenOf(old(local.active)) && reports == GenOf(old(report.active))
      ensures torchruns == GenOf(old(torchrun.active))
      ensures remote.Model() == RemoteStep(old(remote.Model()), ShutdownRemote)
      ensures local.Model() == SlotStep(old(local.Model()), StopTask)
      ensures report.Model() == SlotStep(old(report.Model()), StopTask)
      ensures torchrun.Model() == SlotStep(old(torchrun.Model()), StopTask)
    {
      remotes := remote.Shutdown();
      locals := local.Stop();
      reports := report.Stop();
      torchruns := torchrun.Stop();
    }
  }
}
