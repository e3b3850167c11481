/**
  One backend, two kinds of caller: foreground turns preempt background generation.

  Every stretch of code between two suspension points is one atomic step.  The condition's lock
  is never held across a suspension, so taking it never suspends and is part of its step.  A
  task is a number, used once.  `World` adds to the gate what only the tasks themselves know:
  where each of them is.  A call is in flight from the step that starts it until the step that
  ends it.
*/
module PriorityGate {
  import opened Wrappers

  type Task = nat

  datatype Side = Foreground | Background

  /** The gate's own fields. */
  datatype Gate = Gate(active: Option<Side>, waiters: int, call: Option<Task>)

  // ---- what each step does to the gate -------------------------------------

  /** The call to cancel when background work is interrupted: the one it remembers, if that is
      still running. */
  function Interrupted(g: Gate, running: set<Task>): set<Task> {
    if g.call.Some? && g.call.value in running then {g.call.value} else {}
  }

  function Entered(g: Gate): Gate {
    g.(waiters := g.waiters + 1)
  }

  function Acquired(g: Gate): Gate {
    g.(active := Some(Foreground), waiters := g.waiters - 1)
  }

  function GaveUp(g: Gate): Gate {
    g.(waiters := g.waiters - 1)
  }

  function Left(g: Gate): Gate {
    g.(active := None)
  }

  predicate MayBegin(g: Gate) {
    g.active.None? && g.waiters == 0
  }

  function Begun(g: Gate, t: Task): Gate {
    g.(active := Some(Background), call := Some(t))
  }

  function CleanedUp(g: Gate, t: Task): Gate {
    g.(call := if g.call == Some(t) then None else g.call,
       active := if g.active == Some(Background) then None else g.active)
  }

  /** The gate as the object it is: each method is one stretch between suspension points. */
  class HermesPriorityGate {
    var active: Option<Side>
    var foregroundWaiters: int
    var backgroundCall: Option<Task>

    function Fields(): Gate
      reads this
    {
      Gate(active, foregroundWaiters, backgroundCall)
    }

    constructor ()
      ensures Fields() == Gate(None, 0, None)
    {
      active, foregroundWaiters, backgroundCall := None, 0, None;
    }

    method InterruptBackground(running: set<Task>) returns (cancel: set<Task>)
      ensures cancel == Interrupted(Fields(), running)
    {
      cancel := {};
      if backgroundCall.Some? && backgroundCall.value in running {
        cancel := {backgroundCall.value};
      }
    }

    /** Register as a waiter, and interrupt background work, before waiting. */
    method EnterForeground(running: set<Task>) returns (cancel: set<Task>)
      modifies this
      ensures Fields() == Entered(old(Fields()))
      ensures cancel == Interrupted(old(Fields()), running)
    {
      foregroundWaiters := foregroundWaiters + 1;
      cancel := InterruptBackground(running);
    }

    /** Each time the waiter wakes: take the turn if it is free. */
    method TryAcquire() returns (acquired: bool)
      modifies this
      ensures acquired <==> old(active).None?
      ensures Fields() == if acquired then Acquired(old(Fields())) else old(Fields())
    {
      acquired := active.None?;
      if acquired {
        active := Some(Foreground);
        foregroundWaiters := foregroundWaiters - 1;
      }
    }

    method GiveUp()
      modifies this
      ensures Fields() == GaveUp(old(Fields()))
    {
      foregroundWaiters := foregroundWaiters - 1;
    }

    method LeaveForeground()
      modifies this
      ensures Fields() == Left(old(Fields()))
    {
      active := None;
    }

    /** Each time a background caller wakes: start the call if nobody is ahead of it. */
    method TryBegin(call: Task) returns (begun: bool)
      modifies this
      ensures begun <==> MayBegin(old(Fields()))
      ensures Fields() == if begun then Begun(old(Fields()), call) else old(Fields())
    {
      begun := active.None? && foregroundWaiters == 0;
      if begun {
        active := Some(Background);
        backgroundCall := Some(call);
      }
    }

    method CleanUpBackground(call: Task)
      modifies this
      ensures Fields() == CleanedUp(old(Fields()), call)
    {
      if backgroundCall == Some(call) {
        backgroundCall := None;
      }
      if active == Some(Background) {
        active := None;
      }
    }
  }

  // ---- runs ----------------------------------------------------------------

  datatype World = World(
    gate: Gate,
    known: set<Task>,
    waiting: set<Task>,    // foreground turns waiting
    calling: set<Task>,    // foreground calls in flight
    closing: set<Task>,    // foreground calls over, turn not yet given back
    running: set<Task>,    // background calls in flight
    ended: set<Task>,      // background calls over, not yet cleaned up after
    cancelled: set<Task>)  // background calls asked to stop

  datatype Step =
    | Arrive(t: Task) | Acquire(t: Task) | Abandon(t: Task) | EndTurn(t: Task) | Leave(t: Task)
    | Begin(t: Task) | EndCall(t: Task) | CleanUp(t: Task)
    | Interrupt | CancelOwner(t: Task)

  predicate CanStep(w: World, s: Step) {
    match s
    case Arrive(t) => t !in w.known
    case Acquire(t) => t in w.waiting && w.gate.active.None?
    case Abandon(t) => t in w.waiting
    case EndTurn(t) => t in w.calling
    case Leave(t) => t in w.closing
    case Begin(t) => t !in w.known && MayBegin(w.gate)
    case EndCall(t) => t in w.running
    case CleanUp(t) => t in w.ended
    case Interrupt => true
    case CancelOwner(t) => t in w.running
  }

  function Next(w: World, s: Step): World
    requires CanStep(w, s)
  {
    match s
    case Arrive(t) =>
      w.(gate := Entered(w.gate), known := w.known + {t}, waiting := w.waiting + {t},
         cancelled := w.cancelled + Interrupted(w.gate, w.running))
    case Acquire(t) => w.(gate := Acquired(w.gate), waiting := w.waiting - {t}, calling := w.calling + {t})
    case Abandon(t) => w.(gate := GaveUp(w.gate), waiting := w.waiting - {t})
    case EndTurn(t) => w.(calling := w.calling - {t}, closing := w.closing + {t})
    case Leave(t) => w.(gate := Left(w.gate), closing := w.closing - {t})
    case Begin(t) => w.(gate := Begun(w.gate, t), known := w.known + {t}, running := w.running + {t})
    case EndCall(t) => w.(running := w.running - {t}, ended := w.ended + {t})
    case CleanUp(t) => w.(gate := CleanedUp(w.gate, t), ended := w.ended - {t})
    case Interrupt => w.(cancelled := w.cancelled + Interrupted(w.gate, w.running))
    case CancelOwner(t) => w.(cancelled := w.cancelled + {t})
  }

  const START := World(Gate(None, 0, None), {}, {}, {}, {}, {}, {}, {})

  predicate CanRun(w: World, steps: seq<Step>)
    decreases |steps|
  {
    steps == [] || (CanStep(w, steps[0]) && CanRun(Next(w, steps[0]), steps[1..]))
  }

  function Ran(w: World, steps: seq<Step>): World
    requires CanRun(w, steps)
    decreases |steps|
  {
    if steps == [] then w else Ran(Next(w, steps[0]), steps[1..])
  }

  // ---- safety --------------------------------------------------------------

  /** Backend calls in flight. */
  function InFlight(w: World): set<Task> {
    w.calling + w.running
  }

  /** Tasks that hold the turn: their call is in flight or not yet cleaned up after. */
  function Holders(w: World): set<Task> {
    w.calling + w.closing + w.running + w.ended
  }

  /** At most one task holds the turn, and the gate knows of which side it is. */
  predicate OneHolder(w: World) {
    && (forall a, b :: a in Holders(w) && b in Holders(w) ==> a == b)
    && (w.calling + w.closing != {} ==> w.gate.active == Some(Foreground))
    && (w.running + w.ended != {} ==> w.gate.active == Some(Background))
    && (forall t :: t in w.running + w.ended ==> w.gate.call == Some(t))
  }

  predicate Separate(w: World) {
    && w.waiting + Holders(w) <= w.known
    && w.waiting !! Holders(w) && w.calling !! w.closing && w.running !! w.ended
    && w.calling + w.closing !! w.running + w.ended
  }

  /** The counter is the number of waiters, and no background call runs on unasked to stop
      while there is one. */
  predicate WaitersFirst(w: World) {
    w.gate.waiters == |w.waiting| && (w.waiting != {} ==> w.running <= w.cancelled)
  }

  predicate Sound(w: World) {
    Separate(w) && OneHolder(w) && WaitersFirst(w)
  }

  lemma NextSound(w: World, s: Step)
    requires Sound(w) && CanStep(w, s)
    ensures Sound(Next(w, s))
  {
    NextSeparate(w, s);
    NextOneHolder(w, s);
    NextWaitersFirst(w, s);
  }

  lemma NextSeparate(w: World, s: Step)
    requires Sound(w) && CanStep(w, s)
    ensures Separate(Next(w, s))
  {
    hide OneHolder, WaitersFirst;
  }

  lemma NextOneHolder(w: World, s: Step)
    requires Sound(w) && CanStep(w, s)
    ensures OneHolder(Next(w, s))
  {
    hide WaitersFirst;
    var v := Next(w, s);
    if s.Acquire? || s.Begin? {
      assert Holders(w) == {};
    }
    forall a, b | a in Holders(v) && b in Holders(v) ensures a == b {
    }
  }

  lemma NextWaitersFirst(w: World, s: Step)
    requires Sound(w) && CanStep(w, s)
    ensures WaitersFirst(Next(w, s))
  {
    if s.Arrive? {
      assert w.running <= Interrupted(w.gate, w.running);
      assert |w.waiting + {s.t}| == |w.waiting| + 1;
    }
  }

  /** In every interleaving at most one backend call is in flight. */
  lemma {:induction false} RunSound(w: World, steps: seq<Step>)
    requires Sound(w) && CanRun(w, steps)
    ensures Sound(Ran(w, steps))
    ensures |InFlight(Ran(w, steps))| <= 1
    decreases |steps|
  {
    hide Sound, Next, CanStep;
    if steps != [] {
      NextSound(w, steps[0]);
      RunSound(Next(w, steps[0]), steps[1..]);
    } else {
      OneInFlight(w);
    }
  }

  lemma OneInFlight(w: World)
    requires Sound(w)
    ensures |InFlight(w)| <= 1
  {
    if t :| t in InFlight(w) {
      OnlyHolder(w, t);
      assert InFlight(w) == {t};
    }
  }

  lemma OnlyHolder(w: World, t: Task)
    requires OneHolder(w) && t in Holders(w)
    ensures Holders(w) == {t}
  {
    hide Holders;
  }

  lemma StartSound()
    ensures Sound(START)
  {
  }

  // ---- priority ------------------------------------------------------------

  /** `t` is neither served nor gone in any of these steps. */
  predicate KeepsWaiting(t: Task, steps: seq<Step>) {
    Acquire(t) !in steps && Abandon(t) !in steps
  }

  /** While a foreground turn waits, no background call starts: the only one it can be waiting
      for was already running when it arrived, and has been asked to stop. */
  lemma {:induction false} NobodyOvertakes(w: World, steps: seq<Step>, t: Task)
    requires Sound(w) && CanRun(w, steps) && t in w.waiting && KeepsWaiting(t, steps)
    ensures forall i :: 0 <= i < |steps| ==> !steps[i].Begin?
    ensures t in Ran(w, steps).waiting
    ensures Ran(w, steps).running <= w.running <= w.cancelled
    decreases |steps|
  {
    assert w.running <= w.cancelled;
    if steps != [] {
      var first, rest := steps[0], steps[1..];
      assert first != Acquire(t) && first != Abandon(t) && KeepsWaiting(t, rest);
      assert forall i :: 0 < i < |steps| ==> steps[i] == rest[i - 1];
      hide Sound, Next, CanStep, KeepsWaiting;
      NextSound(w, first);
      StillWaiting(w, first, t);
      NobodyOvertakes(Next(w, first), rest, t);
    }
  }

  lemma StillWaiting(w: World, s: Step, t: Task)
    requires Sound(w) && CanStep(w, s) && t in w.waiting && s != Acquire(t) && s != Abandon(t)
    ensures !s.Begin? && t in Next(w, s).waiting && Next(w, s).running <= w.running
  {
    assert |w.waiting| > 0;
    hide Holders;
  }

  lemma RunningHolds(w: World)
    ensures w.running <= Holders(w)
    ensures OneHolder(w) && w.running != {} ==> w.gate.call.Some? && w.gate.call.value in w.running
  {
    if OneHolder(w) && w.running != {} {
      var t :| t in w.running;
      assert t in w.running + w.ended;
    }
  }

  /** An arrival is told to cancel exactly the background call in flight, never a foreground
      one. */
  lemma ArrivalCancels(w: World, t: Task)
    requires Sound(w) && t !in w.known
    ensures Interrupted(w.gate, w.running) == w.running
    ensures w.running <= Next(w, Arrive(t)).cancelled && InFlight(Next(w, Arrive(t))) == InFlight(w)
  {
    if u :| u in w.running {
      RunningHolds(w);
      OnlyHolder(w, u);
      hide Sound, Holders, OneHolder;
    }
  }

  // ---- the turn is given back ----------------------------------------------

  /** The turn is taken exactly when somebody holds it, so that who may go next is exactly what
      the design says. */
  lemma {:induction false} TurnIsGivenBack(w: World, steps: seq<Step>)
    requires Sound(w) && CanRun(w, steps) && (w.gate.active.None? <==> Holders(w) == {})
    ensures var v := Ran(w, steps);
      && (v.gate.active.None? <==> Holders(v) == {})
      && (forall t :: t in v.waiting ==> (CanStep(v, Acquire(t)) <==> Holders(v) == {}))
      && (forall t :: t !in v.known ==> (CanStep(v, Begin(t)) <==> Holders(v) == {} && v.waiting == {}))
    decreases |steps|
  {
    if steps == [] {
    } else {
      NextSound(w, steps[0]);
      NextGivesBack(w, steps[0]);
      hide Sound, Next, CanStep, Holders;
      TurnIsGivenBack(Next(w, steps[0]), steps[1..]);
    }
  }

  lemma NextGivesBack(w: World, s: Step)
    requires Sound(w) && CanStep(w, s) && (w.gate.active.None? <==> Holders(w) == {})
    ensures Next(w, s).gate.active.None? <==> Holders(Next(w, s)) == {}
  {
    HoldersAfter(w, s);
    hide Separate, WaitersFirst, Holders;
    match s
    case Leave(t) => OnlyHolder(w, t);
    case CleanUp(t) => OnlyHolder(w, t);
    case EndTurn(t) =>
    case EndCall(t) =>
    case _ =>
  }

  predicate Takes(s: Step) {
    s.Acquire? || s.Begin?
  }

  predicate Frees(s: Step) {
    s.Leave? || s.CleanUp?
  }

  lemma HoldersAfter(w: World, s: Step)
    requires Separate(w) && CanStep(w, s)
    ensures Holders(Next(w, s))
      == if Takes(s) then Holders(w) + {s.t} else if Frees(s) then Holders(w) - {s.t} else Holders(w)
    ensures s.EndTurn? || s.EndCall? || Frees(s) ==> s.t in Holders(w)
  {
  }

  /** Cleaning up after a background call frees the turn, which was its own, and forgets the
      call, so that a later interruption cannot reach a call that is over. */
  lemma CleanUpFreesOwnTurn(w: World, t: Task)
    requires Sound(w) && CanStep(w, CleanUp(t))
    ensures w.gate.active == Some(Background) && w.gate.call == Some(t) && Holders(w) == {t}
    ensures var v := Next(w, CleanUp(t)); v.gate.active.None? && v.gate.call.None? && Holders(v) == {}
  {
    assert t in w.running + w.ended;
    OnlyHolder(w, t);
    HoldersAfter(w, CleanUp(t));
    hide Holders, Separate, WaitersFirst;
  }

  // ---- from the start ------------------------------------------------------

  /** All of it, from a gate nobody has used yet. */
  lemma FromTheStart(steps: seq<Step>)
    requires CanRun(START, steps)
    ensures var v := Ran(START, steps);
      && |InFlight(v)| <= 1 && v.gate.waiters == |v.waiting|
      && (v.waiting != {} ==> v.running <= v.cancelled)
      && (v.gate.active.None? <==> Holders(v) == {})
  {
    StartSound();
    assert Holders(START) == {};
    RunSound(START, steps);
    TurnIsGivenBack(START, steps);
    hide CanRun, Ran, Holders, InFlight, OneHolder, Separate;
  }

  /** Background work can be interrupted at any time: exactly the call in flight is asked to stop.
      So is a call whose own task is cancelled. */
  lemma InterruptStopsTheCall(w: World)
    requires Sound(w)
    ensures CanStep(w, Interrupt) && Next(w, Interrupt) == w.(cancelled := w.cancelled + w.running)
    ensures forall t :: t in w.running ==>
      CanStep(w, CancelOwner(t)) && Next(w, CancelOwner(t)) == w.(cancelled := w.cancelled + {t})
  {
    if u :| u in w.running {
      RunningHolds(w);
      OnlyHolder(w, u);
      hide Sound, Holders, OneHolder;
    }
  }
}
