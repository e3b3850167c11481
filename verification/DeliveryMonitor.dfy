/**
  Proving that webhook delivery is alive, and repairing it in bounded cycles when it is not.

  `State` holds the monitor's own fields; everything between two suspension points is one step,
  and webhooks and registrations may arrive between any two steps.
*/
module DeliveryMonitor {
  import opened Wrappers

  datatype Reason = Registration | Silence

  datatype Remedy = Reregister | RecycleTunnel

  const LADDER: seq<Remedy> := [Reregister, RecycleTunnel]

  /** At most one attempt more than there are remedies. */
  datatype Config = Config(silence: real, maxAttempts: nat)

  predicate ConfigOk(cfg: Config) {
    cfg.silence >= 0.0 && 1 <= cfg.maxAttempts <= |LADDER| + 1
  }

  // ---- the monitor's own fields --------------------------------------------

  /** `inbound` and `registered` are the two event flags. */
  datatype State = State(gaveUp: bool, inbound: bool, registered: bool, lastInbound: real)

  function Observed(s: State, now: real): State {
    s.(lastInbound := now, inbound := true, gaveUp := false)
  }

  function Notified(s: State): State {
    s.(registered := true, gaveUp := false)
  }

  function Finished(s: State, now: real): State {
    s.(registered := false, lastInbound := now)
  }

  /** Why a probe is due, if one is. */
  function DueReason(s: State, cfg: Config, now: real, activeHours: bool): Option<Reason> {
    if s.registered then Some(Registration)
    else if s.gaveUp then None
    else if now - s.lastInbound < cfg.silence then None
    else if !activeHours then None
    else Some(Silence)
  }

  class WebhookDeliveryMonitor {
    var gaveUp: bool
    var inbound: bool
    var registered: bool
    var lastInbound: real

    function Fields(): State
      reads this
    {
      State(gaveUp, inbound, registered, lastInbound)
    }

    constructor (now: real)
      ensures Fields() == State(false, false, false, now)
    {
      gaveUp, inbound, registered, lastInbound := false, false, false, now;
    }

    method Observe(now: real)
      modifies this
      ensures Fields() == Observed(old(Fields()), now)
    {
      lastInbound := now;
      inbound := true;
      if gaveUp {
        gaveUp := false;
      }
    }

    method NotifyRegistered()
      modifies this
      ensures Fields() == Notified(old(Fields()))
    {
      registered := true;
      gaveUp := false;
    }

    method FinishCycle(now: real)
      modifies this
      ensures Fields() == Finished(old(Fields()), now)
    {
      registered := false;
      lastInbound := now;
    }

    method Due(cfg: Config, now: real, activeHours: bool) returns (reason: Option<Reason>)
      ensures reason == DueReason(Fields(), cfg, now, activeHours)
    {
      if registered {
        return Some(Registration);
      }
      if gaveUp {
        return None;
      }
      if now - lastInbound < cfg.silence {
        return None;
      }
      if !activeHours {
        return None;
      }
      return Some(Silence);
    }
  }

  // ---- the loop ------------------------------------------------------------

  datatype Phase =
    | Looping
    | Settling(mark: real)        // the pause before a registration probe
    | Sending(attempt: nat)       // the probe is being sent
    | Listening(attempt: nat)     // waiting for any webhook
    | Repairing(attempt: nat)     // the remedy before this attempt
    | Pausing(attempt: nat)       // the back-off after it

  /** What one cycle did.  `heard` says whether a probe was answered. */
  datatype Cycle = Cycle(
    reason: Reason, start: real, probes: nat, remedies: seq<Remedy>, heard: bool, end: Option<real>)

  datatype World = World(clock: real, state: State, phase: Phase, cycles: seq<Cycle>)

  datatype Step =
    | Pass(later: real)
    | Webhook
    | Register
    | Look(activeHours: bool)
    | Settled
    | Sent
    | SendFailed
    | Heard
    | TimedOut
    | Repaired                    // or found unavailable, or failed
    | Resumed
    | Stopping                    // noticed after a pause
    | Broke                       // an exception the loop survives

  predicate CanStep(w: World, s: Step) {
    match s
    case Pass(later) => later >= w.clock
    case Webhook => true
    case Register => true
    case Look(_) => w.phase.Looping?
    case Settled => w.phase.Settling?
    case Sent => w.phase.Sending?
    case SendFailed => w.phase.Sending?
    case Heard => w.phase.Listening? && w.state.inbound
    case TimedOut => w.phase.Listening? && !w.state.inbound
    case Repaired => w.phase.Repairing?
    case Resumed => w.phase.Pausing?
    case Stopping => w.phase.Pausing?
    case Broke => !w.phase.Looping?
  }

  function Last(w: World): Cycle
    requires w.cycles != []
  {
    w.cycles[|w.cycles| - 1]
  }

  function WithLast(w: World, c: Cycle): World {
    if w.cycles == [] then w else w.(cycles := w.cycles[|w.cycles| - 1 := c])
  }

  /** Begin the first attempt of a cycle: the inbound flag is cleared before the send. */
  function BeginCycle(w: World, reason: Reason): World {
    w.(phase := Sending(1), state := w.state.(inbound := false),
       cycles := w.cycles + [Cycle(reason, w.clock, 0, [], false, None)])
  }

  function EndCycle(w: World, heard: bool, gaveUp: bool): World {
    var v := w.(phase := Looping, state := Finished(w.state.(gaveUp := gaveUp || w.state.gaveUp), w.clock));
    if w.cycles == [] || w.phase.Looping? || w.phase.Settling? then v
    else WithLast(v, Last(w).(end := Some(w.clock), heard := heard))
  }

  function ProbeCounted(w: World): World {
    if w.cycles == [] then w else WithLast(w, Last(w).(probes := Last(w).probes + 1))
  }

  /** The remedy on the rung before this attempt. */
  function RemedyTaken(w: World, attempt: nat): World {
    if w.cycles == [] || !(2 <= attempt <= |LADDER| + 1) then w
    else WithLast(w, Last(w).(remedies := Last(w).remedies + [LADDER[attempt - 2]]))
  }

  function Next(w: World, cfg: Config, s: Step): World
    requires ConfigOk(cfg) && CanStep(w, s)
  {
    match s
    case Pass(later) => w.(clock := later)
    case Webhook => w.(state := Observed(w.state, w.clock))
    case Register => w.(state := Notified(w.state))
    case Look(activeHours) =>
      var due := DueReason(w.state, cfg, w.clock, activeHours);
      if due == None then w
      else if due == Some(Registration) then
        w.(state := w.state.(registered := false), phase := Settling(w.state.lastInbound))
      else BeginCycle(w, Silence)
    case Settled =>
      if w.state.lastInbound != w.phase.mark then w.(phase := Looping, state := w.state.(lastInbound := w.clock))
      else BeginCycle(w, Registration)
    case Sent => ProbeCounted(w).(phase := Listening(w.phase.attempt))
    case SendFailed => EndCycle(w, false, false)
    case Heard => EndCycle(w, true, false)
    case TimedOut =>
      if w.phase.attempt < cfg.maxAttempts then w.(phase := Repairing(w.phase.attempt + 1))
      else EndCycle(w, false, true)
    case Repaired => RemedyTaken(w, w.phase.attempt).(phase := Pausing(w.phase.attempt))
    case Resumed => w.(phase := Sending(w.phase.attempt), state := w.state.(inbound := false))
    case Stopping => EndCycle(w, false, false)
    case Broke => EndCycle(w, false, false)
  }

  predicate CanRun(w: World, cfg: Config, steps: seq<Step>)
    requires ConfigOk(cfg)
    decreases |steps|
  {
    steps == [] || (CanStep(w, steps[0]) && CanRun(Next(w, cfg, steps[0]), cfg, steps[1..]))
  }

  function Ran(w: World, cfg: Config, steps: seq<Step>): World
    requires ConfigOk(cfg) && CanRun(w, cfg, steps)
    decreases |steps|
  {
    if steps == [] then w else Ran(Next(w, cfg, steps[0]), cfg, steps[1..])
  }

  function Start(now: real): World {
    World(now, State(false, false, false, now), Looping, [])
  }

  // ---- what every run keeps ------------------------------------------------

  /** A cycle in progress at this attempt. */
  predicate InAttempt(c: Cycle, attempt: nat, probes: nat, remedies: nat) {
    c.end == None && !c.heard && c.probes == probes && attempt <= |LADDER| + 1
    && remedies <= |LADDER| && c.remedies == LADDER[..remedies]
  }

  predicate PhaseOk(w: World, cfg: Config) {
    match w.phase
    case Looping => true
    case Settling(_) => true
    case Sending(a) => 1 <= a <= cfg.maxAttempts && w.cycles != [] && InAttempt(Last(w), a, a - 1, a - 1)
    case Listening(a) => 1 <= a <= cfg.maxAttempts && w.cycles != [] && InAttempt(Last(w), a, a, a - 1)
    case Repairing(a) => 2 <= a <= cfg.maxAttempts && w.cycles != [] && InAttempt(Last(w), a, a - 1, a - 2)
    case Pausing(a) => 2 <= a <= cfg.maxAttempts && w.cycles != [] && InAttempt(Last(w), a, a - 1, a - 1)
  }

  /** A cycle sent no more probes than allowed, and took remedies from the ladder in order. */
  predicate CycleOk(c: Cycle, cfg: Config) {
    && c.probes <= cfg.maxAttempts && |c.remedies| < cfg.maxAttempts
    && |c.remedies| <= |LADDER| && c.remedies == LADDER[..|c.remedies|]
    && (c.end.Some? ==> c.start <= c.end.value)
  }

  ghost predicate CyclesOk(w: World, cfg: Config) {
    && (forall i :: 0 <= i < |w.cycles| ==> CycleOk(w.cycles[i], cfg) && w.cycles[i].start <= w.clock)
    && (forall i :: 0 <= i < |w.cycles| ==>
          (w.cycles[i].end.Some? ==> w.cycles[i].end.value <= w.clock)
          && (w.cycles[i].end.None? ==> i == |w.cycles| - 1 && !w.phase.Looping? && !w.phase.Settling?))
  }

  /** A cycle raised by silence starts a whole silence after every earlier cycle ended. */
  ghost predicate Apart(w: World, cfg: Config) {
    && (forall i, j ::
          0 <= i < j < |w.cycles| && w.cycles[j].reason == Silence && w.cycles[i].end.Some? ==>
            w.cycles[j].start >= w.cycles[i].end.value + cfg.silence)
    && (forall i :: 0 <= i < |w.cycles| && w.cycles[i].end.Some? ==> w.cycles[i].end.value <= w.state.lastInbound)
    && w.state.lastInbound <= w.clock
  }

  ghost predicate Sound(w: World, cfg: Config) {
    ConfigOk(cfg) && PhaseOk(w, cfg) && CyclesOk(w, cfg) && Apart(w, cfg)
  }

  lemma NextPhase(w: World, cfg: Config, s: Step)
    requires Sound(w, cfg) && CanStep(w, s)
    ensures PhaseOk(Next(w, cfg, s), cfg)
  {
    hide CyclesOk, Apart;
  }

  lemma EndKeepsCycles(w: World, cfg: Config, heard: bool, gaveUp: bool)
    requires Sound(w, cfg)
    ensures CyclesOk(EndCycle(w, heard, gaveUp), cfg)
  {
    hide Apart;
  }

  lemma BeginKeepsCycles(w: World, cfg: Config, reason: Reason)
    requires Sound(w, cfg) && (w.phase.Looping? || w.phase.Settling?)
    ensures CyclesOk(BeginCycle(w, reason), cfg)
  {
    hide Apart, PhaseOk;
  }

  lemma AttemptKeepsCycles(w: World, cfg: Config, s: Step)
    requires Sound(w, cfg) && CanStep(w, s) && (s.Sent? || s.Repaired?)
    ensures CyclesOk(Next(w, cfg, s), cfg)
  {
    hide Apart;
  }

  lemma NextCycles(w: World, cfg: Config, s: Step)
    requires Sound(w, cfg) && CanStep(w, s)
    ensures CyclesOk(Next(w, cfg, s), cfg)
  {
    if s.Sent? || s.Repaired? {
      AttemptKeepsCycles(w, cfg, s);
    } else {
      EndKeepsCycles(w, cfg, false, false);
      EndKeepsCycles(w, cfg, true, false);
      EndKeepsCycles(w, cfg, false, true);
      if w.phase.Looping? || w.phase.Settling? {
        BeginKeepsCycles(w, cfg, Silence);
        BeginKeepsCycles(w, cfg, Registration);
      }
      hide Apart, PhaseOk, CycleOk, EndCycle, BeginCycle;
    }
  }

  lemma EndKeepsApart(w: World, cfg: Config, heard: bool, gaveUp: bool)
    requires Sound(w, cfg)
    ensures Apart(EndCycle(w, heard, gaveUp), cfg)
  {
    hide CycleOk, PhaseOk;
  }

  /** A cycle that silence raises is raised a silence after the last sign. */
  lemma BeginKeepsApart(w: World, cfg: Config, reason: Reason)
    requires Sound(w, cfg) && (reason == Silence ==> w.clock - w.state.lastInbound >= cfg.silence)
    ensures Apart(BeginCycle(w, reason), cfg)
  {
    hide CyclesOk, PhaseOk;
  }

  lemma AttemptKeepsApart(w: World, cfg: Config, s: Step)
    requires Sound(w, cfg) && CanStep(w, s) && (s.Sent? || s.Repaired?)
    ensures Apart(Next(w, cfg, s), cfg)
  {
    hide CycleOk, PhaseOk;
  }

  lemma NextApart(w: World, cfg: Config, s: Step)
    requires Sound(w, cfg) && CanStep(w, s)
    ensures Apart(Next(w, cfg, s), cfg)
  {
    if s.Sent? || s.Repaired? {
      AttemptKeepsApart(w, cfg, s);
    } else if s.Look? || s.Settled? {
      BeginKeepsApart(w, cfg, Registration);
      if w.clock - w.state.lastInbound >= cfg.silence {
        BeginKeepsApart(w, cfg, Silence);
      }
      hide CyclesOk, PhaseOk, BeginCycle;
    } else {
      EndKeepsApart(w, cfg, false, false);
      EndKeepsApart(w, cfg, true, false);
      EndKeepsApart(w, cfg, false, true);
      hide CyclesOk, PhaseOk, EndCycle;
    }
  }

  lemma NextSound(w: World, cfg: Config, s: Step)
    requires Sound(w, cfg) && CanStep(w, s)
    ensures Sound(Next(w, cfg, s), cfg)
  {
    NextPhase(w, cfg, s);
    NextCycles(w, cfg, s);
    NextApart(w, cfg, s);
    hide Next, CanStep, PhaseOk, CyclesOk, Apart;
  }

  lemma StartSound(now: real, cfg: Config)
    requires ConfigOk(cfg)
    ensures Sound(Start(now), cfg)
  {
  }

  lemma SoundMeans(w: World, cfg: Config)
    requires Sound(w, cfg)
    ensures Apart(w, cfg)
    ensures forall i :: 0 <= i < |w.cycles| ==>
      && w.cycles[i].probes <= cfg.maxAttempts
      && |w.cycles[i].remedies| < cfg.maxAttempts && w.cycles[i].remedies <= LADDER
  {
    hide PhaseOk, Apart;
    forall i | 0 <= i < |w.cycles|
      ensures w.cycles[i].probes <= cfg.maxAttempts
      ensures |w.cycles[i].remedies| < cfg.maxAttempts && w.cycles[i].remedies <= LADDER
    {
      assert CycleOk(w.cycles[i], cfg);
    }
  }

  /** Over every run: no cycle sends more probes than configured, each takes the remedies of the
      ladder in order and none twice, and silence raises cycles at least a silence apart. */
  lemma {:induction false} RunSound(w: World, cfg: Config, steps: seq<Step>)
    requires Sound(w, cfg) && CanRun(w, cfg, steps)
    ensures var v := Ran(w, cfg, steps);
      && Sound(v, cfg) && Apart(v, cfg)
      && forall i :: 0 <= i < |v.cycles| ==>
           && v.cycles[i].probes <= cfg.maxAttempts
           && |v.cycles[i].remedies| < cfg.maxAttempts && v.cycles[i].remedies <= LADDER
    decreases |steps|
  {
    assert ConfigOk(cfg);
    SoundMeans(w, cfg);
    hide Sound, Next, CanStep, Apart;
    if steps != [] {
      NextSound(w, cfg, steps[0]);
      RunSound(Next(w, cfg, steps[0]), cfg, steps[1..]);
    }
  }

  // ---- giving up -----------------------------------------------------------

  /** The monitor gives up exactly when the last allowed probe of a cycle goes unanswered; by
      then it has sent every probe and tried every remedy it may. */
  lemma GivesUpIff(w: World, cfg: Config, s: Step)
    requires Sound(w, cfg) && CanStep(w, s) && !w.state.gaveUp
    ensures Next(w, cfg, s).state.gaveUp <==> s == TimedOut && w.phase == Listening(cfg.maxAttempts)
    ensures Next(w, cfg, s).state.gaveUp ==>
      var v := Next(w, cfg, s);
      && v.phase.Looping? && !v.state.registered && v.cycles != []
      && Last(v).probes == cfg.maxAttempts && Last(v).remedies == LADDER[..cfg.maxAttempts - 1] && !Last(v).heard
  {
    hide CyclesOk, Apart;
  }

  predicate Resting(w: World) {
    w.state.gaveUp && !w.state.registered && w.phase.Looping?
  }

  /** After giving up nothing is sent until a webhook or a registration arrives. */
  lemma {:induction false} QuietAfterGivingUp(w: World, cfg: Config, steps: seq<Step>)
    requires ConfigOk(cfg) && Resting(w) && CanRun(w, cfg, steps)
    requires forall i :: 0 <= i < |steps| ==> !steps[i].Webhook? && !steps[i].Register?
    ensures Resting(Ran(w, cfg, steps)) && Ran(w, cfg, steps).cycles == w.cycles
    decreases |steps|
  {
    if steps != [] {
      var v := Next(w, cfg, steps[0]);
      assert Resting(v) && v.cycles == w.cycles by {
        assert !steps[0].Webhook? && !steps[0].Register?;
      }
      QuietAfterGivingUp(v, cfg, steps[1..]);
    }
  }

  /** Either of them re-arms it. */
  lemma RearmedBySigns(w: World, cfg: Config)
    requires ConfigOk(cfg) && Resting(w)
    ensures !Next(w, cfg, Webhook).state.gaveUp && !Next(w, cfg, Register).state.gaveUp
    ensures Next(Next(w, cfg, Register), cfg, Look(false)).phase.Settling?
  {
  }

  // ---- which webhooks count as proof ---------------------------------------

  /** Neither a webhook nor a registration. */
  predicate Signless(steps: seq<Step>) {
    forall i :: 0 <= i < |steps| ==> !steps[i].Webhook? && !steps[i].Register?
  }

  predicate CycleOpen(w: World) {
    !w.phase.Looping? && !w.phase.Settling?
  }

  /** The cycle in progress ended by giving up. */
  predicate EndsGivingUp(w: World, cfg: Config, steps: seq<Step>)
    requires ConfigOk(cfg)
  {
    && CanRun(w, cfg, steps)
    && Ran(w, cfg, steps).state.gaveUp && |Ran(w, cfg, steps).cycles| == |w.cycles|
  }

  lemma Prepend(w: World, cfg: Config, s: Step, rest: seq<Step>)
    requires ConfigOk(cfg) && CanStep(w, s) && CanRun(Next(w, cfg, s), cfg, rest)
    ensures CanRun(w, cfg, [s] + rest) && Ran(w, cfg, [s] + rest) == Ran(Next(w, cfg, s), cfg, rest)
  {
    hide Next, CanStep;
    assert ([s] + rest)[1..] == rest;
  }

  /** Every probe from this back-off on goes unanswered. */
  function Unanswered(attempt: nat, max: nat): seq<Step>
    decreases max - attempt
  {
    [Resumed] + ([Sent] + ([TimedOut] + if attempt >= max then [] else [Repaired] + Unanswered(attempt + 1, max)))
  }

  lemma {:induction false} UnansweredIsSignless(attempt: nat, max: nat)
    ensures Signless(Unanswered(attempt, max))
    decreases max - attempt
  {
    if attempt < max {
      UnansweredIsSignless(attempt + 1, max);
    }
  }

  lemma {:induction false} UnansweredGivesUp(w: World, cfg: Config, attempt: nat)
    requires ConfigOk(cfg) && w.phase == Pausing(attempt) && 1 <= attempt <= cfg.maxAttempts
    ensures EndsGivingUp(w, cfg, Unanswered(attempt, cfg.maxAttempts))
    decreases cfg.maxAttempts - attempt
  {
    var v1 := Next(w, cfg, Resumed);
    var v2 := Next(v1, cfg, Sent);
    var v3 := Next(v2, cfg, TimedOut);
    assert v1.phase == Sending(attempt) && !v1.state.inbound;
    assert v2.phase == Listening(attempt) && !v2.state.inbound && |v3.cycles| == |w.cycles|;
    var rest := [];
    if attempt < cfg.maxAttempts {
      assert v3.phase == Repairing(attempt + 1);
      var v4 := Next(v3, cfg, Repaired);
      assert v4.phase == Pausing(attempt + 1) && |v4.cycles| == |w.cycles|;
      UnansweredGivesUp(v4, cfg, attempt + 1);
      rest := [Repaired] + Unanswered(attempt + 1, cfg.maxAttempts);
      Prepend(v3, cfg, Repaired, Unanswered(attempt + 1, cfg.maxAttempts));
    } else {
      assert v3.state.gaveUp;
    }
    Prepend(v2, cfg, TimedOut, rest);
    Prepend(v1, cfg, Sent, [TimedOut] + rest);
    Prepend(w, cfg, Resumed, [Sent] + ([TimedOut] + rest));
  }

  /** A webhook that arrives while a remedy is applied or backed off from is no proof: the flag is
      cleared before the next send. */
  lemma BackoffWebhookIsForgotten(w: World, cfg: Config) returns (steps: seq<Step>)
    requires Sound(w, cfg) && (w.phase.Repairing? || w.phase.Pausing?)
    ensures Signless(steps) && EndsGivingUp(Next(w, cfg, Webhook), cfg, steps)
  {
    var v := Next(w, cfg, Webhook);
    var a := w.phase.attempt;
    steps := Unanswered(a, cfg.maxAttempts);
    UnansweredIsSignless(a, cfg.maxAttempts);
    if w.phase.Pausing? {
      UnansweredGivesUp(v, cfg, a);
    } else {
      var u := Next(v, cfg, Repaired);
      UnansweredGivesUp(u, cfg, a);
      Prepend(v, cfg, Repaired, steps);
      steps := [Repaired] + steps;
    }
  }

  /** The cycle that was open among the first `n` was answered, or is about to be. */
  predicate Proven(w: World, n: nat) {
    || |w.cycles| > n
    || (&& |w.cycles| == n && !w.state.gaveUp
        && (w.phase.Looping? || w.phase.Settling? || ((w.phase.Sending? || w.phase.Listening?) && w.state.inbound)))
  }

  lemma NextProven(w: World, cfg: Config, s: Step, n: nat)
    requires ConfigOk(cfg) && CanStep(w, s) && Proven(w, n)
    ensures Proven(Next(w, cfg, s), n)
  {
  }

  lemma {:induction false} RunProven(w: World, cfg: Config, steps: seq<Step>, n: nat)
    requires ConfigOk(cfg) && CanRun(w, cfg, steps) && Proven(w, n)
    ensures Proven(Ran(w, cfg, steps), n)
    decreases |steps|
  {
    hide Next, CanStep, Proven;
    if steps != [] {
      NextProven(w, cfg, steps[0], n);
      RunProven(Next(w, cfg, steps[0]), cfg, steps[1..], n);
    }
  }

  /** A webhook during an open cycle is forgotten, so that without another sign the cycle can
      still end by giving up, exactly when no probe is being sent or listened for. */
  lemma WebhookIsForgottenIff(w: World, cfg: Config)
    requires Sound(w, cfg) && CycleOpen(w) && !w.state.gaveUp
    ensures (exists steps :: Signless(steps) && EndsGivingUp(Next(w, cfg, Webhook), cfg, steps))
       <==> w.phase.Repairing? || w.phase.Pausing?
  {
    var v := Next(w, cfg, Webhook);
    if w.phase.Repairing? || w.phase.Pausing? {
      var steps := BackoffWebhookIsForgotten(w, cfg);
    } else {
      assert Proven(v, |v.cycles|);
      hide Proven, Signless;
      forall steps | Signless(steps) && CanRun(v, cfg, steps) ensures !EndsGivingUp(v, cfg, steps) {
        RunProven(v, cfg, steps, |v.cycles|);
        ProvenMeans(Ran(v, cfg, steps), |v.cycles|);
      }
    }
  }

  lemma ProvenMeans(w: World, n: nat)
    requires Proven(w, n)
    ensures !(w.state.gaveUp && |w.cycles| == n)
  {
  }

  lemma {:induction false} RunConcat(w: World, cfg: Config, a: seq<Step>, b: seq<Step>)
    requires ConfigOk(cfg) && CanRun(w, cfg, a) && CanRun(Ran(w, cfg, a), cfg, b)
    ensures CanRun(w, cfg, a + b) && Ran(w, cfg, a + b) == Ran(Ran(w, cfg, a), cfg, b)
    decreases |a|
  {
    hide Next, CanStep;
    if a == [] {
      assert a + b == b;
    } else {
      RunConcat(Next(w, cfg, a[0]), cfg, a[1..], b);
      assert (a + b)[1..] == a[1..] + b;
    }
  }

  /** From the start: a registration whose first probe goes unanswered. */
  lemma ProbedInVain(now: real, cfg: Config) returns (w: World)
    requires ConfigOk(cfg) && cfg.maxAttempts >= 2
    ensures CanRun(Start(now), cfg, [Register, Look(true), Settled, Sent, TimedOut])
    ensures w == Ran(Start(now), cfg, [Register, Look(true), Settled, Sent, TimedOut])
    ensures w.phase == Repairing(2) && !w.state.gaveUp && |w.cycles| == 1
  {
    var w2 := Next(Next(Start(now), cfg, Register), cfg, Look(true));
    var w3 := Next(w2, cfg, Settled);
    var w4 := Next(w3, cfg, Sent);
    w := Next(w4, cfg, TimedOut);
    assert CanStep(w2, Settled) && CanStep(w3, Sent) && CanStep(w4, TimedOut);
    hide Next, CanStep;
    Prepend(w4, cfg, TimedOut, []);
    Prepend(w3, cfg, Sent, [TimedOut] + []);
    Prepend(w2, cfg, Settled, [Sent] + ([TimedOut] + []));
    AtTheStart(now, cfg, [Settled] + ([Sent] + ([TimedOut] + [])));
    assert [Register, Look(true), Settled, Sent, TimedOut]
        == [Register] + ([Look(true)] + ([Settled] + ([Sent] + ([TimedOut] + []))));
  }

  lemma AtTheStart(now: real, cfg: Config, rest: seq<Step>)
    requires ConfigOk(cfg)
    requires var w := Next(Next(Start(now), cfg, Register), cfg, Look(true)); CanRun(w, cfg, rest)
    ensures CanRun(Start(now), cfg, [Register] + ([Look(true)] + rest))
    ensures Ran(Start(now), cfg, [Register] + ([Look(true)] + rest))
         == Ran(Next(Next(Start(now), cfg, Register), cfg, Look(true)), cfg, rest)
  {
    Prepend(Next(Start(now), cfg, Register), cfg, Look(true), rest);
    Prepend(Start(now), cfg, Register, [Look(true)] + rest);
  }

  /** A webhook arrives while the first remedy is applied, and the cycle gives up all the same. */
  lemma ForgottenFromTheStart(now: real, cfg: Config) returns (steps: seq<Step>)
    requires ConfigOk(cfg) && cfg.maxAttempts >= 2
    ensures Signless(steps)
    ensures var whole := [Register, Look(true), Settled, Sent, TimedOut] + ([Webhook] + steps);
      && CanRun(Start(now), cfg, whole)
      && Ran(Start(now), cfg, whole).state.gaveUp && |Ran(Start(now), cfg, whole).cycles| == 1
  {
    var w := ProbedInVain(now, cfg);
    StartSound(now, cfg);
    RunSound(Start(now), cfg, [Register, Look(true), Settled, Sent, TimedOut]);
    steps := BackoffWebhookIsForgotten(w, cfg);
    AlwaysWebhook(w, cfg);
    hide Next, CanStep, Sound, Signless;
    Prepend(w, cfg, Webhook, steps);
    RunConcat(Start(now), cfg, [Register, Look(true), Settled, Sent, TimedOut], [Webhook] + steps);
  }

  lemma AlwaysWebhook(w: World, cfg: Config)
    requires ConfigOk(cfg)
    ensures CanStep(w, Webhook) && |Next(w, cfg, Webhook).cycles| == |w.cycles|
  {
  }

  // ---- when a cycle begins, and how it ends --------------------------------

  /** Silence raises a cycle exactly when nothing waits to be probed, the monitor has not given up,
      a whole silence has passed, and the hour is an active one; a registration is taken up first,
      at any hour. */
  lemma LookBeginsIff(w: World, cfg: Config, activeHours: bool)
    requires ConfigOk(cfg) && w.phase.Looping?
    ensures var v := Next(w, cfg, Look(activeHours));
      var silent := !w.state.registered && !w.state.gaveUp && w.clock >= w.state.lastInbound + cfg.silence && activeHours;
      && (v.phase == Sending(1) <==> silent) && (v.phase.Settling? <==> w.state.registered)
      && v.cycles == (if silent then w.cycles + [Cycle(Silence, w.clock, 0, [], false, None)] else w.cycles)
      && (silent ==> v.state == w.state.(inbound := false))
      && (w.state.registered ==> v.phase.mark == w.state.lastInbound && v.state == w.state.(registered := false))
      && (!silent && !w.state.registered ==> v == w)
  {
  }

  /** A monitor just started is quiet for a whole silence, and then probes. */
  lemma NewMonitorWaits(now: real, cfg: Config, later: real)
    requires ConfigOk(cfg) && later >= now
    ensures var v := Next(Next(Start(now), cfg, Pass(later)), cfg, Look(true));
      v.cycles == if later < now + cfg.silence then [] else [Cycle(Silence, later, 0, [], false, None)]
  {
    LookBeginsIff(Next(Start(now), cfg, Pass(later)), cfg, true);
  }

  /** The pause before a registration is probed ends with the probe exactly when no webhook came at
      another moment than the last one before it. */
  lemma SettledProbesIff(w: World, cfg: Config)
    requires ConfigOk(cfg) && w.phase.Settling?
    ensures var v := Next(w, cfg, Settled);
      && v.cycles == (if w.state.lastInbound == w.phase.mark
                      then w.cycles + [Cycle(Registration, w.clock, 0, [], false, None)] else w.cycles)
      && v.phase == (if w.state.lastInbound == w.phase.mark then Sending(1) else Looping)
      && v.state == if w.state.lastInbound == w.phase.mark then w.state.(inbound := false)
                    else w.state.(lastInbound := w.clock)
  {
  }

  /** So a webhook that comes during that pause, later than the one before, makes the probe
      unnecessary. */
  lemma WebhookSatisfiesRegistration(w: World, cfg: Config, activeHours: bool, now: real, later: real)
    requires ConfigOk(cfg) && w.phase.Looping? && w.state.lastInbound <= w.clock < now <= later
    ensures var steps := [Register, Look(activeHours), Pass(now), Webhook, Pass(later), Settled];
      CanRun(w, cfg, steps) && Ran(w, cfg, steps).cycles == w.cycles && Ran(w, cfg, steps).phase.Looping?
  {
    var v2 := Next(Next(w, cfg, Register), cfg, Look(activeHours));
    assert v2.phase == Settling(w.state.lastInbound) && v2.cycles == w.cycles;
    var v4 := Next(Next(v2, cfg, Pass(now)), cfg, Webhook);
    assert v4.phase == v2.phase && v4.state.lastInbound == now && v4.clock == now && v4.cycles == w.cycles;
    var v5 := Next(v4, cfg, Pass(later));
    SettledProbesIff(v5, cfg);
    Prepend(v5, cfg, Settled, []);
    Prepend(v4, cfg, Pass(later), [Settled]);
    Prepend(Next(v2, cfg, Pass(now)), cfg, Webhook, [Pass(later), Settled]);
    Prepend(v2, cfg, Pass(now), [Webhook, Pass(later), Settled]);
    Prepend(Next(w, cfg, Register), cfg, Look(activeHours), [Pass(now), Webhook, Pass(later), Settled]);
    Prepend(w, cfg, Register, [Look(activeHours), Pass(now), Webhook, Pass(later), Settled]);
    hide Next, CanStep, CanRun, Ran;
    assert [Settled] + [] == [Settled] && [Pass(later)] + [Settled] == [Pass(later), Settled];
    assert [Webhook] + [Pass(later), Settled] == [Webhook, Pass(later), Settled];
    assert [Pass(now)] + [Webhook, Pass(later), Settled] == [Pass(now), Webhook, Pass(later), Settled];
    assert [Look(activeHours)] + [Pass(now), Webhook, Pass(later), Settled]
        == [Look(activeHours), Pass(now), Webhook, Pass(later), Settled];
    assert [Register] + [Look(activeHours), Pass(now), Webhook, Pass(later), Settled]
        == [Register, Look(activeHours), Pass(now), Webhook, Pass(later), Settled];
  }

  /** A cycle that ends is closed then and there, and counts as answered exactly when a webhook was
      heard while its probe was listened for. */
  lemma CycleEndsAnsweredIff(w: World, cfg: Config, s: Step)
    requires Sound(w, cfg) && CycleOpen(w) && CanStep(w, s) && Next(w, cfg, s).phase.Looping?
    ensures var v := Next(w, cfg, s);
      && |v.cycles| == |w.cycles| && w.cycles != []
      && Last(v) == Last(w).(end := Some(w.clock), heard := w.phase.Listening? && w.state.inbound && s == Heard)
  {
    hide CyclesOk, Apart;
  }

  // ---- silence -------------------------------------------------------------

  /** At rest, with no registration to look at, and heard from at `since` or later. */
  predicate Deferred(w: World, since: real, cycles: seq<Cycle>) {
    w.phase.Looping? && !w.state.registered && w.state.lastInbound >= since && w.cycles == cycles
  }

  lemma ClockRises(w: World, cfg: Config, s: Step)
    requires ConfigOk(cfg) && CanStep(w, s)
    ensures Next(w, cfg, s).clock >= w.clock
  {
  }

  lemma {:induction false} RunClockRises(w: World, cfg: Config, steps: seq<Step>)
    requires ConfigOk(cfg) && CanRun(w, cfg, steps)
    ensures Ran(w, cfg, steps).clock >= w.clock
    decreases |steps|
  {
    hide Next, CanStep;
    if steps != [] {
      ClockRises(w, cfg, steps[0]);
      RunClockRises(Next(w, cfg, steps[0]), cfg, steps[1..]);
    }
  }

  lemma NextDeferred(w: World, cfg: Config, s: Step, since: real, cycles: seq<Cycle>)
    requires ConfigOk(cfg) && CanStep(w, s) && !s.Register?
    requires Deferred(w, since, cycles) && since <= w.clock < since + cfg.silence
    ensures Deferred(Next(w, cfg, s), since, cycles)
  {
  }

  /** Nothing is sent for a whole silence after the monitor last heard something, whatever webhooks
      arrive, unless a registration does. */
  lemma {:induction false} SilenceIsKept(w: World, cfg: Config, steps: seq<Step>, since: real)
    requires ConfigOk(cfg) && CanRun(w, cfg, steps)
    requires forall i :: 0 <= i < |steps| ==> !steps[i].Register?
    requires Deferred(w, since, w.cycles) && since <= w.clock
    requires Ran(w, cfg, steps).clock < since + cfg.silence
    ensures Ran(w, cfg, steps).cycles == w.cycles
    decreases |steps|
  {
    if steps != [] {
      var v := Next(w, cfg, steps[0]);
      ClockRises(w, cfg, steps[0]);
      RunClockRises(v, cfg, steps[1..]);
      RunClockRises(w, cfg, steps);
      NextDeferred(w, cfg, steps[0], since, w.cycles);
      hide Next, CanStep;
      SilenceIsKept(v, cfg, steps[1..], since);
    }
  }

  /** A webhook puts off the next cycle by a whole silence. */
  lemma WebhookDefersSilence(w: World, cfg: Config, steps: seq<Step>)
    requires ConfigOk(cfg) && w.phase.Looping? && !w.state.registered
    requires CanRun(w, cfg, [Webhook] + steps) && forall i :: 0 <= i < |steps| ==> !steps[i].Register?
    requires Ran(w, cfg, [Webhook] + steps).clock < w.clock + cfg.silence
    ensures Ran(w, cfg, [Webhook] + steps).cycles == w.cycles
  {
    var v := Next(w, cfg, Webhook);
    assert ([Webhook] + steps)[1..] == steps;
    SilenceIsKept(v, cfg, steps, w.clock);
  }

  /** However a cycle ends, and whatever registration its own remedies raised, no other cycle
      begins for a whole silence unless a new registration arrives. */
  lemma EndedCycleIsQuiet(w: World, cfg: Config, s: Step, steps: seq<Step>)
    requires ConfigOk(cfg) && CycleOpen(w) && CanStep(w, s) && Next(w, cfg, s).phase.Looping?
    requires CanRun(Next(w, cfg, s), cfg, steps) && forall i :: 0 <= i < |steps| ==> !steps[i].Register?
    requires Ran(Next(w, cfg, s), cfg, steps).clock < w.clock + cfg.silence
    ensures Ran(Next(w, cfg, s), cfg, steps).cycles == Next(w, cfg, s).cycles
  {
    SilenceIsKept(Next(w, cfg, s), cfg, steps, w.clock);
  }

  /** A registration that finds the monitor at rest is probed, after the pause, unless a webhook
      comes first: at any hour, and even after giving up. */
  lemma RegistrationIsProbed(w: World, cfg: Config, activeHours: bool, later: real)
    requires ConfigOk(cfg) && w.phase.Looping? && later >= w.clock
    ensures var steps := [Register, Look(activeHours), Pass(later), Settled];
      && CanRun(w, cfg, steps)
      && Ran(w, cfg, steps).phase == Sending(1) && Ran(w, cfg, steps).cycles ==
           w.cycles + [Cycle(Registration, later, 0, [], false, None)]
  {
    var v := Next(Next(w, cfg, Register), cfg, Look(activeHours));
    var u := Next(v, cfg, Pass(later));
    assert v.phase == Settling(v.state.lastInbound) && CanStep(v, Pass(later)) && CanStep(u, Settled);
    assert CanRun(Next(u, cfg, Settled), cfg, []);
    Prepend(u, cfg, Settled, []);
    Prepend(v, cfg, Pass(later), [Settled] + []);
    Prepend(Next(w, cfg, Register), cfg, Look(activeHours), [Pass(later)] + ([Settled] + []));
    Prepend(w, cfg, Register, [Look(activeHours)] + ([Pass(later)] + ([Settled] + [])));
    assert [Register, Look(activeHours), Pass(later), Settled]
        == [Register] + ([Look(activeHours)] + ([Pass(later)] + ([Settled] + [])));
  }

  /** From the start every run is bounded. */
  lemma FromTheStart(now: real, cfg: Config, steps: seq<Step>)
    requires ConfigOk(cfg) && CanRun(Start(now), cfg, steps)
    ensures var v := Ran(Start(now), cfg, steps);
      && Apart(v, cfg)
      && forall i :: 0 <= i < |v.cycles| ==>
           && v.cycles[i].probes <= cfg.maxAttempts
           && |v.cycles[i].remedies| < cfg.maxAttempts && v.cycles[i].remedies <= LADDER
  {
    hide Next, CanStep;
    StartSound(now, cfg);
    RunSound(Start(now), cfg, steps);
  }
}
