/**
  What the motion-chain operations keep over whole runs, in any interleaving.

  A run is any sequence of operations, each with the time it was given as `now`.  Most results
  hold whatever those times are; the ones about the budget window and about stranded cues say
  when they need the times to be one non-decreasing clock.
*/
module MotionChainLaws {
  import opened Wrappers
  import opened MotionChains

  // ---- runs ----------------------------------------------------------------

  /** One transaction.  `pick` resolves ties between equally recent chains. */
  datatype Step =
    | Ensured(id: Id, room: Name, motions: seq<Motion>, kinds: seq<Option<Name>>,
              due: seq<real>, offsets: seq<real>)
    | DueProcessed(id: Id, k: nat)
    | DueRetried(id: Id, k: nat, at: real)
    | CustomDelivered(id: Id)
    | MotionFinished(room: Name, kind: Option<Name>, pick: Option<Id>)
    | TalkFinished(room: Name, spoken: set<Id>, pick: Option<Id>)
    | Anchored(id: Id)
    | Dropped(id: Id)
    | Expired
    | Restarted
    | Standalone(motion: Motion)

  datatype Timed = Timed(step: Step, now: real)

  /** What the callers guarantee of each operation. */
  predicate Allowed(db: Db, t: Timed) {
    match t.step
    case Ensured(id, _, motions, kinds, due, offsets) =>
      1 <= |motions| <= 3 && |due| == |kinds| == |motions| && |offsets| in {0, |motions|}
    case DueProcessed(id, k) => (id, k) in db.pending && db.pending[(id, k)] <= t.now
    case DueRetried(id, k, at) =>
      id in db.chains && k < |db.chains[id].due| && db.chains[id].due[k] <= at
    case MotionFinished(room, kind, pick) =>
      var e := Expire(db, t.now); Latest(e, FinishCandidates(e, room, kind), pick)
    case TalkFinished(room, spoken, pick) =>
      var e := Expire(db, t.now); Latest(e, TalkCandidates(e, room, spoken), pick)
    case _ => true
  }

  function Apply(db: Db, cfg: Config, t: Timed): (Db, Option<Dispatch>)
    requires Allowed(db, t)
  {
    match t.step
    case Ensured(id, room, motions, kinds, due, offsets) =>
      (Ensure(db, cfg, id, room, motions, kinds, due, offsets, t.now), None)
    case DueProcessed(id, k) => ProcessDue(db, cfg, id, k, t.now)
    case DueRetried(id, k, at) => (db.(pending := db.pending[(id, k) := at]), None)
    case CustomDelivered(id) => CompleteCustom(db, cfg, id, t.now)
    case MotionFinished(_, _, pick) => Finish(Expire(db, t.now), cfg, pick, t.now)
    case TalkFinished(_, _, pick) => Talk(Expire(db, t.now), cfg, pick, t.now)
    case Anchored(id) => (Anchor(db, cfg, id, t.now), None)
    case Dropped(id) => (AbandonOne(db, id), None)
    case Expired => (Expire(db, t.now), None)
    case Restarted => (Restart(db), None)
    case Standalone(motion) =>
      (AfterReserve(db, cfg, t.now),
       if Reserved(db, cfg, t.now) then Some(Dispatch(0, motion)) else None)
  }

  /** One motion call, made for chain `chain` or for none. */
  datatype Call = Call(at: real, chain: Option<Id>, motion: Motion)

  datatype World = World(db: Db, log: seq<Call>, clock: real)

  function CallsOf(t: Timed, d: Option<Dispatch>): seq<Call> {
    if d.None? then []
    else
      [Call(t.now, if t.step.Standalone? then None else Some(d.value.source), d.value.motion)]
  }

  function Next(w: World, cfg: Config, t: Timed): World
    requires Allowed(w.db, t)
  {
    var (db, d) := Apply(w.db, cfg, t);
    World(db, w.log + CallsOf(t, d), if w.clock < t.now then t.now else w.clock)
  }

  predicate CanRun(w: World, cfg: Config, steps: seq<Timed>)
    decreases |steps|
  {
    steps == [] || (Allowed(w.db, steps[0]) && CanRun(Next(w, cfg, steps[0]), cfg, steps[1..]))
  }

  function Ran(w: World, cfg: Config, steps: seq<Timed>): World
    requires CanRun(w, cfg, steps)
    decreases |steps|
  {
    if steps == [] then w else Ran(Next(w, cfg, steps[0]), cfg, steps[1..])
  }

  /** Every operation is given a time no earlier than the operations before it. */
  predicate OneClock(clock: real, steps: seq<Timed>)
    decreases |steps|
  {
    steps == [] || (clock <= steps[0].now && OneClock(steps[0].now, steps[1..]))
  }

  function Start(clock: real): World {
    World(EMPTY, [], clock)
  }

  // ---- counters ------------------------------------------------------------

  /** The documented counters of a chain, and the shape its callers give it. */
  ghost predicate ChainOk(c: Chain) {
    && 1 <= |c.motions| <= 3
    && |c.due| == |c.kinds| == |c.motions| && |c.offsets| in {0, |c.motions|}
    && c.finished <= c.sent <= c.finished + 1 && c.sent <= |c.motions|
    && (c.status == Active ==> c.finished < |c.motions|)
    && (c.status == Completed ==> c.finished == c.sent == |c.motions|)
  }

  /** Every pending event belongs to a motion, and is not available before that motion is due. */
  ghost predicate PendingOk(db: Db) {
    forall id: Id, k: nat :: (id, k) in db.pending ==>
      id in db.chains && k < |db.chains[id].due| && db.chains[id].due[k] <= db.pending[(id, k)]
  }

  ghost predicate RowsOk(db: Db) {
    (forall id :: id in db.chains ==> ChainOk(db.chains[id])) && PendingOk(db)
  }

  /** What any operation may do to a chain: counters only grow, and a chain that is no longer
      active never changes again. */
  ghost predicate Later(c: Chain, n: Chain) {
    && n.motions == c.motions && n.room == c.room
    && c.sent <= n.sent && c.finished <= n.finished
    && (c.status != Active ==> n == c)
  }

  /** The effect of one operation on the chains, whose next motion `d` says was sent. */
  ghost predicate Effect(db: Db, d: Option<Dispatch>, n: Db) {
    && RowsOk(n)
    && (d.Some? ==>
          && d.value.source in db.chains
          && var c := db.chains[d.value.source];
             c.status == Active && c.sent < |c.motions| && d.value.motion == c.motions[c.sent])
    && (forall id :: id in db.chains ==>
          && id in n.chains && Later(db.chains[id], n.chains[id])
          && n.chains[id].sent
             == db.chains[id].sent + (if d.Some? && d.value.source == id then 1 else 0))
    && (forall id :: id in n.chains && id !in db.chains ==>
          n.chains[id].sent == 0)
  }

  lemma ClaimEffect(db: Db, cfg: Config, id: Id, now: real)
    requires RowsOk(db) && id in db.chains && Resting(db.chains[id])
    ensures Effect(db, Claimed(db, cfg, id, now), Claim(db, cfg, id, now))
  {
    hide After, PendingOk;
    ClaimKeepsPending(db, cfg, id, now);
  }

  lemma ClaimKeepsPending(db: Db, cfg: Config, id: Id, now: real)
    requires PendingOk(db) && id in db.chains
    ensures PendingOk(Claim(db, cfg, id, now))
  {
    hide After;
  }

  /** Rewriting one row, without sending anything. */
  lemma PutEffect(db: Db, id: Id, c: Chain)
    requires RowsOk(db) && id in db.chains && ChainOk(c)
    requires c.due == db.chains[id].due && c.sent == db.chains[id].sent && Later(db.chains[id], c)
    ensures Effect(db, None, Put(db, id, c)) && RowsOk(Put(db, id, c))
  {
  }

  lemma EffectAfter(db: Db, m: Db, d: Option<Dispatch>, n: Db)
    requires Effect(db, None, m) && Effect(m, d, n) && m.chains.Keys == db.chains.Keys
    ensures Effect(db, d, n)
  {
  }

  lemma EnsureEffect(db: Db, cfg: Config, t: Timed)
    requires RowsOk(db) && Allowed(db, t) && t.step.Ensured?
    ensures Effect(db, None, Apply(db, cfg, t).0)
  {
    DueEventsAre(t.step.id, t.step.due);
  }

  lemma ProcessDueEffect(db: Db, cfg: Config, id: Id, k: nat, now: real)
    requires RowsOk(db)
    ensures var (n, d) := ProcessDue(db, cfg, id, k, now); Effect(db, d, n)
  {
    var taken := db.(pending := db.pending - {(id, k)});
    assert RowsOk(taken);
    if DueNow(db, id, k, now) {
      ClaimEffect(taken, cfg, id, now);
    }
  }

  lemma CompleteCustomEffect(db: Db, cfg: Config, id: Id, now: real)
    requires RowsOk(db)
    ensures var (n, d) := CompleteCustom(db, cfg, id, now); Effect(db, d, n)
  {
    hide Effect, Claim, Claimed;
    NothingEffect(db);
    if Live(db, id, now) {
      var c := db.chains[id];
      var done := c.(finished := c.finished + 1, expiresAt := now + cfg.timeout);
      if c.sent == c.finished + 1 && done.finished < |c.motions| {
        PutThenClaim(db, cfg, id, done, now);
      } else if c.sent == c.finished + 1 && c.finished < |c.motions| {
        PutEffect(db, id, done.(status := Completed));
      }
    }
  }

  lemma NothingEffect(db: Db)
    requires RowsOk(db)
    ensures Effect(db, None, db)
  {
  }

  lemma PutThenClaim(db: Db, cfg: Config, id: Id, c: Chain, now: real)
    requires RowsOk(db) && id in db.chains && ChainOk(c)
    requires c.due == db.chains[id].due && c.sent == db.chains[id].sent && Later(db.chains[id], c)
    ensures Effect(db, None, Put(db, id, c))
    ensures Resting(c) ==>
      Effect(db, Claimed(Put(db, id, c), cfg, id, now), Claim(Put(db, id, c), cfg, id, now))
  {
    hide Effect, Claim, Claimed, RowsOk;
    PutEffect(db, id, c);
    var m := Put(db, id, c);
    if Resting(c) {
      ClaimEffect(m, cfg, id, now);
      assert m.chains.Keys == db.chains.Keys;
      EffectAfter(db, m, Claimed(m, cfg, id, now), Claim(m, cfg, id, now));
    }
  }

  lemma ExpireEffect(db: Db, now: real)
    requires RowsOk(db)
    ensures Effect(db, None, Expire(db, now))
  {
  }

  lemma TalkEffect(db: Db, cfg: Config, pick: Option<Id>, now: real)
    requires RowsOk(db)
    requires pick.Some? ==> (pick.value in db.chains && db.chains[pick.value].status == Active)
    ensures var (n, d) := Talk(db, cfg, pick, now); Effect(db, d, n)
  {
    hide Effect, Claim, Claimed;
    NothingEffect(db);
    if pick.Some? {
      PutThenClaim(db, cfg, pick.value, db.chains[pick.value].(talkFinished := true), now);
    }
  }

  lemma FinishEffect(db: Db, cfg: Config, pick: Option<Id>, now: real)
    requires RowsOk(db)
    requires pick.Some? ==> (pick.value in db.chains && db.chains[pick.value].status == Active)
    requires pick.Some? ==> db.chains[pick.value].finished < db.chains[pick.value].sent
    ensures var (n, d) := Finish(db, cfg, pick, now); Effect(db, d, n)
  {
    hide Effect, Claim, Claimed;
    NothingEffect(db);
    if pick.Some? {
      var c := db.chains[pick.value];
      var done := c.(finished := c.finished + 1);
      if done.finished < |c.motions| {
        PutThenClaim(db, cfg, pick.value, done, now);
      } else {
        PutEffect(db, pick.value, done.(status := Completed));
      }
    }
  }

  lemma AnchorOk(db: Db, cfg: Config, id: Id, now: real)
    requires RowsOk(db)
    ensures RowsOk(Anchor(db, cfg, id, now))
  {
    var n := Anchor(db, cfg, id, now);
    forall j | j in n.chains ensures ChainOk(n.chains[j]) {
      assert ChainOk(db.chains[j]);
    }
    hide ChainOk;
    forall j: Id, k: nat | (j, k) in n.pending
      ensures j in n.chains && k < |n.chains[j].due| && n.chains[j].due[k] <= n.pending[(j, k)]
    {
      assert (j, k) in db.pending;
    }
  }

  lemma AnchorEffect(db: Db, cfg: Config, id: Id, now: real)
    requires RowsOk(db)
    ensures Effect(db, None, Anchor(db, cfg, id, now))
  {
    AnchorOk(db, cfg, id, now);
    hide PendingOk, ChainOk;
  }

  lemma RestartEffect(db: Db)
    requires RowsOk(db)
    ensures Effect(db, None, Restart(db))
  {
  }

  lemma AbandonOneEffect(db: Db, id: Id)
    requires RowsOk(db)
    ensures Effect(db, None, AbandonOne(db, id))
  {
  }

  lemma ApplyEffect(db: Db, cfg: Config, t: Timed)
    requires RowsOk(db) && Allowed(db, t)
    ensures var (n, d) := Apply(db, cfg, t); Effect(db, if t.step.Standalone? then None else d, n)
  {
    hide Effect, RowsOk, ProcessDue, CompleteCustom, Talk, Finish, Anchor, Restart;
    match t.step
    case Ensured(_, _, _, _, _, _) => EnsureEffect(db, cfg, t);
    case DueProcessed(id, k) => ProcessDueEffect(db, cfg, id, k, t.now);
    case CustomDelivered(id) => CompleteCustomEffect(db, cfg, id, t.now);
    case MotionFinished(_, _, pick) =>
      ExpireEffect(db, t.now);
      var e := Expire(db, t.now);
      ExpireOk(db, t.now);
      FinishEffect(e, cfg, pick, t.now);
      var (n, d) := Finish(e, cfg, pick, t.now);
      EffectAfter(db, e, d, n);
    case TalkFinished(_, _, pick) =>
      ExpireEffect(db, t.now);
      var e := Expire(db, t.now);
      ExpireOk(db, t.now);
      TalkEffect(e, cfg, pick, t.now);
      var (n, d) := Talk(e, cfg, pick, t.now);
      EffectAfter(db, e, d, n);
    case Anchored(id) => AnchorEffect(db, cfg, id, t.now);
    case Dropped(id) => AbandonOneEffect(db, id);
    case Expired => ExpireEffect(db, t.now);
    case Restarted => RestartEffect(db);
    case DueRetried(id, k, at) => RetryEffect(db, id, k, at);
    case Standalone(_) => ReserveEffect(db, cfg, t.now);
  }

  lemma ExpireOk(db: Db, now: real)
    requires RowsOk(db)
    ensures RowsOk(Expire(db, now))
  {
  }

  lemma RetryEffect(db: Db, id: Id, k: nat, at: real)
    requires RowsOk(db)
    requires id in db.chains && k < |db.chains[id].due| && db.chains[id].due[k] <= at
    ensures Effect(db, None, db.(pending := db.pending[(id, k) := at]))
  {
  }

  lemma ReserveEffect(db: Db, cfg: Config, now: real)
    requires RowsOk(db)
    ensures Effect(db, None, AfterReserve(db, cfg, now))
  {
  }

  // ---- counters and dispatches over whole runs -----------------------------

  /** The motions sent for chain `id`, in order. */
  function Sent(log: seq<Call>, id: Id): seq<Motion> {
    if log == [] then []
    else
      var last := |log| - 1;
      Sent(log[..last], id) + (if log[last].chain == Some(id) then [log[last].motion] else [])
  }

  /** What has been sent of a chain is a prefix of it, without repeats. */
  ghost predicate Faithful(w: World) {
    && RowsOk(w.db)
    && (forall id :: id in w.db.chains ==>
          Sent(w.log, id) == w.db.chains[id].motions[..w.db.chains[id].sent])
    && (forall id :: id !in w.db.chains ==> Sent(w.log, id) == [])
  }

  lemma NextFaithful(w: World, cfg: Config, t: Timed)
    requires Faithful(w) && Allowed(w.db, t)
    ensures Faithful(Next(w, cfg, t))
    ensures forall id :: id in w.db.chains ==>
      id in Next(w, cfg, t).db.chains && Later(w.db.chains[id], Next(w, cfg, t).db.chains[id])
  {
    var n := Next(w, cfg, t);
    NextEffect(w, cfg, t);
    forall id
      ensures Sent(n.log, id) == if id in n.db.chains then n.db.chains[id].motions[..n.db.chains[id].sent] else []
    {
      NextSent(w, cfg, t, id);
    }
    hide Next, Sent, Allowed;
  }

  lemma NextEffect(w: World, cfg: Config, t: Timed)
    requires RowsOk(w.db) && Allowed(w.db, t)
    ensures RowsOk(Next(w, cfg, t).db)
    ensures forall id :: id in w.db.chains ==>
      id in Next(w, cfg, t).db.chains && Later(w.db.chains[id], Next(w, cfg, t).db.chains[id])
    ensures forall id :: id in Next(w, cfg, t).db.chains ==> ChainOk(Next(w, cfg, t).db.chains[id])
  {
    hide Apply, Allowed, ChainOk, PendingOk, Later;
    ApplyEffect(w.db, cfg, t);
  }

  /** What an operation does to one chain. */
  lemma EffectOnOne(db: Db, d: Option<Dispatch>, n: Db, id: Id)
    requires Effect(db, d, n)
    ensures id in db.chains ==>
      && id in n.chains && n.chains[id].motions == db.chains[id].motions
      && n.chains[id].sent == db.chains[id].sent + if d.Some? && d.value.source == id then 1 else 0
    ensures id in n.chains && id !in db.chains ==> n.chains[id].sent == 0
    ensures d.Some? && d.value.source == id ==>
      && id in db.chains && db.chains[id].sent < |db.chains[id].motions|
      && d.value.motion == db.chains[id].motions[db.chains[id].sent]
    ensures id in n.chains ==> n.chains[id].sent <= |n.chains[id].motions|
  {
    hide PendingOk;
  }

  lemma FaithfulToOne(w: World, id: Id)
    requires Faithful(w)
    ensures RowsOk(w.db)
    ensures id in w.db.chains ==> w.db.chains[id].sent <= |w.db.chains[id].motions|
    ensures Sent(w.log, id) == if id in w.db.chains then w.db.chains[id].motions[..w.db.chains[id].sent] else []
  {
    hide PendingOk, Sent;
    if id in w.db.chains {
      assert ChainOk(w.db.chains[id]);
    }
  }

  lemma NextSent(w: World, cfg: Config, t: Timed, id: Id)
    requires Faithful(w) && Allowed(w.db, t)
    ensures var n := Next(w, cfg, t);
      && (id in n.db.chains ==> n.db.chains[id].sent <= |n.db.chains[id].motions|)
      && Sent(n.log, id) == if id in n.db.chains then n.db.chains[id].motions[..n.db.chains[id].sent] else []
  {
    hide Apply, RowsOk, Faithful, Effect, Sent, Allowed, CallsOf;
    FaithfulToOne(w, id);
    var (n, d) := Apply(w.db, cfg, t);
    var own := if t.step.Standalone? then None else d;
    ApplyEffect(w.db, cfg, t);
    EffectOnOne(w.db, own, n, id);
    SentPush(w.log, t, d, id);
    PrefixGrows(if id in w.db.chains then Some(w.db.chains[id]) else None,
                if id in n.chains then Some(n.chains[id]) else None,
                if own.Some? && own.value.source == id then Some(own.value.motion) else None);
  }

  function Before(c: Option<Chain>): seq<Motion>
    requires c.Some? ==> c.value.sent <= |c.value.motions|
  {
    if c.None? then [] else c.value.motions[..c.value.sent]
  }

  lemma PrefixGrows(c: Option<Chain>, n: Option<Chain>, m: Option<Motion>)
    requires c.Some? ==> c.value.sent <= |c.value.motions|
    requires n.Some? ==> n.value.sent <= |n.value.motions|
    requires c.Some? ==> n.Some? && n.value.motions == c.value.motions
    requires c.Some? ==> n.value.sent == c.value.sent + if m.Some? then 1 else 0
    requires c.None? && n.Some? ==> n.value.sent == 0
    requires m.Some? ==> c.Some? && c.value.sent < |c.value.motions| && m.value == c.value.motions[c.value.sent]
    ensures Before(n) == Before(c) + if m.Some? then [m.value] else []
  {
  }

  lemma SentPush(log: seq<Call>, t: Timed, d: Option<Dispatch>, id: Id)
    ensures Sent(log + CallsOf(t, d), id) == Sent(log, id)
      + (if d.Some? && !t.step.Standalone? && d.value.source == id then [d.value.motion] else [])
  {
    if d.None? {
      assert log + CallsOf(t, d) == log;
    } else {
      assert (log + CallsOf(t, d))[..|log|] == log;
    }
  }

  /** Over any run from the empty tables: the counters stay in order, what was sent of each
      chain is a prefix of it, and a completed or abandoned chain stays exactly as it is. */
  lemma {:induction false} RunFaithful(w: World, cfg: Config, steps: seq<Timed>)
    requires Faithful(w) && CanRun(w, cfg, steps)
    ensures Faithful(Ran(w, cfg, steps))
    ensures forall id :: id in w.db.chains ==>
      id in Ran(w, cfg, steps).db.chains && Later(w.db.chains[id], Ran(w, cfg, steps).db.chains[id])
    decreases |steps|
  {
    if steps != [] {
      hide Faithful, Next, Allowed;
      NextFaithful(w, cfg, steps[0]);
      RunFaithful(Next(w, cfg, steps[0]), cfg, steps[1..]);
    }
  }

  lemma StartFaithful(clock: real)
    ensures Faithful(Start(clock))
  {
  }

  /** A chain that has ended, however it ended, is silent for good: no operation sends another of
      its motions or touches it. */
  lemma EndedIsSilent(w: World, cfg: Config, steps: seq<Timed>, id: Id)
    requires Faithful(w) && CanRun(w, cfg, steps) && id in w.db.chains && w.db.chains[id].status != Active
    ensures var v := Ran(w, cfg, steps);
      && id in v.db.chains && v.db.chains[id] == w.db.chains[id]
      && Sent(v.log, id) == Sent(w.log, id)
  {
    hide Allowed, Next, CanRun, Ran, Sent, RowsOk;
    RunFaithful(w, cfg, steps);
  }

  /** So nothing more is sent of an abandoned chain, */
  lemma AbandonedIsSilent(w: World, cfg: Config, id: Id, now: real, steps: seq<Timed>)
    requires Faithful(w) && id in w.db.chains && CanRun(Next(w, cfg, Timed(Dropped(id), now)), cfg, steps)
    ensures Sent(Ran(Next(w, cfg, Timed(Dropped(id), now)), cfg, steps).log, id) == Sent(w.log, id)
  {
    var t := Timed(Dropped(id), now);
    var n := Next(w, cfg, t);
    NextFaithful(w, cfg, t);
    assert n.log == w.log && id in n.db.chains && n.db.chains[id].status != Active;
    EndedIsSilent(n, cfg, steps, id);
  }

  /** and after a restart no cue of before is left, and no chain of before sends anything. */
  lemma RestartSilencesAll(w: World, cfg: Config, id: Id, now: real, steps: seq<Timed>)
    requires Faithful(w) && id in w.db.chains && CanRun(Next(w, cfg, Timed(Restarted, now)), cfg, steps)
    ensures Next(w, cfg, Timed(Restarted, now)).db.pending == map[]
    ensures Sent(Ran(Next(w, cfg, Timed(Restarted, now)), cfg, steps).log, id) == Sent(w.log, id)
  {
    var t := Timed(Restarted, now);
    var n := Next(w, cfg, t);
    NextFaithful(w, cfg, t);
    assert n.log == w.log && id in n.db.chains && n.db.chains[id].status != Active;
    EndedIsSilent(n, cfg, steps, id);
  }

  /** From the empty tables: the counters of every chain are in order, and what was sent of it is
      a prefix of it. */
  lemma FaithfulFromTheStart(clock: real, cfg: Config, steps: seq<Timed>, id: Id)
    requires CanRun(Start(clock), cfg, steps)
    ensures var v := Ran(Start(clock), cfg, steps);
      id in v.db.chains ==>
        && ChainOk(v.db.chains[id])
        && Sent(v.log, id) == v.db.chains[id].motions[..v.db.chains[id].sent]
  {
    StartFaithful(clock);
    RunFaithful(Start(clock), cfg, steps);
  }

  // ---- the budget window ---------------------------------------------------

  function Times(log: seq<Call>): seq<real> {
    seq(|log|, i requires 0 <= i < |log| => log[i].at)
  }

  /** How many calls were made in the minute that ends at `t`. */
  function CallsWithin(times: seq<real>, t: real): nat {
    if times == [] then 0
    else
      var last := |times| - 1;
      CallsWithin(times[..last], t) + (if t - 60.0 < times[last] <= t then 1 else 0)
  }

  lemma {:induction false} AfterConcat(a: seq<real>, b: seq<real>, cutoff: real)
    ensures After(a + b, cutoff) == After(a, cutoff) + After(b, cutoff)
  {
    if a == [] {
      assert a + b == b;
    } else {
      AfterConcat(a[1..], b, cutoff);
      assert (a + b)[0] == a[0] && (a + b)[1..] == a[1..] + b;
      Regroup(if a[0] > cutoff then [a[0]] else [], After(a[1..], cutoff), After(b, cutoff));
    }
  }

  lemma Regroup(x: seq<real>, y: seq<real>, z: seq<real>)
    ensures x + (y + z) == (x + y) + z && (x == [] ==> x + y == y)
  {
  }

  lemma {:induction false} AfterTwice(times: seq<real>, early: real, late: real)
    requires early <= late
    ensures After(After(times, early), late) == After(times, late)
  {
    if times != [] {
      AfterTwice(times[1..], early, late);
      if times[0] > early {
        AfterConcat([times[0]], After(times[1..], early), late);
        assert After([times[0]], late) == if times[0] > late then [times[0]] else [];
      }
    }
  }

  lemma {:induction false} WithinAfter(times: seq<real>, t: real, cutoff: real)
    requires cutoff <= t - 60.0
    ensures CallsWithin(times, t) <= |After(times, cutoff)|
  {
    if times != [] {
      var last := |times| - 1;
      WithinAfter(times[..last], t, cutoff);
      AfterConcat(times[..last], [times[last]], cutoff);
      assert times[..last] + [times[last]] == times;
      assert After([times[last]], cutoff) == if times[last] > cutoff then [times[last]] else [];
    }
  }

  /** The table holds exactly the calls later than some cutoff at least a minute ago, and no
      minute has held more than the limit. */
  ghost predicate BudgetOk(w: World, cfg: Config) {
    && HoldsRecent(w.db.budget, Times(w.log), w.clock)
    && (forall i :: 0 <= i < |w.log| ==> w.log[i].at <= w.clock)
    && MinutesOk(Times(w.log), cfg)
  }

  ghost predicate HoldsRecent(budget: seq<real>, times: seq<real>, clock: real) {
    exists cutoff: real :: cutoff <= clock - 60.0 && budget == After(times, cutoff)
  }

  ghost predicate MinutesOk(times: seq<real>, cfg: Config) {
    forall t: real :: CallsWithin(times, t) <= cfg.limit
  }

  /** Every operation leaves the budget alone, prunes it, or prunes it and takes a free slot
      for the one call it makes. */
  lemma ApplyBudget(db: Db, cfg: Config, t: Timed)
    requires RowsOk(db) && Allowed(db, t)
    ensures var (n, d) := Apply(db, cfg, t); BudgetStep(db.budget, cfg, t.now, n.budget, d)
  {
    hide BudgetStep, Pruned, Claim, Claimed, RowsOk, ExpireChain, Latest, DueEvents;
    NoBudgetStep(db.budget, cfg, t.now);
    forall m: Db, id | id in m.chains {
      ClaimBudget(m, cfg, id, t.now);
    }
    if t.step.Standalone? {
      ReserveBudget(db, cfg, t.now, Apply(db, cfg, t).1);
    }
  }

  ghost predicate BudgetStep(budget: seq<real>, cfg: Config, now: real, n: seq<real>,
                             d: Option<Dispatch>)
  {
    var recent := Pruned(budget, now);
    || (d.None? && (n == budget || n == recent))
    || (d.Some? && |recent| < cfg.limit && n == recent + [now])
  }

  lemma NoBudgetStep(budget: seq<real>, cfg: Config, now: real)
    ensures BudgetStep(budget, cfg, now, budget, None)
  {
  }

  lemma ClaimBudget(db: Db, cfg: Config, id: Id, now: real)
    requires id in db.chains
    ensures BudgetStep(db.budget, cfg, now, Claim(db, cfg, id, now).budget,
                       Claimed(db, cfg, id, now))
  {
  }

  lemma ReserveBudget(db: Db, cfg: Config, now: real, d: Option<Dispatch>)
    requires d.Some? <==> Reserved(db, cfg, now)
    ensures BudgetStep(db.budget, cfg, now, AfterReserve(db, cfg, now).budget, d)
  {
  }

  /** Pruning, and recording the call, keep exactly the calls later than some cutoff. */
  lemma TableStep(budget: seq<real>, times: seq<real>, clock: real, cfg: Config, now: real,
                  n: seq<real>, d: Option<Dispatch>)
    requires HoldsRecent(budget, times, clock) && clock <= now && BudgetStep(budget, cfg, now, n, d)
    ensures HoldsRecent(n, if d.None? then times else times + [now], now)
  {
    hide After;
    var cut := now - 60.0;
    var cutoff: real :| cutoff <= clock - 60.0 && budget == After(times, cutoff);
    AfterTwice(times, cutoff, cut);
    AfterConcat(times, [now], cut);
    NowIsAfter(now);
    if d.None? && n == budget {
      assert cutoff <= now - 60.0 && n == After(times, cutoff);
    } else if d.None? {
      assert n == After(times, cut);
    } else {
      assert n == After(times + [now], cut);
    }
  }

  /** A call made with a free slot overfills no minute. */
  lemma MinutesStep(budget: seq<real>, times: seq<real>, clock: real, cfg: Config, now: real)
    requires HoldsRecent(budget, times, clock) && clock <= now && |Pruned(budget, now)| < cfg.limit
    requires MinutesOk(times, cfg)
    ensures MinutesOk(times + [now], cfg)
  {
    hide After, CallsWithin;
    var cut := now - 60.0;
    var cutoff: real :| cutoff <= clock - 60.0 && budget == After(times, cutoff);
    AfterTwice(times, cutoff, cut);
    AfterConcat(times, [now], cut);
    NowIsAfter(now);
    forall m: real ensures CallsWithin(times + [now], m) <= cfg.limit {
      CallsWithinPush(times, now, m);
      if m >= now {
        WithinAfter(times + [now], m, cut);
      }
    }
  }

  lemma NextBudget(w: World, cfg: Config, t: Timed)
    requires RowsOk(w.db) && Allowed(w.db, t) && BudgetOk(w, cfg) && w.clock <= t.now
    ensures BudgetOk(Next(w, cfg, t), cfg)
  {
    var (n, d) := Apply(w.db, cfg, t);
    ApplyBudget(w.db, cfg, t);
    hide Apply, RowsOk, Allowed, HoldsRecent, MinutesOk;
    var times := Times(w.log);
    TableStep(w.db.budget, times, w.clock, cfg, t.now, n.budget, d);
    if d.None? {
      assert w.log + CallsOf(t, d) == w.log;
    } else {
      MinutesStep(w.db.budget, times, w.clock, cfg, t.now);
      assert Times(w.log + CallsOf(t, d)) == times + [t.now];
    }
  }

  lemma NowIsAfter(now: real)
    ensures After([now], now - 60.0) == [now]
  {
  }

  lemma CallsWithinPush(times: seq<real>, last: real, t: real)
    ensures CallsWithin(times + [last], t)
         == CallsWithin(times, t) + (if t - 60.0 < last <= t then 1 else 0)
  {
    assert (times + [last])[..|times|] == times;
  }

  /** With one clock, no minute ever holds more than `limit` motion calls, whichever mix of
      chains and standalone motions makes them. */
  lemma {:induction false} RunBudget(w: World, cfg: Config, steps: seq<Timed>)
    requires Faithful(w) && BudgetOk(w, cfg) && CanRun(w, cfg, steps) && OneClock(w.clock, steps)
    ensures BudgetOk(Ran(w, cfg, steps), cfg)
    decreases |steps|
  {
    if steps != [] {
      NextBudget(w, cfg, steps[0]);
      NextFaithful(w, cfg, steps[0]);
      assert Next(w, cfg, steps[0]).clock == steps[0].now;
      hide Faithful, BudgetOk, Allowed, Next;
      RunBudget(Next(w, cfg, steps[0]), cfg, steps[1..]);
    }
  }

  lemma StartBudget(clock: real, cfg: Config)
    ensures BudgetOk(Start(clock), cfg)
  {
    assert Start(clock).db.budget == After(Times([]), clock - 60.0);
    assert HoldsRecent(Start(clock).db.budget, Times([]), clock);
  }

  /** From the empty tables, with one clock, no minute holds more calls than the limit. */
  lemma BudgetFromTheStart(clock: real, cfg: Config, steps: seq<Timed>, t: real)
    requires CanRun(Start(clock), cfg, steps) && OneClock(clock, steps)
    ensures CallsWithin(Times(Ran(Start(clock), cfg, steps).log), t) <= cfg.limit
  {
    StartFaithful(clock);
    StartBudget(clock, cfg);
    RunBudget(Start(clock), cfg, steps);
    hide Ran, CanRun, HoldsRecent, CallsWithin;
  }

  // ---- stranded cues -------------------------------------------------------

  /** An unexpired chain waits for motion `c.sent`, but no due event is left to send it. */
  ghost predicate Stranded(w: World, id: Id) {
    && id in w.db.chains && Resting(w.db.chains[id])
    && w.db.chains[id].expiresAt > w.clock
    && (id, w.db.chains[id].sent) !in w.db.pending
  }

  ghost predicate NoneStranded(w: World) {
    forall id :: id in w.db.chains ==> !Stranded(w, id)
  }

  function Latter(a: real, b: real): real {
    if a < b then b else a
  }

  /** Motion `c.finished` has just finished and the next one is not sent with it: its event was
      used up, its due time lies after `now`, and the talk has not ended. */
  predicate LeavesBehind(db: Db, id: Id, c: Chain, now: real, expiresAt: real, clock: real) {
    && c.finished + 1 < |c.motions|
    && !Ready(c, now)
    && (id, c.finished + 1) !in db.pending
    && expiresAt > Latter(clock, now)
  }

  /** The operations that strand a cue, as a caller could tell before making them. */
  predicate Strands(w: World, cfg: Config, t: Timed) {
    match t.step
    case CustomDelivered(id) =>
      && Live(w.db, id, t.now)
      && var c := w.db.chains[id];
         && c.sent == c.finished + 1 && c.finished < |c.motions| && c.motions[c.finished].Document?
         && LeavesBehind(w.db, id, c, t.now, t.now + cfg.timeout, w.clock)
    case MotionFinished(_, _, Some(id)) =>
      && id in w.db.chains
      && LeavesBehind(w.db, id, w.db.chains[id], t.now, w.db.chains[id].expiresAt, w.clock)
    case Anchored(id) =>
      // re-anchoring revives a chain that had run out of time but was not yet abandoned
      && id in w.db.chains && Resting(w.db.chains[id])
      && w.db.chains[id].anchoredAt.None? && |w.db.chains[id].offsets| == |w.db.chains[id].motions|
      && (id, w.db.chains[id].sent) !in w.db.pending
      && t.now + cfg.timeout > Latter(w.clock, t.now)
    case _ => false
  }

  /** A chain left alone is not newly stranded. */
  lemma NotNewlyStranded(w: World, n: World, id: Id)
    requires id in w.db.chains && id in n.db.chains && !Stranded(w, id) && w.clock <= n.clock
    requires n.db.chains[id] == w.db.chains[id] || n.db.chains[id].status != Active
    requires (id, w.db.chains[id].sent) in w.db.pending ==> (id, w.db.chains[id].sent) in n.db.pending
    ensures !Stranded(n, id)
  {
  }

  /** Once its next motion is claimed, a chain is no longer at rest. */
  lemma ClaimLeavesRest(db: Db, cfg: Config, id: Id, now: real)
    requires id in db.chains && Resting(db.chains[id])
    ensures var n := Claim(db, cfg, id, now);
      && n.pending == db.pending && n.chains.Keys == db.chains.Keys
      && !Resting(n.chains[id])
      && forall j :: j in db.chains && j != id ==> n.chains[j] == db.chains[j]
  {
    hide After;
  }

  lemma DueStrandsNone(w: World, cfg: Config, t: Timed)
    requires RowsOk(w.db) && NoneStranded(w) && Allowed(w.db, t) && t.step.DueProcessed?
    ensures NoneStranded(Next(w, cfg, t))
  {
    hide Claim, Claimed;
    var id, k, n := t.step.id, t.step.k, Next(w, cfg, t);
    var taken := w.db.(pending := w.db.pending - {(id, k)});
    if DueNow(w.db, id, k, t.now) {
      ClaimLeavesRest(taken, cfg, id, t.now);
    }
    forall j | j in n.db.chains ensures !Stranded(n, j) {
      assert !Stranded(w, j);
      if (j, w.db.chains[j].sent) != (id, k) {
        if j != id || !DueNow(w.db, id, k, t.now) {
          NotNewlyStranded(w, n, j);
        }
      }
    }
  }

  lemma CustomStrandsIff(w: World, cfg: Config, t: Timed)
    requires RowsOk(w.db) && NoneStranded(w) && Allowed(w.db, t) && t.step.CustomDelivered?
    ensures NoneStranded(Next(w, cfg, t)) <==> !Strands(w, cfg, t)
  {
    var id, n := t.step.id, Next(w, cfg, t);
    CustomTouchesOne(w.db, cfg, id, t.now);
    if id in w.db.chains {
      assert !Stranded(w, id);
      CustomStrandsPick(w, cfg, t);
    }
    hide CompleteCustom, RowsOk;
    forall j | j in n.db.chains && j != id ensures !Stranded(n, j) {
      assert !Stranded(w, j);
      NotNewlyStranded(w, n, j);
    }
  }

  lemma CustomTouchesOne(db: Db, cfg: Config, id: Id, now: real)
    requires RowsOk(db)
    ensures var n := CompleteCustom(db, cfg, id, now).0;
      && n.pending == db.pending && n.chains.Keys == db.chains.Keys
      && forall j :: j in db.chains && j != id ==> n.chains[j] == db.chains[j]
  {
    hide Claim, Claimed, Reserved;
    if id in db.chains {
      var c := db.chains[id];
      var done := c.(finished := c.finished + 1, expiresAt := now + cfg.timeout);
      if Resting(done) {
        ClaimLeavesRest(Put(db, id, done), cfg, id, now);
      }
      assert ChainOk(c);
    }
  }

  lemma CustomStrandsPick(w: World, cfg: Config, t: Timed)
    requires RowsOk(w.db) && Allowed(w.db, t) && t.step.CustomDelivered?
    requires t.step.id in w.db.chains && !Stranded(w, t.step.id)
    ensures Stranded(Next(w, cfg, t), t.step.id) <==> Strands(w, cfg, t)
  {
    hide Claim, Claimed, PendingOk;
    var id := t.step.id;
    var c := w.db.chains[id];
    assert ChainOk(c);
    var done := c.(finished := c.finished + 1, expiresAt := t.now + cfg.timeout);
    if Resting(done) {
      ClaimLeavesRest(Put(w.db, id, done), cfg, id, t.now);
    }
  }

  lemma FinishStrandsIff(w: World, cfg: Config, t: Timed)
    requires RowsOk(w.db) && NoneStranded(w) && Allowed(w.db, t) && t.step.MotionFinished?
    ensures NoneStranded(Next(w, cfg, t)) <==> !Strands(w, cfg, t)
  {
    var n := Next(w, cfg, t);
    FinishTouchesOne(w.db, cfg, t);
    if t.step.pick.Some? {
      FinishStrandsPick(w, cfg, t, t.step.pick.value);
    }
    hide Apply, RowsOk, Latest, Allowed;
    forall j | j in n.db.chains && Some(j) != t.step.pick ensures !Stranded(n, j) {
      assert !Stranded(w, j);
      NotNewlyStranded(w, n, j);
    }
  }

  lemma FinishTouchesOne(db: Db, cfg: Config, t: Timed)
    requires Allowed(db, t) && t.step.MotionFinished?
    ensures var n := Apply(db, cfg, t).0;
      && n.pending == db.pending && n.chains.Keys == db.chains.Keys
      && forall j :: j in db.chains && Some(j) != t.step.pick ==>
           n.chains[j] == ExpireChain(db.chains[j], t.now)
    ensures t.step.pick.Some? ==> t.step.kind.Some?
    ensures t.step.pick.Some? ==>
      AwaitsFinish(Expire(db, t.now), t.step.room, t.step.kind.value, t.step.pick.value)
  {
    var e := Expire(db, t.now);
    if t.step.pick.Some? {
      FinishChangesOne(e, cfg, t.step.pick.value, t.now);
    }
    hide Finish;
  }

  lemma FinishChangesOne(db: Db, cfg: Config, id: Id, now: real)
    requires id in db.chains
    ensures var n := Finish(db, cfg, Some(id), now).0;
      && n.pending == db.pending && n.chains.Keys == db.chains.Keys
      && forall j :: j in db.chains && j != id ==> n.chains[j] == db.chains[j]
  {
    hide After;
  }

  lemma FinishStrandsPick(w: World, cfg: Config, t: Timed, id: Id)
    requires RowsOk(w.db) && Allowed(w.db, t) && t.step.MotionFinished? && t.step.pick == Some(id)
    requires t.step.kind.Some?
    requires AwaitsFinish(Expire(w.db, t.now), t.step.room, t.step.kind.value, id)
    ensures Stranded(Next(w, cfg, t), id) <==> Strands(w, cfg, t)
  {
    hide Finish, Latest, PendingOk, FinishCandidates, ChainOk;
    var e := Expire(w.db, t.now);
    assert e.chains[id] == w.db.chains[id] && ChainOk(e.chains[id]);
    FinishLeavesBehind(e, cfg, id, t.now, w.clock);
  }

  /** The chain whose motion in flight finishes is left behind exactly under the stated condition. */
  lemma FinishLeavesBehind(e: Db, cfg: Config, id: Id, now: real, clock: real)
    requires id in e.chains && ChainOk(e.chains[id]) && e.chains[id].status == Active
    requires e.chains[id].finished < e.chains[id].sent
    ensures var n := Finish(e, cfg, Some(id), now).0;
      && id in n.chains && n.pending == e.pending
      && (Stranded(World(n, [], Latter(clock, now)), id)
          <==> LeavesBehind(e, id, e.chains[id], now, e.chains[id].expiresAt, clock))
  {
    hide Claim, Claimed;
    var c := e.chains[id];
    var done := c.(finished := c.finished + 1);
    if Resting(done) {
      ClaimLeavesRest(Put(e, id, done), cfg, id, now);
    }
  }

  lemma TalkStrandsNone(w: World, cfg: Config, t: Timed)
    requires RowsOk(w.db) && NoneStranded(w) && Allowed(w.db, t) && t.step.TalkFinished?
    ensures NoneStranded(Next(w, cfg, t))
  {
    hide Claim, Claimed;
    var n, e := Next(w, cfg, t), Expire(w.db, t.now);
    if t.step.pick.Some? {
      var id := t.step.pick.value;
      var c := e.chains[id].(talkFinished := true);
      if Resting(c) {
        ClaimLeavesRest(Put(e, id, c), cfg, id, t.now);
      }
      assert !Stranded(n, id);
    }
    forall j | j in n.db.chains && Some(j) != t.step.pick ensures !Stranded(n, j) {
      assert !Stranded(w, j);
      NotNewlyStranded(w, n, j);
    }
  }

  lemma AnchorStrandsIff(w: World, cfg: Config, t: Timed)
    requires RowsOk(w.db) && NoneStranded(w) && Allowed(w.db, t) && t.step.Anchored?
    ensures NoneStranded(Next(w, cfg, t)) <==> !Strands(w, cfg, t)
  {
    var id, n := t.step.id, Next(w, cfg, t);
    if id in w.db.chains {
      assert Stranded(n, id) <==> Strands(w, cfg, t) by {
        assert !Stranded(w, id);
      }
    }
    forall j | j in n.db.chains && j != id ensures !Stranded(n, j) {
      assert !Stranded(w, j);
      NotNewlyStranded(w, n, j);
    }
  }

  lemma EnsureStrandsNone(w: World, cfg: Config, t: Timed)
    requires RowsOk(w.db) && NoneStranded(w) && Allowed(w.db, t) && t.step.Ensured?
    ensures NoneStranded(Next(w, cfg, t))
  {
    var n := Next(w, cfg, t);
    DueEventsAre(t.step.id, t.step.due);
    forall j | j in n.db.chains ensures !Stranded(n, j) {
      if j in w.db.chains {
        assert !Stranded(w, j);
        NotNewlyStranded(w, n, j);
      }
    }
  }

  lemma OtherStrandsNone(w: World, cfg: Config, t: Timed)
    requires RowsOk(w.db) && NoneStranded(w) && Allowed(w.db, t)
    requires t.step.DueRetried? || t.step.Dropped? || t.step.Expired? || t.step.Restarted?
      || t.step.Standalone?
    ensures NoneStranded(Next(w, cfg, t))
  {
    hide After;
    var n := Next(w, cfg, t);
    forall j | j in n.db.chains ensures !Stranded(n, j) {
      assert !Stranded(w, j);
      if n.db.chains[j].status == Active {
        NotNewlyStranded(w, n, j);
      }
    }
  }

  /** Whatever times the operations are given, `Strands` says exactly which of them strand a
      cue. */
  lemma StrandsIff(w: World, cfg: Config, t: Timed)
    requires RowsOk(w.db) && NoneStranded(w) && Allowed(w.db, t)
    ensures NoneStranded(Next(w, cfg, t)) <==> !Strands(w, cfg, t)
  {
    hide NoneStranded, Next, RowsOk, Allowed;
    match t.step
    case Ensured(_, _, _, _, _, _) => EnsureStrandsNone(w, cfg, t);
    case DueProcessed(_, _) => DueStrandsNone(w, cfg, t);
    case CustomDelivered(_) => CustomStrandsIff(w, cfg, t);
    case MotionFinished(_, _, _) => FinishStrandsIff(w, cfg, t);
    case TalkFinished(_, _, _) => TalkStrandsNone(w, cfg, t);
    case Anchored(_) => AnchorStrandsIff(w, cfg, t);
    case _ => OtherStrandsNone(w, cfg, t);
  }

  /** Only motions already due have lost their event. */
  ghost predicate OnlyDueUsed(w: World) {
    forall id: Id, k: nat ::
      id in w.db.chains && w.db.chains[id].status == Active && k < |w.db.chains[id].due|
      && (id, k) !in w.db.pending ==>
        w.db.chains[id].due[k] <= w.clock
  }

  ghost predicate KeepsDue(db: Db, n: Db) {
    && n.pending == db.pending && n.chains.Keys == db.chains.Keys
    && forall id :: id in db.chains ==> n.chains[id].due == db.chains[id].due
  }

  lemma ClaimKeepsDue(db: Db, cfg: Config, id: Id, now: real)
    requires id in db.chains
    ensures KeepsDue(db, Claim(db, cfg, id, now))
  {
  }

  lemma PutKeepsDue(db: Db, cfg: Config, id: Id, c: Chain, now: real)
    requires id in db.chains && c.due == db.chains[id].due
    ensures KeepsDue(db, Put(db, id, c)) && KeepsDue(db, Claim(Put(db, id, c), cfg, id, now))
  {
    ClaimKeepsDue(Put(db, id, c), cfg, id, now);
  }

  lemma CustomKeepsDue(db: Db, cfg: Config, id: Id, now: real)
    ensures KeepsDue(db, CompleteCustom(db, cfg, id, now).0)
  {
    hide Claim, Claimed;
    if Live(db, id, now) {
      var c := db.chains[id];
      var done := c.(finished := c.finished + 1, expiresAt := now + cfg.timeout);
      PutKeepsDue(db, cfg, id, done, now);
    }
  }

  lemma FinishKeepsDue(db: Db, cfg: Config, pick: Option<Id>, now: real)
    requires pick.Some? ==> pick.value in db.chains
    ensures KeepsDue(db, Finish(db, cfg, pick, now).0)
  {
    hide Claim, Claimed;
    if pick.Some? {
      var c := db.chains[pick.value];
      PutKeepsDue(db, cfg, pick.value, c.(finished := c.finished + 1), now);
    }
  }

  lemma TalkKeepsDue(db: Db, cfg: Config, pick: Option<Id>, now: real)
    requires pick.Some? ==> pick.value in db.chains
    ensures KeepsDue(db, Talk(db, cfg, pick, now).0)
  {
    hide Claim, Claimed;
    if pick.Some? {
      PutKeepsDue(db, cfg, pick.value, db.chains[pick.value].(talkFinished := true), now);
    }
  }

  /** Without re-anchoring, due times are fixed and an event goes only by being processed. */
  lemma DueTimesFixed(db: Db, cfg: Config, t: Timed)
    requires Allowed(db, t) && !t.step.Anchored? && !t.step.Restarted?
    ensures var n := Apply(db, cfg, t).0;
      && (forall id :: id in db.chains ==> id in n.chains && n.chains[id].due == db.chains[id].due)
      && (forall e: (Id, nat) :: e in db.pending ==>
            e in n.pending || (t.step.DueProcessed? && e == (t.step.id, t.step.k)))
      && (!t.step.Ensured? ==> n.chains.Keys == db.chains.Keys)
  {
    hide After, DueEvents, Claim, Claimed, CompleteCustom, Finish, Talk;
    match t.step
    case DueProcessed(id, k) =>
      if id in db.chains {
        ClaimKeepsDue(db.(pending := db.pending - {(id, k)}), cfg, id, t.now);
      }
    case CustomDelivered(id) => CustomKeepsDue(db, cfg, id, t.now);
    case MotionFinished(_, _, pick) => FinishKeepsDue(Expire(db, t.now), cfg, pick, t.now);
    case TalkFinished(_, _, pick) => TalkKeepsDue(Expire(db, t.now), cfg, pick, t.now);
    case _ =>
  }

  lemma NewChainPending(db: Db, cfg: Config, t: Timed, id: Id, k: nat)
    requires Allowed(db, t) && t.step.Ensured?
    requires id !in db.chains && id in Apply(db, cfg, t).0.chains
    requires k < |Apply(db, cfg, t).0.chains[id].due|
    ensures (id, k) in Apply(db, cfg, t).0.pending
  {
    hide DueEvents;
    DueEventsAre(id, t.step.due);
    assert (id, k) in DueEvents(id, t.step.due);
  }

  lemma NextOnlyDueUsed(w: World, cfg: Config, t: Timed)
    requires RowsOk(w.db) && OnlyDueUsed(w) && Allowed(w.db, t) && !t.step.Anchored? && w.clock <= t.now
    ensures OnlyDueUsed(Next(w, cfg, t))
  {
    if !t.step.Restarted? {
      DueTimesFixed(w.db, cfg, t);
      ApplyEffect(w.db, cfg, t);
      hide Apply, ChainOk;
      var n := Next(w, cfg, t);
      forall id: Id, k: nat | id in n.db.chains && n.db.chains[id].status == Active
        && k < |n.db.chains[id].due| && (id, k) !in n.db.pending
        ensures n.db.chains[id].due[k] <= n.clock
      {
        if id !in w.db.chains {
          NewChainPending(w.db, cfg, t, id, k);
        } else if (id, k) in w.db.pending {
          assert t.step == DueProcessed(id, k);
        }
      }
    }
  }

  /** With one clock and no re-anchoring, no cue is ever stranded: over every interleaving of
      due events, finish webhooks, talk webhooks and custom completions, a chain waiting for
      motion k still has the event that will send it. */
  lemma {:induction false} RunStrandsNone(w: World, cfg: Config, steps: seq<Timed>)
    requires RowsOk(w.db) && NoneStranded(w) && OnlyDueUsed(w)
    requires CanRun(w, cfg, steps) && OneClock(w.clock, steps)
    requires forall t :: t in steps ==> !t.step.Anchored?
    ensures NoneStranded(Ran(w, cfg, steps))
    decreases |steps|
  {
    if steps != [] {
      var t, n := steps[0], Next(w, cfg, steps[0]);
      ClockStrandsNone(w, cfg, t);
      StrandsIff(w, cfg, t);
      NextOnlyDueUsed(w, cfg, t);
      ApplyEffect(w.db, cfg, t);
      assert n.clock == t.now;
      hide RowsOk, NoneStranded, OnlyDueUsed, Allowed, Next;
      RunStrandsNone(n, cfg, steps[1..]);
    }
  }

  lemma ClockStrandsNone(w: World, cfg: Config, t: Timed)
    requires RowsOk(w.db) && OnlyDueUsed(w) && Allowed(w.db, t) && !t.step.Anchored? && w.clock <= t.now
    ensures !Strands(w, cfg, t)
  {
    match t.step
    case CustomDelivered(id) =>
    case MotionFinished(_, _, pick) =>
    case _ =>
  }

  lemma StartStrandsNone(clock: real)
    ensures RowsOk(Start(clock).db) && NoneStranded(Start(clock)) && OnlyDueUsed(Start(clock))
  {
  }

  /** From the empty tables, with one clock and no re-anchoring, no cue is ever stranded. */
  lemma NoneStrandedFromTheStart(clock: real, cfg: Config, steps: seq<Timed>)
    requires CanRun(Start(clock), cfg, steps) && OneClock(clock, steps)
    requires forall t :: t in steps ==> !t.step.Anchored?
    ensures NoneStranded(Ran(Start(clock), cfg, steps))
  {
    StartStrandsNone(clock);
    hide Next, Allowed, NoneStranded, OnlyDueUsed, RowsOk;
    RunStrandsNone(Start(clock), cfg, steps);
  }

  // Both conditions are needed.  A chain of two presets, A due at 1 and B due at 2, whose
  // second event comes up (and is used) while A is still in flight:

  const CFG := Config(60.0, 8)
  const M: Id := 1
  const R: Name := 2
  const A: Name := 3
  const B: Name := 4

  const MADE := Timed(Ensured(M, R, [Preset(A), Preset(B)], [Some(A), Some(B)],
                              [1.0, 2.0], [1.0, 9.0]), 0.0)
  const FIRST := Timed(DueProcessed(M, 0), 1.0)
  const SECOND := Timed(DueProcessed(M, 1), 3.0)

  function Pair(due: seq<real>, anchor: Option<real>, sent: nat, expiresAt: real): Chain {
    Chain(R, [Preset(A), Preset(B)], [Some(A), Some(B)], due, [1.0, 9.0],
          anchor, sent, 0, false, Active, expiresAt, 0.0)
  }

  const W1 := World(Db(map[M := Pair([1.0, 2.0], None, 0, 60.0)],
                       map[(M, 0) := 1.0, (M, 1) := 2.0], []), [], 0.0)
  const W2 := World(Db(map[M := Pair([1.0, 2.0], None, 1, 61.0)], map[(M, 1) := 2.0], [1.0]),
                    [Call(1.0, Some(M), Preset(A))], 1.0)
  /** Both events have been processed, and A is still in flight. */
  const USED := W2.(db := W2.db.(pending := map[]), clock := 3.0)

  lemma MadeGives()
    ensures Next(Start(0.0), CFG, MADE) == W1
  {
    DueEventsAre(M, [1.0, 2.0]);
    assert Next(Start(0.0), CFG, MADE).db.pending == W1.db.pending;
  }

  lemma FirstGives()
    ensures Allowed(W1.db, FIRST) && Next(W1, CFG, FIRST) == W2
  {
    assert Next(W1, CFG, FIRST).db.pending == W2.db.pending;
  }

  lemma SecondGives()
    ensures Allowed(W2.db, SECOND) && Next(W2, CFG, SECOND) == USED
  {
    assert Next(W2, CFG, SECOND).db.pending == USED.db.pending;
  }

  lemma Prepend(w: World, cfg: Config, t: Timed, rest: seq<Timed>)
    requires Allowed(w.db, t) && CanRun(Next(w, cfg, t), cfg, rest)
    ensures CanRun(w, cfg, [t] + rest) && Ran(w, cfg, [t] + rest) == Ran(Next(w, cfg, t), cfg, rest)
  {
    hide Next, Allowed;
    assert ([t] + rest)[1..] == rest;
  }

  /** The two events are used up, from the empty tables. */
  lemma UsedUp(rest: seq<Timed>)
    requires CanRun(USED, CFG, rest)
    ensures CanRun(Start(0.0), CFG, [MADE, FIRST, SECOND] + rest)
    ensures Ran(Start(0.0), CFG, [MADE, FIRST, SECOND] + rest) == Ran(USED, CFG, rest)
  {
    hide Next, CanRun, Ran;
    MadeGives();
    FirstGives();
    SecondGives();
    MadeIsAllowed();
    Prepend(W2, CFG, SECOND, rest);
    Prepend(W1, CFG, FIRST, [SECOND] + rest);
    Prepend(Start(0.0), CFG, MADE, [FIRST] + ([SECOND] + rest));
    assert [MADE, FIRST, SECOND] + rest == [MADE] + ([FIRST] + ([SECOND] + rest));
  }

  lemma MadeIsAllowed()
    ensures Allowed(Start(0.0).db, MADE)
  {
  }

  const LATE := Timed(MotionFinished(R, Some(A), Some(M)), 1.5)
  const ANCHORED := Timed(Anchored(M), 4.0)
  const DONE := Timed(MotionFinished(R, Some(A), Some(M)), 5.0)

  /** ... a finish webhook stamped 1.5 strands B, although it is processed after time 3; */
  lemma LaggingClockStrands()
    ensures CanRun(Start(0.0), CFG, [MADE, FIRST, SECOND, LATE])
    ensures Stranded(Ran(Start(0.0), CFG, [MADE, FIRST, SECOND, LATE]), M)
  {
    Unready(USED, LATE, [1.0, 2.0], None, 61.0);
    hide Next, Allowed, Stranded;
    Prepend(USED, CFG, LATE, []);
    UsedUp([LATE] + []);
    assert [MADE, FIRST, SECOND] + ([LATE] + []) == [MADE, FIRST, SECOND, LATE];
  }

  /** ... and so does re-anchoring it first, with one clock throughout. */
  lemma ReanchoringStrands()
    ensures OneClock(0.0, [MADE, FIRST, SECOND, ANCHORED, DONE])
    ensures CanRun(Start(0.0), CFG, [MADE, FIRST, SECOND, ANCHORED, DONE])
    ensures Stranded(Ran(Start(0.0), CFG, [MADE, FIRST, SECOND, ANCHORED, DONE]), M)
  {
    hide *;
    ClockIsOne();
    var w := Rebased();
    NothingToRun(Next(w, CFG, DONE));
    Prepend(w, CFG, DONE, []);
    Prepend(USED, CFG, ANCHORED, [DONE] + []);
    UsedUp([ANCHORED] + ([DONE] + []));
    assert [MADE, FIRST, SECOND] + ([ANCHORED] + ([DONE] + [])) == [MADE, FIRST, SECOND, ANCHORED, DONE];
  }

  /** The state after re-anchoring, from which A finishes and B is stranded. */
  lemma Rebased() returns (w: World)
    ensures Allowed(USED.db, ANCHORED) && w == Next(USED, CFG, ANCHORED)
    ensures Allowed(w.db, DONE) && Stranded(Next(w, CFG, DONE), M)
  {
    w := Next(USED, CFG, ANCHORED);
    assert w.db.chains[M].due == [5.0, 13.0];
    Unready(w, DONE, [5.0, 13.0], Some(4.0), 64.0);
  }

  lemma NothingToRun(w: World)
    ensures CanRun(w, CFG, []) && Ran(w, CFG, []) == w
  {
  }

  lemma ClockIsOne()
    ensures OneClock(0.0, [MADE, FIRST, SECOND, ANCHORED, DONE])
  {
    var steps := [MADE, FIRST, SECOND, ANCHORED, DONE];
    assert steps[1..] == [FIRST, SECOND, ANCHORED, DONE] && steps[1..][1..] == [SECOND, ANCHORED, DONE];
    assert [SECOND, ANCHORED, DONE][1..] == [ANCHORED, DONE] && [ANCHORED, DONE][1..] == [DONE];
    assert OneClock(DONE.now, []) && OneClock(ANCHORED.now, [DONE]) && OneClock(SECOND.now, [ANCHORED, DONE]);
    assert OneClock(FIRST.now, [SECOND, ANCHORED, DONE]) && OneClock(MADE.now, [FIRST, SECOND, ANCHORED, DONE]);
  }

  /** A finishes, B is not yet due by `t.now`, and nothing is left to send it. */
  lemma Unready(w: World, t: Timed, due: seq<real>, anchor: Option<real>, expiresAt: real)
    requires t.step == MotionFinished(R, Some(A), Some(M))
    requires w.db.chains == map[M := Pair(due, anchor, 1, expiresAt)] && w.db.pending == map[]
    requires |due| == 2 && due[1] > t.now && w.clock < expiresAt && t.now < expiresAt
    ensures Allowed(w.db, t) && Stranded(Next(w, CFG, t), M)
  {
    var e := Expire(w.db, t.now);
    assert e.chains[M] == w.db.chains[M];
    assert AwaitsFinish(e, R, A, M);
    assert FinishCandidates(e, R, Some(A)) == {M};
  }
}
