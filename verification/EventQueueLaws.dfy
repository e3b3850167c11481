/**
  What the event queue keeps over whole runs of its single worker: failures and back-off,
  cancellation, crashes in the middle of an event, and restarts included.
*/
module EventQueueLaws {
  import opened Wrappers
  import opened EventQueue

  datatype Worker = Stopped | Idle | Holding(id: Id)

  /** `born` and `claimed` are when a user message was queued and first claimed, counted in
      steps; `interrupted` is how often its processing was cut short. */
  datatype World = World(
    rows: map<Id, Row>, nextRow: nat, worker: Worker, step: nat,
    born: map<Id, nat>, claimed: map<Id, nat>, interrupted: map<Id, nat>)

  datatype Step =
    | Enqueue(id: Id, kind: EventType, receivedAt: real, now: real)
    | Elsewhere(id: Id, row: Row)         // any other operation, on rows that are not user messages
    | Start(now: real)
    | Claim(now: real, pick: Option<Id>)
    | Succeed
    | Fail(now: real)
    | Cancel(now: real)
    | Crash

  const START := World(map[], 0, Stopped, 0, map[], map[], map[])

  predicate IsUser(r: Row) {
    r.kind == MessageReceived
  }

  ghost predicate CanStep(w: World, s: Step) {
    match s
    case Enqueue(_, _, _, _) => true
    case Elsewhere(id, row) =>
      && !IsUser(row) && row.priority != USER_PRIORITY
      && (id in w.rows ==> !IsUser(w.rows[id]) && row.rowid == w.rows[id].rowid)
      && (id !in w.rows ==> row.rowid == w.nextRow)
    case Start(_) => w.worker.Stopped?
    case Claim(now, pick) => w.worker.Idle? && Claimable(w.rows, now, pick)
    case Succeed => w.worker.Holding?
    case Fail(_) => w.worker.Holding? && w.worker.id in w.rows
    case Cancel(_) => w.worker.Holding?
    case Crash => true
  }

  /** What the worker does with the outcome of an event that failed. */
  function AfterFailure(rows: map<Id, Row>, id: Id, most: nat, delay: real, now: real): map<Id, Row>
    requires id in rows
  {
    if rows[id].attempts >= most then Settled(rows, id, DeadLetter, None)
    else Settled(rows, id, Pending, Some(now + MaxReal(0.0, delay)))
  }

  function Doubled(base: real, times: nat): real {
    if times == 0 then base else 2.0 * Doubled(base, times - 1)
  }

  function Backoff(base: real, attempts: nat): real {
    if attempts == 0 then base / 2.0 else Doubled(base, attempts - 1)
  }

  datatype Config = Config(maxAttempts: nat, retryBase: real)

  function Cut(w: World): map<Id, nat> {
    if w.worker.Holding? && w.worker.id in w.interrupted
    then w.interrupted[w.worker.id := w.interrupted[w.worker.id] + 1] else w.interrupted
  }

  function Next(w: World, cfg: Config, s: Step): World
    requires CanStep(w, s)
  {
    var v := w.(step := w.step + 1);
    match s
    case Enqueue(id, kind, receivedAt, now) =>
      if id in w.rows then v
      else
        v.(rows := Enqueued(w.rows, id, kind, receivedAt, w.nextRow, now), nextRow := w.nextRow + 1,
           born := if kind == MessageReceived then w.born[id := w.step] else w.born,
           interrupted := if kind == MessageReceived then w.interrupted[id := 0] else w.interrupted)
    case Elsewhere(id, row) =>
      v.(rows := w.rows[id := row], nextRow := if id in w.rows then w.nextRow else w.nextRow + 1)
    case Start(now) => v.(rows := Recovered(w.rows, now), worker := Idle)
    case Claim(now, pick) =>
      if pick.None? then v
      else
        v.(rows := Claimed(w.rows, pick.value), worker := Holding(pick.value),
           claimed := if IsUser(w.rows[pick.value]) && pick.value !in w.claimed
                      then w.claimed[pick.value := w.step] else w.claimed)
    case Succeed => v.(rows := Settled(w.rows, w.worker.id, Completed, None), worker := Idle)
    case Fail(now) =>
      v.(rows := AfterFailure(w.rows, w.worker.id, cfg.maxAttempts,
                              Backoff(cfg.retryBase, w.rows[w.worker.id].attempts), now),
         worker := Idle)
    case Cancel(now) =>
      v.(rows := Settled(w.rows, w.worker.id, Pending, Some(now)), worker := Stopped, interrupted := Cut(w))
    case Crash => v.(worker := Stopped, interrupted := Cut(w))
  }

  ghost predicate CanRun(w: World, cfg: Config, steps: seq<Step>)
    decreases |steps|
  {
    steps == [] || (CanStep(w, steps[0]) && CanRun(Next(w, cfg, steps[0]), cfg, steps[1..]))
  }

  ghost function Ran(w: World, cfg: Config, steps: seq<Step>): World
    requires CanRun(w, cfg, steps)
    decreases |steps|
  {
    if steps == [] then w else Ran(Next(w, cfg, steps[0]), cfg, steps[1..])
  }

  // ---- what every run keeps ------------------------------------------------

  ghost predicate TableOk(w: World) {
    && DistinctRows(w.rows)
    && (forall i :: i in w.rows ==> w.rows[i].rowid < w.nextRow)
    && (forall i :: i in w.rows ==> (IsUser(w.rows[i]) <==> w.rows[i].priority == USER_PRIORITY))
    && (w.worker.Holding? ==> w.worker.id in w.rows)
  }

  /** Every user message has a birth, and births follow row order. */
  ghost predicate BirthsOk(w: World) {
    && (forall i :: i in w.born <==> i in w.rows && IsUser(w.rows[i]))
    && (forall i :: i in w.born ==> w.born[i] < w.step)
    && (forall i, j :: i in w.born && j in w.born && w.born[i] < w.born[j] ==>
          w.rows[i].rowid < w.rows[j].rowid)
  }

  ghost predicate ClaimsOk(w: World) {
    && (forall i :: i in w.claimed ==> i in w.born && w.born[i] < w.claimed[i] < w.step)
    && (forall i :: i in w.rows && IsUser(w.rows[i]) && i !in w.claimed ==> w.rows[i].status == Pending)
  }

  /** A user message is being processed exactly when the worker holds it, or is left over from
      a worker that stopped. */
  ghost predicate OneInHand(w: World) {
    forall i :: i in w.rows && IsUser(w.rows[i]) ==>
      && (w.rows[i].status == Processing ==> w.worker.Stopped? || w.worker == Holding(i))
      && (w.worker == Holding(i) ==> w.rows[i].status == Processing)
  }

  /** `a` comes before `b` and was queued before `b` was first claimed. */
  ghost predicate Precedes(w: World, a: Id, b: Id)
    requires a in w.born && b in w.claimed && a in w.rows && b in w.rows
  {
    ArrivedBefore(w.rows[a], w.rows[b]) && w.born[a] < w.claimed[b]
  }

  /** A user message that was claimed found every earlier one, already queued, done. */
  ghost predicate InOrder(w: World) {
    forall a, b :: a in w.born && b in w.claimed && a in w.rows && b in w.rows && Precedes(w, a, b) ==>
      Done(w.rows[a])
  }

  ghost predicate Sound(w: World) {
    TableOk(w) && BirthsOk(w) && ClaimsOk(w) && OneInHand(w) && InOrder(w)
  }

  /** One step changes no user message's place in the order, and undoes no ending. */
  ghost predicate KeepsRows(w: World, v: World) {
    forall i :: i in w.rows && IsUser(w.rows[i]) ==>
      && i in v.rows && v.rows[i].kind == w.rows[i].kind && v.rows[i].priority == w.rows[i].priority
      && v.rows[i].receivedAt == w.rows[i].receivedAt && v.rows[i].rowid == w.rows[i].rowid
      && (Done(w.rows[i]) ==> v.rows[i] == w.rows[i])
  }

  lemma StepKeepsRows(w: World, cfg: Config, s: Step)
    requires Sound(w) && CanStep(w, s)
    ensures KeepsRows(w, Next(w, cfg, s))
  {
    hide InOrder, BirthsOk, ClaimsOk, Backoff, DistinctRows;
    match s
    case Claim(now, pick) =>
      if pick.Some? {
        PickIsPending(w.rows, now, pick.value);
      }
      hide Claimable;
    case _ => hide Claimable;
  }

  lemma PickIsPending(rows: map<Id, Row>, now: real, id: Id)
    requires Claimable(rows, now, Some(id))
    ensures id in rows && rows[id].status == Pending
  {
  }

  /** When a user message is claimed, every user message before it is done. */
  lemma ClaimIsInTurn(w: World, now: real, b: Id, a: Id)
    requires Sound(w) && w.worker.Idle? && Claimable(w.rows, now, Some(b)) && IsUser(w.rows[b])
    requires a in w.rows && IsUser(w.rows[a]) && ArrivedBefore(w.rows[a], w.rows[b])
    ensures Done(w.rows[a])
  {
    hide InOrder, BirthsOk, ClaimsOk;
    if UserWaiting()(w.rows[a]) {
      UserPickIsHead(w.rows, now, b);
      Irreflexive(w.rows[a], w.rows[b]);
    }
  }

  lemma Irreflexive(a: Row, b: Row)
    ensures !(ArrivedBefore(a, b) && ArrivedBefore(b, a))
  {
  }

  lemma UserPickIsHead(rows: map<Id, Row>, now: real, b: Id)
    requires Claimable(rows, now, Some(b)) && b in rows && rows[b].priority == USER_PRIORITY
    requires exists a :: a in rows && UserWaiting()(rows[a])
    ensures First(rows, UserWaiting(), InArrivalOrder(), b)
  {
  }

  /** The step adds a row. */
  predicate Inserts(w: World, s: Step) {
    (s.Enqueue? || s.Elsewhere?) && s.id !in w.rows
  }

  /** The same rows, each with the same place and the same kind of lane. */
  ghost predicate Alike(w: World, v: World) {
    && v.rows.Keys == w.rows.Keys && v.nextRow == w.nextRow && v.born == w.born
    && forall i :: i in w.rows ==>
         && v.rows[i].rowid == w.rows[i].rowid && (IsUser(v.rows[i]) <==> IsUser(w.rows[i]))
         && (IsUser(w.rows[i]) <==> v.rows[i].priority == USER_PRIORITY)
  }

  /** The rows and births after one row was added. */
  ghost predicate OneMore(w: World, v: World, id: Id) {
    && id !in w.rows && id in v.rows && v.rows == w.rows[id := v.rows[id]]
    && v.rows[id].rowid == w.nextRow && v.step == w.step + 1
    && v.born == if IsUser(v.rows[id]) then w.born[id := w.step] else w.born
  }

  lemma StepInserts(w: World, cfg: Config, s: Step)
    requires Sound(w) && CanStep(w, s) && Inserts(w, s)
    ensures var v := Next(w, cfg, s);
      && OneMore(w, v, s.id) && v.worker == w.worker && v.nextRow == w.nextRow + 1 && v.claimed == w.claimed
      && (IsUser(v.rows[s.id]) <==> v.rows[s.id].priority == USER_PRIORITY)
      && (IsUser(v.rows[s.id]) ==> v.rows[s.id].status == Pending)
  {
    hide InOrder, BirthsOk, ClaimsOk, OneInHand, Backoff, DistinctRows, Claimable;
  }

  lemma StepAlike(w: World, cfg: Config, s: Step)
    requires Sound(w) && CanStep(w, s) && !Inserts(w, s)
    ensures Alike(w, Next(w, cfg, s))
  {
    hide InOrder, BirthsOk, ClaimsOk, OneInHand, Backoff, DistinctRows, Claimable;
    if s.Claim? && s.pick.Some? {
      PickIsPending(w.rows, s.now, s.pick.value);
    }
  }

  lemma StepShape(w: World, cfg: Config, s: Step)
    requires Sound(w) && CanStep(w, s)
    ensures var v := Next(w, cfg, s);
      if Inserts(w, s) then
        && s.id in v.rows && v.rows == w.rows[s.id := v.rows[s.id]] && v.worker == w.worker
        && v.rows[s.id].rowid == w.nextRow && v.nextRow == w.nextRow + 1
        && (IsUser(v.rows[s.id]) <==> v.rows[s.id].priority == USER_PRIORITY)
        && v.born == (if IsUser(v.rows[s.id]) then w.born[s.id := w.step] else w.born)
        && v.claimed == w.claimed
        && (IsUser(v.rows[s.id]) ==> v.rows[s.id].status == Pending)
      else Alike(w, v)
  {
    hide Sound, Next, CanStep, Alike, Inserts;
    if Inserts(w, s) {
      StepInserts(w, cfg, s);
    } else {
      StepAlike(w, cfg, s);
    }
  }

  lemma NextTable(w: World, cfg: Config, s: Step)
    requires Sound(w) && CanStep(w, s)
    ensures TableOk(Next(w, cfg, s))
  {
    StepShape(w, cfg, s);
    NextWorker(w, cfg, s);
    hide InOrder, BirthsOk, ClaimsOk, OneInHand, Next, CanStep;
  }

  lemma NextWorker(w: World, cfg: Config, s: Step)
    requires Sound(w) && CanStep(w, s)
    ensures var v := Next(w, cfg, s); v.worker.Holding? ==> v.worker.id in v.rows
  {
    hide InOrder, BirthsOk, ClaimsOk, OneInHand, Backoff, DistinctRows;
    match s
    case Claim(now, pick) =>
      if pick.Some? {
        PickIsPending(w.rows, now, pick.value);
      }
      hide Claimable;
    case _ => hide Claimable;
  }

  lemma NextBirths(w: World, cfg: Config, s: Step)
    requires Sound(w) && CanStep(w, s)
    ensures BirthsOk(Next(w, cfg, s))
  {
    var v := Next(w, cfg, s);
    StepShape(w, cfg, s);
    assert v.step == w.step + 1;
    hide InOrder, ClaimsOk, OneInHand, Next, CanStep, DistinctRows;
    if Inserts(w, s) {
      BirthsInserted(w, v, s.id);
    } else {
      BirthsAlike(w, v);
    }
  }

  lemma BirthsAlike(w: World, v: World)
    requires BirthsOk(w) && Alike(w, v) && v.step == w.step + 1
    ensures BirthsOk(v)
  {
  }

  lemma BirthsInserted(w: World, v: World, id: Id)
    requires BirthsOk(w) && TableOk(w) && OneMore(w, v, id)
    ensures BirthsOk(v)
  {
    BirthDomain(w, v, id);
    hide TableOk, OneMore;
    forall i, j | i in v.born && j in v.born && v.born[i] < v.born[j]
      ensures v.rows[i].rowid < v.rows[j].rowid
    {
      BirthPair(w, v, id, i, j);
    }
  }

  lemma BirthDomain(w: World, v: World, id: Id)
    requires BirthsOk(w) && OneMore(w, v, id)
    ensures forall i :: i in v.born <==> i in v.rows && IsUser(v.rows[i])
    ensures forall i :: i in v.born ==> v.born[i] < v.step
  {
  }

  lemma BirthPair(w: World, v: World, id: Id, i: Id, j: Id)
    requires BirthsOk(w) && TableOk(w) && OneMore(w, v, id)
    requires i in v.born && j in v.born && v.born[i] < v.born[j]
    ensures i in v.rows && j in v.rows && v.rows[i].rowid < v.rows[j].rowid
  {
    hide DistinctRows;
    assert j != id ==> v.born[j] < w.step;
  }

  /** A first claim is stamped with its step; nothing else touches the stamps. */
  lemma StepClaims(w: World, cfg: Config, s: Step)
    requires Sound(w) && CanStep(w, s)
    ensures var v := Next(w, cfg, s);
      v.claimed == w.claimed
      || (s.Claim? && s.pick.Some? && s.pick.value in w.born && s.pick.value !in w.claimed
          && v.claimed == w.claimed[s.pick.value := w.step])
  {
    hide InOrder, ClaimsOk, OneInHand, Backoff, DistinctRows;
    match s
    case Claim(now, pick) =>
      if pick.Some? {
        PickIsPending(w.rows, now, pick.value);
      }
      hide Claimable;
    case _ => hide Claimable;
  }

  /** A user message not yet claimed stays pending until it is. */
  lemma StepPending(w: World, cfg: Config, s: Step, i: Id)
    requires Sound(w) && CanStep(w, s)
    requires i in w.rows && IsUser(w.rows[i]) && w.rows[i].status == Pending
    ensures var v := Next(w, cfg, s);
      i in v.rows && (v.rows[i].status == Pending || (s.Claim? && s.pick == Some(i)))
    ensures s.Claim? && s.pick == Some(i) ==> i in Next(w, cfg, s).claimed
  {
    hide InOrder, ClaimsOk, OneInHand, Backoff, DistinctRows;
    match s
    case Claim(now, pick) =>
      if pick.Some? {
        PickIsPending(w.rows, now, pick.value);
      }
      hide Claimable;
    case _ => hide Claimable;
  }

  lemma NextClaims(w: World, cfg: Config, s: Step)
    requires Sound(w) && CanStep(w, s)
    ensures ClaimsOk(Next(w, cfg, s))
  {
    var v := Next(w, cfg, s);
    StampsOk(w, cfg, s);
    forall i | i in v.rows && IsUser(v.rows[i]) && i !in v.claimed ensures v.rows[i].status == Pending {
      UnclaimedIsPending(w, cfg, s, i);
    }
    hide Next, CanStep, Sound;
  }

  lemma StampsOk(w: World, cfg: Config, s: Step)
    requires Sound(w) && CanStep(w, s)
    ensures var v := Next(w, cfg, s);
      forall i :: i in v.claimed ==> i in v.born && v.born[i] < v.claimed[i] < v.step
  {
    hide InOrder, OneInHand, TableOk, BirthsOk, Next, CanStep;
    BirthsGrow(w, cfg, s);
    StepClaims(w, cfg, s);
    StepCounts(w, cfg, s);
  }

  lemma StepCounts(w: World, cfg: Config, s: Step)
    requires CanStep(w, s)
    ensures Next(w, cfg, s).step == w.step + 1
  {
    hide Enqueued, Recovered, Claimed, Settled, AfterFailure, Cut, CanStep;
  }

  /** No birth is forgotten or changed. */
  lemma BirthsGrow(w: World, cfg: Config, s: Step)
    requires Sound(w) && CanStep(w, s)
    ensures forall i :: i in w.born ==> i in Next(w, cfg, s).born && Next(w, cfg, s).born[i] == w.born[i]
    ensures forall i :: i in w.born ==> w.born[i] < w.step
  {
    hide InOrder, OneInHand, TableOk, ClaimsOk, Next, CanStep;
    StepShape(w, cfg, s);
  }

  lemma UnclaimedIsPending(w: World, cfg: Config, s: Step, i: Id)
    requires Sound(w) && CanStep(w, s)
    requires var v := Next(w, cfg, s); i in v.rows && IsUser(v.rows[i]) && i !in v.claimed
    ensures Next(w, cfg, s).rows[i].status == Pending
  {
    StepShape(w, cfg, s);
    StepClaims(w, cfg, s);
    if i in w.rows {
      if IsUser(w.rows[i]) && w.rows[i].status == Pending {
        StepPending(w, cfg, s, i);
      }
    }
    hide InOrder, OneInHand, Next, CanStep, DistinctRows;
  }

  lemma NextInHand(w: World, cfg: Config, s: Step)
    requires Sound(w) && CanStep(w, s)
    ensures OneInHand(Next(w, cfg, s))
  {
    hide InOrder, Backoff, DistinctRows, BirthsOk, ClaimsOk;
    match s
    case Claim(now, pick) =>
      if pick.Some? {
        PickIsPending(w.rows, now, pick.value);
      }
      hide Claimable;
    case _ => hide Claimable;
  }

  lemma NextInOrder(w: World, cfg: Config, s: Step)
    requires Sound(w) && CanStep(w, s)
    ensures InOrder(Next(w, cfg, s))
  {
    var v := Next(w, cfg, s);
    StepShape(w, cfg, s);
    StepClaims(w, cfg, s);
    StepKeepsRows(w, cfg, s);
    forall a, b | a in v.born && b in v.claimed && a in v.rows && b in v.rows && Precedes(v, a, b)
      ensures Done(v.rows[a])
    {
      NextPair(w, cfg, s, a, b);
    }
  }

  lemma NextPair(w: World, cfg: Config, s: Step, a: Id, b: Id)
    requires Sound(w) && CanStep(w, s)
    requires var v := Next(w, cfg, s);
      a in v.born && b in v.claimed && a in v.rows && b in v.rows && Precedes(v, a, b)
    ensures Done(Next(w, cfg, s).rows[a])
  {
    BothOld(w, cfg, s, a, b);
    StepKeepsRows(w, cfg, s);
    if b in w.claimed {
      hide Next, CanStep, OneInHand, TableOk, Done, BirthsOk, ClaimsOk;
      assert Precedes(w, a, b);
    } else {
      hide Next, OneInHand, BirthsOk, ClaimsOk, InOrder, Done;
      ClaimIsIdle(w, s);
      hide CanStep;
      ClaimIsInTurn(w, s.now, b, a);
    }
  }

  /** A pair in order after the step is a pair of user messages of before, in the same order. */
  lemma BothOld(w: World, cfg: Config, s: Step, a: Id, b: Id)
    requires Sound(w) && CanStep(w, s)
    requires var v := Next(w, cfg, s);
      a in v.born && b in v.claimed && a in v.rows && b in v.rows && Precedes(v, a, b)
    ensures a in w.rows && b in w.rows && a in w.born && b in w.born && IsUser(w.rows[a]) && IsUser(w.rows[b])
    ensures ArrivedBefore(w.rows[a], w.rows[b])
    ensures if b in w.claimed then w.born[a] < w.claimed[b] else s.Claim? && s.pick == Some(b)
  {
    ClaimStamp(w, cfg, s, b);
    BornBefore(w, cfg, s, a);
    StepKeepsRows(w, cfg, s);
    assert a in w.rows && b in w.rows && IsUser(w.rows[a]) && IsUser(w.rows[b]) by {
      hide Next, CanStep;
    }
    hide Next, CanStep, Sound, Done;
  }

  lemma ClaimStamp(w: World, cfg: Config, s: Step, b: Id)
    requires Sound(w) && CanStep(w, s) && b in Next(w, cfg, s).claimed
    ensures var v := Next(w, cfg, s);
      && b in w.born && v.claimed[b] <= w.step
      && if b in w.claimed then v.claimed[b] == w.claimed[b] else s.Claim? && s.pick == Some(b)
  {
    StepClaims(w, cfg, s);
    hide Next, CanStep, OneInHand, TableOk, InOrder, BirthsOk;
  }

  lemma BornBefore(w: World, cfg: Config, s: Step, a: Id)
    requires Sound(w) && CanStep(w, s) && a in Next(w, cfg, s).born && Next(w, cfg, s).born[a] < w.step
    ensures a in w.born && Next(w, cfg, s).born[a] == w.born[a]
  {
    StepShape(w, cfg, s);
    hide Next, CanStep, OneInHand, TableOk, InOrder, ClaimsOk;
  }

  lemma ClaimIsIdle(w: World, s: Step)
    requires CanStep(w, s) && s.Claim?
    ensures w.worker.Idle? && Claimable(w.rows, s.now, s.pick)
  {
  }

  lemma NextSound(w: World, cfg: Config, s: Step)
    requires Sound(w) && CanStep(w, s)
    ensures Sound(Next(w, cfg, s))
  {
    NextTable(w, cfg, s);
    NextBirths(w, cfg, s);
    NextClaims(w, cfg, s);
    NextInHand(w, cfg, s);
    NextInOrder(w, cfg, s);
    hide TableOk, BirthsOk, ClaimsOk, OneInHand, InOrder, Next, CanStep;
  }

  lemma StartSound()
    ensures Sound(START)
  {
  }

  /** Over every run: a user message that was ever claimed found all those before it, already
      queued at that moment, completed or dead-lettered. */
  lemma {:induction false} RunSound(w: World, cfg: Config, steps: seq<Step>)
    requires Sound(w) && CanRun(w, cfg, steps)
    ensures Sound(Ran(w, cfg, steps)) && InOrder(Ran(w, cfg, steps))
    decreases |steps|
  {
    assert InOrder(w);
    hide Sound, Next, CanStep, InOrder;
    if steps != [] {
      NextSound(w, cfg, steps[0]);
      RunSound(Next(w, cfg, steps[0]), cfg, steps[1..]);
    }
  }

  /** When messages are stamped in the order they are queued, they are taken strictly in that
      order: nobody is claimed before all those queued earlier are done. */
  lemma StrictlyInOrder(w: World, cfg: Config, steps: seq<Step>, a: Id, b: Id)
    requires Sound(w) && CanRun(w, cfg, steps)
    requires var v := Ran(w, cfg, steps);
      && a in v.born && b in v.born && v.born[a] < v.born[b] && b in v.claimed
      && a in v.rows && b in v.rows && v.rows[a].receivedAt <= v.rows[b].receivedAt
    ensures Done(Ran(w, cfg, steps).rows[a])
  {
    hide CanRun, Ran;
    RunSound(w, cfg, steps);
    var v := Ran(w, cfg, steps);
    assert Precedes(v, a, b);
  }

  /** Done is for good. */
  lemma {:induction false} DoneStaysDone(w: World, cfg: Config, steps: seq<Step>, i: Id)
    requires Sound(w) && CanRun(w, cfg, steps) && i in w.rows && IsUser(w.rows[i]) && Done(w.rows[i])
    ensures i in Ran(w, cfg, steps).rows && Ran(w, cfg, steps).rows[i] == w.rows[i]
    decreases |steps|
  {
    hide Sound, Next, CanStep;
    if steps != [] {
      NextSound(w, cfg, steps[0]);
      StepKeepsRows(w, cfg, steps[0]);
      DoneStaysDone(Next(w, cfg, steps[0]), cfg, steps[1..], i);
    }
  }

  // ---- attempts ------------------------------------------------------------

  /** User message `i` was tried at most as often as configured, plus once for each time its
      processing was cut short; and with a try to spare unless it is in hand or done. */
  ghost predicate TryOk(w: World, most: nat, i: Id)
    requires i in w.rows
  {
    && i in w.interrupted
    && w.rows[i].attempts <= most + w.interrupted[i]
    && (!Done(w.rows[i]) && w.worker != Holding(i) ==> w.rows[i].attempts < most + w.interrupted[i])
  }

  ghost predicate TriesBounded(w: World, most: nat) {
    forall i :: i in w.rows && IsUser(w.rows[i]) ==> TryOk(w, most, i)
  }

  /** A claim counts an attempt, and only of a message with one to spare. */
  lemma ClaimTry(w: World, cfg: Config, now: real, pick: Option<Id>, i: Id)
    requires Sound(w) && CanStep(w, Claim(now, pick))
    requires i in w.rows && IsUser(w.rows[i]) && TryOk(w, cfg.maxAttempts, i)
    ensures i in Next(w, cfg, Claim(now, pick)).rows && TryOk(Next(w, cfg, Claim(now, pick)), cfg.maxAttempts, i)
  {
    hide InOrder, DistinctRows, BirthsOk, ClaimsOk;
    if pick.Some? {
      PickIsPending(w.rows, now, pick.value);
    }
    hide Claimable;
  }

  lemma NextTry(w: World, cfg: Config, s: Step, i: Id)
    requires Sound(w) && CanStep(w, s) && cfg.maxAttempts >= 1 && TriesBounded(w, cfg.maxAttempts)
    requires i in Next(w, cfg, s).rows && IsUser(Next(w, cfg, s).rows[i])
    ensures TryOk(Next(w, cfg, s), cfg.maxAttempts, i)
  {
    hide InOrder, Backoff, DistinctRows, BirthsOk, ClaimsOk, TriesBounded, Claimable;
    if i in w.rows && IsUser(w.rows[i]) {
      UserTry(w, cfg.maxAttempts, i);
      if s.Claim? {
        ClaimTry(w, cfg, s.now, s.pick, i);
      }
    } else if s.Claim? {
      ClaimKeepsKinds(w, cfg, s.now, s.pick, i);
    }
  }

  lemma ClaimKeepsKinds(w: World, cfg: Config, now: real, pick: Option<Id>, i: Id)
    requires CanStep(w, Claim(now, pick)) && i in Next(w, cfg, Claim(now, pick)).rows
    ensures i in w.rows && w.rows[i].kind == Next(w, cfg, Claim(now, pick)).rows[i].kind
  {
    if pick.Some? {
      PickIsPending(w.rows, now, pick.value);
    }
    hide Claimable;
  }

  lemma UserTry(w: World, most: nat, i: Id)
    requires TriesBounded(w, most) && i in w.rows && IsUser(w.rows[i])
    ensures TryOk(w, most, i)
  {
  }

  lemma NextTries(w: World, cfg: Config, s: Step)
    requires Sound(w) && CanStep(w, s) && cfg.maxAttempts >= 1 && TriesBounded(w, cfg.maxAttempts)
    ensures TriesBounded(Next(w, cfg, s), cfg.maxAttempts)
  {
    hide Sound, Next, CanStep, TryOk;
    var v := Next(w, cfg, s);
    forall i | i in v.rows && IsUser(v.rows[i]) ensures TryOk(v, cfg.maxAttempts, i) {
      NextTry(w, cfg, s, i);
    }
  }

  lemma {:induction false} RunTries(w: World, cfg: Config, steps: seq<Step>)
    requires Sound(w) && CanRun(w, cfg, steps) && cfg.maxAttempts >= 1
    requires TriesBounded(w, cfg.maxAttempts)
    ensures TriesBounded(Ran(w, cfg, steps), cfg.maxAttempts)
    decreases |steps|
  {
    hide Sound, Next, CanStep, TriesBounded;
    if steps != [] {
      NextSound(w, cfg, steps[0]);
      NextTries(w, cfg, steps[0]);
      RunTries(Next(w, cfg, steps[0]), cfg, steps[1..]);
    }
  }

  // ---- back-off and restart ------------------------------------------------

  /** Nothing is claimed before it is available. */
  lemma ClaimIsOnTime(rows: map<Id, Row>, now: real, id: Id)
    requires Claimable(rows, now, Some(id))
    ensures id in rows && rows[id].availableAt <= now
  {
  }

  /** No claim is made as late as `due`. */
  predicate ClaimsBefore(steps: seq<Step>, due: real) {
    forall i :: 0 <= i < |steps| && steps[i].Claim? ==> steps[i].now < due
  }

  lemma StepLeavesWaiting(w: World, cfg: Config, s: Step, i: Id)
    requires Sound(w) && CanStep(w, s) && i in w.rows && IsUser(w.rows[i]) && w.rows[i].status == Pending
    requires s.Claim? ==> s.now < w.rows[i].availableAt
    ensures i in Next(w, cfg, s).rows && Next(w, cfg, s).rows[i] == w.rows[i]
  {
    hide InOrder, ClaimsOk, BirthsOk, Backoff, DistinctRows;
    match s
    case Claim(now, pick) =>
      if pick.Some? {
        ClaimIsOnTime(w.rows, now, pick.value);
      }
      hide Claimable;
    case _ => hide Claimable;
  }

  /** A user message that is not yet available stays exactly as it is, whatever else happens:
      restarts, crashes and all the other work included. */
  lemma {:induction false} WaitingIsKept(w: World, cfg: Config, steps: seq<Step>, i: Id)
    requires Sound(w) && CanRun(w, cfg, steps)
    requires i in w.rows && IsUser(w.rows[i]) && w.rows[i].status == Pending
    requires ClaimsBefore(steps, w.rows[i].availableAt)
    ensures i in Ran(w, cfg, steps).rows && Ran(w, cfg, steps).rows[i] == w.rows[i]
    decreases |steps|
  {
    hide Sound, Next, CanStep;
    if steps != [] {
      NextSound(w, cfg, steps[0]);
      StepLeavesWaiting(w, cfg, steps[0], i);
      WaitingIsKept(Next(w, cfg, steps[0]), cfg, steps[1..], i);
    }
  }

  /** A user message that failed with attempts to spare is not tried again before its back-off,
      which doubles with every attempt, is over. */
  lemma BackoffIsKept(w: World, cfg: Config, now: real, steps: seq<Step>)
    requires Sound(w) && w.worker.Holding? && CanStep(w, Fail(now))
    requires var r := w.rows[w.worker.id];
      && IsUser(r) && r.attempts < cfg.maxAttempts && cfg.retryBase >= 0.0
      && CanRun(Next(w, cfg, Fail(now)), cfg, steps)
      && ClaimsBefore(steps, now + Backoff(cfg.retryBase, r.attempts))
    ensures var id := w.worker.id;
      && id in Ran(Next(w, cfg, Fail(now)), cfg, steps).rows
      && Ran(Next(w, cfg, Fail(now)), cfg, steps).rows[id] == w.rows[id].(
           status := Pending, availableAt := now + Backoff(cfg.retryBase, w.rows[id].attempts))
  {
    var id := w.worker.id;
    BackoffGrows(cfg.retryBase, w.rows[id].attempts);
    NextSound(w, cfg, Fail(now));
    var v := Next(w, cfg, Fail(now));
    assert v.rows[id] == w.rows[id].(
      status := Pending, availableAt := now + Backoff(cfg.retryBase, w.rows[id].attempts)) by {
      hide InOrder, ClaimsOk, BirthsOk, Backoff, DistinctRows;
    }
    hide Next, CanStep, Sound;
    WaitingIsKept(v, cfg, steps, id);
  }

  lemma {:induction false} DoubledGrows(base: real, times: nat)
    requires base >= 0.0
    ensures Doubled(base, times) >= base
  {
    if times > 0 {
      DoubledGrows(base, times - 1);
    }
  }

  lemma BackoffGrows(base: real, attempts: nat)
    requires base >= 0.0
    ensures Backoff(base, attempts) >= 0.0 && Backoff(base, attempts + 1) == 2.0 * Backoff(base, attempts)
  {
    if attempts > 0 {
      DoubledGrows(base, attempts - 1);
    }
  }

  /** The first of the user messages that are not done. */
  ghost predicate FirstUndone(rows: map<Id, Row>, a: Id) {
    && a in rows && IsUser(rows[a]) && !Done(rows[a])
    && forall b :: b in rows && IsUser(rows[b]) && !Done(rows[b]) && b != a ==> ArrivedBefore(rows[a], rows[b])
  }

  /** A crash and a restart lose no user message: what was done stays done, everything else waits
      with its attempts counted, and the first of it is what the worker takes next. */
  lemma RestartResumes(w: World, cfg: Config, now: real, later: real, a: Id, pick: Option<Id>)
    requires Sound(w) && FirstUndone(w.rows, a)
    requires var v := Next(Next(w, cfg, Crash), cfg, Start(now));
      && NoneReady(v.rows, AckReady(later)) && CanStep(v, Claim(later, pick))
    requires later >= if w.rows[a].status == Processing then now else w.rows[a].availableAt
    ensures Next(Next(w, cfg, Crash), cfg, Start(now)).worker == Idle
    ensures pick == Some(a)
    ensures var v := Next(Next(w, cfg, Crash), cfg, Start(now));
      forall i :: i in w.rows && IsUser(w.rows[i]) ==>
        && i in v.rows && v.rows[i].attempts == w.rows[i].attempts
        && (if Done(w.rows[i]) then v.rows[i] == w.rows[i] else v.rows[i].status == Pending)
  {
    hide InOrder, ClaimsOk, BirthsOk, OneInHand;
    var v := Next(Next(w, cfg, Crash), cfg, Start(now));
    assert v.rows == Recovered(w.rows, now);
    RecoveredLane(w.rows, now, a);
    assert UserWaiting()(v.rows[a]);
    hide Recovered;
    HeadIsTaken(v.rows, later, a, pick);
  }

  lemma RecoveredLane(rows: map<Id, Row>, now: real, a: Id)
    requires FirstUndone(rows, a)
    requires forall i :: i in rows ==> (IsUser(rows[i]) <==> rows[i].priority == USER_PRIORITY)
    ensures First(Recovered(rows, now), UserWaiting(), InArrivalOrder(), a)
  {
    hide DistinctRows;
    var after := Recovered(rows, now);
    forall j | j in after && j != a && UserWaiting()(after[j]) ensures InArrivalOrder()(after[a], after[j]) {
      assert IsUser(rows[j]) && !Done(rows[j]);
    }
  }

  lemma HeadIsTaken(rows: map<Id, Row>, now: real, a: Id, pick: Option<Id>)
    requires First(rows, UserWaiting(), InArrivalOrder(), a) && rows[a].availableAt <= now
    requires NoneReady(rows, AckReady(now)) && Claimable(rows, now, pick)
    ensures pick == Some(a)
  {
    assert UserWaiting()(rows[a]);
    assert !NoneReady(rows, UserWaiting());
    var head :|
      && First(rows, UserWaiting(), InArrivalOrder(), head)
      && pick == if rows[head].availableAt > now then None else Some(head);
    if head != a {
      Irreflexive(rows[a], rows[head]);
    }
  }

  // ---- from the empty queue ------------------------------------------------

  /** Over every run from the empty queue: whoever was claimed found everybody before it, queued by
      then, done; and nobody was tried more often than allowed. */
  lemma FromTheStart(cfg: Config, steps: seq<Step>)
    requires CanRun(START, cfg, steps) && cfg.maxAttempts >= 1
    ensures InOrder(Ran(START, cfg, steps)) && TriesBounded(Ran(START, cfg, steps), cfg.maxAttempts)
  {
    StartSound();
    assert TriesBounded(START, cfg.maxAttempts);
    hide Sound, InOrder, TriesBounded, CanRun, Ran;
    RunSound(START, cfg, steps);
    RunTries(START, cfg, steps);
  }

  // ---- one attempt ---------------------------------------------------------

  /** A claim takes one row and counts an attempt; it ends with the row completed, or on failure
      pending again after the back-off, or dead-lettered when no attempt is left; a cancelled one is
      pending again at once.  No other row is touched. */
  lemma AttemptIsCounted(w: World, cfg: Config, now: real, id: Id, later: real)
    requires Sound(w) && CanStep(w, Claim(now, Some(id))) && cfg.retryBase >= 0.0
    ensures id in w.rows
    ensures var v, r := Next(w, cfg, Claim(now, Some(id))), w.rows[id];
      && v.worker == Holding(id) && v.rows == w.rows[id := r.(status := Processing, attempts := r.attempts + 1)]
      && CanStep(v, Succeed) && Next(v, cfg, Succeed).rows == v.rows[id := v.rows[id].(status := Completed)]
      && CanStep(v, Fail(later))
      && Next(v, cfg, Fail(later)).rows == v.rows[id :=
           if r.attempts + 1 >= cfg.maxAttempts then v.rows[id].(status := DeadLetter)
           else v.rows[id].(status := Pending, availableAt := later + Backoff(cfg.retryBase, r.attempts + 1))]
      && CanStep(v, Cancel(later))
      && Next(v, cfg, Cancel(later)).rows == v.rows[id := v.rows[id].(status := Pending, availableAt := later)]
      && Next(v, cfg, Cancel(later)).worker == Stopped
  {
    hide InOrder, DistinctRows, BirthsOk, ClaimsOk, OneInHand, Backoff;
    PickIsPending(w.rows, now, id);
    BackoffGrows(cfg.retryBase, w.rows[id].attempts + 1);
    hide Claimable;
  }

  predicate Uninterrupted(steps: seq<Step>) {
    forall i :: 0 <= i < |steps| ==> !steps[i].Cancel? && !steps[i].Crash?
  }

  ghost predicate NeverCut(w: World) {
    forall i :: i in w.interrupted ==> w.interrupted[i] == 0
  }

  lemma {:induction false} RunNeverCut(w: World, cfg: Config, steps: seq<Step>)
    requires Sound(w) && CanRun(w, cfg, steps) && NeverCut(w) && Uninterrupted(steps)
    ensures NeverCut(Ran(w, cfg, steps))
    decreases |steps|
  {
    if steps != [] {
      NextSound(w, cfg, steps[0]);
      StepNeverCut(w, cfg, steps[0]);
      hide Sound, Next, CanStep, NeverCut;
      RunNeverCut(Next(w, cfg, steps[0]), cfg, steps[1..]);
    }
  }

  lemma StepNeverCut(w: World, cfg: Config, s: Step)
    requires CanStep(w, s) && NeverCut(w) && !s.Cancel? && !s.Crash?
    ensures NeverCut(Next(w, cfg, s))
  {
    hide Enqueued, Recovered, Claimed, Settled, AfterFailure, Claimable;
  }

  /** From the empty queue, as long as nothing is cancelled and nothing crashes, no user message is
      tried more often than configured; */
  lemma UninterruptedTries(cfg: Config, steps: seq<Step>, i: Id)
    requires CanRun(START, cfg, steps) && cfg.maxAttempts >= 1 && Uninterrupted(steps)
    requires i in Ran(START, cfg, steps).rows && IsUser(Ran(START, cfg, steps).rows[i])
    ensures Ran(START, cfg, steps).rows[i].attempts <= cfg.maxAttempts
  {
    StartSound();
    assert TriesBounded(START, cfg.maxAttempts) && NeverCut(START);
    hide Sound, CanRun, Ran;
    RunNeverCut(START, cfg, steps);
    RunTries(START, cfg, steps);
  }

  /** and each interruption of its processing allows it one more try. */
  lemma InterruptionIsCounted(w: World, cfg: Config, now: real)
    requires Sound(w) && w.worker.Holding? && w.worker.id in w.interrupted
    ensures forall s :: s in {Cancel(now), Crash} ==>
      Next(w, cfg, s).interrupted == w.interrupted[w.worker.id := w.interrupted[w.worker.id] + 1]
  {
    hide Sound, Settled;
  }
}
