/**
  When a motion goes out, and what becomes of its chain, said on the rows and the log alone: which
  chain hears a webhook, which of its motions is sent, and when it ends.
*/
module MotionDispatch {
  import opened Wrappers
  import opened MotionChains
  import opened MotionChainLaws

  // ---- the slots -----------------------------------------------------------

  /** Fewer than the limit of the reserved slots are less than a minute old. */
  ghost predicate HasSlot(db: Db, cfg: Config, now: real) {
    |set i: nat | i < |db.budget| && db.budget[i] > now - 60.0| < cfg.limit
  }

  lemma {:induction false} AfterCounts(times: seq<real>, cutoff: real)
    ensures |After(times, cutoff)| == |set i: nat | i < |times| && times[i] > cutoff|
  {
    var all := set i: nat | i < |times| && times[i] > cutoff;
    if times == [] {
      assert all == {};
    } else {
      var last := |times| - 1;
      var rest := times[..last];
      AfterCounts(rest, cutoff);
      AfterConcat(rest, [times[last]], cutoff);
      assert rest + [times[last]] == times;
      assert After([times[last]], cutoff) == if times[last] > cutoff then [times[last]] else [];
      var before := set i: nat | i < |rest| && rest[i] > cutoff;
      assert all == if times[last] > cutoff then before + {last} else before;
    }
  }

  lemma SlotIsReserved(db: Db, cfg: Config, now: real)
    ensures HasSlot(db, cfg, now) <==> Reserved(db, cfg, now)
  {
    AfterCounts(db.budget, now - 60.0);
    hide After;
    assert (set i: nat | i < |db.budget| && db.budget[i] > now - 60.0)
        == (set i: nat | i < |db.budget| && db.budget[i] > now - 60.0);
  }

  lemma {:induction false} WithinCounts(times: seq<real>, now: real)
    requires forall i :: 0 <= i < |times| ==> times[i] <= now
    ensures CallsWithin(times, now) == |After(times, now - 60.0)|
  {
    if times != [] {
      var last := |times| - 1;
      WithinCounts(times[..last], now);
      AfterConcat(times[..last], [times[last]], now - 60.0);
      assert times[..last] + [times[last]] == times;
      assert After([times[last]], now - 60.0) == if times[last] > now - 60.0 then [times[last]] else [];
    }
  }

  /** Although rows are pruned, there is a slot exactly when fewer calls than the limit were made
      in the last minute. */
  lemma SlotIff(w: World, cfg: Config, now: real)
    requires BudgetOk(w, cfg) && w.clock <= now
    ensures HasSlot(w.db, cfg, now) <==> CallsWithin(Times(w.log), now) < cfg.limit
  {
    SlotIsReserved(w.db, cfg, now);
    var times := Times(w.log);
    var cutoff: real :| cutoff <= w.clock - 60.0 && w.db.budget == After(times, cutoff);
    AfterTwice(times, cutoff, now - 60.0);
    WithinCounts(times, now);
  }

  // ---- who hears a webhook -------------------------------------------------

  /** A chain of this room whose time is not up and whose talk has not ended. */
  predicate Talking(db: Db, room: Name, now: real, id: Id) {
    && id in db.chains && db.chains[id].room == room && db.chains[id].status == Active
    && db.chains[id].expiresAt > now && !db.chains[id].talkFinished
  }

  /** The end of a talk is heard by one chain that still waits for it, if there is any: by one that
      spoke the text that was heard if one did, and among those by the one created last. */
  lemma TalkIsHeardBy(db: Db, t: Timed)
    requires t.step.TalkFinished? && Allowed(db, t)
    ensures var p, room, spoken := t.step.pick, t.step.room, t.step.spoken;
      && (p.None? <==> forall j :: !Talking(db, room, t.now, j))
      && (p.Some? ==>
            && Talking(db, room, t.now, p.value)
            && forall j :: Talking(db, room, t.now, j) ==>
                 && (j in spoken ==> p.value in spoken)
                 && ((p.value in spoken ==> j in spoken) ==> db.chains[j].createdAt <= db.chains[p.value].createdAt))
  {
    var e, room := Expire(db, t.now), t.step.room;
    var all := set id | id in e.chains && AwaitsTalk(e, room, id);
    forall j ensures j in all <==> Talking(db, room, t.now, j) {
      if j in db.chains {
        assert e.chains[j] == ExpireChain(db.chains[j], t.now);
      }
    }
    var among := TalkCandidates(e, room, t.step.spoken);
    assert among == if all * t.step.spoken != {} then all * t.step.spoken else all;
    assert among != {} ==> exists j :: j in among;
    if t.step.pick.Some? {
      var p := t.step.pick.value;
      forall j | Talking(db, room, t.now, j)
        ensures j in t.step.spoken ==> p in t.step.spoken
        ensures (p in t.step.spoken ==> j in t.step.spoken) ==> db.chains[j].createdAt <= db.chains[p].createdAt
      {
        assert j in t.step.spoken ==> j in all * t.step.spoken;
        assert e.chains[j] == db.chains[j] && e.chains[p] == db.chains[p];
      }
    }
  }

  /** A chain of this room whose time is not up and whose preset in flight is called `kind`. */
  predicate Playing(db: Db, room: Name, kind: Option<Name>, now: real, id: Id) {
    && id in db.chains && db.chains[id].room == room && db.chains[id].status == Active
    && db.chains[id].expiresAt > now
    && var c := db.chains[id];
       && c.finished < c.sent && c.finished < |c.motions| && c.finished < |c.kinds|
       && c.motions[c.finished].Preset? && kind.Some? && c.kinds[c.finished] == kind
  }

  /** The end of a motion is heard by the chain created last of those that have it in flight. */
  lemma FinishIsHeardBy(db: Db, t: Timed)
    requires t.step.MotionFinished? && Allowed(db, t)
    ensures var p, room, kind := t.step.pick, t.step.room, t.step.kind;
      && (p.None? <==> forall j :: !Playing(db, room, kind, t.now, j))
      && (p.Some? ==>
            && Playing(db, room, kind, t.now, p.value)
            && forall j :: Playing(db, room, kind, t.now, j) ==>
                 db.chains[j].createdAt <= db.chains[p.value].createdAt)
  {
    var e, room, kind := Expire(db, t.now), t.step.room, t.step.kind;
    var all := FinishCandidates(e, room, kind);
    forall j ensures j in all <==> Playing(db, room, kind, t.now, j) {
      if j in db.chains {
        assert e.chains[j] == ExpireChain(db.chains[j], t.now);
      }
    }
    assert all != {} ==> exists j :: j in all;
    forall j | j in all ensures e.chains[j] == db.chains[j] {
      assert e.chains[j] == ExpireChain(db.chains[j], t.now);
    }
  }

  // ---- what is sent --------------------------------------------------------

  /** The step asks for the next motion of chain `id`: its due event comes up while the chain rests
      before it; the motion in flight ends, and either the talk is over or the next is due; or the
      talk ends while nothing is in flight. */
  predicate Asks(db: Db, t: Timed, id: Id) {
    && id in db.chains
    && var c := db.chains[id];
       && c.sent < |c.motions| && |c.due| == |c.motions|
       && match t.step
          case DueProcessed(i, k) =>
            i == id && c.status == Active && c.expiresAt > t.now && k == c.sent == c.finished && c.due[k] <= t.now
          case CustomDelivered(i) =>
            && i == id && c.status == Active && c.expiresAt > t.now
            && c.sent == c.finished + 1 && c.motions[c.finished].Document?
            && (c.talkFinished || c.due[c.sent] <= t.now)
          case MotionFinished(_, _, pick) =>
            pick == Some(id) && c.sent == c.finished + 1 && (c.talkFinished || c.due[c.sent] <= t.now)
          case TalkFinished(_, _, pick) => pick == Some(id) && c.sent == c.finished
          case _ => false
  }

  /** The step confirms that the motion in flight of chain `id` has ended. */
  predicate Confirms(db: Db, t: Timed, id: Id) {
    && id in db.chains
    && var c := db.chains[id];
       match t.step
       case CustomDelivered(i) =>
         && i == id && c.status == Active && c.expiresAt > t.now
         && c.sent == c.finished + 1 && c.finished < |c.motions| && c.motions[c.finished].Document?
       case MotionFinished(_, _, pick) => pick == Some(id)
       case _ => false
  }

  /** The step gives up chain `id`: by name, with all others, or because its time is up. */
  predicate GivesUp(db: Db, t: Timed, id: Id) {
    && id in db.chains && db.chains[id].status == Active
    && match t.step
       case Dropped(i) => i == id
       case Restarted => true
       case Expired | MotionFinished(_, _, _) | TalkFinished(_, _, _) => db.chains[id].expiresAt <= t.now
       case _ => false
  }

  /** The row of chain `id` after a step other than its anchoring: each column changes exactly when
      the step sends, confirms, hears or gives up. */
  function RowAfter(db: Db, cfg: Config, t: Timed, id: Id, free: bool): Chain
    requires id in db.chains
  {
    var c := db.chains[id];
    var asks, confirms := Asks(db, t, id), Confirms(db, t, id);
    c.(sent := c.sent + if asks && free then 1 else 0,
       finished := c.finished + if confirms then 1 else 0,
       talkFinished := c.talkFinished || (t.step.TalkFinished? && t.step.pick == Some(id)),
       status := if (asks && !free) || GivesUp(db, t, id) then Abandoned
                 else if confirms && c.finished + 1 == |c.motions| then Completed
                 else c.status,
       expiresAt := if (asks && free) || (confirms && t.step.CustomDelivered?) then t.now + cfg.timeout
                    else c.expiresAt)
  }

  ghost predicate Outcome(db: Db, cfg: Config, t: Timed, id: Id, n: Db, d: Option<Dispatch>)
    requires id in db.chains
  {
    var c, free := db.chains[id], Reserved(db, cfg, t.now);
    && id in n.chains && n.chains[id] == RowAfter(db, cfg, t, id, free)
    && (if Asks(db, t, id) && free then d == Some(Dispatch(id, c.motions[c.sent]))
        else d.None? || t.step.Standalone? || d.value.source != id)
  }

  lemma ClaimSends(db: Db, cfg: Config, id: Id, now: real)
    requires id in db.chains && Resting(db.chains[id])
    ensures var n, d, c := Claim(db, cfg, id, now), Claimed(db, cfg, id, now), db.chains[id];
      && n.chains == (if Reserved(db, cfg, now)
                      then db.chains[id := c.(sent := c.sent + 1, expiresAt := now + cfg.timeout)]
                      else db.chains[id := c.(status := Abandoned)])
      && d == if Reserved(db, cfg, now) then Some(Dispatch(id, c.motions[c.sent])) else None
  {
    hide After;
  }

  lemma DueOutcome(db: Db, cfg: Config, t: Timed, id: Id)
    requires RowsOk(db) && t.step.DueProcessed? && id in db.chains
    ensures var (n, d) := ProcessDue(db, cfg, t.step.id, t.step.k, t.now); Outcome(db, cfg, t, id, n, d)
  {
    hide Claim, Claimed, PendingOk, Pruned;
    var i, k := t.step.id, t.step.k;
    assert ChainOk(db.chains[id]);
    var taken := db.(pending := db.pending - {(i, k)});
    if DueNow(db, i, k, t.now) {
      assert ChainOk(db.chains[i]);
      ClaimSends(taken, cfg, i, t.now);
    }
  }

  lemma CustomOne(db: Db, cfg: Config, t: Timed, id: Id)
    requires t.step == CustomDelivered(id) && id in db.chains && ChainOk(db.chains[id])
    ensures var (n, d) := CompleteCustom(db, cfg, id, t.now);
      && Outcome(db, cfg, t, id, n, d)
      && n.chains == db.chains[id := n.chains[id]] && (d.Some? ==> d.value.source == id)
  {
    hide Claim, Claimed, Pruned;
    var c := db.chains[id];
    var done := c.(finished := c.finished + 1, expiresAt := t.now + cfg.timeout);
    assert db.chains == db.chains[id := c];
    if Resting(done) {
      ClaimSends(Put(db, id, done), cfg, id, t.now);
    }
  }

  lemma CustomOutcome(db: Db, cfg: Config, t: Timed, id: Id)
    requires RowsOk(db) && t.step.CustomDelivered? && id in db.chains
    ensures var (n, d) := CompleteCustom(db, cfg, t.step.id, t.now); Outcome(db, cfg, t, id, n, d)
  {
    assert ChainOk(db.chains[id]);
    if t.step.id in db.chains {
      assert ChainOk(db.chains[t.step.id]);
      CustomOne(db, cfg, t, t.step.id);
      hide CompleteCustom;
    }
    hide PendingOk, Pruned, ChainOk;
  }

  /** What the end of a motion does to the chain that hears it. */
  lemma FinishOne(e: Db, cfg: Config, t: Timed, id: Id)
    requires t.step.MotionFinished? && t.step.pick == Some(id)
    requires id in e.chains && ChainOk(e.chains[id]) && e.chains[id].expiresAt > t.now
    requires e.chains[id].status == Active && e.chains[id].finished < e.chains[id].sent
    ensures var (n, d) := Finish(e, cfg, Some(id), t.now);
      && Outcome(e, cfg, t, id, n, d)
      && n.chains == e.chains[id := n.chains[id]] && (d.Some? ==> d.value.source == id)
  {
    hide Claim, Claimed, Pruned;
    var c := e.chains[id];
    var done := c.(finished := c.finished + 1);
    if Resting(done) {
      ClaimSends(Put(e, id, done), cfg, id, t.now);
    }
  }

  /** What the end of the talk does to it. */
  lemma TalkOne(e: Db, cfg: Config, t: Timed, id: Id)
    requires t.step.TalkFinished? && t.step.pick == Some(id)
    requires id in e.chains && ChainOk(e.chains[id]) && e.chains[id].expiresAt > t.now
    requires e.chains[id].status == Active
    ensures var (n, d) := Talk(e, cfg, Some(id), t.now);
      && Outcome(e, cfg, t, id, n, d)
      && n.chains == e.chains[id := n.chains[id]] && (d.Some? ==> d.value.source == id)
  {
    hide Claim, Claimed, Pruned;
    var c := e.chains[id];
    var done := c.(talkFinished := true);
    if Resting(done) {
      ClaimSends(Put(e, id, done), cfg, id, t.now);
    }
  }

  lemma NobodyHears(db: Db, cfg: Config, now: real)
    ensures Finish(db, cfg, None, now) == (db, None) && Talk(db, cfg, None, now) == (db, None)
  {
  }

  lemma ExpireRows(db: Db, now: real)
    ensures var e := Expire(db, now);
      && e.budget == db.budget && e.chains.Keys == db.chains.Keys
      && forall j :: j in db.chains ==> e.chains[j] == ExpireChain(db.chains[j], now)
  {
  }

  /** Chains whose time is up are given up first, whoever hears the webhook. */
  lemma HeardOutcome(db: Db, e: Db, cfg: Config, t: Timed, pick: Option<Id>, id: Id, n: Db, d: Option<Dispatch>)
    requires (t.step.MotionFinished? || t.step.TalkFinished?) && t.step.pick == pick && e.budget == db.budget
    requires e.chains.Keys == db.chains.Keys && id in db.chains
    requires forall j :: j in db.chains ==> e.chains[j] == ExpireChain(db.chains[j], t.now)
    requires if pick.None? then (n, d) == (e, None) else
      && pick.value in db.chains && db.chains[pick.value].expiresAt > t.now
      && Outcome(e, cfg, t, pick.value, n, d)
      && n.chains == e.chains[pick.value := n.chains[pick.value]] && (d.Some? ==> d.value.source == pick.value)
    ensures Outcome(db, cfg, t, id, n, d)
  {
    assert Reserved(e, cfg, t.now) == Reserved(db, cfg, t.now);
    if pick == Some(id) {
      assert e.chains[id] == db.chains[id];
      RowDecides(db, e, cfg, t, id);
    } else {
      NotPicked(db, cfg, t, id);
    }
    hide Reserved, RowAfter, Asks, ExpireChain;
  }

  lemma RowDecides(db: Db, e: Db, cfg: Config, t: Timed, id: Id)
    requires id in db.chains && id in e.chains && e.chains[id] == db.chains[id]
    ensures Asks(e, t, id) == Asks(db, t, id)
    ensures forall free: bool :: RowAfter(e, cfg, t, id, free) == RowAfter(db, cfg, t, id, free)
  {
  }

  lemma NotPicked(db: Db, cfg: Config, t: Timed, id: Id)
    requires (t.step.MotionFinished? || t.step.TalkFinished?) && t.step.pick != Some(id) && id in db.chains
    ensures !Asks(db, t, id)
    ensures forall free: bool :: RowAfter(db, cfg, t, id, free) == ExpireChain(db.chains[id], t.now)
  {
  }

  lemma FinishOutcome(db: Db, cfg: Config, t: Timed, id: Id)
    requires RowsOk(db) && Allowed(db, t) && id in db.chains && t.step.MotionFinished?
    ensures var (n, d) := Apply(db, cfg, t); Outcome(db, cfg, t, id, n, d)
  {
    hide Finish, Expire, RowsOk, Latest, FinishCandidates, Outcome;
    var e, pick := Expire(db, t.now), t.step.pick;
    ExpireRows(db, t.now);
    NobodyHears(e, cfg, t.now);
    FinishIsHeardBy(db, t);
    if pick.Some? {
      RowIsOk(db, pick.value);
      FinishOne(e, cfg, t, pick.value);
    }
    hide ChainOk;
    HeardOutcome(db, e, cfg, t, pick, id, Apply(db, cfg, t).0, Apply(db, cfg, t).1);
  }

  lemma RowIsOk(db: Db, id: Id)
    requires RowsOk(db) && id in db.chains
    ensures ChainOk(db.chains[id])
  {
  }

  lemma TalkOutcome(db: Db, cfg: Config, t: Timed, id: Id)
    requires RowsOk(db) && Allowed(db, t) && id in db.chains && t.step.TalkFinished?
    ensures var (n, d) := Apply(db, cfg, t); Outcome(db, cfg, t, id, n, d)
  {
    hide Talk, Expire, RowsOk, Latest, TalkCandidates, Outcome;
    var e, pick := Expire(db, t.now), t.step.pick;
    ExpireRows(db, t.now);
    NobodyHears(e, cfg, t.now);
    TalkIsHeardBy(db, t);
    if pick.Some? {
      RowIsOk(db, pick.value);
      TalkOne(e, cfg, t, pick.value);
    }
    hide ChainOk;
    HeardOutcome(db, e, cfg, t, pick, id, Apply(db, cfg, t).0, Apply(db, cfg, t).1);
  }

  lemma OtherOutcome(db: Db, cfg: Config, t: Timed, id: Id)
    requires RowsOk(db) && Allowed(db, t) && id in db.chains && t.step != Anchored(id)
    requires !t.step.DueProcessed? && !t.step.CustomDelivered? && !t.step.MotionFinished? && !t.step.TalkFinished?
    ensures var (n, d) := Apply(db, cfg, t); Outcome(db, cfg, t, id, n, d)
  {
    hide DueEvents, PendingOk, ChainOk;
  }

  lemma StepOutcome(db: Db, cfg: Config, t: Timed, id: Id)
    requires RowsOk(db) && Allowed(db, t) && id in db.chains && t.step != Anchored(id)
    ensures var (n, d) := Apply(db, cfg, t); Outcome(db, cfg, t, id, n, d)
  {
    hide Outcome, RowsOk, ProcessDue, CompleteCustom, Talk, Finish, Anchor, Restart;
    match t.step
    case DueProcessed(_, _) => DueOutcome(db, cfg, t, id);
    case CustomDelivered(_) => CustomOutcome(db, cfg, t, id);
    case MotionFinished(_, _, _) => FinishOutcome(db, cfg, t, id);
    case TalkFinished(_, _, _) => TalkOutcome(db, cfg, t, id);
    case _ => OtherOutcome(db, cfg, t, id);
  }

  /** A step sends the next motion of a chain exactly when it asks for it and there is a slot, and
      nothing else of it ever; without a slot the chain is abandoned. */
  lemma SendsExactlyWhen(w: World, cfg: Config, t: Timed, id: Id)
    requires Faithful(w) && Allowed(w.db, t) && id in w.db.chains
    ensures var c, n := w.db.chains[id], Next(w, cfg, t);
      && id in n.db.chains
      && Sent(n.log, id) == (if Asks(w.db, t, id) && HasSlot(w.db, cfg, t.now)
                             then Sent(w.log, id) + [c.motions[c.sent]] else Sent(w.log, id))
      && (t.step != Anchored(id) ==> n.db.chains[id] == RowAfter(w.db, cfg, t, id, HasSlot(w.db, cfg, t.now)))
  {
    SlotIsReserved(w.db, cfg, t.now);
    var (n, d) := Apply(w.db, cfg, t);
    SentPush(w.log, t, d, id);
    if t.step == Anchored(id) {
      AnchorSendsNothing(w.db, cfg, t, id);
    } else {
      StepOutcome(w.db, cfg, t, id);
      StandaloneAsks(w.db, t, id);
    }
    hide Apply, RowsOk, Sent, Allowed, CallsOf, HasSlot, Reserved, Asks, RowAfter;
  }

  lemma AnchorSendsNothing(db: Db, cfg: Config, t: Timed, id: Id)
    requires t.step == Anchored(id) && id in db.chains
    ensures var (n, d) := Apply(db, cfg, t); id in n.chains && d.None? && !Asks(db, t, id)
  {
  }

  lemma StandaloneAsks(db: Db, t: Timed, id: Id)
    ensures t.step.Standalone? ==> !Asks(db, t, id)
  {
  }

  // ---- cues ----------------------------------------------------------------

  /** A chain is created once, with one cue for each motion at the time it is due. */
  lemma NewChainIsCued(db: Db, cfg: Config, t: Timed)
    requires t.step.Ensured? && Allowed(db, t)
    ensures var n, id := Apply(db, cfg, t).0, t.step.id;
      if id in db.chains then n == db
      else
        && id in n.chains
        && n.chains[id] == Chain(t.step.room, t.step.motions, t.step.kinds, t.step.due, t.step.offsets, None,
                                 0, 0, false, Active, t.now + cfg.timeout, t.now)
        && (forall j :: j in db.chains ==> j in n.chains && n.chains[j] == db.chains[j])
        && (forall k: nat :: k < |t.step.motions| ==>
              (id, k) in n.pending && n.pending[(id, k)] == t.step.due[k])
        && (forall e: (Id, nat) :: e in n.pending ==> e in db.pending || (e.0 == id && e.1 < |t.step.motions|))
        && (forall e: (Id, nat) :: e in db.pending && e.0 != id ==> e in n.pending && n.pending[e] == db.pending[e])
  {
    DueEventsAre(t.step.id, t.step.due);
    hide DueEvents;
    var id := t.step.id;
    forall k: nat | k < |t.step.motions| ensures (id, k) in DueEvents(id, t.step.due) {
    }
  }

  /** The first time a message is heard to play, the motions of its active chain become due at their
      distances from that moment; a second time changes nothing. */
  lemma AnchorMovesDue(db: Db, cfg: Config, t: Timed)
    requires t.step.Anchored? && RowsOk(db)
    ensures var n, id := Apply(db, cfg, t).0, t.step.id;
      if id in db.chains && db.chains[id].status == Active && db.chains[id].anchoredAt.None? then
        var c := db.chains[id];
        && id in n.chains && n.chains[id].anchoredAt == Some(t.now)
        && n.chains[id].(due := c.due, anchoredAt := None, expiresAt := c.expiresAt) == c
        && |n.chains[id].due| == |c.due|
        && n.chains.Keys == db.chains.Keys
        && (forall j :: j in db.chains && j != id ==> n.chains[j] == db.chains[j])
        && (c.offsets == [] ==> n.chains[id].due == c.due && n.chains[id].expiresAt == c.expiresAt)
        && (c.offsets != [] ==>
              && n.chains[id].expiresAt == t.now + cfg.timeout
              && forall k :: 0 <= k < |c.due| ==> n.chains[id].due[k] == t.now + c.offsets[k])
      else n == db
  {
    if t.step.id in db.chains {
      assert ChainOk(db.chains[t.step.id]);
    }
    hide PendingOk;
  }

  /** The cues still waiting move with them. */
  lemma AnchorMovesCues(db: Db, cfg: Config, t: Timed)
    requires t.step.Anchored? && RowsOk(db)
    ensures var n, id := Apply(db, cfg, t).0, t.step.id;
      var moves := id in db.chains && db.chains[id].status == Active && db.chains[id].anchoredAt.None?
                   && db.chains[id].offsets != [];
      && n.pending.Keys == db.pending.Keys
      && forall e :: e in db.pending ==>
           n.pending[e] == if moves && e.0 == id then t.now + db.chains[id].offsets[e.1] else db.pending[e]
  {
    if t.step.id in db.chains {
      assert ChainOk(db.chains[t.step.id]);
    }
    forall e | e in db.pending ensures e.0 in db.chains && e.1 < |db.chains[e.0].due| {
      assert (e.0, e.1) in db.pending;
    }
    hide ChainOk, PendingOk;
  }

  /** A cue goes by being processed or at a restart, and is moved only by being put back or when its
      message is heard; the finishing of motions and of talks leaves every cue alone. */
  lemma CuesStay(db: Db, cfg: Config, t: Timed)
    requires Allowed(db, t) && !t.step.Ensured? && !t.step.Anchored?
    ensures Apply(db, cfg, t).0.pending ==
      match t.step
      case DueProcessed(id, k) => db.pending - {(id, k)}
      case DueRetried(id, k, at) => db.pending[(id, k) := at]
      case Restarted => map[]
      case _ => db.pending
  {
    hide Claim, After;
    forall m: Db, id | id in m.chains {
      ClaimKeepsCues(m, cfg, id, t.now);
    }
  }

  lemma ClaimKeepsCues(db: Db, cfg: Config, id: Id, now: real)
    requires id in db.chains
    ensures Claim(db, cfg, id, now).pending == db.pending
  {
  }
}
