/**
  The motion-chain tables: chains of one to three motions, their `motion.due` events, and the
  shared per-minute call budget.

  `Db` is the content of the three tables, and one function per operation says what that
  operation's transaction leaves behind.  `EventDatabase` is the object that performs them.
*/
module MotionChains {
  import opened Wrappers

  /** Request ids, rooms and motion names are only ever compared for equality. */
  type Name = nat

  type Id = Name

  /** A chain entry: a preset finishes by webhook, a document the bridge sends finishes when
      its delivery is confirmed. */
  datatype Motion = Preset(uuid: Name) | Document(token: Name)

  datatype Status = Active | Completed | Abandoned

  datatype Chain = Chain(
    room: Name,
    motions: seq<Motion>,
    kinds: seq<Option<Name>>,
    due: seq<real>,
    offsets: seq<real>,
    anchoredAt: Option<real>,
    sent: nat,
    finished: nat,
    talkFinished: bool,
    status: Status,
    expiresAt: real,
    createdAt: real)

  /** What is remembered of a message that was sent: the text, by its hash, and the moment it was
      seen to start playing. */
  datatype Observation = Observation(room: Name, text: Name, sentAt: real, anchoredAt: Option<real>)

  /** `pending` holds the `motion.due` events not yet processed, with their availability. */
  datatype Db = Db(
    chains: map<Id, Chain>,
    pending: map<(Id, nat), real>,
    budget: seq<real>)

  datatype Config = Config(timeout: real, limit: nat)

  datatype Dispatch = Dispatch(source: Id, motion: Motion)

  const EMPTY := Db(map[], map[], [])

  // ---- the budget ----------------------------------------------------------

  /** The entries of `times` later than `cutoff`. */
  function After(times: seq<real>, cutoff: real): seq<real> {
    if times == [] then []
    else if times[0] > cutoff then [times[0]] + After(times[1..], cutoff)
    else After(times[1..], cutoff)
  }

  function Pruned(budget: seq<real>, now: real): seq<real> {
    After(budget, now - 60.0)
  }

  function Reserved(db: Db, cfg: Config, now: real): bool {
    |Pruned(db.budget, now)| < cfg.limit
  }

  function AfterReserve(db: Db, cfg: Config, now: real): Db {
    var recent := Pruned(db.budget, now);
    db.(budget := if |recent| < cfg.limit then recent + [now] else recent)
  }

  // ---- the operations ------------------------------------------------------

  predicate Live(db: Db, id: Id, now: real) {
    id in db.chains && db.chains[id].status == Active && db.chains[id].expiresAt > now
  }

  /** The state of `c` between two motions: everything sent has finished. */
  predicate Resting(c: Chain) {
    c.status == Active && c.sent == c.finished < |c.motions|
  }

  function Put(db: Db, id: Id, c: Chain): Db {
    db.(chains := db.chains[id := c])
  }

  /** Take a budget slot and send the next motion, or abandon the chain. */
  function Claim(db: Db, cfg: Config, id: Id, now: real): Db
    requires id in db.chains
  {
    var c := db.chains[id];
    var paid := AfterReserve(db, cfg, now);
    if !Reserved(db, cfg, now) then Put(paid, id, c.(status := Abandoned))
    else if c.sent >= |c.motions| then db.(budget := Pruned(db.budget, now))
    else if c.status == Active then
      Put(paid, id, c.(sent := c.sent + 1, expiresAt := now + cfg.timeout))
    else paid
  }

  function Claimed(db: Db, cfg: Config, id: Id, now: real): Option<Dispatch>
    requires id in db.chains
  {
    var c := db.chains[id];
    if Reserved(db, cfg, now) && c.sent < |c.motions| then Some(Dispatch(id, c.motions[c.sent]))
    else None
  }

  /** Send the next motion of a chain at rest, if the rest may end now. */
  function Advance(db: Db, cfg: Config, id: Id, ready: bool, now: real): (Db, Option<Dispatch>)
    requires id in db.chains
  {
    if ready then (Claim(db, cfg, id, now), Claimed(db, cfg, id, now)) else (db, None)
  }

  /** One pending event per motion, available when the motion is due. */
  function DueEvents(id: Id, due: seq<real>): map<(Id, nat), real> {
    if due == [] then map[]
    else
      var last := |due| - 1;
      DueEvents(id, due[..last])[(id, last) := due[last]]
  }

  lemma {:induction false} DueEventsAre(id: Id, due: seq<real>)
    ensures forall e: (Id, nat) :: e in DueEvents(id, due) <==> e.0 == id && e.1 < |due|
    ensures forall k: nat :: k < |due| ==> DueEvents(id, due)[(id, k)] == due[k]
  {
    if due != [] {
      DueEventsAre(id, due[..|due| - 1]);
    }
  }

  function Ensure(
    db: Db, cfg: Config, id: Id, room: Name, motions: seq<Motion>, kinds: seq<Option<Name>>,
    due: seq<real>, offsets: seq<real>, now: real): Db
  {
    if id in db.chains then db
    else
      Put(db, id, Chain(room, motions, kinds, due, offsets, None, 0, 0, false, Active,
                        now + cfg.timeout, now))
      .(pending := db.pending + DueEvents(id, due))
  }

  predicate DueNow(db: Db, id: Id, k: nat, now: real) {
    && Live(db, id, now)
    && k == db.chains[id].sent == db.chains[id].finished
    && k < |db.chains[id].due|
    && db.chains[id].due[k] <= now
  }

  /** The worker processes due event `k` of chain `id`; the event is then no longer pending. */
  function ProcessDue(db: Db, cfg: Config, id: Id, k: nat, now: real): (Db, Option<Dispatch>) {
    var taken := db.(pending := db.pending - {(id, k)});
    if DueNow(db, id, k, now) then Advance(taken, cfg, id, true, now) else (taken, None)
  }

  predicate Ready(c: Chain, now: real) {
    c.talkFinished || (c.sent < |c.due| && c.due[c.sent] <= now)
  }

  /** A document motion was delivered: it counts as finished, and its successor may follow. */
  function CompleteCustom(db: Db, cfg: Config, id: Id, now: real): (Db, Option<Dispatch>) {
    if !Live(db, id, now) then (db, None)
    else
      var c := db.chains[id];
      if c.sent != c.finished + 1 || c.finished >= |c.motions| || c.motions[c.finished].Preset?
      then (db, None)
      else
        var done := c.(finished := c.finished + 1, expiresAt := now + cfg.timeout);
        if done.finished >= |c.motions| then (Put(db, id, done.(status := Completed)), None)
        else Advance(Put(db, id, done), cfg, id, Ready(done, now), now)
  }

  function ExpireChain(c: Chain, now: real): Chain {
    if c.status == Active && c.expiresAt <= now then c.(status := Abandoned) else c
  }

  function Expire(db: Db, now: real): Db {
    db.(chains := map id | id in db.chains :: ExpireChain(db.chains[id], now))
  }

  predicate AwaitsTalk(db: Db, room: Name, id: Id) {
    id in db.chains && db.chains[id].room == room && db.chains[id].status == Active
    && !db.chains[id].talkFinished
  }

  predicate AwaitsFinish(db: Db, room: Name, kind: Name, id: Id) {
    && id in db.chains && db.chains[id].room == room && db.chains[id].status == Active
    && db.chains[id].finished < db.chains[id].sent
    && db.chains[id].finished < |db.chains[id].motions|
    && db.chains[id].motions[db.chains[id].finished].Preset?
    && db.chains[id].finished < |db.chains[id].kinds|
    && db.chains[id].kinds[db.chains[id].finished] == Some(kind)
  }

  /** `pick` is a most recently created member of `among`, or `None` when there is none. */
  predicate Latest(db: Db, among: set<Id>, pick: Option<Id>)
    requires among <= db.chains.Keys
  {
    match pick
    case None => among == {}
    case Some(id) =>
      id in among && forall j :: j in among ==> db.chains[j].createdAt <= db.chains[id].createdAt
  }

  function TalkCandidates(db: Db, room: Name, spoken: set<Id>): set<Id> {
    var all := set id | id in db.chains && AwaitsTalk(db, room, id);
    if all * spoken != {} then all * spoken else all
  }

  function FinishCandidates(db: Db, room: Name, kind: Option<Name>): set<Id> {
    if kind.None? then {}
    else set id | id in db.chains && AwaitsFinish(db, room, kind.value, id)
  }

  /** `emo_talk.finished`, heard by chain `pick`. */
  function Talk(db: Db, cfg: Config, pick: Option<Id>, now: real): (Db, Option<Dispatch>)
    requires pick.Some? ==> pick.value in db.chains
  {
    if pick.None? then (db, None)
    else
      var c := db.chains[pick.value].(talkFinished := true);
      var heard := Put(db, pick.value, c);
      if c.finished != c.sent then (heard, None)
      else if c.sent >= |c.motions| then (Put(db, pick.value, c.(status := Completed)), None)
      else Advance(heard, cfg, pick.value, true, now)
  }

  /** `motion.finished`, ending the motion in flight of chain `pick`. */
  function Finish(db: Db, cfg: Config, pick: Option<Id>, now: real): (Db, Option<Dispatch>)
    requires pick.Some? ==> pick.value in db.chains
  {
    if pick.None? then (db, None)
    else
      var c := db.chains[pick.value];
      var done := c.(finished := c.finished + 1);
      if done.finished >= |c.motions| then (Put(db, pick.value, done.(status := Completed)), None)
      else
        Advance(Put(db, pick.value, done), cfg, pick.value,
                done.finished == done.sent && Ready(done, now), now)
  }

  /** The reply's message started playing at `now`: due times are counted from there instead. */
  function Anchor(db: Db, cfg: Config, id: Id, now: real): Db {
    if id !in db.chains || db.chains[id].status != Active || db.chains[id].anchoredAt.Some? then db
    else
      var c := db.chains[id];
      if |c.offsets| != |c.motions| then Put(db, id, c.(anchoredAt := Some(now)))
      else
        var due := seq(|c.offsets|, k requires 0 <= k < |c.offsets| => now + c.offsets[k]);
        Put(db, id, c.(due := due, anchoredAt := Some(now), expiresAt := now + cfg.timeout))
        .(pending := map e | e in db.pending ::
            if e.0 == id && e.1 < |due| then due[e.1] else db.pending[e])
  }

  function AbandonOne(db: Db, id: Id): Db {
    if id in db.chains && db.chains[id].status == Active
    then Put(db, id, db.chains[id].(status := Abandoned)) else db
  }

  /** A restart abandons every active chain and drops every due event. */
  function Restart(db: Db): Db {
    db.(chains := map id | id in db.chains ::
          if db.chains[id].status == Active then db.chains[id].(status := Abandoned)
          else db.chains[id],
        pending := map[])
  }

  // ---- the object ----------------------------------------------------------

  class EventDatabase {
    var chains: map<Id, Chain>
    var pending: map<(Id, nat), real>
    var budget: seq<real>
    var observations: map<Id, Observation>

    ghost function Abs(): Db
      reads this
    {
      Db(chains, pending, budget)
    }

    constructor ()
      ensures Abs() == EMPTY && observations == map[]
    {
      chains, pending, budget, observations := map[], map[], [], map[];
    }

    /** A message was sent; its first sending is the one that is remembered. */
    method Observe(id: Id, room: Name, text: Name, now: real)
      modifies this`observations
      ensures observations == if id in old(observations) then old(observations)
                              else old(observations)[id := Observation(room, text, now, None)]
    {
      if id !in observations {
        observations := observations[id := Observation(room, text, now, None)];
      }
    }

    /** Delete the slots of more than a minute ago. */
    method PruneBudget(now: real)
      modifies this`budget
      ensures budget == Pruned(old(budget), now)
    {
      var kept, i := [], 0;
      while i < |budget|
        invariant i <= |budget|
        invariant Pruned(budget, now) == kept + Pruned(budget[i..], now)
      {
        if budget[i] > now - 60.0 {
          kept := kept + [budget[i]];
        }
        i := i + 1;
      }
      budget := kept;
    }

    method ReserveMotionBudgetSlot(cfg: Config, now: real) returns (ok: bool)
      modifies this`budget
      ensures ok == Reserved(old(Abs()), cfg, now)
      ensures Abs() == AfterReserve(old(Abs()), cfg, now)
    {
      PruneBudget(now);
      if |budget| >= cfg.limit {
        return false;
      }
      budget := budget + [now];
      return true;
    }

    method ReserveAndClaimMotion(cfg: Config, id: Id, now: real) returns (r: Option<Dispatch>)
      requires id in chains
      modifies this`budget, this`chains
      ensures Abs() == Claim(old(Abs()), cfg, id, now)
      ensures r == Claimed(old(Abs()), cfg, id, now)
    {
      PruneBudget(now);
      var row := chains[id];
      if |budget| >= cfg.limit {
        chains := chains[id := row.(status := Abandoned)];
        return None;
      }
      if row.sent >= |row.motions| {
        return None;
      }
      budget := budget + [now];
      if row.status == Active {
        chains := chains[id := row.(sent := row.sent + 1, expiresAt := now + cfg.timeout)];
      }
      return Some(Dispatch(id, row.motions[row.sent]));
    }

    method EnsureMotionChain(
      cfg: Config, id: Id, room: Name, motions: seq<Motion>, kinds: seq<Option<Name>>,
      due: seq<real>, offsets: seq<real>, now: real)
      modifies this`chains, this`pending
      ensures Abs() == Ensure(old(Abs()), cfg, id, room, motions, kinds, due, offsets, now)
    {
      if id in chains {
        return;
      }
      chains := chains[id := Chain(room, motions, kinds, due, offsets, None, 0, 0, false, Active,
                                   now + cfg.timeout, now)];
      ghost var before, rows := pending, chains;
      for index := 0 to |due|
        invariant chains == rows
        invariant pending == before + DueEvents(id, due[..index])
      {
        assert due[..index + 1][..index] == due[..index];
        pending := pending[(id, index) := due[index]];
      }
      assert due[..|due|] == due;
    }

    /** `_process_motion_due`: the worker holds event `(id, k)` and completes it. */
    method DispatchDueMotion(cfg: Config, id: Id, k: nat, now: real) returns (r: Option<Dispatch>)
      modifies this`budget, this`chains, this`pending
      ensures (Abs(), r) == ProcessDue(old(Abs()), cfg, id, k, now)
    {
      pending := pending - {(id, k)};
      if id !in chains || chains[id].status != Active || chains[id].expiresAt <= now {
        return None;
      }
      var row := chains[id];
      if k != row.sent || row.sent != row.finished {
        return None;
      }
      if k >= |row.due| || row.due[k] > now {
        return None;
      }
      r := ReserveAndClaimMotion(cfg, id, now);
    }

    method CompleteCustomMotion(cfg: Config, id: Id, now: real) returns (r: Option<Dispatch>)
      modifies this`budget, this`chains
      ensures (Abs(), r) == CompleteCustom(old(Abs()), cfg, id, now)
    {
      if id !in chains || chains[id].status != Active || chains[id].expiresAt <= now {
        return None;
      }
      var row := chains[id];
      if row.sent != row.finished + 1 {
        return None;
      }
      if row.finished >= |row.motions| || row.motions[row.finished].Preset? {
        return None;
      }
      var finished := row.finished + 1;
      if finished >= |row.motions| {
        chains := chains[id := row.(finished := finished, expiresAt := now + cfg.timeout,
                                    status := Completed)];
        return None;
      }
      chains := chains[id := row.(finished := finished, expiresAt := now + cfg.timeout)];
      var nextIsDue := row.sent < |row.due| && row.due[row.sent] <= now;
      if row.talkFinished || nextIsDue {
        r := ReserveAndClaimMotion(cfg, id, now);
        return;
      }
      return None;
    }

    method AbandonExpired(now: real)
      modifies this`chains
      ensures Abs() == Expire(old(Abs()), now)
    {
      chains := map id | id in chains :: ExpireChain(chains[id], now);
    }

    /** `SELECT ... ORDER BY created_at DESC LIMIT 1` over the rows in `among`. */
    method SelectLatest(among: set<Id>) returns (pick: Option<Id>)
      requires among <= chains.Keys
      ensures pick.Some? ==> pick.value in chains
      ensures Latest(Abs(), among, pick)
    {
      pick := None;
      var todo := among;
      ghost var seen := {};
      while todo != {}
        invariant seen + todo == among
        invariant pick.Some? ==> pick.value in chains
        invariant Latest(Abs(), seen, pick)
        decreases |todo|
      {
        var id :| id in todo;
        todo, seen := todo - {id}, seen + {id};
        if pick.None? || chains[pick.value].createdAt < chains[id].createdAt {
          pick := Some(id);
        }
      }
    }

    /** The chain a talk webhook belongs to: by its recorded text, else the latest. */
    method SelectTalking(room: Name, spoken: set<Id>) returns (pick: Option<Id>)
      ensures pick.Some? ==> pick.value in chains
      ensures Latest(Abs(), TalkCandidates(Abs(), room, spoken), pick)
    {
      var all := set id | id in chains && chains[id].room == room && chains[id].status == Active
                                       && !chains[id].talkFinished;
      assert all == set id | id in Abs().chains && AwaitsTalk(Abs(), room, id);
      pick := SelectLatest(all * spoken);
      if pick.None? {
        pick := SelectLatest(all);
      }
    }

    /** The chain whose preset in flight is called `kind`. */
    method SelectFinishing(room: Name, kind: Option<Name>) returns (pick: Option<Id>)
      ensures pick.Some? ==> pick.value in chains
      ensures Latest(Abs(), FinishCandidates(Abs(), room, kind), pick)
    {
      var candidates: set<Id> := {};
      if kind.Some? {
        candidates := set id | id in chains && chains[id].room == room
          && chains[id].status == Active && chains[id].finished < chains[id].sent
          && chains[id].finished < |chains[id].motions|
          && chains[id].motions[chains[id].finished].Preset?
          && chains[id].finished < |chains[id].kinds|
          && chains[id].kinds[chains[id].finished] == kind;
      }
      assert candidates == FinishCandidates(Abs(), room, kind);
      pick := SelectLatest(candidates);
    }

    /** The messages with this text. */
    method SpokenBy(text: Option<Name>) returns (spoken: set<Id>)
      ensures spoken == set id | id in observations && Some(observations[id].text) == text
    {
      spoken := {};
      if text.Some? {
        spoken := set id | id in observations && observations[id].text == text.value;
      }
    }

    /** `emo_talk.finished`, with the text that was spoken if the webhook tells it. */
    method AdvanceOnTalkFinished(cfg: Config, room: Name, text: Option<Name>, now: real)
      returns (r: Option<Dispatch>, ghost pick: Option<Id>)
      modifies this`budget, this`chains
      ensures var db := Expire(old(Abs()), now);
        && Latest(db, TalkCandidates(db, room, set id | id in observations && Some(observations[id].text) == text), pick)
        && (Abs(), r) == Talk(db, cfg, pick, now)
    {
      AbandonExpired(now);
      ghost var db := Abs();
      var spoken := SpokenBy(text);
      var found := SelectTalking(room, spoken);
      pick := found;
      if found.None? {
        return None, pick;
      }
      var row := chains[found.value].(talkFinished := true);
      chains := chains[found.value := row];
      if row.finished == row.sent {
        if row.sent >= |row.motions| {
          chains := chains[found.value := row.(status := Completed)];
          assert chains == db.chains[found.value := row.(status := Completed)];
          return None, pick;
        }
        r := ReserveAndClaimMotion(cfg, found.value, now);
        return r, pick;
      }
      return None, pick;
    }

    /** `motion.finished` for the (case-folded) motion name `kind`. */
    method AdvanceOnMotionFinished(cfg: Config, room: Name, kind: Option<Name>, now: real)
      returns (r: Option<Dispatch>, ghost pick: Option<Id>)
      modifies this`budget, this`chains
      ensures var db := Expire(old(Abs()), now);
        && Latest(db, FinishCandidates(db, room, kind), pick)
        && (Abs(), r) == Finish(db, cfg, pick, now)
    {
      AbandonExpired(now);
      ghost var db := Abs();
      var found := SelectFinishing(room, kind);
      pick := found;
      if found.None? {
        return None, pick;
      }
      var row := chains[found.value];
      row := row.(finished := row.finished + 1);
      chains := chains[found.value := row];
      if row.finished >= |row.motions| {
        chains := chains[found.value := row.(status := Completed)];
        assert chains == db.chains[found.value := row.(status := Completed)];
        return None, pick;
      }
      var nextIsDue := row.sent < |row.due| && row.due[row.sent] <= now;
      if row.finished == row.sent && (row.talkFinished || nextIsDue) {
        r := ReserveAndClaimMotion(cfg, found.value, now);
        return r, pick;
      }
      return None, pick;
    }

    /** Count the due times of a chain from `now`, unless that was done before. */
    method RebaseDueTimes(cfg: Config, id: Id, now: real)
      modifies this`chains, this`pending
      ensures Abs() == Anchor(old(Abs()), cfg, id, now)
    {
      if id !in chains || chains[id].status != Active || chains[id].anchoredAt.Some? {
        return;
      }
      var row := chains[id];
      if |row.offsets| != |row.motions| {
        chains := chains[id := row.(anchoredAt := Some(now))];
        return;
      }
      var due := seq(|row.offsets|, k requires 0 <= k < |row.offsets| => now + row.offsets[k]);
      chains := chains[id := row.(due := due, anchoredAt := Some(now),
                                  expiresAt := now + cfg.timeout)];
      ghost var before, rows := pending, chains;
      for index := 0 to |due|
        invariant chains == rows && budget == old(budget)
        invariant pending.Keys == before.Keys
        invariant forall e: (Id, nat) :: e in before ==>
          pending[e] == if e.0 == id && e.1 < index then due[e.1] else before[e]
      {
        if (id, index) in pending {
          pending := pending[(id, index) := due[index]];
        }
      }
      assert pending == Anchor(old(Abs()), cfg, id, now).pending;
    }

    /** `SELECT ... ORDER BY text_sent_at DESC LIMIT 1` over the rows in `among`. */
    method SelectMostRecent(among: set<Id>) returns (pick: Option<Id>)
      requires among <= observations.Keys
      ensures pick.None? ==> among == {}
      ensures pick.Some? ==> pick.value in among
      ensures pick.Some? ==> forall j :: j in among ==> observations[j].sentAt <= observations[pick.value].sentAt
    {
      pick := None;
      var todo := among;
      ghost var seen := {};
      while todo != {}
        invariant seen + todo == among
        invariant pick.None? ==> seen == {}
        invariant pick.Some? ==> pick.value in seen
        invariant pick.Some? ==> forall j :: j in seen ==> observations[j].sentAt <= observations[pick.value].sentAt
        decreases |todo|
      {
        var id :| id in todo;
        todo, seen := todo - {id}, seen + {id};
        if pick.None? || observations[pick.value].sentAt < observations[id].sentAt {
          pick := Some(id);
        }
      }
    }

    /** A message started playing in the room: of those sent there in the last ten seconds, or in a
        timeout if that is shorter, and not heard of before, the one most recently sent is taken to
        be it. */
    method RecordMessageAnchor(cfg: Config, room: Name, now: real) returns (ghost pick: Option<Id>)
      modifies this`chains, this`pending, this`observations
      ensures var seen := old(observations);
        && (pick.None? ==> forall id :: id in seen && seen[id].room == room && seen[id].anchoredAt.None? ==>
              !(now - 10.0 <= seen[id].sentAt && now - cfg.timeout <= seen[id].sentAt <= now))
        && (pick.Some? ==>
              && pick.value in seen
              && var o := seen[pick.value];
                 && o.room == room && o.anchoredAt.None?
                 && now - 10.0 <= o.sentAt && now - cfg.timeout <= o.sentAt <= now
                 && forall j :: j in seen && seen[j].room == room && seen[j].anchoredAt.None? ==>
                      seen[j].sentAt <= o.sentAt || now < seen[j].sentAt)
      ensures pick.None? ==> Abs() == old(Abs()) && observations == old(observations)
      ensures pick.Some? ==>
        && Abs() == Anchor(old(Abs()), cfg, pick.value, now)
        && observations ==
             old(observations)[pick.value := old(observations)[pick.value].(anchoredAt := Some(now))]
    {
      var reach := if cfg.timeout < 10.0 then cfg.timeout else 10.0;
      var among := set id | id in observations && observations[id].room == room
        && observations[id].anchoredAt.None? && now - reach <= observations[id].sentAt <= now;
      var found := SelectMostRecent(among);
      pick := found;
      if found.None? {
        assert forall id :: id in observations ==> id !in among;
        return pick;
      }
      observations := observations[found.value := observations[found.value].(anchoredAt := Some(now))];
      RebaseDueTimes(cfg, found.value, now);
      return pick;
    }

    method AbandonMotionChain(id: Id)
      modifies this`chains
      ensures Abs() == AbandonOne(old(Abs()), id)
    {
      if id in chains && chains[id].status == Active {
        chains := chains[id := chains[id].(status := Abandoned)];
      }
    }

    method AbandonMotionChainsForRestart()
      modifies this`chains, this`pending
      ensures Abs() == Restart(old(Abs()))
    {
      chains := map id | id in chains ::
        if chains[id].status == Active then chains[id].(status := Abandoned) else chains[id];
      pending := map[];
    }
  }
}
