/**
  Refreshing the reaction bank in the background: durable jobs that supersede one another, and
  entries published one key at a time.

  A job is processed by a `Run`, which may be preempted, cancelled or overtaken at any point and
  may still act late: any run ever started can publish, retry or complete at any time.
*/
module ReactionBank {
  import opened Wrappers

  type Id = nat
  type Persona = nat
  type Key = nat
  type Phrases = nat

  datatype Status = Pending | Processing | Completed | DeadLetter

  datatype Job = Job(
    persona: Persona, status: Status, superseded: bool, attempts: nat,
    availableAt: real, receivedAt: real, rowid: nat, done: seq<Key>)

  datatype Db = Db(jobs: map<Id, Job>, bank: map<(Persona, Key), Phrases>, nextRow: nat)

  datatype Outcome = Refused | Published | Broken

  predicate Active(j: Job) {
    j.status == Pending || j.status == Processing
  }

  // ---- operations ----------------------------------------------------------

  predicate HasActive(jobs: map<Id, Job>, persona: Persona) {
    exists i :: i in jobs && Active(jobs[i]) && jobs[i].persona == persona
  }

  function Superseded(j: Job): Job {
    if Active(j) then j.(status := Completed, superseded := true) else j
  }

  /** A job is queued unless one for the same persona is active; it supersedes all others. */
  function Enqueue(db: Db, id: Id, persona: Persona, now: real): Db {
    if HasActive(db.jobs, persona) || id in db.jobs then db
    else
      db.(jobs := (map i | i in db.jobs :: Superseded(db.jobs[i]))
                  [id := Job(persona, Pending, false, 0, now, now, db.nextRow, [])],
          nextRow := db.nextRow + 1)
  }

  function Recover(db: Db, now: real): Db {
    db.(jobs := map i | i in db.jobs ::
      if db.jobs[i].status == Processing then db.jobs[i].(status := Pending, availableAt := now) else db.jobs[i])
  }

  predicate Due(j: Job, now: real) {
    j.status == Pending && j.availableAt <= now
  }

  predicate Sooner(a: Job, b: Job) {
    || a.availableAt < b.availableAt
    || (a.availableAt == b.availableAt
        && (a.receivedAt < b.receivedAt || (a.receivedAt == b.receivedAt && a.rowid < b.rowid)))
  }

  ghost predicate FirstDue(jobs: map<Id, Job>, now: real, pick: Option<Id>) {
    if pick.Some? then
      && pick.value in jobs && Due(jobs[pick.value], now)
      && forall i :: i in jobs && i != pick.value && Due(jobs[i], now) ==> Sooner(jobs[pick.value], jobs[i])
    else forall i :: i in jobs ==> !Due(jobs[i], now)
  }

  function Claim(db: Db, id: Id): Db
    requires id in db.jobs
  {
    db.(jobs := db.jobs[id := db.jobs[id].(status := Processing, attempts := db.jobs[id].attempts + 1)])
  }

  /** Only the job in process may publish, and each of its keys once. */
  function Publish(db: Db, id: Id, persona: Persona, key: Key, phrases: Phrases): (Db, Outcome) {
    if id !in db.jobs || db.jobs[id].status != Processing then (db, Refused)
    else if db.jobs[id].persona != persona then (db, Broken)
    else if key in db.jobs[id].done then (db, Published)
    else
      (db.(bank := db.bank[(persona, key) := phrases],
           jobs := db.jobs[id := db.jobs[id].(done := db.jobs[id].done + [key])]),
       Published)
  }

  function MaxReal(a: real, b: real): real {
    if a < b then b else a
  }

  function Retry(db: Db, id: Id, delay: real, now: real): Db {
    if id in db.jobs && db.jobs[id].status == Processing then
      db.(jobs := db.jobs[id := db.jobs[id].(status := Pending, availableAt := now + MaxReal(0.0, delay))])
    else db
  }

  function Finish(db: Db, id: Id, status: Status): Db {
    if id in db.jobs && db.jobs[id].status == Processing then
      db.(jobs := db.jobs[id := db.jobs[id].(status := status)])
    else db
  }

  predicate DistinctRows(jobs: map<Id, Job>) {
    forall i, j :: i in jobs && j in jobs && i != j ==> jobs[i].rowid != jobs[j].rowid
  }

  method FindActive(jobs: map<Id, Job>, persona: Persona) returns (found: bool)
    ensures found <==> HasActive(jobs, persona)
  {
    var rest := jobs.Keys;
    while rest != {}
      invariant rest <= jobs.Keys
      invariant forall i :: i in jobs && i !in rest ==> !(Active(jobs[i]) && jobs[i].persona == persona)
      decreases |rest|
    {
      var i :| i in rest;
      if Active(jobs[i]) && jobs[i].persona == persona {
        return true;
      }
      rest := rest - {i};
    }
    return false;
  }

  method SelectDue(jobs: map<Id, Job>, now: real) returns (pick: Option<Id>)
    requires DistinctRows(jobs)
    ensures FirstDue(jobs, now, pick)
  {
    pick := None;
    var rest := jobs.Keys;
    while rest != {}
      invariant rest <= jobs.Keys
      invariant pick.Some? ==> pick.value in jobs && Due(jobs[pick.value], now)
      invariant pick.None? ==> forall i :: i in jobs && i !in rest ==> !Due(jobs[i], now)
      invariant pick.Some? ==> forall i :: i in jobs && i !in rest && i != pick.value && Due(jobs[i], now) ==>
        Sooner(jobs[pick.value], jobs[i])
      decreases |rest|
    {
      var i :| i in rest;
      rest := rest - {i};
      if Due(jobs[i], now) && (pick.None? || Sooner(jobs[i], jobs[pick.value])) {
        pick := Some(i);
      }
    }
  }

  class BankTable {
    var jobs: map<Id, Job>
    var bank: map<(Persona, Key), Phrases>
    var nextRow: nat

    function Tables(): Db
      reads this
    {
      Db(jobs, bank, nextRow)
    }

    ghost predicate Valid()
      reads this
    {
      (forall i :: i in jobs ==> jobs[i].rowid < nextRow) && DistinctRows(jobs)
    }

    constructor ()
      ensures Valid() && Tables() == Db(map[], map[], 0)
    {
      jobs, bank, nextRow := map[], map[], 0;
    }

    method EnqueueRefresh(id: Id, persona: Persona, now: real) returns (inserted: bool)
      requires Valid()
      modifies this
      ensures Valid() && Tables() == Enqueue(old(Tables()), id, persona, now)
      ensures inserted <==> !HasActive(old(jobs), persona) && id !in old(jobs)
    {
      var active := FindActive(jobs, persona);
      inserted := !active && id !in jobs;
      if inserted {
        jobs := (map i | i in jobs :: Superseded(jobs[i]))[id := Job(persona, Pending, false, 0, now, now, nextRow, [])];
        nextRow := nextRow + 1;
      }
    }

    method RecoverRefreshes(now: real)
      requires Valid()
      modifies this`jobs
      ensures Valid() && Tables() == Recover(old(Tables()), now)
    {
      jobs := map i | i in jobs ::
        if jobs[i].status == Processing then jobs[i].(status := Pending, availableAt := now) else jobs[i];
    }

    method ClaimNext(now: real) returns (pick: Option<Id>)
      requires Valid()
      modifies this`jobs
      ensures Valid() && FirstDue(old(jobs), now, pick)
      ensures Tables() == if pick.Some? then Claim(old(Tables()), pick.value) else old(Tables())
    {
      pick := SelectDue(jobs, now);
      if pick.Some? {
        var job := jobs[pick.value];
        jobs := jobs[pick.value := job.(status := Processing, attempts := job.attempts + 1)];
      }
    }

    method PublishEntry(id: Id, persona: Persona, key: Key, phrases: Phrases) returns (r: Outcome)
      requires Valid()
      modifies this
      ensures Valid() && (Tables(), r) == Publish(old(Tables()), id, persona, key, phrases)
    {
      if id !in jobs || jobs[id].status != Processing {
        return Refused;
      }
      if jobs[id].persona != persona {
        return Broken;
      }
      if key in jobs[id].done {
        return Published;
      }
      bank := bank[(persona, key) := phrases];
      jobs := jobs[id := jobs[id].(done := jobs[id].done + [key])];
      return Published;
    }

    method RetryRefresh(id: Id, delay: real, now: real)
      requires Valid()
      modifies this`jobs
      ensures Valid() && Tables() == Retry(old(Tables()), id, delay, now)
    {
      if id in jobs && jobs[id].status == Processing {
        jobs := jobs[id := jobs[id].(status := Pending, availableAt := now + MaxReal(0.0, delay))];
      }
    }

    method CompleteRefresh(id: Id)
      requires Valid()
      modifies this`jobs
      ensures Valid() && Tables() == Finish(old(Tables()), id, Completed)
    {
      if id in jobs && jobs[id].status == Processing {
        jobs := jobs[id := jobs[id].(status := Completed)];
      }
    }
  }

  // ---- runs ----------------------------------------------------------------

  /** One claim being worked on: what it believes is already published. */
  datatype Run = Run(job: Id, persona: Persona, done: set<Key>)

  /** One write to the bank, by a job or by hand. */
  datatype Write = Write(job: Option<Id>, persona: Persona, key: Key, phrases: Phrases)

  datatype World = World(db: Db, runs: map<nat, Run>, log: seq<Write>)

  datatype Step =
    | Queue(id: Id, persona: Persona, now: real)
    | Restart(now: real)
    | Start(run: nat, now: real, pick: Id)
    | Put(run: nat, key: Key, phrases: Phrases)
    | Postpone(run: nat, delay: real, now: real)
    | Conclude(run: nat)
    | Discard(id: Id)
    | Save(persona: Persona, key: Key, phrases: Phrases)

  const EMPTY := World(Db(map[], map[], 0), map[], [])

  ghost predicate CanStep(w: World, keys: set<Key>, s: Step) {
    match s
    case Start(run, now, pick) => run !in w.runs && FirstDue(w.db.jobs, now, Some(pick))
    case Put(run, key, _) => run in w.runs && key in keys - w.runs[run].done
    case Postpone(run, _, _) => run in w.runs
    case Conclude(run) => run in w.runs && keys <= w.runs[run].done
    case _ => true
  }

  function AfterPut(w: World, run: nat, key: Key, phrases: Phrases): World
    requires run in w.runs
  {
    var r := w.runs[run];
    var (db, outcome) := Publish(w.db, r.job, r.persona, key, phrases);
    World(db,
          if outcome == Published then w.runs[run := r.(done := r.done + {key})] else w.runs,
          if db.bank != w.db.bank || db.jobs != w.db.jobs then w.log + [Write(Some(r.job), r.persona, key, phrases)] else w.log)
  }

  function Next(w: World, keys: set<Key>, s: Step): World
    requires CanStep(w, keys, s)
  {
    match s
    case Queue(id, persona, now) => w.(db := Enqueue(w.db, id, persona, now))
    case Restart(now) => w.(db := Recover(w.db, now))
    case Start(run, now, pick) =>
      var job := w.db.jobs[pick];
      w.(db := Claim(w.db, pick), runs := w.runs[run := Run(pick, job.persona, set k | k in job.done)])
    case Put(run, key, phrases) => AfterPut(w, run, key, phrases)
    case Postpone(run, delay, now) => w.(db := Retry(w.db, w.runs[run].job, delay, now))
    case Conclude(run) => w.(db := Finish(w.db, w.runs[run].job, Completed))
    case Discard(id) => w.(db := Finish(w.db, id, DeadLetter))
    case Save(persona, key, phrases) =>
      w.(db := w.db.(bank := w.db.bank[(persona, key) := phrases]),
         log := w.log + [Write(None, persona, key, phrases)])
  }

  ghost predicate CanRun(w: World, keys: set<Key>, steps: seq<Step>)
    decreases |steps|
  {
    steps == [] || (CanStep(w, keys, steps[0]) && CanRun(Next(w, keys, steps[0]), keys, steps[1..]))
  }

  ghost function Ran(w: World, keys: set<Key>, steps: seq<Step>): World
    requires CanRun(w, keys, steps)
    decreases |steps|
  {
    if steps == [] then w else Ran(Next(w, keys, steps[0]), keys, steps[1..])
  }

  // ---- what every run keeps ------------------------------------------------

  ghost predicate OneActive(w: World) {
    forall i, j :: i in w.db.jobs && j in w.db.jobs && Active(w.db.jobs[i]) && Active(w.db.jobs[j]) ==> i == j
  }

  /** Whatever a job says it published is in the bank. */
  ghost predicate Backed(w: World) {
    forall i, k :: i in w.db.jobs && k in w.db.jobs[i].done ==> (w.db.jobs[i].persona, k) in w.db.bank
  }

  /** What a run believes about its job is so. */
  ghost predicate RunsOk(w: World) {
    forall r :: r in w.runs ==>
      && w.runs[r].job in w.db.jobs && w.runs[r].persona == w.db.jobs[w.runs[r].job].persona
      && forall k :: k in w.runs[r].done ==> k in w.db.jobs[w.runs[r].job].done
  }

  /** A job that completed, rather than being superseded, published every key. */
  ghost predicate WholeBanks(w: World, keys: set<Key>) {
    forall i, k ::
      i in w.db.jobs && w.db.jobs[i].status == Completed && !w.db.jobs[i].superseded && k in keys ==>
        k in w.db.jobs[i].done
  }

  /** No job wrote the same key twice. */
  ghost predicate WritesOnce(w: World) {
    && (forall i, j :: 0 <= i < j < |w.log| && w.log[i].job.Some? && w.log[i].job == w.log[j].job ==>
          w.log[i].key != w.log[j].key)
    && forall i :: 0 <= i < |w.log| && w.log[i].job.Some? ==>
         w.log[i].job.value in w.db.jobs && w.log[i].key in w.db.jobs[w.log[i].job.value].done
  }

  /** The last phrases written for a key. */
  function LastWritten(log: seq<Write>, persona: Persona, key: Key): Option<Phrases> {
    if log == [] then None
    else
      var last := log[|log| - 1];
      if last.persona == persona && last.key == key then Some(last.phrases)
      else LastWritten(log[..|log| - 1], persona, key)
  }

  /** The bank holds, for every key, what was last written for it. */
  ghost predicate LastWins(w: World) {
    forall p: Persona, k: Key :: LastWritten(w.log, p, k) == if (p, k) in w.db.bank then Some(w.db.bank[(p, k)]) else None
  }

  ghost predicate Sound(w: World, keys: set<Key>) {
    OneActive(w) && Backed(w) && RunsOk(w) && WholeBanks(w, keys) && WritesOnce(w) && LastWins(w)
  }

  /** No step removes a job, changes its persona, or forgets what it published. */
  ghost predicate Grows(w: World, v: World) {
    && (forall i :: i in w.db.jobs ==>
          i in v.db.jobs && v.db.jobs[i].persona == w.db.jobs[i].persona && w.db.jobs[i].done <= v.db.jobs[i].done)
    && (forall p :: p in w.db.bank ==> p in v.db.bank)
  }

  lemma NextGrows(w: World, keys: set<Key>, s: Step)
    requires CanStep(w, keys, s)
    ensures Grows(w, Next(w, keys, s))
  {
  }

  lemma NextOneActive(w: World, keys: set<Key>, s: Step)
    requires Sound(w, keys) && CanStep(w, keys, s)
    ensures OneActive(Next(w, keys, s))
  {
    hide LastWins, Backed, RunsOk, WholeBanks, WritesOnce;
  }

  lemma NextBacked(w: World, keys: set<Key>, s: Step)
    requires Sound(w, keys) && CanStep(w, keys, s)
    ensures Backed(Next(w, keys, s))
  {
    hide LastWins, OneActive, RunsOk, WholeBanks, WritesOnce;
  }

  lemma NextRuns(w: World, keys: set<Key>, s: Step)
    requires Sound(w, keys) && CanStep(w, keys, s)
    ensures RunsOk(Next(w, keys, s))
  {
    hide LastWins, OneActive, Backed, WholeBanks, WritesOnce;
    NextGrows(w, keys, s);
  }

  lemma NextWhole(w: World, keys: set<Key>, s: Step)
    requires Sound(w, keys) && CanStep(w, keys, s)
    ensures WholeBanks(Next(w, keys, s), keys)
  {
    hide LastWins, OneActive, Backed, WritesOnce;
  }

  lemma NextWrites(w: World, keys: set<Key>, s: Step)
    requires Sound(w, keys) && CanStep(w, keys, s)
    ensures WritesOnce(Next(w, keys, s))
  {
    hide LastWins, OneActive, Backed, WholeBanks, RunsOk;
    NextGrows(w, keys, s);
  }

  lemma WrittenPush(log: seq<Write>, e: Write, persona: Persona, key: Key)
    ensures LastWritten(log + [e], persona, key)
         == if e.persona == persona && e.key == key then Some(e.phrases) else LastWritten(log, persona, key)
  {
    assert (log + [e])[..|log|] == log;
  }

  /** The bank and the log change together. */
  lemma StepWrites(w: World, keys: set<Key>, s: Step)
    requires CanStep(w, keys, s)
    ensures var v := Next(w, keys, s);
      || (v.db.bank == w.db.bank && v.log == w.log)
      || exists e :: v.log == w.log + [e] && v.db.bank == w.db.bank[(e.persona, e.key) := e.phrases]
  {
    match s
    case Put(run, key, phrases) =>
      var r := w.runs[run];
      var e := Write(Some(r.job), r.persona, key, phrases);
      var v := Next(w, keys, s);
      assert v.log == w.log || v.log == w.log + [e];
    case Save(persona, key, phrases) =>
      assert Next(w, keys, s).log == w.log + [Write(None, persona, key, phrases)];
    case _ =>
  }

  lemma NextLastWins(w: World, keys: set<Key>, s: Step)
    requires Sound(w, keys) && CanStep(w, keys, s)
    ensures LastWins(Next(w, keys, s))
  {
    StepWrites(w, keys, s);
    assert LastWins(w);
    hide Next, CanStep, Sound, LastWritten;
    var v := Next(w, keys, s);
    if v.log != w.log {
      var e :| v.log == w.log + [e] && v.db.bank == w.db.bank[(e.persona, e.key) := e.phrases];
      forall p: Persona, k: Key
        ensures LastWritten(v.log, p, k) == if (p, k) in v.db.bank then Some(v.db.bank[(p, k)]) else None
      {
        WrittenPush(w.log, e, p, k);
      }
    }
  }

  lemma NextSound(w: World, keys: set<Key>, s: Step)
    requires Sound(w, keys) && CanStep(w, keys, s)
    ensures Sound(Next(w, keys, s), keys)
  {
    NextOneActive(w, keys, s);
    NextBacked(w, keys, s);
    NextRuns(w, keys, s);
    NextWhole(w, keys, s);
    NextWrites(w, keys, s);
    NextLastWins(w, keys, s);
    hide Next, CanStep, OneActive, Backed, RunsOk, WholeBanks, WritesOnce, LastWins;
  }

  lemma StartSound(keys: set<Key>)
    ensures Sound(EMPTY, keys)
  {
  }

  /** In every interleaving: one active job at most, every published key in the bank, every
      completed job's bank whole, and no key written twice by one job. */
  lemma {:induction false} RunSound(w: World, keys: set<Key>, steps: seq<Step>)
    requires Sound(w, keys) && CanRun(w, keys, steps)
    ensures var v := Ran(w, keys, steps);
      Sound(v, keys) && OneActive(v) && Backed(v) && WholeBanks(v, keys) && WritesOnce(v) && LastWins(v)
    decreases |steps|
  {
    assert OneActive(w) && Backed(w) && WholeBanks(w, keys) && WritesOnce(w) && LastWins(w);
    hide Sound, Next, CanStep, OneActive, Backed, WholeBanks, WritesOnce, LastWins;
    if steps != [] {
      NextSound(w, keys, steps[0]);
      RunSound(Next(w, keys, steps[0]), keys, steps[1..]);
    }
  }

  /** After completion every key of the persona has an entry in the bank. */
  lemma CompletedMeansWhole(w: World, keys: set<Key>, i: Id, k: Key)
    requires Sound(w, keys) && i in w.db.jobs && k in keys
    requires w.db.jobs[i].status == Completed && !w.db.jobs[i].superseded
    ensures (w.db.jobs[i].persona, k) in w.db.bank
  {
    hide LastWins, OneActive, RunsOk, WritesOnce;
    assert k in w.db.jobs[i].done;
  }

  // ---- a superseded job is silent ------------------------------------------

  lemma StepIsSilent(w: World, keys: set<Key>, s: Step, i: Id)
    requires Sound(w, keys) && CanStep(w, keys, s) && i in w.db.jobs && !Active(w.db.jobs[i])
    ensures var v := Next(w, keys, s);
      && i in v.db.jobs && v.db.jobs[i] == w.db.jobs[i]
      && w.log <= v.log && forall n :: |w.log| <= n < |v.log| ==> v.log[n].job != Some(i)
  {
    hide LastWins, OneActive, Backed, WholeBanks, WritesOnce;
  }

  /** A job that is over, superseded above all, never writes to the bank again and is never
      revived, whatever its late runs still try. */
  lemma {:induction false} OverIsSilent(w: World, keys: set<Key>, steps: seq<Step>, i: Id)
    requires Sound(w, keys) && CanRun(w, keys, steps) && i in w.db.jobs && !Active(w.db.jobs[i])
    ensures var v := Ran(w, keys, steps);
      && i in v.db.jobs && v.db.jobs[i] == w.db.jobs[i]
      && w.log <= v.log && forall n :: |w.log| <= n < |v.log| ==> v.log[n].job != Some(i)
    decreases |steps|
  {
    hide Sound, Next, CanStep, Active;
    if steps != [] {
      NextSound(w, keys, steps[0]);
      StepIsSilent(w, keys, steps[0], i);
      OverIsSilent(Next(w, keys, steps[0]), keys, steps[1..], i);
    }
  }

  /** Queueing for a persona that has an unfinished job does nothing; otherwise the new job waits
      and every other one is over. */
  lemma QueueSupersedes(w: World, keys: set<Key>, id: Id, persona: Persona, now: real)
    requires id !in w.db.jobs
    ensures var v := Next(w, keys, Queue(id, persona, now));
      if exists i :: i in w.db.jobs && w.db.jobs[i].persona == persona && w.db.jobs[i].status in {Pending, Processing}
      then v == w
      else
        && id in v.db.jobs && v.db.jobs[id] == Job(persona, Pending, false, 0, now, now, w.db.nextRow, [])
        && v.db.nextRow == w.db.nextRow + 1 && v.db.bank == w.db.bank
        && forall i :: i in w.db.jobs ==> i in v.db.jobs && v.db.jobs[i].status in {Completed, DeadLetter}
  {
  }

  /** A run writes exactly when its job is the one in process and has not published that key: the
      phrases it was given, under its persona, and nothing else. */
  lemma PutWritesIff(w: World, keys: set<Key>, run: nat, key: Key, phrases: Phrases)
    requires Sound(w, keys) && CanStep(w, keys, Put(run, key, phrases))
    ensures var v, r := Next(w, keys, Put(run, key, phrases)), w.runs[run];
      && r.job in w.db.jobs
      && var j := w.db.jobs[r.job];
         var writes := j.status == Processing && key !in j.done;
         && v.db.bank == (if writes then w.db.bank[(j.persona, key) := phrases] else w.db.bank)
         && v.db.jobs == (if writes then w.db.jobs[r.job := j.(done := j.done + [key])] else w.db.jobs)
         && v.runs == if j.status == Processing then w.runs[run := r.(done := r.done + {key})] else w.runs
  {
    hide LastWins, OneActive, Backed, WholeBanks, WritesOnce;
  }

  /** The job claimed is waiting and available, and among several the one available longest, then
      the one asked for first. */
  lemma ClaimsTheEarliest(jobs: map<Id, Job>, now: real, pick: Id, i: Id)
    requires FirstDue(jobs, now, Some(pick)) && i in jobs && i != pick
    requires jobs[i].status == Pending && jobs[i].availableAt <= now
    ensures pick in jobs && jobs[pick].status == Pending && jobs[pick].availableAt <= now
    ensures var a, b := jobs[pick], jobs[i];
      || a.availableAt < b.availableAt
      || (a.availableAt == b.availableAt && a.receivedAt < b.receivedAt)
      || (a.availableAt == b.availableAt && a.receivedAt == b.receivedAt && a.rowid < b.rowid)
  {
    assert Due(jobs[i], now);
  }

  /** Starting a run takes the job up where it stopped. */
  lemma StartTakesUp(w: World, keys: set<Key>, run: nat, now: real, pick: Id)
    requires CanStep(w, keys, Start(run, now, pick))
    ensures pick in w.db.jobs
    ensures var v, j := Next(w, keys, Start(run, now, pick)), w.db.jobs[pick];
      && v.db.jobs == w.db.jobs[pick := j.(status := Processing, attempts := j.attempts + 1)]
      && v.runs == w.runs[run := Run(pick, j.persona, set k | k in j.done)] && v.db.bank == w.db.bank
  {
  }

  /** A job in process waits again, for the delay if it is not negative, is completed, or is
      dropped; any other job is left alone by all three. */
  lemma JobIsSettled(w: World, keys: set<Key>, run: nat, delay: real, now: real)
    requires Sound(w, keys) && run in w.runs
    ensures w.runs[run].job in w.db.jobs
    ensures var id := w.runs[run].job;
      var j := w.db.jobs[id];
      var later, over := Next(w, keys, Postpone(run, delay, now)).db.jobs, Next(w, keys, Discard(id)).db.jobs;
      if j.status == Processing then
        && later == w.db.jobs[id := j.(status := Pending, availableAt := now + if delay > 0.0 then delay else 0.0)]
        && over == w.db.jobs[id := j.(status := DeadLetter)]
        && (keys <= w.runs[run].done ==>
              Next(w, keys, Conclude(run)).db.jobs == w.db.jobs[id := j.(status := Completed)])
      else
        && later == w.db.jobs && over == w.db.jobs
        && (keys <= w.runs[run].done ==> Next(w, keys, Conclude(run)).db.jobs == w.db.jobs)
  {
    hide OneActive, Backed, WholeBanks, WritesOnce, LastWins;
  }

  /** A job put off is not claimed before its delay is over. */
  lemma PostponedIsNotClaimed(w: World, keys: set<Key>, run: nat, delay: real, now: real, later: real, pick: Option<Id>)
    requires Sound(w, keys) && run in w.runs && w.runs[run].job in w.db.jobs
    requires w.db.jobs[w.runs[run].job].status == Processing && later < now + delay
    requires FirstDue(Next(w, keys, Postpone(run, delay, now)).db.jobs, later, pick)
    ensures pick == None
  {
    hide LastWins, Backed, WholeBanks, WritesOnce, RunsOk, Sooner;
    var v := Next(w, keys, Postpone(run, delay, now));
    NextOneActive(w, keys, Postpone(run, delay, now));
    var job := w.runs[run].job;
    assert Active(v.db.jobs[job]);
    forall i | i in v.db.jobs ensures !Due(v.db.jobs[i], later) {
      assert Active(v.db.jobs[i]) ==> i == job;
    }
  }

  // ---- carrying on ---------------------------------------------------------

  /** What was published stays published: trying again, with whatever phrases, changes nothing. */
  lemma PublishingAgainIsNothing(
    db: Db, id: Id, persona: Persona, key: Key, phrases: Phrases, other: Phrases)
    requires Publish(db, id, persona, key, phrases).1 == Published
    ensures var after := Publish(db, id, persona, key, phrases).0;
      && key in after.jobs[id].done
      && Publish(after, id, persona, key, other) == (after, Published)
  {
  }

  /** A restart loses nothing of the job that was active: it is the one claimed next, and it keeps
      what it had published. */
  lemma RestartResumes(w: World, keys: set<Key>, now: real, later: real, i: Id, pick: Option<Id>)
    requires Sound(w, keys) && i in w.db.jobs && Active(w.db.jobs[i])
    requires later >= if w.db.jobs[i].status == Processing then now else w.db.jobs[i].availableAt
    requires FirstDue(Next(w, keys, Restart(now)).db.jobs, later, pick)
    ensures pick == Some(i) && Next(w, keys, Restart(now)).db.jobs[i].done == w.db.jobs[i].done
  {
    hide LastWins, Backed, RunsOk, WholeBanks, WritesOnce, Sooner;
    var v := Next(w, keys, Restart(now));
    NextOneActive(w, keys, Restart(now));
    assert Due(v.db.jobs[i], later);
    assert pick.Some? && Active(v.db.jobs[pick.value]);
  }

  /** Every run of job `i` started since knows all of `known`. */
  ghost predicate Knows(w: World, i: Id, known: set<Key>, earlier: set<nat>) {
    && i in w.db.jobs && (forall k :: k in known ==> k in w.db.jobs[i].done)
    && forall r :: r in w.runs && r !in earlier && w.runs[r].job == i ==> known <= w.runs[r].done
  }

  lemma NextKnows(w: World, keys: set<Key>, s: Step, i: Id, known: set<Key>, earlier: set<nat>)
    requires CanStep(w, keys, s) && Knows(w, i, known, earlier)
    ensures Knows(Next(w, keys, s), i, known, earlier)
  {
    NextGrows(w, keys, s);
  }

  lemma {:induction false} RunKnows(
    w: World, keys: set<Key>, steps: seq<Step>, i: Id, known: set<Key>, earlier: set<nat>)
    requires CanRun(w, keys, steps) && Knows(w, i, known, earlier)
    ensures Knows(Ran(w, keys, steps), i, known, earlier)
    decreases |steps|
  {
    hide Knows, Next, CanStep;
    if steps != [] {
      NextKnows(w, keys, steps[0], i, known, earlier);
      RunKnows(Next(w, keys, steps[0]), keys, steps[1..], i, known, earlier);
    }
  }

  /** A job goes on where it stopped: whichever run takes it up later, after a retry, a preemption
      or a restart, is never given a key that was already published. */
  lemma LaterRunsSkipPublished(
    w: World, keys: set<Key>, steps: seq<Step>, i: Id, run: nat, key: Key, phrases: Phrases)
    requires CanRun(w, keys, steps) && i in w.db.jobs && key in w.db.jobs[i].done && run !in w.runs
    requires var v := Ran(w, keys, steps); run in v.runs && v.runs[run].job == i
    ensures !CanStep(Ran(w, keys, steps), keys, Put(run, key, phrases))
  {
    var known := set k | k in w.db.jobs[i].done;
    hide CanRun, Ran;
    RunKnows(w, keys, steps, i, known, w.runs.Keys);
  }

  /** From the empty tables. */
  lemma FromTheStart(keys: set<Key>, steps: seq<Step>)
    requires CanRun(EMPTY, keys, steps)
    ensures var v := Ran(EMPTY, keys, steps);
      OneActive(v) && Backed(v) && WholeBanks(v, keys) && WritesOnce(v) && LastWins(v)
  {
    StartSound(keys);
    hide Sound, Next, CanStep, OneActive, Backed, WholeBanks, WritesOnce, LastWins;
    RunSound(EMPTY, keys, steps);
  }
}
