/**
  Answering one user message exactly once, through failures, retries and restarts.

  `World` is the durable effects table, the single worker's place in the current attempt, and a
  log of everything the robot heard.  Every step is one durable write or one send; an attempt
  can break off after any of them.  A send that raised may or may not have been heard.
*/
module ReplyDelivery {
  import opened Wrappers

  type Id = nat
  type Text = string

  // ---- the effects table ---------------------------------------------------

  datatype Effects = Effects(response: Option<Text>, sent: bool)

  const NO_EFFECTS := Effects(None, false)

  function EffectsOf(table: map<Id, Effects>, id: Id): Effects {
    if id in table then table[id] else NO_EFFECTS
  }

  /** The first response saved is the one that stays. */
  function Stored(table: map<Id, Effects>, id: Id, text: Text): map<Id, Effects> {
    var e := EffectsOf(table, id);
    table[id := if e.response.None? then e.(response := Some(text)) else e]
  }

  function Marked(table: map<Id, Effects>, id: Id): map<Id, Effects> {
    table[id := EffectsOf(table, id).(sent := true)]
  }

  class EffectsTable {
    var table: map<Id, Effects>

    constructor ()
      ensures table == map[]
    {
      table := map[];
    }

    method GetEffects(id: Id) returns (e: Effects)
      ensures e == EffectsOf(table, id)
    {
      e := if id in table then table[id] else NO_EFFECTS;
    }

    method SaveResponseIfAbsent(id: Id, text: Text) returns (stored: Text)
      modifies this
      ensures table == Stored(old(table), id, text)
      ensures EffectsOf(table, id).response == Some(stored)
      ensures EffectsOf(old(table), id).response.Some? ==> EffectsOf(old(table), id).response == Some(stored)
    {
      if id !in table {
        table := table[id := Effects(Some(text), false)];
      } else if table[id].response.None? {
        table := table[id := table[id].(response := Some(text))];
      } else {
        table := table[id := table[id]];
      }
      return table[id].response.value;
    }

    /** Both a whole delivery and a streamed chunk leave this mark. */
    method RecordDelivery(id: Id)
      modifies this
      ensures table == Marked(old(table), id)
    {
      if id !in table {
        table := table[id := Effects(None, true)];
      } else {
        table := table[id := table[id].(sent := true)];
      }
    }
  }

  // ---- one attempt ---------------------------------------------------------

  datatype Phase =
    | Idle
    | Began(id: Id, n: nat)                                // claimed, effects not yet read
    | Producing(id: Id, n: nat, sent: bool)                // no response yet; `sent` as read
    | Streaming(id: Id, n: nat, chunks: seq<Text>)         // between two chunks
    | ChunkOut(id: Id, n: nat, chunks: seq<Text>)          // the last chunk is out, not recorded
    | Single(id: Id, n: nat)                               // nothing streamed: one whole reply
    | StreamEnded(id: Id, n: nat, chunks: seq<Text>)       // what was streamed is to be saved
    | Streamed(id: Id, n: nat, chunks: seq<Text>, text: Text)  // saved, to be remembered
    | Saving(id: Id, n: nat, text: Text, turn: bool)       // `turn`: a reply worth remembering
    | Saved(id: Id, n: nat, text: Text, turn: bool)        // effects to be read again
    | Delivering(id: Id, n: nat, text: Text, turn: bool, sent: bool)
    | Recording(id: Id, n: nat, text: Text, turn: bool)    // the text is out, not recorded
    | Closing(id: Id, n: nat, text: Text, turn: bool)      // delivered, or found delivered

  datatype Kind = Chunk | Whole

  /** One text heard by the robot.  `returned` says that the send came back without an error. */
  datatype Send = Send(id: Id, n: nat, kind: Kind, text: Text, returned: bool)

  /** One remembered reply, streamed or whole. */
  datatype Turn = Turn(id: Id, n: nat, kind: Kind, text: Text)

  /** `recordedBy` is the attempt whose record was the first to reach the table, `savedBy` the one
      that stored the response. */
  datatype World = World(
    table: map<Id, Effects>, phase: Phase, attempts: map<Id, nat>,
    log: seq<Send>, turns: seq<Turn>, recordedBy: map<Id, nat>, savedBy: map<Id, nat>)

  datatype Config = Config(stream: bool, fallback: Text, usable: Text -> bool)

  datatype Step =
    | Claim(id: Id)
    | Read
    | Decline                                 // nothing to answer
    | StartStream
    | SendChunk(text: Text)
    | LoseChunk(text: Text, heard: bool)      // the send raised
    | RecordChunk
    | MissChunk                               // recording the chunk raised
    | EndStream
    | SaveStream
    | Remember                                // the streamed reply, in the transcript
    | Generate(text: Text)                    // or a fast route's answer, which is used as it is
    | FallBack(text: Text)                    // a fixed line instead of a reply
    | Save
    | Reread
    | Deliver
    | LoseDelivery(heard: bool)               // the send raised
    | Record
    | Close
    | BreakOff                                // an exception, a cancellation or a crash

  const START := World(map[], Idle, map[], [], [], map[], map[])

  /** A sentence that is sent: never an empty text, and first a usable one. */
  predicate Speakable(cfg: Config, chunks: seq<Text>, text: Text) {
    text != "" && (chunks == [] ==> cfg.usable(text))
  }

  predicate CanStep(w: World, cfg: Config, s: Step) {
    match s
    case Claim(_) => w.phase.Idle?
    case Read => w.phase.Began?
    case Decline => w.phase.Producing?
    case StartStream => w.phase.Producing? && cfg.stream && !w.phase.sent
    case SendChunk(text) => w.phase.Streaming? && Speakable(cfg, w.phase.chunks, text)
    case LoseChunk(text, _) => w.phase.Streaming? && Speakable(cfg, w.phase.chunks, text)
    case RecordChunk => w.phase.ChunkOut?
    case MissChunk => w.phase.ChunkOut?
    case EndStream => w.phase.Streaming?
    case SaveStream => w.phase.StreamEnded?
    case Remember => w.phase.Streamed?
    case Generate(_) => w.phase.Producing? || w.phase.Single?
    case FallBack(_) => w.phase.Producing? || w.phase.Single? || w.phase.StreamEnded?
    case Save => w.phase.Saving?
    case Reread => w.phase.Saved?
    case Deliver => w.phase.Delivering?
    case LoseDelivery(_) => w.phase.Delivering? && !w.phase.sent
    case Record => w.phase.Recording?
    case Close => w.phase.Closing?
    case BreakOff => true
  }

  function Joined(chunks: seq<Text>): Text {
    if chunks == [] then "" else Joined(chunks[..|chunks| - 1]) + chunks[|chunks| - 1]
  }

  function Spoken(cfg: Config, stored: Text): Text {
    if cfg.usable(stored) then stored else cfg.fallback
  }

  function Attempts(w: World, id: Id): nat {
    if id in w.attempts then w.attempts[id] else 0
  }

  function WithRecord(w: World, next: Phase): World
    requires !w.phase.Idle?
  {
    var id := w.phase.id;
    w.(table := Marked(w.table, id), phase := next,
       recordedBy := if EffectsOf(w.table, id).sent then w.recordedBy else w.recordedBy[id := w.phase.n])
  }

  /** The world once this attempt has stored `text`, unless there is a response already. */
  function WithResponse(w: World, text: Text): (v: World)
    requires !w.phase.Idle?
    ensures v == w.(table := v.table, savedBy := v.savedBy)
    ensures EffectsOf(v.table, w.phase.id).response.Some?
  {
    var id := w.phase.id;
    w.(table := Stored(w.table, id, text),
       savedBy := if EffectsOf(w.table, id).response.None? then w.savedBy[id := w.phase.n] else w.savedBy)
  }

  function Next(w: World, cfg: Config, s: Step): World
    requires CanStep(w, cfg, s)
  {
    var p := w.phase;
    match s
    case Claim(id) => w.(phase := Began(id, Attempts(w, id) + 1), attempts := w.attempts[id := Attempts(w, id) + 1])
    case Read =>
      var e := EffectsOf(w.table, p.id);
      w.(phase := if e.response.Some? then Delivering(p.id, p.n, Spoken(cfg, e.response.value), false, e.sent)
                  else Producing(p.id, p.n, e.sent))
    case Decline => w.(phase := Idle)
    case StartStream => w.(phase := Streaming(p.id, p.n, []))
    case SendChunk(text) =>
      w.(phase := ChunkOut(p.id, p.n, p.chunks + [text]), log := w.log + [Send(p.id, p.n, Chunk, text, true)])
    case LoseChunk(text, heard) =>
      w.(phase := if p.chunks == [] then Single(p.id, p.n) else p,
         log := if heard then w.log + [Send(p.id, p.n, Chunk, text, false)] else w.log)
    case RecordChunk => WithRecord(w, Streaming(p.id, p.n, p.chunks))
    case MissChunk => w.(phase := Streaming(p.id, p.n, p.chunks))
    case EndStream => w.(phase := if p.chunks == [] then Single(p.id, p.n) else StreamEnded(p.id, p.n, p.chunks))
    case SaveStream =>
      var v := WithResponse(w, Joined(p.chunks));
      v.(phase := Streamed(p.id, p.n, p.chunks, EffectsOf(v.table, p.id).response.value))
    case Remember => w.(phase := Idle, turns := w.turns + [Turn(p.id, p.n, Chunk, p.text)])
    case Generate(text) => w.(phase := Saving(p.id, p.n, text, true))
    case FallBack(text) => w.(phase := Saving(p.id, p.n, text, false))
    case Save =>
      var v := WithResponse(w, p.text);
      v.(phase := Saved(p.id, p.n, EffectsOf(v.table, p.id).response.value, p.turn))
    case Reread => w.(phase := Delivering(p.id, p.n, p.text, p.turn, EffectsOf(w.table, p.id).sent))
    case Deliver =>
      if p.sent then w.(phase := Closing(p.id, p.n, p.text, p.turn))
      else w.(phase := Recording(p.id, p.n, p.text, p.turn), log := w.log + [Send(p.id, p.n, Whole, p.text, true)])
    case LoseDelivery(heard) =>
      w.(phase := Idle, log := if heard then w.log + [Send(p.id, p.n, Whole, p.text, false)] else w.log)
    case Record => WithRecord(w, Closing(p.id, p.n, p.text, p.turn))
    case Close => w.(phase := Idle, turns := if p.turn then w.turns + [Turn(p.id, p.n, Whole, p.text)] else w.turns)
    case BreakOff => w.(phase := Idle)
  }

  predicate CanRun(w: World, cfg: Config, steps: seq<Step>)
    decreases |steps|
  {
    steps == [] || (CanStep(w, cfg, steps[0]) && CanRun(Next(w, cfg, steps[0]), cfg, steps[1..]))
  }

  function Ran(w: World, cfg: Config, steps: seq<Step>): World
    requires CanRun(w, cfg, steps)
    decreases |steps|
  {
    if steps == [] then w else Ran(Next(w, cfg, steps[0]), cfg, steps[1..])
  }

  // ---- the stored response -------------------------------------------------

  /** A stored response never changes, and a recorded delivery stays recorded. */
  lemma {:induction false} ResponseIsFinal(w: World, cfg: Config, steps: seq<Step>, id: Id)
    requires CanRun(w, cfg, steps)
    ensures var e, f := EffectsOf(w.table, id), EffectsOf(Ran(w, cfg, steps).table, id);
      (e.response.Some? ==> f.response == e.response) && (e.sent ==> f.sent)
    decreases |steps|
  {
    if steps != [] {
      StepKeeps(w, cfg, steps[0], id);
      hide Next, CanStep;
      ResponseIsFinal(Next(w, cfg, steps[0]), cfg, steps[1..], id);
    }
  }

  lemma StepKeeps(w: World, cfg: Config, s: Step, id: Id)
    requires CanStep(w, cfg, s)
    ensures var e, f := EffectsOf(w.table, id), EffectsOf(Next(w, cfg, s).table, id);
      (e.response.Some? ==> f.response == e.response) && (e.sent ==> f.sent)
  {
  }

  // ---- what every run keeps ------------------------------------------------

  ghost predicate RecordsOk(w: World) {
    && (forall id :: id in w.recordedBy <==> EffectsOf(w.table, id).sent)
    && (forall id :: id in w.recordedBy ==> w.recordedBy[id] <= Attempts(w, id))
    && (!w.phase.Idle? ==> w.phase.n == Attempts(w, w.phase.id))
  }

  /** Before anything is saved there is no response; where a whole reply may still be sent,
      nothing was recorded; and a stream that recorded something sent something. */
  ghost predicate PhaseOk(w: World) {
    var p := w.phase;
    match p
    case Idle => true
    case Began(_, _) => p.id in w.recordedBy ==> w.recordedBy[p.id] < p.n
    case Producing(_, _, _) =>
      && EffectsOf(w.table, p.id).response.None? && p.sent == EffectsOf(w.table, p.id).sent
      && (p.id in w.recordedBy ==> w.recordedBy[p.id] < p.n)
    case Streaming(_, _, _) =>
      && EffectsOf(w.table, p.id).response.None?
      && (p.id in w.recordedBy ==> w.recordedBy[p.id] == p.n && p.chunks != [])
    case ChunkOut(_, _, _) =>
      && EffectsOf(w.table, p.id).response.None? && p.chunks != []
      && (p.id in w.recordedBy ==> w.recordedBy[p.id] == p.n)
    case Single(_, _) => EffectsOf(w.table, p.id).response.None? && p.id !in w.recordedBy
    case StreamEnded(_, _, _) => EffectsOf(w.table, p.id).response.None?
    case Streamed(_, _, _, _) => EffectsOf(w.table, p.id).response == Some(p.text) && p.text == Joined(p.chunks)
    case Saving(_, _, _, _) => p.turn && p.id in w.recordedBy ==> w.recordedBy[p.id] < p.n
    case Saved(_, _, _, _) =>
      && EffectsOf(w.table, p.id).response == Some(p.text)
      && (p.turn && p.id in w.recordedBy ==> w.recordedBy[p.id] < p.n)
    case Delivering(_, _, _, _, _) =>
      && p.sent == EffectsOf(w.table, p.id).sent
      && (p.turn && p.id in w.recordedBy ==> w.recordedBy[p.id] < p.n)
    case Recording(_, _, _, _) => p.id !in w.recordedBy && Send(p.id, p.n, Whole, p.text, true) in w.log
    case Closing(_, _, _, _) =>
      && p.id in w.recordedBy
      && (p.turn && w.recordedBy[p.id] == p.n ==> Send(p.id, p.n, Whole, p.text, true) in w.log)
  }

  /** Nothing was ever sent by an attempt later than the one that recorded a delivery. */
  ghost predicate NothingLater(w: World) {
    forall i :: 0 <= i < |w.log| ==>
      && w.log[i].n <= Attempts(w, w.log[i].id)
      && (w.log[i].id in w.recordedBy ==> w.log[i].n <= w.recordedBy[w.log[i].id])
  }

  /** Every response has an attempt that stored it, and is stored by nobody else. */
  ghost predicate SavesOk(w: World) {
    && (forall id :: id in w.savedBy <==> EffectsOf(w.table, id).response.Some?)
    && (forall id :: id in w.savedBy ==> w.savedBy[id] <= Attempts(w, id))
    && (w.phase.Began? && w.phase.id in w.savedBy ==> w.savedBy[w.phase.id] < w.phase.n)
    && (w.phase.Saving? ==> EffectsOf(w.table, w.phase.id).response.None?)
    && (w.phase.Saved? ==>
          && EffectsOf(w.table, w.phase.id).response == Some(w.phase.text)
          && w.phase.id in w.savedBy && w.savedBy[w.phase.id] == w.phase.n)
  }

  /** The text attempt `n` sends, or is about to send, whole: the stored response if it can be used
      or was stored by this very attempt, and the fallback if an unusable one was found stored. */
  ghost predicate Answers(w: World, cfg: Config, id: Id, n: nat, text: Text) {
    && id in w.savedBy && EffectsOf(w.table, id).response.Some? && w.savedBy[id] <= n
    && var stored := EffectsOf(w.table, id).response.value;
       && (cfg.usable(stored) || n == w.savedBy[id] ==> text == stored)
       && (!cfg.usable(stored) && n > w.savedBy[id] ==> text == cfg.fallback)
  }

  ghost predicate OnItsWay(w: World, cfg: Config) {
    w.phase.Delivering? ==> Answers(w, cfg, w.phase.id, w.phase.n, w.phase.text)
  }

  ghost predicate WholeIsAnswer(w: World, cfg: Config) {
    && (forall i :: 0 <= i < |w.log| && w.log[i].kind == Whole ==>
          Answers(w, cfg, w.log[i].id, w.log[i].n, w.log[i].text))
    && OnItsWay(w, cfg)
  }

  // ---- the chunks of an attempt --------------------------------------------

  predicate ChunkOf(e: Send, id: Id, n: nat) {
    e.id == id && e.n == n && e.kind == Chunk
  }

  /** The chunks of one attempt that were heard, in order; or only those whose send returned. */
  function Chunks(log: seq<Send>, id: Id, n: nat, all: bool): seq<Text> {
    if log == [] then []
    else
      var last := log[|log| - 1];
      Chunks(log[..|log| - 1], id, n, all)
      + if ChunkOf(last, id, n) && (all || last.returned) then [last.text] else []
  }

  lemma ChunksPush(log: seq<Send>, e: Send, id: Id, n: nat, all: bool)
    ensures Chunks(log + [e], id, n, all)
         == if ChunkOf(e, id, n) && (all || e.returned) then Chunks(log, id, n, all) + [e.text]
            else Chunks(log, id, n, all)
  {
    assert (log + [e])[..|log|] == log;
  }

  lemma {:induction false} NoChunks(log: seq<Send>, id: Id, n: nat, all: bool)
    requires forall i :: 0 <= i < |log| ==> log[i].id == id ==> log[i].n < n
    ensures Chunks(log, id, n, all) == []
  {
    if log != [] {
      NoChunks(log[..|log| - 1], id, n, all);
    }
  }

  /** The chunks an attempt holds, if it is one that streams. */
  function Held(p: Phase): Option<seq<Text>> {
    match p
    case Began(_, _) => Some([])
    case Producing(_, _, _) => Some([])
    case Streaming(_, _, chunks) => Some(chunks)
    case ChunkOut(_, _, chunks) => Some(chunks)
    case StreamEnded(_, _, chunks) => Some(chunks)
    case Streamed(_, _, chunks, _) => Some(chunks)
    case _ => None
  }

  /** What a stream holds is what it sent, as far as the sends returned; and so it is with every
      streamed reply that was ever remembered. */
  ghost predicate StreamsOk(w: World) {
    && (Held(w.phase).Some? ==> Chunks(w.log, w.phase.id, w.phase.n, false) == Held(w.phase).value)
    && (forall i :: 0 <= i < |w.turns| ==> TurnOk(w, w.turns[i]))
  }

  ghost predicate TurnOk(w: World, t: Turn) {
    && t.n <= Attempts(w, t.id) && (!w.phase.Idle? && w.phase.id == t.id ==> t.n < w.phase.n)
    && (t.kind == Chunk ==> t.text == Joined(Chunks(w.log, t.id, t.n, false)))
  }

  ghost predicate NothingEmpty(w: World) {
    forall i :: 0 <= i < |w.log| && w.log[i].kind == Chunk ==> w.log[i].text != ""
  }

  ghost predicate Sound(w: World, cfg: Config) {
    && RecordsOk(w) && PhaseOk(w) && NothingLater(w) && SavesOk(w) && WholeIsAnswer(w, cfg)
    && StreamsOk(w) && NothingEmpty(w)
  }

  lemma NextTurn(w: World, cfg: Config, s: Step, t: Turn)
    requires RecordsOk(w) && CanStep(w, cfg, s) && TurnOk(w, t)
    ensures TurnOk(Next(w, cfg, s), t)
  {
    hide Chunks, Joined, RecordsOk, Next, CanStep;
    StepLog(w, cfg, s);
    StepAttempts(w, cfg, s, t.id);
    var v := Next(w, cfg, s);
    if v.log != w.log {
      ChunksPush(w.log, v.log[|w.log|], t.id, t.n, false);
    }
  }

  lemma NextHeld(w: World, cfg: Config, s: Step)
    requires Sound(w, cfg) && CanStep(w, cfg, s)
    ensures var v := Next(w, cfg, s);
      Held(v.phase).Some? ==> Chunks(v.log, v.phase.id, v.phase.n, false) == Held(v.phase).value
  {
    hide SavesOk, PhaseOk, WholeIsAnswer, NothingEmpty, Chunks, Joined, EffectsOf, Marked, Stored, RecordsOk, TurnOk;
    match s
    case Claim(id) => NoChunks(w.log, id, Attempts(w, id) + 1, false);
    case SendChunk(text) =>
      ChunksPush(w.log, Send(w.phase.id, w.phase.n, Chunk, text, true), w.phase.id, w.phase.n, false);
    case LoseChunk(text, heard) =>
      ChunksPush(w.log, Send(w.phase.id, w.phase.n, Chunk, text, false), w.phase.id, w.phase.n, false);
    case _ =>
  }

  lemma NextNewTurn(w: World, cfg: Config, s: Step)
    requires Sound(w, cfg) && CanStep(w, cfg, s)
    ensures var v := Next(w, cfg, s);
      v.turns == w.turns
      || (|v.turns| == |w.turns| + 1 && v.turns == w.turns + [v.turns[|w.turns|]] && TurnOk(v, v.turns[|w.turns|]))
  {
    hide SavesOk, NothingLater, WholeIsAnswer, NothingEmpty, Chunks, Joined, EffectsOf, Marked, Stored;
  }

  lemma NextStreams(w: World, cfg: Config, s: Step)
    requires Sound(w, cfg) && CanStep(w, cfg, s)
    ensures StreamsOk(Next(w, cfg, s))
  {
    NextHeld(w, cfg, s);
    NextNewTurn(w, cfg, s);
    var v := Next(w, cfg, s);
    assert StreamsOk(w);
    hide Next, CanStep, Sound, TurnOk, Held, Chunks;
    forall i | 0 <= i < |v.turns| ensures TurnOk(v, v.turns[i]) {
      if i < |w.turns| {
        assert v.turns[i] == w.turns[i];
        NextTurn(w, cfg, s, w.turns[i]);
      }
    }
  }

  lemma NextNothingEmpty(w: World, cfg: Config, s: Step)
    requires NothingEmpty(w) && CanStep(w, cfg, s)
    ensures NothingEmpty(Next(w, cfg, s))
  {
  }

  predicate Records(s: Step) {
    s.RecordChunk? || s.Record?
  }

  predicate Stores(s: Step) {
    s.Save? || s.SaveStream?
  }

  lemma RecordKeepsRecords(w: World, next: Phase)
    requires RecordsOk(w) && !w.phase.Idle? && (!next.Idle? ==> next.id == w.phase.id && next.n == w.phase.n)
    ensures RecordsOk(WithRecord(w, next))
  {
  }

  lemma StoreKeepsRecords(w: World, cfg: Config, s: Step)
    requires RecordsOk(w) && CanStep(w, cfg, s) && Stores(s)
    ensures RecordsOk(Next(w, cfg, s))
  {
  }

  lemma ClaimKeepsRecords(w: World, cfg: Config, id: Id)
    requires RecordsOk(w) && CanStep(w, cfg, Claim(id))
    ensures RecordsOk(Next(w, cfg, Claim(id)))
  {
  }

  lemma NextRecords(w: World, cfg: Config, s: Step)
    requires Sound(w, cfg) && CanStep(w, cfg, s)
    ensures RecordsOk(Next(w, cfg, s))
  {
    hide SavesOk, PhaseOk, NothingLater, WholeIsAnswer, StreamsOk, NothingEmpty;
    if Records(s) {
      RecordKeepsRecords(w, Next(w, cfg, s).phase);
      hide RecordsOk, WithRecord;
    } else if Stores(s) {
      StoreKeepsRecords(w, cfg, s);
    } else if s.Claim? {
      ClaimKeepsRecords(w, cfg, s.id);
    } else {
      hide EffectsOf;
    }
  }

  lemma StorePhase(w: World, cfg: Config, s: Step)
    requires RecordsOk(w) && SavesOk(w) && PhaseOk(w) && CanStep(w, cfg, s) && Stores(s)
    ensures PhaseOk(Next(w, cfg, s))
  {
    hide Joined;
  }

  lemma RecordPhase(w: World, cfg: Config, s: Step)
    requires RecordsOk(w) && PhaseOk(w) && CanStep(w, cfg, s) && Records(s)
    ensures PhaseOk(Next(w, cfg, s))
  {
    hide Joined;
  }

  lemma OtherPhase(w: World, cfg: Config, s: Step)
    requires RecordsOk(w) && PhaseOk(w) && CanStep(w, cfg, s) && !Stores(s) && !Records(s)
    ensures PhaseOk(Next(w, cfg, s))
  {
    hide Joined, WithResponse, WithRecord, Spoken;
  }

  lemma NextPhase(w: World, cfg: Config, s: Step)
    requires Sound(w, cfg) && CanStep(w, cfg, s)
    ensures PhaseOk(Next(w, cfg, s))
  {
    hide RecordsOk, SavesOk, PhaseOk, NothingLater, WholeIsAnswer, StreamsOk, NothingEmpty, Next, CanStep;
    if Stores(s) {
      StorePhase(w, cfg, s);
    } else if Records(s) {
      RecordPhase(w, cfg, s);
    } else {
      OtherPhase(w, cfg, s);
    }
  }

  /** What a step adds to the log. */
  lemma StepLog(w: World, cfg: Config, s: Step)
    requires CanStep(w, cfg, s)
    ensures var v := Next(w, cfg, s);
      v.log == w.log
      || (&& !w.phase.Idle? && |v.log| == |w.log| + 1 && v.log == w.log + [v.log[|w.log|]]
          && v.log[|w.log|].id == w.phase.id && v.log[|w.log|].n == w.phase.n)
  {
  }

  /** Attempts are counted up, and the attempt in hand is the latest of its message. */
  lemma StepAttempts(w: World, cfg: Config, s: Step, id: Id)
    requires CanStep(w, cfg, s) && RecordsOk(w)
    ensures var v := Next(w, cfg, s);
      && Attempts(w, id) <= Attempts(v, id)
      && (!v.phase.Idle? && v.phase.id == id ==>
            (if w.phase.Idle? then v.phase.n > Attempts(w, id) else v.phase.n == w.phase.n && w.phase.id == id))
  {
  }

  /** A first record names the attempt in hand; nothing else touches the records. */
  lemma StepRecordedBy(w: World, cfg: Config, s: Step)
    requires RecordsOk(w) && CanStep(w, cfg, s)
    ensures var v := Next(w, cfg, s);
      v.recordedBy == w.recordedBy
      || (!w.phase.Idle? && w.phase.id !in w.recordedBy && w.phase.n == Attempts(w, w.phase.id)
          && v.log == w.log && v.recordedBy == w.recordedBy[w.phase.id := w.phase.n])
  {
    hide Joined, Spoken, WithResponse;
  }

  /** What is sent is sent from one of these phases, and nothing is recorded with it. */
  lemma StepSends(w: World, cfg: Config, s: Step)
    requires CanStep(w, cfg, s) && Next(w, cfg, s).log != w.log
    ensures w.phase.Streaming? || (w.phase.Delivering? && !w.phase.sent)
    ensures Next(w, cfg, s).recordedBy == w.recordedBy
    ensures var v := Next(w, cfg, s);
      |v.log| == |w.log| + 1 && v.log[|w.log|].kind == if w.phase.Streaming? then Chunk else Whole
  {
    hide Joined, Spoken, WithResponse, EffectsOf;
  }

  /** Whatever is sent is sent by an attempt no later than the one that recorded a delivery. */
  lemma StepSendsInTime(w: World, cfg: Config, s: Step)
    requires RecordsOk(w) && PhaseOk(w) && CanStep(w, cfg, s) && Next(w, cfg, s).log != w.log
    ensures !w.phase.Idle? && w.phase.n <= Attempts(w, w.phase.id)
    ensures w.phase.id in w.recordedBy ==> w.phase.n <= w.recordedBy[w.phase.id]
    ensures Next(w, cfg, s).recordedBy == w.recordedBy
  {
    StepSends(w, cfg, s);
    hide Next, CanStep;
  }

  lemma NextLater(w: World, cfg: Config, s: Step)
    requires Sound(w, cfg) && CanStep(w, cfg, s)
    ensures NothingLater(Next(w, cfg, s))
  {
    hide SavesOk, RecordsOk, PhaseOk, WholeIsAnswer, StreamsOk, NothingEmpty, Next, CanStep;
    StepLog(w, cfg, s);
    StepRecordedBy(w, cfg, s);
    var v := Next(w, cfg, s);
    if v.log != w.log {
      StepSendsInTime(w, cfg, s);
    }
    forall i | 0 <= i < |v.log|
      ensures v.log[i].n <= Attempts(v, v.log[i].id)
      ensures v.log[i].id in v.recordedBy ==> v.log[i].n <= v.recordedBy[v.log[i].id]
    {
      StepAttempts(w, cfg, s, v.log[i].id);
      if i < |w.log| {
        assert v.log[i] == w.log[i];
      }
    }
  }

  lemma StoreKeepsSaves(w: World, cfg: Config, s: Step)
    requires RecordsOk(w) && SavesOk(w) && CanStep(w, cfg, s) && Stores(s)
    ensures SavesOk(Next(w, cfg, s))
  {
    hide Joined;
  }

  lemma ClaimKeepsSaves(w: World, cfg: Config, id: Id)
    requires SavesOk(w) && CanStep(w, cfg, Claim(id))
    ensures SavesOk(Next(w, cfg, Claim(id)))
  {
  }

  /** Any other step leaves the responses alone. */
  lemma StepKeepsResponses(w: World, cfg: Config, s: Step)
    requires CanStep(w, cfg, s) && !Stores(s) && !s.Claim?
    ensures var v := Next(w, cfg, s);
      && v.savedBy == w.savedBy && v.attempts == w.attempts && !v.phase.Began? && !v.phase.Saved?
      && (v.phase.Saving? ==> (s.Generate? || s.FallBack?) && v.phase.id == w.phase.id)
      && forall id :: EffectsOf(v.table, id).response == EffectsOf(w.table, id).response
  {
    hide WithResponse, Spoken;
  }

  lemma OtherKeepsSaves(w: World, cfg: Config, s: Step)
    requires SavesOk(w) && CanStep(w, cfg, s) && !Stores(s) && !s.Claim?
    requires s.Generate? || s.FallBack? ==> EffectsOf(w.table, w.phase.id).response.None?
    ensures SavesOk(Next(w, cfg, s))
  {
    StepKeepsResponses(w, cfg, s);
    hide Next, CanStep, EffectsOf;
  }

  lemma NextSaves(w: World, cfg: Config, s: Step)
    requires Sound(w, cfg) && CanStep(w, cfg, s)
    ensures SavesOk(Next(w, cfg, s))
  {
    assert RecordsOk(w) && SavesOk(w);
    assert s.Generate? || s.FallBack? ==> EffectsOf(w.table, w.phase.id).response.None?;
    if Stores(s) {
      StoreKeepsSaves(w, cfg, s);
    } else if s.Claim? {
      ClaimKeepsSaves(w, cfg, s.id);
    } else {
      OtherKeepsSaves(w, cfg, s);
    }
    hide Next, SavesOk, RecordsOk, NothingLater, WholeIsAnswer, StreamsOk, NothingEmpty;
  }

  lemma NextOnItsWay(w: World, cfg: Config, s: Step)
    requires Sound(w, cfg) && CanStep(w, cfg, s)
    ensures OnItsWay(Next(w, cfg, s), cfg)
  {
    hide NothingLater, RecordsOk, PhaseOk, StreamsOk, NothingEmpty, WholeIsAnswer, Joined;
  }

  lemma StepSendsAnswer(w: World, cfg: Config, s: Step)
    requires OnItsWay(w, cfg) && CanStep(w, cfg, s) && Next(w, cfg, s).log != w.log
    ensures var v := Next(w, cfg, s);
      var e := v.log[|v.log| - 1];
      e.kind == Whole ==> Answers(w, cfg, e.id, e.n, e.text)
  {
    hide Answers;
  }

  /** What answers a message goes on answering it. */
  lemma StepKeepsAnswers(w: World, cfg: Config, s: Step, id: Id, n: nat, text: Text)
    requires SavesOk(w) && CanStep(w, cfg, s) && Answers(w, cfg, id, n, text)
    ensures Answers(Next(w, cfg, s), cfg, id, n, text)
  {
    StepKeeps(w, cfg, s, id);
  }

  lemma NextAnswers(w: World, cfg: Config, s: Step)
    requires Sound(w, cfg) && CanStep(w, cfg, s)
    ensures WholeIsAnswer(Next(w, cfg, s), cfg)
  {
    NextOnItsWay(w, cfg, s);
    StepLog(w, cfg, s);
    assert SavesOk(w) && OnItsWay(w, cfg) && WholeIsAnswer(w, cfg);
    hide Next, CanStep, Sound, SavesOk, Answers, OnItsWay;
    var v := Next(w, cfg, s);
    if v.log != w.log {
      StepSendsAnswer(w, cfg, s);
    }
    forall i | 0 <= i < |v.log| && v.log[i].kind == Whole
      ensures Answers(v, cfg, v.log[i].id, v.log[i].n, v.log[i].text)
    {
      if i < |w.log| {
        assert v.log[i] == w.log[i];
      }
      StepKeepsAnswers(w, cfg, s, v.log[i].id, v.log[i].n, v.log[i].text);
    }
  }

  lemma NextSound(w: World, cfg: Config, s: Step)
    requires Sound(w, cfg) && CanStep(w, cfg, s)
    ensures Sound(Next(w, cfg, s), cfg)
  {
    NextRecords(w, cfg, s);
    NextPhase(w, cfg, s);
    NextLater(w, cfg, s);
    NextSaves(w, cfg, s);
    NextAnswers(w, cfg, s);
    NextStreams(w, cfg, s);
    NextNothingEmpty(w, cfg, s);
    hide Next, CanStep, RecordsOk, PhaseOk, NothingLater, SavesOk, WholeIsAnswer, StreamsOk, NothingEmpty;
  }

  lemma StartSound(cfg: Config)
    ensures Sound(START, cfg)
  {
  }

  lemma {:induction false} RunSound(w: World, cfg: Config, steps: seq<Step>)
    requires Sound(w, cfg) && CanRun(w, cfg, steps)
    ensures var v := Ran(w, cfg, steps); Sound(v, cfg) && NothingLater(v) && WholeIsAnswer(v, cfg)
    decreases |steps|
  {
    assert NothingLater(w) && WholeIsAnswer(w, cfg);
    hide Sound, Next, CanStep, NothingLater, WholeIsAnswer;
    if steps != [] {
      NextSound(w, cfg, steps[0]);
      RunSound(Next(w, cfg, steps[0]), cfg, steps[1..]);
    }
  }

  // ---- no second reply -----------------------------------------------------

  lemma StepAfterRecord(w: World, cfg: Config, s: Step, id: Id)
    requires Sound(w, cfg) && CanStep(w, cfg, s) && id in w.recordedBy
    ensures var v := Next(w, cfg, s);
      && id in v.recordedBy && v.recordedBy[id] == w.recordedBy[id] && w.log <= v.log
      && forall i :: |w.log| <= i < |v.log| && v.log[i].id == id ==>
           v.log[i].kind == Chunk && v.log[i].n == w.recordedBy[id]
  {
    StepLog(w, cfg, s);
    StepRecordedBy(w, cfg, s);
    if Next(w, cfg, s).log != w.log {
      StepSends(w, cfg, s);
    }
    hide Next, CanStep, SavesOk, NothingLater, WholeIsAnswer, StreamsOk, NothingEmpty, Joined;
  }

  /** Once a delivery or a first chunk is recorded for a message, all that is ever sent for it
      again are further chunks of that very attempt: no retry and no restart repeats it. */
  lemma {:induction false} NoSecondReply(w: World, cfg: Config, steps: seq<Step>, id: Id)
    requires Sound(w, cfg) && CanRun(w, cfg, steps) && id in w.recordedBy
    ensures var v := Ran(w, cfg, steps);
      && w.log <= v.log
      && forall i :: |w.log| <= i < |v.log| && v.log[i].id == id ==>
           v.log[i].kind == Chunk && v.log[i].n == w.recordedBy[id]
    decreases |steps|
  {
    hide Sound, Next, CanStep;
    if steps != [] {
      NextSound(w, cfg, steps[0]);
      StepAfterRecord(w, cfg, steps[0], id);
      NoSecondReply(Next(w, cfg, steps[0]), cfg, steps[1..], id);
    }
  }

  // ---- what is remembered --------------------------------------------------

  /** What a stream held is saved as the response, and remembered. */
  lemma StreamIsStored(w: World, cfg: Config)
    requires Sound(w, cfg) && CanStep(w, cfg, SaveStream)
    ensures CanRun(w, cfg, [SaveStream, Remember])
    ensures var v, p := Ran(w, cfg, [SaveStream, Remember]), w.phase;
      && EffectsOf(v.table, p.id).response == Some(Joined(p.chunks))
      && v.turns == w.turns + [Turn(p.id, p.n, Chunk, Joined(p.chunks))]
  {
    hide SavesOk, NothingLater, WholeIsAnswer, StreamsOk, NothingEmpty, Joined;
    TwoSteps(w, cfg, SaveStream, Remember);
  }

  /** A chunk was heard although its send raised. */
  ghost predicate HeardInVain(log: seq<Send>, id: Id, n: nat) {
    exists i :: 0 <= i < |log| && ChunkOf(log[i], id, n) && !log[i].returned
  }

  lemma JoinedPush(chunks: seq<Text>, last: Text)
    ensures Joined(chunks + [last]) == Joined(chunks) + last
  {
    assert (chunks + [last])[..|chunks|] == chunks;
  }

  /** All chunks together say more than those that returned, unless all did. */
  lemma {:induction false} AllReturnedIff(log: seq<Send>, id: Id, n: nat)
    requires forall i :: 0 <= i < |log| && log[i].kind == Chunk ==> log[i].text != ""
    ensures var all, back := Chunks(log, id, n, true), Chunks(log, id, n, false);
      && |Joined(all)| >= |Joined(back)|
      && if HeardInVain(log, id, n) then |Joined(all)| > |Joined(back)| else all == back
  {
    hide Joined;
    if log != [] {
      var front, last := log[..|log| - 1], log[|log| - 1];
      AllReturnedIff(front, id, n);
      assert log == front + [last] && log[|log| - 1] == last;
      VainPush(front, last, id, n);
      ChunksPush(front, last, id, n, true);
      ChunksPush(front, last, id, n, false);
      JoinedPush(Chunks(front, id, n, true), last.text);
      JoinedPush(Chunks(front, id, n, false), last.text);
      hide Chunks, HeardInVain;
      if ChunkOf(last, id, n) {
        assert last.text != "";
      }
    } else {
      assert Joined([]) == "" by {
        NothingJoined();
      }
    }
  }

  lemma NothingJoined()
    ensures Joined([]) == ""
  {
  }

  lemma VainPush(front: seq<Send>, last: Send, id: Id, n: nat)
    ensures HeardInVain(front + [last], id, n)
       <==> HeardInVain(front, id, n) || (ChunkOf(last, id, n) && !last.returned)
  {
    var log := front + [last];
    assert log[|front|] == last && forall i :: 0 <= i < |front| ==> log[i] == front[i];
  }

  /** A streamed reply that is remembered is, in order, the chunks of its attempt whose sends
      returned; and it is everything the robot heard in that attempt's stream exactly when no chunk
      was heard whose send raised. */
  lemma StreamedTurnWasSpokenIff(w: World, cfg: Config, i: nat)
    requires Sound(w, cfg) && i < |w.turns| && w.turns[i].kind == Chunk
    ensures var t := w.turns[i];
      && t.text == Joined(Chunks(w.log, t.id, t.n, false))
      && (t.text == Joined(Chunks(w.log, t.id, t.n, true)) <==> !HeardInVain(w.log, t.id, t.n))
  {
    hide SavesOk, RecordsOk, PhaseOk, NothingLater, WholeIsAnswer, Joined, Chunks, HeardInVain;
    var t := w.turns[i];
    assert TurnOk(w, t);
    AllReturnedIff(w.log, t.id, t.n);
  }

  /** A whole reply remembered as a turn was spoken exactly when this attempt is the one that
      recorded the delivery. */
  lemma ClosedTurnWasSpokenIff(w: World, cfg: Config)
    requires Sound(w, cfg) && w.phase.Closing? && w.phase.turn
    ensures Send(w.phase.id, w.phase.n, Whole, w.phase.text, true) in w.log <==> w.recordedBy[w.phase.id] == w.phase.n
  {
    hide WholeIsAnswer;
  }

  /** What an attempt goes through from the flag it reads before sending to the remembered turn. */
  function ToTheTurn(sent: bool): seq<Step> {
    if sent then [Deliver, Close] else [Deliver, Record, Close]
  }

  /** A whole reply is remembered in any case, and was spoken exactly when the flag read before
      sending was not set. */
  lemma WholeTurnWasSpokenIff(w: World, cfg: Config)
    requires Sound(w, cfg) && w.phase.Delivering? && w.phase.turn
    ensures CanRun(w, cfg, ToTheTurn(w.phase.sent))
    ensures var v, p := Ran(w, cfg, ToTheTurn(w.phase.sent)), w.phase;
      && v.turns == w.turns + [Turn(p.id, p.n, Whole, p.text)]
      && (Send(p.id, p.n, Whole, p.text, true) in v.log <==> !p.sent)
  {
    var p := w.phase;
    assert p.sent ==> Send(p.id, p.n, Whole, p.text, true) !in w.log;
    hide RecordsOk, PhaseOk, NothingLater, SavesOk, WholeIsAnswer, StreamsOk, NothingEmpty, CanRun, Ran;
    if p.sent {
      TwoSteps(w, cfg, Deliver, Close);
    } else {
      TwoSteps(Next(w, cfg, Deliver), cfg, Record, Close);
      Prepend(w, cfg, Deliver, [Record, Close]);
      assert [Deliver] + [Record, Close] == [Deliver, Record, Close];
    }
  }

  lemma TwoSteps(w: World, cfg: Config, s: Step, t: Step)
    requires CanStep(w, cfg, s) && CanStep(Next(w, cfg, s), cfg, t)
    ensures CanRun(w, cfg, [s, t]) && Ran(w, cfg, [s, t]) == Next(Next(w, cfg, s), cfg, t)
  {
    hide CanStep, Next;
    var v := Next(w, cfg, s);
    NothingLeft(cfg);
    Prepend(v, cfg, t, []);
    Prepend(w, cfg, s, [t] + []);
    assert [s] + ([t] + []) == [s, t];
  }

  lemma NothingLeft(cfg: Config)
    ensures forall w: World :: CanRun(w, cfg, []) && Ran(w, cfg, []) == w
  {
  }

  lemma Prepend(w: World, cfg: Config, s: Step, rest: seq<Step>)
    requires CanStep(w, cfg, s) && CanRun(Next(w, cfg, s), cfg, rest)
    ensures CanRun(w, cfg, [s] + rest) && Ran(w, cfg, [s] + rest) == Ran(Next(w, cfg, s), cfg, rest)
  {
    hide CanStep, Next;
    assert ([s] + rest)[1..] == rest;
  }

  /** From the empty table: whatever happened before and whatever happens after, a message whose
      delivery or first chunk was recorded is only ever answered by further chunks of the attempt
      that recorded it. */
  lemma FromTheStart(cfg: Config, before: seq<Step>, after: seq<Step>, id: Id)
    requires CanRun(START, cfg, before) && CanRun(Ran(START, cfg, before), cfg, after)
    ensures var w := Ran(START, cfg, before);
      var v := Ran(w, cfg, after);
      && NothingLater(w) && WholeIsAnswer(w, cfg)
      && (EffectsOf(w.table, id).sent ==>
            && id in w.recordedBy && w.log <= v.log
            && forall i :: |w.log| <= i < |v.log| && v.log[i].id == id ==>
                 v.log[i].kind == Chunk && v.log[i].n == w.recordedBy[id])
  {
    StartSound(cfg);
    RunSound(START, cfg, before);
    var w := Ran(START, cfg, before);
    if EffectsOf(w.table, id).sent {
      assert id in w.recordedBy;
      hide Sound, Next, CanStep;
      NoSecondReply(w, cfg, after, id);
    }
  }

  /** From the empty table, over every run: so it is with every streamed reply ever remembered. */
  lemma StreamedFromTheStart(cfg: Config, steps: seq<Step>, i: nat)
    requires CanRun(START, cfg, steps) && i < |Ran(START, cfg, steps).turns|
    requires Ran(START, cfg, steps).turns[i].kind == Chunk
    ensures var w := Ran(START, cfg, steps);
      var t := w.turns[i];
      && t.text == Joined(Chunks(w.log, t.id, t.n, false))
      && (t.text == Joined(Chunks(w.log, t.id, t.n, true)) <==> !HeardInVain(w.log, t.id, t.n))
  {
    StartSound(cfg);
    hide Sound, Next, CanStep, Chunks, Joined, HeardInVain;
    RunSound(START, cfg, steps);
    StreamedTurnWasSpokenIff(Ran(START, cfg, steps), cfg, i);
  }

  /** From the empty table, over every run: a usable stored response is what every whole delivery of
      its message said; and where an attempt found an unusable one, it said the fallback. */
  lemma WholeSaysFromTheStart(cfg: Config, steps: seq<Step>, i: nat)
    requires CanRun(START, cfg, steps) && i < |Ran(START, cfg, steps).log|
    requires Ran(START, cfg, steps).log[i].kind == Whole
    ensures var w := Ran(START, cfg, steps);
      var e := w.log[i];
      && EffectsOf(w.table, e.id).response.Some?
      && var stored := EffectsOf(w.table, e.id).response.value;
         && (cfg.usable(stored) ==> e.text == stored)
         && (!cfg.usable(stored) ==>
               && e.id in w.savedBy && w.savedBy[e.id] <= e.n
               && e.text == if e.n == w.savedBy[e.id] then stored else cfg.fallback)
  {
    StartSound(cfg);
    hide Sound, Next, CanStep, CanRun, Ran;
    RunSound(START, cfg, steps);
  }
}
