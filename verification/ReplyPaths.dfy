/**
  What an attempt does that nothing cuts short: every way from the claimed message to its end.
*/
module ReplyPaths {
  import opened Wrappers
  import opened ReplyDelivery

  /** A run followed by a run. */
  lemma {:induction false} Concatenated(w: World, cfg: Config, a: seq<Step>, b: seq<Step>)
    requires CanRun(w, cfg, a) && CanRun(Ran(w, cfg, a), cfg, b)
    ensures CanRun(w, cfg, a + b) && Ran(w, cfg, a + b) == Ran(Ran(w, cfg, a), cfg, b)
    decreases |a|
  {
    hide CanStep, Next;
    if a == [] {
      assert a + b == b;
    } else {
      Concatenated(Next(w, cfg, a[0]), cfg, a[1..], b);
      assert (a + b)[1..] == a[1..] + b;
    }
  }

  /** The last part of a whole answer: what was going to be said is sent, recorded and remembered. */
  lemma Finishes(w: World, cfg: Config)
    requires w.phase.Delivering? && !w.phase.sent && !EffectsOf(w.table, w.phase.id).sent
    ensures var steps := [Deliver, Record, Close];
      CanRun(w, cfg, steps)
      && var v, p := Ran(w, cfg, steps), w.phase;
         && v.phase == Idle && v.log == w.log + [Send(p.id, p.n, Whole, p.text, true)]
         && v.turns == (if p.turn then w.turns + [Turn(p.id, p.n, Whole, p.text)] else w.turns)
         && v.table == w.table[p.id := Effects(EffectsOf(w.table, p.id).response, true)]
         && v.savedBy == w.savedBy && v.recordedBy == w.recordedBy[p.id := p.n]
  {
    var heard := Next(w, cfg, Deliver);
    assert CanStep(w, cfg, Deliver) && CanStep(heard, cfg, Record) && CanStep(Next(heard, cfg, Record), cfg, Close);
    assert heard == w.(phase := heard.phase, log := w.log + [Send(w.phase.id, w.phase.n, Whole, w.phase.text, true)]);
    assert heard.phase == Recording(w.phase.id, w.phase.n, w.phase.text, w.phase.turn);
    hide CanStep, CanRun, Ran;
    TwoSteps(heard, cfg, Record, Close);
    Prepend(w, cfg, Deliver, [Record, Close]);
    assert [Deliver] + [Record, Close] == [Deliver, Record, Close];
  }

  /** The first part of it: the text is made and saved. */
  lemma Prepares(w: World, cfg: Config, text: Text, reply: bool)
    requires w.phase.Began? && EffectsOf(w.table, w.phase.id) == Effects(None, false)
    ensures var steps := [Read, if reply then Generate(text) else FallBack(text), Save, Reread];
      CanRun(w, cfg, steps)
      && var p := w.phase;
         Ran(w, cfg, steps) == w.(phase := Delivering(p.id, p.n, text, reply, false),
           table := w.table[p.id := Effects(Some(text), false)], savedBy := w.savedBy[p.id := p.n])
  {
    var say := if reply then Generate(text) else FallBack(text);
    var made := Next(Next(w, cfg, Read), cfg, say);
    assert CanStep(w, cfg, Read) && CanStep(Next(w, cfg, Read), cfg, say);
    assert made == w.(phase := Saving(w.phase.id, w.phase.n, text, reply));
    assert CanStep(made, cfg, Save) && CanStep(Next(made, cfg, Save), cfg, Reread);
    hide CanStep, Next, CanRun, Ran;
    TwoSteps(w, cfg, Read, say);
    TwoSteps(made, cfg, Save, Reread);
    Concatenated(w, cfg, [Read, say], [Save, Reread]);
    assert [Read, say] + [Save, Reread] == [Read, say, Save, Reread];
  }

  /** A message not answered before gets its reply: sent once, recorded, stored and remembered; a
      fixed line in its place is sent and stored too, but not remembered. */
  lemma AnswersWhole(w: World, cfg: Config, text: Text, reply: bool)
    requires w.phase.Began? && EffectsOf(w.table, w.phase.id) == Effects(None, false)
    ensures var say := if reply then Generate(text) else FallBack(text);
      var steps := [Read, say, Save, Reread, Deliver, Record, Close];
      CanRun(w, cfg, steps)
      && var v, p := Ran(w, cfg, steps), w.phase;
         && v.phase == Idle && v.log == w.log + [Send(p.id, p.n, Whole, text, true)]
         && v.turns == (if reply then w.turns + [Turn(p.id, p.n, Whole, text)] else w.turns)
         && v.table == w.table[p.id := Effects(Some(text), true)]
         && v.savedBy == w.savedBy[p.id := p.n] && v.recordedBy == w.recordedBy[p.id := p.n]
  {
    hide CanRun, Ran;
    var say := if reply then Generate(text) else FallBack(text);
    Prepares(w, cfg, text, reply);
    Finishes(Ran(w, cfg, [Read, say, Save, Reread]), cfg);
    Concatenated(w, cfg, [Read, say, Save, Reread], [Deliver, Record, Close]);
    assert [Read, say, Save, Reread] + [Deliver, Record, Close] == [Read, say, Save, Reread, Deliver, Record, Close];
  }

  /** A response found stored is sent if that was not recorded before, as it is or as the fallback;
      it is not remembered again. */
  lemma AnswersFromTheTable(w: World, cfg: Config, stored: Text)
    requires w.phase.Began? && EffectsOf(w.table, w.phase.id).response == Some(stored)
    ensures var sent := EffectsOf(w.table, w.phase.id).sent;
      var steps := if sent then [Read, Deliver, Close] else [Read, Deliver, Record, Close];
      CanRun(w, cfg, steps)
      && var v, p := Ran(w, cfg, steps), w.phase;
         && v.phase == Idle && v.turns == w.turns && v.savedBy == w.savedBy
         && EffectsOf(v.table, p.id) == Effects(Some(stored), true)
         && v.log == if sent then w.log
                     else w.log + [Send(p.id, p.n, Whole, if cfg.usable(stored) then stored else cfg.fallback, true)]
  {
    var read := Next(w, cfg, Read);
    assert CanStep(w, cfg, Read) && read.phase.Delivering? && !read.phase.turn;
    if read.phase.sent {
      assert CanStep(read, cfg, Deliver) && CanStep(Next(read, cfg, Deliver), cfg, Close);
      hide CanStep, CanRun, Ran;
      TwoSteps(read, cfg, Deliver, Close);
      Prepend(w, cfg, Read, [Deliver, Close]);
      assert [Read] + [Deliver, Close] == [Read, Deliver, Close];
    } else {
      hide CanStep, CanRun, Ran;
      Finishes(read, cfg);
      Prepend(w, cfg, Read, [Deliver, Record, Close]);
      assert [Read] + [Deliver, Record, Close] == [Read, Deliver, Record, Close];
    }
  }

  /** A delivery that raised leaves the tables as they are, for the next attempt to try again,
      whether or not it was heard. */
  lemma LostDeliveryIsTriedAgain(w: World, cfg: Config, heard: bool)
    requires w.phase.Delivering? && !w.phase.sent
    ensures CanStep(w, cfg, LoseDelivery(heard))
    ensures var v, p := Next(w, cfg, LoseDelivery(heard)), w.phase;
      && v == w.(phase := Idle, log := v.log)
      && v.log == if heard then w.log + [Send(p.id, p.n, Whole, p.text, false)] else w.log
  {
  }

  /** A message that needs no answer is let go; so is any attempt that breaks off. */
  lemma LetGo(w: World, cfg: Config)
    ensures Next(w, cfg, BreakOff) == w.(phase := Idle)
    ensures w.phase.Producing? ==> CanStep(w, cfg, Decline) && Next(w, cfg, Decline) == w.(phase := Idle)
  {
  }

  // ---- streaming -----------------------------------------------------------

  function ChunkSteps(chunks: seq<Text>): seq<Step> {
    if chunks == [] then [] else ChunkSteps(chunks[..|chunks| - 1]) + [SendChunk(chunks[|chunks| - 1]), RecordChunk]
  }

  function ChunksSent(id: Id, n: nat, chunks: seq<Text>): seq<Send> {
    seq(|chunks|, i requires 0 <= i < |chunks| => Send(id, n, Chunk, chunks[i], true))
  }

  /** In the middle of a stream, so many chunks on. */
  function MidStream(w: World, id: Id, n: nat, chunks: seq<Text>): World {
    if chunks == [] then w.(phase := Streaming(id, n, []))
    else w.(phase := Streaming(id, n, chunks), log := w.log + ChunksSent(id, n, chunks),
            table := w.table[id := Effects(None, true)], recordedBy := w.recordedBy[id := n])
  }

  predicate MayStream(cfg: Config, chunks: seq<Text>) {
    cfg.stream && (forall i :: 0 <= i < |chunks| ==> chunks[i] != "") && (chunks != [] ==> cfg.usable(chunks[0]))
  }

  lemma {:induction false} StreamsChunks(w: World, cfg: Config, id: Id, n: nat, chunks: seq<Text>)
    requires MayStream(cfg, chunks) && EffectsOf(w.table, id) == Effects(None, false)
    ensures CanRun(MidStream(w, id, n, []), cfg, ChunkSteps(chunks))
    ensures Ran(MidStream(w, id, n, []), cfg, ChunkSteps(chunks)) == MidStream(w, id, n, chunks)
  {
    if chunks != [] {
      var front, last := chunks[..|chunks| - 1], chunks[|chunks| - 1];
      StreamsChunks(w, cfg, id, n, front);
      OneMoreChunk(w, cfg, id, n, front, last);
      assert front + [last] == chunks;
      hide MidStream, CanRun, Ran;
      Concatenated(MidStream(w, id, n, []), cfg, ChunkSteps(front), [SendChunk(last), RecordChunk]);
    } else {
      NothingLeft(cfg);
    }
  }

  /** A further chunk is sent, and recorded if it is the first. */
  lemma ChunkGoesOut(w: World, cfg: Config, text: Text)
    requires w.phase.Streaming? && cfg.stream && text != "" && (w.phase.chunks == [] ==> cfg.usable(text))
    requires EffectsOf(w.table, w.phase.id) == Effects(None, w.phase.chunks != [])
    ensures CanRun(w, cfg, [SendChunk(text), RecordChunk])
    ensures var v, p := Ran(w, cfg, [SendChunk(text), RecordChunk]), w.phase;
      && v.phase == Streaming(p.id, p.n, p.chunks + [text])
      && v.log == w.log + [Send(p.id, p.n, Chunk, text, true)]
      && v == w.(phase := v.phase, log := v.log, table := w.table[p.id := Effects(None, true)],
                 recordedBy := if p.chunks == [] then w.recordedBy[p.id := p.n] else w.recordedBy)
  {
    assert CanStep(w, cfg, SendChunk(text)) && CanStep(Next(w, cfg, SendChunk(text)), cfg, RecordChunk);
    hide CanStep, CanRun, Ran;
    TwoSteps(w, cfg, SendChunk(text), RecordChunk);
  }

  lemma OneMoreChunk(w: World, cfg: Config, id: Id, n: nat, front: seq<Text>, last: Text)
    requires MayStream(cfg, front + [last]) && EffectsOf(w.table, id) == Effects(None, false)
    ensures var u := MidStream(w, id, n, front);
      && CanRun(u, cfg, [SendChunk(last), RecordChunk])
      && Ran(u, cfg, [SendChunk(last), RecordChunk]) == MidStream(w, id, n, front + [last])
  {
    var u := MidStream(w, id, n, front);
    assert (front + [last])[|front|] == last && (front != [] ==> (front + [last])[0] == front[0]);
    assert ChunksSent(id, n, front + [last]) == ChunksSent(id, n, front) + [Send(id, n, Chunk, last, true)];
    assert u.log == w.log + ChunksSent(id, n, front);
    assert EffectsOf(u.table, id) == Effects(None, front != []);
    assert u.table[id := Effects(None, true)] == w.table[id := Effects(None, true)];
    hide CanRun, Ran, MayStream;
    ChunkGoesOut(u, cfg, last);
  }

  /** A message not answered before can be answered by a stream: every sentence is sent once and in
      order, the first is recorded, and all of them together are stored and remembered. */
  lemma AnswersByStream(w: World, cfg: Config, chunks: seq<Text>)
    requires w.phase.Began? && EffectsOf(w.table, w.phase.id) == Effects(None, false)
    requires MayStream(cfg, chunks) && chunks != []
    ensures var steps := [Read, StartStream] + ChunkSteps(chunks) + [EndStream, SaveStream, Remember];
      CanRun(w, cfg, steps)
      && var v, p := Ran(w, cfg, steps), w.phase;
         && v.phase == Idle && v.log == w.log + ChunksSent(p.id, p.n, chunks)
         && v.turns == w.turns + [Turn(p.id, p.n, Chunk, Joined(chunks))]
         && EffectsOf(v.table, p.id) == Effects(Some(Joined(chunks)), true)
         && v.savedBy == w.savedBy[p.id := p.n] && v.recordedBy == w.recordedBy[p.id := p.n]
  {
    var p, start := w.phase, [Read, StartStream];
    assert CanStep(w, cfg, Read) && CanStep(Next(w, cfg, Read), cfg, StartStream);
    assert Next(Next(w, cfg, Read), cfg, StartStream) == MidStream(w, p.id, p.n, []);
    hide CanStep, Next, CanRun, Ran;
    TwoSteps(w, cfg, Read, StartStream);
    StreamsChunks(w, cfg, p.id, p.n, chunks);
    EndsStream(MidStream(w, p.id, p.n, chunks), cfg);
    Concatenated(w, cfg, start, ChunkSteps(chunks));
    Concatenated(w, cfg, start + ChunkSteps(chunks), [EndStream, SaveStream, Remember]);
  }

  /** The end of a stream that spoke: all that was said is stored and remembered. */
  lemma EndsStream(w: World, cfg: Config)
    requires w.phase.Streaming? && w.phase.chunks != [] && EffectsOf(w.table, w.phase.id).response == None
    ensures var steps := [EndStream, SaveStream, Remember];
      CanRun(w, cfg, steps)
      && var v, p := Ran(w, cfg, steps), w.phase;
         && v.phase == Idle && v.log == w.log && v.recordedBy == w.recordedBy
         && v.turns == w.turns + [Turn(p.id, p.n, Chunk, Joined(p.chunks))]
         && EffectsOf(v.table, p.id) == Effects(Some(Joined(p.chunks)), EffectsOf(w.table, p.id).sent)
         && v.savedBy == w.savedBy[p.id := p.n]
  {
    hide Joined;
    var v := Next(w, cfg, EndStream);
    assert CanStep(w, cfg, EndStream) && CanStep(v, cfg, SaveStream) && CanStep(Next(v, cfg, SaveStream), cfg, Remember);
    hide CanStep, CanRun, Ran;
    TwoSteps(v, cfg, SaveStream, Remember);
    Prepend(w, cfg, EndStream, [SaveStream, Remember]);
    assert [EndStream] + [SaveStream, Remember] == [EndStream, SaveStream, Remember];
  }

  /** A first sentence that could not be sent ends the stream, and a whole reply is made instead; a
      later one is left out, and the stream goes on.  A chunk that could not be recorded is kept. */
  lemma LostChunkIsLeftOut(w: World, cfg: Config, text: Text, heard: bool)
    requires w.phase.Streaming? && CanStep(w, cfg, LoseChunk(text, heard))
    ensures Next(w, cfg, LoseChunk(text, heard)).phase ==
      if w.phase.chunks == [] then Single(w.phase.id, w.phase.n) else w.phase
    ensures var v := Next(w, cfg, SendChunk(text));
      && CanStep(v, cfg, MissChunk)
      && Next(v, cfg, MissChunk).phase == Streaming(w.phase.id, w.phase.n, w.phase.chunks + [text])
  {
  }

  /** When nothing was streamed, a reply or a fixed line is made whole after all. */
  lemma SingleIsMadeWhole(w: World, cfg: Config, text: Text)
    requires w.phase.Single? || w.phase.Producing?
    ensures CanStep(w, cfg, Generate(text)) && CanStep(w, cfg, FallBack(text))
    ensures Next(w, cfg, Generate(text)).phase == Saving(w.phase.id, w.phase.n, text, true)
    ensures Next(w, cfg, FallBack(text)).phase == Saving(w.phase.id, w.phase.n, text, false)
  {
  }
}
