/**
  A run in which the transcript remembers a reply nobody heard, and one in which it does not
  remember all that was heard.
*/
module ReplyWitness {
  import opened Wrappers
  import opened ReplyDelivery

  const SPOKEN_UNSAVED: seq<Step> :=
    [Claim(1), Read, StartStream, SendChunk("a"), RecordChunk, EndStream, BreakOff]
  const RETRIED: seq<Step> := [Claim(1), Read, Generate("b"), Save, Reread, Deliver, Close]

  /** A stream that spoke but could not be saved is followed, on the retry, by a reply that is
      remembered but was never spoken. */
  lemma UnspokenTurn(cfg: Config)
    requires cfg.stream && cfg.usable("a") && cfg.usable("b")
    ensures CanRun(START, cfg, SPOKEN_UNSAVED) && CanRun(Ran(START, cfg, SPOKEN_UNSAVED), cfg, RETRIED)
    ensures var v := Ran(Ran(START, cfg, SPOKEN_UNSAVED), cfg, RETRIED);
      v.turns == [Turn(1, 2, Whole, "b")] && v.log == HEARD
  {
    hide Next, CanStep, CanRun, Ran, Spoke, Retried;
    FirstAttempt(cfg, 0);
    SecondAttempt(cfg, 0);
    assert SPOKEN_UNSAVED[0..] == SPOKEN_UNSAVED && RETRIED[0..] == RETRIED;
    Ends();
  }

  const HEARD := [Send(1, 1, Chunk, "a", true)]

  /** The worlds of the first attempt. */
  function Spoke(i: nat): World
    requires i <= 7
  {
    match i
    case 0 => START
    case 1 => START.(phase := Began(1, 1), attempts := map[1 := 1])
    case 2 => START.(phase := Producing(1, 1, false), attempts := map[1 := 1])
    case 3 => START.(phase := Streaming(1, 1, []), attempts := map[1 := 1])
    case 4 => START.(phase := ChunkOut(1, 1, ["a"]), attempts := map[1 := 1], log := HEARD)
    case 5 => World(map[1 := Effects(None, true)], Streaming(1, 1, ["a"]), map[1 := 1], HEARD, [], map[1 := 1], map[])
    case 6 => World(map[1 := Effects(None, true)], StreamEnded(1, 1, ["a"]), map[1 := 1], HEARD, [], map[1 := 1], map[])
    case _ => World(map[1 := Effects(None, true)], Idle, map[1 := 1], HEARD, [], map[1 := 1], map[])
  }

  /** The worlds of the second. */
  function Retried(i: nat): World
    requires i <= 7
  {
    var begun := World(map[1 := Effects(None, true)], Began(1, 2), map[1 := 2], HEARD, [], map[1 := 1], map[]);
    var saved := begun.(table := map[1 := Effects(Some("b"), true)], savedBy := map[1 := 2]);
    match i
    case 0 => Spoke(7)
    case 1 => begun
    case 2 => begun.(phase := Producing(1, 2, true))
    case 3 => begun.(phase := Saving(1, 2, "b", true))
    case 4 => saved.(phase := Saved(1, 2, "b", true))
    case 5 => saved.(phase := Delivering(1, 2, "b", true, true))
    case 6 => saved.(phase := Closing(1, 2, "b", true))
    case _ => saved.(phase := Idle, turns := [Turn(1, 2, Whole, "b")])
  }

  lemma SpokeStep(cfg: Config, i: nat)
    requires i < 7 && cfg.stream && cfg.usable("a")
    ensures CanStep(Spoke(i), cfg, SPOKEN_UNSAVED[i]) && Next(Spoke(i), cfg, SPOKEN_UNSAVED[i]) == Spoke(i + 1)
  {
    var none: seq<Text> := [];
    var silent: seq<Send> := [];
    assert none + ["a"] == ["a"] && silent + HEARD == HEARD;
    var nobody: map<Id, nat> := map[];
    var nothing: map<Id, Effects> := map[];
    assert nobody[1 := 1] == map[1 := 1] && nothing[1 := Effects(None, true)] == map[1 := Effects(None, true)];
  }

  lemma RetriedStep(cfg: Config, i: nat)
    requires i < 7 && cfg.usable("b")
    ensures CanStep(Retried(i), cfg, RETRIED[i]) && Next(Retried(i), cfg, RETRIED[i]) == Retried(i + 1)
  {
  }

  lemma {:induction false} FirstAttempt(cfg: Config, i: nat)
    requires i <= 7 && cfg.stream && cfg.usable("a")
    ensures CanRun(Spoke(i), cfg, SPOKEN_UNSAVED[i..]) && Ran(Spoke(i), cfg, SPOKEN_UNSAVED[i..]) == Spoke(7)
    decreases 7 - i
  {
    hide Next, CanStep, Spoke;
    if i < 7 {
      SpokeStep(cfg, i);
      FirstAttempt(cfg, i + 1);
      Prepend(Spoke(i), cfg, SPOKEN_UNSAVED[i], SPOKEN_UNSAVED[i + 1..]);
      assert SPOKEN_UNSAVED[i..] == [SPOKEN_UNSAVED[i]] + SPOKEN_UNSAVED[i + 1..];
    }
  }

  lemma {:induction false} SecondAttempt(cfg: Config, i: nat)
    requires i <= 7 && cfg.usable("b")
    ensures CanRun(Retried(i), cfg, RETRIED[i..]) && Ran(Retried(i), cfg, RETRIED[i..]) == Retried(7)
    decreases 7 - i
  {
    hide Next, CanStep, Retried;
    if i < 7 {
      RetriedStep(cfg, i);
      SecondAttempt(cfg, i + 1);
      Prepend(Retried(i), cfg, RETRIED[i], RETRIED[i + 1..]);
      assert RETRIED[i..] == [RETRIED[i]] + RETRIED[i + 1..];
    }
  }

  lemma Ends()
    ensures Spoke(0) == START && Retried(0) == Spoke(7)
    ensures Retried(7).turns == [Turn(1, 2, Whole, "b")] && Retried(7).log == HEARD
  {
  }

  // ---- heard and not remembered --------------------------------------------

  const HALF_HEARD: seq<Step> :=
    [Claim(1), Read, StartStream, SendChunk("a"), RecordChunk, LoseChunk("b", true), EndStream, SaveStream, Remember]

  const BOTH := [Send(1, 1, Chunk, "a", true), Send(1, 1, Chunk, "b", false)]

  /** The worlds of that attempt. */
  function Half(i: nat): World
    requires i <= 9
  {
    var both := World(map[1 := Effects(None, true)], Streaming(1, 1, ["a"]), map[1 := 1], BOTH, [], map[1 := 1], map[]);
    var saved := both.(table := map[1 := Effects(Some("a"), true)], savedBy := map[1 := 1]);
    match i
    case 6 => both
    case 7 => both.(phase := StreamEnded(1, 1, ["a"]))
    case 8 => saved.(phase := Streamed(1, 1, ["a"], "a"))
    case 9 => saved.(phase := Idle, turns := [Turn(1, 1, Chunk, "a")])
    case _ => Spoke(i)
  }

  lemma HalfStep(cfg: Config, i: nat)
    requires i < 9 && cfg.stream && cfg.usable("a")
    ensures CanStep(Half(i), cfg, HALF_HEARD[i]) && Next(Half(i), cfg, HALF_HEARD[i]) == Half(i + 1)
  {
    if i < 5 {
      SpokeStep(cfg, i);
      assert HALF_HEARD[i] == SPOKEN_UNSAVED[i];
    } else {
      assert HEARD + [Send(1, 1, Chunk, "b", false)] == BOTH;
      assert ["a"][..0] == [] && Joined(["a"]) == "" + "a" == "a";
    }
  }

  lemma {:induction false} HalfAttempt(cfg: Config, i: nat)
    requires i <= 9 && cfg.stream && cfg.usable("a")
    ensures CanRun(Half(i), cfg, HALF_HEARD[i..]) && Ran(Half(i), cfg, HALF_HEARD[i..]) == Half(9)
    decreases 9 - i
  {
    hide Next, CanStep, Half;
    if i < 9 {
      HalfStep(cfg, i);
      HalfAttempt(cfg, i + 1);
      Prepend(Half(i), cfg, HALF_HEARD[i], HALF_HEARD[i + 1..]);
      assert HALF_HEARD[i..] == [HALF_HEARD[i]] + HALF_HEARD[i + 1..];
    }
  }

  /** A chunk whose send raised after it was heard is missing from the remembered reply. */
  lemma HeardAndForgotten(cfg: Config)
    requires cfg.stream && cfg.usable("a")
    ensures CanRun(START, cfg, HALF_HEARD)
    ensures var v := Ran(START, cfg, HALF_HEARD);
      v.turns == [Turn(1, 1, Chunk, "a")] && Chunks(v.log, 1, 1, true) == ["a", "b"]
  {
    hide Next, CanStep, CanRun, Ran;
    HalfAttempt(cfg, 0);
    assert HALF_HEARD[0..] == HALF_HEARD;
    assert BOTH[..1] == [BOTH[0]] && [BOTH[0]][..0] == [];
  }
}
