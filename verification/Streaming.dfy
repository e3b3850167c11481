/**
  Incremental sentence chunking of a streamed reply.

  `SentenceAssembler` is the mutable object; `Fed`, `AfterFeed` and `Flushed` say what its
  methods compute.  The main results: how a text is cut into deltas never matters
  (`SplitsAgree`), and a whole reply loses nothing that can be spoken (`ReplyConserved`).
*/
module Streaming {
  import opened Wrappers

  // ---- characters ----------------------------------------------------------

  predicate IsTerminator(c: char) {
    c == '\U{3002}' || c == '\U{FF01}' || c == '\U{FF1F}'
  }

  /** Python's `str.isspace` for one character, which is also what `str.strip` removes. */
  predicate IsSpace(c: char) {
    || '\t' <= c <= '\r' || '\U{1C}' <= c <= ' '
    || c == '\U{85}' || c == '\U{A0}' || c == '\U{1680}'
    || '\U{2000}' <= c <= '\U{200A}' || c == '\U{2028}' || c == '\U{2029}'
    || c == '\U{202F}' || c == '\U{205F}' || c == '\U{3000}'
  }

  predicate IsSpeakable(c: char) {
    !IsSpace(c) && !IsTerminator(c)
  }

  predicate Speakable(s: string) {
    s != [] && (IsSpeakable(s[0]) || Speakable(s[1..]))
  }

  /** The speakable characters of a text, in order. */
  function Spoken(s: string): string {
    if s == [] then []
    else if IsSpeakable(s[0]) then [s[0]] + Spoken(s[1..])
    else Spoken(s[1..])
  }

  lemma {:induction false} SpokenEmpty(s: string)
    ensures Spoken(s) == [] <==> !Speakable(s)
  {
    if s != [] {
      SpokenEmpty(s[1..]);
    }
  }

  function SpokenAll(chunks: seq<string>): string {
    if chunks == [] then [] else Spoken(chunks[0]) + SpokenAll(chunks[1..])
  }

  lemma {:induction false} SpokenConcat(a: string, b: string)
    ensures Spoken(a + b) == Spoken(a) + Spoken(b)
  {
    if a == [] {
      assert a + b == b;
    } else {
      SpokenConcat(a[1..], b);
      assert (a + b)[1..] == a[1..] + b;
    }
  }

  lemma {:induction false} SpokenAllConcat(a: seq<string>, b: seq<string>)
    ensures SpokenAll(a + b) == SpokenAll(a) + SpokenAll(b)
  {
    if a == [] {
      assert a + b == b;
    } else {
      SpokenAllConcat(a[1..], b);
      assert (a + b)[0] == a[0] && (a + b)[1..] == a[1..] + b;
      assert SpokenAll(a + b) == Spoken(a[0]) + (SpokenAll(a[1..]) + SpokenAll(b));
    }
  }

  // ---- stripping -----------------------------------------------------------

  function StripLeft(s: string): string {
    if s != [] && IsSpace(s[0]) then StripLeft(s[1..]) else s
  }

  function StripRight(s: string): string {
    if s != [] && IsSpace(s[|s| - 1]) then StripRight(s[..|s| - 1]) else s
  }

  function Strip(s: string): string {
    StripRight(StripLeft(s))
  }

  lemma {:induction false} StripLeftSpoken(s: string)
    ensures Spoken(StripLeft(s)) == Spoken(s)
  {
    if s != [] && IsSpace(s[0]) {
      StripLeftSpoken(s[1..]);
    }
  }

  lemma {:induction false} StripRightSpoken(s: string)
    ensures Spoken(StripRight(s)) == Spoken(s)
  {
    if s != [] && IsSpace(s[|s| - 1]) {
      var front, last := s[..|s| - 1], s[|s| - 1..];
      StripRightSpoken(front);
      SpokenConcat(front, last);
      assert front + last == s;
      assert last == [s[|s| - 1]];
    }
  }

  lemma StripSpoken(s: string)
    ensures Spoken(Strip(s)) == Spoken(s)
    ensures Speakable(Strip(s)) <==> Speakable(s)
  {
    StripLeftSpoken(s);
    StripRightSpoken(StripLeft(s));
    SpokenEmpty(s);
    SpokenEmpty(Strip(s));
  }

  // ---- sentence boundaries -------------------------------------------------

  /** `e` ends the first completed sentence of `s`: the first run of terminators is
      `s[p..e]`, and another character already follows it. */
  ghost predicate FirstRun(s: string, p: nat, e: nat) {
    && p < e <= |s|
    && (forall i :: 0 <= i < p ==> !IsTerminator(s[i]))
    && (forall i :: p <= i < e ==> IsTerminator(s[i]))
    && (e < |s| ==> !IsTerminator(s[e]))
  }

  ghost predicate IsBoundary(s: string, e: nat) {
    e < |s| && exists p: nat :: FirstRun(s, p, e)
  }

  /** Where the first terminator of `s` at or after `from` is, or `|s|`. */
  function NextTerminator(s: string, from: nat): (p: nat)
    requires from <= |s|
    ensures from <= p <= |s|
    decreases |s| - from
  {
    if from == |s| || IsTerminator(s[from]) then from else NextTerminator(s, from + 1)
  }

  function RunEnd(s: string, from: nat): (e: nat)
    requires from <= |s|
    ensures from <= e <= |s|
    ensures from < |s| && IsTerminator(s[from]) ==> from < e
    decreases |s| - from
  {
    if from < |s| && IsTerminator(s[from]) then RunEnd(s, from + 1) else from
  }

  lemma {:induction false} NextTerminatorFirst(s: string, from: nat)
    requires from <= |s|
    ensures var p := NextTerminator(s, from);
      && (forall i :: from <= i < p ==> !IsTerminator(s[i]))
      && (p < |s| ==> IsTerminator(s[p]))
    decreases |s| - from
  {
    if from < |s| && !IsTerminator(s[from]) {
      NextTerminatorFirst(s, from + 1);
    }
  }

  lemma {:induction false} RunEndMaximal(s: string, from: nat)
    requires from <= |s|
    ensures var e := RunEnd(s, from);
      && (forall i :: from <= i < e ==> IsTerminator(s[i]))
      && (e < |s| ==> !IsTerminator(s[e]))
    decreases |s| - from
  {
    if from < |s| && IsTerminator(s[from]) {
      RunEndMaximal(s, from + 1);
    }
  }

  /** A text with a terminator has a first run of them. */
  lemma RunFound(s: string)
    ensures var p := NextTerminator(s, 0); p < |s| ==> FirstRun(s, p, RunEnd(s, p))
    ensures NextTerminator(s, 0) == |s| ==> forall i :: 0 <= i < |s| ==> !IsTerminator(s[i])
  {
    NextTerminatorFirst(s, 0);
    RunEndMaximal(s, NextTerminator(s, 0));
  }

  function Boundary(s: string): (r: Option<nat>)
    ensures r.Some? ==> 0 < r.value < |s|
  {
    assert NextTerminator(s, 0) < |s| ==> RunEnd(s, NextTerminator(s, 0)) > 0 by {
      RunFound(s);
    }
    var p := NextTerminator(s, 0);
    if p == |s| || RunEnd(s, p) == |s| then None else Some(RunEnd(s, p))
  }

  lemma FirstRunUnique(s: string, p: nat, e: nat, q: nat, f: nat)
    requires FirstRun(s, p, e) && FirstRun(s, q, f)
    ensures p == q && e == f
  {
    assert IsTerminator(s[p]) && IsTerminator(s[q]);
    assert e < |s| ==> !IsTerminator(s[e]);
    assert f < |s| ==> !IsTerminator(s[f]);
  }

  /** `Boundary` finds the end of the first completed sentence, if there is one. */
  lemma BoundaryCorrect(s: string)
    ensures forall e: nat :: IsBoundary(s, e) <==> Boundary(s) == Some(e)
  {
    var p := NextTerminator(s, 0);
    RunFound(s);
    forall e: nat | IsBoundary(s, e) ensures Boundary(s) == Some(e) {
      var q: nat :| FirstRun(s, q, e);
      assert IsTerminator(s[q]);
      FirstRunUnique(s, q, e, p, RunEnd(s, p));
    }
  }

  /** A sentence that is complete stays complete, and the same, when more text arrives. */
  lemma BoundaryStable(s: string, more: string)
    requires Boundary(s).Some?
    ensures Boundary(s + more) == Boundary(s)
  {
    BoundaryCorrect(s);
    BoundaryCorrect(s + more);
    var e := Boundary(s).value;
    var p: nat :| FirstRun(s, p, e);
    assert FirstRun(s + more, p, e);
  }

  // ---- what feed and flush compute -----------------------------------------

  /** How many more sentences may be spoken once the sentence before `e` has been cut off. */
  function RoomAfter(buffer: string, e: nat, room: nat): (left: nat)
    requires 0 < room && e <= |buffer|
  {
    if Speakable(Strip(buffer[..e])) then room - 1 else room
  }

  /** The sentences taken off the front of `buffer` when at most `room` may be spoken. */
  function Chunks(buffer: string, room: nat): (r: seq<string>)
    decreases |buffer|
  {
    if room == 0 || Boundary(buffer).None? then []
    else
      var e := Boundary(buffer).value;
      var later := Chunks(buffer[e..], RoomAfter(buffer, e, room));
      if Speakable(Strip(buffer[..e])) then [Strip(buffer[..e])] + later else later
  }

  /** What stays in the buffer after that. */
  function Rest(buffer: string, room: nat): string
    decreases |buffer|
  {
    if room == 0 || Boundary(buffer).None? then buffer
    else
      var e := Boundary(buffer).value;
      Rest(buffer[e..], RoomAfter(buffer, e, room))
  }

  datatype State = State(buffer: string, emitted: nat)

  function Room(maxChunks: nat, emitted: nat): nat {
    if emitted + 1 < maxChunks then maxChunks - 1 - emitted else 0
  }

  function Fed(maxChunks: nat, st: State, delta: string): seq<string> {
    if delta == [] then [] else Chunks(st.buffer + delta, Room(maxChunks, st.emitted))
  }

  function AfterFeed(maxChunks: nat, st: State, delta: string): State {
    if delta == [] then st
    else
      State(Rest(st.buffer + delta, Room(maxChunks, st.emitted)),
            st.emitted + |Fed(maxChunks, st, delta)|)
  }

  /** The text up to and including its last terminator. */
  function CompletePrefix(s: string): (r: string)
    ensures r <= s
    ensures r == [] || IsTerminator(r[|r| - 1])
    ensures forall i :: |r| <= i < |s| ==> !IsTerminator(s[i])
  {
    if s == [] then []
    else if IsTerminator(s[|s| - 1]) then s
    else CompletePrefix(s[..|s| - 1])
  }

  lemma CompletePrefixUnique(s: string, r: string)
    requires r <= s
    requires r == [] || IsTerminator(r[|r| - 1])
    requires forall i :: |r| <= i < |s| ==> !IsTerminator(s[i])
    ensures CompletePrefix(s) == r
  {
    var c := CompletePrefix(s);
    assert c != [] ==> IsTerminator(s[|c| - 1]);
    assert r != [] ==> IsTerminator(s[|r| - 1]);
  }

  function Flushed(buffer: string, completeOnly: bool): seq<string> {
    var remainder := Strip(if completeOnly then CompletePrefix(buffer) else buffer);
    if Speakable(remainder) then [remainder] else []
  }

  // ---- the mutable assembler -----------------------------------------------

  method CompleteSentencePrefix(text: string) returns (r: string)
    ensures r == CompletePrefix(text)
  {
    var index := |text|;
    while index > 0
      invariant 0 <= index <= |text|
      invariant forall i :: index <= i < |text| ==> !IsTerminator(text[i])
    {
      index := index - 1;
      if IsTerminator(text[index]) {
        CompletePrefixUnique(text, text[..index + 1]);
        return text[..index + 1];
      }
    }
    CompletePrefixUnique(text, []);
    return "";
  }

  class SentenceAssembler {
    const maxChunks: nat
    var buffer: string
    var emitted: nat

    ghost function Abs(): State
      reads this
    {
      State(buffer, emitted)
    }

    constructor (maxChunks: nat)
      requires maxChunks >= 1
      ensures this.maxChunks == maxChunks && Abs() == State("", 0)
    {
      this.maxChunks := maxChunks;
      buffer := "";
      emitted := 0;
    }

    method Feed(delta: string) returns (completed: seq<string>)
      requires maxChunks >= 1
      modifies this
      ensures Abs() == AfterFeed(maxChunks, old(Abs()), delta)
      ensures completed == Fed(maxChunks, old(Abs()), delta)
    {
      hide Chunks, Rest, Strip, Speakable;
      completed := [];
      if delta == [] {
        return;
      }
      buffer := buffer + delta;
      ghost var text, first := buffer, emitted;
      while emitted < maxChunks - 1
        invariant emitted == first + |completed|
        invariant Rest(text, Room(maxChunks, first)) == Rest(buffer, Room(maxChunks, emitted))
        invariant Chunks(text, Room(maxChunks, first))
               == completed + Chunks(buffer, Room(maxChunks, emitted))
        decreases |buffer|
      {
        var boundary := SentenceBoundary();
        DrainDone(buffer, Room(maxChunks, emitted));
        if boundary.None? {
          break;
        }
        var sentence := Strip(buffer[..boundary.value]);
        DrainStep(buffer, boundary.value, Room(maxChunks, emitted));
        buffer := buffer[boundary.value..];
        if Speakable(sentence) {
          completed := completed + [sentence];
          emitted := emitted + 1;
        }
      }
      DrainDone(buffer, Room(maxChunks, emitted));
    }

    method Flush(completeOnly: bool) returns (chunks: seq<string>)
      modifies this
      ensures chunks == Flushed(old(buffer), completeOnly)
      ensures Abs() == State("", old(emitted) + |chunks|)
    {
      var remainder := buffer;
      buffer := "";
      if completeOnly {
        remainder := CompleteSentencePrefix(remainder);
      }
      remainder := Strip(remainder);
      if !Speakable(remainder) {
        return [];
      }
      emitted := emitted + 1;
      return [remainder];
    }

    method SentenceBoundary() returns (r: Option<nat>)
      ensures r == Boundary(buffer)
    {
      for position := 0 to |buffer|
        invariant forall i :: 0 <= i < position ==> !IsTerminator(buffer[i])
      {
        if !IsTerminator(buffer[position]) {
          continue;
        }
        var end := position + 1;
        while end < |buffer| && IsTerminator(buffer[end])
          invariant position < end <= |buffer|
          invariant forall i :: position <= i < end ==> IsTerminator(buffer[i])
        {
          end := end + 1;
        }
        RunFound(buffer);
        FirstRunUnique(buffer, position, end, NextTerminator(buffer, 0), RunEnd(buffer, NextTerminator(buffer, 0)));
        if end == |buffer| {
          return None;
        }
        return Some(end);
      }
      RunFound(buffer);
      return None;
    }
  }

  // ---- the cut of the stream never matters ---------------------------------

  lemma {:induction false} ChunksFit(buffer: string, room: nat)
    ensures |Chunks(buffer, room)| <= room
    decreases |buffer|
  {
    if room != 0 && Boundary(buffer).Some? {
      var e := Boundary(buffer).value;
      ChunksFit(buffer[e..], RoomAfter(buffer, e, room));
    }
  }

  lemma CutAppend(buffer: string, more: string, e: nat)
    requires e <= |buffer|
    ensures (buffer + more)[..e] == buffer[..e]
    ensures (buffer + more)[e..] == buffer[e..] + more
  {
  }

  /** When the draining loop stops. */
  lemma DrainDone(buffer: string, room: nat)
    ensures room == 0 || Boundary(buffer).None? ==>
      Rest(buffer, room) == buffer && Chunks(buffer, room) == []
  {
  }

  /** One turn of the draining loop. */
  lemma DrainStep(buffer: string, e: nat, room: nat)
    requires room > 0 && e <= |buffer| && Boundary(buffer) == Some(e)
    ensures Rest(buffer, room) == Rest(buffer[e..], RoomAfter(buffer, e, room))
    ensures Chunks(buffer, room)
         == (if Speakable(Strip(buffer[..e])) then [Strip(buffer[..e])] else [])
            + Chunks(buffer[e..], RoomAfter(buffer, e, room))
  {
  }

  lemma AppendSteps(buffer: string, more: string, e: nat, room: nat)
    requires room > 0 && e <= |buffer| && Boundary(buffer) == Some(e)
    ensures Rest(buffer + more, room) == Rest(buffer[e..] + more, RoomAfter(buffer, e, room))
    ensures Chunks(buffer + more, room)
         == (if Speakable(Strip(buffer[..e])) then [Strip(buffer[..e])] else [])
            + Chunks(buffer[e..] + more, RoomAfter(buffer, e, room))
  {
    BoundaryStable(buffer, more);
    CutAppend(buffer, more, e);
    DrainStep(buffer + more, e, room);
  }

  /** Draining `buffer + more` is draining `buffer` and then what it left plus `more`. */
  lemma {:induction false} DrainAppend(buffer: string, room: nat, more: string)
    ensures |Chunks(buffer, room)| <= room
    ensures Rest(buffer + more, room)
         == Rest(Rest(buffer, room) + more, room - |Chunks(buffer, room)|)
    ensures Chunks(buffer + more, room)
         == Chunks(buffer, room) + Chunks(Rest(buffer, room) + more, room - |Chunks(buffer, room)|)
    decreases |buffer|
  {
    hide Chunks, Rest, Strip, Speakable;
    DrainDone(buffer, room);
    if room != 0 && Boundary(buffer).Some? {
      var e := Boundary(buffer).value;
      var left := RoomAfter(buffer, e, room);
      DrainAppend(buffer[e..], left, more);
      DrainStep(buffer, e, room);
      AppendSteps(buffer, more, e, room);
      var own := if Speakable(Strip(buffer[..e])) then [Strip(buffer[..e])] else [];
      var later := Chunks(buffer[e..], left);
      assert room - |Chunks(buffer, room)| == left - |later|;
      Associate(own, later, Chunks(Rest(buffer, room) + more, left - |later|));
    }
  }

  lemma Associate(a: seq<string>, b: seq<string>, c: seq<string>)
    ensures a + (b + c) == (a + b) + c
  {
  }

  /** Feeding `a` and then `b` is feeding `a + b`: same state, same sentences. */
  lemma FeedSplit(maxChunks: nat, st: State, a: string, b: string)
    ensures AfterFeed(maxChunks, AfterFeed(maxChunks, st, a), b) == AfterFeed(maxChunks, st, a + b)
    ensures Fed(maxChunks, st, a) + Fed(maxChunks, AfterFeed(maxChunks, st, a), b)
         == Fed(maxChunks, st, a + b)
  {
    hide Chunks, Rest;
    if a == [] {
      assert a + b == b;
    } else if b == [] {
      assert a + b == a;
    } else {
      DrainAppend(st.buffer + a, Room(maxChunks, st.emitted), b);
      assert (st.buffer + a) + b == st.buffer + (a + b);
    }
  }

  function FedAll(maxChunks: nat, st: State, deltas: seq<string>): seq<string>
    decreases |deltas|
  {
    if deltas == [] then []
    else
      Fed(maxChunks, st, deltas[0])
      + FedAll(maxChunks, AfterFeed(maxChunks, st, deltas[0]), deltas[1..])
  }

  function AfterFeeds(maxChunks: nat, st: State, deltas: seq<string>): State
    decreases |deltas|
  {
    if deltas == [] then st
    else AfterFeeds(maxChunks, AfterFeed(maxChunks, st, deltas[0]), deltas[1..])
  }

  function Joined(deltas: seq<string>): string {
    if deltas == [] then [] else deltas[0] + Joined(deltas[1..])
  }

  lemma {:induction false} FeedsAreOneFeed(maxChunks: nat, st: State, deltas: seq<string>)
    ensures AfterFeeds(maxChunks, st, deltas) == AfterFeed(maxChunks, st, Joined(deltas))
    ensures FedAll(maxChunks, st, deltas) == Fed(maxChunks, st, Joined(deltas))
    decreases |deltas|
  {
    if deltas != [] {
      FeedsAreOneFeed(maxChunks, AfterFeed(maxChunks, st, deltas[0]), deltas[1..]);
      FeedSplit(maxChunks, st, deltas[0], Joined(deltas[1..]));
    }
  }

  /** Two ways of cutting one text give the same sentences and the same final state. */
  lemma SplitsAgree(maxChunks: nat, st: State, one: seq<string>, two: seq<string>)
    requires Joined(one) == Joined(two)
    ensures AfterFeeds(maxChunks, st, one) == AfterFeeds(maxChunks, st, two)
    ensures FedAll(maxChunks, st, one) == FedAll(maxChunks, st, two)
  {
    FeedsAreOneFeed(maxChunks, st, one);
    FeedsAreOneFeed(maxChunks, st, two);
  }

  // ---- nothing speakable is lost -------------------------------------------

  /** The text that draining removes. */
  function Taken(buffer: string, room: nat): string
    decreases |buffer|
  {
    if room == 0 || Boundary(buffer).None? then []
    else
      var e := Boundary(buffer).value;
      buffer[..e] + Taken(buffer[e..], RoomAfter(buffer, e, room))
  }

  lemma {:induction false} TakenAndRest(buffer: string, room: nat)
    ensures Taken(buffer, room) + Rest(buffer, room) == buffer
    decreases |buffer|
  {
    if room != 0 && Boundary(buffer).Some? {
      var e := Boundary(buffer).value;
      TakenAndRest(buffer[e..], RoomAfter(buffer, e, room));
      assert buffer[..e] + buffer[e..] == buffer;
    }
  }

  lemma {:induction false} TakenEndsSentence(buffer: string, room: nat)
    ensures var t := Taken(buffer, room); t == [] || IsTerminator(t[|t| - 1])
    decreases |buffer|
  {
    if room != 0 && Boundary(buffer).Some? {
      var e := Boundary(buffer).value;
      TakenEndsSentence(buffer[e..], RoomAfter(buffer, e, room));
      BoundaryCorrect(buffer);
      assert IsBoundary(buffer, e);
    }
  }

  lemma {:induction false} TakenSpoken(buffer: string, room: nat)
    ensures Spoken(Taken(buffer, room)) == SpokenAll(Chunks(buffer, room))
    decreases |buffer|
  {
    if room != 0 && Boundary(buffer).Some? {
      var e := Boundary(buffer).value;
      TakenSpoken(buffer[e..], RoomAfter(buffer, e, room));
      SpokenConcat(buffer[..e], Taken(buffer[e..], RoomAfter(buffer, e, room)));
      StripSpoken(buffer[..e]);
      SpokenEmpty(Strip(buffer[..e]));
    }
  }

  /** A whole reply: any deltas from a fresh assembler, then one flush. */
  function Reply(maxChunks: nat, deltas: seq<string>, completeOnly: bool): seq<string> {
    FedAll(maxChunks, State("", 0), deltas)
    + Flushed(AfterFeeds(maxChunks, State("", 0), deltas).buffer, completeOnly)
  }

  /** At most `maxChunks` chunks, and exactly the speakable characters of the text (or of its
      completed sentences when the stream was cut short), in order. */
  lemma ReplyConserved(maxChunks: nat, deltas: seq<string>, completeOnly: bool)
    requires maxChunks >= 1
    ensures |Reply(maxChunks, deltas, completeOnly)| <= maxChunks
    ensures SpokenAll(Reply(maxChunks, deltas, completeOnly)) ==
            Spoken(if completeOnly then CompletePrefix(Joined(deltas)) else Joined(deltas))
  {
    var text, room := Joined(deltas), maxChunks - 1;
    ReplyIsDrain(maxChunks, deltas, completeOnly);
    ChunksFit(text, room);
    var rest := Rest(text, room);
    var tail := if completeOnly then CompletePrefix(rest) else rest;
    FlushedSpoken(rest, completeOnly);
    SpokenAllConcat(Chunks(text, room), Flushed(rest, completeOnly));
    TakenSpoken(text, room);
    SpokenConcat(Taken(text, room), tail);
    TakenAndRest(text, room);
    if completeOnly {
      TakenEndsSentence(text, room);
      CompletePrefixAfter(Taken(text, room), rest);
    }
  }

  lemma ReplyIsDrain(maxChunks: nat, deltas: seq<string>, completeOnly: bool)
    requires maxChunks >= 1
    ensures Reply(maxChunks, deltas, completeOnly)
         == Chunks(Joined(deltas), maxChunks - 1)
            + Flushed(Rest(Joined(deltas), maxChunks - 1), completeOnly)
  {
    FeedsAreOneFeed(maxChunks, State("", 0), deltas);
    assert "" + Joined(deltas) == Joined(deltas);
  }

  lemma FlushedSpoken(buffer: string, completeOnly: bool)
    ensures SpokenAll(Flushed(buffer, completeOnly))
         == Spoken(if completeOnly then CompletePrefix(buffer) else buffer)
  {
    var text := if completeOnly then CompletePrefix(buffer) else buffer;
    StripSpoken(text);
    SpokenEmpty(Strip(text));
  }

  lemma CompletePrefixAfter(head: string, rest: string)
    requires head == [] || IsTerminator(head[|head| - 1])
    ensures CompletePrefix(head + rest) == head + CompletePrefix(rest)
  {
    CompletePrefixUnique(head + rest, head + CompletePrefix(rest));
  }
}
