/**
  What the chunks of a streamed reply look like: verbatim pieces of the text, in order, with
  nothing speakable between them, and every early one exactly one sentence.
*/
module StreamingShape {
  import opened Wrappers
  import opened Streaming

  predicate Blank(s: string) {
    forall i :: 0 <= i < |s| ==> IsSpace(s[i])
  }

  lemma {:induction false} BlankIsSilent(s: string)
    requires Blank(s)
    ensures !Speakable(s)
  {
    hide IsSpace;
    if s != "" {
      BlankIsSilent(s[1..]);
    }
  }

  lemma {:induction false} StripLeftCut(s: string) returns (l: nat)
    ensures l <= |s| && StripLeft(s) == s[l..] && Blank(s[..l])
    ensures StripLeft(s) != "" ==> !IsSpace(StripLeft(s)[0])
  {
    hide IsSpace;
    l := 0;
    if s != "" && IsSpace(s[0]) {
      var m := StripLeftCut(s[1..]);
      l := m + 1;
      assert forall i :: 1 <= i < l ==> s[i] == s[1..][..m][i - 1];
    }
  }

  lemma {:induction false} StripRightCut(s: string)
    ensures var r := StripRight(s);
      && r <= s && Blank(s[|r|..])
      && (r != "" ==> r[0] == s[0] && !IsSpace(r[|r| - 1]))
  {
    hide IsSpace;
    if s != "" && IsSpace(s[|s| - 1]) {
      var front := s[..|s| - 1];
      StripRightCut(front);
      var n := |StripRight(s)|;
      assert forall i :: n <= i < |front| ==> s[i] == front[n..][i - n];
    }
  }

  /** Stripping cuts off exactly the white space around. */
  lemma StripCut(s: string) returns (l: nat)
    ensures var r := Strip(s);
      && l + |r| <= |s| && s[l..l + |r|] == r && Blank(s[..l]) && Blank(s[l + |r|..])
      && (r != "" ==> !IsSpace(r[0]) && !IsSpace(r[|r| - 1]))
  {
    hide IsSpace;
    l := StripLeftCut(s);
    StripRightCut(s[l..]);
    hide StripLeft, StripRight;
    assert s[l..][|Strip(s)|..] == s[l + |Strip(s)|..];
  }

  // ---- verbatim ------------------------------------------------------------

  /** The chunks occur in the text one after another, with nothing speakable around them. */
  ghost predicate Interleaves(text: string, chunks: seq<string>)
    decreases |chunks|
  {
    if chunks == [] then !Speakable(text)
    else exists g: nat :: ChunkAt(text, chunks[0], g) && Interleaves(text[g + |chunks[0]|..], chunks[1..])
  }

  predicate ChunkAt(text: string, chunk: string, g: nat) {
    g + |chunk| <= |text| && !Speakable(text[..g]) && text[g..g + |chunk|] == chunk
  }

  lemma SilentConcat(u: string, v: string)
    ensures Speakable(u + v) <==> Speakable(u) || Speakable(v)
  {
    SpokenConcat(u, v);
    SpokenEmpty(u);
    SpokenEmpty(v);
    SpokenEmpty(u + v);
  }

  /** Something unspeakable in front makes no difference. */
  lemma Prepend(u: string, text: string, chunks: seq<string>)
    requires !Speakable(u) && Interleaves(text, chunks)
    ensures Interleaves(u + text, chunks)
  {
    hide Speakable;
    if chunks == [] {
      SilentConcat(u, text);
    } else {
      var g: nat :| ChunkAt(text, chunks[0], g) && Interleaves(text[g + |chunks[0]|..], chunks[1..]);
      var h, n := |u| + g, |chunks[0]|;
      var all := u + text;
      SilentConcat(u, text[..g]);
      assert all[..h] == u + text[..g];
      assert all[h..h + n] == text[g..g + n];
      assert all[h + n..] == text[g + n..];
      assert ChunkAt(all, chunks[0], h);
    }
  }

  /** A stripped piece is a chunk in front of whatever follows it. */
  lemma PieceThenRest(piece: string, rest: string, chunks: seq<string>)
    requires Interleaves(rest, chunks)
    ensures Interleaves(piece + rest, (if Speakable(Strip(piece)) then [Strip(piece)] else []) + chunks)
  {
    hide Speakable, Strip;
    var chunk := Strip(piece);
    StripSpoken(piece);
    if Speakable(chunk) {
      var g := StripCut(piece);
      var n, text := |chunk|, piece + rest;
      BlankIsSilent(piece[..g]);
      BlankIsSilent(piece[g + n..]);
      Prepend(piece[g + n..], rest, chunks);
      assert text[..g] == piece[..g] && text[g..g + n] == piece[g..g + n];
      assert text[g + n..] == piece[g + n..] + rest;
      assert ChunkAt(text, chunk, g);
      var all := [chunk] + chunks;
      assert all[1..] == chunks && all[0] == chunk;
      assert Interleaves(text[g + |all[0]|..], all[1..]);
    } else {
      Prepend(piece, rest, chunks);
      assert [] + chunks == chunks;
    }
  }

  lemma {:induction false} TakenVerbatim(buffer: string, room: nat, tail: string, chunks: seq<string>)
    requires Interleaves(tail, chunks)
    ensures Interleaves(Taken(buffer, room) + tail, Chunks(buffer, room) + chunks)
    decreases |buffer|
  {
    hide Interleaves, Strip, Speakable, Boundary;
    if room == 0 || Boundary(buffer).None? {
      assert Taken(buffer, room) + tail == tail && Chunks(buffer, room) + chunks == chunks;
    } else {
      var e := Boundary(buffer).value;
      var left := RoomAfter(buffer, e, room);
      TakenVerbatim(buffer[e..], left, tail, chunks);
      var rest := Taken(buffer[e..], left) + tail;
      var later := Chunks(buffer[e..], left) + chunks;
      PieceThenRest(buffer[..e], rest, later);
      assert buffer[..e] + rest == Taken(buffer, room) + tail;
      var own := if Speakable(Strip(buffer[..e])) then [Strip(buffer[..e])] else [];
      assert own + later == Chunks(buffer, room) + chunks;
    }
  }

  lemma FlushedVerbatim(buffer: string, completeOnly: bool)
    ensures Interleaves(if completeOnly then CompletePrefix(buffer) else buffer, Flushed(buffer, completeOnly))
  {
    hide Strip, Speakable;
    var text := if completeOnly then CompletePrefix(buffer) else buffer;
    assert !Speakable("") by {
      BlankIsSilent("");
    }
    assert Interleaves("", []);
    PieceThenRest(text, "", []);
    assert text + "" == text;
    assert Flushed(buffer, completeOnly) + [] == Flushed(buffer, completeOnly);
  }

  /** However the text was cut into deltas, the chunks are verbatim pieces of it (of its
      completed sentences, when the stream was cut short), in order, with nothing speakable left
      out between them. */
  lemma ReplyVerbatim(maxChunks: nat, deltas: seq<string>, completeOnly: bool)
    requires maxChunks >= 1
    ensures Interleaves(if completeOnly then CompletePrefix(Joined(deltas)) else Joined(deltas),
                        Reply(maxChunks, deltas, completeOnly))
  {
    hide Interleaves, Taken, Chunks, Rest, Flushed;
    var text, room := Joined(deltas), maxChunks - 1;
    var rest := Rest(text, room);
    ReplyIsDrain(maxChunks, deltas, completeOnly);
    FlushedVerbatim(rest, completeOnly);
    TakenVerbatim(text, room, if completeOnly then CompletePrefix(rest) else rest, Flushed(rest, completeOnly));
    TakenAndRest(text, room);
    if completeOnly {
      TakenEndsSentence(text, room);
      CompletePrefixAfter(Taken(text, room), rest);
    }
  }

  // ---- early chunks --------------------------------------------------------

  /** One sentence: no terminator before its final run of them, and something to say. */
  ghost predicate OneSentence(c: string) {
    Speakable(c) && Strip(c) == c && exists p: nat :: EndsFrom(c, p)
  }

  predicate EndsFrom(c: string, p: nat) {
    && p < |c|
    && (forall i :: 0 <= i < p ==> !IsTerminator(c[i])) && (forall i :: p <= i < |c| ==> IsTerminator(c[i]))
  }

  lemma TerminatorIsNoSpace(c: char)
    requires IsTerminator(c)
    ensures !IsSpace(c)
  {
  }

  lemma StripTwice(s: string)
    ensures Strip(Strip(s)) == Strip(s)
  {
    var l := StripCut(s);
    hide IsSpace;
    var r := Strip(s);
    if r != "" {
      assert StripLeft(r) == r && StripRight(r) == r;
    }
  }

  lemma BoundaryPiece(buffer: string, e: nat)
    requires Boundary(buffer) == Some(e) && Speakable(Strip(buffer[..e]))
    ensures OneSentence(Strip(buffer[..e]))
  {
    hide IsSpace, Speakable, Strip, Boundary, IsTerminator;
    BoundaryCorrect(buffer);
    assert IsBoundary(buffer, e);
    var p: nat :| FirstRun(buffer, p, e);
    var piece := buffer[..e];
    var c := Strip(piece);
    var l := StripCut(piece);
    StripTwice(piece);
    assert IsTerminator(piece[e - 1]) && IsTerminator(piece[p]);
    TerminatorIsNoSpace(piece[e - 1]);
    TerminatorIsNoSpace(piece[p]);
    assert l + |c| == e && l <= p;
    var q := p - l;
    assert forall i :: 0 <= i < |c| ==> c[i] == buffer[l + i];
    assert EndsFrom(c, q);
  }

  /** Every chunk emitted before the flush is exactly one sentence, without white space around. */
  lemma {:induction false} EarlyChunksAreSentences(buffer: string, room: nat)
    ensures forall c :: c in Chunks(buffer, room) ==> OneSentence(c)
    decreases |buffer|
  {
    hide OneSentence, Strip, Speakable, Boundary;
    if room != 0 && Boundary(buffer).Some? {
      var e := Boundary(buffer).value;
      EarlyChunksAreSentences(buffer[e..], RoomAfter(buffer, e, room));
      if Speakable(Strip(buffer[..e])) {
        BoundaryPiece(buffer, e);
      }
    }
  }

  // ---- promptness ----------------------------------------------------------

  lemma {:induction false} RestHoldsNoSentence(buffer: string, room: nat)
    ensures |Chunks(buffer, room)| == room || Boundary(Rest(buffer, room)).None?
    decreases |buffer|
  {
    hide Strip, Speakable;
    if room != 0 && Boundary(buffer).Some? {
      var e := Boundary(buffer).value;
      RestHoldsNoSentence(buffer[e..], RoomAfter(buffer, e, room));
    }
  }

  /** Sentences go out at once: after any deltas all but the last chunk allowed have been emitted, or
      no completed sentence, followed by anything, waits in the buffer. */
  lemma SentencesGoOutAtOnce(maxChunks: nat, deltas: seq<string>, e: nat)
    ensures var st := AfterFeeds(maxChunks, State("", 0), deltas);
      && st.emitted == |FedAll(maxChunks, State("", 0), deltas)|
      && (st.emitted + 1 >= maxChunks || !IsBoundary(st.buffer, e))
  {
    FeedsAreOneFeed(maxChunks, State("", 0), deltas);
    var text, st := Joined(deltas), AfterFeeds(maxChunks, State("", 0), deltas);
    hide Chunks, Rest;
    if text == "" {
      assert st == State("", 0);
    } else {
      assert "" + text == text;
      RestHoldsNoSentence(text, Room(maxChunks, 0));
      BoundaryCorrect(st.buffer);
    }
  }

  /** A letter, some character and another letter: the first two go out as a sentence exactly when
      the one between them is one of the three terminators. */
  lemma ThreeTerminators(maxChunks: nat, c: char)
    requires maxChunks >= 2
    ensures Fed(maxChunks, State("", 0), ['a', c, 'b']) ==
      if c in {'\U{3002}', '\U{FF01}', '\U{FF1F}'} then [['a', c]] else []
  {
    var text := ['a', c, 'b'];
    assert "" + text == text;
    hide Strip, Speakable;
    if c in {'\U{3002}', '\U{FF01}', '\U{FF1F}'} {
      EndsAfterTwo(c);
      assert text[..2] == ['a', c] && text[2..] == "b";
      StripLeavesAlone('a', c);
      NoTerminatorInside("b");
      assert Chunks("b", Room(maxChunks, 0) - 1) == [];
    } else {
      NoTerminatorInside(text);
    }
  }

  lemma EndsAfterTwo(c: char)
    requires IsTerminator(c)
    ensures Boundary(['a', c, 'b']) == Some(2)
  {
    var text := ['a', c, 'b'];
    assert FirstRun(text, 1, 2) && IsBoundary(text, 2);
    BoundaryCorrect(text);
  }

  lemma NoTerminatorInside(s: string)
    requires forall i :: 0 <= i < |s| ==> !IsTerminator(s[i])
    ensures Boundary(s).None?
  {
    NextTerminatorFirst(s, 0);
  }

  lemma StripLeavesAlone(a: char, c: char)
    requires !IsSpace(a) && !IsSpace(c) && IsSpeakable(a)
    ensures Strip([a, c]) == [a, c] && Speakable([a, c])
  {
  }

  /** The white space that is stripped, character by character. */
  lemma SpacesAre(c: char)
    ensures IsSpace(c) <==> c in {
      '\t', '\n', '\U{0B}', '\U{0C}', '\r', '\U{1C}', '\U{1D}', '\U{1E}', '\U{1F}', ' ', '\U{85}', '\U{A0}',
      '\U{1680}', '\U{2000}', '\U{2001}', '\U{2002}', '\U{2003}', '\U{2004}', '\U{2005}', '\U{2006}', '\U{2007}',
      '\U{2008}', '\U{2009}', '\U{200A}', '\U{2028}', '\U{2029}', '\U{202F}', '\U{205F}', '\U{3000}'}
  {
    SpaceCodes(c as int);
  }

  lemma SpaceCodes(n: int)
    ensures 9 <= n <= 13 <==> n in {9, 10, 11, 12, 13}
    ensures 28 <= n <= 32 <==> n in {28, 29, 30, 31, 32}
    ensures 8192 <= n <= 8202 <==> n in {8192, 8193, 8194, 8195, 8196, 8197, 8198, 8199, 8200, 8201, 8202}
  {
  }
}
