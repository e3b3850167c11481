/**
  Printing a choreography spec and reading it back: exactly which specs survive.
*/
module SpecRoundTrip {
  import opened Wrappers
  import opened MotionSpec
  import opened Streaming
  import opened SpecNames
  import opened SpecText

  // ---- vocabulary ----------------------------------------------------------

  /** A word in lower-case ASCII letters. */
  predicate Plain(s: string) {
    s != "" && forall i :: 0 <= i < |s| ==> 'a' <= s[i] <= 'z'
  }

  lemma FoldPlain(s: string)
    requires Plain(s)
    ensures Fold(s) == s
  {
  }

  lemma DirectionWord(d: Direction)
    ensures Plain(DirectionName(d)) && DirectionOf(DirectionName(d)) == Some(d) && |DirectionName(d)| <= 9
  {
  }

  lemma EnergyWord(e: Energy)
    ensures Plain(EnergyName(e)) && EnergyOf(EnergyName(e)) == Some(e) && |EnergyName(e)| <= 4
  {
  }

  lemma ColourWord(c: Colour)
    ensures Plain(ColourName(c)) && ColourOf(ColourName(c)) == Some(c) && |ColourName(c)| <= 6
  {
  }

  lemma ModifierWords()
    ensures Plain("accent") && Plain("hold") && IsAccent("accent") && IsHold("hold") && !IsAccent("hold")
  {
  }

  // ---- one beat ------------------------------------------------------------

  function ModifierWord(b: Beat): seq<string> {
    if b.accent then ["accent"] else if b.hold then ["hold"] else []
  }

  function BeatWords(b: Beat): seq<string> {
    [DirectionName(b.direction), EnergyName(b.energy), ColourName(b.colour)] + ModifierWord(b)
  }

  lemma PlainIsFree(s: string)
    requires Plain(s)
    ensures Free(s, NotWordChar) && Free(s, IsBreak) && Free(s, IsSpace) && Free(s, IsColon)
  {
  }

  lemma NonEmptyStep(a: string, rest: seq<string>)
    requires a != ""
    ensures NonEmpty([a] + rest) == [a] + NonEmpty(rest)
  {
    assert ([a] + rest)[1..] == rest;
  }

  lemma ThreeWords(a: string, b: string, c: string)
    requires Plain(a) && Plain(b) && Plain(c)
    ensures Words(a + " " + b + " " + c, NotWordChar) == [a, b, c]
  {
    PlainIsFree(a);
    PlainIsFree(b);
    PlainIsFree(c);
    var rest := b + " " + c;
    assert a + " " + b + " " + c == a + [' '] + rest && rest == b + [' '] + c;
    PartsStep(a, ' ', rest, NotWordChar);
    PartsStep(b, ' ', c, NotWordChar);
    PartsOfFree(c, NotWordChar);
    hide Parts;
    assert Parts(a + " " + b + " " + c, NotWordChar) == [a, b, c];
    NonEmptyStep(c, []);
    NonEmptyStep(b, [c]);
    NonEmptyStep(a, [b, c]);
  }

  lemma FourWords(a: string, b: string, c: string, d: string)
    requires Plain(a) && Plain(b) && Plain(c) && Plain(d)
    ensures Words(a + " " + b + " " + c + " " + d, NotWordChar) == [a, b, c, d]
  {
    PlainIsFree(a);
    var rest := b + " " + c + " " + d;
    assert a + " " + b + " " + c + " " + d == a + [' '] + rest;
    PartsStep(a, ' ', rest, NotWordChar);
    ThreeWords(b, c, d);
    hide Parts;
    NonEmptyStep(a, Parts(rest, NotWordChar));
  }

  lemma BodyWords(b: Beat)
    ensures Words(Body(b), NotWordChar) == BeatWords(b)
  {
    hide DirectionName, EnergyName, ColourName, Words;
    DirectionWord(b.direction);
    EnergyWord(b.energy);
    ColourWord(b.colour);
    ModifierWords();
    var d, e, c := DirectionName(b.direction), EnergyName(b.energy), ColourName(b.colour);
    if b.accent {
      FourWords(d, e, c, "accent");
      assert Body(b) == d + " " + e + " " + c + " " + "accent";
    } else if b.hold {
      FourWords(d, e, c, "hold");
      assert Body(b) == d + " " + e + " " + c + " " + "hold";
    } else {
      ThreeWords(d, e, c);
      assert Body(b) == d + " " + e + " " + c;
    }
  }

  lemma AbsorbThree(d: string, e: string, c: string, rest: seq<string>)
    requires Plain(d) && Plain(e) && Plain(c)
    requires DirectionOf(d).Some? && EnergyOf(e).Some? && ColourOf(c).Some?
    ensures AbsorbAll(NOTHING, [d, e, c] + rest)
         == AbsorbAll(Found(DirectionOf(d), EnergyOf(e), ColourOf(c), false, false), rest)
  {
    hide DirectionOf, EnergyOf, ColourOf, Plain;
    FoldPlain(d);
    FoldPlain(e);
    FoldPlain(c);
    var first := NOTHING.(direction := DirectionOf(d));
    AbsorbStep(NOTHING, d, [e, c] + rest);
    AbsorbStep(first, e, [c] + rest);
    AbsorbStep(first.(energy := EnergyOf(e)), c, rest);
    assert [d] + ([e, c] + rest) == [d, e, c] + rest && [e] + ([c] + rest) == [e, c] + rest;
  }

  lemma AbsorbStep(f: Found, w: string, rest: seq<string>)
    ensures AbsorbAll(f, [w] + rest) == AbsorbAll(Absorb(f, Fold(w)), rest)
  {
    assert ([w] + rest)[1..] == rest;
  }

  lemma FoundInBody(b: Beat)
    ensures KnownWords(Body(b)) == Found(Some(b.direction), Some(b.energy), Some(b.colour), b.accent, b.hold && !b.accent)
  {
    hide Body, DirectionName, EnergyName, ColourName, DirectionOf, EnergyOf, ColourOf, IsAccent, IsHold, Words;
    BodyWords(b);
    DirectionWord(b.direction);
    EnergyWord(b.energy);
    ColourWord(b.colour);
    ModifierWords();
    AbsorbThree(DirectionName(b.direction), EnergyName(b.energy), ColourName(b.colour), ModifierWord(b));
    FoldPlain("accent");
    FoldPlain("hold");
    var full := Found(Some(b.direction), Some(b.energy), Some(b.colour), false, false);
    assert ["accent"][1..] == [] && ["hold"][1..] == [];
    assert AbsorbAll(full, ["accent"]) == full.(accent := true);
    assert AbsorbAll(full, ["hold"]) == full.(hold := true);
  }

  lemma BodyStarts(b: Beat)
    ensures Body(b) != "" && 'a' <= Body(b)[0] <= 'z' && 'a' <= Body(b)[|Body(b)| - 1] <= 'z'
    ensures Free(Body(b), IsBreak) && Free(Body(b), IsColon) && |Body(b)| <= 28
  {
    hide DirectionName, EnergyName, ColourName;
    DirectionWord(b.direction);
    EnergyWord(b.energy);
    ColourWord(b.colour);
    BodyOf(DirectionName(b.direction), EnergyName(b.energy), ColourName(b.colour), Modifier(b));
  }

  lemma BodyOf(d: string, e: string, c: string, m: string)
    requires Plain(d) && Plain(e) && Plain(c) && m in {"", " accent", " hold"}
    requires |d| <= 9 && |e| <= 4 && |c| <= 6
    ensures var s := d + " " + e + " " + c + m;
      && s != "" && 'a' <= s[0] <= 'z' && 'a' <= s[|s| - 1] <= 'z'
      && Free(s, IsBreak) && Free(s, IsColon) && |s| <= 28
  {
    var s := d + " " + e + " " + c + m;
    forall i | 0 <= i < |s| ensures s[i] == ' ' || 'a' <= s[i] <= 'z' {
    }
  }

  lemma BeatLine(b: Beat)
    ensures NameValue(BeatText(b)) == None && BeatValue(BeatText(b)) == Some(Body(b))
  {
    hide Body;
    BodyStarts(b);
    LabelledBeat(Body(b));
  }

  lemma LabelledBeat(body: string)
    requires body != "" && 'a' <= body[0] <= 'z'
    ensures NameValue("beat: " + body) == None && BeatValue("beat: " + body) == Some(body)
  {
    var line := "beat: " + body;
    var rest := line[4..];
    assert line[..4] == "beat" && Fold("beat") == "beat";
    assert rest[0] == ':' && StripLeft(rest) == rest;
    assert rest[1..] == " " + body && (" " + body)[1..] == body;
    assert StripLeft(body) == body;
    assert StripLeft(" " + body) == body;
    NotAName(line);
    hide NameValue;
  }

  lemma NotAName(line: string)
    requires line != "" && line[0] == 'b'
    ensures NameValue(line) == None
  {
    assert |line| >= 4 ==> Fold(line[..4])[0] == 'b';
    assert |line| >= 5 ==> Fold(line[..5])[0] == 'b';
    assert |line| >= 3 ==> line[..3][0] == 'b';
    assert |line| >= 2 ==> line[..2][0] == 'b';
  }

  /** Every printed beat is read back, except that an accented one is no longer held. */
  lemma BeatRoundTrip(b: Beat)
    ensures NameValue(BeatText(b)) == None
    ensures BeatOfLine(BeatText(b)) == Some(b.(hold := b.hold && !b.accent))
  {
    hide BeatText, KnownWords, BeatValue, NameValue;
    BeatLine(b);
    FoundInBody(b);
  }

  // ---- markers -------------------------------------------------------------

  lemma {:induction false} SpacesColonLocal(x: string, y: string)
    requires !Free(x, IsColon)
    ensures SpacesThenColon(x + y) == SpacesThenColon(x)
  {
    assert (x + y)[0] == x[0];
    if !IsColon(x[0]) {
      assert (x + y)[1..] == x[1..] + y;
      assert !Free(x[1..], IsColon) by {
        var i :| 0 <= i < |x| && IsColon(x[i]);
        assert IsColon(x[1..][i - 1]);
      }
      SpacesColonLocal(x[1..], y);
    }
  }

  lemma {:induction false} SpacesNoColon(z: string, beats: seq<Beat>)
    requires Free(z, IsColon)
    ensures SpacesThenColon(z + Tail(beats)) == 0
  {
    var s := z + Tail(beats);
    if z != "" {
      assert s[1..] == z[1..] + Tail(beats);
      SpacesNoColon(z[1..], beats);
    } else if beats != [] {
      TailStarts(beats);
      assert s == Tail(beats);
      assert SpacesThenColon(s[1..]) == 0;
    }
  }

  lemma TailStarts(beats: seq<Beat>)
    requires beats != []
    ensures Tail(beats) == "\nbeat:" + (" " + Body(beats[0]) + Tail(beats[1..]))
    ensures Tail(beats)[0] == '\n' && Tail(beats)[1] == 'b'
  {
    hide Body;
  }

  lemma KeyHasNoColon(s: string, j: nat)
    requires j < MarkerKey(s) && j < |s|
    ensures !IsColon(s[j]) && s[j] != '\n'
  {
    if StartsFolded(s, "beat") {
      assert Fold(s[..4])[j] == "beat"[j];
    } else {
      assert s[..3][j] == BEAT_KANA[j];
    }
  }

  lemma KeyLocal(x: string, y: string)
    requires |x| >= MarkerKey(x + y)
    ensures MarkerKey(x + y) == MarkerKey(x)
  {
    if |x| >= 4 {
      assert (x + y)[..4] == x[..4];
    }
    if |x| >= 3 {
      assert (x + y)[..3] == x[..3];
    }
  }

  /** What follows the next colon does not matter. */
  lemma MarkerLocal(x: string, y: string)
    requires !Free(x, IsColon)
    ensures Marker(x + y) == Marker(x)
  {
    var j :| 0 <= j < |x| && IsColon(x[j]);
    var k := MarkerKey(x + y);
    if j < k {
      KeyHasNoColon(x + y, j);
      assert false;
    }
    KeyLocal(x, y);
    assert (x + y)[k..] == x[k..] + y;
    assert IsColon(x[k..][j - k]);
    SpacesColonLocal(x[k..], y);
  }

  lemma NoColonNoMarker(x: string, beats: seq<Beat>)
    requires Free(x, IsColon) && x != ""
    ensures Marker(x + Tail(beats)) == 0
  {
    hide MarkerKey, SpacesThenColon;
    var s := x + Tail(beats);
    var k := MarkerKey(s);
    if k > |x| {
      KeyIsShort(s);
      if beats != [] {
        KeyHasNoColon(s, |x|);
        TailStarts(beats);
      }
    } else {
      assert s[k..] == x[k..] + Tail(beats);
      SpacesNoColon(x[k..], beats);
    }
  }

  lemma KeyIsShort(s: string)
    ensures MarkerKey(s) <= |s|
  {
  }

  /** Whether a beat marker starts here depends only on the rest of this line. */
  lemma MarkerInLine(x: string, beats: seq<Beat>)
    requires x != ""
    ensures Marker(x + Tail(beats)) == Marker(x)
  {
    if Free(x, IsColon) {
      NoColonNoMarker(x, beats);
      NoColonNoMarker(x, []);
      assert x + Tail([]) == x;
    } else {
      MarkerLocal(x, Tail(beats));
    }
  }

  /** No beat marker in `x`, of which `after` says whether white space comes before it. */
  predicate MarkerFree(after: bool, x: string)
    decreases |x|
  {
    x == "" || ((after ==> Marker(x) == 0) && MarkerFree(IsSpace(x[0]), x[1..]))
  }

  lemma {:induction false} NoColonMarkerFree(after: bool, x: string)
    requires Free(x, IsColon)
    ensures MarkerFree(after, x)
    decreases |x|
  {
    hide Marker;
    if x != "" {
      NoColonNoMarker(x, []);
      assert x + Tail([]) == x;
      NoColonMarkerFree(IsSpace(x[0]), x[1..]);
    }
  }

  // ---- lines ---------------------------------------------------------------

  function Texts(beats: seq<Beat>): seq<string> {
    if beats == [] then [] else [BeatText(beats[0])] + Texts(beats[1..])
  }

  function TailLines(beats: seq<Beat>): seq<string> {
    if beats == [] then [] else ["", BeatText(beats[0])] + TailLines(beats[1..])
  }

  lemma MarkedStep(after: bool, x: string, beats: seq<Beat>)
    requires x != "" && (after ==> Marker(x) == 0)
    ensures Marked(after, x + Tail(beats)) == [x[0]] + Marked(IsSpace(x[0]), x[1..] + Tail(beats))
  {
    MarkerInLine(x, beats);
    var s := x + Tail(beats);
    assert s[1..] == x[1..] + Tail(beats) && s[0] == x[0];
    hide Marker;
  }

  lemma MarkedTail(after: bool, beats: seq<Beat>)
    requires beats != []
    ensures Marked(after, Tail(beats)) == "\n\nbeat:" + Marked(false, " " + Body(beats[0]) + Tail(beats[1..]))
  {
    hide Body, Marked;
    TailStarts(beats);
    var rest := " " + Body(beats[0]) + Tail(beats[1..]);
    assert Tail(beats) == "\n" + ("beat:" + rest);
    hide Tail;
    MarkedBreak(after, "beat:" + rest);
    MarkedLabel(rest);
  }

  lemma MarkedBreak(after: bool, u: string)
    ensures Marked(after, "\n" + u) == "\n" + Marked(true, u)
  {
    var s := "\n" + u;
    if MarkerKey(s) > 0 {
      KeyHasNoColon(s, 0);
    }
    assert s[1..] == u;
  }

  lemma MarkedLabel(rest: string)
    ensures Marked(true, "beat:" + rest) == "\nbeat:" + Marked(false, rest)
  {
    var u := "beat:" + rest;
    assert u[..4] == "beat" && u[4..] == ":" + rest && u[5..] == rest;
    assert Fold("beat") == "beat";
    assert Marker(u) == 5;
  }

  lemma MarkedNothing(after: bool, y: string)
    ensures y + Marked(after, "") == y
  {
  }

  lemma PartsBlank(y: string, z: string)
    requires Free(y, IsBreak)
    ensures Parts(y + "\n\n" + z, IsBreak) == [y, ""] + Parts(z, IsBreak)
  {
    hide Parts;
    PartsLine(y, "\n" + z);
    PartsLine("", z);
    assert y + "\n" + ("\n" + z) == y + "\n\n" + z;
    assert "" + "\n" + z == "\n" + z;
    assert [y] + ([""] + Parts(z, IsBreak)) == [y, ""] + Parts(z, IsBreak);
  }

  lemma PartsLine(y: string, z: string)
    requires Free(y, IsBreak)
    ensures Parts(y + "\n" + z, IsBreak) == [y] + Parts(z, IsBreak)
  {
    hide Parts;
    PartsStep(y, '\n', z, IsBreak);
  }

  /** The rest of a text after a beat label, on its own line. */
  function Labelled(x: string, beats: seq<Beat>): string {
    "beat:" + Marked(false, x + Tail(beats))
  }

  lemma CutAtMarker(y: string, x: string, beats: seq<Beat>)
    requires Free(y, IsBreak) && Marker(x) > 0
    ensures Parts(y + Marked(true, x + Tail(beats)), IsBreak) == [y] + Parts(Labelled(x[Marker(x)..], beats), IsBreak)
  {
    hide Parts, IsBreak;
    MarkerInLine(x, beats);
    var n, s := Marker(x), x + Tail(beats);
    assert s[n..] == x[n..] + Tail(beats);
    MarkedAtMarker(s);
    hide Marker, Tail, Marked, Free;
    var z := Labelled(x[n..], beats);
    PartsLine(y, z);
    assert Marked(true, s) == "\n" + z;
    assert y + ("\n" + z) == y + "\n" + z;
  }

  lemma MarkedAtMarker(s: string)
    requires Marker(s) > 0
    ensures Marked(true, s) == "\n" + ("beat:" + Marked(false, s[Marker(s)..]))
  {
    hide Marker;
    assert Marked(true, s) == "\nbeat:" + Marked(false, s[Marker(s)..]);
  }

  lemma CutAtBreak(y: string, after: bool, beats: seq<Beat>)
    requires Free(y, IsBreak) && beats != []
    ensures Parts(y + Marked(after, Tail(beats)), IsBreak)
         == [y, ""] + Parts(Labelled(" " + Body(beats[0]), beats[1..]), IsBreak)
  {
    hide Parts, IsBreak, Body, Marked, Tail, Free;
    MarkedTail(after, beats);
    var m := Marked(false, " " + Body(beats[0]) + Tail(beats[1..]));
    RespellBreak(y, m);
    PartsBlank(y, "beat:" + m);
  }

  lemma RespellBreak(y: string, m: string)
    ensures y + ("\n\nbeat:" + m) == y + "\n\n" + ("beat:" + m)
  {
  }

  /** Without markers of its own, a first line stays whole and every beat gets its own line. */
  lemma {:induction false} LinesExactly(y: string, after: bool, x: string, beats: seq<Beat>)
    requires Free(y, IsBreak) && Free(x, IsBreak) && MarkerFree(after, x)
    ensures Parts(y + Marked(after, x + Tail(beats)), IsBreak) == [y + x] + TailLines(beats)
    decreases |beats|, 1, |x|
  {
    hide Parts, Marker, Marked, Body, IsBreak, Tail, TailLines;
    if x != "" {
      MarkedStep(after, x, beats);
      LinesExactly(y + [x[0]], IsSpace(x[0]), x[1..], beats);
      assert y + [x[0]] + x[1..] == y + x;
      assert y + Marked(after, x + Tail(beats)) == y + [x[0]] + Marked(IsSpace(x[0]), x[1..] + Tail(beats));
    } else {
      assert x + Tail(beats) == Tail(beats) && y + x == y;
      LinesAfter(y, after, beats);
    }
  }

  lemma {:induction false} LinesAfter(y: string, after: bool, beats: seq<Beat>)
    requires Free(y, IsBreak)
    ensures Parts(y + Marked(after, Tail(beats)), IsBreak) == [y] + TailLines(beats)
    decreases |beats|, 0, 0
  {
    hide Parts, Marker, Marked, Body, IsBreak;
    if beats == [] {
      PartsOfFree(y, IsBreak);
      MarkedNothing(after, y);
    } else {
      CutAtBreak(y, after, beats);
      BodyIsOneLine(beats[0]);
      LinesExactly("beat:", false, " " + Body(beats[0]), beats[1..]);
      assert "beat:" + (" " + Body(beats[0])) == BeatText(beats[0]);
    }
  }

  lemma BodyIsOneLine(b: Beat)
    ensures Free(" " + Body(b), IsBreak) && Free("beat:", IsBreak) && MarkerFree(false, " " + Body(b))
  {
    hide Body;
    BodyStarts(b);
    NoColonMarkerFree(false, " " + Body(b));
  }

  predicate BlankOrBeat(line: string) {
    line == "" || StartsWith(line, "beat:")
  }

  /** On a line that starts with a beat label, whatever follows ends up on beat lines. */
  lemma {:induction false} LinesAreBeats(y: string, after: bool, x: string, beats: seq<Beat>)
    requires Free(y, IsBreak) && Free(x, IsBreak) && StartsWith(y, "beat:")
    ensures forall l :: l in Parts(y + Marked(after, x + Tail(beats)), IsBreak) ==> BlankOrBeat(l)
    decreases |beats|, |x|
  {
    hide Parts, Marker, Marked, Body, IsBreak;
    LabelIsOneLine();
    if x != "" && after && Marker(x) > 0 {
      CutAtMarker(y, x, beats);
      LinesAreBeats("beat:", false, x[Marker(x)..], beats);
    } else if x != "" {
      MarkedStep(after, x, beats);
      LinesAreBeats(y + [x[0]], IsSpace(x[0]), x[1..], beats);
      assert y + Marked(after, x + Tail(beats)) == y + [x[0]] + Marked(IsSpace(x[0]), x[1..] + Tail(beats));
    } else {
      assert x + Tail(beats) == Tail(beats);
      if beats == [] {
        PartsOfFree(y, IsBreak);
        MarkedNothing(after, y);
      } else {
        CutAtBreak(y, after, beats);
        BodyIsOneLine(beats[0]);
        LinesAreBeats("beat:", false, " " + Body(beats[0]), beats[1..]);
      }
    }
  }

  lemma LabelIsOneLine()
    ensures Free("beat:", IsBreak)
  {
  }

  /** What stands before the first marker. */
  function UpToMarker(after: bool, x: string): string
    decreases |x|
  {
    if x == "" || (after && Marker(x) > 0) then "" else [x[0]] + UpToMarker(IsSpace(x[0]), x[1..])
  }

  lemma {:induction false} UpToMarkerIsPrefix(after: bool, x: string)
    ensures |UpToMarker(after, x)| <= |x| && (MarkerFree(after, x) <==> |UpToMarker(after, x)| == |x|)
    ensures MarkerFree(after, x) ==> UpToMarker(after, x) == x
    ensures Free(x, IsBreak) ==> Free(UpToMarker(after, x), IsBreak)
    decreases |x|
  {
    hide Marker, IsBreak;
    if x != "" && !(after && Marker(x) > 0) {
      UpToMarkerIsPrefix(IsSpace(x[0]), x[1..]);
      assert [x[0]] + x[1..] == x;
    }
  }

  lemma NoTail(x: string)
    ensures x + Tail([]) == x && TailLines([]) == []
  {
  }

  lemma MarkedOne(after: bool, x: string)
    requires x != "" && (after ==> Marker(x) == 0)
    ensures Marked(after, x) == [x[0]] + Marked(IsSpace(x[0]), x[1..])
  {
    hide Marker;
  }

  /** A marker cuts the line it is in: what stands before it stays, the rest turns into beats; and
      the beat lines that follow come after all that, untouched. */
  lemma {:induction false} LinesAppend(y: string, after: bool, x: string, beats: seq<Beat>)
    requires Free(y, IsBreak) && Free(x, IsBreak)
    ensures Parts(y + Marked(after, x + Tail(beats)), IsBreak) == Parts(y + Marked(after, x), IsBreak) + TailLines(beats)
    decreases |x|
  {
    hide Parts, Marker, Marked, Body, IsBreak, Tail, TailLines;
    NoTail(x);
    if x == "" {
      assert x + Tail(beats) == Tail(beats);
      LinesAfter(y, after, beats);
      MarkedNothing(after, y);
      PartsOfFree(y, IsBreak);
    } else if after && Marker(x) > 0 {
      LabelIsOneLine();
      var n := Marker(x);
      CutAtMarker(y, x, beats);
      CutAtMarker(y, x, []);
      LinesAppend("beat:", false, x[n..], beats);
      NoTail(x[n..]);
      var one, all := Parts(Labelled(x[n..], []), IsBreak), Parts(Labelled(x[n..], beats), IsBreak);
      assert all == one + TailLines(beats);
      assert [y] + (one + TailLines(beats)) == ([y] + one) + TailLines(beats);
    } else {
      MarkedStep(after, x, beats);
      MarkedOne(after, x);
      LinesAppend(y + [x[0]], IsSpace(x[0]), x[1..], beats);
      Respell(y, x[0], Marked(IsSpace(x[0]), x[1..] + Tail(beats)));
      Respell(y, x[0], Marked(IsSpace(x[0]), x[1..]));
    }
  }

  lemma Respell(y: string, c: char, z: string)
    ensures y + ([c] + z) == (y + [c]) + z
  {
  }

  lemma {:induction false} LinesOfName(y: string, after: bool, x: string)
    requires Free(y, IsBreak) && Free(x, IsBreak)
    ensures var lines := Parts(y + Marked(after, x), IsBreak);
      lines[0] == y + UpToMarker(after, x) && forall l :: l in lines[1..] ==> BlankOrBeat(l)
    decreases |x|
  {
    hide Parts, Marker, Marked, Body, IsBreak, Tail;
    NoTail(x);
    if x == "" {
      MarkedNothing(after, y);
      PartsOfFree(y, IsBreak);
    } else if after && Marker(x) > 0 {
      LabelIsOneLine();
      CutAtMarker(y, x, []);
      LinesAreBeats("beat:", false, x[Marker(x)..], []);
    } else {
      MarkedOne(after, x);
      LinesOfName(y + [x[0]], IsSpace(x[0]), x[1..]);
      Respell(y, x[0], Marked(IsSpace(x[0]), x[1..]));
      Respell(y, x[0], UpToMarker(IsSpace(x[0]), x[1..]));
    }
  }

  // ---- the lines of a printed spec -----------------------------------------

  lemma BeatTextIsOneLine(b: Beat)
    ensures Free(BeatText(b), IsBreak) && Strip(BeatText(b)) == BeatText(b) && BeatText(b) != ""
    ensures BeatText(b)[0] == 'b' && |BeatText(b)| <= 34
  {
    hide Body;
    BodyStarts(b);
    StripNothing(BeatText(b));
  }

  lemma {:induction false} TextLines(pre: string, beats: seq<Beat>)
    requires Free(pre, IsBreak)
    ensures Parts(pre + Tail(beats), IsBreak) == [pre] + Texts(beats)
    decreases |beats|
  {
    hide Parts, IsBreak, BeatText;
    if beats == [] {
      PartsOfFree(pre, IsBreak);
      assert pre + Tail(beats) == pre;
    } else {
      BeatTextIsOneLine(beats[0]);
      TextLines(BeatText(beats[0]), beats[1..]);
      PartsLine(pre, BeatText(beats[0]) + Tail(beats[1..]));
      assert pre + Tail(beats) == pre + "\n" + (BeatText(beats[0]) + Tail(beats[1..]));
    }
  }

  lemma {:induction false} TailBreaks(beats: seq<Beat>)
    ensures forall i :: 0 <= i < |Tail(beats)| && IsBreak(Tail(beats)[i]) ==> Tail(beats)[i] == '\n'
    ensures |Tail(beats)| <= 35 * |beats|
    decreases |beats|
  {
    hide IsBreak, BeatText;
    if beats != [] {
      BeatTextIsOneLine(beats[0]);
      TailBreaks(beats[1..]);
    }
  }

  lemma NoFence(line: string)
    requires line != "" && line[0] in {'n', 'b'}
    ensures !IsFence(line)
  {
    SomeSpaces();
    StripKeeps(line, 0);
    hide Strip;
    assert Strip(line)[0] == line[0];
    assert |Strip(line)| >= 3 ==> Strip(line)[..3][0] == line[0];
  }

  lemma {:induction false} TextsUnfenced(beats: seq<Beat>)
    ensures Unfenced(Texts(beats)) == Texts(beats)
    decreases |beats|
  {
    hide IsFence, BeatText;
    if beats != [] {
      BeatTextIsOneLine(beats[0]);
      NoFence(BeatText(beats[0]));
      TextsUnfenced(beats[1..]);
    }
  }

  /** Nothing in a printed spec is fenced off. */
  lemma TextSurvives(name: string, beats: seq<Beat>)
    requires Free(name, IsBreak)
    ensures var text := "name: " + name + Tail(beats);
      Join(Unfenced(Parts(text, IsBreak)), '\n') == text
  {
    var pre := "name: " + name;
    assert Free("name: ", IsBreak);
    hide Parts, Unfenced, IsBreak, Tail;
    TextLines(pre, beats);
    TextsUnfenced(beats);
    NoFence(pre);
    UnfencedFirst(pre, Texts(beats));
    TailBreaks(beats);
    JoinParts(pre + Tail(beats), IsBreak, '\n');
  }

  lemma UnfencedFirst(line: string, rest: seq<string>)
    requires !IsFence(line)
    ensures Unfenced([line] + rest) == [line] + Unfenced(rest)
  {
    hide IsFence;
    assert ([line] + rest)[1..] == rest;
  }

  /** No marker in the label of the name line. */
  lemma MarkedName(name: string, beats: seq<Beat>)
    ensures Marked(true, "name: " + name + Tail(beats)) == "name: " + Marked(true, name + Tail(beats))
  {
    hide Tail, Marked;
    var s := name + Tail(beats);
    assert "name: " + name + Tail(beats) == "name: " + s;
    var t := Marked(true, s);
    LetterSpaces();
    hide IsSpace;
    var s5 := [' '] + s;
    var s4 := [':'] + s5;
    var s3 := ['e'] + s4;
    var s2 := ['m'] + s3;
    var s1 := ['a'] + s2;
    MarkedLetter(false, ' ', s);
    MarkedLetter(false, ':', s5);
    MarkedLetter(false, 'e', s4);
    MarkedLetter(false, 'm', s3);
    MarkedLetter(false, 'a', s2);
    MarkedLetter(true, 'n', s1);
    Spelled(s);
    Spelled(t);
  }

  lemma LetterSpaces()
    ensures IsSpace(' ') && !IsSpace(':') && !IsSpace('e') && !IsSpace('m') && !IsSpace('a') && !IsSpace('n')
  {
  }

  lemma Spelled(s: string)
    ensures ['n'] + (['a'] + (['m'] + (['e'] + ([':'] + ([' '] + s))))) == "name: " + s
  {
  }

  lemma MarkedLetter(after: bool, c: char, s: string)
    requires after ==> c == 'n'
    ensures Marked(after, [c] + s) == [c] + Marked(IsSpace(c), s)
  {
    var t := [c] + s;
    assert t[1..] == s;
    if after {
      assert |t| >= 4 ==> Fold(t[..4])[0] == 'n';
      assert |t| >= 3 ==> t[..3][0] == 'n';
      assert Marker(t) == 0;
    }
    hide Marker;
  }

  lemma {:induction false} StrippedTail(beats: seq<Beat>)
    ensures Stripped(TailLines(beats)) == Texts(beats)
    decreases |beats|
  {
    hide BeatText, Strip;
    if beats != [] {
      BeatTextIsOneLine(beats[0]);
      StrippedTail(beats[1..]);
      var rest := TailLines(beats[1..]);
      var all := ["", BeatText(beats[0])] + rest;
      assert all[1..] == [BeatText(beats[0])] + rest && all[1..][1..] == rest;
      StripEmpty();
    }
  }

  lemma StripEmpty()
    ensures Strip("") == ""
  {
  }

  function Written(b: Beat): Beat {
    b.(hold := b.hold && !b.accent)
  }

  function AllWritten(beats: seq<Beat>): (r: seq<Beat>)
    ensures |r| == |beats|
  {
    if beats == [] then [] else [Written(beats[0])] + AllWritten(beats[1..])
  }

  lemma {:induction false} TextsParse(beats: seq<Beat>)
    ensures NameFrom(Texts(beats)) == "" && BeatsFrom(Texts(beats)) == AllWritten(beats)
    decreases |beats|
  {
    hide BeatText, NameValue, BeatOfLine;
    if beats != [] {
      BeatRoundTrip(beats[0]);
      TextsParse(beats[1..]);
    }
  }

  lemma {:induction false} AllWrittenSame(beats: seq<Beat>)
    requires forall b :: b in beats ==> !(b.accent && b.hold)
    ensures AllWritten(beats) == beats
    decreases |beats|
  {
    if beats != [] {
      assert beats[0] in beats;
      AllWrittenSame(beats[1..]);
    }
  }

  /** Without a marker in the name, a printed spec is read line by line as it was written. */
  lemma PrintedLines(name: string, beats: seq<Beat>)
    requires Free(name, IsBreak) && MarkerFree(true, name)
    ensures Strip("name: " + name) != ""
    ensures CandidateLines("name: " + name + Tail(beats)) == [Strip("name: " + name)] + Texts(beats)
  {
    hide Parts, Marked, Strip, Join, Unfenced, MarkerFree, Tail, TailLines;
    var line := "name: " + name;
    assert Free("name: ", IsBreak);
    hide IsBreak;
    TextSurvives(name, beats);
    MarkedName(name, beats);
    LinesExactly("name: ", true, name, beats);
    var v := NameLine(name);
    StrippedFirst(line, TailLines(beats));
    StrippedTail(beats);
  }

  lemma StrippedFirst(line: string, rest: seq<string>)
    requires Strip(line) != ""
    ensures Stripped([line] + rest) == [Strip(line)] + Stripped(rest)
  {
    hide Strip;
    assert ([line] + rest)[1..] == rest;
  }

  lemma NamelessFirst(line: string, rest: seq<string>)
    requires NameValue(line) == None
    ensures NameFrom([line] + rest) == NameFrom(rest)
  {
    hide NameValue;
    assert ([line] + rest)[1..] == rest;
  }

  lemma {:induction false} NoNames(lines: seq<string>)
    requires forall l :: l in lines ==> BlankOrBeat(l)
    ensures NameFrom(Stripped(lines)) == ""
  {
    hide Strip, NameValue, CleanName;
    if lines != [] {
      var line := lines[0];
      assert line in lines && forall l :: l in lines[1..] ==> l in lines;
      NoNames(lines[1..]);
      StripEmpty();
      if line != "" {
        SomeSpaces();
        assert line[..5][0] == 'b';
        StripKeeps(line, 0);
        NotAName(Strip(line));
        NamelessFirst(Strip(line), Stripped(lines[1..]));
        assert Stripped(lines) == [Strip(line)] + Stripped(lines[1..]);
      } else {
        assert Stripped(lines) == [] + Stripped(lines[1..]) == Stripped(lines[1..]);
      }
    }
  }

  lemma {:induction false} StrippedAppend(a: seq<string>, b: seq<string>)
    ensures Stripped(a + b) == Stripped(a) + Stripped(b)
  {
    hide Strip;
    if a == [] {
      assert a + b == b;
    } else {
      StrippedAppend(a[1..], b);
      assert (a + b)[1..] == a[1..] + b && (a + b)[0] == a[0];
      Concat(if Strip(a[0]) == "" then [] else [Strip(a[0])], Stripped(a[1..]), Stripped(b));
    }
  }

  lemma Concat(a: seq<string>, b: seq<string>, c: seq<string>)
    ensures a + (b + c) == (a + b) + c
  {
  }

  /** The lines of a name line, read on its own. */
  function NameLines(name: string): seq<string> {
    CandidateLines("name: " + name)
  }

  /** A printed spec is read as its name line would be on its own, and then its beat lines. */
  lemma PrintedAppend(name: string, beats: seq<Beat>)
    requires Free(name, IsBreak)
    ensures CandidateLines("name: " + name + Tail(beats)) == NameLines(name) + Texts(beats)
  {
    hide Parts, Marked, Strip, Join, Unfenced, MarkerFree, Tail, TailLines, Stripped;
    assert Free("name: ", IsBreak);
    hide IsBreak;
    TextSurvives(name, beats);
    TextSurvives(name, []);
    NoTail("name: " + name);
    NoTail(name);
    MarkedName(name, beats);
    MarkedName(name, []);
    LinesAppend("name: ", true, name, beats);
    StrippedAppend(Parts("name: " + Marked(true, name), IsBreak), TailLines(beats));
    StrippedTail(beats);
  }

  /** The name read from a name line is what stands before the first marker, cleaned. */
  lemma NameOfLine(name: string)
    requires Free(name, IsBreak)
    ensures NameFrom(NameLines(name)) == CleanName(UpToMarker(true, name))
  {
    hide Parts, Marked, Strip, Join, Unfenced, MarkerFree, Tail, NameValue, CleanName, Stripped;
    assert Free("name: ", IsBreak);
    hide IsBreak;
    TextSurvives(name, []);
    NoTail("name: " + name);
    NoTail(name);
    MarkedName(name, []);
    LinesOfName("name: ", true, name);
    var first := UpToMarker(true, name);
    hide UpToMarker;
    var v := NameLineCleans(first);
    var lines := Parts("name: " + Marked(true, name), IsBreak);
    assert lines == [lines[0]] + lines[1..];
    StrippedFirst(lines[0], lines[1..]);
    NoNames(lines[1..]);
    OneName(Strip(lines[0]), v);
    NameFromAppend([Strip(lines[0])], Stripped(lines[1..]));
  }

  /** The beats that the parser finds in a name line, behind markers. */
  function NameBeats(name: string): seq<Beat> {
    BeatsFrom(NameLines(name))
  }

  lemma UnmarkedHasNoBeats(name: string)
    requires Free(name, IsBreak) && MarkerFree(true, name)
    ensures NameBeats(name) == []
  {
    hide CandidateLines, MarkerFree, Strip, NameValue, BeatOfLine, Tail;
    PrintedLines(name, []);
    NoTail("name: " + name);
    var v := NameLine(name);
    NoBeat(Strip("name: " + name));
    assert Texts([]) == [] && [Strip("name: " + name)] + [] == [Strip("name: " + name)];
  }

  // ---- the round trip ------------------------------------------------------

  /** What a spec must be to survive: a cleaned, non-empty name in which a search for a beat
      marker finds nothing, one to six beats, none of them both accented and held. */
  predicate Writable(s: Spec) {
    && s.name != "" && CleanName(s.name) == s.name && MarkerFree(true, s.name)
    && 1 <= |s.beats| <= MAX_SPEC_BEATS
    && forall b :: b in s.beats ==> !(b.accent && b.hold)
  }

  lemma SpacedIsOneLine(s: string)
    requires Spaced(s)
    ensures Free(s, IsBreak)
  {
  }

  lemma OneName(line: string, v: string)
    requires NameValue(line) == Some(v)
    ensures NameFrom([line]) == CleanName(v)
  {
    hide NameValue, CleanName;
    assert [line][1..] == [];
  }

  /** What parsing yields is always a usable spec: named, with one to six beats. */
  lemma ParseShape(text: string, fallback: string, s: Spec)
    requires Parse(text, fallback) == Ok(s)
    ensures s.name != "" && Spaced(s.name) && |s.name| <= 16
    ensures 1 <= |s.beats| <= 6 && forall b :: b in s.beats ==> !(b.accent && b.hold)
  {
    hide Strip, CandidateLines, CleanName;
    var lines := CandidateLines(text);
    NameShape(lines);
    BeatShape(lines);
    CleanIsTidy(fallback);
    DefaultIsClean();
    CleanIsTidy(DEFAULT_NAME);
  }

  lemma {:induction false} NameShape(lines: seq<string>)
    ensures Spaced(NameFrom(lines)) && |NameFrom(lines)| <= NAME_MAX
  {
    hide NameValue, CleanName;
    if lines != [] {
      NameShape(lines[1..]);
      if NameValue(lines[0]).Some? {
        CleanIsTidy(NameValue(lines[0]).value);
      }
    }
  }

  lemma {:induction false} BeatShape(lines: seq<string>)
    ensures forall b :: b in BeatsFrom(lines) ==> !(b.accent && b.hold)
  {
    hide NameValue, BeatValue, KnownWords;
    if lines != [] {
      BeatShape(lines[1..]);
    }
  }

  lemma TextIsNotBlank(s: Spec)
    ensures Strip(ToText(s)) != ""
  {
    hide Strip, Tail;
    SomeSpaces();
    StripKeeps(ToText(s), 0);
  }

  /** A writable spec is read back as it was, whatever the fallback name. */
  lemma WritableSurvives(s: Spec, fallback: string)
    requires Writable(s)
    ensures Parse(ToText(s), fallback) == Ok(s)
  {
    hide Strip, CandidateLines, CleanName, NameValue, MarkerFree, Tail;
    TextIsNotBlank(s);
    WritableLines(s);
    AllWrittenSame(s.beats);
  }

  /** A name line without a marker, and the beat lines after it. */
  lemma NamedLines(name: string, beats: seq<Beat>)
    requires name != "" && !IsSpace(name[0]) && !IsSpace(name[|name| - 1])
    requires Free(name, IsBreak) && MarkerFree(true, name)
    ensures var lines := CandidateLines(ToText(Spec(name, beats)));
      NameFrom(lines) == CleanName(name) && BeatsFrom(lines) == AllWritten(beats)
  {
    var line := "name: " + name;
    hide *;
    PrintedLines(name, beats);
    NameLineExact(name);
    TextsParse(beats);
    OneName(line, name);
    NoBeat(line);
    NameFromAppend([line], Texts(beats));
    BeatsFromAppend([line], Texts(beats));
    TextIs(Spec(name, beats));
  }

  lemma WritableLines(s: Spec)
    requires Writable(s)
    ensures var lines := CandidateLines(ToText(s));
      NameFrom(lines) == s.name && BeatsFrom(lines) == AllWritten(s.beats)
  {
    FixedNameEnds(s.name);
    LeadAndTrail(s.name[0]);
    LeadAndTrail(s.name[|s.name| - 1]);
    SpacedIsOneLine(s.name);
    hide *;
    NamedLines(s.name, s.beats);
    assert Spec(s.name, s.beats) == s;
  }

  lemma NoBeat(line: string)
    requires NameValue(line).Some?
    ensures BeatsFrom([line]) == []
  {
    hide NameValue, BeatOfLine;
    assert [line][1..] == [];
  }

  lemma TextIs(s: Spec)
    ensures ToText(s) == "name: " + s.name + Tail(s.beats)
  {
  }

  lemma LeadAndTrail(c: char)
    ensures IsSpace(c) ==> IsLead(c) && IsTrail(c)
  {
  }

  function Taken(beats: seq<Beat>): seq<Beat> {
    if |beats| > MAX_SPEC_BEATS then beats[..MAX_SPEC_BEATS] else beats
  }

  /** What a spec must be to be read back with this fallback name.  If a name can be read off its
      name line, its name is cleaned and holds no marker.  If none can, because the name is cut to
      nothing or swallowed by a marker, the fallback restores it; then its beats are the first of
      those found in the name followed by its own. */
  predicate Survives(s: Spec, fallback: string) {
    && 1 <= |s.beats| <= MAX_SPEC_BEATS && (forall b :: b in s.beats ==> !(b.accent && b.hold))
    && if CleanName(UpToMarker(true, s.name)) != "" then CleanName(s.name) == s.name && MarkerFree(true, s.name)
       else s.name != "" && CleanName(fallback) == s.name && Taken(NameBeats(s.name) + s.beats) == s.beats
  }

  lemma ParsedPrint(s: Spec, fallback: string)
    requires Free(s.name, IsBreak) && s.beats != []
    ensures Parse(ToText(s), fallback)
         == Ok(Spec(Named(CleanName(UpToMarker(true, s.name)), fallback),
                    Taken(NameBeats(s.name) + AllWritten(s.beats))))
  {
    hide Strip, CandidateLines, CleanName, NameValue, MarkerFree, Tail, UpToMarker, Named, IsBreak, Free;
    TextIsNotBlank(s);
    PrintedAppend(s.name, s.beats);
    NameOfLine(s.name);
    TextsParse(s.beats);
    NameFromAppend(NameLines(s.name), Texts(s.beats));
    BeatsFromAppend(NameLines(s.name), Texts(s.beats));
    TextIs(s);
  }

  lemma NoBeatsNoSpec(s: Spec, fallback: string)
    requires s.beats == []
    ensures Parse(ToText(s), fallback) != Ok(s)
  {
    if Parse(ToText(s), fallback) == Ok(s) {
      ParseShape(ToText(s), fallback, s);
    }
    hide *;
  }

  lemma SurvivingName(name: string, fallback: string)
    requires Spaced(name)
    ensures Named(CleanName(UpToMarker(true, name)), fallback) == name
       <==> if CleanName(UpToMarker(true, name)) != "" then CleanName(name) == name && MarkerFree(true, name)
            else name != "" && CleanName(fallback) == name
  {
    var read := CleanName(UpToMarker(true, name));
    UpToMarkerIsPrefix(true, name);
    CleanIsTidy(UpToMarker(true, name));
    DefaultReads();
    hide CleanName, MarkerFree, UpToMarker, Spaced;
    NamedIs(read, fallback);
    if read != "" && read == name {
      assert |UpToMarker(true, name)| == |name|;
    }
  }

  lemma NamedIs(read: string, fallback: string)
    ensures Named(read, fallback) != ""
    ensures Named(read, fallback)
         == if read != "" then read else if CleanName(fallback) != "" then CleanName(fallback) else DEFAULT_NAME
  {
    hide CleanName;
  }

  /** The default name would be read off its own name line. */
  lemma DefaultReads()
    ensures CleanName(UpToMarker(true, DEFAULT_NAME)) == DEFAULT_NAME != ""
  {
    DefaultIsClean();
    NoColonMarkerFree(true, DEFAULT_NAME);
    UpToMarkerIsPrefix(true, DEFAULT_NAME);
    hide CleanName, MarkerFree, UpToMarker, Free;
  }

  /** The round trip, for every spec and every fallback name. */
  lemma RoundTripIff(s: Spec, fallback: string)
    ensures Parse(ToText(s), fallback) == Ok(s) <==> Survives(s, fallback)
  {
    hide Parse, ToText, CleanName, MarkerFree, UpToMarker, NameBeats, Spaced, IsBreak, Free, Named, Taken;
    if s.beats == [] {
      NoBeatsNoSpec(s, fallback);
    } else if !Spaced(s.name) {
      CleanIsTidy(s.name);
      CleanIsTidy(fallback);
      if Parse(ToText(s), fallback) == Ok(s) {
        ParseShape(ToText(s), fallback, s);
      }
    } else {
      SpacedIsOneLine(s.name);
      ParsedPrint(s, fallback);
      SurvivingName(s.name, fallback);
      SurvivingBeats(s);
    }
  }

  lemma SurvivingBeats(s: Spec)
    requires s.beats != [] && Free(s.name, IsBreak)
    ensures Taken(NameBeats(s.name) + AllWritten(s.beats)) == s.beats
       <==> && |s.beats| <= MAX_SPEC_BEATS && (forall b :: b in s.beats ==> !(b.accent && b.hold))
            && Taken(NameBeats(s.name) + s.beats) == s.beats
    ensures MarkerFree(true, s.name) ==> NameBeats(s.name) == [] && (|s.beats| <= MAX_SPEC_BEATS ==> Taken([] + s.beats) == s.beats)
  {
    hide MarkerFree;
    if MarkerFree(true, s.name) {
      UnmarkedHasNoBeats(s.name);
    }
    BeatShape(NameLines(s.name));
    hide NameLines, NameBeats, IsBreak;
    assert [] + s.beats == s.beats;
    TakenWritten(NameBeats(s.name), s.beats);
  }

  lemma {:induction false} WrittenAreProper(beats: seq<Beat>)
    ensures forall b :: b in AllWritten(beats) ==> !(b.accent && b.hold)
    decreases |beats|
  {
    if beats != [] {
      WrittenAreProper(beats[1..]);
    }
  }

  lemma TakenWritten(found: seq<Beat>, beats: seq<Beat>)
    requires forall b :: b in found ==> !(b.accent && b.hold)
    ensures Taken(found + AllWritten(beats)) == beats
       <==> && |beats| <= MAX_SPEC_BEATS && (forall b :: b in beats ==> !(b.accent && b.hold))
            && Taken(found + beats) == beats
  {
    hide AllWritten;
    WrittenAreProper(beats);
    if forall b :: b in beats ==> !(b.accent && b.hold) {
      AllWrittenSame(beats);
    } else {
      var b :| b in beats && b.accent && b.hold;
      assert b !in Taken(found + AllWritten(beats));
    }
  }

  /** Without a fallback name, exactly the writable specs are read back. */
  lemma WritableIff(s: Spec)
    ensures Survives(s, "") <==> Writable(s)
  {
    UpToMarkerIsPrefix(true, s.name);
    CleanIsTidy("");
    hide CleanName, MarkerFree, UpToMarker, NameBeats;
  }

  /** What was parsed once, from any text, is read back with a fallback name exactly when its name is
      clean and unmarked, or the fallback restores it. */
  lemma ParsedSurvivesIff(text: string, first: string, s: Spec, fallback: string)
    requires Parse(text, first) == Ok(s)
    ensures Parse(ToText(s), fallback) == Ok(s)
       <==> if CleanName(UpToMarker(true, s.name)) != "" then CleanName(s.name) == s.name && MarkerFree(true, s.name)
            else CleanName(fallback) == s.name && Taken(NameBeats(s.name) + s.beats) == s.beats
  {
    hide Parse, ToText, CleanName, MarkerFree, UpToMarker, NameBeats, Taken;
    ParseShape(text, first, s);
    RoundTripIff(s, fallback);
  }

  /** A remembered motion is recalled with its own name, stored with single spaces, as fallback:
      exactly when the name is clean, and unmarked or restored. */
  lemma RecallIff(text: string, first: string, s: Spec)
    requires Parse(text, first) == Ok(s)
    ensures Parse(ToText(s), Compact(s.name)) == Ok(s)
       <==> && CleanName(s.name) == s.name
            && (|| MarkerFree(true, s.name)
                || (CleanName(UpToMarker(true, s.name)) == "" && Taken(NameBeats(s.name) + s.beats) == s.beats))
  {
    hide Parse, ToText, CleanName, MarkerFree, UpToMarker, NameBeats, Taken;
    ParseShape(text, first, s);
    ParsedSurvivesIff(text, first, s, Compact(s.name));
    CleanCompact(s.name);
    UpToMarkerIsPrefix(true, s.name);
    CleanIsTidy(UpToMarker(true, s.name));
  }

  lemma {:induction false} AllTrimmed(s: string)
    requires forall i :: 0 <= i < |s| ==> IsTrail(s[i])
    ensures TrimTrail(s) == ""
  {
    if s != "" {
      AllTrimmed(s[..|s| - 1]);
    }
  }

  /** The fallback can make the difference: a name of closing brackets, cut off a longer one, is
      cleaned to nothing and comes back only as the fallback. */
  lemma RestoredByFallback(name: string, beats: seq<Beat>)
    requires |name| == NAME_MAX && forall i :: 0 <= i < |name| ==> name[i] == '\U{300D}'
    requires 1 <= |beats| <= MAX_SPEC_BEATS && forall b :: b in beats ==> !(b.accent && b.hold)
    ensures var s := Spec(name, beats);
      && Parse(ToText(s), name + "x") == Ok(s)
      && Parse(ToText(s), "") != Ok(s)
  {
    var s := Spec(name, beats);
    hide CleanName, MarkerFree, UpToMarker, NameBeats, Parse, ToText, Taken, IsBreak, Free;
    BracketsClean(name);
    UpToMarkerIsPrefix(true, name);
    SurvivingBeats(s);
    RoundTripIff(s, name + "x");
    RoundTripIff(s, "");
    WritableIff(s);
  }

  lemma BracketsClean(name: string)
    requires |name| == NAME_MAX && forall i :: 0 <= i < |name| ==> name[i] == '\U{300D}'
    ensures CleanName(name) == "" && CleanName(name + "x") == name
    ensures MarkerFree(true, name) && Free(name, IsBreak)
  {
    BracketsAreOrdinary(name);
    hide IsSpace, IsLead, IsTrail, IsColon, IsBreak, MarkerFree, Compact;
    CompactOneWord(name);
    CompactOneWord(name + "x");
    TrimNothing(name + "x");
    AllTrimmed(name);
    NoColonMarkerFree(true, name);
    assert (name + "x")[..NAME_MAX] == name;
    assert TrimLead(name) == name;
  }

  lemma BracketsAreOrdinary(name: string)
    requires name != "" && forall i :: 0 <= i < |name| ==> name[i] == '\U{300D}'
    ensures Free(name + "x", IsSpace) && Free(name, IsSpace) && Free(name, IsColon) && Free(name, IsBreak)
    ensures !IsLead(name[0]) && !IsTrail('x') && forall i :: 0 <= i < |name| ==> IsTrail(name[i])
  {
  }

  /** The store's cut to 500 characters never touches a spec that was parsed. */
  lemma StoredWhole(s: Spec)
    requires |s.name| <= NAME_MAX && 1 <= |s.beats| <= MAX_SPEC_BEATS
    ensures Strip(ToText(s)) == ToText(s) && |ToText(s)| <= 500
  {
    hide Strip;
    TailBreaks(s.beats);
    TailEnds(s.beats);
    hide Tail;
    SomeSpaces();
    StripNothing(ToText(s));
  }

  lemma {:induction false} TailEnds(beats: seq<Beat>)
    requires beats != []
    ensures Tail(beats) != "" && !IsSpace(Tail(beats)[|Tail(beats)| - 1])
    decreases |beats|
  {
    hide Body;
    BodyStarts(beats[0]);
    if |beats| > 1 {
      TailEnds(beats[1..]);
    } else {
      assert Tail(beats[1..]) == "";
    }
  }

  /** A name cut in the middle of a phrase breaks the round trip: printed, it is not read back,
      unless the fallback itself is cut to it. */
  lemma CutNamesDoNotSurvive(u: string, w: string, beats: seq<Beat>, fallback: string)
    requires |u| == NAME_MAX - 1 && w != "" && Free(u, IsSpace) && Free(w, IsSpace)
    requires !IsLead(u[0]) && !IsTrail(u[|u| - 1]) && !IsTrail(w[|w| - 1])
    requires CleanName(fallback) != CleanName(u + " " + w)
    ensures var s := Spec(CleanName(u + " " + w), beats);
      Parse(ToText(s), fallback) != Ok(s)
  {
    CleaningTwice(u, w);
    var s := Spec(CleanName(u + " " + w), beats);
    RoundTripIff(s, fallback);
    hide Parse, ToText, CleanName, UpToMarker, NameBeats, Taken;
    assert CleanName(s.name) != s.name;
  }

  /** And the parser does produce such specs, from the very text that names the whole phrase; they
      are lost even with their own name as fallback. */
  lemma AcceptedAndLost(u: string, w: string, beats: seq<Beat>)
    requires |u| == NAME_MAX - 1 && w != "" && Free(u, IsSpace) && Free(w, IsSpace)
    requires !IsLead(u[0]) && !IsTrail(u[|u| - 1]) && !IsTrail(w[|w| - 1])
    requires MarkerFree(true, u + " " + w)
    requires 1 <= |beats| <= MAX_SPEC_BEATS && forall b :: b in beats ==> !(b.accent && b.hold)
    ensures var s := Spec(CleanName(u + " " + w), beats);
      && Parse(ToText(Spec(u + " " + w, beats)), "") == Ok(s)
      && Parse(ToText(s), s.name) != Ok(s)
  {
    var name := u + " " + w;
    TwoWordsAreALine(u, w);
    CleaningTwice(u, w);
    AllWrittenSame(beats);
    hide *;
    NamedParse(name, beats);
    assert |u + " "| != |u|;
    CutNamesDoNotSurvive(u, w, beats, CleanName(name));
  }

  lemma TwoWordsAreALine(u: string, w: string)
    requires u != "" && w != "" && Free(u, IsSpace) && Free(w, IsSpace)
    ensures var name := u + " " + w;
      Free(name, IsBreak) && !IsSpace(name[0]) && !IsSpace(name[|name| - 1])
  {
    BreaksAreSpaces();
    hide IsSpace, IsBreak;
    assert !IsBreak(' ') by {
      SpaceIsNoBreak();
    }
  }

  lemma BreaksAreSpaces()
    ensures forall c :: IsBreak(c) ==> IsSpace(c)
  {
  }

  lemma SpaceIsNoBreak()
    ensures !IsBreak(' ')
  {
  }

  lemma NamedParse(name: string, beats: seq<Beat>)
    requires name != "" && !IsSpace(name[0]) && !IsSpace(name[|name| - 1]) && CleanName(name) != ""
    requires Free(name, IsBreak) && MarkerFree(true, name)
    requires 1 <= |beats| <= MAX_SPEC_BEATS && AllWritten(beats) == beats
    ensures Parse(ToText(Spec(name, beats)), "") == Ok(Spec(CleanName(name), beats))
  {
    hide Strip, CandidateLines, CleanName, NameValue, MarkerFree, Tail, IsSpace, IsBreak, Free;
    hide AllWritten, NameFrom, BeatsFrom, ToText;
    NamedLines(name, beats);
    TextIsNotBlank(Spec(name, beats));
  }
}
