/**
  What a line of a spec means: which lines are names and beats, and which words fill which slot of
  a beat.
*/
module SpecReading {
  import opened Wrappers
  import opened Streaming
  import opened MotionSpec
  import opened SpecText

  // ---- words ---------------------------------------------------------------

  type Slot = string -> bool

  ghost function Says(words: seq<string>, slot: Slot): nat -> bool {
    (i: nat) => i < |words| && slot(Fold(words[i]))
  }

  /** Place `i` is the first that `p` holds of. */
  ghost predicate First(p: nat -> bool, i: nat) {
    p(i) && forall j: nat :: j < i ==> !p(j)
  }

  function NamesDirection(): Slot {
    (w: string) => DirectionOf(w).Some?
  }

  function NamesColour(): Slot {
    (w: string) => ColourOf(w).Some?
  }

  function Accents(): Slot {
    (w: string) => w in {"accent", "snap", "quick", "pop", "flick"}
  }

  function Holds(): Slot {
    (w: string) => w in {"hold", "still", "pause", "wait", "freeze"}
  }

  /** A word that names an energy, unless it was taken for the direction. */
  ghost function NamesEnergy(words: seq<string>, taken: bool): nat -> bool {
    (i: nat) =>
      && i < |words| && EnergyOf(Fold(words[i])).Some?
      && !(!taken && First(Says(words, NamesDirection()), i))
  }

  lemma ColourIsNoDirection(w: string)
    requires w in {"pink", "magenta", "amber", "orange", "yellow", "gold", "blue", "cyan", "aqua", "green", "violet", "purple", "white", "red", "off", "dark", "black", "none"}
    ensures DirectionOf(w).None?
  {
  }

  lemma ColourIsNoEnergy(w: string)
    requires w in {"pink", "magenta", "amber", "orange", "yellow", "gold", "blue", "cyan", "aqua", "green", "violet", "purple", "white", "red", "off", "dark", "black", "none"}
    ensures EnergyOf(w).None?
  {
  }

  lemma AccentIsNoDirection(w: string)
    requires w in {"accent", "snap", "quick", "pop", "flick"}
    ensures DirectionOf(w).None?
  {
  }

  lemma AccentIsNoEnergy(w: string)
    requires w in {"accent", "snap", "quick", "pop", "flick"}
    ensures EnergyOf(w).None?
  {
  }

  lemma AccentIsNoColour(w: string)
    requires w in {"accent", "snap", "quick", "pop", "flick"}
    ensures ColourOf(w).None?
  {
  }

  lemma HoldIsNoDirection(w: string)
    requires w in {"hold", "still", "pause", "wait", "freeze"}
    ensures DirectionOf(w).None?
  {
  }

  lemma HoldIsNoEnergy(w: string)
    requires w in {"hold", "still", "pause", "wait", "freeze"}
    ensures EnergyOf(w).None?
  {
  }

  lemma HoldIsNoColour(w: string)
    requires w in {"hold", "still", "pause", "wait", "freeze"}
    ensures ColourOf(w).None?
  {
  }

  lemma HoldIsNoAccent(w: string)
    requires w in {"hold", "still", "pause", "wait", "freeze"}
    ensures !IsAccent(w)
  {
  }

  /** What the words mean. */
  lemma Vocabulary(w: string)
    ensures w in {"slow", "calm", "low", "soft", "gentle", "\U{3088}\U{308F}\U{3044}"} ==> EnergyOf(w) == Some(Low)
    ensures w in {"middle", "medium", "mid", "\U{3075}\U{3064}\U{3046}"} ==> EnergyOf(w) == Some(Mid)
    ensures w in {"fast", "big", "high", "strong", "\U{3064}\U{3088}\U{3044}"} ==> EnergyOf(w) == Some(High)
    ensures w in {"left", "\U{3072}\U{3060}\U{308A}", "\U{5DE6}"} ==> DirectionOf(w) == Some(Left)
    ensures w in {"right", "\U{307F}\U{304E}", "\U{53F3}"} ==> DirectionOf(w) == Some(Right)
    ensures w in {"up", "\U{3046}\U{3048}", "\U{4E0A}"} ==> DirectionOf(w) == Some(Up)
    ensures w in {"down", "\U{3057}\U{305F}", "\U{4E0B}"} ==> DirectionOf(w) == Some(Down)
    ensures w in {"front", "neutral", "center", "centre", "middle", "\U{307E}\U{3093}\U{306A}\U{304B}"} ==>
      DirectionOf(w) == Some(Center)
    ensures w in {"gold", "yellow", "amber", "orange"} ==> ColourOf(w) == Some(Amber)
    ensures w in {"aqua", "cyan", "blue"} ==> ColourOf(w) == Some(Blue)
    ensures w in {"purple", "violet"} ==> ColourOf(w) == Some(Violet)
    ensures w in {"magenta", "pink"} ==> ColourOf(w) == Some(Pink)
    ensures w in {"none", "black", "dark", "off"} ==> ColourOf(w) == Some(Off)
  {
  }

  /** The slot that holds what the first word naming it means, or nothing if none does. */
  ghost predicate HasFirst<T(!new)>(words: seq<string>, p: nat -> bool, meaning: string -> Option<T>, slot: Option<T>) {
    && (slot.None? <==> forall i: nat :: i < |words| ==> !p(i))
    && forall i: nat :: i < |words| && First(p, i) ==> slot == meaning(Fold(words[i]))
  }

  lemma FirstIsNow<T(!new)>(words: seq<string>, p: nat -> bool, meaning: string -> Option<T>)
    requires words != [] && p(0) && meaning(Fold(words[0])).Some?
    ensures HasFirst(words, p, meaning, meaning(Fold(words[0])))
  {
  }

  lemma FirstShifts(p: nat -> bool, q: nat -> bool, i: nat)
    requires !p(0) && forall j: nat :: q(j) == p(j + 1)
    ensures First(p, i + 1) == First(q, i)
  {
    if First(p, i + 1) {
      forall j: nat | j < i ensures !q(j) {
        assert q(j) == p(j + 1);
      }
    } else if First(q, i) {
      assert q(i) == p(i + 1);
      forall j: nat | j < i + 1 ensures !p(j) {
        if j > 0 {
          assert q(j - 1) == p(j);
        }
      }
    }
  }

  lemma NoneShifts(n: nat, p: nat -> bool, q: nat -> bool)
    requires !p(0) && forall i: nat :: q(i) == p(i + 1)
    ensures (forall i: nat :: i < n ==> !q(i)) <==> (forall i: nat :: i < n + 1 ==> !p(i))
  {
    if forall i: nat :: i < n ==> !q(i) {
      forall i: nat | i < n + 1 ensures !p(i) {
        if i > 0 {
          assert q(i - 1) == p(i);
        }
      }
    } else {
      var i: nat :| i < n && q(i);
      assert p(i + 1);
    }
  }

  lemma FirstIsLater<T(!new)>(words: seq<string>, p: nat -> bool, q: nat -> bool, meaning: string -> Option<T>, slot: Option<T>)
    requires words != [] && !p(0) && (forall i: nat :: q(i) == p(i + 1)) && HasFirst(words[1..], q, meaning, slot)
    ensures HasFirst(words, p, meaning, slot)
  {
    var rest := words[1..];
    NoneShifts(|rest|, p, q);
    forall i: nat | i < |words| && First(p, i) ensures slot == meaning(Fold(words[i])) {
      PositiveFirst(p, i);
      FirstShifts(p, q, i - 1);
      assert rest[i - 1] == words[i];
    }
    hide First, Fold;
  }

  lemma PositiveFirst(p: nat -> bool, i: nat)
    requires !p(0) && First(p, i)
    ensures i > 0
  {
  }

  function DirectionMeant(): string -> Option<Direction> {
    (w: string) => DirectionOf(w)
  }

  function EnergyMeant(): string -> Option<Energy> {
    (w: string) => EnergyOf(w)
  }

  function ColourMeant(): string -> Option<Colour> {
    (w: string) => ColourOf(w)
  }

  lemma {:induction false} DirectionIsFirst(f: Found, words: seq<string>)
    ensures f.direction.Some? ==> AbsorbAll(f, words).direction == f.direction
    ensures f.direction.None? ==>
      HasFirst(words, Says(words, NamesDirection()), DirectionMeant(), AbsorbAll(f, words).direction)
    decreases |words|
  {
    hide DirectionOf, EnergyOf, ColourOf, IsAccent, IsHold, HasFirst;
    if words == [] {
      NothingFirst(Says(words, NamesDirection()), DirectionMeant());
    } else {
      var w, rest := Fold(words[0]), words[1..];
      DirectionIsFirst(Absorb(f, w), rest);
      if f.direction.None? && DirectionOf(w).Some? {
        FirstIsNow(words, Says(words, NamesDirection()), DirectionMeant());
      } else if f.direction.None? {
        FirstIsLater(words, Says(words, NamesDirection()), Says(rest, NamesDirection()), DirectionMeant(),
                     AbsorbAll(f, words).direction);
      }
    }
  }

  lemma NothingFirst<T(!new)>(p: nat -> bool, meaning: string -> Option<T>)
    ensures HasFirst([], p, meaning, None)
  {
  }

  lemma ColourWord(w: string)
    requires ColourOf(w).Some?
    ensures DirectionOf(w).None? && EnergyOf(w).None?
  {
    ColourIsNoDirection(w);
    ColourIsNoEnergy(w);
  }

  lemma {:induction false} ColourIsFirst(f: Found, words: seq<string>)
    ensures f.colour.Some? ==> AbsorbAll(f, words).colour == f.colour
    ensures f.colour.None? ==>
      HasFirst(words, Says(words, NamesColour()), ColourMeant(), AbsorbAll(f, words).colour)
    decreases |words|
  {
    hide DirectionOf, EnergyOf, ColourOf, IsAccent, IsHold, HasFirst;
    if words == [] {
      NothingFirst(Says(words, NamesColour()), ColourMeant());
    } else {
      var w, rest := Fold(words[0]), words[1..];
      ColourIsFirst(Absorb(f, w), rest);
      if f.colour.None? && ColourOf(w).Some? {
        ColourWord(w);
        FirstIsNow(words, Says(words, NamesColour()), ColourMeant());
      } else if f.colour.None? {
        FirstIsLater(words, Says(words, NamesColour()), Says(rest, NamesColour()), ColourMeant(),
                     AbsorbAll(f, words).colour);
      }
    }
  }

  lemma EnergyRestAt(words: seq<string>, taken: bool, i: nat)
    requires words != []
    ensures var later := taken || DirectionOf(Fold(words[0])).Some?;
      NamesEnergy(words[1..], later)(i) == NamesEnergy(words, taken)(i + 1)
  {
    hide DirectionOf, EnergyOf, Fold;
    var p, q := Says(words, NamesDirection()), Says(words[1..], NamesDirection());
    SaysShifts(words, NamesDirection());
    assert p(0) <==> DirectionOf(Fold(words[0])).Some?;
    if p(0) {
      assert !First(p, i + 1);
    } else {
      FirstShifts(p, q, i);
    }
    hide First, Says;
  }

  /** After a word, the energy words are those after it, but the first direction may be spent. */
  lemma EnergyRest(words: seq<string>, taken: bool)
    requires words != []
    ensures var later := taken || DirectionOf(Fold(words[0])).Some?;
      forall i: nat :: NamesEnergy(words[1..], later)(i) == NamesEnergy(words, taken)(i + 1)
  {
    hide NamesEnergy;
    var later := taken || DirectionOf(Fold(words[0])).Some?;
    var p, q := NamesEnergy(words, taken), NamesEnergy(words[1..], later);
    forall i: nat ensures q(i) == p(i + 1) {
      EnergyRestAt(words, taken, i);
    }
  }

  lemma SaysShifts(words: seq<string>, slot: Slot)
    requires words != []
    ensures forall i: nat :: Says(words[1..], slot)(i) == Says(words, slot)(i + 1)
  {
  }

  lemma EnergyNow(words: seq<string>, taken: bool)
    requires words != []
    ensures var w := Fold(words[0]);
      NamesEnergy(words, taken)(0) <==> EnergyOf(w).Some? && (DirectionOf(w).None? || taken)
  {
    hide DirectionOf, EnergyOf;
  }

  lemma AbsorbEnergy(f: Found, w: string)
    ensures Absorb(f, w).direction.Some? <==> f.direction.Some? || DirectionOf(w).Some?
    ensures Absorb(f, w).energy ==
      if f.energy.None? && (DirectionOf(w).None? || f.direction.Some?) then EnergyOf(w) else f.energy
  {
    hide DirectionOf, EnergyOf, ColourOf, IsAccent, IsHold;
  }

  lemma {:induction false} EnergyIsFirst(f: Found, words: seq<string>)
    ensures f.energy.Some? ==> AbsorbAll(f, words).energy == f.energy
    ensures f.energy.None? ==>
      HasFirst(words, NamesEnergy(words, f.direction.Some?), EnergyMeant(), AbsorbAll(f, words).energy)
    decreases |words|
  {
    hide DirectionOf, EnergyOf, Absorb, HasFirst, First, NamesEnergy, Says;
    var p := NamesEnergy(words, f.direction.Some?);
    if words == [] {
      NothingFirst(p, EnergyMeant());
    } else {
      var w, rest := Fold(words[0]), words[1..];
      AbsorbEnergy(f, w);
      EnergyIsFirst(Absorb(f, w), rest);
      if f.energy.None? {
        EnergyNow(words, f.direction.Some?);
        if p(0) {
          FirstIsNow(words, p, EnergyMeant());
        } else {
          EnergyRest(words, f.direction.Some?);
          FirstIsLater(words, p, NamesEnergy(rest, Absorb(f, w).direction.Some?), EnergyMeant(),
                       AbsorbAll(f, words).energy);
        }
      }
    }
  }

  lemma AccentWord(w: string)
    ensures IsAccent(w) ==> DirectionOf(w).None? && EnergyOf(w).None? && ColourOf(w).None?
    ensures IsHold(w) ==> DirectionOf(w).None? && EnergyOf(w).None? && ColourOf(w).None? && !IsAccent(w)
  {
    hide DirectionOf, EnergyOf, ColourOf;
    if IsAccent(w) {
      AccentIsNoDirection(w);
      AccentIsNoEnergy(w);
      AccentIsNoColour(w);
    }
    if IsHold(w) {
      HoldIsNoDirection(w);
      HoldIsNoEnergy(w);
      HoldIsNoColour(w);
      HoldIsNoAccent(w);
    }
  }

  lemma {:induction false} AccentsAndHolds(f: Found, words: seq<string>)
    ensures AbsorbAll(f, words).accent <==> f.accent || exists i: nat :: Says(words, Accents())(i)
    ensures AbsorbAll(f, words).hold <==> f.hold || exists i: nat :: Says(words, Holds())(i)
    decreases |words|
  {
    if words != [] {
      var w, rest := Fold(words[0]), words[1..];
      AccentWord(w);
      assert Accents()(w) == IsAccent(w) && Holds()(w) == IsHold(w);
      hide DirectionOf, EnergyOf, ColourOf, IsAccent, IsHold, Accents, Holds;
      AccentsAndHolds(Absorb(f, w), rest);
      SaysLater(words, Accents());
      SaysLater(words, Holds());
    }
  }

  lemma SaysLater(words: seq<string>, slot: Slot)
    requires words != []
    ensures (exists i: nat :: Says(words, slot)(i)) <==> slot(Fold(words[0])) || exists i: nat :: Says(words[1..], slot)(i)
  {
    if i: nat :| Says(words, slot)(i) {
      assert i > 0 ==> Says(words[1..], slot)(i - 1);
    }
    if i: nat :| Says(words[1..], slot)(i) {
      assert Says(words, slot)(i + 1);
    }
    if slot(Fold(words[0])) {
      assert Says(words, slot)(0);
    }
  }

  // ---- lines ---------------------------------------------------------------

  /** The words of a line, without its label. */
  function WordsOf(line: string): seq<string> {
    Words(if BeatValue(line).Some? then BeatValue(line).value else line, NotWordChar)
  }

  /** A beat line: the first word naming a direction, the first naming a colour and the first naming an
      energy, unless it was taken for the direction, fill its slots, or the middle ones do; it is an
      accent if any word says so, and else held if any word says that.  A line without a label is a
      beat exactly when some word names a direction or a colour. */
  lemma BeatOfLineIs(line: string) returns (d: Option<Direction>, e: Option<Energy>, c: Option<Colour>)
    ensures var words := WordsOf(line);
      && HasFirst(words, Says(words, NamesDirection()), DirectionMeant(), d)
      && HasFirst(words, NamesEnergy(words, false), EnergyMeant(), e)
      && HasFirst(words, Says(words, NamesColour()), ColourMeant(), c)
    ensures var words := WordsOf(line);
      var accent, hold := exists i: nat :: Says(words, Accents())(i), exists i: nat :: Says(words, Holds())(i);
      BeatOfLine(line) ==
        if BeatValue(line).None? && d.None? && c.None? then None
        else
          Some(Beat(if d.Some? then d.value else Center, if e.Some? then e.value else Mid,
                    if c.Some? then c.value else White, accent, hold && !accent))
  {
    hide DirectionOf, EnergyOf, ColourOf, IsAccent, IsHold, HasFirst, First, NamesEnergy, AbsorbAll, BeatValue, Says;
    var words := WordsOf(line);
    DirectionIsFirst(NOTHING, words);
    EnergyIsFirst(NOTHING, words);
    ColourIsFirst(NOTHING, words);
    AccentsAndHolds(NOTHING, words);
    var f := AbsorbAll(NOTHING, words);
    d, e, c := f.direction, f.energy, f.colour;
    assert KnownWords(if BeatValue(line).Some? then BeatValue(line).value else line) == f;
  }

  // ---- labels --------------------------------------------------------------

  predicate Blank(s: string) {
    forall i :: 0 <= i < |s| ==> IsSpace(s[i])
  }

  lemma {:induction false} BlankIsStripped(gap: string, rest: string)
    requires Blank(gap)
    ensures StripLeft(gap + rest) == StripLeft(rest)
  {
    if gap == "" {
      assert gap + rest == rest;
    } else {
      BlankIsStripped(gap[1..], rest);
      assert (gap + rest)[1..] == gap[1..] + rest;
    }
  }

  lemma ColonStands(colon: char, rest: string)
    requires !IsSpace(colon)
    ensures StripLeft([colon] + rest) == [colon] + rest && ([colon] + rest)[1..] == rest
  {
  }

  /** One of the labels of a name, white space, a colon of either width: the rest is the name. */
  lemma NameLineIs(tag: string, gap: string, colon: char, rest: string)
    requires Fold(tag) in {"name", "title"} || tag in {"\U{306A}\U{307E}\U{3048}", "\U{540D}\U{524D}"}
    requires Blank(gap) && colon in {':', '\U{FF1A}'}
    ensures NameValue(tag + (gap + ([colon] + rest))) == Some(StripLeft(rest))
  {
    var line, tail := tag + (gap + ([colon] + rest)), gap + ([colon] + rest);
    assert line[..|tag|] == tag && line[|tag|..] == tail;
    NameLabel(tag, tail);
    BlankIsStripped(gap, [colon] + rest);
    ColonStands(colon, rest);
  }

  lemma NameLabel(tag: string, tail: string)
    requires Fold(tag) in {"name", "title"} || tag in {"\U{306A}\U{307E}\U{3048}", "\U{540D}\U{524D}"}
    ensures NameKey(tag + tail) == |tag|
  {
    var line := tag + tail;
    assert |Fold(tag)| == |tag|;
    assert line[..|tag|] == tag;
    if Fold(tag) == "title" {
      assert Fold(line[..4])[0] == Fold(tag)[0] == 't';
    } else if Fold(tag) != "name" {
      assert line[0] == tag[0] && Lower(tag[0]) == tag[0];
      assert |line| >= 4 ==> Fold(line[..4])[0] == tag[0];
      assert |line| >= 5 ==> Fold(line[..5])[0] == tag[0];
    }
  }

  /** Nothing else is a name line. */
  lemma NameLinesStartSo(line: string) returns (n: nat)
    requires NameValue(line).Some?
    ensures n <= |line| && (Fold(line[..n]) in {"name", "title"} || line[..n] in {"\U{306A}\U{307E}\U{3048}", "\U{540D}\U{524D}"})
    ensures StripLeft(line[n..]) != "" && StripLeft(line[n..])[0] in {':', '\U{FF1A}'}
  {
    n := NameKey(line);
  }

  lemma {:induction false} AllDigits(tag: string, tail: string)
    requires (forall i :: 0 <= i < |tag| ==> IsDigit(tag[i])) && (tail != "" ==> !IsDigit(tail[0]))
    ensures Digits(tag + tail) == |tag|
  {
    hide IsDigit;
    if tag == "" {
      assert tag + tail == tail;
    } else {
      AllDigits(tag[1..], tail);
      assert (tag + tail)[1..] == tag[1..] + tail;
    }
  }

  /** The labels of a beat: a word, a number in any script, or a bullet. */
  predicate IsLabel(tag: string) {
    || Fold(tag) in {"beat", "step"} || tag in {"\U{30D3}\U{30FC}\U{30C8}", "\U{3073}\U{30FC}\U{3068}"}
    || (tag != "" && forall i :: 0 <= i < |tag| ==> IsDigit(tag[i]))
    || tag in {"-", "*", "\U{30FB}", ">"}
  }

  lemma LabelLength(tag: string, tail: string)
    requires IsLabel(tag) && (tail != "" ==> !IsDigit(tail[0]))
    ensures BeatKey(tag + tail) == |tag|
  {
    var line := tag + tail;
    assert line[..|tag|] == tag && |Fold(tag)| == |tag|;
    assert tag != "";
    assert line[0] == tag[0];
    if Fold(tag) in {"beat", "step"} {
    } else {
      FirstLetter(tag);
      NoKeyword(line);
      if tag in {"\U{30D3}\U{30FC}\U{30C8}", "\U{3073}\U{30FC}\U{3068}"} {
      } else {
        NoKana(line);
        if forall i :: 0 <= i < |tag| ==> IsDigit(tag[i]) {
          AllDigits(tag, tail);
        } else {
          assert Digits(line) == 0;
        }
      }
    }
  }

  lemma FirstLetter(tag: string)
    requires IsLabel(tag) && Fold(tag) !in {"beat", "step"}
    ensures tag != "" && Lower(tag[0]) != 'b' && Lower(tag[0]) != 's'
    ensures tag !in {"\U{30D3}\U{30FC}\U{30C8}", "\U{3073}\U{30FC}\U{3068}"} ==>
      tag[0] != '\U{30D3}' && tag[0] != '\U{3073}'
  {
  }

  lemma NoKeyword(line: string)
    requires line != "" && Lower(line[0]) != 'b' && Lower(line[0]) != 's'
    ensures !StartsFolded(line, "beat") && !StartsFolded(line, "step")
  {
    if |line| >= 4 {
      assert Fold(line[..4])[0] == Lower(line[0]);
    }
  }

  lemma NoKana(line: string)
    requires line != "" && line[0] != '\U{30D3}' && line[0] != '\U{3073}'
    ensures !StartsWith(line, BEAT_KANA) && !StartsWith(line, BEAT_HIRAGANA)
  {
    if |line| >= 3 {
      assert line[..3][0] == line[0];
    }
  }

  /** After a label, white space, and a full stop, bracket or colon or none of them, the rest is the
      body of the beat. */
  lemma BeatLineIs(tag: string, gap: string, dot: string, rest: string)
    requires IsLabel(tag) && Blank(gap) && dot in {".", ")", ":", "\U{FF1A}", ""}
    requires gap + dot + rest != "" ==> !IsDigit((gap + dot + rest)[0])
    requires dot == "" && StripLeft(rest) != "" ==> StripLeft(rest)[0] !in {'.', ')', ':', '\U{FF1A}'}
    ensures BeatValue(tag + (gap + dot + rest)) == Some(StripLeft(rest))
  {
    hide IsDigit, IsLabel, BeatValue, Blank, StripLeft;
    var tail := gap + dot + rest;
    assert tail == gap + (dot + rest);
    BlankIsStripped(gap, dot + rest);
    BodyAfter(dot, rest);
    LabelIsTaken(tag, tail);
  }

  lemma LabelIsTaken(tag: string, tail: string)
    requires IsLabel(tag) && (tail != "" ==> !IsDigit(tail[0]))
    ensures var body := StripLeft(tail);
      BeatValue(tag + tail) ==
        Some(if body != "" && (body[0] == '.' || body[0] == ')' || IsColon(body[0])) then StripLeft(body[1..]) else body)
  {
    LabelLength(tag, tail);
    assert (tag + tail)[|tag|..] == tail;
    LabelIsSome(tag);
    hide IsDigit, IsLabel, BeatKey, StripLeft;
  }

  lemma LabelIsSome(tag: string)
    requires IsLabel(tag)
    ensures tag != ""
  {
    assert |Fold(tag)| == |tag|;
  }

  lemma BodyAfter(dot: string, rest: string)
    requires dot in {".", ")", ":", "\U{FF1A}", ""}
    requires dot == "" && StripLeft(rest) != "" ==> StripLeft(rest)[0] !in {'.', ')', ':', '\U{FF1A}'}
    ensures var body := StripLeft(dot + rest);
      if body != "" && (body[0] == '.' || body[0] == ')' || IsColon(body[0])) then StripLeft(body[1..]) == StripLeft(rest)
      else body == StripLeft(rest)
  {
    if dot == "" {
      assert dot + rest == rest;
    } else {
      assert dot == [dot[0]];
      ColonStands(dot[0], rest);
    }
    hide StripLeft;
  }

  /** Where a collapsed text is cut: the word, white space, a colon of either width. */
  lemma MarkerIs(tag: string, gap: string, colon: char, rest: string)
    requires (Fold(tag) == "beat" || tag == "\U{30D3}\U{30FC}\U{30C8}") && Blank(gap) && colon in {':', '\U{FF1A}'}
    ensures Marker(tag + (gap + ([colon] + rest))) == |tag| + |gap| + 1
  {
    var line, tail := tag + (gap + ([colon] + rest)), gap + ([colon] + rest);
    assert line[..|tag|] == tag && line[|tag|..] == tail && |Fold(tag)| == |tag|;
    assert line[0] == tag[0];
    if Fold(tag) != "beat" {
      NoKeyword(line);
    }
    GapThenColon(gap, colon, rest);
  }

  lemma {:induction false} GapThenColon(gap: string, colon: char, rest: string)
    requires Blank(gap) && colon in {':', '\U{FF1A}'}
    ensures SpacesThenColon(gap + ([colon] + rest)) == |gap| + 1
  {
    if gap == "" {
      assert gap + ([colon] + rest) == [colon] + rest;
    } else {
      GapThenColon(gap[1..], colon, rest);
      assert (gap + ([colon] + rest))[1..] == gap[1..] + ([colon] + rest);
      assert (gap + ([colon] + rest))[0] == gap[0] && IsSpace(gap[0]) && !IsColon(gap[0]);
    }
  }
}
