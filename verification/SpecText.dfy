/**
  A choreography spec as text: printing it, and the lenient parser that reads it back.

  The regular expressions are written out as functions on strings, for all of Unicode: ignoring
  case also lets a dotted or dotless i and a long s stand for the letters of a label, and `\d` is
  any decimal digit (of Unicode 14, which comes with Python 3.11).
*/
module SpecText {
  import opened Wrappers
  import opened MotionSpec
  import opened Streaming

  // ---- characters ----------------------------------------------------------

  /** Where `str.splitlines` cuts.  A carriage return and line feed count as two cuts: the
      empty line between them is dropped like any other. */
  predicate IsBreak(c: char) {
    || '\n' <= c <= '\r' || '\U{1C}' <= c <= '\U{1E}'
    || c == '\U{85}' || c == '\U{2028}' || c == '\U{2029}'
  }

  predicate IsColon(c: char) {
    c == ':' || c == '\U{FF1A}'
  }

  /** A decimal digit of any script. */
  predicate IsDigit(c: char) {
    || '0' <= c <= '9' || '\U{660}' <= c <= '\U{669}'
    || '\U{6F0}' <= c <= '\U{6F9}' || '\U{7C0}' <= c <= '\U{7C9}'
    || '\U{966}' <= c <= '\U{96F}' || '\U{9E6}' <= c <= '\U{9EF}'
    || '\U{A66}' <= c <= '\U{A6F}' || '\U{AE6}' <= c <= '\U{AEF}'
    || '\U{B66}' <= c <= '\U{B6F}' || '\U{BE6}' <= c <= '\U{BEF}'
    || '\U{C66}' <= c <= '\U{C6F}' || '\U{CE6}' <= c <= '\U{CEF}'
    || '\U{D66}' <= c <= '\U{D6F}' || '\U{DE6}' <= c <= '\U{DEF}'
    || '\U{E50}' <= c <= '\U{E59}' || '\U{ED0}' <= c <= '\U{ED9}'
    || '\U{F20}' <= c <= '\U{F29}' || '\U{1040}' <= c <= '\U{1049}'
    || '\U{1090}' <= c <= '\U{1099}' || '\U{17E0}' <= c <= '\U{17E9}'
    || '\U{1810}' <= c <= '\U{1819}' || '\U{1946}' <= c <= '\U{194F}'
    || '\U{19D0}' <= c <= '\U{19D9}' || '\U{1A80}' <= c <= '\U{1A89}'
    || '\U{1A90}' <= c <= '\U{1A99}' || '\U{1B50}' <= c <= '\U{1B59}'
    || '\U{1BB0}' <= c <= '\U{1BB9}' || '\U{1C40}' <= c <= '\U{1C49}'
    || '\U{1C50}' <= c <= '\U{1C59}' || '\U{A620}' <= c <= '\U{A629}'
    || '\U{A8D0}' <= c <= '\U{A8D9}' || '\U{A900}' <= c <= '\U{A909}'
    || '\U{A9D0}' <= c <= '\U{A9D9}' || '\U{A9F0}' <= c <= '\U{A9F9}'
    || '\U{AA50}' <= c <= '\U{AA59}' || '\U{ABF0}' <= c <= '\U{ABF9}'
    || '\U{FF10}' <= c <= '\U{FF19}' || '\U{104A0}' <= c <= '\U{104A9}'
    || '\U{10D30}' <= c <= '\U{10D39}' || '\U{11066}' <= c <= '\U{1106F}'
    || '\U{110F0}' <= c <= '\U{110F9}' || '\U{11136}' <= c <= '\U{1113F}'
    || '\U{111D0}' <= c <= '\U{111D9}' || '\U{112F0}' <= c <= '\U{112F9}'
    || '\U{11450}' <= c <= '\U{11459}' || '\U{114D0}' <= c <= '\U{114D9}'
    || '\U{11650}' <= c <= '\U{11659}' || '\U{116C0}' <= c <= '\U{116C9}'
    || '\U{11730}' <= c <= '\U{11739}' || '\U{118E0}' <= c <= '\U{118E9}'
    || '\U{11950}' <= c <= '\U{11959}' || '\U{11C50}' <= c <= '\U{11C59}'
    || '\U{11D50}' <= c <= '\U{11D59}' || '\U{11DA0}' <= c <= '\U{11DA9}'
    || '\U{16A60}' <= c <= '\U{16A69}' || '\U{16AC0}' <= c <= '\U{16AC9}'
    || '\U{16B50}' <= c <= '\U{16B59}' || '\U{1D7CE}' <= c <= '\U{1D7FF}'
    || '\U{1E140}' <= c <= '\U{1E149}' || '\U{1E2F0}' <= c <= '\U{1E2F9}'
    || '\U{1E950}' <= c <= '\U{1E959}' || '\U{1FBF0}' <= c <= '\U{1FBF9}'
  }

  predicate IsWordChar(c: char) {
    || '0' <= c <= '9' || 'A' <= c <= 'Z' || 'a' <= c <= 'z'
    || '\U{3040}' <= c <= '\U{30FF}' || '\U{4E00}' <= c <= '\U{9FFF}'
  }

  predicate NotWordChar(c: char) {
    !IsWordChar(c)
  }

  /** The lower-case ASCII letter that a character equals when case is ignored. */
  function Lower(c: char): char {
    if 'A' <= c <= 'Z' then 'a' + (c - 'A')
    else if c == '\U{130}' || c == '\U{131}' then 'i'
    else if c == '\U{17F}' then 's'
    else c
  }

  function Fold(s: string): (r: string)
    ensures |r| == |s| && forall i :: 0 <= i < |s| ==> r[i] == Lower(s[i])
  {
    seq(|s|, i requires 0 <= i < |s| => Lower(s[i]))
  }

  predicate Free(s: string, p: char -> bool) {
    forall i :: 0 <= i < |s| ==> !p(s[i])
  }

  // ---- cutting and joining -------------------------------------------------

  /** The pieces of `s` between separators, empty ones included. */
  function Parts(s: string, sep: char -> bool): (r: seq<string>)
    ensures |r| >= 1
  {
    if s == "" then [""]
    else
      var rest := Parts(s[1..], sep);
      if sep(s[0]) then [""] + rest else [[s[0]] + rest[0]] + rest[1..]
  }

  function NonEmpty(parts: seq<string>): seq<string> {
    if parts == [] then []
    else (if parts[0] == "" then [] else [parts[0]]) + NonEmpty(parts[1..])
  }

  function Join(parts: seq<string>, glue: char): string {
    if parts == [] then ""
    else if |parts| == 1 then parts[0]
    else parts[0] + [glue] + Join(parts[1..], glue)
  }

  /** The words of a text: `str.split()` when `sep` is white space. */
  function Words(s: string, sep: char -> bool): seq<string> {
    NonEmpty(Parts(s, sep))
  }

  lemma {:induction false} PartsOfFree(a: string, sep: char -> bool)
    requires Free(a, sep)
    ensures Parts(a, sep) == [a]
  {
    if a != "" {
      PartsOfFree(a[1..], sep);
      assert [a[0]] + a[1..] == a;
    }
  }

  /** A piece without separators, up to the next separator. */
  lemma {:induction false} PartsStep(a: string, c: char, b: string, sep: char -> bool)
    requires Free(a, sep) && sep(c)
    ensures Parts(a + [c] + b, sep) == [a] + Parts(b, sep)
  {
    var s := a + [c] + b;
    if a == "" {
      assert s[1..] == b;
    } else {
      PartsStep(a[1..], c, b, sep);
      assert s[1..] == a[1..] + [c] + b;
      assert [a[0]] + a[1..] == a;
    }
  }

  /** Cutting at a single kind of separator and gluing with it changes nothing. */
  lemma {:induction false} JoinParts(s: string, sep: char -> bool, glue: char)
    requires forall i :: 0 <= i < |s| && sep(s[i]) ==> s[i] == glue
    ensures Join(Parts(s, sep), glue) == s
  {
    if s != "" {
      JoinParts(s[1..], sep, glue);
      var rest := Parts(s[1..], sep);
      assert s == [s[0]] + s[1..];
      if sep(s[0]) {
        assert ([""] + rest)[1..] == rest;
      } else {
        var all := [[s[0]] + rest[0]] + rest[1..];
        assert all[1..] == rest[1..];
        if |rest| > 1 {
          assert Join(all, glue) == [s[0]] + rest[0] + [glue] + Join(rest[1..], glue);
        }
      }
    }
  }

  // ---- the name ------------------------------------------------------------

  const NAME_MAX := 16
  const DEFAULT_NAME := "\U{3042}\U{305F}\U{3089}\U{3057}\U{3044}\U{3046}\U{3054}\U{304D}"

  predicate IsQuote(c: char) {
    c == '"' || c == '\'' || c == '\U{201C}' || c == '\U{201D}'
  }

  predicate IsLead(c: char) {
    IsSpace(c) || IsQuote(c) || c == '\U{300C}' || c == '\U{300E}' || c == '\U{FF08}' || c == '(' || c == '['
  }

  predicate IsTrail(c: char) {
    IsSpace(c) || IsQuote(c) || c == '\U{300D}' || c == '\U{300F}' || c == '\U{FF09}' || c == ')' || c == ']'
  }

  function TrimLead(s: string): string {
    if s != "" && IsLead(s[0]) then TrimLead(s[1..]) else s
  }

  function TrimTrail(s: string): string {
    if s != "" && IsTrail(s[|s| - 1]) then TrimTrail(s[..|s| - 1]) else s
  }

  /** One space between words. */
  function Compact(s: string): string {
    Join(Words(s, IsSpace), ' ')
  }

  /** No quotes or brackets around. */
  function Trimmed(s: string): string {
    TrimTrail(TrimLead(Compact(s)))
  }

  function CleanName(s: string): (r: string)
    ensures |r| <= NAME_MAX
  {
    if |Trimmed(s)| > NAME_MAX then Trimmed(s)[..NAME_MAX] else Trimmed(s)
  }

  // ---- printing ------------------------------------------------------------

  function DirectionName(d: Direction): string {
    match d
    case Center => "center" case Left => "left" case Right => "right" case Up => "up" case Down => "down"
    case UpLeft => "upleft" case UpRight => "upright" case DownLeft => "downleft" case DownRight => "downright"
  }

  function EnergyName(e: Energy): string {
    match e case Low => "low" case Mid => "mid" case High => "high"
  }

  function ColourName(c: Colour): string {
    match c
    case Pink => "pink" case Amber => "amber" case Blue => "blue" case Green => "green"
    case Violet => "violet" case White => "white" case Red => "red" case Off => "off"
  }

  function Modifier(b: Beat): string {
    if b.accent then " accent" else if b.hold then " hold" else ""
  }

  function Body(b: Beat): string {
    DirectionName(b.direction) + " " + EnergyName(b.energy) + " " + ColourName(b.colour) + Modifier(b)
  }

  function BeatText(b: Beat): string {
    "beat: " + Body(b)
  }

  /** The beat lines, each after a line break. */
  function Tail(beats: seq<Beat>): string {
    if beats == [] then "" else "\n" + BeatText(beats[0]) + Tail(beats[1..])
  }

  function ToText(s: Spec): string {
    "name: " + s.name + Tail(s.beats)
  }

  // ---- candidate lines -----------------------------------------------------

  predicate StartsWith(s: string, k: string) {
    |k| <= |s| && s[..|k|] == k
  }

  predicate StartsFolded(s: string, k: string) {
    |k| <= |s| && Fold(s[..|k|]) == k
  }

  const BEAT_KANA := "\U{30D3}\U{30FC}\U{30C8}"
  const BEAT_HIRAGANA := "\U{3073}\U{30FC}\U{3068}"

  function MarkerKey(s: string): nat {
    if StartsFolded(s, "beat") then 4 else if StartsWith(s, BEAT_KANA) then 3 else 0
  }

  /** The length of white space and then a colon at the start, or 0. */
  function SpacesThenColon(s: string): nat {
    if s == "" then 0
    else if IsColon(s[0]) then 1
    else if IsSpace(s[0]) then
      var n := SpacesThenColon(s[1..]);
      if n == 0 then 0 else n + 1
    else 0
  }

  /** The length of a beat marker at the start of `s`, or 0. */
  function Marker(s: string): (n: nat)
    ensures n <= |s|
  {
    var k := MarkerKey(s);
    if k == 0 then 0
    else
      var n := SpacesThenColon(s[k..]);
      SpacesColonInside(s[k..]);
      if n == 0 then 0 else k + n
  }

  lemma {:induction false} SpacesColonInside(s: string)
    ensures SpacesThenColon(s) <= |s|
  {
    if s != "" {
      SpacesColonInside(s[1..]);
    }
  }

  /** Each marker after white space, or at the very start, goes on a line of its own. */
  function Marked(after: bool, s: string): string
    decreases |s|
  {
    if s == "" then ""
    else if after && Marker(s) > 0 then "\nbeat:" + Marked(false, s[Marker(s)..])
    else [s[0]] + Marked(IsSpace(s[0]), s[1..])
  }

  predicate IsFence(line: string) {
    StartsWith(Strip(line), "```")
  }

  function Unfenced(lines: seq<string>): seq<string> {
    if lines == [] then []
    else (if IsFence(lines[0]) then [] else [lines[0]]) + Unfenced(lines[1..])
  }

  function Stripped(lines: seq<string>): seq<string> {
    if lines == [] then []
    else (if Strip(lines[0]) == "" then [] else [Strip(lines[0])]) + Stripped(lines[1..])
  }

  /** The lines of a spec, also when it was collapsed onto one line. */
  function CandidateLines(text: string): seq<string> {
    Stripped(Parts(Marked(true, Join(Unfenced(Parts(text, IsBreak)), '\n')), IsBreak))
  }

  // ---- one line ------------------------------------------------------------

  function NameKey(line: string): nat {
    if StartsFolded(line, "name") then 4
    else if StartsFolded(line, "title") then 5
    else if StartsWith(line, "\U{306A}\U{307E}\U{3048}") then 3
    else if StartsWith(line, "\U{540D}\U{524D}") then 2
    else 0
  }

  /** What follows the label of a name line. */
  function NameValue(line: string): Option<string> {
    var k := NameKey(line);
    if k == 0 then None
    else
      var rest := StripLeft(line[k..]);
      if rest != "" && IsColon(rest[0]) then Some(StripLeft(rest[1..])) else None
  }

  function Digits(s: string): (n: nat)
    ensures n <= |s|
  {
    if s != "" && IsDigit(s[0]) then 1 + Digits(s[1..]) else 0
  }

  function BeatKey(line: string): (n: nat)
    ensures n <= |line|
  {
    if StartsFolded(line, "beat") || StartsFolded(line, "step") then 4
    else if StartsWith(line, BEAT_KANA) || StartsWith(line, BEAT_HIRAGANA) then 3
    else if Digits(line) > 0 then Digits(line)
    else if line != "" && line[0] in {'-', '*', '\U{30FB}', '>'} then 1
    else 0
  }

  /** What follows the label of a beat line. */
  function BeatValue(line: string): Option<string> {
    var k := BeatKey(line);
    if k == 0 then None
    else
      var rest := StripLeft(line[k..]);
      if rest != "" && (rest[0] == '.' || rest[0] == ')' || IsColon(rest[0])) then Some(StripLeft(rest[1..]))
      else Some(rest)
  }

  function DirectionOf(w: string): Option<Direction> {
    if w in {"center", "centre", "middle", "neutral", "front", "\U{307E}\U{3093}\U{306A}\U{304B}"} then Some(Center)
    else if w in {"left", "\U{3072}\U{3060}\U{308A}", "\U{5DE6}"} then Some(Left)
    else if w in {"right", "\U{307F}\U{304E}", "\U{53F3}"} then Some(Right)
    else if w in {"up", "\U{3046}\U{3048}", "\U{4E0A}"} then Some(Up)
    else if w in {"down", "\U{3057}\U{305F}", "\U{4E0B}"} then Some(Down)
    else if w == "upleft" then Some(UpLeft)
    else if w == "upright" then Some(UpRight)
    else if w == "downleft" then Some(DownLeft)
    else if w == "downright" then Some(DownRight)
    else None
  }

  function EnergyOf(w: string): Option<Energy> {
    if w in {"low", "soft", "gentle", "slow", "calm", "\U{3088}\U{308F}\U{3044}"} then Some(Low)
    else if w in {"mid", "medium", "middle", "\U{3075}\U{3064}\U{3046}"} then Some(Mid)
    else if w in {"high", "strong", "fast", "big", "\U{3064}\U{3088}\U{3044}"} then Some(High)
    else None
  }

  function ColourOf(w: string): Option<Colour> {
    if w in {"pink", "magenta"} then Some(Pink)
    else if w in {"amber", "orange", "yellow", "gold"} then Some(Amber)
    else if w in {"blue", "cyan", "aqua"} then Some(Blue)
    else if w == "green" then Some(Green)
    else if w in {"violet", "purple"} then Some(Violet)
    else if w == "white" then Some(White)
    else if w == "red" then Some(Red)
    else if w in {"off", "dark", "black", "none"} then Some(Off)
    else None
  }

  predicate IsAccent(w: string) {
    w in {"accent", "snap", "quick", "pop", "flick"}
  }

  predicate IsHold(w: string) {
    w in {"hold", "still", "pause", "wait", "freeze"}
  }

  datatype Found = Found(
    direction: Option<Direction>, energy: Option<Energy>, colour: Option<Colour>, accent: bool, hold: bool)

  const NOTHING := Found(None, None, None, false, false)

  /** A word fills the first slot it fits that is still open. */
  function Absorb(f: Found, w: string): Found {
    if DirectionOf(w).Some? && f.direction.None? then f.(direction := DirectionOf(w))
    else if EnergyOf(w).Some? && f.energy.None? then f.(energy := EnergyOf(w))
    else if ColourOf(w).Some? && f.colour.None? then f.(colour := ColourOf(w))
    else if IsAccent(w) then f.(accent := true)
    else if IsHold(w) then f.(hold := true)
    else f
  }

  function AbsorbAll(f: Found, words: seq<string>): Found
    decreases |words|
  {
    if words == [] then f else AbsorbAll(Absorb(f, Fold(words[0])), words[1..])
  }

  function KnownWords(body: string): Found {
    AbsorbAll(NOTHING, Words(body, NotWordChar))
  }

  function BeatFrom(f: Found): (b: Beat)
    ensures !(b.accent && b.hold)
  {
    Beat(if f.direction.Some? then f.direction.value else Center,
         if f.energy.Some? then f.energy.value else Mid,
         if f.colour.Some? then f.colour.value else White,
         f.accent, f.hold && !f.accent)
  }

  /** The beat on a line that is not a name: a labelled line always is one, an unlabelled one
      has to look like one. */
  function BeatOfLine(line: string): Option<Beat> {
    var value := BeatValue(line);
    var found := KnownWords(if value.Some? then value.value else line);
    if value.None? then
      if found.direction.Some? || found.colour.Some? then Some(BeatFrom(found)) else None
    else if found == NOTHING then Some(Beat(Center, Mid, White, false, false))
    else Some(BeatFrom(found))
  }

  // ---- parsing -------------------------------------------------------------

  /** The first name that is left of any name line. */
  function NameFrom(lines: seq<string>): string {
    if lines == [] then ""
    else
      var v := NameValue(lines[0]);
      if v.Some? && CleanName(v.value) != "" then CleanName(v.value) else NameFrom(lines[1..])
  }

  /** The beat of one line, if it is not a name line and has one. */
  function LineBeats(line: string): seq<Beat> {
    if NameValue(line).Some? || BeatOfLine(line).None? then [] else [BeatOfLine(line).value]
  }

  function BeatsFrom(lines: seq<string>): seq<Beat> {
    if lines == [] then [] else LineBeats(lines[0]) + BeatsFrom(lines[1..])
  }

  datatype ParseError = EmptyText | NoUsableBeat

  function Named(name: string, fallback: string): string {
    if name != "" then name else if CleanName(fallback) != "" then CleanName(fallback) else DEFAULT_NAME
  }

  function Parse(text: string, fallback: string): Result<Spec, ParseError> {
    if Strip(text) == "" then Err(EmptyText)
    else
      var lines := CandidateLines(text);
      var beats := BeatsFrom(lines);
      if beats == [] then Err(NoUsableBeat)
      else Ok(Spec(Named(NameFrom(lines), fallback), if |beats| > MAX_SPEC_BEATS then beats[..MAX_SPEC_BEATS] else beats))
  }

  lemma {:induction false} NameFromAppend(a: seq<string>, b: seq<string>)
    ensures NameFrom(a + b) == if NameFrom(a) != "" then NameFrom(a) else NameFrom(b)
  {
    hide NameValue, CleanName;
    if a == [] {
      assert a + b == b;
    } else {
      NameFromAppend(a[1..], b);
      assert (a + b)[1..] == a[1..] + b;
    }
  }

  lemma {:induction false} BeatsFromAppend(a: seq<string>, b: seq<string>)
    ensures BeatsFrom(a + b) == BeatsFrom(a) + BeatsFrom(b)
  {
    hide LineBeats;
    if a == [] {
      assert a + b == b;
    } else {
      BeatsFromAppend(a[1..], b);
      assert (a + b)[1..] == a[1..] + b && (a + b)[0] == a[0];
      var x, y, z := LineBeats(a[0]), BeatsFrom(a[1..]), BeatsFrom(b);
      assert (x + y) + z == x + (y + z);
    }
  }

  method ParseMotionSpec(text: string, fallback: string) returns (r: Result<Spec, ParseError>)
    ensures r == Parse(text, fallback)
  {
    hide Strip, CandidateLines, NameValue, BeatOfLine, CleanName;
    if Strip(text) == "" {
      return Err(EmptyText);
    }
    var lines := CandidateLines(text);
    var name, beats: seq<Beat> := "", [];
    for i := 0 to |lines|
      invariant name == NameFrom(lines[..i])
      invariant beats == BeatsFrom(lines[..i])
    {
      assert lines[..i + 1] == lines[..i] + [lines[i]];
      NameFromAppend(lines[..i], [lines[i]]);
      BeatsFromAppend(lines[..i], [lines[i]]);
      var value := NameValue(lines[i]);
      if value.Some? {
        if name == "" {
          name := CleanName(value.value);
        }
      } else {
        var beat := BeatOfLine(lines[i]);
        if beat.Some? {
          beats := beats + [beat.value];
        }
      }
    }
    assert lines[..|lines|] == lines;
    if beats == [] {
      return Err(NoUsableBeat);
    }
    if name == "" {
      name := CleanName(fallback);
    }
    if name == "" {
      name := DEFAULT_NAME;
    }
    return Ok(Spec(name, if |beats| > MAX_SPEC_BEATS then beats[..MAX_SPEC_BEATS] else beats));
  }
}
