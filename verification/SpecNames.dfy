/**
  What cleaning a name does, and what reading a name line gives back.
*/
module SpecNames {
  import opened Wrappers
  import opened Streaming
  import opened SpecText

  // ---- cleaning ------------------------------------------------------------

  /** White space only as the space character. */
  predicate Spaced(s: string) {
    forall i :: 0 <= i < |s| ==> (IsSpace(s[i]) ==> s[i] == ' ')
  }

  lemma {:induction false} PartsAreFree(s: string, sep: char -> bool)
    ensures forall p :: p in Parts(s, sep) ==> Free(p, sep)
  {
    if s != "" {
      PartsAreFree(s[1..], sep);
      var rest := Parts(s[1..], sep);
      assert rest[0] in rest && forall p :: p in rest[1..] ==> p in rest;
    }
  }

  lemma {:induction false} NonEmptyAreParts(parts: seq<string>)
    ensures forall p :: p in NonEmpty(parts) ==> p in parts
  {
    if parts != [] {
      NonEmptyAreParts(parts[1..]);
      assert parts == [parts[0]] + parts[1..];
    }
  }

  lemma {:induction false} JoinIsSpaced(parts: seq<string>)
    requires forall p :: p in parts ==> Free(p, IsSpace)
    ensures Spaced(Join(parts, ' '))
  {
    if |parts| > 1 {
      JoinIsSpaced(parts[1..]);
      assert parts[0] in parts;
      assert IsSpace(' ');
    } else if |parts| == 1 {
      assert parts[0] in parts;
    }
  }

  /** The length of the pieces glued together. */
  function GluedLength(parts: seq<string>): nat {
    if parts == [] then 0
    else if |parts| == 1 then |parts[0]|
    else |parts[0]| + 1 + GluedLength(parts[1..])
  }

  lemma {:induction false} JoinLength(parts: seq<string>, glue: char)
    ensures |Join(parts, glue)| == GluedLength(parts)
  {
    if |parts| > 1 {
      JoinLength(parts[1..], glue);
    }
  }

  lemma {:induction false} NonEmptyIsShorter(parts: seq<string>)
    ensures GluedLength(NonEmpty(parts)) <= GluedLength(parts)
    ensures |NonEmpty(parts)| <= |parts|
  {
    if parts != [] {
      NonEmptyIsShorter(parts[1..]);
      var rest := NonEmpty(parts[1..]);
      assert ([parts[0]] + rest)[1..] == rest;
      if parts[0] == "" {
        assert NonEmpty(parts) == rest;
      } else {
        assert NonEmpty(parts) == [parts[0]] + rest;
      }
    }
  }

  lemma {:induction false} PartsLength(s: string, sep: char -> bool)
    ensures GluedLength(Parts(s, sep)) == |s|
  {
    if s != "" {
      PartsLength(s[1..], sep);
      var rest := Parts(s[1..], sep);
      assert ([""] + rest)[1..] == rest;
      assert ([[s[0]] + rest[0]] + rest[1..])[1..] == rest[1..];
    }
  }

  lemma CompactIsTidy(s: string)
    ensures Spaced(Compact(s)) && |Compact(s)| <= |s|
  {
    hide Parts, NonEmpty, Join, GluedLength;
    PartsAreFree(s, IsSpace);
    NonEmptyAreParts(Parts(s, IsSpace));
    JoinIsSpaced(Words(s, IsSpace));
    PartsLength(s, IsSpace);
    NonEmptyIsShorter(Parts(s, IsSpace));
    JoinLength(Words(s, IsSpace), ' ');
  }

  lemma {:induction false} TrimLeadKeeps(s: string)
    ensures var r := TrimLead(s);
      |r| <= |s| && (Spaced(s) ==> Spaced(r)) && (r != "" ==> !IsLead(r[0]))
  {
    hide IsLead;
    if s != "" && IsLead(s[0]) {
      TrimLeadKeeps(s[1..]);
    }
  }

  lemma {:induction false} TrimTrailKeeps(s: string)
    ensures var r := TrimTrail(s);
      && |r| <= |s| && r == s[..|r|] && (Spaced(s) ==> Spaced(r))
      && (r != "" ==> !IsTrail(r[|r| - 1]))
  {
    hide IsTrail;
    if s != "" && IsTrail(s[|s| - 1]) {
      var front := s[..|s| - 1];
      TrimTrailKeeps(front);
      var r := TrimTrail(front);
      assert front[..|r|] == s[..|r|];
    } else {
      assert s[..|s|] == s;
    }
  }

  lemma TrimmedIsTidy(s: string)
    ensures var r := Trimmed(s);
      Spaced(r) && |r| <= |s| && (r != "" ==> !IsLead(r[0]) && !IsTrail(r[|r| - 1]))
  {
    hide Compact, IsLead, IsTrail;
    CompactIsTidy(s);
    TrimLeadKeeps(Compact(s));
    TrimTrailKeeps(TrimLead(Compact(s)));
  }

  /** A cleaned name is no longer than the name, and has no odd white space. */
  lemma CleanIsTidy(s: string)
    ensures Spaced(CleanName(s)) && |CleanName(s)| <= |s|
  {
    TrimmedIsTidy(s);
    hide Trimmed;
  }

  /** A name that cleaning leaves alone starts and ends with a character worth keeping. */
  lemma FixedNameEnds(s: string)
    requires CleanName(s) == s && s != ""
    ensures Spaced(s) && !IsLead(s[0]) && !IsTrail(s[|s| - 1]) && |s| <= NAME_MAX
  {
    TrimmedIsTidy(s);
    hide Trimmed, IsLead, IsTrail;
  }

  // ---- concrete names ------------------------------------------------------

  lemma TrimNothing(s: string)
    requires s != "" && !IsLead(s[0]) && !IsTrail(s[|s| - 1])
    ensures TrimTrail(TrimLead(s)) == s
  {
  }

  lemma CompactOneWord(u: string)
    requires u != "" && Free(u, IsSpace)
    ensures Compact(u) == u && Compact(u + " ") == u
  {
    PartsOfFree(u, IsSpace);
    PartsStep(u, ' ', "", IsSpace);
    assert u + [' '] + "" == u + " ";
    assert Parts("", IsSpace) == [""];
    hide Parts;
    assert NonEmpty([u]) == [u];
    assert [u, ""][1..] == [""] && NonEmpty([""]) == [];
    assert NonEmpty([u, ""]) == [u];
  }

  lemma CompactTwoWords(u: string, w: string)
    requires u != "" && w != "" && Free(u, IsSpace) && Free(w, IsSpace)
    ensures Compact(u + " " + w) == u + " " + w
  {
    PartsStep(u, ' ', w, IsSpace);
    PartsOfFree(w, IsSpace);
    assert u + [' '] + w == u + " " + w;
    hide Parts;
    assert [u, w][1..] == [w] && NonEmpty([w]) == [w] && NonEmpty([u, w]) == [u, w];
    assert Join([w], ' ') == w;
  }

  lemma KanaIsOrdinary(s: string)
    requires s != "" && forall i :: 0 <= i < |s| ==> '\U{3042}' <= s[i] <= '\U{3096}'
    ensures Free(s, IsSpace) && Free(s, IsColon) && !IsLead(s[0]) && !IsTrail(s[|s| - 1])
  {
  }

  lemma DefaultIsClean()
    ensures CleanName(DEFAULT_NAME) == DEFAULT_NAME && Free(DEFAULT_NAME, IsColon) && DEFAULT_NAME != ""
  {
    assert |DEFAULT_NAME| == 8 && forall i :: 0 <= i < 8 ==> '\U{3042}' <= DEFAULT_NAME[i] <= '\U{3096}';
    KanaIsOrdinary(DEFAULT_NAME);
    CompactOneWord(DEFAULT_NAME);
    TrimNothing(DEFAULT_NAME);
    hide Compact, TrimLead, TrimTrail, Free;
  }

  /** Cleaning twice is not cleaning once: the cut to 16 characters can leave a space that the
      next cleaning takes away. */
  lemma CleaningTwice(u: string, w: string)
    requires |u| == NAME_MAX - 1 && w != "" && Free(u, IsSpace) && Free(w, IsSpace)
    requires !IsLead(u[0]) && !IsTrail(u[|u| - 1]) && !IsTrail(w[|w| - 1])
    ensures CleanName(u + " " + w) == u + " " && CleanName(u + " ") == u
  {
    hide IsLead, IsTrail;
    var s := u + " " + w;
    CompactTwoWords(u, w);
    TrimNothing(s);
    CompactOneWord(u);
    TrimNothing(u);
    hide Compact, TrimLead, TrimTrail;
    assert s[..NAME_MAX] == u + " ";
  }

  // ---- the name line -------------------------------------------------------

  /** Stripping on the right keeps everything up to a character that is not white space. */
  lemma {:induction false} StripRightKeeps(s: string, k: nat)
    requires k < |s| && !IsSpace(s[k])
    ensures |StripRight(s)| > k && StripRight(s) <= s
  {
    if IsSpace(s[|s| - 1]) {
      StripRightKeeps(s[..|s| - 1], k);
    }
  }

  lemma StripKeeps(s: string, k: nat)
    requires k < |s| && !IsSpace(s[k]) && !IsSpace(s[0])
    ensures |Strip(s)| > k && Strip(s) <= s
  {
    StripRightKeeps(s, k);
    hide StripRight;
  }

  lemma StripNothing(s: string)
    requires s != "" && !IsSpace(s[0]) && !IsSpace(s[|s| - 1])
    ensures Strip(s) == s
  {
  }

  lemma {:induction false} StripLeftShorter(s: string)
    ensures |StripLeft(s)| <= |s| && (|StripLeft(s)| == |s| ==> StripLeft(s) == s)
  {
    if s != "" && IsSpace(s[0]) {
      StripLeftShorter(s[1..]);
    }
  }

  lemma LabelledName(rest: string)
    ensures NameValue("name:" + rest) == Some(StripLeft(rest))
  {
    var line := "name:" + rest;
    assert line[..4] == "name" && Fold("name") == "name" && line[4..] == ":" + rest;
    assert (":" + rest)[1..] == rest;
    assert NameKey(line) == 4;
    hide NameKey;
    assert StripLeft(":" + rest) == ":" + rest;
  }

  /** A name line gives back no more than was written, and all of it only if it is untouched. */
  lemma NameLine(p: string) returns (v: string)
    ensures Strip("name: " + p) != "" && NameValue(Strip("name: " + p)) == Some(v)
    ensures |v| <= |p| && (|v| == |p| ==> v == p)
  {
    hide NameValue, Strip, IsSpace;
    var line := "name: " + p;
    assert !IsSpace('n') && !IsSpace(':') && IsSpace(' ') by {
      SomeSpaces();
    }
    StripKeeps(line, 4);
    var q := Strip(line);
    var rest := q[5..];
    assert q <= line && q == "name:" + rest;
    LabelledName(rest);
    v := StripLeft(rest);
    if rest == "" {
      assert v == "";
    } else {
      var w := p[..|q| - 6];
      assert rest == " " + w && rest[0] == ' ' && rest[1..] == w;
      StripLeftShorter(w);
      if |w| == |p| {
        assert w == p;
      }
    }
  }

  lemma SomeSpaces()
    ensures !IsSpace('n') && !IsSpace(':') && IsSpace(' ') && !IsSpace('b')
  {
  }

  /** A name without white space around it is read back whole. */
  lemma NameLineExact(p: string)
    requires p != "" && !IsSpace(p[0]) && !IsSpace(p[|p| - 1])
    ensures Strip("name: " + p) == "name: " + p && NameValue("name: " + p) == Some(p)
  {
    StripNothing("name: " + p);
    LabelledName(" " + p);
    hide NameValue;
    assert "name:" + (" " + p) == "name: " + p;
    assert (" " + p)[1..] == p;
    assert StripLeft(p) == p;
  }

  // ---- white space around --------------------------------------------------

  lemma {:induction false} WordsAfterSpace(s: string)
    ensures Words(StripLeft(s), IsSpace) == Words(s, IsSpace)
  {
    hide IsSpace;
    if s != "" && IsSpace(s[0]) {
      WordsAfterSpace(s[1..]);
      assert Parts(s, IsSpace) == [""] + Parts(s[1..], IsSpace);
      assert ([""] + Parts(s[1..], IsSpace))[1..] == Parts(s[1..], IsSpace);
    }
  }

  lemma {:induction false} PartsBeforeSpace(s: string, c: char)
    requires IsSpace(c)
    ensures Parts(s + [c], IsSpace) == Parts(s, IsSpace) + [""]
  {
    hide IsSpace;
    if s == "" {
      assert s + [c] == [c] && [c][1..] == "";
    } else {
      PartsBeforeSpace(s[1..], c);
      assert (s + [c])[1..] == s[1..] + [c] && (s + [c])[0] == s[0];
    }
  }

  lemma {:induction false} NonEmptyAppend(parts: seq<string>)
    ensures NonEmpty(parts + [""]) == NonEmpty(parts)
  {
    if parts == [] {
      assert parts + [""] == [""] && [""][1..] == [];
    } else {
      NonEmptyAppend(parts[1..]);
      assert (parts + [""])[1..] == parts[1..] + [""] && (parts + [""])[0] == parts[0];
    }
  }

  lemma {:induction false} WordsBeforeSpace(s: string)
    ensures Words(StripRight(s), IsSpace) == Words(s, IsSpace)
  {
    hide IsSpace, Parts, NonEmpty;
    if s != "" && IsSpace(s[|s| - 1]) {
      var front, c := s[..|s| - 1], s[|s| - 1];
      WordsBeforeSpace(front);
      assert s == front + [c];
      PartsBeforeSpace(front, c);
      NonEmptyAppend(Parts(front, IsSpace));
    }
  }

  /** White space around a name does not matter to cleaning. */
  lemma CleanStripped(s: string)
    ensures CleanName(StripRight(s)) == CleanName(s) && CleanName(StripLeft(s)) == CleanName(s)
  {
    hide Words, StripLeft, StripRight;
    WordsAfterSpace(s);
    WordsBeforeSpace(s);
  }

  lemma {:induction false} StripRightOf(a: string, p: string)
    ensures StripRight(a + p) == if StripRight(p) == "" then StripRight(a) else a + StripRight(p)
  {
    hide IsSpace;
    if p == "" {
      assert a + p == a;
    } else if IsSpace(p[|p| - 1]) {
      StripRightOf(a, p[..|p| - 1]);
      assert (a + p)[..|a + p| - 1] == a + p[..|p| - 1];
    }
  }

  /** What a name line gives back is cleaned to what the name itself is cleaned to. */
  lemma NameLineCleans(p: string) returns (v: string)
    ensures Strip("name: " + p) != "" && NameValue(Strip("name: " + p)) == Some(v)
    ensures CleanName(v) == CleanName(p)
  {
    hide NameValue, IsSpace, CleanName, Words;
    LineSpaces();
    StripRightOf("name: ", p);
    var q, r := Strip("name: " + p), StripRight(p);
    CleanStripped(p);
    if r == "" {
      v := "";
      LabelledName("");
      assert "name:" + "" == "name:" && q == "name:";
    } else {
      assert q == "name: " + r && "name:" + (" " + r) == "name: " + r;
      LabelledName(" " + r);
      assert (" " + r)[1..] == r;
      v := StripLeft(r);
      CleanStripped(r);
    }
  }

  lemma LineSpaces()
    ensures !IsSpace('n') && IsSpace(' ') && StripRight("name: ") == "name:"
    ensures forall s: string :: StripLeft("name: " + s) == "name: " + s
    ensures StripLeft("name:") == "name:" && StripLeft("") == ""
  {
    assert "name: "[..5] == "name:";
  }

  // ---- single spaces -------------------------------------------------------

  lemma {:induction false} PartsOfJoin(words: seq<string>)
    requires words != [] && forall p :: p in words ==> Free(p, IsSpace)
    ensures Parts(Join(words, ' '), IsSpace) == words
  {
    hide Parts;
    assert words[0] in words;
    SpaceIsSpace();
    hide IsSpace;
    if |words| == 1 {
      PartsOfFree(words[0], IsSpace);
    } else {
      assert forall p :: p in words[1..] ==> p in words;
      PartsOfJoin(words[1..]);
      PartsStep(words[0], ' ', Join(words[1..], ' '), IsSpace);
      assert words == [words[0]] + words[1..];
    }
  }

  lemma SpaceIsSpace()
    ensures IsSpace(' ')
  {
  }

  lemma {:induction false} NonEmptyTwice(parts: seq<string>)
    ensures NonEmpty(NonEmpty(parts)) == NonEmpty(parts)
  {
    if parts != [] {
      NonEmptyTwice(parts[1..]);
      var rest := NonEmpty(parts[1..]);
      assert ([parts[0]] + rest)[1..] == rest && [] + rest == rest;
    }
  }

  /** Single spaces are left alone. */
  lemma CleanCompact(s: string)
    ensures CleanName(Compact(s)) == CleanName(s)
  {
    hide Parts, NonEmpty, Join, IsSpace;
    var words := Words(s, IsSpace);
    PartsAreFree(s, IsSpace);
    NonEmptyAreParts(Parts(s, IsSpace));
    NonEmptyTwice(Parts(s, IsSpace));
    if words != [] {
      PartsOfJoin(words);
    } else {
      NothingCompact();
    }
  }

  lemma NothingCompact()
    ensures Join([], ' ') == "" && Words("", IsSpace) == []
  {
    assert Parts("", IsSpace) == [""] && [""][1..] == [];
  }
}
