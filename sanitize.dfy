/**
 * The adapter's `sanitize`: six successive rewrites of one string, following the object-naming
 * rules of Google Cloud Storage, and the segment alphabet that passes through it unchanged.
 */
module Sanitizer {
  import opened Text
  import opened Constants

  /** A combining diacritical mark, which `deburr` deletes. */
  predicate IsCombiningMark(c: char) {
    ('\U{300}' <= c <= '\U{36F}') || ('\U{FE20}' <= c <= '\U{FE2F}') || ('\U{20D0}' <= c <= '\U{20FF}')
  }

  predicate IsAsciiLetter(c: char) {
    ('a' <= c <= 'z') || ('A' <= c <= 'Z')
  }

  /** `deburr` on one character: Latin-1 letters fold to basic Latin, combining marks vanish. */
  function DeburrChar(c: char): (r: string)
    ensures |r| <= 2
    ensures r == [c] || forall i :: 0 <= i < |r| ==> IsAsciiLetter(r[i])
  {
    if c < '\U{C0}' then [c]
    else if c <= '\U{C5}' then "A"
    else if c == '\U{C6}' then "Ae"
    else if c == '\U{C7}' then "C"
    else if c <= '\U{CB}' then "E"
    else if c <= '\U{CF}' then "I"
    else if c == '\U{D0}' then "D"
    else if c == '\U{D1}' then "N"
    else if c <= '\U{D6}' || c == '\U{D8}' then "O"
    else if c == '\U{D7}' then [c]
    else if c <= '\U{DC}' then "U"
    else if c == '\U{DD}' then "Y"
    else if c == '\U{DE}' then "Th"
    else if c == '\U{DF}' then "ss"
    else if c <= '\U{E5}' then "a"
    else if c == '\U{E6}' then "ae"
    else if c == '\U{E7}' then "c"
    else if c <= '\U{EB}' then "e"
    else if c <= '\U{EF}' then "i"
    else if c == '\U{F0}' then "d"
    else if c == '\U{F1}' then "n"
    else if c <= '\U{F6}' || c == '\U{F8}' then "o"
    else if c == '\U{F7}' then [c]
    else if c <= '\U{FC}' then "u"
    else if c == '\U{FD}' || c == '\U{FF}' then "y"
    else if c == '\U{FE}' then "th"
    else if IsCombiningMark(c) then ""
    else [c]
  }

  /** `deburr(s)`, character by character. */
  function Deburr(s: string): (r: string)
    ensures |r| <= 2 * |s|
  {
    if s == "" then "" else DeburrChar(s[0]) + Deburr(s[1..])
  }

  /** Whatever holds of ASCII letters and of every input character holds of the output. */
  lemma {:induction false} DeburrSpec(s: string, p: char -> bool)
    requires forall c :: IsAsciiLetter(c) ==> p(c)
    requires All(s, p)
    ensures All(Deburr(s), p)
  {
    if s != "" {
      AllSuffix(s, 1, p);
      DeburrSpec(s[1..], p);
      var d := DeburrChar(s[0]);
      assert All(d, p) by {
        if d != [s[0]] { assert forall i :: 0 <= i < |d| ==> IsAsciiLetter(d[i]); }
      }
      AllConcat(d, Deburr(s[1..]), p);
    }
  }

  /** A string of characters `deburr` keeps is left as it is. */
  predicate DeburrFixed(c: char) {
    DeburrChar(c) == [c]
  }

  lemma {:induction false} DeburrNone(s: string)
    requires All(s, DeburrFixed)
    ensures Deburr(s) == s
  {
    if s != "" {
      AllSuffix(s, 1, DeburrFixed);
      DeburrNone(s[1..]);
    }
  }

  lemma {:induction false} DeburrConcat(a: string, b: string)
    ensures Deburr(a + b) == Deburr(a) + Deburr(b)
  {
    if a == "" {
      assert a + b == b;
    } else {
      assert (a + b)[0] == a[0] && (a + b)[1..] == a[1..] + b;
      DeburrConcat(a[1..], b);
      Assoc(DeburrChar(a[0]), Deburr(a[1..]), Deburr(b));
    }
  }

  /** `toLowerCase` on one character: ASCII and Latin-1 capitals. */
  function LowerChar(c: char): (r: char)
    ensures r == c || (('a' <= r <= 'z') || ('\U{E0}' <= r <= '\U{FE}'))
    ensures !('A' <= r <= 'Z')
  {
    if ('A' <= c <= 'Z') || ('\U{C0}' <= c <= '\U{DE}' && c != '\U{D7}') then (c as int + 32) as char else c
  }

  function Lower(s: string): (r: string)
    ensures |r| == |s|
  {
    if s == "" then "" else [LowerChar(s[0])] + Lower(s[1..])
  }

  lemma {:induction false} LowerAt(s: string)
    ensures forall i :: 0 <= i < |s| ==> Lower(s)[i] == LowerChar(s[i])
  {
    if s != "" {
      LowerAt(s[1..]);
    }
  }

  lemma {:induction false} LowerConcat(a: string, b: string)
    ensures Lower(a + b) == Lower(a) + Lower(b)
  {
    if a == "" {
      assert a + b == b;
    } else {
      assert (a + b)[0] == a[0] && (a + b)[1..] == a[1..] + b;
      LowerConcat(a[1..], b);
    }
  }

  /** Steps one to three of `sanitize`: the two character classes removed, whitespace runs dashed. */
  function Scrub(s: string): string {
    DashWhitespace(Remove(Remove(s, IsXmlControl), IsGcsReserved))
  }

  /** Steps four and five of `sanitize`: the optional deburring and lowercasing. */
  function Fold(s: string, deburr: bool, lowercase: bool): string {
    var d := if deburr then Deburr(s) else s;
    if lowercase then Lower(d) else d
  }

  /**
   * `sanitize(str)`: drop XML controls, drop `[ ] * ? #`, turn whitespace runs into `-`, deburr
   * when `deburr`, lowercase when `lowercase`, then apply the slash rule (runs of `\`, and runs of
   * `/` not after `:`, become one `/`).
   */
  function Sanitize(s: string, deburr: bool, lowercase: bool): string {
    CollapseSlashes(Fold(Scrub(s), deburr, lowercase), false, true)
  }

  /** Neither removed by the XML nor by the GCS character class. */
  predicate Kept(c: char) {
    !IsXmlControl(c) && !IsGcsReserved(c)
  }

  predicate NotXml(c: char) {
    !IsXmlControl(c)
  }

  /** None of the characters the first three steps remove. */
  predicate TameChar(c: char) {
    !IsXmlControl(c) && !IsGcsReserved(c) && !IsWhitespace(c)
  }

  predicate NotUpper(c: char) {
    !('A' <= c <= 'Z')
  }

  predicate NotBackslash(c: char) {
    c != '\\'
  }

  lemma ScrubTame(s: string)
    ensures All(Scrub(s), TameChar)
  {
    var s1 := Remove(s, IsXmlControl);
    var s2 := Remove(s1, IsGcsReserved);
    RemoveSpec(s, IsXmlControl, NotXml);
    assert All(s1, NotXml);
    RemoveSpec(s1, IsGcsReserved, NotXml);
    assert All(s2, Kept);
    DashWhitespaceSpec(s2, Kept);
  }

  lemma FoldKeeps(s: string, deburr: bool, lowercase: bool, p: char -> bool)
    requires All(s, p)
    requires forall c :: IsAsciiLetter(c) ==> p(c)
    requires forall c :: '\U{E0}' <= c <= '\U{FE}' ==> p(c)
    ensures All(Fold(s, deburr, lowercase), p)
  {
    var d := if deburr then Deburr(s) else s;
    if deburr { DeburrSpec(s, p); }
    if lowercase { LowerAt(d); }
  }

  /**
   * What `sanitize` guarantees of every object name: no XML control, no `[ ] * ? #`, no
   * whitespace and no `\`, and no ASCII capital when lowercasing is on.
   */
  lemma SanitizeOutput(s: string, deburr: bool, lowercase: bool)
    ensures All(Sanitize(s, deburr, lowercase), TameChar)
    ensures NoBackslash(Sanitize(s, deburr, lowercase))
    ensures lowercase ==> All(Sanitize(s, deburr, lowercase), NotUpper)
  {
    var s3 := Scrub(s);
    ScrubTame(s);
    FoldKeeps(s3, deburr, lowercase, TameChar);
    var s5 := Fold(s3, deburr, lowercase);
    CollapseSpec(s5, false, true, TameChar);
    if lowercase {
      var d := if deburr then Deburr(s3) else s3;
      LowerAt(d);
      assert All(s5, NotUpper);
      CollapseSpec(s5, false, true, NotUpper);
    }
  }

  /** A character every step of `sanitize` leaves alone. */
  predicate Stable(c: char) {
    TameChar(c) && c != '\\' && DeburrChar(c) == [c] && LowerChar(c) == c
  }

  /** Strings of stable characters in the shape the slash rule keeps are fixed points of `sanitize`. */
  lemma SanitizeStable(s: string, deburr: bool, lowercase: bool)
    requires All(s, Stable)
    requires SlashStable(s, false)
    ensures Sanitize(s, deburr, lowercase) == s
  {
    RemoveNone(s, IsXmlControl);
    RemoveNone(s, IsGcsReserved);
    DashWhitespaceNone(s);
    assert Scrub(s) == s;
    if deburr { DeburrNone(s); }
    if lowercase {
      LowerAt(s);
      assert Lower(s) == s;
    }
    assert Fold(s, deburr, lowercase) == s;
    CollapseStable(s, false, true);
  }

  /** The characters a path segment may use for the adapter's round trips. */
  predicate SegChar(c: char) {
    ('a' <= c <= 'z') || ('0' <= c <= '9')
    || c == '!' || c == '$' || c == '&' || c == '\'' || c == '(' || c == ')' || c == '+' || c == ','
    || c == '-' || c == '.' || c == ':' || c == ';' || c == '=' || c == '@' || c == '_' || c == '~'
  }

  /** A path segment that `sanitize`, `join` and URL parsing all keep as it is. */
  predicate CleanSegment(s: string) {
    s != "" && s != "." && s != ".." && forall i :: 0 <= i < |s| ==> SegChar(s[i])
  }

  lemma SegCharStable(c: char)
    requires SegChar(c)
    ensures Stable(c) && c != '/'
  {
  }

  /** Every character is `/` or a segment character. */
  predicate PathChars(s: string) {
    forall i :: 0 <= i < |s| ==> s[i] == '/' || SegChar(s[i])
  }

  predicate NoDoubled(s: string) {
    forall i :: 0 <= i < |s| ==> !Doubled(s, i)
  }

  /** Segments joined by single `/`s contain no `//` and no character outside the segment alphabet. */
  lemma {:induction false} JoinedSegments(xs: seq<string>)
    requires |xs| >= 1
    requires forall k :: 0 <= k < |xs| ==> CleanSegment(xs[k])
    ensures JoinWith(xs, '/') != "" && PathChars(JoinWith(xs, '/')) && NoDoubled(JoinWith(xs, '/'))
    ensures JoinWith(xs, '/')[0] != '/' && JoinWith(xs, '/')[|JoinWith(xs, '/')| - 1] != '/'
  {
    var a := xs[0];
    assert SegChar(a[0]) && SegChar(a[|a| - 1]);
    if |xs| > 1 {
      JoinedSegments(xs[1..]);
      var b := JoinWith(xs[1..], '/');
      JoinStep(a, b);
    }
  }

  lemma JoinStep(a: string, b: string)
    requires CleanSegment(a) && b != "" && PathChars(b) && NoDoubled(b) && b[0] != '/' && b[|b| - 1] != '/'
    ensures var j := a + ['/'] + b; PathChars(j) && NoDoubled(j) && j[0] != '/' && j[|j| - 1] != '/'
  {
    var j := a + ['/'] + b;
    assert forall i :: 0 <= i < |j| ==> j[i] == (if i < |a| then a[i] else if i == |a| then '/' else b[i - |a| - 1]);
    assert SegChar(a[|a| - 1]) && SegChar(a[0]);
    forall i | 0 <= i < |j| ensures !Doubled(j, i) {
      if i > |a| { assert !Doubled(b, i - |a| - 1); }
    }
  }

  /** A "/"-joined path of clean segments, with or without a leading "/", is a fixed point of `sanitize`. */
  lemma SanitizeSegments(xs: seq<string>, rooted: bool, deburr: bool, lowercase: bool)
    requires forall k :: 0 <= k < |xs| ==> CleanSegment(xs[k])
    ensures Sanitize((if rooted then "/" else "") + JoinWith(xs, '/'), deburr, lowercase)
         == (if rooted then "/" else "") + JoinWith(xs, '/')
  {
    var j := JoinWith(xs, '/');
    var s := (if rooted then "/" else "") + j;
    if xs == [] {
      assert s == "" || s == "/";
      assert PathChars(s) && NoDoubled(s);
    } else {
      JoinedSegments(xs);
      if rooted {
        RootedStable(j);
      } else {
        assert s == j;
      }
    }
    PathCharsStable(s);
    SanitizeStable(s, deburr, lowercase);
  }

  lemma RootedStable(j: string)
    requires j != "" && PathChars(j) && NoDoubled(j) && j[0] != '/'
    ensures PathChars("/" + j) && NoDoubled("/" + j)
  {
    var s := "/" + j;
    assert forall i :: 1 <= i < |s| ==> s[i] == j[i - 1];
    forall i | 0 <= i < |s| ensures !Doubled(s, i) {
      if i > 0 { assert !Doubled(j, i - 1); }
    }
  }

  lemma PathCharsStable(s: string)
    requires PathChars(s) && NoDoubled(s)
    ensures All(s, Stable) && SlashStable(s, false)
  {
    forall i | 0 <= i < |s| ensures Stable(s[i]) {
      if s[i] != '/' { SegCharStable(s[i]); }
    }
  }

  // ---------------------------------------------------------------- words and spaces

  /** A character of a word: kept by the first three steps, neither slash nor `:`. */
  predicate WordChar(c: char) {
    TameChar(c) && c != '/' && c != '\\' && c != ':'
  }

  predicate Word(w: string) {
    w != "" && All(w, WordChar)
  }

  function FoldEach(ws: seq<string>, deburr: bool, lowercase: bool): (r: seq<string>)
    ensures |r| == |ws|
  {
    if ws == [] then [] else [Fold(ws[0], deburr, lowercase)] + FoldEach(ws[1..], deburr, lowercase)
  }

  lemma {:induction false} FoldEachAt(ws: seq<string>, deburr: bool, lowercase: bool)
    ensures forall k :: 0 <= k < |ws| ==> FoldEach(ws, deburr, lowercase)[k] == Fold(ws[k], deburr, lowercase)
  {
    if ws != [] {
      FoldEachAt(ws[1..], deburr, lowercase);
    }
  }

  lemma {:induction false} JoinAll(ws: seq<string>, sep: char, p: char -> bool)
    requires p(sep) && forall k :: 0 <= k < |ws| ==> All(ws[k], p)
    ensures All(JoinWith(ws, sep), p)
  {
    if |ws| > 1 {
      JoinAll(ws[1..], sep, p);
      AllConcat(ws[0], [sep], p);
      AllConcat(ws[0] + [sep], JoinWith(ws[1..], sep), p);
    }
  }

  lemma JoinFirst(ws: seq<string>, sep: char)
    requires |ws| >= 1 && ws[0] != ""
    ensures JoinWith(ws, sep) != "" && JoinWith(ws, sep)[0] == ws[0][0]
  {
  }

  /** Single spaces between words become dashes. */
  lemma {:induction false} DashWords(ws: seq<string>)
    requires |ws| >= 1 && forall k :: 0 <= k < |ws| ==> Word(ws[k])
    ensures DashWhitespace(JoinWith(ws, ' ')) == JoinWith(ws, '-')
  {
    var w := ws[0];
    assert Word(w);
    DashWhitespaceNone(w);
    if |ws| > 1 {
      DashWords(ws[1..]);
      var t := JoinWith(ws[1..], ' ');
      assert Word(ws[1]);
      JoinFirst(ws[1..], ' ');
      assert w[|w| - 1] == w[|w| - 1] && WordChar(w[|w| - 1]);
      assert w + [' '] + t == w + (" " + t);
      DashWhitespaceConcat(w, " " + t);
      assert (" " + t)[1..] == t;
      DashRunFresh(t);
      assert DashWhitespace(" " + t) == "-" + DashWhitespace(t);
      Assoc(w, "-", JoinWith(ws[1..], '-'));
    }
  }

  /** Folding distributes over a dash-joined list of words. */
  lemma {:induction false} FoldWords(ws: seq<string>, deburr: bool, lowercase: bool)
    requires |ws| >= 1
    ensures Fold(JoinWith(ws, '-'), deburr, lowercase) == JoinWith(FoldEach(ws, deburr, lowercase), '-')
  {
    if |ws| > 1 {
      FoldWords(ws[1..], deburr, lowercase);
      var w, t := ws[0], JoinWith(ws[1..], '-');
      FoldConcat(w, "-", deburr, lowercase);
      FoldConcat(w + "-", t, deburr, lowercase);
      assert Fold("-", deburr, lowercase) == "-";
      assert FoldEach(ws, deburr, lowercase)[1..] == FoldEach(ws[1..], deburr, lowercase);
    }
  }

  lemma FoldConcat(a: string, b: string, deburr: bool, lowercase: bool)
    ensures Fold(a + b, deburr, lowercase) == Fold(a, deburr, lowercase) + Fold(b, deburr, lowercase)
  {
    DeburrConcat(a, b);
    var da, db := if deburr then Deburr(a) else a, if deburr then Deburr(b) else b;
    LowerConcat(da, db);
  }

  /**
   * Words of printable characters separated by single spaces come out of `sanitize` as their
   * folded forms joined by `-`.
   */
  lemma SanitizeWords(ws: seq<string>, deburr: bool, lowercase: bool)
    requires |ws| >= 1 && forall k :: 0 <= k < |ws| ==> Word(ws[k])
    ensures Sanitize(JoinWith(ws, ' '), deburr, lowercase) == JoinWith(FoldEach(ws, deburr, lowercase), '-')
  {
    var s := JoinWith(ws, ' ');
    JoinAll(ws, ' ', Kept);
    RemoveNone(s, IsXmlControl);
    RemoveNone(s, IsGcsReserved);
    DashWords(ws);
    assert Scrub(s) == JoinWith(ws, '-');
    FoldWords(ws, deburr, lowercase);
    var r := JoinWith(FoldEach(ws, deburr, lowercase), '-');
    JoinAll(ws, '-', WordChar);
    FoldKeeps(JoinWith(ws, '-'), deburr, lowercase, PlainChar);
    PlainStable(r);
    CollapseStable(r, false, true);
  }

  /** Neither `/` nor `\`. */
  predicate PlainChar(c: char) {
    c != '/' && c != '\\'
  }

  lemma PlainStable(s: string)
    requires All(s, PlainChar)
    ensures SlashStable(s, false)
  {
  }

  // ---------------------------------------------------------------- concrete cases

  /** The adapter's sanitize tests, under the default options. */
  lemma SanitizeExamples()
    ensures Sanitize("a\U{E7}a\U{ED} \U{E0} la carte", true, true) == "acai-a-la-carte"
    ensures Sanitize("Bayern M\U{FC}nchen", true, true) == "bayern-munchen"
  {
    AcaiWords();
    MunchenWords();
  }

  lemma AcaiWords()
    ensures Sanitize("a\U{E7}a\U{ED} \U{E0} la carte", true, true) == "acai-a-la-carte"
  {
    var ws := ["a\U{E7}a\U{ED}", "\U{E0}", "la", "carte"];
    AcaiJoin();
    AcaiWordsOk();
    SanitizeWords(ws, true, true);
    AcaiFolded();
  }

  lemma AcaiJoin()
    ensures JoinWith(["a\U{E7}a\U{ED}", "\U{E0}", "la", "carte"], ' ') == "a\U{E7}a\U{ED} \U{E0} la carte"
  {
  }

  lemma AcaiWordsOk()
    ensures Word("a\U{E7}a\U{ED}") && Word("\U{E0}") && Word("la") && Word("carte")
  {
  }

  lemma AcaiFolded()
    ensures JoinWith(FoldEach(["a\U{E7}a\U{ED}", "\U{E0}", "la", "carte"], true, true), '-') == "acai-a-la-carte"
  {
    var ws := ["a\U{E7}a\U{ED}", "\U{E0}", "la", "carte"];
    FoldEachAt(ws, true, true);
    FoldAcai();
    FoldLaCarte();
    assert FoldEach(ws, true, true) == ["acai", "a", "la", "carte"];
    AcaiDashed();
  }

  lemma AcaiDashed()
    ensures JoinWith(["acai", "a", "la", "carte"], '-') == "acai-a-la-carte"
  {
  }

  lemma FoldAcai()
    ensures Fold("a\U{E7}a\U{ED}", true, true) == "acai"
    ensures Fold("\U{E0}", true, true) == "a"
  {
    DeburrAcai();
    LowerAcai();
  }

  lemma DeburrAcai()
    ensures Deburr("a\U{E7}a\U{ED}") == "acai" && Deburr("\U{E0}") == "a"
  {
  }

  lemma LowerAcai()
    ensures Lower("acai") == "acai" && Lower("a") == "a"
  {
  }

  lemma FoldLaCarte()
    ensures Fold("la", true, true) == "la"
    ensures Fold("carte", true, true) == "carte"
  {
    DeburrLaCarte();
    LowerLaCarte();
  }

  lemma DeburrLaCarte()
    ensures Deburr("la") == "la" && Deburr("carte") == "carte"
  {
  }

  lemma LowerLaCarte()
    ensures Lower("la") == "la" && Lower("carte") == "carte"
  {
  }

  lemma MunchenWords()
    ensures Sanitize("Bayern M\U{FC}nchen", true, true) == "bayern-munchen"
  {
    var ws := ["Bayern", "M\U{FC}nchen"];
    MunchenJoin();
    MunchenWordsOk();
    SanitizeWords(ws, true, true);
    MunchenFolded();
  }

  lemma MunchenJoin()
    ensures JoinWith(["Bayern", "M\U{FC}nchen"], ' ') == "Bayern M\U{FC}nchen"
  {
  }

  lemma MunchenWordsOk()
    ensures Word("Bayern") && Word("M\U{FC}nchen")
  {
  }

  lemma MunchenFolded()
    ensures JoinWith(FoldEach(["Bayern", "M\U{FC}nchen"], true, true), '-') == "bayern-munchen"
  {
    var ws := ["Bayern", "M\U{FC}nchen"];
    FoldEachAt(ws, true, true);
    FoldBayern();
    FoldMunchen();
    assert FoldEach(ws, true, true) == ["bayern", "munchen"];
    MunchenDashed();
  }

  lemma MunchenDashed()
    ensures JoinWith(["bayern", "munchen"], '-') == "bayern-munchen"
  {
  }

  lemma FoldBayern()
    ensures Fold("Bayern", true, true) == "bayern"
  {
    DeburrBayern();
    LowerBayern();
  }

  lemma DeburrBayern()
    ensures Deburr("Bayern") == "Bayern"
  {
  }

  lemma LowerBayern()
    ensures Lower("Bayern") == "bayern"
  {
    CapitalSplit("Bayern", "B", "ayern");
    LowerConcat("B", "ayern");
    LowerAyern();
    CapitalSplit("bayern", "b", "ayern");
  }

  lemma LowerAyern()
    ensures Lower("B") == "b" && Lower("ayern") == "ayern"
  {
  }

  /** A word is its first letter followed by the rest. */
  lemma CapitalSplit(w: string, h: string, t: string)
    requires |h| == 1 && |w| == 1 + |t| && w[0] == h[0] && w[1..] == t
    ensures w == h + t
  {
  }

  lemma FoldMunchen()
    ensures Fold("M\U{FC}nchen", true, true) == "munchen"
  {
    DeburrMunchen();
    LowerMunchen();
  }

  lemma DeburrMunchen()
    ensures Deburr("M\U{FC}nchen") == "Munchen"
  {
    var tail := "nchen";
    DeburrNone(tail);
    DeburrUmlaut();
    DeburrCons('\U{FC}', tail);
    DeburrCons('M', ['\U{FC}'] + tail);
    DeburrCapital();
    MunchenParts();
    MunchenGlue();
  }

  lemma MunchenParts()
    ensures "M\U{FC}nchen" == ['M'] + (['\U{FC}'] + "nchen")
  {
  }

  lemma DeburrCapital()
    ensures DeburrChar('M') == "M"
  {
  }

  lemma MunchenGlue()
    ensures "M" + ("u" + "nchen") == "Munchen"
  {
  }

  lemma DeburrUmlaut()
    ensures DeburrChar('\U{FC}') == "u"
  {
  }

  lemma DeburrCons(c: char, s: string)
    ensures Deburr([c] + s) == DeburrChar(c) + Deburr(s)
  {
    assert ([c] + s)[1..] == s;
  }

  lemma LowerMunchen()
    ensures Lower("Munchen") == "munchen"
  {
    CapitalSplit("Munchen", "M", "unchen");
    LowerConcat("M", "unchen");
    LowerUnchen();
    CapitalSplit("munchen", "m", "unchen");
  }

  lemma LowerUnchen()
    ensures Lower("M") == "m" && Lower("unchen") == "unchen"
  {
  }

  /**
   * `sanitize` is not idempotent: in `a/\b` the `/` is followed by `\`, so neither slash
   * alternative matches at it, and the `\` then becomes a second `/`.
   */
  lemma SanitizeNotIdempotent()
    ensures Sanitize("a/\\b", true, true) == "a//b"
    ensures Sanitize(Sanitize("a/\\b", true, true), true, true) == "a/b"
  {
    SanitizeBackslashPass();
    SanitizeDoubleSlashPass();
  }

  lemma SanitizeBackslashPass()
    ensures Sanitize("a/\\b", true, true) == "a//b"
  {
    BackslashFolded();
    CollapseBackslashExample();
  }

  lemma BackslashFolded()
    ensures Fold(Scrub("a/\\b"), true, true) == "a/\\b"
  {
    BackslashPlain();
    ScrubPlain("a/\\b");
    FoldPlain("a/\\b");
  }

  lemma BackslashPlain()
    ensures All("a/\\b", TameChar) && All("a/\\b", DeburrFixed) && All("a/\\b", LowerFixed)
  {
  }

  lemma SanitizeDoubleSlashPass()
    ensures Sanitize("a//b", true, true) == "a/b"
  {
    DoubleSlashFolded();
    CollapseDoubleExample();
  }

  lemma DoubleSlashFolded()
    ensures Fold(Scrub("a//b"), true, true) == "a//b"
  {
    DoubleSlashPlain();
    ScrubPlain("a//b");
    FoldPlain("a//b");
  }

  lemma DoubleSlashPlain()
    ensures All("a//b", TameChar) && All("a//b", DeburrFixed) && All("a//b", LowerFixed)
  {
  }

  lemma CollapseTail()
    ensures Collapse("b", false, InBackslashes, true) == "b"
    ensures Collapse("b", false, InSlashes, true) == "b"
  {
  }

  lemma CollapseRunTails()
    ensures Collapse("\\b", false, NoRun, true) == "/b"
    ensures Collapse("//b", false, NoRun, true) == "/b"
  {
    CollapseTail();
  }

  lemma CollapseSlashBackslash()
    ensures Collapse("/\\b", false, NoRun, true) == "//b"
  {
    CollapseRunTails();
  }

  lemma CollapseBackslashExample()
    ensures CollapseSlashes("a/\\b", false, true) == "a//b"
  {
    CollapseSlashBackslash();
  }

  lemma CollapseDoubleExample()
    ensures CollapseSlashes("a//b", false, true) == "a/b"
  {
    CollapseRunTails();
  }

  lemma FoldPlain(s: string)
    requires All(s, DeburrFixed) && All(s, LowerFixed)
    ensures Fold(s, true, true) == s
  {
    DeburrNone(s);
    LowerAt(s);
  }

  predicate LowerFixed(c: char) {
    LowerChar(c) == c
  }

  lemma ScrubPlain(s: string)
    requires All(s, TameChar)
    ensures Scrub(s) == s
  {
    RemoveNone(s, IsXmlControl);
    RemoveNone(s, IsGcsReserved);
    DashWhitespaceNone(s);
  }
}
