/**
 * The `REGEX` table of the adapter: the character classes behind object-name sanitising, the
 * slash rule, the path separator and the `[key]` template syntax.
 */
module Constants {
  import opened Text

  /** `MAX_NAME_SIZE`, the object-name limit in bytes (declared, never enforced by the adapter). */
  const MaxNameSize: nat := 1024

  /** `REGEX.xml`: XML control characters U+007F–U+0084 and U+0086–U+009F (U+0085 is not among them). */
  predicate IsXmlControl(c: char) {
    ('\U{7F}' <= c <= '\U{84}') || ('\U{86}' <= c <= '\U{9F}')
  }

  /** `REGEX.gcs`: the wildcard and versioning characters `[`, `]`, `*`, `?`, `#`. */
  predicate IsGcsReserved(c: char) {
    c == '[' || c == ']' || c == '*' || c == '?' || c == '#'
  }

  /** The JavaScript `\s` class. */
  predicate IsWhitespace(c: char) {
    c == '\t' || c == '\n' || c == '\U{0B}' || c == '\U{0C}' || c == '\r' || c == ' '
    || c == '\U{A0}' || c == '\U{1680}' || ('\U{2000}' <= c <= '\U{200A}')
    || c == '\U{2028}' || c == '\U{2029}' || c == '\U{202F}' || c == '\U{205F}'
    || c == '\U{3000}' || c == '\U{FEFF}'
  }

  /** `p` holds of every character of `s`. */
  predicate All(s: string, p: char -> bool) {
    forall i :: 0 <= i < |s| ==> p(s[i])
  }

  lemma AllConcat(a: string, b: string, p: char -> bool)
    requires All(a, p) && All(b, p)
    ensures All(a + b, p)
  {
    assert forall i :: 0 <= i < |a + b| ==> (a + b)[i] == if i < |a| then a[i] else b[i - |a|];
  }

  lemma AllSuffix(s: string, n: nat, p: char -> bool)
    requires All(s, p) && n <= |s|
    ensures All(s[n..], p)
  {
    assert forall i :: 0 <= i < |s| - n ==> s[n..][i] == s[n + i];
  }

  /** `s.replace(/[class]/g, '')`: the characters of the class removed, the others kept in order. */
  function Remove(s: string, drop: char -> bool): (r: string)
    ensures |r| <= |s|
  {
    if s == "" then ""
    else if drop(s[0]) then Remove(s[1..], drop)
    else [s[0]] + Remove(s[1..], drop)
  }

  /** Nothing of the class is left, and whatever holds of every input character holds of the output. */
  lemma {:induction false} RemoveSpec(s: string, drop: char -> bool, p: char -> bool)
    ensures forall i :: 0 <= i < |Remove(s, drop)| ==> !drop(Remove(s, drop)[i])
    ensures All(s, p) ==> All(Remove(s, drop), p)
  {
    if s != "" {
      RemoveSpec(s[1..], drop, p);
      if All(s, p) { AllSuffix(s, 1, p); }
    }
  }

  /** A string with nothing of the class is left as it is. */
  lemma {:induction false} RemoveNone(s: string, drop: char -> bool)
    requires forall i :: 0 <= i < |s| ==> !drop(s[i])
    ensures Remove(s, drop) == s
  {
    if s != "" {
      assert forall i :: 0 <= i < |s| - 1 ==> s[1..][i] == s[i + 1];
      RemoveNone(s[1..], drop);
    }
  }

  lemma {:induction false} RemoveConcat(a: string, b: string, drop: char -> bool)
    ensures Remove(a + b, drop) == Remove(a, drop) + Remove(b, drop)
  {
    if a == "" {
      assert a + b == b;
    } else {
      assert (a + b)[0] == a[0] && (a + b)[1..] == a[1..] + b;
      RemoveConcat(a[1..], b, drop);
    }
  }

  /** The `xml` class ends at U+0084 and resumes at U+0086: NEL (U+0085) survives its removal. */
  lemma XmlClassEdges()
    ensures Remove("\U{7E}\U{7F}\U{84}\U{85}\U{86}\U{9F}\U{A0}", IsXmlControl) == "\U{7E}\U{85}\U{A0}"
  {
    var s := "\U{7E}\U{7F}\U{84}\U{85}\U{86}\U{9F}\U{A0}";
    assert s == "\U{7E}" + "\U{7F}\U{84}" + "\U{85}" + "\U{86}\U{9F}" + "\U{A0}";
    RemoveConcat("\U{7E}" + "\U{7F}\U{84}" + "\U{85}" + "\U{86}\U{9F}", "\U{A0}", IsXmlControl);
    RemoveConcat("\U{7E}" + "\U{7F}\U{84}" + "\U{85}", "\U{86}\U{9F}", IsXmlControl);
    RemoveConcat("\U{7E}" + "\U{7F}\U{84}", "\U{85}", IsXmlControl);
    RemoveConcat("\U{7E}", "\U{7F}\U{84}", IsXmlControl);
  }

  /** The `gcs` class removes exactly `[`, `]`, `*`, `?` and `#`; its neighbours in ASCII stay. */
  lemma GcsClassExact()
    ensures Remove("[]*?#", IsGcsReserved) == ""
    ensures Remove("\\!+>@^", IsGcsReserved) == "\\!+>@^"
  {
    RemoveNone("\\!+>@^", IsGcsReserved);
  }

  /**
   * `s.replace(REGEX.whitespace, '-')` as a left-to-right scan: `inRun` says whether the character
   * before `s` was whitespace. The first whitespace character of a run becomes `-`, the rest vanish.
   */
  function DashRun(s: string, inRun: bool): (r: string)
    ensures |r| <= |s|
  {
    if s == "" then ""
    else if IsWhitespace(s[0]) then (if inRun then "" else "-") + DashRun(s[1..], true)
    else [s[0]] + DashRun(s[1..], false)
  }

  /** `s.replace(REGEX.whitespace, '-')`: each maximal run of whitespace becomes one `-`. */
  function DashWhitespace(s: string): (r: string)
    ensures |r| <= |s|
  {
    DashRun(s, false)
  }

  /** No whitespace is left; whatever holds of `-` and of every input character holds of the output. */
  lemma {:induction false} DashRunSpec(s: string, inRun: bool, p: char -> bool)
    ensures forall i :: 0 <= i < |DashRun(s, inRun)| ==> !IsWhitespace(DashRun(s, inRun)[i])
    ensures p('-') && All(s, p) ==> All(DashRun(s, inRun), p)
  {
    if s != "" {
      DashRunSpec(s[1..], IsWhitespace(s[0]), p);
      if All(s, p) { AllSuffix(s, 1, p); }
    }
  }

  lemma DashWhitespaceSpec(s: string, p: char -> bool)
    ensures forall i :: 0 <= i < |DashWhitespace(s)| ==> !IsWhitespace(DashWhitespace(s)[i])
    ensures p('-') && All(s, p) ==> All(DashWhitespace(s), p)
  {
    DashRunSpec(s, false, p);
  }

  /** A string without whitespace is left as it is, whatever came before it. */
  lemma {:induction false} DashRunNone(s: string, inRun: bool)
    requires forall i :: 0 <= i < |s| ==> !IsWhitespace(s[i])
    ensures DashRun(s, inRun) == s
  {
    if s != "" {
      assert forall i :: 0 <= i < |s| - 1 ==> s[1..][i] == s[i + 1];
      DashRunNone(s[1..], false);
    }
  }

  lemma DashWhitespaceNone(s: string)
    requires forall i :: 0 <= i < |s| ==> !IsWhitespace(s[i])
    ensures DashWhitespace(s) == s
  {
    DashRunNone(s, false);
  }

  /** A string that starts outside whitespace is dashed the same way whatever came before it. */
  lemma DashRunFresh(s: string)
    requires s != "" && !IsWhitespace(s[0])
    ensures DashRun(s, true) == DashRun(s, false)
  {
  }

  /** After a non-whitespace character the scan starts afresh. */
  lemma {:induction false} DashRunConcat(a: string, b: string, inRun: bool)
    requires a != "" && !IsWhitespace(a[|a| - 1])
    ensures DashRun(a + b, inRun) == DashRun(a, inRun) + DashRun(b, false)
  {
    assert (a + b)[0] == a[0] && (a + b)[1..] == a[1..] + b;
    var head := if IsWhitespace(a[0]) then (if inRun then "" else "-") else [a[0]];
    if a[1..] == "" {
      assert a + b == [a[0]] + b;
    } else {
      DashRunConcat(a[1..], b, IsWhitespace(a[0]));
      Assoc(head, DashRun(a[1..], IsWhitespace(a[0])), DashRun(b, false));
    }
  }

  /** Whitespace runs cannot span a boundary whose left side does not end in whitespace. */
  lemma DashWhitespaceConcat(a: string, b: string)
    requires a == "" || !IsWhitespace(a[|a| - 1])
    ensures DashWhitespace(a + b) == DashWhitespace(a) + DashWhitespace(b)
  {
    if a == "" {
      assert a + b == b;
    } else {
      DashRunConcat(a, b, false);
    }
  }

  lemma Assoc(a: string, b: string, c: string)
    ensures a + (b + c) == (a + b) + c
  {
  }

  /** Which run of slashes the scan is inside, if any: the rest of that run is dropped. */
  datatype SlashRun = NoRun | InSlashes | InBackslashes

  /**
   * `s.replace(/(?<!:)\/\/+|\\+/g, '/')`, scanned left to right: a run of two or more `/` whose
   * preceding character is not `:` becomes one `/`, and (when `backslash`) a run of `\` becomes one
   * `/`. `afterColon` says whether the character before `s` is `:`; `run` says whether the scan is
   * inside a run that has already been replaced.
   */
  function Collapse(s: string, afterColon: bool, run: SlashRun, backslash: bool): (r: string)
    ensures |r| <= |s|
  {
    if s == "" then ""
    else if (run == InSlashes && s[0] == '/') || (run == InBackslashes && s[0] == '\\') then
      Collapse(s[1..], false, run, backslash)
    else if |s| >= 2 && s[0] == '/' && s[1] == '/' && !afterColon then
      "/" + Collapse(s[2..], false, InSlashes, backslash)
    else if backslash && s[0] == '\\' then
      "/" + Collapse(s[1..], false, InBackslashes, backslash)
    else [s[0]] + Collapse(s[1..], s[0] == ':', NoRun, backslash)
  }

  function CollapseSlashes(s: string, afterColon: bool, backslash: bool): (r: string)
    ensures |r| <= |s|
  {
    Collapse(s, afterColon, NoRun, backslash)
  }

  /**
   * With the backslash alternative no `\` survives; whatever holds of `/` and of every input
   * character holds of the output.
   */
  lemma {:induction false} CollapseRunSpec(s: string, afterColon: bool, run: SlashRun, backslash: bool, p: char -> bool)
    requires run == InBackslashes ==> backslash
    ensures backslash ==> NoBackslash(Collapse(s, afterColon, run, backslash))
    ensures p('/') && All(s, p) ==> All(Collapse(s, afterColon, run, backslash), p)
    decreases |s|
  {
    if s != "" {
      if All(s, p) { AllSuffix(s, 1, p); }
      if (run == InSlashes && s[0] == '/') || (run == InBackslashes && s[0] == '\\') {
        CollapseRunSpec(s[1..], false, run, backslash, p);
      } else if |s| >= 2 && s[0] == '/' && s[1] == '/' && !afterColon {
        if All(s, p) { AllSuffix(s, 2, p); }
        CollapseRunSpec(s[2..], false, InSlashes, backslash, p);
      } else if backslash && s[0] == '\\' {
        CollapseRunSpec(s[1..], false, InBackslashes, backslash, p);
      } else {
        CollapseRunSpec(s[1..], s[0] == ':', NoRun, backslash, p);
      }
    }
  }

  lemma CollapseSpec(s: string, afterColon: bool, backslash: bool, p: char -> bool)
    ensures backslash ==> NoBackslash(CollapseSlashes(s, afterColon, backslash))
    ensures p('/') && All(s, p) ==> All(CollapseSlashes(s, afterColon, backslash), p)
  {
    CollapseRunSpec(s, afterColon, NoRun, backslash, p);
  }

  /**
   * When backslashes are either kept or absent, an output that starts with `/` comes from an
   * input `/` outside a run.
   */
  lemma {:induction false} CollapseHead(s: string, afterColon: bool, run: SlashRun, backslash: bool)
    requires (backslash ==> NoBackslash(s)) && (run == InBackslashes ==> backslash)
    ensures var r := Collapse(s, afterColon, run, backslash);
      r != "" && r[0] == '/' ==> s != "" && s[0] == '/' && run != InSlashes
    decreases |s|
  {
    if s != "" {
      assert backslash ==> NoBackslash(s[1..]) by { assert forall i :: 0 <= i < |s| - 1 ==> s[1..][i] == s[i + 1]; }
      if run == InSlashes && s[0] == '/' {
        CollapseHead(s[1..], false, run, backslash);
      }
    }
  }

  /** `r` has `//` at position `i`. */
  predicate Doubled(r: string, i: int) {
    0 <= i < |r| - 1 && r[i] == '/' && r[i + 1] == '/'
  }

  /** In `r`, every `//` comes right after a `:` (or at the start when `afterColon`). */
  predicate DoubleSlashAfterColon(r: string, afterColon: bool) {
    forall i :: 0 <= i < |r| && Doubled(r, i) ==> (if i == 0 then afterColon else r[i - 1] == ':')
  }

  predicate NoBackslash(s: string) {
    forall i :: 0 <= i < |s| ==> s[i] != '\\'
  }

  /** Putting `c` in front keeps `//` after `:` when `c` does not start a new `//`. */
  lemma ConsDoubleSlash(c: char, q: string, afterColon: bool)
    requires DoubleSlashAfterColon(q, c == ':')
    requires c == '/' && q != "" && q[0] == '/' ==> afterColon
    ensures DoubleSlashAfterColon([c] + q, afterColon)
  {
    var r := [c] + q;
    forall i | Doubled(r, i) ensures if i == 0 then afterColon else r[i - 1] == ':' {
      if i > 0 {
        assert Doubled(q, i - 1);
      }
    }
  }

  /**
   * Unless backslashes are turned into `/` and present, the slash rule leaves `//` only after a
   * `:`: the `https://` of a URL survives and every other doubled `/` is gone.
   */
  lemma {:induction false} CollapseRunScheme(s: string, afterColon: bool, run: SlashRun, backslash: bool)
    requires (backslash ==> NoBackslash(s)) && (run == InBackslashes ==> backslash)
    ensures DoubleSlashAfterColon(Collapse(s, afterColon, run, backslash), afterColon)
    decreases |s|
  {
    if s != "" {
      assert backslash ==> NoBackslash(s[1..]) by { assert forall i :: 0 <= i < |s| - 1 ==> s[1..][i] == s[i + 1]; }
      if run == InSlashes && s[0] == '/' {
        CollapseRunScheme(s[1..], false, run, backslash);
      } else if |s| >= 2 && s[0] == '/' && s[1] == '/' && !afterColon {
        assert backslash ==> NoBackslash(s[2..]) by { assert forall i :: 0 <= i < |s| - 2 ==> s[2..][i] == s[i + 2]; }
        CollapseRunScheme(s[2..], false, InSlashes, backslash);
        CollapseHead(s[2..], false, InSlashes, backslash);
        ConsDoubleSlash('/', Collapse(s[2..], false, InSlashes, backslash), afterColon);
      } else {
        CollapseRunScheme(s[1..], s[0] == ':', NoRun, backslash);
        CollapseHead(s[1..], s[0] == ':', NoRun, backslash);
        ConsDoubleSlash(s[0], Collapse(s[1..], s[0] == ':', NoRun, backslash), afterColon);
      }
    }
  }

  lemma CollapseLeavesSchemeSlashes(s: string, afterColon: bool, backslash: bool)
    requires backslash ==> NoBackslash(s)
    ensures DoubleSlashAfterColon(CollapseSlashes(s, afterColon, backslash), afterColon)
  {
    CollapseRunScheme(s, afterColon, NoRun, backslash);
  }

  /** No `///` anywhere in `s`. */
  predicate NoTripleSlash(s: string) {
    forall i :: 0 <= i < |s| && Doubled(s, i) ==> !Doubled(s, i + 1)
  }

  /** Putting `c` in front of a scan's output keeps it free of `///`. */
  lemma ConsNoTriple(c: char, q: string)
    requires NoTripleSlash(q) && DoubleSlashAfterColon(q, c == ':')
    ensures NoTripleSlash([c] + q)
  {
    var r := [c] + q;
    forall i | 0 <= i < |r| && Doubled(r, i) ensures !Doubled(r, i + 1) {
      if Doubled(r, i + 1) {
        assert r[i + 1] == q[i] && r[i + 2] == q[i + 1];
        assert Doubled(q, i);
      }
    }
  }

  /** Under the same conditions, the output of the slash rule has no `///`. */
  lemma {:induction false} CollapseNoTriple(s: string, afterColon: bool, run: SlashRun, backslash: bool)
    requires (backslash ==> NoBackslash(s)) && (run == InBackslashes ==> backslash)
    ensures NoTripleSlash(Collapse(s, afterColon, run, backslash))
    decreases |s|
  {
    if s != "" {
      assert backslash ==> NoBackslash(s[1..]) by { assert forall i :: 0 <= i < |s| - 1 ==> s[1..][i] == s[i + 1]; }
      if run == InSlashes && s[0] == '/' {
        CollapseNoTriple(s[1..], false, run, backslash);
      } else if |s| >= 2 && s[0] == '/' && s[1] == '/' && !afterColon {
        assert backslash ==> NoBackslash(s[2..]) by { assert forall i :: 0 <= i < |s| - 2 ==> s[2..][i] == s[i + 2]; }
        var q := Collapse(s[2..], false, InSlashes, backslash);
        CollapseNoTriple(s[2..], false, InSlashes, backslash);
        CollapseHead(s[2..], false, InSlashes, backslash);
        var r := "/" + q;
        forall i | 0 <= i < |r| && Doubled(r, i) ensures !Doubled(r, i + 1) {
          if Doubled(r, i + 1) {
            assert r[i + 1] == q[i] && r[i + 2] == q[i + 1];
            assert Doubled(q, i);
            if i > 0 {
              assert r[i] == q[i - 1];
              assert Doubled(q, i - 1);
            }
          }
        }
      } else {
        CollapseNoTriple(s[1..], s[0] == ':', NoRun, backslash);
        CollapseRunScheme(s[1..], s[0] == ':', NoRun, backslash);
        ConsNoTriple(s[0], Collapse(s[1..], s[0] == ':', NoRun, backslash));
      }
    }
  }

  /** No backslash, every `//` after a `:`, and no `///`: the shape the slash rule leaves alone. */
  predicate SlashStable(s: string, afterColon: bool) {
    NoBackslash(s) && DoubleSlashAfterColon(s, afterColon) && NoTripleSlash(s)
  }

  lemma {:induction false} CollapseStable(s: string, afterColon: bool, backslash: bool)
    requires (backslash ==> NoBackslash(s)) && DoubleSlashAfterColon(s, afterColon) && NoTripleSlash(s)
    ensures CollapseSlashes(s, afterColon, backslash) == s
    decreases |s|
  {
    if s != "" {
      var t := s[1..];
      assert forall i :: 0 <= i < |t| ==> t[i] == s[i + 1];
      if |s| >= 2 && s[0] == '/' && s[1] == '/' {
        assert Doubled(s, 0);
      }
      assert forall i :: Doubled(t, i) ==> Doubled(s, i + 1);
      assert DoubleSlashAfterColon(t, s[0] == ':') by {
        forall i | Doubled(t, i) ensures if i == 0 then s[0] == ':' else t[i - 1] == ':' {
          assert Doubled(s, i + 1);
          if i == 0 && Doubled(s, 0) {
            assert false;
          }
        }
      }
      CollapseStable(t, s[0] == ':', backslash);
      assert s == [s[0]] + t;
    }
  }

  // ---------------------------------------------------------------- REGEX.path

  function DropEmpty(xs: seq<string>): (r: seq<string>)
    ensures forall k :: 0 <= k < |r| ==> r[k] != ""
    ensures |r| <= |xs|
    ensures (forall k :: 0 <= k < |xs| ==> xs[k] != "") ==> r == xs
    ensures forall k :: 0 <= k < |r| ==> r[k] in xs
  {
    if xs == [] then []
    else if xs[0] == "" then DropEmpty(xs[1..])
    else [xs[0]] + DropEmpty(xs[1..])
  }

  /** A single segment is dropped exactly when it is empty. */
  lemma DropEmptyOne(x: string)
    ensures DropEmpty([x]) == if x == "" then [] else [x]
  {
    assert [x][1..] == [];
  }

  /** Dropping works segment by segment: it keeps the order of what it keeps. */
  lemma {:induction false} DropEmptyConcat(a: seq<string>, b: seq<string>)
    ensures DropEmpty(a + b) == DropEmpty(a) + DropEmpty(b)
  {
    if a == [] {
      assert a + b == b;
    } else {
      assert (a + b)[0] == a[0] && (a + b)[1..] == a[1..] + b;
      DropEmptyConcat(a[1..], b);
    }
  }

  /** Splitting a `dir` on `REGEX.path` (runs of `/` or `\`) with the empty segments discarded. */
  function SplitPath(s: string): (r: seq<string>)
    ensures forall k :: 0 <= k < |r| ==> r[k] != "" && NoSeparator(r[k], true)
  {
    DropEmpty(Split(s, true))
  }

  /** Splitting undoes joining by "/", with or without a leading "/". */
  lemma SplitPathJoin(xs: seq<string>)
    requires forall k :: 0 <= k < |xs| ==> xs[k] != "" && NoSeparator(xs[k], true)
    ensures SplitPath(JoinWith(xs, '/')) == xs
    ensures SplitPath("/" + JoinWith(xs, '/')) == xs
  {
    if xs == [] {
      assert Split("/", true) == [""] + Split("", true);
    } else {
      SplitJoin(xs, true);
      assert ("/" + JoinWith(xs, '/'))[1..] == JoinWith(xs, '/');
      assert Split("/" + JoinWith(xs, '/'), true) == [""] + xs;
    }
  }

  // ---------------------------------------------------------------- REGEX.tpl

  /** A piece of a filename template: a literal character or a `[key]` placeholder. */
  datatype Token = Lit(c: char) | Key(name: string)

  predicate IsBracket(c: char) { c == '[' || c == ']' }

  /** The length of the leading run of non-bracket characters. */
  function KeyLength(s: string): (n: nat)
    ensures n <= |s|
    ensures forall i :: 0 <= i < n ==> !IsBracket(s[i])
    ensures n < |s| ==> IsBracket(s[n])
  {
    if s == "" || IsBracket(s[0]) then 0 else 1 + KeyLength(s[1..])
  }

  /**
   * The matches of `/\[([^\[\]]+)\]/g`, left to right: a `[` followed by one or more non-bracket
   * characters and a `]` is a placeholder; every other character is literal.
   */
  function Tokens(t: string): (ts: seq<Token>)
    ensures forall k :: 0 <= k < |ts| && ts[k].Key? ==> ts[k].name != "" && forall i :: 0 <= i < |ts[k].name| ==> !IsBracket(ts[k].name[i])
    decreases |t|
  {
    if t == "" then []
    else if t[0] == '[' && 0 < KeyLength(t[1..]) < |t| - 1 && t[1 + KeyLength(t[1..])] == ']' then
      var n := KeyLength(t[1..]);
      assert forall i :: 0 <= i < n ==> t[1..1 + n][i] == t[1..][i];
      [Key(t[1..1 + n])] + Tokens(t[n + 2..])
    else [Lit(t[0])] + Tokens(t[1..])
  }

  /** The template text of one token. */
  function TokenText(tk: Token): string {
    match tk
    case Lit(c) => [c]
    case Key(k) => "[" + k + "]"
  }

  /** The template text a token sequence was read from. */
  function Render(ts: seq<Token>): string {
    if ts == [] then "" else TokenText(ts[0]) + Render(ts[1..])
  }

  /** Reading a template into tokens loses nothing. */
  lemma {:induction false} RenderTokens(t: string)
    ensures Render(Tokens(t)) == t
    decreases |t|
  {
    if t != "" {
      if t[0] == '[' && 0 < KeyLength(t[1..]) < |t| - 1 && t[1 + KeyLength(t[1..])] == ']' {
        var n := KeyLength(t[1..]);
        RenderTokens(t[n + 2..]);
        RenderKeyStep(t, n);
      } else {
        RenderTokens(t[1..]);
        RenderLitStep(t);
      }
    }
  }

  /** A placeholder at the front renders back to its brackets and name. */
  lemma RenderKeyStep(t: string, n: nat)
    requires t != "" && t[0] == '[' && n == KeyLength(t[1..]) && 0 < n < |t| - 1 && t[1 + n] == ']'
    requires Render(Tokens(t[n + 2..])) == t[n + 2..]
    ensures Render(Tokens(t)) == t
  {
    var k := t[1..1 + n];
    assert Tokens(t) == [Key(k)] + Tokens(t[n + 2..]);
    RenderCons(Key(k), Tokens(t[n + 2..]));
    KeyText(t, n);
  }

  /** A literal character at the front renders back to itself. */
  lemma RenderLitStep(t: string)
    requires t != "" && !(t[0] == '[' && 0 < KeyLength(t[1..]) < |t| - 1 && t[1 + KeyLength(t[1..])] == ']')
    requires Render(Tokens(t[1..])) == t[1..]
    ensures Render(Tokens(t)) == t
  {
    assert Tokens(t) == [Lit(t[0])] + Tokens(t[1..]);
    RenderCons(Lit(t[0]), Tokens(t[1..]));
    assert t == [t[0]] + t[1..];
  }

  lemma KeyText(t: string, n: nat)
    requires n + 2 <= |t| && t[0] == '[' && t[n + 1] == ']'
    ensures t == TokenText(Key(t[1..1 + n])) + t[n + 2..]
  {
    assert t == "[" + t[1..1 + n] + "]" + t[n + 2..];
  }

  lemma RenderCons(tk: Token, ts: seq<Token>)
    ensures Render([tk] + ts) == TokenText(tk) + Render(ts)
  {
    assert ([tk] + ts)[1..] == ts;
  }
}
