/**
 * The POSIX half of Node's `node:path`: `join`, `normalize`, `parse`, `extname` and `basename`,
 * following Node's own algorithms (segment stack for `..`, index scans for `parse`).
 */
module NodePath {
  import opened Text

  /** The segments normalisation keeps: neither empty nor ".". */
  function Keep(xs: seq<string>): (r: seq<string>)
    ensures forall k :: 0 <= k < |r| ==> r[k] != "" && r[k] != "."
    ensures |r| <= |xs|
  {
    if xs == [] then []
    else if xs[0] == "" || xs[0] == "." then Keep(xs[1..])
    else [xs[0]] + Keep(xs[1..])
  }

  lemma {:induction false} KeepConcat(a: seq<string>, b: seq<string>)
    ensures Keep(a + b) == Keep(a) + Keep(b)
  {
    if a != [] {
      assert (a + b)[0] == a[0] && (a + b)[1..] == a[1..] + b;
      KeepConcat(a[1..], b);
    } else {
      assert a + b == b;
    }
  }

  predicate NoDotDot(xs: seq<string>) {
    forall k :: 0 <= k < |xs| ==> xs[k] != ".."
  }

  /**
   * Node's `normalizeString` as a stack of segments: empty and "." segments vanish, ".." pops the
   * last segment unless it is itself "..", and above the root ".." is kept only for relative paths.
   */
  function Resolve(stack: seq<string>, xs: seq<string>, allowAboveRoot: bool): seq<string>
    decreases |xs|
  {
    if xs == [] then stack
    else if xs[0] == "" || xs[0] == "." then Resolve(stack, xs[1..], allowAboveRoot)
    else if xs[0] == ".." then
      if |stack| > 0 && stack[|stack| - 1] != ".." then Resolve(stack[..|stack| - 1], xs[1..], allowAboveRoot)
      else if allowAboveRoot then Resolve(stack + [".."], xs[1..], allowAboveRoot)
      else Resolve(stack, xs[1..], allowAboveRoot)
    else Resolve(stack + [xs[0]], xs[1..], allowAboveRoot)
  }

  /** Without "..", resolving only drops the empty and "." segments. */
  lemma {:induction false} ResolveNoDotDot(stack: seq<string>, xs: seq<string>, allowAboveRoot: bool)
    requires NoDotDot(xs)
    ensures Resolve(stack, xs, allowAboveRoot) == stack + Keep(xs)
    decreases |xs|
  {
    if xs != [] {
      ResolveNoDotDot(if xs[0] == "" || xs[0] == "." then stack else stack + [xs[0]], xs[1..], allowAboveRoot);
      if xs[0] != "" && xs[0] != "." {
        assert stack + [xs[0]] + Keep(xs[1..]) == stack + ([xs[0]] + Keep(xs[1..]));
      }
    }
  }

  /** `path.posix.normalize(p)` */
  function Normalize(p: string): (r: string)
    ensures r != ""
  {
    if p == "" then "."
    else
      var abs := p[0] == '/';
      var trailing := p[|p| - 1] == '/';
      var body := JoinWith(Resolve([], Split(p, false), !abs), '/');
      if body == "" then (if abs then "/" else if trailing then "./" else ".")
      else (if abs then "/" else "") + body + (if trailing then "/" else "")
  }

  function NonEmpty(args: seq<string>): (r: seq<string>)
    ensures forall k :: 0 <= k < |r| ==> r[k] != ""
  {
    if args == [] then []
    else if args[0] == "" then NonEmpty(args[1..])
    else [args[0]] + NonEmpty(args[1..])
  }

  /** `path.posix.join(...args)`: the non-empty arguments joined by "/", then normalised. */
  function Join(args: seq<string>): (r: string)
    ensures r != ""
  {
    var parts := NonEmpty(args);
    if parts == [] then "." else Normalize(JoinWith(parts, '/'))
  }

  /** What `join` yields from already-normalised segments. */
  function Dotted(segs: seq<string>): string {
    if segs == [] then "." else JoinWith(segs, '/')
  }

  /** All "/"-separated segments of all arguments, in order. */
  function SplitAll(args: seq<string>): seq<string> {
    if args == [] then [] else Split(args[0], false) + SplitAll(args[1..])
  }

  /** A path with no empty segment (so no leading, trailing or doubled "/") and no "..". */
  predicate Tidy(a: string) {
    forall k :: 0 <= k < |Split(a, false)| ==> Split(a, false)[k] != "" && Split(a, false)[k] != ".."
  }

  lemma {:induction false} SplitAllConcat(a: seq<string>, b: seq<string>)
    ensures SplitAll(a + b) == SplitAll(a) + SplitAll(b)
  {
    if a != [] {
      assert (a + b)[0] == a[0] && (a + b)[1..] == a[1..] + b;
      SplitAllConcat(a[1..], b);
    } else {
      assert a + b == b;
    }
  }

  lemma {:induction false} KeepSplitAllNonEmpty(args: seq<string>)
    ensures Keep(SplitAll(NonEmpty(args))) == Keep(SplitAll(args))
  {
    if args != [] {
      KeepSplitAllNonEmpty(args[1..]);
      KeepConcat(Split(args[0], false), SplitAll(args[1..]));
      if args[0] != "" {
        assert NonEmpty(args) == [args[0]] + NonEmpty(args[1..]);
        assert SplitAll(NonEmpty(args)) == Split(args[0], false) + SplitAll(NonEmpty(args[1..]));
        KeepConcat(Split(args[0], false), SplitAll(NonEmpty(args[1..])));
      }
    }
  }

  lemma {:induction false} SplitJoinAll(parts: seq<string>)
    requires |parts| >= 1
    ensures Split(JoinWith(parts, '/'), false) == SplitAll(parts)
  {
    if |parts| == 1 {
      assert SplitAll(parts) == Split(parts[0], false) + SplitAll([]);
    } else {
      SplitJoinAll(parts[1..]);
      SplitConcat(parts[0], JoinWith(parts[1..], '/'), false);
    }
  }

  lemma {:induction false} SplitAllTidy(parts: seq<string>)
    requires forall k :: 0 <= k < |parts| ==> Tidy(parts[k])
    ensures forall k :: 0 <= k < |SplitAll(parts)| ==> SplitAll(parts)[k] != "" && SplitAll(parts)[k] != ".."
  {
    if parts != [] {
      SplitAllTidy(parts[1..]);
      var a, b := Split(parts[0], false), SplitAll(parts[1..]);
      assert SplitAll(parts) == a + b;
      assert Tidy(parts[0]);
      forall k | 0 <= k < |a + b| ensures (a + b)[k] != "" && (a + b)[k] != ".." {
        if k < |a| { assert (a + b)[k] == a[k]; } else { assert (a + b)[k] == b[k - |a|]; }
      }
    }
  }

  lemma SplitFirstEmpty(s: string)
    requires s != "" && s[0] == '/'
    ensures Split(s, false)[0] == ""
  {
  }

  lemma SplitLastEmpty(s: string)
    requires s != "" && s[|s| - 1] == '/'
    ensures Split(s, false)[|Split(s, false)| - 1] == ""
  {
    var t := s[..|s| - 1];
    assert s == t + "/" + "";
    SplitConcat(t, "", false);
  }

  lemma {:induction false} JoinWithEmpty(xs: seq<string>)
    requires forall k :: 0 <= k < |xs| ==> xs[k] != ""
    ensures JoinWith(xs, '/') == "" <==> xs == []
  {
    if |xs| > 1 {
      assert |JoinWith(xs, '/')| >= |xs[0]|;
    }
  }

  /**
   * Joining arguments that are empty or tidy amounts to joining their kept segments: no leading or
   * trailing "/" survives, and an all-"." result is ".".
   */
  lemma JoinTidy(args: seq<string>)
    requires forall k :: 0 <= k < |args| ==> args[k] == "" || Tidy(args[k])
    ensures Join(args) == Dotted(Keep(SplitAll(args)))
  {
    var parts := NonEmpty(args);
    KeepSplitAllNonEmpty(args);
    NonEmptyTidy(args);
    if parts != [] {
      var c := JoinWith(parts, '/');
      SplitJoinAll(parts);
      SplitAllTidy(parts);
      JoinWithEmpty(parts);
      NormalizeTidy(c);
    }
  }

  /** A non-empty tidy path normalises to the join of its kept segments. */
  lemma NormalizeTidy(c: string)
    requires c != "" && Tidy(c)
    ensures Normalize(c) == Dotted(Keep(Split(c, false)))
  {
    var xs := Split(c, false);
    if c[0] == '/' { SplitFirstEmpty(c); }
    if c[|c| - 1] == '/' { SplitLastEmpty(c); }
    ResolveNoDotDot([], xs, true);
    assert [] + Keep(xs) == Keep(xs);
    JoinWithEmpty(Keep(xs));
  }

  lemma {:induction false} NonEmptyTidy(args: seq<string>)
    requires forall k :: 0 <= k < |args| ==> args[k] == "" || Tidy(args[k])
    ensures forall k :: 0 <= k < |NonEmpty(args)| ==> Tidy(NonEmpty(args)[k])
  {
    if args != [] {
      NonEmptyTidy(args[1..]);
      assert args[0] == "" || Tidy(args[0]);
    }
  }

  /** One argument of segments without separators splits into exactly those segments. */
  lemma SplitDotted(segs: seq<string>)
    requires forall k :: 0 <= k < |segs| ==> segs[k] != "" && segs[k] != "." && NoSeparator(segs[k], false)
    ensures Keep(Split(Dotted(segs), false)) == segs
  {
    if segs == [] {
      SplitPrefix(".", "", false);
      assert "." + "" == ".";
    } else {
      SplitJoin(segs, false);
      KeepPlain(segs);
    }
  }

  lemma {:induction false} KeepPlain(segs: seq<string>)
    requires forall k :: 0 <= k < |segs| ==> segs[k] != "" && segs[k] != "."
    ensures Keep(segs) == segs
  {
    if segs != [] {
      KeepPlain(segs[1..]);
      assert segs == [segs[0]] + segs[1..];
    }
  }

  // ---------------------------------------------------------------- parse, extname, basename

  datatype Parsed = Parsed(root: string, dir: string, base: string, ext: string, name: string)

  /** One past the last character at or after `start` that is not "/", or -1 if there is none. */
  function EndIndex(p: string, start: nat): (e: int)
    ensures e == -1 || (start < e <= |p| && p[e - 1] != '/')
    ensures e != -1 ==> forall i :: e <= i < |p| ==> p[i] == '/'
    ensures e == -1 ==> forall i :: start <= i < |p| ==> p[i] == '/'
    decreases |p|
  {
    if |p| <= start then -1
    else if p[|p| - 1] != '/' then |p|
    else
      var e := EndIndex(p[..|p| - 1], start);
      assert forall i :: 0 <= i < |p| - 1 ==> p[..|p| - 1][i] == p[i];
      e
  }

  /** The position of the last `c` at or after `start` in `p`, or -1. */
  function LastIndexFrom(p: string, c: char, start: nat): (j: int)
    ensures j == -1 || (start <= j < |p| && p[j] == c)
    ensures forall i :: j < i < |p| && start <= i ==> p[i] != c
    decreases |p|
  {
    if |p| <= start then -1
    else if p[|p| - 1] == c then |p| - 1
    else
      var j := LastIndexFrom(p[..|p| - 1], c, start);
      assert forall i :: 0 <= i < |p| - 1 ==> p[..|p| - 1][i] == p[i];
      j
  }

  /**
   * Node's extension rule for the part `p[lo..e]` of the last segment starting at `startPart`:
   * the position of the last "." when it gives an extension, else -1.
   */
  function ExtStart(p: string, lo: nat, e: nat, startPart: nat): (d: int)
    requires lo <= e <= |p|
    ensures d == -1 || (lo < d < e && p[d] == '.')
  {
    var startDot := LastIndexFrom(p[..e], '.', lo);
    if startDot == -1 then -1
    else
      var preDotState := if startDot == lo then 0 else if p[lo] == '.' then 1 else -1;
      if preDotState == 0 || (preDotState == 1 && startDot == e - 1 && startDot == startPart + 1) then -1
      else startDot
  }

  /** `path.posix.parse(p)` */
  function Parse(p: string): Parsed {
    if p == "" then Parsed("", "", "", "", "")
    else
      var abs := p[0] == '/';
      var start: nat := if abs then 1 else 0;
      var e := EndIndex(p, start);
      var slash := if e == -1 then -1 else LastIndexFrom(p[..e], '/', start);
      var startPart: nat := if slash == -1 then 0 else slash + 1;
      var dir := if startPart > 0 then p[..startPart - 1] else if abs then "/" else "";
      var root := if abs then "/" else "";
      if e == -1 then Parsed(root, dir, "", "", "")
      else
        var lo := if startPart == 0 && abs then 1 else startPart;
        var d := ExtStart(p, lo, e, startPart);
        if d == -1 then Parsed(root, dir, p[lo..e], "", p[lo..e])
        else Parsed(root, dir, p[lo..e], p[d..e], p[lo..d])
  }

  /** `path.posix.extname(p)`: the scan of `parse`, but from position 0 even for absolute paths. */
  function ExtName(p: string): (r: string)
    ensures r == "" || r[0] == '.'
  {
    var e := EndIndex(p, 0);
    if e == -1 then ""
    else
      var slash := LastIndexFrom(p[..e], '/', 0);
      var startPart: nat := if slash == -1 then 0 else slash + 1;
      var d := ExtStart(p, startPart, e, startPart);
      if d == -1 then "" else p[d..e]
  }

  /** `path.posix.basename(p, suffix)`, including Node's treatment of a suffix longer than the segment. */
  function BaseName(p: string, suffix: string): string {
    var e := EndIndex(p, 0);
    var slash := if e == -1 then -1 else LastIndexFrom(p[..e], '/', 0);
    var s: nat := if slash == -1 then 0 else slash + 1;
    if suffix != "" && |suffix| <= |p| then
      if suffix == p then ""
      else if e == -1 then p
      else
        var seg := p[s..e];
        if |suffix| <= |seg| && seg[|seg| - |suffix|..] == suffix then
          (if |seg| == |suffix| then seg else p[s..e - |suffix|])
        else if |suffix| > |seg| && suffix[|suffix| - |seg|..] == seg then p[s..]
        else seg
    else if e == -1 then ""
    else p[s..e]
  }

  // ---------------------------------------------------------------- lemmas about parse

  /** The last "/" of `head + "/" + last` is the one before `last`, when `last` has none. */
  lemma LastSlashBefore(head: string, last: string, start: nat)
    requires NoSeparator(last, false) && start <= |head|
    ensures LastIndexFrom(head + "/" + last, '/', start) == |head|
  {
    var p := head + "/" + last;
    var j := LastIndexFrom(p, '/', start);
    assert p[|head|] == '/';
    assert forall i :: |head| < i < |p| ==> p[i] == last[i - |head| - 1];
  }

  /** With a single segment after the root, nothing at or after position 1 is a "/". */
  lemma NoSlashAfterRoot(last: string)
    requires NoSeparator(last, false)
    ensures LastIndexFrom("/" + last, '/', 1) == -1
  {
    var p := "/" + last;
    assert forall i :: 1 <= i < |p| ==> p[i] == last[i - 1];
  }

  /** `parse` splits an absolute path at the "/" before a final plain segment. */
  lemma ParseLast(head: string, last: string)
    requires last != "" && NoSeparator(last, false)
    requires head == "" || head[0] == '/'
    ensures Parse(head + "/" + last).base == last
    ensures Parse(head + "/" + last).dir == (if head == "" then "/" else head)
  {
    var p := head + "/" + last;
    assert p[0] == '/';
    assert p[|p| - 1] == last[|last| - 1];
    assert EndIndex(p, 1) == |p|;
    assert p[..|p|] == p;
    if head == "" {
      assert p == "/" + last;
      NoSlashAfterRoot(last);
      assert p[1..] == last;
    } else {
      LastSlashBefore(head, last, 1);
      assert p[..|head|] == head;
      assert p[|head| + 1..] == last;
    }
  }

  lemma {:induction false} JoinWithSnoc(xs: seq<string>)
    requires |xs| >= 2
    ensures JoinWith(xs, '/') == JoinWith(xs[..|xs| - 1], '/') + "/" + xs[|xs| - 1]
  {
    if |xs| > 2 {
      JoinWithSnoc(xs[1..]);
      assert xs[1..][..|xs| - 2] == xs[..|xs| - 1][1..];
    }
  }

  /**
   * Parsing an absolute path of plain segments splits off the last one as `base`; `dir` keeps the
   * leading "/" and the segments before it.
   */
  lemma ParseAbsolute(xs: seq<string>)
    requires |xs| >= 1
    requires forall k :: 0 <= k < |xs| ==> xs[k] != "" && NoSeparator(xs[k], false)
    ensures Parse("/" + JoinWith(xs, '/')).base == xs[|xs| - 1]
    ensures Parse("/" + JoinWith(xs, '/')).dir == "/" + JoinWith(xs[..|xs| - 1], '/')
  {
    var last := xs[|xs| - 1];
    var head := if |xs| == 1 then "" else "/" + JoinWith(xs[..|xs| - 1], '/');
    AbsoluteAsLast(xs);
    ParseLast(head, last);
    assert JoinWith(xs[..0], '/') == "";
  }

  lemma AbsoluteAsLast(xs: seq<string>)
    requires |xs| >= 1
    ensures "/" + JoinWith(xs, '/')
         == (if |xs| == 1 then "" else "/" + JoinWith(xs[..|xs| - 1], '/')) + "/" + xs[|xs| - 1]
  {
    if |xs| >= 2 { JoinWithSnoc(xs); }
  }

  /** The last `c` of `head + [c] + last` is the one before `last`, when `last` has none. */
  lemma LastIndexBefore(head: string, c: char, last: string, start: nat)
    requires forall i :: 0 <= i < |last| ==> last[i] != c
    requires start <= |head|
    ensures LastIndexFrom(head + [c] + last, c, start) == |head|
  {
    var p := head + [c] + last;
    assert p[|head|] == c;
    assert forall i :: |head| < i < |p| ==> p[i] == last[i - |head| - 1];
  }

  lemma NoIndex(s: string, c: char)
    requires forall i :: 0 <= i < |s| ==> s[i] != c
    ensures LastIndexFrom(s, c, 0) == -1
  {
  }

  /** A name without "/" whose last "." follows a non-dot start has everything from that dot as extension. */
  lemma ExtNameOf(stem: string, x: string)
    requires stem != "" && stem[0] != '.' && NoSeparator(stem, false)
    requires NoSeparator(x, false) && forall i :: 0 <= i < |x| ==> x[i] != '.'
    ensures ExtName(stem + "." + x) == "." + x
  {
    var p := stem + "." + x;
    assert p[|p| - 1] != '/' by {
      if x == "" { assert p[|p| - 1] == '.'; } else { assert p[|p| - 1] == x[|x| - 1]; }
    }
    assert EndIndex(p, 0) == |p| && p[..|p|] == p;
    assert NoSeparator(p, false) by {
      assert forall i :: 0 <= i < |p| ==> p[i] == (if i < |stem| then stem[i] else if i == |stem| then '.' else x[i - |stem| - 1]);
    }
    NoIndex(p, '/');
    LastIndexBefore(stem, '.', x, 0);
    assert p[0] == stem[0];
    assert p[|stem|..] == "." + x;
  }

  /** A name without "/" or "." has no extension. */
  lemma ExtNameNone(s: string)
    requires NoSeparator(s, false) && forall i :: 0 <= i < |s| ==> s[i] != '.'
    ensures ExtName(s) == ""
  {
    if s != "" {
      assert EndIndex(s, 0) == |s| && s[..|s|] == s;
      NoIndex(s, '.');
    }
  }

  /** `basename` strips a suffix from a single segment that is longer than the suffix. */
  lemma BaseNameStrip(stem: string, ext: string)
    requires stem != "" && NoSeparator(stem, false) && NoSeparator(ext, false)
    ensures BaseName(stem + ext, ext) == stem
  {
    var p := stem + ext;
    assert p[|p| - 1] != '/' by {
      if ext == "" { assert p[|p| - 1] == stem[|stem| - 1]; } else { assert p[|p| - 1] == ext[|ext| - 1]; }
    }
    assert EndIndex(p, 0) == |p| && p[..|p|] == p;
    assert NoSeparator(p, false) by {
      assert forall i :: 0 <= i < |p| ==> p[i] == (if i < |stem| then stem[i] else ext[i - |stem|]);
    }
    NoIndex(p, '/');
    assert p[0..|p|] == p;
    assert p[|p| - |ext|..] == ext;
    assert p[0..|p| - |ext|] == stem;
  }
}
