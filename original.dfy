/**
 * The first generation of the adapter (index.js): its options, `sanitizeUrlPath`, which adds the
 * prefix and tidies slashes, the `getSanitizedFileName` whitelist, the relative and absolute object
 * paths, and the naming of an uploaded image.
 */
module OriginalAdapter {
  import opened Wrappers
  import opened Text
  import opened NodePath
  import opened Constants
  import Sanitizer
  import RoundTrip

  /** The host `defaults` names. */
  const DefaultHost: string := "storage.googleapis.com"

  /**
   * The options Ghost passes. `None` is an option that is missing or, for `prefix` and `host`, not
   * a string.
   */
  datatype RawOptions = RawOptions(
    bucket: string,
    protocol: Option<string>,
    host: Option<string>,
    hash: Option<bool>,
    hashLength: Option<int>,
    prefix: Option<string>,
    unique: Option<bool>,
    template: Option<string>,
    incremental: Option<bool>)

  /** Only the bucket given. */
  function NoOptions(bucket: string): RawOptions {
    RawOptions(bucket, None, None, None, None, None, None, None, None)
  }

  /** The options after the constructor. */
  datatype Options = Options(
    bucket: string,
    protocol: string,
    host: string,
    hash: bool,
    hashLength: int,
    prefix: string,
    unique: bool,
    template: string,
    incremental: bool)

  /**
   * The options the constructor leaves behind: `defaults` fills what is missing; a prefix that is
   * not a string becomes ""; a host that is not a string, or is empty, becomes the default host;
   * a falsy template is chosen by `hash`, with the `{{…}}` placeholders of this generation.
   */
  function Resolved(raw: RawOptions): (o: Options)
    ensures o.prefix == raw.prefix.GetOr("")
    ensures o.host != ""
    ensures raw.host.Some? && raw.host.value != "" ==> o.host == raw.host.value
    ensures raw.host.None? || raw.host.value == "" ==> o.host == DefaultHost
    ensures o.template != ""
    ensures raw.template.Some? && raw.template.value != "" ==> o.template == raw.template.value
    ensures raw.template.None? || raw.template.value == "" ==>
              o.template == (if o.hash then "{{hashstr}}{{ext}}" else "{{basename}}{{ext}}")
    ensures raw.unique.None? ==> o.unique
    ensures raw.incremental.None? ==> !o.incremental
    ensures raw.hash.None? ==> !o.hash
  {
    var hash := raw.hash.GetOr(false);
    Options(
      bucket := raw.bucket,
      protocol := raw.protocol.GetOr("https"),
      host := if raw.host.GetOr("") == "" then DefaultHost else raw.host.value,
      hash := hash,
      hashLength := raw.hashLength.GetOr(16),
      prefix := raw.prefix.GetOr(""),
      unique := raw.unique.GetOr(true),
      template := if raw.template.GetOr("") != "" then raw.template.value
                  else if hash then "{{hashstr}}{{ext}}" else "{{basename}}{{ext}}",
      incremental := raw.incremental.GetOr(false))
  }

  /** The constructor's option handling, step by step in its order. */
  method ResolveOptions(raw: RawOptions) returns (o: Options)
    ensures o == Resolved(raw)
  {
    // _.defaults(opts, defaults)
    var prefix := raw.prefix;
    var host := raw.host.GetOr(DefaultHost);
    var template := raw.template.GetOr("");
    var hash := raw.hash.GetOr(false);
    if prefix.None? {
      prefix := Some("");
    }
    if host == "" {
      host := DefaultHost;
    }
    if template == "" {
      if hash {
        template := "{{hashstr}}{{ext}}";
      } else {
        template := "{{basename}}{{ext}}";
      }
    }
    o := Options(raw.bucket, raw.protocol.GetOr("https"), host, hash, raw.hashLength.GetOr(16),
                 prefix.value, raw.unique.GetOr(true), template, raw.incremental.GetOr(false));
  }

  // ---------------------------------------------------------------- sanitizeUrlPath

  /** `str.replace(/^[\\\/]+/, '')`: the leading run of `/` and `\` is removed. */
  function StripLeadingSlashes(s: string): (r: string)
    ensures |r| <= |s| && r == s[|s| - |r|..]
    ensures r == "" || (r[0] != '/' && r[0] != '\\')
    ensures forall i :: 0 <= i < |s| - |r| ==> s[i] == '/' || s[i] == '\\'
  {
    if s != "" && (s[0] == '/' || s[0] == '\\') then StripLeadingSlashes(s[1..]) else s
  }

  /** The prefix is added unless the string has a scheme or already starts with it. */
  predicate AddsPrefix(o: Options, s: string) {
    !Contains(s, "://") && IndexOf(s, o.prefix) != 0
  }

  /** `sanitizeUrlPath` accepts `{ path }` or a plain string. */
  datatype PathArg = PathObject(path: string) | PathString(value: string)

  function ArgPath(file: PathArg): string {
    match file
    case PathObject(p) => p
    case PathString(s) => s
  }

  /**
   * `sanitizeUrlPath(str)`: the prefix joined in front when needed, then every run of two or more
   * `/` not right after a `:` made one `/`, then the leading slashes and backslashes removed. The
   * result starts with neither, keeps `//` only right after a `:`, and never has `///`.
   */
  function SanitizeUrlPath(o: Options, s: string): (r: string)
    ensures r == "" || (r[0] != '/' && r[0] != '\\')
    ensures DoubleSlashAfterColon(r, false) && NoTripleSlash(r)
    ensures !AddsPrefix(o, s) ==> r == StripLeadingSlashes(CollapseSlashes(s, false, false))
  {
    var t := if AddsPrefix(o, s) then Join([o.prefix, s]) else s;
    var c := CollapseSlashes(t, false, false);
    CollapseLeavesSchemeSlashes(t, false, false);
    CollapseNoTriple(t, false, NoRun, false);
    StripKeepsSlashShape(c);
    StripLeadingSlashes(c)
  }

  /** `sanitizeUrlPath(file)` for either form of argument. */
  function SanitizeUrlPathArg(o: Options, file: PathArg): (r: string)
    ensures r == SanitizeUrlPath(o, ArgPath(file))
    ensures file.PathObject? ==> r == SanitizeUrlPath(o, file.path)
  {
    SanitizeUrlPath(o, ArgPath(file))
  }

  /** Removing leading slashes keeps "every `//` after a `:`" and "no `///`". */
  lemma {:induction false} StripKeepsSlashShape(c: string)
    requires DoubleSlashAfterColon(c, false) && NoTripleSlash(c)
    ensures var r := StripLeadingSlashes(c); DoubleSlashAfterColon(r, false) && NoTripleSlash(r)
    decreases |c|
  {
    if c != "" && (c[0] == '/' || c[0] == '\\') {
      DropKeepsColonRule(c);
      DropKeepsNoTriple(c);
      StripKeepsSlashShape(c[1..]);
    }
  }

  /** Dropping a first character other than `:` keeps every `//` after a `:`. */
  lemma DropKeepsColonRule(c: string)
    requires c != "" && c[0] != ':' && DoubleSlashAfterColon(c, false) && NoTripleSlash(c)
    ensures DoubleSlashAfterColon(c[1..], false)
  {
    var r := c[1..];
    forall i | 0 <= i < |r| && Doubled(r, i) ensures if i == 0 then false else r[i - 1] == ':' {
      assert Doubled(c, i + 1);
    }
  }

  lemma DropKeepsNoTriple(c: string)
    requires c != "" && NoTripleSlash(c)
    ensures NoTripleSlash(c[1..])
  {
    var r := c[1..];
    forall i | 0 <= i < |r| && Doubled(r, i) ensures !Doubled(r, i + 1) {
      assert Doubled(c, i + 1);
      if Doubled(r, i + 1) {
        assert r[i + 1] == c[i + 2] && r[i + 2] == c[i + 3];
        assert Doubled(c, i + 2);
      }
    }
  }

  /** With an empty prefix `sanitizeUrlPath` never adds anything. */
  lemma EmptyPrefixAddsNothing(o: Options, s: string)
    requires o.prefix == ""
    ensures !AddsPrefix(o, s)
  {
    assert OccursAt(s, "", 0);
  }

  /**
   * A result that would not get the prefix again is a fixed point: `sanitizeUrlPath` is
   * idempotent whenever its output has a scheme or starts with the prefix.
   */
  lemma SanitizeUrlPathIdempotent(o: Options, s: string)
    requires !AddsPrefix(o, SanitizeUrlPath(o, s))
    ensures SanitizeUrlPath(o, SanitizeUrlPath(o, s)) == SanitizeUrlPath(o, s)
  {
    var r := SanitizeUrlPath(o, s);
    CollapseStable(r, false, false);
  }

  /** So with an empty prefix it is idempotent on every input. */
  lemma EmptyPrefixIdempotent(o: Options, s: string)
    requires o.prefix == ""
    ensures SanitizeUrlPath(o, SanitizeUrlPath(o, s)) == SanitizeUrlPath(o, s)
  {
    EmptyPrefixAddsNothing(o, SanitizeUrlPath(o, s));
    SanitizeUrlPathIdempotent(o, s);
  }

  /** The "already starts with the prefix" test looks at the string before its leading "/" is removed. */
  lemma LeadingSlashRepeatsPrefix(o: Options)
    requires o.prefix == "ghost"
    ensures SanitizeUrlPath(o, "/ghost/a.png") == "ghost/ghost/a.png"
  {
    GhostAddsPrefix(o);
    GhostJoin();
    GhostSlashes();
  }

  lemma GhostAddsPrefix(o: Options)
    requires o.prefix == "ghost"
    ensures AddsPrefix(o, "/ghost/a.png")
  {
    var s := "/ghost/a.png";
    assert !OccursAt(s, "ghost", 0) by { assert s[0] == '/'; }
    assert Sanitizer.NoDoubled(s) by { assert forall i :: 0 <= i < |s| ==> !Doubled(s, i); }
    RoundTrip.NoScheme(s);
  }

  lemma GhostJoin()
    ensures Join(["ghost", "/ghost/a.png"]) == "ghost/ghost/a.png"
  {
    GhostNonEmpty();
    GhostNormalize();
  }

  lemma GhostNonEmpty()
    ensures NonEmpty(["ghost", "/ghost/a.png"]) == ["ghost", "/ghost/a.png"]
    ensures JoinWith(["ghost", "/ghost/a.png"], '/') == "ghost//ghost/a.png"
  {
    assert ["ghost", "/ghost/a.png"][1..] == ["/ghost/a.png"];
    assert ["/ghost/a.png"][1..] == [];
  }

  lemma GhostNormalize()
    ensures Normalize("ghost//ghost/a.png") == "ghost/ghost/a.png"
  {
    GhostSplit();
    GhostResolve();
    GhostRejoin();
  }

  lemma GhostSplit()
    ensures Split("ghost//ghost/a.png", false) == ["ghost", "", "ghost", "a.png"]
  {
    GhostParts();
    GhostPartsPlain();
    SplitJoin(["ghost", "", "ghost", "a.png"], false);
  }

  lemma GhostParts()
    ensures JoinWith(["ghost", "", "ghost", "a.png"], '/') == "ghost//ghost/a.png"
  {
    var xs := ["ghost", "", "ghost", "a.png"];
    assert xs[1..] == ["", "ghost", "a.png"];
    assert xs[1..][1..] == ["ghost", "a.png"];
    assert xs[1..][1..][1..] == ["a.png"];
  }

  lemma GhostPartsPlain()
    ensures forall k :: 0 <= k < 4 ==> NoSeparator(["ghost", "", "ghost", "a.png"][k], false)
  {
    assert NoSeparator("ghost", false) && NoSeparator("a.png", false);
  }

  lemma GhostResolve()
    ensures Resolve([], ["ghost", "", "ghost", "a.png"], true) == ["ghost", "ghost", "a.png"]
  {
    assert ["ghost", "", "ghost", "a.png"][1..] == ["", "ghost", "a.png"];
    assert ["", "ghost", "a.png"][1..] == ["ghost", "a.png"];
    assert ["ghost", "a.png"][1..] == ["a.png"];
    assert ["a.png"][1..] == [];
  }

  lemma GhostRejoin()
    ensures JoinWith(["ghost", "ghost", "a.png"], '/') == "ghost/ghost/a.png"
  {
    assert ["ghost", "ghost", "a.png"][1..] == ["ghost", "a.png"];
    assert ["ghost", "a.png"][1..] == ["a.png"];
  }

  lemma GhostSlashes()
    ensures StripLeadingSlashes(CollapseSlashes("ghost/ghost/a.png", false, false)) == "ghost/ghost/a.png"
  {
    var s := "ghost/ghost/a.png";
    GhostSingleSlashes();
    CollapseStable(s, false, false);
    assert s[0] == 'g';
  }

  lemma GhostSingleSlashes()
    ensures forall i :: 0 <= i < |"ghost/ghost/a.png"| ==> !Doubled("ghost/ghost/a.png", i)
  {
  }

  /** With an empty prefix, a string without `/` that does not start with `\` is kept as it is. */
  lemma NoSlashKept(o: Options, s: string)
    requires o.prefix == "" && (forall i :: 0 <= i < |s| ==> s[i] != '/') && (s == "" || s[0] != '\\')
    ensures SanitizeUrlPath(o, s) == s
  {
    EmptyPrefixAddsNothing(o, s);
    CollapseStable(s, false, false);
  }

  /** So only leading backslashes are removed: a Windows-style path keeps the ones inside it. */
  lemma InnerBackslashesKept(o: Options)
    requires o.prefix == ""
    ensures SanitizeUrlPath(o, "2025\\05\\a.png") == "2025\\05\\a.png"
  {
    NoSlashKept(o, "2025\\05\\a.png");
  }

  // ---------------------------------------------------------------- getSanitizedFileName

  /** The characters `getSanitizedFileName` keeps: `\w` (ASCII letters, digits, `_`), `@`, `.`, space and `-`. */
  predicate FileNameChar(c: char) {
    ('A' <= c <= 'Z') || ('a' <= c <= 'z') || ('0' <= c <= '9') || c == '_' || c == '@' || c == '.' || c == ' ' || c == '-'
  }

  /** `str.replace(/[^\w@. -]/g, '-')`: every other character becomes `-`, one for one. */
  function SanitizedFileName(s: string): (r: string)
    ensures |r| == |s|
    ensures forall i :: 0 <= i < |s| ==> r[i] == (if FileNameChar(s[i]) then s[i] else '-')
  {
    if s == "" then ""
    else [if FileNameChar(s[0]) then s[0] else '-'] + SanitizedFileName(s[1..])
  }

  /** The result is made of kept characters only, so sanitizing it again changes nothing. */
  lemma FileNameIdempotent(s: string)
    ensures forall i :: 0 <= i < |SanitizedFileName(s)| ==> FileNameChar(SanitizedFileName(s)[i])
    ensures SanitizedFileName(SanitizedFileName(s)) == SanitizedFileName(s)
  {
  }

  // ---------------------------------------------------------------- object paths

  /** The bucket comes after the host exactly when the host is the default one. */
  function BucketPart(o: Options): (r: seq<string>)
    ensures r == [o.bucket] <==> o.host == DefaultHost
    ensures r == [] <==> o.host != DefaultHost
  {
    if o.host == DefaultHost then [o.bucket] else []
  }

  /** `getGCSPathRelative(image)`: `join(targetDir, name)`, sanitized. */
  function RelativePath(o: Options, targetDir: string, name: string): (r: string)
    ensures r == "" || (r[0] != '/' && r[0] != '\\')
  {
    SanitizeUrlPath(o, Join([targetDir, name]))
  }

  /** `getGCSPathAbsolute(image)`: `protocol://` and `join(host, [bucket,] targetDir, name)`, sanitized. */
  function AbsolutePath(o: Options, targetDir: string, name: string): (r: string)
    ensures DoubleSlashAfterColon(r, false) && NoTripleSlash(r)
  {
    SanitizeUrlPath(o, o.protocol + "://" + Join([o.host] + BucketPart(o) + [targetDir, name]))
  }

  /** The object `exists(filename, targetDir)` looks up: `join(targetDir || '', filename)`, sanitized. */
  function ExistsKey(o: Options, filename: string, targetDir: Option<string>): (r: string)
    ensures targetDir.Some? && targetDir.value != "" ==> r == RelativePath(o, targetDir.value, filename)
  {
    var dir := if targetDir.Some? && targetDir.value != "" then targetDir.value else "";
    SanitizeUrlPath(o, Join([dir, filename]))
  }

  /** The object `delete(file)` and `read(file)` address: the file, sanitized. */
  function ObjectKey(o: Options, file: PathArg): (r: string)
    ensures r == "" || (r[0] != '/' && r[0] != '\\')
    ensures !AddsPrefix(o, ArgPath(file)) ==> r == StripLeadingSlashes(CollapseSlashes(ArgPath(file), false, false))
  {
    SanitizeUrlPathArg(o, file)
  }

  // ---------------------------------------------------------------- the paths of a prepared image

  /** The prefix as a list of segments. */
  function Lead(o: Options): seq<string> {
    if o.prefix == "" then [] else [o.prefix]
  }

  /** A prefix that is empty or one clean segment. */
  predicate PathReady(o: Options) {
    o.prefix == "" || Sanitizer.CleanSegment(o.prefix)
  }

  /** A plain protocol, a clean host and, when it is used, a clean bucket. */
  predicate UrlReady(o: Options) {
    PathReady(o) && All(o.protocol, Sanitizer.SegChar) && Sanitizer.CleanSegment(o.host)
    && (o.host == DefaultHost ==> Sanitizer.CleanSegment(o.bucket))
  }

  /** The prefix as `join` and `DropEmpty` see it. */
  lemma LeadDrop(o: Options)
    requires PathReady(o)
    ensures DropEmpty([o.prefix]) == Lead(o)
    ensures RoundTrip.EmptyOrClean([o.prefix]) && RoundTrip.CleanSegments(Lead(o))
  {
    assert [o.prefix][1..] == [];
  }

  /** The `targetDir` `getGCSImage` sets for the date directory `ds`: the prefix, then `ds`. */
  lemma TargetDirJoin(o: Options, ds: seq<string>)
    requires PathReady(o) && RoundTrip.CleanSegments(ds) && |ds| >= 1
    ensures Join([o.prefix, Dotted(ds)]) == JoinWith(Lead(o) + ds, '/')
  {
    PrefixPair(o.prefix, Dotted(ds));
    TargetDirCore(o, ds);
    LeadTail(o, ds);
  }

  lemma PrefixPair(p: string, d: string)
    ensures [p] + [d] + [] == [p, d]
  {
  }

  lemma TargetDirCore(o: Options, ds: seq<string>)
    requires PathReady(o) && RoundTrip.CleanSegments(ds)
    ensures Join([o.prefix] + [Dotted(ds)] + []) == Dotted(Lead(o) + ds + [])
  {
    LeadDrop(o);
    RoundTrip.JoinAround([o.prefix], ds, []);
    assert DropEmpty([]) == [];
  }

  lemma LeadTail(o: Options, ds: seq<string>)
    requires |ds| >= 1
    ensures Dotted(Lead(o) + ds + []) == JoinWith(Lead(o) + ds, '/')
  {
    assert Lead(o) + ds + [] == Lead(o) + ds;
  }

  /** The prefix and a clean directory make a clean list. */
  lemma LeadDirClean(o: Options, ds: seq<string>, n: string)
    requires PathReady(o) && RoundTrip.CleanSegments(ds) && Sanitizer.CleanSegment(n)
    ensures RoundTrip.CleanSegments(Lead(o) + ds) && RoundTrip.CleanSegments(Lead(o) + ds + [n])
  {
    LeadDrop(o);
    RoundTrip.CleanConcat(Lead(o), ds);
    RoundTrip.CleanSnoc(Lead(o) + ds, n);
  }

  /** A path that starts with the prefix's segment does not get the prefix again. */
  lemma LeadAddsNothing(o: Options, xs: seq<string>)
    requires |xs| >= 1
    ensures !AddsPrefix(o, JoinWith(Lead(o) + xs, '/'))
  {
    if o.prefix == "" {
      EmptyPrefixAddsNothing(o, JoinWith(Lead(o) + xs, '/'));
    } else {
      RoundTrip.JoinCons(o.prefix, xs);
      var s := JoinWith(Lead(o) + xs, '/');
      assert s[0..|o.prefix|] == o.prefix;
      assert OccursAt(s, o.prefix, 0);
    }
  }

  /** A "/"-joined path of clean segments that gets no prefix is left alone. */
  lemma SanitizeClean(o: Options, xs: seq<string>)
    requires |xs| >= 1 && RoundTrip.CleanSegments(xs) && !AddsPrefix(o, JoinWith(xs, '/'))
    ensures SanitizeUrlPath(o, JoinWith(xs, '/')) == JoinWith(xs, '/')
  {
    var j := JoinWith(xs, '/');
    Sanitizer.JoinedSegments(xs);
    Sanitizer.PathCharsStable(j);
    CollapseStable(j, false, false);
  }

  /** The `join` `getGCSPathRelative` builds for that image. */
  lemma RelativeJoin(o: Options, ds: seq<string>, n: string)
    requires PathReady(o) && RoundTrip.CleanSegments(ds) && |ds| >= 1 && Sanitizer.CleanSegment(n)
    ensures Join([Join([o.prefix, Dotted(ds)]), n]) == JoinWith(Lead(o) + ds + [n], '/')
  {
    TargetDirJoin(o, ds);
    LeadDirClean(o, ds, n);
    RoundTrip.DirNameJoin(Lead(o) + ds, n);
  }

  /** Nor does the relative path of that image get the prefix a second time. */
  lemma RelativeAddsNothing(o: Options, ds: seq<string>, n: string)
    ensures !AddsPrefix(o, JoinWith(Lead(o) + ds + [n], '/'))
  {
    assert Lead(o) + ds + [n] == Lead(o) + (ds + [n]);
    LeadAddsNothing(o, ds + [n]);
  }

  /**
   * `getGCSPathRelative` of an image saved into the date directory `ds` under the name `n`: the
   * prefix, the directory and the name, one "/" apart.
   */
  lemma RelativePathClean(o: Options, ds: seq<string>, n: string)
    requires PathReady(o) && RoundTrip.CleanSegments(ds) && |ds| >= 1 && Sanitizer.CleanSegment(n)
    ensures RelativePath(o, Join([o.prefix, Dotted(ds)]), n) == JoinWith(Lead(o) + ds + [n], '/')
  {
    RelativeJoin(o, ds, n);
    LeadDirClean(o, ds, n);
    RelativeAddsNothing(o, ds, n);
    SanitizeClean(o, Lead(o) + ds + [n]);
  }

  /** The host and, with the default host, the bucket: clean segments. */
  lemma HostClean(o: Options)
    requires UrlReady(o)
    ensures RoundTrip.CleanSegments([o.host] + BucketPart(o))
  {
    var pre := [o.host] + BucketPart(o);
    assert forall k :: 0 <= k < |pre| ==> pre[k] == o.host || pre[k] == o.bucket;
  }

  /** `join(...pre, dir, name)` for a directory that is itself the join of `mid`. */
  lemma JoinAroundDir(pre: seq<string>, mid: seq<string>, td: string, n: string)
    requires RoundTrip.CleanSegments(pre) && RoundTrip.CleanSegments(mid) && |mid| >= 1
    requires Sanitizer.CleanSegment(n) && Dotted(mid) == td
    ensures Join(pre + [td, n]) == JoinWith(pre + mid + [n], '/')
    ensures RoundTrip.CleanSegments(pre + mid + [n])
  {
    RoundTrip.JoinCleanAround(pre, mid, [n]);
    assert pre + [td] + [n] == pre + [td, n];
  }

  /** The same object spelled as the `join` `getGCSPathAbsolute` builds after the scheme. */
  lemma HostJoin(o: Options, ds: seq<string>, n: string)
    requires UrlReady(o) && RoundTrip.CleanSegments(ds) && |ds| >= 1 && Sanitizer.CleanSegment(n)
    ensures Join([o.host] + BucketPart(o) + [Join([o.prefix, Dotted(ds)]), n])
         == JoinWith([o.host] + BucketPart(o) + (Lead(o) + ds) + [n], '/')
    ensures RoundTrip.CleanSegments([o.host] + BucketPart(o) + (Lead(o) + ds) + [n])
  {
    TargetDirJoin(o, ds);
    LeadDirClean(o, ds, n);
    HostClean(o);
    JoinAroundDir([o.host] + BucketPart(o), Lead(o) + ds, Join([o.prefix, Dotted(ds)]), n);
  }

  /**
   * `getGCSPathAbsolute` of the same image: the protocol, "://", the host, the bucket when the
   * host is the default one, then the relative path's segments.
   */
  lemma AbsolutePathClean(o: Options, ds: seq<string>, n: string)
    requires UrlReady(o) && RoundTrip.CleanSegments(ds) && |ds| >= 1 && Sanitizer.CleanSegment(n)
    ensures AbsolutePath(o, Join([o.prefix, Dotted(ds)]), n)
         == o.protocol + "://" + JoinWith([o.host] + BucketPart(o) + Lead(o) + ds + [n], '/')
  {
    HostJoin(o, ds, n);
    Regroup([o.host] + BucketPart(o), Lead(o), ds, [n]);
    UrlOfSegments(o, [o.host] + BucketPart(o) + Lead(o) + ds + [n]);
  }

  lemma Regroup(a: seq<string>, b: seq<string>, c: seq<string>, d: seq<string>)
    ensures a + (b + c) + d == a + b + c + d
  {
  }

  /** A URL of clean segments comes out of `sanitizeUrlPath` unchanged. */
  lemma UrlOfSegments(o: Options, xs: seq<string>)
    requires All(o.protocol, Sanitizer.SegChar) && |xs| >= 1 && RoundTrip.CleanSegments(xs)
    ensures SanitizeUrlPath(o, o.protocol + "://" + JoinWith(xs, '/')) == o.protocol + "://" + JoinWith(xs, '/')
  {
    var j := JoinWith(xs, '/');
    Sanitizer.JoinedSegments(xs);
    RoundTrip.UrlSlashStable(o.protocol, j);
    UrlKeepsScheme(o, j);
  }

  /** A URL whose slashes are already tidy comes out of `sanitizeUrlPath` unchanged. */
  lemma UrlKeepsScheme(o: Options, j: string)
    requires All(o.protocol, Sanitizer.SegChar) && SlashStable(o.protocol + "://" + j, false)
    ensures SanitizeUrlPath(o, o.protocol + "://" + j) == o.protocol + "://" + j
  {
    var s := o.protocol + "://" + j;
    var m := |o.protocol|;
    assert s[m..m + 3] == "://";
    ContainsAt(s, "://", m);
    CollapseStable(s, false, false);
    assert s[0] == ':' || Sanitizer.SegChar(s[0]);
  }

  /** The objects `exists`, `delete` and `read` name for a prepared image are the one uploaded. */
  lemma PreparedKeyStable(o: Options, ds: seq<string>, n: string)
    requires PathReady(o) && RoundTrip.CleanSegments(ds) && |ds| >= 1 && Sanitizer.CleanSegment(n)
    ensures var td := Join([o.prefix, Dotted(ds)]);
            ExistsKey(o, n, Some(td)) == RelativePath(o, td, n)
            && ObjectKey(o, PathString(RelativePath(o, td, n))) == RelativePath(o, td, n)
  {
    RelativePathClean(o, ds, n);
    LeadDirClean(o, ds, n);
    RelativeAddsNothing(o, ds, n);
    SanitizeClean(o, Lead(o) + ds + [n]);
  }

  // ---------------------------------------------------------------- errors

  /** `GhostGCSError` carries its message with the adapter's prefix; anything else keeps its own. */
  datatype Failure = GhostGCSError(message: string) | OtherError(message: string) | TypeError(message: string)

  /** `new GhostGCSError(str)` */
  function AdapterError(str: string): (e: Failure)
    ensures e.GhostGCSError? && e.message == "Ghost GCS Adapter Error: " + str
  {
    GhostGCSError("Ghost GCS Adapter Error: " + str)
  }

  /** The `catch` of `save`: an adapter error is rethrown, any other is wrapped. */
  function Wrap(e: Failure): (r: Failure)
    ensures r.GhostGCSError?
    ensures e.GhostGCSError? ==> r == e
    ensures !e.GhostGCSError? ==> r == AdapterError(e.message)
  {
    if e.GhostGCSError? then e else AdapterError(e.message)
  }

  /** So an error is wrapped once: wrapping again changes nothing. */
  lemma WrapOnce(e: Failure)
    ensures Wrap(Wrap(e)) == Wrap(e)
  {
  }

  // ---------------------------------------------------------------- the image object

  /** The fields of Ghost's image object that the adapter reads and sets; `hashed` is "`image.hash` is set". */
  datatype ImageState = ImageState(
    name: string, ext: string, path: string, targetDir: string, basename: string,
    hashed: bool, hashstr: string, gcsPathRelative: string, gcsPathAbsolute: string)

  /** The image object Ghost passes to `save`, which the adapter completes in place. */
  class Image {
    var name: string
    var ext: string
    var path: string
    var targetDir: string
    var basename: string
    var hashed: bool
    var hashstr: string
    var gcsPathRelative: string
    var gcsPathAbsolute: string

    /** An upload as Ghost hands it over: a name, an extension and a temporary path. */
    constructor (name: string, ext: string, path: string)
      ensures State() == ImageState(name, ext, path, "", "", false, "", "", "")
    {
      this.name := name;
      this.ext := ext;
      this.path := path;
      targetDir := "";
      basename := "";
      hashed := false;
      hashstr := "";
      gcsPathRelative := "";
      gcsPathAbsolute := "";
    }

    function State(): ImageState
      reads this
    {
      ImageState(name, ext, path, targetDir, basename, hashed, hashstr, gcsPathRelative, gcsPathAbsolute)
    }
  }

  /** Random bytes are mixed into the hash, or added to the name, for a unique, non-incremental name. */
  predicate Randomized(o: Options) {
    o.unique && !o.incremental
  }

  /**
   * The image after `getGCSImageName`. With hashing on and a hash started, `hashstr` is the last
   * `hashLength` characters of the hex digest (`digest(true)` when random bytes were mixed in);
   * otherwise a randomized name gets "-" and the random hex string (six digits in the source) after
   * `basename`.
   */
  function Named(o: Options, st: ImageState, digest: bool -> string, randomHex: string): (r: ImageState)
    ensures r.(basename := st.basename, hashstr := st.hashstr) == st
    ensures o.hash && st.hashed ==> r.basename == st.basename
    ensures o.hash && st.hashed && 0 < o.hashLength <= |digest(Randomized(o))| ==>
              |r.hashstr| == o.hashLength && r.hashstr == digest(Randomized(o))[|digest(Randomized(o))| - o.hashLength..]
    ensures !(o.hash && st.hashed) ==> r.hashstr == st.hashstr
    ensures !(o.hash && st.hashed) && Randomized(o) ==> r.basename == st.basename + "-" + randomHex
    ensures !Randomized(o) ==> r.basename == st.basename
  {
    if o.hash && st.hashed then st.(hashstr := SliceFromEnd(digest(Randomized(o)), o.hashLength))
    else if Randomized(o) then st.(basename := st.basename + "-" + randomHex)
    else st
  }

  /**
   * `getGCSImageName(image)`: updates the hash string or the base name, then renders the template
   * over the image; `render` stands for `interpolate.parse`.
   */
  method ImageName(o: Options, img: Image, digest: bool -> string, randomHex: string,
                   render: (string, ImageState) -> string) returns (r: string)
    modifies img
    ensures img.State() == Named(o, old(img.State()), digest, randomHex)
    ensures r == render(o.template, img.State())
  {
    if o.hash && img.hashed {
      img.hashstr := SliceFromEnd(digest(o.unique && !o.incremental), o.hashLength);
    } else {
      if o.unique {
        if !o.incremental {
          img.basename := img.basename + "-" + randomHex;
        }
      }
    }
    r := render(o.template, img.State());
  }

  /** `targetDir || this.getTargetDir()` */
  function DirOr(targetDir: Option<string>, defaultDir: string): string {
    if targetDir.Some? && targetDir.value != "" then targetDir.value else defaultDir
  }

  /** What `getGCSImage` leaves behind: the outcome and the image's fields. */
  datatype Prep = Prep(outcome: Result<(), Failure>, state: ImageState)

  /** The image before hashing: the target directory under the prefix, the base name, the hash started. */
  function Started(o: Options, st: ImageState, targetDir: Option<string>, defaultDir: string): ImageState {
    st.(targetDir := Join([o.prefix, DirOr(targetDir, defaultDir)]), basename := BaseName(st.name, st.ext),
        hashed := o.hash, hashstr := "")
  }

  /** Both object paths of an image, from its directory and final name. */
  function WithPaths(o: Options, st: ImageState): (r: ImageState)
    ensures r.gcsPathRelative == RelativePath(o, st.targetDir, st.name)
    ensures r.gcsPathAbsolute == AbsolutePath(o, st.targetDir, st.name)
    ensures r.(gcsPathRelative := st.gcsPathRelative, gcsPathAbsolute := st.gcsPathAbsolute) == st
  {
    st.(gcsPathRelative := RelativePath(o, st.targetDir, st.name), gcsPathAbsolute := AbsolutePath(o, st.targetDir, st.name))
  }

  /**
   * `getGCSImage(image, targetDir)`. `readError` is the read-stream error while hashing, `digest`,
   * `randomHex` and `render` as for `getGCSImageName`, `uniqueName` Ghost's `getUniqueFileName`.
   */
  function Prepared(o: Options, st: ImageState, targetDir: Option<string>, defaultDir: string,
                    readError: Option<string>, digest: bool -> string, randomHex: string,
                    render: (string, ImageState) -> string,
                    uniqueName: (ImageState, string) -> Result<string, string>): (p: Prep)
    ensures p.state.targetDir == Join([o.prefix, DirOr(targetDir, defaultDir)])
    ensures p.state.path == st.path && p.state.ext == st.ext && p.state.hashed == o.hash
    ensures o.hash && readError.Some? ==> p == Prep(Err(AdapterError(readError.value)), Started(o, st, targetDir, defaultDir))
    ensures p.outcome.Ok? ==> p.state == WithPaths(o, p.state)
    ensures p.outcome.Err? && !p.outcome.error.GhostGCSError? ==> o.unique && o.incremental && p.outcome.error.OtherError?
    ensures p.outcome.Ok? && o.unique && o.incremental ==> exists u :: p.state.name == BaseName(u, "")
    ensures !o.hash ==> p.state.hashstr == ""
  {
    var s0 := Started(o, st, targetDir, defaultDir);
    if o.hash && readError.Some? then Prep(Err(AdapterError(readError.value)), s0)
    else Placed(o, s0, digest, randomHex, render, uniqueName)
  }

  /** The rest of `getGCSImage` once the hash is read: the name, the unique name, the paths. */
  function Placed(o: Options, s0: ImageState, digest: bool -> string, randomHex: string,
                  render: (string, ImageState) -> string,
                  uniqueName: (ImageState, string) -> Result<string, string>): (p: Prep)
    ensures p.outcome.Ok? ==> p.state == WithPaths(o, p.state)
    ensures p.state.targetDir == s0.targetDir && p.state.path == s0.path && p.state.ext == s0.ext && p.state.hashed == s0.hashed
  {
    var s1 := Named(o, s0, digest, randomHex);
    var s2 := s1.(name := render(o.template, s1));
    if o.unique && o.incremental then
      match uniqueName(s2, s2.targetDir)
      case Err(m) => Prep(Err(OtherError(m)), s2)
      case Ok(u) => Prep(Ok(()), WithPaths(o, s2.(name := BaseName(u, ""))))
    else Prep(Ok(()), WithPaths(o, s2))
  }

  /** The first part of `getGCSImage`, with the hash `getImageHashStr` creates before reading. */
  method Start(o: Options, img: Image, targetDir: Option<string>, defaultDir: string)
    modifies img
    ensures img.State() == Started(o, old(img.State()), targetDir, defaultDir)
  {
    img.targetDir := Join([o.prefix, DirOr(targetDir, defaultDir)]);
    img.basename := BaseName(img.name, img.ext);
    img.hashed := false;
    img.hashstr := "";
    if o.hash {
      img.hashed := true;
    }
  }

  /** The last step of `getGCSImage`: both object paths. */
  method SetPaths(o: Options, img: Image)
    modifies img
    ensures img.State() == WithPaths(o, old(img.State()))
  {
    var rel := RelativePath(o, img.targetDir, img.name);
    var abs := AbsolutePath(o, img.targetDir, img.name);
    SetPathFields(img, rel, abs);
  }

  /** Stores both object paths on the image and changes nothing else. */
  method SetPathFields(img: Image, rel: string, abs: string)
    modifies img
    ensures img.State() == old(img.State()).(gcsPathRelative := rel, gcsPathAbsolute := abs)
  {
    img.gcsPathRelative := rel;
    img.gcsPathAbsolute := abs;
  }

  /** `getGCSImage(image, targetDir)` on the image object, in the order of its promise chain. */
  method Prepare(o: Options, img: Image, targetDir: Option<string>, defaultDir: string,
                 readError: Option<string>, digest: bool -> string, randomHex: string,
                 render: (string, ImageState) -> string,
                 uniqueName: (ImageState, string) -> Result<string, string>) returns (r: Result<(), Failure>)
    modifies img
    ensures Prep(r, img.State()) == Prepared(o, old(img.State()), targetDir, defaultDir, readError, digest, randomHex, render, uniqueName)
  {
    Start(o, img, targetDir, defaultDir);
    if o.hash && readError.Some? {
      return Err(AdapterError(readError.value));
    }
    r := Place(o, img, digest, randomHex, render, uniqueName);
  }

  /** The `then` handlers of `getGCSImage`. */
  method Place(o: Options, img: Image, digest: bool -> string, randomHex: string,
               render: (string, ImageState) -> string,
               uniqueName: (ImageState, string) -> Result<string, string>) returns (r: Result<(), Failure>)
    modifies img
    ensures Prep(r, img.State()) == Placed(o, old(img.State()), digest, randomHex, render, uniqueName)
  {
    var name := ImageName(o, img, digest, randomHex, render);
    img.name := name;
    if o.unique {
      if o.incremental {
        var u := uniqueName(img.State(), img.targetDir);
        if u.Err? {
          return Err(OtherError(u.error));
        }
        img.name := BaseName(u.value, "");
      }
    }
    SetPaths(o, img);
    r := Ok(());
  }

  /** `targetDir || …` picks a given date directory. */
  lemma DirOrGiven(ds: seq<string>, defaultDir: string)
    requires RoundTrip.CleanSegments(ds) && |ds| >= 1
    ensures DirOr(Some(Dotted(ds)), defaultDir) == Dotted(ds)
  {
    Sanitizer.JoinedSegments(ds);
  }

  /**
   * Where a prepared image goes: saved into the date directory `ds` under a clean final name, its
   * relative path is the prefix, `ds` and the name; its absolute path is that after the scheme,
   * the host and (with the default host) the bucket; and `exists`, `delete` and `read` name the
   * very object the upload writes.
   */
  lemma PreparedPaths(o: Options, st: ImageState, ds: seq<string>, defaultDir: string,
                      readError: Option<string>, digest: bool -> string, randomHex: string,
                      render: (string, ImageState) -> string,
                      uniqueName: (ImageState, string) -> Result<string, string>)
    requires UrlReady(o) && RoundTrip.CleanSegments(ds) && |ds| >= 1
    requires var p := Prepared(o, st, Some(Dotted(ds)), defaultDir, readError, digest, randomHex, render, uniqueName);
             p.outcome.Ok? && Sanitizer.CleanSegment(p.state.name)
    ensures var p := Prepared(o, st, Some(Dotted(ds)), defaultDir, readError, digest, randomHex, render, uniqueName);
            p.state.gcsPathRelative == JoinWith(Lead(o) + ds + [p.state.name], '/')
            && p.state.gcsPathAbsolute == o.protocol + "://" + JoinWith([o.host] + BucketPart(o) + Lead(o) + ds + [p.state.name], '/')
            && ExistsKey(o, p.state.name, Some(p.state.targetDir)) == p.state.gcsPathRelative
            && ObjectKey(o, PathString(p.state.gcsPathRelative)) == p.state.gcsPathRelative
  {
    var p := Prepared(o, st, Some(Dotted(ds)), defaultDir, readError, digest, randomHex, render, uniqueName);
    var n := p.state.name;
    DirOrGiven(ds, defaultDir);
    assert p.state.targetDir == Join([o.prefix, Dotted(ds)]);
    RelativePathClean(o, ds, n);
    AbsolutePathClean(o, ds, n);
    PreparedKeyStable(o, ds, n);
  }

  /** `parts.join('/')` of two non-empty lists. */
  lemma {:induction false} JoinWithAppend(a: seq<string>, b: seq<string>)
    requires |a| >= 1 && |b| >= 1
    ensures JoinWith(a + b, '/') == JoinWith(a, '/') + "/" + JoinWith(b, '/')
  {
    if |a| == 1 {
      RoundTrip.JoinCons(a[0], b);
      assert a + b == [a[0]] + b;
    } else {
      assert (a + b)[1..] == a[1..] + b;
      JoinWithAppend(a[1..], b);
      RoundTrip.JoinCons(a[0], a[1..] + b);
      RoundTrip.JoinCons(a[0], a[1..]);
      assert [a[0]] + (a[1..] + b) == a + b;
      assert [a[0]] + a[1..] == a;
    }
  }

  /** A URL over `h + r` is the URL over `h`, then "/" and the join of `r`. */
  lemma UrlOver(proto: string, h: seq<string>, r: seq<string>)
    requires |h| >= 1 && |r| >= 1
    ensures proto + "://" + JoinWith(h + r, '/') == proto + "://" + JoinWith(h, '/') + "/" + JoinWith(r, '/')
  {
    JoinWithAppend(h, r);
  }

  /** The absolute path of a prepared image is its relative path under the host and bucket. */
  lemma AbsoluteOverRelative(o: Options, ds: seq<string>, n: string)
    requires UrlReady(o) && RoundTrip.CleanSegments(ds) && |ds| >= 1 && Sanitizer.CleanSegment(n)
    ensures var td := Join([o.prefix, Dotted(ds)]);
            AbsolutePath(o, td, n) == o.protocol + "://" + JoinWith([o.host] + BucketPart(o), '/') + "/" + RelativePath(o, td, n)
  {
    var h := [o.host] + BucketPart(o);
    var r := Lead(o) + ds + [n];
    RelativePathClean(o, ds, n);
    AbsolutePathClean(o, ds, n);
    Regroup3(h, Lead(o), ds, [n]);
    UrlOver(o.protocol, h, r);
  }

  lemma Regroup3(a: seq<string>, b: seq<string>, c: seq<string>, d: seq<string>)
    ensures a + b + c + d == a + (b + c + d)
  {
  }

  /** An `interpolate` that fills `{{basename}}{{ext}}` from the image. */
  ghost predicate RendersBaseName(render: (string, ImageState) -> string) {
    forall s: ImageState :: render("{{basename}}{{ext}}", s) == s.basename + s.ext
  }

  /** An `interpolate` that fills `{{hashstr}}{{ext}}` from the image. */
  ghost predicate RendersHash(render: (string, ImageState) -> string) {
    forall s: ImageState :: render("{{hashstr}}{{ext}}", s) == s.hashstr + s.ext
  }

  /**
   * With only a bucket configured, an upload is named after its base name, "-", the random hex
   * string (six digits in the source) and its extension, and nothing can fail.
   */
  lemma DefaultName(bucket: string, st: ImageState, targetDir: Option<string>, defaultDir: string,
                    readError: Option<string>, digest: bool -> string, randomHex: string,
                    render: (string, ImageState) -> string,
                    uniqueName: (ImageState, string) -> Result<string, string>)
    requires RendersBaseName(render)
    ensures var p := Prepared(Resolved(NoOptions(bucket)), st, targetDir, defaultDir, readError, digest, randomHex, render, uniqueName);
            p.outcome.Ok? && p.state.name == BaseName(st.name, st.ext) + "-" + randomHex + st.ext
  {
    var o := Resolved(NoOptions(bucket));
    var s1 := Named(o, Started(o, st, targetDir, defaultDir), digest, randomHex);
    assert s1.basename == BaseName(st.name, st.ext) + "-" + randomHex && s1.ext == st.ext;
    assert render(o.template, s1) == s1.basename + s1.ext;
  }

  /**
   * With hashing on and the default template for it, an upload that reads without error is
   * named after the last `hashLength` digits of its digest and its extension.
   */
  lemma HashName(o: Options, st: ImageState, targetDir: Option<string>, defaultDir: string,
                 digest: bool -> string, randomHex: string,
                 render: (string, ImageState) -> string,
                 uniqueName: (ImageState, string) -> Result<string, string>)
    requires o.hash && !(o.unique && o.incremental) && o.template == "{{hashstr}}{{ext}}" && RendersHash(render)
    requires 0 < o.hashLength <= |digest(Randomized(o))|
    ensures var p := Prepared(o, st, targetDir, defaultDir, None, digest, randomHex, render, uniqueName);
            var d := digest(Randomized(o));
            p.outcome.Ok? && p.state.name == d[|d| - o.hashLength..] + st.ext && |p.state.name| == o.hashLength + |st.ext|
  {
    var s1 := Named(o, Started(o, st, targetDir, defaultDir), digest, randomHex);
    assert render(o.template, s1) == s1.hashstr + s1.ext;
  }

  // ---------------------------------------------------------------- saveRaw

  /** The `TypeError` `path.join` throws for an argument that is not a string. */
  const UndefinedPath: string := "The \"path\" argument must be of type string. Received undefined"

  /** The strings of a list of `path.join` arguments, when each of them is one. */
  function Strings(args: seq<Option<string>>): (r: Option<seq<string>>)
    ensures r.Some? <==> forall k :: 0 <= k < |args| ==> args[k].Some?
    ensures r.Some? ==> |r.value| == |args| && forall k :: 0 <= k < |args| ==> r.value[k] == args[k].value
  {
    if args == [] then Some([])
    else if args[0].None? then None
    else match Strings(args[1..])
      case None => None
      case Some(rest) => Some([args[0].value] + rest)
  }

  /** `path.join(...args)` with some arguments possibly `undefined`. */
  function StrictJoin(args: seq<Option<string>>): (r: Result<string, Failure>)
    ensures r.Ok? <==> forall k :: 0 <= k < |args| ==> args[k].Some?
    ensures r.Err? ==> r.error == TypeError(UndefinedPath)
  {
    match Strings(args)
    case None => Err(TypeError(UndefinedPath))
    case Some(xs) => Ok(Join(xs))
  }

  /** Strings given as `path.join` arguments. */
  function Given(xs: seq<string>): (r: seq<Option<string>>)
    ensures |r| == |xs| && forall k :: 0 <= k < |xs| ==> r[k] == Some(xs[k])
  {
    if xs == [] then [] else [Some(xs[0])] + Given(xs[1..])
  }

  /** `getGCSPathAbsolute(image)` for an object whose `targetDir` or `name` may be `undefined`. */
  function AbsolutePathOf(o: Options, targetDir: Option<string>, name: Option<string>): (r: Result<string, Failure>)
    ensures targetDir.Some? && name.Some? ==> r == Ok(AbsolutePath(o, targetDir.value, name.value))
    ensures targetDir.None? || name.None? ==> r == Err(TypeError(UndefinedPath))
  {
    var args := Given([o.host] + BucketPart(o)) + [targetDir, name];
    AbsoluteArgs(o, targetDir, name);
    match StrictJoin(args)
    case Err(e) => Err(e)
    case Ok(j) => Ok(SanitizeUrlPath(o, o.protocol + "://" + j))
  }

  /** The arguments `getGCSPathAbsolute` hands `path.join`, and which of them are strings. */
  lemma AbsoluteArgs(o: Options, targetDir: Option<string>, name: Option<string>)
    ensures var args := Given([o.host] + BucketPart(o)) + [targetDir, name];
            (targetDir.Some? && name.Some? ==> Strings(args) == Some([o.host] + BucketPart(o) + [targetDir.value, name.value]))
            && (targetDir.None? || name.None? ==> Strings(args).None?)
  {
    var args := Given([o.host] + BucketPart(o)) + [targetDir, name];
    assert args[|args| - 2] == targetDir && args[|args| - 1] == name;
    if targetDir.Some? && name.Some? {
      var xs := [o.host] + BucketPart(o) + [targetDir.value, name.value];
      assert Strings(args).value == xs;
    }
  }

  /**
   * `saveRaw(buffer, filePath)` as written: it asks `getGCSPathAbsolute` for `{ gcsPathRelative }`,
   * an object without `targetDir` or `name`, so `path.join` throws before `store` writes anything.
   */
  function SaveRawAsWritten(o: Options, filePath: string, store: string -> Option<string>): (r: Result<string, Failure>)
    ensures r.Ok? ==> store(SanitizeUrlPath(o, filePath)).None?
  {
    var gcsPathRelative := SanitizeUrlPath(o, filePath);
    match AbsolutePathOf(o, None, None)
    case Err(e) => Err(e)
    case Ok(gcsPathAbsolute) =>
      match store(gcsPathRelative)
      case Some(m) => Err(AdapterError(m))
      case None => Ok(gcsPathAbsolute)
  }

  /** Every call of that `saveRaw` fails with the `TypeError`, whatever the path and the store. */
  lemma SaveRawAlwaysThrows(o: Options, filePath: string, store: string -> Option<string>)
    ensures SaveRawAsWritten(o, filePath, store) == Err(TypeError(UndefinedPath))
  {
    var r := AbsolutePathOf(o, None, None);
    assert r == Err(TypeError(UndefinedPath));
  }

  /**
   * `saveRaw(buffer, filePath)` as evidently intended: the buffer stored under the sanitized
   * path, answered with that path's absolute URL under the host and bucket.
   */
  function SaveRaw(o: Options, filePath: string, store: string -> Option<string>): (r: Result<string, Failure>)
    ensures r.Ok? <==> store(SanitizeUrlPath(o, filePath)).None?
    ensures r.Err? ==> r.error == AdapterError(store(SanitizeUrlPath(o, filePath)).value)
  {
    var gcsPathRelative := SanitizeUrlPath(o, filePath);
    var gcsPathAbsolute := SanitizeUrlPath(o, o.protocol + "://" + Join([o.host] + BucketPart(o) + [gcsPathRelative]));
    match store(gcsPathRelative)
    case Some(m) => Err(AdapterError(m))
    case None => Ok(gcsPathAbsolute)
  }

  /** `join(...pre, p)` for a path `p` made of the clean segments `mid`. */
  lemma JoinUnder(pre: seq<string>, mid: seq<string>)
    requires RoundTrip.CleanSegments(pre) && RoundTrip.CleanSegments(mid) && |mid| >= 1
    ensures Join(pre + [JoinWith(mid, '/')]) == JoinWith(pre + mid, '/')
  {
    var e: seq<string> := [];
    RoundTrip.JoinAround(pre, mid, e);
    assert DropEmpty(pre) == pre;
    assert DropEmpty(e) == [];
    Sanitizer.JoinedSegments(mid);
    assert pre + [Dotted(mid)] + e == pre + [JoinWith(mid, '/')];
    assert pre + mid + e == pre + mid;
  }

  /**
   * Saving raw bytes at a prepared image's relative path stores them under that path and answers
   * the same absolute URL `save` answers for the image.
   */
  lemma SaveRawMatchesSave(o: Options, ds: seq<string>, n: string, store: string -> Option<string>)
    requires UrlReady(o) && RoundTrip.CleanSegments(ds) && |ds| >= 1 && Sanitizer.CleanSegment(n)
    requires store(RelativePath(o, Join([o.prefix, Dotted(ds)]), n)).None?
    ensures var td := Join([o.prefix, Dotted(ds)]);
            SanitizeUrlPath(o, RelativePath(o, td, n)) == RelativePath(o, td, n)
            && SaveRaw(o, RelativePath(o, td, n), store) == Ok(AbsolutePath(o, td, n))
  {
    var td := Join([o.prefix, Dotted(ds)]);
    var mid := Lead(o) + ds + [n];
    var h := [o.host] + BucketPart(o);
    RelativePathClean(o, ds, n);
    PreparedKeyStable(o, ds, n);
    LeadDirClean(o, ds, n);
    HostClean(o);
    JoinUnder(h, mid);
    RoundTrip.CleanConcat(h, mid);
    Regroup3(h, Lead(o), ds, [n]);
    UrlOfSegments(o, h + mid);
    AbsolutePathClean(o, ds, n);
  }

  /** `save` after `getGCSImage`: upload to the relative path, answer the absolute one, wrap errors. */
  function SaveOutcome(p: Prep, upload: string -> Option<string>): (r: Result<string, Failure>)
    ensures r.Err? ==> r.error.GhostGCSError?
    ensures r.Ok? <==> p.outcome.Ok? && upload(p.state.gcsPathRelative).None?
    ensures r.Ok? ==> r.value == p.state.gcsPathAbsolute
    ensures p.outcome.Err? ==> r == Err(Wrap(p.outcome.error))
    ensures p.outcome.Ok? && upload(p.state.gcsPathRelative).Some? ==>
              r == Err(AdapterError(upload(p.state.gcsPathRelative).value))
  {
    if p.outcome.Err? then Err(Wrap(p.outcome.error))
    else match upload(p.state.gcsPathRelative)
      case Some(m) => Err(AdapterError(m))
      case None => Ok(p.state.gcsPathAbsolute)
  }

  /**
   * `save(image, targetDir)`: prepares the image, streams it to `gcsPathRelative` (`upload` gives
   * the read or write stream's error) and answers `gcsPathAbsolute`.
   */
  method Save(o: Options, img: Image, targetDir: Option<string>, defaultDir: string,
              readError: Option<string>, digest: bool -> string, randomHex: string,
              render: (string, ImageState) -> string,
              uniqueName: (ImageState, string) -> Result<string, string>,
              upload: string -> Option<string>) returns (r: Result<string, Failure>)
    modifies img
    ensures var p := Prepared(o, old(img.State()), targetDir, defaultDir, readError, digest, randomHex, render, uniqueName);
            img.State() == p.state && r == SaveOutcome(p, upload)
  {
    var prepared := Prepare(o, img, targetDir, defaultDir, readError, digest, randomHex, render, uniqueName);
    if prepared.Err? {
      return Err(Wrap(prepared.error));
    }
    var err := upload(img.gcsPathRelative);
    if err.Some? {
      return Err(AdapterError(err.value));
    }
    r := Ok(img.gcsPathAbsolute);
  }

  // ---------------------------------------------------------------- exists, delete, read

  /** `exists(filename, targetDir)`: `lookup` answers for the object; its errors are not wrapped. */
  method Exists(o: Options, filename: string, targetDir: Option<string>,
                lookup: string -> Result<bool, string>) returns (r: Result<bool, Failure>)
    ensures lookup(ExistsKey(o, filename, targetDir)).Ok? ==> r == Ok(lookup(ExistsKey(o, filename, targetDir)).value)
    ensures lookup(ExistsKey(o, filename, targetDir)).Err? ==> r == Err(OtherError(lookup(ExistsKey(o, filename, targetDir)).error))
  {
    var filepath := SanitizeUrlPath(o, Join([if targetDir.Some? && targetDir.value != "" then targetDir.value else "", filename]));
    var res := lookup(filepath);
    if res.Err? {
      return Err(OtherError(res.error));
    }
    r := Ok(res.value);
  }

  /** `delete(file)`: `remove` deletes the object; every error is wrapped, a missing object too. */
  method Delete(o: Options, file: PathArg, remove: string -> Option<string>) returns (r: Result<(), Failure>)
    ensures r.Ok? <==> remove(ObjectKey(o, file)).None?
    ensures r.Err? ==> r.error == AdapterError(remove(ObjectKey(o, file)).value)
  {
    var err := remove(ObjectKey(o, file));
    if err.Some? {
      return Err(AdapterError(err.value));
    }
    r := Ok(());
  }

  /** `Buffer.concat(chunks)` */
  function Concat(chunks: seq<seq<bv8>>): (r: seq<bv8>)
    ensures chunks == [] ==> r == []
    ensures |chunks| == 1 ==> r == chunks[0]
  {
    if chunks == [] then [] else chunks[0] + Concat(chunks[1..])
  }

  /** Concatenating a list of chunks is concatenating its parts. */
  lemma {:induction false} ConcatAppend(a: seq<seq<bv8>>, b: seq<seq<bv8>>)
    ensures Concat(a + b) == Concat(a) + Concat(b)
  {
    if a == [] {
      assert a + b == b;
    } else {
      assert (a + b)[1..] == a[1..] + b;
      ConcatAppend(a[1..], b);
    }
  }

  /** The `data` and `end` handlers of `read`: each chunk is pushed in order, then concatenated. */
  method Collect(chunks: seq<seq<bv8>>) returns (buf: seq<bv8>)
    ensures buf == Concat(chunks)
  {
    var res: seq<seq<bv8>> := [];
    var i := 0;
    while i < |chunks|
      invariant 0 <= i <= |chunks| && res == chunks[..i]
    {
      res := res + [chunks[i]];
      i := i + 1;
    }
    assert res == chunks;
    buf := Concat(res);
  }

  /** `read(file)`: the chunks `stream` delivers for the object, concatenated; a stream error is wrapped. */
  method Read(o: Options, file: PathArg, stream: string -> Result<seq<seq<bv8>>, string>) returns (r: Result<seq<bv8>, Failure>)
    ensures stream(ObjectKey(o, file)).Err? ==> r == Err(AdapterError(stream(ObjectKey(o, file)).error))
    ensures stream(ObjectKey(o, file)).Ok? ==> r == Ok(Concat(stream(ObjectKey(o, file)).value))
  {
    var got := stream(ObjectKey(o, file));
    if got.Err? {
      return Err(AdapterError(got.error));
    }
    var buf := Collect(got.value);
    r := Ok(buf);
  }
}
