/**
 * Round trips of the current adapter (dist/cjs/lib): `urlToPath` of a URL that `serve()`
 * returned gives back the object name the file is stored under, for absolute URLs and for
 * passthrough paths, provided the path segments are plain.
 */
module RoundTrip {
  import opened Wrappers
  import opened Text
  import opened NodePath
  import opened Constants
  import opened Sanitizer
  import opened WebUrl
  import opened Records
  import opened GcsOptions
  import opened GcsFile
  import opened GcsAdapter

  // ---------------------------------------------------------------- segments

  /** Not a character that ends the path of a URL. */
  predicate InPath(c: char) {
    !EndsPath(c)
  }

  /** A segment that survives URL parsing and `dir` splitting: non-empty, no separator, no `?` or `#`. */
  predicate UrlSegment(s: string) {
    s != "" && NoSeparator(s, true) && All(s, InPath)
  }

  predicate UrlSegments(xs: seq<string>) {
    forall k :: 0 <= k < |xs| ==> UrlSegment(xs[k])
  }

  predicate CleanSegments(xs: seq<string>) {
    forall k :: 0 <= k < |xs| ==> CleanSegment(xs[k])
  }

  /** Every segment is empty or clean. */
  predicate EmptyOrClean(xs: seq<string>) {
    forall k :: 0 <= k < |xs| ==> xs[k] == "" || CleanSegment(xs[k])
  }

  lemma CleanUrl(s: string)
    requires CleanSegment(s)
    ensures UrlSegment(s) && NoSeparator(s, false)
  {
  }

  lemma CleanUrls(xs: seq<string>)
    requires CleanSegments(xs)
    ensures UrlSegments(xs)
  {
    forall k | 0 <= k < |xs| ensures UrlSegment(xs[k]) {
      CleanUrl(xs[k]);
    }
  }

  lemma CleanSnoc(xs: seq<string>, n: string)
    requires CleanSegments(xs) && CleanSegment(n)
    ensures CleanSegments(xs + [n])
  {
    var ys := xs + [n];
    forall k | 0 <= k < |ys| ensures CleanSegment(ys[k]) {
      if k < |xs| { assert ys[k] == xs[k]; } else { assert ys[k] == n; }
    }
  }

  /** The segments of `absolute()` between the host and the file's directory. */
  function BucketSeg(o: Options): seq<string> {
    if o.addBucketToURL then [o.bucket] else []
  }

  function PrefixSeg(o: Options): seq<string> {
    if PrefixShown(o) then [o.prefix] else []
  }

  // ---------------------------------------------------------------- parsing a URL back

  /**
   * The file object built from a rooted path of URL segments: its `dir` is the stripped segments
   * before the last one, and its `base` is the last one.
   */
  lemma ParsedOf(a: Adapter, init: seq<string>, n: string, fromUrl: bool, targetDir: string)
    requires UrlSegments(init) && UrlSegment(n)
    ensures var st := Completed(ParsedState("/" + JoinWith(init + [n], '/')), a, None, fromUrl, targetDir);
            st.dir == Some(Join(StripDir(a, init, fromUrl))) && st.base == n
  {
    var xs := init + [n];
    forall k | 0 <= k < |xs| ensures xs[k] != "" && NoSeparator(xs[k], false) {
      if k < |init| { assert xs[k] == init[k] && UrlSegment(init[k]); } else { assert xs[k] == n; }
    }
    ParseAbsolute(xs);
    assert xs[..|xs| - 1] == init;
    SplitPathJoin(init);
  }

  /** The pathname `fromURL` reads from `scheme://host/` followed by "/"-joined URL segments. */
  lemma PathnameOfUrl(scheme: string, host: string, xs: seq<string>, cwd: string)
    requires NoChar(scheme, '/') && forall i :: 0 <= i < |host| ==> !EndsAuthority(host[i])
    requires UrlSegments(xs)
    ensures var u := scheme + "://" + host + "/" + JoinWith(xs, '/');
            Contains(u, "://") && UrlOrPathPathname(u, cwd) == "/" + JoinWith(xs, '/')
  {
    var path := JoinWith(xs, '/');
    var u := scheme + "://" + host + "/" + path;
    assert u == scheme + "://" + (host + "/" + path);
    SchemeSeparator(scheme, host + "/" + path);
    assert Contains(u, "://");
    forall k | 0 <= k < |xs| ensures All(xs[k], InPath) {
      assert UrlSegment(xs[k]);
    }
    JoinAll(xs, '/', InPath);
    assert forall i :: 0 <= i < |path| ==> !EndsPath(path[i]) by {
      forall i | 0 <= i < |path| ensures !EndsPath(path[i]) { assert InPath(path[i]); }
    }
    UrlPathnameOf(scheme, host, path);
  }

  /** The pathname `fromURL` reads from a rooted path of clean segments: the path itself. */
  lemma PathnameOfPath(xs: seq<string>, cwd: string)
    requires |xs| >= 1 && CleanSegments(xs)
    ensures var u := "/" + JoinWith(xs, '/');
            !Contains(u, "://") && UrlOrPathPathname(u, cwd) == u
  {
    var j := JoinWith(xs, '/');
    JoinedSegments(xs);
    RootedStable(j);
    NoScheme("/" + j);
    forall k | 0 <= k < |xs| ensures xs[k] != "" && xs[k] != "." && xs[k] != ".." && NoSeparator(xs[k], false) {
      CleanUrl(xs[k]);
    }
    FilePathnameOf(cwd, xs);
  }

  /** `urlToPath` of `scheme://host/…/n`: the object name of `n` in the stripped directory. */
  lemma UrlKeyOfUrl(a: Adapter, scheme: string, host: string, init: seq<string>, n: string, cwd: string, targetDir: string)
    requires NoChar(scheme, '/') && forall i :: 0 <= i < |host| ==> !EndsAuthority(host[i])
    requires UrlSegments(init) && UrlSegment(n)
    ensures UrlKey(a, scheme + "://" + host + "/" + JoinWith(init + [n], '/'), cwd, targetDir)
         == Ok(RelativeKey(a.opts, Join(StripDir(a, init, true)), n))
  {
    var xs := init + [n];
    forall k | 0 <= k < |xs| ensures UrlSegment(xs[k]) {
      if k < |init| { assert xs[k] == init[k]; } else { assert xs[k] == n; }
    }
    PathnameOfUrl(scheme, host, xs, cwd);
    ParsedOf(a, init, n, true, targetDir);
  }

  /** A string without `//` holds no "://". */
  lemma NoScheme(s: string)
    requires NoDoubled(s)
    ensures !Contains(s, "://")
  {
    forall j | 0 <= j && j + 3 <= |s| ensures !OccursAt(s, "://", j) {
      assert !Doubled(s, j + 1);
      assert s[j..j + 3][1] == s[j + 1] && s[j..j + 3][2] == s[j + 2];
    }
  }

  /** `urlToPath` of a rooted serve path `/…/n` of clean segments. */
  lemma UrlKeyOfPath(a: Adapter, init: seq<string>, n: string, cwd: string, targetDir: string)
    requires CleanSegments(init) && CleanSegment(n)
    ensures UrlKey(a, "/" + JoinWith(init + [n], '/'), cwd, targetDir)
         == Ok(RelativeKey(a.opts, Join(StripDir(a, init, false)), n))
  {
    CleanSnoc(init, n);
    PathnameOfPath(init + [n], cwd);
    CleanUrls(init);
    CleanUrl(n);
    ParsedOf(a, init, n, false, targetDir);
  }

  // ---------------------------------------------------------------- stripping the leading segments

  /** A serve path loses exactly its content path, type and shown prefix. */
  lemma StripServe(a: Adapter, ds: seq<string>, fromUrl: bool)
    ensures StripDir(a, [a.contentPath, a.opts.contentType] + PrefixSeg(a.opts) + ds, fromUrl) == ds
  {
    var segs := [a.contentPath, a.opts.contentType] + PrefixSeg(a.opts) + ds;
    assert segs[1..] == [a.opts.contentType] + PrefixSeg(a.opts) + ds;
    assert segs[2..] == PrefixSeg(a.opts) + ds;
    assert ShiftIf(segs[2..], PrefixShown(a.opts), a.opts.prefix) == ds;
  }

  /** The adapter's leading URL segments all differ from the content path. */
  predicate Distinct(a: Adapter) {
    (a.opts.addBucketToURL ==> a.opts.bucket != a.contentPath)
    && (PrefixShown(a.opts) ==> a.opts.prefix != a.contentPath)
    && a.opts.contentType != a.contentPath
  }

  /** An absolute URL's path loses exactly its bucket, shown prefix and type. */
  lemma StripAbsolute(a: Adapter, ds: seq<string>)
    requires Distinct(a)
    ensures StripDir(a, BucketSeg(a.opts) + PrefixSeg(a.opts) + [a.opts.contentType] + ds, true) == ds
  {
    var o := a.opts;
    var rest := [o.contentType] + ds;
    var p := PrefixSeg(o) + rest;
    var segs := BucketSeg(o) + p;
    assert segs == BucketSeg(o) + PrefixSeg(o) + [o.contentType] + ds;
    assert segs[0] != a.contentPath;
    assert ShiftIf(segs, o.addBucketToURL, o.bucket) == p by {
      if o.addBucketToURL { assert segs[1..] == p; } else { assert segs == p; }
    }
    assert ShiftIf(p, PrefixShown(o), o.prefix) == rest by {
      if PrefixShown(o) { assert p[1..] == rest; } else { assert p == rest; }
    }
    assert rest[1..] == ds;
  }

  // ---------------------------------------------------------------- join

  lemma CleanTidy(s: string)
    requires CleanSegment(s)
    ensures Tidy(s) && Split(s, false) == [s]
  {
    CleanUrl(s);
    SplitJoin([s], false);
  }

  /** Splitting and keeping empty-or-clean arguments drops the empty ones. */
  lemma {:induction false} KeepSplitClean(xs: seq<string>)
    requires EmptyOrClean(xs)
    ensures Keep(SplitAll(xs)) == DropEmpty(xs)
  {
    if xs != [] {
      KeepSplitClean(xs[1..]);
      KeepConcat(Split(xs[0], false), SplitAll(xs[1..]));
      if xs[0] == "" {
        assert Keep(Split(xs[0], false)) == [];
      } else {
        CleanTidy(xs[0]);
        assert Keep([xs[0]]) == [xs[0]];
      }
    }
  }

  /** A joined directory of clean segments is tidy and splits back into them. */
  lemma DottedTidy(ds: seq<string>)
    requires CleanSegments(ds)
    ensures Tidy(Dotted(ds)) && Keep(Split(Dotted(ds), false)) == ds
  {
    if ds == [] {
      SplitJoin(["."], false);
    } else {
      forall k | 0 <= k < |ds| ensures NoSeparator(ds[k], false) { CleanUrl(ds[k]); }
      SplitJoin(ds, false);
    }
    forall k | 0 <= k < |ds| ensures ds[k] != "" && ds[k] != "." && NoSeparator(ds[k], false) { CleanUrl(ds[k]); }
    SplitDotted(ds);
  }

  /** `join` of clean segments around a joined directory joins all of them with single "/"s. */
  lemma JoinAround(pre: seq<string>, ds: seq<string>, post: seq<string>)
    requires EmptyOrClean(pre) && CleanSegments(ds) && EmptyOrClean(post)
    ensures Join(pre + [Dotted(ds)] + post) == Dotted(DropEmpty(pre) + ds + DropEmpty(post))
  {
    var d := Dotted(ds);
    var args := pre + [d] + post;
    DottedTidy(ds);
    ArgsTidy(pre, d, post);
    JoinTidy(args);
    KeepSplitAround(pre, d, post);
    KeepSplitClean(pre);
    KeepSplitClean(post);
  }

  lemma ArgsTidy(pre: seq<string>, d: string, post: seq<string>)
    requires EmptyOrClean(pre) && Tidy(d) && EmptyOrClean(post)
    ensures var args := pre + [d] + post; forall k :: 0 <= k < |args| ==> args[k] == "" || Tidy(args[k])
  {
    var args := pre + [d] + post;
    forall k | 0 <= k < |args| ensures args[k] == "" || Tidy(args[k]) {
      if k < |pre| {
        assert args[k] == pre[k];
        if pre[k] != "" { CleanTidy(pre[k]); }
      } else if k > |pre| {
        assert args[k] == post[k - |pre| - 1];
        if post[k - |pre| - 1] != "" { CleanTidy(post[k - |pre| - 1]); }
      }
    }
  }

  lemma KeepSplitAround(pre: seq<string>, d: string, post: seq<string>)
    ensures Keep(SplitAll(pre + [d] + post)) == Keep(SplitAll(pre)) + Keep(Split(d, false)) + Keep(SplitAll(post))
  {
    SplitAllConcat(pre + [d], post);
    SplitAllConcat(pre, [d]);
    assert SplitAll([d]) == Split(d, false) by {
      assert [d][1..] == [];
      assert Split(d, false) + [] == Split(d, false);
    }
    var a, b, c := SplitAll(pre), Split(d, false), SplitAll(post);
    assert SplitAll(pre + [d] + post) == a + b + c;
    KeepConcat(a + b, c);
    KeepConcat(a, b);
  }

  /** `join` of clean directory segments is their "/"-join, or "." for none. */
  lemma JoinClean(ds: seq<string>)
    requires CleanSegments(ds)
    ensures Join(ds) == Dotted(ds)
  {
    forall k | 0 <= k < |ds| ensures Tidy(ds[k]) { CleanTidy(ds[k]); }
    JoinTidy(ds);
    KeepSplitClean(ds);
  }

  // ---------------------------------------------------------------- the URLs serve() builds

  /** Every option that takes part in `absolute()` is a clean segment (the protocol has segment characters). */
  predicate UrlReady(o: Options) {
    All(o.protocol, SegChar) && CleanSegment(o.host) && CleanSegment(o.contentType)
    && (o.addBucketToURL ==> CleanSegment(o.bucket)) && (PrefixShown(o) ==> CleanSegment(o.prefix))
  }

  /** Every option that takes part in `passthrough()` is a clean segment. */
  predicate ServeReady(a: Adapter) {
    CleanSegment(a.contentPath) && CleanSegment(a.opts.contentType)
    && (PrefixShown(a.opts) ==> CleanSegment(a.opts.prefix))
  }

  /** The path of `absolute()` after the host, up to the file's directory. */
  function AbsoluteSegments(o: Options, ds: seq<string>): seq<string> {
    BucketSeg(o) + PrefixSeg(o) + [o.contentType] + ds
  }

  /** The path of `passthrough()` up to the file's directory. */
  function ServePathSegments(a: Adapter, ds: seq<string>): seq<string> {
    [a.contentPath, a.opts.contentType] + PrefixSeg(a.opts) + ds
  }

  /** `scheme://` followed by a "/"-joined path without `//` is left alone by `sanitize`. */
  lemma UrlStable(proto: string, j: string, deburr: bool, lowercase: bool)
    requires All(proto, SegChar) && j != "" && PathChars(j) && NoDoubled(j) && j[0] != '/'
    ensures Sanitize(proto + "://" + j, deburr, lowercase) == proto + "://" + j
  {
    var s := proto + "://" + j;
    var m := |proto|;
    assert forall i :: 0 <= i < |s| ==> s[i] == (if i < m then proto[i] else if i == m then ':' else if i <= m + 2 then '/' else j[i - m - 3]);
    forall i | 0 <= i < |s| ensures Stable(s[i]) {
      if i < m {
        SegCharStable(proto[i]);
      } else if i > m + 2 && j[i - m - 3] != '/' {
        SegCharStable(j[i - m - 3]);
      }
    }
    UrlSlashStable(proto, j);
    SanitizeStable(s, deburr, lowercase);
  }

  /** In `scheme://` followed by a "/"-joined path without `//`, the only `//` is the scheme's. */
  lemma UrlSlashStable(proto: string, j: string)
    requires All(proto, SegChar) && j != "" && PathChars(j) && NoDoubled(j) && j[0] != '/'
    ensures SlashStable(proto + "://" + j, false)
  {
    var s := proto + "://" + j;
    var m := |proto|;
    assert forall i :: 0 <= i < |s| ==> s[i] == (if i < m then proto[i] else if i == m then ':' else if i <= m + 2 then '/' else j[i - m - 3]);
    forall i | 0 <= i < |s| && i != m + 1 ensures !Doubled(s, i) {
      if i < m {
        SegCharStable(proto[i]);
      } else if i > m + 2 {
        assert !Doubled(j, i - m - 3);
      }
    }
    forall i | 0 <= i < |s| ensures s[i] != '\\' {
      if i < m {
        SegCharStable(proto[i]);
      } else if i > m + 2 && j[i - m - 3] != '/' {
        SegCharStable(j[i - m - 3]);
      }
    }
  }

  /** `join(dir, base)` of a joined directory of clean segments and a clean name. */
  lemma DirNameJoin(ps: seq<string>, n: string)
    requires |ps| >= 1 && CleanSegments(ps) && CleanSegment(n)
    ensures Join([JoinWith(ps, '/'), n]) == JoinWith(ps + [n], '/')
  {
    PairAsAround(ps, n);
    DirNameCore(ps, n);
    SnocAsAround(ps, n);
  }

  lemma DirNameCore(ps: seq<string>, n: string)
    requires CleanSegments(ps) && CleanSegment(n)
    ensures Join([] + [Dotted(ps)] + [n]) == JoinWith([] + ps + [n], '/')
  {
    JoinAroundClean([], ps, [n]);
  }

  lemma SnocAsAround(ps: seq<string>, n: string)
    ensures [] + ps + [n] == ps + [n]
  {
  }

  lemma PairAsAround(ps: seq<string>, n: string)
    requires |ps| >= 1
    ensures [JoinWith(ps, '/'), n] == [] + [Dotted(ps)] + [n]
  {
  }

  /** The join of `JoinCleanAround`, without the cleanliness of the result. */
  lemma JoinAroundClean(pre: seq<string>, ds: seq<string>, post: seq<string>)
    requires CleanSegments(pre) && CleanSegments(ds) && CleanSegments(post) && |post| >= 1
    ensures Join(pre + [Dotted(ds)] + post) == JoinWith(pre + ds + post, '/')
  {
    JoinCleanAround(pre, ds, post);
  }

  /** Concatenated clean segment lists are clean. */
  lemma CleanConcat(xs: seq<string>, ys: seq<string>)
    requires CleanSegments(xs) && CleanSegments(ys)
    ensures CleanSegments(xs + ys)
  {
    var zs := xs + ys;
    forall k | 0 <= k < |zs| ensures CleanSegment(zs[k]) {
      if k < |xs| { assert zs[k] == xs[k]; } else { assert zs[k] == ys[k - |xs|]; }
    }
  }

  /** `join` of clean segments around a clean directory, with at least one segment after it. */
  lemma JoinCleanAround(pre: seq<string>, ds: seq<string>, post: seq<string>)
    requires CleanSegments(pre) && CleanSegments(ds) && CleanSegments(post) && |post| >= 1
    ensures Join(pre + [Dotted(ds)] + post) == JoinWith(pre + ds + post, '/')
    ensures CleanSegments(pre + ds + post)
  {
    JoinAround(pre, ds, post);
    assert DropEmpty(pre) == pre && DropEmpty(post) == post;
    CleanConcat(pre, ds);
    CleanConcat(pre + ds, post);
  }

  /** A "/"-joined path of clean segments is its own `sanitize`. */
  lemma SanitizedRelative(o: Options, xs: seq<string>)
    requires CleanSegments(xs)
    ensures Sanitized(o, JoinWith(xs, '/')) == JoinWith(xs, '/')
  {
    SanitizeSegments(xs, false, DeburrOn(o), o.lowercase);
    assert "" + JoinWith(xs, '/') == JoinWith(xs, '/');
  }

  lemma SanitizedRooted(o: Options, xs: seq<string>)
    requires CleanSegments(xs)
    ensures Sanitized(o, "/" + JoinWith(xs, '/')) == "/" + JoinWith(xs, '/')
  {
    SanitizeSegments(xs, true, DeburrOn(o), o.lowercase);
  }

  lemma SanitizedUrl(o: Options, xs: seq<string>)
    requires All(o.protocol, SegChar) && CleanSegments(xs) && |xs| >= 1
    ensures Sanitized(o, o.protocol + "://" + JoinWith(xs, '/')) == o.protocol + "://" + JoinWith(xs, '/')
  {
    JoinedSegments(xs);
    UrlStable(o.protocol, JoinWith(xs, '/'), DeburrOn(o), o.lowercase);
  }

  /** The absolute URL of a file in a clean directory, written out. */
  lemma AbsoluteOf(o: Options, ds: seq<string>, n: string)
    requires UrlReady(o) && CleanSegments(ds) && CleanSegment(n)
    ensures AbsoluteUrl(o, Dotted(ds), n) == o.protocol + "://" + o.host + "/" + JoinWith(AbsoluteSegments(o, ds) + [n], '/')
  {
    var rest := AbsoluteSegments(o, ds) + [n];
    var xs := [o.host] + rest;
    AbsoluteJoin(o, ds, n);
    SanitizedUrl(o, xs);
    JoinCons(o.host, rest);
    UrlText(o.protocol, o.host, JoinWith(rest, '/'));
  }

  lemma UrlText(p: string, h: string, j: string)
    ensures p + "://" + (h + "/" + j) == p + "://" + h + "/" + j
  {
  }

  /** The `join` inside `absolute()`, for clean segments. */
  lemma AbsoluteJoin(o: Options, ds: seq<string>, n: string)
    requires UrlReady(o) && CleanSegments(ds) && CleanSegment(n)
    ensures Join([o.host] + UrlTail(o, Dotted(ds), n)) == JoinWith([o.host] + (AbsoluteSegments(o, ds) + [n]), '/')
    ensures CleanSegments([o.host] + (AbsoluteSegments(o, ds) + [n]))
  {
    var pre := [o.host] + BucketSeg(o) + PrefixSeg(o) + [o.contentType];
    UrlTailSplit(o, Dotted(ds), n);
    AbsolutePrefixClean(o);
    JoinCleanAround(pre, ds, [n]);
    AbsoluteRegroup(o, ds, n);
  }

  lemma UrlTailSplit(o: Options, d: string, n: string)
    ensures [o.host] + UrlTail(o, d, n) == ([o.host] + BucketSeg(o) + PrefixSeg(o) + [o.contentType]) + [d] + [n]
  {
  }

  lemma AbsoluteRegroup(o: Options, ds: seq<string>, n: string)
    ensures ([o.host] + BucketSeg(o) + PrefixSeg(o) + [o.contentType]) + ds + [n] == [o.host] + (AbsoluteSegments(o, ds) + [n])
  {
  }

  lemma AbsolutePrefixClean(o: Options)
    requires UrlReady(o)
    ensures CleanSegments([o.host] + BucketSeg(o) + PrefixSeg(o) + [o.contentType])
  {
    assert CleanSegments([o.host]) && CleanSegments(BucketSeg(o)) && CleanSegments(PrefixSeg(o)) && CleanSegments([o.contentType]);
    CleanConcat([o.host], BucketSeg(o));
    CleanConcat([o.host] + BucketSeg(o), PrefixSeg(o));
    CleanConcat([o.host] + BucketSeg(o) + PrefixSeg(o), [o.contentType]);
  }

  lemma JoinCons(h: string, rest: seq<string>)
    requires |rest| >= 1
    ensures JoinWith([h] + rest, '/') == h + "/" + JoinWith(rest, '/')
  {
    assert ([h] + rest)[1..] == rest;
  }

  /** The passthrough path of a file in a clean directory, written out. */
  lemma PassthroughOf(a: Adapter, ds: seq<string>, n: string)
    requires ServeReady(a) && CleanSegments(ds) && CleanSegment(n)
    ensures PassthroughUrl(a, Dotted(ds), n) == "/" + JoinWith(ServePathSegments(a, ds) + [n], '/')
  {
    var pre := [a.contentPath, a.opts.contentType] + PrefixSeg(a.opts);
    assert ServeSegments(a, Dotted(ds), n) == pre + [Dotted(ds)] + [n];
    assert CleanSegments(pre);
    JoinCleanAround(pre, ds, [n]);
    var xs := pre + ds + [n];
    assert xs == ServePathSegments(a, ds) + [n];
    SanitizedRooted(a.opts, xs);
  }

  /** The object name of a file in a clean directory, written out: `prefix/type/dir/name`. */
  lemma KeyOf(o: Options, ds: seq<string>, n: string)
    requires (o.prefix == "" || CleanSegment(o.prefix)) && CleanSegment(o.contentType)
    requires CleanSegments(ds) && CleanSegment(n)
    ensures RelativeKey(o, Dotted(ds), n)
         == JoinWith((if o.prefix == "" then [] else [o.prefix]) + [o.contentType] + ds + [n], '/')
  {
    var xs := (if o.prefix == "" then [] else [o.prefix]) + [o.contentType] + ds + [n];
    KeyJoin(o, ds, n);
    SanitizedRelative(o, xs);
  }

  /** The `join` inside `relative()`, for clean segments. */
  lemma KeyJoin(o: Options, ds: seq<string>, n: string)
    requires (o.prefix == "" || CleanSegment(o.prefix)) && CleanSegment(o.contentType)
    requires CleanSegments(ds) && CleanSegment(n)
    ensures var xs := (if o.prefix == "" then [] else [o.prefix]) + [o.contentType] + ds + [n];
            Join([o.prefix, o.contentType, Dotted(ds), n]) == JoinWith(xs, '/') && CleanSegments(xs)
  {
    var args := [o.prefix, o.contentType, Dotted(ds), n];
    if o.prefix == "" {
      var tail := [o.contentType] + [Dotted(ds)] + [n];
      assert args == [""] + tail;
      JoinFirstEmpty(tail);
      JoinCleanAround([o.contentType], ds, [n]);
      assert [] + [o.contentType] + ds + [n] == [o.contentType] + ds + [n];
    } else {
      assert args == [o.prefix] + [o.contentType] + [Dotted(ds)] + [n];
      assert CleanSegments([o.prefix] + [o.contentType]);
      JoinCleanAround([o.prefix] + [o.contentType], ds, [n]);
    }
  }

  /** A leading empty argument does not change `join`. */
  lemma JoinFirstEmpty(args: seq<string>)
    ensures Join([""] + args) == Join(args)
  {
    assert ([""] + args)[1..] == args;
  }

  // ---------------------------------------------------------------- the round trips

  /** `urlToPath(absolute())` is `relative()`, when the URL's segments are clean and differ from the content path. */
  lemma AbsoluteRoundTrip(a: Adapter, ds: seq<string>, n: string, cwd: string, targetDir: string)
    requires UrlReady(a.opts) && Distinct(a) && CleanSegments(ds) && CleanSegment(n)
    ensures UrlKey(a, AbsoluteUrl(a.opts, Dotted(ds), n), cwd, targetDir) == Ok(RelativeKey(a.opts, Dotted(ds), n))
  {
    var o := a.opts;
    AbsoluteOf(o, ds, n);
    AbsoluteParts(o, ds, n);
    UrlKeyOfUrl(a, o.protocol, o.host, AbsoluteSegments(o, ds), n, cwd, targetDir);
    StripAbsolute(a, ds);
    JoinClean(ds);
  }

  /** The parts of an absolute URL over clean segments are what `UrlKeyOfUrl` takes apart. */
  lemma AbsoluteParts(o: Options, ds: seq<string>, n: string)
    requires UrlReady(o) && CleanSegments(ds) && CleanSegment(n)
    ensures NoChar(o.protocol, '/') && forall i :: 0 <= i < |o.host| ==> !EndsAuthority(o.host[i])
    ensures UrlSegments(AbsoluteSegments(o, ds)) && UrlSegment(n)
  {
    assert CleanSegments(BucketSeg(o) + PrefixSeg(o) + [o.contentType]) by {
      CleanConcat(BucketSeg(o), PrefixSeg(o));
      CleanConcat(BucketSeg(o) + PrefixSeg(o), [o.contentType]);
    }
    CleanConcat(BucketSeg(o) + PrefixSeg(o) + [o.contentType], ds);
    CleanUrls(AbsoluteSegments(o, ds));
    CleanUrl(n);
    assert NoChar(o.protocol, '/') by {
      forall i | 0 <= i < |o.protocol| ensures o.protocol[i] != '/' { SegCharStable(o.protocol[i]); }
    }
  }

  /** `urlToPath(passthrough())` is `relative()`, when the serve path's segments are clean. */
  lemma PassthroughRoundTrip(a: Adapter, ds: seq<string>, n: string, cwd: string, targetDir: string)
    requires ServeReady(a) && CleanSegments(ds) && CleanSegment(n)
    ensures UrlKey(a, PassthroughUrl(a, Dotted(ds), n), cwd, targetDir) == Ok(RelativeKey(a.opts, Dotted(ds), n))
  {
    PassthroughOf(a, ds, n);
    var init := ServePathSegments(a, ds);
    assert CleanSegments([a.contentPath, a.opts.contentType] + PrefixSeg(a.opts)) by {
      CleanConcat([a.contentPath, a.opts.contentType], PrefixSeg(a.opts));
    }
    CleanConcat([a.contentPath, a.opts.contentType] + PrefixSeg(a.opts), ds);
    UrlKeyOfPath(a, init, n, cwd, targetDir);
    StripServe(a, ds, false);
    JoinClean(ds);
  }

  /** What `urlToPath` needs of the adapter to invert the unsigned `serve()`. */
  predicate Invertible(a: Adapter) {
    if a.opts.passthrough then ServeReady(a) else UrlReady(a.opts) && Distinct(a)
  }

  /**
   * `urlToPath(serve())` is `relative()` for unsigned adapters: Ghost can map every URL it was
   * given back to the object that URL serves.
   */
  lemma ServeRoundTrip(a: Adapter, ds: seq<string>, n: string, cwd: string, targetDir: string)
    requires !a.opts.signed && Invertible(a) && CleanSegments(ds) && CleanSegment(n)
    ensures UrlKey(a, ServeUrl(a, Dotted(ds), n, ""), cwd, targetDir) == Ok(RelativeKey(a.opts, Dotted(ds), n))
  {
    if a.opts.passthrough {
      PassthroughRoundTrip(a, ds, n, cwd, targetDir);
    } else {
      AbsoluteRoundTrip(a, ds, n, cwd, targetDir);
    }
  }

  /** The same for a file object: `urlToPath(file.serve())` names the object `file.relative()` names. */
  lemma FileRoundTrip(f: GCSFile, ds: seq<string>, cwd: string, targetDir: string)
    requires f.file.dir == Some(Dotted(ds)) && CleanSegments(ds) && CleanSegment(Chosen(f.computed, f.file.base))
    requires !f.gcs.opts.signed && Invertible(f.gcs)
    ensures UrlKey(f.gcs, f.Serve(""), cwd, targetDir) == Ok(f.Relative())
  {
    ServeRoundTrip(f.gcs, ds, Chosen(f.computed, f.file.base), cwd, targetDir);
  }
}
