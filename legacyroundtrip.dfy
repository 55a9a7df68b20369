/**
 * What the older `urlToPath` (lib/adapter.mjs) makes of the paths the older `serve()` returns.
 * With passthrough on, `FromURL` cuts the content path and the type off the URL's directory and
 * rebuilds the file with an empty type. The name it yields is then the rooted directory and base,
 * while the object was stored under the type, the directory and the base.
 */
module LegacyRoundTrip {
  import opened Wrappers
  import opened Text
  import opened NodePath
  import opened Sanitizer
  import opened WebUrl
  import opened Records
  import opened LegacyOptions
  import opened LegacyFile
  import opened LegacyAdapter
  import RoundTrip
  import GcsFile

  /** The older adapter serving through Ghost: passthrough on, no bucket in URLs, no prefix. */
  predicate PassthroughReady(a: Adapter) {
    a.opts.passthrough && !a.opts.addBucketToPath && a.opts.prefix == ""
    && CleanSegment(a.contentPath) && CleanSegment(a.opts.contentType)
  }

  // ---------------------------------------------------------------- the cuts

  /** A clean segment right after the leading "/" is found at position 1 and cut together with that "/". */
  lemma CutLead(x: string, rest: string)
    requires CleanSegment(x)
    ensures CutAt("/" + x + rest, x, true) == rest
  {
    var d := "/" + x + rest;
    assert d[1..1 + |x|] == x;
    assert OccursAt(d, x, 1);
    assert !OccursAt(d, x, 0) by {
      assert SegChar(x[0]);
      assert d[0] == '/';
    }
    assert d[|x| + 1..] == rest;
  }

  /** The directory of a passthrough path, one "/" at a time. */
  lemma ServedDirText(cp: string, t: string, ds: seq<string>)
    requires |ds| >= 1
    ensures "/" + JoinWith([cp, t] + ds, '/') == "/" + cp + ("/" + t + ("/" + JoinWith(ds, '/')))
  {
    ServedDirJoin(cp, t, ds);
    Regroup(cp, t, JoinWith(ds, '/'));
  }

  lemma ServedDirJoin(cp: string, t: string, ds: seq<string>)
    requires |ds| >= 1
    ensures JoinWith([cp, t] + ds, '/') == cp + "/" + (t + "/" + JoinWith(ds, '/'))
  {
    RoundTrip.JoinCons(t, ds);
    assert [cp, t] + ds == [cp] + ([t] + ds);
    RoundTrip.JoinCons(cp, [t] + ds);
  }

  lemma Regroup(x: string, y: string, z: string)
    ensures "/" + (x + "/" + (y + "/" + z)) == "/" + x + ("/" + y + ("/" + z))
  {
  }

  /** The directory `/contentPath/type/ds` of a passthrough path loses the content path and the type. */
  lemma StripServedDir(a: Adapter, ds: seq<string>)
    requires PassthroughReady(a) && |ds| >= 1
    ensures StripUrlDir(a, "/" + JoinWith([a.contentPath, a.opts.contentType] + ds, '/')) == "/" + JoinWith(ds, '/')
  {
    var cp, t := a.contentPath, a.opts.contentType;
    var j := JoinWith(ds, '/');
    ServedDirText(cp, t, ds);
    CutLead(cp, "/" + t + ("/" + j));
    CutLead(t, "/" + j);
  }

  /** The segments `FromURL` cuts before the type: the content path with passthrough, then the bucket with `addBucketToPath`. */
  function CutSegments(a: Adapter): seq<string> {
    (if a.opts.passthrough then [a.contentPath] else []) + (if a.opts.addBucketToPath then [a.opts.bucket] else [])
  }

  /**
   * The three cuts in their order: a directory `/cuts/type/ds`, with the content path only when
   * passthrough is on and the bucket only when `addBucketToPath` is on, loses exactly those and the
   * type and keeps its leading "/".
   */
  lemma StripLayout(a: Adapter, ds: seq<string>)
    requires a.opts.passthrough ==> CleanSegment(a.contentPath)
    requires a.opts.addBucketToPath ==> CleanSegment(a.opts.bucket)
    requires CleanSegment(a.opts.contentType) && |ds| >= 1
    ensures StripUrlDir(a, "/" + JoinWith(CutSegments(a) + [a.opts.contentType] + ds, '/')) == "/" + JoinWith(ds, '/')
  {
    var o := a.opts;
    var r2 := [o.contentType] + ds;
    var r1 := (if o.addBucketToPath then [o.bucket] else []) + r2;
    CutRegroup(a, ds);
    CutIf(a.contentPath, r1, o.passthrough);
    CutIf(o.bucket, r2, o.addBucketToPath);
    CutIf(o.contentType, ds, true);
    assert (if true then [o.contentType] else []) + ds == r2;
  }

  lemma CutRegroup(a: Adapter, ds: seq<string>)
    ensures CutSegments(a) + [a.opts.contentType] + ds
         == (if a.opts.passthrough then [a.contentPath] else [])
            + ((if a.opts.addBucketToPath then [a.opts.bucket] else []) + ([a.opts.contentType] + ds))
  {
  }

  /** One cut: a leading `x` goes when `on`, and nothing changes otherwise. */
  lemma CutIf(x: string, rest: seq<string>, on: bool)
    requires on ==> CleanSegment(x)
    requires |rest| >= 1
    ensures CutAt("/" + JoinWith((if on then [x] else []) + rest, '/'), x, on) == "/" + JoinWith(rest, '/')
  {
    if on {
      RootedCons(x, rest);
      CutLead(x, "/" + JoinWith(rest, '/'));
    } else {
      assert [] + rest == rest;
    }
  }

  /** A rooted join, one segment at a time. */
  lemma RootedCons(x: string, rest: seq<string>)
    requires |rest| >= 1
    ensures "/" + JoinWith([x] + rest, '/') == "/" + x + ("/" + JoinWith(rest, '/'))
  {
    RoundTrip.JoinCons(x, rest);
    ConsText(x, JoinWith(rest, '/'));
  }

  lemma ConsText(x: string, j: string)
    ensures "/" + (x + "/" + j) == "/" + x + ("/" + j)
  {
  }

  // ---------------------------------------------------------------- rooted joins

  /** `normalize` leaves a rooted "/"-join of clean segments alone. */
  lemma RootedNormalize(xs: seq<string>)
    requires |xs| >= 1 && RoundTrip.CleanSegments(xs)
    ensures Normalize("/" + JoinWith(xs, '/')) == "/" + JoinWith(xs, '/')
  {
    forall k | 0 <= k < |xs| ensures xs[k] != "" && xs[k] != "." && xs[k] != ".." && NoSeparator(xs[k], false) {
      RoundTrip.CleanUrl(xs[k]);
    }
    RootedTail(xs);
    RootedSplit(xs);
    RootedKeep(xs);
    JoinWithEmpty(xs);
  }

  lemma NonEmptyLast(q: string)
    requires q != ""
    ensures NonEmpty(["", "", q]) == [q]
  {
    assert ["", "", q][1..] == ["", q];
    assert ["", q][1..] == [q];
    assert [q][1..] == [];
    assert NonEmpty([q]) == [q];
    assert NonEmpty(["", q]) == [q];
  }

  lemma NonEmptyPair(q: string, n: string)
    requires q != "" && n != ""
    ensures NonEmpty([q, n]) == [q, n]
  {
    assert [q, n][1..] == [n];
    assert [n][1..] == [];
    assert NonEmpty([n]) == [n];
  }

  /** The type-less directory `FromURL` folds: `join("", "", "/ds")` is `/ds`. */
  lemma EmptyLeadJoin(ds: seq<string>)
    requires |ds| >= 1 && RoundTrip.CleanSegments(ds)
    ensures Join(["", "", "/" + JoinWith(ds, '/')]) == "/" + JoinWith(ds, '/')
  {
    var q := "/" + JoinWith(ds, '/');
    NonEmptyLast(q);
    assert JoinWith([q], '/') == q;
    RootedNormalize(ds);
  }

  lemma RootedSnoc(ds: seq<string>, n: string)
    requires |ds| >= 1
    ensures "/" + JoinWith(ds, '/') + "/" + n == "/" + JoinWith(ds + [n], '/')
  {
    JoinWithSnoc(ds + [n]);
    assert (ds + [n])[..|ds|] == ds;
  }

  /** `join("/ds", n)` is the rooted join of `ds` and `n`. */
  lemma RootedDirNameJoin(ds: seq<string>, n: string)
    requires |ds| >= 1 && RoundTrip.CleanSegments(ds) && CleanSegment(n)
    ensures Join(["/" + JoinWith(ds, '/'), n]) == "/" + JoinWith(ds + [n], '/')
  {
    var q := "/" + JoinWith(ds, '/');
    NonEmptyPair(q, n);
    assert JoinWith([q, n], '/') == q + "/" + n by { assert [q, n][1..] == [n]; }
    RootedSnoc(ds, n);
    RoundTrip.CleanSnoc(ds, n);
    RootedNormalize(ds + [n]);
  }

  // ---------------------------------------------------------------- urlToPath of a served path

  /**
   * `urlToPath` of any URL whose pathname is `/contentPath/type/ds/n`: the rooted `/ds/n`, without
   * the type.
   */
  lemma KeyOfServedPathname(a: Adapter, u: string, cwd: string, targetDir: string, ds: seq<string>, n: string)
    requires PassthroughReady(a) && |ds| >= 1 && RoundTrip.CleanSegments(ds) && CleanSegment(n)
    requires u != "" && GcsFile.UrlOrPathPathname(u, cwd) == "/" + JoinWith([a.contentPath, a.opts.contentType] + ds + [n], '/')
    ensures UrlKey(a, u, cwd, targetDir) == Ok("/" + JoinWith(ds + [n], '/'))
  {
    var xs := [a.contentPath, a.opts.contentType] + ds + [n];
    var d := "/" + JoinWith([a.contentPath, a.opts.contentType] + ds, '/');
    ServedSegments(a, ds, n);
    PlainSegments(xs);
    ParseAbsolute(xs);
    assert xs[..|xs| - 1] == [a.contentPath, a.opts.contentType] + ds;
    UrlKeyOfParts(a, u, cwd, targetDir, d, n);
    StripServedDir(a, ds);
    EmptyLeadJoin(ds);
    RootedDirNameJoin(ds, n);
    RoundTrip.CleanSnoc(ds, n);
    SanitizedRootedJoin(a.opts, ds + [n]);
  }

  /** `urlToPath` of a URL whose pathname parses into the directory `d` and the name `n`. */
  lemma UrlKeyOfParts(a: Adapter, u: string, cwd: string, targetDir: string, d: string, n: string)
    requires u != "" && n != ""
    requires Parse(GcsFile.UrlOrPathPathname(u, cwd)).dir == d && Parse(GcsFile.UrlOrPathPathname(u, cwd)).base == n
    ensures UrlKey(a, u, cwd, targetDir) == Ok(Sanitized(a.opts, Join([Join([a.opts.prefix, "", StripUrlDir(a, d)]), n])))
  {
    var q := ParsedState(GcsFile.UrlOrPathPathname(u, cwd));
    assert q.base == n;
    var st := Folded(q, a, Some(StripUrlDir(a, d)), Some(""), targetDir);
    assert FromUrlState(u, a, cwd, targetDir) == Ok(st);
    assert st.base == n && st.dir == Some(Join([a.opts.prefix, "", StripUrlDir(a, d)]));
  }

  /** The segments of a passthrough path are clean. */
  lemma ServedSegments(a: Adapter, ds: seq<string>, n: string)
    requires PassthroughReady(a) && RoundTrip.CleanSegments(ds) && CleanSegment(n)
    ensures RoundTrip.CleanSegments([a.contentPath, a.opts.contentType] + ds + [n])
  {
    RoundTrip.CleanConcat([a.contentPath, a.opts.contentType], ds);
    RoundTrip.CleanSnoc([a.contentPath, a.opts.contentType] + ds, n);
  }

  lemma PlainSegments(xs: seq<string>)
    requires RoundTrip.CleanSegments(xs)
    ensures forall k :: 0 <= k < |xs| ==> xs[k] != "" && NoSeparator(xs[k], false)
  {
    forall k | 0 <= k < |xs| ensures xs[k] != "" && NoSeparator(xs[k], false) {
      RoundTrip.CleanUrl(xs[k]);
    }
  }

  /** The served path itself, `/contentPath/type/ds/n`. */
  lemma ServedPathKey(a: Adapter, cwd: string, targetDir: string, ds: seq<string>, n: string)
    requires PassthroughReady(a) && |ds| >= 1 && RoundTrip.CleanSegments(ds) && CleanSegment(n)
    ensures UrlKey(a, "/" + JoinWith([a.contentPath, a.opts.contentType] + ds + [n], '/'), cwd, targetDir)
         == Ok("/" + JoinWith(ds + [n], '/'))
  {
    var xs := [a.contentPath, a.opts.contentType] + ds + [n];
    ServedSegments(a, ds, n);
    RoundTrip.PathnameOfPath(xs, cwd);
    KeyOfServedPathname(a, "/" + JoinWith(xs, '/'), cwd, targetDir, ds, n);
  }

  /** The same path behind a scheme and a host, as Ghost's absolute URLs have it. */
  lemma ServedUrlKey(a: Adapter, scheme: string, host: string, cwd: string, targetDir: string, ds: seq<string>, n: string)
    requires PassthroughReady(a) && |ds| >= 1 && RoundTrip.CleanSegments(ds) && CleanSegment(n)
    requires NoChar(scheme, '/') && forall i :: 0 <= i < |host| ==> !EndsAuthority(host[i])
    ensures UrlKey(a, scheme + "://" + host + "/" + JoinWith([a.contentPath, a.opts.contentType] + ds + [n], '/'), cwd, targetDir)
         == Ok("/" + JoinWith(ds + [n], '/'))
  {
    var xs := [a.contentPath, a.opts.contentType] + ds + [n];
    ServedSegments(a, ds, n);
    RoundTrip.CleanUrls(xs);
    RoundTrip.PathnameOfUrl(scheme, host, xs, cwd);
    KeyOfServedPathname(a, scheme + "://" + host + "/" + JoinWith(xs, '/'), cwd, targetDir, ds, n);
  }

  // ---------------------------------------------------------------- the round trip that fails

  /** `join(contentPath, type/ds, n)` of clean segments is their "/"-join. */
  lemma PassthroughJoin(cp: string, t: string, ds: seq<string>, n: string)
    requires CleanSegment(cp) && CleanSegment(t) && RoundTrip.CleanSegments(ds) && CleanSegment(n)
    ensures Join([cp, JoinWith([t] + ds, '/'), n]) == JoinWith([cp, t] + ds + [n], '/')
  {
    RoundTrip.CleanConcat([t], ds);
    ServedArgs(cp, t, ds, n);
    RoundTrip.JoinAroundClean([cp], [t] + ds, [n]);
    ServedRegroup(cp, t, ds, n);
  }

  lemma ServedArgs(cp: string, t: string, ds: seq<string>, n: string)
    ensures [cp, JoinWith([t] + ds, '/'), n] == [cp] + [Dotted([t] + ds)] + [n]
  {
  }

  lemma ServedRegroup(cp: string, t: string, ds: seq<string>, n: string)
    ensures [cp] + ([t] + ds) + [n] == [cp, t] + ds + [n]
  {
  }

  /** The passthrough path of a file saved into the directory `ds`: `/contentPath/type/ds/base`. */
  lemma PassthroughPath(a: Adapter, st: FileState, ds: seq<string>, targetDir: string)
    requires PassthroughReady(a) && |ds| >= 1 && RoundTrip.CleanSegments(ds) && CleanSegment(st.base)
    ensures PassthroughOf(a, Folded(st, a, Some(Dotted(ds)), None, targetDir), None)
         == "/" + JoinWith([a.contentPath, a.opts.contentType] + ds + [st.base], '/')
  {
    var o := a.opts;
    FoldedDir(a, st, ds, targetDir);
    assert Lead(o) == [o.contentType];
    PassthroughJoin(a.contentPath, o.contentType, ds, st.base);
    ServedSegments(a, ds, st.base);
    SanitizedRootedJoin(o, [a.contentPath, o.contentType] + ds + [st.base]);
  }

  /** A rooted path never equals a path that starts with a clean segment. */
  lemma RootedDiffers(t: string, rest: seq<string>, ys: seq<string>)
    requires CleanSegment(t) && |rest| >= 1
    ensures "/" + JoinWith(ys, '/') != JoinWith([t] + rest, '/')
  {
    RoundTrip.JoinCons(t, rest);
    assert JoinWith([t] + rest, '/')[0] == t[0] && SegChar(t[0]);
  }

  /**
   * Serving a saved file through Ghost and mapping that path back does not give the name the file
   * was stored under: the path loses the type, and keeps a leading "/".
   */
  lemma PassthroughMissesKey(a: Adapter, st: FileState, ds: seq<string>, cwd: string, targetDir: string)
    requires PassthroughReady(a) && |ds| >= 1 && RoundTrip.CleanSegments(ds) && CleanSegment(st.base)
    ensures var f := Folded(st, a, Some(Dotted(ds)), None, targetDir);
            var served := PassthroughOf(a, f, None);
            UrlKey(a, served, cwd, targetDir) == Ok("/" + JoinWith(ds + [st.base], '/'))
            && RelativeOf(a, f, None) == JoinWith([a.opts.contentType] + ds + [st.base], '/')
            && UrlKey(a, served, cwd, targetDir) != Ok(RelativeOf(a, f, None))
  {
    var o := a.opts;
    var f := Folded(st, a, Some(Dotted(ds)), None, targetDir);
    var path := "/" + JoinWith([a.contentPath, o.contentType] + ds + [st.base], '/');
    var back := "/" + JoinWith(ds + [st.base], '/');
    PassthroughPath(a, st, ds, targetDir);
    assert PassthroughOf(a, f, None) == path;
    ServedPathKey(a, cwd, targetDir, ds, st.base);
    assert UrlKey(a, path, cwd, targetDir) == Ok(back);
    StoredKey(a, st, ds, targetDir);
    PlainLead(o);
    PlainKeyList(o.contentType, ds, st.base);
    assert RelativeOf(a, f, None) == JoinWith([o.contentType] + ds + [st.base], '/');
    RootedDiffers(o.contentType, ds + [st.base], ds + [st.base]);
  }

  lemma PlainLead(o: Options)
    requires o.prefix == ""
    ensures Lead(o) == [o.contentType]
  {
  }

  lemma PlainKeyList(t: string, ds: seq<string>, n: string)
    ensures [t] + ds + [n] == [t] + (ds + [n])
  {
  }
}
