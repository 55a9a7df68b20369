/**
 * The operations of the older `GCSAdapter` (lib/adapter.mjs): object names for paths and URLs,
 * `delete`, which wraps every storage error, and the serve handler's error mapping, which is the
 * current adapter's. The storage calls are parameters, as for the current adapter.
 */
module LegacyAdapter {
  import opened Wrappers
  import opened Text
  import opened NodePath
  import opened Constants
  import opened Sanitizer
  import opened WebUrl
  import opened Records
  import opened LegacyOptions
  import opened LegacyFile
  import GcsFile
  import GcsAdapter
  import RoundTrip

  // ---------------------------------------------------------------- object names

  /** The object name of `fromPath(path, dir).relative()`; an empty path is an error. */
  function PathKey(a: Adapter, path: string, target: Option<string>, targetDir: string): (r: Result<string, string>)
    ensures r.Ok? <==> path != ""
    ensures r.Err? ==> r.error == "Path is required"
    ensures r.Ok? ==> All(r.value, TameChar) && NoBackslash(r.value)
  {
    var st :- FromPathState(path, a, target, targetDir);
    Ok(RelativeOf(a, st, None))
  }

  /** `urlToPath(url)`: the object name `FromURL(url).relative()` gives. */
  function UrlKey(a: Adapter, u: string, cwd: string, targetDir: string): (r: Result<string, string>)
    ensures r.Ok? <==> u != ""
    ensures r.Err? ==> r.error == "URL is required"
    ensures r.Ok? ==> All(r.value, TameChar) && NoBackslash(r.value)
  {
    var st :- FromUrlState(u, a, cwd, targetDir);
    Ok(RelativeOf(a, st, None))
  }

  /** `urlToPath(url)`: builds the file with `FromURL` and asks it for `relative()`. */
  method UrlToPath(a: Adapter, u: string, cwd: string, targetDir: string) returns (r: Result<string, string>)
    ensures r == UrlKey(a, u, cwd, targetDir)
  {
    var file := FromURL(u, a, cwd, targetDir);
    if file.Err? {
      return Err(file.error);
    }
    r := Ok(file.value.Relative());
  }

  // ---------------------------------------------------------------- delete

  /** How `delete` reports GCS's answer: only success succeeds; every error, a 404 too, is wrapped. */
  function DeleteOutcome(e: Option<GcsAdapter.StorageError>): (r: Result<(), GcsAdapter.Failure>)
    ensures r.Ok? <==> e.None?
    ensures r.Err? ==> r.error == GcsAdapter.AdapterError(e.value.message)
  {
    if e.None? then Ok(()) else Err(GcsAdapter.AdapterError(e.value.message))
  }

  /** A missing object fails `delete` here, while the current adapter treats it as deleted. */
  lemma NotFoundDiffers(e: GcsAdapter.StorageError)
    requires GcsAdapter.IsStatus(e, 404)
    ensures DeleteOutcome(Some(e)).Err? && GcsAdapter.DeleteOutcome(Some(e)).Ok?
  {
  }

  /** `delete(path, dir)`: the path is required (thrown before the `try`); `remove` deletes the named object. */
  method Delete(a: Adapter, path: string, target: Option<string>, targetDir: string,
                remove: string -> Option<GcsAdapter.StorageError>) returns (r: Result<(), GcsAdapter.Failure>)
    ensures path == "" ==> r == Err(GcsAdapter.AdapterError("Path is required"))
    ensures path != "" ==> r == DeleteOutcome(remove(PathKey(a, path, target, targetDir).value))
  {
    var file := FromPath(path, a, target, targetDir);
    if file.Err? {
      return Err(GcsAdapter.AdapterError(file.error));
    }
    var err := remove(file.value.Relative());
    if err.Some? {
      return Err(GcsAdapter.AdapterError(err.value.message));
    }
    r := Ok(());
  }

  // ---------------------------------------------------------------- the serve handler

  /**
   * What the serve middleware passes to `next` for a request path, with `stream` piping the
   * named object to the response: nothing on success, the current adapter's mapping otherwise.
   */
  function ServeFailure(a: Adapter, reqPath: string, targetDir: string,
                        stream: string -> Option<GcsAdapter.StorageError>): (r: Option<GcsAdapter.GhostError>)
    ensures reqPath == "" ==> r == Some(GcsAdapter.InternalServer)
    ensures reqPath != "" ==> (r.None? <==> stream(PathKey(a, reqPath, None, targetDir).value).None?)
    ensures reqPath != "" && r.Some? && r.value.NotFound? ==> r.value.property == PathKey(a, reqPath, None, targetDir).value
    ensures reqPath != "" ==> var key := PathKey(a, reqPath, None, targetDir).value;
            stream(key).Some? ==> r == Some(GcsAdapter.ServeError(stream(key).value, key))
  {
    match PathKey(a, reqPath, None, targetDir)
    case Err(_) => Some(GcsAdapter.InternalServer)
    case Ok(key) =>
      match stream(key)
      case None => None
      case Some(e) => Some(GcsAdapter.ServeError(e, key))
  }

  // ---------------------------------------------------------------- where the object is stored

  /** The segments the constructor folds in front of `dir`: the prefix when set, then the type. */
  function Lead(o: Options): seq<string> {
    (if o.prefix == "" then [] else [o.prefix]) + [o.contentType]
  }

  /** A plain adapter: prefix empty or clean, a clean type. */
  predicate KeyReady(o: Options) {
    (o.prefix == "" || CleanSegment(o.prefix)) && CleanSegment(o.contentType)
  }

  lemma LeadClean(o: Options)
    requires KeyReady(o)
    ensures RoundTrip.CleanSegments(Lead(o)) && DropEmpty([o.prefix, o.contentType]) == Lead(o)
  {
    assert [o.prefix, o.contentType][1..] == [o.contentType];
  }

  /** The folded `dir` of a file saved into the directory `ds`: the prefix, the type, then `ds`. */
  lemma FoldedDir(a: Adapter, st: FileState, ds: seq<string>, targetDir: string)
    requires KeyReady(a.opts) && RoundTrip.CleanSegments(ds)
    ensures Folded(st, a, Some(Dotted(ds)), None, targetDir).dir == Some(JoinWith(Lead(a.opts) + ds, '/'))
  {
    var o := a.opts;
    LeadClean(o);
    RoundTrip.JoinAround([o.prefix, o.contentType], ds, []);
    assert [o.prefix, o.contentType] + [Dotted(ds)] + [] == [o.prefix, o.contentType, Dotted(ds)];
    assert DropEmpty([]) == [];
    assert Lead(o) + ds + [] == Lead(o) + ds;
    assert Lead(o) + ds != [];
  }

  /**
   * The object a file saved into the directory `ds` is stored under: the prefix when set, the
   * type, the directory and the name, whatever the URL settings.
   */
  lemma StoredKey(a: Adapter, st: FileState, ds: seq<string>, targetDir: string)
    requires KeyReady(a.opts) && RoundTrip.CleanSegments(ds) && CleanSegment(st.base)
    ensures var f := Folded(st, a, Some(Dotted(ds)), None, targetDir);
            RelativeOf(a, f, None) == JoinWith(Lead(a.opts) + ds + [st.base], '/')
  {
    var o := a.opts;
    FoldedDir(a, st, ds, targetDir);
    RoundTrip.DirNameJoin(Lead(o) + ds, st.base);
    RoundTrip.CleanSnoc(Lead(o) + ds, st.base);
    SanitizedJoin(o, Lead(o) + ds + [st.base]);
  }

  /** A plain adapter whose URL parts are clean too: the protocol, the host and, when shown, the bucket. */
  predicate AbsoluteReady(o: Options) {
    KeyReady(o) && All(o.protocol, SegChar) && CleanSegment(o.host) && (o.addBucketToPath ==> CleanSegment(o.bucket))
  }

  lemma HostPartClean(o: Options)
    requires AbsoluteReady(o)
    ensures RoundTrip.CleanSegments([o.host] + BucketPart(o))
  {
    assert o.addBucketToPath ==> [o.host] + BucketPart(o) == [o.host, o.bucket];
  }

  /**
   * The URL `absolute()` gives for a file saved into the directory `ds`: the host, the bucket
   * exactly when `addBucketToPath` is set, then the prefix when set, the type, the directory and
   * the name.
   */
  lemma StoredUrl(a: Adapter, st: FileState, ds: seq<string>, targetDir: string)
    requires AbsoluteReady(a.opts) && RoundTrip.CleanSegments(ds) && CleanSegment(st.base)
    ensures var f := Folded(st, a, Some(Dotted(ds)), None, targetDir);
            AbsoluteOf(a, f, None)
            == a.opts.protocol + "://" + JoinWith([a.opts.host] + BucketPart(a.opts) + Lead(a.opts) + ds + [st.base], '/')
  {
    var o := a.opts;
    var f := Folded(st, a, Some(Dotted(ds)), None, targetDir);
    FoldedDir(a, st, ds, targetDir);
    LeadClean(o);
    RoundTrip.CleanConcat(Lead(o), ds);
    assert f.base == st.base;
    AbsoluteOfDir(a, f, Lead(o) + ds);
    Regroup([o.host] + BucketPart(o), Lead(o), ds, [st.base]);
  }

  lemma Regroup(h: seq<string>, l: seq<string>, ds: seq<string>, t: seq<string>)
    ensures h + (l + ds) + t == h + l + ds + t
  {
  }

  /** `absolute()` of a file whose `dir` is the clean segments `mid` joined. */
  lemma AbsoluteOfDir(a: Adapter, f: FileState, mid: seq<string>)
    requires AbsoluteReady(a.opts) && RoundTrip.CleanSegments(mid) && |mid| >= 1
    requires f.dir == Some(JoinWith(mid, '/')) && CleanSegment(f.base)
    ensures AbsoluteOf(a, f, None) == a.opts.protocol + "://" + JoinWith([a.opts.host] + BucketPart(a.opts) + mid + [f.base], '/')
  {
    HostPartClean(a.opts);
    UrlOverDir(a.opts, [a.opts.host] + BucketPart(a.opts), mid, f.dir.value, f.base);
  }

  /** `scheme://` and `join(...pre, dir, name)` for a clean directory `dir` of the segments `mid`. */
  lemma UrlOverDir(o: Options, pre: seq<string>, mid: seq<string>, dir: string, n: string)
    requires All(o.protocol, SegChar) && RoundTrip.CleanSegments(pre) && RoundTrip.CleanSegments(mid)
    requires |mid| >= 1 && dir == JoinWith(mid, '/') && CleanSegment(n)
    ensures Sanitized(o, o.protocol + "://" + Join(pre + [dir, n])) == o.protocol + "://" + JoinWith(pre + mid + [n], '/')
  {
    assert Dotted(mid) == dir;
    RoundTrip.JoinCleanAround(pre, mid, [n]);
    assert pre + [dir, n] == pre + [Dotted(mid)] + [n];
    SanitizedUrlJoin(o, pre + mid + [n]);
  }

  /** `scheme://` and a "/"-joined path of clean segments are left alone by `sanitize`. */
  lemma SanitizedUrlJoin(o: Options, xs: seq<string>)
    requires All(o.protocol, SegChar) && RoundTrip.CleanSegments(xs) && |xs| >= 1
    ensures Sanitized(o, o.protocol + "://" + JoinWith(xs, '/')) == o.protocol + "://" + JoinWith(xs, '/')
  {
    JoinedSegments(xs);
    RoundTrip.UrlStable(o.protocol, JoinWith(xs, '/'), o.deburr.GetOr(o.asciiFolding), o.lowercase);
  }

  /** A "/"-joined path of clean segments is left alone by `sanitize`. */
  lemma SanitizedJoin(o: Options, xs: seq<string>)
    requires RoundTrip.CleanSegments(xs)
    ensures Sanitized(o, JoinWith(xs, '/')) == JoinWith(xs, '/')
  {
    SanitizeSegments(xs, false, o.deburr.GetOr(o.asciiFolding), o.lowercase);
    assert "" + JoinWith(xs, '/') == JoinWith(xs, '/');
  }

  /** A rooted "/"-joined path of clean segments is left alone by `sanitize`. */
  lemma SanitizedRootedJoin(o: Options, xs: seq<string>)
    requires RoundTrip.CleanSegments(xs)
    ensures Sanitized(o, "/" + JoinWith(xs, '/')) == "/" + JoinWith(xs, '/')
  {
    SanitizeSegments(xs, true, o.deburr.GetOr(o.asciiFolding), o.lowercase);
  }
}
