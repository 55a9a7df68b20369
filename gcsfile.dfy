/**
 * `GCSFile` of the current adapter (dist/cjs/lib/file.cjs): how a file object, a serve path or
 * a URL becomes a GCS object name and the URLs Ghost is given back.
 */
module GcsFile {
  import opened Wrappers
  import opened Text
  import opened NodePath
  import opened Constants
  import opened Sanitizer
  import opened Records
  import opened GcsOptions
  import opened WebUrl

  // ---------------------------------------------------------------- the constructor's dir rules

  /** `if (cond && dir[0] === x) dir.shift()`. */
  function ShiftIf(segs: seq<string>, cond: bool, x: string): (r: seq<string>)
    ensures r == segs || (cond && |segs| > 0 && segs[0] == x && r == segs[1..])
    ensures cond && |segs| > 0 && segs[0] == x ==> r == segs[1..]
  {
    if cond && |segs| > 0 && segs[0] == x then segs[1..] else segs
  }

  /** Whether the prefix takes part in URLs. */
  predicate PrefixShown(o: Options) {
    o.prefix != "" && o.addPrefixToURL
  }

  /**
   * Whether the constructor reads a `dir` as a serve path (content path, type, prefix) rather
   * than a GCS URL path (bucket, prefix, type).
   */
  predicate ServeLayout(a: Adapter, segs: seq<string>, fromUrl: bool) {
    (a.opts.passthrough && !fromUrl) || (|segs| > 0 && segs[0] == a.contentPath)
  }

  /**
   * The segments of `dir` after the constructor drops the leading segments a URL adds: at most
   * three are dropped, only from the front, and what remains is a suffix.
   */
  function StripDir(a: Adapter, segs: seq<string>, fromUrl: bool): (r: seq<string>)
    ensures |segs| - 3 <= |r| <= |segs| && r == segs[|segs| - |r|..]
  {
    var o := a.opts;
    if ServeLayout(a, segs, fromUrl) then
      ShiftIf(ShiftIf(ShiftIf(segs, true, a.contentPath), true, o.contentType), PrefixShown(o), o.prefix)
    else
      ShiftIf(ShiftIf(ShiftIf(segs, o.addBucketToURL, o.bucket), PrefixShown(o), o.prefix), true, o.contentType)
  }

  /**
   * The file object after `new GCSFile(file, gcs, _dir, url)`: `dir` is the stripped, joined
   * `_dir ?? file.dir`, or the target directory when that is falsy; a missing `ext` is the
   * extension of `name`; a missing `base` is `name`, and `name` then loses its extension.
   */
  function Completed(st: FileState, a: Adapter, dirArg: Option<string>, fromUrl: bool, targetDir: string): (r: FileState)
    ensures r.dir.Some? && r.path == st.path && r.extra == st.extra
    ensures r.ext == (if st.ext != "" then st.ext else ExtName(st.name))
    ensures st.base != "" ==> r.base == st.base && r.name == st.name
    ensures st.base == "" ==> r.base == st.name && r.name == BaseName(st.name, r.ext)
  {
    Defaulted(st.(dir := Some(CompletedDir(st, a, dirArg, fromUrl, targetDir))))
  }

  /** The constructor's `dir`: the stripped, joined `_dir ?? file.dir`, or the target directory when that is falsy. */
  function CompletedDir(st: FileState, a: Adapter, dirArg: Option<string>, fromUrl: bool, targetDir: string): string {
    var d := if dirArg.Some? then dirArg else st.dir;
    if d.Some? && d.value != "" then Join(StripDir(a, SplitPath(d.value), fromUrl)) else targetDir
  }

  /** The constructor's defaults for `ext` and `base`. */
  function Defaulted(st: FileState): FileState {
    var ext := if st.ext != "" then st.ext else ExtName(st.name);
    if st.base != "" then st.(ext := ext)
    else st.(ext := ext, base := st.name, name := BaseName(st.name, ext))
  }

  /** The constructor's `dir.shift()` steps on the split `dir`, in its order. */
  method ShiftLeading(gcs: Adapter, segs: seq<string>, fromUrl: bool) returns (dir: seq<string>)
    ensures dir == StripDir(gcs, segs, fromUrl)
  {
    var o := gcs.opts;
    dir := segs;
    if (o.passthrough && !fromUrl) || (|dir| > 0 && dir[0] == gcs.contentPath) {
      if |dir| > 0 && dir[0] == gcs.contentPath {
        dir := dir[1..];
      }
      if |dir| > 0 && dir[0] == o.contentType {
        dir := dir[1..];
      }
      if o.prefix != "" && o.addPrefixToURL && |dir| > 0 && dir[0] == o.prefix {
        dir := dir[1..];
      }
    } else {
      if o.addBucketToURL && |dir| > 0 && dir[0] == o.bucket {
        dir := dir[1..];
      }
      if o.prefix != "" && o.addPrefixToURL && |dir| > 0 && dir[0] == o.prefix {
        dir := dir[1..];
      }
      if |dir| > 0 && dir[0] == o.contentType {
        dir := dir[1..];
      }
    }
  }

  // ---------------------------------------------------------------- names and URLs

  /** `computed || base` */
  function Chosen(computed: Option<string>, base: string): (r: string)
    ensures r == base || (computed.Some? && r == computed.value && r != "")
  {
    if computed.Some? && computed.value != "" then computed.value else base
  }

  /** `relative()`: the object name in the bucket, `prefix/type/dir/name` sanitized. */
  function RelativeKey(o: Options, dir: string, name: string): (r: string)
    ensures All(r, TameChar) && NoBackslash(r)
    ensures o.lowercase ==> All(r, NotUpper)
  {
    Sanitized(o, Join([o.prefix, o.contentType, dir, name]))
  }

  /** The path segments of `absolute()` after the host. */
  function UrlTail(o: Options, dir: string, name: string): seq<string> {
    (if o.addBucketToURL then [o.bucket] else []) + (if PrefixShown(o) then [o.prefix] else []) + [o.contentType, dir, name]
  }

  /** `absolute()`: `protocol://host[/bucket][/prefix]/type/dir/name`, sanitized. */
  function AbsoluteUrl(o: Options, dir: string, name: string): (r: string)
    ensures All(r, TameChar) && NoBackslash(r)
  {
    Sanitized(o, o.protocol + "://" + Join([o.host] + UrlTail(o, dir, name)))
  }

  /** The path segments of `passthrough()`. */
  function ServeSegments(a: Adapter, dir: string, name: string): seq<string> {
    [a.contentPath, a.opts.contentType] + (if PrefixShown(a.opts) then [a.opts.prefix] else []) + [dir, name]
  }

  /** `passthrough()`: `/contentPath/type[/prefix]/dir/name`, sanitized, served by Ghost itself. */
  function PassthroughUrl(a: Adapter, dir: string, name: string): (r: string)
    ensures All(r, TameChar) && NoBackslash(r)
  {
    Sanitized(a.opts, "/" + Join(ServeSegments(a, dir, name)))
  }

  /** `serve()`: the signed URL, the passthrough path or the absolute URL, in that order. */
  function ServeUrl(a: Adapter, dir: string, name: string, signedUrl: string): (r: string)
    ensures a.opts.signed ==> r == signedUrl
    ensures !a.opts.signed && a.opts.passthrough ==> r == PassthroughUrl(a, dir, name)
    ensures !a.opts.signed && !a.opts.passthrough ==> r == AbsoluteUrl(a.opts, dir, name)
  {
    if a.opts.signed then signedUrl
    else if a.opts.passthrough then PassthroughUrl(a, dir, name)
    else AbsoluteUrl(a.opts, dir, name)
  }

  // ---------------------------------------------------------------- computed names

  /**
   * `template.replace(REGEX.tpl, …)` over the template's tokens: `[hash]` is the content hash,
   * each `[random]` draws the next random value, any other `[key]` is `file[key] ?? ''`.
   * `draw` counts the random values drawn so far.
   */
  function Expand(ts: seq<Token>, st: FileState, hash: string, randomHex: nat -> string, hashLength: int, draw: nat): string
    decreases |ts|
  {
    if ts == [] then ""
    else
      match ts[0]
      case Lit(c) => [c] + Expand(ts[1..], st, hash, randomHex, hashLength, draw)
      case Key(k) =>
        if k == "hash" then hash + Expand(ts[1..], st, hash, randomHex, hashLength, draw)
        else if k == "random" then SliceFromEnd(randomHex(draw), hashLength) + Expand(ts[1..], st, hash, randomHex, hashLength, draw + 1)
        else Field(st, k) + Expand(ts[1..], st, hash, randomHex, hashLength, draw)
  }

  /**
   * `getComputedName()` by `filename` strategy. `digest` is the hex digest of the contents and
   * `mixedDigest` that digest mixed with random bytes; `randomHex(k)` is the k-th 32 random bytes
   * in hex; `uniquePath` is Ghost's `getUniqueSecureFilePath`. Digests and random values are cut
   * to their last `hashLength` characters; an unknown strategy keeps `base`.
   */
  function ComputedName(st: FileState, o: Options, digest: string, mixedDigest: string,
                        randomHex: nat -> string, uniquePath: (FileState, Option<string>) -> string): (r: string)
    ensures o.filename == "original" ==> r == st.base
    ensures o.filename == "hash" && 0 < o.hashLength <= |digest| ==> r == digest[|digest| - o.hashLength..] + st.ext
    ensures o.filename == "originalhash" && 0 < o.hashLength <= |digest| ==> r == st.name + "-" + digest[|digest| - o.hashLength..] + st.ext
    ensures o.filename == "unique" && 0 < o.hashLength <= |randomHex(0)| ==>
              r == st.name + "-" + randomHex(0)[|randomHex(0)| - o.hashLength..] + st.ext
    ensures o.filename == "random" && 0 < o.hashLength <= |randomHex(0)| ==> r == randomHex(0)[|randomHex(0)| - o.hashLength..] + st.ext
    ensures o.filename == "hashunique" && 0 < o.hashLength <= |mixedDigest| ==> r == mixedDigest[|mixedDigest| - o.hashLength..] + st.ext
    ensures o.filename == "ghost" ==> r == uniquePath(st.(name := st.base, base := st.name), st.dir)
    ensures o.filename !in {"original", "originalhash", "hash", "unique", "hashunique", "random", "ghost", "custom"} ==> r == st.base
  {
    var h := SliceFromEnd(digest, o.hashLength);
    match o.filename
    case "original" => st.base
    case "originalhash" => st.name + "-" + h + st.ext
    case "hash" => h + st.ext
    case "unique" => st.name + "-" + SliceFromEnd(randomHex(0), o.hashLength) + st.ext
    case "hashunique" => SliceFromEnd(mixedDigest, o.hashLength) + st.ext
    case "random" => SliceFromEnd(randomHex(0), o.hashLength) + st.ext
    case "ghost" => uniquePath(st.(name := st.base, base := st.name), st.dir)
    case "custom" => Expand(Tokens(o.template), st, h, randomHex, o.hashLength, 0)
    case _ => st.base
  }

  // ---------------------------------------------------------------- factories, as values

  /** The file object `fromPath` and `fromURL` build from `path.parse(p)`. */
  function ParsedState(p: string): FileState {
    var q := Parse(p);
    FileState(q.name, q.base, q.ext, Some(q.dir), None, map[])
  }

  /** The file object of `fromPath(path, gcs, _dir)`; an empty path is an error. */
  function FromPathState(path: string, a: Adapter, dirArg: Option<string>, targetDir: string): (r: Result<FileState, string>)
    ensures r.Ok? <==> path != ""
    ensures r.Err? ==> r.error == "Path is required"
  {
    if path == "" then Err("Path is required")
    else Ok(Completed(ParsedState(path), a, dirArg, false, targetDir))
  }

  /** The pathname `fromURL` reads: of the URL when the string has "://", else of its file URL. */
  function UrlOrPathPathname(u: string, cwd: string): string {
    if Contains(u, "://") then UrlPathname(u) else FilePathname(cwd, u)
  }

  /** The file object of `fromURL(urlOrPath, gcs)`; an empty string is an error. */
  function FromUrlState(u: string, a: Adapter, cwd: string, targetDir: string): (r: Result<FileState, string>)
    ensures r.Ok? <==> u != ""
    ensures r.Err? ==> r.error == "URL is required"
  {
    if u == "" then Err("URL is required")
    else Ok(Completed(ParsedState(UrlOrPathPathname(u, cwd)), a, None, Contains(u, "://"), targetDir))
  }

  // ---------------------------------------------------------------- the object

  class GCSFile {
    const file: FileRecord
    const gcs: Adapter
    var computed: Option<string>
    const local: bool

    /**
     * `new GCSFile(file, gcs, _dir, url)` for a present file and adapter: completes `file` in
     * place, with `fromUrl` the truthiness of `url`; `targetDir` is `gcs.getTargetDir()`.
     */
    constructor (file: FileRecord, gcs: Adapter, dirArg: Option<string>, fromUrl: bool, targetDir: string)
      modifies file
      ensures this.file == file && this.gcs == gcs && computed == None
      ensures file.State() == Completed(old(file.State()), gcs, dirArg, fromUrl, targetDir)
      ensures local <==> file.path.Some? && file.path.value != ""
    {
      ghost var st0 := file.State();
      var d := if dirArg.Some? then dirArg else file.dir;
      if d.Some? && d.value != "" {
        var dir := ShiftLeading(gcs, SplitPath(d.value), fromUrl);
        file.dir := Some(Join(dir));
      } else {
        file.dir := Some(targetDir);
      }
      ghost var st1 := file.State();
      assert st1 == st0.(dir := Some(CompletedDir(st0, gcs, dirArg, fromUrl, targetDir)));
      assert Completed(st0, gcs, dirArg, fromUrl, targetDir) == Defaulted(st1);
      if file.ext == "" {
        file.ext := ExtName(file.name);
      }
      if file.base == "" {
        file.base := file.name;
        file.name := BaseName(file.name, file.ext);
      }
      assert file.State() == Defaulted(st1);
      this.file := file;
      this.gcs := gcs;
      computed := None;
      local := file.path.Some? && file.path.value != "";
    }

    /** `relative()` */
    function Relative(): (r: string)
      reads this, file
      requires file.dir.Some?
      ensures All(r, TameChar) && NoBackslash(r)
    {
      RelativeKey(gcs.opts, file.dir.value, Chosen(computed, file.base))
    }

    /** `serve()`, with `signedUrl` the URL GCS signs when `signed` is set. */
    function Serve(signedUrl: string): (r: string)
      reads this, file
      requires file.dir.Some?
      ensures gcs.opts.signed ==> r == signedUrl
      ensures !gcs.opts.signed ==> All(r, TameChar) && NoBackslash(r)
    {
      ServeUrl(gcs, file.dir.value, Chosen(computed, file.base), signedUrl)
    }

    /**
     * `getComputedName()`: records the name for the file's strategy. For `ghost`, Ghost's
     * helper sees `name` and `base` swapped, and the swap is undone afterwards.
     */
    method GetComputedName(digest: string, mixedDigest: string, randomHex: nat -> string,
                           uniquePath: (FileState, Option<string>) -> string) returns (name: string)
      modifies this, file
      ensures name == ComputedName(old(file.State()), gcs.opts, digest, mixedDigest, randomHex, uniquePath)
      ensures computed == Some(name)
      ensures file.State() == old(file.State())
    {
      var o := gcs.opts;
      var st := file.State();
      if o.filename == "ghost" {
        file.name, file.base := file.base, file.name;
        name := uniquePath(file.State(), file.dir);
        file.name, file.base := file.base, file.name;
      } else {
        name := ComputedName(st, o, digest, mixedDigest, randomHex, uniquePath);
      }
      computed := Some(name);
    }
  }

  /** `new GCSFile(file, gcs, …)` when either may be missing: both are required. */
  method Create(file: FileRecord?, gcs: Option<Adapter>, dirArg: Option<string>, fromUrl: bool, targetDir: string)
    returns (r: Result<GCSFile, string>)
    modifies file
    ensures r.Ok? <==> file != null && gcs.Some?
    ensures r.Err? ==> r.error == "File object and Adapter instance are required"
    ensures r.Ok? ==> fresh(r.value) && r.value.file == file && r.value.gcs == gcs.value && r.value.computed == None
    ensures r.Ok? ==> file.State() == Completed(old(file.State()), gcs.value, dirArg, fromUrl, targetDir)
  {
    if file == null || gcs.None? {
      return Err("File object and Adapter instance are required");
    }
    var f := new GCSFile(file, gcs.value, dirArg, fromUrl, targetDir);
    return Ok(f);
  }

  /** `fromPath(path, gcs, _dir)` */
  method FromPath(path: string, gcs: Adapter, dirArg: Option<string>, targetDir: string) returns (r: Result<GCSFile, string>)
    ensures r.Ok? <==> path != ""
    ensures r.Err? ==> r == FromPathState(path, gcs, dirArg, targetDir).PropagateFailure()
    ensures r.Ok? ==> fresh(r.value) && fresh(r.value.file) && r.value.gcs == gcs && r.value.computed == None
    ensures r.Ok? ==> r.value.file.State() == FromPathState(path, gcs, dirArg, targetDir).value
  {
    if path == "" {
      return Err("Path is required");
    }
    var rec := new FileRecord(ParsedState(path));
    var f := new GCSFile(rec, gcs, dirArg, false, targetDir);
    return Ok(f);
  }

  /** `fromFile(file, gcs, dir)` */
  method FromFile(file: FileRecord, gcs: Adapter, dirArg: Option<string>, targetDir: string) returns (f: GCSFile)
    modifies file
    ensures fresh(f) && f.file == file && f.gcs == gcs && f.computed == None
    ensures file.State() == Completed(old(file.State()), gcs, dirArg, false, targetDir)
  {
    f := new GCSFile(file, gcs, dirArg, false, targetDir);
  }

  /** `fromURL(urlOrPath, gcs)`, with `cwd` the process's working directory. */
  method FromURL(u: string, gcs: Adapter, cwd: string, targetDir: string) returns (r: Result<GCSFile, string>)
    ensures r.Ok? <==> u != ""
    ensures r.Err? ==> r == FromUrlState(u, gcs, cwd, targetDir).PropagateFailure()
    ensures r.Ok? ==> fresh(r.value) && fresh(r.value.file) && r.value.gcs == gcs && r.value.computed == None
    ensures r.Ok? ==> r.value.file.State() == FromUrlState(u, gcs, cwd, targetDir).value
  {
    if u == "" {
      return Err("URL is required");
    }
    var abs := Contains(u, "://");
    var pathname := if abs then UrlPathname(u) else FilePathname(cwd, u);
    var rec := new FileRecord(ParsedState(pathname));
    var f := new GCSFile(rec, gcs, None, abs, targetDir);
    return Ok(f);
  }
}
