/**
 * `GCSFile` of the older adapter (lib/file.mjs). Its constructor folds the prefix and the type
 * into `file.dir`, so `relative()` is simply `dir/base`; `FromURL` strips leading path parts by
 * string position and builds the file with an empty type.
 */
module LegacyFile {
  import opened Wrappers
  import opened Text
  import opened NodePath
  import opened Constants
  import opened Sanitizer
  import opened Records
  import opened WebUrl
  import opened LegacyOptions
  import GcsFile

  // ---------------------------------------------------------------- the constructor

  /**
   * The file object after `new GCSFile(file, gcs, dir, type)`: `dir` is
   * `join(prefix, type ?? opts.type, dir ?? targetDir)`, so it starts with the prefix and the type;
   * a missing `ext` is the extension of `name`; a missing `base` is `name`, and `name` then loses
   * its extension.
   */
  function Folded(st: FileState, a: Adapter, dirArg: Option<string>, typ: Option<string>, targetDir: string): (r: FileState)
    ensures r.dir.Some? && r.path == st.path && r.extra == st.extra
    ensures r.ext == (if st.ext != "" then st.ext else ExtName(st.name))
    ensures st.base != "" ==> r.base == st.base && r.name == st.name
    ensures st.base == "" ==> r.base == st.name && r.name == BaseName(st.name, r.ext)
  {
    var dir := Join([a.opts.prefix, typ.GetOr(a.opts.contentType), dirArg.GetOr(targetDir)]);
    var ext := if st.ext != "" then st.ext else ExtName(st.name);
    if st.base != "" then st.(dir := Some(dir), ext := ext)
    else st.(dir := Some(dir), ext := ext, base := st.name, name := BaseName(st.name, ext))
  }

  // ---------------------------------------------------------------- names and URLs

  /** A computed name takes effect only when it is a non-empty string. */
  predicate Truthy(computed: Option<string>) {
    computed.Some? && computed.value != ""
  }

  /** `relative()`: the computed name verbatim, else `dir/base` sanitized. */
  function RelativeOf(a: Adapter, st: FileState, computed: Option<string>): (r: string)
    requires st.dir.Some?
    ensures Truthy(computed) ==> r == computed.value
    ensures !Truthy(computed) ==> All(r, TameChar) && NoBackslash(r)
  {
    if Truthy(computed) then computed.value else Sanitized(a.opts, Join([st.dir.value, st.base]))
  }

  /** The bucket segment `absolute()` puts after the host. */
  function BucketPart(o: Options): seq<string> {
    if o.addBucketToPath then [o.bucket] else []
  }

  /**
   * `absolute()`: `protocol://host[/bucket]/` then the computed name, unsanitized, or `dir/base`
   * sanitized together with the scheme and host.
   */
  function AbsoluteOf(a: Adapter, st: FileState, computed: Option<string>): (r: string)
    requires st.dir.Some?
    ensures !Truthy(computed) ==> All(r, TameChar) && NoBackslash(r)
    ensures Truthy(computed) ==> r == a.opts.protocol + "://" + Join([a.opts.host] + BucketPart(a.opts) + [computed.value])
  {
    var proto := a.opts.protocol + "://";
    if Truthy(computed) then proto + Join([a.opts.host] + BucketPart(a.opts) + [computed.value])
    else Sanitized(a.opts, proto + Join([a.opts.host] + BucketPart(a.opts) + [st.dir.value, st.base]))
  }

  /** `passthrough()`: `/contentPath/` then the computed name unsanitized, or `dir/base` sanitized. */
  function PassthroughOf(a: Adapter, st: FileState, computed: Option<string>): (r: string)
    requires st.dir.Some?
    ensures !Truthy(computed) ==> All(r, TameChar) && NoBackslash(r)
    ensures Truthy(computed) ==> r == "/" + Join([a.contentPath, computed.value])
  {
    if Truthy(computed) then "/" + Join([a.contentPath, computed.value])
    else Sanitized(a.opts, "/" + Join([a.contentPath, st.dir.value, st.base]))
  }

  /** `serve()`: the signed URL, the passthrough path or the absolute URL, in that order. */
  function ServeOf(a: Adapter, st: FileState, computed: Option<string>, signedUrl: string): (r: string)
    requires st.dir.Some?
    ensures a.opts.signed ==> r == signedUrl
    ensures !a.opts.signed && a.opts.passthrough ==> r == PassthroughOf(a, st, computed)
    ensures !a.opts.signed && !a.opts.passthrough ==> r == AbsoluteOf(a, st, computed)
  {
    if a.opts.signed then signedUrl
    else if a.opts.passthrough then PassthroughOf(a, st, computed)
    else AbsoluteOf(a, st, computed)
  }

  // ---------------------------------------------------------------- computed names

  /**
   * The `base` `getComputedName()` chooses by `filename` strategy: `hash`, `unique`,
   * `hashunique`, `ghost` and `custom` replace it; `original`, `originalhash`, `random` and any
   * other strategy keep it. `digest`, `mixedDigest`, `randomHex` and `uniquePath` stand for the
   * same inputs as for the current adapter, except that the random bytes drawn here are 8, not 32.
   */
  function ChosenBase(st: FileState, o: Options, digest: string, mixedDigest: string,
                      randomHex: nat -> string, uniquePath: (FileState, Option<string>) -> string): (r: string)
    ensures o.filename !in {"hash", "unique", "hashunique", "ghost", "custom"} ==> r == st.base
    ensures o.filename == "hash" && 0 < o.hashLength <= |digest| ==> r == digest[|digest| - o.hashLength..] + st.ext
    ensures o.filename == "unique" && 0 < o.hashLength <= |randomHex(0)| ==>
              r == st.name + "-" + randomHex(0)[|randomHex(0)| - o.hashLength..] + st.ext
    ensures o.filename == "hashunique" && 0 < o.hashLength <= |mixedDigest| ==> r == mixedDigest[|mixedDigest| - o.hashLength..] + st.ext
    ensures o.filename == "ghost" ==> r == uniquePath(st.(name := st.base, base := st.name), st.dir)
  {
    match o.filename
    case "hash" => SliceFromEnd(digest, o.hashLength) + st.ext
    case "unique" => st.name + "-" + SliceFromEnd(randomHex(0), o.hashLength) + st.ext
    case "hashunique" => SliceFromEnd(mixedDigest, o.hashLength) + st.ext
    case "ghost" => uniquePath(st.(name := st.base, base := st.name), st.dir)
    case "custom" => GcsFile.Expand(Tokens(o.template), st, SliceFromEnd(digest, o.hashLength), randomHex, o.hashLength, 0)
    case _ => st.base
  }

  /** `getComputedName()`: `dir` joined with the chosen base, sanitized. */
  function ComputedName(st: FileState, a: Adapter, digest: string, mixedDigest: string,
                        randomHex: nat -> string, uniquePath: (FileState, Option<string>) -> string): (r: string)
    requires st.dir.Some?
    ensures All(r, TameChar) && NoBackslash(r)
    ensures a.opts.filename !in {"hash", "unique", "hashunique", "ghost", "custom"} ==> r == RelativeOf(a, st, None)
  {
    Sanitized(a.opts, Join([st.dir.value, ChosenBase(st, a.opts, digest, mixedDigest, randomHex, uniquePath)]))
  }

  // ---------------------------------------------------------------- stripping a URL's directory

  /**
   * `if (cond && dir.indexOf(x) === 1) dir = dir.slice(x.length + 1)`: when the test passes, `x`
   * sits right after the first character and is cut together with it.
   */
  function CutAt(dir: string, x: string, cond: bool): (r: string)
    ensures IsSuffix(r, dir)
  {
    if cond && IndexOf(dir, x) == 1 then dir[|x| + 1..] else dir
  }

  /** What a cut removes: nothing, or the first character and `x` right after it. */
  lemma CutAtShape(dir: string, x: string, cond: bool)
    ensures var r := CutAt(dir, x, cond); r == dir || (cond && |dir| > |x| && dir == dir[..1] + x + r)
    ensures cond && IndexOf(dir, x) == 1 ==> dir == dir[..1] + x + CutAt(dir, x, cond)
  {
    if cond && IndexOf(dir, x) == 1 {
      assert dir == dir[..1] + dir[1..1 + |x|] + dir[1 + |x|..];
    }
  }

  /** `r` is what remains of `s` after dropping some leading characters. */
  predicate IsSuffix(r: string, s: string) {
    |r| <= |s| && r == s[|s| - |r|..]
  }

  lemma SuffixOfSuffix(a: string, b: string, c: string)
    requires IsSuffix(b, a) && IsSuffix(c, b)
    ensures IsSuffix(c, a)
  {
    assert forall i :: 0 <= i < |c| ==> c[i] == b[|b| - |c| + i] == a[|a| - |b| + |b| - |c| + i];
  }

  lemma SuffixChain(a: string, b: string, c: string, d: string)
    requires IsSuffix(b, a) && IsSuffix(c, b) && IsSuffix(d, c)
    ensures IsSuffix(d, a)
  {
    SuffixOfSuffix(a, b, c);
    SuffixOfSuffix(a, c, d);
  }

  /** `FromURL`'s three cuts: the content path (with passthrough), the bucket (with `addBucketToPath`), the type. */
  function StripUrlDir(a: Adapter, dir: string): (r: string)
    ensures IsSuffix(r, dir)
  {
    var d1 := CutAt(dir, a.contentPath, a.opts.passthrough);
    var d2 := CutAt(d1, a.opts.bucket, a.opts.addBucketToPath);
    var d3 := CutAt(d2, a.opts.contentType, true);
    SuffixChain(dir, d1, d2, d3);
    d3
  }

  /**
   * The cuts test string positions, not segments: a directory whose first segment merely begins
   * with the type loses the middle of that segment.
   */
  lemma PartialSegmentCut(a: Adapter, rest: string)
    requires !a.opts.passthrough && !a.opts.addBucketToPath && a.opts.contentType == "images"
    ensures StripUrlDir(a, "/images-old/" + rest) == "-old/" + rest
  {
    var dir := "/images-old/" + rest;
    assert dir[1..7] == "images";
    assert OccursAt(dir, "images", 1);
    assert !OccursAt(dir, "images", 0) by { assert dir[0] == '/'; }
    assert dir[7..] == "-old/" + rest;
  }

  // ---------------------------------------------------------------- factories, as values

  /** The file object `FromPath` and `FromURL` build from `path.parse(p)`: no `dir`, no local path. */
  function ParsedState(p: string): FileState {
    var q := Parse(p);
    FileState(q.name, q.base, q.ext, None, None, map[])
  }

  /** The file object of `FromPath(path, gcs, target)`: the target when truthy, else the parsed dir. */
  function FromPathState(path: string, a: Adapter, target: Option<string>, targetDir: string): (r: Result<FileState, string>)
    ensures r.Ok? <==> path != ""
    ensures r.Err? ==> r.error == "Path is required"
    ensures r.Ok? ==> r.value == Folded(ParsedState(path), a, Some(if target.Some? && target.value != "" then target.value else Parse(path).dir), None, targetDir)
  {
    if path == "" then Err("Path is required")
    else
      var dir := if target.Some? && target.value != "" then target.value else Parse(path).dir;
      Ok(Folded(ParsedState(path), a, Some(dir), None, targetDir))
  }

  /**
   * The file object of `FromURL(urlOrPath, gcs)`: the parsed pathname's dir after the cuts, with
   * an empty type; an empty string is an error.
   */
  function FromUrlState(u: string, a: Adapter, cwd: string, targetDir: string): (r: Result<FileState, string>)
    ensures r.Ok? <==> u != ""
    ensures r.Err? ==> r.error == "URL is required"
    ensures r.Ok? ==> r.value.dir == Some(Join([a.opts.prefix, "", StripUrlDir(a, Parse(GcsFile.UrlOrPathPathname(u, cwd)).dir)]))
  {
    if u == "" then Err("URL is required")
    else
      var p := GcsFile.UrlOrPathPathname(u, cwd);
      Ok(Folded(ParsedState(p), a, Some(StripUrlDir(a, Parse(p).dir)), Some(""), targetDir))
  }

  // ---------------------------------------------------------------- the object

  class GCSFile {
    const file: FileRecord
    const gcs: Adapter
    var computed: Option<string>
    const local: bool

    /** `new GCSFile(file, gcs, dir, type)` for a present file and adapter; `targetDir` is `gcs.getTargetDir()`. */
    constructor (file: FileRecord, gcs: Adapter, dirArg: Option<string>, typ: Option<string>, targetDir: string)
      modifies file
      ensures this.file == file && this.gcs == gcs && computed == None
      ensures file.State() == Folded(old(file.State()), gcs, dirArg, typ, targetDir)
      ensures local <==> file.path.Some? && file.path.value != ""
    {
      var o := gcs.opts;
      file.dir := Some(Join([o.prefix, typ.GetOr(o.contentType), dirArg.GetOr(targetDir)]));
      if file.ext == "" {
        file.ext := ExtName(file.name);
      }
      if file.base == "" {
        file.base := file.name;
        file.name := BaseName(file.name, file.ext);
      }
      this.file := file;
      this.gcs := gcs;
      computed := None;
      local := file.path.Some? && file.path.value != "";
    }

    /** `relative()` */
    function Relative(): string
      reads this, file
      requires file.dir.Some?
    {
      RelativeOf(gcs, file.State(), computed)
    }

    /** `serve()`, with `signedUrl` the URL GCS signs when `signed` is set. */
    function Serve(signedUrl: string): string
      reads this, file
      requires file.dir.Some?
    {
      ServeOf(gcs, file.State(), computed, signedUrl)
    }

    /**
     * `getComputedName()`: records the name for the file's strategy. For `ghost`, Ghost's helper
     * sees `name` and `base` swapped, and the swap is undone afterwards.
     */
    method GetComputedName(digest: string, mixedDigest: string, randomHex: nat -> string,
                           uniquePath: (FileState, Option<string>) -> string) returns (name: string)
      requires file.dir.Some?
      modifies this, file
      ensures name == ComputedName(old(file.State()), gcs, digest, mixedDigest, randomHex, uniquePath)
      ensures computed == Some(name)
      ensures file.State() == old(file.State())
    {
      var o := gcs.opts;
      var st := file.State();
      var base: string;
      if o.filename == "ghost" {
        file.name, file.base := file.base, file.name;
        base := uniquePath(file.State(), st.dir);
        file.name, file.base := file.base, file.name;
      } else {
        base := ChosenBase(st, o, digest, mixedDigest, randomHex, uniquePath);
      }
      name := Sanitized(o, Join([st.dir.value, base]));
      computed := Some(name);
    }
  }

  /** `new GCSFile(file, gcs, …)` when either may be missing: both are required. */
  method Create(file: FileRecord?, gcs: Option<Adapter>, dirArg: Option<string>, typ: Option<string>, targetDir: string)
    returns (r: Result<GCSFile, string>)
    modifies file
    ensures r.Ok? <==> file != null && gcs.Some?
    ensures r.Err? ==> r.error == "File object and Adapter instance are required"
    ensures r.Ok? ==> fresh(r.value) && r.value.file == file && r.value.gcs == gcs.value && r.value.computed == None
    ensures r.Ok? ==> file.State() == Folded(old(file.State()), gcs.value, dirArg, typ, targetDir)
  {
    if file == null || gcs.None? {
      return Err("File object and Adapter instance are required");
    }
    var f := new GCSFile(file, gcs.value, dirArg, typ, targetDir);
    return Ok(f);
  }

  /** `FromPath(path, gcs, target)` */
  method FromPath(path: string, gcs: Adapter, target: Option<string>, targetDir: string) returns (r: Result<GCSFile, string>)
    ensures r.Ok? <==> path != ""
    ensures r.Err? ==> r == FromPathState(path, gcs, target, targetDir).PropagateFailure()
    ensures r.Ok? ==> fresh(r.value) && fresh(r.value.file) && r.value.gcs == gcs && r.value.computed == None
    ensures r.Ok? ==> r.value.file.State() == FromPathState(path, gcs, target, targetDir).value
  {
    if path == "" {
      return Err("Path is required");
    }
    var q := Parse(path);
    var rec := new FileRecord(ParsedState(path));
    var f := new GCSFile(rec, gcs, Some(if target.Some? && target.value != "" then target.value else q.dir), None, targetDir);
    return Ok(f);
  }

  /** `FromFile(file, gcs, dir)`: the record's own `dir` is ignored. */
  method FromFile(file: FileRecord, gcs: Adapter, dirArg: Option<string>, targetDir: string) returns (f: GCSFile)
    modifies file
    ensures fresh(f) && f.file == file && f.gcs == gcs && f.computed == None
    ensures file.State() == Folded(old(file.State()), gcs, dirArg, None, targetDir)
  {
    f := new GCSFile(file, gcs, dirArg, None, targetDir);
  }

  /** `FromURL`'s cuts of the parsed `dir`, one `slice` after another. */
  method CutLeading(gcs: Adapter, parsed: string) returns (dir: string)
    ensures dir == StripUrlDir(gcs, parsed)
  {
    var o := gcs.opts;
    dir := parsed;
    if o.passthrough && IndexOf(dir, gcs.contentPath) == 1 {
      dir := dir[|gcs.contentPath| + 1..];
    }
    ghost var d1 := dir;
    assert d1 == CutAt(parsed, gcs.contentPath, o.passthrough);
    if o.addBucketToPath && IndexOf(dir, o.bucket) == 1 {
      dir := dir[|o.bucket| + 1..];
    }
    ghost var d2 := dir;
    assert d2 == CutAt(d1, o.bucket, o.addBucketToPath);
    if IndexOf(dir, o.contentType) == 1 {
      dir := dir[|o.contentType| + 1..];
    }
    assert dir == CutAt(d2, o.contentType, true);
  }

  /** `FromURL(urlOrPath, gcs)`, with `cwd` the process's working directory: the cuts, one after another. */
  method FromURL(u: string, gcs: Adapter, cwd: string, targetDir: string) returns (r: Result<GCSFile, string>)
    ensures r.Ok? <==> u != ""
    ensures r.Err? ==> r == FromUrlState(u, gcs, cwd, targetDir).PropagateFailure()
    ensures r.Ok? ==> fresh(r.value) && fresh(r.value.file) && r.value.gcs == gcs && r.value.computed == None
    ensures r.Ok? ==> r.value.file.State() == FromUrlState(u, gcs, cwd, targetDir).value
  {
    if u == "" {
      return Err("URL is required");
    }
    var pathname := if Contains(u, "://") then UrlPathname(u) else FilePathname(cwd, u);
    assert pathname == GcsFile.UrlOrPathPathname(u, cwd);
    var dir := CutLeading(gcs, Parse(pathname).dir);
    var rec := new FileRecord(ParsedState(pathname));
    var f := new GCSFile(rec, gcs, Some(dir), Some(""), targetDir);
    return Ok(f);
  }
}
