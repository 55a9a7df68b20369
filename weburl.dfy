/**
 * The two URL readings `fromURL` relies on: the `pathname` of a `new URL(s)` for a string with a
 * scheme, and the `pathname` of `pathToFileURL(p)` for a bare path. Percent-encoding is not
 * modelled: characters keep their own spelling.
 */
module WebUrl {
  import opened Text
  import opened NodePath

  /** The position of the first character satisfying `p`, or `|s|`. */
  function FirstWhere(s: string, p: char -> bool): (n: nat)
    ensures n <= |s|
    ensures forall i :: 0 <= i < n ==> !p(s[i])
    ensures n < |s| ==> p(s[n])
  {
    if s == "" || p(s[0]) then 0 else 1 + FirstWhere(s[1..], p)
  }

  /** Where the authority (host and port) of a URL ends. */
  predicate EndsAuthority(c: char) {
    c == '/' || c == '?' || c == '#'
  }

  /** Where the path of a URL ends. */
  predicate EndsPath(c: char) {
    c == '?' || c == '#'
  }

  /**
   * `new URL(u).pathname` for `scheme://authority/path?query#fragment`: the text from the first
   * `/` after the authority up to any `?` or `#`, and "/" when that is empty.
   */
  function UrlPathname(u: string): (r: string)
    ensures r != ""
  {
    var i := IndexOf(u, "://");
    if i < 0 then "/"
    else
      var rest := u[i + 3..];
      var tail := rest[FirstWhere(rest, EndsAuthority)..];
      var path := tail[..FirstWhere(tail, EndsPath)];
      if path == "" then "/" else path
  }

  /**
   * `pathToFileURL(p).pathname`: `p` resolved against the working directory `cwd` (an absolute
   * path, as the process's working directory always is), with a trailing "/" of `p` kept.
   */
  function FilePathname(cwd: string, p: string): (r: string)
    ensures r != "" && r[0] == '/'
  {
    var segs := if p != "" && p[0] == '/' then Split(p, false) else Split(cwd, false) + Split(p, false);
    var r := "/" + JoinWith(Resolve([], segs, false), '/');
    if p != "" && p[|p| - 1] == '/' && r[|r| - 1] != '/' then r + "/" else r
  }

  // ---------------------------------------------------------------- lemmas

  predicate NoChar(s: string, c: char) {
    forall i :: 0 <= i < |s| ==> s[i] != c
  }

  /** In `scheme://…` with no "/" in the scheme, the first "://" is the one after the scheme. */
  lemma SchemeSeparator(scheme: string, rest: string)
    requires NoChar(scheme, '/')
    ensures IndexOf(scheme + "://" + rest, "://") == |scheme|
  {
    var u := scheme + "://" + rest;
    assert u[|scheme|..|scheme| + 3] == "://";
    assert OccursAt(u, "://", |scheme|);
    forall j | 0 <= j < |scheme| ensures !OccursAt(u, "://", j) {
      assert u[j + 1] == (if j + 1 < |scheme| then scheme[j + 1] else ':');
    }
  }

  /** The pathname of `scheme://host/path` is "/" + `path` when the host, scheme and path fit the form. */
  lemma UrlPathnameOf(scheme: string, host: string, path: string)
    requires NoChar(scheme, '/')
    requires forall i :: 0 <= i < |host| ==> !EndsAuthority(host[i])
    requires forall i :: 0 <= i < |path| ==> !EndsPath(path[i])
    ensures UrlPathname(scheme + "://" + host + "/" + path) == "/" + path
  {
    var u := scheme + "://" + host + "/" + path;
    assert u == scheme + "://" + (host + "/" + path);
    SchemeSeparator(scheme, host + "/" + path);
    var rest := u[|scheme| + 3..];
    assert rest == host + "/" + path;
    AuthorityEnd(host, path);
    var tail := rest[|host|..];
    assert tail == "/" + path;
    PathEnd(path);
  }

  lemma AuthorityEnd(host: string, path: string)
    requires forall i :: 0 <= i < |host| ==> !EndsAuthority(host[i])
    ensures FirstWhere(host + "/" + path, EndsAuthority) == |host|
  {
    var s := host + "/" + path;
    assert s[|host|] == '/';
    assert forall i :: 0 <= i < |host| ==> s[i] == host[i];
  }

  lemma PathEnd(path: string)
    requires forall i :: 0 <= i < |path| ==> !EndsPath(path[i])
    ensures FirstWhere("/" + path, EndsPath) == |path| + 1
  {
    var s := "/" + path;
    assert forall i :: 1 <= i < |s| ==> s[i] == path[i - 1];
  }

  /** A bare absolute path of plain segments is its own file-URL pathname. */
  lemma FilePathnameOf(cwd: string, xs: seq<string>)
    requires forall k :: 0 <= k < |xs| ==> xs[k] != "" && xs[k] != "." && xs[k] != ".." && NoSeparator(xs[k], false)
    ensures FilePathname(cwd, "/" + JoinWith(xs, '/')) == "/" + JoinWith(xs, '/')
  {
    RootedResolve(xs);
    RootedTail(xs);
  }

  /** A rooted path of segments ends in "/" only when there are no segments. */
  lemma RootedTail(xs: seq<string>)
    requires forall k :: 0 <= k < |xs| ==> xs[k] != "" && NoSeparator(xs[k], false)
    ensures var p := "/" + JoinWith(xs, '/'); p[|p| - 1] == '/' <==> xs == []
  {
    if xs != [] {
      var p := "/" + JoinWith(xs, '/');
      var last := xs[|xs| - 1];
      RootedLast(xs);
      assert p[|p| - 1] == last[|last| - 1];
    }
  }

  /** Resolving the segments of a rooted path of plain segments gives those segments back. */
  lemma RootedResolve(xs: seq<string>)
    requires forall k :: 0 <= k < |xs| ==> xs[k] != "" && xs[k] != "." && xs[k] != ".." && NoSeparator(xs[k], false)
    ensures Resolve([], Split("/" + JoinWith(xs, '/'), false), false) == xs
  {
    if xs == [] {
      RootResolve();
    } else {
      RootedSplit(xs);
      RootedKeep(xs);
    }
  }

  lemma RootResolve()
    ensures Resolve([], Split("/", false), false) == []
  {
    assert "/" == "" + "/" + "";
    SplitConcat("", "", false);
  }

  lemma RootedKeep(xs: seq<string>)
    requires forall k :: 0 <= k < |xs| ==> xs[k] != "" && xs[k] != "." && xs[k] != ".."
    ensures Resolve([], [""] + xs, false) == xs
  {
    assert NoDotDot([""] + xs);
    ResolveNoDotDot([], [""] + xs, false);
    KeepPlain(xs);
    assert ([""] + xs)[1..] == xs;
  }

  lemma RootedSplit(xs: seq<string>)
    requires |xs| >= 1
    requires forall k :: 0 <= k < |xs| ==> NoSeparator(xs[k], false)
    ensures Split("/" + JoinWith(xs, '/'), false) == [""] + xs
  {
    var j := JoinWith(xs, '/');
    assert ("/" + j)[0] == '/' && ("/" + j)[1..] == j;
    SplitJoin(xs, false);
  }

  /** A rooted path of segments ends with the last segment. */
  lemma RootedLast(xs: seq<string>)
    requires |xs| >= 1
    ensures var p := "/" + JoinWith(xs, '/'); |p| >= |xs[|xs| - 1]| && p[|p| - |xs[|xs| - 1]|..] == xs[|xs| - 1]
  {
    AbsoluteAsLast(xs);
  }
}
