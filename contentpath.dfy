/** `getContentPath(type)`: where Ghost serves each kind of content from. */
module ContentPath {
  import opened Wrappers
  import opened Text
  import opened NodePath

  /** The content types Ghost defines a content path for. */
  predicate IsContentType(t: string) {
    t == "images" || t == "media" || t == "files" || t == "themes" || t == "adapters"
    || t == "logs" || t == "data" || t == "settings" || t == "public"
  }

  /**
   * `join(base, type + '/')` for a known type, with `base` the configured content path or
   * "content" when none is configured; any other type is an error.
   */
  function GetContentPath(configured: Option<string>, t: string): (r: Result<string, string>)
    ensures r.Ok? <==> IsContentType(t)
  {
    var base := configured.GetOr("content");
    if IsContentType(t) then Ok(Join([base, t + "/"]))
    else Err("Invalid content type: " + t)
  }

  // ---------------------------------------------------------------- lemmas

  /** A single, plain path segment. */
  predicate PlainSegment(s: string) {
    s != "" && s != "." && s != ".." && NoSeparator(s, false)
  }

  predicate PlainSegments(segs: seq<string>) {
    forall k :: 0 <= k < |segs| ==> PlainSegment(segs[k])
  }

  /** A directory written as its segments joined by "/", absolute when `rooted`. */
  function Under(rooted: bool, segs: seq<string>): string {
    (if rooted then "/" else "") + JoinWith(segs, '/')
  }

  /**
   * For a known type and a configured content path of plain segments, absolute (as Ghost's
   * `paths:contentPath` usually is) or relative, the content path is `base/type/`: the base as
   * written, then the type, and the trailing "/" kept.
   */
  lemma ContentPathShape(rooted: bool, segs: seq<string>, t: string)
    requires IsContentType(t) && |segs| >= 1 && PlainSegments(segs)
    ensures GetContentPath(Some(Under(rooted, segs)), t) == Ok(Under(rooted, segs) + "/" + t + "/")
  {
    var base := Under(rooted, segs);
    assert PlainSegment(t);
    JoinArgs(base, t + "/");
    NormalizeUnder(rooted, segs, t);
  }

  /** Without a configured content path, it is `content/type/`. */
  lemma DefaultContentPath(t: string)
    requires IsContentType(t)
    ensures GetContentPath(None, t) == Ok("content/" + t + "/")
  {
    assert PlainSegment("content") by { assert NoSeparator("content", false); }
    assert PlainSegments(["content"]);
    ContentPathShape(false, ["content"], t);
    assert Under(false, ["content"]) == "content";
    assert GetContentPath(None, t) == GetContentPath(Some("content"), t);
    assert "content" + "/" + t + "/" == "content/" + t + "/";
  }

  /** `join(a, b)` of two non-empty arguments normalises `a/b`. */
  lemma JoinArgs(a: string, b: string)
    requires a != "" && b != ""
    ensures Join([a, b]) == Normalize(a + "/" + b)
  {
    var args := [a, b];
    assert NonEmpty(args) == args by {
      assert args[1..] == [b];
      assert NonEmpty([b]) == [b] by { assert [b][1..] == []; }
    }
    assert JoinWith(args, '/') == a + "/" + b by { assert args[1..] == [b]; }
  }

  /** Normalising `base/t/` for a base of plain segments changes nothing. */
  lemma NormalizeUnder(rooted: bool, segs: seq<string>, t: string)
    requires |segs| >= 1 && PlainSegments(segs) && PlainSegment(t)
    ensures Normalize(Under(rooted, segs) + "/" + (t + "/")) == Under(rooted, segs) + "/" + t + "/"
  {
    var lead := if rooted then "/" else "";
    var j := JoinWith(segs, '/');
    var c := Under(rooted, segs) + "/" + (t + "/");
    ResolveUnder(rooted, segs, t);
    LeadChar(rooted, segs, t);
    NormalizeTrailing(c, lead, j + "/" + t);
    UnderGlue(rooted, segs, t);
  }

  lemma UnderGlue(rooted: bool, segs: seq<string>, t: string)
    ensures (if rooted then "/" else "") + (JoinWith(segs, '/') + "/" + t) + "/" == Under(rooted, segs) + "/" + t + "/"
  {
  }

  /** The kept segments of `base/t/`, joined, are the base's segments and `t`. */
  lemma ResolveUnder(rooted: bool, segs: seq<string>, t: string)
    requires |segs| >= 1 && PlainSegments(segs) && PlainSegment(t)
    ensures var c := Under(rooted, segs) + "/" + (t + "/");
            JoinWith(Resolve([], Split(c, false), !rooted), '/') == JoinWith(segs, '/') + "/" + t
  {
    var c := Under(rooted, segs) + "/" + (t + "/");
    var xs := PartsUnder(rooted, segs, t);
    UnderText(rooted, segs, t);
    SplitUnder(rooted, segs, t);
    KeepUnder(rooted, segs, t);
    ResolveNoDotDot([], xs, !rooted);
    assert [] + (segs + [t]) == segs + [t];
    JoinWithSnoc(segs + [t]);
    assert (segs + [t])[..|segs|] == segs;
  }

  lemma UnderText(rooted: bool, segs: seq<string>, t: string)
    ensures Under(rooted, segs) + "/" + (t + "/") == (if rooted then "/" else "") + (JoinWith(segs, '/') + "/" + (t + "/"))
  {
  }

  /** `normalize` of a path ending in "/" whose kept segments join to a non-empty `body`. */
  lemma NormalizeTrailing(c: string, lead: string, body: string)
    requires c != "" && c[|c| - 1] == '/' && body != ""
    requires lead == (if c[0] == '/' then "/" else "")
    requires JoinWith(Resolve([], Split(c, false), c[0] != '/'), '/') == body
    ensures Normalize(c) == lead + body + "/"
  {
  }

  /** The lead character of `base/t/` says whether it is rooted, and it ends in "/". */
  lemma LeadChar(rooted: bool, segs: seq<string>, t: string)
    requires |segs| >= 1 && PlainSegments(segs)
    ensures var c := Under(rooted, segs) + "/" + (t + "/");
            (c[0] == '/' <==> rooted) && c[|c| - 1] == '/'
  {
    var j := JoinWith(segs, '/');
    if !rooted {
      JoinWithHead(segs);
      assert Under(rooted, segs) == j;
      assert segs[0][0] != '/';
    }
  }

  /** A join of non-empty parts starts with the first part's first character. */
  lemma JoinWithHead(segs: seq<string>)
    requires |segs| >= 1 && segs[0] != ""
    ensures JoinWith(segs, '/') != "" && JoinWith(segs, '/')[0] == segs[0][0]
  {
  }

  /** The "/"-parts of `base/t/`: a leading "" when rooted, the segments, `t` and a final "". */
  function PartsUnder(rooted: bool, segs: seq<string>, t: string): seq<string> {
    (if rooted then [""] else []) + (segs + [t, ""])
  }

  lemma SplitUnder(rooted: bool, segs: seq<string>, t: string)
    requires |segs| >= 1 && PlainSegments(segs) && PlainSegment(t)
    ensures Split((if rooted then "/" else "") + (JoinWith(segs, '/') + "/" + (t + "/")), false) == PartsUnder(rooted, segs, t)
  {
    var j := JoinWith(segs, '/');
    var rest := j + "/" + (t + "/");
    SplitJoin(segs, false);
    SplitConcat(j, t + "/", false);
    assert t + "/" == t + "/" + "";
    SplitConcat(t, "", false);
    SplitJoin([t], false);
    assert Split(rest, false) == segs + [t, ""];
    if rooted {
      SplitConcat("", rest, false);
      assert "" + "/" + rest == "/" + rest;
    } else {
      assert [] + (segs + [t, ""]) == segs + [t, ""];
      assert "" + rest == rest;
    }
  }

  /** Resolving the parts of `base/t/` keeps exactly the segments and `t`. */
  lemma KeepUnder(rooted: bool, segs: seq<string>, t: string)
    requires |segs| >= 1 && PlainSegments(segs) && PlainSegment(t)
    ensures NoDotDot(PartsUnder(rooted, segs, t)) && Keep(PartsUnder(rooted, segs, t)) == segs + [t]
  {
    var xs := PartsUnder(rooted, segs, t);
    KeepPlain(segs + [t]);
    assert Keep([""]) == [] by { assert [""][1..] == []; }
    KeepConcat(segs + [t], [""]);
    assert segs + [t, ""] == (segs + [t]) + [""];
    if rooted {
      KeepConcat([""], segs + [t, ""]);
    } else {
      assert xs == segs + [t, ""];
    }
  }
}
