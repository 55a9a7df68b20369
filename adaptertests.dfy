/**
 * The `fromURL` cases of tests/adapter.mjs, stated for the current adapter: the object names
 * `relative()` gives for a Ghost URL, a bare serve path, a virtual-hosted GCS URL and a
 * path-style GCS URL, for any working directory and target directory.
 */
module AdapterTests {
  import opened Wrappers
  import opened Text
  import opened NodePath
  import opened Constants
  import opened Sanitizer
  import opened WebUrl
  import opened GcsOptions
  import opened GcsFile
  import opened GcsAdapter
  import opened RoundTrip

  /** `new GCSAdapter({ bucket: 'BUCKET' })` */
  function Plain(): Adapter {
    Constructed(NoOptions("BUCKET"), None)
  }

  /** `new GCSAdapter({ bucket: 'BUCKET', prefix: 'ghost', addPrefixToURL: true, virtual })` */
  function Prefixed(virtual: Option<bool>): Adapter {
    Constructed(NoOptions("BUCKET").(prefix := Some("ghost"), addPrefixToURL := Some(true), virtual := virtual), None)
  }

  // ---------------------------------------------------------------- the adapters' options

  lemma PlainOptions()
    ensures Plain().opts.prefix == "" && Plain().opts.contentType == "images" && Plain().contentPath == "content"
    ensures !PrefixShown(Plain().opts)
  {
  }

  lemma PrefixedOptions(virtual: Option<bool>)
    ensures Prefixed(virtual).opts.prefix == "ghost" && Prefixed(virtual).opts.contentType == "images"
    ensures Prefixed(virtual).contentPath == "content" && PrefixShown(Prefixed(virtual).opts)
    ensures Prefixed(virtual).opts.addBucketToURL <==> virtual == Some(false)
  {
    var raw := NoOptions("BUCKET").(prefix := Some("ghost"), addPrefixToURL := Some(true), virtual := virtual);
    assert BaseHost(raw) == DefaultHost;
  }

  // ---------------------------------------------------------------- segments of the test paths

  lemma DateSegments()
    ensures CleanSegments(["2025", "05"]) && CleanSegment("logo.png") && CleanSegment("images")
    ensures Dotted(["2025", "05"]) == "2025/05"
  {
    assert ["2025", "05"][1..] == ["05"];
  }

  /** The object name of `2025/05/logo.png` under the type `images` and a prefix, as a join. */
  lemma DateKeyJoin(o: Options)
    requires o.contentType == "images" && (o.prefix == "" || CleanSegment(o.prefix))
    ensures RelativeKey(o, Join(["2025", "05"]), "logo.png")
         == JoinWith((if o.prefix == "" then [] else [o.prefix]) + ["images"] + ["2025", "05"] + ["logo.png"], '/')
  {
    DateSegments();
    JoinClean(["2025", "05"]);
    KeyOf(o, ["2025", "05"], "logo.png");
  }

  /** Without a prefix the object name is `images/2025/05/logo.png`. */
  lemma PlainDateKey(o: Options)
    requires o.prefix == "" && o.contentType == "images"
    ensures RelativeKey(o, Join(["2025", "05"]), "logo.png") == "images/2025/05/logo.png"
  {
    DateKeyJoin(o);
    PlainKeyList();
    ImagesText();
  }

  /** Under the prefix `ghost` the object name is `ghost/images/2025/05/logo.png`. */
  lemma GhostDateKey(o: Options)
    requires o.prefix == "ghost" && o.contentType == "images"
    ensures RelativeKey(o, Join(["2025", "05"]), "logo.png") == "ghost/images/2025/05/logo.png"
  {
    assert CleanSegment("ghost");
    DateKeyJoin(o);
    PrefixedKeyList();
    GhostImagesText();
  }

  lemma PlainKeyList()
    ensures [] + ["images"] + ["2025", "05"] + ["logo.png"] == ["images"] + ["2025", "05", "logo.png"]
  {
  }

  lemma PrefixedKeyList()
    ensures ["ghost"] + ["images"] + ["2025", "05"] + ["logo.png"] == ["ghost"] + (["images"] + ["2025", "05", "logo.png"])
  {
  }

  // ---------------------------------------------------------------- the test strings, one "/" at a time

  lemma JoinCons(h: string, rest: seq<string>, t: string)
    requires |rest| >= 1 && JoinWith(rest, '/') == t
    ensures JoinWith([h] + rest, '/') == h + "/" + t
  {
    assert ([h] + rest)[1..] == rest;
  }

  lemma DateText()
    ensures JoinWith(["2025", "05", "logo.png"], '/') == "2025/05/logo.png"
  {
    assert ["2025", "05", "logo.png"][1..] == ["05", "logo.png"];
    assert ["05", "logo.png"][1..] == ["logo.png"];
    assert "2025" + "/" + ("05" + "/" + "logo.png") == "2025/05/logo.png";
  }

  lemma ImagesText()
    ensures JoinWith(["images"] + ["2025", "05", "logo.png"], '/') == "images/2025/05/logo.png"
  {
    DateText();
    JoinCons("images", ["2025", "05", "logo.png"], "2025/05/logo.png");
    assert "images" + "/" + "2025/05/logo.png" == "images/2025/05/logo.png";
  }

  lemma GhostImagesText()
    ensures JoinWith(["ghost"] + (["images"] + ["2025", "05", "logo.png"]), '/') == "ghost/images/2025/05/logo.png"
  {
    ImagesText();
    JoinCons("ghost", ["images"] + ["2025", "05", "logo.png"], "images/2025/05/logo.png");
    assert "ghost" + "/" + "images/2025/05/logo.png" == "ghost/images/2025/05/logo.png";
  }

  /** `content/images/2025/05/logo.png` */
  lemma ContentText()
    ensures JoinWith(["content", "images", "2025", "05"] + ["logo.png"], '/') == "content/images/2025/05/logo.png"
  {
    ContentList();
    ImagesText();
    JoinCons("content", ["images"] + ["2025", "05", "logo.png"], "images/2025/05/logo.png");
    ContentGlue();
  }

  lemma ContentList()
    ensures ["content", "images", "2025", "05"] + ["logo.png"] == ["content"] + (["images"] + ["2025", "05", "logo.png"])
  {
  }

  lemma ContentGlue()
    ensures "content" + "/" + "images/2025/05/logo.png" == "content/images/2025/05/logo.png"
  {
  }

  /** `ghost/2025/05/logo.png` */
  lemma GhostDateText()
    ensures JoinWith(["ghost", "2025", "05"] + ["logo.png"], '/') == "ghost/2025/05/logo.png"
  {
    assert ["ghost", "2025", "05"] + ["logo.png"] == ["ghost"] + ["2025", "05", "logo.png"];
    DateText();
    JoinCons("ghost", ["2025", "05", "logo.png"], "2025/05/logo.png");
    assert "ghost" + "/" + "2025/05/logo.png" == "ghost/2025/05/logo.png";
  }

  lemma BucketList()
    ensures ["BUCKET", "ghost", "images", "2025", "05"] + ["logo.png"]
         == ["BUCKET"] + (["ghost"] + (["images"] + ["2025", "05", "logo.png"]))
  {
  }

  /** `BUCKET/ghost/images/2025/05/logo.png` */
  lemma BucketText()
    ensures JoinWith(["BUCKET", "ghost", "images", "2025", "05"] + ["logo.png"], '/') == "BUCKET/ghost/images/2025/05/logo.png"
  {
    BucketList();
    GhostImagesText();
    JoinCons("BUCKET", ["ghost"] + (["images"] + ["2025", "05", "logo.png"]), "ghost/images/2025/05/logo.png");
    BucketGlue();
  }

  lemma BucketGlue()
    ensures "BUCKET" + "/" + "ghost/images/2025/05/logo.png" == "BUCKET/ghost/images/2025/05/logo.png"
  {
  }

  lemma GhostUrlText()
    ensures "http://localhost:2368/content/images/2025/05/logo.png"
         == "http" + "://" + "localhost:2368" + "/" + "content/images/2025/05/logo.png"
  {
    GhostUrlSplit();
    GhostUrlHead();
  }

  lemma GhostUrlSplit()
    ensures "http://localhost:2368/content/images/2025/05/logo.png"
         == "http://localhost:2368/" + "content/images/2025/05/logo.png"
  {
  }

  lemma GhostUrlHead()
    ensures "http://localhost:2368/" == "http" + "://" + "localhost:2368" + "/"
  {
  }

  lemma VirtualUrlText()
    ensures "https://BUCKET.storage.googleapis.com/ghost/2025/05/logo.png"
         == "https" + "://" + "BUCKET.storage.googleapis.com" + "/" + "ghost/2025/05/logo.png"
  {
    VirtualUrlSplit();
    VirtualUrlHead();
  }

  lemma VirtualUrlSplit()
    ensures "https://BUCKET.storage.googleapis.com/ghost/2025/05/logo.png"
         == "https://BUCKET.storage.googleapis.com/" + "ghost/2025/05/logo.png"
  {
  }

  lemma VirtualUrlHead()
    ensures "https://BUCKET.storage.googleapis.com/" == "https" + "://" + "BUCKET.storage.googleapis.com" + "/"
  {
  }

  lemma PathStyleUrlText()
    ensures "https://storage.googleapis.com/BUCKET/ghost/images/2025/05/logo.png"
         == "https" + "://" + "storage.googleapis.com" + "/" + "BUCKET/ghost/images/2025/05/logo.png"
  {
    PathStyleUrlSplit();
    PathStyleUrlHead();
  }

  lemma PathStyleUrlSplit()
    ensures "https://storage.googleapis.com/BUCKET/ghost/images/2025/05/logo.png"
         == "https://storage.googleapis.com/" + "BUCKET/ghost/images/2025/05/logo.png"
  {
    PathStyleUrlHalves();
    PathStyleBucketSplit();
  }

  lemma PathStyleUrlHalves()
    ensures "https://storage.googleapis.com/BUCKET/ghost/images/2025/05/logo.png"
         == "https://storage.googleapis.com/" + "BUCKET/" + "ghost/images/2025/05/logo.png"
  {
  }

  lemma PathStyleBucketSplit()
    ensures "BUCKET/" + "ghost/images/2025/05/logo.png" == "BUCKET/ghost/images/2025/05/logo.png"
  {
  }

  lemma PathStyleUrlHead()
    ensures "https://storage.googleapis.com/" == "https" + "://" + "storage.googleapis.com" + "/"
  {
  }

  lemma ServePathText()
    ensures "/content/images/2025/05/logo.png" == "/" + "content/images/2025/05/logo.png"
  {
  }

  // ---------------------------------------------------------------- segments and layouts

  lemma GhostUrlSegments()
    ensures NoChar("http", '/') && forall i :: 0 <= i < |"localhost:2368"| ==> !EndsAuthority("localhost:2368"[i])
    ensures UrlSegments(["content", "images", "2025", "05"]) && UrlSegment("logo.png")
  {
    assert CleanSegments(["content", "images", "2025", "05"]);
    CleanUrls(["content", "images", "2025", "05"]);
    CleanUrl("logo.png");
  }

  lemma ServePathSegments()
    ensures CleanSegments(["content", "images", "2025", "05"]) && CleanSegment("logo.png")
  {
  }

  lemma VirtualUrlSegments()
    ensures NoChar("https", '/')
    ensures forall i :: 0 <= i < |"BUCKET.storage.googleapis.com"| ==> !EndsAuthority("BUCKET.storage.googleapis.com"[i])
    ensures UrlSegments(["ghost", "2025", "05"]) && UrlSegment("logo.png")
  {
    assert CleanSegments(["ghost", "2025", "05"]);
    CleanUrls(["ghost", "2025", "05"]);
    CleanUrl("logo.png");
  }

  lemma PathStyleUrlSegments()
    ensures NoChar("https", '/')
    ensures forall i :: 0 <= i < |"storage.googleapis.com"| ==> !EndsAuthority("storage.googleapis.com"[i])
    ensures UrlSegments(["BUCKET", "ghost", "images", "2025", "05"]) && UrlSegment("logo.png")
  {
    assert CleanSegments(["ghost", "images", "2025", "05"]);
    CleanUrls(["ghost", "images", "2025", "05"]);
    assert UrlSegment("BUCKET");
    CleanUrl("logo.png");
  }

  /** The serve path of the default adapter: content path, type, no prefix. */
  lemma PlainServeLayout()
    ensures ["content", "images", "2025", "05"] == [Plain().contentPath, Plain().opts.contentType] + PrefixSeg(Plain().opts) + ["2025", "05"]
  {
    PlainOptions();
  }

  /** The path-style URL path: bucket, prefix, type. */
  lemma PathStyleLayout()
    ensures ["BUCKET", "ghost", "images", "2025", "05"]
         == BucketSeg(Prefixed(Some(false)).opts) + PrefixSeg(Prefixed(Some(false)).opts) + [Prefixed(Some(false)).opts.contentType] + ["2025", "05"]
  {
    PrefixedOptions(Some(false));
    assert Prefixed(Some(false)).opts.bucket == "BUCKET";
  }

  /** Without an `images` segment only the prefix is dropped. */
  lemma VirtualStrip(a: Adapter)
    requires a.opts.prefix == "ghost" && PrefixShown(a.opts) && !a.opts.addBucketToURL
    requires a.opts.contentType == "images" && a.contentPath == "content"
    ensures StripDir(a, ["ghost", "2025", "05"], true) == ["2025", "05"]
  {
    assert ["ghost", "2025", "05"][1..] == ["2025", "05"];
  }

  // ---------------------------------------------------------------- the four cases

  /** `fromURL('http://localhost:2368/content/images/2025/05/logo.png').relative()` */
  lemma GhostUrlCase(cwd: string, targetDir: string)
    ensures UrlKey(Plain(), "http://localhost:2368/content/images/2025/05/logo.png", cwd, targetDir)
         == Ok("images/2025/05/logo.png")
  {
    var a := Plain();
    var init := ["content", "images", "2025", "05"];
    GhostUrlSegments();
    UrlKeyOfUrl(a, "http", "localhost:2368", init, "logo.png", cwd, targetDir);
    ContentText();
    GhostUrlText();
    PlainOptions();
    PlainServeLayout();
    StripServe(a, ["2025", "05"], true);
    PlainDateKey(a.opts);
  }

  /** `fromURL('/content/images/2025/05/logo.png').relative()` */
  lemma ServePathCase(cwd: string, targetDir: string)
    ensures UrlKey(Plain(), "/content/images/2025/05/logo.png", cwd, targetDir) == Ok("images/2025/05/logo.png")
  {
    var a := Plain();
    var init := ["content", "images", "2025", "05"];
    ServePathSegments();
    UrlKeyOfPath(a, init, "logo.png", cwd, targetDir);
    ContentText();
    ServePathText();
    PlainOptions();
    PlainServeLayout();
    StripServe(a, ["2025", "05"], false);
    PlainDateKey(a.opts);
  }

  /** `fromURL('https://BUCKET.storage.googleapis.com/ghost/2025/05/logo.png').relative()`, virtual hosting. */
  lemma VirtualUrlCase(cwd: string, targetDir: string)
    ensures UrlKey(Prefixed(None), "https://BUCKET.storage.googleapis.com/ghost/2025/05/logo.png", cwd, targetDir)
         == Ok("ghost/images/2025/05/logo.png")
  {
    var a := Prefixed(None);
    var init := ["ghost", "2025", "05"];
    VirtualUrlSegments();
    UrlKeyOfUrl(a, "https", "BUCKET.storage.googleapis.com", init, "logo.png", cwd, targetDir);
    GhostDateText();
    VirtualUrlText();
    PrefixedOptions(None);
    VirtualStrip(a);
    GhostDateKey(a.opts);
  }

  /** `fromURL('https://storage.googleapis.com/BUCKET/ghost/images/2025/05/logo.png').relative()`, path style. */
  lemma PathStyleUrlCase(cwd: string, targetDir: string)
    ensures UrlKey(Prefixed(Some(false)), "https://storage.googleapis.com/BUCKET/ghost/images/2025/05/logo.png", cwd, targetDir)
         == Ok("ghost/images/2025/05/logo.png")
  {
    var a := Prefixed(Some(false));
    var init := ["BUCKET", "ghost", "images", "2025", "05"];
    PathStyleUrlSegments();
    UrlKeyOfUrl(a, "https", "storage.googleapis.com", init, "logo.png", cwd, targetDir);
    BucketText();
    PathStyleUrlText();
    PrefixedOptions(Some(false));
    PathStyleLayout();
    StripAbsolute(a, ["2025", "05"]);
    GhostDateKey(a.opts);
  }
}
