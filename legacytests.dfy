/**
 * The first two `fromURL` cases of tests/adapter.mjs run against the older adapter: under the
 * defaults, both the absolute URL and the bare path of `content/images/2025/05/logo.png` give
 * `/2025/05/logo.png`, where the test expects `images/2025/05/logo.png`.
 */
module LegacyTests {
  import opened Wrappers
  import opened Text
  import opened Sanitizer
  import opened LegacyOptions
  import opened LegacyAdapter
  import opened LegacyRoundTrip
  import GcsOptions
  import RoundTrip
  import AdapterTests

  /** `new GCSAdapter({ bucket: 'BUCKET' })` of the older generation. */
  function LegacyPlain(): Adapter {
    Constructed(GcsOptions.NoOptions("BUCKET"), None)
  }

  lemma LegacyPlainOptions()
    ensures LegacyPlain().opts.prefix == "" && LegacyPlain().opts.contentType == "images"
    ensures LegacyPlain().contentPath == "content"
    ensures LegacyPlain().opts.passthrough && !LegacyPlain().opts.addBucketToPath
  {
  }

  lemma LegacyPlainReady()
    ensures PassthroughReady(LegacyPlain())
  {
    LegacyPlainOptions();
    assert CleanSegment("content") && CleanSegment("images");
  }

  lemma ServedList()
    ensures ["content", "images"] + ["2025", "05"] + ["logo.png"] == ["content", "images", "2025", "05"] + ["logo.png"]
    ensures ["2025", "05"] + ["logo.png"] == ["2025", "05", "logo.png"]
  {
  }

  lemma RootedDateText()
    ensures "/" + JoinWith(["2025", "05"] + ["logo.png"], '/') == "/2025/05/logo.png"
  {
    ServedList();
    AdapterTests.DateText();
  }

  /** `fromURL('http://localhost:2368/content/images/2025/05/logo.png').relative()` */
  lemma LegacyGhostUrlCase(cwd: string, targetDir: string)
    ensures UrlKey(LegacyPlain(), "http://localhost:2368/content/images/2025/05/logo.png", cwd, targetDir)
         == Ok("/2025/05/logo.png")
  {
    var a := LegacyPlain();
    LegacyPlainReady();
    LegacyPlainOptions();
    AdapterTests.DateSegments();
    AdapterTests.GhostUrlSegments();
    ServedUrlKey(a, "http", "localhost:2368", cwd, targetDir, ["2025", "05"], "logo.png");
    ServedList();
    AdapterTests.ContentText();
    AdapterTests.GhostUrlText();
    RootedDateText();
  }

  /** `fromURL('/content/images/2025/05/logo.png').relative()` */
  lemma LegacyServePathCase(cwd: string, targetDir: string)
    ensures UrlKey(LegacyPlain(), "/content/images/2025/05/logo.png", cwd, targetDir) == Ok("/2025/05/logo.png")
  {
    var a := LegacyPlain();
    LegacyPlainReady();
    LegacyPlainOptions();
    AdapterTests.DateSegments();
    ServedPathKey(a, cwd, targetDir, ["2025", "05"], "logo.png");
    ServedList();
    AdapterTests.ContentText();
    AdapterTests.ServePathText();
    RootedDateText();
  }

  /** The test's expectation is not what the older adapter gives. */
  lemma LegacyMissesExpected(cwd: string, targetDir: string)
    ensures UrlKey(LegacyPlain(), "http://localhost:2368/content/images/2025/05/logo.png", cwd, targetDir)
         != Ok("images/2025/05/logo.png")
  {
    LegacyGhostUrlCase(cwd, targetDir);
    assert "/2025/05/logo.png"[0] != "images/2025/05/logo.png"[0];
  }
}
