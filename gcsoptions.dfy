/**
 * The options of the current `GCSAdapter` (dist/cjs/lib/adapter.cjs): the configured values,
 * the defaults merged under them, and the URL switches the constructor derives from the host,
 * the `virtual` flag and the `signed` flag.
 */
module GcsOptions {
  import opened Wrappers
  import opened Sanitizer
  import opened Constants

  /** Google Cloud Storage's own host name, the default `host`. */
  const DefaultHost: string := "storage.googleapis.com"

  /** `undefined` (filled by the defaults), `null` (kept, and read by `??`) or a value. */
  datatype Setting<T> = Absent | Null | Given(value: T)

  /**
   * The options object as configured. `None` is a missing key; a configured `null`, `false`
   * or "" of a key the constructor only tests for truthiness is written as `Some(false)` or
   * `Some("")`. The option `type` is `contentType` here.
   */
  datatype RawOptions = RawOptions(
    bucket: string,
    protocol: Option<string>,
    host: Option<string>,
    hash: Option<bool>,
    hashLength: Option<int>,
    prefix: Option<string>,
    template: Option<string>,
    deburr: Setting<bool>,
    asciiFolding: Option<bool>,
    lowercase: Option<bool>,
    signed: Option<bool>,
    filename: Option<string>,
    virtual: Option<bool>,
    passthrough: Option<bool>,
    contentType: Option<string>,
    addPrefixToURL: Option<bool>)

  /** Every option left to its default. */
  function NoOptions(bucket: string): RawOptions {
    RawOptions(bucket, None, None, None, None, None, None, Absent, None, None, None, None, None, None, None, None)
  }

  /** The options after the constructor: `prefix` is "" when unset, `template` is never empty. */
  datatype Options = Options(
    bucket: string,
    protocol: string,
    host: string,
    hash: bool,
    hashLength: int,
    prefix: string,
    template: string,
    deburr: Option<bool>,
    asciiFolding: bool,
    lowercase: bool,
    signed: bool,
    filename: string,
    virtual: bool,
    passthrough: bool,
    contentType: string,
    addPrefixToURL: bool,
    addBucketToURL: bool)

  /** The host before the constructor rewrites it for virtual hosting: a falsy host is the default. */
  function BaseHost(raw: RawOptions): string {
    if raw.host.None? || raw.host.value == "" then DefaultHost else raw.host.value
  }

  /** The default template, by `hash`. */
  function DefaultTemplate(hash: bool): string {
    if hash then "[hash][ext]" else "[name][ext]"
  }

  /** `virtual` after the defaults. */
  function Virtual(raw: RawOptions): bool {
    raw.virtual.GetOr(true)
  }

  /** `signed` after the defaults. */
  function Signed(raw: RawOptions): bool {
    raw.signed.GetOr(false)
  }

  /**
   * The host URLs use: the configured host, or on the GCS host with virtual hosting the
   * bucket's own subdomain. It is the bare GCS host exactly when that host is used path-style.
   */
  function UrlHost(raw: RawOptions): (h: string)
    ensures BaseHost(raw) != DefaultHost ==> h == BaseHost(raw)
    ensures h == DefaultHost <==> BaseHost(raw) == DefaultHost && !Virtual(raw)
  {
    VirtualHostDiffers(raw.bucket);
    if BaseHost(raw) == DefaultHost && Virtual(raw) then raw.bucket + "." + DefaultHost else BaseHost(raw)
  }

  /**
   * `addBucketToURL`: a virtual setup never puts the bucket in the path; on the GCS host the
   * bucket is named exactly once, as the subdomain or as the first path segment; a signed
   * path-style setup names it in the path; any other host leaves it out.
   */
  function BucketInUrl(raw: RawOptions): (b: bool)
    ensures Virtual(raw) ==> !b
    ensures BaseHost(raw) == DefaultHost ==> (UrlHost(raw) == raw.bucket + "." + DefaultHost <==> !b)
    ensures Signed(raw) ==> (b <==> !Virtual(raw))
    ensures BaseHost(raw) != DefaultHost && !Signed(raw) ==> !b
  {
    !Virtual(raw) && (BaseHost(raw) == DefaultHost || Signed(raw))
  }

  /**
   * `addPrefixToURL`: forced on the GCS host and for signed URLs; otherwise as configured
   * (default false).
   */
  function PrefixInUrl(raw: RawOptions): (b: bool)
    ensures BaseHost(raw) == DefaultHost || Signed(raw) ==> b
    ensures raw.addPrefixToURL == Some(true) ==> b
    ensures BaseHost(raw) != DefaultHost && !Signed(raw) ==> (b <==> raw.addPrefixToURL == Some(true))
  {
    raw.addPrefixToURL.GetOr(false) || BaseHost(raw) == DefaultHost || Signed(raw)
  }

  /**
   * The options the constructor leaves behind: a non-empty template (the configured one, else
   * the default by `hash`), "" for an unset prefix, the URL switches above, and the defaults for
   * every key left out.
   */
  function Resolved(raw: RawOptions): (o: Options)
    ensures o.template != ""
    ensures raw.template.Some? && raw.template.value != "" ==> o.template == raw.template.value
    ensures o.hash == raw.hash.GetOr(false)
    ensures raw.template.GetOr("") == "" ==> o.template == (if o.hash then "[hash][ext]" else "[name][ext]")
    ensures o.lowercase == raw.lowercase.GetOr(true) && o.asciiFolding == raw.asciiFolding.GetOr(false)
    ensures o.prefix == raw.prefix.GetOr("")
    ensures o.host == UrlHost(raw) && o.addBucketToURL == BucketInUrl(raw) && o.addPrefixToURL == PrefixInUrl(raw)
    ensures o.virtual == Virtual(raw) && o.signed == Signed(raw)
    ensures raw.passthrough.None? ==> o.passthrough
    ensures raw.contentType.None? ==> o.contentType == "images"
    ensures raw.filename.None? ==> o.filename == "original"
    ensures raw.hashLength.None? ==> o.hashLength == 16
    ensures raw.protocol.None? ==> o.protocol == "https"
    ensures raw.deburr.Absent? ==> o.deburr == Some(true)
  {
    var hash := raw.hash.GetOr(false);
    Options(
      bucket := raw.bucket,
      protocol := raw.protocol.GetOr("https"),
      host := UrlHost(raw),
      hash := hash,
      hashLength := raw.hashLength.GetOr(16),
      prefix := raw.prefix.GetOr(""),
      template := if raw.template.GetOr("") != "" then raw.template.value else DefaultTemplate(hash),
      deburr := match raw.deburr case Absent => Some(true) case Null => None case Given(b) => Some(b),
      asciiFolding := raw.asciiFolding.GetOr(false),
      lowercase := raw.lowercase.GetOr(true),
      signed := Signed(raw),
      filename := raw.filename.GetOr("original"),
      virtual := Virtual(raw),
      passthrough := raw.passthrough.GetOr(true),
      contentType := raw.contentType.GetOr("images"),
      addPrefixToURL := PrefixInUrl(raw),
      addBucketToURL := BucketInUrl(raw))
  }

  /** The virtual host name is never the bare GCS host. */
  lemma VirtualHostDiffers(bucket: string)
    ensures bucket + "." + DefaultHost != DefaultHost
  {
    assert |bucket + "." + DefaultHost| > |DefaultHost|;
  }

  /**
   * The constructor's option handling, in its order: defaults under the configured values, then
   * prefix, template and host fallbacks, then the GCS-host and signing switches.
   */
  method ResolveOptions(raw: RawOptions) returns (o: Options)
    ensures o == Resolved(raw)
  {
    // lo.defaults(opts, defs): only keys the configuration leaves undefined take a default.
    var host := raw.host.GetOr(DefaultHost);
    var prefix := raw.prefix.GetOr("");
    var template := raw.template.GetOr("");
    var hash := raw.hash.GetOr(false);
    var virtual := raw.virtual.GetOr(true);
    var signed := raw.signed.GetOr(false);
    var deburr := match raw.deburr case Absent => Some(true) case Null => None case Given(b) => Some(b);
    var addPrefixToURL := raw.addPrefixToURL.GetOr(false);
    // An unset prefix (undefined) becomes "", which the Option default already gives.
    if template == "" {
      if hash {
        template := "[hash][ext]";
      } else {
        template := "[name][ext]";
      }
    }
    if host == "" {
      host := DefaultHost;
    }
    var addBucketToURL := false;
    if host == DefaultHost {
      addPrefixToURL := true;
      if virtual {
        host := raw.bucket + "." + host;
      } else {
        addBucketToURL := true;
      }
    }
    if signed {
      addPrefixToURL := true;
      if !virtual {
        addBucketToURL := true;
      }
    }
    o := Options(raw.bucket, raw.protocol.GetOr("https"), host, hash, raw.hashLength.GetOr(16), prefix,
                 template, deburr, raw.asciiFolding.GetOr(false), raw.lowercase.GetOr(true), signed,
                 raw.filename.GetOr("original"), virtual, raw.passthrough.GetOr(true),
                 raw.contentType.GetOr("images"), addPrefixToURL, addBucketToURL);
  }

  /** `opts.deburr ?? opts.asciiFolding`: whether `sanitize` strips diacritics. */
  function DeburrOn(o: Options): bool {
    o.deburr.GetOr(o.asciiFolding)
  }

  /** The adapter's `sanitize(str)` under its options. */
  function Sanitized(o: Options, s: string): (r: string)
    ensures All(r, TameChar) && NoBackslash(r)
    ensures o.lowercase ==> All(r, NotUpper)
  {
    SanitizeOutput(s, DeburrOn(o), o.lowercase);
    Sanitize(s, DeburrOn(o), o.lowercase)
  }

  /** A constructed adapter: its options and Ghost's content path (`paths:contentPath`, or "content"). */
  datatype Adapter = Adapter(opts: Options, contentPath: string)

  /** `new GCSAdapter(opts)` with `configured` the content path from Ghost's configuration. */
  method NewAdapter(raw: RawOptions, configured: Option<string>) returns (a: Adapter)
    ensures a.opts == Resolved(raw)
    ensures a.contentPath == configured.GetOr("content")
  {
    var o := ResolveOptions(raw);
    a := Adapter(o, configured.GetOr("content"));
  }

  /** The adapter value `NewAdapter` returns, for use in lemmas. */
  function Constructed(raw: RawOptions, configured: Option<string>): Adapter {
    Adapter(Resolved(raw), configured.GetOr("content"))
  }
}
