/**
 * The options of the older `GCSAdapter` (lib/adapter.mjs): the same defaults as the current
 * adapter, but a single URL switch, `addBucketToPath`, which follows `virtual` alone.
 */
module LegacyOptions {
  import opened Wrappers
  import opened Constants
  import opened Sanitizer
  import GcsOptions

  /** The options after the constructor. The option `type` is `contentType` here. */
  datatype Options = Options(
    bucket: string,
    protocol: string,
    host: string,
    hash: bool,
    hashLength: int,
    prefix: string,
    template: string,
    deburr: Option<bool>,
    asciiFolding: bool,
    lowercase: bool,
    signed: bool,
    filename: string,
    virtual: bool,
    passthrough: bool,
    contentType: string,
    addBucketToPath: bool)

  /**
   * The options the constructor leaves behind: "" for a falsy prefix, a template chosen by `hash`
   * when none is given, the GCS host for a falsy host, which becomes the bucket's subdomain only
   * when it is the GCS host and `virtual` is set, and `addBucketToPath` exactly when not virtual,
   * whatever the host.
   */
  function Resolved(raw: GcsOptions.RawOptions): (o: Options)
    ensures o.prefix == raw.prefix.GetOr("")
    ensures o.template != ""
    ensures raw.template.Some? && raw.template.value != "" ==> o.template == raw.template.value
    ensures o.hash == raw.hash.GetOr(false)
    ensures raw.template.GetOr("") == "" ==> o.template == (if o.hash then "[hash][ext]" else "[name][ext]")
    ensures o.lowercase == raw.lowercase.GetOr(true) && o.asciiFolding == raw.asciiFolding.GetOr(false)
    ensures o.addBucketToPath <==> !GcsOptions.Virtual(raw)
    ensures o.host != GcsOptions.BaseHost(raw) <==> GcsOptions.BaseHost(raw) == GcsOptions.DefaultHost && GcsOptions.Virtual(raw)
    ensures o.host != GcsOptions.BaseHost(raw) ==> o.host == raw.bucket + "." + GcsOptions.DefaultHost
    ensures raw.passthrough.None? ==> o.passthrough
    ensures raw.contentType.None? ==> o.contentType == "images"
    ensures raw.deburr.Absent? ==> o.deburr == Some(true)
  {
    GcsOptions.VirtualHostDiffers(raw.bucket);
    var hash := raw.hash.GetOr(false);
    var base := GcsOptions.BaseHost(raw);
    Options(
      bucket := raw.bucket,
      protocol := raw.protocol.GetOr("https"),
      host := if base == GcsOptions.DefaultHost && GcsOptions.Virtual(raw) then raw.bucket + "." + base else base,
      hash := hash,
      hashLength := raw.hashLength.GetOr(16),
      prefix := raw.prefix.GetOr(""),
      template := if raw.template.GetOr("") != "" then raw.template.value else GcsOptions.DefaultTemplate(hash),
      deburr := match raw.deburr case Absent => Some(true) case Null => None case Given(b) => Some(b),
      asciiFolding := raw.asciiFolding.GetOr(false),
      lowercase := raw.lowercase.GetOr(true),
      signed := GcsOptions.Signed(raw),
      filename := raw.filename.GetOr("original"),
      virtual := GcsOptions.Virtual(raw),
      passthrough := raw.passthrough.GetOr(true),
      contentType := raw.contentType.GetOr("images"),
      addBucketToPath := !GcsOptions.Virtual(raw))
  }

  /** The constructor's option handling, step by step in its order. */
  method ResolveOptions(raw: GcsOptions.RawOptions) returns (o: Options)
    ensures o == Resolved(raw)
  {
    // lo.defaults(opts, defs)
    var host := raw.host.GetOr(GcsOptions.DefaultHost);
    var prefix := raw.prefix.GetOr("");
    var template := raw.template.GetOr("");
    var hash := raw.hash.GetOr(false);
    var virtual := raw.virtual.GetOr(true);
    var deburr := match raw.deburr case Absent => Some(true) case Null => None case Given(b) => Some(b);
    if template == "" {
      if hash {
        template := "[hash][ext]";
      } else {
        template := "[name][ext]";
      }
    }
    if host == "" {
      host := GcsOptions.DefaultHost;
    }
    if host == GcsOptions.DefaultHost {
      if virtual {
        host := raw.bucket + "." + host;
      }
    }
    var addBucketToPath := !virtual;
    o := Options(raw.bucket, raw.protocol.GetOr("https"), host, hash, raw.hashLength.GetOr(16), prefix,
                 template, deburr, raw.asciiFolding.GetOr(false), raw.lowercase.GetOr(true),
                 raw.signed.GetOr(false), raw.filename.GetOr("original"), virtual,
                 raw.passthrough.GetOr(true), raw.contentType.GetOr("images"), addBucketToPath);
  }

  /**
   * With a custom host the two generations disagree about the bucket: the older one puts it in
   * the path whenever hosting is not virtual, the current one only for signed URLs.
   */
  lemma CustomHostBucket(raw: GcsOptions.RawOptions)
    requires GcsOptions.BaseHost(raw) != GcsOptions.DefaultHost && !GcsOptions.Virtual(raw) && !GcsOptions.Signed(raw)
    ensures Resolved(raw).addBucketToPath && !GcsOptions.Resolved(raw).addBucketToURL
    ensures Resolved(raw).host == GcsOptions.Resolved(raw).host
  {
  }

  /** The adapter's `sanitize(str)`: the same six steps as the current adapter's. */
  function Sanitized(o: Options, s: string): (r: string)
    ensures All(r, TameChar) && NoBackslash(r)
    ensures o.lowercase ==> All(r, NotUpper)
  {
    SanitizeOutput(s, o.deburr.GetOr(o.asciiFolding), o.lowercase);
    Sanitize(s, o.deburr.GetOr(o.asciiFolding), o.lowercase)
  }

  /** A constructed older adapter: its options and Ghost's content path. */
  datatype Adapter = Adapter(opts: Options, contentPath: string)

  /** `new GCSAdapter(opts)` with `configured` the content path from Ghost's configuration. */
  method NewAdapter(raw: GcsOptions.RawOptions, configured: Option<string>) returns (a: Adapter)
    ensures a.opts == Resolved(raw)
    ensures a.contentPath == configured.GetOr("content")
  {
    var o := ResolveOptions(raw);
    a := Adapter(o, configured.GetOr("content"));
  }

  /** The adapter value `NewAdapter` returns, for use in lemmas. */
  function Constructed(raw: GcsOptions.RawOptions, configured: Option<string>): Adapter {
    Adapter(Resolved(raw), configured.GetOr("content"))
  }
}
