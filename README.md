# Ghost GCS storage adapter: object keys and URLs in Dafny

This project models how the Ghost storage adapter for Google Cloud Storage (GCS) names
objects and URLs. For an uploaded file or a path, the adapter computes two things:

- the object key it stores the file under;
- the URL it hands back to Ghost.

Three generations of the adapter are modelled, each in its own modules:

- **Current** (`dist/cjs/lib/adapter.cjs`, `dist/cjs/lib/file.cjs`): modules `GcsOptions`,
  `GcsFile`, `GcsAdapter`, `ComputedNames`, `RoundTrip` and `AdapterTests`.
  - The adapter resolves its options once, into a value.
  - A `GCSFile` is a class. It completes the caller's file record in place: the directory
    segments are stripped and the extension and base name are filled in.
  - `getComputedName` records the chosen name in `computed`.
  - The renderers `relative()`, `absolute()`, `passthrough()` and `serve()` are functions of
    those fields.
  - `urlToPath` is proved to invert `absolute()` and `passthrough()` under stated conditions,
    and the four `fromURL` cases of `tests/adapter.mjs` are proved.
- **Older** (`lib/adapter.mjs`, `lib/file.mjs`): modules `LegacyOptions`, `LegacyFile`,
  `LegacyAdapter`, `LegacyRoundTrip` and `LegacyTests`.
  - The prefix and the type are folded into `file.dir` at construction.
  - URL prefixes are cut by string position.
  - A single flag, `addBucketToPath`, decides the bucket.
- **Original** (`index.js`): module `OriginalAdapter`.
  - `sanitizeUrlPath` and `getSanitizedFileName`.
  - The path builders.
  - The image object, which is completed in place: naming, hashing and uniqueness, in stage
    methods.
  - `save`, `saveRaw`, `exists`, `delete` and `read`, whose storage calls are parameters.

Shared modules:

| module | what it provides |
|---|---|
| `Wrappers` | `Option`/`Result` |
| `Text` | `indexOf`, `slice(-n)`, split and join |
| `NodePath` | `path.join`, `normalize`, `parse`, `extname`, `basename` |
| `WebUrl` | `URL.pathname` and `pathToFileURL` |
| `Constants` | the `REGEX` table of `lib/constants.mjs` |
| `Sanitizer` | the six-step `sanitize` |
| `ContentPath` | `getContentPath` from `lib/util.mjs` |
| `Records` | the file object Ghost passes in |

External collaborators become parameters of the members that use them: the GCS client's storage
calls, content digests and random bytes, Ghost's `getTargetDir`, `getUniqueSecureFilePath` and
`getUniqueFileName`, the `interpolate` template renderer, the configured content path, and the
working directory.

Two places where the code differs from what its own comments say; the model follows the code:

- The comment at `index.js:297` says `sanitizeUrlPath` converts all slashes to forward
  slashes. The code only collapses `//` runs and strips leading `/` and `\`; interior
  backslashes stay (`OriginalAdapter.InnerBackslashesKept`).
- `read` in the current adapter catches errors but does not wait for `file.read()`, so storage
  rejections reach the caller unwrapped (`GcsAdapter.Read`).

## Model

| member | source | states |
|---|---|---|
| Text.IndexOf | lib/file.mjs:69-77 | `indexOf`: the first position where the text occurs, or -1 when it occurs nowhere |
| Text.SliceFromEnd | dist/cjs/lib/file.cjs:241-257 | `slice(-n)`: the last n characters when 0 < n <= length; the whole string when n is 0 or at least the length |
| Text.SplitJoin | dist/cjs/lib/file.cjs:22 | splitting a "/"-join of separator-free parts gives back the parts |
| NodePath.Keep | dist/cjs/lib/file.cjs:44 | the segments `path.join` keeps are never empty or "." |
| NodePath.ResolveNoDotDot | dist/cjs/lib/file.cjs:44 | without ".." the normaliser keeps exactly the non-empty, non-"." segments, in order |
| NodePath.JoinTidy | dist/cjs/lib/file.cjs:44 | `path.join` of arguments free of "." and ".." is the "/"-join of their non-empty segments, or "." when there are none |
| NodePath.Normalize | dist/cjs/lib/file.cjs:44 | `path.normalize` never returns the empty string |
| NodePath.ParseAbsolute | dist/cjs/lib/file.cjs:67 | `path.parse` of a rooted path: base is the last segment, dir is the rest with its leading "/" |
| NodePath.ParseLast | dist/cjs/lib/file.cjs:97 | `path.parse(head/last)`: base `last`, dir `head`, or "/" when head is empty |
| NodePath.ExtName | dist/cjs/lib/file.cjs:48-50 | `path.extname` is empty or starts with "." |
| NodePath.ExtNameOf | dist/cjs/lib/file.cjs:48-50 | the extension of `stem.x` is `.x` when neither part has a separator, x has no "." and the stem does not start with "." |
| NodePath.BaseNameStrip | dist/cjs/lib/file.cjs:51-54 | `path.basename(stem + ext, ext)` is the stem |
| WebUrl.UrlPathnameOf | dist/cjs/lib/file.cjs:91-92 | `new URL('scheme://host/path').pathname` is `/path` |
| WebUrl.FilePathname | dist/cjs/lib/file.cjs:94-95 | a file URL's pathname starts with "/" |
| WebUrl.FilePathnameOf | dist/cjs/lib/file.cjs:94-95 | `pathToFileURL` keeps a rooted path of plain segments, whatever the working directory |
| Constants.XmlClassEdges | lib/constants.mjs:3-4 | the `xml` class removes U+007F–U+0084 and U+0086–U+009F and keeps U+007E, U+0085 and U+00A0 |
| Constants.GcsClassExact | lib/constants.mjs:6-7 | the `gcs` class removes `[ ] * ? #` and keeps neighbouring punctuation |
| Constants.RemoveSpec | lib/constants.mjs:3-7 | after removing a class, none of its characters remain and every other property of the input characters holds of the output |
| Constants.RemoveConcat | lib/constants.mjs:3-7 | removing a class commutes with concatenation |
| Constants.DashWhitespaceSpec | lib/constants.mjs:8 | replacing whitespace runs with "-" leaves no whitespace |
| Constants.DashWhitespaceConcat | lib/constants.mjs:8 | a run cannot span a boundary whose left side ends outside whitespace |
| Constants.CollapseSpec | lib/constants.mjs:9 | the slash rule leaves no backslash and keeps every property that `/` and the input share |
| Constants.CollapseLeavesSchemeSlashes | lib/constants.mjs:9 | after the slash rule, a `//` appears only directly after a `:` |
| Constants.CollapseNoTriple | lib/constants.mjs:9 | after the slash rule, no `///` remains |
| Constants.CollapseStable | lib/constants.mjs:9 | a string already in that shape (no backslash, `//` only after `:`, no `///`) is left unchanged |
| Constants.DropEmpty | dist/cjs/lib/file.cjs:22 | dropping empty segments leaves no empty segment, only segments of the input, and changes nothing when none is empty |
| Constants.DropEmptyOne | dist/cjs/lib/file.cjs:22 | one segment is dropped exactly when it is empty |
| Constants.DropEmptyConcat | dist/cjs/lib/file.cjs:22 | dropping works segment by segment over a concatenation, so what is kept stays in order; with DropEmptyOne this fixes the result |
| Constants.SplitPath | lib/constants.mjs:12 | splitting on runs of `/` or `\` gives non-empty, separator-free segments |
| Constants.SplitPathJoin | lib/constants.mjs:12 | splitting undoes a "/"-join of such segments, with or without a leading "/" |
| Constants.KeyLength | lib/constants.mjs:10 | the key of a `[key]` placeholder is the longest bracket-free run |
| Constants.Tokens | lib/constants.mjs:10 | every placeholder found by `tpl` has a non-empty, bracket-free key |
| Constants.RenderTokens | lib/constants.mjs:10 | tokenising loses nothing: printing the tokens back gives the template |
| Sanitizer.DeburrChar | dist/cjs/lib/adapter.cjs:219-221 | deburring one character yields at most two characters, all ASCII letters unless the character is kept |
| Sanitizer.DeburrSpec | dist/cjs/lib/adapter.cjs:219-221 | deburring keeps every property that the input and all ASCII letters share |
| Sanitizer.LowerChar | dist/cjs/lib/adapter.cjs:223-225 | lowercasing leaves no ASCII capital |
| Sanitizer.SanitizeOutput | dist/cjs/lib/adapter.cjs:210-228 | `sanitize` output has no XML control, reserved, whitespace or backslash character, and no capital when lowercasing is on |
| Sanitizer.SanitizeStable | dist/cjs/lib/adapter.cjs:210-228 | a string of stable characters in the slash rule's shape is its own `sanitize` |
| Sanitizer.SanitizeSegments | dist/cjs/lib/adapter.cjs:210-228 | a "/"-join of clean segments, rooted or not, is its own `sanitize` |
| Sanitizer.SanitizeWords | dist/cjs/lib/adapter.cjs:213-227 | words separated by spaces are folded one by one and joined by "-" |
| Sanitizer.SanitizeExamples | tests/sanitize.mjs:4-5 | 'açaí à la carte' becomes 'acai-a-la-carte' and 'Bayern München' becomes 'bayern-munchen' |
| Sanitizer.SanitizeNotIdempotent | lib/constants.mjs:9 | sanitising `a/\b` gives `a//b`, and sanitising that again gives `a/b` |
| ContentPath.GetContentPath | lib/util.mjs:11-34 | succeeds exactly for images, media, files, themes, adapters, logs, data, settings and public; errors otherwise |
| ContentPath.ContentPathShape | lib/util.mjs:12-31 | for a known type and a configured content path made of plain segments, absolute or relative and of any depth, the result is `base/type/` |
| ContentPath.DefaultContentPath | lib/util.mjs:12-31 | for a known type and no configured content path, the result is `content/type/` |
| Records.Field | dist/cjs/lib/file.cjs:319 | `file[key] ?? ''`: name, base and ext as set; dir and path, or "" when absent; any other key's value when present, else "" |
| GcsOptions.UrlHost | dist/cjs/lib/adapter.cjs:49-56 | the URL host is the default host exactly when the configured host is the default and `virtual` is off; a custom host is kept |
| GcsOptions.BucketInUrl | dist/cjs/lib/adapter.cjs:52-66 | the bucket is never in URLs with `virtual`; for the default host it is there exactly when the host was not rewritten to the virtual host; when signed, exactly when not virtual; for a custom unsigned host, never |
| GcsOptions.PrefixInUrl | dist/cjs/lib/adapter.cjs:52-66 | the prefix is in URLs for the default host, when signed, or when `addPrefixToURL` is set; for a custom unsigned host exactly when it is set |
| GcsOptions.Resolved | dist/cjs/lib/adapter.cjs:13-66 | the template is never empty: a non-empty configured one is kept, else `[hash][ext]` with `hash` and `[name][ext]` without; hash off, lowercase on and asciiFolding off unless given; prefix "" unless given; host and URL flags as above; defaults passthrough on, type images, filename original, hashLength 16, protocol https, deburr on |
| GcsOptions.VirtualHostDiffers | dist/cjs/lib/adapter.cjs:55-56 | the virtual host always differs from the default host |
| GcsOptions.ResolveOptions | dist/cjs/lib/adapter.cjs:36-66 | the constructor's chain of updates computes `Resolved` |
| GcsOptions.NewAdapter | dist/cjs/lib/adapter.cjs:36-67 | the adapter holds the resolved options and the configured content path or "content" |
| GcsOptions.Sanitized | dist/cjs/lib/adapter.cjs:210-228 | the adapter's `sanitize`, with the output rules of `Sanitizer.SanitizeOutput` |
| GcsFile.ShiftIf | dist/cjs/lib/file.cjs:23-42 | one `shift()` step drops the first segment exactly when the condition holds and it equals the given value |
| GcsFile.StripDir | dist/cjs/lib/file.cjs:22-43 | the stripped directory is a suffix of the segments, at most three shorter |
| GcsFile.ShiftLeading | dist/cjs/lib/file.cjs:22-43 | the in-place `shift()` sequence computes `StripDir` |
| GcsFile.Completed | dist/cjs/lib/file.cjs:20-54 | dir is always set; a missing ext becomes `extname(name)`; a missing base takes the full name and name loses its extension; path and other fields are kept |
| GcsFile.GCSFile.constructor | dist/cjs/lib/file.cjs:14-59 | completes the caller's record in place to `Completed`; `computed` starts unset; `local` iff a path is given |
| GcsFile.Create | dist/cjs/lib/file.cjs:14-17 | fails with "File object and Adapter instance are required" exactly when either is missing |
| GcsFile.FromPathState | dist/cjs/lib/file.cjs:63-75 | `fromPath` succeeds exactly for a non-empty path and fails with "Path is required" otherwise |
| GcsFile.FromPath | dist/cjs/lib/file.cjs:63-75 | a fresh file whose record is `FromPathState`'s, or the same "Path is required" error |
| GcsFile.FromFile | dist/cjs/lib/file.cjs:79-81 | completes the given record in place |
| GcsFile.FromUrlState | dist/cjs/lib/file.cjs:86-105 | `fromURL` succeeds exactly for a non-empty URL and fails with "URL is required" otherwise |
| GcsFile.FromURL | dist/cjs/lib/file.cjs:86-105 | a fresh file whose record is `FromUrlState`'s, or the same "URL is required" error |
| GcsFile.Chosen | dist/cjs/lib/file.cjs:154 | `computed \|\| base`: the computed name when non-empty, else base |
| GcsFile.RelativeKey | dist/cjs/lib/file.cjs:178-184 | the object key is tame, has no backslash, and has no capital when lowercasing |
| GcsFile.AbsoluteUrl | dist/cjs/lib/file.cjs:159-174 | the absolute URL is tame and has no backslash |
| GcsFile.PassthroughUrl | dist/cjs/lib/file.cjs:144-156 | the passthrough path is tame and has no backslash |
| GcsFile.ServeUrl | dist/cjs/lib/file.cjs:108-117 | the signed URL when signed, else passthrough when enabled, else absolute |
| GcsFile.GCSFile.Relative | dist/cjs/lib/file.cjs:178-184 | `relative()` of the file's fields, tame and without backslash |
| GcsFile.GCSFile.Serve | dist/cjs/lib/file.cjs:108-117 | `serve()`: the signed URL when signed, otherwise a tame URL |
| GcsFile.ComputedName | dist/cjs/lib/file.cjs:259-325 | each strategy's result: original and unknown keep base; originalhash `name-H+ext`; hash `H+ext`; unique `name-R+ext`; random `R+ext`; hashunique the mixed digest's H+ext; ghost Ghost's name for the swapped record; H and R are the last `hashLength` characters |
| GcsFile.GCSFile.GetComputedName | dist/cjs/lib/file.cjs:259-326 | records `ComputedName` in `computed`, and the record's fields are as before (the ghost swap is undone) |
| ComputedNames.OriginalName | dist/cjs/lib/file.cjs:264-267 | original keeps base |
| ComputedNames.HashName | dist/cjs/lib/file.cjs:274-279 | hash gives the cut digest plus ext |
| ComputedNames.CustomName | dist/cjs/lib/file.cjs:306-323 | custom expands the tokens of the template |
| ComputedNames.FixedTemplate | dist/cjs/lib/file.cjs:312-321 | a template without `[` is the name verbatim |
| ComputedNames.HashTemplate | dist/cjs/lib/file.cjs:306-323 | custom `[hash][ext]` names as the hash strategy |
| ComputedNames.NameTemplate | dist/cjs/lib/file.cjs:306-323 | custom `[name][ext]` gives name + ext |
| ComputedNames.RandomTwice | dist/cjs/lib/file.cjs:316-317 | each `[random]` draws a fresh random value |
| ComputedNames.DefaultTemplateKeepsName | dist/cjs/lib/adapter.cjs:42-48 | the default template `[name][ext]` reproduces the original name of `stem.x` |
| GcsAdapter.PathKey | dist/cjs/lib/file.cjs:63-75 | the key of a path: error "Path is required" exactly for "", otherwise tame |
| GcsAdapter.UrlKey | dist/cjs/lib/adapter.cjs:203-206 | `urlToPath`: error "URL is required" exactly for "", otherwise a tame key |
| GcsAdapter.UrlToPath | dist/cjs/lib/adapter.cjs:203-206 | computes `UrlKey` through `fromURL(url).relative()` |
| GcsAdapter.DeleteOutcome | dist/cjs/lib/adapter.cjs:145-154 | success exactly when there is no error or a 404; any other error is wrapped in an adapter error with its message |
| GcsAdapter.Delete | dist/cjs/lib/adapter.cjs:143-155 | an empty path fails; otherwise the outcome of deleting the path's key |
| GcsAdapter.Read | dist/cjs/lib/adapter.cjs:99-106 | an empty path fails; otherwise the downloaded bytes, or the storage error unwrapped |
| GcsAdapter.Exists | dist/cjs/lib/adapter.cjs:89-92 | an empty path fails; otherwise the lookup of the path's key, errors unwrapped |
| GcsAdapter.Served | dist/cjs/lib/file.cjs:108-117 | the serve URL: the signature of the key when signed, else the unsigned serve URL |
| GcsAdapter.SaveRaw | dist/cjs/lib/adapter.cjs:128-136 | writes at the path's key; a write error is wrapped, otherwise the served URL |
| GcsAdapter.Save | dist/cjs/lib/adapter.cjs:113-121 | completes the record, uploads under the computed name's key, and returns the served URL or the wrapped error |
| GcsAdapter.ServeError | dist/cjs/lib/adapter.cjs:172-193 | each status has its Ghost error: 400 exactly gives BadRequest, 401 Unauthorized and 403 NoPermission, each carrying the storage error; 404 exactly gives NotFound with code STATIC_FILE_NOT_FOUND and the key; InternalServer exactly for every other code or none |
| GcsAdapter.ServeFailure | dist/cjs/lib/adapter.cjs:161-195 | an empty request path is an internal error; otherwise nothing is passed on exactly when streaming succeeds, and a streaming error is passed on as `ServeError` of that error and the key, so NotFound carries `relative()` |
| RoundTrip.StripServe | dist/cjs/lib/file.cjs:23-32 | a serve path loses exactly its content path, type and shown prefix |
| RoundTrip.StripAbsolute | dist/cjs/lib/file.cjs:33-43 | a GCS URL path loses exactly its bucket, shown prefix and type |
| RoundTrip.KeyOf | dist/cjs/lib/file.cjs:178-184 | the key of a clean file is prefix (when set), type, directory and name, "/"-joined, whatever the URL flags |
| RoundTrip.AbsoluteOf | dist/cjs/lib/file.cjs:159-174 | the absolute URL is `protocol://host/`, then the bucket iff shown, the prefix iff shown, the type, the directory and the name |
| RoundTrip.PassthroughOf | dist/cjs/lib/file.cjs:144-156 | the passthrough path is `/contentPath/type`, then the shown prefix, the directory and the name |
| RoundTrip.AbsoluteRoundTrip | dist/cjs/lib/adapter.cjs:197-206 | `urlToPath(absolute(f)) == f.relative()` for clean segments that differ from the content path |
| RoundTrip.PassthroughRoundTrip | dist/cjs/lib/adapter.cjs:197-206 | `urlToPath(passthrough(f)) == f.relative()` for clean segments |
| RoundTrip.ServeRoundTrip | dist/cjs/lib/adapter.cjs:197-206 | `urlToPath` inverts the unsigned `serve()` URL |
| RoundTrip.FileRoundTrip | dist/cjs/lib/adapter.cjs:197-206 | the same, for a `GCSFile` object's own fields |
| AdapterTests.GhostUrlCase | tests/adapter.mjs:15-16 | the localhost URL gives `images/2025/05/logo.png` under the defaults |
| AdapterTests.ServePathCase | tests/adapter.mjs:17-18 | the bare serve path gives `images/2025/05/logo.png` |
| AdapterTests.VirtualUrlCase | tests/adapter.mjs:19-25 | with prefix ghost, the virtual-hosted URL gives `ghost/images/2025/05/logo.png` |
| AdapterTests.PathStyleUrlCase | tests/adapter.mjs:26-33 | with prefix ghost and `virtual: false`, the path-style URL gives `ghost/images/2025/05/logo.png` |
| LegacyOptions.Resolved | lib/adapter.mjs:36-55 | prefix "" by default, a configured non-empty template kept, else `[hash][ext]` with `hash` and `[name][ext]` without; hash off, lowercase on and asciiFolding off unless given; `addBucketToPath` iff not virtual, the host rewritten to the virtual host exactly for the default host with `virtual` |
| LegacyOptions.ResolveOptions | lib/adapter.mjs:34-55 | the constructor's chain of updates computes `Resolved` |
| LegacyOptions.CustomHostBucket | lib/adapter.mjs:50-55 | for a custom path-style host the older adapter puts the bucket in URLs, where the current one does not |
| LegacyOptions.Sanitized | lib/adapter.mjs:194-212 | the same six steps and output rules as the current `sanitize` |
| LegacyOptions.NewAdapter | lib/adapter.mjs:34-56 | the adapter holds the resolved options and the content path |
| LegacyFile.Folded | lib/file.mjs:17-25 | dir is always set, path and other fields kept; ext and base are defaulted as in the current adapter (the layout of dir is `LegacyAdapter.FoldedDir`) |
| LegacyFile.GCSFile.constructor | lib/file.mjs:13-30 | completes the caller's record in place to `Folded` |
| LegacyFile.Create | lib/file.mjs:14-16 | fails exactly when the file or the adapter is missing |
| LegacyFile.FromPathState | lib/file.mjs:34-45 | succeeds exactly for a non-empty path, else "Path is required"; folds the target dir when truthy, else the parsed dir |
| LegacyFile.FromPath | lib/file.mjs:34-45 | a fresh file whose record is `FromPathState`'s, or its error |
| LegacyFile.FromFile | lib/file.mjs:49-51 | folds the given record in place |
| LegacyFile.CutAt | lib/file.mjs:69-77 | one `indexOf(x) === 1` test and `slice(x.length + 1)`: the result is always a suffix of the directory |
| LegacyFile.CutAtShape | lib/file.mjs:69-77 | the directory comes back unchanged, or it was cut: then it is one character, `x`, then the result |
| LegacyFile.StripUrlDir | lib/file.mjs:69-77 | the three cuts leave a suffix of the pathname's directory |
| LegacyRoundTrip.StripLayout | lib/file.mjs:69-77 | the cuts in their order: `/contentPath` only with passthrough, then `/bucket` only with `addBucketToPath`, then `/type`; a directory laid out that way keeps exactly `/ds` |
| LegacyFile.CutLeading | lib/file.mjs:69-77 | the successive `slice`s compute `StripUrlDir` |
| LegacyFile.PartialSegmentCut | lib/file.mjs:75-77 | `/images-old/…` loses `/images`, leaving `-old/…` |
| LegacyFile.FromUrlState | lib/file.mjs:56-84 | succeeds exactly for a non-empty URL, else "URL is required"; dir is `join(prefix, '', cut dir)` |
| LegacyFile.FromURL | lib/file.mjs:56-84 | a fresh file whose record is `FromUrlState`'s, or its error |
| LegacyFile.RelativeOf | lib/file.mjs:119-125 | the computed name verbatim when set, else the sanitized `dir/base` |
| LegacyFile.AbsoluteOf | lib/file.mjs:99-115 | a computed name after `host[/bucket]` unsanitized; otherwise a tame URL |
| LegacyFile.PassthroughOf | lib/file.mjs:130-136 | a computed name after `/contentPath` unsanitized; otherwise a tame path |
| LegacyFile.ServeOf | lib/file.mjs:87-96 | signed, else passthrough, else absolute |
| LegacyFile.ChosenBase | lib/file.mjs:233-283 | original, originalhash, random and unknown strategies keep base; hash gives `H+ext`, unique `name-R+ext`, hashunique the mixed digest's `H+ext`, ghost Ghost's name for the swapped record (H, R the last `hashLength` characters) |
| LegacyFile.ComputedName | lib/file.mjs:284 | the computed name is tame and has no backslash, and equals `relative()` for the strategies that keep base |
| LegacyFile.GCSFile.GetComputedName | lib/file.mjs:233-285 | records `ComputedName` in `computed` and restores the record |
| LegacyAdapter.PathKey | lib/file.mjs:34-45 | "Path is required" exactly for ""; otherwise a tame key |
| LegacyAdapter.UrlKey | lib/adapter.mjs:187-190 | "URL is required" exactly for ""; otherwise a tame key |
| LegacyAdapter.UrlToPath | lib/adapter.mjs:187-190 | `FromURL(url).relative()` computes `UrlKey` |
| LegacyAdapter.DeleteOutcome | lib/adapter.mjs:134-138 | success exactly when there is no error; every error, 404 included, is wrapped |
| LegacyAdapter.NotFoundDiffers | lib/adapter.mjs:134-138 | a 404 fails here but succeeds in the current adapter |
| LegacyAdapter.Delete | lib/adapter.mjs:132-139 | an empty path fails; otherwise the outcome of deleting the key |
| LegacyAdapter.ServeFailure | lib/adapter.mjs:145-179 | an empty request path is an internal error; otherwise nothing is passed on exactly when streaming succeeds, and a streaming error is passed on as the current handler's `ServeError` of that error and the older key |
| LegacyAdapter.FoldedDir | lib/file.mjs:17-18 | the stored dir carries the prefix (when set) and the type before the directory |
| LegacyAdapter.StoredKey | lib/file.mjs:119-125 | the key is prefix, type, directory and name, whatever the URL settings |
| LegacyAdapter.StoredUrl | lib/file.mjs:99-115 | the absolute URL is `protocol://host`, the bucket iff `addBucketToPath`, then prefix, type, directory and name |
| LegacyRoundTrip.StripServedDir | lib/file.mjs:69-77 | a passthrough directory loses `/content` and `/type` but keeps its leading "/" |
| LegacyRoundTrip.ServedPathKey | lib/adapter.mjs:187-190 | a passthrough path maps back to the rooted `/dir/name`, without type |
| LegacyRoundTrip.ServedUrlKey | lib/adapter.mjs:187-190 | likewise for the same path behind `scheme://host` |
| LegacyRoundTrip.PassthroughPath | lib/file.mjs:130-136 | the passthrough path is `/contentPath/type/dir/name` |
| LegacyRoundTrip.PassthroughMissesKey | lib/adapter.mjs:187-190 | `urlToPath(passthrough(f))` is `/dir/name`, while `relative()` is `type/dir/name`: the older adapter does not round-trip |
| LegacyTests.LegacyGhostUrlCase | tests/adapter.mjs:15-16 | the older adapter gives `/2025/05/logo.png` for the localhost URL |
| LegacyTests.LegacyServePathCase | tests/adapter.mjs:17-18 | and for the bare serve path |
| LegacyTests.LegacyMissesExpected | tests/adapter.mjs:15-16 | which is not the expected `images/2025/05/logo.png` |
| OriginalAdapter.Resolved | index.js:9-55 | prefix "" unless given; a non-empty host is kept, else the default host; a non-empty template is kept, else `{{hashstr}}{{ext}}` with hashing and `{{basename}}{{ext}}` without; by default unique on, incremental off, hash off |
| OriginalAdapter.ResolveOptions | index.js:39-55 | the constructor's updates compute `Resolved` |
| OriginalAdapter.StripLeadingSlashes | index.js:309 | removes exactly the leading run of `/` and `\` |
| OriginalAdapter.SanitizeUrlPath | index.js:301-311 | no leading slash or backslash, `//` only after `:`, no `///`; without an added prefix, it is the collapse then the strip |
| OriginalAdapter.SanitizeUrlPathArg | index.js:303 | `{path}` and a plain string are sanitized alike |
| OriginalAdapter.StripKeepsSlashShape | index.js:309 | stripping leading slashes keeps the collapsed shape |
| OriginalAdapter.EmptyPrefixAddsNothing | index.js:305 | with an empty prefix nothing is ever added |
| OriginalAdapter.SanitizeUrlPathIdempotent | index.js:301-311 | sanitising twice is sanitising once, unless the second pass adds the prefix |
| OriginalAdapter.EmptyPrefixIdempotent | index.js:301-311 | with an empty prefix `sanitizeUrlPath` is idempotent |
| OriginalAdapter.LeadingSlashRepeatsPrefix | index.js:305-309 | with prefix ghost, `/ghost/a.png` becomes `ghost/ghost/a.png`: the prefix test runs before the leading slash is stripped |
| OriginalAdapter.NoSlashKept | index.js:301-311 | with an empty prefix, a string without `/` and without a leading `\` is unchanged |
| OriginalAdapter.InnerBackslashesKept | index.js:297-309 | interior backslashes survive |
| OriginalAdapter.SanitizedFileName | index.js:314-316 | one character for one: characters outside `[A-Za-z0-9_@. -]` become "-", others stay |
| OriginalAdapter.FileNameIdempotent | index.js:314-316 | the result is all allowed characters, so a second pass changes nothing |
| OriginalAdapter.BucketPart | index.js:101-105 | the bucket follows the host exactly when the host is the default host |
| OriginalAdapter.RelativePath | index.js:113-119 | the relative path never starts with `/` or `\` |
| OriginalAdapter.AbsolutePath | index.js:97-109 | `//` only after the scheme's `:`, and no `///` |
| OriginalAdapter.ExistsKey | index.js:219 | with a target dir, `exists` looks up the relative path of the name in it |
| OriginalAdapter.ObjectKey | index.js:266-279 | the key of `delete` and `read` never starts with a slash; without an added prefix it is the collapse then the strip |
| OriginalAdapter.LeadAddsNothing | index.js:305 | a path that already begins with the prefix gets no second one |
| OriginalAdapter.RelativePathClean | index.js:113-119 | the relative path of a clean name in `join(prefix, dir)` is prefix (when set), directory and name |
| OriginalAdapter.AbsolutePathClean | index.js:97-109 | the absolute URL is `protocol://host[/bucket]/prefix/dir/name` |
| OriginalAdapter.AbsoluteOverRelative | index.js:97-119 | the absolute URL is `protocol://host[/bucket]/` followed by the relative path |
| OriginalAdapter.PreparedKeyStable | index.js:217-225 | `exists` and `delete` use the same key `save` stored under |
| OriginalAdapter.AdapterError | index.js:23-31 | the message is prefixed with "Ghost GCS Adapter Error: " |
| OriginalAdapter.Wrap | index.js:250-256 | an adapter error is passed on as it is, any other error is wrapped |
| OriginalAdapter.WrapOnce | index.js:250-256 | wrapping twice is wrapping once |
| OriginalAdapter.Image.constructor | index.js:244 | an image with only name, ext and path set |
| OriginalAdapter.Named | index.js:149-169 | with hashing, hashstr is the last `hashLength` digest characters; without, a unique non-incremental basename grows by "-" and the random hex; nothing else changes |
| OriginalAdapter.ImageName | index.js:149-173 | updates the image to `Named` and returns the template rendered over it |
| OriginalAdapter.WithPaths | index.js:206-207 | sets exactly the relative and absolute paths |
| OriginalAdapter.Start | index.js:180-183 | sets targetDir to `join(prefix, targetDir \|\| getTargetDir())`, basename to the name without ext, the hash flag from the options, and clears hashstr; nothing else changes |
| OriginalAdapter.SetPaths | index.js:206-207 | updates the image to `WithPaths` |
| OriginalAdapter.Placed | index.js:185-211 | on success the paths are set; targetDir, path, ext and the hash flag are kept |
| OriginalAdapter.Place | index.js:185-211 | updates the image to `Placed` |
| OriginalAdapter.Prepared | index.js:65-93 | targetDir is `join(prefix, dir)`; a read error while hashing fails with an adapter error; success sets both paths; a non-adapter error arises only from the incremental name lookup; no hash without hashing |
| OriginalAdapter.Prepare | index.js:178-213 | the image and the outcome are `Prepared` |
| OriginalAdapter.PreparedPaths | index.js:178-213 | after a successful prepare with clean names, both paths are written out and `exists` and `delete` use the stored key |
| OriginalAdapter.DefaultName | index.js:9-21 | under the defaults the name is `basename-random + ext` |
| OriginalAdapter.HashName | index.js:149-159 | with hashing and the default template the name is the cut digest plus ext |
| OriginalAdapter.StrictJoin | index.js:102 | `path.join` with an undefined argument throws a TypeError |
| OriginalAdapter.AbsolutePathOf | index.js:97-109 | `getGCSPathAbsolute` on an object lacking targetDir or name throws; otherwise it is `AbsolutePath` |
| OriginalAdapter.SaveRawAsWritten | index.js:228-239 | `saveRaw` as written: it can only succeed after the store has accepted the sanitized path |
| OriginalAdapter.SaveRawAlwaysThrows | index.js:231 | `saveRaw` as written always throws the TypeError, before anything is stored |
| OriginalAdapter.SaveRaw | index.js:228-239 | corrected: succeeds exactly when the store accepts the key; a store error is an adapter error |
| OriginalAdapter.SaveRawMatchesSave | index.js:228-258 | corrected `saveRaw` of the relative path returns the absolute URL `save` gives |
| OriginalAdapter.SaveOutcome | index.js:244-258 | errors are always adapter errors; success exactly when preparing and uploading succeed, with the absolute path |
| OriginalAdapter.Save | index.js:244-258 | prepares the image in place and returns `SaveOutcome` |
| OriginalAdapter.Exists | index.js:217-225 | looks up `ExistsKey`; a lookup error is passed on unwrapped |
| OriginalAdapter.Delete | index.js:266-272 | succeeds exactly when deleting the key succeeds; errors are wrapped |
| OriginalAdapter.Concat | index.js:285-287 | joining no chunks gives no bytes; one chunk gives itself |
| OriginalAdapter.ConcatAppend | index.js:285-291 | concatenation distributes over appending chunks |
| OriginalAdapter.Collect | index.js:278-291 | the chunk loop computes `Concat` |
| OriginalAdapter.Read | index.js:274-295 | the chunks of the key concatenated, or the stream error wrapped |

## Left out

- The GCS client (`Storage`, `bucket.file`, `exists`, `save`, `delete`, `createReadStream`,
  `createWriteStream`, `getSignedUrl`) is network I/O. Each call is a function parameter keyed
  by the object key.
- Streams, `pipeline`, `fs.createReadStream`, promises and async ordering are I/O plumbing.
  Reads are modelled as a finite list of chunks.
- `node:crypto` digests and `randomBytes` are foreign. They are parameters returning hex
  strings. Only the `slice(-hashLength)` cut and the string assembly are modelled, so the byte
  counts are not (8 or 32 extra random bytes for `hashunique`, 20 bytes mixed into the hash and
  3 bytes appended in `index.js`).
- `hashAlgorithm`: an unknown algorithm makes `createHash` throw, and that case is not modelled.
- `lo.deburr` and `toLowerCase` are foreign and Unicode-wide. Deburring covers the Latin-1
  letters and the combining marks U+0300–U+036F. Lowercasing covers ASCII and Latin-1.
- JavaScript strings are UTF-16. Code units and astral characters are modelled as Dafny
  characters, one for one.
- Node's `URL` and `pathToFileURL` handle much more than the model does. It covers
  `scheme://host/path?query#fragment` and rooted or relative paths under a working directory
  given as a parameter. Percent-encoding, ports beyond plain text, and `..` above the root are
  not modelled.
- WebUrl.UrlPathname does not resolve `.` and `..` segments, so for `http://h/a/../b.png` it gives
  `/a/../b.png` where `new URL` gives `/b.png`. It also keeps `\`, which `new URL` turns into `/`
  for `http` and `https` URLs.
- WebUrl.UrlPathname accepts every string that contains `://`. `new URL` throws "Invalid URL" for
  some of them, such as a path like `/content/images/x://y.png` with no scheme in front. So the
  model of `fromURL` returns a file where the source throws.
- Ghost collaborators are parameters: `config.get('paths:contentPath')`, `getTargetDir`,
  `getUniqueSecureFilePath`, `getUniqueFileName` and `@danmasta/interpolate`'s `parse`.
- The signing time (`Date.now() + expires`) is left out. A signed URL is a parameter.
- The `index.js` `serve` handler only calls `next()` and has nothing to model.
- The `index.js` `uploadGCSImage` is folded into `Save`'s upload parameter.
- Packaging files and error classes are left out: `type/images.mjs`, `dist/cjs/type/images.cjs`,
  `rollup.config.mjs`, `index.mjs`, `dist/cjs/lib/util.cjs`, the tests' setup files, and the
  `GCSAdapterError` class hierarchy. Errors are modelled as tagged messages.
- `MAX_NAME_SIZE` is declared (`Constants.MaxNameSize`) but no code path enforces it.
- The `sep` regex of `lib/constants.mjs` is not used by the modelled code.
- GcsFile.StripDir: its own contract states only that a suffix of at most three fewer segments
  remains. The order of the strips is stated for URL and serve layouts by
  `RoundTrip.StripServe` and `RoundTrip.StripAbsolute`.
- LegacyFile.StripUrlDir: its own contract states only that a suffix of the directory remains.
  The order of the three cuts, each only under its flag, is stated by `LegacyRoundTrip.StripLayout`
  for directories that start with the cut segments.
- RoundTrip.AbsoluteRoundTrip and the other round-trip lemmas require clean segments that are
  fixed points of `sanitize` and differ from the content path. `sanitize` lowercases, while
  `fromURL` compares raw segments.
- `sanitize` is not idempotent, so no idempotence lemma is stated. `Sanitizer.SanitizeNotIdempotent`
  gives the counterexample instead.
- Node's `path.join` and `path.normalize` are modelled exactly, `..` included. The round-trip
  and layout lemmas exclude `..` segments by precondition.

## Findings

| source | as written | input that shows it | evidently intended | confidence | as-written member | corrected member |
|---|---|---|---|---|---|---|
| lib/file.mjs:68-83 | `FromURL` cuts `/content` and `/images` but keeps the leading "/" and drops the type, so `urlToPath` of a served URL is not the stored key | `new GCSAdapter({bucket: 'BUCKET'}).fromURL('http://localhost:2368/content/images/2025/05/logo.png').relative()` gives `/2025/05/logo.png` (tests/adapter.mjs:15-16 expects `images/2025/05/logo.png`) | `urlToPath(serve(f)) == f.relative()`, as the current generation does | high; not executed | LegacyTests.LegacyMissesExpected, LegacyRoundTrip.PassthroughMissesKey | GcsAdapter.UrlKey with AdapterTests.GhostUrlCase and RoundTrip.PassthroughRoundTrip |
| index.js:231 | `saveRaw` passes `{ gcsPathRelative }` to `getGCSPathAbsolute`, which joins the undefined `targetDir` and `name` | any call, e.g. `saveRaw(buf, 'images/a.png')`: `path.join(host, bucket, undefined, undefined)` throws a TypeError before the buffer is stored | return the absolute URL of the stored key | high; not executed | OriginalAdapter.SaveRawAlwaysThrows | OriginalAdapter.SaveRaw with OriginalAdapter.SaveRawMatchesSave |
| lib/file.mjs:69-77 | prefixes are cut by string position (`indexOf(x) === 1`), not by segment | type `images` and pathname dir `/images-old/2025` gives dir `-old/2025` | cut only a whole leading segment | medium; not executed | LegacyFile.PartialSegmentCut | GcsFile.StripDir with RoundTrip.StripServe |
