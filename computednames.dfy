/** What the filename strategies and templates of `getComputedName()` produce. */
module ComputedNames {
  import opened Wrappers
  import opened NodePath
  import opened Text
  import opened Constants
  import opened Records
  import opened GcsOptions
  import opened GcsFile

  // ---------------------------------------------------------------- reading templates

  predicate NoBracket(s: string) {
    forall i :: 0 <= i < |s| ==> !IsBracket(s[i])
  }

  lemma {:induction false} KeyLengthOf(k: string, rest: string)
    requires NoBracket(k)
    ensures KeyLength(k + "]" + rest) == |k|
    decreases |k|
  {
    var s := k + "]" + rest;
    if k != "" {
      assert s[1..] == k[1..] + "]" + rest;
      KeyLengthOf(k[1..], rest);
    }
  }

  /** A `[key]` at the front of a template is read as that placeholder. */
  lemma TokensKey(k: string, rest: string)
    requires k != "" && NoBracket(k)
    ensures Tokens("[" + k + "]" + rest) == [Key(k)] + Tokens(rest)
  {
    var t := "[" + k + "]" + rest;
    assert t[1..] == k + "]" + rest;
    KeyLengthOf(k, rest);
    assert t[1..1 + |k|] == k;
    assert t[|k| + 2..] == rest;
  }

  /** Without a `[`, a template is all literal characters. */
  lemma {:induction false} TokensLiteral(t: string)
    requires forall i :: 0 <= i < |t| ==> t[i] != '['
    ensures forall k :: 0 <= k < |Tokens(t)| ==> Tokens(t)[k].Lit?
    decreases |t|
  {
    if t != "" {
      assert Tokens(t) == [Lit(t[0])] + Tokens(t[1..]);
      TokensLiteral(t[1..]);
    }
  }

  /** Literal tokens expand to their own text. */
  lemma {:induction false} ExpandLiteral(ts: seq<Token>, st: FileState, hash: string, randomHex: nat -> string, hashLength: int, draw: nat)
    requires forall k :: 0 <= k < |ts| ==> ts[k].Lit?
    ensures Expand(ts, st, hash, randomHex, hashLength, draw) == Render(ts)
    decreases |ts|
  {
    if ts != [] {
      ExpandLiteral(ts[1..], st, hash, randomHex, hashLength, draw);
    }
  }

  // ---------------------------------------------------------------- strategies

  /** A custom template without placeholders is used as the name verbatim. */
  lemma FixedTemplate(st: FileState, o: Options, digest: string, mixedDigest: string,
                      randomHex: nat -> string, uniquePath: (FileState, Option<string>) -> string)
    requires o.filename == "custom"
    requires forall i :: 0 <= i < |o.template| ==> o.template[i] != '['
    ensures ComputedName(st, o, digest, mixedDigest, randomHex, uniquePath) == o.template
  {
    TokensLiteral(o.template);
    ExpandLiteral(Tokens(o.template), st, SliceFromEnd(digest, o.hashLength), randomHex, o.hashLength, 0);
    RenderTokens(o.template);
  }

  /** The `custom` strategy expands the template's tokens. */
  lemma CustomName(st: FileState, o: Options, digest: string, mixedDigest: string,
                   randomHex: nat -> string, uniquePath: (FileState, Option<string>) -> string)
    requires o.filename == "custom"
    ensures ComputedName(st, o, digest, mixedDigest, randomHex, uniquePath)
         == Expand(Tokens(o.template), st, SliceFromEnd(digest, o.hashLength), randomHex, o.hashLength, 0)
  {
  }

  lemma HashName(st: FileState, o: Options, digest: string, mixedDigest: string,
                 randomHex: nat -> string, uniquePath: (FileState, Option<string>) -> string)
    requires o.filename == "hash"
    ensures ComputedName(st, o, digest, mixedDigest, randomHex, uniquePath) == SliceFromEnd(digest, o.hashLength) + st.ext
  {
  }

  lemma TwoKeys(k1: string, k2: string)
    requires k1 != "" && NoBracket(k1) && k2 != "" && NoBracket(k2)
    ensures Tokens("[" + k1 + "]" + ("[" + k2 + "]")) == [Key(k1), Key(k2)]
  {
    TokensKey(k1, "[" + k2 + "]");
    assert "[" + k2 + "]" == "[" + k2 + "]" + "";
    TokensKey(k2, "");
  }

  lemma ExpandHash(ts: seq<Token>, st: FileState, hash: string, randomHex: nat -> string, hashLength: int, draw: nat)
    ensures Expand([Key("hash")] + ts, st, hash, randomHex, hashLength, draw) == hash + Expand(ts, st, hash, randomHex, hashLength, draw)
  {
    assert ([Key("hash")] + ts)[1..] == ts;
  }

  lemma ExpandRandom(ts: seq<Token>, st: FileState, hash: string, randomHex: nat -> string, hashLength: int, draw: nat)
    ensures Expand([Key("random")] + ts, st, hash, randomHex, hashLength, draw)
         == SliceFromEnd(randomHex(draw), hashLength) + Expand(ts, st, hash, randomHex, hashLength, draw + 1)
  {
    assert ([Key("random")] + ts)[1..] == ts;
  }

  lemma ExpandField(k: string, ts: seq<Token>, st: FileState, hash: string, randomHex: nat -> string, hashLength: int, draw: nat)
    requires k != "hash" && k != "random"
    ensures Expand([Key(k)] + ts, st, hash, randomHex, hashLength, draw) == Field(st, k) + Expand(ts, st, hash, randomHex, hashLength, draw)
  {
    assert ([Key(k)] + ts)[1..] == ts;
  }

  /** `[a][b]` reads as two placeholders. */
  lemma PairTokens(t: string, k1: string, k2: string)
    requires k1 != "" && NoBracket(k1) && k2 != "" && NoBracket(k2)
    requires t == "[" + k1 + "]" + ("[" + k2 + "]")
    ensures Tokens(t) == [Key(k1)] + [Key(k2)]
  {
    TwoKeys(k1, k2);
  }

  lemma HashExtTokens()
    ensures Tokens("[hash][ext]") == [Key("hash")] + [Key("ext")]
  {
    PairTokens("[hash][ext]", "hash", "ext");
  }

  lemma NameExtTokens()
    ensures Tokens("[name][ext]") == [Key("name")] + [Key("ext")]
  {
    PairTokens("[name][ext]", "name", "ext");
  }

  lemma RandomTokens()
    ensures Tokens("[random][random]") == [Key("random")] + [Key("random")]
  {
    PairTokens("[random][random]", "random", "random");
  }

  lemma HashExt(st: FileState, hash: string, randomHex: nat -> string, hashLength: int)
    ensures Expand(Tokens("[hash][ext]"), st, hash, randomHex, hashLength, 0) == hash + st.ext
  {
    HashExtTokens();
    ExpandHash([Key("ext")], st, hash, randomHex, hashLength, 0);
    LastField("ext", st, hash, randomHex, hashLength, 0);
  }

  lemma NameExt(st: FileState, hash: string, randomHex: nat -> string, hashLength: int)
    ensures Expand(Tokens("[name][ext]"), st, hash, randomHex, hashLength, 0) == st.name + st.ext
  {
    NameExtTokens();
    ExpandField("name", [Key("ext")], st, hash, randomHex, hashLength, 0);
    LastField("ext", st, hash, randomHex, hashLength, 0);
  }

  lemma RandomRandom(st: FileState, hash: string, randomHex: nat -> string, hashLength: int)
    ensures Expand(Tokens("[random][random]"), st, hash, randomHex, hashLength, 0)
         == SliceFromEnd(randomHex(0), hashLength) + SliceFromEnd(randomHex(1), hashLength)
  {
    RandomTokens();
    ExpandRandom([Key("random")], st, hash, randomHex, hashLength, 0);
    LastRandom(st, hash, randomHex, hashLength, 1);
  }

  lemma LastRandom(st: FileState, hash: string, randomHex: nat -> string, hashLength: int, draw: nat)
    ensures Expand([Key("random")], st, hash, randomHex, hashLength, draw) == SliceFromEnd(randomHex(draw), hashLength)
  {
    ExpandRandom([], st, hash, randomHex, hashLength, draw);
    assert [Key("random")] + [] == [Key("random")];
  }

  lemma LastField(k: string, st: FileState, hash: string, randomHex: nat -> string, hashLength: int, draw: nat)
    requires k != "hash" && k != "random"
    ensures Expand([Key(k)], st, hash, randomHex, hashLength, draw) == Field(st, k)
  {
    ExpandField(k, [], st, hash, randomHex, hashLength, draw);
    assert [Key(k)] + [] == [Key(k)];
  }

  /** The template `[hash][ext]` (the default when `hash` is set) names a file as `hash` does. */
  lemma HashTemplate(st: FileState, o: Options, digest: string, mixedDigest: string,
                     randomHex: nat -> string, uniquePath: (FileState, Option<string>) -> string)
    requires o.filename == "custom" && o.template == "[hash][ext]"
    ensures ComputedName(st, o, digest, mixedDigest, randomHex, uniquePath)
         == ComputedName(st, o.(filename := "hash"), digest, mixedDigest, randomHex, uniquePath)
  {
    CustomName(st, o, digest, mixedDigest, randomHex, uniquePath);
    HashName(st, o.(filename := "hash"), digest, mixedDigest, randomHex, uniquePath);
    HashExt(st, SliceFromEnd(digest, o.hashLength), randomHex, o.hashLength);
  }

  /** The template `[name][ext]` (the default otherwise) is the name and the extension. */
  lemma NameTemplate(st: FileState, o: Options, digest: string, mixedDigest: string,
                     randomHex: nat -> string, uniquePath: (FileState, Option<string>) -> string)
    requires o.filename == "custom" && o.template == "[name][ext]"
    ensures ComputedName(st, o, digest, mixedDigest, randomHex, uniquePath) == st.name + st.ext
  {
    CustomName(st, o, digest, mixedDigest, randomHex, uniquePath);
    NameExt(st, SliceFromEnd(digest, o.hashLength), randomHex, o.hashLength);
  }

  /** Each `[random]` placeholder draws a fresh random value. */
  lemma RandomTwice(st: FileState, o: Options, digest: string, mixedDigest: string,
                    randomHex: nat -> string, uniquePath: (FileState, Option<string>) -> string)
    requires o.filename == "custom" && o.template == "[random][random]"
    ensures ComputedName(st, o, digest, mixedDigest, randomHex, uniquePath)
         == SliceFromEnd(randomHex(0), o.hashLength) + SliceFromEnd(randomHex(1), o.hashLength)
  {
    CustomName(st, o, digest, mixedDigest, randomHex, uniquePath);
    RandomRandom(st, SliceFromEnd(digest, o.hashLength), randomHex, o.hashLength);
  }

  /**
   * For a file object that arrives with only a name `stem.x`, the constructor's split into
   * `name` and `ext` makes the default template reproduce the original name.
   */
  lemma DefaultTemplateKeepsName(stem: string, x: string, a: Adapter, dirArg: Option<string>, fromUrl: bool, targetDir: string,
                                 digest: string, mixedDigest: string, randomHex: nat -> string,
                                 uniquePath: (FileState, Option<string>) -> string)
    requires stem != "" && stem[0] != '.' && NoSeparator(stem, false)
    requires NoSeparator(x, false) && forall i :: 0 <= i < |x| ==> x[i] != '.'
    requires a.opts.filename == "custom" && a.opts.template == "[name][ext]"
    ensures var st := Completed(FileState(stem + "." + x, "", "", None, None, map[]), a, dirArg, fromUrl, targetDir);
      ComputedName(st, a.opts, digest, mixedDigest, randomHex, uniquePath)
      == ComputedName(st, a.opts.(filename := "original"), digest, mixedDigest, randomHex, uniquePath)
  {
    var st := Completed(FileState(stem + "." + x, "", "", None, None, map[]), a, dirArg, fromUrl, targetDir);
    CompletedSplit(stem, x, a, dirArg, fromUrl, targetDir);
    NameTemplate(st, a.opts, digest, mixedDigest, randomHex, uniquePath);
    OriginalName(st, a.opts.(filename := "original"), digest, mixedDigest, randomHex, uniquePath);
  }

  lemma OriginalName(st: FileState, o: Options, digest: string, mixedDigest: string,
                     randomHex: nat -> string, uniquePath: (FileState, Option<string>) -> string)
    requires o.filename == "original"
    ensures ComputedName(st, o, digest, mixedDigest, randomHex, uniquePath) == st.base
  {
  }

  /** The constructor splits a bare `stem.x` into name `stem`, extension `.x` and base `stem.x`. */
  lemma CompletedSplit(stem: string, x: string, a: Adapter, dirArg: Option<string>, fromUrl: bool, targetDir: string)
    requires stem != "" && stem[0] != '.' && NoSeparator(stem, false)
    requires NoSeparator(x, false) && forall i :: 0 <= i < |x| ==> x[i] != '.'
    ensures var st := Completed(FileState(stem + "." + x, "", "", None, None, map[]), a, dirArg, fromUrl, targetDir);
      st.name + st.ext == st.base
  {
    NameSplit(stem, x);
  }

  /** `extname` and `basename` split `stem.x` back into its parts. */
  lemma NameSplit(stem: string, x: string)
    requires stem != "" && stem[0] != '.' && NoSeparator(stem, false)
    requires NoSeparator(x, false) && forall i :: 0 <= i < |x| ==> x[i] != '.'
    ensures ExtName(stem + "." + x) == "." + x
    ensures BaseName(stem + "." + x, "." + x) == stem
  {
    ExtNameOf(stem, x);
    assert stem + "." + x == stem + ("." + x);
    assert NoSeparator("." + x, false);
    BaseNameStrip(stem, "." + x);
  }
}
