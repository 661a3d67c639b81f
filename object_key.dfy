/**
  The object key an upload is stored under, `<class>/<random>.mp4`, and the
  public URL recorded for it, `<distribution>/<key>`.
 */
module ObjectKey {
  import opened Wrappers
  import opened Base64Url
  import opened MediaProbe

  /** The key built from the aspect-class prefix and the random bytes. */
  function Key(prefix: string, random: seq<byte>): string {
    prefix + "/" + Encode(random) + ".mp4"
  }

  /** `key` is `prefix/`, then 43 URL-safe characters, then `.mp4`. */
  predicate KeyPatternWith(key: string, prefix: string) {
    && |key| == |prefix| + 1 + 43 + 4
    && key[..|prefix|] == prefix
    && key[|prefix|] == '/'
    && (forall i :: |prefix| < i < |prefix| + 44 ==> IsUrlSafe(key[i]))
    && key[|prefix| + 44..] == ".mp4"
  }

  /** `^(landscape|portrait|other)/[A-Za-z0-9_-]{43}\.mp4$` */
  predicate MatchesKeyPattern(key: string) {
    KeyPatternWith(key, "landscape") || KeyPatternWith(key, "portrait") || KeyPatternWith(key, "other")
  }

  /** Every key the handler builds from 32 random bytes has the documented shape. */
  lemma KeyShape(c: AspectClass, random: seq<byte>)
    requires |random| == 32
    ensures KeyPatternWith(Key(ClassName(c), random), ClassName(c))
    ensures MatchesKeyPattern(Key(ClassName(c), random))
  {
    var p, e := ClassName(c), Encode(random);
    var key := Key(p, random);
    EncodedLength32(random);
    assert key == p + "/" + e + ".mp4";
    assert key[..|p|] == p;
    assert key[|p| + 44..] == ".mp4";
    forall i | |p| < i < |p| + 44
      ensures IsUrlSafe(key[i])
    {
      assert key[i] == e[i - |p| - 1];
    }
  }

  /** The parts of a key are recovered from it: the prefix and the random bytes. */
  lemma KeyInjective(c: AspectClass, r: seq<byte>, d: AspectClass, s: seq<byte>)
    requires |r| == 32 && |s| == 32
    requires Key(ClassName(c), r) == Key(ClassName(d), s)
    ensures c == d && r == s
  {
    var key := Key(ClassName(c), r);
    EncodedLength32(r);
    EncodedLength32(s);
    ClassNameInjective(c, d);
    var n := |ClassName(c)|;
    assert Encode(r) == key[n + 1..n + 44];
    assert Encode(s) == key[n + 1..n + 44];
    EncodeInjective(r, s);
  }

  /** `fmt.Sprintf("%v/%v", distribution, key)`. */
  function PublicUrl(distribution: string, key: string): string {
    distribution + "/" + key
  }

  /** The key a URL under `distribution` names, if it is one. */
  function KeyOfUrl(distribution: string, url: string): (r: Option<string>)
    ensures r.Some? ==> PublicUrl(distribution, r.value) == url
  {
    var n := |distribution|;
    if |url| > n && url[..n] == distribution && url[n] == '/' then
      assert url == url[..n] + "/" + url[n + 1..];
      Some(url[n + 1..])
    else None
  }

  /** The recorded URL names exactly the stored key. */
  lemma UrlNamesKey(distribution: string, key: string)
    ensures KeyOfUrl(distribution, PublicUrl(distribution, key)) == Some(key)
  {
    var url := PublicUrl(distribution, key);
    var n := |distribution|;
    assert url[..n] == distribution && url[n] == '/' && url[n + 1..] == key;
  }
}
