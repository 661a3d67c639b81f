/**
  The part of Go's `mime.ParseMediaType` that the upload handler's
  Content-Type gate depends on: the media type is what stands before the
  first `;`, lower-cased and with surrounding white space removed; the
  parameters after the `;` never reach the comparison.

  The RFC 2045 / RFC 2231 grammar checks on the type and the parameters are
  not carried out here: their verdict is an input (`grammarOk`).
 */
module Mime {
  import opened Wrappers

  /** The white space that Go's `strings.TrimSpace` removes, restricted to ASCII. */
  predicate IsSpace(ch: char) {
    ch == ' ' || ch == '\t' || ch == '\n' || ch == '\r' || ch == '\U{000B}' || ch == '\U{000C}'
  }

  predicate IsUpperAscii(ch: char) {
    'A' <= ch <= 'Z'
  }

  function LowerAscii(ch: char): (r: char)
    ensures !IsUpperAscii(r)
    ensures IsUpperAscii(ch) ==> r as int == ch as int + 32
    ensures !IsUpperAscii(ch) ==> r == ch
  {
    if IsUpperAscii(ch) then (ch as int + 32) as char else ch
  }

  /** `strings.Cut(v, ";")`'s first result: everything before the first `;`, or all of `s` when there is none. */
  function BeforeSemicolon(s: string): (base: string)
    ensures base <= s
    ensures ';' !in base
    ensures |base| < |s| ==> s[|base|] == ';'
  {
    if s == [] || s[0] == ';' then [] else [s[0]] + BeforeSemicolon(s[1..])
  }

  /** `strings.ToLower` on ASCII letters. */
  function ToLower(s: string): (r: string)
    ensures |r| == |s|
    ensures forall i :: 0 <= i < |s| ==> r[i] == LowerAscii(s[i])
  {
    if s == [] then [] else [LowerAscii(s[0])] + ToLower(s[1..])
  }

  /** The index of the first character at or after `lo` that is not white space, or `|s|`. */
  function SkipSpace(s: string, lo: nat): (i: nat)
    requires lo <= |s|
    ensures lo <= i <= |s|
    ensures forall k :: lo <= k < i ==> IsSpace(s[k])
    ensures i < |s| ==> !IsSpace(s[i])
    decreases |s| - lo
  {
    if lo < |s| && IsSpace(s[lo]) then SkipSpace(s, lo + 1) else lo
  }

  /** The index just past the last character before `hi` that is not white space, or `lo`. */
  function SkipSpaceBack(s: string, lo: nat, hi: nat): (j: nat)
    requires lo <= hi <= |s|
    ensures lo <= j <= hi
    ensures forall k :: j <= k < hi ==> IsSpace(s[k])
    ensures j > lo ==> !IsSpace(s[j - 1])
    decreases hi
  {
    if lo < hi && IsSpace(s[hi - 1]) then SkipSpaceBack(s, lo, hi - 1) else hi
  }

  /** `strings.TrimSpace`: `s` without its leading and trailing white space. */
  function TrimSpace(s: string): (r: string)
    ensures exists i, j ::
      (0 <= i <= j <= |s| && r == s[i..j]
       && (forall k :: 0 <= k < i ==> IsSpace(s[k]))
       && (forall k :: j <= k < |s| ==> IsSpace(s[k])))
    ensures r != [] ==> !IsSpace(r[0]) && !IsSpace(r[|r| - 1])
  {
    var i := SkipSpace(s, 0);
    s[i..SkipSpaceBack(s, i, |s|)]
  }

  /** White space around a text that neither starts nor ends with white space is exactly what is trimmed. */
  lemma TrimSpaceOfPadded(pre: string, core: string, post: string)
    requires forall k :: 0 <= k < |pre| ==> IsSpace(pre[k])
    requires forall k :: 0 <= k < |post| ==> IsSpace(post[k])
    requires core != [] && !IsSpace(core[0]) && !IsSpace(core[|core| - 1])
    ensures TrimSpace(pre + core + post) == core
  {
    var s := pre + core + post;
    assert forall k :: 0 <= k < |pre| ==> s[k] == pre[k];
    assert forall k :: |pre| + |core| <= k < |s| ==> s[k] == post[k - |pre| - |core|];
    var i := SkipSpace(s, 0);
    assert s[|pre|] == core[0];
    assert i == |pre|;
    var j := SkipSpaceBack(s, i, |s|);
    assert s[|pre| + |core| - 1] == core[|core| - 1];
    assert j == |pre| + |core|;
    assert s[i..j] == core;
  }

  /** The media type `mime.ParseMediaType` returns for a header value `v`. */
  function MediaTypeOf(v: string): string {
    TrimSpace(ToLower(BeforeSemicolon(v)))
  }

  /** A media type holds no `;` and no upper-case letter, and neither starts nor ends with white space. */
  lemma MediaTypeShape(v: string)
    ensures var t := MediaTypeOf(v);
      && (forall k :: 0 <= k < |t| ==> t[k] != ';' && !IsUpperAscii(t[k]))
      && (t != [] ==> !IsSpace(t[0]) && !IsSpace(t[|t| - 1]))
  {
    var lower := ToLower(BeforeSemicolon(v));
    LowerHasNoSemicolon(BeforeSemicolon(v));
    var i := SkipSpace(lower, 0);
    var j := SkipSpaceBack(lower, i, |lower|);
    var t := lower[i..j];
    assert MediaTypeOf(v) == t;
  }

  /** Lower-casing a text without `;` gives one without `;` and without upper-case letters. */
  lemma LowerHasNoSemicolon(base: string)
    requires ';' !in base
    ensures forall k :: 0 <= k < |ToLower(base)| ==> ToLower(base)[k] != ';' && !IsUpperAscii(ToLower(base)[k])
  {
    var lower := ToLower(base);
    forall k | 0 <= k < |lower| ensures lower[k] != ';' {
      assert base[k] in base;
    }
  }

  /**
    `mime.ParseMediaType(v)`, reduced to its media type: an error when the
    media type is empty ("no media type") or when the grammar check fails.
   */
  function ParseMediaType(v: string, grammarOk: bool): (r: Option<string>)
    ensures r.None? <==> !grammarOk || MediaTypeOf(v) == ""
    ensures r.Some? ==> r.value == MediaTypeOf(v) && r.value != ""
  {
    var t := MediaTypeOf(v);
    if t == "" || !grammarOk then None else Some(t)
  }

  lemma {:induction false} NoSemicolon(t: string)
    requires ';' !in t
    ensures BeforeSemicolon(t) == t
  {
    if t != [] {
      assert t[0] != ';' && ';' !in t[1..];
      NoSemicolon(t[1..]);
    }
  }

  lemma {:induction false} CutAtFirstSemicolon(t: string, params: string)
    requires ';' !in t
    ensures BeforeSemicolon(t + ";" + params) == t
  {
    var s := t + ";" + params;
    if t != [] {
      assert s[0] == t[0] && s[1..] == t[1..] + ";" + params;
      assert ';' !in t[1..];
      CutAtFirstSemicolon(t[1..], params);
    }
  }

  lemma {:induction false} CutBeforeRest(t: string, rest: string)
    requires ';' !in t
    requires rest == [] || rest[0] == ';'
    ensures BeforeSemicolon(t + rest) == t
  {
    if t == [] {
      assert t + rest == rest;
    } else {
      assert (t + rest)[0] == t[0] && (t + rest)[1..] == t[1..] + rest;
      assert ';' !in t[1..];
      CutBeforeRest(t[1..], rest);
    }
  }

  /**
    The media type of a header value: white space, then `core`, then white
    space, then nothing or a `;` with parameters, has the media type `core`
    lower-cased.
   */
  lemma MediaTypeOfPadded(pre: string, core: string, post: string, rest: string)
    requires forall k :: 0 <= k < |pre| ==> IsSpace(pre[k])
    requires forall k :: 0 <= k < |post| ==> IsSpace(post[k])
    requires core != [] && !IsSpace(core[0]) && !IsSpace(core[|core| - 1]) && ';' !in core
    requires rest == [] || rest[0] == ';'
    ensures MediaTypeOf(pre + core + post + rest) == ToLower(core)
  {
    var t := pre + core + post;
    PaddingHoldsNoSemicolon(pre, core, post);
    CutBeforeRest(t, rest);
    assert pre + core + post + rest == t + rest;
    LowerOfPadded(pre, core, post);
    LowerKeepsSpace(pre);
    LowerKeepsSpace(core);
    LowerKeepsSpace(post);
    var lp, lc, lq := ToLower(pre), ToLower(core), ToLower(post);
    assert !IsSpace(lc[0]) && !IsSpace(lc[|lc| - 1]);
    TrimSpaceOfPadded(lp, lc, lq);
  }

  lemma PaddingHoldsNoSemicolon(pre: string, core: string, post: string)
    requires forall k :: 0 <= k < |pre| ==> IsSpace(pre[k])
    requires forall k :: 0 <= k < |post| ==> IsSpace(post[k])
    requires ';' !in core
    ensures ';' !in pre + core + post
  {
    assert ';' !in pre && ';' !in post;
  }

  lemma {:induction false} LowerOfAppend(a: string, b: string)
    ensures ToLower(a + b) == ToLower(a) + ToLower(b)
  {
    if a == [] {
      assert a + b == b;
    } else {
      assert (a + b)[0] == a[0] && (a + b)[1..] == a[1..] + b;
      LowerOfAppend(a[1..], b);
    }
  }

  lemma LowerOfPadded(pre: string, core: string, post: string)
    ensures ToLower(pre + core + post) == ToLower(pre) + ToLower(core) + ToLower(post)
  {
    LowerOfAppend(pre, core);
    LowerOfAppend(pre + core, post);
  }

  /** Lower-casing keeps white space where it was and adds none. */
  lemma LowerKeepsSpace(s: string)
    ensures forall k :: 0 <= k < |s| ==> (IsSpace(ToLower(s)[k]) <==> IsSpace(s[k]))
  {
  }

  /** A header value that is only a media type, with nothing around it. */
  lemma MediaTypeOfBare(core: string)
    requires core != [] && !IsSpace(core[0]) && !IsSpace(core[|core| - 1]) && ';' !in core
    ensures MediaTypeOf(core) == ToLower(core)
  {
    NoSemicolon(core);
    LowerKeepsSpace(core);
    var lc := ToLower(core);
    assert !IsSpace(lc[0]) && !IsSpace(lc[|lc| - 1]);
    TrimSpaceOfPadded([], lc, []);
    assert [] + lc + [] == lc;
  }

  /** `core` differs from `lower` only in the case of ASCII letters. */
  predicate CaseVariant(core: string, lower: string) {
    |core| == |lower| && forall k :: 0 <= k < |core| ==> LowerAscii(core[k]) == lower[k]
  }

  /** A case variant of a text lower-cases to it, and has its `;` and its white space in the same places. */
  lemma VariantLowers(core: string, lower: string)
    requires CaseVariant(core, lower)
    ensures ToLower(core) == lower
    ensures forall k :: 0 <= k < |core| ==> (core[k] == ';' <==> lower[k] == ';')
    ensures forall k :: 0 <= k < |core| ==> (IsSpace(core[k]) <==> IsSpace(lower[k]))
  {
    LowerKeepsSpace(core);
    forall k | 0 <= k < |core| ensures core[k] == ';' <==> lower[k] == ';' {
      assert LowerAscii(core[k]) == lower[k];
    }
  }

  lemma AcceptedTypeShape()
    ensures ';' !in "video/mp4"
    ensures !IsSpace("video/mp4"[0]) && !IsSpace("video/mp4"[8])
  {
  }

  lemma VariantOfAccepted(core: string)
    requires CaseVariant(core, "video/mp4")
    ensures core != [] && !IsSpace(core[0]) && !IsSpace(core[|core| - 1]) && ';' !in core
    ensures ToLower(core) == "video/mp4"
  {
    AcceptedTypeShape();
    VariantLowers(core, "video/mp4");
    forall k | 0 <= k < |core| ensures core[k] != ';' {
      assert "video/mp4"[k] in "video/mp4";
    }
  }

  /**
    `video/mp4` in any ASCII case, with white space around it and with or
    without parameters, parses to exactly `video/mp4`.
   */
  lemma AcceptedVariants(pre: string, core: string, post: string, rest: string)
    requires forall k :: 0 <= k < |pre| ==> IsSpace(pre[k])
    requires forall k :: 0 <= k < |post| ==> IsSpace(post[k])
    requires CaseVariant(core, "video/mp4")
    requires rest == [] || rest[0] == ';'
    ensures ParseMediaType(pre + core + post + rest, true) == Some("video/mp4")
  {
    VariantOfAccepted(core);
    MediaTypeOfPadded(pre, core, post, rest);
  }

  /** The header `video/mp4` is accepted as it is. */
  lemma ExactHeaderAccepted()
    ensures MediaTypeOf("video/mp4") == "video/mp4"
  {
    var v := "video/mp4";
    assert CaseVariant(v, v);
    AcceptedVariants([], v, [], []);
    assert [] + v + [] + [] == v;
  }

  /** The header `video/avi` has another media type. */
  lemma OtherHeaderRejected()
    ensures MediaTypeOf("video/avi") != "video/mp4"
  {
    var v := "video/avi";
    assert ';' !in v;
    MediaTypeOfBare(v);
    assert ToLower(v)[6] == 'a';
  }

  /** Parameters never change the media type: `video/mp4; codecs=avc1` has the type of `video/mp4`. */
  lemma ParametersIgnored(t: string, params: string)
    requires ';' !in t
    ensures MediaTypeOf(t + ";" + params) == MediaTypeOf(t)
  {
    CutAtFirstSemicolon(t, params);
    NoSemicolon(t);
  }
}
