/**
 * Media-type normalisation of the `Accept` and `Content-Type` headers
 * (getHeaderType of AbstractConfigController).
 *
 * A header value is cut at its first `;` (media-type parameters are dropped),
 * trimmed of PHP's default whitespace set, lower-cased (ASCII) and then
 * matched against the two media types the configuration API knows. Anything
 * else, and an absent header, degrades to plain `application/json`.
 */
module Media {
  import opened Wrappers

  /** The flat (dot-separated keys) representation. */
  const Json: string := "application/json"

  /** The vendor media type of the nested (tree) representation. */
  const VendorTree: string := "application/vnd" + VendorSuffix

  const VendorSuffix: string := ".laminascampus.v1.config+json"

  /** The characters PHP's `trim` strips by default: space, tab, LF, CR, NUL, vertical tab. */
  predicate IsTrimmed(c: char)
  {
    c == ' ' || c == '\t' || c == '\n' || c == '\r' || c == '\0' || c == '\U{000B}'
  }

  predicate IsUpper(c: char)
  {
    'A' <= c <= 'Z'
  }

  /** ASCII lower-casing of one character, as `strtolower` does in the C locale. */
  function LowerChar(c: char): (r: char)
    ensures !IsUpper(r)
    ensures IsUpper(c) ==> r as int == c as int + 32
    ensures IsUpper(c) || r == c
  {
    if IsUpper(c) then (c as int + 32) as char else c
  }

  /** `strtolower`: every character lower-cased, nothing else changed. */
  function Lower(s: string): (r: string)
    ensures |r| == |s|
    ensures forall i :: 0 <= i < |r| ==> !IsUpper(r[i])
    ensures forall i :: 0 <= i < |s| && IsUpper(s[i]) ==> r[i] as int == s[i] as int + 32
    ensures forall i :: 0 <= i < |s| && !IsUpper(s[i]) ==> r[i] == s[i]
  {
    seq(|s|, i requires 0 <= i < |s| => LowerChar(s[i]))
  }

  /**
   * The first element of `explode(';', s, 2)`: the longest prefix of `s`
   * without a `;`. Either it is all of `s`, or `s` continues with a `;`.
   */
  function BeforeSemicolon(s: string): (r: string)
    ensures r <= s
    ensures ';' !in r
    ensures |r| < |s| ==> s[|r|] == ';'
  {
    if s == [] || s[0] == ';' then [] else [s[0]] + BeforeSemicolon(s[1..])
  }

  /** `ltrim`: drops the leading run of trimmed characters and nothing else. */
  function TrimLeft(s: string): (r: string)
    ensures |r| <= |s| && r == s[|s| - |r|..]
    ensures forall i :: 0 <= i < |s| - |r| ==> IsTrimmed(s[i])
    ensures r != [] ==> !IsTrimmed(r[0])
  {
    if s != [] && IsTrimmed(s[0]) then TrimLeft(s[1..]) else s
  }

  /** `rtrim`: drops the trailing run of trimmed characters and nothing else. */
  function TrimRight(s: string): (r: string)
    ensures |r| <= |s| && r == s[..|r|]
    ensures forall i :: |r| <= i < |s| ==> IsTrimmed(s[i])
    ensures r != [] ==> !IsTrimmed(r[|r| - 1])
  {
    if s != [] && IsTrimmed(s[|s| - 1]) then TrimRight(s[..|s| - 1]) else s
  }

  /** `r` is `s` from index `k` on, with only trimmed characters cut off at either end. */
  ghost predicate TrimmedAround(s: string, k: int, r: string)
  {
    && 0 <= k <= |s| - |r|
    && r == s[k..k + |r|]
    && (forall i :: 0 <= i < k ==> IsTrimmed(s[i]))
    && (forall i :: k + |r| <= i < |s| ==> IsTrimmed(s[i]))
  }

  /** Cutting a trimmed prefix and then a trimmed suffix leaves a middle slice. */
  lemma TrimmedMiddle(s: string, l: string, r: string)
    requires |l| <= |s| && l == s[|s| - |l|..]
    requires forall i :: 0 <= i < |s| - |l| ==> IsTrimmed(s[i])
    requires |r| <= |l| && r == l[..|r|]
    requires forall i :: |r| <= i < |l| ==> IsTrimmed(l[i])
    ensures TrimmedAround(s, |s| - |l|, r)
    ensures forall i :: 0 <= i < |r| ==> r[i] in s
  {
    var k := |s| - |l|;
    assert forall i :: 0 <= i < |l| ==> l[i] == s[k + i];
    assert forall i :: 0 <= i < |r| ==> r[i] == s[k + i];
  }

  /**
   * `trim`: the middle of `s` left after dropping trimmed characters at both
   * ends; what is left is empty or has untrimmable ends.
   */
  function Trim(s: string): (r: string)
    ensures |r| <= |s|
    ensures exists k :: TrimmedAround(s, k, r)
    ensures forall i :: 0 <= i < |r| ==> r[i] in s
    ensures r != [] ==> !IsTrimmed(r[0]) && !IsTrimmed(r[|r| - 1])
  {
    var l := TrimLeft(s);
    var r := TrimRight(l);
    TrimmedMiddle(s, l, r);
    r
  }

  /** Lower-casing a trimmed token without `;` keeps it so: case only touches letters. */
  lemma LowerKeepsToken(b: string, t: string)
    requires ';' !in b
    requires forall i :: 0 <= i < |t| ==> t[i] in b
    requires t != [] ==> !IsTrimmed(t[0]) && !IsTrimmed(t[|t| - 1])
    ensures ';' !in Lower(t)
    ensures Lower(t) != [] ==> !IsTrimmed(Lower(t)[0]) && !IsTrimmed(Lower(t)[|t| - 1])
  {
    var r := Lower(t);
    forall i | 0 <= i < |r|
      ensures r[i] != ';'
    {
      assert t[i] in b;
    }
  }

  /**
   * The media-type token of a header value: `strtolower(trim(explode(';', v, 2)[0]))`.
   * It holds no `;` and no upper-case letter, is no longer than `v`, and is
   * empty or has untrimmable ends.
   */
  function MediaToken(v: string): (r: string)
    ensures |r| <= |v|
    ensures ';' !in r
    ensures forall i :: 0 <= i < |r| ==> !IsUpper(r[i])
    ensures r != [] ==> !IsTrimmed(r[0]) && !IsTrimmed(r[|r| - 1])
  {
    var b := BeforeSemicolon(v);
    var t := Trim(b);
    LowerKeepsToken(b, t);
    Lower(t)
  }

  /**
   * getHeaderType: an absent header is `application/json`; a present one is
   * the vendor type exactly when its media-type token is, and
   * `application/json` in every other case.
   */
  function HeaderType(h: Option<string>): (r: string)
    ensures r == Json || r == VendorTree
    ensures h.None? ==> r == Json
    ensures r == VendorTree <==> h.Some? && MediaToken(h.value) == VendorTree
  {
    match h
    case None => Json
    case Some(v) =>
      var token := MediaToken(v);
      if token == Json || token == VendorTree then token else Json
  }

  // ---------------------------------------------------------------------
  // Idempotence: a canonical media type normalises to itself.
  // ---------------------------------------------------------------------

  /** A string that has no `;`, no upper-case letter and untrimmable ends is its own token. */
  lemma MediaTokenOfCanonical(t: string)
    requires t != [] && ';' !in t
    requires !IsTrimmed(t[0]) && !IsTrimmed(t[|t| - 1])
    requires forall i :: 0 <= i < |t| ==> !IsUpper(t[i])
    ensures MediaToken(t) == t
  {
    assert BeforeSemicolon(t) == t;
    assert TrimLeft(t) == t;
    assert TrimRight(t) == t;
    assert Lower(t) == t;
  }

  /** `application/json`, sent as a header value, is recognised as itself. */
  lemma JsonRecognised()
    ensures HeaderType(Some(Json)) == Json
  {
    MediaTokenOfCanonical(Json);
  }

  /** The vendor type, sent as a header value, is recognised as itself. */
  lemma VendorTreeRecognised()
    ensures HeaderType(Some(VendorTree)) == VendorTree
  {
    MediaTokenOfCanonical(VendorTree);
  }

  /** Feeding the normalised type back in as a header value returns it unchanged. */
  lemma HeaderTypeIdempotent(h: Option<string>)
    ensures HeaderType(Some(HeaderType(h))) == HeaderType(h)
  {
    if HeaderType(h) == Json {
      JsonRecognised();
    } else {
      VendorTreeRecognised();
    }
  }

  // ---------------------------------------------------------------------
  // Media-type parameters after the first `;` are ignored.
  // ---------------------------------------------------------------------

  lemma {:induction false} BeforeSemicolonAppend(t: string, rest: string)
    requires rest != [] && rest[0] == ';'
    ensures BeforeSemicolon(t + rest) == BeforeSemicolon(t)
  {
    if t != [] {
      assert (t + rest)[0] == t[0];
      assert (t + rest)[1..] == t[1..] + rest;
      BeforeSemicolonAppend(t[1..], rest);
    }
  }

  /** `t; p` is normalised exactly as `t` is, whatever the parameters `p`. */
  lemma ParametersIgnored(t: string, p: string)
    ensures HeaderType(Some(t + ";" + p)) == HeaderType(Some(t))
  {
    assert t + ";" + p == t + (";" + p);
    BeforeSemicolonAppend(t, ";" + p);
  }

  // ---------------------------------------------------------------------
  // Whitespace around the media type is ignored.
  // ---------------------------------------------------------------------

  ghost predicate AllTrimmed(s: string)
  {
    forall i :: 0 <= i < |s| ==> IsTrimmed(s[i])
  }

  lemma {:induction false} TrimLeftSkipsPrefix(pre: string, u: string)
    requires AllTrimmed(pre)
    ensures TrimLeft(pre + u) == TrimLeft(u)
    decreases |pre|
  {
    if pre == [] {
      assert pre + u == u;
    } else {
      assert (pre + u)[0] == pre[0];
      assert (pre + u)[1..] == pre[1..] + u;
      TrimLeftSkipsPrefix(pre[1..], u);
    }
  }

  lemma {:induction false} TrimRightSkipsSuffix(u: string, post: string)
    requires AllTrimmed(post)
    ensures TrimRight(u + post) == TrimRight(u)
    decreases |post|
  {
    if post == [] {
      assert u + post == u;
    } else {
      var last := |u + post| - 1;
      assert (u + post)[last] == post[|post| - 1];
      assert (u + post)[..last] == u + post[..|post| - 1];
      TrimRightSkipsSuffix(u, post[..|post| - 1]);
    }
  }

  lemma {:induction false} TrimSkipsSuffix(t: string, post: string)
    requires AllTrimmed(post)
    ensures Trim(t + post) == Trim(t)
    decreases |t|
  {
    if t == [] {
      assert t + post == post + [];
      TrimLeftSkipsPrefix(post, []);
    } else if IsTrimmed(t[0]) {
      assert (t + post)[0] == t[0];
      assert (t + post)[1..] == t[1..] + post;
      TrimSkipsSuffix(t[1..], post);
    } else {
      assert (t + post)[0] == t[0];
      TrimRightSkipsSuffix(t, post);
    }
  }

  lemma PaddingHasNoSemicolon(pre: string, t: string, post: string)
    requires AllTrimmed(pre) && AllTrimmed(post) && ';' !in t
    ensures ';' !in pre + t + post
  {
    var v := pre + t + post;
    forall i | 0 <= i < |v| ensures v[i] != ';' {
      if i < |pre| {
        assert v[i] == pre[i];
      } else if i < |pre| + |t| {
        assert v[i] == t[i - |pre|];
      } else {
        assert v[i] == post[i - |pre| - |t|];
      }
    }
  }

  lemma TrimSkipsPadding(pre: string, t: string, post: string)
    requires AllTrimmed(pre) && AllTrimmed(post)
    ensures Trim(pre + t + post) == Trim(t)
  {
    var u := t + post;
    calc {
      Trim(pre + t + post);
      { assert pre + t + post == pre + u; }
      TrimRight(TrimLeft(pre + u));
      { TrimLeftSkipsPrefix(pre, u); }
      Trim(u);
      { TrimSkipsSuffix(t, post); }
      Trim(t);
    }
  }

  lemma PaddedToken(pre: string, t: string, post: string)
    requires AllTrimmed(pre) && AllTrimmed(post) && ';' !in t
    ensures MediaToken(pre + t + post) == MediaToken(t)
  {
    PaddingHasNoSemicolon(pre, t, post);
    var v := pre + t + post;
    assert BeforeSemicolon(v) == v;
    assert BeforeSemicolon(t) == t;
    TrimSkipsPadding(pre, t, post);
  }

  /** A media type padded with PHP whitespace on either side is normalised as the bare type. */
  lemma SurroundingWhitespaceIgnored(pre: string, t: string, post: string)
    requires AllTrimmed(pre) && AllTrimmed(post) && ';' !in t
    ensures HeaderType(Some(pre + t + post)) == HeaderType(Some(t))
  {
    PaddedToken(pre, t, post);
  }

  // ---------------------------------------------------------------------
  // Letter case does not matter.
  // ---------------------------------------------------------------------

  /** Two strings that differ at most in the case of their ASCII letters. */
  ghost predicate SameUpToCase(a: string, b: string)
  {
    |a| == |b| && forall i :: 0 <= i < |a| ==> LowerChar(a[i]) == LowerChar(b[i])
  }

  lemma LowerCharKeeps(c: char, d: char)
    requires LowerChar(c) == LowerChar(d)
    ensures c == ';' <==> d == ';'
    ensures IsTrimmed(c) <==> IsTrimmed(d)
  {
  }

  lemma {:induction false} BeforeSemicolonUpToCase(a: string, b: string)
    requires SameUpToCase(a, b)
    ensures SameUpToCase(BeforeSemicolon(a), BeforeSemicolon(b))
  {
    if a != [] {
      LowerCharKeeps(a[0], b[0]);
      if a[0] != ';' {
        BeforeSemicolonUpToCase(a[1..], b[1..]);
      }
    }
  }

  lemma {:induction false} TrimLeftUpToCase(a: string, b: string)
    requires SameUpToCase(a, b)
    ensures SameUpToCase(TrimLeft(a), TrimLeft(b))
  {
    if a != [] {
      LowerCharKeeps(a[0], b[0]);
      if IsTrimmed(a[0]) {
        TrimLeftUpToCase(a[1..], b[1..]);
      }
    }
  }

  lemma {:induction false} TrimRightUpToCase(a: string, b: string)
    requires SameUpToCase(a, b)
    ensures SameUpToCase(TrimRight(a), TrimRight(b))
  {
    if a != [] {
      LowerCharKeeps(a[|a| - 1], b[|b| - 1]);
      if IsTrimmed(a[|a| - 1]) {
        TrimRightUpToCase(a[..|a| - 1], b[..|b| - 1]);
      }
    }
  }

  lemma MediaTokenUpToCase(a: string, b: string)
    requires SameUpToCase(a, b)
    ensures MediaToken(a) == MediaToken(b)
  {
    BeforeSemicolonUpToCase(a, b);
    var sa, sb := BeforeSemicolon(a), BeforeSemicolon(b);
    TrimLeftUpToCase(sa, sb);
    TrimRightUpToCase(TrimLeft(sa), TrimLeft(sb));
  }

  /** Header values that differ only in letter case normalise to the same type. */
  lemma CaseInsensitive(a: string, b: string)
    requires SameUpToCase(a, b)
    ensures HeaderType(Some(a)) == HeaderType(Some(b))
  {
    MediaTokenUpToCase(a, b);
  }

  // ---------------------------------------------------------------------
  // Worked examples.
  // ---------------------------------------------------------------------

  lemma SameUpToCaseConcat(a1: string, a2: string, b1: string, b2: string)
    requires SameUpToCase(a1, b1) && SameUpToCase(a2, b2)
    ensures SameUpToCase(a1 + a2, b1 + b2)
  {
    forall i | 0 <= i < |a1 + a2|
      ensures LowerChar((a1 + a2)[i]) == LowerChar((b1 + b2)[i])
    {
      if i >= |a1| {
        assert (a1 + a2)[i] == a2[i - |a1|] && (b1 + b2)[i] == b2[i - |b1|];
      }
    }
  }

  lemma SameUpToCaseReflexive(s: string)
    ensures SameUpToCase(s, s)
  {
  }

  /**
   * Any header value whose part before the first `;` is the vendor type in
   * some mix of upper and lower case is recognised as the vendor type.
   */
  lemma VendorUpToCaseRecognised(t: string, p: string)
    requires SameUpToCase(t, VendorTree)
    ensures HeaderType(Some(t + ";" + p)) == VendorTree
  {
    ParametersIgnored(t, p);
    CaseInsensitive(t, VendorTree);
    VendorTreeRecognised();
  }

  lemma UpperVndUpToCase()
    ensures SameUpToCase("Application/VND", "application/vnd")
  {
  }

  /** `Application/VND.laminascampus.v1.config+json; charset=utf-8` is recognised as the vendor type. */
  lemma MixedCaseVendorWithCharset(v: string)
    requires v == "Application/VND" + VendorSuffix + "; charset=utf-8"
    ensures HeaderType(Some(v)) == VendorTree
  {
    var t := "Application/VND" + VendorSuffix;
    assert v == t + ";" + " charset=utf-8";
    UpperVndUpToCase();
    SameUpToCaseReflexive(VendorSuffix);
    SameUpToCaseConcat("Application/VND", VendorSuffix, "application/vnd", VendorSuffix);
    VendorUpToCaseRecognised(t, " charset=utf-8");
  }

  /** An empty header value degrades to `application/json`. */
  lemma EmptyDegradesToJson()
    ensures HeaderType(Some("")) == Json
  {
    assert MediaToken("") == "";
  }

  lemma TextHtmlDegradesToJson()
    ensures HeaderType(Some("text/html")) == Json
  {
    MediaTokenOfCanonical("text/html");
  }

  /** An unknown media type degrades to `application/json`, whatever its parameters. */
  lemma UnknownDegradesToJson(v: string)
    requires v == "text/html; q=0.9"
    ensures HeaderType(Some(v)) == Json
  {
    assert v == "text/html" + ";" + " q=0.9";
    ParametersIgnored("text/html", " q=0.9");
    TextHtmlDegradesToJson();
  }
}
