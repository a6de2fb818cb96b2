/** Python's str.strip() with no argument, as the apartment handler applies
    it to the operator's reply (main.py, process_apartment). */
module Text {

  /** The 29 code points CPython's str.isspace() accepts, one by one: the
      ASCII whitespace table and the Unicode separators (categories Zs, Zl,
      Zp and the bidirectional classes B, S and WS). */
  function PyWhitespace(): set<char>
  {
    {'\t', '\n', '\U{0B}', '\U{0C}', '\r', '\U{1C}', '\U{1D}', '\U{1E}', '\U{1F}', ' ',
     '\U{85}', '\U{A0}', '\U{1680}',
     '\U{2000}', '\U{2001}', '\U{2002}', '\U{2003}', '\U{2004}', '\U{2005}',
     '\U{2006}', '\U{2007}', '\U{2008}', '\U{2009}', '\U{200A}',
     '\U{2028}', '\U{2029}', '\U{202F}', '\U{205F}', '\U{3000}'}
  }

  /** The characters str.strip() removes, tested by code-point ranges. */
  predicate IsSpace(c: char)
  {
    || ('\t' <= c <= '\r')
    || ('\U{1C}' <= c <= ' ')
    || c == '\U{85}' || c == '\U{A0}' || c == '\U{1680}'
    || ('\U{2000}' <= c <= '\U{200A}')
    || c == '\U{2028}' || c == '\U{2029}' || c == '\U{202F}' || c == '\U{205F}' || c == '\U{3000}'
  }

  /** The range test accepts exactly CPython's whitespace. */
  lemma IsSpaceExactly(c: char)
    ensures IsSpace(c) <==> c in PyWhitespace()
  {
  }

  predicate AllSpace(s: string)
  {
    forall k :: 0 <= k < |s| ==> IsSpace(s[k])
  }

  /** Every character of s at positions lo up to hi is whitespace. */
  predicate SpaceBetween(s: string, lo: int, hi: int)
  {
    forall k :: lo <= k < hi && 0 <= k < |s| ==> IsSpace(s[k])
  }

  predicate NoLeadingSpace(s: string)
  {
    s == [] || !IsSpace(s[0])
  }

  predicate NoTrailingSpace(s: string)
  {
    s == [] || !IsSpace(s[|s| - 1])
  }

  /** Drops the leading whitespace of s. */
  function TrimStart(s: string): string
  {
    if s != [] && IsSpace(s[0]) then TrimStart(s[1..]) else s
  }

  /** Drops the trailing whitespace of s. */
  function TrimEnd(s: string): string
  {
    if s != [] && IsSpace(s[|s| - 1]) then TrimEnd(s[..|s| - 1]) else s
  }

  /** str.strip(): the longest whitespace prefix and suffix removed. */
  function Strip(s: string): string
  {
    TrimEnd(TrimStart(s))
  }

  /** TrimStart keeps a suffix of s, drops only whitespace, and stops at
      the first character that is not whitespace. */
  lemma {:induction false} TrimStartSpec(s: string)
    ensures |TrimStart(s)| <= |s| && TrimStart(s) == s[|s| - |TrimStart(s)|..]
    ensures SpaceBetween(s, 0, |s| - |TrimStart(s)|)
    ensures NoLeadingSpace(TrimStart(s))
  {
    if s != [] && IsSpace(s[0]) {
      TrimStartSpec(s[1..]);
    }
  }

  /** TrimEnd keeps a prefix of s, drops only whitespace, and stops at the
      last character that is not whitespace. */
  lemma {:induction false} TrimEndSpec(s: string)
    ensures |TrimEnd(s)| <= |s| && TrimEnd(s) == s[..|TrimEnd(s)|]
    ensures SpaceBetween(s, |TrimEnd(s)|, |s|)
    ensures NoTrailingSpace(TrimEnd(s))
  {
    if s != [] && IsSpace(s[|s| - 1]) {
      TrimEndSpec(s[..|s| - 1]);
    }
  }

  /** r is s with exactly the whitespace before lo and from hi on cut off. */
  ghost predicate StrippedAt(s: string, r: string, lo: int, hi: int)
  {
    && 0 <= lo <= hi <= |s|
    && r == s[lo..hi]
    && SpaceBetween(s, 0, lo) && SpaceBetween(s, hi, |s|)
  }

  /** Strip cuts s at two positions with only whitespace outside them, and
      what it keeps neither starts nor ends with whitespace. */
  lemma StripSpec(s: string)
    ensures exists lo, hi :: StrippedAt(s, Strip(s), lo, hi)
    ensures NoLeadingSpace(Strip(s)) && NoTrailingSpace(Strip(s))
  {
    var t := TrimStart(s);
    TrimStartSpec(s);
    TrimEndSpec(t);
    StripShape(s, t, TrimEnd(t));
    assert Strip(s) == TrimEnd(t);
  }

  /** Trimming the end of the trimmed start cuts s at two positions, with
      only whitespace outside them. */
  lemma StripShape(s: string, t: string, r: string)
    requires |t| <= |s| && t == s[|s| - |t|..] && SpaceBetween(s, 0, |s| - |t|)
    requires |r| <= |t| && r == t[..|r|] && SpaceBetween(t, |r|, |t|)
    requires NoLeadingSpace(t)
    requires NoTrailingSpace(r)
    ensures exists lo, hi :: StrippedAt(s, r, lo, hi)
    ensures NoLeadingSpace(r) && NoTrailingSpace(r)
  {
    var lo := |s| - |t|;
    var hi := lo + |r|;
    assert r == s[lo..hi] by {
      assert s[lo..hi] == t[..|r|];
    }
    TailSpace(s, t, lo, |r|);
    assert StrippedAt(s, r, lo, hi);
    assert r != [] ==> r[0] == t[0];
  }

  /** Whitespace at the end of the suffix t of s is whitespace at the end
      of s. */
  lemma TailSpace(s: string, t: string, lo: nat, n: nat)
    requires lo <= |s| && t == s[lo..] && n <= |t|
    requires SpaceBetween(t, n, |t|)
    ensures SpaceBetween(s, lo + n, |s|)
  {
    forall k | lo + n <= k < |s|
      ensures IsSpace(s[k])
    {
      assert s[k] == t[k - lo];
    }
  }

  lemma {:induction false} TrimStartSkips(pre: string, x: string)
    requires AllSpace(pre)
    requires NoLeadingSpace(x)
    ensures TrimStart(pre + x) == x
  {
    if pre == [] {
      assert pre + x == x;
    } else {
      assert (pre + x)[1..] == pre[1..] + x;
      TrimStartSkips(pre[1..], x);
    }
  }

  lemma {:induction false} TrimEndSkips(x: string, post: string)
    requires AllSpace(post)
    requires NoTrailingSpace(x)
    ensures TrimEnd(x + post) == x
  {
    if post == [] {
      assert x + post == x;
    } else {
      var s := x + post;
      assert s[..|s| - 1] == x + post[..|post| - 1];
      TrimEndSkips(x, post[..|post| - 1]);
    }
  }

  /** Text that is a word padded with whitespace on both sides strips to
      that word, so " 12\n" selects apartment "12". */
  lemma StripPadded(pre: string, word: string, post: string)
    requires AllSpace(pre) && AllSpace(post)
    requires NoLeadingSpace(word) && NoTrailingSpace(word)
    ensures Strip(pre + word + post) == word
  {
    if word == [] {
      assert pre + word + post == (pre + post) + [];
      TrimStartSkips(pre + post, []);
    } else {
      assert pre + word + post == pre + (word + post);
      TrimStartSkips(pre, word + post);
      TrimEndSkips(word, post);
    }
  }

  /** Stripping twice is stripping once. */
  lemma StripIdempotent(s: string)
    ensures Strip(Strip(s)) == Strip(s)
  {
    var r := Strip(s);
    StripSpec(s);
    assert TrimStart(r) == r by {
      assert [] + r == r;
      TrimStartSkips([], r);
    }
    assert TrimEnd(r) == r by {
      assert r + [] == r;
      TrimEndSkips(r, []);
    }
  }
}
