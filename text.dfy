/** The string operations the viewer applies to subreddit names and media URLs, over seq<char>. */
module Text {

  /** The characters String.prototype.trim removes: ECMAScript WhiteSpace and LineTerminator. */
  predicate IsSpace(c: char) {
    || c == '\t' || c == '\n' || c == '\U{000B}' || c == '\U{000C}' || c == '\r' || c == ' '
    || c == '\U{00A0}' || c == '\U{1680}' || ('\U{2000}' <= c <= '\U{200A}')
    || c == '\U{2028}' || c == '\U{2029}' || c == '\U{202F}' || c == '\U{205F}'
    || c == '\U{3000}' || c == '\U{FEFF}'
  }

  predicate AllSpace(s: string) {
    forall k :: 0 <= k < |s| ==> IsSpace(s[k])
  }

  /** Drops the leading white space: the result is the longest suffix that does not start with it. */
  function TrimStart(s: string): (r: string)
    ensures |r| <= |s| && r == s[|s| - |r|..]
    ensures AllSpace(s[..|s| - |r|])
    ensures r == [] || !IsSpace(r[0])
  {
    if |s| > 0 && IsSpace(s[0]) then
      var r := TrimStart(s[1..]);
      assert s[..|s| - |r|] == [s[0]] + s[1..][..|s| - 1 - |r|];
      r
    else s
  }

  /** Drops the trailing white space: the result is the longest prefix that does not end with it. */
  function TrimEnd(s: string): (r: string)
    ensures r <= s
    ensures AllSpace(s[|r|..])
    ensures r == [] || !IsSpace(r[|r| - 1])
  {
    if |s| > 0 && IsSpace(s[|s| - 1]) then
      var r := TrimEnd(s[..|s| - 1]);
      assert s[|r|..] == s[..|s| - 1][|r|..] + [s[|s| - 1]];
      r
    else s
  }

  /** String.prototype.trim. */
  function Trim(s: string): (r: string)
    ensures r == [] || (!IsSpace(r[0]) && !IsSpace(r[|r| - 1]))
  {
    TrimEnd(TrimStart(s))
  }

  lemma {:induction false} TrimStartPadding(w: string, v: string)
    requires AllSpace(w)
    requires v == [] || !IsSpace(v[0])
    ensures TrimStart(w + v) == v
  {
    if w != [] {
      assert (w + v)[1..] == w[1..] + v;
      TrimStartPadding(w[1..], v);
    }
  }

  lemma {:induction false} TrimEndPadding(v: string, w: string)
    requires AllSpace(w)
    requires v == [] || !IsSpace(v[|v| - 1])
    ensures TrimEnd(v + w) == v
  {
    if w != [] {
      assert (v + w)[..|v + w| - 1] == v + w[..|w| - 1];
      TrimEndPadding(v, w[..|w| - 1]);
    }
  }

  /** Trim removes exactly the white-space padding around a text that neither starts nor ends
      with white space. */
  lemma TrimStripsPadding(front: string, t: string, back: string)
    requires AllSpace(front) && AllSpace(back)
    requires t == [] || (!IsSpace(t[0]) && !IsSpace(t[|t| - 1]))
    ensures Trim(front + t + back) == t
  {
    if t == [] {
      assert front + t + back == (front + back) + [];
      TrimStartPadding(front + back, []);
    } else {
      assert front + t + back == front + (t + back);
      TrimStartPadding(front, t + back);
      TrimEndPadding(t, back);
    }
  }

  /** `.replace(/,/g, '')`: every comma removed, every other character kept. */
  function RemoveCommas(s: string): (r: string)
    ensures ',' !in r
    ensures forall c :: c != ',' ==> multiset(r)[c] == multiset(s)[c]
    ensures ',' !in s ==> r == s
  {
    if s == [] then []
    else
      assert s == [s[0]] + s[1..];
      (if s[0] == ',' then [] else [s[0]]) + RemoveCommas(s[1..])
  }

  /** Comma removal works piecewise, so the kept characters stay in their order. */
  lemma {:induction false} RemoveCommasAppend(a: string, b: string)
    ensures RemoveCommas(a + b) == RemoveCommas(a) + RemoveCommas(b)
  {
    if a == [] {
      assert a + b == b;
    } else {
      var ab := a + b;
      assert ab[0] == a[0] && ab[1..] == a[1..] + b;
      var head := if a[0] == ',' then [] else [a[0]];
      calc {
        RemoveCommas(ab);
        head + RemoveCommas(a[1..] + b);
        { RemoveCommasAppend(a[1..], b); }
        head + (RemoveCommas(a[1..]) + RemoveCommas(b));
        (head + RemoveCommas(a[1..])) + RemoveCommas(b);
      }
    }
  }

  /** ASCII upper-case letters mapped to lower case; every other character unchanged. */
  function LowerChar(c: char): char {
    if 'A' <= c <= 'Z' then (c as int + 32) as char else c
  }

  /** String.prototype.toLowerCase, restricted to ASCII letters. */
  function ToLower(s: string): (r: string)
    ensures |r| == |s|
  {
    seq(|s|, i requires 0 <= i < |s| => LowerChar(s[i]))
  }

  predicate NoUpper(s: string) {
    forall k :: 0 <= k < |s| ==> !('A' <= s[k] <= 'Z')
  }

  /** A case-insensitive regular-expression test `/<suffix>$/i` for a lower-case suffix. */
  predicate EndsWithIgnoreCase(s: string, suffix: string) {
    |suffix| <= |s| && forall k :: 0 <= k < |suffix| ==> LowerChar(s[|s| - |suffix| + k]) == suffix[k]
  }

  lemma EndsWithOwnSuffix(a: string, suffix: string)
    requires NoUpper(suffix)
    ensures EndsWithIgnoreCase(a + suffix, suffix)
  {
    var s := a + suffix;
    forall k | 0 <= k < |suffix| ensures LowerChar(s[|s| - |suffix| + k]) == suffix[k] {
      assert s[|s| - |suffix| + k] == suffix[k];
    }
  }

  /** String.prototype.includes, recursively: t starts here or somewhere further on. */
  predicate Contains(s: string, t: string)
    decreases |s|
  {
    t <= s || (|s| > 0 && Contains(s[1..], t))
  }

  predicate OccursAt(s: string, t: string, i: nat) {
    i <= |s| && t <= s[i..]
  }

  /** Contains agrees with the positional reading of "t is a substring of s". */
  lemma {:induction false} ContainsIff(s: string, t: string)
    ensures Contains(s, t) <==> exists i: nat :: OccursAt(s, t, i)
    decreases |s|
  {
    if t <= s {
      assert OccursAt(s, t, 0);
    } else if |s| == 0 {
    } else {
      ContainsIff(s[1..], t);
      if i: nat :| OccursAt(s, t, i) {
        assert i != 0 by { assert s[0..] == s; }
        assert s[1..][i - 1..] == s[i..];
        assert OccursAt(s[1..], t, i - 1);
      }
      if i: nat :| OccursAt(s[1..], t, i) {
        assert s[1..][i..] == s[i + 1..];
        assert OccursAt(s, t, i + 1);
      }
    }
  }

  /** A text found in a prefix is found in every extension of it. */
  lemma ContainsInPrefix(p: string, rest: string, t: string, i: nat)
    requires i + |t| <= |p| && p[i..i + |t|] == t
    ensures Contains(p + rest, t)
  {
    assert (p + rest)[i..][..|t|] == p[i..i + |t|];
    assert OccursAt(p + rest, t, i);
    ContainsIff(p + rest, t);
  }

  /** `s.split("/").pop()`: the longest suffix without a slash. */
  function LastSegment(s: string): (r: string)
    ensures '/' !in r
    ensures |r| <= |s| && r == s[|s| - |r|..]
    ensures |r| < |s| ==> s[|s| - |r| - 1] == '/'
  {
    if |s| == 0 then []
    else if s[|s| - 1] == '/' then []
    else LastSegment(s[..|s| - 1]) + [s[|s| - 1]]
  }

  /** Splitting `a/b` on slashes and popping the last piece gives b back. */
  lemma {:induction false} LastSegmentAfterSlash(a: string, b: string)
    requires '/' !in b
    ensures LastSegment(a + "/" + b) == b
  {
    var s := a + "/" + b;
    if b != [] {
      var b' := b[..|b| - 1];
      assert s[..|s| - 1] == a + "/" + b';
      LastSegmentAfterSlash(a, b');
      assert b == b' + [b[|b| - 1]];
    }
  }

  /** `s.split(".")[0]`: the longest prefix without a dot. */
  function BeforeFirstDot(s: string): (r: string)
    ensures '.' !in r
    ensures r <= s
    ensures |r| < |s| ==> s[|r|] == '.'
  {
    if |s| == 0 then []
    else if s[0] == '.' then []
    else [s[0]] + BeforeFirstDot(s[1..])
  }

  /** Splitting `a.b` on dots and taking the first piece gives a back. */
  lemma {:induction false} BeforeFirstDotOfJoin(a: string, b: string)
    requires '.' !in a
    ensures BeforeFirstDot(a + "." + b) == a
  {
    if a != [] {
      assert (a + "." + b)[1..] == a[1..] + "." + b;
      BeforeFirstDotOfJoin(a[1..], b);
    }
  }

  /** `.replace(/&amp;/g, "&")`: one left-to-right pass over non-overlapping occurrences. */
  function UnescapeAmp(s: string): (r: string)
    ensures |r| <= |s|
    ensures |s| > 0 ==> |r| > 0
    ensures r == s <==> !Contains(s, "&amp;")
    decreases |s|
  {
    if "&amp;" <= s then "&" + UnescapeAmp(s[5..])
    else if s == [] then []
    else
      assert s == [s[0]] + s[1..];
      [s[0]] + UnescapeAmp(s[1..])
  }

  /** HTML escaping of ampersands, the encoding the listing applies to URLs. */
  function EscapeAmp(s: string): string {
    if s == [] then []
    else (if s[0] == '&' then "&amp;" else [s[0]]) + EscapeAmp(s[1..])
  }

  /** Unescaping undoes the listing's escaping of ampersands. */
  lemma {:induction false} UnescapeEscapeAmp(s: string)
    ensures UnescapeAmp(EscapeAmp(s)) == s
  {
    if s != [] {
      var e := EscapeAmp(s);
      UnescapeEscapeAmp(s[1..]);
      if s[0] == '&' {
        assert "&amp;" <= e;
        assert e[5..] == EscapeAmp(s[1..]);
      } else {
        assert e[0] == s[0];
        assert e[1..] == EscapeAmp(s[1..]);
      }
      assert s == [s[0]] + s[1..];
    }
  }

  /** Escaping never shortens a text, and lengthens every text that holds an ampersand. */
  lemma {:induction false} EscapeAmpGrows(s: string)
    ensures |EscapeAmp(s)| >= |s|
    ensures '&' in s ==> |EscapeAmp(s)| > |s|
  {
    if s != [] {
      EscapeAmpGrows(s[1..]);
      assert s == [s[0]] + s[1..];
    }
  }

  /** The replacement is a single pass: a doubly escaped URL comes out escaped once, which differs
      from the URL whenever it holds an ampersand. */
  lemma UnescapeIsSinglePass(s: string)
    ensures UnescapeAmp(EscapeAmp(EscapeAmp(s))) == EscapeAmp(s)
    ensures '&' in s ==> UnescapeAmp(EscapeAmp(EscapeAmp(s))) != s
  {
    UnescapeEscapeAmp(EscapeAmp(s));
    EscapeAmpGrows(s);
  }
}
