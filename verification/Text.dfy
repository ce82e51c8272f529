/** Text primitives shared by the query, ranking and persistence models.

    Strings are sequences of Unicode scalar values; where the program counts
    bytes, `Utf8Length` gives the encoded size (section 3 of RFC 3629).
 */
module Text {

  datatype Option<+T> = None | Some(value: T)

  /** The Unicode White_Space property, which `trim` and `split_whitespace` use. */
  predicate IsWhite(c: char) {
    || '\t' <= c <= '\r'
    || c == ' '
    || c == '\U{85}'
    || c == '\U{A0}'
    || c == '\U{1680}'
    || '\U{2000}' <= c <= '\U{200A}'
    || c == '\U{2028}'
    || c == '\U{2029}'
    || c == '\U{202F}'
    || c == '\U{205F}'
    || c == '\U{3000}'
  }

  /** Bytes one scalar value takes in UTF-8. */
  function CharBytes(c: char): (n: nat)
    ensures 1 <= n <= 4
  {
    if c < '\U{80}' then 1 else if c < '\U{800}' then 2 else if c < '\U{10000}' then 3 else 4
  }

  /** Bytes a string takes in UTF-8. */
  function Utf8Length(s: string): (n: nat)
    ensures |s| <= n
  {
    if s == "" then 0 else CharBytes(s[0]) + Utf8Length(s[1..])
  }

  lemma {:induction false} Utf8LengthConcat(a: string, b: string)
    ensures Utf8Length(a + b) == Utf8Length(a) + Utf8Length(b)
  {
    if a == "" {
      assert a + b == b;
    } else {
      Utf8LengthConcat(a[1..], b);
      assert (a + b)[1..] == a[1..] + b;
    }
  }

  /** Number of leading characters that are not white space. */
  function LeadingRun(s: string): (n: nat)
    ensures n <= |s|
    ensures forall i | 0 <= i < n :: !IsWhite(s[i])
    ensures n < |s| ==> IsWhite(s[n])
  {
    if s == "" || IsWhite(s[0]) then 0 else 1 + LeadingRun(s[1..])
  }

  /** `split_whitespace`: the maximal runs of non-white characters, in order. */
  function Tokens(s: string): (ts: seq<string>)
    ensures forall t | t in ts :: t != "" && forall c | c in t :: !IsWhite(c)
    decreases |s|
  {
    if s == "" then []
    else if IsWhite(s[0]) then Tokens(s[1..])
    else
      var n := LeadingRun(s);
      [s[..n]] + Tokens(s[n..])
  }

  /** Extending a text can only lengthen its last token and add tokens after it. */
  lemma {:induction false} TokensOfPrefix(p: string, s: string)
    requires p <= s
    ensures |Tokens(p)| <= |Tokens(s)|
    ensures forall i | 0 <= i < |Tokens(p)| :: Tokens(p)[i] <= Tokens(s)[i]
    decreases |p|
  {
    if p == "" {
    } else if IsWhite(p[0]) {
      TokensOfPrefix(p[1..], s[1..]);
    } else {
      var n, m := LeadingRun(p), LeadingRun(s);
      if n < |p| {
        assert IsWhite(s[n]);
        assert n == m;
        assert p[..n] == s[..n];
        TokensOfPrefix(p[n..], s[n..]);
      } else {
        assert p[n..] == "";
        assert Tokens(p) == [p[..n]];
      }
    }
  }

  function TrimStart(s: string): (r: string) {
    if s != "" && IsWhite(s[0]) then TrimStart(s[1..]) else s
  }

  function TrimEnd(s: string): (r: string) {
    if s != "" && IsWhite(s[|s| - 1]) then TrimEnd(s[..|s| - 1]) else s
  }

  function Trim(s: string): (r: string) {
    TrimEnd(TrimStart(s))
  }

  predicate OccursAt(hay: string, needle: string, i: nat) {
    i + |needle| <= |hay| && hay[i..i + |needle|] == needle
  }

  /** Whether `needle` occurs in `hay` at or after index `from`. */
  predicate OccursFrom(hay: string, needle: string, from: nat) {
    exists i: nat | from <= i <= |hay| :: OccursAt(hay, needle, i)
  }

  predicate Contains(hay: string, needle: string) {
    OccursFrom(hay, needle, 0)
  }

  lemma ContainsPrefix(hay: string, shorter: string, longer: string)
    requires shorter <= longer && Contains(hay, longer)
    ensures Contains(hay, shorter)
  {
    var i: nat :| i <= |hay| && OccursAt(hay, longer, i);
    assert hay[i..i + |shorter|] == hay[i..i + |longer|][..|shorter|];
    assert OccursAt(hay, shorter, i);
  }

  lemma ContainsSlice(hay: string, lo: nat, hi: nat)
    requires lo <= hi <= |hay|
    ensures Contains(hay, hay[lo..hi])
  {
    assert OccursAt(hay, hay[lo..hi], lo);
  }

  lemma ContainsTransitive(a: string, b: string, c: string)
    requires Contains(a, b) && Contains(b, c)
    ensures Contains(a, c)
  {
    var i: nat :| i <= |a| && OccursAt(a, b, i);
    var j: nat :| j <= |b| && OccursAt(b, c, j);
    var x, y := a[i + j..i + j + |c|], b[j..j + |c|];
    forall k | 0 <= k < |c| ensures x[k] == y[k] {
      assert a[i..i + |b|][j + k] == b[j + k];
    }
    assert OccursAt(a, c, i + j);
  }

  /** The characters of `needle` occur in `hay` in order, not necessarily adjacent. */
  predicate IsSubsequence(hay: string, needle: string) {
    if needle == "" then true
    else if hay == "" then false
    else if hay[0] == needle[0] then IsSubsequence(hay[1..], needle[1..])
    else IsSubsequence(hay[1..], needle)
  }

  lemma {:induction false} SubsequencePrefix(hay: string, shorter: string, longer: string)
    requires shorter <= longer && IsSubsequence(hay, longer)
    ensures IsSubsequence(hay, shorter)
    decreases |hay|
  {
    if shorter != "" {
      if hay[0] == longer[0] {
        SubsequencePrefix(hay[1..], shorter[1..], longer[1..]);
      } else {
        SubsequencePrefix(hay[1..], shorter, longer);
      }
    }
  }

  /** Dropping from the front of the needle keeps it a subsequence. */
  lemma {:induction false} SubsequenceTail(hay: string, needle: string)
    requires needle != "" && IsSubsequence(hay, needle)
    ensures hay != "" && IsSubsequence(hay[1..], needle[1..])
    decreases |hay|
  {
    if hay[0] != needle[0] {
      SubsequenceTail(hay[1..], needle);
      SubsequenceWiden(hay[1..], needle[1..], 1);
    }
  }

  /** A subsequence of a suffix is a subsequence of the whole. */
  lemma {:induction false} SubsequenceWiden(hay: string, needle: string, k: nat)
    requires k <= |hay| && IsSubsequence(hay[k..], needle)
    ensures IsSubsequence(hay, needle)
    decreases |hay|
  {
    if k > 0 && needle != "" {
      if hay[0] == needle[0] {
        assert hay[1..][k - 1..] == hay[k..];
        SubsequenceTail(hay[k..], needle);
        assert hay[k..][1..] == hay[1..][k..];
        SubsequenceWiden(hay[1..], needle[1..], k);
      } else {
        assert hay[1..][k - 1..] == hay[k..];
        SubsequenceWiden(hay[1..], needle, k - 1);
      }
    } else if k == 0 {
      assert hay[0..] == hay;
    }
  }

  /** A common leading chunk extends a subsequence. */
  lemma {:induction false} SubsequenceChunk(chunk: string, hay: string, needle: string)
    requires IsSubsequence(hay, needle)
    ensures IsSubsequence(chunk + hay, chunk + needle)
  {
    if chunk == "" {
      assert chunk + hay == hay && chunk + needle == needle;
    } else {
      SubsequenceChunk(chunk[1..], hay, needle);
      assert (chunk + hay)[1..] == chunk[1..] + hay && (chunk + needle)[1..] == chunk[1..] + needle;
    }
  }

  /** Strict lexicographic order by code point, which is UTF-8 byte order. */
  predicate LexLess(a: string, b: string) {
    if b == "" then false
    else if a == "" then true
    else if a[0] != b[0] then a[0] < b[0]
    else LexLess(a[1..], b[1..])
  }

  lemma {:induction false} LexTotal(a: string, b: string)
    ensures LexLess(a, b) || a == b || LexLess(b, a)
    ensures !(LexLess(a, b) && LexLess(b, a))
    ensures !LexLess(a, a)
  {
    if a != "" && b != "" && a[0] == b[0] {
      LexTotal(a[1..], b[1..]);
      if a[1..] == b[1..] {
        assert a == [a[0]] + a[1..] == b;
      }
    }
    if a != "" { LexTotal(a[1..], a[1..]); }
  }

  lemma {:induction false} LexTransitive(a: string, b: string, c: string)
    requires LexLess(a, b) && LexLess(b, c)
    ensures LexLess(a, c)
  {
    if a != "" && a[0] == b[0] && b[0] == c[0] {
      LexTransitive(a[1..], b[1..], c[1..]);
    }
  }
}
