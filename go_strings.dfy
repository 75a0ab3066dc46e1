/** The parts of Go's `strings` package that the backend relies on, over strings of
    Unicode scalar values: TrimSpace, EqualFold (ASCII letters only), Index, SplitN with
    n = 2, Split and its inverse Join. */
module GoStrings {

  /** `unicode.IsSpace`: the ASCII white space characters, U+0085, U+00A0 and the
      characters with Unicode's White_Space property. */
  predicate IsSpace(c: char)
  {
    c == '\t' || c == '\n' || c == '\U{0B}' || c == '\U{0C}' || c == '\r' || c == ' '
    || c == '\U{85}' || c == '\U{A0}' || c == '\U{1680}'
    || ('\U{2000}' <= c <= '\U{200A}')
    || c == '\U{2028}' || c == '\U{2029}' || c == '\U{202F}' || c == '\U{205F}' || c == '\U{3000}'
  }

  predicate AllSpace(s: string)
  {
    forall k | 0 <= k < |s| :: IsSpace(s[k])
  }

  /** Neither end of `s` is white space: what `strings.TrimSpace` returns. */
  predicate IsTrimmed(s: string)
  {
    s == [] || (!IsSpace(s[0]) && !IsSpace(s[|s| - 1]))
  }

  /** Number of white space characters at the front of `s`. */
  function LeadingSpace(s: string): (n: nat)
    ensures n <= |s|
    ensures AllSpace(s[..n])
    ensures n < |s| ==> !IsSpace(s[n])
  {
    if |s| > 0 && IsSpace(s[0]) then 1 + LeadingSpace(s[1..]) else 0
  }

  /** Index just past the last character of `s` that is not white space (0 if none). */
  function TrailingEnd(s: string): (j: nat)
    ensures j <= |s|
    ensures forall k | j <= k < |s| :: IsSpace(s[k])
    ensures j > 0 ==> !IsSpace(s[j - 1])
  {
    if |s| > 0 && IsSpace(s[|s| - 1]) then TrailingEnd(s[..|s| - 1]) else |s|
  }

  /** `strings.TrimSpace`: `s` without its leading and trailing white space. */
  function TrimSpace(s: string): (r: string)
    ensures IsTrimmed(r)
    ensures r == [] <==> AllSpace(s)
  {
    var i, j := LeadingSpace(s), TrailingEnd(s);
    if i == |s| then [] else s[i..j]
  }

  /** TrimSpace removes white space from the two ends of `s` and nothing else. */
  lemma TrimSpaceIsSlice(s: string)
    ensures exists i, j | 0 <= i <= j <= |s| ::
      TrimSpace(s) == s[i..j] && AllSpace(s[..i]) && AllSpace(s[j..])
  {
    var i, j := LeadingSpace(s), TrailingEnd(s);
    if i == |s| {
      assert TrimSpace(s) == s[i..i] && AllSpace(s[..i]) && AllSpace(s[i..]);
    } else {
      assert TrimSpace(s) == s[i..j] && AllSpace(s[..i]) && AllSpace(s[j..]);
    }
  }

  /** Trimming a string that is already trimmed changes nothing. */
  lemma TrimSpaceOfTrimmed(s: string)
    requires IsTrimmed(s)
    ensures TrimSpace(s) == s
  {
    if s != [] {
      assert LeadingSpace(s) == 0;
      assert TrailingEnd(s) == |s|;
    }
  }

  /** TrimSpace is idempotent. */
  lemma TrimSpaceIdempotent(s: string)
    ensures TrimSpace(TrimSpace(s)) == TrimSpace(s)
  {
    TrimSpaceOfTrimmed(TrimSpace(s));
  }

  /** White space added around a trimmed string is exactly what TrimSpace removes. */
  lemma {:induction false} TrimSpacePadded(pre: string, t: string, post: string)
    requires AllSpace(pre) && AllSpace(post) && IsTrimmed(t) && t != []
    ensures TrimSpace(pre + t + post) == t
  {
    var s := pre + t + post;
    LeadingSpaceOfPadded(pre, t + post);
    assert s == pre + (t + post);
    TrailingEndOfPadded(pre + t, post);
    assert s[|pre|..|pre| + |t|] == t;
  }

  lemma {:induction false} LeadingSpaceOfPadded(pre: string, rest: string)
    requires AllSpace(pre) && rest != [] && !IsSpace(rest[0])
    ensures LeadingSpace(pre + rest) == |pre|
  {
    if pre != [] {
      assert (pre + rest)[1..] == pre[1..] + rest;
      LeadingSpaceOfPadded(pre[1..], rest);
    } else {
      assert pre + rest == rest;
    }
  }

  lemma {:induction false} TrailingEndOfPadded(front: string, post: string)
    requires AllSpace(post) && front != [] && !IsSpace(front[|front| - 1])
    ensures TrailingEnd(front + post) == |front|
  {
    if post != [] {
      var s := front + post;
      assert s[..|s| - 1] == front + post[..|post| - 1];
      TrailingEndOfPadded(front, post[..|post| - 1]);
    } else {
      assert front + post == front;
    }
  }

  /** ASCII case folding: upper-case letters to lower case, every other character unchanged. */
  function FoldAscii(c: char): char
  {
    if 'A' <= c <= 'Z' then (c as int + 32) as char else c
  }

  function ToLowerAscii(s: string): (r: string)
    ensures |r| == |s|
    ensures forall k | 0 <= k < |s| :: r[k] == FoldAscii(s[k])
  {
    seq(|s|, k requires 0 <= k < |s| => FoldAscii(s[k]))
  }

  /** `strings.EqualFold` restricted to ASCII case folding, walking both strings together. */
  predicate EqualFold(s: string, t: string)
  {
    if s == [] || t == [] then s == t
    else FoldAscii(s[0]) == FoldAscii(t[0]) && EqualFold(s[1..], t[1..])
  }

  /** EqualFold holds exactly when both strings are equal once lower-cased. */
  lemma {:induction false} EqualFoldIffSameLower(s: string, t: string)
    ensures EqualFold(s, t) <==> ToLowerAscii(s) == ToLowerAscii(t)
  {
    if s == [] || t == [] {
    } else {
      EqualFoldIffSameLower(s[1..], t[1..]);
      var ls, lt := ToLowerAscii(s), ToLowerAscii(t);
      assert ls == [FoldAscii(s[0])] + ToLowerAscii(s[1..]);
      assert lt == [FoldAscii(t[0])] + ToLowerAscii(t[1..]);
    }
  }

  /** `strings.Index` for a one-character separator: the first position of `c`, or -1. */
  function Index(s: string, c: char): (i: int)
    ensures -1 <= i < |s|
    ensures i == -1 <==> c !in s
    ensures 0 <= i ==> s[i] == c && c !in s[..i]
  {
    if |s| == 0 then -1
    else if s[0] == c then 0
    else
      var k := Index(s[1..], c);
      if k < 0 then -1
      else
        assert s[..k + 1] == [s[0]] + s[1..][..k];
        k + 1
  }

  /** `strings.SplitN(s, sep, 2)` for a one-character separator: the text before the first
      separator and the text after it, or `[s]` when there is no separator. */
  function SplitN2(s: string, sep: char): (parts: seq<string>)
    ensures |parts| == 1 <==> sep !in s
    ensures |parts| == 1 ==> parts[0] == s
    ensures |parts| != 1 ==> |parts| == 2 && sep !in parts[0] && parts[0] + [sep] + parts[1] == s
  {
    var i := Index(s, sep);
    if i < 0 then [s]
    else
      assert s[..i] + [sep] + s[i + 1..] == s;
      [s[..i], s[i + 1..]]
  }

  /** `strings.Join(parts, string(sep))`, for at least one part. */
  function Join(parts: seq<string>, sep: char): (s: string)
    requires |parts| >= 1
  {
    if |parts| == 1 then parts[0] else parts[0] + [sep] + Join(parts[1..], sep)
  }

  /** `strings.Split(s, sep)` for a one-character separator: the pieces between separators,
      one more piece than there are separators and none holding the separator. */
  function Split(s: string, sep: char): (parts: seq<string>)
    ensures |parts| == multiset(s)[sep] + 1
    ensures forall p | p in parts :: sep !in p
  {
    if |s| == 0 then [""]
    else
      var rest := Split(s[1..], sep);
      assert s == [s[0]] + s[1..];
      if s[0] == sep then
        [""] + rest
      else
        [[s[0]] + rest[0]] + rest[1..]
  }

  /** Joining the pieces of a split gives the string back. */
  lemma {:induction false} JoinSplit(s: string, sep: char)
    ensures Join(Split(s, sep), sep) == s
  {
    if |s| > 0 {
      JoinSplit(s[1..], sep);
      var rest := Split(s[1..], sep);
      var parts := Split(s, sep);
      if s[0] == sep {
        assert parts == [""] + rest && parts[1..] == rest;
      } else {
        assert parts == [[s[0]] + rest[0]] + rest[1..] && parts[1..] == rest[1..];
        if |rest| > 1 {
          assert Join(rest, sep) == rest[0] + [sep] + Join(rest[1..], sep);
        }
      }
    }
  }

  /** Split undoes Join when no part holds the separator. */
  lemma {:induction false} SplitJoin(parts: seq<string>, sep: char)
    requires |parts| >= 1
    requires forall p | p in parts :: sep !in p
    ensures Split(Join(parts, sep), sep) == parts
  {
    if |parts| == 1 {
      SplitNoSeparator(parts[0], sep);
    } else {
      SplitJoin(parts[1..], sep);
      SplitAtFirst(parts[0], Join(parts[1..], sep), sep);
      assert parts == [parts[0]] + parts[1..];
    }
  }

  /** A string without the separator splits into itself alone. */
  lemma {:induction false} SplitNoSeparator(s: string, sep: char)
    requires sep !in s
    ensures Split(s, sep) == [s]
  {
    if |s| > 0 {
      assert sep !in s[1..] by { assert forall k | 0 <= k < |s| - 1 :: s[1..][k] == s[k + 1]; }
      SplitNoSeparator(s[1..], sep);
      assert [s[0]] + s[1..] == s;
    }
  }

  /** Splitting `p + sep + t` with `p` free of separators gives `p` followed by the split of `t`. */
  lemma {:induction false} SplitAtFirst(p: string, t: string, sep: char)
    requires sep !in p
    ensures Split(p + [sep] + t, sep) == [p] + Split(t, sep)
  {
    var s := p + [sep] + t;
    if |p| == 0 {
      assert s == [sep] + t && s[1..] == t;
    } else {
      assert s[0] == p[0] && s[1..] == p[1..] + [sep] + t;
      assert sep !in p[1..] by { assert forall k | 0 <= k < |p| - 1 :: p[1..][k] == p[k + 1]; }
      SplitAtFirst(p[1..], t, sep);
      var rest := Split(s[1..], sep);
      assert rest == [p[1..]] + Split(t, sep);
      assert Split(s, sep) == [[p[0]] + rest[0]] + rest[1..];
      assert rest[0] == p[1..] && rest[1..] == Split(t, sep);
      assert [p[0]] + p[1..] == p;
    }
  }
}
