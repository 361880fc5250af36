/** The few operations of Python's `str` type that the service relies on:
    `isspace`/`strip`, `startswith`, `split` on one character, `join`, slicing,
    and the character matching that `re.IGNORECASE` performs on Unicode text.
    A Python `str` is a sequence of code points, as a Dafny `string` is. */
module PyStr {

  /** `c.isspace()`: the characters `str.strip()` removes when given no argument. */
  predicate IsSpace(c: char) {
    || ('\t' <= c <= '\r')
    || ('\U{001C}' <= c <= '\U{001F}')
    || c == ' ' || c == '\U{0085}' || c == '\U{00A0}' || c == '\U{1680}'
    || ('\U{2000}' <= c <= '\U{200A}')
    || c == '\U{2028}' || c == '\U{2029}' || c == '\U{202F}' || c == '\U{205F}' || c == '\U{3000}'
  }

  predicate AllSpace(s: string) {
    forall k :: 0 <= k < |s| ==> IsSpace(s[k])
  }

  /** Number of whitespace characters at the start of `s`. */
  function LeadingSpace(s: string): (n: nat)
    ensures n <= |s|
    ensures AllSpace(s[..n])
    ensures n < |s| ==> !IsSpace(s[n])
  {
    if s == [] || !IsSpace(s[0]) then 0
    else
      var n := 1 + LeadingSpace(s[1..]);
      assert s[..n] == [s[0]] + s[1..][..n - 1];
      n
  }

  /** Number of whitespace characters at the end of `s`. */
  function TrailingSpace(s: string): (n: nat)
    ensures n <= |s|
    ensures AllSpace(s[|s| - n..])
    ensures n < |s| ==> !IsSpace(s[|s| - 1 - n])
  {
    if s == [] || !IsSpace(s[|s| - 1]) then 0
    else
      var n := 1 + TrailingSpace(s[..|s| - 1]);
      assert s[|s| - n..] == s[..|s| - 1][|s| - n..] + [s[|s| - 1]];
      n
  }

  /** `s.strip()`. */
  function Strip(s: string): (r: string)
    ensures |r| <= |s|
    ensures r == [] <==> AllSpace(s)
    ensures r != [] ==> !IsSpace(r[0]) && !IsSpace(r[|r| - 1])
    ensures LeadingSpace(s) + |r| <= |s| && r == s[LeadingSpace(s)..LeadingSpace(s) + |r|]
    ensures AllSpace(s[LeadingSpace(s) + |r|..])
  {
    var a := LeadingSpace(s);
    if a == |s| then
      assert s[..a] == s;
      assert s[0..0] == [];
      []
    else
      var b := TrailingSpace(s);
      assert !AllSpace(s) by { assert !IsSpace(s[a]); }
      s[a..|s| - b]
  }

  /** Whitespace around a string with non-blank ends is exactly what `strip` removes. */
  lemma {:induction false} StripPadded(pre: string, t: string, post: string)
    requires AllSpace(pre) && AllSpace(post)
    requires t != [] && !IsSpace(t[0]) && !IsSpace(t[|t| - 1])
    ensures Strip(pre + t + post) == t
  {
    var s := pre + t + post;
    LeadingOf(pre, t + post);
    assert s == pre + (t + post);
    assert LeadingSpace(s) == |pre|;
    TrailingOf(pre + t, post);
    assert TrailingSpace(s) == |post|;
    assert s[|pre|..|s| - |post|] == t;
  }

  lemma {:induction false} LeadingOf(pre: string, rest: string)
    requires AllSpace(pre)
    requires rest != [] && !IsSpace(rest[0])
    ensures LeadingSpace(pre + rest) == |pre|
  {
    if pre != [] {
      assert (pre + rest)[1..] == pre[1..] + rest;
      LeadingOf(pre[1..], rest);
    } else {
      assert pre + rest == rest;
    }
  }

  lemma {:induction false} TrailingOf(rest: string, post: string)
    requires AllSpace(post)
    requires rest != [] && !IsSpace(rest[|rest| - 1])
    ensures TrailingSpace(rest + post) == |post|
  {
    if post != [] {
      var s := rest + post;
      assert s[..|s| - 1] == rest + post[..|post| - 1];
      TrailingOf(rest, post[..|post| - 1]);
    } else {
      assert rest + post == rest;
    }
  }

  predicate StartsWith(s: string, prefix: string) {
    |prefix| <= |s| && s[..|prefix|] == prefix
  }

  /** Index of the first `c` in `s`, or `|s|` when there is none. */
  function IndexOf(s: string, c: char): (n: nat)
    ensures n <= |s|
    ensures forall k :: 0 <= k < n ==> s[k] != c
    ensures n < |s| ==> s[n] == c
  {
    if s == [] then 0
    else if s[0] == c then 0
    else 1 + IndexOf(s[1..], c)
  }

  /** `s.split(sep)` for a one-character separator: the pieces between
      consecutive separators, always one more than the separators. */
  function Split(s: string, sep: char): (r: seq<string>)
    ensures |r| >= 1
  {
    if s == [] then [""]
    else
      var rest := Split(s[1..], sep);
      if s[0] == sep then [""] + rest
      else [[s[0]] + rest[0]] + rest[1..]
  }

  /** The first piece of `split` is everything up to the first separator. */
  lemma {:induction false} SplitFirst(s: string, sep: char)
    ensures Split(s, sep)[0] == s[..IndexOf(s, sep)]
  {
    if s != [] && s[0] != sep {
      SplitFirst(s[1..], sep);
      assert s[..IndexOf(s, sep)] == [s[0]] + s[1..][..IndexOf(s[1..], sep)];
    }
  }

  /** A separator-free head before the first separator is the first piece. */
  lemma {:induction false} SplitAfterHead(head: string, sep: char, tail: string)
    requires forall k :: 0 <= k < |head| ==> head[k] != sep
    ensures Split(head + [sep] + tail, sep) == [head] + Split(tail, sep)
  {
    if head == [] {
      assert head + [sep] + tail == [sep] + tail;
      assert ([sep] + tail)[1..] == tail;
    } else {
      var s := head + [sep] + tail;
      assert s[1..] == head[1..] + [sep] + tail;
      SplitAfterHead(head[1..], sep, tail);
      assert [head[0]] + head[1..] == head;
    }
  }

  /** `sep.join(parts)`. */
  function Join(sep: string, parts: seq<string>): string {
    if parts == [] then ""
    else if |parts| == 1 then parts[0]
    else parts[0] + sep + Join(sep, parts[1..])
  }

  /** Joining two non-empty lists is joining each and putting `sep` between. */
  lemma {:induction false} JoinAppend(sep: string, a: seq<string>, b: seq<string>)
    requires a != [] && b != []
    ensures Join(sep, a + b) == Join(sep, a) + sep + Join(sep, b)
  {
    if |a| == 1 {
      assert (a + b)[1..] == b;
    } else {
      assert (a + b)[1..] == a[1..] + b;
      JoinAppend(sep, a[1..], b);
    }
  }

  /** `s[:n]`. */
  function Take(s: string, n: nat): (r: string)
    ensures |r| <= n && |r| <= |s|
    ensures r == s[..|r|]
    ensures |s| <= n ==> r == s
  {
    if |s| <= n then s else s[..n]
  }

  /** Does `sub` occur in `s` at position `i`? */
  predicate OccursAt(s: string, i: nat, sub: string) {
    i + |sub| <= |s| && s[i..i + |sub|] == sub
  }

  predicate Contains(s: string, sub: string) {
    exists i :: 0 <= i <= |s| - |sub| && OccursAt(s, i, sub)
  }

  /** The case folding behind `re.IGNORECASE` on `str` patterns, as seen from
      a pattern written in lower-case ASCII: a character matches a pattern
      letter when its simple lower-case form is that letter (so `I`, `İ` and
      the Kelvin sign qualify) or when it is one of the two extra equivalents
      the regex compiler adds (dotless `ı` for `i`, long `ſ` for `s`). */
  function FoldChar(c: char): (f: char)
    ensures 'a' <= f <= 'z' ==> 'a' <= c <= 'z' || 'A' <= c <= 'Z' || c in {'\U{0130}', '\U{0131}', '\U{017F}', '\U{212A}'}
    ensures !('a' <= f <= 'z') ==> f == c
  {
    if 'A' <= c <= 'Z' then (c as int + 32) as char
    else if c == '\U{0130}' || c == '\U{0131}' then 'i'
    else if c == '\U{017F}' then 's'
    else if c == '\U{212A}' then 'k'
    else c
  }

  /** Case-insensitive occurrence of the lower-case pattern `pat` at `i`. */
  predicate OccursAtCI(s: string, i: nat, pat: string) {
    i + |pat| <= |s| && forall k :: 0 <= k < |pat| ==> FoldChar(s[i + k]) == pat[k]
  }

  lemma OccursAtCIConcat(s: string, i: nat, a: string, b: string)
    requires OccursAtCI(s, i, a) && OccursAtCI(s, i + |a|, b)
    ensures OccursAtCI(s, i, a + b)
  {
    forall k | 0 <= k < |a + b|
      ensures FoldChar(s[i + k]) == (a + b)[k]
    {
      if k >= |a| {
        assert FoldChar(s[i + |a| + (k - |a|)]) == b[k - |a|];
      }
    }
  }

  /** A case-insensitive occurrence of `a + b` is one of `a` followed by one of `b`. */
  lemma OccursAtCISplit(s: string, i: nat, a: string, b: string)
    requires OccursAtCI(s, i, a + b)
    ensures OccursAtCI(s, i, a) && OccursAtCI(s, i + |a|, b)
  {
    forall k | 0 <= k < |a|
      ensures FoldChar(s[i + k]) == a[k]
    {
      assert (a + b)[k] == a[k];
    }
    forall k | 0 <= k < |b|
      ensures FoldChar(s[i + |a| + k]) == b[k]
    {
      assert (a + b)[|a| + k] == b[k];
    }
  }

  /** A case-insensitive prefix match survives taking the slice it starts. */
  lemma OccursAtCISlice(s: string, i: nat, j: nat, pat: string)
    requires i <= j <= |s| && OccursAtCI(s, i, pat) && |pat| <= j - i
    ensures OccursAtCI(s[i..j], 0, pat)
  {
    forall k | 0 <= k < |pat|
      ensures FoldChar(s[i..j][k]) == pat[k]
    {
      assert s[i..j][k] == s[i + k];
    }
  }

  /** `re.search(pat, s, re.I)` succeeds, for a pattern made of literal characters. */
  predicate ContainsCI(s: string, pat: string) {
    exists i :: 0 <= i <= |s| - |pat| && OccursAtCI(s, i, pat)
  }
}
