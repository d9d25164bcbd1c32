/** The matching rule of the memory annotation in src/chat-model.ts
    (`handleResponse`): the regular expression
    `<remember>([^>]+)</remember>` with the global and case-insensitive
    flags, scanned left to right for non-overlapping matches. Only its
    observable rule is modelled, not a regular-expression engine. */
module Remember {

  import opened Optional
  import opened Text

  const OpenTag := "<remember>"
  const CloseTag := "</remember>"

  /** Equal to a lower-case ASCII pattern when letters are compared without
      case. Without the `u` flag no non-ASCII character folds onto an ASCII
      one, so ASCII folding is the whole rule for these patterns. */
  predicate SameIgnoringCase(a: string, pattern: string)
  {
    |a| == |pattern| && forall i :: 0 <= i < |a| ==> LowerChar(a[i]) == pattern[i]
  }

  /** The position of the first `c` in `s`. */
  function IndexOf(s: string, c: char): (r: Option<nat>)
    ensures r.Some? ==> r.value < |s| && s[r.value] == c && c !in s[..r.value]
    ensures r.None? ==> c !in s
    decreases |s|
  {
    if |s| == 0 then None
    else if s[0] == c then Some(0)
    else match IndexOf(s[1..], c)
      case None => None
      case Some(i) => Some(i + 1)
  }

  /** Reference definition: `s[..n]` is one match of the annotation, an
      opening tag, one or more characters other than `>`, a closing tag. */
  predicate IsMatch(s: string, n: nat)
  {
    && |OpenTag| + 1 + |CloseTag| <= n <= |s|
    && SameIgnoringCase(s[..|OpenTag|], OpenTag)
    && '>' !in s[|OpenTag|..n - |CloseTag|]
    && SameIgnoringCase(s[n - |CloseTag|..n], CloseTag)
  }

  /** The match starting at the first character of `s`, as the content and
      the number of characters it spans. The greedy `[^>]+` runs up to the
      first `>` after the opening tag, which must therefore be the end of the
      closing tag. */
  function MatchPrefix(s: string): (r: Option<(string, nat)>)
    ensures r.Some? ==> IsMatch(s, r.value.1)
    ensures r.Some? ==> r.value.0 == s[|OpenTag|..r.value.1 - |CloseTag|]
  {
    if |s| < |OpenTag| || !SameIgnoringCase(s[..|OpenTag|], OpenTag) then None
    else
      match IndexOf(s[|OpenTag|..], '>')
      case None => None
      case Some(q) =>
        if q <= |OpenTag| || !SameIgnoringCase(s[q..q + |CloseTag|], CloseTag) then None
        else
          assert s[|OpenTag|..q] == s[|OpenTag|..][..q - |OpenTag|];
          Some((s[|OpenTag|..q], q + |CloseTag|))
  }

  lemma {:induction false} IndexOfFirst(s: string, c: char, j: nat)
    requires j < |s| && s[j] == c && c !in s[..j]
    ensures IndexOf(s, c) == Some(j)
    decreases j
  {
    if j > 0 {
      assert s[0] in s[..j];
      assert s[1..][j - 1] == c;
      assert s[1..][..j - 1] == s[..j][1..];
      IndexOfFirst(s[1..], c, j - 1);
    }
  }

  /** Every match is the one `MatchPrefix` finds: there is at most one, and
      none is missed. */
  lemma MatchPrefixComplete(s: string, n: nat)
    requires IsMatch(s, n)
    ensures MatchPrefix(s) == Some((s[|OpenTag|..n - |CloseTag|], n))
  {
    var t := s[|OpenTag|..];
    var j := n - 1 - |OpenTag|;
    assert LowerChar(s[n - 1]) == '>' by {
      assert s[n - |CloseTag|..n][|CloseTag| - 1] == s[n - 1];
    }
    assert t[j] == '>';
    forall i | 0 <= i < j
      ensures t[i] != '>'
    {
      if i < n - |CloseTag| - |OpenTag| {
        assert t[i] == s[|OpenTag|..n - |CloseTag|][i];
      } else {
        var d := i + |OpenTag| - (n - |CloseTag|);
        assert s[n - |CloseTag|..n][d] == t[i];
        assert CloseTag[d] != '>';
      }
    }
    IndexOfFirst(t, '>', j);
  }

  /** `[...text.matchAll(re)].map(m => m[1])`: the contents of all
      non-overlapping matches, left to right. */
  function Extract(s: string): (r: seq<string>)
    ensures forall i :: 0 <= i < |r| ==> |r[i]| >= 1 && '>' !in r[i]
    decreases |s|
  {
    if |s| == 0 then []
    else match MatchPrefix(s)
      case Some((content, n)) => [content] + Extract(s[n..])
      case None => Extract(s[1..])
  }

  /** No match can start at a character other than `<`. */
  lemma NoMatchAt(s: string)
    requires |s| > 0 && s[0] != '<'
    ensures MatchPrefix(s) == None
  {
    if |s| >= |OpenTag| {
      assert s[..|OpenTag|][0] == s[0];
    }
  }

  /** Text free of `<` holds no annotation. */
  lemma {:induction false} ExtractPlain(f: string)
    requires '<' !in f
    ensures Extract(f) == []
    decreases |f|
  {
    if |f| > 0 {
      NoMatchAt(f);
      ExtractPlain(f[1..]);
    }
  }

  /** An annotation, tags in any letter case, after text free of `<`:
      its content comes first, then whatever the rest holds. */
  lemma {:induction false} ExtractTagged(f: string, open: string, content: string, close: string, rest: string)
    requires '<' !in f
    requires SameIgnoringCase(open, OpenTag) && SameIgnoringCase(close, CloseTag)
    requires |content| >= 1 && '>' !in content
    ensures Extract(f + open + content + close + rest) == [content] + Extract(rest)
    decreases |f|
  {
    var s := f + open + content + close + rest;
    if |f| > 0 {
      NoMatchAt(s);
      assert s[1..] == f[1..] + open + content + close + rest;
      ExtractTagged(f[1..], open, content, close, rest);
    } else {
      assert s == open + content + close + rest;
      var n := |open| + |content| + |close|;
      assert s[..|OpenTag|] == open;
      assert s[|OpenTag|..n - |CloseTag|] == content;
      assert s[n - |CloseTag|..n] == close;
      MatchPrefixComplete(s, n);
      assert s[n..] == rest;
    }
  }

  /** Two annotations in running text, tags in any letter case, yield
      their two contents, in order. */
  lemma ExtractTwo(f1: string, c1: string, f2: string, c2: string, open: string, close: string)
    requires '<' !in f1 && '<' !in f2
    requires |c1| >= 1 && '>' !in c1 && |c2| >= 1 && '>' !in c2
    requires SameIgnoringCase(open, OpenTag) && SameIgnoringCase(close, CloseTag)
    ensures Extract(f1 + open + c1 + close + f2 + open + c2 + close) == [c1, c2]
  {
    var second := f2 + open + c2 + close;
    var whole := f1 + open + c1 + close + f2 + open + c2 + close;
    assert whole == f1 + open + c1 + close + second;
    ExtractTagged(f1, open, c1, close, second);
    assert second == f2 + open + c2 + close + "";
    ExtractTagged(f2, open, c2, close, "");
    ExtractPlain("");
  }
}
