/** The word count shown in the statistics panel:
    `content.split(/\s+/).filter(word => word.length > 0).length`
    (js/app.js, `updateStats`), and the plain reading of it as the number of
    maximal runs of non-whitespace characters. */
module Words {
  import opened Text

  /** Length of the longest prefix of `s` without whitespace. */
  function WordPrefixLen(s: string): (n: nat)
    ensures n <= |s|
    ensures forall i :: 0 <= i < n ==> !IsWhitespace(s[i])
    ensures n < |s| ==> IsWhitespace(s[n])
  {
    if s == [] || IsWhitespace(s[0]) then 0 else 1 + WordPrefixLen(s[1..])
  }

  /** Length of the longest prefix of `s` made of whitespace. */
  function SpacePrefixLen(s: string): (n: nat)
    ensures n <= |s|
    ensures forall i :: 0 <= i < n ==> IsWhitespace(s[i])
    ensures n < |s| ==> !IsWhitespace(s[n])
  {
    if s == [] || !IsWhitespace(s[0]) then 0 else 1 + SpacePrefixLen(s[1..])
  }

  /** `s.split(/\s+/)`: the pieces between maximal whitespace runs. The
      first piece is empty when `s` starts with whitespace and the last one
      when it ends with whitespace; the empty string gives `[""]`. */
  function SplitOnWhitespace(s: string): (pieces: seq<string>)
    ensures |pieces| >= 1
    decreases |s|
  {
    var w := WordPrefixLen(s);
    if w == |s| then [s]
    else
      var rest := s[w..];
      [s[..w]] + SplitOnWhitespace(rest[SpacePrefixLen(rest)..])
  }

  /** `pieces.filter(p => p.length > 0).length`. */
  function CountNonEmpty(pieces: seq<string>): nat
  {
    if pieces == [] then 0
    else (if pieces[0] != "" then 1 else 0) + CountNonEmpty(pieces[1..])
  }

  /** The word count of one listing, as the statistics panel computes it. */
  function WordCount(s: string): nat
  {
    CountNonEmpty(SplitOnWhitespace(s))
  }

  /** The number of positions of `s` where a word begins: a non-whitespace
      character that follows whitespace (or, at position 0, follows
      whitespace exactly when `afterSpace`). */
  function TokenStarts(s: string, afterSpace: bool): nat
  {
    if s == [] then 0
    else (if afterSpace && !IsWhitespace(s[0]) then 1 else 0)
         + TokenStarts(s[1..], IsWhitespace(s[0]))
  }

  /** The number of maximal runs of non-whitespace characters in `s`. */
  function TokenCount(s: string): nat
  {
    TokenStarts(s, true)
  }

  /** Crossing a non-empty run of non-whitespace characters starts at most
      one word: the first, and only when it follows whitespace. */
  lemma {:induction false} StartsAcrossWord(s: string, w: nat, afterSpace: bool)
    requires 0 < w <= |s|
    requires forall i :: 0 <= i < w ==> !IsWhitespace(s[i])
    ensures TokenStarts(s, afterSpace) == (if afterSpace then 1 else 0) + TokenStarts(s[w..], false)
  {
    if w > 1 {
      StartsAcrossWord(s[1..], w - 1, false);
      assert s[1..][w - 1..] == s[w..];
    }
  }

  /** Crossing a non-empty run of whitespace starts no word and leaves the
      scan "after whitespace". */
  lemma {:induction false} StartsAcrossSpace(s: string, k: nat, afterSpace: bool)
    requires 0 < k <= |s|
    requires forall i :: 0 <= i < k ==> IsWhitespace(s[i])
    ensures TokenStarts(s, afterSpace) == TokenStarts(s[k..], true)
  {
    if k > 1 {
      StartsAcrossSpace(s[1..], k - 1, true);
      assert s[1..][k - 1..] == s[k..];
    }
  }

  /** Splitting on whitespace runs and dropping empty pieces counts exactly
      the maximal runs of non-whitespace characters. */
  lemma {:induction false} WordCountIsTokenCount(s: string)
    ensures WordCount(s) == TokenCount(s)
    decreases |s|
  {
    var w := WordPrefixLen(s);
    if w == |s| {
      assert SplitOnWhitespace(s) == [s] && [s][1..] == [];
      if w > 0 {
        StartsAcrossWord(s, w, true);
        assert TokenStarts(s[w..], false) == 0;
        assert CountNonEmpty([s]) == 1 + CountNonEmpty([]);
      }
    } else {
      var rest := s[w..];
      var k := SpacePrefixLen(rest);
      var tail := rest[k..];
      assert SplitOnWhitespace(s) == [s[..w]] + SplitOnWhitespace(tail);
      assert SplitOnWhitespace(s)[1..] == SplitOnWhitespace(tail);
      WordCountIsTokenCount(tail);
      StartsAcrossSpace(rest, k, w == 0);
      if w > 0 {
        StartsAcrossWord(s, w, true);
      }
    }
  }
}
