/** String rules the application relies on: ECMAScript whitespace and
    `trim`, prefix tests, hyphen and case rewriting, joining, decimal
    rendering and the UTF-16 length that JavaScript's `.length` reports. */
module Text {

  /** ECMAScript WhiteSpace and LineTerminator code points: what
      `String.prototype.trim` strips and what the regular-expression class
      `\s` matches. */
  predicate IsWhitespace(c: char)
  {
    var n := c as int;
    (9 <= n <= 13) || n == 0x20 || n == 0xA0 || n == 0x1680
    || (0x2000 <= n <= 0x200A) || n == 0x2028 || n == 0x2029
    || n == 0x202F || n == 0x205F || n == 0x3000 || n == 0xFEFF
  }

  /** `s.trimStart()`: drops the leading whitespace. */
  function TrimStart(s: string): (r: string)
    ensures |r| <= |s| && r == s[|s| - |r|..]
    ensures forall i :: 0 <= i < |s| - |r| ==> IsWhitespace(s[i])
    ensures r != [] ==> !IsWhitespace(r[0])
  {
    if s != [] && IsWhitespace(s[0]) then TrimStart(s[1..]) else s
  }

  /** `s.trimEnd()`: drops the trailing whitespace. */
  function TrimEnd(s: string): (r: string)
    ensures |r| <= |s| && r == s[..|r|]
    ensures forall i :: |r| <= i < |s| ==> IsWhitespace(s[i])
    ensures r != [] ==> !IsWhitespace(r[|r| - 1])
  {
    if s != [] && IsWhitespace(s[|s| - 1]) then TrimEnd(s[..|s| - 1]) else s
  }

  /** `s.trim()`. */
  function Trim(s: string): string
  {
    TrimEnd(TrimStart(s))
  }

  /** The trimmed string is the slice of `s` that starts at its first
      non-whitespace character. */
  lemma TrimIsSlice(s: string)
    ensures OccursAt(Trim(s), s, |s| - |TrimStart(s)|)
  {
    var t := TrimStart(s);
    SliceOfSuffix(s, |s| - |t|, |TrimEnd(t)|);
  }

  /** The trimmed string occurs in the original. */
  lemma TrimIsInfix(s: string)
    ensures IsInfix(Trim(s), s)
  {
    TrimIsSlice(s);
  }

  /** A non-empty trimmed string neither starts nor ends with whitespace. */
  lemma TrimEnds(s: string)
    ensures var r := Trim(s); r != [] ==> !IsWhitespace(r[0]) && !IsWhitespace(r[|r| - 1])
  {
    var t := TrimStart(s);
    var r := TrimEnd(t);
    if r != [] {
      assert r[0] == t[0];
    }
  }

  lemma SliceOfSlice<T>(s: seq<T>, j: nat, n: nat, i: nat, m: nat)
    requires j + n <= |s| && i + m <= n
    ensures s[j..j + n][i..i + m] == s[j + i..j + i + m]
  {
    var a, b := s[j..j + n][i..i + m], s[j + i..j + i + m];
    assert |a| == |b|;
    forall q | 0 <= q < m ensures a[q] == b[q] {
      assert a[q] == s[j..j + n][i + q] == s[j + i + q];
    }
  }

  lemma SliceOfSuffix<T>(s: seq<T>, k: nat, m: nat)
    requires k + m <= |s|
    ensures s[k..][..m] == s[k..k + m]
  {
  }

  /** Trimming leaves nothing exactly when `s` is all whitespace. */
  lemma TrimEmpty(s: string)
    ensures Trim(s) == [] <==> forall i :: 0 <= i < |s| ==> IsWhitespace(s[i])
  {
    var t := TrimStart(s);
    if t != [] {
      assert !IsWhitespace(s[|s| - |t|]);
      assert TrimEnd(t) != [];
    }
  }

  /** `s.startsWith(prefix)`. */
  predicate StartsWith(s: string, prefix: string)
  {
    |prefix| <= |s| && s[..|prefix|] == prefix
  }

  /** `x` occurs in `s` starting at position `i`. */
  predicate OccursAt(x: string, s: string, i: int)
  {
    0 <= i <= |s| - |x| && s[i..i + |x|] == x
  }

  /** `x` occurs somewhere in `s`. */
  predicate IsInfix(x: string, s: string)
  {
    exists i :: 0 <= i <= |s| - |x| && OccursAt(x, s, i)
  }

  /** An infix of an infix of `s` is an infix of `s`. */
  lemma InfixTransitive(x: string, y: string, s: string)
    requires IsInfix(x, y) && IsInfix(y, s)
    ensures IsInfix(x, s)
  {
    var i :| 0 <= i <= |y| - |x| && OccursAt(x, y, i);
    var j :| 0 <= j <= |s| - |y| && OccursAt(y, s, j);
    SliceOfSlice(s, j, |y|, i, |x|);
    assert OccursAt(x, s, j + i);
  }

  /** The concatenation of all pieces, in order. */
  function Concat(pieces: seq<string>): string
  {
    if pieces == [] then "" else pieces[0] + Concat(pieces[1..])
  }

  /** Every piece of a concatenation occurs in it. */
  lemma {:induction false} PieceIsInfix(pieces: seq<string>, k: nat)
    requires k < |pieces|
    ensures IsInfix(pieces[k], Concat(pieces))
  {
    var s := Concat(pieces);
    if k == 0 {
      assert OccursAt(pieces[0], s, 0);
    } else {
      PieceIsInfix(pieces[1..], k - 1);
      var rest := Concat(pieces[1..]);
      var x := pieces[k];
      assert x == pieces[1..][k - 1];
      var i :| 0 <= i <= |rest| - |x| && OccursAt(x, rest, i);
      var j := |pieces[0]| + i;
      assert s == pieces[0] + rest;
      assert s[j..j + |pieces[k]|] == rest[i..i + |pieces[k]|];
      assert OccursAt(pieces[k], s, j);
    }
  }

  /** Every piece of a concatenation occurs in it. */
  lemma AllPiecesAreInfixes(pieces: seq<string>)
    ensures forall k :: 0 <= k < |pieces| ==> IsInfix(pieces[k], Concat(pieces))
  {
    forall k | 0 <= k < |pieces| ensures IsInfix(pieces[k], Concat(pieces)) {
      PieceIsInfix(pieces, k);
    }
  }

  /** `parts.join(sep)`. */
  function Join(parts: seq<string>, sep: string): string
  {
    if |parts| == 0 then ""
    else if |parts| == 1 then parts[0]
    else parts[0] + sep + Join(parts[1..], sep)
  }

  /** Every part of a joined string occurs in it. */
  lemma {:induction false} JoinedPartIsInfix(parts: seq<string>, sep: string, k: nat)
    requires k < |parts|
    ensures IsInfix(parts[k], Join(parts, sep))
  {
    var s := Join(parts, sep);
    if |parts| == 1 {
      assert OccursAt(parts[0], s, 0);
    } else if k == 0 {
      assert s[0..|parts[0]|] == parts[0];
      assert OccursAt(parts[0], s, 0);
    } else {
      JoinedPartIsInfix(parts[1..], sep, k - 1);
      var rest := Join(parts[1..], sep);
      var x := parts[k];
      assert x == parts[1..][k - 1];
      var i :| 0 <= i <= |rest| - |x| && OccursAt(x, rest, i);
      var j := |parts[0]| + |sep| + i;
      assert s == (parts[0] + sep) + rest;
      assert s[j..j + |parts[k]|] == rest[i..i + |parts[k]|];
      assert OccursAt(parts[k], s, j);
    }
  }

  /** A character found neither in the parts nor in the separator is not in
      the joined string either. */
  lemma {:induction false} JoinAvoids(parts: seq<string>, sep: string, c: char)
    requires forall k :: 0 <= k < |parts| ==> c !in parts[k]
    requires c !in sep
    ensures c !in Join(parts, sep)
  {
    if |parts| > 1 {
      JoinAvoids(parts[1..], sep, c);
    }
  }

  /** `s.replace(/-/g, ' ')`: every hyphen becomes a space, nothing else
      changes. */
  function HyphensToSpaces(s: string): (r: string)
    ensures |r| == |s|
    ensures forall i :: 0 <= i < |s| ==> r[i] == (if s[i] == '-' then ' ' else s[i])
  {
    if s == [] then [] else [if s[0] == '-' then ' ' else s[0]] + HyphensToSpaces(s[1..])
  }

  /** A character of the regular-expression class `\w`. */
  predicate IsWordChar(c: char)
  {
    ('a' <= c <= 'z') || ('A' <= c <= 'Z') || ('0' <= c <= '9') || c == '_'
  }

  /** Upper-cases an ASCII letter and leaves every other character alone. */
  function UpperChar(c: char): char
  {
    if 'a' <= c <= 'z' then (c as int - 32) as char else c
  }

  /** Lower-cases an ASCII letter and leaves every other character alone. */
  function LowerChar(c: char): char
  {
    if 'A' <= c <= 'Z' then (c as int + 32) as char else c
  }

  /** Upper-cases every ASCII letter of `s`. */
  function AsciiUpper(s: string): (r: string)
    ensures |r| == |s| && forall i :: 0 <= i < |s| ==> r[i] == UpperChar(s[i])
  {
    if s == [] then [] else [UpperChar(s[0])] + AsciiUpper(s[1..])
  }

  /** Lower-cases every ASCII letter of `s`. */
  function AsciiLower(s: string): (r: string)
    ensures |r| == |s| && forall i :: 0 <= i < |s| ==> r[i] == LowerChar(s[i])
  {
    if s == [] then [] else [LowerChar(s[0])] + AsciiLower(s[1..])
  }

  /** Position `i` is matched by `\b\w`: a word character with no word
      character just before it. */
  predicate IsWordStart(s: string, i: nat)
    requires i < |s|
  {
    IsWordChar(s[i]) && (i == 0 || !IsWordChar(s[i - 1]))
  }

  /** Title-cases `s` when the character before it was (`afterWord`) or
      was not a word character. */
  function TitleCaseAfter(s: string, afterWord: bool): (r: string)
    ensures |r| == |s|
  {
    if s == [] then []
    else [if IsWordChar(s[0]) && !afterWord then UpperChar(s[0]) else s[0]]
         + TitleCaseAfter(s[1..], IsWordChar(s[0]))
  }

  lemma {:induction false} TitleCaseAfterAt(s: string, afterWord: bool, i: nat)
    requires i < |s|
    ensures TitleCaseAfter(s, afterWord)[i]
      == if IsWordChar(s[i]) && !(if i == 0 then afterWord else IsWordChar(s[i - 1]))
         then UpperChar(s[i]) else s[i]
  {
    if i > 0 {
      TitleCaseAfterAt(s[1..], IsWordChar(s[0]), i - 1);
    }
  }

  /** `s.replace(/\b\w/g, l => l.toUpperCase())`: the first character of
      every word is upper-cased and every other character is kept. */
  function TitleCase(s: string): (r: string)
    ensures |r| == |s|
    ensures forall i :: 0 <= i < |s| ==>
      r[i] == (if IsWordStart(s, i) then UpperChar(s[i]) else s[i])
  {
    TitleCaseAt(s);
    TitleCaseAfter(s, false)
  }

  lemma TitleCaseAt(s: string)
    ensures forall i :: 0 <= i < |s| ==>
      TitleCaseAfter(s, false)[i] == (if IsWordStart(s, i) then UpperChar(s[i]) else s[i])
  {
    forall i | 0 <= i < |s|
      ensures TitleCaseAfter(s, false)[i] == (if IsWordStart(s, i) then UpperChar(s[i]) else s[i])
    {
      TitleCaseAfterAt(s, false, i);
    }
  }

  /** The character of decimal digit `d`. */
  function DigitChar(d: nat): (c: char)
    requires d < 10
    ensures '0' <= c <= '9' && c as int - '0' as int == d
  {
    (d + '0' as int) as char
  }

  /** The value of digit character `c` in base `radix` (10 or 16), or -1
      when `c` is not such a digit. */
  function DigitValue(c: char, radix: nat): (v: int)
    ensures v == -1 || 0 <= v < radix
  {
    if '0' <= c <= '9' && (c as int - '0' as int) < radix then c as int - '0' as int
    else if radix == 16 && 'a' <= c <= 'f' then c as int - 'a' as int + 10
    else if radix == 16 && 'A' <= c <= 'F' then c as int - 'A' as int + 10
    else -1
  }

  /** Every character of `s` is a digit in base `radix`. */
  predicate AllDigits(s: string, radix: nat)
  {
    forall i :: 0 <= i < |s| ==> DigitValue(s[i], radix) >= 0
  }

  /** The number written by the digits `s` in base `radix`, most significant
      first. */
  function DigitsValue(s: string, radix: nat): nat
    requires AllDigits(s, radix)
  {
    if s == [] then 0
    else DigitsValue(s[..|s| - 1], radix) * radix + DigitValue(s[|s| - 1], radix)
  }

  /** The decimal numeral of `n`, without leading zeros. */
  function NatToString(n: nat): (r: string)
    ensures r != [] && AllDigits(r, 10)
    ensures r[0] == '0' ==> n == 0
  {
    if n < 10 then [DigitChar(n)] else NatToString(n / 10) + [DigitChar(n % 10)]
  }

  /** Reading back the numeral of `n` gives `n`. */
  lemma {:induction false} NatToStringRoundTrip(n: nat)
    ensures DigitsValue(NatToString(n), 10) == n
  {
    var r := NatToString(n);
    if n >= 10 {
      NatToStringRoundTrip(n / 10);
      assert r[..|r| - 1] == NatToString(n / 10);
    }
  }

  /** JavaScript's `.length`: the number of UTF-16 code units, two for each
      code point outside the Basic Multilingual Plane. */
  function Utf16Length(s: string): (n: nat)
    ensures |s| <= n <= 2 * |s|
  {
    if s == [] then 0 else (if s[0] as int >= 0x10000 then 2 else 1) + Utf16Length(s[1..])
  }
}
