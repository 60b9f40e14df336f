/** The price as the prompt and the demo listing print it:
    `parseInt(price).toLocaleString()` (js/app.js:234, js/app.js:380),
    with `toLocaleString` taken in the en-US locale. */
module Price {
  import opened Text

  /** What `parseInt` returns: NaN, or a sign and a magnitude. A negative
      sign on a zero magnitude is JavaScript's -0. */
  datatype ParsedInt = NaN | Number(negative: bool, magnitude: nat)

  /** Length of the longest prefix of `s` made of base-`radix` digits. */
  function DigitPrefixLen(s: string, radix: nat): (n: nat)
    ensures n <= |s|
    ensures forall i :: 0 <= i < n ==> DigitValue(s[i], radix) >= 0
    ensures n < |s| ==> DigitValue(s[n], radix) < 0
  {
    if s == [] || DigitValue(s[0], radix) < 0 then 0 else 1 + DigitPrefixLen(s[1..], radix)
  }

  /** `parseInt(s)` without a radix: leading whitespace is skipped, one sign
      is read, a `0x`/`0X` prefix selects base 16, and the longest run of
      digits that follows is the value; no digits at all give NaN. */
  function ParseInt(s: string): (r: ParsedInt)
  {
    var t := TrimStart(s);
    var negative := t != [] && t[0] == '-';
    var u := if t != [] && (t[0] == '-' || t[0] == '+') then t[1..] else t;
    var hex := |u| >= 2 && u[0] == '0' && (u[1] == 'x' || u[1] == 'X');
    var radix := if hex then 16 else 10;
    var v := if hex then u[2..] else u;
    var n := DigitPrefixLen(v, radix);
    assert AllDigits(v[..n], radix);
    if n == 0 then NaN else Number(negative, DigitsValue(v[..n], radix))
  }

  /** `parseInt` reads back the decimal numeral of every natural number. */
  lemma ParseIntOfNumeral(n: nat)
    ensures ParseInt(NatToString(n)) == Number(false, n)
  {
    var s := NatToString(n);
    assert DigitValue(s[0], 10) >= 0;
    assert TrimStart(s) == s;
    assert DigitPrefixLen(s, 10) == |s|;
    assert s[..|s|] == s;
    NatToStringRoundTrip(n);
  }

  /** Inserts a comma before every group of three digits, counting from the
      right, as the en-US locale groups thousands. */
  function GroupThousands(d: string): (r: string)
    decreases |d|
  {
    if |d| <= 3 then d else GroupThousands(d[..|d| - 3]) + "," + d[|d| - 3..]
  }

  /** `s` with its commas removed. */
  function RemoveCommas(s: string): (r: string)
  {
    if s == [] then [] else (if s[0] == ',' then [] else [s[0]]) + RemoveCommas(s[1..])
  }

  lemma {:induction false} RemoveCommasAppend(a: string, b: string)
    ensures RemoveCommas(a + b) == RemoveCommas(a) + RemoveCommas(b)
  {
    if a == [] {
      assert a + b == b;
    } else {
      var c := if a[0] == ',' then [] else [a[0]];
      calc {
        RemoveCommas(a + b);
        { assert (a + b)[0] == a[0] && (a + b)[1..] == a[1..] + b; }
        c + RemoveCommas(a[1..] + b);
        { RemoveCommasAppend(a[1..], b); }
        c + (RemoveCommas(a[1..]) + RemoveCommas(b));
        (c + RemoveCommas(a[1..])) + RemoveCommas(b);
      }
    }
  }

  lemma {:induction false} RemoveCommasNone(s: string)
    requires ',' !in s
    ensures RemoveCommas(s) == s
  {
    if s != [] {
      RemoveCommasNone(s[1..]);
    }
  }

  /** Grouping only inserts commas: removing them gives the digits back. */
  lemma {:induction false} GroupThousandsRemovable(d: string)
    requires ',' !in d
    ensures RemoveCommas(GroupThousands(d)) == d
    decreases |d|
  {
    if |d| <= 3 {
      RemoveCommasNone(d);
    } else {
      var head, last := d[..|d| - 3], d[|d| - 3..];
      assert d == head + last;
      GroupThousandsRemovable(head);
      var g := GroupThousands(head);
      assert GroupThousands(d) == (g + ",") + last;
      RemoveCommasAppend(g + ",", last);
      RemoveCommasAppend(g, ",");
      RemoveCommasNone(last);
      assert RemoveCommas(",") == [];
    }
  }

  /** A comma stands exactly at the positions 4, 8, 12, ... counted from
      the right end of `r`. */
  predicate CommaEveryFourthFromRight(r: string)
  {
    forall i :: 0 <= i < |r| ==> (r[i] == ',' <==> (|r| - i) % 4 == 0)
  }

  /** Grouping puts a comma before every third digit from the right and
      nowhere else. */
  lemma {:induction false} GroupThousandsCommas(d: string)
    requires ',' !in d
    ensures CommaEveryFourthFromRight(GroupThousands(d))
    decreases |d|
  {
    var r := GroupThousands(d);
    if |d| > 3 {
      var head, last := d[..|d| - 3], d[|d| - 3..];
      GroupThousandsCommas(head);
      var g := GroupThousands(head);
      assert r == g + "," + last;
      assert |r| == |g| + 4;
      forall i | 0 <= i < |r| ensures r[i] == ',' <==> (|r| - i) % 4 == 0 {
        if i < |g| {
          assert r[i] == g[i];
          assert g[i] == ',' <==> (|g| - i) % 4 == 0;
          ShiftByFour(|g| - i);
          assert |r| - i == (|g| - i) + 4;
        } else if i == |g| {
          assert r[i] == ',' && |r| - i == 4;
        } else {
          assert r[i] == last[i - |g| - 1] == d[|d| - 3 + (i - |g| - 1)];
          assert r[i] != ',';
          assert 0 < |r| - i < 4;
          assert (|r| - i) % 4 == |r| - i;
        }
      }
    }
  }

  lemma ShiftByFour(k: int)
    ensures (k + 4) % 4 == k % 4
  {
  }

  /** `n.toLocaleString()` in the en-US locale for the value `parseInt`
      produced. */
  function Localized(p: ParsedInt): (r: string)
  {
    match p
    case NaN => "NaN"
    case Number(negative, m) => (if negative then "-" else "") + GroupThousands(NatToString(m))
  }

  /** `parseInt(price).toLocaleString()`. */
  function FormatPrice(price: string): (r: string)
  {
    Localized(ParseInt(price))
  }

  /** A price typed as plain digits (no leading zero) is printed as those
      digits grouped in thousands. */
  lemma FormatPriceOfNumeral(n: nat)
    ensures FormatPrice(NatToString(n)) == GroupThousands(NatToString(n))
    ensures RemoveCommas(FormatPrice(NatToString(n))) == NatToString(n)
    ensures CommaEveryFourthFromRight(FormatPrice(NatToString(n)))
  {
    ParseIntOfNumeral(n);
    var d := NatToString(n);
    assert ',' !in d;
    GroupThousandsRemovable(d);
    GroupThousandsCommas(d);
  }
}
