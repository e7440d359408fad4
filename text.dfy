/** The two string operations the archiver relies on: `strings.Join` with a
    one-character separator and `strconv.Itoa`, each with the inverse that
    shows how much information the produced text keeps. */
module Text {
  import opened Results

  /** The separator of every joined column in the flat records. */
  const Comma: char := ','

  /** `strings.Join(parts, string(sep))`: the parts in order, with one separator
      between neighbours and none at either end. */
  function Join(parts: seq<string>, sep: char): string
  {
    if |parts| == 0 then ""
    else if |parts| == 1 then parts[0]
    else parts[0] + [sep] + Join(parts[1..], sep)
  }

  /** Splits a string at every occurrence of `sep` (the reference inverse of
      Join; `strings.Split` behaves the same for a one-character separator). */
  function Split(s: string, sep: char): (parts: seq<string>)
    ensures |parts| >= 1
    decreases |s|
  {
    if |s| == 0 then [""]
    else if s[0] == sep then [""] + Split(s[1..], sep)
    else
      var rest := Split(s[1..], sep);
      [[s[0]] + rest[0]] + rest[1..]
  }

  /** True when no part contains the separator. */
  predicate FreeOf(parts: seq<string>, sep: char)
  {
    forall i :: 0 <= i < |parts| ==> sep !in parts[i]
  }

  /** Reads back a joined list of `count` parts: the empty list joins to "",
      the same text as the one-element list [""], so the count decides. */
  function SplitCount(s: string, sep: char, count: nat): seq<string>
  {
    if count == 0 then [] else Split(s, sep)
  }

  lemma {:induction false} SplitPrefix(p: string, t: string, sep: char)
    requires sep !in p
    ensures Split(p + t, sep) == [p + Split(t, sep)[0]] + Split(t, sep)[1..]
    decreases |p|
  {
    if |p| == 0 {
      assert p + t == t;
      var r := Split(t, sep);
      assert r == [r[0]] + r[1..];
      assert p + r[0] == r[0];
    } else {
      assert (p + t)[1..] == p[1..] + t;
      SplitPrefix(p[1..], t, sep);
      assert [p[0]] + (p[1..] + Split(t, sep)[0]) == p + Split(t, sep)[0];
    }
  }

  /** Splitting a joined list gives the list back when no part holds the separator. */
  lemma {:induction false} SplitJoin(parts: seq<string>, sep: char)
    requires |parts| >= 1 && FreeOf(parts, sep)
    ensures Split(Join(parts, sep), sep) == parts
  {
    if |parts| == 1 {
      SplitPrefix(parts[0], "", sep);
      assert parts[0] + "" == parts[0];
    } else {
      var rest := Join(parts[1..], sep);
      assert Join(parts, sep) == parts[0] + ([sep] + rest);
      SplitPrefix(parts[0], [sep] + rest, sep);
      assert ([sep] + rest)[1..] == rest;
      SplitJoin(parts[1..], sep);
      assert Split([sep] + rest, sep) == [""] + parts[1..];
      var r := [""] + parts[1..];
      assert r[0] == "" && r[1..] == parts[1..];
      assert parts[0] + "" == parts[0];
      assert parts == [parts[0]] + parts[1..];
    }
  }

  /** Joining the pieces of any string at the separator rebuilds that string. */
  lemma {:induction false} JoinSplit(s: string, sep: char)
    ensures Join(Split(s, sep), sep) == s
    decreases |s|
  {
    if |s| == 0 {
    } else if s[0] == sep {
      JoinSplit(s[1..], sep);
      var rest := Split(s[1..], sep);
      assert ([""] + rest)[1..] == rest;
      assert s == [sep] + s[1..];
    } else {
      JoinSplit(s[1..], sep);
      var rest := Split(s[1..], sep);
      var parts := [[s[0]] + rest[0]] + rest[1..];
      assert parts[1..] == rest[1..];
      if |rest| == 1 {
        assert s == [s[0]] + s[1..];
      } else {
        assert Join(rest, sep) == rest[0] + [sep] + Join(rest[1..], sep);
        assert s == [s[0]] + s[1..];
      }
    }
  }

  /** The counted read-back inverts Join for every separator-free list, empty
      lists included. */
  lemma SplitCountJoin(parts: seq<string>, sep: char)
    requires FreeOf(parts, sep)
    ensures SplitCount(Join(parts, sep), sep, |parts|) == parts
  {
    if |parts| > 0 {
      SplitJoin(parts, sep);
    }
  }

  /** Without the separator-free condition Join is not injective: a name
      holding a comma cannot be told apart from two names. */
  lemma JoinIsLossyOnSeparator()
    ensures Join(["a,b"], Comma) == Join(["a", "b"], Comma)
  {
  }

  // ---------------------------------------------------------------
  // Decimal integers (strconv.Itoa) and their parser.

  function DigitChar(d: nat): char
    requires d < 10
  {
    (48 + d) as char
  }

  /** Decimal digits of a natural number, most significant first, no leading zero. */
  function NatDigits(n: nat): string
    decreases n
  {
    if n < 10 then [DigitChar(n)] else NatDigits(n / 10) + [DigitChar(n % 10)]
  }

  /** `strconv.Itoa(n)`: a minus sign for negative numbers, then the digits. */
  function DecimalString(n: int): string
  {
    if n < 0 then "-" + NatDigits(-n) else NatDigits(n)
  }

  function DigitValue(c: char): Option<nat>
  {
    if '0' <= c <= '9' then Some(c as int - 48) else None
  }

  /** Parses a non-empty string of decimal digits. */
  function ParseNat(s: string): Option<nat>
    decreases |s|
  {
    if |s| == 0 then None
    else if |s| == 1 then DigitValue(s[0])
    else
      match (ParseNat(s[..|s| - 1]), DigitValue(s[|s| - 1]))
      case (Some(high), Some(low)) => Some(high * 10 + low)
      case _ => None
  }

  /** Parses an optionally signed decimal integer (the inverse of DecimalString). */
  function ParseDecimal(s: string): Option<int>
  {
    if |s| > 0 && s[0] == '-' then
      match ParseNat(s[1..])
      case Some(n) => Some(0 - n as int)
      case None => None
    else ParseNat(s)
  }

  predicate IsDigits(s: string)
  {
    |s| > 0 && forall i :: 0 <= i < |s| ==> '0' <= s[i] <= '9'
  }

  lemma {:induction false} NatDigitsRoundTrip(n: nat)
    ensures IsDigits(NatDigits(n))
    ensures ParseNat(NatDigits(n)) == Some(n)
    decreases n
  {
    if n >= 10 {
      NatDigitsRoundTrip(n / 10);
      var s := NatDigits(n);
      assert s[..|s| - 1] == NatDigits(n / 10);
    }
  }

  /** strconv.Itoa output parses back to the same integer. */
  lemma DecimalRoundTrip(n: int)
    ensures ParseDecimal(DecimalString(n)) == Some(n)
  {
    if n < 0 {
      NatDigitsRoundTrip(-n);
      assert DecimalString(n)[1..] == NatDigits(-n);
    } else {
      NatDigitsRoundTrip(n);
    }
  }

  /** A decimal number never contains the column separator and is never empty. */
  lemma DecimalHasNoComma(n: int)
    ensures |DecimalString(n)| > 0
    ensures Comma !in DecimalString(n)
  {
    var m: nat := if n < 0 then -n else n;
    NatDigitsRoundTrip(m);
    var s := DecimalString(n);
    if n < 0 {
      assert s == "-" + NatDigits(m);
      forall i | 0 <= i < |s| ensures s[i] != Comma {
        if i > 0 { assert s[i] == NatDigits(m)[i - 1]; }
      }
    }
  }

  /** `strconv.Itoa` applied to every element, in order. */
  function DecimalStrings(xs: seq<int>): (strs: seq<string>)
  {
    seq(|xs|, i requires 0 <= i < |xs| => DecimalString(xs[i]))
  }

  /** Reads back a comma-joined list of decimal integers; "" is the empty list
      (a decimal number is never empty, so no count is needed). */
  function ParseDecimalList(s: string): Option<seq<int>>
  {
    if s == "" then Some([]) else ParseEach(Split(s, Comma))
  }

  function ParseEach(strs: seq<string>): Option<seq<int>>
  {
    if strs == [] then Some([])
    else
      match (ParseDecimal(strs[0]), ParseEach(strs[1..]))
      case (Some(x), Some(rest)) => Some([x] + rest)
      case _ => None
  }

  lemma {:induction false} ParseEachDecimal(xs: seq<int>)
    ensures ParseEach(DecimalStrings(xs)) == Some(xs)
  {
    if xs != [] {
      DecimalRoundTrip(xs[0]);
      assert DecimalStrings(xs)[1..] == DecimalStrings(xs[1..]);
      ParseEachDecimal(xs[1..]);
      assert xs == [xs[0]] + xs[1..];
    }
  }

  /** Joining decimal integers with commas is lossless: the list reads back. */
  lemma {:induction false} JoinedDecimalsRoundTrip(xs: seq<int>)
    ensures ParseDecimalList(Join(DecimalStrings(xs), Comma)) == Some(xs)
  {
    var strs := DecimalStrings(xs);
    forall i | 0 <= i < |strs| ensures Comma !in strs[i] && |strs[i]| > 0 {
      DecimalHasNoComma(xs[i]);
    }
    ParseEachDecimal(xs);
    if |xs| > 0 {
      SplitJoin(strs, Comma);
      assert |Join(strs, Comma)| > 0 by { JoinNonEmpty(strs, Comma); }
    }
  }

  lemma {:induction false} JoinNonEmpty(parts: seq<string>, sep: char)
    requires |parts| > 0 && |parts[0]| > 0
    ensures |Join(parts, sep)| > 0
  {
  }
}
