/**
 * The pieces of Java's String and Long behaviour the model relies on:
 * cutting a string at a separator character and joining it back, and the
 * decimal text of a long.
 */
module JavaText {
  import opened Wrappers

  // ---------------------------------------------------------------------
  // Cutting at a separator character
  // ---------------------------------------------------------------------

  /** The pieces joined back together with sep between neighbours. */
  function Join(pieces: seq<string>, sep: char): string
    requires |pieces| >= 1
  {
    if |pieces| == 1 then pieces[0] else pieces[0] + [sep] + Join(pieces[1..], sep)
  }

  lemma {:induction false} JoinSnoc(pieces: seq<string>, last: string, sep: char)
    requires |pieces| >= 1
    ensures Join(pieces + [last], sep) == Join(pieces, sep) + [sep] + last
  {
    if |pieces| > 1 {
      assert (pieces + [last])[1..] == pieces[1..] + [last];
      JoinSnoc(pieces[1..], last, sep);
    }
  }

  /** The position of the first sep in s. */
  function FirstIndex(s: string, sep: char): (k: nat)
    requires sep in s
    ensures k < |s| && s[k] == sep
    ensures forall i :: 0 <= i < k ==> s[i] != sep
  {
    if s[0] == sep then 0 else 1 + FirstIndex(s[1..], sep)
  }

  /** s cut at every sep: nothing absorbed, nothing dropped. */
  function Split(s: string, sep: char): (pieces: seq<string>)
    ensures |pieces| >= 1
    ensures forall i :: 0 <= i < |pieces| ==> sep !in pieces[i]
    ensures Join(pieces, sep) == s
    ensures sep !in s ==> pieces == [s]
    ensures sep in s ==> |pieces| >= 2
    decreases |s|
  {
    if sep !in s then [s]
    else
      var k := FirstIndex(s, sep);
      assert s == s[..k] + [sep] + s[k + 1..];
      [s[..k]] + Split(s[k + 1..], sep)
  }

  /** Joining pieces free of sep and cutting at sep gives the pieces back. */
  lemma {:induction false} SplitOfJoin(pieces: seq<string>, sep: char)
    requires |pieces| >= 1
    requires forall i :: 0 <= i < |pieces| ==> sep !in pieces[i]
    ensures Split(Join(pieces, sep), sep) == pieces
  {
    if |pieces| > 1 {
      var s := Join(pieces, sep);
      var head := pieces[0];
      assert s == head + [sep] + Join(pieces[1..], sep);
      assert s[|head|] == sep;
      var k := FirstIndex(s, sep);
      assert s[..k] == head;
      assert s[k + 1..] == Join(pieces[1..], sep);
      SplitOfJoin(pieces[1..], sep);
    }
  }

  // ---------------------------------------------------------------------
  // Decimal text of integers (Long.toString and Long.parseLong)
  // ---------------------------------------------------------------------

  predicate IsDigit(c: char)
  {
    '0' <= c <= '9'
  }

  predicate AllDigits(s: string)
  {
    forall i :: 0 <= i < |s| ==> IsDigit(s[i])
  }

  function DigitChar(d: nat): (c: char)
    requires d < 10
    ensures IsDigit(c) && c as int - '0' as int == d
  {
    ('0' as int + d) as char
  }

  /** The decimal digits of n, most significant first, without leading zeros. */
  function Decimal(n: nat): (s: string)
    ensures |s| >= 1 && AllDigits(s)
    ensures s[0] == '0' <==> n == 0
    ensures n == 0 ==> s == "0"
    decreases n
  {
    if n < 10 then [DigitChar(n)] else Decimal(n / 10) + [DigitChar(n % 10)]
  }

  /** The number a string of decimal digits denotes. */
  function DigitsValue(s: string): nat
    requires AllDigits(s)
  {
    if s == [] then 0 else 10 * DigitsValue(s[..|s| - 1]) + (s[|s| - 1] as int - '0' as int)
  }

  lemma {:induction false} DecimalRoundTrip(n: nat)
    ensures DigitsValue(Decimal(n)) == n
  {
    if n >= 10 {
      var s := Decimal(n);
      assert s[..|s| - 1] == Decimal(n / 10);
      DecimalRoundTrip(n / 10);
    }
  }

  /** Java's Long.toString: a minus sign for negative values, then the decimal digits of the magnitude. */
  function LongString(n: int): (s: string)
    ensures |s| >= 1
    ensures s[0] == '-' <==> n < 0
    ensures var digits := if n < 0 then s[1..] else s;
      |digits| >= 1 && AllDigits(digits) && (digits[0] == '0' <==> n == 0)
    ensures n == 0 ==> s == "0"
  {
    if n < 0 then "-" + Decimal(-n) else Decimal(n)
  }

  /**
   * Reads back the text LongString writes: an optional minus sign and at least
   * one ASCII digit. It is the inverse of LongString only, with no range check;
   * unlike Long.parseLong it takes no leading plus sign and no non-ASCII digits.
   */
  function ParseLong(s: string): Option<int>
  {
    if |s| >= 2 && s[0] == '-' && AllDigits(s[1..]) then Some(0 - DigitsValue(s[1..]) as int)
    else if |s| >= 1 && AllDigits(s) then Some(DigitsValue(s))
    else None
  }

  /** Parsing the text Long.toString gives of n yields n again. */
  lemma LongStringRoundTrip(n: int)
    ensures ParseLong(LongString(n)) == Some(n)
  {
    if n < 0 {
      var digits := Decimal(-n);
      assert LongString(n) == "-" + digits;
      assert ("-" + digits)[1..] == digits;
      DecimalRoundTrip(-n);
    } else {
      DecimalRoundTrip(n);
    }
  }
}
