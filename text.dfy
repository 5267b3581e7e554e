/**
 * The string operations the event list relies on: case-insensitive substring search
 * (`localizedCaseInsensitiveContains`) and Swift's decimal interpolation of an `Int`.
 */
module Text {

  import opened Wrappers

  /** Case folding, restricted to ASCII letters. */
  function FoldChar(c: char): char {
    if 'A' <= c <= 'Z' then (c as int + 32) as char else c
  }

  function Fold(s: string): (r: string)
    ensures |r| == |s|
  {
    seq(|s|, i requires 0 <= i < |s| => FoldChar(s[i]))
  }

  /** `needle` occurs in `hay` at offset `i`, ignoring case. */
  predicate MatchesAt(hay: string, needle: string, i: int) {
    0 <= i && i + |needle| <= |hay| && Fold(hay[i..i + |needle|]) == Fold(needle)
  }

  lemma MatchesAtShift(hay: string, needle: string, j: int)
    requires hay != [] && 0 <= j
    ensures MatchesAt(hay[1..], needle, j) <==> MatchesAt(hay, needle, j + 1)
  {
    if j + |needle| <= |hay| - 1 {
      assert hay[1..][j..j + |needle|] == hay[j + 1..j + 1 + |needle|];
    }
  }

  /** When there is no match at offset 0, the matches of `hay` are those of its tail, shifted by one. */
  lemma MatchesInTail(hay: string, needle: string)
    requires hay != [] && !MatchesAt(hay, needle, 0)
    ensures (exists j :: MatchesAt(hay[1..], needle, j)) <==> (exists i :: MatchesAt(hay, needle, i))
  {
    if j :| MatchesAt(hay[1..], needle, j) {
      MatchesAtShift(hay, needle, j);
    }
    if i :| MatchesAt(hay, needle, i) {
      MatchesAtShift(hay, needle, i - 1);
    }
  }

  /**
   * `hay.localizedCaseInsensitiveContains(needle)`: true iff the non-empty `needle` occurs somewhere
   * in `hay`, ignoring case. An empty needle is never found.
   */
  function ContainsIgnoringCase(hay: string, needle: string): (b: bool)
    ensures b <==> |needle| > 0 && exists i :: MatchesAt(hay, needle, i)
    decreases |hay|
  {
    if |needle| == 0 || |hay| < |needle| then false
    else if Fold(hay[..|needle|]) == Fold(needle) then
      assert MatchesAt(hay, needle, 0);
      true
    else
      MatchesInTail(hay, needle);
      ContainsIgnoringCase(hay[1..], needle)
  }

  // ---- Decimal rendering of integers, as string interpolation does it ----

  predicate IsDigit(c: char) {
    '0' as int <= c as int <= '9' as int
  }

  function DigitChar(d: nat): (c: char)
    requires d < 10
    ensures IsDigit(c) && c as int - '0' as int == d
  {
    ('0' as int + d) as char
  }

  predicate AllDigits(s: string) {
    forall i :: 0 <= i < |s| ==> IsDigit(s[i])
  }

  /** The decimal digits of `n`, most significant first, without leading zeros. */
  function NatToDecimal(n: nat): (s: string)
    ensures |s| >= 1 && AllDigits(s)
    ensures s[0] == '0' ==> n == 0 && s == "0"
    decreases n
  {
    if n < 10 then [DigitChar(n)] else NatToDecimal(n / 10) + [DigitChar(n % 10)]
  }

  /** The number a string of decimal digits denotes. */
  function DigitsValue(s: string): nat
    requires AllDigits(s)
    decreases |s|
  {
    if s == [] then 0
    else
      assert IsDigit(s[|s| - 1]);
      DigitsValue(s[..|s| - 1]) * 10 + (s[|s| - 1] as int - '0' as int)
  }

  /** Reads back what `IntToDecimal` writes: an optional minus sign and at least one digit. */
  function ParseInt(s: string): Option<int> {
    if |s| > 1 && s[0] == '-' && AllDigits(s[1..]) then Some(0 - DigitsValue(s[1..]))
    else if s != [] && AllDigits(s) then Some(DigitsValue(s))
    else None
  }

  lemma {:induction false} NatToDecimalValue(n: nat)
    ensures DigitsValue(NatToDecimal(n)) == n
    decreases n
  {
    if n >= 10 {
      NatToDecimalValue(n / 10);
      var s := NatToDecimal(n);
      assert s[..|s| - 1] == NatToDecimal(n / 10);
    }
  }

  /** A digit string as Swift writes a magnitude: at least one digit, and no leading zero except in "0". */
  predicate CanonicalDigits(d: string) {
    |d| >= 1 && AllDigits(d) && (d[0] == '0' ==> d == "0")
  }

  /** A decimal integer as Swift writes it: canonical digits, after a minus sign only when they are not "0". */
  predicate Canonical(s: string) {
    if |s| > 0 && s[0] == '-' then CanonicalDigits(s[1..]) && s[1..] != "0" else CanonicalDigits(s)
  }

  /**
   * `"\(i)"` for an integer `i`: a minus sign exactly for a negative `i`, then the digits of its
   * magnitude without leading zeros. `ParseInt` reads it back.
   */
  function IntToDecimal(i: int): (s: string)
    ensures ParseInt(s) == Some(i)
    ensures s[0] == '-' <==> i < 0
    ensures Canonical(s)
  {
    if i < 0 then
      var digits := NatToDecimal(-i);
      NatToDecimalValue(-i);
      assert ("-" + digits)[1..] == digits;
      "-" + digits
    else
      NatToDecimalValue(i);
      assert IsDigit(NatToDecimal(i)[0]);
      NatToDecimal(i)
  }

  /** A digit string whose first digit is not zero denotes a positive number. */
  lemma {:induction false} LeadingDigitPositive(d: string)
    requires |d| >= 1 && AllDigits(d) && d[0] != '0'
    ensures DigitsValue(d) > 0
    decreases |d|
  {
    if |d| > 1 {
      LeadingDigitPositive(d[..|d| - 1]);
    }
  }

  /** Canonical digits are exactly what `NatToDecimal` writes for the number they denote. */
  lemma {:induction false} CanonicalDigitsAreNatToDecimal(d: string)
    requires CanonicalDigits(d)
    ensures NatToDecimal(DigitsValue(d)) == d
    decreases |d|
  {
    if |d| > 1 {
      var prefix := d[..|d| - 1];
      assert IsDigit(d[|d| - 1]);
      LeadingDigitPositive(prefix);
      CanonicalDigitsAreNatToDecimal(prefix);
      var n := DigitsValue(d);
      var last := d[|d| - 1] as int - '0' as int;
      assert n == DigitsValue(prefix) * 10 + last;
      assert n / 10 == DigitsValue(prefix) && n % 10 == last;
      assert NatToDecimal(n) == prefix + [DigitChar(last)];
      assert d == prefix + [d[|d| - 1]];
    }
  }

  /** Each integer has one canonical decimal text, the one `IntToDecimal` writes. */
  lemma CanonicalIsIntToDecimal(t: string, i: int)
    requires Canonical(t) && ParseInt(t) == Some(i)
    ensures t == IntToDecimal(i)
  {
    if t[0] == '-' {
      var d := t[1..];
      CanonicalDigitsAreNatToDecimal(d);
      LeadingDigitPositive(d);
      assert i == 0 - DigitsValue(d) && i < 0;
      assert t == "-" + d;
    } else {
      CanonicalDigitsAreNatToDecimal(t);
    }
  }
}
