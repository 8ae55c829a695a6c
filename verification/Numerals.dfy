/** Printing and parsing of unsigned 64-bit quantities: decimal in cache keys,
    `0x`-prefixed hexadecimal on the wire. */
module Numerals {
  import opened Wrappers

  const U64_LIMIT: nat := 0x1_0000_0000_0000_0000
  const DIGITS: string := "0123456789abcdef"

  /** The shortest lower-case numeral for n. */
  function Print(n: nat, base: nat): string
    requires base == 10 || base == 16
  {
    if n < base then [DIGITS[n]] else Print(n / base, base) + [DIGITS[n % base]]
  }

  /** The quantity format of the Ethereum JSON-RPC interface. */
  function Hex(n: nat): string {
    "0x" + Print(n, 16)
  }

  /** The value of a digit; upper case is accepted too. */
  function DigitValue(c: char, base: nat): Option<nat> {
    var v :=
      if '0' <= c <= '9' then c as int - '0' as int
      else if 'a' <= c <= 'z' then 10 + c as int - 'a' as int
      else if 'A' <= c <= 'Z' then 10 + c as int - 'A' as int
      else base;
    if v < base then Some(v) else None
  }

  /** The value of a string of digits, unless one of them is not a digit. */
  function ValueOf(s: string, base: nat): Option<nat> {
    if s == "" then Some(0)
    else
      match (ValueOf(s[..|s| - 1], base), DigitValue(s[|s| - 1], base))
      case (Some(high), Some(low)) => Some(high * base + low)
      case _ => None
  }

  /** Parses an unsigned 64-bit number: an optional plus sign, then at least one digit;
      a value that does not fit is an error. */
  function ParseU64(s: string, base: nat): Option<nat> {
    var digits := if s != "" && s[0] == '+' then s[1..] else s;
    if digits == "" then None
    else
      match ValueOf(digits, base)
      case Some(v) => if v < U64_LIMIT then Some(v) else None
      case None => None
  }

  /** Drops every leading `0x`, not just the first. */
  function TrimHexPrefixes(s: string): string {
    if |s| >= 2 && s[0] == '0' && s[1] == 'x' then TrimHexPrefixes(s[2..]) else s
  }

  /** How every block number that an upstream reports is read. */
  function ParseQuantity(s: string): Option<nat> {
    ParseU64(TrimHexPrefixes(s), 16)
  }

  predicate IsLowerDigit(c: char) {
    '0' <= c <= '9' || 'a' <= c <= 'f'
  }

  // ---------- printing is undone by parsing ----------

  lemma DigitsAreLower(d: nat)
    requires d < |DIGITS|
    ensures IsLowerDigit(DIGITS[d])
  {
  }

  lemma {:induction false} PrintIsDigits(n: nat, base: nat)
    requires base == 10 || base == 16
    ensures Print(n, base) != ""
    ensures forall i :: 0 <= i < |Print(n, base)| ==> IsLowerDigit(Print(n, base)[i])
  {
    if n < base {
      DigitsAreLower(n);
    } else {
      DigitsAreLower(n % base);
      PrintIsDigits(n / base, base);
    }
  }

  lemma DigitThenValue(d: nat, base: nat)
    requires d < base <= 16
    ensures DigitValue(DIGITS[d], base) == Some(d)
  {
    assert d < 10 ==> DIGITS[d] == '0' + d as char;
    assert d >= 10 ==> DIGITS[d] == 'a' + (d - 10) as char;
  }

  lemma SnocThenValue(s: string, high: nat, d: nat, base: nat)
    requires d < base <= 16 && ValueOf(s, base) == Some(high)
    ensures ValueOf(s + [DIGITS[d]], base) == Some(high * base + d)
  {
    var t := s + [DIGITS[d]];
    assert t[..|t| - 1] == s && t[|t| - 1] == DIGITS[d];
    DigitThenValue(d, base);
  }

  lemma LastDigit(n: nat, base: nat)
    requires base == 10 || base == 16
    ensures n % base < base && n / base * base + n % base == n
  {
  }

  lemma {:induction false} PrintThenValue(n: nat, base: nat)
    requires base == 10 || base == 16
    ensures ValueOf(Print(n, base), base) == Some(n)
  {
    LastDigit(n, base);
    if n < base {
      SnocThenValue("", 0, n, base);
      assert "" + [DIGITS[n]] == [DIGITS[n]];
    } else {
      var high, d := n / base, n % base;
      PrintThenValue(high, base);
      SnocThenValue(Print(high, base), high, d, base);
      assert Print(n, base) == Print(high, base) + [DIGITS[d]];
    }
  }

  lemma PrintInjective(m: nat, n: nat, base: nat)
    requires base == 10 || base == 16
    requires Print(m, base) == Print(n, base)
    ensures m == n
  {
    PrintThenValue(m, base);
    PrintThenValue(n, base);
  }

  lemma TrimHexPrefix(digits: string)
    requires forall i :: 0 <= i < |digits| ==> IsLowerDigit(digits[i])
    ensures TrimHexPrefixes(digits) == digits && TrimHexPrefixes("0x" + digits) == digits
  {
    assert ("0x" + digits)[2..] == digits;
  }

  lemma ParseDigits(digits: string, base: nat, n: nat)
    requires digits != "" && IsLowerDigit(digits[0]) && ValueOf(digits, base) == Some(n) && n < U64_LIMIT
    ensures ParseU64(digits, base) == Some(n)
  {
  }

  /** A printed number parses back to itself, with or without the `0x`. */
  lemma HexRoundTrip(n: nat)
    requires n < U64_LIMIT
    ensures ParseQuantity(Hex(n)) == Some(n)
    ensures ParseQuantity(Print(n, 16)) == Some(n)
  {
    var digits := Print(n, 16);
    PrintIsDigits(n, 16);
    PrintThenValue(n, 16);
    TrimHexPrefix(digits);
    ParseDigits(digits, 16, n);
  }

  lemma PlusIsRead(digits: string, n: nat)
    requires digits != "" && (forall i :: 0 <= i < |digits| ==> IsLowerDigit(digits[i])) && ValueOf(digits, 16) == Some(n)
    ensures ParseU64("+" + digits, 16) == if n < U64_LIMIT then Some(n) else None
    ensures TrimHexPrefixes("+" + digits) == "+" + digits
  {
    assert ("+" + digits)[1..] == digits;
  }

  lemma PrefixIsDropped(s: string)
    ensures TrimHexPrefixes("0x" + s) == TrimHexPrefixes(s)
  {
    assert ("0x" + s)[2..] == s;
  }

  lemma TooLarge(digits: string, n: nat)
    requires digits != "" && IsLowerDigit(digits[0]) && ValueOf(digits, 16) == Some(n) && n >= U64_LIMIT
    ensures ParseU64(digits, 16) == None
  {
  }

  /** What else is read: any number of prefixes may come first, and of the digits a plus sign; no digits
      at all, and a number that does not fit into 64 bits, are errors. */
  lemma QuantityLaws(s: string, n: nat)
    ensures ParseQuantity("0x" + s) == ParseQuantity(s)
    ensures ParseQuantity("+" + Print(n, 16)) == if n < U64_LIMIT then Some(n) else None
    ensures n >= U64_LIMIT ==> ParseQuantity(Hex(n)) == None
    ensures ParseQuantity("") == None
  {
    var digits := Print(n, 16);
    PrintIsDigits(n, 16);
    PrintThenValue(n, 16);
    PrefixIsDropped(s);
    PlusIsRead(digits, n);
    TrimHexPrefix(digits);
    if n >= U64_LIMIT {
      TooLarge(digits, n);
    }
  }
}
