/**
 * The string handling the light service relies on: ASCII case mapping
 * (Python's `str.upper` / `str.lower` on ASCII text), removal of one
 * character (`str.replace(c, '')`), the `{:02X}` hex format used for
 * brightness, the decimal rendering used in summary messages, and
 * Python's `int(str)` for decimal text.
 */
module Text {
  import opened Wrappers

  // ---------------------------------------------------------------------
  // Case mapping (ASCII letters only)

  function UpperChar(c: char): char {
    if 'a' <= c <= 'z' then (c as int - 'a' as int + 'A' as int) as char else c
  }

  function LowerChar(c: char): char {
    if 'A' <= c <= 'Z' then (c as int - 'A' as int + 'a' as int) as char else c
  }

  function Upper(s: string): string {
    seq(|s|, i requires 0 <= i < |s| => UpperChar(s[i]))
  }

  function Lower(s: string): string {
    seq(|s|, i requires 0 <= i < |s| => LowerChar(s[i]))
  }

  /** Upper-casing matches exactly the case variants of a word: here "ON". */
  lemma UpperIsOn(s: string)
    ensures Upper(s) == "ON" <==> s in {"on", "oN", "On", "ON"}
  {
    if Upper(s) == "ON" {
      assert |s| == 2;
      assert Upper(s)[0] == UpperChar(s[0]) == 'O';
      assert Upper(s)[1] == UpperChar(s[1]) == 'N';
      assert s[0] in {'o', 'O'} && s[1] in {'n', 'N'};
      assert s == [s[0], s[1]];
    }
  }

  /** Upper-casing matches exactly the case variants of a word: here "OFF". */
  lemma UpperIsOff(s: string)
    ensures Upper(s) == "OFF" <==> s in {"off", "ofF", "oFf", "oFF", "Off", "OfF", "OFf", "OFF"}
  {
    if Upper(s) == "OFF" {
      assert |s| == 3;
      assert Upper(s)[0] == UpperChar(s[0]) == 'O';
      assert Upper(s)[1] == UpperChar(s[1]) == 'F';
      assert Upper(s)[2] == UpperChar(s[2]) == 'F';
      assert s[0] in {'o', 'O'} && s[1] in {'f', 'F'} && s[2] in {'f', 'F'};
      assert s == [s[0], s[1], s[2]];
    }
  }

  // ---------------------------------------------------------------------
  // Character removal

  /** `s.replace(c, '')`: `s` with every occurrence of `c` dropped, order kept. */
  function RemoveAll(s: string, c: char): (r: string)
    ensures c !in r
    ensures multiset(r) == multiset(s)[c := 0]
    ensures |r| <= |s|
  {
    if s == [] then []
    else
      assert s == [s[0]] + s[1..];
      (if s[0] == c then [] else [s[0]]) + RemoveAll(s[1..], c)
  }

  /** Removing a character the string does not contain changes nothing. */
  lemma {:induction false} RemoveAllAbsent(s: string, c: char)
    requires c !in s
    ensures RemoveAll(s, c) == s
  {
    if s != [] {
      assert s[0] != c && c !in s[1..];
      RemoveAllAbsent(s[1..], c);
      assert s == [s[0]] + s[1..];
    }
  }

  /** Removal works character by character, so the kept characters keep their order. */
  lemma {:induction false} RemoveAllAppend(a: string, b: string, c: char)
    ensures RemoveAll(a + b, c) == RemoveAll(a, c) + RemoveAll(b, c)
  {
    if a == [] {
      assert a + b == b;
    } else {
      var head := if a[0] == c then [] else [a[0]];
      assert (a + b)[0] == a[0] && (a + b)[1..] == a[1..] + b;
      assert RemoveAll(a + b, c) == head + RemoveAll(a[1..] + b, c);
      RemoveAllAppend(a[1..], b, c);
      ConcatAssoc(head, RemoveAll(a[1..], c), RemoveAll(b, c));
    }
  }

  lemma ConcatAssoc<T>(x: seq<T>, y: seq<T>, z: seq<T>)
    ensures x + (y + z) == (x + y) + z
  {
  }

  // ---------------------------------------------------------------------
  // Hexadecimal

  function HexDigit(d: nat): char
    requires d < 16
  {
    if d < 10 then ('0' as int + d) as char else ('A' as int + d - 10) as char
  }

  predicate IsUpperHexDigit(c: char) {
    '0' <= c <= '9' || 'A' <= c <= 'F'
  }

  function HexDigitValue(c: char): nat
    requires IsUpperHexDigit(c)
  {
    if '0' <= c <= '9' then c as int - '0' as int else c as int - 'A' as int + 10
  }

  predicate IsUpperHex(s: string) {
    forall i :: 0 <= i < |s| ==> IsUpperHexDigit(s[i])
  }

  /** The value of a string of upper-case hex digits, most significant first. */
  function HexValue(s: string): nat
    requires IsUpperHex(s)
  {
    if s == [] then 0 else HexValue(s[..|s| - 1]) * 16 + HexDigitValue(s[|s| - 1])
  }

  /** The shortest upper-case hex rendering of `n` (what `{:X}` prints). */
  function HexDigits(n: nat): (r: string)
    ensures |r| >= 1 && IsUpperHex(r)
    ensures n < 16 <==> |r| == 1
    ensures 16 <= n < 256 <==> |r| == 2
    ensures r[0] != '0' || n == 0
    ensures HexValue(r) == n
  {
    if n < 16 then [HexDigit(n)]
    else
      var r := HexDigits(n / 16) + [HexDigit(n % 16)];
      assert r[..|r| - 1] == HexDigits(n / 16);
      r
  }

  /**
   * Python's `f"{n:02X}"`: upper-case hex, zero-padded to two characters;
   * a negative number is written with a leading '-' and counts it in the width.
   */
  function Format02X(n: int): (r: string)
    ensures |r| >= 2
    ensures r[0] == '-' <==> n < 0
    ensures 0 <= n < 256 ==> |r| == 2
  {
    if n < 0 then "-" + HexDigits(-n)
    else if n < 16 then "0" + HexDigits(n)
    else HexDigits(n)
  }

  /** On a byte value the format gives exactly two upper-case hex digits encoding it. */
  lemma Format02XByte(n: int)
    requires 0 <= n < 256
    ensures Format02X(n) == [HexDigit(n / 16), HexDigit(n % 16)]
    ensures IsUpperHex(Format02X(n)) && HexValue(Format02X(n)) == n
  {
    if n >= 16 {
      assert HexDigits(n / 16) == [HexDigit(n / 16)];
    } else {
      var r := Format02X(n);
      assert r[..1] == "0";
    }
  }

  /** Every non-negative number round-trips through the format and the hex parser. */
  lemma Format02XRoundTrip(n: nat)
    ensures IsUpperHex(Format02X(n)) && HexValue(Format02X(n)) == n
    ensures |Format02X(n)| >= 2
  {
    if n < 16 {
      Format02XByte(n);
    }
  }

  // ---------------------------------------------------------------------
  // Decimal

  function DigitChar(d: nat): char
    requires d < 10
  {
    ('0' as int + d) as char
  }

  predicate IsDigit(c: char) {
    '0' <= c <= '9'
  }

  predicate IsDigits(s: string) {
    |s| > 0 && forall i :: 0 <= i < |s| ==> IsDigit(s[i])
  }

  function DigitsValue(s: string): nat
    requires forall i :: 0 <= i < |s| ==> IsDigit(s[i])
  {
    if s == [] then 0
    else
      assert IsDigit(s[|s| - 1]);
      DigitsValue(s[..|s| - 1]) * 10 + (s[|s| - 1] as int - '0' as int)
  }

  /** The decimal rendering of `n` (what `str(n)` and an f-string print). */
  function DecimalString(n: nat): (r: string)
    ensures IsDigits(r)
    ensures r[0] != '0' || n == 0
  {
    if n < 10 then [DigitChar(n)] else DecimalString(n / 10) + [DigitChar(n % 10)]
  }

  /**
   * Python's `int(s)` on a string: an optional '+' or '-' followed by decimal
   * digits; anything else makes `int` raise, which is `None` here.
   */
  function ParseInt(s: string): (r: Option<int>)
    ensures r.Some? <==> IsDigits(s) || (|s| > 0 && (s[0] == '+' || s[0] == '-') && IsDigits(s[1..]))
    ensures r.Some? && s[0] != '-' ==> r.value >= 0
    ensures IsDigits(s) ==> r == Some(DigitsValue(s))
    ensures |s| > 0 && s[0] == '+' && IsDigits(s[1..]) ==> r == Some(DigitsValue(s[1..]))
    ensures |s| > 0 && s[0] == '-' && IsDigits(s[1..]) ==> r.Some? && r.value == -(DigitsValue(s[1..]) as int)
  {
    if |s| > 0 && (s[0] == '+' || s[0] == '-') then
      if IsDigits(s[1..]) then
        var v: int := DigitsValue(s[1..]);
        Some(if s[0] == '-' then -v else v)
      else None
    else if IsDigits(s) then Some(DigitsValue(s))
    else None
  }

  /** Decimal rendering and parsing are inverse on the naturals. */
  lemma {:induction false} DecimalRoundTrip(n: nat)
    ensures ParseInt(DecimalString(n)) == Some(n)
    ensures DigitsValue(DecimalString(n)) == n
  {
    var r := DecimalString(n);
    if n >= 10 {
      DecimalRoundTrip(n / 10);
      assert r[..|r| - 1] == DecimalString(n / 10);
      assert DigitsValue(r) == DigitsValue(DecimalString(n / 10)) * 10 + n % 10;
    } else {
      assert r[..0] == [];
    }
    assert IsDigit(r[0]) && r[0] != '+' && r[0] != '-';
    assert ParseInt(r) == Some(DigitsValue(r));
  }

  /**
   * Reading a two-digit hex byte back as decimal text: the parse succeeds only
   * when both hex digits are decimal digits, and then yields the digits read in
   * base ten, not the byte's value.
   */
  lemma HexByteReadAsDecimal(n: int)
    requires 0 <= n < 256
    ensures ParseInt(Format02X(n)) ==
              if n / 16 < 10 && n % 16 < 10 then Some(10 * (n / 16) + n % 16) else None
  {
    Format02XByte(n);
    var s := Format02X(n);
    if n / 16 < 10 && n % 16 < 10 {
      assert s[0] as int - '0' as int == n / 16 && s[1] as int - '0' as int == n % 16;
      assert IsDigits(s) && s[0] != '+' && s[0] != '-';
      assert s[..1] == [s[0]] && s[..1][..0] == [];
      assert DigitsValue(s[..1]) == n / 16;
      assert DigitsValue(s) == 10 * (n / 16) + n % 16;
    } else if n / 16 >= 10 {
      assert !IsDigit(s[0]);
    } else {
      assert !IsDigit(s[1]);
    }
  }

  // ---------------------------------------------------------------------
  // Splitting text at a separator

  /** No separator that is not a digit occurs in a string of digits. */
  lemma NotInDigits(s: string, sep: char)
    requires IsDigits(s) && !IsDigit(sep)
    ensures sep !in s
  {
    forall i | 0 <= i < |s| ensures s[i] != sep {
      assert IsDigit(s[i]);
    }
  }

  /** The text before the first `sep`, all of it when there is none. */
  function TextBefore(s: string, sep: char): string {
    if s == [] || s[0] == sep then [] else [s[0]] + TextBefore(s[1..], sep)
  }

  /** The text after the first `sep`, empty when there is none. */
  function TextAfter(s: string, sep: char): string {
    if s == [] then [] else if s[0] == sep then s[1..] else TextAfter(s[1..], sep)
  }

  /** Joining at a separator the left part does not contain is undone by splitting at it. */
  lemma {:induction false} SplitOn(x: string, y: string, sep: char)
    requires sep !in x
    ensures TextBefore(x + ([sep] + y), sep) == x
    ensures TextAfter(x + ([sep] + y), sep) == y
  {
    var m := x + ([sep] + y);
    if x == [] {
      assert m == [sep] + y && m[0] == sep && m[1..] == y;
    } else {
      assert x[0] in x;
      assert m[0] == x[0] && m[1..] == x[1..] + ([sep] + y);
      assert x == [x[0]] + x[1..];
      SplitOn(x[1..], y, sep);
    }
  }
}
