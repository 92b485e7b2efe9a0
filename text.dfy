/** The string operations the storefront relies on: ASCII case mapping
    (`toLowerCase`/`toUpperCase`), `startsWith`/`includes`, keeping the digits
    of a phone number, printing and parsing decimal integers
    (`toString`/`Number`), the UTF-16 code units of a string (what `charCodeAt`
    and the default `sort` see) and the order on them. */
module Text {
  import opened Wrappers
  import opened Seqs

  predicate IsDigit(c: char) { '0' <= c <= '9' }

  predicate AllDigits(s: string) { forall i :: 0 <= i < |s| ==> IsDigit(s[i]) }

  // ---------------------------------------------------------------------
  // Case mapping (ASCII letters only).

  function LowerChar(c: char): char {
    if 'A' <= c <= 'Z' then (c as int + 32) as char else c
  }

  function UpperChar(c: char): char {
    if 'a' <= c <= 'z' then (c as int - 32) as char else c
  }

  /** `s.toLowerCase()` on ASCII letters. */
  function LowerAscii(s: string): (r: string)
    ensures |r| == |s|
    ensures forall i :: 0 <= i < |s| ==> r[i] == LowerChar(s[i])
  {
    Map(s, LowerChar)
  }

  /** `s.toUpperCase()` on ASCII letters. */
  function UpperAscii(s: string): (r: string)
    ensures |r| == |s|
    ensures forall i :: 0 <= i < |s| ==> r[i] == UpperChar(s[i])
  {
    Map(s, UpperChar)
  }

  /** Upper-casing twice is upper-casing once. */
  lemma UpperAsciiIdempotent(s: string)
    ensures UpperAscii(UpperAscii(s)) == UpperAscii(s)
  {
  }

  /** Lower-casing forgets whether the letters were upper-cased first. */
  lemma LowerUpperAscii(s: string)
    ensures LowerAscii(UpperAscii(s)) == LowerAscii(s)
  {
    forall i | 0 <= i < |s| ensures LowerChar(UpperChar(s[i])) == LowerChar(s[i]) {
    }
  }

  // ---------------------------------------------------------------------
  // Substrings.

  /** `s.startsWith(prefix)`. */
  predicate StartsWith(s: string, prefix: string) {
    prefix <= s
  }

  /** `sub` occurs in `s` starting at position `i`. */
  predicate OccursAt(s: string, sub: string, i: int) {
    0 <= i && i + |sub| <= |s| && s[i..i + |sub|] == sub
  }

  /** `s.includes(sub)`: `sub` occurs at some position of `s`. */
  predicate Contains(s: string, sub: string)
    ensures Contains(s, sub) <==> exists i :: OccursAt(s, sub, i)
  {
    if sub <= s then
      assert OccursAt(s, sub, 0);
      true
    else if s == [] then
      assert forall i :: !OccursAt(s, sub, i);
      false
    else
      var r := Contains(s[1..], sub);
      assert r ==> exists i :: OccursAt(s, sub, i) by {
        if r {
          var i :| OccursAt(s[1..], sub, i);
          assert s[1..][i..i + |sub|] == s[i + 1..i + 1 + |sub|];
          assert OccursAt(s, sub, i + 1);
        }
      }
      assert (exists i :: OccursAt(s, sub, i)) ==> r by {
        if exists i :: OccursAt(s, sub, i) {
          var i :| OccursAt(s, sub, i);
          assert i > 0;
          assert s[1..][i - 1..i - 1 + |sub|] == s[i..i + |sub|];
          assert OccursAt(s[1..], sub, i - 1);
        }
      }
      r
  }

  /** Every string contains the empty string (`"".includes` is always true). */
  lemma ContainsEmpty(s: string)
    ensures Contains(s, "")
  {
    assert OccursAt(s, "", 0);
  }

  /** `s.replace(/[^0-9]/g, '')`: the decimal digits of `s`, in order. */
  function DigitsOnly(s: string): (r: string)
    ensures AllDigits(r)
    ensures |r| <= |s|
  {
    Filter(s, IsDigit)
  }

  /** The digits of a concatenation are the digits of its parts, in order. */
  lemma DigitsOnlyAppend(a: string, b: string)
    ensures DigitsOnly(a + b) == DigitsOnly(a) + DigitsOnly(b)
  {
    FilterAppend(a, b, IsDigit);
  }

  /** A character that is not a digit contributes nothing. */
  lemma DigitsOnlyNonDigit(c: char)
    requires !IsDigit(c)
    ensures DigitsOnly([c]) == []
  {
    assert [c][1..] == [];
  }

  /** A string of digits is its own digit string. */
  lemma DigitsOnlyKeepsDigits(s: string)
    requires AllDigits(s)
    ensures DigitsOnly(s) == s
  {
    FilterKeepsAll(s, IsDigit);
  }

  // ---------------------------------------------------------------------
  // Decimal integers.

  function DigitChar(d: nat): (c: char)
    requires d < 10
    ensures IsDigit(c)
  {
    ('0' as int + d) as char
  }

  function DigitValue(c: char): nat
    requires IsDigit(c)
  {
    c as int - '0' as int
  }

  function Pow10(k: nat): (r: nat)
    ensures r >= 1
  {
    if k == 0 then 1 else 10 * Pow10(k - 1)
  }

  /** The value of a string of decimal digits (leading zeros allowed). */
  function DigitsValue(s: string): nat
    requires AllDigits(s)
  {
    if s == [] then 0 else 10 * DigitsValue(s[..|s| - 1]) + DigitValue(s[|s| - 1])
  }

  /** `n.toString()` for a non-negative integer: no leading zero except for 0 itself. */
  function NatToDecimal(n: nat): (r: string)
    ensures |r| >= 1
    ensures AllDigits(r)
    ensures r[0] == '0' ==> n == 0 && |r| == 1
  {
    if n < 10 then [DigitChar(n)] else NatToDecimal(n / 10) + [DigitChar(n % 10)]
  }

  /** `i.toString()` for an integer. */
  function IntToDecimal(i: int): (r: string)
    ensures |r| >= 1
    ensures i < 0 <==> r[0] == '-'
    ensures i < 0 ==> r[1..] == NatToDecimal(-i)
    ensures i >= 0 ==> r == NatToDecimal(i)
  {
    if i < 0 then "-" + NatToDecimal(-i) else NatToDecimal(i)
  }

  /** Printing then reading back a number gives the number. */
  lemma {:induction false} DecimalRoundTrip(n: nat)
    ensures DigitsValue(NatToDecimal(n)) == n
  {
    if n >= 10 {
      DecimalRoundTrip(n / 10);
      var r := NatToDecimal(n);
      assert r[..|r| - 1] == NatToDecimal(n / 10);
    }
  }

  /** Reading a concatenation of digit strings shifts the first part left. */
  lemma {:induction false} DigitsValueAppend(a: string, b: string)
    requires AllDigits(a) && AllDigits(b)
    ensures AllDigits(a + b)
    ensures DigitsValue(a + b) == DigitsValue(a) * Pow10(|b|) + DigitsValue(b)
  {
    if b == [] {
      assert a + b == a;
    } else {
      var b' := b[..|b| - 1];
      var d := DigitValue(b[|b| - 1]);
      assert (a + b)[..|a + b| - 1] == a + b';
      assert (a + b)[|a + b| - 1] == b[|b| - 1];
      DigitsValueAppend(a, b');
      var x, p, y := DigitsValue(a), Pow10(|b'|), DigitsValue(b');
      assert DigitsValue(a + b) == 10 * DigitsValue(a + b') + d;
      assert Pow10(|b|) == 10 * p;
      assert DigitsValue(b) == 10 * y + d;
      ShiftOneDigit(x, p, y, d);
    }
  }

  /** One more digit on the right: `x` shifted by `p` places, then by one more. */
  lemma ShiftOneDigit(x: int, p: int, y: int, d: int)
    ensures 10 * (x * p + y) + d == x * (10 * p) + (10 * y + d)
  {
  }

  /** `Number(s)` for the strings it reads as an integer here: an optional minus
      sign followed by one or more decimal digits. `None` stands for `NaN`. */
  function ParseSigned(s: string): Option<int>
  {
    if |s| >= 2 && s[0] == '-' && AllDigits(s[1..]) then Some(-(DigitsValue(s[1..]) as int))
    else if |s| >= 1 && AllDigits(s) then Some(DigitsValue(s))
    else None
  }

  /** Digits written after a number's decimal form are read as the number
      shifted left by that many places plus the digits. */
  lemma ParseNatThenDigits(n: nat, t: string)
    requires AllDigits(t)
    ensures AllDigits(NatToDecimal(n) + t)
    ensures DigitsValue(NatToDecimal(n) + t) == n * Pow10(|t|) + DigitsValue(t)
  {
    DigitsValueAppend(NatToDecimal(n), t);
    DecimalRoundTrip(n);
  }

  /** A digit string is read as its value. */
  lemma ParseSignedDigits(s: string)
    requires |s| >= 1 && AllDigits(s)
    ensures ParseSigned(s) == Some(DigitsValue(s) as int)
  {
    assert IsDigit(s[0]);
  }

  /** A minus sign followed by a digit string is read as minus its value. */
  lemma ParseSignedMinus(s: string)
    requires |s| >= 2 && s[0] == '-' && AllDigits(s[1..])
    ensures ParseSigned(s) == Some(-(DigitsValue(s[1..]) as int))
  {
  }

  /** One digit written after a number's decimal form is read as ten times
      the number plus that digit. */
  lemma ParseNatThenDigit(n: nat, c: char)
    requires IsDigit(c)
    ensures AllDigits(NatToDecimal(n) + [c])
    ensures DigitsValue(NatToDecimal(n) + [c]) == 10 * n + DigitValue(c)
  {
    var m := NatToDecimal(n);
    assert (m + [c])[..|m|] == m;
    DecimalRoundTrip(n);
  }

  lemma AllDigitsConcat(a: string, b: string)
    requires AllDigits(a) && AllDigits(b)
    ensures AllDigits(a + b)
  {
  }

  /** Digits written after a negative number's decimal form are read as minus
      the digits of its magnitude followed by them. */
  lemma ParseNegThenDigits(n: nat, t: string)
    requires n > 0 && AllDigits(t)
    ensures AllDigits(NatToDecimal(n) + t)
    ensures ParseSigned(IntToDecimal(-(n as int)) + t) == Some(-(DigitsValue(NatToDecimal(n) + t) as int))
  {
    var m := NatToDecimal(n);
    assert IntToDecimal(-(n as int)) == "-" + m;
    var s := "-" + (m + t);
    assert IntToDecimal(-(n as int)) + t == s;
    AllDigitsConcat(m, t);
    assert s[0] == '-' && s[1..] == m + t;
    ParseSignedMinus(s);
  }

  /** Digits written after a non-negative number's decimal form are read
      together with it as one digit string. */
  lemma ParsePosThenDigits(n: nat, t: string)
    requires AllDigits(t)
    ensures AllDigits(NatToDecimal(n) + t)
    ensures ParseSigned(IntToDecimal(n) + t) == Some(DigitsValue(NatToDecimal(n) + t) as int)
  {
    AllDigitsConcat(NatToDecimal(n), t);
    ParseSignedDigits(NatToDecimal(n) + t);
  }

  /** `Number(i.toString())` is `i`. */
  lemma IntDecimalRoundTrip(i: int)
    ensures ParseSigned(IntToDecimal(i)) == Some(i)
  {
    var s := IntToDecimal(i);
    if i < 0 {
      var m := NatToDecimal(-i);
      DecimalRoundTrip(-i);
      assert s[1..] == m && |s| >= 2 && s[0] == '-';
      assert ParseSigned(s) == Some(-(DigitsValue(m) as int));
    } else {
      DecimalRoundTrip(i);
      assert IsDigit(s[0]);
      assert ParseSigned(s) == Some(DigitsValue(s));
    }
  }

  // ---------------------------------------------------------------------
  // UTF-16 code units and their order.

  type CodeUnit = x: int | 0 <= x < 0x10000

  /** The UTF-16 encoding of one character: itself below U+10000, a surrogate
      pair above. */
  function CharUnits(c: char): (r: seq<CodeUnit>)
    ensures 1 <= |r| <= 2
  {
    var v := c as int;
    if v < 0x10000 then [v]
    else [0xD800 + (v - 0x10000) / 0x400, 0xDC00 + (v - 0x10000) % 0x400]
  }

  /** What `charCodeAt` walks over: the UTF-16 code units of `s`. */
  function Utf16(s: string): (r: seq<CodeUnit>)
    ensures |s| <= |r| <= 2 * |s|
  {
    if s == [] then [] else Utf16(s[..|s| - 1]) + CharUnits(s[|s| - 1])
  }

  /** A string of characters below U+10000 is one code unit per character. */
  lemma {:induction false} Utf16Bmp(s: string)
    requires forall i :: 0 <= i < |s| ==> (s[i] as int) < 0x10000
    ensures |Utf16(s)| == |s|
    ensures forall i :: 0 <= i < |s| ==> Utf16(s)[i] == s[i] as int
  {
    if s != [] {
      Utf16Bmp(s[..|s| - 1]);
    }
  }

  /** Two characters below U+10000 are two code units. */
  lemma Utf16Pair(a: char, b: char)
    requires (a as int) < 0x10000 && (b as int) < 0x10000
    ensures Utf16([a, b]) == [a as int, b as int]
  {
    assert [a, b][..1] == [a];
    assert [a][..0] == [];
  }

  /** Lexicographic order on code-unit sequences: a prefix comes first. */
  predicate LexLeq(a: seq<int>, b: seq<int>) {
    if a == [] then true
    else if b == [] then false
    else if a[0] != b[0] then a[0] < b[0]
    else LexLeq(a[1..], b[1..])
  }

  lemma {:induction false} LexLeqTotal(a: seq<int>, b: seq<int>)
    ensures LexLeq(a, b) || LexLeq(b, a)
  {
    if a != [] && b != [] && a[0] == b[0] {
      LexLeqTotal(a[1..], b[1..]);
    }
  }

  lemma {:induction false} LexLeqTransitive(a: seq<int>, b: seq<int>, c: seq<int>)
    requires LexLeq(a, b) && LexLeq(b, c)
    ensures LexLeq(a, c)
  {
    if a != [] && b != [] && c != [] && a[0] == b[0] && b[0] == c[0] {
      LexLeqTransitive(a[1..], b[1..], c[1..]);
    }
  }

  lemma {:induction false} LexLeqAntisymmetric(a: seq<int>, b: seq<int>)
    requires LexLeq(a, b) && LexLeq(b, a)
    ensures a == b
  {
    if a != [] && b != [] {
      LexLeqAntisymmetric(a[1..], b[1..]);
      assert a == [a[0]] + a[1..] && b == [b[0]] + b[1..];
    }
  }

  /** The default string order of `sort()` (and, here, of `localeCompare`):
      compare the UTF-16 code units. */
  predicate StringLeq(a: string, b: string) {
    LexLeq(Utf16(a), Utf16(b))
  }

  lemma StringLeqTotalPreorder()
    ensures TotalPreorder(StringLeq)
  {
    forall a, b ensures StringLeq(a, b) || StringLeq(b, a) {
      LexLeqTotal(Utf16(a), Utf16(b));
    }
    forall a, b, c | StringLeq(a, b) && StringLeq(b, c) ensures StringLeq(a, c) {
      LexLeqTransitive(Utf16(a), Utf16(b), Utf16(c));
    }
  }
}
