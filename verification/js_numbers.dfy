/**
 * JavaScript's `parseInt(string)` with no radix argument (section 19.2.5
 * of ECMA-262): leading white space is skipped, then an optional sign, then
 * a `0x`/`0X` prefix selects base 16; the longest run of digits that
 * follows is the value, and no digit at all is `NaN` (`None` here).
 */
module JsNumbers {
  import opened Common
  import opened Strings
  import opened Json

  /** The value of a character as a hexadecimal digit, if it is one. */
  function HexValue(c: char): Option<nat> {
    if '0' <= c <= '9' then Some(c as int - '0' as int)
    else if 'a' <= c <= 'f' then Some(c as int - 'a' as int + 10)
    else if 'A' <= c <= 'F' then Some(c as int - 'A' as int + 10)
    else None
  }

  /**
   * The value of a character as a digit of `radix` (10 or 16): in base 10
   * only `0`-`9` are digits, in base 16 also `a`-`f` and `A`-`F`, each
   * worth its place in the alphabet plus ten.
   */
  function DigitIn(c: char, radix: nat): (d: Option<nat>)
    ensures radix == 10 ==> (d.Some? <==> '0' <= c <= '9')
    ensures radix == 16 ==> (d.Some? <==> '0' <= c <= '9' || 'a' <= c <= 'f' || 'A' <= c <= 'F')
    ensures d.Some? && '0' <= c <= '9' ==> d.value == c as int - '0' as int
    ensures d.Some? && 'a' <= c <= 'f' ==> d.value == c as int - 'a' as int + 10
    ensures d.Some? && 'A' <= c <= 'F' ==> d.value == c as int - 'A' as int + 10
    ensures d.Some? ==> d.value < radix
  {
    var h := HexValue(c);
    if h.Some? && h.value < radix then h else None
  }

  predicate AllDigits(s: string, radix: nat) {
    forall k :: 0 <= k < |s| ==> DigitIn(s[k], radix).Some?
  }

  /** The length of the run of digits `s` starts with. */
  function RunLength(s: string, radix: nat): (n: nat)
    ensures n <= |s| && AllDigits(s[..n], radix)
    ensures n < |s| ==> DigitIn(s[n], radix).None?
  {
    if |s| == 0 || DigitIn(s[0], radix).None? then 0
    else
      var n := 1 + RunLength(s[1..], radix);
      assert forall k :: 1 <= k < n ==> s[..n][k] == s[1..][..n - 1][k - 1];
      n
  }

  /** The number a run of digits denotes, most significant first. */
  function DigitsValue(s: string, radix: nat): nat
    requires AllDigits(s, radix)
  {
    if |s| == 0 then 0
    else DigitsValue(s[..|s| - 1], radix) * radix + DigitIn(s[|s| - 1], radix).value
  }

  /** `parseInt(s)`; `None` is `NaN`. */
  function ParseInt(s: string): (r: Option<int>)
    ensures AllSpace(s) ==> r.None?
  {
    assert s[..0] == [];
    ParseSigned(s[SpaceBefore(s, 0)..])
  }

  /** The reading once the leading white space is gone: sign, radix prefix, digits. */
  function ParseSigned(t: string): Option<int> {
    var sign := if |t| > 0 && t[0] == '-' then -1 else 1;
    var (radix, digits) := Unsigned(t);
    var n := RunLength(digits, radix);
    if n == 0 then None else Some(sign * DigitsValue(digits[..n], radix))
  }

  lemma NoLeadingSpace(s: string)
    requires |s| > 0 && !IsJsSpace(s[0])
    ensures ParseInt(s) == ParseSigned(s)
  {
    assert s[..0] == [];
    assert SpaceBefore(s, 0) == 0;
    assert s[0..] == s;
  }

  /** After the white space: the radix, and the text after the sign and any `0x` prefix. */
  function Unsigned(t: string): (nat, string) {
    var u := if |t| > 0 && (t[0] == '-' || t[0] == '+') then t[1..] else t;
    if |u| >= 2 && u[0] == '0' && (u[1] == 'x' || u[1] == 'X') then (16, u[2..]) else (10, u)
  }

  lemma DigitCharValue(d: nat)
    requires d < 10
    ensures DigitIn(DigitChar(d), 10) == Some(d)
  {
  }

  /** A decimal numeral reads back as the number it was written from. */
  lemma {:induction false} NumeralValue(n: nat)
    ensures AllDigits(NatToString(n), 10)
    ensures DigitsValue(NatToString(n), 10) == n
  {
    var s := NatToString(n);
    forall k | 0 <= k < |s|
      ensures DigitIn(s[k], 10).Some?
    {
      assert HexValue(s[k]).Some?;
    }
    if n < 10 {
      DigitCharValue(n);
    } else {
      NumeralValue(n / 10);
      DigitCharValue(n % 10);
      assert s[..|s| - 1] == NatToString(n / 10);
    }
  }

  /** The digit run of a numeral followed by a non-digit ends with the numeral. */
  lemma {:induction false} RunOfDigits(s: string, rest: string, radix: nat)
    requires AllDigits(s, radix)
    requires rest == [] || DigitIn(rest[0], radix).None?
    ensures RunLength(s + rest, radix) == |s|
  {
    if |s| > 0 {
      assert (s + rest)[0] == s[0];
      assert (s + rest)[1..] == s[1..] + rest;
      RunOfDigits(s[1..], rest, radix);
    } else {
      assert s + rest == rest;
    }
  }

  lemma NumeralStart(n: nat)
    ensures NatToString(n)[0] == '0' ==> n == 0
    ensures n == 0 ==> NatToString(n) == "0"
  {
    if n >= 10 {
      NumeralStart(n / 10);
      assert NatToString(n)[0] == NatToString(n / 10)[0];
    }
  }

  /**
   * `parseInt` reads back what `String(n)` wrote, and stops at anything that
   * is not a digit: `"25.5"` and `"25e1"` both give 25.
   */
  lemma ParseNumeral(n: int, rest: string)
    requires rest == [] || !('0' <= rest[0] <= '9')
    requires n == 0 && rest != [] ==> rest[0] != 'x' && rest[0] != 'X'
    ensures ParseInt(IntToString(n) + rest) == Some(n)
  {
    var m := if n < 0 then -n else n;
    var s := IntToString(n) + rest;
    NoLeadingSpace(s);
    NumeralUnsigned(n, rest);
    NumeralRun(m, rest);
    assert s[0] == '-' <==> n < 0;
  }

  /** Past the sign, a numeral is read in base 10. */
  lemma NumeralUnsigned(n: int, rest: string)
    requires n == 0 && rest != [] ==> rest[0] != 'x' && rest[0] != 'X'
    ensures Unsigned(IntToString(n) + rest) == (10, NatToString(if n < 0 then -n else n) + rest)
  {
    var m := if n < 0 then -n else n;
    var t := IntToString(n) + rest;
    if n < 0 {
      assert t == "-" + (NatToString(m) + rest);
      assert t[0] == '-';
      assert t[1..] == NatToString(m) + rest;
      NumeralDecimal(m, NatToString(m) + rest);
    } else {
      assert t == NatToString(m) + rest;
      NumeralStart(m);
      assert t[0] != '-' && t[0] != '+';
      assert !(|t| >= 2 && t[0] == '0' && (t[1] == 'x' || t[1] == 'X'));
    }
  }

  /** The numeral of a positive number does not start with `0`, so it is never read as hexadecimal. */
  lemma NumeralDecimal(m: nat, u: string)
    requires m > 0
    requires |u| >= |NatToString(m)| && u[..|NatToString(m)|] == NatToString(m)
    ensures !(|u| >= 2 && u[0] == '0' && (u[1] == 'x' || u[1] == 'X'))
  {
    NumeralStart(m);
    assert u[0] == NatToString(m)[0];
  }

  /** The digit run of a numeral and what follows is the numeral, and it denotes its number. */
  lemma NumeralRun(m: nat, rest: string)
    requires rest == [] || !('0' <= rest[0] <= '9')
    ensures RunLength(NatToString(m) + rest, 10) == |NatToString(m)|
    ensures (NatToString(m) + rest)[..|NatToString(m)|] == NatToString(m)
    ensures DigitsValue(NatToString(m), 10) == m
  {
    NumeralValue(m);
    RunOfDigits(NatToString(m), rest, 10);
  }

  /** No digit after the white space and sign is `NaN`: the empty field gives `NaN`. */
  lemma EmptyIsNaN()
    ensures ParseInt("") == None
    ensures ParseInt("  ") == None
    ensures ParseInt("-") == None
  {
    assert AllSpace("  ");
  }
}
