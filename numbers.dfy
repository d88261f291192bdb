/**
 * Integers as text: the decimal text of an integer, and `parseInt(s)` and `parseInt(s, 10)`,
 * which skip leading white space, read an optional sign (and, without a radix, a `0x`
 * prefix), and then take the longest run of digits; no digit at all gives `NaN`, shown
 * here as `None`.
 */
module Numbers {
  import opened Wrappers
  import opened Strings

  /** The radix argument of `parseInt`: none given, or 10. */
  datatype Radix = NoRadix | Ten

  predicate IsDecimal(c: char) {
    '0' <= c <= '9'
  }

  predicate IsHex(c: char) {
    IsDecimal(c) || 'a' <= c <= 'f' || 'A' <= c <= 'F'
  }

  /** A digit of the radix (10, or 16 after a `0x` prefix). */
  predicate IsDigitIn(c: char, hex: bool) {
    if hex then IsHex(c) else IsDecimal(c)
  }

  function DigitValue(c: char): nat {
    if IsDecimal(c) then c as int - '0' as int
    else if 'a' <= c <= 'f' then c as int - 'a' as int + 10
    else if 'A' <= c <= 'F' then c as int - 'A' as int + 10
    else 0
  }

  /** The longest prefix of `s` made of digits of the radix. */
  function DigitRun(s: string, hex: bool): (r: string)
    ensures |r| <= |s| && r == s[..|r|]
    ensures forall i :: 0 <= i < |r| ==> IsDigitIn(r[i], hex)
    ensures |r| < |s| ==> !IsDigitIn(s[|r|], hex)
  {
    if s == [] || !IsDigitIn(s[0], hex) then []
    else [s[0]] + DigitRun(s[1..], hex)
  }

  /** The value of a run of digits, most significant first. */
  function ValueOf(ds: string, hex: bool): nat {
    if ds == [] then 0
    else ValueOf(ds[..|ds| - 1], hex) * (if hex then 16 else 10) + DigitValue(ds[|ds| - 1])
  }

  /**
   * What `parseInt` reads after the sign: without a radix, a `0x` or `0X` prefix switches
   * to hexadecimal; then the longest run of digits is read; no digit gives `None`.
   */
  function ReadMagnitude(u: string, radix: Radix): (r: Option<nat>)
    ensures u == [] ==> r.None?
    ensures u != [] && !IsDecimal(u[0]) ==> r.None?
  {
    var hex := radix == NoRadix && |u| >= 2 && u[0] == '0' && (u[1] == 'x' || u[1] == 'X');
    var z := DigitRun(if hex then u[2..] else u, hex);
    if z == [] then None else Some(ValueOf(z, hex))
  }

  /** `parseInt(s)` or `parseInt(s, 10)`; `None` stands for `NaN`. */
  function ParseInt(s: string, radix: Radix): (r: Option<int>)
    ensures TrimStart(s) == [] ==> r.None?
    ensures (var t := TrimStart(s);
             t != [] && !IsDecimal(t[0]) && t[0] != '-' && t[0] != '+' ==> r.None?)
  {
    var t := TrimStart(s);
    var negative := t != [] && t[0] == '-';
    var m := ReadMagnitude(if t != [] && (t[0] == '-' || t[0] == '+') then t[1..] else t, radix);
    if m.None? then None
    else
      var v: int := m.value;
      Some(if negative then -v else v)
  }

  function DigitChar(d: nat): char
    requires d < 10
  {
    ('0' as int + d) as char
  }

  /** The decimal text of a natural number, without leading zeros. */
  function NatText(n: nat): (s: string)
    ensures |s| > 0 && forall i :: 0 <= i < |s| ==> IsDecimal(s[i])
  {
    if n < 10 then [DigitChar(n)]
    else NatText(n / 10) + [DigitChar(n % 10)]
  }

  /**
   * The decimal text of an integer `n`: what `String(n)` writes for numbers below
   * 10^21, before it switches to exponent form.
   */
  function IntText(n: int): string {
    if n < 0 then "-" + NatText(-n) else NatText(n)
  }

  /** Only zero is written with a leading `0`. */
  lemma {:induction false} NatTextLeadingZero(n: nat)
    ensures NatText(n)[0] == '0' ==> n == 0
  {
    if n >= 10 {
      NatTextLeadingZero(n / 10);
    }
  }

  /** Reading the decimal text of `n` gives `n` back. */
  lemma {:induction false} ValueOfNatText(n: nat)
    ensures ValueOf(NatText(n), false) == n
  {
    if n >= 10 {
      var s := NatText(n);
      assert s[..|s| - 1] == NatText(n / 10);
      ValueOfNatText(n / 10);
    }
  }

  /** The digit run of digits followed by a non-digit is those digits. */
  lemma {:induction false} DigitRunOfDigits(a: string, t: string)
    requires forall i :: 0 <= i < |a| ==> IsDecimal(a[i])
    requires t == [] || !IsDecimal(t[0])
    ensures DigitRun(a + t, false) == a
  {
    if a != [] {
      assert (a + t)[1..] == a[1..] + t;
      DigitRunOfDigits(a[1..], t);
      assert a == [a[0]] + a[1..];
    }
  }

  /** The text of a natural number, followed by a non-digit, reads back as that number. */
  lemma ReadMagnitudeText(m: nat, t: string, radix: Radix)
    requires t == [] || (!IsDecimal(t[0]) && (radix == Ten || (t[0] != 'x' && t[0] != 'X')))
    ensures ReadMagnitude(NatText(m) + t, radix) == Some(m)
  {
    var u := NatText(m) + t;
    NatTextLeadingZero(m);
    assert !(radix == NoRadix && |u| >= 2 && u[0] == '0' && (u[1] == 'x' || u[1] == 'X')) by {
      if |u| >= 2 && u[0] == '0' {
        assert m == 0 && NatText(m) == "0" && u[1] == t[0];
      }
    }
    DigitRunOfDigits(NatText(m), t);
    ValueOfNatText(m);
  }

  /** Text starting with a digit is read by `parseInt` as its magnitude. */
  lemma ParseIntUnsigned(u: string, m: nat, radix: Radix)
    requires u != [] && IsDecimal(u[0]) && ReadMagnitude(u, radix) == Some(m)
    ensures ParseInt(u, radix) == Some(m)
  {
    assert TrimStart(u) == u;
  }

  /** A minus sign before text starting with a digit negates its magnitude. */
  lemma ParseIntNegative(u: string, m: nat, radix: Radix)
    requires u != [] && IsDecimal(u[0]) && ReadMagnitude(u, radix) == Some(m)
    ensures ParseInt("-" + u, radix) == Some(-(m as int))
  {
    var s := "-" + u;
    assert TrimStart(s) == s;
    assert s[1..] == u;
  }

  /**
   * `parseInt` reads back the text of any integer, and stops at the first character that
   * is not a digit; without a radix, an `x` after a lone `0` would start a hexadecimal
   * number instead.
   */
  lemma ParseIntText(n: int, t: string, radix: Radix)
    requires t == [] || (!IsDecimal(t[0]) && (radix == Ten || (t[0] != 'x' && t[0] != 'X')))
    ensures ParseInt(IntText(n) + t, radix) == Some(n)
  {
    var m := if n < 0 then -n else n;
    var u := NatText(m) + t;
    ReadMagnitudeText(m, t, radix);
    assert IsDecimal(u[0]);
    if n < 0 {
      assert IntText(n) + t == "-" + u;
      ParseIntNegative(u, m, radix);
    } else {
      assert IntText(n) + t == u;
      ParseIntUnsigned(u, m, radix);
    }
  }

  /** Leading white space does not change what `parseInt` reads. */
  lemma {:induction false} ParseIntLeadingSpace(c: char, s: string, radix: Radix)
    requires IsWhitespace(c)
    ensures ParseInt([c] + s, radix) == ParseInt(s, radix)
  {
    assert ([c] + s)[1..] == s;
  }

  /** Text made of white space only (the empty text included) is `NaN`. */
  lemma {:induction false} BlankParsesToNaN(s: string, radix: Radix)
    ensures Blank(s) ==> ParseInt(s, radix).None?
  {
    if Blank(s) && s != [] {
      assert Blank(s[1..]) by {
        forall i | 0 <= i < |s[1..]| ensures IsWhitespace(s[1..][i]) {
          assert s[1..][i] == s[i + 1];
        }
      }
      BlankParsesToNaN(s[1..], radix);
      assert [s[0]] + s[1..] == s;
      ParseIntLeadingSpace(s[0], s[1..], radix);
    }
  }

  /**
   * The two radices read the same number unless the digits start with `0x` or `0X`,
   * which only `parseInt` without a radix reads as hexadecimal.
   */
  lemma ParseIntRadixAgree(s: string)
    requires var t := TrimStart(s);
             var u := if t != [] && (t[0] == '-' || t[0] == '+') then t[1..] else t;
             !(|u| >= 2 && u[0] == '0' && (u[1] == 'x' || u[1] == 'X'))
    ensures ParseInt(s, NoRadix) == ParseInt(s, Ten)
  {
  }

  /** `parseInt("0x1A")` is 26, but `parseInt("0x1A", 10)` stops at the `x` and is 0. */
  lemma HexPrefixNeedsNoRadix()
    ensures ParseInt("0x1A", NoRadix) == Some(26)
    ensures ParseInt("0x1A", Ten) == Some(0)
  {
    var s := "0x1A";
    assert TrimStart(s) == s;
    assert s[2..] == "1A";
    assert DigitRun("1A", true) == "1A" by {
      assert DigitRun("A", true) == "A";
    }
    assert ValueOf("1A", true) == 26 by {
      assert "1A"[..1] == "1";
      assert ValueOf("1", true) == 1;
    }
    assert DigitRun(s, false) == "0" by {
      assert s[1..] == "x1A";
    }
    assert ValueOf("0", false) == 0 by {
      assert "0"[..0] == [];
    }
    assert ReadMagnitude(s, Ten) == Some(0);
  }
}
