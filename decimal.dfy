/**
 * Python's `str(n)` and `int(s)` on decimal integers. `int(s)` is modelled as
 * strip, an optional sign, then one or more ASCII digits; digit-group
 * underscores and non-ASCII digits are not modelled.
 */
module Decimal {
  import opened Wrappers
  import opened Strings

  predicate IsDigit(c: char) {
    '0' <= c <= '9'
  }

  predicate AllDigits(s: string) {
    forall k :: 0 <= k < |s| ==> IsDigit(s[k])
  }

  function DigitChar(d: nat): (c: char)
    requires d < 10
    ensures IsDigit(c) && c as int - '0' as int == d
  {
    ('0' as int + d) as char
  }

  /** Python's `str(n)` for a natural number: shortest decimal, no leading zeros. */
  function NatToString(n: nat): (s: string)
    ensures s != [] && AllDigits(s)
  {
    if n < 10 then [DigitChar(n)] else NatToString(n / 10) + [DigitChar(n % 10)]
  }

  /** Python's `str(n)`. */
  function IntToString(n: int): (s: string)
    ensures s != [] && Clean(s)
  {
    if n < 0 then "-" + NatToString(-n) else NatToString(n)
  }

  /** The value of a string of decimal digits, most significant first. */
  function DigitsValue(s: string): nat
    requires AllDigits(s)
  {
    if s == [] then 0
    else
      assert IsDigit(s[|s| - 1]);
      10 * DigitsValue(s[..|s| - 1]) + (s[|s| - 1] as int - '0' as int)
  }

  /** What `int()` accepts once stripped: an optional sign, then one or more ASCII digits. */
  predicate IntLiteral(t: string) {
    if t != [] && (t[0] == '-' || t[0] == '+') then |t| > 1 && AllDigits(t[1..])
    else t != [] && AllDigits(t)
  }

  /** The digits of a literal, after its sign if it has one. */
  function Unsigned(t: string): (ds: string)
    ensures IntLiteral(t) ==> ds != [] && AllDigits(ds)
  {
    if t != [] && (t[0] == '-' || t[0] == '+') then t[1..] else t
  }

  /**
   * Python's `int(s)`: `None` exactly where Python raises `ValueError`;
   * otherwise the decimal value of the digits, negated after a minus sign.
   */
  function ParseInt(s: string): (r: Option<int>)
    ensures r.Some? <==> IntLiteral(Strip(s))
    ensures r.Some? && Strip(s)[0] == '-' ==> r.value == -(DigitsValue(Unsigned(Strip(s))) as int)
    ensures r.Some? && Strip(s)[0] != '-' ==> r.value == DigitsValue(Unsigned(Strip(s))) as int
    ensures r.Some? && r.value < 0 ==> Strip(s)[0] == '-'
    ensures r.Some? && Strip(s)[0] == '-' ==> r.value <= 0
    ensures Strip(s) != [] && AllDigits(Strip(s)) ==> r == Some(DigitsValue(Strip(s)) as int)
  {
    var t := Strip(s);
    if t != [] && (t[0] == '-' || t[0] == '+') then
      var ds := t[1..];
      if ds != [] && AllDigits(ds) then
        var v: int := DigitsValue(ds);
        Some(if t[0] == '-' then -v else v)
      else None
    else if t != [] && AllDigits(t) then Some(DigitsValue(t) as int)
    else None
  }

  /** A plus sign is accepted and dropped. */
  lemma ParseIntPlus()
    ensures ParseInt("+7") == Some(7)
  {
    assert Strip("+7") == "+7" by { StripClean("+7"); }
    assert "+7"[1..] == "7" && "7"[..0] == [];
    assert DigitsValue("7") == 7;
  }

  /** A minus sign negates, and leading zeros are read as Python reads them. */
  lemma ParseIntMinus()
    ensures ParseInt("-05") == Some(-5)
  {
    assert Strip("-05") == "-05" by { StripClean("-05"); }
    assert "-05"[1..] == "05" && "05"[..1] == "0" && "0"[..0] == [];
    assert DigitsValue("05") == 5;
  }

  /** Leading whitespace is skipped; a trailing letter or a bare sign is a `ValueError`. */
  lemma ParseIntSpacesAndErrors()
    ensures ParseInt(" 3") == Some(3)
    ensures ParseInt("3a") == None && ParseInt("-") == None
  {
    assert Strip(" 3") == "3" by { StripAfterSpaces(" ", "3"); assert " " + "3" == " 3"; }
    assert "3"[..0] == [];
    assert Strip("3a") == "3a" by { StripClean("3a"); }
    assert !IsDigit("3a"[1]);
    assert Strip("-") == "-" by { StripClean("-"); }
  }

  lemma {:induction false} DigitsOfNat(n: nat)
    ensures DigitsValue(NatToString(n)) == n
  {
    if n >= 10 {
      DigitsOfNat(n / 10);
      var s := NatToString(n);
      assert s[..|s| - 1] == NatToString(n / 10);
    }
  }

  /** `int(str(n)) == n`: a number printed by the renderer reads back as itself. */
  lemma ParseIntToString(n: int)
    ensures ParseInt(IntToString(n)) == Some(n)
  {
    var s := IntToString(n);
    StripClean(s);
    if n < 0 {
      var ds := NatToString(-n);
      DigitsOfNat(-n);
      assert s == "-" + ds;
      assert s[0] == '-' && s[1..] == ds;
      assert ParseInt(s) == Some(-(DigitsValue(ds) as int));
    } else {
      var ds := NatToString(n);
      DigitsOfNat(n);
      assert s == ds && IsDigit(s[0]);
      assert ParseInt(s) == Some(DigitsValue(ds) as int);
    }
  }

  /** Parsing ignores the whitespace `strip()` removes. */
  lemma ParseIntOfStrip(s: string)
    ensures ParseInt(Strip(s)) == ParseInt(s)
  {
    StripIdempotent(s);
  }
}
