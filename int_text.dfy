/**
 * Swift's `Int(_: String)` (a 64-bit signed decimal parse that fails with
 * nil) and the decimal text `"\(n)"` of an integer, which are inverses.
 */
module IntText {
  import opened Wrappers

  /** The range of Swift's `Int` on 64-bit platforms. */
  const IntMin: int := -0x8000_0000_0000_0000
  const IntMax: int := 0x7FFF_FFFF_FFFF_FFFF

  predicate IsDigit(c: char)
  {
    '0' <= c <= '9'
  }

  predicate AllDigits(s: string)
  {
    forall i :: 0 <= i < |s| ==> IsDigit(s[i])
  }

  /** The number a non-empty run of decimal digits spells, most significant first. */
  function DigitsValue(s: string): nat
    requires AllDigits(s)
  {
    if s == [] then 0
    else DigitsValue(s[..|s| - 1]) * 10 + (s[|s| - 1] as int - '0' as int)
  }

  /**
   * `Int(text)`: an optional `+` or `-`, then one or more ASCII digits and
   * nothing else; nil when that shape is missing or the value leaves `Int`.
   */
  function ParseInt(text: string): (r: Option<int>)
    ensures r.Some? ==> IntMin <= r.value <= IntMax
    ensures r.Some? ==> |text| > 0 && (IsDigit(text[0]) || text[0] in "+-")
    ensures r.Some? ==>
      var d := if text[0] in "+-" then text[1..] else text;
      d != [] && AllDigits(d) && r.value == (if text[0] == '-' then -(DigitsValue(d) as int) else DigitsValue(d) as int)
  {
    if text == [] then None
    else
      var negative := text[0] == '-';
      var digits := if text[0] == '-' || text[0] == '+' then text[1..] else text;
      if digits == [] || !AllDigits(digits) then None
      else
        var v: int := if negative then 0 - DigitsValue(digits) as int else DigitsValue(digits);
        if IntMin <= v <= IntMax then Some(v) else None
  }

  /**
   * Every run of digits, bare or behind a `+` or a `-`, parses to the number
   * it spells exactly when that number is an `Int`.
   */
  lemma ParseSignedDigits(d: string)
    requires d != [] && AllDigits(d)
    ensures ParseInt(d) == if DigitsValue(d) <= IntMax then Some(DigitsValue(d) as int) else None
    ensures ParseInt("+" + d) == ParseInt(d)
    ensures ParseInt("-" + d) == if -(DigitsValue(d) as int) >= IntMin then Some(-(DigitsValue(d) as int)) else None
  {
    assert ("+" + d)[1..] == d;
    assert ("-" + d)[1..] == d;
  }

  /** The decimal digits of `n`, without leading zeros. */
  function NatDigits(n: nat): (s: string)
    ensures |s| > 0 && AllDigits(s)
    ensures IsDigit(s[0])
  {
    if n < 10 then ['0' + n as char]
    else NatDigits(n / 10) + ['0' + (n % 10) as char]
  }

  /** `"\(n)"`: a `-` for negative numbers, then the digits of the magnitude. */
  function FormatInt(n: int): (s: string)
    ensures |s| > 0
  {
    if n < 0 then "-" + NatDigits(-n) else NatDigits(n)
  }

  lemma {:induction false} NatDigitsValue(n: nat)
    ensures DigitsValue(NatDigits(n)) == n
  {
    if n >= 10 {
      var s := NatDigits(n);
      assert s[..|s| - 1] == NatDigits(n / 10);
      NatDigitsValue(n / 10);
    }
  }

  /** Parsing the printed form of any `Int` gives the same `Int` back. */
  lemma ParseFormatRoundTrip(n: int)
    requires IntMin <= n <= IntMax
    ensures ParseInt(FormatInt(n)) == Some(n)
  {
    var m := if n < 0 then -n else n;
    NatDigitsValue(m);
    ParseSignedDigits(NatDigits(m));
  }

  /** What the form's stock field typically holds. */
  lemma ParseExamples()
    ensures ParseInt("10") == Some(10)
    ensures ParseInt("-1") == Some(-1)
    ensures ParseInt("+7") == Some(7)
    ensures ParseInt("") == None && ParseInt("-") == None
    ensures ParseInt("1O") == None && ParseInt(" 1") == None
    ensures ParseInt("007") == Some(7) && ParseInt("-0") == Some(0)
  {
    assert DigitsValue("10") == 10 by {
      assert "10"[..1] == "1";
      assert DigitsValue("1") == DigitsValue("") * 10 + 1;
    }
    assert DigitsValue("1") == 1 by {
      assert "1"[..0] == "";
    }
    assert "-1"[1..] == "1";
    assert "+7"[1..] == "7";
    assert DigitsValue("7") == 7 by {
      assert "7"[..0] == "";
    }
    assert DigitsValue("007") == 7 by {
      assert "007"[..2] == "00" && "00"[..1] == "0" && "0"[..0] == "";
    }
    assert DigitsValue("0") == 0 by {
      assert "0"[..0] == "";
    }
    assert "-0"[1..] == "0";
    assert !IsDigit("1O"[1]);
    assert !IsDigit(" 1"[0]);
  }
}
