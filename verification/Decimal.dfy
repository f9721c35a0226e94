/** Decimal rendering and parsing of integers. */
module Decimal {
  import opened Options
  import opened Text

  const I64_MAX := 0x7FFF_FFFF_FFFF_FFFF
  const I64_MIN := -0x8000_0000_0000_0000

  function Digit(d: nat): (c: char)
    requires d < 10
    ensures IsDigit(c)
  {
    ('0' as int + d) as char
  }

  function DigitValue(c: char): (d: nat)
    requires IsDigit(c)
    ensures d < 10 && Digit(d) == c
  {
    c as int - '0' as int
  }

  /** `n` in decimal, without leading zeros. */
  function Render(n: nat): (s: string)
    ensures s != "" && AllDigits(s)
    ensures |s| > 1 ==> s[0] != '0'
  {
    if n < 10 then [Digit(n)] else Render(n / 10) + [Digit(n % 10)]
  }

  function RenderInt(n: int): string {
    if n < 0 then "-" + Render(-n) else Render(n)
  }

  function Value(s: string): nat
    requires AllDigits(s)
  {
    if s == "" then 0 else 10 * Value(s[..|s| - 1]) + DigitValue(s[|s| - 1])
  }

  lemma {:induction false} ValueOfRender(n: nat)
    ensures Value(Render(n)) == n
  {
    if n >= 10 {
      ValueOfRender(n / 10);
      assert Render(n)[..|Render(n)| - 1] == Render(n / 10);
    }
  }

  /** Only the canonical spelling of a number is what rendering it gives. */
  lemma {:induction false} RenderOfValue(s: string)
    requires s != "" && AllDigits(s)
    ensures Render(Value(s)) == s <==> |s| == 1 || s[0] != '0'
  {
    var rest := s[..|s| - 1];
    if |s| > 1 {
      assert Value(s) / 10 == Value(rest) && Value(s) % 10 == DigitValue(s[|s| - 1]);
      if s[0] != '0' {
        RenderOfValue(rest);
        NonZeroValue(rest);
        assert s == rest + [s[|s| - 1]];
      }
    }
  }

  lemma {:induction false} NonZeroValue(s: string)
    requires s != "" && AllDigits(s) && s[0] != '0'
    ensures Value(s) > 0
  {
    if |s| > 1 {
      NonZeroValue(s[..|s| - 1]);
    }
  }

  lemma RenderSign(n: int)
    ensures RenderInt(n) != "" && (RenderInt(n)[0] == '-' <==> n < 0) && RenderInt(n)[0] != '+'
    ensures n < 0 ==> RenderInt(n)[1..] == Render(-n)
  {
    if n >= 0 {
      assert Render(n)[0] in Render(n);
    }
  }

  lemma RenderInjective(a: int, b: int)
    requires RenderInt(a) == RenderInt(b)
    ensures a == b
  {
    RenderSign(a);
    RenderSign(b);
    assert a < 0 <==> b < 0;
    RenderInjectiveNat(if a < 0 then -a else a, if b < 0 then -b else b);
  }

  lemma RenderInjectiveNat(a: nat, b: nat)
    requires Render(a) == Render(b)
    ensures a == b
  {
    ValueOfRender(a);
    ValueOfRender(b);
  }

  /** `str::parse::<i64>`: an optional sign, digits, no overflow. */
  function ParseI64(s: string): Option<int> {
    var negative := s != "" && s[0] == '-';
    var digits := if s != "" && (s[0] == '-' || s[0] == '+') then s[1..] else s;
    if digits == "" || !AllDigits(digits) then None
    else
      var value: int := Value(digits);
      var n := if negative then -value else value;
      if I64_MIN <= n <= I64_MAX then Some(n) else None
  }

  lemma ParseOfRender(n: int)
    ensures ParseI64(RenderInt(n)) == if I64_MIN <= n <= I64_MAX then Some(n) else None
  {
    RenderSign(n);
    ValueOfRender(if n < 0 then -n else n);
  }

  /** A plus sign is accepted. */
  lemma ParseOfPlus(n: nat)
    ensures ParseI64("+" + Render(n)) == if n <= I64_MAX then Some(n as int) else None
  {
    ValueOfRender(n);
    assert ("+" + Render(n))[1..] == Render(n);
  }

  /** `n` in exactly `width` digits; the higher ones are cut off. */
  function Fixed(n: nat, width: nat): (s: string)
    ensures |s| == width && AllDigits(s)
  {
    if width == 0 then "" else Fixed(n / 10, width - 1) + [Digit(n % 10)]
  }

  function Pow10(n: nat): nat {
    if n == 0 then 1 else 10 * Pow10(n - 1)
  }

  /** The format `{:0width}` of a non-negative number. */
  function Padded(n: nat, width: nat): string {
    if |Render(n)| >= width then Render(n) else seq(width - |Render(n)|, i => '0') + Render(n)
  }

  lemma {:induction false} FixedZero(width: nat)
    ensures Fixed(0, width) == seq(width, i => '0')
  {
    if width > 0 {
      FixedZero(width - 1);
    }
  }

  /** Zero padding gives exactly `width` digits when the number has no more. */
  lemma {:induction false} PaddedIsFixed(n: nat, width: nat)
    requires width >= 1 && n < Pow10(width)
    ensures |Render(n)| <= width && Padded(n, width) == Fixed(n, width)
  {
    if n < 10 {
      FixedZero(width - 1);
    } else {
      assert width >= 2;
      PaddedIsFixed(n / 10, width - 1);
    }
  }
}
