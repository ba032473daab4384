/** Integers as text: what `str` writes and what `int` reads. */
module Decimals {
  import opened Options
  import opened Text

  function Digit(d: nat): char
    requires d < 10
  {
    '0' + d as char
  }

  function Decimal(n: nat): string {
    if n < 10 then [Digit(n)] else Decimal(n / 10) + [Digit(n % 10)]
  }

  lemma {:induction false} DecimalIsInjective(a: nat, b: nat)
    requires Decimal(a) == Decimal(b)
    ensures a == b
  {
    var da, db := Decimal(a), Decimal(b);
    assert da[|da| - 1] == Digit(a % 10) && db[|db| - 1] == Digit(b % 10);
    assert a % 10 == b % 10;
    DecimalLength(a);
    DecimalLength(b);
    if a >= 10 && b >= 10 {
      assert da[..|da| - 1] == Decimal(a / 10) && db[..|db| - 1] == Decimal(b / 10);
      DecimalIsInjective(a / 10, b / 10);
    }
  }

  lemma {:induction false} DecimalLength(n: nat)
    ensures |Decimal(n)| >= 1 && (|Decimal(n)| == 1 <==> n < 10)
  {
    if n >= 10 {
      DecimalLength(n / 10);
    }
  }

  function Written(n: int): string {
    if n < 0 then "-" + Decimal(-n) else Decimal(n)
  }

  /** Digits, with single underscores allowed between them. */
  function Numeral(s: string): Option<nat>
    decreases |s|
  {
    if s == "" || !('0' <= s[|s| - 1] <= '9') then None
    else
      var last := (s[|s| - 1] - '0') as nat;
      var rest := s[..|s| - 1];
      if rest == "" then Some(last)
      else
        match Numeral(if rest[|rest| - 1] == '_' then rest[..|rest| - 1] else rest)
        case None => None
        case Some(n) => Some(10 * n + last)
  }

  /** Reads an integer as the `int` constructor reads text. */
  function Parsed(text: string): Option<int> {
    var s := Strip(text);
    if s != "" && s[0] == '-' then Signed(-1, Numeral(s[1..]))
    else if s != "" && s[0] == '+' then Signed(1, Numeral(s[1..]))
    else Signed(1, Numeral(s))
  }

  function Signed(sign: int, n: Option<nat>): Option<int> {
    match n case None => None case Some(v) => Some(sign * v)
  }

  predicate AllDigits(s: string) {
    forall i :: 0 <= i < |s| ==> '0' <= s[i] <= '9'
  }

  lemma {:induction false} NumeralOfDecimal(n: nat)
    ensures AllDigits(Decimal(n)) && Decimal(n) != "" && Numeral(Decimal(n)) == Some(n)
  {
    if n >= 10 {
      NumeralOfDecimal(n / 10);
      var s := Decimal(n);
      assert s[..|s| - 1] == Decimal(n / 10);
    }
  }

  /** What is written is read back. */
  lemma ParsedOfWritten(n: int)
    ensures Parsed(Written(n)) == Some(n)
  {
    if n < 0 {
      ParsedOfNegative(-n);
    } else {
      ParsedOfDecimal(n);
    }
  }

  lemma ParsedOfDecimal(n: nat)
    ensures Parsed(Decimal(n)) == Some(n)
  {
    NumeralOfDecimal(n);
    ParsedOfDigits(Decimal(n));
  }

  lemma ParsedOfDigits(digits: string)
    requires AllDigits(digits) && digits != ""
    ensures Parsed(digits) == Signed(1, Numeral(digits))
  {
    assert '0' <= digits[0] <= '9';
    StripsToItself(digits);
  }

  lemma ParsedOfNegative(n: nat)
    ensures Parsed("-" + Decimal(n)) == Signed(-1, Some(n))
  {
    NumeralOfDecimal(n);
    ParsedOfMinus(Decimal(n));
  }

  lemma ParsedOfMinus(digits: string)
    requires AllDigits(digits) && digits != ""
    ensures Parsed("-" + digits) == Signed(-1, Numeral(digits))
  {
    var s := "-" + digits;
    assert s[0] == '-' && s[1..] == digits;
    StripsToItself(s);
  }

  lemma StripsToItself(w: string)
    requires Trimmed(w)
    ensures Strip(w) == w
  {
    StripOf("", w, "");
    assert "" + w + "" == w;
  }
}
