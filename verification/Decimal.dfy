/** Integers as decimal strings: `str` and `int`. */
module Decimal {
  import opened Wrappers

  const DIGITS := "0123456789"

  function PrintNat(n: nat): (s: string)
    ensures s != "" && '0' <= s[0] <= '9' && '0' <= s[|s| - 1] <= '9'
  {
    (if n < 10 then "" else PrintNat(n / 10)) + [DIGITS[n % 10]]
  }

  function Print(n: int): string {
    if n < 0 then "-" + PrintNat(-n) else PrintNat(n)
  }

  function DigitValue(c: char): Option<nat> {
    if '0' <= c <= '9' then Some((c - '0') as nat) else None
  }

  /** Digits, with at most one underscore between any two. */
  function ParseNat(s: string): Option<int> {
    if s == "" then None
    else
      match DigitValue(s[|s| - 1])
      case None => None
      case Some(d) =>
        if |s| == 1 then Some(d)
        else
          match ParseNat(if |s| > 2 && s[|s| - 2] == '_' then s[..|s| - 2] else s[..|s| - 1])
          case None => None
          case Some(n) => Some(10 * n + d)
  }

  predicate IsSpace(c: char) { c == ' ' || '\t' <= c <= '\r' }

  function Stripped(s: string): string {
    if s == "" then s
    else if IsSpace(s[0]) then Stripped(s[1..])
    else if IsSpace(s[|s| - 1]) then Stripped(s[..|s| - 1])
    else s
  }

  /** `int` on ASCII text: white space around, and one sign in front of the digits. */
  function Parse(s: string): Option<int> {
    var t := Stripped(s);
    if t != "" && t[0] == '-' then
      match ParseNat(t[1..])
      case None => None
      case Some(n) => Some(-n)
    else ParseNat(if t != "" && t[0] == '+' then t[1..] else t)
  }

  lemma {:induction false} ParseDigit(s: string, d: nat)
    requires s != "" && '0' <= s[|s| - 1] <= '9' && d < 10
    ensures ParseNat(s + [DIGITS[d]]) == match ParseNat(s) case None => None case Some(n) => Some(10 * n + d)
  {
    var more := s + [DIGITS[d]];
    assert more[..|more| - 1] == s && DigitValue(more[|more| - 1]) == Some(d);
    assert more[|more| - 2] == s[|s| - 1];
  }

  lemma {:induction false} ParsePrintNat(n: nat)
    ensures ParseNat(PrintNat(n)) == Some(n)
  {
    if n >= 10 {
      ParsePrintNat(n / 10);
      ParseDigit(PrintNat(n / 10), n % 10);
    } else {
      assert PrintNat(n) == [DIGITS[n]] && DigitValue(DIGITS[n]) == Some(n);
    }
  }

  lemma {:induction false} NothingToStrip(s: string)
    requires s != "" && !IsSpace(s[0]) && !IsSpace(s[|s| - 1])
    ensures Stripped(s) == s
  {
  }

  lemma {:induction false} ParsePrint(n: int)
    ensures Parse(Print(n)) == Some(n)
  {
    var digits := PrintNat(if n < 0 then -n else n);
    ParsePrintNat(if n < 0 then -n else n);
    NothingToStrip(Print(n));
    assert ("-" + digits)[1..] == digits;
  }

  /** The digits are those of the number to base ten, most significant first. */
  lemma PrintsDigits(q: nat, d: nat)
    requires d < 10
    ensures PrintNat(10 * q + d) == (if q == 0 then "" else PrintNat(q)) + [('0' as int + d) as char]
  {
    assert (10 * q + d) / 10 == q && (10 * q + d) % 10 == d;
    assert DIGITS[d] == ('0' as int + d) as char;
  }

  lemma PrintInjective(m: int, n: int)
    requires Print(m) == Print(n)
    ensures m == n
  {
    ParsePrint(m);
    ParsePrint(n);
  }
}
