/** The few string operations the naming rules use: number printing, case, suffix trimming. */
module Text {

  /** Kubernetes object names are ASCII, so characters and bytes coincide. */
  type Ascii = s: string | forall i :: 0 <= i < |s| ==> s[i] < 128 as char

  const DIGITS: string := "0123456789abcdef"

  predicate IsHexDigit(c: char) {
    '0' <= c <= '9' || 'a' <= c <= 'f'
  }

  predicate IsAlphanumeric(c: char) {
    '0' <= c <= '9' || 'a' <= c <= 'z'
  }

  function Digit(d: nat): (c: char)
    requires d < 16
    ensures IsHexDigit(c) && (d < 10 ==> '0' <= c <= '9')
    ensures forall e: nat | e < 16 :: DIGITS[e] == c ==> e == d
  {
    DIGITS[d]
  }

  /** Unpadded positional notation: `%d` for base 10 and `%x` for base 16. */
  function Digits(n: nat, base: nat): string
    requires base == 10 || base == 16
  {
    if n < base then [Digit(n)] else Digits(n / base, base) + [Digit(n % base)]
  }

  function Power(base: nat, k: nat): nat {
    if k == 0 then 1 else base * Power(base, k - 1)
  }

  lemma DivisionBound(n: nat, base: nat, bound: nat)
    requires base == 10 || base == 16
    requires n < base * bound
    ensures n / base < bound
  {
    if base == 10 {
      assert n / 10 < bound;
    } else {
      assert n / 16 < bound;
    }
  }

  lemma {:induction false} DigitsLength(n: nat, base: nat, k: nat)
    requires base == 10 || base == 16
    requires 1 <= k && n < Power(base, k)
    ensures 1 <= |Digits(n, base)| <= k
  {
    if n >= base {
      DivisionBound(n, base, Power(base, k - 1));
      if k > 1 {
        DigitsLength(n / base, base, k - 1);
      }
    }
  }

  lemma {:induction false} DigitsCharacters(n: nat, base: nat)
    requires base == 10 || base == 16
    ensures |Digits(n, base)| >= 1
    ensures forall i :: 0 <= i < |Digits(n, base)| ==> IsHexDigit(Digits(n, base)[i])
    ensures base == 10 ==> forall i :: 0 <= i < |Digits(n, base)| ==> '0' <= Digits(n, base)[i] <= '9'
  {
    if n >= base {
      DigitsCharacters(n / base, base);
    }
  }

  lemma {:induction false} DigitsInjective(n: nat, m: nat, base: nat)
    requires base == 10 || base == 16
    requires Digits(n, base) == Digits(m, base)
    ensures n == m
  {
    DigitsSplit(n, base);
    DigitsSplit(m, base);
    if n >= base && m >= base {
      DigitsInjective(n / base, m / base, base);
    }
  }

  /** The last digit and the digits before it, for numbers of one digit and of more. */
  lemma DigitsSplit(n: nat, base: nat)
    requires base == 10 || base == 16
    ensures var s := Digits(n, base);
            && |s| >= 1
            && s[|s| - 1] == DIGITS[n % base]
            && (|s| == 1 <==> n < base)
            && (n >= base ==> s[..|s| - 1] == Digits(n / base, base))
    ensures n == base * (n / base) + n % base
  {
    if n >= base {
      DigitsCharacters(n / base, base);
    }
  }

  function DigitValue(c: char): nat
    requires IsHexDigit(c)
  {
    if c <= '9' then (c - '0') as nat else (c - 'a') as nat + 10
  }

  /** The number a text of digits stands for. */
  function ReadBack(s: string, base: nat): nat
    requires forall i :: 0 <= i < |s| ==> IsHexDigit(s[i])
  {
    if s == "" then 0 else ReadBack(s[..|s| - 1], base) * base + DigitValue(s[|s| - 1])
  }

  lemma DigitHasValue(d: nat)
    requires d < 16
    ensures IsHexDigit(DIGITS[d]) && DigitValue(DIGITS[d]) == d
  {
  }

  /** Reading a printed number back gives the number, and there are no leading zeros. */
  lemma {:induction false} DigitsReadBack(n: nat, base: nat)
    requires base == 10 || base == 16
    ensures var s := Digits(n, base);
            && s != "" && (forall i :: 0 <= i < |s| ==> IsHexDigit(s[i]))
            && ReadBack(s, base) == n
            && (|s| > 1 ==> s[0] != '0')
  {
    DigitsCharacters(n, base);
    DigitsSplit(n, base);
    DigitHasValue(n % base);
    if n >= base {
      DigitsReadBack(n / base, base);
    } else {
      assert ReadBack("", base) == 0 && Digits(n, base)[..0] == "";
    }
  }

  function LowerChar(c: char): char {
    if 'A' <= c <= 'Z' then c - 'A' + 'a' else c
  }

  /** Capital letters, all of them and nothing else, become small. */
  lemma LowerCharMakesSmall(c: char)
    ensures !('A' <= LowerChar(c) <= 'Z')
    ensures if 'A' <= c <= 'Z' then 'a' <= LowerChar(c) <= 'z' && (LowerChar(c) - 'a') as int == (c - 'A') as int
            else LowerChar(c) == c
  {
  }

  /** `strings.ToLower` on ASCII text. */
  function Lower(s: string): (r: string)
    ensures |r| == |s| && forall i :: 0 <= i < |s| ==> r[i] == LowerChar(s[i])
  {
    seq(|s|, i requires 0 <= i < |s| => LowerChar(s[i]))
  }

  predicate EndsWithDash(s: string) {
    s != "" && s[|s| - 1] == '-'
  }

  /** `strings.TrimSuffix(s, "-")`: at most one dash goes. */
  function TrimDash(s: string): string {
    if EndsWithDash(s) then s[..|s| - 1] else s
  }
}
