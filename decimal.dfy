/** Decimal text as the kernel module produces and consumes it: `%lu`/`%d`
    formatting of a counter, and the `kstrtoul(buf, 10, &v)` parse that the
    two injection paths apply to a NUL-terminated payload. Every `char` of a
    string stands for one byte of the buffer. */
module DecimalText {

  datatype Option<T> = None | Some(value: T) {
    predicate IsFailure() { None? }
    function PropagateFailure<U>(): Option<U> requires None? { None }
    function Extract(): T requires Some? { value }
  }

  /** `unsigned long` (64 bits) wraps modulo this; kstrtoul fails with -ERANGE at or above it. */
  const ULONG_MODULUS: nat := 0x1_0000_0000_0000_0000

  predicate IsDigit(c: char) { '0' <= c <= '9' }

  predicate IsDigits(s: string) { forall i :: 0 <= i < |s| ==> IsDigit(s[i]) }

  function DigitChar(d: nat): (c: char)
    requires d < 10
    ensures IsDigit(c) && c as int - '0' as int == d
  {
    (d + '0' as int) as char
  }

  function DigitValue(c: char): (d: nat)
    requires IsDigit(c)
    ensures d < 10 && DigitChar(d) == c
  {
    c as int - '0' as int
  }

  /** Decimal rendering of `n`, as `sprintf("%lu", n)` writes it: digits only,
      never empty, and "0" alone for zero, with no leading zero otherwise. */
  function Decimal(n: nat): (s: string)
    ensures 1 <= |s| && IsDigits(s)
    ensures s[0] == '0' ==> n == 0 && s == "0"
    decreases n
  {
    if n < 10 then [DigitChar(n)] else Decimal(n / 10) + [DigitChar(n % 10)]
  }

  /** The number a string of decimal digits denotes, most significant first. */
  function DigitsValue(s: string): nat
    requires IsDigits(s)
  {
    if s == [] then 0 else DigitsValue(s[..|s| - 1]) * 10 + DigitValue(s[|s| - 1])
  }

  /** Reading back what `Decimal` wrote gives the number again. */
  lemma {:induction false} DecimalRoundTrip(n: nat)
    ensures DigitsValue(Decimal(n)) == n
    decreases n
  {
    var s := Decimal(n);
    if n >= 10 {
      DecimalRoundTrip(n / 10);
      assert s[..|s| - 1] == Decimal(n / 10);
    }
  }

  function Pow10(k: nat): (p: nat)
    ensures p >= 1
  {
    if k == 0 then 1 else 10 * Pow10(k - 1)
  }

  /** A number below 10^k takes at most k digits. */
  lemma {:induction false} DecimalLength(n: nat, k: nat)
    requires 1 <= k && n < Pow10(k)
    ensures |Decimal(n)| <= k
    decreases k
  {
    if n >= 10 {
      assert k >= 2;
      DecimalLength(n / 10, k - 1);
    }
  }

  /** A show endpoint's output: one number in decimal followed by a newline. */
  function ShowLine(n: nat): (s: string)
    ensures 2 <= |s| && s[|s| - 1] == '\n'
    ensures s[0] == '0' ==> s == "0\n"
    ensures IsDigits(s[..|s| - 1]) && DigitsValue(s[..|s| - 1]) == n
  {
    DecimalRoundTrip(n);
    var s := Decimal(n) + "\n";
    assert s[..|s| - 1] == Decimal(n);
    s
  }

  /** The C string a byte buffer holds: everything before the first NUL byte
      (the source terminates the copied payload with `kbuf[len] = '\0'`). */
  function CString(s: string): (r: string)
    ensures r <= s && '\0' !in r
    ensures |r| < |s| ==> s[|r|] == '\0'
  {
    if s == [] || s[0] == '\0' then [] else [s[0]] + CString(s[1..])
  }

  /** kstrtoul's first step: one leading '+' is skipped. */
  function SkipPlus(s: string): string
  {
    if |s| > 0 && s[0] == '+' then s[1..] else s
  }

  /** After the digits, kstrtoul accepts one '\n' and nothing else. */
  function DropNewline(t: string): string
  {
    if |t| > 0 && t[|t| - 1] == '\n' then t[..|t| - 1] else t
  }

  /** kstrtoul with base 10: an optional leading '+', then one or more decimal
      digits, then at most one '\n'; any other character, an empty digit run
      or a value that does not fit an unsigned long is a failure. */
  function ParseUnsigned(s: string): (r: Option<nat>)
    ensures r.Some? ==> r.value < ULONG_MODULUS
    ensures r.Some? ==> 1 <= |s| && (IsDigit(s[0]) || s[0] == '+')
  {
    var body := DropNewline(SkipPlus(s));
    if body == [] || !IsDigits(body) then None
    else if DigitsValue(body) < ULONG_MODULUS then Some(DigitsValue(body))
    else None
  }

  /** One or more digits, optionally framed by a leading '+' and a trailing
      newline, parse to the number the digits denote when it fits an
      unsigned long, and are rejected (-ERANGE in the kernel) when it does not. */
  lemma ParseDigits(d: string, plus: bool, newline: bool)
    requires 1 <= |d| && IsDigits(d)
    ensures ParseUnsigned((if plus then "+" else "") + d + (if newline then "\n" else "")) ==
              if DigitsValue(d) < ULONG_MODULUS then Some(DigitsValue(d)) else None
  {
    var t := d + (if newline then "\n" else "");
    var s := (if plus then "+" else "") + t;
    assert (if plus then "+" else "") + d + (if newline then "\n" else "") == s;
    assert SkipPlus(s) == t by {
      if plus {
        assert s[1..] == t;
      } else {
        assert s[0] == d[0] && IsDigit(d[0]);
      }
    }
    assert DropNewline(t) == d by {
      if newline {
        assert t[..|t| - 1] == d;
      } else {
        assert IsDigit(t[|t| - 1]);
      }
    }
    assert DropNewline(SkipPlus(s)) == d;
  }

  /** Every character before a digit run that DropNewline leaves is a digit,
      and the character it dropped, if any, is the final '\n'. */
  lemma DigitsUpToNewline(t: string)
    requires IsDigits(DropNewline(t))
    ensures forall j :: 0 <= j < |t| ==> IsDigit(t[j]) || (j == |t| - 1 && t[j] == '\n')
  {
    var body := DropNewline(t);
    forall j | 0 <= j < |t|
      ensures IsDigit(t[j]) || (j == |t| - 1 && t[j] == '\n')
    {
      if j < |body| {
        assert t[j] == body[j];
      }
    }
  }

  /** The other direction of `ParseDigits`: kstrtoul accepts nothing but one
      or more digits, with at most a '+' in front and a '\n' behind. So a
      payload with any other character, such as "12abc", "+x", "-5" or
      "5\n\n", is rejected. */
  lemma ParseAccepts(s: string)
    ensures ParseUnsigned(s).Some? ==>
              (exists i :: 0 <= i < |s| && IsDigit(s[i])) &&
              forall i :: 0 <= i < |s| ==>
                IsDigit(s[i]) || (i == 0 && s[i] == '+') || (i == |s| - 1 && s[i] == '\n')
  {
    if ParseUnsigned(s).Some? {
      var t := SkipPlus(s);
      DigitsUpToNewline(t);
      assert IsDigit(t[0]) by { assert DropNewline(t)[0] == t[0]; }
      if |s| > 0 && s[0] == '+' {
        assert t == s[1..];
        assert IsDigit(s[1]);
        forall i | 1 <= i < |s|
          ensures IsDigit(s[i]) || (i == |s| - 1 && s[i] == '\n')
        {
          assert s[i] == t[i - 1];
        }
      } else {
        assert t == s;
        assert IsDigit(s[0]);
      }
    }
  }

  /** Whatever `Decimal` writes, with or without a '+' in front and a newline
      behind, kstrtoul reads back as the same number (when it fits). */
  lemma ParseDecimal(n: nat, plus: bool, newline: bool)
    requires n < ULONG_MODULUS
    ensures ParseUnsigned((if plus then "+" else "") + Decimal(n) + (if newline then "\n" else "")) == Some(n)
  {
    DecimalRoundTrip(n);
    ParseDigits(Decimal(n), plus, newline);
  }

  /** A show line is accepted back by the store path with the same value. */
  lemma ParseShowLine(n: nat)
    requires n < ULONG_MODULUS
    ensures ParseUnsigned(ShowLine(n)) == Some(n)
  {
    ParseDecimal(n, false, true);
    assert ShowLine(n) == ("" + Decimal(n) + "\n");
  }
}
