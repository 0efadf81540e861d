// print_int of dbug.c and ascii_to_int of rtx_util.c.
module Decimal {
  const SIGNED_LIMIT: nat := 0x8000_0000
  const ZERO: nat := '0' as nat

  function Digit(d: nat): char
    requires d < 10
  {
    (ZERO + d) as char
  }

  predicate IsDigit(c: char) {
    '0' <= c <= '9'
  }

  predicate AllDigits(s: string) {
    forall i | 0 <= i < |s| :: IsDigit(s[i])
  }

  // The decimal notation of n.
  function Digits(n: nat): string {
    if n < 10 then [Digit(n)] else Digits(n / 10) + [Digit(n % 10)]
  }

  // The number a digit string denotes.
  function Value(s: string): nat
    requires AllDigits(s)
  {
    if s == [] then 0 else Value(s[..|s| - 1]) * 10 + (s[|s| - 1] as nat - ZERO)
  }

  // What ascii_to_int returns: -1 unless the string is a non-empty digit string.
  function Parse(s: string): int {
    if s == [] || !AllDigits(s) then -1 else Value(s)
  }

  function LeadingDigits(s: string): (p: string)
    ensures p <= s && AllDigits(p) && (|p| < |s| ==> !IsDigit(s[|p|]))
  {
    if s == [] || !IsDigit(s[0]) then [] else
      var rest := LeadingDigits(s[1..]);
      assert s == [s[0]] + s[1..];
      [s[0]] + rest
  }

  // ---------- the two notations are inverse ----------

  lemma {:induction false} DigitsParse(n: nat)
    ensures AllDigits(Digits(n)) && Digits(n) != [] && Value(Digits(n)) == n
    ensures n > 0 ==> Digits(n)[0] != '0'
  {
    if n >= 10 {
      DigitsParse(n / 10);
      var s := Digits(n);
      assert s[..|s| - 1] == Digits(n / 10);
    } else {
      assert Digits(n)[..0] == [];
    }
  }

  lemma {:induction false} ParseDigits(s: string)
    requires AllDigits(s) && s != [] && (|s| > 1 ==> s[0] != '0')
    ensures Digits(Value(s)) == s
    ensures s[0] != '0' ==> Value(s) > 0
  {
    var front, last := s[..|s| - 1], s[|s| - 1];
    assert s == front + [last];
    if front != [] {
      ParseDigits(front);
      assert Value(s) / 10 == Value(front) && Value(s) % 10 == last as nat - ZERO;
      assert Digit(last as nat - ZERO) == last;
    }
  }

  // ascii_to_int of what print_int prints gives the number back.
  lemma RoundTrip(n: nat)
    ensures Parse(Digits(n)) == n
  {
    DigitsParse(n);
  }

  function Power(k: nat): (p: nat)
    ensures p > 0
  {
    if k == 0 then 1 else 10 * Power(k - 1)
  }

  // The digit k places from the right counts the tens of that power.
  lemma {:induction false} DigitAt(n: nat, k: nat)
    requires k < |Digits(n)|
    ensures Digits(n)[|Digits(n)| - 1 - k] as int - '0' as int == n / Power(k) % 10
  {
    if k > 0 {
      DigitAt(n / 10, k - 1);
      DivideTwice(n, Power(k - 1));
    }
  }

  lemma DivideTwice(n: nat, p: nat)
    requires p > 0
    ensures n / 10 / p == n / (10 * p)
  {
    var m := n / 10;
    var q, r := m / p, m % p;
    assert m == q * p + r;
    assert n == q * (10 * p) + (10 * r + n % 10);
    Quotient(n, 10 * p, q, 10 * r + n % 10);
  }

  lemma Quotient(n: nat, d: nat, q: nat, r: nat)
    requires r < d && n == q * d + r
    ensures n / d == q
  {
    var e := n / d - q;
    assert e * d == r - n % d;
    Scaled(e, d);
  }

  lemma Scaled(e: int, d: nat)
    ensures e >= 1 ==> e * d >= d
    ensures e <= -1 ==> e * d <= 0 - d
  {
  }

  // ---------- the two routines ----------

  // The digits are pushed least significant first on top of a NUL and popped in
  // reading order; the NUL is put out as well.
  method PrintInt(n: nat) returns (out: string)
    ensures out == Digits(n) + "\0"
  {
    hide Digits, AllDigits, Still, Digit;
    var value := n;
    var stack: string := "\0";
    var digit := Digit(value % 10);
    value := value / 10;
    stack := [digit] + stack;
    ghost var digits := [digit];
    LastDigit(n);
    while value != 0
      invariant stack == digits + "\0" && digits != [] && AllDigits(digits)
      invariant Digits(n) == Still(value) + digits
    {
      NextDigit(value, digits);
      digit := Digit(value % 10);
      value := value / 10;
      stack := [digit] + stack;
      digits := [digit] + digits;
    }
    NothingLeft(digits);
    OneNul(digits);
    var curChar := stack[0];
    out := [curChar];
    var i := 1;
    while curChar != '\0'
      invariant 1 <= i <= |stack|
      invariant curChar == stack[i - 1] && out == stack[..i]
      decreases |stack| - i
    {
      curChar := stack[i];
      assert stack[..i + 1] == stack[..i] + [curChar];
      out := out + [curChar];
      i := i + 1;
    }
  }

  // The digits of what is still to be divided.
  ghost function Still(value: nat): string {
    if value == 0 then [] else Digits(value)
  }

  lemma LastDigit(n: nat)
    ensures Digits(n) == Still(n / 10) + [Digit(n % 10)] && AllDigits([Digit(n % 10)])
  {
  }

  lemma NextDigit(value: nat, digits: string)
    requires value > 0 && AllDigits(digits)
    ensures Still(value) + digits == Still(value / 10) + ([Digit(value % 10)] + digits)
    ensures AllDigits([Digit(value % 10)] + digits)
    ensures [Digit(value % 10)] + (digits + "\0") == [Digit(value % 10)] + digits + "\0"
  {
    LastDigit(value);
  }

  lemma NothingLeft(digits: string)
    ensures Still(0) + digits == digits
  {
  }

  lemma OneNul(digits: string)
    requires AllDigits(digits)
    ensures var s := digits + "\0"; forall k | 0 <= k < |s| :: s[k] == '\0' <==> k == |digits|
  {
    forall k | 0 <= k < |digits| ensures (digits + "\0")[k] != '\0' {
      assert IsDigit(digits[k]);
    }
  }

  // The string ends at its first NUL, here at index n. `overflow` tells that the running
  // value would leave its signed 32-bit word, after which C promises nothing.
  method AsciiToInt(str: array<char>, ghost n: nat) returns (value: int, overflow: bool)
    requires n < str.Length && str[n] == '\0' && forall i | 0 <= i < n :: str[i] != '\0'
    ensures overflow <==> Value(LeadingDigits(str[..n])) >= SIGNED_LIMIT
    ensures !overflow ==> value == Parse(str[..n]) && -1 <= value < SIGNED_LIMIT
  {
    hide Value, LeadingDigits, AllDigits, Digits;
    ghost var text := str[..n];
    Empty(text);
    value, overflow := 0, false;
    if str[0] == '\0' {
      return -1, false;
    }
    var i := 0;
    while str[i] != '\0'
      invariant 0 <= i <= n && AllDigits(text[..i]) && value == Value(text[..i]) && value < SIGNED_LIMIT && !overflow
      decreases n - i
    {
      if str[i] < '0' || str[i] > '9' {
        EndOfDigits(text, i);
        return -1, false;
      }
      OneMoreDigit(text, i);
      PrefixValue(text, i + 1);
      if value * 10 + (str[i] as int - ZERO) >= SIGNED_LIMIT {
        return -1, true;
      }
      value := value * 10;
      value := value + (str[i] as int - ZERO);
      i := i + 1;
    }
    EndOfDigits(text, n);
    assert text[..n] == text;
  }

  lemma Empty(s: string)
    ensures AllDigits(s[..0]) && Value(s[..0]) == 0 && (s == [] ==> Value(LeadingDigits(s)) == 0)
  {
  }

  lemma OneMoreDigit(s: string, i: nat)
    requires i < |s| && AllDigits(s[..i]) && IsDigit(s[i])
    ensures AllDigits(s[..i + 1]) && Value(s[..i + 1]) == Value(s[..i]) * 10 + (s[i] as nat - ZERO)
  {
    assert s[..i + 1][..i] == s[..i];
  }

  // The leading digits end where the first other character stands.
  lemma {:induction false} EndOfDigits(s: string, i: nat)
    requires i <= |s| && AllDigits(s[..i]) && (i < |s| ==> !IsDigit(s[i]))
    ensures LeadingDigits(s) == s[..i] && (i < |s| ==> !AllDigits(s))
  {
    var p := LeadingDigits(s);
    assert forall j | 0 <= j < i :: s[..i][j] == s[j];
    assert |p| == i by {
      PrefixValue(s, i);
      assert AllDigits(p) && p <= s;
    }
  }

  // The value of a digit prefix is at most that of all leading digits.
  lemma {:induction false} PrefixValue(s: string, i: nat)
    requires i <= |s| && AllDigits(s[..i])
    ensures i <= |LeadingDigits(s)| && Value(s[..i]) <= Value(LeadingDigits(s))
    decreases |s| - i
  {
    var p := LeadingDigits(s);
    assert forall j | 0 <= j < i :: s[..i][j] == s[j];
    if i < |p| {
      assert AllDigits(s[..i + 1]) by {
        assert s[..i + 1] == p[..i + 1];
      }
      assert s[..i + 1][..i] == s[..i];
      PrefixValue(s, i + 1);
    } else if i == |p| {
      assert s[..i] == p;
    }
  }

  // Every number below 2^31 survives printing and parsing, without overflow.
  method PrintThenParse(n: nat) returns (value: int, overflow: bool)
    requires n < SIGNED_LIMIT
    ensures value == n && !overflow
  {
    hide Value, LeadingDigits, Digits, AllDigits;
    var out := PrintInt(n);
    DigitsParse(n);
    OneNul(Digits(n));
    Printed(n);
    var str := new char[|out|](i requires 0 <= i < |out| => out[i]);
    assert str[..] == out && str[..|out| - 1] == Digits(n);
    value, overflow := AsciiToInt(str, |out| - 1);
    RoundTrip(n);
  }

  // All of a printed number is digits.
  lemma Printed(n: nat)
    ensures LeadingDigits(Digits(n)) == Digits(n)
  {
    DigitsParse(n);
    assert Digits(n)[..|Digits(n)|] == Digits(n);
    EndOfDigits(Digits(n), |Digits(n)|);
  }
}
