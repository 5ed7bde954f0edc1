/** Integer literals read by the lexer against integers rendered by the platform layer. */
module Integers {
  const U64_LIMIT: nat := 0x1_0000_0000_0000_0000
  const I64_MIN: int := -0x8000_0000_0000_0000
  const I64_MAX: int := 0x7FFF_FFFF_FFFF_FFFF
  const NUL := '\U{0000}'

  // ----- Reading -----

  function DigitOf(c: char, base: nat): int {
    if '0' <= c <= '9' then c as int - '0' as int
    else if base == 16 && 'a' <= c <= 'f' then c as int - 'a' as int + 10
    else if base == 16 && 'A' <= c <= 'F' then c as int - 'A' as int + 10
    else -1
  }

  /** The digits up to the first character that is neither a digit nor an underscore. */
  function Digits(s: string, base: nat): (ds: seq<nat>)
    requires base == 10 || base == 16
    ensures forall i :: 0 <= i < |ds| ==> ds[i] < base
  {
    if s == "" then []
    else if s[0] == '_' then Digits(s[1..], base)
    else if DigitOf(s[0], base) < 0 then []
    else [DigitOf(s[0], base)] + Digits(s[1..], base)
  }

  /** Positional value, most significant digit first. */
  function Number(ds: seq<nat>, base: nat): nat {
    if ds == [] then 0 else Number(ds[..|ds| - 1], base) * base + ds[|ds| - 1]
  }

  predicate IsHex(s: string) {
    |s| >= 2 && s[0] == '0' && (s[1] == 'x' || s[1] == 'X')
  }

  /** The mathematical value of an integer literal. */
  function LiteralValue(s: string): nat {
    if IsHex(s) then Number(Digits(s[2..], 16), 16) else Number(Digits(s, 10), 10)
  }

  lemma {:induction false} NumberGrows(ds: seq<nat>, more: seq<nat>, base: nat)
    requires base >= 1
    ensures Number(ds, base) <= Number(ds + more, base)
    decreases |more|
  {
    if more == [] {
      assert ds + more == ds;
    } else {
      var n := |more| - 1;
      NumberGrows(ds, more[..n], base);
      assert (ds + more)[..|ds| + n] == ds + more[..n];
      Grow(Number(ds + more[..n], base), base);
    }
  }

  lemma Grow(x: nat, base: nat)
    requires base >= 1
    ensures x <= x * base
  {
  }

  lemma NumberSnoc(ds: seq<nat>, d: nat, base: nat)
    ensures Number(ds + [d], base) == Next(Number(ds, base), base, d)
  {
    assert (ds + [d])[..|ds|] == ds;
  }

  /** Overflow is caught exactly when the next value would not fit. */
  lemma GuardExact(value: nat, digit: nat, base: nat)
    requires IsBase(base) && digit < base
    ensures Overflows(value, base, digit) <==> Next(value, base, digit) >= U64_LIMIT
  {
  }

  lemma NumberEmpty(base: nat)
    ensures Number([], base) == 0
  {
  }

  predicate IsBase(base: nat) {
    base == 10 || base == 16
  }

  lemma DigitsStep(s: string, p: nat, base: nat)
    requires IsBase(base) && p < |s|
    ensures var d := DigitOf(s[p], base);
      && d < base
      && Digits(s[p..], base) ==
         if s[p] == '_' then Digits(s[p + 1..], base) else if d < 0 then [] else [d] + Digits(s[p + 1..], base)
  {
    assert s[p..][0] == s[p] && s[p..][1..] == s[p + 1..];
  }

  lemma DigitsEnd(s: string, base: nat)
    requires IsBase(base)
    ensures Digits(s[|s|..], base) == []
  {
  }

  function Next(value: nat, base: nat, digit: nat): nat {
    value * base + digit
  }

  predicate Overflows(value: nat, base: nat, digit: nat)
    requires IsBase(base) && digit < base
  {
    value > (U64_LIMIT - 1 - digit) / base
  }

  /** The accumulation loop: it fails exactly when the digits' value does not fit. */
  method ParseDigits(s: string, start: nat, base: nat) returns (ok: bool, value: nat)
    requires IsBase(base) && start <= |s|
    ensures ok <==> Number(Digits(s[start..], base), base) < U64_LIMIT
    ensures ok ==> value == Number(Digits(s[start..], base), base)
  {
    hide DigitOf, Digits, Number, Next, Overflows;
    var p := start;
    value := 0;
    ghost var all := Digits(s[p..], base);
    ghost var seen: seq<nat> := [];
    ghost var left := all;
    assert seen + left == all;
    NumberEmpty(base);
    while p < |s|
      invariant start <= p <= |s|
      invariant seen + left == all && left == Digits(s[p..], base)
      invariant value == Number(seen, base) < U64_LIMIT
    {
      DigitsStep(s, p, base);
      if s[p] != '_' {
        var digit := DigitOf(s[p], base);
        if digit < 0 {
          left := [];
          break;
        }
        NumberSnoc(seen, digit, base);
        GuardExact(value, digit, base);
        ghost var more := Digits(s[p + 1..], base);
        assert seen + ([digit] + more) == (seen + [digit]) + more;
        seen := seen + [digit];
        if Overflows(value, base, digit) {
          NumberGrows(seen, more, base);
          return false, 0;
        }
        value := Next(value, base, digit);
      }
      left := Digits(s[p + 1..], base);
      p := p + 1;
    }
    if p == |s| {
      DigitsEnd(s, base);
    }
    assert seen + [] == seen;
    ok := true;
  }

  /** Succeeds exactly when the literal's value fits in 64 bits, and then returns it. */
  method ParseInteger(s: string) returns (ok: bool, value: nat)
    ensures ok <==> LiteralValue(s) < U64_LIMIT
    ensures ok ==> value == LiteralValue(s)
  {
    if IsHex(s) {
      ok, value := ParseDigits(s, 2, 16);
    } else {
      assert s[0..] == s;
      ok, value := ParseDigits(s, 0, 10);
    }
  }

  // ----- Rendering -----

  function DigitChar(d: nat): char
    requires d < 10
  {
    '0' + d as char
  }

  function Decimal(n: nat): string {
    if n < 10 then [DigitChar(n)] else Decimal(n / 10) + [DigitChar(n % 10)]
  }

  function IntText(v: int): string {
    if v < 0 then "-" + Decimal(-v) else Decimal(v)
  }

  /** The last `k` characters of a string, or all of it. */
  function Last(s: string, k: nat): string {
    if |s| <= k then s else s[|s| - k..]
  }

  function Reversed(s: string): (r: string)
    ensures |r| == |s| && forall i :: 0 <= i < |s| ==> r[i] == s[|s| - 1 - i]
  {
    seq(|s|, i requires 0 <= i < |s| => s[|s| - 1 - i])
  }

  method Reverse(str: array<char>, length: nat)
    requires length <= str.Length
    modifies str
    ensures str[..length] == Reversed(old(str[..length])) && str[length..] == old(str[length..])
  {
    var start, end := 0, length - 1;
    while start < end
      invariant 0 <= start && end == length - 1 - start && start <= end + 2
      invariant forall i :: 0 <= i < start ==> str[i] == old(str[length - 1 - i]) && str[length - 1 - i] == old(str[i])
      invariant forall i :: start <= i <= end ==> str[i] == old(str[i])
      invariant forall i :: length <= i < str.Length ==> str[i] == old(str[i])
    {
      str[start], str[end] := str[end], str[start];
      start, end := start + 1, end - 1;
    }
    ghost var was := old(str[..length]);
    forall i | 0 <= i < length ensures str[i] == Reversed(was)[i] {
      if i < start {
      } else if i <= end {
        assert i == length - 1 - i;
      } else {
        var j := length - 1 - i;
        assert str[length - 1 - j] == old(str[j]);
      }
    }
  }

  /** The digits of `rest`, if any, still to be written above the low-order ones. */
  function High(rest: nat): string {
    if rest == 0 then "" else Decimal(rest)
  }

  /** Writes the low-order digits of a positive value, least significant first, while there is room. */
  method WriteDigits(value: nat, buffer: array<char>) returns (i: nat, rest: nat)
    requires buffer.Length > 0 && value > 0
    modifies buffer
    ensures i <= buffer.Length - 1 && (rest == 0 || i == buffer.Length - 1)
    ensures High(rest) + Reversed(buffer[..i]) == Decimal(value)
  {
    i, rest := 0, value;
    while rest > 0 && i < buffer.Length - 1
      invariant i <= buffer.Length - 1
      invariant High(rest) + Reversed(buffer[..i]) == Decimal(value)
      decreases rest
    {
      ghost var low := buffer[..i];
      buffer[i] := DigitChar(rest % 10);
      assert buffer[..i + 1] == low + [DigitChar(rest % 10)];
      assert Reversed(low + [DigitChar(rest % 10)]) == [DigitChar(rest % 10)] + Reversed(low);
      assert High(rest) == High(rest / 10) + [DigitChar(rest % 10)];
      i, rest := i + 1, rest / 10;
    }
  }

  /** What is in the buffer: a NUL-terminated string. */
  ghost predicate Holds(buffer: array<char>, s: string)
    reads buffer
  {
    |s| < buffer.Length && buffer[..|s|] == s && buffer[|s|] == NUL
  }

  /** The buffer receives the decimal text, or, if it is too short, only the text's last characters. */
  method U64ToString(value: nat, buffer: array<char>)
    requires value < U64_LIMIT
    modifies buffer
    ensures buffer.Length > 0 ==> Holds(buffer, Last(Decimal(value), buffer.Length - 1))
  {
    if buffer.Length == 0 {
      return;
    }
    if value == 0 {
      if buffer.Length > 1 {
        buffer[0] := '0';
        buffer[1] := NUL;
      } else {
        buffer[0] := NUL;
      }
      return;
    }
    var i, rest := WriteDigits(value, buffer);
    ghost var digits := Reversed(buffer[..i]);
    buffer[i] := NUL;
    Reverse(buffer, i);
    assert buffer[i..][0] == NUL;
    LastOfConcat(High(rest), digits, buffer.Length - 1);
  }

  lemma LastOfConcat(a: string, b: string, k: nat)
    requires |b| <= k && (a == "" || |b| == k)
    ensures Last(a + b, k) == b
  {
    assert a == "" ==> a + b == b;
  }

  method I64ToString(value: int, buffer: array<char>)
    requires I64_MIN <= value <= I64_MAX
    modifies buffer
    ensures buffer.Length > 0 ==> Holds(buffer, Last(IntText(value), buffer.Length - 1))
  {
    hide Decimal, Reversed, High;
    if buffer.Length == 0 {
      return;
    }
    if value == 0 {
      U64ToString(0, buffer);
      return;
    }
    var magnitude: nat := if value < 0 then -(value + 1) + 1 else value;
    var i, rest := WriteDigits(magnitude, buffer);
    ghost var text := Reversed(buffer[..i]);
    SignedText(value, High(rest), text, i, rest, buffer.Length - 1);
    if value < 0 && i < buffer.Length - 1 {
      ghost var low := buffer[..i];
      buffer[i] := '-';
      assert buffer[..i + 1] == low + ['-'];
      ReversedSnoc(low, '-');
      i := i + 1;
      text := "-" + text;
    }
    ghost var backwards := buffer[..i];
    buffer[i] := NUL;
    assert buffer[..i] == backwards;
    Reverse(buffer, i);
    assert buffer[i..][0] == NUL;
  }

  lemma ReversedSnoc(s: string, c: char)
    ensures Reversed(s + [c]) == [c] + Reversed(s)
  {
  }

  lemma SignedText(value: int, high: string, low: string, i: nat, rest: nat, room: nat)
    requires value != 0 && high + low == Decimal(if value < 0 then -value else value)
    requires |low| == i <= room && (rest == 0 || i == room) && high == High(rest)
    ensures value < 0 && i < room ==> Last(IntText(value), room) == "-" + low
    ensures !(value < 0 && i < room) ==> Last(IntText(value), room) == low
  {
    hide Decimal;
    if value < 0 && i < room {
      assert "" + low == low;
      LastOfConcat("", "-" + low, room);
      assert "" + ("-" + low) == "-" + low;
    } else if value < 0 {
      assert "-" + (high + low) == ("-" + high) + low;
      LastOfConcat("-" + high, low, room);
    } else {
      LastOfConcat(high, low, room);
    }
  }

  // ----- Reading what was rendered -----

  predicate EndsNumber(rest: string) {
    rest == "" || (rest[0] != '_' && DigitOf(rest[0], 10) < 0)
  }

  /** All characters are decimal digits. */
  predicate AllDigits(s: string) {
    forall i :: 0 <= i < |s| ==> '0' <= s[i] <= '9'
  }

  lemma {:induction false} DecimalIsDigits(n: nat)
    ensures Decimal(n) != "" && AllDigits(Decimal(n))
  {
    if n >= 10 {
      DecimalIsDigits(n / 10);
    }
  }

  lemma {:induction false} DigitsOfText(s: string, rest: string)
    requires AllDigits(s) && EndsNumber(rest)
    ensures Digits(s + rest, 10) == Digits(s, 10) && |Digits(s, 10)| == |s|
    ensures forall i :: 0 <= i < |s| ==> Digits(s, 10)[i] == DigitOf(s[i], 10)
    decreases |s|
  {
    if s == "" {
      assert s + rest == rest;
    } else {
      assert (s + rest)[1..] == s[1..] + rest;
      DigitsOfText(s[1..], rest);
    }
  }

  /** Reading a rendered number, whatever non-digit follows it, gives the number back. */
  lemma {:induction false} DecimalRoundTrip(n: nat, rest: string)
    requires EndsNumber(rest)
    ensures Number(Digits(Decimal(n) + rest, 10), 10) == n
  {
    DecimalIsDigits(n);
    DigitsOfText(Decimal(n), rest);
    var d := Digits(Decimal(n), 10);
    if n < 10 {
      assert d[..0] == [];
      NumberEmpty(10);
    } else {
      var k := |d| - 1;
      var high := Decimal(n / 10);
      DecimalRoundTrip(n / 10, "");
      assert high + "" == high;
      DecimalIsDigits(n / 10);
      DigitsOfText(high, "");
      assert d[..k] == Digits(high, 10);
    }
  }

  /** A literal the compiler renders is one it reads back. */
  lemma LiteralRoundTrip(n: nat, rest: string)
    requires EndsNumber(rest) && !(rest != "" && (rest[0] == 'x' || rest[0] == 'X'))
    ensures LiteralValue(Decimal(n) + rest) == n
  {
    DecimalRoundTrip(n, rest);
    DecimalIsDigits(n);
    var s := Decimal(n) + rest;
    if |Decimal(n)| >= 2 {
      assert s[1] == Decimal(n)[1];
    } else if |s| >= 2 {
      assert s[1] == rest[0];
    }
  }

  function Power10(k: nat): nat {
    if k == 0 then 1 else 10 * Power10(k - 1)
  }

  lemma {:induction false} DecimalLength(n: nat, k: nat)
    requires k >= 1 && n < Power10(k)
    ensures |Decimal(n)| <= k
    decreases k
  {
    if n >= 10 {
      assert k > 1;
      DecimalLength(n / 10, k - 1);
    }
  }

  /** A buffer of 21 bytes holds any unsigned or signed 64-bit value in full. */
  lemma TwentyOneSuffice(u: nat, v: int)
    requires u < U64_LIMIT && I64_MIN <= v <= I64_MAX
    ensures |Decimal(u)| <= 20 && |IntText(v)| <= 20
  {
    assert Power10(19) == 10_000_000_000_000_000_000 by {
      assert Power10(5) == 100_000;
      assert Power10(10) == 10_000_000_000;
      assert Power10(15) == 1_000_000_000_000_000;
    }
    DecimalLength(u, 20);
    DecimalLength(if v < 0 then -v else v, 19);
  }

  /**
   What a buffer of `size` bytes receives reads back as the value exactly when the buffer has room for
   every digit and the NUL, zero excepted; 21 bytes always have.
   */
  lemma RenderThenParse(value: nat, size: nat)
    requires value < U64_LIMIT && size >= 1
    ensures LiteralValue(Last(Decimal(value), size - 1)) == value <==> (value == 0 || |Decimal(value)| < size)
    ensures size >= 21 ==> LiteralValue(Last(Decimal(value), size - 1)) == value
  {
    hide Decimal, LiteralValue;
    TwentyOneSuffice(value, 0);
    LiteralRoundTrip(value, "");
    var text := Decimal(value);
    assert text + "" == text;
    if |text| >= size {
      ShortReadsLess(value, size - 1);
    }
  }

  lemma {:induction false} SuffixIsLess(ds: seq<nat>, j: nat)
    requires ds != [] && ds[0] > 0 && 1 <= j <= |ds|
    ensures Number(ds[j..], 10) < Number(ds, 10)
    decreases |ds|
  {
    var n := |ds| - 1;
    var init := ds[..n];
    if n == 0 {
      assert init == [] && ds[j..] == [];
    } else if j == |ds| {
      SuffixIsLess(init, n);
      assert init[n..] == [] && ds[j..] == [];
    } else {
      SuffixIsLess(init, j);
      assert ds[j..][..n - j] == init[j..];
    }
  }

  lemma {:induction false} LeadingDigit(value: nat)
    requires value > 0
    ensures Decimal(value)[0] != '0'
  {
    if value >= 10 {
      LeadingDigit(value / 10);
    }
  }

  /** The low-order digits alone are worth less than the whole positive number. */
  lemma ShortReadsLess(value: nat, k: nat)
    requires k < |Decimal(value)|
    ensures value == 0 ==> LiteralValue(Last(Decimal(value), k)) == 0
    ensures value > 0 ==> LiteralValue(Last(Decimal(value), k)) < value
  {
    hide Decimal, Number;
    var text := Decimal(value);
    var low := Last(text, k);
    var j := |text| - k;
    DecimalIsDigits(value);
    DigitsOfText(text, "");
    DigitsOfText(low, "");
    assert text + "" == text;
    DecimalRoundTrip(value, "");
    assert !IsHex(low);
    assert Digits(low, 10) == Digits(text, 10)[j..];
    if value > 0 {
      LeadingDigit(value);
      SuffixIsLess(Digits(text, 10), j);
    } else {
      ZeroText();
      NumberEmpty(10);
    }
  }

  lemma ZeroText()
    ensures Decimal(0) == "0"
  {
  }

  // ----- Literals as they may be written -----

  const LOWER: string := "0123456789abcdef"
  const UPPER: string := "0123456789ABCDEF"

  /** The digits of `n`, most significant first. */
  function DigitsIn(n: nat, base: nat): (ds: seq<nat>)
    requires IsBase(base)
    ensures ds != [] && forall d <- ds :: d < base
  {
    if n < base then [n] else DigitsIn(n / base, base) + [n % base]
  }

  function Zeros(k: nat): (ds: seq<nat>)
    ensures |ds| == k && forall d <- ds :: d == 0
  {
    seq(k, _ => 0)
  }

  /** The text writes these digits, each letter in either case, with underscores anywhere. */
  predicate Writes(s: string, ds: seq<nat>) {
    if s == "" then ds == []
    else if s[0] == '_' then Writes(s[1..], ds)
    else ds != [] && ds[0] < 16 && (s[0] == LOWER[ds[0]] || s[0] == UPPER[ds[0]]) && Writes(s[1..], ds[1..])
  }

  /** What follows is neither an underscore nor a digit. */
  predicate EndsDigits(rest: string, base: nat)
    requires IsBase(base)
  {
    rest == "" || (rest[0] != '_' && rest[0] !in LOWER[..base] && rest[0] !in UPPER[..base])
  }

  lemma DigitAt(d: nat)
    requires d < 16
    ensures DigitOf(LOWER[d], 16) == DigitOf(UPPER[d], 16) == d
    ensures d < 10 ==> DigitOf(LOWER[d], 10) == DigitOf(UPPER[d], 10) == d
    ensures LOWER[d] != '_' && UPPER[d] != '_'
  {
    if d < 8 {
      assert d == 0 || d == 1 || d == 2 || d == 3 || d == 4 || d == 5 || d == 6 || d == 7;
    } else {
      assert d == 8 || d == 9 || d == 10 || d == 11 || d == 12 || d == 13 || d == 14 || d == 15;
    }
  }

  lemma DigitListed(c: char, base: nat)
    requires IsBase(base) && DigitOf(c, base) >= 0
    ensures c in LOWER[..base] || c in UPPER[..base]
  {
    var d := DigitOf(c, base);
    assert LOWER[d] == c || UPPER[d] == c by {
      DigitAt(d);
      DigitBack(c, base);
    }
    assert LOWER[..base][d] == LOWER[d] && UPPER[..base][d] == UPPER[d];
  }

  /** A character is determined by its digit, up to case. */
  lemma DigitBack(c: char, base: nat)
    requires IsBase(base) && DigitOf(c, base) >= 0
    ensures var d := DigitOf(c, base); d < base && (LOWER[d] == c || UPPER[d] == c)
  {
    var d := DigitOf(c, base);
    if d < 8 {
      assert d == 0 || d == 1 || d == 2 || d == 3 || d == 4 || d == 5 || d == 6 || d == 7;
    } else {
      assert d == 8 || d == 9 || d == 10 || d == 11 || d == 12 || d == 13 || d == 14 || d == 15;
    }
  }

  lemma {:induction false} WrittenDigits(s: string, ds: seq<nat>, base: nat, rest: string)
    requires IsBase(base) && Writes(s, ds) && (forall d <- ds :: d < base) && EndsDigits(rest, base)
    ensures Digits(s + rest, base) == ds
    decreases |s|
  {
    hide DigitOf;
    if s == "" {
      assert s + rest == rest;
      if rest != "" && DigitOf(rest[0], base) >= 0 {
        DigitListed(rest[0], base);
      }
    } else {
      assert (s + rest)[0] == s[0] && (s + rest)[1..] == s[1..] + rest;
      if s[0] == '_' {
        WrittenDigits(s[1..], ds, base, rest);
      } else {
        DigitAt(ds[0]);
        assert ds[0] in ds && forall d <- ds[1..] :: d in ds;
        WrittenDigits(s[1..], ds[1..], base, rest);
        assert ds == [ds[0]] + ds[1..];
      }
    }
  }

  lemma {:induction false} NumberOfDigits(n: nat, base: nat, k: nat)
    requires IsBase(base)
    ensures Number(Zeros(k) + DigitsIn(n, base), base) == n
    decreases n
  {
    if n < base {
      NumberOfZeros(k, base);
      NumberSnoc(Zeros(k), n, base);
    } else {
      NumberOfDigits(n / base, base, k);
      assert Zeros(k) + DigitsIn(n, base) == (Zeros(k) + DigitsIn(n / base, base)) + [n % base];
      NumberSnoc(Zeros(k) + DigitsIn(n / base, base), n % base, base);
    }
  }

  lemma {:induction false} NumberOfZeros(k: nat, base: nat)
    ensures Number(Zeros(k), base) == 0
  {
    if k > 0 {
      NumberOfZeros(k - 1, base);
      assert Zeros(k)[..k - 1] == Zeros(k - 1);
    }
  }

  /**
   However a number is written in hexadecimal (either prefix, letters in any mix of case, leading zeros, underscores
   anywhere among the digits) and whatever ends it, it is read as that number.
   */
  lemma HexadecimalRoundTrip(n: nat, x: char, k: nat, s: string, rest: string)
    requires (x == 'x' || x == 'X') && Writes(s, Zeros(k) + DigitsIn(n, 16)) && EndsDigits(rest, 16)
    ensures LiteralValue(['0', x] + s + rest) == n
  {
    hide Number, Digits, DigitsIn, Writes;
    var all := ['0', x] + s + rest;
    assert all[2..] == s + rest;
    WrittenDigits(s, Zeros(k) + DigitsIn(n, 16), 16, rest);
    NumberOfDigits(n, 16, k);
  }

  /** The same in decimal, where no letter follows. */
  lemma DecimalWritings(n: nat, k: nat, s: string, rest: string)
    requires Writes(s, Zeros(k) + DigitsIn(n, 10)) && EndsDigits(rest, 10)
    requires !(rest != "" && (rest[0] == 'x' || rest[0] == 'X'))
    ensures LiteralValue(s + rest) == n
  {
    hide Number, Digits, DigitsIn;
    var ds := Zeros(k) + DigitsIn(n, 10);
    WrittenDigits(s, ds, 10, rest);
    NumberOfDigits(n, 10, k);
    if |s| >= 2 && s[0] == '0' {
      NoLetter(s, ds, 1);
      assert (s + rest)[1] == s[1];
    } else if |s + rest| >= 2 && |s| == 1 {
      assert (s + rest)[1] == rest[0];
    }
  }

  lemma {:induction false} NoLetter(s: string, ds: seq<nat>, i: nat)
    requires Writes(s, ds) && (forall d <- ds :: d < 10) && i < |s|
    ensures s[i] != 'x' && s[i] != 'X'
    decreases i
  {
    if i == 0 {
      if s[0] != '_' {
        DigitAt(ds[0]);
      }
    } else if s[0] == '_' {
      NoLetter(s[1..], ds, i - 1);
    } else {
      assert forall d <- ds[1..] :: d in ds;
      NoLetter(s[1..], ds[1..], i - 1);
    }
  }
}
