/**
 The string operations the controller takes from Rust's standard library: splitting,
 trimming, substring search, and decimal printing and parsing of unsigned integers.
 Strings are sequences of characters; offsets count characters.
 */
module Text {
  import opened Wrappers

  type u16 = n: int | 0 <= n < 0x1_0000
  type u32 = n: int | 0 <= n < 0x1_0000_0000

  const U16_MAX: nat := 0xFFFF
  const U32_MAX: nat := 0xFFFF_FFFF

  // ----- Splitting and joining -----

  lemma Associative<T>(a: seq<T>, b: seq<T>, c: seq<T>)
    ensures (a + b) + c == a + (b + c)
  {
  }

  /** `s.split(c)`: the pieces between the occurrences of `c`; never empty. */
  function Split(s: string, c: char): (parts: seq<string>)
    ensures |parts| >= 1
  {
    if s == "" then [""]
    else
      var rest := Split(s[1..], c);
      if s[0] == c then [""] + rest else [[s[0]] + rest[0]] + rest[1..]
  }

  lemma {:induction false} SplitAppend(a: string, c: char, b: string)
    ensures Split(a + [c] + b, c) == Split(a, c) + Split(b, c)
  {
    if a == "" {
      assert a + [c] + b == [c] + b;
      assert ([c] + b)[1..] == b;
    } else {
      var whole := a + [c] + b;
      assert whole[0] == a[0] && whole[1..] == a[1..] + [c] + b;
      SplitAppend(a[1..], c, b);
    }
  }

  lemma {:induction false} SplitWhole(s: string, c: char)
    requires c !in s
    ensures Split(s, c) == [s]
  {
    if s != "" {
      SplitWhole(s[1..], c);
      assert [s[0]] + s[1..] == s;
    }
  }

  /** `s.split_once(c)`: the text before and after the first `c`. */
  function SplitOnce(s: string, c: char): Option<(string, string)> {
    if s == "" then None
    else if s[0] == c then Some(("", s[1..]))
    else match SplitOnce(s[1..], c)
      case None => None
      case Some((before, after)) => Some(([s[0]] + before, after))
  }

  lemma {:induction false} SplitOnceAt(a: string, c: char, b: string)
    requires c !in a
    ensures SplitOnce(a + [c] + b, c) == Some((a, b))
  {
    var whole := a + [c] + b;
    if a == "" {
      assert whole[1..] == b;
    } else {
      assert whole[1..] == a[1..] + [c] + b;
      SplitOnceAt(a[1..], c, b);
      assert [a[0]] + a[1..] == a;
    }
  }

  lemma {:induction false} SplitOnceNone(s: string, c: char)
    ensures SplitOnce(s, c).None? <==> c !in s
  {
    if s != "" {
      SplitOnceNone(s[1..], c);
      assert s == [s[0]] + s[1..];
    }
  }

  // ----- Trimming -----

  /** The characters with Unicode property White_Space. */
  predicate IsWhitespace(c: char) {
    || '\t' <= c <= '\r' || c == ' ' || c == '\U{85}' || c == '\U{A0}' || c == '\U{1680}'
    || '\U{2000}' <= c <= '\U{200A}' || c == '\U{2028}' || c == '\U{2029}'
    || c == '\U{202F}' || c == '\U{205F}' || c == '\U{3000}'
  }

  /** `s.trim()`. */
  function Trim(s: string): string {
    if s != "" && IsWhitespace(s[0]) then Trim(s[1..])
    else if s != "" && IsWhitespace(s[|s| - 1]) then Trim(s[..|s| - 1])
    else s
  }

  /** Blanks, as people write them around numbers. */
  predicate Blank(s: string) {
    forall i | 0 <= i < |s| :: s[i] == ' ' || s[i] == '\t'
  }

  lemma {:induction false} TrimFront(before: string, rest: string)
    requires Blank(before)
    ensures Trim(before + rest) == Trim(rest)
  {
    if before == "" {
      assert before + rest == rest;
    } else {
      assert (before + rest)[0] == before[0] && (before + rest)[1..] == before[1..] + rest;
      TrimFront(before[1..], rest);
    }
  }

  lemma {:induction false} TrimBack(text: string, after: string)
    requires Blank(after) && text != "" && IsDigit(text[0]) && IsDigit(text[|text| - 1])
    ensures Trim(text + after) == text
  {
    if after == "" {
      assert text + after == text;
    } else {
      var whole, n := text + after, |after| - 1;
      assert whole[0] == text[0] && whole[|whole| - 1] == after[n] && whole[..|whole| - 1] == text + after[..n];
      TrimBack(text, after[..n]);
    }
  }

  /** Trimming takes away the blanks around a text that begins and ends with a digit. */
  lemma TrimTakesBlanks(before: string, text: string, after: string)
    requires Blank(before) && Blank(after) && text != "" && IsDigit(text[0]) && IsDigit(text[|text| - 1])
    ensures Trim(before + text + after) == text
  {
    Associative(before, text, after);
    TrimFront(before, text + after);
    TrimBack(text, after);
  }

  /** Trimming adds no characters. */
  lemma {:induction false} TrimKeepsOut(s: string, c: char)
    requires c !in s
    ensures c !in Trim(s)
  {
    if s != "" && IsWhitespace(s[0]) {
      assert s == [s[0]] + s[1..];
      TrimKeepsOut(s[1..], c);
    } else if s != "" && IsWhitespace(s[|s| - 1]) {
      assert s == s[..|s| - 1] + [s[|s| - 1]];
      TrimKeepsOut(s[..|s| - 1], c);
    }
  }

  // ----- Substring search -----

  /** `s.find(pattern)`: the offset of the first occurrence. */
  function Find(s: string, pattern: string): (at: Option<nat>)
    ensures at.Some? ==> at.value + |pattern| <= |s|
  {
    if pattern <= s then Some(0)
    else if s == "" then None
    else match Find(s[1..], pattern)
      case None => None
      case Some(i) => Some(i + 1)
  }

  predicate Contains(s: string, pattern: string) {
    Find(s, pattern).Some?
  }

  /** The offset of a match behind skipped text. */
  function Shift(skipped: nat, at: Option<nat>): Option<nat> {
    match at case None => None case Some(i) => Some(skipped + i)
  }

  /** A search passes over text in which the pattern starts nowhere. */
  lemma {:induction false} FindSkips(a: string, b: string, pattern: string)
    requires forall i | 0 <= i < |a| :: !(pattern <= (a + b)[i..])
    ensures Find(a + b, pattern) == Shift(|a|, Find(b, pattern))
  {
    if a == "" {
      assert a + b == b;
    } else {
      assert (a + b)[0..] == a + b;
      assert (a + b)[1..] == a[1..] + b;
      forall i | 0 <= i < |a[1..]|
        ensures !(pattern <= (a[1..] + b)[i..])
      {
        assert (a[1..] + b)[i..] == (a + b)[i + 1..];
      }
      FindSkips(a[1..], b, pattern);
    }
  }

  /** The offset found is that of the first occurrence, and there is none exactly when none is found. */
  lemma {:induction false} FindIsFirst(s: string, pattern: string)
    ensures
      match Find(s, pattern)
      case Some(i) => pattern <= s[i..] && forall j | 0 <= j < i :: !(pattern <= s[j..])
      case None => forall j | 0 <= j <= |s| :: !(pattern <= s[j..])
  {
    if pattern <= s {
      assert s[0..] == s;
    } else if s != "" {
      FindIsFirst(s[1..], pattern);
      forall j | 0 < j <= |s|
        ensures s[j..] == s[1..][j - 1..]
      {
      }
    }
  }

  // ----- Decimal numbers -----

  predicate IsDigit(c: char) {
    '0' <= c <= '9'
  }

  predicate AllDigits(s: string) {
    forall i | 0 <= i < |s| :: IsDigit(s[i])
  }

  function DigitChar(d: nat): (c: char)
    requires d < 10
    ensures IsDigit(c) && DigitValue(c) == d
  {
    ('0' as int + d) as char
  }

  function DigitValue(c: char): (d: nat)
    requires IsDigit(c)
    ensures d < 10
  {
    c as int - '0' as int
  }

  /** The decimal form `format!("{}", n)` of an unsigned integer. */
  function Decimal(n: nat): (s: string)
    ensures s != "" && AllDigits(s)
  {
    if n < 10 then [DigitChar(n)] else Decimal(n / 10) + [DigitChar(n % 10)]
  }

  function DigitsValue(s: string): nat
    requires AllDigits(s)
  {
    if s == "" then 0 else 10 * DigitsValue(s[..|s| - 1]) + DigitValue(s[|s| - 1])
  }

  /** `s.parse()` for an unsigned type: an optional plus sign, then at least one digit. */
  function ParseUnsigned(s: string, max: nat): (n: Option<nat>)
    ensures n.Some? ==> n.value <= max
  {
    var digits := if s != "" && s[0] == '+' then s[1..] else s;
    if digits == "" || !AllDigits(digits) || DigitsValue(digits) > max then None
    else Some(DigitsValue(digits))
  }

  lemma {:induction false} DecimalValue(n: nat)
    ensures DigitsValue(Decimal(n)) == n
  {
    if n >= 10 {
      DecimalValue(n / 10);
      assert Decimal(n)[..|Decimal(n)| - 1] == Decimal(n / 10);
    }
  }

  /** Printing a number and parsing it back gives the number, or nothing if it is too large. */
  lemma ParseDecimal(n: nat, max: nat)
    ensures ParseUnsigned(Decimal(n), max) == if n <= max then Some(n) else None
  {
    DecimalValue(n);
    assert IsDigit(Decimal(n)[0]);
  }

  function Zeros(k: nat): string {
    seq(k, i => '0')
  }

  lemma DecimalSnoc(v: nat, d: nat)
    requires d < 10
    ensures DigitChar(d) == Decimal(d)[0] && Decimal(d) == [DigitChar(d)]
    ensures v > 0 ==> Decimal(10 * v + d) == Decimal(v) + [DigitChar(d)]
  {
    assert v > 0 ==> (10 * v + d) / 10 == v && (10 * v + d) % 10 == d;
  }

  /** One more digit behind a number in decimal form with leading zeros. */
  lemma DigitAppended(init: string, k: nat, v: nat, d: nat) returns (k': nat)
    requires d < 10 && init == Zeros(k) + Decimal(v)
    ensures init + [DigitChar(d)] == Zeros(k') + Decimal(10 * v + d)
  {
    DecimalSnoc(v, d);
    if v == 0 {
      DecimalSnoc(0, 0);
      assert init == Zeros(k + 1);
      k' := k + 1;
    } else {
      k' := k;
    }
  }

  /** Digits are the decimal form of their value behind leading zeros. */
  lemma {:induction false} DigitsAreDecimal(s: string) returns (k: nat)
    requires s != "" && AllDigits(s)
    ensures s == Zeros(k) + Decimal(DigitsValue(s))
  {
    var init := s[..|s| - 1];
    var v, d := DigitsValue(init), DigitValue(s[|s| - 1]);
    assert s == init + [DigitChar(d)] && DigitsValue(s) == 10 * v + d;
    if init == "" {
      k := 0;
      DecimalSnoc(0, d);
    } else {
      var k0 := DigitsAreDecimal(init);
      k := DigitAppended(init, k0, v, d);
    }
  }

  lemma {:induction false} ZerosValue(k: nat, n: nat)
    ensures AllDigits(Zeros(k) + Decimal(n)) && DigitsValue(Zeros(k) + Decimal(n)) == n
    decreases n
  {
    var s := Zeros(k) + Decimal(n);
    if n >= 10 {
      ZerosValue(k, n / 10);
      assert s[..|s| - 1] == Zeros(k) + Decimal(n / 10);
    } else {
      assert s[..|s| - 1] == Zeros(k);
      AllZeros(k);
    }
  }

  lemma {:induction false} AllZeros(k: nat)
    ensures DigitsValue(Zeros(k)) == 0
  {
    if k > 0 {
      assert Zeros(k)[..k - 1] == Zeros(k - 1);
      AllZeros(k - 1);
    }
  }

  /** What parses to a number: its decimal form up to the maximum, behind any zeros and at most one plus sign. */
  lemma ParseUnsignedIff(s: string, max: nat, n: nat)
    ensures ParseUnsigned(s, max) == Some(n)
       <==> n <= max && exists k: nat :: s == Zeros(k) + Decimal(n) || s == "+" + (Zeros(k) + Decimal(n))
  {
    if ParseUnsigned(s, max) == Some(n) {
      var digits := if s[0] == '+' then s[1..] else s;
      var k := DigitsAreDecimal(digits);
      assert s == digits || s == "+" + digits;
    }
    if k: nat :| n <= max && (s == Zeros(k) + Decimal(n) || s == "+" + (Zeros(k) + Decimal(n))) {
      ZerosValue(k, n);
      var digits := Zeros(k) + Decimal(n);
      assert digits != "" && IsDigit(digits[0]);
      assert ("+" + digits)[1..] == digits;
    }
  }

  predicate NoDigits(s: string) {
    forall c | c in s :: !IsDigit(c)
  }

  /** Text without a digit is no number. */
  lemma NoDigitNoNumber(s: string, max: nat)
    requires NoDigits(s)
    ensures ParseUnsigned(s, max) == None
  {
    var digits := if s != "" && s[0] == '+' then s[1..] else s;
    if digits != "" {
      assert digits[0] in s;
    }
  }

  lemma DecimalInjective(m: nat, n: nat)
    requires Decimal(m) == Decimal(n)
    ensures m == n
  {
    DecimalValue(m);
    DecimalValue(n);
  }

  /** Text whose first and last characters are not white space is left alone by trimming. */
  lemma DecimalPlain(n: nat)
    ensures Trim(Decimal(n)) == Decimal(n)
    ensures ',' !in Decimal(n) && ':' !in Decimal(n) && '-' !in Decimal(n) && '<' !in Decimal(n)
  {
    var s := Decimal(n);
    assert IsDigit(s[0]) && IsDigit(s[|s| - 1]);
  }
}
