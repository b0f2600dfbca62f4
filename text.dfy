/** The string operations the services and pages use: `toLowerCase`,
    `includes`, `trim`, `String(n)` and `padStart`. */
module Text {

  // ---- Case folding and substring search ----

  /** `toLowerCase` on one character, for the ASCII letters. */
  function Lower(c: char): char {
    if 'A' <= c <= 'Z' then (c as int + 32) as char else c
  }

  function LowerStr(s: string): (r: string)
    ensures |r| == |s| && forall k :: 0 <= k < |s| ==> r[k] == Lower(s[k])
  {
    seq(|s|, k requires 0 <= k < |s| => Lower(s[k]))
  }

  predicate IsPrefix(p: string, s: string) {
    |p| <= |s| && s[..|p|] == p
  }

  /** `s.includes(q)`: `q` occurs in `s` at some position (the empty string
      occurs everywhere). */
  predicate Contains(s: string, q: string)
    decreases |s|
  {
    IsPrefix(q, s) || (|s| > 0 && Contains(s[1..], q))
  }

  /** `q` occurs in `s` starting at position `i`. */
  ghost predicate OccursAt(s: string, q: string, i: int) {
    0 <= i <= |s| - |q| && s[i..i + |q|] == q
  }

  /** A slice of `s` starting after its head is the matching slice of its tail. */
  lemma SliceOfTail(s: string, i: int, n: nat)
    requires 1 <= i && i + n <= |s|
    ensures s[i..i + n] == s[1..][i - 1..i - 1 + n]
  {
    var a := s[i..i + n];
    var b := s[1..][i - 1..i - 1 + n];
    assert |a| == n == |b|;
    forall k | 0 <= k < n
      ensures a[k] == b[k]
    {
      assert a[k] == s[i + k];
      assert b[k] == s[1..][i - 1 + k] == s[i + k];
    }
  }

  /** `Contains` agrees with the direct definition of a substring occurrence. */
  lemma {:induction false} ContainsIff(s: string, q: string)
    ensures Contains(s, q) <==> exists i :: OccursAt(s, q, i)
    decreases |s|
  {
    if IsPrefix(q, s) {
      assert OccursAt(s, q, 0);
    } else if |s| > 0 {
      ContainsIff(s[1..], q);
      if Contains(s[1..], q) {
        var i :| OccursAt(s[1..], q, i);
        SliceOfTail(s, i + 1, |q|);
        assert OccursAt(s, q, i + 1);
      } else {
        forall i | 0 <= i <= |s| - |q|
          ensures !OccursAt(s, q, i)
        {
          if i == 0 {
            assert s[0..|q|] == s[..|q|];
          } else {
            SliceOfTail(s, i, |q|);
            assert !OccursAt(s[1..], q, i - 1);
          }
        }
      }
    } else {
      forall i | OccursAt(s, q, i)
        ensures false
      {
      }
    }
  }

  /** `s.toLowerCase().includes(q.toLowerCase())`. */
  predicate ContainsIgnoreCase(s: string, q: string) {
    Contains(LowerStr(s), LowerStr(q))
  }

  /** Searching "an" finds both "Anna" and "Sanders". */
  lemma SearchIsCaseInsensitiveSubstring()
    ensures ContainsIgnoreCase("Anna", "an")
    ensures ContainsIgnoreCase("Sanders", "an")
    ensures !ContainsIgnoreCase("Bob", "an")
  {
    assert LowerStr("an") == "an";
    assert LowerStr("Anna") == "anna";
    assert IsPrefix("an", "anna");
    assert LowerStr("Sanders") == "sanders";
    assert IsPrefix("an", "sanders"[1..]);
    assert LowerStr("Bob") == "bob";
    ContainsIff("bob", "an");
    assert "bob"[0..2] == "bo" && "bob"[1..3] == "ob";
    assert forall i :: OccursAt("bob", "an", i) ==> i == 0 || i == 1;
  }

  // ---- trim ----

  /** The characters `String.prototype.trim` removes: ECMAScript WhiteSpace and
      LineTerminator. */
  predicate IsWhitespace(c: char) {
    var n := c as int;
    (9 <= n <= 13) || n == 32 || n == 0xA0 || n == 0x1680 || (0x2000 <= n <= 0x200A)
    || n == 0x2028 || n == 0x2029 || n == 0x202F || n == 0x205F || n == 0x3000 || n == 0xFEFF
  }

  function TrimStart(s: string): string
    decreases |s|
  {
    if s != [] && IsWhitespace(s[0]) then TrimStart(s[1..]) else s
  }

  function TrimEnd(s: string): string
    decreases |s|
  {
    if s != [] && IsWhitespace(s[|s| - 1]) then TrimEnd(s[..|s| - 1]) else s
  }

  function Trim(s: string): string {
    TrimEnd(TrimStart(s))
  }

  ghost predicate IsBlank(s: string) {
    forall k :: 0 <= k < |s| ==> IsWhitespace(s[k])
  }

  lemma {:induction false} TrimStartEmptyIffBlank(s: string)
    ensures TrimStart(s) == [] <==> IsBlank(s)
    decreases |s|
  {
    if s != [] && IsWhitespace(s[0]) {
      TrimStartEmptyIffBlank(s[1..]);
      assert IsBlank(s) <==> IsBlank(s[1..]) by {
        assert forall k :: 1 <= k < |s| ==> s[k] == s[1..][k - 1];
      }
    }
  }

  lemma {:induction false} TrimEndEmptyIffEmpty(s: string)
    requires IsBlank(s)
    ensures TrimEnd(s) == []
    decreases |s|
  {
    if s != [] {
      TrimEndEmptyIffEmpty(s[..|s| - 1]);
    }
  }

  lemma {:induction false} TrimEndNonEmpty(s: string)
    requires s != [] && !IsWhitespace(s[0])
    ensures TrimEnd(s) != []
    decreases |s|
  {
    if IsWhitespace(s[|s| - 1]) {
      TrimEndNonEmpty(s[..|s| - 1]);
    }
  }

  lemma {:induction false} TrimStartStartsWithNonWhitespace(s: string)
    ensures TrimStart(s) == [] || !IsWhitespace(TrimStart(s)[0])
    decreases |s|
  {
    if s != [] && IsWhitespace(s[0]) {
      TrimStartStartsWithNonWhitespace(s[1..]);
    }
  }

  /** `q.trim() === ""` holds exactly for strings made only of whitespace. */
  lemma TrimEmptyIffBlank(s: string)
    ensures Trim(s) == [] <==> IsBlank(s)
  {
    TrimStartEmptyIffBlank(s);
    TrimStartStartsWithNonWhitespace(s);
    if TrimStart(s) == [] {
      assert TrimEnd([]) == [];
    } else {
      TrimEndNonEmpty(TrimStart(s));
    }
  }

  // ---- Decimal numerals ----

  predicate IsDigit(c: char) {
    '0' <= c <= '9'
  }

  ghost predicate AllDigits(s: string) {
    forall k :: 0 <= k < |s| ==> IsDigit(s[k])
  }

  function DigitChar(d: nat): (c: char)
    requires d < 10
    ensures IsDigit(c)
  {
    ('0' as int + d) as char
  }

  /** `String(n)` for a non-negative integer: no leading zeros, at least one digit. */
  function NatToDecimal(n: nat): (r: string)
    ensures |r| >= 1 && AllDigits(r)
    ensures r[0] == '0' ==> n == 0
    decreases n
  {
    if n < 10 then [DigitChar(n)] else NatToDecimal(n / 10) + [DigitChar(n % 10)]
  }

  /** `String(n)` for any integer. */
  function IntToDecimal(n: int): string {
    if n < 0 then "-" + NatToDecimal(-n) else NatToDecimal(n)
  }

  /** The value of a string of decimal digits (the inverse of `NatToDecimal`). */
  function ParseDecimal(s: string): nat
    requires AllDigits(s)
    decreases |s|
  {
    if s == [] then 0
    else ParseDecimal(s[..|s| - 1]) * 10 + (s[|s| - 1] as int - '0' as int)
  }

  lemma {:induction false} DecimalRoundTrip(n: nat)
    ensures ParseDecimal(NatToDecimal(n)) == n
    decreases n
  {
    if n >= 10 {
      DecimalRoundTrip(n / 10);
      var s := NatToDecimal(n);
      assert s[..|s| - 1] == NatToDecimal(n / 10);
    }
  }

  /** The inverse of `IntToDecimal`. */
  function ParseInt(s: string): int
    requires s != [] && (if s[0] == '-' then AllDigits(s[1..]) else AllDigits(s))
  {
    if s[0] == '-' then -(ParseDecimal(s[1..]) as int) else ParseDecimal(s)
  }

  lemma IntDecimalRoundTrip(n: int)
    ensures var s := IntToDecimal(n);
      s != [] && (if s[0] == '-' then AllDigits(s[1..]) else AllDigits(s)) && ParseInt(s) == n
  {
    if n < 0 {
      DecimalRoundTrip(-n);
      assert IntToDecimal(n)[1..] == NatToDecimal(-n);
    } else {
      DecimalRoundTrip(n);
    }
  }

  /** Different integers print differently, so `x === String(n)` selects one `n`. */
  lemma IntToDecimalInjective(a: int, b: int)
    requires IntToDecimal(a) == IntToDecimal(b)
    ensures a == b
  {
    IntDecimalRoundTrip(a);
    IntDecimalRoundTrip(b);
  }

  // ---- padStart ----

  function Repeat(c: char, n: nat): (r: string)
    ensures |r| == n && forall k :: 0 <= k < n ==> r[k] == c
  {
    seq(n, _ => c)
  }

  /** `s.padStart(width, c)` with a one-character fill. */
  function PadStart(s: string, width: nat, c: char): (r: string)
    ensures |r| == if |s| >= width then |s| else width
    ensures r[|r| - |s|..] == s
    ensures forall k :: 0 <= k < |r| - |s| ==> r[k] == c
  {
    if |s| >= width then s else Repeat(c, width - |s|) + s
  }

  /** Leading zeros do not change the value of a numeral. */
  lemma {:induction false} LeadingZeros(k: nat, s: string)
    requires AllDigits(s)
    ensures AllDigits(Repeat('0', k) + s)
    ensures ParseDecimal(Repeat('0', k) + s) == ParseDecimal(s)
    decreases |s|
  {
    var z := Repeat('0', k);
    if s == [] {
      assert z + s == z;
      AllZeros(k);
    } else {
      var init := s[..|s| - 1];
      LeadingZeros(k, init);
      assert (z + s)[..|z + s| - 1] == z + init;
    }
  }

  lemma {:induction false} AllZeros(k: nat)
    ensures ParseDecimal(Repeat('0', k)) == 0
    decreases k
  {
    if k > 0 {
      assert Repeat('0', k)[..k - 1] == Repeat('0', k - 1);
      AllZeros(k - 1);
    }
  }
}
