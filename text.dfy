/** Character and string helpers shared by the modules: ASCII classes, strip, decimal digits. */
module Text {
  predicate IsDigit(c: char) {
    '0' <= c <= '9'
  }

  /** The whitespace Python's `str.strip()` removes, restricted to ASCII: space, tab, newline,
      carriage return, vertical tab, form feed and the four separators 0x1C-0x1F. */
  predicate IsSpace(c: char) {
    c == ' ' || c == '\t' || c == '\n' || c == '\r' || c == 11 as char || c == 12 as char
    || 28 as char <= c <= 31 as char
  }

  predicate AllDigits(s: string) {
    forall i | 0 <= i < |s| :: IsDigit(s[i])
  }

  /** The value of a decimal numeral (leading zeros allowed, as Python's `int` accepts them). */
  function DigitsValue(s: string): (n: nat)
    requires AllDigits(s)
    ensures |s| == 1 ==> n == (s[0] as int) - ('0' as int)
  {
    if s == [] then 0 else DigitsValue(s[..|s| - 1]) * 10 + ((s[|s| - 1] as int) - ('0' as int))
  }

  /** The decimal numeral of `n` without leading zeros. */
  function NatToString(n: nat): (s: string)
    ensures |s| >= 1 && AllDigits(s)
    ensures n < 10 <==> |s| == 1
    decreases n
  {
    if n < 10 then [(('0' as int) + n) as char]
    else NatToString(n / 10) + [(('0' as int) + n % 10) as char]
  }

  /** The decimal numeral of an integer, with a leading '-' when negative. */
  function IntToString(n: int): string {
    if n < 0 then "-" + NatToString(-n) else NatToString(n)
  }

  /** Reading back a numeral written by `NatToString` gives the number. */
  lemma {:induction false} NatToStringRoundTrip(n: nat)
    ensures DigitsValue(NatToString(n)) == n
    decreases n
  {
    if n >= 10 {
      NatToStringRoundTrip(n / 10);
      var s := NatToString(n);
      assert s[..|s| - 1] == NatToString(n / 10);
    }
  }

  /** Index of the first character that is not whitespace, at or after `i`. */
  function SkipSpace(s: string, i: nat): (j: nat)
    requires i <= |s|
    ensures i <= j <= |s|
    ensures forall k | i <= k < j :: IsSpace(s[k])
    ensures j < |s| ==> !IsSpace(s[j])
    decreases |s| - i
  {
    if i == |s| || !IsSpace(s[i]) then i else SkipSpace(s, i + 1)
  }

  /** Index one past the last character that is not whitespace, at or before `j`. */
  function SkipSpaceBack(s: string, j: nat): (i: nat)
    requires j <= |s|
    ensures i <= j
    ensures forall k | i <= k < j :: IsSpace(s[k])
    ensures i > 0 ==> !IsSpace(s[i - 1])
  {
    if j == 0 || !IsSpace(s[j - 1]) then j else SkipSpaceBack(s, j - 1)
  }

  /** `str.strip()` over ASCII whitespace. */
  function Strip(s: string): string {
    var i := SkipSpace(s, 0);
    if i == |s| then [] else s[i..SkipSpaceBack(s, |s|)]
  }

  /**
   * `Strip` removes exactly the leading and trailing whitespace: the result is
   * a slice of `s` with only whitespace around it, it neither starts nor ends
   * with whitespace, and it is empty exactly when `s` is all whitespace.
   */
  lemma StripMeaning(s: string)
    ensures exists i, j | 0 <= i <= j <= |s| ::
              && Strip(s) == s[i..j]
              && (forall k | 0 <= k < i :: IsSpace(s[k]))
              && (forall k | j <= k < |s| :: IsSpace(s[k]))
    ensures Strip(s) != [] ==> !IsSpace(Strip(s)[0]) && !IsSpace(Strip(s)[|Strip(s)| - 1])
    ensures Strip(s) == [] <==> forall k | 0 <= k < |s| :: IsSpace(s[k])
  {
    var i := SkipSpace(s, 0);
    var j := SkipSpaceBack(s, |s|);
    if i == |s| {
      assert s[0..0] == [];
    } else {
      assert !IsSpace(s[i]);
      assert i < j;
    }
  }

  /** Stripping twice is stripping once. */
  lemma StripIdempotent(s: string)
    ensures Strip(Strip(s)) == Strip(s)
  {
    var r := Strip(s);
    StripMeaning(s);
    if r != [] {
      assert SkipSpace(r, 0) == 0;
      assert SkipSpaceBack(r, |r|) == |r|;
      assert r[0..|r|] == r;
    }
  }

  /**
   * ASCII lower-casing, as JavaScript's `toLowerCase` and Python's
   * `str.lower()` do on ASCII text. Their full Unicode mapping gives the same
   * answers wherever this one is used: outside ASCII only the Kelvin sign
   * (to `k`) and `İ` (to `i` and a combining dot) lower to ASCII letters,
   * and neither `k` nor `i` occurs in "measure" or in any key of
   * `Qasm.GateNames`, so no other character can take part in a match.
   */
  function ToLower(s: string): (r: string)
    ensures |r| == |s|
    ensures forall i | 0 <= i < |s| :: r[i] == if 'A' <= s[i] <= 'Z' then (s[i] as int + 32) as char else s[i]
  {
    seq(|s|, i requires 0 <= i < |s| => if 'A' <= s[i] <= 'Z' then (s[i] as int + 32) as char else s[i])
  }
}
