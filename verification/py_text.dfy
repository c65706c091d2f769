/**
 * The Python string operations the downloader relies on, over `seq<char>`:
 * `str.strip()` (to reject a blank link), `str.split(" ")[0]` (to recover a
 * format id from a menu label) and `str(int)` (to render a stream height).
 */
module PyText {

  /** The characters for which Python's `str.isspace()` holds; `str.strip()` removes exactly these. */
  predicate IsSpace(c: char) {
    || c == ' '
    || ('\t' <= c <= '\r')
    || ('\U{1C}' <= c <= '\U{1F}')
    || c == '\U{85}' || c == '\U{A0}' || c == '\U{1680}'
    || ('\U{2000}' <= c <= '\U{200A}')
    || c == '\U{2028}' || c == '\U{2029}' || c == '\U{202F}' || c == '\U{205F}' || c == '\U{3000}'
  }

  /** Every character of `s` is whitespace (this includes the empty string). */
  predicate IsBlank(s: string) {
    forall i :: 0 <= i < |s| ==> IsSpace(s[i])
  }

  /** `s` without its leading whitespace. */
  function TrimLeft(s: string): (r: string)
    ensures |r| <= |s| && r == s[|s| - |r|..]
    ensures forall i :: 0 <= i < |s| - |r| ==> IsSpace(s[i])
    ensures r != [] ==> !IsSpace(r[0])
    decreases |s|
  {
    if s != [] && IsSpace(s[0]) then TrimLeft(s[1..]) else s
  }

  /** `s` without its trailing whitespace. */
  function TrimRight(s: string): (r: string)
    ensures |r| <= |s| && r == s[..|r|]
    ensures forall i :: |r| <= i < |s| ==> IsSpace(s[i])
    ensures r != [] ==> !IsSpace(r[|r| - 1])
    decreases |s|
  {
    if s != [] && IsSpace(s[|s| - 1]) then TrimRight(s[..|s| - 1]) else s
  }

  /** Python's `s.strip()` with no argument. */
  function Strip(s: string): (r: string)
    ensures r != [] ==> !IsSpace(r[0]) && !IsSpace(r[|r| - 1])
  {
    TrimRight(TrimLeft(s))
  }

  /** `not s.strip()` holds exactly for the empty and the all-whitespace strings. */
  lemma StripEmptyIffBlank(s: string)
    ensures Strip(s) == [] <==> IsBlank(s)
  {
    var t := TrimLeft(s);
    if Strip(s) != [] {
      assert t != [];
      assert !IsSpace(s[|s| - |t|]);
    }
  }

  /**
   * Python's `s.split(" ")[0]`: the text before the first space character,
   * or all of `s` when it holds no space.
   */
  function SplitFirst(s: string): (r: string)
    ensures r <= s
    ensures ' ' !in r
    ensures |r| < |s| ==> s[|r|] == ' '
  {
    if s == [] || s[0] == ' ' then [] else [s[0]] + SplitFirst(s[1..])
  }

  /** Splitting `a + " " + b` at the first space gives back `a` whenever `a` holds no space. */
  lemma SplitFirstOfJoin(a: string, b: string)
    requires ' ' !in a
    ensures SplitFirst(a + " " + b) == a
  {
    var s := a + " " + b;
    assert s[..|a|] == a && s[|a|] == ' ';
  }

  /** The decimal digit for `d`. */
  function Digit(d: nat): (c: char)
    requires d < 10
    ensures '0' <= c <= '9' && DigitValue(c) == d
  {
    ('0' as int + d) as char
  }

  /** The value of a decimal digit character. */
  function DigitValue(c: char): int {
    c as int - '0' as int
  }

  /** The number a string of decimal digits denotes, read left to right. */
  function DigitsValue(s: string): int {
    if s == [] then 0 else DigitsValue(s[..|s| - 1]) * 10 + DigitValue(s[|s| - 1])
  }

  /** Python's `str(n)` for a non-negative integer. */
  function NatToString(n: nat): (r: string)
    ensures r != []
    ensures forall i :: 0 <= i < |r| ==> '0' <= r[i] <= '9'
  {
    if n < 10 then [Digit(n)] else NatToString(n / 10) + [Digit(n % 10)]
  }

  /** Python's `str(n)` for an integer: its decimal digits, after a minus sign when negative. */
  function IntToString(n: int): (r: string)
    ensures r != [] && ' ' !in r
    ensures (r[0] == '-') == (n < 0)
    ensures forall i :: (if n < 0 then 1 else 0) <= i < |r| ==> '0' <= r[i] <= '9'
  {
    if n < 0 then "-" + NatToString(-n) else NatToString(n)
  }

  /**
   * The digits of `NatToString(n)` denote `n`, and they start with a zero
   * only when `n` is zero: it is the decimal numeral of `n`.
   */
  lemma {:induction false} NatToStringValue(n: nat)
    ensures DigitsValue(NatToString(n)) == n
    ensures NatToString(n)[0] == '0' <==> n == 0
  {
    var r := NatToString(n);
    if n >= 10 {
      NatToStringValue(n / 10);
      var prefix := NatToString(n / 10);
      assert r == prefix + [Digit(n % 10)];
      assert r[..|r| - 1] == prefix;
      assert r[0] == prefix[0];
    } else {
      assert r[..0] == [];
    }
  }

  /**
   * `IntToString(n)` is the decimal numeral of `|n|`, with a minus sign in
   * front exactly when `n` is negative.
   */
  lemma IntToStringValue(n: int)
    ensures forall i :: (if n < 0 then 1 else 0) <= i < |IntToString(n)| ==> '0' <= IntToString(n)[i] <= '9'
    ensures n >= 0 ==> DigitsValue(IntToString(n)) == n && (IntToString(n)[0] == '0' ==> n == 0)
    ensures n < 0 ==> IntToString(n)[0] == '-' && DigitsValue(IntToString(n)[1..]) == -n
                      && IntToString(n)[1] != '0'
  {
    if n < 0 {
      NatToStringValue(-n);
      assert IntToString(n)[1..] == NatToString(-n);
    } else {
      NatToStringValue(n);
    }
  }
}
