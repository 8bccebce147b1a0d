/**
 * Text helpers the source takes from Python's str type: strip() with no
 * arguments, the slicing prefix s[:n] and str() of a natural number.
 */
module Text {

  /** Python's str.isspace() for a single character: exactly these code points. */
  predicate IsSpace(c: char) {
    || '\t' <= c <= '\r'                 // U+0009 to U+000D
    || '\U{001C}' <= c <= ' '             // U+001C to U+0020
    || c == '\U{0085}' || c == '\U{00A0}' || c == '\U{1680}'
    || '\U{2000}' <= c <= '\U{200A}'
    || c == '\U{2028}' || c == '\U{2029}' || c == '\U{202F}' || c == '\U{205F}' || c == '\U{3000}'
  }

  /** Every character of s is whitespace (true of the empty string). */
  predicate AllSpace(s: string) {
    forall i :: 0 <= i < |s| ==> IsSpace(s[i])
  }

  /** How many whitespace characters s starts with. */
  function LeadingSpace(s: string): (n: nat)
    ensures n <= |s| && AllSpace(s[..n])
    ensures n < |s| ==> !IsSpace(s[n])
    decreases |s|
  {
    if s != [] && IsSpace(s[0]) then
      var n := 1 + LeadingSpace(s[1..]);
      assert s[..n] == [s[0]] + s[1..][..n - 1];
      n
    else 0
  }

  /** Where the text of s ends: everything from there on is whitespace, the character before it is not. */
  function ContentEnd(s: string): (e: nat)
    ensures e <= |s| && AllSpace(s[e..])
    ensures e > 0 ==> !IsSpace(s[e - 1])
    decreases |s|
  {
    if s != [] && IsSpace(s[|s| - 1]) then
      var e := ContentEnd(s[..|s| - 1]);
      assert s[e..] == s[..|s| - 1][e..] + [s[|s| - 1]];
      e
    else |s|
  }

  /**
   * Python's s.strip(): s with whitespace removed at both ends. It is empty
   * exactly when s is all whitespace, and otherwise starts and ends with a
   * character that is not whitespace. Nothing else is removed: the result is
   * the slice of s right after its leading whitespace, and all that follows
   * that slice is whitespace.
   */
  function Strip(s: string): (r: string)
    ensures |r| <= |s|
    ensures r == [] <==> AllSpace(s)
    ensures r == [] || (!IsSpace(r[0]) && !IsSpace(r[|r| - 1]))
    ensures LeadingSpace(s) + |r| <= |s| && r == s[LeadingSpace(s)..LeadingSpace(s) + |r|]
    ensures AllSpace(s[LeadingSpace(s) + |r|..])
  {
    var n := LeadingSpace(s);
    if n == |s| then
      assert s[..n] == s;
      []
    else
      var e := ContentEnd(s);
      assert n < e;
      assert !AllSpace(s) by {
        assert !IsSpace(s[n]);
      }
      s[n..e]
  }

  /** The inner characters of s are kept: a string already stripped is its own strip. */
  lemma StripIdempotent(s: string)
    ensures Strip(Strip(s)) == Strip(s)
  {
    var r := Strip(s);
    if r != [] {
      assert LeadingSpace(r) == 0;
      assert ContentEnd(r) == |r|;
      assert r[0..|r|] == r;
    }
  }

  /** Python's s[:n] for n >= 0. */
  function Prefix(s: string, n: nat): (r: string)
    ensures |r| == if |s| <= n then |s| else n
    ensures r == s[..|r|]
  {
    if |s| <= n then s else s[..n]
  }

  function Digit(d: nat): (c: char)
    requires d < 10
    ensures '0' <= c <= '9' && c as int - '0' as int == d
  {
    (d + '0' as int) as char
  }

  /** Python's str(n) for n >= 0: decimal digits, no leading zero. */
  function Decimal(n: nat): (s: string)
    ensures s != [] && forall i :: 0 <= i < |s| ==> '0' <= s[i] <= '9'
    ensures s[0] == '0' ==> n == 0
    decreases n
  {
    if n < 10 then [Digit(n)] else Decimal(n / 10) + [Digit(n % 10)]
  }

  /** The number a string of decimal digits denotes; the reading int() gives of str(n). */
  function DecimalValue(s: string): int
    decreases |s|
  {
    if s == [] then 0 else 10 * DecimalValue(s[..|s| - 1]) + (s[|s| - 1] as int - '0' as int)
  }

  /** int(str(n)) == n: reading the digits back gives the number. */
  lemma {:induction false} DecimalRoundTrip(n: nat)
    ensures DecimalValue(Decimal(n)) == n
    decreases n
  {
    var s := Decimal(n);
    if n < 10 {
      assert s[..|s| - 1] == [];
    } else {
      DecimalRoundTrip(n / 10);
      assert s[..|s| - 1] == Decimal(n / 10);
    }
  }

  /** Different numbers are written differently. */
  lemma DecimalInjective(m: nat, n: nat)
    requires m != n
    ensures Decimal(m) != Decimal(n)
  {
    DecimalRoundTrip(m);
    DecimalRoundTrip(n);
  }
}
