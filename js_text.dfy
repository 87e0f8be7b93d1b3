/**
 * The pieces of JavaScript's string semantics that the dashboard relies on:
 * `String.prototype.trim`, the truthiness of an optional string, and the
 * decimal rendering of a non-negative integer in a template literal.
 */
module JsText {
  import opened Wrappers

  /**
   * The characters `trim` removes: ECMAScript's WhiteSpace (tab, vertical
   * tab, form feed, space, no-break space, byte order mark and the Unicode
   * space separators) and LineTerminator (LF, CR, LS, PS).
   */
  predicate IsJsWhitespace(c: char)
  {
    var n := c as int;
    || n == 0x09 || n == 0x0A || n == 0x0B || n == 0x0C || n == 0x0D
    || n == 0x20 || n == 0xA0 || n == 0x1680
    || (0x2000 <= n <= 0x200A)
    || n == 0x2028 || n == 0x2029 || n == 0x202F || n == 0x205F
    || n == 0x3000 || n == 0xFEFF
  }

  predicate AllWhitespace(s: string)
  {
    forall i :: 0 <= i < |s| ==> IsJsWhitespace(s[i])
  }

  /** Length of the whitespace run at the start of `s`. */
  function LeadingWhitespace(s: string): (k: nat)
    ensures k <= |s|
    ensures AllWhitespace(s[..k])
    ensures k < |s| ==> !IsJsWhitespace(s[k])
  {
    if |s| == 0 || !IsJsWhitespace(s[0]) then 0
    else
      var k' := LeadingWhitespace(s[1..]);
      assert s[..k' + 1] == [s[0]] + s[1..][..k'];
      k' + 1
  }

  /** Length of the whitespace run at the end of `s`. */
  function TrailingWhitespace(s: string): (k: nat)
    ensures k <= |s|
    ensures AllWhitespace(s[|s| - k..])
    ensures k < |s| ==> !IsJsWhitespace(s[|s| - 1 - k])
  {
    if |s| == 0 || !IsJsWhitespace(s[|s| - 1]) then 0
    else
      var init := s[..|s| - 1];
      var k' := TrailingWhitespace(init);
      assert s[|s| - (k' + 1)..] == init[|init| - k'..] + [s[|s| - 1]];
      k' + 1
  }

  /**
   * `s.trim()`: the part of `s` between its leading and trailing whitespace.
   * The result is empty exactly when `s` is all whitespace, and otherwise
   * begins and ends with a character `trim` keeps.
   */
  function Trim(s: string): (r: string)
    ensures |r| <= |s|
    ensures r == "" <==> AllWhitespace(s)
    ensures r != "" ==> !IsJsWhitespace(r[0]) && !IsJsWhitespace(r[|r| - 1])
    ensures LeadingWhitespace(s) + |r| <= |s|
    ensures forall i :: 0 <= i < |r| ==> r[i] == s[LeadingWhitespace(s) + i]
    ensures AllWhitespace(s[LeadingWhitespace(s) + |r|..])
  {
    var a := LeadingWhitespace(s);
    var t := TrailingWhitespace(s[a..]);
    TrailingRun(s, a, t);
    TrimEnds(s, a, t);
    var r := s[a..|s| - t];
    assert a + |r| == |s| - t;
    r
  }

  /** The trailing run of `s[a..]` is the tail of `s` itself. */
  lemma TrailingRun(s: string, a: nat, t: nat)
    requires a <= |s| && t == TrailingWhitespace(s[a..])
    ensures a + t <= |s| && AllWhitespace(s[|s| - t..])
    ensures t < |s| - a ==> !IsJsWhitespace(s[|s| - 1 - t])
  {
    assert s[a..][|s| - a - t..] == s[|s| - t..];
  }

  /** The middle part is empty exactly when `s` is all whitespace, and otherwise starts and ends with a kept character. */
  lemma TrimEnds(s: string, a: nat, t: nat)
    requires a == LeadingWhitespace(s) && a + t <= |s|
    requires t < |s| - a ==> !IsJsWhitespace(s[|s| - 1 - t])
    requires AllWhitespace(s[|s| - t..])
    ensures var r := s[a..|s| - t];
      && (r == "" <==> AllWhitespace(s))
      && (r != "" ==> !IsJsWhitespace(r[0]) && !IsJsWhitespace(r[|r| - 1]))
      && (forall i :: 0 <= i < |r| ==> r[i] == s[a + i])
  {
    if a < |s| {
      assert !AllWhitespace(s);
    } else {
      assert s == s[..a];
    }
  }

  /** The input is its leading whitespace, then the trimmed text, then its trailing whitespace. */
  lemma TrimSplitsInput(s: string)
    ensures var a, r := LeadingWhitespace(s), Trim(s);
      && s == s[..a] + r + s[a + |r|..]
      && AllWhitespace(s[..a]) && AllWhitespace(s[a + |r|..])
  {
    var a, r := LeadingWhitespace(s), Trim(s);
    assert s[a..a + |r|] == r;
    SliceSplit(s, a, a + |r|);
  }

  lemma SliceSplit(s: string, i: nat, j: nat)
    requires i <= j <= |s|
    ensures s == s[..i] + s[i..j] + s[j..]
  {
    assert s[i..] == s[i..j] + s[j..];
    assert s == s[..i] + s[i..];
  }

  /** Trimming twice is trimming once. */
  lemma TrimIdempotent(s: string)
    ensures Trim(Trim(s)) == Trim(s)
  {
    var t := Trim(s);
    if t != "" {
      assert LeadingWhitespace(t) == 0;
      var rest := t[0..];
      assert rest == t;
      assert TrailingWhitespace(t) == 0;
    }
  }

  /** JavaScript truthiness of an optional string: present and non-empty. */
  predicate Truthy(s: Option<string>)
  {
    s.Some? && s.value != ""
  }

  predicate IsDigit(c: char)
  {
    '0' <= c <= '9'
  }

  function DigitChar(d: nat): (c: char)
    requires d < 10
    ensures IsDigit(c) && (c as int) - ('0' as int) == d
  {
    ['0', '1', '2', '3', '4', '5', '6', '7', '8', '9'][d]
  }

  /** Value of a string of decimal digits. */
  function DecimalValue(s: string): nat
    requires forall i :: 0 <= i < |s| ==> IsDigit(s[i])
  {
    if s == [] then 0
    else
      assert IsDigit(s[|s| - 1]);
      DecimalValue(s[..|s| - 1]) * 10 + ((s[|s| - 1] as int) - ('0' as int))
  }

  /** `${n}` for a non-negative integer: its shortest decimal numeral. */
  function Decimal(n: nat): (r: string)
    ensures |r| >= 1
    ensures forall i :: 0 <= i < |r| ==> IsDigit(r[i])
    ensures |r| > 1 ==> r[0] != '0'
  {
    if n < 10 then [DigitChar(n)]
    else Decimal(n / 10) + [DigitChar(n % 10)]
  }

  /** Reading back the numeral gives the number. */
  lemma {:induction false} DecimalRoundTrip(n: nat)
    ensures DecimalValue(Decimal(n)) == n
  {
    if n >= 10 {
      DecimalRoundTrip(n / 10);
      var r := Decimal(n);
      assert r[..|r| - 1] == Decimal(n / 10);
    }
  }
}
