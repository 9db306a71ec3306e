/** String helpers the games rely on: `String.prototype.trim`, `toUpperCase` and the decimal
    rendering of a counter inside a template literal (`Player ${i + 1}`). */
module Text {

  /** The characters `trim` strips: the ASCII blanks, no-break space, byte-order mark, the
      line and paragraph separators and the Unicode space separators. */
  const Blanks: set<char> := {
    ' ', '\t', '\n', '\U{000B}', '\U{000C}', '\r', '\U{00A0}', '\U{1680}',
    '\U{2000}', '\U{2001}', '\U{2002}', '\U{2003}', '\U{2004}', '\U{2005}', '\U{2006}',
    '\U{2007}', '\U{2008}', '\U{2009}', '\U{200A}', '\U{2028}', '\U{2029}', '\U{202F}',
    '\U{205F}', '\U{3000}', '\U{FEFF}'
  }

  predicate IsSpace(c: char)
  {
    c in Blanks
  }

  /** Drops the leading blanks: the result is the suffix that starts at the first non-blank. */
  function TrimStart(s: string): (r: string)
    ensures |r| <= |s| && r == s[|s| - |r|..]
    ensures r == [] || !IsSpace(r[0])
    ensures forall k :: 0 <= k < |s| - |r| ==> IsSpace(s[k])
  {
    if s == [] || !IsSpace(s[0]) then s else TrimStart(s[1..])
  }

  /** Drops the trailing blanks: the result is the prefix that ends at the last non-blank. */
  function TrimEnd(s: string): (r: string)
    ensures |r| <= |s| && r == s[..|r|]
    ensures r == [] || !IsSpace(r[|r| - 1])
    ensures forall k :: |r| <= k < |s| ==> IsSpace(s[k])
  {
    if s == [] || !IsSpace(s[|s| - 1]) then s else TrimEnd(s[..|s| - 1])
  }

  /** `s.trim()`: no blank at either end. */
  function Trim(s: string): (r: string)
    ensures |r| <= |s|
    ensures r == [] || (!IsSpace(r[0]) && !IsSpace(r[|r| - 1]))
  {
    var a := TrimStart(s);
    assert TrimEnd(a) != [] ==> TrimEnd(a)[0] == a[0];
    TrimEnd(a)
  }

  /** What `trim` cuts off is blanks only: the result is the slice of `s` that starts after the
      leading blanks, and everything after it is blank. */
  lemma TrimCutsOnlyBlanks(s: string)
    ensures var i := |s| - |TrimStart(s)|;
      && i + |Trim(s)| <= |s|
      && Trim(s) == s[i..i + |Trim(s)|]
      && (forall k :: 0 <= k < i ==> IsSpace(s[k]))
      && (forall k :: i + |Trim(s)| <= k < |s| ==> IsSpace(s[k]))
  {
    var a := TrimStart(s);
    var r := TrimEnd(a);
    var i := |s| - |a|;
    assert a == s[i..];
    assert r == a[..|r|];
    forall k | i + |r| <= k < |s|
      ensures IsSpace(s[k])
    {
      assert s[k] == a[k - i];
    }
  }

  /** Trimming a trimmed string changes nothing. */
  lemma TrimIdempotent(s: string)
    ensures Trim(Trim(s)) == Trim(s)
  {
    var t := Trim(s);
    if t != [] {
      assert TrimStart(t) == t;
      assert TrimEnd(t) == t;
    }
  }

  /** `toUpperCase` on the ASCII letters. */
  function UpperChar(c: char): (u: char)
    ensures !('a' <= u <= 'z')
    ensures !('a' <= c <= 'z') ==> u == c
  {
    if 'a' <= c <= 'z' then (c as int - 'a' as int + 'A' as int) as char else c
  }

  function ToUpper(s: string): (r: string)
    ensures |r| == |s|
    ensures forall k :: 0 <= k < |r| ==> r[k] == UpperChar(s[k])
  {
    if s == [] then [] else [UpperChar(s[0])] + ToUpper(s[1..])
  }

  lemma ToUpperIdempotent(s: string)
    ensures ToUpper(ToUpper(s)) == ToUpper(s)
  {
  }

  function Digit(d: nat): (c: char)
    requires d < 10
    ensures '0' <= c <= '9'
  {
    ('0' as int + d) as char
  }

  /** The decimal numeral of `n`, as JavaScript prints a non-negative integer. */
  function NatToString(n: nat): (r: string)
    ensures |r| >= 1
    ensures forall k :: 0 <= k < |r| ==> '0' <= r[k] <= '9'
    ensures r[0] == '0' ==> n == 0 && r == "0"
  {
    if n < 10 then [Digit(n)] else NatToString(n / 10) + [Digit(n % 10)]
  }

  /** Reads a string of decimal digits back as a number. */
  function DigitsValue(s: string): nat
    requires forall k :: 0 <= k < |s| ==> '0' <= s[k] <= '9'
  {
    if s == [] then 0 else 10 * DigitsValue(s[..|s| - 1]) + (s[|s| - 1] as int - '0' as int)
  }

  /** The numeral names the number: reading it back gives `n`. */
  lemma {:induction false} NatToStringRoundTrip(n: nat)
    ensures DigitsValue(NatToString(n)) == n
  {
    if n >= 10 {
      NatToStringRoundTrip(n / 10);
      var r := NatToString(n);
      assert r[..|r| - 1] == NatToString(n / 10);
    }
  }

  /** Different numbers get different numerals. */
  lemma NatToStringInjective(m: nat, n: nat)
    requires NatToString(m) == NatToString(n)
    ensures m == n
  {
    NatToStringRoundTrip(m);
    NatToStringRoundTrip(n);
  }
}
