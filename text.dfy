/**
  The few JavaScript string operations the handlers use: `trim`, `startsWith`,
  `substring(0, n)` and the decimal rendering of a number in a template literal.
*/
module Text {

  /** The characters JavaScript's `String.prototype.trim` removes: white space and line terminators. */
  predicate IsSpace(c: char) {
    || c == '\t' || c == '\n' || c == '\U{B}' || c == '\U{C}' || c == '\r' || c == ' '
    || c == '\U{A0}' || c == '\U{1680}' || ('\U{2000}' <= c <= '\U{200A}')
    || c == '\U{2028}' || c == '\U{2029}' || c == '\U{202F}' || c == '\U{205F}'
    || c == '\U{3000}' || c == '\U{FEFF}'
  }

  ghost predicate AllSpace(s: string) {
    forall i :: 0 <= i < |s| ==> IsSpace(s[i])
  }

  /** Neither the first nor the last character is white space. */
  predicate Trimmed(s: string) {
    s == [] || (!IsSpace(s[0]) && !IsSpace(s[|s| - 1]))
  }

  function TrimStart(s: string): (r: string)
    ensures |r| <= |s| && r == s[|s| - |r|..]
    ensures AllSpace(s[..|s| - |r|])
    ensures r == [] || !IsSpace(r[0])
  {
    if s != [] && IsSpace(s[0]) then TrimStart(s[1..]) else s
  }

  function TrimEnd(s: string): (r: string)
    ensures |r| <= |s| && r == s[..|r|]
    ensures AllSpace(s[|r|..])
    ensures r == [] || !IsSpace(r[|r| - 1])
  {
    if s != [] && IsSpace(s[|s| - 1]) then TrimEnd(s[..|s| - 1]) else s
  }

  /** `s.trim()`: the string without the white space at its ends. */
  function Trim(s: string): (r: string)
    ensures Trimmed(r)
    ensures |r| <= |s|
  {
    TrimEnd(TrimStart(s))
  }

  /** Trimming only cuts white space off the ends: what remains is an infix, empty only for blank input. */
  lemma TrimCutsSpaceOnly(s: string)
    ensures exists a, b :: 0 <= a <= b <= |s| && Trim(s) == s[a..b] && AllSpace(s[..a]) && AllSpace(s[b..])
    ensures Trim(s) == [] <==> AllSpace(s)
  {
    var t := TrimStart(s);
    var r := TrimEnd(t);
    var a := |s| - |t|;
    assert r == s[a..a + |r|];
    assert AllSpace(s[a + |r|..]) by {
      assert s[a + |r|..] == t[|r|..];
    }
    assert r == [] ==> AllSpace(s) by {
      if r == [] {
        assert t == [];
        assert s[..a] == s;
      }
    }
  }

  /** Trimming leaves a string with no white space at either end as it is. */
  lemma {:induction false} TrimOfTrimmed(s: string)
    requires Trimmed(s)
    ensures Trim(s) == s
  {
    assert TrimStart(s) == s;
    assert TrimEnd(s) == s;
  }

  /** `s.startsWith(p)`. */
  predicate StartsWith(s: string, p: string) {
    |p| <= |s| && s[..|p|] == p
  }

  /** `s.substring(0, n)`: at most the first `n` characters. */
  function Prefix(s: string, n: nat): (r: string)
    ensures |r| <= n && StartsWith(s, r)
    ensures |s| <= n ==> r == s
    ensures n < |s| ==> |r| == n
  {
    if |s| <= n then s else s[..n]
  }

  function DigitChar(d: nat): (c: char)
    requires d < 10
    ensures '0' <= c <= '9'
  {
    ('0' as int + d) as char
  }

  /** The decimal rendering of a non-negative integer, as `${n}` writes it. */
  function NatToString(n: nat): (r: string)
    ensures 1 <= |r|
    ensures 10 <= n ==> 2 <= |r|
    ensures forall i :: 0 <= i < |r| ==> '0' <= r[i] <= '9'
  {
    if n < 10 then [DigitChar(n)] else NatToString(n / 10) + [DigitChar(n % 10)]
  }

  /** Different numbers have different decimal renderings. */
  lemma {:induction false} NatToStringInjective(a: nat, b: nat)
    requires NatToString(a) == NatToString(b)
    ensures a == b
  {
    var s := NatToString(a);
    if a < 10 && b < 10 {
      assert s[0] == DigitChar(a) && s[0] == DigitChar(b);
    } else if a < 10 || b < 10 {
      assert false;
    } else {
      var n := |s|;
      assert s[n - 1] == DigitChar(a % 10) && s[n - 1] == DigitChar(b % 10);
      assert NatToString(a / 10) == s[..n - 1] == NatToString(b / 10);
      NatToStringInjective(a / 10, b / 10);
    }
  }

  /** The decimal rendering of an integer, with a leading `-` when it is negative. */
  function IntToString(i: int): (r: string)
    ensures StartsWith(r, "-") <==> i < 0
  {
    if i < 0 then "-" + NatToString(-i)
    else
      var r := NatToString(i);
      assert '0' <= r[0] <= '9';
      r
  }
}
