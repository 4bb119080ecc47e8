/**
 * The two pieces of JavaScript string behaviour the screens rely on:
 * `String.prototype.trim`, which the chat uses to ignore blank input, and the
 * decimal rendering of an integer inside a template literal, which the pet
 * screen uses for the number of lessons still to go.
 */
module JsText {

  /**
   * The characters `trim` removes: the ECMAScript WhiteSpace set (tab,
   * vertical tab, form feed, space, no-break space, the byte order mark and
   * the Unicode space separators) and the LineTerminator set (line feed,
   * carriage return, line and paragraph separators).
   */
  predicate IsWhiteSpace(c: char)
  {
    || c == '\t' || c == '\n' || c == '\U{000B}' || c == '\U{000C}' || c == '\r'
    || c == ' ' || c == '\U{00A0}' || c == '\U{1680}'
    || ('\U{2000}' <= c <= '\U{200A}')
    || c == '\U{2028}' || c == '\U{2029}' || c == '\U{202F}' || c == '\U{205F}'
    || c == '\U{3000}' || c == '\U{FEFF}'
  }

  /** Every character of `s` is white space (the empty string included). */
  predicate IsBlank(s: string)
  {
    forall i :: 0 <= i < |s| ==> IsWhiteSpace(s[i])
  }

  /** `s` without its leading white space: a suffix of `s` that starts with a non-space, if it is not empty. */
  function TrimStart(s: string): (r: string)
    ensures |r| <= |s| && r == s[|s| - |r|..]
    ensures IsBlank(s[..|s| - |r|])
    ensures r != "" ==> !IsWhiteSpace(r[0])
  {
    if |s| > 0 && IsWhiteSpace(s[0]) then
      var r := TrimStart(s[1..]);
      var k := |s| - |r|;
      assert IsBlank(s[..k]) by {
        forall i | 0 <= i < k
          ensures IsWhiteSpace(s[..k][i])
        {
          if 0 < i {
            assert s[..k][i] == s[1..][..k - 1][i - 1];
          }
        }
      }
      r
    else s
  }

  /** `s` without its trailing white space: a prefix of `s` that ends with a non-space, if it is not empty. */
  function TrimEnd(s: string): (r: string)
    ensures |r| <= |s| && r == s[..|r|]
    ensures IsBlank(s[|r|..])
    ensures r != "" ==> !IsWhiteSpace(r[|r| - 1])
  {
    if |s| > 0 && IsWhiteSpace(s[|s| - 1]) then
      var r := TrimEnd(s[..|s| - 1]);
      assert IsBlank(s[|r|..]) by {
        var t := s[|r|..];
        forall j | 0 <= j < |t|
          ensures IsWhiteSpace(t[j])
        {
          if j < |t| - 1 {
            assert t[j] == s[..|s| - 1][|r|..][j];
          }
        }
      }
      r
    else s
  }

  /** `s.trim()`: white space removed from both ends. */
  function Trim(s: string): string
  {
    TrimEnd(TrimStart(s))
  }

  /**
   * `s.trim()` is a slice of `s` from which only white space was cut at
   * either end, and it neither starts nor ends with white space.
   */
  lemma TrimIsSlice(s: string)
    ensures exists i ::
      0 <= i <= |s| - |Trim(s)| && Trim(s) == s[i..i + |Trim(s)|] &&
      IsBlank(s[..i]) && IsBlank(s[i + |Trim(s)|..])
    ensures Trim(s) != "" ==> !IsWhiteSpace(Trim(s)[0])
    ensures Trim(s) != "" ==> !IsWhiteSpace(Trim(s)[|Trim(s)| - 1])
  {
    var t := TrimStart(s);
    var r := Trim(s);
    assert r == TrimEnd(t);
    TrimmedBothEnds(s, t, r);
  }

  /**
   * A suffix `t` of `s` after a blank prefix, and a prefix `r` of `t` before a
   * blank suffix, is a slice of `s` with blank text on both sides.
   */
  lemma TrimmedBothEnds(s: string, t: string, r: string)
    requires |t| <= |s| && t == s[|s| - |t|..] && IsBlank(s[..|s| - |t|])
    requires t != "" ==> !IsWhiteSpace(t[0])
    requires |r| <= |t| && r == t[..|r|] && IsBlank(t[|r|..])
    requires r != "" ==> !IsWhiteSpace(r[|r| - 1])
    ensures exists i ::
      0 <= i <= |s| - |r| && r == s[i..i + |r|] &&
      IsBlank(s[..i]) && IsBlank(s[i + |r|..])
    ensures r != "" ==> !IsWhiteSpace(r[0]) && !IsWhiteSpace(r[|r| - 1])
  {
    var i := |s| - |t|;
    assert r == s[i..i + |r|];
    assert s[i + |r|..] == t[|r|..];
    if r != "" {
      assert r[0] == t[0];
    }
  }

  /** `s.trim()` is empty exactly when `s` consists of white space only. */
  lemma {:induction false} TrimEmptyIffBlank(s: string)
    ensures Trim(s) == "" <==> IsBlank(s)
  {
    var t := TrimStart(s);
    if Trim(s) == "" {
      // A non-empty `t` would start with a non-space that TrimEnd keeps.
      assert IsBlank(t[0..]);
      assert t == "";
      assert s[..|s|] == s;
    }
  }

  /** The decimal digit character for 0 to 9. */
  function DigitChar(d: int): (c: char)
    requires 0 <= d < 10
    ensures '0' <= c <= '9'
  {
    (('0' as int) + d) as char
  }

  /** The value of a decimal digit character. */
  function DigitValue(c: char): int
  {
    (c as int) - ('0' as int)
  }

  /** A non-negative integer in decimal, as JavaScript writes it: no sign and no leading zero. */
  function NatToString(n: nat): string
  {
    if n < 10 then [DigitChar(n)] else NatToString(n / 10) + [DigitChar(n % 10)]
  }

  /** An integer in decimal, with a leading minus sign when it is negative. */
  function IntToString(n: int): string
  {
    if n < 0 then "-" + NatToString(-n) else NatToString(n)
  }

  /** The number a string of decimal digits denotes, reading left to right. */
  function DecimalValue(s: string): int
  {
    if |s| == 0 then 0 else DecimalValue(s[..|s| - 1]) * 10 + DigitValue(s[|s| - 1])
  }

  /**
   * The decimal rendering of n is a non-empty string of digits, without a
   * leading zero unless n is 0, that denotes n.
   */
  lemma {:induction false} NatToStringDenotes(n: nat)
    ensures NatToString(n) != ""
    ensures forall i :: 0 <= i < |NatToString(n)| ==> '0' <= NatToString(n)[i] <= '9'
    ensures NatToString(n)[0] == '0' ==> n == 0
    ensures DecimalValue(NatToString(n)) == n
    decreases n
  {
    if n >= 10 {
      NatToStringDenotes(n / 10);
      var s := NatToString(n);
      assert s[..|s| - 1] == NatToString(n / 10);
      assert s[0] == NatToString(n / 10)[0];
    }
  }
}
