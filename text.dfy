/**
 The two string operations the order lookup applies to codes:
 JavaScript's `String.prototype.trim` and `String.prototype.toLowerCase`.
 */
module Text {

  /** The characters `trim` removes: ECMAScript WhiteSpace (TAB, VT, FF, SP, NBSP,
      ZWNBSP and every space separator of category Zs) and LineTerminator (LF, CR, LS, PS). */
  predicate IsTrimmable(c: char)
  {
    c in {'\t', '\U{000B}', '\U{000C}', ' ', '\U{00A0}', '\U{FEFF}',
          '\U{1680}', '\U{2000}', '\U{2001}', '\U{2002}', '\U{2003}', '\U{2004}',
          '\U{2005}', '\U{2006}', '\U{2007}', '\U{2008}', '\U{2009}', '\U{200A}',
          '\U{202F}', '\U{205F}', '\U{3000}',
          '\n', '\r', '\U{2028}', '\U{2029}'}
  }

  /** Drops the leading trimmable characters: the result is the longest suffix of `s`
      that does not start with one. */
  function TrimStart(s: string): (r: string)
    ensures |r| <= |s| && r == s[|s| - |r|..]
    ensures r != [] ==> !IsTrimmable(r[0])
    ensures forall i :: 0 <= i < |s| - |r| ==> IsTrimmable(s[i])
  {
    if s != [] && IsTrimmable(s[0]) then TrimStart(s[1..]) else s
  }

  /** Drops the trailing trimmable characters: the result is the longest prefix of `s`
      that does not end with one. */
  function TrimEnd(s: string): (r: string)
    ensures |r| <= |s| && r == s[..|r|]
    ensures r != [] ==> !IsTrimmable(r[|r| - 1])
    ensures forall i :: |r| <= i < |s| ==> IsTrimmable(s[i])
  {
    if s != [] && IsTrimmable(s[|s| - 1]) then TrimEnd(s[..|s| - 1]) else s
  }

  /** `s.trim()`: neither end of the result is trimmable, and a string whose ends
      are not trimmable is returned unchanged. */
  function Trim(s: string): (r: string)
    ensures |r| <= |s|
    ensures r != [] ==> !IsTrimmable(r[0]) && !IsTrimmable(r[|r| - 1])
    ensures (s == [] || (!IsTrimmable(s[0]) && !IsTrimmable(s[|s| - 1]))) ==> r == s
    ensures (forall i :: 0 <= i < |s| ==> IsTrimmable(s[i])) ==> r == []
  {
    var t := TrimStart(s);
    var r := TrimEnd(t);
    assert r != [] ==> r[0] == t[0];
    r
  }

  /** Trimming removes exactly the blanks around a text whose own ends are not blank. */
  lemma TrimRemovesBlankEnds(b1: string, x: string, b2: string)
    requires forall i :: 0 <= i < |b1| ==> IsTrimmable(b1[i])
    requires forall i :: 0 <= i < |b2| ==> IsTrimmable(b2[i])
    requires x != [] ==> !IsTrimmable(x[0]) && !IsTrimmable(x[|x| - 1])
    ensures Trim(b1 + x + b2) == x
  {
    var s := b1 + x + b2;
    if x == [] {
      assert forall i :: 0 <= i < |s| ==> IsTrimmable(s[i]) by {
        forall i | 0 <= i < |s| ensures IsTrimmable(s[i]) {
          if i < |b1| { assert s[i] == b1[i]; } else { assert s[i] == b2[i - |b1|]; }
        }
      }
    } else {
      var t := TrimStart(s);
      assert s[|b1|] == x[0];
      assert |s| - |t| == |b1|;
      assert t == x + b2;
      var r := TrimEnd(t);
      assert t[|x| - 1] == x[|x| - 1];
      assert r == x;
    }
  }

  /** Trimming twice is trimming once. */
  lemma TrimIdempotent(s: string)
    ensures Trim(Trim(s)) == Trim(s)
  {
  }

  /** The lower-case form of an ASCII capital letter; every other character is kept. */
  function LowerChar(c: char): (r: char)
    ensures 'A' <= c <= 'Z' ==> r as int == c as int + 32
    ensures !('A' <= c <= 'Z') ==> r == c
  {
    if 'A' <= c <= 'Z' then (c as int + 32) as char else c
  }

  /** `s.toLowerCase()` on the code alphabet: every character lowered in place. */
  function Lower(s: string): (r: string)
    ensures |r| == |s|
    ensures forall i :: 0 <= i < |s| ==> r[i] == LowerChar(s[i])
  {
    seq(|s|, i requires 0 <= i < |s| => LowerChar(s[i]))
  }

  /** After lowering, no ASCII capital letter remains. */
  lemma LowerHasNoCapitals(s: string)
    ensures forall i :: 0 <= i < |Lower(s)| ==> !('A' <= Lower(s)[i] <= 'Z')
  {
  }

  /** Lowering twice is lowering once. */
  lemma LowerIdempotent(s: string)
    ensures Lower(Lower(s)) == Lower(s)
  {
  }

  /** Two strings that differ only in the case of ASCII letters have the same lower-case form. */
  lemma {:induction false} LowerIgnoresCase(s: string, t: string)
    requires |s| == |t|
    requires forall i :: 0 <= i < |s| ==> LowerChar(s[i]) == LowerChar(t[i])
    ensures Lower(s) == Lower(t)
  {
  }
}
