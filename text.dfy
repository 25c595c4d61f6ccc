/**
 * Character classes and string helpers shared by the filters: the `\w`
 * class of Python regular expressions, character removal (str.replace with
 * an empty replacement) and str.join.
 */
module Text {

  predicate IsAsciiLetter(c: char) {
    ('a' <= c <= 'z') || ('A' <= c <= 'Z')
  }

  predicate IsDigit(c: char) {
    '0' <= c <= '9'
  }

  /** The regular-expression class `\w`, restricted to ASCII. */
  predicate IsWordChar(c: char) {
    IsAsciiLetter(c) || IsDigit(c) || c == '_'
  }

  predicate AllChars(s: string, p: char -> bool) {
    forall i :: 0 <= i < |s| ==> p(s[i])
  }

  lemma AllCharsAppend(a: string, b: string, p: char -> bool)
    requires AllChars(a, p) && AllChars(b, p)
    ensures AllChars(a + b, p)
  {
    assert forall i :: |a| <= i < |a + b| ==> (a + b)[i] == b[i - |a|];
  }

  /** Length of the longest prefix of `s` whose characters all satisfy `p`. */
  function PrefixRun(s: string, p: char -> bool): (n: nat)
    ensures n <= |s|
    ensures AllChars(s[..n], p)
    ensures n < |s| ==> !p(s[n])
  {
    if s == [] || !p(s[0]) then 0
    else
      var n := 1 + PrefixRun(s[1..], p);
      assert s[..n] == [s[0]] + s[1..][..n - 1];
      n
  }

  /** A run is the longest one exactly when it is followed by a character outside `p` or by the end. */
  lemma {:induction false} PrefixRunIs(s: string, p: char -> bool, n: nat)
    requires n <= |s| && AllChars(s[..n], p)
    requires n < |s| ==> !p(s[n])
    ensures PrefixRun(s, p) == n
  {
    if n > 0 {
      assert p(s[..n][0]);
      assert s[1..][..n - 1] == s[..n][1..];
      PrefixRunIs(s[1..], p, n - 1);
    }
  }

  /** `s` with every character in `drop` removed, the others kept in order. */
  function Without(s: string, drop: set<char>): (r: string)
    ensures |r| <= |s|
    ensures forall i :: 0 <= i < |r| ==> r[i] !in drop
  {
    if s == [] then []
    else
      var rest := Without(s[1..], drop);
      if s[0] in drop then rest else [s[0]] + rest
  }

  /** Every character outside `drop` occurs in the result as often as in `s`. */
  lemma {:induction false} WithoutKeepsCount(s: string, drop: set<char>, c: char)
    requires c !in drop
    ensures multiset(Without(s, drop))[c] == multiset(s)[c]
  {
    if s != [] {
      WithoutKeepsCount(s[1..], drop, c);
      assert s == [s[0]] + s[1..];
    }
  }

  lemma {:induction false} WithoutAppend(a: string, b: string, drop: set<char>)
    ensures Without(a + b, drop) == Without(a, drop) + Without(b, drop)
  {
    if a != [] {
      assert (a + b)[1..] == a[1..] + b;
      WithoutAppend(a[1..], b, drop);
    } else {
      assert a + b == b;
    }
  }

  /** Removing the characters of `d1` and then those of `d2` removes those of `d1 + d2`. */
  lemma {:induction false} WithoutTwice(s: string, d1: set<char>, d2: set<char>)
    ensures Without(Without(s, d1), d2) == Without(s, d1 + d2)
  {
    if s != [] {
      WithoutTwice(s[1..], d1, d2);
    }
  }

  /** A string none of whose characters is in `drop` is left as it is. */
  lemma {:induction false} WithoutNone(s: string, drop: set<char>)
    requires forall i :: 0 <= i < |s| ==> s[i] !in drop
    ensures Without(s, drop) == s
  {
    if s != [] {
      WithoutNone(s[1..], drop);
    }
  }

  /** `sep.join(parts)`. */
  function JoinWith(parts: seq<string>, sep: string): string
  {
    if |parts| == 0 then ""
    else if |parts| == 1 then parts[0]
    else parts[0] + sep + JoinWith(parts[1..], sep)
  }

  /** ASCII lower-casing, which is what str.lower does on ASCII letters. */
  function AsciiLower(s: string): (r: string)
    ensures |r| == |s|
    ensures forall i :: 0 <= i < |s| ==> r[i] == (if 'A' <= s[i] <= 'Z' then (s[i] as int + 32) as char else s[i])
  {
    if s == [] then []
    else [if 'A' <= s[0] <= 'Z' then (s[0] as int + 32) as char else s[0]] + AsciiLower(s[1..])
  }
}
