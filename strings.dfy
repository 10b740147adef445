/** String helpers: ASCII lower-casing and JavaScript's ordering of strings. */
module Strings {

  function LowerChar(c: char): char
  {
    if 'A' <= c <= 'Z' then (c as int + 32) as char else c
  }

  predicate IsCapital(c: char)
  {
    'A' <= c <= 'Z'
  }

  /** `toLowerCase()`, restricted to ASCII letters: same length, no capital left. */
  function Lower(s: string): (r: string)
    ensures |r| == |s|
    ensures forall i :: 0 <= i < |r| ==> !IsCapital(r[i])
  {
    seq(|s|, i requires 0 <= i < |s| => LowerChar(s[i]))
  }

  /** Lower-casing twice is lower-casing once. */
  lemma LowerIdempotent(s: string)
    ensures Lower(Lower(s)) == Lower(s)
  {
    assert forall i :: 0 <= i < |s| ==> Lower(Lower(s))[i] == Lower(s)[i];
  }

  /** A string is its own lower case exactly when it has no capital. */
  lemma LowerFixesExactlyUncapitalized(s: string)
    ensures Lower(s) == s <==> forall i :: 0 <= i < |s| ==> !IsCapital(s[i])
  {
    if forall i :: 0 <= i < |s| ==> !IsCapital(s[i]) {
      assert forall i :: 0 <= i < |s| ==> Lower(s)[i] == s[i];
    }
  }

  /** `a <= b` on JavaScript strings: lexicographic on characters, a prefix first. */
  predicate LexLe(a: string, b: string)
    decreases |a|
  {
    if |a| == 0 then true
    else if |b| == 0 then false
    else a[0] < b[0] || (a[0] == b[0] && LexLe(a[1..], b[1..]))
  }

  /** Any two strings are comparable, so a comparator built on `>` orders every pair. */
  lemma {:induction false} LexLeTotal(a: string, b: string)
    ensures LexLe(a, b) || LexLe(b, a)
    decreases |a|
  {
    if |a| > 0 && |b| > 0 && a[0] == b[0] {
      LexLeTotal(a[1..], b[1..]);
    }
  }

  lemma {:induction false} LexLeTransitive(a: string, b: string, c: string)
    requires LexLe(a, b) && LexLe(b, c)
    ensures LexLe(a, c)
    decreases |a|
  {
    if |a| > 0 && |b| > 0 && |c| > 0 && a[0] == b[0] == c[0] {
      LexLeTransitive(a[1..], b[1..], c[1..]);
    }
  }

  lemma {:induction false} LexLeAntisymmetric(a: string, b: string)
    requires LexLe(a, b) && LexLe(b, a)
    ensures a == b
    decreases |a|
  {
    if |a| > 0 {
      LexLeAntisymmetric(a[1..], b[1..]);
      assert a == [a[0]] + a[1..] && b == [b[0]] + b[1..];
    }
  }

  /** `/\.txt$/i.test(name)`. */
  predicate EndsWithTxt(name: string)
  {
    |name| >= 4 && Lower(name[|name| - 4..]) == ".txt"
  }

  /** `/:\/\//.test(name)`: the name contains "://". */
  predicate HasSchemeSeparator(name: string)
    decreases |name|
  {
    |name| >= 3 && (name[..3] == "://" || HasSchemeSeparator(name[1..]))
  }
}
