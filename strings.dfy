/** Splitting text at the first occurrence of a separator. */
module Strings {

  /** The text before the first `c` and the text after it; all of `s` and "" when `c` does not occur. */
  function SplitAt(s: string, c: char): (r: (string, string))
    ensures c !in s ==> r == (s, "")
    ensures c in s ==> s == r.0 + [c] + r.1 && c !in r.0
    decreases |s|
  {
    if s == [] then ("", "")
    else if s[0] == c then ("", s[1..])
    else
      var (a, b) := SplitAt(s[1..], c);
      assert s == [s[0]] + s[1..];
      ([s[0]] + a, b)
  }

  /** Splitting a text joined at a separator the first part does not hold gives the two parts back. */
  lemma {:induction false} SplitAtOf(a: string, c: char, b: string)
    requires c !in a
    ensures SplitAt(a + [c] + b, c) == (a, b)
    decreases |a|
  {
    var s := a + [c] + b;
    if a == [] {
      assert s == [c] + b;
    } else {
      assert s[0] == a[0] && a[0] != c;
      assert s[1..] == a[1..] + [c] + b;
      SplitAtOf(a[1..], c, b);
      assert [a[0]] + a[1..] == a;
    }
  }
}
