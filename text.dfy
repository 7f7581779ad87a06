/** Two small views of a string used to state what a request target looks
    like to whoever reads it back: how often a character occurs, and the
    split at the first occurrence of a separator (how an HTTP server tells
    the path of a request target from its query string). */
module Text {
  import opened Wrappers

  /** The number of occurrences of `c` in `s`. */
  function Count(c: char, s: string): nat
  {
    if s == [] then 0 else (if s[0] == c then 1 else 0) + Count(c, s[1..])
  }

  lemma {:induction false} CountConcat(c: char, a: string, b: string)
    ensures Count(c, a + b) == Count(c, a) + Count(c, b)
  {
    if a == [] {
      assert a + b == b;
    } else {
      assert (a + b)[1..] == a[1..] + b;
      CountConcat(c, a[1..], b);
    }
  }

  /** `s` cut at the first `sep`: what comes before it, and what comes
      after it when `sep` occurs at all. */
  function SplitAtFirst(s: string, sep: char): (string, Option<string>)
  {
    if s == [] then ([], None)
    else if s[0] == sep then ([], Some(s[1..]))
    else
      var (before, after) := SplitAtFirst(s[1..], sep);
      ([s[0]] + before, after)
  }

  lemma {:induction false} SplitAtFirstAbsent(s: string, sep: char)
    requires sep !in s
    ensures SplitAtFirst(s, sep) == (s, None)
  {
    if s != [] {
      assert sep !in s[1..];
      SplitAtFirstAbsent(s[1..], sep);
      assert [s[0]] + s[1..] == s;
    }
  }

  lemma {:induction false} SplitAtFirstJoined(a: string, sep: char, b: string)
    requires sep !in a
    ensures SplitAtFirst(a + [sep] + b, sep) == (a, Some(b))
  {
    var s := a + [sep] + b;
    if a == [] {
      assert s[0] == sep && s[1..] == b;
    } else {
      assert s[0] == a[0] && a[0] != sep;
      assert s[1..] == a[1..] + [sep] + b;
      SplitAtFirstJoined(a[1..], sep, b);
      assert [a[0]] + a[1..] == a;
    }
  }
}
