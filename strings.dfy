/** Joining a list of strings with a one-character delimiter, and cutting it apart again. */
module Strings {

  /** The elements of `xs` in order, separated by single `sep`s: none before the first, none after the last. */
  function Join(xs: seq<string>, sep: char): (s: string)
    ensures |xs| > 0 ==> xs[0] <= s
  {
    if |xs| == 0 then ""
    else if |xs| == 1 then xs[0]
    else Join(xs[..|xs| - 1], sep) + [sep] + xs[|xs| - 1]
  }

  /** `s` cut at every `sep`. */
  function Split(s: string, sep: char): (parts: seq<string>)
    ensures |parts| > 0
  {
    if |s| == 0 then [""]
    else
      var init := Split(s[..|s| - 1], sep);
      var c := s[|s| - 1];
      if c == sep then init + [""]
      else init[..|init| - 1] + [init[|init| - 1] + [c]]
  }

  /** A character that no element contains, other than the delimiter, is not in the join. */
  lemma {:induction false} JoinAvoids(xs: seq<string>, sep: char, c: char)
    requires c != sep
    requires forall i :: 0 <= i < |xs| ==> c !in xs[i]
    ensures c !in Join(xs, sep)
  {
    if |xs| > 1 {
      JoinAvoids(xs[..|xs| - 1], sep, c);
    }
  }

  /** Joining one more element to a non-empty prefix writes the delimiter, then the element. */
  lemma JoinStep(xs: seq<string>, i: nat, sep: char)
    requires i < |xs|
    ensures Join(xs[..i + 1], sep) == if i == 0 then xs[0] else Join(xs[..i], sep) + [sep] + xs[i]
  {
    assert xs[..i + 1][..i] == xs[..i];
  }

  lemma {:induction false} SplitNoSep(x: string, sep: char)
    requires sep !in x
    ensures Split(x, sep) == [x]
  {
    if |x| > 0 {
      SplitNoSep(x[..|x| - 1], sep);
      assert x[..|x| - 1] + [x[|x| - 1]] == x;
    }
  }

  /** Split, read as an equation about one more character. */
  lemma SplitSnoc(t: string, c: char, sep: char)
    ensures var p := Split(t, sep);
            Split(t + [c], sep) == if c == sep then p + [""] else p[..|p| - 1] + [p[|p| - 1] + [c]]
  {
    assert (t + [c])[..|t|] == t;
  }

  /** A delimiter followed by text without one adds that text as one more part. */
  lemma {:induction false} SplitConcat(a: string, b: string, sep: char)
    requires sep !in b
    ensures Split(a + [sep] + b, sep) == Split(a, sep) + [b]
  {
    if |b| == 0 {
      SplitSnoc(a, sep, sep);
      assert a + [sep] + b == a + [sep];
    } else {
      var b', c := b[..|b| - 1], b[|b| - 1];
      assert b == b' + [c];
      SplitConcat(a, b', sep);
      var t := a + [sep] + b';
      assert a + [sep] + b == t + [c];
      SplitSnoc(t, c, sep);
      var p := Split(a, sep) + [b'];
      assert p[..|p| - 1] == Split(a, sep);
    }
  }

  lemma AppendAssoc(a: string, b: string, c: string)
    ensures a + (b + c) == a + b + c
  {
  }

  /** Split inverts Join for a non-empty list of elements that do not contain the delimiter:
      the join loses nothing. (The empty list and `[""]` both join to "".) */
  lemma {:induction false} SplitJoin(xs: seq<string>, sep: char)
    requires |xs| > 0
    requires forall i :: 0 <= i < |xs| ==> sep !in xs[i]
    ensures Split(Join(xs, sep), sep) == xs
  {
    var last := xs[|xs| - 1];
    SplitNoSep(last, sep);
    if |xs| > 1 {
      var init := xs[..|xs| - 1];
      SplitJoin(init, sep);
      SplitConcat(Join(init, sep), last, sep);
      assert xs == init + [last];
    }
  }
}
