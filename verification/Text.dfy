/** Paths as text: splitting and joining on a separator, trimming slashes. */
module Text {

  /** The pieces of `[c] + s`, given those of `s`. */
  function Grow(c: char, parts: seq<string>, sep: char): (grown: seq<string>)
    requires |parts| > 0
    ensures |grown| > 0
  {
    if c == sep then [""] + parts else [[c] + parts[0]] + parts[1..]
  }

  /** The pieces of `s` between separators; one more piece than separators. */
  function Split(s: string, sep: char): (parts: seq<string>)
    ensures |parts| > 0
    ensures forall i :: 0 <= i < |parts| ==> sep !in parts[i]
  {
    if s == "" then [""] else Grow(s[0], Split(s[1..], sep), sep)
  }

  function Join(parts: seq<string>, sep: char): string {
    if |parts| == 0 then ""
    else if |parts| == 1 then parts[0]
    else parts[0] + [sep] + Join(parts[1..], sep)
  }

  lemma {:induction false} JoinOfSplit(s: string, sep: char)
    ensures Join(Split(s, sep), sep) == s
  {
    if s == "" {
    } else {
      JoinOfSplit(s[1..], sep);
      var parts := Split(s[1..], sep);
      if s[0] == sep {
        assert ([""] + parts)[1..] == parts;
      } else {
        var head := [s[0]] + parts[0];
        assert ([head] + parts[1..])[1..] == parts[1..];
        if |parts| > 1 {
          assert head + [sep] + Join(parts[1..], sep) == [s[0]] + (parts[0] + [sep] + Join(parts[1..], sep));
        }
      }
    }
  }

  lemma {:induction false} SplitWithoutSeparator(s: string, sep: char)
    requires sep !in s
    ensures Split(s, sep) == [s]
  {
    if s == "" {
    } else {
      assert s[0] in s;
      SplitWithoutSeparator(s[1..], sep);
      assert [s[0]] + s[1..] == s;
    }
  }

  lemma GrowAppend(c: char, x: seq<string>, y: seq<string>, sep: char)
    requires |x| > 0
    ensures Grow(c, x + y, sep) == Grow(c, x, sep) + y
  {
    assert (x + y)[1..] == x[1..] + y;
  }

  /** Splitting at a separator splits both sides. */
  lemma {:induction false} SplitAppend(a: string, sep: char, b: string)
    ensures Split(a + [sep] + b, sep) == Split(a, sep) + Split(b, sep)
  {
    var s := a + [sep] + b;
    if a == "" {
      assert s[1..] == b;
    } else {
      SplitAppend(a[1..], sep, b);
      assert s[1..] == a[1..] + [sep] + b;
      GrowAppend(a[0], Split(a[1..], sep), Split(b, sep), sep);
    }
  }

  lemma {:induction false} SplitOfJoin(parts: seq<string>, sep: char)
    requires |parts| > 0
    requires forall i :: 0 <= i < |parts| ==> sep !in parts[i]
    ensures Split(Join(parts, sep), sep) == parts
  {
    if |parts| == 1 {
      SplitWithoutSeparator(parts[0], sep);
    } else {
      SplitOfJoin(parts[1..], sep);
      SplitWithoutSeparator(parts[0], sep);
      SplitAppend(parts[0], sep, Join(parts[1..], sep));
      assert parts == [parts[0]] + parts[1..];
    }
  }

  function TrimLeft(s: string, c: char): string {
    if s != "" && s[0] == c then TrimLeft(s[1..], c) else s
  }

  function TrimRight(s: string, c: char): string {
    if s != "" && s[|s| - 1] == c then TrimRight(s[..|s| - 1], c) else s
  }

  /** All leading and trailing occurrences of `c` removed. */
  function Trim(s: string, c: char): string {
    TrimRight(TrimLeft(s, c), c)
  }

  /** Exactly one leading, or trailing, occurrence removed. */
  function TrimPrefix(s: string, c: char): string {
    if s != "" && s[0] == c then s[1..] else s
  }

  function TrimSuffix(s: string, c: char): string {
    if s != "" && s[|s| - 1] == c then s[..|s| - 1] else s
  }

  predicate HasPrefix(s: string, prefix: string) {
    |prefix| <= |s| && s[..|prefix|] == prefix
  }

  lemma {:induction false} JoinEnds(parts: seq<string>, sep: char)
    requires |parts| > 0
    ensures parts[0] != "" ==> Join(parts, sep) != "" && Join(parts, sep)[0] == parts[0][0]
    ensures parts[|parts| - 1] != "" ==>
      Join(parts, sep) != "" && Join(parts, sep)[|Join(parts, sep)| - 1] == parts[|parts| - 1][|parts[|parts| - 1]| - 1]
  {
    if |parts| > 1 {
      JoinEnds(parts[1..], sep);
    }
  }

  /** A joined path with a slash in front gives its segments back, provided the first and
    * last are not empty and none contains a slash. */
  lemma SegmentsBack(parts: seq<string>)
    requires |parts| > 0 && parts[0] != "" && parts[|parts| - 1] != ""
    requires forall i :: 0 <= i < |parts| ==> '/' !in parts[i]
    ensures Split(Trim("/" + Join(parts, '/'), '/'), '/') == parts
    ensures Split(TrimPrefix("/" + Join(parts, '/'), '/'), '/') == parts
  {
    var joined := Join(parts, '/');
    JoinEnds(parts, '/');
    assert ("/" + joined)[1..] == joined;
    assert parts[0][0] in parts[0] && parts[|parts| - 1][|parts[|parts| - 1]| - 1] in parts[|parts| - 1];
    assert TrimLeft(joined, '/') == joined && TrimRight(joined, '/') == joined;
    assert TrimLeft("/" + joined, '/') == joined;
    SplitOfJoin(parts, '/');
  }

  lemma {:induction false} JoinAppend(a: seq<string>, b: seq<string>, sep: char)
    requires |a| > 0 && |b| > 0
    ensures Join(a + b, sep) == Join(a, sep) + [sep] + Join(b, sep)
  {
    if |a| == 1 {
      assert (a + b)[1..] == b;
    } else {
      assert (a + b)[1..] == a[1..] + b;
      JoinAppend(a[1..], b, sep);
    }
  }
}
