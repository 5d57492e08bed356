/** Replacing regular-expression matches inside a text.
  *
  * Two loops of the proxy do the same job. The artwork, CDATA and programme-guide
  * rewriters copy the text and splice replacements into the copy from the last match
  * to the first, with offsets taken from the original text. The HLS rewriter walks
  * forward once and appends to a builder. Both are proved equal to one definition.
  */
module Splicing {

  import opened Prelude

  /** The half-open range of a match's capture group. */
  datatype Span = Span(from: nat, to: nat)

  /** What a regular-expression search over `text` returns: ranges inside the text,
    * in order, and disjoint. */
  ghost predicate MatchesOf(ms: seq<Span>, text: string) {
    && (forall i :: 0 <= i < |ms| ==> ms[i].from <= ms[i].to <= |text|)
    && (forall i, j :: 0 <= i < j < |ms| ==> ms[i].to <= ms[j].from)
  }

  /** A rewriter proposes a replacement for a matched text, or leaves it alone. */
  type Rewriter = string -> Option<string>

  function Replacement(f: Rewriter, raw: string): string {
    match f(raw)
    case Some(new_) => new_
    case None => raw
  }

  /** Where the text not yet covered by the first `k` matches starts. */
  function Resume(ms: seq<Span>, k: nat): nat
    requires k <= |ms|
  {
    if k == 0 then 0 else ms[k - 1].to
  }

  /** The rewritten tail of `text`, from the end of match `k - 1` on. */
  ghost function SplicedFrom(text: string, ms: seq<Span>, f: Rewriter, k: nat): string
    requires MatchesOf(ms, text) && k <= |ms|
    decreases |ms| - k
  {
    if k == |ms| then text[Resume(ms, k)..]
    else
      text[Resume(ms, k)..ms[k].from]
      + Replacement(f, text[ms[k].from..ms[k].to])
      + SplicedFrom(text, ms, f, k + 1)
  }

  ghost function Spliced(text: string, ms: seq<Span>, f: Rewriter): string
    requires MatchesOf(ms, text)
  {
    SplicedFrom(text, ms, f, 0)
  }

  lemma Regroup(a: string, b: string, c: string, d: string)
    ensures a + (b + c + d) == (a + b + c) + d == (a + b) + (c + d)
  {
  }

  lemma PrefixSteps(text: string, start: nat, from: nat, to: nat)
    requires start <= from <= to <= |text|
    ensures text[..start] + text[start..from] == text[..from]
    ensures text[..from] + text[from..to] == text[..to]
  {
  }

  lemma MiddleOf(a: string, b: string, c: string)
    ensures (a + (b + c))[|a|..|a| + |b|] == b
  {
  }

  /** One in-place splice of `new_` over `out[from..to]`, when `out` still starts with the
    * untouched `kept + gap + raw`. */
  lemma SpliceOne(out: string, kept: string, gap: string, raw: string, tail: string)
    requires out == (kept + gap + raw) + tail
    ensures |kept + gap + raw| == |kept| + |gap| + |raw| <= |out|
    ensures out[..|kept + gap|] == kept + gap
    ensures out[|kept + gap|..|kept + gap + raw|] == raw
    ensures out[|kept + gap + raw|..] == tail
  {
    assert out == (kept + gap) + (raw + tail);
  }

  /** Splicing match `k` into a copy in which the later matches are done. */
  lemma SpliceStep(text: string, ms: seq<Span>, f: Rewriter, k: nat, out: string)
    requires MatchesOf(ms, text) && k < |ms|
    requires out == text[..ms[k].to] + SplicedFrom(text, ms, f, k + 1)
    ensures ms[k].to <= |out| && out[ms[k].from..ms[k].to] == text[ms[k].from..ms[k].to]
    ensures out == out[..ms[k].from] + text[ms[k].from..ms[k].to] + out[ms[k].to..]
    ensures out[..ms[k].from] + Replacement(f, text[ms[k].from..ms[k].to]) + out[ms[k].to..]
         == text[..Resume(ms, k)] + SplicedFrom(text, ms, f, k)
  {
    var m := ms[k];
    var kept, gap, raw := text[..Resume(ms, k)], text[Resume(ms, k)..m.from], text[m.from..m.to];
    var tail := SplicedFrom(text, ms, f, k + 1);
    PrefixSteps(text, Resume(ms, k), m.from, m.to);
    SpliceOne(out, kept, gap, raw, tail);
    Regroup(kept, gap, Replacement(f, raw), tail);
  }

  /** The in-place splice: the raw text of each match is read from the partly rewritten
    * copy, with the original's offsets, last match first. */
  method SpliceBackToFront(text: string, ms: seq<Span>, f: Rewriter) returns (out: string)
    requires MatchesOf(ms, text)
    ensures out == Spliced(text, ms, f)
  {
    if |ms| == 0 {
      return text;
    }
    out := text;
    var index := |ms|;
    while index > 0
      invariant 0 <= index <= |ms|
      invariant out == text[..Resume(ms, index)] + SplicedFrom(text, ms, f, index)
    {
      index := index - 1;
      SpliceStep(text, ms, f, index, out);
      var m := ms[index];
      var raw := out[m.from..m.to];
      var replacement := f(raw);
      if replacement.Some? {
        out := out[..m.from] + replacement.value + out[m.to..];
      }
    }
    assert text[..0] == "";
  }

  /** A rewriter that may fail, seen as one that leaves what it cannot rewrite. */
  function Lenient<E>(g: string -> Result<string, E>): Rewriter {
    raw => match g(raw) case Ok(new_) => Some(new_) case Err(_) => None
  }

  /** The forward pass: one failing match fails the whole line, and it is the first. */
  method SpliceForward<E>(text: string, ms: seq<Span>, g: string -> Result<string, E>)
    returns (r: Result<string, E>)
    requires MatchesOf(ms, text)
    ensures r.Ok? <==> forall i :: 0 <= i < |ms| ==> g(text[ms[i].from..ms[i].to]).Ok?
    ensures r.Ok? ==> r.value == Spliced(text, ms, Lenient(g))
    ensures r.Err? ==> exists i :: 0 <= i < |ms| && g(text[ms[i].from..ms[i].to]) == Err(r.error)
                                   && forall j :: 0 <= j < i ==> g(text[ms[j].from..ms[j].to]).Ok?
  {
    if |ms| == 0 {
      return Ok(text);
    }
    var out, last := "", 0;
    for i := 0 to |ms|
      invariant last == Resume(ms, i)
      invariant forall j :: 0 <= j < i ==> g(text[ms[j].from..ms[j].to]).Ok?
      invariant out + SplicedFrom(text, ms, Lenient(g), i) == Spliced(text, ms, Lenient(g))
    {
      ghost var before := out;
      out := out + text[last..ms[i].from];
      var replacement := g(text[ms[i].from..ms[i].to]);
      if replacement.Err? {
        return Err(replacement.error);
      }
      out := out + replacement.value;
      Regroup(before, text[last..ms[i].from], replacement.value, SplicedFrom(text, ms, Lenient(g), i + 1));
      last := ms[i].to;
    }
    out := out + text[last..];
    return Ok(out);
  }

  /** By how much the first `k` replacements move the text behind them. */
  function Shift(text: string, ms: seq<Span>, f: Rewriter, k: nat): int
    requires k <= |ms| && forall i :: 0 <= i < |ms| ==> ms[i].from <= ms[i].to <= |text|
  {
    if k == 0 then 0
    else
      var raw := text[ms[k - 1].from..ms[k - 1].to];
      Shift(text, ms, f, k - 1) + |Replacement(f, raw)| - |raw|
  }

  /** Everything before match `k`'s end, as it stands in the result. */
  ghost function SplicedHead(text: string, ms: seq<Span>, f: Rewriter, k: nat): string
    requires MatchesOf(ms, text) && k <= |ms|
  {
    if k == 0 then ""
    else
      SplicedHead(text, ms, f, k - 1)
      + text[Resume(ms, k - 1)..ms[k - 1].from]
      + Replacement(f, text[ms[k - 1].from..ms[k - 1].to])
  }

  lemma {:induction false} HeadThenTail(text: string, ms: seq<Span>, f: Rewriter, k: nat)
    requires MatchesOf(ms, text) && k <= |ms|
    ensures Spliced(text, ms, f) == SplicedHead(text, ms, f, k) + SplicedFrom(text, ms, f, k)
    ensures |SplicedHead(text, ms, f, k)| == Resume(ms, k) + Shift(text, ms, f, k)
  {
    if k == 0 {
      assert "" + SplicedFrom(text, ms, f, 0) == SplicedFrom(text, ms, f, 0);
    } else {
      HeadThenTail(text, ms, f, k - 1);
      var head := SplicedHead(text, ms, f, k - 1);
      var gap := text[Resume(ms, k - 1)..ms[k - 1].from];
      var new_ := Replacement(f, text[ms[k - 1].from..ms[k - 1].to]);
      var tail := SplicedFrom(text, ms, f, k);
      Regroup(head, gap, new_, tail);
    }
  }

  /** Nothing outside the matches changes: the stretch before match `k` (or after the
    * last one) reappears verbatim, moved by the replacements before it. */
  lemma GapKept(text: string, ms: seq<Span>, f: Rewriter, k: nat, at: nat)
    requires MatchesOf(ms, text) && k <= |ms|
    requires Resume(ms, k) <= at < if k < |ms| then ms[k].from else |text|
    ensures 0 <= at + Shift(text, ms, f, k) < |Spliced(text, ms, f)|
    ensures Spliced(text, ms, f)[at + Shift(text, ms, f, k)] == text[at]
  {
    HeadThenTail(text, ms, f, k);
    var head, tail := SplicedHead(text, ms, f, k), SplicedFrom(text, ms, f, k);
    assert tail[at - Resume(ms, k)] == text[at];
    assert (head + tail)[|head| + at - Resume(ms, k)] == tail[at - Resume(ms, k)];
  }

  /** Match `k` becomes its replacement, at its shifted place. */
  lemma MatchReplaced(text: string, ms: seq<Span>, f: Rewriter, k: nat)
    requires MatchesOf(ms, text) && k < |ms|
    ensures
      var new_ := Replacement(f, text[ms[k].from..ms[k].to]);
      var at := ms[k].from + Shift(text, ms, f, k);
      0 <= at <= at + |new_| <= |Spliced(text, ms, f)| && Spliced(text, ms, f)[at..at + |new_|] == new_
  {
    HeadThenTail(text, ms, f, k);
    var head := SplicedHead(text, ms, f, k);
    var gap := text[Resume(ms, k)..ms[k].from];
    var new_ := Replacement(f, text[ms[k].from..ms[k].to]);
    var tail := SplicedFrom(text, ms, f, k + 1);
    Regroup(head, gap, new_, tail);
    MiddleOf(head + gap, new_, tail);
  }

  /** The result is as long as the text plus what all replacements add. */
  lemma SplicedLength(text: string, ms: seq<Span>, f: Rewriter)
    requires MatchesOf(ms, text)
    ensures |Spliced(text, ms, f)| == |text| + Shift(text, ms, f, |ms|)
  {
    HeadThenTail(text, ms, f, |ms|);
  }

  /** A rewriter that declines every match leaves the text as it was. */
  lemma {:induction false} DecliningKeepsText(text: string, ms: seq<Span>, f: Rewriter, k: nat)
    requires MatchesOf(ms, text) && k <= |ms|
    requires forall i :: 0 <= i < |ms| ==> f(text[ms[i].from..ms[i].to]).None?
    ensures SplicedFrom(text, ms, f, k) == text[Resume(ms, k)..]
    decreases |ms| - k
  {
    if k == |ms| {
    } else {
      DecliningKeepsText(text, ms, f, k + 1);
      assert text[Resume(ms, k)..]
          == text[Resume(ms, k)..ms[k].from] + text[ms[k].from..ms[k].to] + text[ms[k].to..];
    }
  }

  /** The copy in which the first `k` matches are done and the rest of the text is as it was. */
  ghost function FrontSpliced(text: string, ms: seq<Span>, f: Rewriter, k: nat): string
    requires MatchesOf(ms, text) && k <= |ms|
  {
    SplicedHead(text, ms, f, k) + text[Resume(ms, k)..]
  }

  /** One splice of `new_` over `copy[from..to]`. */
  function SpliceAt(copy: string, from: nat, to: nat, new_: string): string
    requires from <= to <= |copy|
  {
    copy[..from] + new_ + copy[to..]
  }

  lemma SliceBehind(head: string, text: string, start: nat, from: nat, to: nat, new_: string)
    requires start <= from <= to <= |text|
    ensures var copy, by_ := head + text[start..], |head| - start;
            && 0 <= from + by_ <= to + by_ <= |copy|
            && copy[from + by_..to + by_] == text[from..to]
            && SpliceAt(copy, from + by_, to + by_, new_) == head + text[start..from] + new_ + text[to..]
  {
    var copy, by_ := head + text[start..], |head| - start;
    assert copy[..from + by_] == head + text[start..from];
    assert copy[to + by_..] == text[to..];
  }

  /** Going front to back, every match still to do has moved by what the replacements before it
    * added: its original offsets find it exactly when those kept the length. */
  lemma OffsetsMove(text: string, ms: seq<Span>, f: Rewriter, k: nat, i: nat)
    requires MatchesOf(ms, text) && k <= i < |ms|
    ensures var copy, by_ := FrontSpliced(text, ms, f, k), Shift(text, ms, f, k);
            && |copy| == |text| + by_
            && 0 <= ms[i].from + by_ <= ms[i].to + by_ <= |copy|
            && copy[ms[i].from + by_..ms[i].to + by_] == text[ms[i].from..ms[i].to]
  {
    HeadThenTail(text, ms, f, k);
    assert Resume(ms, k) <= ms[i].from;
    SliceBehind(SplicedHead(text, ms, f, k), text, Resume(ms, k), ms[i].from, ms[i].to, "");
  }

  /** Splicing the next match at its moved offsets does that match and no other. */
  lemma MovedSplice(text: string, ms: seq<Span>, f: Rewriter, k: nat)
    requires MatchesOf(ms, text) && k < |ms|
    ensures var copy, by_ := FrontSpliced(text, ms, f, k), Shift(text, ms, f, k);
            && 0 <= ms[k].from + by_ <= ms[k].to + by_ <= |copy|
            && SpliceAt(copy, ms[k].from + by_, ms[k].to + by_, Replacement(f, copy[ms[k].from + by_..ms[k].to + by_]))
               == FrontSpliced(text, ms, f, k + 1)
  {
    var head, start, m := SplicedHead(text, ms, f, k), Resume(ms, k), ms[k];
    assert start <= m.from;
    var by_ := |head| - start;
    assert by_ == Shift(text, ms, f, k) by {
      HeadThenTail(text, ms, f, k);
    }
    var new_ := Replacement(f, text[m.from..m.to]);
    SliceBehind(head, text, start, m.from, m.to, new_);
    assert SplicedHead(text, ms, f, k + 1) == head + text[start..m.from] + new_;
  }

  /** An example of what goes wrong front to back with the original's offsets, the order the loops
    * avoid: the first replacement is longer than its match, and the second hits the wrong text. */
  lemma OrderMatters()
    ensures
      var text, ms := "ab", [Span(0, 1), Span(1, 2)];
      var f: Rewriter := raw => Some(raw + raw);
      var first := SpliceAt(text, ms[0].from, ms[0].to, Replacement(f, text[ms[0].from..ms[0].to]));
      var second := SpliceAt(first, ms[1].from, ms[1].to, Replacement(f, first[ms[1].from..ms[1].to]));
      MatchesOf(ms, text) && second != Spliced(text, ms, f) == "aabb"
  {
    var text, ms := "ab", [Span(0, 1), Span(1, 2)];
    var f: Rewriter := raw => Some(raw + raw);
    assert text[0..1] == "a" && text[1..2] == "b" && text[0..0] == "" && text[1..1] == "" && text[2..] == "";
    assert SplicedFrom(text, ms, f, 2) == "";
    assert SplicedFrom(text, ms, f, 1) == "" + "bb" + "";
    assert SplicedFrom(text, ms, f, 0) == "" + "aa" + "bb";
    var first := SpliceAt(text, ms[0].from, ms[0].to, Replacement(f, text[ms[0].from..ms[0].to]));
    assert first == "aab";
    var second := SpliceAt(first, ms[1].from, ms[1].to, Replacement(f, first[ms[1].from..ms[1].to]));
    assert first[..1] == "a" && first[1..2] == "a" && first[2..] == "b";
    assert second == "aaab";
    assert second[2] != "aabb"[2];
  }
}
