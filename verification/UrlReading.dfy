/** That the text of a URL can be taken apart again: each part is free of the characters that end it
  * (section 3 of RFC 3986), and a query's names and values read back in order. */
module UrlReading {

  import opened Prelude
  import opened Text
  import opened Escaping
  import XtreamUrls
  import opened UrlDocuments

  // ---- What escaped texts are free of ----

  predicate FreeOf(s: string, forbidden: string) {
    forall c :: c in forbidden ==> c !in s
  }

  lemma FreeAppend(a: string, b: string, forbidden: string)
    requires FreeOf(a, forbidden) && FreeOf(b, forbidden)
    ensures FreeOf(a + b, forbidden)
  {
  }

  lemma CodeFree(c: char, forbidden: string)
    requires forall d :: d in forbidden ==> !Unreserved(d) && d != '%'
    ensures FreeOf(['%', HEX[c as int / 16 % 16], HEX[c as int % 16]], forbidden)
  {
    HexDigitsUnreserved(c as int / 16 % 16);
    HexDigitsUnreserved(c as int % 16);
  }

  lemma QueryCharFree(c: char)
    ensures FreeOf(EscapeChar(c, Query), "&=#?/;: ")
  {
    CodeFree(c, "&=#?/;: ");
  }

  /** An escaped query value holds no separator of a URL. */
  lemma {:induction false} QueryFree(s: string)
    ensures FreeOf(Escape(s, Query), "&=#?/;: ")
  {
    if s != "" {
      QueryCharFree(s[0]);
      QueryFree(s[1..]);
      FreeAppend(EscapeChar(s[0], Query), Escape(s[1..], Query), "&=#?/;: ");
    }
  }

  lemma PathCharFree(c: char)
    ensures FreeOf(EscapeChar(c, WholePath), "?# ") && FreeOf(EscapeChar(c, Segment), "/?#; ")
  {
    CodeFree(c, "?# ");
    CodeFree(c, "/?#; ");
  }

  /** An escaped path holds nothing that would end it, and an escaped segment no slash either. */
  lemma {:induction false} PathFree(s: string)
    ensures FreeOf(Escape(s, WholePath), "?# ") && FreeOf(Escape(s, Segment), "/?#; ")
  {
    if s != "" {
      PathCharFree(s[0]);
      PathFree(s[1..]);
      FreeAppend(EscapeChar(s[0], WholePath), Escape(s[1..], WholePath), "?# ");
      FreeAppend(EscapeChar(s[0], Segment), Escape(s[1..], Segment), "/?#; ");
    }
  }

  // ---- Queries ----

  /** The pairs of a query, names in the given order. */
  function Pairs(q: XtreamUrls.Query, names: seq<string>): seq<(string, string)> {
    if names == [] then []
    else PairsOf(names[0], if names[0] in q then q[names[0]] else []) + Pairs(q, names[1..])
  }

  function PairsOf(name: string, values: seq<string>): seq<(string, string)> {
    seq(|values|, i requires 0 <= i < |values| => (name, values[i]))
  }

  function PairText(pair: (string, string)): string {
    Escape(pair.0, Query) + "=" + Escape(pair.1, Query)
  }

  /** What a reader makes of one `name=value`. */
  predicate ReadsAs(part: string, pair: (string, string)) {
    && |Split(part, '=')| == 2
    && Unescape(Split(part, '=')[0], Query) == Some(pair.0) && Unescape(Split(part, '=')[1], Query) == Some(pair.1)
  }

  lemma PairReads(pair: (string, string))
    requires Bytewise(pair.0) && Bytewise(pair.1)
    ensures ReadsAs(PairText(pair), pair) && '&' !in PairText(pair) && '#' !in PairText(pair)
  {
    var a, b := Escape(pair.0, Query), Escape(pair.1, Query);
    QueryFree(pair.0);
    QueryFree(pair.1);
    assert '=' in "&=#?/;: " && '&' in "&=#?/;: " && '#' in "&=#?/;: ";
    SplitAppend(a, '=', b);
    SplitWithoutSeparator(a, '=');
    SplitWithoutSeparator(b, '=');
    Escaping.RoundTrip(pair.0, Query);
    Escaping.RoundTrip(pair.1, Query);
  }

  lemma {:induction false} TextsOfPairs(name: string, values: seq<string>)
    ensures |PairTexts(name, values)| == |values|
    ensures forall i :: 0 <= i < |values| ==> PairTexts(name, values)[i] == PairText((name, values[i]))
  {
    if values != [] { TextsOfPairs(name, values[1..]); }
  }

  lemma {:induction false} TextsOfQuery(q: XtreamUrls.Query, names: seq<string>)
    ensures |QueryTexts(q, names)| == |Pairs(q, names)|
    ensures forall i :: 0 <= i < |Pairs(q, names)| ==> QueryTexts(q, names)[i] == PairText(Pairs(q, names)[i])
  {
    if names != [] {
      TextsOfPairs(names[0], ValuesOf(q, names[0]));
      TextsOfQuery(q, names[1..]);
    }
  }

  ghost predicate BytewisePairs(pairs: seq<(string, string)>) {
    forall i :: 0 <= i < |pairs| ==> Bytewise(pairs[i].0) && Bytewise(pairs[i].1)
  }

  /** A printed query, cut at its ampersands and equals signs and decoded, gives its names and values
    * back in order. */
  lemma QueryReadsBack(q: XtreamUrls.Query, order: NameOrder)
    requires BytewisePairs(Pairs(q, order(q.Keys)))
    ensures var pairs, text := Pairs(q, order(q.Keys)), PrintQuery(q, order);
            if pairs == [] then text == ""
            else && text != "" && text[0] == '?' && |Split(text[1..], '&')| == |pairs|
                 && forall i :: 0 <= i < |pairs| ==> ReadsAs(Split(text[1..], '&')[i], pairs[i])
  {
    var names := order(q.Keys);
    var pairs, parts := Pairs(q, names), QueryTexts(q, names);
    TextsOfQuery(q, names);
    forall i | 0 <= i < |pairs| ensures ReadsAs(parts[i], pairs[i]) && '&' !in parts[i] {
      PairReads(pairs[i]);
    }
    if pairs != [] {
      SplitOfJoin(parts, '&');
      assert PrintQuery(q, order)[1..] == Join(parts, '&');
    }
  }

  lemma {:induction false} JoinFree(parts: seq<string>, sep: char, forbidden: string)
    requires sep !in forbidden && forall i :: 0 <= i < |parts| ==> FreeOf(parts[i], forbidden)
    ensures FreeOf(Join(parts, sep), forbidden)
  {
    if |parts| > 1 {
      JoinFree(parts[1..], sep, forbidden);
      FreeAppend(parts[0], [sep], forbidden);
      FreeAppend(parts[0] + [sep], Join(parts[1..], sep), forbidden);
    }
  }

  lemma PairFree(pair: (string, string))
    ensures FreeOf(PairText(pair), "#? ")
  {
    QueryFree(pair.0);
    QueryFree(pair.1);
    assert forall c :: c in "#? " ==> c in "&=#?/;: ";
  }

  /** The text of a URL is its scheme and host, a path that ends at the first question mark or hash, a
    * query that ends at the first hash, and the fragment. */
  lemma UrlParts(u: XtreamUrls.Url, order: NameOrder)
    ensures var path, query := Escape(u.path, WholePath), PrintQuery(u.query, order);
            && PrintUrl(u, order) == u.scheme + "://" + u.host + path + query + PrintFragment(u.fragment)
            && FreeOf(path, "?# ")
            && (query == "" || (query[0] == '?' && FreeOf(query[1..], "#? ")))
            && (PrintFragment(u.fragment) == "" || PrintFragment(u.fragment)[0] == '#')
  {
    var names := order(u.query.Keys);
    var parts := QueryTexts(u.query, names);
    PathFree(u.path);
    TextsOfQuery(u.query, names);
    forall i | 0 <= i < |parts| ensures FreeOf(parts[i], "#? ") {
      PairFree(Pairs(u.query, names)[i]);
    }
    JoinFree(parts, '&', "#? ");
    if parts != [] { assert PrintQuery(u.query, order)[1..] == Join(parts, '&'); }
  }
}
