/** Which lines of a playlist are rewritten, and to what (internal/proxy/m3u.go): stream lines that hold
  * a published media URL become its public text, with their player options. */
module PlaylistLines {

  import opened Prelude
  import opened Text
  import opened Splicing
  import opened XtreamUrls
  import opened XtreamForms
  import opened UrlDocuments
  import opened CachedPlaylists

  /** The URL of a stream line ends at the first bar, and the options start there. */
  lemma {:induction false} CutAtBar(raw: string, options: string)
    requires '|' !in raw && (options == "" || options[0] == '|')
    ensures SplitPipe(raw + options) == (raw, options)
  {
    if raw == "" {
      assert raw + options == options;
    } else {
      assert raw[0] in raw;
      CutAtBar(raw[1..], options);
      assert (raw + options)[1..] == raw[1..] + options;
      assert raw == [raw[0]] + raw[1..];
    }
  }

  /** `user/pass/x`, if the user's name is not taken for a route. */
  ghost predicate BareMedia(p: Provider, text: string) {
    && p.upstreamUsername != "" && !IsStreamRoute(p.upstreamUsername) && !EqualFold(p.upstreamUsername, "streaming")
    && exists x :: text == Then(p.upstreamUsername, Then(p.upstreamPassword, x))
  }

  /** A stream of the provider: of one of the four routes, or a longer `hls` one; a timeshift script; or
    * a bare stream. */
  ghost predicate MediaForm(p: Provider, text: string, q: Query) {
    || (exists r, x :: Lower(r) in {"live", "movie", "series", "timeshift"} && text == StreamText(p, r, x))
    || (exists r, x, y :: Lower(r) == "hls" && text == StreamText(p, r, Then(x, y)))
    || TimeshiftForm(p, text, q) || BareMedia(p, text)
  }

  lemma StreamIsMedia(p: Provider, target: Url, r: string, x: string)
    requires '/' !in p.upstreamUsername && '/' !in p.upstreamPassword
    requires p.base.host != "" && EqualFold(target.host, p.base.host)
    requires Below(p, target.path, StreamText(p, r, x))
    requires Lower(r) in {"live", "movie", "series", "timeshift"}
    ensures MediaTarget(p, target)
  {
    BelowSegments(p, target.path, StreamText(p, r, x));
    StreamSegments(p, r, x);
    NamesSlashFree(r);
  }

  lemma HlsIsMedia(p: Provider, target: Url, r: string, x: string, y: string)
    requires '/' !in p.upstreamUsername && '/' !in p.upstreamPassword
    requires p.base.host != "" && EqualFold(target.host, p.base.host)
    requires Below(p, target.path, StreamText(p, r, Then(x, y))) && Lower(r) == "hls"
    ensures MediaTarget(p, target)
  {
    BelowSegments(p, target.path, StreamText(p, r, Then(x, y)));
    StreamSegments(p, r, Then(x, y));
    NamesSlashFree(r);
    SplitAppend(x, '/', y);
  }

  lemma ScriptIsMedia(p: Provider, target: Url, text: string)
    requires p.base.host != "" && EqualFold(target.host, p.base.host)
    requires Below(p, target.path, text) && StreamingForm(text)
    ensures MediaTarget(p, target)
  {
    LiteralsLower();
    BelowSegments(p, target.path, text);
    TimeshiftIff(text);
    assert Lower(Split(text, '/')[0]) == "streaming";
    NamesSlashFree(Split(text, '/')[0]);
  }

  lemma BareIsMedia(p: Provider, target: Url, text: string)
    requires '/' !in p.upstreamUsername && '/' !in p.upstreamPassword
    requires p.base.host != "" && EqualFold(target.host, p.base.host)
    requires Below(p, target.path, text) && BareMedia(p, text)
    ensures MediaTarget(p, target) && Recognised(p, text, target.query)
  {
    LiteralsLower();
    BelowSegments(p, target.path, text);
    TwoCut(text, p.upstreamUsername, p.upstreamPassword);
    if IsApi(p.upstreamUsername) { ApiIff(text); }
  }

  lemma FormIsMedia(p: Provider, target: Url, text: string)
    requires '/' !in p.upstreamUsername && '/' !in p.upstreamPassword
    requires p.base.host != "" && EqualFold(target.host, p.base.host)
    requires Below(p, target.path, text) && MediaForm(p, text, target.query)
    ensures MediaTarget(p, target) && Recognised(p, text, target.query)
  {
    if r, x :| Lower(r) in {"live", "movie", "series", "timeshift"} && text == StreamText(p, r, x) {
      StreamIsMedia(p, target, r, x);
      assert IsStreamRoute(r);
    } else if r, x, y :| Lower(r) == "hls" && text == StreamText(p, r, Then(x, y)) {
      HlsIsMedia(p, target, r, x, y);
      assert IsStreamRoute(r);
    } else if TimeshiftForm(p, text, target.query) {
      ScriptIsMedia(p, target, text);
    } else {
      BareIsMedia(p, target, text);
    }
  }

  lemma RouteBack(p: Provider, text: string)
    requires '/' !in p.upstreamUsername && '/' !in p.upstreamPassword && StreamForm(p, text)
    requires Lower(Split(text, '/')[0]) == "hls" ==> |Split(text, '/')| >= 5
    ensures MediaForm(p, text, map[])
  {
    var r, x :| IsStreamRoute(r) && text == Then(r, Then(p.upstreamUsername, Then(p.upstreamPassword, x)));
    StreamSegments(p, r, x);
    if Lower(r) == "hls" {
      FirstAndRest(x);
      assert text == StreamText(p, r, Then(Split(x, '/')[0], Rest(x)));
    }
  }

  lemma MediaBack(p: Provider, target: Url, text: string)
    requires '/' !in p.upstreamUsername && '/' !in p.upstreamPassword
    requires Below(p, target.path, text)
    requires MediaTarget(p, target) && Recognised(p, text, target.query)
    ensures MediaForm(p, text, target.query)
  {
    LiteralsLower();
    BelowSegments(p, target.path, text);
    ApiIff(text);
    StreamIff(p, text);
    TimeshiftIff(text);
    TwoCut(text, p.upstreamUsername, p.upstreamPassword);
    var first := Split(text, '/')[0];
    if IsStreamRoute(first) {
      RouteBack(p, text);
    } else if Lower(first) == "streaming" {
      assert TimeshiftForm(p, text, target.query);
    } else {
      assert BareMedia(p, text);
    }
  }

  lemma HeaderHash(trimmed: string)
    requires IsHeader(trimmed)
    ensures trimmed[0] == '#'
  {
    assert Lower(trimmed[..7])[0] == Lower("#EXTM3U")[0];
  }

  lemma StreamTarget(site: Site, c: Credentials, raw: string, options: string, target: Url, text: string)
    requires '/' !in site.provider.upstreamUsername && '/' !in site.provider.upstreamPassword
    requires '|' !in raw && (options == "" || options[0] == '|') && site.resolve(raw) == Some(target)
    requires Ours(site.provider, c, site.publicBase, target)
    requires Below(site.provider, target.path, text) && MediaForm(site.provider, text, target.query)
    ensures Publish(site.provider, c, site.publicBase, target).Some?
    ensures TargetText(site, c, raw + options)
         == Some(PrintUrl(Publish(site.provider, c, site.publicBase, target).value, site.order) + options)
  {
    CutAtBar(raw, options);
    FormIsMedia(site.provider, target, text);
    PublishedIff(site.provider, c, site.publicBase, target, text);
  }

  lemma TargetLine(site: Site, c: Credentials, line: string)
    requires CachedPlaylists.Sensible(site)
    requires TrimSpace(line) != "" && TrimSpace(line)[0] != '#' && TargetText(site, c, TrimSpace(line)).Some?
    ensures LineText(site, c, line) == TargetText(site, c, TrimSpace(line)).value
  {
    if IsHeader(TrimSpace(line)) { HeaderHash(TrimSpace(line)); }
  }

  /** A stream line, with blanks around it or not, that holds a URL of the provider in one of the media
    * forms becomes the text of the published URL, followed by the line's options. */
  lemma StreamLine(site: Site, c: Credentials, line: string, raw: string, options: string, target: Url, text: string)
    requires CachedPlaylists.Sensible(site)
    requires '/' !in site.provider.upstreamUsername && '/' !in site.provider.upstreamPassword
    requires TrimSpace(line) == raw + options && '|' !in raw && (options == "" || options[0] == '|')
    requires raw + options != "" && (raw + options)[0] != '#' && site.resolve(raw) == Some(target)
    requires Ours(site.provider, c, site.publicBase, target)
    requires Below(site.provider, target.path, text) && MediaForm(site.provider, text, target.query)
    ensures Publish(site.provider, c, site.publicBase, target).Some?
    ensures LineText(site, c, line)
         == PrintUrl(Publish(site.provider, c, site.publicBase, target).value, site.order) + options
  {
    StreamTarget(site, c, raw, options, target, text);
    TargetLine(site, c, line);
  }

  /** A line that holds anything else is kept: no reference, or one that is not to a URL of the provider
    * in one of those forms. */
  lemma KeptLine(site: Site, c: Credentials, line: string, raw: string, options: string, text: string)
    requires CachedPlaylists.Sensible(site)
    requires '/' !in site.provider.upstreamUsername && '/' !in site.provider.upstreamPassword
    requires TrimSpace(line) == raw + options && '|' !in raw && (options == "" || options[0] == '|')
    requires raw + options != "" && (raw + options)[0] != '#'
    requires match site.resolve(raw)
             case None => true
             case Some(target) =>
               || target.path == BasePath(site.provider)
               || (Below(site.provider, target.path, text)
                   && !(Ours(site.provider, c, site.publicBase, target) && MediaForm(site.provider, text, target.query)))
    ensures LineText(site, c, line) == line
  {
    CutAtBar(raw, options);
    if IsHeader(TrimSpace(line)) { HeaderHash(TrimSpace(line)); }
    if site.resolve(raw).Some? && MediaTarget(site.provider, site.resolve(raw).value) {
      var target := site.resolve(raw).value;
      if target.path == BasePath(site.provider) {
        BaseUnpublished(site.provider, c, site.publicBase, target);
      } else {
        PublishedIff(site.provider, c, site.publicBase, target, text);
        if Publish(site.provider, c, site.publicBase, target).Some? { MediaBack(site.provider, target, text); }
      }
    }
  }

  /** Blank lines and comments are kept. */
  lemma OtherLine(site: Site, c: Credentials, line: string)
    requires CachedPlaylists.Sensible(site)
    requires TrimSpace(line) == "" || (TrimSpace(line)[0] == '#' && !IsHeader(TrimSpace(line)))
    ensures LineText(site, c, line) == line
  {
  }

  /** A playlist is rewritten line by line: line `i` of the result is the rewriting of line `i`. */
  lemma LineByLine(site: Site, c: Credentials, lines: seq<string>, i: nat)
    requires CachedPlaylists.Sensible(site) && i < |lines| && forall j :: 0 <= j < |lines| ==> '\n' !in lines[j]
    ensures PlaylistText(site, c, Join(lines, '\n')) == Join(LineTexts(site, c, lines), '\n')
    ensures LineTexts(site, c, lines)[i] == LineText(site, c, lines[i])
  {
    SplitOfJoin(lines, '\n');
  }

  // ---- Guide attributes ----

  predicate Blanks(s: string) {
    forall i :: 0 <= i < |s| ==> s[i] == ' ' || s[i] == '\t'
  }

  lemma {:induction false} LeadingOf(left: string, rest: string)
    requires Blanks(left) && rest != "" && !IsBlank(rest[0])
    ensures LeadingBlanks(left + rest) == left
  {
    if left == "" {
      assert left + rest == rest;
    } else {
      assert (left + rest)[1..] == left[1..] + rest;
      LeadingOf(left[1..], rest);
    }
  }

  lemma {:induction false} TrailingOf(rest: string, right: string)
    requires Blanks(right) && rest != "" && !IsBlank(rest[|rest| - 1])
    ensures TrailingBlanks(rest + right) == right
    decreases |right|
  {
    if right == "" {
      assert rest + right == rest;
    } else {
      var init := right[..|right| - 1];
      assert (rest + right)[..|rest + right| - 1] == rest + init;
      TrailingOf(rest, init);
      assert right == init + [right[|right| - 1]];
    }
  }

  lemma {:induction false} TrimmedBlanks(left: string, raw: string, right: string)
    requires Blanks(left) && Blanks(right) && raw != "" && !IsSpace(raw[0]) && !IsSpace(raw[|raw| - 1])
    ensures TrimSpace(left + raw + right) == raw
    decreases |left| + |right|
  {
    var s := left + raw + right;
    if left != "" {
      assert s[0] == left[0] && s[1..] == left[1..] + raw + right;
      TrimmedBlanks(left[1..], raw, right);
    } else if right != "" {
      var init := right[..|right| - 1];
      assert s[0] == raw[0] && s[|s| - 1] == right[|right| - 1] && s[..|s| - 1] == left + raw + init;
      TrimmedBlanks(left, raw, init);
    } else {
      assert s == raw;
    }
  }

  /** An element of a guide list that is a published URL becomes its public text, between the same blanks. */
  lemma GuideElement(site: Site, c: Credentials, left: string, raw: string, right: string, target: Url)
    requires Blanks(left) && Blanks(right) && raw != "" && !IsSpace(raw[0]) && !IsSpace(raw[|raw| - 1])
    requires site.resolve(raw) == Some(target) && Publish(site.provider, c, site.publicBase, target).Some?
    ensures GuideText(site, c, left + raw + right)
         == left + PrintUrl(Publish(site.provider, c, site.publicBase, target).value, site.order) + right
  {
    TrimmedBlanks(left, raw, right);
    assert left + raw + right == left + (raw + right);
    LeadingOf(left, raw + right);
    TrailingOf(left + raw, right);
  }

  lemma {:induction false} ListReplaced(site: Site, c: Credentials, raw: string)
    ensures Replacement(GuideRewriter(site, c), raw) == ListText(site, c, raw)
  {
  }

  lemma {:induction false} ListOfParts(site: Site, c: Credentials, parts: seq<string>)
    requires |parts| > 0 && forall i :: 0 <= i < |parts| ==> ',' !in parts[i]
    ensures Replacement(GuideRewriter(site, c), Join(parts, ',')) == Join(GuideTexts(site, c, parts), ',')
  {
    SplitOfJoin(parts, ',');
    ListReplaced(site, c, Join(parts, ','));
  }

  lemma HeaderText(site: Site, c: Credentials, line: string)
    requires CachedPlaylists.Sensible(site) && IsHeader(TrimSpace(line))
    ensures MatchesOf(site.guides(line), line)
    ensures LineText(site, c, line) == Spliced(line, site.guides(line), GuideRewriter(site, c))
  {
    assert QuotedMatches(site.guides(line), line);
  }

  /** Match `k`, which reads `raw`, now reads `new_`, at its shifted place. */
  ghost predicate Becomes(text: string, ms: seq<Span>, f: Rewriter, k: nat, raw: string, new_: string, whole: string)
    requires MatchesOf(ms, text) && k < |ms|
  {
    var at := ms[k].from + Shift(text, ms, f, k);
    && text[ms[k].from..ms[k].to] == raw
    && 0 <= at <= at + |new_| <= |whole| && whole[at..at + |new_|] == new_
  }

  lemma {:induction false} MatchBecomes(
    text: string, ms: seq<Span>, f: Rewriter, k: nat, raw: string, new_: string, whole: string)
    requires MatchesOf(ms, text) && k < |ms| && text[ms[k].from..ms[k].to] == raw
    requires Replacement(f, raw) == new_ && whole == Spliced(text, ms, f)
    ensures Becomes(text, ms, f, k, raw, new_, whole)
  {
    MatchReplaced(text, ms, f, k);
  }

  /** In a header line each attribute value becomes the rewriting of its list, element by element, at
    * its shifted place. */
  lemma {:induction false} HeaderLine(
    site: Site, c: Credentials, line: string, ms: seq<Span>, k: nat, parts: seq<string>)
    requires CachedPlaylists.Sensible(site) && IsHeader(TrimSpace(line))
    requires ms == site.guides(line) && MatchesOf(ms, line) && k < |ms|
    requires |parts| > 0 && forall i :: 0 <= i < |parts| ==> ',' !in parts[i]
    requires line[ms[k].from..ms[k].to] == Join(parts, ',')
    ensures Becomes(line, ms, GuideRewriter(site, c), k,
                    Join(parts, ','), Join(GuideTexts(site, c, parts), ','), LineText(site, c, line))
  {
    HeaderText(site, c, line);
    ListOfParts(site, c, parts);
    MatchBecomes(line, ms, GuideRewriter(site, c), k,
                 Join(parts, ','), Join(GuideTexts(site, c, parts), ','), LineText(site, c, line));
  }
}
