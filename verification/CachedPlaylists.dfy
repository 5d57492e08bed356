/** The cache's M3U playlists (internal/proxy/m3u.go): rewriting a playlist once with
  * placeholders and substituting a client's credentials on each hit says the same as rewriting
  * it for that client. */
module CachedPlaylists {

  import opened Prelude
  import opened Text
  import opened Escaping
  import opened Splicing
  import opened XtreamUrls
  import opened CacheTemplate
  import opened UrlDocuments

  /** A provider, where it is published, and what the URL and regular-expression libraries are
    * taken to do: `resolve` parses a reference against the provider's base, `order` is the
    * order of query names, `guides` finds the guide attributes' values in a header line. */
  datatype Site = Site(
    provider: Provider, publicBase: Url, resolve: string -> Option<Url>, order: NameOrder, guides: string -> seq<Span>)

  predicate IsQuote(c: char) {
    c == '"' || c == '\''
  }

  predicate Quoted(line: string, m: Span) {
    0 < m.from <= m.to < |line| && IsQuote(line[m.from - 1]) && IsQuote(line[m.to])
  }

  /** The attribute values stand between quotes. */
  ghost predicate QuotedMatches(ms: seq<Span>, line: string) {
    && MatchesOf(ms, line)
    && (forall k :: 0 <= k < |ms| ==> Quoted(line, ms[k]))
    && forall i, j :: 0 <= i < j < |ms| ==> ms[i].to < ms[j].from
  }

  /** A URL with a host has an empty path or one that starts with a slash. */
  ghost predicate Sensible(site: Site) {
    && (forall raw :: site.resolve(raw).Some? ==>
          site.resolve(raw).value.path != "" ==> site.resolve(raw).value.path[0] == '/')
    && forall line :: QuotedMatches(site.guides(line), line)
  }

  // ---- Stream lines ----

  function SplitPipe(raw: string): (string, string) {
    if raw == "" || raw[0] == '|' then ("", raw)
    else (([raw[0]] + SplitPipe(raw[1..]).0), SplitPipe(raw[1..]).1)
  }

  lemma {:induction false} PipeOptions(raw: string)
    ensures SplitPipe(raw).0 + SplitPipe(raw).1 == raw
    ensures SplitPipe(raw).1 == "" || SplitPipe(raw).1[0] == '|'
  {
    if raw == "" || raw[0] == '|' {
    } else {
      PipeOptions(raw[1..]);
      assert [raw[0]] + SplitPipe(raw[1..]).0 + SplitPipe(raw[1..]).1
          == [raw[0]] + (SplitPipe(raw[1..]).0 + SplitPipe(raw[1..]).1);
    }
  }

  /** Which of the provider's URLs count as media on a stream line. */
  predicate MediaTarget(p: Provider, target: Url) {
    && p.base.host != "" && EqualFold(target.host, p.base.host)
    && !(BasePath(p) != "" && target.path == BasePath(p))
    && var segments := SegmentsOf(StreamPath(p, target.path));
       var first := Lower(segments[0]);
       segments[0] != "" &&
       if first == "hls" then |segments| >= 5
       else if first in {"live", "movie", "series", "timeshift"} then |segments| >= 4
       else if first == "streaming" then |segments| >= 2 && EqualFold(segments[1], "timeshift.php")
       else |segments| >= 3 && segments[0] == p.upstreamUsername && segments[1] == p.upstreamPassword
  }

  function TargetText(site: Site, c: Credentials, raw: string): Option<string> {
    if !Complete(c) then None
    else
      match site.resolve(SplitPipe(raw).0)
      case None => None
      case Some(target) =>
        if !MediaTarget(site.provider, target) then None
        else
          match Publish(site.provider, c, site.publicBase, target)
          case None => None
          case Some(u) => Some(PrintUrl(u, site.order) + SplitPipe(raw).1)
  }

  // ---- Guide attributes ----

  predicate IsBlank(c: char) {
    c == ' ' || c == '\t'
  }

  function LeadingBlanks(s: string): string {
    if s != "" && IsBlank(s[0]) then [s[0]] + LeadingBlanks(s[1..]) else ""
  }

  function TrailingBlanks(s: string): string {
    if s != "" && IsBlank(s[|s| - 1]) then TrailingBlanks(s[..|s| - 1]) + [s[|s| - 1]] else ""
  }

  function GuideText(site: Site, c: Credentials, part: string): string {
    match site.resolve(TrimSpace(part))
    case None => part
    case Some(target) =>
      match Publish(site.provider, c, site.publicBase, target)
      case None => part
      case Some(u) => LeadingBlanks(part) + PrintUrl(u, site.order) + TrailingBlanks(part)
  }

  function GuideTexts(site: Site, c: Credentials, parts: seq<string>): seq<string> {
    seq(|parts|, i requires 0 <= i < |parts| => GuideText(site, c, parts[i]))
  }

  function ListText(site: Site, c: Credentials, raw: string): string {
    Join(GuideTexts(site, c, Split(raw, ',')), ',')
  }

  /** The loop over a comma-separated URL list; a list without provider URLs is returned as it
    * came. */
  method RewriteM3UURLList(site: Site, c: Credentials, raw: string) returns (r: string)
    ensures r == ListText(site, c, raw)
  {
    var original := Split(raw, ',');
    var parts, changed := original, false;
    for index := 0 to |original|
      invariant |parts| == |original| && parts[index..] == original[index..]
      invariant forall i :: 0 <= i < index ==> parts[i] == GuideText(site, c, original[i])
      invariant !changed ==> parts == original
    {
      var part := parts[index];
      var target := site.resolve(TrimSpace(part));
      if target.Some? {
        var replacement := Publish(site.provider, c, site.publicBase, target.value);
        if replacement.Some? {
          parts := parts[index := LeadingBlanks(part) + PrintUrl(replacement.value, site.order) + TrailingBlanks(part)];
          changed := true;
        }
      }
    }
    assert parts == GuideTexts(site, c, original);
    JoinOfSplit(raw, ',');
    if !changed {
      return raw;
    }
    return Join(parts, ',');
  }

  function GuideRewriter(site: Site, c: Credentials): Rewriter {
    raw => if ListText(site, c, raw) == raw then None else Some(ListText(site, c, raw))
  }

  // ---- Lines and playlists ----

  predicate IsHeader(trimmed: string) {
    |trimmed| >= 7 && EqualFold(trimmed[..7], "#EXTM3U")
  }

  ghost function LineText(site: Site, c: Credentials, line: string): string
    requires Sensible(site)
  {
    var trimmed := TrimSpace(line);
    if IsHeader(trimmed) then Spliced(line, site.guides(line), GuideRewriter(site, c))
    else if trimmed != "" && trimmed[0] != '#' && TargetText(site, c, trimmed).Some?
      then TargetText(site, c, trimmed).value
    else line
  }

  ghost function LineTexts(site: Site, c: Credentials, lines: seq<string>): seq<string>
    requires Sensible(site)
  {
    seq(|lines|, i requires 0 <= i < |lines| => LineText(site, c, lines[i]))
  }

  /** The rewritten playlist. */
  ghost function PlaylistText(site: Site, c: Credentials, body: string): string
    requires Sensible(site)
  {
    Join(LineTexts(site, c, Split(body, '\n')), '\n')
  }

  /** The rewriter as it runs, line by line. */
  method RewriteM3UPlaylist(site: Site, c: Credentials, body: string) returns (r: string)
    requires Sensible(site)
    ensures r == PlaylistText(site, c, body)
  {
    var original := Split(body, '\n');
    var lines := original;
    for i := 0 to |original|
      invariant |lines| == |original| && lines[i..] == original[i..]
      invariant forall j :: 0 <= j < i ==> lines[j] == LineText(site, c, original[j])
    {
      var line := lines[i];
      var trimmed := TrimSpace(line);
      if IsHeader(trimmed) {
        line := SpliceBackToFront(line, site.guides(line), GuideRewriter(site, c));
      } else if trimmed != "" && trimmed[0] != '#' {
        var rewritten := TargetText(site, c, trimmed);
        if rewritten.Some? {
          line := rewritten.value;
        }
      }
      lines := lines[i := line];
    }
    assert lines == LineTexts(site, c, original);
    return Join(lines, '\n');
  }

  // ---- Their documents ----

  function FixedDoc(text: string): seq<Piece> {
    if text == "" then [] else [Fixed(text)]
  }

  function TargetDoc(site: Site, raw: string): Option<seq<Piece>> {
    match site.resolve(SplitPipe(raw).0)
    case None => None
    case Some(target) =>
      if !MediaTarget(site.provider, target) then None
      else
        match UrlDoc(site.provider, site.publicBase, target, site.order)
        case None => None
        case Some(doc) => Some(doc + FixedDoc(SplitPipe(raw).1))
  }

  function GuideDoc(site: Site, part: string): seq<Piece> {
    match site.resolve(TrimSpace(part))
    case None => FixedDoc(part)
    case Some(target) =>
      match UrlDoc(site.provider, site.publicBase, target, site.order)
      case None => FixedDoc(part)
      case Some(doc) => FixedDoc(LeadingBlanks(part)) + doc + FixedDoc(TrailingBlanks(part))
  }

  function GuideDocs(site: Site, parts: seq<string>): seq<seq<Piece>> {
    seq(|parts|, i requires 0 <= i < |parts| => GuideDoc(site, parts[i]))
  }

  function ListDoc(site: Site, raw: string): seq<Piece> {
    JoinDocs(GuideDocs(site, Split(raw, ',')), ',')
  }

  ghost function HeaderDoc(site: Site, line: string, ms: seq<Span>, k: nat): seq<Piece>
    requires MatchesOf(ms, line) && k <= |ms|
    decreases |ms| - k
  {
    if k == |ms| then FixedDoc(line[Resume(ms, k)..])
    else
      FixedDoc(line[Resume(ms, k)..ms[k].from]) + ListDoc(site, line[ms[k].from..ms[k].to])
      + HeaderDoc(site, line, ms, k + 1)
  }

  ghost function LineDoc(site: Site, line: string): seq<Piece>
    requires Sensible(site)
  {
    var trimmed := TrimSpace(line);
    if IsHeader(trimmed) then HeaderDoc(site, line, site.guides(line), 0)
    else if trimmed != "" && trimmed[0] != '#' && TargetDoc(site, trimmed).Some? then TargetDoc(site, trimmed).value
    else FixedDoc(line)
  }

  ghost function LineDocs(site: Site, lines: seq<string>): seq<seq<Piece>>
    requires Sensible(site)
  {
    seq(|lines|, i requires 0 <= i < |lines| => LineDoc(site, lines[i]))
  }

  ghost function PlaylistDoc(site: Site, body: string): seq<Piece>
    requires Sensible(site)
  {
    JoinDocs(LineDocs(site, Split(body, '\n')), '\n')
  }

  // ---- The rewriter writes the document with its own credentials ----

  lemma FixedDocRendered(text: string, vals: Values)
    ensures Render(FixedDoc(text), vals) == text
  {
    if text != "" {
      RenderOne(Fixed(text), vals);
    }
  }

  lemma TargetRendered(site: Site, c: Credentials, raw: string)
    requires Complete(c)
    ensures
      match TargetText(site, c, raw)
      case None => TargetDoc(site, raw).None?
      case Some(text) =>
        TargetDoc(site, raw).Some? && text == Render(TargetDoc(site, raw).value, SlowValues(c))
  {
    var target := site.resolve(SplitPipe(raw).0);
    if target.Some? && MediaTarget(site.provider, target.value) {
      UrlRendered(site.provider, c, site.publicBase, target.value, site.order);
      var doc := UrlDoc(site.provider, site.publicBase, target.value, site.order);
      if doc.Some? {
        RenderAppend(doc.value, FixedDoc(SplitPipe(raw).1), SlowValues(c));
        FixedDocRendered(SplitPipe(raw).1, SlowValues(c));
      }
    }
  }

  lemma GuideRendered(site: Site, c: Credentials, part: string)
    requires Complete(c)
    ensures GuideText(site, c, part) == Render(GuideDoc(site, part), SlowValues(c))
  {
    FixedDocRendered(part, SlowValues(c));
    var target := site.resolve(TrimSpace(part));
    if target.Some? {
      UrlRendered(site.provider, c, site.publicBase, target.value, site.order);
      var doc := UrlDoc(site.provider, site.publicBase, target.value, site.order);
      if doc.Some? {
        var left, right := FixedDoc(LeadingBlanks(part)), FixedDoc(TrailingBlanks(part));
        RenderAppend(left + doc.value, right, SlowValues(c));
        RenderAppend(left, doc.value, SlowValues(c));
        FixedDocRendered(LeadingBlanks(part), SlowValues(c));
        FixedDocRendered(TrailingBlanks(part), SlowValues(c));
      }
    }
  }

  lemma ListRendered(site: Site, c: Credentials, raw: string)
    requires Complete(c)
    ensures ListText(site, c, raw) == Render(ListDoc(site, raw), SlowValues(c))
  {
    var parts := Split(raw, ',');
    RenderJoin(GuideDocs(site, parts), ',', SlowValues(c));
    forall i | 0 <= i < |parts|
      ensures GuideTexts(site, c, parts)[i] == RenderEach(GuideDocs(site, parts), SlowValues(c))[i]
    {
      GuideRendered(site, c, parts[i]);
    }
    assert GuideTexts(site, c, parts) == RenderEach(GuideDocs(site, parts), SlowValues(c));
  }

  lemma GuideReplaced(site: Site, c: Credentials, raw: string)
    requires Complete(c)
    ensures Replacement(GuideRewriter(site, c), raw) == Render(ListDoc(site, raw), SlowValues(c))
  {
    ListRendered(site, c, raw);
  }

  lemma ThreeRendered(gap: string, list: seq<Piece>, rest: seq<Piece>, vals: Values)
    ensures Render(FixedDoc(gap) + list + rest, vals) == gap + Render(list, vals) + Render(rest, vals)
  {
    FixedDocRendered(gap, vals);
    RenderAppend(FixedDoc(gap) + list, rest, vals);
    RenderAppend(FixedDoc(gap), list, vals);
  }

  /** From match `k` on, the spliced line is its document. */
  ghost predicate HeaderSame(site: Site, c: Credentials, line: string, ms: seq<Span>, k: nat)
    requires MatchesOf(ms, line) && k <= |ms|
  {
    SplicedFrom(line, ms, GuideRewriter(site, c), k) == Render(HeaderDoc(site, line, ms, k), SlowValues(c))
  }

  /** One match of a header line. */
  lemma HeaderStep(site: Site, c: Credentials, line: string, ms: seq<Span>, k: nat)
    requires Complete(c) && MatchesOf(ms, line) && k < |ms| && HeaderSame(site, c, line, ms, k + 1)
    ensures HeaderSame(site, c, line, ms, k)
  {
    var gap, raw := line[Resume(ms, k)..ms[k].from], line[ms[k].from..ms[k].to];
    var f := GuideRewriter(site, c);
    GuideReplaced(site, c, raw);
    ThreeRendered(gap, ListDoc(site, raw), HeaderDoc(site, line, ms, k + 1), SlowValues(c));
    assert SplicedFrom(line, ms, f, k) == gap + Replacement(f, raw) + SplicedFrom(line, ms, f, k + 1);
  }

  lemma HeaderEndRendered(site: Site, c: Credentials, line: string, ms: seq<Span>)
    requires MatchesOf(ms, line)
    ensures HeaderSame(site, c, line, ms, |ms|)
  {
    FixedDocRendered(line[Resume(ms, |ms|)..], SlowValues(c));
  }

  lemma HeaderRendered(site: Site, c: Credentials, line: string, ms: seq<Span>)
    requires Complete(c) && MatchesOf(ms, line)
    ensures HeaderSame(site, c, line, ms, 0)
  {
    HeaderEndRendered(site, c, line, ms);
    for k := |ms| downto 0
      invariant HeaderSame(site, c, line, ms, k)
    {
      HeaderStep(site, c, line, ms, k);
    }
  }

  /** A playlist rewritten with credentials `c` is its document with those credentials. */
  lemma PlaylistRendered(site: Site, c: Credentials, body: string)
    requires Sensible(site) && Complete(c)
    ensures PlaylistText(site, c, body) == Render(PlaylistDoc(site, body), SlowValues(c))
  {
    var lines := Split(body, '\n');
    RenderJoin(LineDocs(site, lines), '\n', SlowValues(c));
    forall i | 0 <= i < |lines|
      ensures LineTexts(site, c, lines)[i] == RenderEach(LineDocs(site, lines), SlowValues(c))[i]
    {
      var line := lines[i];
      FixedDocRendered(line, SlowValues(c));
      TargetRendered(site, c, TrimSpace(line));
      if IsHeader(TrimSpace(line)) {
        HeaderRendered(site, c, line, site.guides(line));
      }
    }
    assert LineTexts(site, c, lines) == RenderEach(LineDocs(site, lines), SlowValues(c));
  }

  // ---- The documents are sound ----

  lemma {:induction false} BlanksAreBlank(s: string)
    ensures forall i :: 0 <= i < |LeadingBlanks(s)| ==> IsBlank(LeadingBlanks(s)[i])
    ensures forall i :: 0 <= i < |TrailingBlanks(s)| ==> IsBlank(TrailingBlanks(s)[i])
  {
    if s != "" && IsBlank(s[0]) { BlanksAreBlank(s[1..]); }
    if s != "" && IsBlank(s[|s| - 1]) { BlanksAreBlank(s[..|s| - 1]); }
  }

  lemma BlanksAround(left: string, doc: seq<Piece>, right: string)
    requires Sound(doc)
    requires forall i :: 0 <= i < |left| ==> IsBlank(left[i])
    requires forall i :: 0 <= i < |right| ==> IsBlank(right[i])
    ensures Sound(FixedDoc(left) + doc + FixedDoc(right))
  {
    SoundAppend(FixedDoc(left), doc);
    SoundAppend(FixedDoc(left) + doc, FixedDoc(right));
  }

  lemma GuideSound(site: Site, part: string)
    requires Sensible(site)
    ensures Sound(GuideDoc(site, part))
  {
    var target := site.resolve(TrimSpace(part));
    if target.Some? {
      var doc := UrlDoc(site.provider, site.publicBase, target.value, site.order);
      if doc.Some? {
        UrlDocSound(site.provider, site.publicBase, target.value, site.order);
        BlanksAreBlank(part);
        BlanksAround(LeadingBlanks(part), doc.value, TrailingBlanks(part));
      }
    }
  }

  lemma ListSound(site: Site, raw: string)
    requires Sensible(site)
    ensures Sound(ListDoc(site, raw))
  {
    var parts := Split(raw, ',');
    forall i | 0 <= i < |parts| ensures Sound(GuideDocs(site, parts)[i]) {
      GuideSound(site, parts[i]);
    }
    SoundJoin(GuideDocs(site, parts), ',');
  }

  predicate OpensWithQuote(doc: seq<Piece>) {
    doc != [] && doc[0].Fixed? && doc[0].text != "" && IsQuote(doc[0].text[0])
  }

  lemma QuotedStep(gap: string, list: seq<Piece>, rest: seq<Piece>)
    requires gap != "" && IsQuote(gap[|gap| - 1])
    requires Sound(list) && Sound(rest) && OpensWithQuote(rest)
    ensures Sound(FixedDoc(gap) + list + rest)
    ensures IsQuote(gap[0]) ==> OpensWithQuote(FixedDoc(gap) + list + rest)
  {
    SoundAppend(FixedDoc(gap), list);
    SoundAppend(FixedDoc(gap) + list, rest);
  }

  lemma QuotedGap(ms: seq<Span>, line: string, k: nat)
    requires QuotedMatches(ms, line) && k <= |ms|
    ensures k > 0 ==> Resume(ms, k) < |line| && IsQuote(line[Resume(ms, k)])
    ensures k < |ms| ==> Resume(ms, k) < ms[k].from && IsQuote(line[ms[k].from - 1])
  {
    if k > 0 {
      assert Quoted(line, ms[k - 1]);
    }
    if k < |ms| {
      assert Quoted(line, ms[k]);
    }
  }

  function GapText(line: string, ms: seq<Span>, k: nat): string
    requires k < |ms| && Resume(ms, k) <= ms[k].from <= |line|
  {
    line[Resume(ms, k)..ms[k].from]
  }

  lemma GapQuoted(ms: seq<Span>, line: string, k: nat)
    requires QuotedMatches(ms, line) && k < |ms|
    ensures Resume(ms, k) <= ms[k].from <= |line|
    ensures GapText(line, ms, k) != "" && IsQuote(GapText(line, ms, k)[|GapText(line, ms, k)| - 1])
    ensures k > 0 ==> IsQuote(GapText(line, ms, k)[0])
  {
    QuotedGap(ms, line, k);
  }

  /** From match `k` on, the header's document is sound and, behind a match, opens with its quote. */
  ghost predicate HeaderFine(site: Site, line: string, ms: seq<Span>, k: nat)
    requires MatchesOf(ms, line) && k <= |ms|
  {
    Sound(HeaderDoc(site, line, ms, k)) && (k > 0 ==> OpensWithQuote(HeaderDoc(site, line, ms, k)))
  }

  lemma HeaderSoundAt(site: Site, line: string, ms: seq<Span>, k: nat)
    requires QuotedMatches(ms, line) && k < |ms|
    requires Sound(ListDoc(site, line[ms[k].from..ms[k].to])) && HeaderFine(site, line, ms, k + 1)
    ensures HeaderFine(site, line, ms, k)
  {
    GapQuoted(ms, line, k);
    QuotedStep(GapText(line, ms, k), ListDoc(site, line[ms[k].from..ms[k].to]), HeaderDoc(site, line, ms, k + 1));
  }

  lemma HeaderEnd(site: Site, line: string, ms: seq<Span>)
    requires QuotedMatches(ms, line)
    ensures HeaderFine(site, line, ms, |ms|)
  {
    QuotedGap(ms, line, |ms|);
    var rest := line[Resume(ms, |ms|)..];
    assert HeaderDoc(site, line, ms, |ms|) == FixedDoc(rest);
    assert Sound(FixedDoc(rest));
  }

  lemma {:induction false} HeaderSound(site: Site, line: string, ms: seq<Span>, k: nat)
    requires Sensible(site) && QuotedMatches(ms, line) && k <= |ms|
    ensures HeaderFine(site, line, ms, k)
    decreases |ms| - k
  {
    if k == |ms| {
      HeaderEnd(site, line, ms);
    } else {
      HeaderSound(site, line, ms, k + 1);
      ListSound(site, line[ms[k].from..ms[k].to]);
      HeaderSoundAt(site, line, ms, k);
    }
  }

  lemma TargetSound(site: Site, raw: string)
    requires Sensible(site) && TargetDoc(site, raw).Some?
    ensures Sound(TargetDoc(site, raw).value)
  {
    var target := site.resolve(SplitPipe(raw).0).value;
    UrlDocSound(site.provider, site.publicBase, target, site.order);
    PipeOptions(raw);
    SoundAppend(UrlDoc(site.provider, site.publicBase, target, site.order).value, FixedDoc(SplitPipe(raw).1));
  }

  lemma LineSound(site: Site, line: string)
    requires Sensible(site)
    ensures Sound(LineDoc(site, line))
  {
    var trimmed := TrimSpace(line);
    if IsHeader(trimmed) {
      HeaderSound(site, line, site.guides(line), 0);
    } else if trimmed != "" && trimmed[0] != '#' && TargetDoc(site, trimmed).Some? {
      TargetSound(site, trimmed);
    }
  }

  lemma PlaylistSound(site: Site, body: string)
    requires Sensible(site)
    ensures Sound(PlaylistDoc(site, body))
  {
    var lines := Split(body, '\n');
    forall i | 0 <= i < |lines| ensures Sound(LineDocs(site, lines)[i]) {
      LineSound(site, lines[i]);
    }
    SoundJoin(LineDocs(site, lines), '\n');
  }

  // ---- Fast and slow ----

  /** Rewriting a playlist with placeholders and then substituting a client's credentials
    * gives a playlist that decodes, segment by segment, like the playlist rewritten for that
    * client; both are the same document with differently escaped credentials. */
  lemma FastEqualsSlow(site: Site, body: string, client: Client)
    requires Sensible(site) && PlaceholderFree(PlaylistDoc(site, body))
    requires PlainClient(client) && SlashFreeClient(client)
    ensures
      var fast := Personalized(PlaylistText(site, CanonicalCredentials(), body), client);
      var slow := PlaylistText(site, CredentialsOf(client), body);
      && fast == Render(PlaylistDoc(site, body), FastValues(client))
      && slow == Render(PlaylistDoc(site, body), SlowValues(CredentialsOf(client)))
      && DecodedSegments(fast) == DecodedSegments(slow)
  {
    var doc := PlaylistDoc(site, body);
    PlaylistSound(site, body);
    PlaylistRendered(site, CanonicalCredentials(), body);
    PlaylistRendered(site, CredentialsOf(client), body);
    forall k ensures SlowValues(CanonicalCredentials())(k) == Marker(k) {
      CanonicalIsMarkers(k);
    }
    TemplateFills(doc, SlowValues(CanonicalCredentials()), client);
    FastDecodesLikeSlow(doc, client);
  }

  // ---- Serving ----

  /** A stored generation: its content type, marked if the body is a template, and its body. */
  datatype Stored = Stored(contentType: string, body: string)

  /** What is stored for a playlist fetched from the provider. */
  ghost function Fetched(site: Site, contentType: string, body: string): Stored
    requires Sensible(site)
  {
    Stored(MarkContentType(contentType), PlaylistText(site, CanonicalCredentials(), body))
  }

  /** What a client is sent: a template with its credentials substituted, or a playlist stored
    * before templates existed, rewritten for it. */
  ghost function Served(site: Site, stored: Stored, client: Client): Stored
    requires Sensible(site)
  {
    var (contentType, canonical) := CanonicalContentType(stored.contentType);
    if canonical then Stored(contentType, Personalized(stored.body, client))
    else Stored(contentType, PlaylistText(site, CredentialsOf(client), stored.body))
  }

  /** A client cannot tell the two kinds of generation apart: the same content type, and a
    * playlist that decodes alike. */
  lemma ServedAlike(site: Site, contentType: string, body: string, client: Client)
    requires Sensible(site) && PlaceholderFree(PlaylistDoc(site, body))
    requires PlainClient(client) && SlashFreeClient(client)
    requires !CanonicalContentType(contentType).1
    ensures
      var template := Served(site, Fetched(site, contentType, body), client);
      var legacy := Served(site, Stored(contentType, body), client);
      && template.contentType == legacy.contentType == contentType
      && DecodedSegments(template.body) == DecodedSegments(legacy.body)
  {
    ContentTypeRoundTrip(contentType);
    FastEqualsSlow(site, body, client);
  }
}
