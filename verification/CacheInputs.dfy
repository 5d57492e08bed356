/** What a provider's text must not contain for the cached form to be exact: when the text itself, and
  * every URL read in it once percent-decoded, is free of placeholders, so is its document. */
module CacheInputs {

  import opened Prelude
  import opened Text
  import opened Escaping
  import opened Splicing
  import opened XtreamUrls
  import opened CacheTemplate
  import opened UrlDocuments
  import opened CachedPlaylists
  import CachedJson

  // ---- Parts of a text without placeholders ----

  lemma {:induction false} OccursBehind(a: string, b: string, m: string)
    requires Occurs(b, m)
    ensures Occurs(a + b, m)
  {
    if a == "" {
      assert a + b == b;
    } else {
      OccursBehind(a[1..], b, m);
      assert (a + b)[1..] == a[1..] + b;
    }
  }

  lemma {:induction false} OccursBefore(a: string, b: string, m: string)
    requires Occurs(a, m)
    ensures Occurs(a + b, m)
  {
    PrefixExtends(a, b, m);
    if !HasPrefix(a, m) {
      OccursBefore(a[1..], b, m);
      assert (a + b)[1..] == a[1..] + b;
    }
  }

  lemma PartFree(a: string, b: string, c: string)
    requires MarkerFree(a + b + c)
    ensures MarkerFree(b)
  {
    forall k: Kind ensures !Occurs(b, Marker(k)) {
      if Occurs(b, Marker(k)) {
        OccursBehind(a, b, Marker(k));
        OccursBefore(a + b, c, Marker(k));
      }
    }
  }

  lemma SliceFree(s: string, from: nat, to: nat)
    requires MarkerFree(s) && from <= to <= |s|
    ensures MarkerFree(s[from..to])
  {
    assert s == s[..from] + s[from..to] + s[to..];
    PartFree(s[..from], s[from..to], s[to..]);
  }

  lemma MarkerLength(k: Kind)
    ensures |Marker(k)| > 12 && Marker(k)[0] == '_'
  {
  }

  lemma ShortFree(s: string)
    requires |s| <= 12
    ensures MarkerFree(s)
  {
    forall k: Kind ensures !Occurs(s, Marker(k)) {
      MarkerLength(k);
      TooShort(s, Marker(k));
    }
  }

  lemma {:induction false} NoNewOccurrence(a: string, b: string, m: string)
    requires m != "" && AllMarkerChars(m) && Seam(a, b) && !Occurs(a, m) && !Occurs(b, m)
    ensures !Occurs(a + b, m)
  {
    if a == "" {
      assert a + b == b;
    } else {
      if HasPrefix(a + b, m) { PrefixWithin(a, b, m); }
      assert (a + b)[1..] == a[1..] + b;
      NoNewOccurrence(a[1..], b, m);
    }
  }

  lemma SeamFree(a: string, b: string)
    requires MarkerFree(a) && MarkerFree(b) && Seam(a, b)
    ensures MarkerFree(a + b)
  {
    forall k: Kind ensures !Occurs(a + b, Marker(k)) {
      MarkersAreMarkers(k);
      NoNewOccurrence(a, b, Marker(k));
    }
  }

  lemma {:induction false} PartsFree(parts: seq<string>, sep: char)
    requires MarkerFree(Join(parts, sep))
    ensures forall i :: 0 <= i < |parts| ==> MarkerFree(parts[i])
    ensures forall n :: 0 <= n <= |parts| ==> MarkerFree(Join(parts[n..], sep))
  {
    if |parts| > 1 {
      var rest := Join(parts[1..], sep);
      assert Join(parts, sep) == "" + parts[0] + ([sep] + rest) == (parts[0] + [sep]) + rest + "";
      PartFree("", parts[0], [sep] + rest);
      PartFree(parts[0] + [sep], rest, "");
      PartsFree(parts[1..], sep);
      forall n | 0 <= n <= |parts| ensures MarkerFree(Join(parts[n..], sep)) {
        if n > 0 { assert parts[n..] == parts[1..][n - 1..]; } else { assert parts[0..] == parts; }
      }
    } else if |parts| == 1 {
      assert parts[0..] == parts && parts[1..] == [];
      ShortFree("");
    } else {
      assert parts[0..] == parts;
    }
  }

  lemma SplitFree(s: string, sep: char)
    requires MarkerFree(s)
    ensures forall i :: 0 <= i < |Split(s, sep)| ==> MarkerFree(Split(s, sep)[i])
    ensures forall n :: 0 <= n <= |Split(s, sep)| ==> MarkerFree(Join(Split(s, sep)[n..], sep))
  {
    JoinOfSplit(s, sep);
    PartsFree(Split(s, sep), sep);
  }

  lemma EscapedFree(s: string, mode: Mode)
    requires MarkerFree(s)
    ensures MarkerFree(Escape(s, mode))
  {
    forall k: Kind ensures !Occurs(Escape(s, mode), Marker(k)) {
      MarkersAreMarkers(k);
      MarkerLength(k);
      if Occurs(Escape(s, mode), Marker(k)) { EscapingAddsNoMarker(s, Marker(k), mode); }
    }
  }

  // ---- Documents ----

  lemma FreeAppend(a: seq<Piece>, b: seq<Piece>)
    requires PlaceholderFree(a) && PlaceholderFree(b)
    ensures PlaceholderFree(a + b)
  {
  }

  lemma FreeFixed(text: string)
    requires MarkerFree(text)
    ensures PlaceholderFree([Fixed(text)]) && PlaceholderFree(FixedDoc(text))
  {
  }

  lemma {:induction false} FreeJoin(docs: seq<seq<Piece>>, sep: char)
    requires forall i :: 0 <= i < |docs| ==> PlaceholderFree(docs[i])
    ensures PlaceholderFree(JoinDocs(docs, sep))
  {
    if |docs| > 1 {
      FreeJoin(docs[1..], sep);
      ShortFree([sep]);
      FreeFixed([sep]);
      FreeAppend(docs[0], [Fixed([sep])]);
      FreeAppend(docs[0] + [Fixed([sep])], JoinDocs(docs[1..], sep));
    }
  }

  // ---- Published URLs ----

  /** A URL whose decoded parts contain no placeholder. */
  ghost predicate CleanUrl(u: Url) {
    && MarkerFree(u.path) && MarkerFree(u.fragment)
    && forall name :: name in u.query ==>
         MarkerFree(name) && forall i :: 0 <= i < |u.query[name]| ==> MarkerFree(u.query[name][i])
  }

  lemma StreamPathFree(p: Provider, path: string)
    requires MarkerFree(path)
    ensures MarkerFree(StreamPath(p, path))
  {
    ShortFree("/");
    var base := BasePath(p);
    if HasPrefix(path, base + "/") {
      SliceFree(path, |base|, |path|);
      assert path[|base|..] == path[|base|..|path|];
    }
  }

  lemma CredentialDocFree(head: string, rest: string)
    requires MarkerFree(head) && MarkerFree(rest)
    ensures PlaceholderFree(CredentialDoc(head, rest))
  {
    ShortFree("/");
    SeamFree("/", head);
    SeamFree("/" + head, "/");
    SeamFree("/", rest);
  }

  lemma PathDocFree(shape: Shape, streamPath: string, segments: seq<string>)
    requires shape.Stream? ==> |segments| >= 4
    requires shape.Bare? ==> |segments| >= 3
    requires MarkerFree(streamPath) && segments == SegmentsOf(streamPath)
    ensures PlaceholderFree(PathDoc(shape, streamPath, segments))
  {
    if streamPath != "" { SliceFree(streamPath, 1, |streamPath|); }
    assert streamPath != "" ==> streamPath[1..] == streamPath[1..|streamPath|];
    SplitFree(TrimPrefix(streamPath, '/'), '/');
    match shape
    case Stream =>
      EscapedFree(segments[0], WholePath);
      EscapedFree(Join(segments[3..], '/'), WholePath);
      CredentialDocFree(Escape(segments[0], WholePath), Escape(Join(segments[3..], '/'), WholePath));
    case Bare =>
      ShortFree("live");
      EscapedFree("live", WholePath);
      EscapedFree(Join(segments[2..], '/'), WholePath);
      CredentialDocFree(Escape("live", WholePath), Escape(Join(segments[2..], '/'), WholePath));
    case _ =>
      EscapedFree(streamPath, WholePath);
  }

  lemma {:induction false} PairsFree(name: string, values: seq<string>)
    requires MarkerFree(name) && forall i :: 0 <= i < |values| ==> MarkerFree(values[i])
    ensures forall i :: 0 <= i < |PairTexts(name, values)| ==> MarkerFree(PairTexts(name, values)[i])
  {
    if values != [] {
      PairsFree(name, values[1..]);
      EscapedFree(name, Query);
      EscapedFree(values[0], Query);
      ShortFree("=");
      SeamFree(Escape(name, Query), "=");
      SeamFree(Escape(name, Query) + "=", Escape(values[0], Query));
    }
  }

  lemma NameDocsFree(shape: Shape, q: XtreamUrls.Query, name: string)
    requires name in q ==> MarkerFree(name) && forall i :: 0 <= i < |q[name]| ==> MarkerFree(q[name][i])
    ensures forall i :: 0 <= i < |NameDocs(shape, q, name)| ==> PlaceholderFree(NameDocs(shape, q, name)[i])
  {
    ShortFree("username=");
    ShortFree("password=");
    if name in q { PairsFree(name, q[name]); }
  }

  lemma {:induction false} QueryDocsFree(shape: Shape, u: Url, names: seq<string>)
    requires CleanUrl(u)
    ensures forall i :: 0 <= i < |QueryDocs(shape, u.query, names)| ==>
              PlaceholderFree(QueryDocs(shape, u.query, names)[i])
  {
    if names != [] {
      NameDocsFree(shape, u.query, names[0]);
      QueryDocsFree(shape, u, names[1..]);
    }
  }

  lemma QueryDocFree(shape: Shape, u: Url, order: NameOrder)
    requires CleanUrl(u)
    ensures PlaceholderFree(QueryDoc(shape, u.query, order))
  {
    var docs := QueryDocs(shape, u.query, order(PublicNames(shape, u.query)));
    QueryDocsFree(shape, u, order(PublicNames(shape, u.query)));
    FreeJoin(docs, '&');
    ShortFree("?");
    FreeFixed("?");
    FreeAppend([Fixed("?")], JoinDocs(docs, '&'));
  }

  lemma WholeDocFree(head: string, path: seq<Piece>, query: seq<Piece>, fragment: string)
    requires MarkerFree(head) && PlaceholderFree(path) && PlaceholderFree(query) && MarkerFree(fragment)
    ensures PlaceholderFree(WholeDoc(head, path, query, fragment))
  {
    ShortFree("#");
    EscapedFree(fragment, Fragment);
    SeamFree("#", Escape(fragment, Fragment));
    FreeFixed(head);
    FreeAppend([Fixed(head)], path);
    FreeAppend([Fixed(head)] + path, query);
    FreeAppend([Fixed(head)] + path + query, FragmentDoc(fragment));
  }

  lemma UrlDocFree(p: Provider, publicBase: Url, target: Url, order: NameOrder)
    requires UrlDoc(p, publicBase, target, order).Some?
    requires CleanUrl(target) && MarkerFree(HeadText(publicBase))
    ensures PlaceholderFree(UrlDoc(p, publicBase, target, order).value)
  {
    var streamPath := StreamPath(p, target.path);
    var segments := SegmentsOf(streamPath);
    var shape := ShapeOf(p, segments, target.query).value;
    StreamPathFree(p, target.path);
    PathDocFree(shape, streamPath, segments);
    QueryDocFree(shape, target, order);
    WholeDocFree(HeadText(publicBase), PathDoc(shape, streamPath, segments), QueryDoc(shape, target.query, order),
                 target.fragment);
  }

  // ---- Playlists ----

  /** If a reference is a URL, that URL is clean. */
  ghost predicate CleanReference(site: Site, raw: string) {
    site.resolve(raw).Some? ==> CleanUrl(site.resolve(raw).value)
  }

  ghost predicate CleanList(site: Site, raw: string) {
    forall i :: 0 <= i < |Split(raw, ',')| ==> CleanReference(site, TrimSpace(Split(raw, ',')[i]))
  }

  /** The lists that a header's matches hold. */
  ghost predicate CleanMatches(site: Site, line: string, ms: seq<Span>) {
    forall m :: m in ms ==> m.from <= m.to <= |line| && CleanList(site, line[m.from..m.to])
  }

  /** The references that are looked at in a line: a header's guide URLs, or a stream line's URL. */
  ghost predicate CleanLine(site: Site, line: string)
    requires CachedPlaylists.Sensible(site)
  {
    var trimmed := TrimSpace(line);
    if IsHeader(trimmed) then
      CleanMatches(site, line, site.guides(line))
    else trimmed != "" && trimmed[0] != '#' ==> CleanReference(site, SplitPipe(trimmed).0)
  }

  ghost predicate CleanPlaylist(site: Site, body: string)
    requires CachedPlaylists.Sensible(site)
  {
    && MarkerFree(HeadText(site.publicBase)) && MarkerFree(body)
    && forall i :: 0 <= i < |Split(body, '\n')| ==> CleanLine(site, Split(body, '\n')[i])
  }

  lemma {:induction false} TrimmedWithin(s: string)
    ensures exists a, c :: s == a + TrimSpace(s) + c
    decreases |s|
  {
    if s != "" && IsSpace(s[0]) {
      TrimmedWithin(s[1..]);
      var a, c :| s[1..] == a + TrimSpace(s[1..]) + c;
      assert s == ([s[0]] + a) + TrimSpace(s) + c;
    } else if s != "" && IsSpace(s[|s| - 1]) {
      var t := s[..|s| - 1];
      TrimmedWithin(t);
      var a, c :| t == a + TrimSpace(t) + c;
      assert s == a + TrimSpace(s) + (c + [s[|s| - 1]]);
    } else {
      assert s == "" + TrimSpace(s) + "";
    }
  }

  lemma TrimmedFree(s: string)
    requires MarkerFree(s)
    ensures MarkerFree(TrimSpace(s))
  {
    TrimmedWithin(s);
    var a, c :| s == a + TrimSpace(s) + c;
    PartFree(a, TrimSpace(s), c);
  }

  lemma {:induction false} BlanksFree(s: string)
    requires forall i :: 0 <= i < |s| ==> IsBlank(s[i])
    ensures MarkerFree(s)
  {
    ShortFree("");
    if s != "" {
      BlanksFree(s[1..]);
      ShortFree([s[0]]);
      SeamFree([s[0]], s[1..]);
      assert s == [s[0]] + s[1..];
    }
  }

  lemma TargetDocFree(site: Site, raw: string)
    requires TargetDoc(site, raw).Some? && MarkerFree(raw) && MarkerFree(HeadText(site.publicBase))
    requires CleanReference(site, SplitPipe(raw).0)
    ensures PlaceholderFree(TargetDoc(site, raw).value)
  {
    var target := site.resolve(SplitPipe(raw).0).value;
    UrlDocFree(site.provider, site.publicBase, target, site.order);
    PipeOptions(raw);
    assert raw == SplitPipe(raw).0 + SplitPipe(raw).1 + "";
    PartFree(SplitPipe(raw).0, SplitPipe(raw).1, "");
    FreeFixed(SplitPipe(raw).1);
    FreeAppend(UrlDoc(site.provider, site.publicBase, target, site.order).value, FixedDoc(SplitPipe(raw).1));
  }

  lemma GuideDocFree(site: Site, part: string)
    requires MarkerFree(part) && MarkerFree(HeadText(site.publicBase)) && CleanReference(site, TrimSpace(part))
    ensures PlaceholderFree(GuideDoc(site, part))
  {
    FreeFixed(part);
    var target := site.resolve(TrimSpace(part));
    if target.Some? {
      var doc := UrlDoc(site.provider, site.publicBase, target.value, site.order);
      if doc.Some? {
        UrlDocFree(site.provider, site.publicBase, target.value, site.order);
        BlanksAreBlank(part);
        BlanksFree(LeadingBlanks(part));
        BlanksFree(TrailingBlanks(part));
        FreeFixed(LeadingBlanks(part));
        FreeFixed(TrailingBlanks(part));
        FreeAppend(FixedDoc(LeadingBlanks(part)), doc.value);
        FreeAppend(FixedDoc(LeadingBlanks(part)) + doc.value, FixedDoc(TrailingBlanks(part)));
      }
    }
  }

  lemma ListDocFree(site: Site, raw: string)
    requires MarkerFree(raw) && MarkerFree(HeadText(site.publicBase)) && CleanList(site, raw)
    ensures PlaceholderFree(ListDoc(site, raw))
  {
    var parts := Split(raw, ',');
    SplitFree(raw, ',');
    forall i | 0 <= i < |parts| ensures PlaceholderFree(GuideDocs(site, parts)[i]) {
      GuideDocFree(site, parts[i]);
    }
    FreeJoin(GuideDocs(site, parts), ',');
  }

  lemma ThreeFree(gap: string, list: seq<Piece>, rest: seq<Piece>)
    requires MarkerFree(gap) && PlaceholderFree(list) && PlaceholderFree(rest)
    ensures PlaceholderFree(FixedDoc(gap) + list + rest)
  {
    FreeFixed(gap);
    FreeAppend(FixedDoc(gap), list);
    FreeAppend(FixedDoc(gap) + list, rest);
  }

  lemma HeaderEndFree(site: Site, line: string, ms: seq<Span>)
    requires MatchesOf(ms, line) && MarkerFree(line)
    ensures PlaceholderFree(HeaderDoc(site, line, ms, |ms|))
  {
    SliceFree(line, Resume(ms, |ms|), |line|);
    assert line[Resume(ms, |ms|)..] == line[Resume(ms, |ms|)..|line|];
    FreeFixed(line[Resume(ms, |ms|)..]);
  }

  lemma HeaderStepFree(site: Site, line: string, ms: seq<Span>, k: nat)
    requires MatchesOf(ms, line) && k < |ms| && MarkerFree(line) && MarkerFree(HeadText(site.publicBase))
    requires CleanMatches(site, line, ms) && PlaceholderFree(HeaderDoc(site, line, ms, k + 1))
    ensures PlaceholderFree(HeaderDoc(site, line, ms, k))
  {
    SliceFree(line, Resume(ms, k), ms[k].from);
    SliceFree(line, ms[k].from, ms[k].to);
    assert ms[k] in ms;
    ListDocFree(site, line[ms[k].from..ms[k].to]);
    ThreeFree(line[Resume(ms, k)..ms[k].from], ListDoc(site, line[ms[k].from..ms[k].to]),
              HeaderDoc(site, line, ms, k + 1));
  }

  lemma HeaderDocFree(site: Site, line: string, ms: seq<Span>)
    requires MatchesOf(ms, line) && MarkerFree(line) && MarkerFree(HeadText(site.publicBase))
    requires CleanMatches(site, line, ms)
    ensures PlaceholderFree(HeaderDoc(site, line, ms, 0))
  {
    HeaderEndFree(site, line, ms);
    for k := |ms| downto 0
      invariant PlaceholderFree(HeaderDoc(site, line, ms, k))
    {
      HeaderStepFree(site, line, ms, k);
    }
  }

  lemma LineDocFree(site: Site, line: string)
    requires CachedPlaylists.Sensible(site) && MarkerFree(line) && MarkerFree(HeadText(site.publicBase))
    requires CleanLine(site, line)
    ensures PlaceholderFree(LineDoc(site, line))
  {
    var trimmed := TrimSpace(line);
    FreeFixed(line);
    TrimmedFree(line);
    if IsHeader(trimmed) {
      HeaderDocFree(site, line, site.guides(line));
    } else if trimmed != "" && trimmed[0] != '#' && TargetDoc(site, trimmed).Some? {
      TargetDocFree(site, trimmed);
    }
  }

  /** A playlist without placeholders, in its text and in the URLs it names once decoded, has a
    * document without placeholders. */
  lemma PlaylistFree(site: Site, body: string)
    requires CachedPlaylists.Sensible(site) && CleanPlaylist(site, body)
    ensures PlaceholderFree(PlaylistDoc(site, body))
  {
    var lines := Split(body, '\n');
    SplitFree(body, '\n');
    forall i | 0 <= i < |lines| ensures PlaceholderFree(LineDocs(site, lines)[i]) {
      LineDocFree(site, lines[i]);
    }
    FreeJoin(LineDocs(site, lines), '\n');
  }

  /** So for every such playlist a cache hit reads like the playlist rewritten for the client. */
  lemma CleanPlaylistExact(site: Site, body: string, client: Client)
    requires CachedPlaylists.Sensible(site) && CleanPlaylist(site, body)
    requires PlainClient(client) && SlashFreeClient(client)
    ensures DecodedSegments(Personalized(PlaylistText(site, CanonicalCredentials(), body), client))
         == DecodedSegments(PlaylistText(site, CredentialsOf(client), body))
  {
    PlaylistFree(site, body);
    CachedPlaylists.FastEqualsSlow(site, body, client);
  }

  // ---- Catalogues ----

  /** A JSON value without placeholders in its strings, keys and atoms, nor in the URLs that its
    * strings are once decoded. */
  ghost predicate CleanJson(source: CachedJson.Source, v: CachedJson.Json) {
    match v
    case Str(s) => MarkerFree(s) && (source.parse(s).Some? ==> CleanUrl(source.parse(s).value))
    case Atom(text) => MarkerFree(text)
    case Node(keys, children) =>
      && (keys.Some? ==> forall i :: 0 <= i < |keys.value| ==> MarkerFree(keys.value[i]))
      && forall i :: 0 <= i < |children| ==> CleanJson(source, children[i])
  }

  /** A placeholder at the start of an escaped JSON text stands at the start of the text. */
  lemma {:induction false} PrefixSurvivesJson(s: string, m: string)
    requires Plain(m) && HasPrefix(CachedJson.JsonEscape(s), m)
    ensures HasPrefix(s, m)
    decreases |m|
  {
    if m != "" {
      var e := CachedJson.JsonEscape(s);
      assert e[0] == e[..|m|][0] == m[0];
      assert Unreserved(m[0]);
      assert CachedJson.JsonChar(s[0]) == [s[0]];
      assert e[1..] == CachedJson.JsonEscape(s[1..]);
      assert e[1..][..|m| - 1] == e[..|m|][1..] == m[1..];
      PrefixSurvivesJson(s[1..], m[1..]);
      assert s[..|m|] == [s[0]] + s[1..][..|m| - 1];
      assert m == [m[0]] + m[1..];
    }
  }

  /** A longer code contains no underscore, so no placeholder starts inside it. */
  lemma {:induction false} CodeHidesNone(code: string, rest: string, m: string)
    requires m != "" && m[0] == '_' && '_' !in code && Occurs(code + rest, m)
    ensures Occurs(rest, m)
  {
    if code == "" {
      assert code + rest == rest;
    } else {
      assert code[0] in code;
      PrefixStart(code + rest, m);
      assert (code + rest)[1..] == code[1..] + rest;
      CodeHidesNone(code[1..], rest, m);
    }
  }

  lemma CodeChars(c: char)
    ensures CachedJson.JsonChar(c) == [c] || '_' !in CachedJson.JsonChar(c)
  {
    if CachedJson.Coded(c) {
      var d, e := c as int / 16 % 16, c as int % 16;
      assert CachedJson.LOWER_HEX[d] != '_' && CachedJson.LOWER_HEX[e] != '_';
    }
  }

  lemma {:induction false} JsonAddsNone(s: string, m: string)
    requires Plain(m) && |m| > 0 && m[0] == '_' && Occurs(CachedJson.JsonEscape(s), m)
    ensures Occurs(s, m)
    decreases |s|
  {
    var e := CachedJson.JsonEscape(s);
    if HasPrefix(e, m) {
      PrefixSurvivesJson(s, m);
    } else {
      var code, rest := CachedJson.JsonChar(s[0]), CachedJson.JsonEscape(s[1..]);
      CodeChars(s[0]);
      if code == [s[0]] {
        assert e[1..] == rest;
      } else {
        CodeHidesNone(code, rest, m);
      }
      JsonAddsNone(s[1..], m);
    }
  }

  lemma JsonEscapedFree(s: string)
    requires MarkerFree(s)
    ensures MarkerFree(CachedJson.JsonEscape(s)) && MarkerFree(CachedJson.JsonQuote(s))
  {
    forall k: Kind ensures !Occurs(CachedJson.JsonEscape(s), Marker(k)) {
      MarkersAreMarkers(k);
      MarkerLength(k);
      if Occurs(CachedJson.JsonEscape(s), Marker(k)) { JsonAddsNone(s, Marker(k)); }
    }
    ShortFree("\"");
    SeamFree("\"", CachedJson.JsonEscape(s));
    SeamFree("\"" + CachedJson.JsonEscape(s), "\"");
  }

  lemma EscapedDocFree(doc: seq<Piece>)
    requires PlaceholderFree(doc)
    ensures PlaceholderFree(CachedJson.EscapedDoc(doc))
  {
    forall i | 0 <= i < |doc| && doc[i].Fixed? ensures MarkerFree(CachedJson.JsonEscape(doc[i].text)) {
      JsonEscapedFree(doc[i].text);
    }
  }

  lemma StringFree(source: CachedJson.Source, s: string)
    requires CleanJson(source, CachedJson.Str(s)) && MarkerFree(HeadText(source.publicBase))
    ensures PlaceholderFree(CachedJson.ChildDoc(source, CachedJson.Str(s)))
  {
    JsonEscapedFree(s);
    FreeFixed(CachedJson.JsonQuote(s));
    if CachedJson.StringDoc(source, s).Some? {
      var doc := CachedJson.StringDoc(source, s).value;
      UrlDocFree(source.provider, source.publicBase, source.parse(s).value, source.order);
      EscapedDocFree(doc);
      ShortFree("\"");
      FreeFixed("\"");
      FreeAppend([Fixed("\"")], CachedJson.EscapedDoc(doc));
      FreeAppend([Fixed("\"")] + CachedJson.EscapedDoc(doc), [Fixed("\"")]);
    }
  }

  lemma LabelFree(source: CachedJson.Source, v: CachedJson.Json, i: nat)
    requires v.Node? && CleanJson(source, v)
    ensures PlaceholderFree(CachedJson.LabelDoc(v, i))
  {
    if v.keys.Some? && i < |v.keys.value| {
      JsonEscapedFree(v.keys.value[i]);
      ShortFree(":");
      SeamFree(CachedJson.JsonQuote(v.keys.value[i]), ":");
    }
  }

  lemma NodeFree(source: CachedJson.Source, v: CachedJson.Json)
    requires v.Node? && forall i :: 0 <= i < |v.children| ==> PlaceholderFree(CachedJson.MemberDocs(source, v)[i])
    ensures PlaceholderFree(CachedJson.ValueDoc(source, v))
  {
    var docs := CachedJson.MemberDocs(source, v);
    var open, close := [Fixed(CachedJson.Open(v))], [Fixed(CachedJson.Close(v))];
    ShortFree(CachedJson.Open(v));
    ShortFree(CachedJson.Close(v));
    FreeJoin(docs, ',');
    FreeAppend(open, JoinDocs(docs, ','));
    FreeAppend(open + JoinDocs(docs, ','), close);
  }

  /** A catalogue without placeholders has a document without placeholders. */
  lemma {:induction false} CatalogueFree(source: CachedJson.Source, v: CachedJson.Json)
    requires CleanJson(source, v) && MarkerFree(HeadText(source.publicBase))
    ensures PlaceholderFree(CachedJson.ValueDoc(source, v))
    decreases v
  {
    match v
    case Str(s) =>
      JsonEscapedFree(s);
    case Atom(text) =>
    case Node(_, children) =>
      forall i | 0 <= i < |children| ensures PlaceholderFree(CachedJson.MemberDocs(source, v)[i]) {
        LabelFree(source, v, i);
        if children[i].Str? {
          StringFree(source, children[i].s);
        } else {
          CatalogueFree(source, children[i]);
        }
        FreeAppend(CachedJson.LabelDoc(v, i), CachedJson.ChildDoc(source, children[i]));
      }
      NodeFree(source, v);
  }

  /** So for every such catalogue in which something is rewritten, a cache hit spells a value that
    * is, string by string, the catalogue rewritten for the client. */
  lemma CleanCatalogueExact(source: CachedJson.Source, v: CachedJson.Json, body: string, client: Client)
    requires CachedJson.Sensible(source) && PlainClient(client) && SlashFreeClient(client)
    requires MarkerFree(body) && CleanJson(source, v) && MarkerFree(HeadText(source.publicBase))
    requires CachedJson.Changes(source, CredentialsOf(client), v)
    ensures
      var fast := Personalized(CachedJson.JsonText(source, CanonicalCredentials(), Some(v), body), client);
      && CachedJson.Spells(fast, CachedJson.FastTree(source, client, v))
      && CachedJson.TreesAlike(CachedJson.FastTree(source, client, v),
                               CachedJson.Rewritten(source, CredentialsOf(client), v))
  {
    CatalogueFree(source, v);
    CachedJson.FastEqualsSlow(source, Some(v), body, client);
  }
}
