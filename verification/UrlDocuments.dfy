/** Published URLs as text, and as template documents: the text of a published URL depends on
  * the client only in its credential slots. */
module UrlDocuments {

  import opened Prelude
  import opened Text
  import opened Escaping
  import opened XtreamUrls
  import opened CacheTemplate

  // ---- URLs as text ----

  /** The order in which a query's names are written; it depends on the names alone. */
  type NameOrder = set<string> -> seq<string>

  function PairTexts(name: string, values: seq<string>): seq<string> {
    if values == [] then []
    else [Escape(name, Query) + "=" + Escape(values[0], Query)] + PairTexts(name, values[1..])
  }

  function ValuesOf(q: XtreamUrls.Query, name: string): seq<string> {
    if name in q then q[name] else []
  }

  function QueryTexts(q: XtreamUrls.Query, names: seq<string>): seq<string> {
    if names == [] then []
    else PairTexts(names[0], ValuesOf(q, names[0])) + QueryTexts(q, names[1..])
  }

  function PrintQuery(q: XtreamUrls.Query, order: NameOrder): string {
    var parts := QueryTexts(q, order(q.Keys));
    if parts == [] then "" else "?" + Join(parts, '&')
  }

  function PrintFragment(fragment: string): string {
    if fragment == "" then "" else "#" + Escape(fragment, Fragment)
  }

  function PrintUrl(u: Url, order: NameOrder): string {
    u.scheme + "://" + u.host + Escape(u.path, WholePath) + PrintQuery(u.query, order) + PrintFragment(u.fragment)
  }

  // ---- Sound documents ----

  predicate PathKind(k: Kind) {
    k.PathUser? || k.PathPass?
  }

  predicate PathSlot(p: Piece) {
    p.Slot? && PathKind(p.kind)
  }

  predicate OpensWithSlash(p: Piece) {
    p.Fixed? && p.text != "" && p.text[0] == '/'
  }

  predicate ClosesWithSlash(p: Piece) {
    p.Fixed? && p.text != "" && p.text[|p.text| - 1] == '/'
  }

  /** Neighbouring pieces cannot form a placeholder between them, and a path slot is exactly
    * one path segment. */
  predicate Neighbours(left: Piece, right: Piece) {
    && Fenced(left, right)
    && (PathSlot(left) ==> OpensWithSlash(right))
    && (PathSlot(right) ==> ClosesWithSlash(left))
  }

  ghost predicate Sound(doc: seq<Piece>) {
    && (forall i :: 0 <= i < |doc| - 1 ==> Neighbours(doc[i], doc[i + 1]))
    && (doc != [] ==> !PathSlot(doc[0]) && !PathSlot(doc[|doc| - 1]))
  }

  lemma SoundAppend(a: seq<Piece>, b: seq<Piece>)
    requires Sound(a) && Sound(b)
    requires a == [] || b == [] || Fenced(a[|a| - 1], b[0])
    ensures Sound(a + b)
  {
    forall i | 0 <= i < |a + b| - 1 ensures Neighbours((a + b)[i], (a + b)[i + 1]) {
      if i + 1 < |a| {
        assert Neighbours(a[i], a[i + 1]);
      } else if i >= |a| {
        assert Neighbours(b[i - |a|], b[i - |a| + 1]);
      } else {
        assert (a + b)[i] == a[|a| - 1] && (a + b)[i + 1] == b[0];
      }
    }
  }

  lemma {:induction false} RenderAppend(a: seq<Piece>, b: seq<Piece>, vals: Values)
    ensures Render(a + b, vals) == Render(a, vals) + Render(b, vals)
  {
    if a == [] {
      assert a + b == b;
    } else {
      assert (a + b)[1..] == a[1..] + b;
      RenderAppend(a[1..], b, vals);
    }
  }

  lemma RenderOne(p: Piece, vals: Values)
    ensures Render([p], vals) == RenderPiece(p, vals)
  {
    assert Render([p][1..], vals) == "";
  }

  /** Documents one after the other with a fixed separator. */
  function JoinDocs(docs: seq<seq<Piece>>, sep: char): seq<Piece> {
    if |docs| == 0 then []
    else if |docs| == 1 then docs[0]
    else docs[0] + [Fixed([sep])] + JoinDocs(docs[1..], sep)
  }

  function RenderEach(docs: seq<seq<Piece>>, vals: Values): seq<string> {
    seq(|docs|, i requires 0 <= i < |docs| => Render(docs[i], vals))
  }

  lemma {:induction false} RenderJoin(docs: seq<seq<Piece>>, sep: char, vals: Values)
    ensures Render(JoinDocs(docs, sep), vals) == Join(RenderEach(docs, vals), sep)
  {
    if |docs| > 1 {
      RenderJoin(docs[1..], sep, vals);
      assert RenderEach(docs, vals)[1..] == RenderEach(docs[1..], vals);
      RenderAppend(docs[0] + [Fixed([sep])], JoinDocs(docs[1..], sep), vals);
      RenderAppend(docs[0], [Fixed([sep])], vals);
      RenderOne(Fixed([sep]), vals);
    }
  }

  lemma {:induction false} SoundJoin(docs: seq<seq<Piece>>, sep: char)
    requires !MarkerChar(sep) && forall i :: 0 <= i < |docs| ==> Sound(docs[i])
    ensures Sound(JoinDocs(docs, sep))
  {
    if |docs| > 1 {
      SoundJoin(docs[1..], sep);
      SoundAppend(docs[0], [Fixed([sep])]);
      SoundAppend(docs[0] + [Fixed([sep])], JoinDocs(docs[1..], sep));
    }
  }

  // ---- The document of a published URL ----

  /** What stands in a slot when the rewriter itself runs with credentials `c`. */
  function SlowValue(c: Credentials, k: Kind): string {
    match k
    case PathUser => Escape(c.pathUsername, WholePath)
    case PathPass => Escape(c.pathPassword, WholePath)
    case QueryUser => Escape(c.queryUsername, Query)
    case QueryPass => Escape(c.queryPassword, Query)
  }

  function SlowValues(c: Credentials): Values {
    k => SlowValue(c, k)
  }

  function CanonicalCredentials(): Credentials {
    Credentials(PATH_USER_PLACEHOLDER, PATH_PASS_PLACEHOLDER, QUERY_USER_PLACEHOLDER, QUERY_PASS_PLACEHOLDER)
  }

  /** Run with the placeholders as credentials, the rewriter writes them as they are. */
  lemma CanonicalIsMarkers(k: Kind)
    ensures SlowValue(CanonicalCredentials(), k) == Marker(k)
  {
    MarkersAreMarkers(k);
    UnreservedKept(Marker(k), if PathKind(k) then WholePath else Query);
  }

  function PathDoc(shape: Shape, streamPath: string, segments: seq<string>): seq<Piece>
    requires shape.Stream? ==> |segments| >= 4
    requires shape.Bare? ==> |segments| >= 3
  {
    match shape
    case Stream => CredentialDoc(Escape(segments[0], WholePath), Escape(Join(segments[3..], '/'), WholePath))
    case Bare => CredentialDoc(Escape("live", WholePath), Escape(Join(segments[2..], '/'), WholePath))
    case _ => [Fixed(Escape(streamPath, WholePath))]
  }

  function FixedDocs(texts: seq<string>): seq<seq<Piece>> {
    seq(|texts|, i requires 0 <= i < |texts| => [Fixed(texts[i])])
  }

  /** The shapes whose credentials stand in the query. */
  predicate InQuery(shape: Shape) {
    shape.Api? || shape.PhpTimeshift?
  }

  function NameDocs(shape: Shape, q: XtreamUrls.Query, name: string): seq<seq<Piece>> {
    if InQuery(shape) && name == "username" then [[Fixed("username="), Slot(QueryUser)]]
    else if InQuery(shape) && name == "password" then [[Fixed("password="), Slot(QueryPass)]]
    else FixedDocs(PairTexts(name, ValuesOf(q, name)))
  }

  function QueryDocs(shape: Shape, q: XtreamUrls.Query, names: seq<string>): seq<seq<Piece>> {
    if names == [] then [] else NameDocs(shape, q, names[0]) + QueryDocs(shape, q, names[1..])
  }

  function PublicNames(shape: Shape, q: XtreamUrls.Query): set<string> {
    if InQuery(shape) then q.Keys + {"username", "password"} else q.Keys
  }

  function QueryDoc(shape: Shape, q: XtreamUrls.Query, order: NameOrder): seq<Piece> {
    var docs := QueryDocs(shape, q, order(PublicNames(shape, q)));
    if docs == [] then [] else [Fixed("?")] + JoinDocs(docs, '&')
  }

  function FragmentDoc(fragment: string): seq<Piece> {
    if fragment == "" then [] else [Fixed(PrintFragment(fragment))]
  }

  function HeadText(publicBase: Url): string {
    publicBase.scheme + "://" + publicBase.host + Escape(TrimSuffix(publicBase.path, '/'), WholePath)
  }

  /** The document of the published form of `target`; none where nothing is published. */
  function UrlDoc(p: Provider, publicBase: Url, target: Url, order: NameOrder): Option<seq<Piece>> {
    if target.scheme == "" || target.host == "" then None
    else if p.base.host == "" || !EqualFold(target.host, p.base.host) then None
    else
      var streamPath := StreamPath(p, target.path);
      var segments := SegmentsOf(streamPath);
      match ShapeOf(p, segments, target.query)
      case None => None
      case Some(shape) =>
        if publicBase.scheme == "" || publicBase.host == "" then None
        else Some(WholeDoc(HeadText(publicBase), PathDoc(shape, streamPath, segments),
                           QueryDoc(shape, target.query, order), target.fragment))
  }

  lemma EscapeSlash(rest: string)
    ensures Escape("/" + rest, WholePath) == "/" + Escape(rest, WholePath)
  {
    assert ("/" + rest)[1..] == rest;
  }

  lemma EscapeSegment(a: string, rest: string)
    ensures Escape(a + "/" + rest, WholePath) == Escape(a, WholePath) + "/" + Escape(rest, WholePath)
  {
    EscapeAppend(a, "/" + rest, WholePath);
    EscapeSlash(rest);
    assert a + "/" + rest == a + ("/" + rest);
    assert Escape(a, WholePath) + "/" + Escape(rest, WholePath) == Escape(a, WholePath) + ("/" + Escape(rest, WholePath));
  }

  /** The four-part path of a credential route, as the five pieces of its document. */
  function FivePieces(head: string, user: string, pass: string, rest: string): string {
    "/" + head + "/" + (user + ("/" + (pass + ("/" + rest))))
  }

  lemma Nested(head: string, user: string, pass: string, rest: string)
    ensures "/" + (head + "/" + (user + "/" + (pass + "/" + rest))) == FivePieces(head, user, pass, rest)
  {
  }

  lemma SlottedPath(head: string, user: string, pass: string, rest: string)
    ensures Escape(FivePieces(head, user, pass, rest), WholePath)
         == FivePieces(Escape(head, WholePath), Escape(user, WholePath), Escape(pass, WholePath), Escape(rest, WholePath))
  {
    Nested(head, user, pass, rest);
    Nested(Escape(head, WholePath), Escape(user, WholePath), Escape(pass, WholePath), Escape(rest, WholePath));
    EscapeSegment(pass, rest);
    EscapeSegment(user, pass + "/" + rest);
    EscapeSegment(head, user + "/" + (pass + "/" + rest));
    EscapeSlash(head + "/" + (user + "/" + (pass + "/" + rest)));
  }

  lemma JoinedFive(s: seq<string>)
    requires |s| >= 4
    ensures "/" + Join(s, '/') == FivePieces(s[0], s[1], s[2], Join(s[3..], '/'))
  {
    assert s[1..][1..] == s[2..] && s[2..][1..] == s[3..];
    Nested(s[0], s[1], s[2], Join(s[3..], '/'));
    assert Join(s[2..], '/') == s[2] + "/" + Join(s[3..], '/');
    assert Join(s[1..], '/') == s[1] + "/" + Join(s[2..], '/');
  }

  function CredentialDoc(head: string, rest: string): seq<Piece> {
    [Fixed("/" + head + "/"), Slot(PathUser), Fixed("/"), Slot(PathPass), Fixed("/" + rest)]
  }

  lemma FiveRendered(head: string, rest: string, vals: Values)
    ensures Render(CredentialDoc(head, rest), vals) == FivePieces(head, vals(PathUser), vals(PathPass), rest)
  {
    var doc := CredentialDoc(head, rest);
    assert doc[1..] == [Slot(PathUser), Fixed("/"), Slot(PathPass), Fixed("/" + rest)];
    assert doc[1..][1..] == [Fixed("/"), Slot(PathPass), Fixed("/" + rest)];
    assert doc[1..][1..][1..] == [Slot(PathPass), Fixed("/" + rest)];
    assert doc[1..][1..][1..][1..] == [Fixed("/" + rest)];
    RenderOne(Fixed("/" + rest), vals);
    assert Render(doc[1..][1..][1..], vals) == vals(PathPass) + ("/" + rest);
    assert Render(doc[1..][1..], vals) == "/" + (vals(PathPass) + ("/" + rest));
    assert Render(doc[1..], vals) == vals(PathUser) + ("/" + (vals(PathPass) + ("/" + rest)));
  }

  /** A path whose second and third segments are the credentials. */
  lemma CredentialPathRendered(s: seq<string>, c: Credentials)
    requires |s| >= 4 && s[1] == c.pathUsername && s[2] == c.pathPassword
    ensures Escape("/" + Join(s, '/'), WholePath)
         == Render(CredentialDoc(Escape(s[0], WholePath), Escape(Join(s[3..], '/'), WholePath)), SlowValues(c))
  {
    JoinedFive(s);
    SlottedPath(s[0], s[1], s[2], Join(s[3..], '/'));
    FiveRendered(Escape(s[0], WholePath), Escape(Join(s[3..], '/'), WholePath), SlowValues(c));
  }

  lemma PathRendered(shape: Shape, streamPath: string, segments: seq<string>, c: Credentials)
    requires shape.Stream? ==> |segments| >= 4
    requires shape.Bare? ==> |segments| >= 3
    ensures Escape(PublicPath(shape, streamPath, segments, c), WholePath)
         == Render(PathDoc(shape, streamPath, segments), SlowValues(c))
  {
    if shape.Stream? {
      var s := segments[1 := c.pathUsername][2 := c.pathPassword];
      assert s[3..] == segments[3..];
      CredentialPathRendered(s, c);
    } else if shape.Bare? {
      var s := ["live", c.pathUsername, c.pathPassword] + segments[2..];
      assert s[3..] == segments[2..];
      CredentialPathRendered(s, c);
    } else {
      RenderOne(Fixed(Escape(streamPath, WholePath)), SlowValues(c));
    }
  }

  lemma FixedRendered(texts: seq<string>, vals: Values)
    ensures RenderEach(FixedDocs(texts), vals) == texts
  {
    forall i | 0 <= i < |texts| ensures Render(FixedDocs(texts)[i], vals) == texts[i] {
      RenderOne(Fixed(texts[i]), vals);
    }
  }

  lemma SlotRendered(name: string, k: Kind, value: string, vals: Values)
    requires forall i :: 0 <= i < |name| ==> Unreserved(name[i])
    requires vals(k) == Escape(value, Query)
    ensures RenderEach([[Fixed(name + "="), Slot(k)]], vals) == PairTexts(name, [value])
  {
    var doc := [Fixed(name + "="), Slot(k)];
    assert doc[1..] == [Slot(k)];
    RenderOne(Slot(k), vals);
    UnreservedKept(name, Query);
    assert Render(doc, vals) == name + "=" + Escape(value, Query);
    assert [value][1..] == [];
    assert RenderEach([doc], vals) == [Render(doc, vals)];
  }

  lemma NameRendered(shape: Shape, q: XtreamUrls.Query, name: string, c: Credentials)
    ensures RenderEach(NameDocs(shape, q, name), SlowValues(c))
         == PairTexts(name, ValuesOf(PublicQuery(shape, q, c), name))
  {
    assert "username"[0] != "password"[0];
    if InQuery(shape) && name == "username" {
      assert "username" + "=" == "username=";
      assert PublicQuery(shape, q, c)["username"] == [c.queryUsername];
      SlotRendered("username", QueryUser, c.queryUsername, SlowValues(c));
    } else if InQuery(shape) && name == "password" {
      assert "password" + "=" == "password=";
      assert PublicQuery(shape, q, c)["password"] == [c.queryPassword];
      SlotRendered("password", QueryPass, c.queryPassword, SlowValues(c));
    } else {
      assert ValuesOf(PublicQuery(shape, q, c), name) == ValuesOf(q, name);
      FixedRendered(PairTexts(name, ValuesOf(q, name)), SlowValues(c));
    }
  }

  lemma RenderEachAppend(a: seq<seq<Piece>>, b: seq<seq<Piece>>, vals: Values)
    ensures RenderEach(a + b, vals) == RenderEach(a, vals) + RenderEach(b, vals)
  {
  }

  lemma {:induction false} QueryRendered(shape: Shape, q: XtreamUrls.Query, names: seq<string>, c: Credentials)
    ensures RenderEach(QueryDocs(shape, q, names), SlowValues(c)) == QueryTexts(PublicQuery(shape, q, c), names)
  {
    if names == [] {
    } else {
      NameRendered(shape, q, names[0], c);
      QueryRendered(shape, q, names[1..], c);
      RenderEachAppend(NameDocs(shape, q, names[0]), QueryDocs(shape, q, names[1..]), SlowValues(c));
    }
  }

  lemma QueryDocRendered(shape: Shape, q: XtreamUrls.Query, c: Credentials, order: NameOrder)
    ensures PrintQuery(PublicQuery(shape, q, c), order) == Render(QueryDoc(shape, q, order), SlowValues(c))
  {
    var public := PublicQuery(shape, q, c);
    assert public.Keys == PublicNames(shape, q);
    var docs := QueryDocs(shape, q, order(public.Keys));
    QueryRendered(shape, q, order(public.Keys), c);
    if docs != [] {
      RenderJoin(docs, '&', SlowValues(c));
      RenderAppend([Fixed("?")], JoinDocs(docs, '&'), SlowValues(c));
      RenderOne(Fixed("?"), SlowValues(c));
    }
  }

  /** A URL's document, put together. */
  function WholeDoc(head: string, path: seq<Piece>, query: seq<Piece>, fragment: string): seq<Piece> {
    [Fixed(head)] + path + query + FragmentDoc(fragment)
  }

  lemma WholeRendered(head: string, path: seq<Piece>, query: seq<Piece>, fragment: string, vals: Values)
    ensures Render(WholeDoc(head, path, query, fragment), vals)
         == head + Render(path, vals) + Render(query, vals) + PrintFragment(fragment)
  {
    RenderOne(Fixed(head), vals);
    RenderOne(Fixed(PrintFragment(fragment)), vals);
    RenderAppend([Fixed(head)] + path + query, FragmentDoc(fragment), vals);
    RenderAppend([Fixed(head)] + path, query, vals);
    RenderAppend([Fixed(head)], path, vals);
  }

  lemma Grouped(a: string, b: string, c: string)
    ensures a + (b + c) == a + b + c
  {
  }

  lemma PrintPublic(u: Url, publicBase: Url, path: string, order: NameOrder)
    requires u.scheme == publicBase.scheme && u.host == publicBase.host
    requires u.path == TrimSuffix(publicBase.path, '/') + path
    ensures PrintUrl(u, order)
         == HeadText(publicBase) + Escape(path, WholePath) + PrintQuery(u.query, order) + PrintFragment(u.fragment)
  {
    EscapeAppend(TrimSuffix(publicBase.path, '/'), path, WholePath);
    Grouped(u.scheme + "://" + u.host, Escape(TrimSuffix(publicBase.path, '/'), WholePath), Escape(path, WholePath));
  }

  /** Publishing succeeds for one client exactly when it does for every other, and the text of
    * the result is the URL's document with that client's credentials in its slots. */
  lemma UrlRendered(p: Provider, c: Credentials, publicBase: Url, target: Url, order: NameOrder)
    requires Complete(c)
    ensures
      match Publish(p, c, publicBase, target)
      case None => UrlDoc(p, publicBase, target, order).None?
      case Some(u) =>
        && UrlDoc(p, publicBase, target, order).Some?
        && PrintUrl(u, order) == Render(UrlDoc(p, publicBase, target, order).value, SlowValues(c))
  {
    if UrlDoc(p, publicBase, target, order).Some? {
      var streamPath := StreamPath(p, target.path);
      var segments := SegmentsOf(streamPath);
      var shape := ShapeOf(p, segments, target.query).value;
      PathRendered(shape, streamPath, segments, c);
      QueryDocRendered(shape, target.query, c, order);
      WholeRendered(HeadText(publicBase), PathDoc(shape, streamPath, segments), QueryDoc(shape, target.query, order),
                    target.fragment, SlowValues(c));
      PrintPublic(Publish(p, c, publicBase, target).value, publicBase,
                  PublicPath(shape, streamPath, segments, c), order);
    }
  }

  lemma FixedDocsSound(texts: seq<string>)
    ensures forall i :: 0 <= i < |FixedDocs(texts)| ==> Sound(FixedDocs(texts)[i])
  {
  }

  lemma NameDocsSound(shape: Shape, q: XtreamUrls.Query, name: string)
    ensures forall i :: 0 <= i < |NameDocs(shape, q, name)| ==> Sound(NameDocs(shape, q, name)[i])
  {
    FixedDocsSound(PairTexts(name, ValuesOf(q, name)));
  }

  lemma {:induction false} QueryDocsSound(shape: Shape, q: XtreamUrls.Query, names: seq<string>)
    ensures forall i :: 0 <= i < |QueryDocs(shape, q, names)| ==> Sound(QueryDocs(shape, q, names)[i])
  {
    if names != [] {
      NameDocsSound(shape, q, names[0]);
      QueryDocsSound(shape, q, names[1..]);
    }
  }

  /** A query's document opens with `?`. */
  lemma QueryDocSound(shape: Shape, q: XtreamUrls.Query, order: NameOrder)
    ensures Sound(QueryDoc(shape, q, order))
    ensures QueryDoc(shape, q, order) != [] ==> QueryDoc(shape, q, order)[0] == Fixed("?")
  {
    var docs := QueryDocs(shape, q, order(PublicNames(shape, q)));
    if docs != [] {
      QueryDocsSound(shape, q, order(PublicNames(shape, q)));
      SoundJoin(docs, '&');
      SoundAppend([Fixed("?")], JoinDocs(docs, '&'));
    }
  }

  lemma CredentialDocSound(head: string, rest: string)
    ensures Sound(CredentialDoc(head, rest))
  {
  }

  lemma PathDocSound(shape: Shape, streamPath: string, segments: seq<string>)
    requires shape.Stream? ==> |segments| >= 4
    requires shape.Bare? ==> |segments| >= 3
    requires streamPath != "" && streamPath[0] == '/'
    ensures var doc := PathDoc(shape, streamPath, segments);
            Sound(doc) && doc != [] && OpensWithSlash(doc[0]) && doc[|doc| - 1].Fixed?
  {
    match shape
    case Stream => CredentialDocSound(Escape(segments[0], WholePath), Escape(Join(segments[3..], '/'), WholePath));
    case Bare => CredentialDocSound(Escape("live", WholePath), Escape(Join(segments[2..], '/'), WholePath));
    case _ =>
      EscapeSlash(streamPath[1..]);
      assert "/" + streamPath[1..] == streamPath;
  }

  lemma WholeSound(head: string, path: seq<Piece>, query: seq<Piece>, fragment: string)
    requires Sound(path) && Sound(query) && path != [] && OpensWithSlash(path[0])
    requires query != [] ==> query[0] == Fixed("?")
    ensures Sound(WholeDoc(head, path, query, fragment))
  {
    SoundAppend([Fixed(head)], path);
    SoundAppend([Fixed(head)] + path, query);
    SoundAppend([Fixed(head)] + path + query, FragmentDoc(fragment));
  }

  /** A URL's document is sound when its path starts with a slash, as it does for every URL
    * with a host. */
  lemma UrlDocSound(p: Provider, publicBase: Url, target: Url, order: NameOrder)
    requires UrlDoc(p, publicBase, target, order).Some?
    requires target.path != "" ==> target.path[0] == '/'
    ensures Sound(UrlDoc(p, publicBase, target, order).value)
  {
    var streamPath := StreamPath(p, target.path);
    var segments := SegmentsOf(streamPath);
    var shape := ShapeOf(p, segments, target.query).value;
    StreamPathSlashed(p, target.path);
    PathDocSound(shape, streamPath, segments);
    QueryDocSound(shape, target.query, order);
    WholeSound(HeadText(publicBase), PathDoc(shape, streamPath, segments),
               QueryDoc(shape, target.query, order), target.fragment);
  }

  lemma StreamPathSlashed(p: Provider, path: string)
    requires path != "" ==> path[0] == '/'
    ensures StreamPath(p, path) != "" ==> StreamPath(p, path)[0] == '/'
    ensures StreamPath(p, path) == "" ==> SegmentsOf(StreamPath(p, path))[0] == ""
  {
    var base := BasePath(p);
    if HasPrefix(path, base + "/") {
      assert path[|base|] == path[..|base + "/"|][|base|] == '/';
    }
  }

  // ---- Decoding ----

  /** What a reader gets who cuts a text at its slashes and percent-decodes the pieces. */
  function DecodedSegments(text: string): seq<Option<string>> {
    var parts := Split(text, '/');
    seq(|parts|, i requires 0 <= i < |parts| => Unescape(parts[i], WholePath))
  }

  /** Texts that read the same, and have the same spelling up to the first slash. */
  predicate ReadAlike(a: string, b: string) {
    Split(a, '/')[0] == Split(b, '/')[0] && DecodedSegments(a) == DecodedSegments(b)
  }

  lemma DecodedAppend(a: string, b: string)
    ensures DecodedSegments(a + ['/'] + b) == DecodedSegments(a) + DecodedSegments(b)
    ensures Split(a + ['/'] + b, '/')[0] == Split(a, '/')[0]
  {
    SplitAppend(a, '/', b);
  }

  lemma DecodedPrepend(c: char, a: string)
    ensures Split([c] + a, '/') == Grow(c, Split(a, '/'), '/')
    ensures DecodedSegments([c] + a) ==
      if c == '/' then [Some("")] + DecodedSegments(a)
      else [Unescape([c] + Split(a, '/')[0], WholePath)] + DecodedSegments(a)[1..]
  {
    assert ([c] + a)[1..] == a;
  }

  lemma {:induction false} AlikeBehind(t: string, a: string, b: string)
    requires ReadAlike(a, b)
    ensures ReadAlike(t + a, t + b)
  {
    if t == "" {
      assert t + a == a && t + b == b;
    } else {
      AlikeBehind(t[1..], a, b);
      assert t + a == [t[0]] + (t[1..] + a) && t + b == [t[0]] + (t[1..] + b);
      DecodedPrepend(t[0], t[1..] + a);
      DecodedPrepend(t[0], t[1..] + b);
    }
  }

  lemma SlashCut(v: string, a: string)
    requires '/' !in v && a != "" && a[0] == '/'
    ensures DecodedSegments(v + a) == [Unescape(v, WholePath)] + DecodedSegments(a)[1..]
  {
    assert v + a == v + ['/'] + a[1..];
    assert a == "" + ['/'] + a[1..];
    DecodedAppend(v, a[1..]);
    DecodedAppend("", a[1..]);
    SplitWithoutSeparator(v, '/');
  }

  /** A path segment spelled in two ways between slashes. */
  lemma AlikeSegment(t: string, v: string, w: string, a: string, b: string)
    requires t != "" && t[|t| - 1] == '/'
    requires '/' !in v && '/' !in w && Unescape(v, WholePath) == Unescape(w, WholePath)
    requires a != "" && a[0] == '/' && b != "" && b[0] == '/' && ReadAlike(a, b)
    ensures ReadAlike(t + (v + a), t + (w + b))
  {
    var head := t[..|t| - 1];
    assert t == head + ['/'];
    assert t + (v + a) == head + ['/'] + (v + a) && t + (w + b) == head + ['/'] + (w + b);
    DecodedAppend(head, v + a);
    DecodedAppend(head, w + b);
    SlashCut(v, a);
    SlashCut(w, b);
  }

  lemma SoundTail(doc: seq<Piece>, n: nat)
    requires Sound(doc) && n < |doc| && !PathSlot(doc[n])
    ensures Sound(doc[n..])
  {
    forall i | 0 <= i < |doc[n..]| - 1 ensures Neighbours(doc[n..][i], doc[n..][i + 1]) {
      assert Neighbours(doc[n + i], doc[n + i + 1]);
    }
  }

  /** Values that agree in the query and read the same in the path. */
  ghost predicate SpelledAlike(f: Values, g: Values) {
    forall k ::
      if PathKind(k) then '/' !in f(k) && '/' !in g(k) && Unescape(f(k), WholePath) == Unescape(g(k), WholePath)
      else f(k) == g(k)
  }

  lemma RenderOpens(doc: seq<Piece>, vals: Values)
    requires doc != [] && OpensWithSlash(doc[0])
    ensures Render(doc, vals) != "" && Render(doc, vals)[0] == '/'
  {
  }

  lemma {:induction false} RenderedAlike(doc: seq<Piece>, f: Values, g: Values)
    requires Sound(doc) && SpelledAlike(f, g)
    ensures ReadAlike(Render(doc, f), Render(doc, g))
    decreases |doc|
  {
    if doc == [] {
    } else if |doc| > 1 && PathSlot(doc[1]) {
      assert Neighbours(doc[0], doc[1]) && Neighbours(doc[1], doc[2]);
      SoundTail(doc, 2);
      RenderedAlike(doc[2..], f, g);
      RenderOpens(doc[2..], f);
      RenderOpens(doc[2..], g);
      assert doc[1..][1..] == doc[2..];
      var k := doc[1].kind;
      AlikeSegment(doc[0].text, f(k), g(k), Render(doc[2..], f), Render(doc[2..], g));
    } else {
      if |doc| > 1 {
        SoundTail(doc, 1);
        RenderedAlike(doc[1..], f, g);
      } else {
        assert doc[1..] == [];
      }
      AlikeBehind(RenderPiece(doc[0], f), Render(doc[1..], f), Render(doc[1..], g));
    }
  }

  // ---- The two forms of a document ----

  function CredentialsOf(client: Client): Credentials {
    Credentials(client.username, client.clientPassword, client.username, client.clientPassword)
  }

  function FastValues(client: Client): Values {
    k => FastValue(client, k)
  }

  predicate SlashFreeClient(client: Client) {
    && '/' !in client.username && '/' !in client.clientPassword
    && Bytewise(client.username) && Bytewise(client.clientPassword)
  }

  lemma SpellingsAgree(client: Client)
    requires SlashFreeClient(client)
    ensures SpelledAlike(FastValues(client), SlowValues(CredentialsOf(client)))
  {
    forall k | PathKind(k)
      ensures '/' !in FastValue(client, k) && '/' !in SlowValue(CredentialsOf(client), k)
      ensures Unescape(FastValue(client, k), WholePath) == Unescape(SlowValue(CredentialsOf(client), k), WholePath)
    {
      var raw := RawValue(client, k);
      EscapedAlphabet(raw, Segment);
      EscapedAlphabet(raw, WholePath);
      RoundTrip(raw, Segment);
      RoundTrip(raw, WholePath);
      PathModesDecodeAlike(Escape(raw, Segment));
    }
  }

  /** A document in its cached form, with a client's credentials substituted. */
  lemma TemplateFills(doc: seq<Piece>, vals: Values, client: Client)
    requires Sound(doc) && PlaceholderFree(doc) && PlainClient(client) && forall k :: vals(k) == Marker(k)
    ensures Personalized(Render(doc, vals), client) == Render(doc, FastValues(client))
  {
    SameValues(doc, vals, Marker);
    assert Delimited(doc) by {
      forall i | 0 <= i < |doc| - 1 ensures Fenced(doc[i], doc[i + 1]) {
        assert Neighbours(doc[i], doc[i + 1]);
      }
    }
    PersonalizedIsFilled(doc, client);
    SameValues(doc, k => FastValue(client, k), FastValues(client));
  }

  /** It decodes like the document rewritten for that client. */
  lemma FastDecodesLikeSlow(doc: seq<Piece>, client: Client)
    requires Sound(doc) && SlashFreeClient(client)
    ensures DecodedSegments(Render(doc, FastValues(client)))
         == DecodedSegments(Render(doc, SlowValues(CredentialsOf(client))))
  {
    SpellingsAgree(client);
    RenderedAlike(doc, FastValues(client), SlowValues(CredentialsOf(client)));
  }
}
