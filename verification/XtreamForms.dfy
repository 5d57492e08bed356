/** Which provider URLs are published, said on their text (internal/proxy/xtream_urls.go, 31-98): four
  * forms and no others; and the round trip for each of them. */
module XtreamForms {

  import opened Prelude
  import opened Text
  import opened XtreamUrls
  import opened XtreamRoundTrip

  // ---- The four forms, below the provider's base path ----

  predicate IsApi(r: string) {
    Lower(r) in {"player_api.php", "panel_api.php", "enigma2.php", "get.php", "xmltv.php"}
  }

  predicate IsStreamRoute(r: string) {
    Lower(r) in {"live", "movie", "series", "timeshift", "hls"}
  }

  /** `a/rest`. */
  function Then(a: string, rest: string): string {
    a + "/" + rest
  }

  /** `a`, or `a/x`. */
  ghost predicate Opens(text: string, a: string) {
    text == a || exists x :: text == Then(a, x)
  }

  /** `name.php`, or `name.php/x`. */
  ghost predicate ApiForm(text: string) {
    exists r :: IsApi(r) && Opens(text, r)
  }

  /** `route/user/pass/x`. */
  ghost predicate StreamForm(p: Provider, text: string) {
    exists r, x ::
      IsStreamRoute(r) && text == Then(r, Then(p.upstreamUsername, Then(p.upstreamPassword, x)))
  }

  /** `a/b`, or `a/b/x`. */
  ghost predicate OpensBoth(text: string, a: string, b: string) {
    text == Then(a, b) || exists x :: text == Then(a, Then(b, x))
  }

  ghost predicate StreamingForm(text: string) {
    exists a, b :: EqualFold(a, "streaming") && EqualFold(b, "timeshift.php") && OpensBoth(text, a, b)
  }

  /** `streaming/timeshift.php`, or that and `/x`, with the provider's credentials in the query. */
  ghost predicate TimeshiftForm(p: Provider, text: string, q: Query) {
    && Get(q, "username") == p.upstreamUsername && Get(q, "password") == p.upstreamPassword
    && StreamingForm(text)
  }

  /** `user/pass/x`, if the user's name is not taken for a route. */
  ghost predicate BareForm(p: Provider, text: string) {
    && p.upstreamUsername != "" && !IsApi(p.upstreamUsername) && !IsStreamRoute(p.upstreamUsername)
    && !EqualFold(p.upstreamUsername, "streaming")
    && exists x :: text == Then(p.upstreamUsername, Then(p.upstreamPassword, x))
  }

  ghost predicate Recognised(p: Provider, text: string, q: Query) {
    ApiForm(text) || StreamForm(p, text) || TimeshiftForm(p, text, q) || BareForm(p, text)
  }

  // ---- Segments of a text ----

  lemma CutFirst(a: string, rest: string)
    requires '/' !in a
    ensures Split(Then(a, rest), '/') == [a] + Split(rest, '/')
  {
    SplitAppend(a, '/', rest);
    SplitWithoutSeparator(a, '/');
  }

  /** What follows the first segment. */
  function Rest(text: string): string {
    Join(Split(text, '/')[1..], '/')
  }

  lemma FirstAndRest(text: string)
    ensures var s := Split(text, '/');
            if |s| > 1 then text == Then(s[0], Rest(text)) && Split(Rest(text), '/') == s[1..] else text == s[0]
  {
    JoinOfSplit(text, '/');
    if |Split(text, '/')| > 1 { SplitOfJoin(Split(text, '/')[1..], '/'); }
  }

  lemma OpensFirst(text: string, a: string)
    requires '/' !in a
    ensures Opens(text, a) <==> Split(text, '/')[0] == a
  {
    FirstAndRest(text);
    if text == a {
      SplitWithoutSeparator(a, '/');
    } else if x :| text == Then(a, x) {
      CutFirst(a, x);
    }
  }

  /** A literal name in any letter case contains no slash. */
  lemma LowerSlash(s: string)
    ensures '/' in s <==> '/' in Lower(s)
  {
    forall i | 0 <= i < |s| ensures Lower(s)[i] == '/' <==> s[i] == '/' {}
    if '/' in s { var i :| 0 <= i < |s| && s[i] == '/'; assert Lower(s)[i] == '/'; }
    if '/' in Lower(s) { var i :| 0 <= i < |s| && Lower(s)[i] == '/'; assert s[i] == '/'; }
  }

  lemma NamesSlashFree(r: string)
    requires IsApi(r) || IsStreamRoute(r) || Lower(r) == "streaming" || Lower(r) == "timeshift.php"
    ensures '/' !in r && r != ""
  {
    LowerSlash(r);
  }

  lemma LiteralsLower()
    ensures Lower("streaming") == "streaming" && Lower("timeshift.php") == "timeshift.php" && Lower("live") == "live"
  {
  }

  // ---- The forms and the shapes ----

  /** A shape only depends on the segments; these are the texts that have it. */
  lemma ApiIff(text: string)
    ensures ApiForm(text) <==> IsApi(Split(text, '/')[0])
  {
    if r :| IsApi(r) && Opens(text, r) {
      NamesSlashFree(r);
      OpensFirst(text, r);
    }
    if IsApi(Split(text, '/')[0]) {
      OpensFirst(text, Split(text, '/')[0]);
    }
  }

  /** `a/b/x` by its segments. */
  lemma TwoCut(text: string, a: string, b: string)
    requires '/' !in a && '/' !in b
    ensures var s := Split(text, '/');
            (exists x :: text == Then(a, Then(b, x))) <==> |s| >= 3 && s[0] == a && s[1] == b
  {
    if x :| text == Then(a, Then(b, x)) {
      CutFirst(a, Then(b, x));
      CutFirst(b, x);
    }
    FirstAndRest(text);
    FirstAndRest(Rest(text));
    var s := Split(text, '/');
    if |s| >= 3 && s[0] == a && s[1] == b {
      assert text == Then(a, Then(b, Rest(Rest(text))));
    }
  }

  /** `r/a/b/x` by its segments. */
  lemma ThreeCut(text: string, r: string, a: string, b: string)
    requires '/' !in r && '/' !in a && '/' !in b
    ensures var s := Split(text, '/');
            (exists x :: text == Then(r, Then(a, Then(b, x)))) <==> |s| >= 4 && s[0] == r && s[1] == a && s[2] == b
  {
    if x :| text == Then(r, Then(a, Then(b, x))) {
      CutFirst(r, Then(a, Then(b, x)));
      TwoCut(Then(a, Then(b, x)), a, b);
    }
    FirstAndRest(text);
    var s := Split(text, '/');
    if |s| >= 4 && s[0] == r && s[1] == a && s[2] == b {
      TwoCut(Rest(text), a, b);
      var x :| Rest(text) == Then(a, Then(b, x));
      assert text == Then(r, Then(a, Then(b, x)));
    }
  }

  lemma StreamIff(p: Provider, text: string)
    requires '/' !in p.upstreamUsername && '/' !in p.upstreamPassword
    ensures StreamForm(p, text)
       <==> && |Split(text, '/')| >= 4 && IsStreamRoute(Split(text, '/')[0])
            && Split(text, '/')[1] == p.upstreamUsername && Split(text, '/')[2] == p.upstreamPassword
  {
    var u, w := p.upstreamUsername, p.upstreamPassword;
    if r, x :| IsStreamRoute(r) && text == Then(r, Then(u, Then(w, x))) {
      NamesSlashFree(r);
      ThreeCut(text, r, u, w);
    }
    var s := Split(text, '/');
    if |s| >= 4 && IsStreamRoute(s[0]) && s[1] == u && s[2] == w {
      ThreeCut(text, s[0], u, w);
    }
  }

  lemma OpensTwo(text: string, a: string, b: string)
    requires '/' !in a && '/' !in b
    ensures var s := Split(text, '/');
            OpensBoth(text, a, b) <==> |s| >= 2 && s[0] == a && s[1] == b
  {
    TwoCut(text, a, b);
    if text == Then(a, b) {
      CutFirst(a, b);
      SplitWithoutSeparator(b, '/');
    }
    FirstAndRest(text);
    FirstAndRest(Rest(text));
  }

  lemma TimeshiftIff(text: string)
    ensures var s := Split(text, '/');
            StreamingForm(text) <==> |s| >= 2 && EqualFold(s[0], "streaming") && EqualFold(s[1], "timeshift.php")
  {
    LiteralsLower();
    if a, b :| EqualFold(a, "streaming") && EqualFold(b, "timeshift.php") && OpensBoth(text, a, b) {
      NamesSlashFree(a);
      NamesSlashFree(b);
      OpensTwo(text, a, b);
    }
    var s := Split(text, '/');
    if |s| >= 2 && EqualFold(s[0], "streaming") && EqualFold(s[1], "timeshift.php") {
      OpensTwo(text, s[0], s[1]);
    }
  }

  /** The segments that have a shape are those of a text of one of the four forms. */
  lemma ShapeIff(p: Provider, text: string, q: Query)
    requires '/' !in p.upstreamUsername && '/' !in p.upstreamPassword
    ensures ShapeOf(p, Split(text, '/'), q).Some? <==> Recognised(p, text, q)
    ensures ApiForm(text) ==> ShapeOf(p, Split(text, '/'), q) == Some(Api)
    ensures StreamForm(p, text) ==> ShapeOf(p, Split(text, '/'), q) == Some(Stream)
    ensures TimeshiftForm(p, text, q) ==> ShapeOf(p, Split(text, '/'), q) == Some(PhpTimeshift)
    ensures BareForm(p, text) ==> ShapeOf(p, Split(text, '/'), q) == Some(Bare)
  {
    LiteralsLower();
    ApiIff(text);
    StreamIff(p, text);
    TimeshiftIff(text);
    TwoCut(text, p.upstreamUsername, p.upstreamPassword);
    ByFirst(p, Split(text, '/'), q);
  }

  /** What the first segment decides. */
  lemma ByFirst(p: Provider, s: seq<string>, q: Query)
    requires |s| > 0
    ensures ShapeOf(p, s, q)
      == if IsApi(s[0]) then Some(Api)
         else if IsStreamRoute(s[0]) then
           (if |s| >= 4 && s[1] == p.upstreamUsername && s[2] == p.upstreamPassword then Some(Stream) else None)
         else if Lower(s[0]) == "streaming" then
           (if |s| >= 2 && EqualFold(s[1], "timeshift.php")
               && Get(q, "username") == p.upstreamUsername && Get(q, "password") == p.upstreamPassword
            then Some(PhpTimeshift) else None)
         else if s[0] != "" && |s| >= 3 && s[0] == p.upstreamUsername && s[1] == p.upstreamPassword then Some(Bare)
         else None
  {
    assert s[0] == "" ==> Lower(s[0]) == "";
  }

  // ---- What is published ----

  /** A complete set of credentials, a URL on the provider's host, and a public address. */
  predicate Ours(p: Provider, c: Credentials, publicBase: Url, target: Url) {
    && Complete(c) && target.scheme != "" && target.host != ""
    && p.base.host != "" && EqualFold(target.host, p.base.host)
    && publicBase.scheme != "" && publicBase.host != ""
  }

  /** The path is `text` below the provider's base path; a path that is not below it counts whole. */
  predicate Below(p: Provider, path: string, text: string) {
    || path == BasePath(p) + "/" + text
    || (path != BasePath(p) && !HasPrefix(path, BasePath(p) + "/") && text == TrimPrefix(path, '/'))
  }

  lemma BelowSegments(p: Provider, path: string, text: string)
    requires Below(p, path, text)
    ensures SegmentsOf(StreamPath(p, path)) == Split(text, '/')
    ensures path == BasePath(p) + "/" + text ==> StreamPath(p, path) == "/" + text
  {
    var base := BasePath(p);
    if path == base + "/" + text {
      assert path[..|base + "/"|] == base + "/";
      assert path[|base|..] == "/" + text && ("/" + text)[1..] == text;
    }
  }

  /** On its own host, and only there, a provider's URL is published exactly if its text has one of
    * the four forms. */
  lemma PublishedIff(p: Provider, c: Credentials, publicBase: Url, target: Url, text: string)
    requires '/' !in p.upstreamUsername && '/' !in p.upstreamPassword && Below(p, target.path, text)
    ensures Publish(p, c, publicBase, target).Some?
       <==> Ours(p, c, publicBase, target) && Recognised(p, text, target.query)
  {
    BelowSegments(p, target.path, text);
    ShapeIff(p, text, target.query);
  }

  /** Neither is an empty path published nor the base path itself. */
  lemma BaseUnpublished(p: Provider, c: Credentials, publicBase: Url, target: Url)
    requires target.path == "" || target.path == BasePath(p)
    ensures Publish(p, c, publicBase, target) == None
  {
  }

  function StreamText(p: Provider, r: string, x: string): string {
    Then(r, Then(p.upstreamUsername, Then(p.upstreamPassword, x)))
  }

  function BareText(p: Provider, x: string): string {
    Then(p.upstreamUsername, Then(p.upstreamPassword, x))
  }

  function PublicUrl(publicBase: Url, target: Url, text: string, q: Query): Url {
    publicBase.(path := TrimSuffix(publicBase.path, '/') + ("/" + text), query := q, fragment := target.fragment)
  }

  /** The credentials in the query. */
  function WithQuery(q: Query, username: string, password: string): Query {
    q["username" := [username]]["password" := [password]]
  }

  lemma JoinThen(a: string, rest: seq<string>)
    requires |rest| > 0
    ensures Join([a] + rest, '/') == Then(a, Join(rest, '/'))
  {
    assert ([a] + rest)[1..] == rest;
  }

  lemma JoinThree(a: string, b: string, c: string, rest: seq<string>)
    requires |rest| > 0
    ensures Join([a, b, c] + rest, '/') == Then(a, Then(b, Then(c, Join(rest, '/'))))
  {
    var one := [c] + rest;
    var two := [b] + one;
    JoinThen(c, rest);
    JoinThen(b, one);
    JoinThen(a, two);
    assert [a, b, c] + rest == [a] + two;
  }

  lemma StreamSegments(p: Provider, r: string, x: string)
    requires '/' !in p.upstreamUsername && '/' !in p.upstreamPassword && IsStreamRoute(r)
    ensures Split(StreamText(p, r, x), '/') == [r, p.upstreamUsername, p.upstreamPassword] + Split(x, '/')
  {
    NamesSlashFree(r);
    CutFirst(r, BareText(p, x));
    BareSegments(p, x);
  }

  lemma BareSegments(p: Provider, x: string)
    requires '/' !in p.upstreamUsername && '/' !in p.upstreamPassword
    ensures Split(BareText(p, x), '/') == [p.upstreamUsername, p.upstreamPassword] + Split(x, '/')
  {
    CutFirst(p.upstreamUsername, Then(p.upstreamPassword, x));
    CutFirst(p.upstreamPassword, x);
  }

  /** A stream URL is published with the client's credentials in place of the provider's. */
  lemma StreamPublished(p: Provider, c: Credentials, publicBase: Url, target: Url, r: string, x: string)
    requires '/' !in p.upstreamUsername && '/' !in p.upstreamPassword && Ours(p, c, publicBase, target)
    requires IsStreamRoute(r) && Below(p, target.path, StreamText(p, r, x))
    ensures Publish(p, c, publicBase, target)
         == Some(PublicUrl(publicBase, target, Then(r, Then(c.pathUsername, Then(c.pathPassword, x))), target.query))
  {
    BelowSegments(p, target.path, StreamText(p, r, x));
    ShapeIff(p, StreamText(p, r, x), target.query);
    StreamSegments(p, r, x);
    var s := [r, p.upstreamUsername, p.upstreamPassword] + Split(x, '/');
    assert s[1 := c.pathUsername][2 := c.pathPassword] == [r, c.pathUsername, c.pathPassword] + Split(x, '/');
    JoinThree(r, c.pathUsername, c.pathPassword, Split(x, '/'));
    JoinOfSplit(x, '/');
  }

  /** A bare URL is published as a live stream. */
  lemma BarePublished(p: Provider, c: Credentials, publicBase: Url, target: Url, x: string)
    requires '/' !in p.upstreamUsername && '/' !in p.upstreamPassword && Ours(p, c, publicBase, target)
    requires Below(p, target.path, BareText(p, x)) && BareForm(p, BareText(p, x))
    ensures Publish(p, c, publicBase, target)
         == Some(PublicUrl(publicBase, target, Then("live", Then(c.pathUsername, Then(c.pathPassword, x))), target.query))
  {
    BelowSegments(p, target.path, BareText(p, x));
    ShapeIff(p, BareText(p, x), target.query);
    BareSegments(p, x);
    var s := [p.upstreamUsername, p.upstreamPassword] + Split(x, '/');
    assert s[2..] == Split(x, '/');
    JoinThree("live", c.pathUsername, c.pathPassword, Split(x, '/'));
    JoinOfSplit(x, '/');
  }

  /** An API or timeshift script keeps its path and gets the client's credentials in its query. */
  lemma ScriptPublished(p: Provider, c: Credentials, publicBase: Url, target: Url, text: string)
    requires '/' !in p.upstreamUsername && '/' !in p.upstreamPassword && Ours(p, c, publicBase, target)
    requires target.path == BasePath(p) + "/" + text && (ApiForm(text) || TimeshiftForm(p, text, target.query))
    ensures Publish(p, c, publicBase, target)
         == Some(PublicUrl(publicBase, target, text, WithQuery(target.query, c.queryUsername, c.queryPassword)))
  {
    BelowSegments(p, target.path, text);
    ShapeIff(p, text, target.query);
  }

  // ---- There and back, by form ----

  /** The target is published by `p` for client `c` under the proxy's own address. */
  ghost predicate Routable(providers: seq<Provider>, p: Provider, c: User, publicBase: Url, target: Url) {
    && RoutedTo(providers, p) && publicBase.path == "/" + p.route
    && Ours(p, ClientCredentials(c), publicBase, target)
    && Authenticate(p, c.username, c.clientPassword) == Some(c)
    && '/' !in c.username && '/' !in c.clientPassword
    && '/' !in p.upstreamUsername && '/' !in p.upstreamPassword
    && (p.base.path != "" ==> p.base.path[0] == '/')
  }

  /** Publishing, resolving and translating gives `back`, for client `c`. */
  ghost predicate ComesBack(
      providers: seq<Provider>, p: Provider, c: User, publicBase: Url, target: Url, path: string, q: Query)
  {
    match Publish(p, ClientCredentials(c), publicBase, target)
    case None => false
    case Some(public) =>
      match Resolve(providers, public.path)
      case None => false
      case Some(resolved) =>
        Translate(resolved, public.query).Ok?
        && Translate(resolved, public.query).value.user == c
        && Translate(resolved, public.query).value.url == p.base.(path := path, query := q)
  }

  /** No segment of the text is the name of a local user. */
  ghost predicate NoLocalName(p: Provider, text: string) {
    forall i :: 0 <= i < |Split(text, '/')| ==> !HasClientUsername(p, Split(text, '/')[i])
  }

  lemma BelowBase(p: Provider, text: string)
    requires p.base.path != "" ==> p.base.path[0] == '/'
    ensures UnderBase(p, BasePath(p) + "/" + text)
  {
    var base, path := BasePath(p), BasePath(p) + "/" + text;
    assert path[..|base + "/"|] == base + "/";
  }

  lemma FormComesBack(
      providers: seq<Provider>, p: Provider, c: User, publicBase: Url, target: Url, text: string, shape: Shape)
    requires Routable(providers, p, c, publicBase, target) && target.path == BasePath(p) + "/" + text
    requires ShapeOf(p, Split(text, '/'), target.query) == Some(shape)
    requires Unambiguous(p, shape, Split(text, '/'), target.query)
    ensures ComesBack(providers, p, c, publicBase, target,
                      ProviderPath(p, shape, target.path), ProviderQuery(p, shape, target.query))
  {
    BelowBase(p, text);
    BelowSegments(p, target.path, text);
    XtreamRoundTrip.RoundTrip(providers, p, c, publicBase, target, shape);
  }

  /** A stream URL comes back as it was. */
  lemma StreamComesBack(
      providers: seq<Provider>, p: Provider, c: User, publicBase: Url, target: Url, r: string, x: string)
    requires Routable(providers, p, c, publicBase, target) && IsStreamRoute(r)
    requires target.path == BasePath(p) + "/" + StreamText(p, r, x)
    requires NoPair(target.query, "username", "password") && NoPair(target.query, "user", "pass")
    requires !HasClientUsername(p, r) && NoLocalName(p, x)
    ensures ComesBack(providers, p, c, publicBase, target, target.path, target.query)
  {
    ShapeIff(p, StreamText(p, r, x), target.query);
    StreamSegments(p, r, x);
    FormComesBack(providers, p, c, publicBase, target, StreamText(p, r, x), Stream);
  }

  /** A bare URL comes back as its live route. */
  lemma BareComesBack(
      providers: seq<Provider>, p: Provider, c: User, publicBase: Url, target: Url, x: string)
    requires Routable(providers, p, c, publicBase, target) && BareForm(p, BareText(p, x))
    requires target.path == BasePath(p) + "/" + BareText(p, x)
    requires NoPair(target.query, "username", "password") && NoPair(target.query, "user", "pass")
    requires !HasClientUsername(p, "live") && NoLocalName(p, x)
    ensures ComesBack(providers, p, c, publicBase, target,
                      BasePath(p) + "/live" + ("/" + BareText(p, x)), target.query)
  {
    ShapeIff(p, BareText(p, x), target.query);
    BareSegments(p, x);
    BelowSegments(p, target.path, BareText(p, x));
    FormComesBack(providers, p, c, publicBase, target, BareText(p, x), Bare);
  }

  /** A script comes back with the provider's credentials in its query. */
  lemma ScriptComesBack(
      providers: seq<Provider>, p: Provider, c: User, publicBase: Url, target: Url, text: string)
    requires Routable(providers, p, c, publicBase, target) && target.path == BasePath(p) + "/" + text
    requires ApiForm(text) || TimeshiftForm(p, text, target.query)
    requires NoPair(target.query, "user", "pass") && NoLocalName(p, text)
    ensures ComesBack(providers, p, c, publicBase, target, target.path,
                      WithQuery(target.query, p.upstreamUsername, p.upstreamPassword))
  {
    ShapeIff(p, text, target.query);
    FormComesBack(providers, p, c, publicBase, target, text, if ApiForm(text) then Api else PhpTimeshift);
  }
}
