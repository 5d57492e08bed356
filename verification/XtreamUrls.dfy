/** Provider URLs and their public form.
  *
  * `Publish` (internal/proxy/xtream_urls.go) turns a provider's URL into one of this proxy;
  * `Resolve` (internal/routing/resolver.go) and `Translate` (internal/proxy/xtream_request.go)
  * turn a request for it back into a provider URL. URLs are decoded: a path is text, a query
  * maps each name to its values. Letter case is ASCII. */
module XtreamUrls {

  import opened Prelude
  import opened Text

  type Query = map<string, seq<string>>

  function Get(q: Query, name: string): string {
    if name in q && |q[name]| > 0 then q[name][0] else ""
  }

  function Set(q: Query, name: string, value: string): Query {
    q[name := [value]]
  }

  datatype Url = Url(scheme: string, host: string, path: string, query: Query, fragment: string)

  /** `password` is the one the stored hash verifies; `clientPassword` the one presented. */
  datatype User = User(id: string, username: string, password: string, enabled: bool, clientPassword: string)

  datatype Provider = Provider(
    base: Url, route: string, isDefault: bool,
    upstreamUsername: string, upstreamPassword: string, users: seq<User>)

  datatype Credentials = Credentials(
    pathUsername: string, pathPassword: string, queryUsername: string, queryPassword: string)

  function ClientCredentials(user: User): Credentials {
    Credentials(user.username, user.clientPassword, user.username, user.clientPassword)
  }

  // ---- Letter case ----

  function LowerChar(c: char): char {
    if 'A' <= c <= 'Z' then (c as int + 32) as char else c
  }

  function Lower(s: string): (r: string)
    ensures |r| == |s|
  {
    seq(|s|, i requires 0 <= i < |s| => LowerChar(s[i]))
  }

  predicate EqualFold(a: string, b: string) {
    Lower(a) == Lower(b)
  }

  lemma LowerOnce(s: string)
    ensures Lower(Lower(s)) == Lower(s)
  {
  }

  // ---- Provider to public ----

  const API_ENDPOINTS := {"player_api.php", "panel_api.php", "enigma2.php", "get.php", "xmltv.php"}
  const STREAM_ROUTES := {"live", "movie", "series", "timeshift", "hls"}

  function BasePath(p: Provider): string {
    TrimSuffix(p.base.path, '/')
  }

  /** The path below the provider's own base path. */
  function StreamPath(p: Provider, path: string): string {
    var base := BasePath(p);
    if base == "" then path
    else if path == base then "/"
    else if HasPrefix(path, base + "/") then path[|base|..]
    else path
  }

  function SegmentsOf(path: string): (segments: seq<string>)
    ensures |segments| > 0
    ensures forall i :: 0 <= i < |segments| ==> '/' !in segments[i]
  {
    Split(TrimPrefix(path, '/'), '/')
  }

  datatype Shape = Api | Stream | PhpTimeshift | Bare

  /** The route shapes that are recognised, and only with the provider's own credentials where
    * the shape carries them. */
  function ShapeOf(p: Provider, segments: seq<string>, q: Query): Option<Shape>
    requires |segments| > 0
  {
    var first := Lower(segments[0]);
    if segments[0] == "" then None
    else if first in API_ENDPOINTS then Some(Api)
    else if first in STREAM_ROUTES then
      if |segments| < 4 || segments[1] != p.upstreamUsername || segments[2] != p.upstreamPassword then None
      else Some(Stream)
    else if first == "streaming" then
      if |segments| < 2 || !EqualFold(segments[1], "timeshift.php") then None
      else if Get(q, "username") != p.upstreamUsername || Get(q, "password") != p.upstreamPassword then None
      else Some(PhpTimeshift)
    else
      if |segments| < 3 || segments[0] != p.upstreamUsername || segments[1] != p.upstreamPassword then None
      else Some(Bare)
  }

  function PublicPath(shape: Shape, streamPath: string, segments: seq<string>, c: Credentials): string
    requires shape.Stream? ==> |segments| >= 4
    requires shape.Bare? ==> |segments| >= 3
  {
    match shape
    case Stream => "/" + Join(segments[1 := c.pathUsername][2 := c.pathPassword], '/')
    case Bare => "/" + Join(["live", c.pathUsername, c.pathPassword] + segments[2..], '/')
    case _ => streamPath
  }

  function PublicQuery(shape: Shape, q: Query, c: Credentials): Query {
    match shape
    case Api => Set(Set(q, "username", c.queryUsername), "password", c.queryPassword)
    case PhpTimeshift => Set(Set(q, "username", c.queryUsername), "password", c.queryPassword)
    case _ => q
  }

  predicate Complete(c: Credentials) {
    c.pathUsername != "" && c.pathPassword != "" && c.queryUsername != "" && c.queryPassword != ""
  }

  /** The public form of `target`, if it is a URL of provider `p` with a recognised shape. */
  function Publish(p: Provider, c: Credentials, publicBase: Url, target: Url): Option<Url> {
    if !Complete(c) || target.scheme == "" || target.host == "" then None
    else if p.base.host == "" || !EqualFold(target.host, p.base.host) then None
    else
      var streamPath := StreamPath(p, target.path);
      var segments := SegmentsOf(streamPath);
      match ShapeOf(p, segments, target.query)
      case None => None
      case Some(shape) =>
        if publicBase.scheme == "" || publicBase.host == "" then None
        else Some(publicBase.(
                    path := TrimSuffix(publicBase.path, '/') + PublicPath(shape, streamPath, segments, c),
                    query := PublicQuery(shape, target.query, c),
                    fragment := target.fragment))
  }

  /** The rewriter as it runs: segments and query values are replaced one by one. */
  method RewriteXtreamAbsoluteURL(p: Provider, c: Credentials, publicBase: Url, target: Url)
    returns (r: Option<Url>)
    ensures r == Publish(p, c, publicBase, target)
  {
    if c.pathUsername == "" || c.pathPassword == "" || c.queryUsername == "" || c.queryPassword == "" {
      return None;
    }
    if target.scheme == "" || target.host == "" {
      return None;
    }
    if p.base.host == "" || !EqualFold(target.host, p.base.host) {
      return None;
    }
    var streamPath := target.path;
    var basePath := TrimSuffix(p.base.path, '/');
    if basePath != "" {
      if streamPath == basePath {
        streamPath := "/";
      } else if HasPrefix(streamPath, basePath + "/") {
        streamPath := streamPath[|basePath|..];
      }
    }
    var segments := Split(TrimPrefix(streamPath, '/'), '/');
    if segments[0] == "" {
      return None;
    }
    var q := target.query;
    var rewrittenPath := streamPath;
    var first := Lower(segments[0]);
    if first in API_ENDPOINTS {
      q := Set(q, "username", c.queryUsername);
      q := Set(q, "password", c.queryPassword);
    } else if first in STREAM_ROUTES {
      if |segments| < 4 || segments[1] != p.upstreamUsername || segments[2] != p.upstreamPassword {
        return None;
      }
      segments := segments[1 := c.pathUsername];
      segments := segments[2 := c.pathPassword];
      rewrittenPath := "/" + Join(segments, '/');
    } else if first == "streaming" {
      if |segments| < 2 || !EqualFold(segments[1], "timeshift.php") {
        return None;
      }
      if Get(q, "username") != p.upstreamUsername || Get(q, "password") != p.upstreamPassword {
        return None;
      }
      q := Set(q, "username", c.queryUsername);
      q := Set(q, "password", c.queryPassword);
    } else {
      if |segments| < 3 || segments[0] != p.upstreamUsername || segments[1] != p.upstreamPassword {
        return None;
      }
      segments := ["live", c.pathUsername, c.pathPassword] + segments[2..];
      rewrittenPath := "/" + Join(segments, '/');
    }
    if publicBase.scheme == "" || publicBase.host == "" {
      return None;
    }
    return Some(publicBase.(
                  path := TrimSuffix(publicBase.path, '/') + rewrittenPath,
                  query := q,
                  fragment := target.fragment));
  }

  // ---- Routing ----

  datatype MatchType = MatchRoute | MatchDefault

  datatype Resolved = Resolved(provider: Provider, matchedBy: MatchType, remainingPath: string)

  function FirstByRoute(providers: seq<Provider>, name: string): Option<Provider> {
    if providers == [] then None
    else if EqualFold(providers[0].route, name) then Some(providers[0])
    else FirstByRoute(providers[1..], name)
  }

  function FirstDefault(providers: seq<Provider>): Option<Provider> {
    if providers == [] then None
    else if providers[0].isDefault then Some(providers[0])
    else FirstDefault(providers[1..])
  }

  predicate IsSpace(c: char) {
    c == ' ' || c == '\t' || c == '\n' || c == '\r' || c as int == 11 || c as int == 12
  }

  function TrimSpace(s: string): string {
    if s != "" && IsSpace(s[0]) then TrimSpace(s[1..])
    else if s != "" && IsSpace(s[|s| - 1]) then TrimSpace(s[..|s| - 1])
    else s
  }

  /** The provider a request is for: the first whose route is the first path segment, else the
    * first default provider, which then sees the whole path. */
  function Resolve(providers: seq<Provider>, requestPath: string): Option<Resolved> {
    var segments := SegmentsOf(requestPath);
    var first := Lower(TrimSpace(segments[0]));
    match FirstByRoute(providers, first)
    case Some(p) =>
      var remaining := Join(segments[1..], '/');
      Some(Resolved(p, MatchRoute, if remaining == "" then "/" else "/" + remaining))
    case None =>
      match FirstDefault(providers)
      case Some(p) => Some(Resolved(p, MatchDefault, if requestPath == "" then "/" else requestPath))
      case None => None
  }

  // ---- Authentication ----

  function AuthenticateIn(users: seq<User>, username: string, password: string): Option<User> {
    if users == [] then None
    else if users[0].enabled && users[0].username == username && users[0].password == password
      then Some(users[0].(clientPassword := password))
    else AuthenticateIn(users[1..], username, password)
  }

  function Authenticate(p: Provider, username: string, password: string): Option<User> {
    if username == "" || password == "" then None else AuthenticateIn(p.users, username, password)
  }

  function SpacesToPlus(s: string): string {
    seq(|s|, i requires 0 <= i < |s| => if s[i] == ' ' then '+' else s[i])
  }

  /** Exact credentials win; only when they fail are blanks read as unescaped plus signs. */
  function AuthenticateXtreamClient(p: Provider, username: string, password: string): Option<User> {
    if Authenticate(p, username, password).Some? then Authenticate(p, username, password)
    else
      var plusUsername, plusPassword := SpacesToPlus(username), SpacesToPlus(password);
      if (plusUsername != username || plusPassword != password) && plusUsername != "" && plusPassword != ""
      then Authenticate(p, plusUsername, plusPassword)
      else None
  }

  /** Disabled users count too. */
  predicate HasClientUsername(p: Provider, username: string) {
    exists i :: 0 <= i < |p.users| && p.users[i].username == username
  }

  predicate SameClientUser(left: User, right: User) {
    if left.id != "" && right.id != "" then left.id == right.id
    else left.username != "" && left.username == right.username
  }

  // ---- Public to provider ----

  datatype Refusal = Blocked | InvalidCredentials | ConflictingCredentials

  const BLOCKED_ROUTES :=
    {"admin_api.php", "adminapi.php", "reseller_api.php", "reseller.php", "api.php", "portal.php",
     "stalker_portal", "mag", "c"}

  predicate IsBlocked(remaining: string) {
    var parts := Split(Trim(remaining, '/'), '/');
    var first := Lower(parts[0]);
    parts[0] != "" &&
    (first in BLOCKED_ROUTES || (first == "server" && |parts| > 1 && EqualFold(parts[1], "load.php")))
  }

  /** Selecting a second user is an error unless it is the same one. */
  predicate Conflicts(selected: Option<User>, user: User) {
    selected.Some? && !SameClientUser(selected.value, user)
  }

  datatype Swapped<T> = Swapped(value: T, selected: Option<User>)

  /** One pair of query parameters. A pair that is not complete is left alone. */
  function SwapPair(p: Provider, q: Query, selected: Option<User>, userKey: string, passKey: string)
    : Result<Swapped<Query>, Refusal>
  {
    if Get(q, userKey) == "" || Get(q, passKey) == "" then Ok(Swapped(q, selected))
    else
      match AuthenticateXtreamClient(p, Get(q, userKey), Get(q, passKey))
      case None => Err(InvalidCredentials)
      case Some(user) =>
        if Conflicts(selected, user) then Err(ConflictingCredentials)
        else Ok(Swapped(Set(Set(q, userKey, p.upstreamUsername), passKey, p.upstreamPassword), Some(user)))
  }

  function SwapQuery(p: Provider, q: Query): Result<Swapped<Query>, Refusal> {
    match SwapPair(p, q, None, "username", "password")
    case Err(e) => Err(e)
    case Ok(s) => SwapPair(p, s.value, s.selected, "user", "pass")
  }

  datatype Scanned = Scanned(segments: seq<string>, selected: Option<User>, first: Option<nat>)

  /** The path scan from `index` on: a segment that is a local username must be followed by its
    * password, and the pair becomes the provider's. */
  function ScanPath(p: Provider, segments: seq<string>, index: nat, selected: Option<User>, first: Option<nat>)
    : Result<Scanned, Refusal>
    decreases |segments| - index
  {
    if index + 1 >= |segments| then Ok(Scanned(segments, selected, first))
    else if !HasClientUsername(p, segments[index]) then ScanPath(p, segments, index + 1, selected, first)
    else
      match AuthenticateXtreamClient(p, segments[index], segments[index + 1])
      case None => Err(InvalidCredentials)
      case Some(user) =>
        if Conflicts(selected, user) then Err(ConflictingCredentials)
        else
          ScanPath(p, segments[index := p.upstreamUsername][index + 1 := p.upstreamPassword], index + 2,
                   Some(user), if first.None? then Some(index) else first)
  }

  datatype Translated = Translated(url: Url, endpoint: string, user: User)

  /** The provider URL for a GET request that was resolved to `r`. */
  function Translate(r: Resolved, q: Query): Result<Translated, Refusal> {
    if IsBlocked(r.remainingPath) then Err(Blocked)
    else
      var p, segments := r.provider, SegmentsOf(r.remainingPath);
      match SwapQuery(p, q)
      case Err(e) => Err(e)
      case Ok(query) =>
        match ScanPath(p, segments, 0, query.selected, None)
        case Err(e) => Err(e)
        case Ok(scan) =>
          if scan.selected.None? then Err(InvalidCredentials)
          else
            var endpoint := if scan.first == Some(0) && |segments| >= 3 then "live" else Lower(segments[0]);
            Ok(Translated(p.base.(path := TrimSuffix(p.base.path, '/') + "/" + Join(scan.segments, '/'),
                                  query := query.value), endpoint, scan.selected.value))
  }

  /** The translator as it runs on a GET request. */
  method BuildTransparentUpstreamURL(r: Resolved, q0: Query) returns (t: Result<Translated, Refusal>)
    ensures t == Translate(r, q0)
  {
    var p := r.provider;
    if IsBlocked(r.remainingPath) {
      return Err(Blocked);
    }
    var segments := Split(TrimPrefix(r.remainingPath, '/'), '/');
    var endpoint := Lower(segments[0]);
    var selected: Option<User> := None;
    var q := q0;
    var pairs := [("username", "password"), ("user", "pass")];
    for k := 0 to |pairs|
      invariant k == 0 ==> q == q0 && selected == None
      invariant k == 1 ==> SwapPair(p, q0, None, "username", "password") == Ok(Swapped(q, selected))
      invariant k == 2 ==> SwapQuery(p, q0) == Ok(Swapped(q, selected))
    {
      var username, password := Get(q, pairs[k].0), Get(q, pairs[k].1);
      if username == "" || password == "" {
        continue;
      }
      var user := AuthenticateXtreamClient(p, username, password);
      if user.None? {
        return Err(InvalidCredentials);
      }
      if Conflicts(selected, user.value) {
        return Err(ConflictingCredentials);
      }
      selected := user;
      q := Set(q, pairs[k].0, p.upstreamUsername);
      q := Set(q, pairs[k].1, p.upstreamPassword);
    }
    ghost var whole := ScanPath(p, segments, 0, selected, None);
    var firstPathCredential: Option<nat> := None;
    var index: nat := 0;
    while index + 1 < |segments|
      invariant |segments| == |SegmentsOf(r.remainingPath)|
      invariant ScanPath(p, segments, index, selected, firstPathCredential) == whole
    {
      if HasClientUsername(p, segments[index]) {
        var user := AuthenticateXtreamClient(p, segments[index], segments[index + 1]);
        if user.None? {
          return Err(InvalidCredentials);
        }
        if Conflicts(selected, user.value) {
          return Err(ConflictingCredentials);
        }
        selected := user;
        segments := segments[index := p.upstreamUsername];
        segments := segments[index + 1 := p.upstreamPassword];
        if firstPathCredential.None? {
          firstPathCredential := Some(index);
        }
        index := index + 1;
      }
      index := index + 1;
    }
    if selected.None? {
      return Err(InvalidCredentials);
    }
    if firstPathCredential == Some(0) && |segments| >= 3 {
      endpoint := "live";
    }
    return Ok(Translated(p.base.(path := TrimSuffix(p.base.path, '/') + "/" + Join(segments, '/'), query := q),
                         endpoint, selected.value));
  }
}
