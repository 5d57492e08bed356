/** The two URL translators undo each other, and the request translator fails closed. */
module XtreamRoundTrip {

  import opened Prelude
  import opened Text
  import opened XtreamUrls

  // ---- Routing finds the provider again ----

  /** Provider `p` has a route of its own that no provider before it shares. */
  ghost predicate RoutedTo(providers: seq<Provider>, p: Provider) {
    && p.route != "" && '/' !in p.route && TrimSpace(p.route) == p.route
    && exists i :: 0 <= i < |providers| && providers[i] == p
                   && forall j :: 0 <= j < i ==> !EqualFold(providers[j].route, p.route)
  }

  lemma {:induction false} RouteFound(providers: seq<Provider>, p: Provider, i: nat)
    requires i < |providers| && providers[i] == p
    requires forall j :: 0 <= j < i ==> !EqualFold(providers[j].route, p.route)
    ensures FirstByRoute(providers, Lower(p.route)) == Some(p)
  {
    LowerOnce(p.route);
    if i == 0 {
    } else {
      assert !EqualFold(providers[0].route, p.route);
      RouteFound(providers[1..], p, i - 1);
    }
  }

  lemma {:induction false} FirstByRouteIs(providers: seq<Provider>, name: string)
    ensures
      match FirstByRoute(providers, name)
      case None => forall j :: 0 <= j < |providers| ==> !EqualFold(providers[j].route, name)
      case Some(p) =>
        exists i :: 0 <= i < |providers| && p == providers[i] && EqualFold(p.route, name)
                    && forall j :: 0 <= j < i ==> !EqualFold(providers[j].route, name)
  {
    if providers != [] && !EqualFold(providers[0].route, name) {
      FirstByRouteIs(providers[1..], name);
      var found := FirstByRoute(providers[1..], name);
      if found.Some? {
        var i :| 0 <= i < |providers[1..]| && found.value == providers[1..][i] && EqualFold(found.value.route, name)
                 && forall j :: 0 <= j < i ==> !EqualFold(providers[1..][j].route, name);
        assert providers[i + 1] == providers[1..][i];
        forall j | 0 <= j < i + 1 ensures !EqualFold(providers[j].route, name) {
          if j > 0 { assert providers[j] == providers[1..][j - 1]; }
        }
      } else {
        forall j | 0 <= j < |providers| ensures !EqualFold(providers[j].route, name) {
          if j > 0 { assert providers[j] == providers[1..][j - 1]; }
        }
      }
    }
  }

  lemma {:induction false} FirstDefaultIs(providers: seq<Provider>)
    ensures
      match FirstDefault(providers)
      case None => forall j :: 0 <= j < |providers| ==> !providers[j].isDefault
      case Some(p) =>
        exists i :: 0 <= i < |providers| && p == providers[i] && p.isDefault
                    && forall j :: 0 <= j < i ==> !providers[j].isDefault
  {
    if providers != [] && !providers[0].isDefault {
      FirstDefaultIs(providers[1..]);
      var found := FirstDefault(providers[1..]);
      if found.Some? {
        var i :| 0 <= i < |providers[1..]| && found.value == providers[1..][i] && found.value.isDefault
                 && forall j :: 0 <= j < i ==> !providers[1..][j].isDefault;
        assert providers[i + 1] == providers[1..][i];
        forall j | 0 <= j < i + 1 ensures !providers[j].isDefault {
          if j > 0 { assert providers[j] == providers[1..][j - 1]; }
        }
      } else {
        forall j | 0 <= j < |providers| ensures !providers[j].isDefault {
          if j > 0 { assert providers[j] == providers[1..][j - 1]; }
        }
      }
    }
  }

  /** The name a request asks for: its first path segment, in lower case, without blanks around it. */
  function AskedRoute(path: string): string {
    Lower(TrimSpace(SegmentsOf(path)[0]))
  }

  /** Some provider has the route that the request asks for. */
  predicate Routed(providers: seq<Provider>, path: string) {
    exists i :: 0 <= i < |providers| && EqualFold(providers[i].route, AskedRoute(path))
  }

  /** Every request goes to the first provider with its route, with that segment cut off; else,
    * whole, to the first default provider; and is refused only if there is neither. */
  lemma ResolvesFirst(providers: seq<Provider>, path: string)
    ensures
      match Resolve(providers, path)
      case None => !Routed(providers, path) && forall j :: 0 <= j < |providers| ==> !providers[j].isDefault
      case Some(r) =>
        if Routed(providers, path) then
          && r.matchedBy == MatchRoute && Some(r.provider) == FirstByRoute(providers, AskedRoute(path))
          && EqualFold(r.provider.route, AskedRoute(path))
          && r.remainingPath == (if WithoutRoute(path) == "" then "/" else WithoutRoute(path))
          && TrimPrefix(path, '/') == SegmentsOf(path)[0] + WithoutRoute(path)
        else
          && r.matchedBy == MatchDefault && r.provider.isDefault && Some(r.provider) == FirstDefault(providers)
          && r.remainingPath == (if path == "" then "/" else path)
  {
    FirstByRouteIs(providers, AskedRoute(path));
    FirstDefaultIs(providers);
    RouteCut(path);
  }

  /** A path without its first segment. */
  function WithoutRoute(path: string): string {
    if |SegmentsOf(path)| == 1 then "" else "/" + Join(SegmentsOf(path)[1..], '/')
  }

  lemma RouteCut(path: string)
    ensures TrimPrefix(path, '/') == SegmentsOf(path)[0] + WithoutRoute(path)
  {
    var segments := SegmentsOf(path);
    JoinOfSplit(TrimPrefix(path, '/'), '/');
    if |segments| == 1 {
      assert segments[0] + "" == segments[0];
    } else {
      assert segments[0] + "/" + Join(segments[1..], '/') == segments[0] + ("/" + Join(segments[1..], '/'));
    }
  }

  /** The route segment is cut off and the rest of the path is kept as it was. */
  lemma ResolvesTo(providers: seq<Provider>, p: Provider, rest: string)
    requires RoutedTo(providers, p) && rest != ""
    ensures Resolve(providers, "/" + p.route + "/" + rest) == Some(Resolved(p, MatchRoute, "/" + rest))
  {
    var path := "/" + p.route + "/" + rest;
    assert TrimPrefix(path, '/') == p.route + ['/'] + rest;
    SplitAppend(p.route, '/', rest);
    SplitWithoutSeparator(p.route, '/');
    JoinOfSplit(rest, '/');
    assert SegmentsOf(path)[1..] == Split(rest, '/');
    var i :| 0 <= i < |providers| && providers[i] == p
             && forall j :: 0 <= j < i ==> !EqualFold(providers[j].route, p.route);
    RouteFound(providers, p, i);
  }

  // ---- Paths ----

  /** The path lies below the provider's base path. */
  predicate UnderBase(p: Provider, path: string) {
    path != "" && path[0] == '/' && (BasePath(p) == "" || HasPrefix(path, BasePath(p) + "/"))
  }

  lemma StreamPathBelow(p: Provider, path: string)
    requires UnderBase(p, path)
    ensures StreamPath(p, path) == "/" + Join(SegmentsOf(StreamPath(p, path)), '/')
    ensures path == BasePath(p) + StreamPath(p, path)
  {
    var base, s := BasePath(p), StreamPath(p, path);
    if base != "" {
      assert path[..|base| + 1] == base + "/";
      assert path[|base|] == (base + "/")[|base|];
      assert path[..|base|] == (base + "/")[..|base|] == base;
      assert path == path[..|base|] + path[|base|..];
    }
    assert s[0] == '/' && s == ['/'] + s[1..];
    JoinOfSplit(s[1..], '/');
  }

  lemma SegmentsBackAgain(segments: seq<string>)
    requires |segments| > 0 && forall i :: 0 <= i < |segments| ==> '/' !in segments[i]
    ensures SegmentsOf("/" + Join(segments, '/')) == segments
  {
    assert ("/" + Join(segments, '/'))[1..] == Join(segments, '/');
    SplitOfJoin(segments, '/');
  }

  lemma {:induction false} TrimRightKeepsFirst(s: string)
    requires s != "" && s[0] != '/'
    ensures TrimRight(s, '/') != "" && TrimRight(s, '/')[0] == s[0]
    ensures Split(TrimRight(s, '/'), '/')[0] == Split(s, '/')[0]
    decreases |s|
  {
    if s[|s| - 1] == '/' {
      var t := s[..|s| - 1];
      assert t != "" && t[0] == s[0];
      TrimRightKeepsFirst(t);
      assert s == t + ['/'] + "";
      SplitAppend(t, '/', "");
    }
  }

  predicate Denied(first: string) {
    first in BLOCKED_ROUTES || first == "server"
  }

  lemma RecognisedNotDenied(first: string)
    requires first in API_ENDPOINTS || first in STREAM_ROUTES || first == "streaming"
    ensures !Denied(first)
  {
  }

  lemma FirstPart(joined: string)
    requires joined != "" && joined[0] != '/'
    ensures Split(Trim("/" + joined, '/'), '/')[0] == Split(joined, '/')[0]
  {
    assert ("/" + joined)[1..] == joined;
    assert TrimLeft("/" + joined, '/') == TrimLeft(joined, '/') == joined;
    TrimRightKeepsFirst(joined);
  }

  /** The denylist looks at the first segment. */
  lemma NotBlocked(segments: seq<string>)
    requires |segments| > 0 && segments[0] != "" && forall i :: 0 <= i < |segments| ==> '/' !in segments[i]
    requires !Denied(Lower(segments[0]))
    ensures !IsBlocked("/" + Join(segments, '/'))
  {
    var joined := Join(segments, '/');
    JoinEnds(segments, '/');
    assert segments[0][0] in segments[0];
    FirstPart(joined);
    SplitOfJoin(segments, '/');
  }

  /** The denied routes: any of the denylist, or the panel's `server/load.php`. */
  predicate DeniedRoute(segments: seq<string>) {
    && |segments| > 0
    && (|| Lower(segments[0]) in {"admin_api.php", "adminapi.php", "reseller_api.php", "reseller.php", "api.php",
                                   "portal.php", "stalker_portal", "mag", "c"}
        || (|segments| > 1 && Lower(segments[0]) == "server" && EqualFold(segments[1], "load.php")))
  }

  /** The path of these segments, with any number of slashes around it. */
  ghost predicate Padded(path: string, segments: seq<string>) {
    exists before: nat, after: nat :: path == Slashes(before) + Join(segments, '/') + Slashes(after)
  }

  /** Exactly the denied routes are refused, however many slashes stand around the path. */
  lemma BlockedIff(path: string, segments: seq<string>)
    requires Padded(path, segments)
    requires |segments| > 0 && segments[0] != "" && segments[|segments| - 1] != ""
    requires forall i :: 0 <= i < |segments| ==> '/' !in segments[i]
    ensures IsBlocked(path) == DeniedRoute(segments)
  {
    PaddedSegments(path, segments);
    BlockedBy(path, segments);
  }

  lemma BlockedBy(path: string, segments: seq<string>)
    requires |segments| > 0 && segments[0] != "" && Split(Trim(path, '/'), '/') == segments
    ensures IsBlocked(path) == DeniedRoute(segments)
  {
  }

  lemma PaddedSegments(path: string, segments: seq<string>)
    requires Padded(path, segments)
    requires |segments| > 0 && segments[0] != "" && segments[|segments| - 1] != ""
    requires forall i :: 0 <= i < |segments| ==> '/' !in segments[i]
    ensures Split(Trim(path, '/'), '/') == segments
  {
    var before: nat, after: nat :| path == Slashes(before) + Join(segments, '/') + Slashes(after);
    var joined := Join(segments, '/');
    JoinEnds(segments, '/');
    assert segments[0][0] in segments[0];
    var last := segments[|segments| - 1];
    assert last[|last| - 1] in last;
    TrimSlashes(before, joined, after);
    SplitOfJoin(segments, '/');
  }

  function Slashes(n: nat): string {
    seq(n, _ => '/')
  }

  lemma {:induction false} TrimSlashes(before: nat, s: string, after: nat)
    requires s != "" && s[0] != '/' && s[|s| - 1] != '/'
    ensures Trim(Slashes(before) + s + Slashes(after), '/') == s
    decreases before + after
  {
    var padded := Slashes(before) + s + Slashes(after);
    if before > 0 {
      assert padded[0] == '/' && padded[1..] == Slashes(before - 1) + s + Slashes(after);
      TrimSlashes(before - 1, s, after);
    } else if after > 0 {
      assert padded[0] == s[0] && padded[|padded| - 1] == '/';
      var shorter := Slashes(0) + s + Slashes(after - 1);
      assert padded[..|padded| - 1] == shorter && shorter[0] == s[0];
      TrimSlashes(0, s, after - 1);
    } else {
      assert padded == s;
    }
  }

  // ---- Credentials ----

  lemma {:induction false} AuthenticatedIn(users: seq<User>, username: string, password: string)
    ensures
      match AuthenticateIn(users, username, password)
      case None => true
      case Some(user) =>
        && user.username == username && user.password == password == user.clientPassword && user.enabled
        && exists i :: 0 <= i < |users| && user == users[i].(clientPassword := password)
  {
    if users == [] {
    } else if users[0].enabled && users[0].username == username && users[0].password == password {
      assert users[0].(clientPassword := password) == AuthenticateIn(users, username, password).value;
    } else {
      AuthenticatedIn(users[1..], username, password);
      var found := AuthenticateIn(users[1..], username, password);
      if found.Some? {
        var i :| 0 <= i < |users[1..]| && found.value == users[1..][i].(clientPassword := password);
        assert users[i + 1] == users[1..][i];
      }
    }
  }

  /** The user a translation acted for: one of the provider's, enabled, with the right password. */
  ghost predicate Verified(p: Provider, user: User) {
    && user.enabled && user.username != "" && user.clientPassword == user.password
    && exists i :: 0 <= i < |p.users| && user == p.users[i].(clientPassword := user.password)
  }

  lemma ClientIsVerified(p: Provider, username: string, password: string)
    ensures AuthenticateXtreamClient(p, username, password).Some? ==>
              Verified(p, AuthenticateXtreamClient(p, username, password).value)
    ensures Authenticate(p, username, password).Some? ==> HasClientUsername(p, username)
  {
    AuthenticatedIn(p.users, username, password);
    AuthenticatedIn(p.users, SpacesToPlus(username), SpacesToPlus(password));
  }

  // ---- The path scan ----

  lemma {:induction false} ScanClean(
      p: Provider, segments: seq<string>, index: nat, selected: Option<User>, first: Option<nat>)
    requires forall i :: index <= i < |segments| ==> !HasClientUsername(p, segments[i])
    ensures ScanPath(p, segments, index, selected, first) == Ok(Scanned(segments, selected, first))
    decreases |segments| - index
  {
    if index + 1 >= |segments| {
    } else {
      assert !HasClientUsername(p, segments[index]);
      ScanClean(p, segments, index + 1, selected, first);
    }
  }

  /** What holds of a successful scan that started at `index`. */
  ghost predicate ScanIsClosed(p: Provider, segments: seq<string>, index: nat, scan: Scanned) {
    && |scan.segments| == |segments|
    && (scan.selected.Some? ==> Verified(p, scan.selected.value))
    && (forall i :: 0 <= i < index && i < |segments| ==> scan.segments[i] == segments[i])
    && (forall i :: 0 <= i < |segments| ==>
          scan.segments[i] in [segments[i], p.upstreamUsername, p.upstreamPassword])
    && (forall i :: index <= i < |segments| - 1 && HasClientUsername(p, scan.segments[i]) ==>
          scan.segments[i] in [p.upstreamUsername, p.upstreamPassword])
  }

  lemma ClosedOverPair(p: Provider, segments: seq<string>, index: nat, scan: Scanned)
    requires index + 1 < |segments|
    requires ScanIsClosed(p, segments[index := p.upstreamUsername][index + 1 := p.upstreamPassword], index + 2, scan)
    ensures ScanIsClosed(p, segments, index, scan)
  {
    var swapped := segments[index := p.upstreamUsername][index + 1 := p.upstreamPassword];
    assert scan.segments[index] == swapped[index] && scan.segments[index + 1] == swapped[index + 1];
  }

  lemma ClosedOverOne(p: Provider, segments: seq<string>, index: nat, scan: Scanned)
    requires index + 1 < |segments| && !HasClientUsername(p, segments[index])
    requires ScanIsClosed(p, segments, index + 1, scan)
    ensures ScanIsClosed(p, segments, index, scan)
  {
    assert scan.segments[index] == segments[index];
  }

  /** A successful scan forwards no local username that could be followed by a password: every
    * segment but the last is either not a local username or is the provider's own credential,
    * and a segment that changed became one of the provider's credentials. */
  lemma {:induction false} ScanFailsClosed(
      p: Provider, segments: seq<string>, index: nat, selected: Option<User>, first: Option<nat>)
    requires selected.Some? ==> Verified(p, selected.value)
    ensures
      match ScanPath(p, segments, index, selected, first)
      case Err(_) => true
      case Ok(scan) => ScanIsClosed(p, segments, index, scan)
    decreases |segments| - index
  {
    if index + 1 >= |segments| {
    } else if !HasClientUsername(p, segments[index]) {
      ScanFailsClosed(p, segments, index + 1, selected, first);
      var scan := ScanPath(p, segments, index + 1, selected, first);
      if scan.Ok? { ClosedOverOne(p, segments, index, scan.value); }
    } else {
      var user := AuthenticateXtreamClient(p, segments[index], segments[index + 1]);
      if user.Some? && !Conflicts(selected, user.value) {
        ClientIsVerified(p, segments[index], segments[index + 1]);
        var swapped := segments[index := p.upstreamUsername][index + 1 := p.upstreamPassword];
        var from := if first.None? then Some(index) else first;
        ScanFailsClosed(p, swapped, index + 2, user, from);
        var scan := ScanPath(p, swapped, index + 2, user, from);
        if scan.Ok? { ClosedOverPair(p, segments, index, scan.value); }
      }
    }
  }

  lemma SwapVerifies(p: Provider, q: Query, selected: Option<User>, userKey: string, passKey: string)
    requires selected.Some? ==> Verified(p, selected.value)
    ensures
      match SwapPair(p, q, selected, userKey, passKey)
      case Err(_) => true
      case Ok(s) =>
        && (s.selected.Some? ==> Verified(p, s.selected.value))
        && (s.value == q || s.value == Set(Set(q, userKey, p.upstreamUsername), passKey, p.upstreamPassword))
        && (s.value == q && s.selected == selected <== Get(q, userKey) == "" || Get(q, passKey) == "")
  {
    ClientIsVerified(p, Get(q, userKey), Get(q, passKey));
  }

  /** `path` is the base path and `n` segments none of which, but for the last, is a local
    * username unless it is one of the provider's own credentials. They are the segments that a
    * reader of the path sees, unless the provider's credentials themselves contain a slash. */
  ghost predicate NoLocalPair(p: Provider, n: nat, path: string) {
    exists out: seq<string> ::
      && path == TrimSuffix(p.base.path, '/') + "/" + Join(out, '/') && |out| == n
      && ('/' !in p.upstreamUsername && '/' !in p.upstreamPassword ==> SegmentsOf("/" + Join(out, '/')) == out)
      && forall i :: 0 <= i < |out| - 1 && HasClientUsername(p, out[i]) ==>
           out[i] in [p.upstreamUsername, p.upstreamPassword]
  }

  predicate NoPair(q: Query, userKey: string, passKey: string) {
    Get(q, userKey) == "" || Get(q, passKey) == ""
  }

  /** A pair of query parameters that is incomplete or carries the provider's credentials. */
  predicate Settled(p: Provider, q: Query, userKey: string, passKey: string) {
    NoPair(q, userKey, passKey) || (Get(q, userKey) == p.upstreamUsername && Get(q, passKey) == p.upstreamPassword)
  }

  lemma SwapQueryVerifies(p: Provider, q: Query)
    ensures
      match SwapQuery(p, q)
      case Err(_) => true
      case Ok(s) =>
        && (s.selected.Some? ==> Verified(p, s.selected.value))
        && Settled(p, s.value, "username", "password") && Settled(p, s.value, "user", "pass")
  {
    SwapVerifies(p, q, None, "username", "password");
    var one := SwapPair(p, q, None, "username", "password");
    if one.Ok? {
      SwapVerifies(p, one.value.value, one.value.selected, "user", "pass");
    }
  }

  lemma ScannedPath(p: Provider, segments: seq<string>, out: seq<string>)
    requires |out| == |segments| > 0 && forall i :: 0 <= i < |segments| ==> '/' !in segments[i]
    requires forall i :: 0 <= i < |segments| ==> out[i] in [segments[i], p.upstreamUsername, p.upstreamPassword]
    requires forall i :: 0 <= i < |out| - 1 && HasClientUsername(p, out[i]) ==>
               out[i] in [p.upstreamUsername, p.upstreamPassword]
    ensures NoLocalPair(p, |segments|, TrimSuffix(p.base.path, '/') + "/" + Join(out, '/'))
  {
    if '/' !in p.upstreamUsername && '/' !in p.upstreamPassword {
      SegmentsBackAgain(out);
    }
  }

  /** A request is forwarded only for a verified user, only off the denylist, without any local
    * username in the path where a password could follow it, and without any complete pair of
    * credentials in the query but the provider's. */
  lemma TranslateFailsClosed(r: Resolved, q: Query)
    ensures
      match Translate(r, q)
      case Err(_) => true
      case Ok(t) =>
        && Verified(r.provider, t.user) && !IsBlocked(r.remainingPath)
        && NoLocalPair(r.provider, |SegmentsOf(r.remainingPath)|, t.url.path)
        && Settled(r.provider, t.url.query, "username", "password")
        && Settled(r.provider, t.url.query, "user", "pass")
  {
    var p, segments := r.provider, SegmentsOf(r.remainingPath);
    SwapQueryVerifies(p, q);
    if SwapQuery(p, q).Ok? {
      var selected := SwapQuery(p, q).value.selected;
      ScanFailsClosed(p, segments, 0, selected, None);
      var scan := ScanPath(p, segments, 0, selected, None);
      if scan.Ok? {
        ScannedPath(p, segments, scan.value.segments);
      }
    }
  }

  // ---- There and back ----

  /** Nothing but the credentials themselves looks like credentials: the query holds no other
    * complete pair and no other path segment is a local username. */
  ghost predicate Unambiguous(p: Provider, shape: Shape, segments: seq<string>, q: Query) {
    && NoPair(q, "user", "pass")
    && (shape.Stream? || shape.Bare? ==> NoPair(q, "username", "password"))
    && (shape.Bare? ==> !HasClientUsername(p, "live"))
    && forall i :: 0 <= i < |segments| && !(shape.Stream? && 1 <= i <= 2) && !(shape.Bare? && i <= 1) ==>
         !HasClientUsername(p, segments[i])
  }

  /** The provider path a public URL stands for: the original one, with the bare form spelled
    * out as a live route. */
  function ProviderPath(p: Provider, shape: Shape, path: string): string {
    if shape.Bare? then BasePath(p) + "/live" + StreamPath(p, path) else path
  }

  /** Its query: as it was, with the provider's credentials where the shape carries them there. */
  function ProviderQuery(p: Provider, shape: Shape, q: Query): Query {
    if shape.Api? || shape.PhpTimeshift? then Set(Set(q, "username", p.upstreamUsername), "password", p.upstreamPassword)
    else q
  }

  /** The query of a public URL translates back. */
  lemma QueryBack(p: Provider, c: User, shape: Shape, q: Query)
    requires Authenticate(p, c.username, c.clientPassword) == Some(c)
    requires NoPair(q, "user", "pass")
    requires shape.Stream? || shape.Bare? ==> NoPair(q, "username", "password")
    ensures
      SwapQuery(p, PublicQuery(shape, q, ClientCredentials(c)))
      == Ok(Swapped(ProviderQuery(p, shape, q), if shape.Api? || shape.PhpTimeshift? then Some(c) else None))
  {
    var public := PublicQuery(shape, q, ClientCredentials(c));
    if shape.Api? || shape.PhpTimeshift? {
      assert Get(public, "username") == c.username && Get(public, "password") == c.clientPassword;
      assert Set(Set(public, "username", p.upstreamUsername), "password", p.upstreamPassword)
          == ProviderQuery(p, shape, q);
    }
  }

  /** The segments that stand in the public path. */
  function PublicSegments(shape: Shape, segments: seq<string>, c: User): seq<string>
    requires shape.Stream? ==> |segments| >= 4
    requires shape.Bare? ==> |segments| >= 3
  {
    match shape
    case Stream => segments[1 := c.username][2 := c.clientPassword]
    case Bare => ["live", c.username, c.clientPassword] + segments[2..]
    case _ => segments
  }

  /** The scan finds the one pair in the public path and puts the provider's back. */
  lemma PathBack(p: Provider, c: User, shape: Shape, segments: seq<string>, q: Query, selected: Option<User>)
    requires Authenticate(p, c.username, c.clientPassword) == Some(c)
    requires |segments| > 0 && ShapeOf(p, segments, q) == Some(shape)
    requires Unambiguous(p, shape, segments, q)
    requires selected == if shape.Api? || shape.PhpTimeshift? then Some(c) else None
    ensures
      match ScanPath(p, PublicSegments(shape, segments, c), 0, selected, None)
      case Err(_) => false
      case Ok(scan) =>
        && scan.selected == Some(c)
        && scan.segments == if shape.Bare? then ["live"] + segments else segments
  {
    var public := PublicSegments(shape, segments, c);
    if shape.Api? || shape.PhpTimeshift? {
      ScanClean(p, public, 0, selected, None);
    } else {
      ClientIsVerified(p, c.username, c.clientPassword);
      assert public[1] == c.username && public[2] == c.clientPassword;
      assert !HasClientUsername(p, public[0]);
      var swapped := public[1 := p.upstreamUsername][2 := p.upstreamPassword];
      forall i | 3 <= i < |swapped| ensures !HasClientUsername(p, swapped[i]) {
        if shape.Bare? {
          assert swapped[i] == segments[i - 1];
        }
      }
      ScanClean(p, swapped, 3, Some(c), Some(1));
      assert swapped == if shape.Bare? then ["live"] + segments else segments;
      assert ScanPath(p, public, 0, selected, None) == ScanPath(p, public, 1, selected, None);
      assert ScanPath(p, public, 1, selected, None) == ScanPath(p, swapped, 3, Some(c), Some(1));
    }
  }

  lemma PublicPathIs(p: Provider, shape: Shape, path: string, c: User)
    requires UnderBase(p, path)
    requires var segments := SegmentsOf(StreamPath(p, path));
             (shape.Stream? ==> |segments| >= 4) && (shape.Bare? ==> |segments| >= 3)
    ensures var segments := SegmentsOf(StreamPath(p, path));
            PublicPath(shape, StreamPath(p, path), segments, ClientCredentials(c))
            == "/" + Join(PublicSegments(shape, segments, c), '/')
  {
    StreamPathBelow(p, path);
  }

  /** The published URL leads back to the provider, with the public segments as its path. */
  lemma PublishedResolves(providers: seq<Provider>, p: Provider, c: User, publicBase: Url, target: Url, shape: Shape)
    requires RoutedTo(providers, p) && publicBase.path == "/" + p.route
    requires '/' !in c.username && '/' !in c.clientPassword
    requires UnderBase(p, target.path)
    requires ShapeOf(p, SegmentsOf(StreamPath(p, target.path)), target.query) == Some(shape)
    ensures
      var segments := SegmentsOf(StreamPath(p, target.path));
      var path := PublicPath(shape, StreamPath(p, target.path), segments, ClientCredentials(c));
      Resolve(providers, TrimSuffix(publicBase.path, '/') + path)
      == Some(Resolved(p, MatchRoute, "/" + Join(PublicSegments(shape, segments, c), '/')))
  {
    var segments := SegmentsOf(StreamPath(p, target.path));
    var public := PublicSegments(shape, segments, c);
    PublicPathIs(p, shape, target.path, c);
    assert p.route[|p.route| - 1] in p.route;
    assert "/" + p.route + ("/" + Join(public, '/')) == "/" + p.route + "/" + Join(public, '/');
    PublicSegmentsFit(p, shape, segments, target.query, c);
    JoinEnds(public, '/');
    ResolvesTo(providers, p, Join(public, '/'));
  }

  /** What the translator answers, given what its two searches found. */
  lemma TranslatedFrom(p: Provider, remaining: string, q: Query, query: Swapped<Query>, scan: Scanned, user: User)
    requires !IsBlocked(remaining) && SwapQuery(p, q) == Ok(query)
    requires ScanPath(p, SegmentsOf(remaining), 0, query.selected, None) == Ok(scan) && scan.selected == Some(user)
    ensures
      match Translate(Resolved(p, MatchRoute, remaining), q)
      case Err(_) => false
      case Ok(back) =>
        && back.user == user
        && back.url == p.base.(path := BasePath(p) + "/" + Join(scan.segments, '/'), query := query.value)
  {
  }

  /** The provider path, put together from its segments. */
  lemma ProviderPathIs(p: Provider, shape: Shape, path: string)
    requires UnderBase(p, path)
    ensures
      var segments := SegmentsOf(StreamPath(p, path));
      ProviderPath(p, shape, path)
      == BasePath(p) + "/" + Join(if shape.Bare? then ["live"] + segments else segments, '/')
  {
    StreamPathBelow(p, path);
    var base, segments := BasePath(p), SegmentsOf(StreamPath(p, path));
    if shape.Bare? {
      assert (["live"] + segments)[1..] == segments;
      assert base + "/" + ("live" + "/" + Join(segments, '/')) == base + "/live" + ("/" + Join(segments, '/'));
    } else {
      assert base + "/" + Join(segments, '/') == base + ("/" + Join(segments, '/'));
    }
  }

  /** A request for the published path and query translates to the provider's URL. */
  lemma PublishedTranslates(p: Provider, c: User, target: Url, shape: Shape)
    requires Authenticate(p, c.username, c.clientPassword) == Some(c)
    requires '/' !in c.username && '/' !in c.clientPassword
    requires UnderBase(p, target.path)
    requires ShapeOf(p, SegmentsOf(StreamPath(p, target.path)), target.query) == Some(shape)
    requires Unambiguous(p, shape, SegmentsOf(StreamPath(p, target.path)), target.query)
    ensures
      var public := PublicSegments(shape, SegmentsOf(StreamPath(p, target.path)), c);
      match Translate(Resolved(p, MatchRoute, "/" + Join(public, '/')),
                      PublicQuery(shape, target.query, ClientCredentials(c)))
      case Err(_) => false
      case Ok(back) =>
        && back.user == c
        && back.url == p.base.(path := ProviderPath(p, shape, target.path),
                               query := ProviderQuery(p, shape, target.query))
  {
    var segments := SegmentsOf(StreamPath(p, target.path));
    var public := PublicSegments(shape, segments, c);
    PublicSegmentsFit(p, shape, segments, target.query, c);
    NotBlocked(public);
    SegmentsBackAgain(public);
    QueryBack(p, c, shape, target.query);
    var selected := if shape.Api? || shape.PhpTimeshift? then Some(c) else None;
    PathBack(p, c, shape, segments, target.query, selected);
    ProviderPathIs(p, shape, target.path);
    TranslatedFrom(p, "/" + Join(public, '/'), PublicQuery(shape, target.query, ClientCredentials(c)),
                   Swapped(ProviderQuery(p, shape, target.query), selected),
                   ScanPath(p, public, 0, selected, None).value, c);
  }

  /** Publishing a provider URL and translating a request for the published URL gives the
    * provider URL back: same path (the bare form as its live route), same query, the
    * provider's own credentials in both, on the provider's host, for the same user. */
  lemma RoundTrip(providers: seq<Provider>, p: Provider, c: User, publicBase: Url, target: Url, shape: Shape)
    requires RoutedTo(providers, p) && publicBase.path == "/" + p.route
    requires publicBase.scheme != "" && publicBase.host != "" && target.scheme != ""
    requires target.host != "" && EqualFold(target.host, p.base.host)
    requires Authenticate(p, c.username, c.clientPassword) == Some(c)
    requires '/' !in c.username && '/' !in c.clientPassword
    requires UnderBase(p, target.path)
    requires ShapeOf(p, SegmentsOf(StreamPath(p, target.path)), target.query) == Some(shape)
    requires Unambiguous(p, shape, SegmentsOf(StreamPath(p, target.path)), target.query)
    ensures
      match Publish(p, ClientCredentials(c), publicBase, target)
      case None => false
      case Some(public) =>
        match Resolve(providers, public.path)
        case None => false
        case Some(resolved) =>
          match Translate(resolved, public.query)
          case Err(_) => false
          case Ok(back) =>
            && back.user == c
            && back.url == p.base.(path := ProviderPath(p, shape, target.path),
                                   query := ProviderQuery(p, shape, target.query))
  {
    PublishedResolves(providers, p, c, publicBase, target, shape);
    PublishedTranslates(p, c, target, shape);
    assert |p.base.host| == |target.host|;
  }

  lemma PublicSegmentsFit(p: Provider, shape: Shape, segments: seq<string>, q: Query, c: User)
    requires |segments| > 0 && ShapeOf(p, segments, q) == Some(shape)
    requires forall i :: 0 <= i < |segments| ==> '/' !in segments[i]
    requires '/' !in c.username && '/' !in c.clientPassword
    ensures var public := PublicSegments(shape, segments, c);
            |public| > 0 && public[0] != "" && !Denied(Lower(public[0]))
            && forall i :: 0 <= i < |public| ==> '/' !in public[i]
  {
    assert Lower("live") == "live";
    if shape.Bare? {
      assert !Denied("live");
    } else {
      RecognisedNotDenied(Lower(segments[0]));
    }
  }
}
