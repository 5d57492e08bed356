/** Who is let in and as whom (internal/proxy/xtream_request.go, 52-67 and 205-300): when credentials
  * authenticate, when two of them conflict, and which endpoint a request counts as. */
module XtreamLogins {

  import opened Prelude
  import opened Text
  import opened XtreamUrls
  import opened XtreamRoundTrip

  // ---- Authentication ----

  /** Some enabled user has exactly these credentials. */
  predicate Knows(p: Provider, username: string, password: string) {
    && username != "" && password != ""
    && exists i :: 0 <= i < |p.users| && p.users[i].enabled
                   && p.users[i].username == username && p.users[i].password == password
  }

  /** `user` is the first enabled one with these credentials. */
  ghost predicate FirstKnown(p: Provider, username: string, password: string, user: User) {
    exists i :: 0 <= i < |p.users| && user == p.users[i].(clientPassword := password)
                && p.users[i].enabled && p.users[i].username == username && p.users[i].password == password
                && forall j :: 0 <= j < i ==>
                     !(p.users[j].enabled && p.users[j].username == username && p.users[j].password == password)
  }

  lemma {:induction false} FoundFirst(users: seq<User>, username: string, password: string)
    ensures
      match AuthenticateIn(users, username, password)
      case None =>
        forall j :: 0 <= j < |users| ==>
          !(users[j].enabled && users[j].username == username && users[j].password == password)
      case Some(user) =>
        exists i :: 0 <= i < |users| && user == users[i].(clientPassword := password)
                    && users[i].enabled && users[i].username == username && users[i].password == password
                    && forall j :: 0 <= j < i ==>
                         !(users[j].enabled && users[j].username == username && users[j].password == password)
  {
    if users != [] && !(users[0].enabled && users[0].username == username && users[0].password == password) {
      FoundFirst(users[1..], username, password);
      var found := AuthenticateIn(users[1..], username, password);
      if found.Some? {
        var i :| 0 <= i < |users[1..]| && found.value == users[1..][i].(clientPassword := password)
                 && users[1..][i].enabled && users[1..][i].username == username && users[1..][i].password == password
                 && forall j :: 0 <= j < i ==>
                      !(users[1..][j].enabled && users[1..][j].username == username && users[1..][j].password == password);
        assert users[i + 1] == users[1..][i];
        forall j | 0 <= j < i + 1
          ensures !(users[j].enabled && users[j].username == username && users[j].password == password)
        {
          if j > 0 { assert users[j] == users[1..][j - 1]; }
        }
      } else {
        forall j | 0 <= j < |users|
          ensures !(users[j].enabled && users[j].username == username && users[j].password == password)
        {
          if j > 0 { assert users[j] == users[1..][j - 1]; }
        }
      }
    }
  }

  /** Credentials authenticate exactly if an enabled user has them, and as the first such user. */
  lemma AuthenticatesIff(p: Provider, username: string, password: string)
    ensures Authenticate(p, username, password).Some? <==> Knows(p, username, password)
    ensures Knows(p, username, password) ==>
      FirstKnown(p, username, password, Authenticate(p, username, password).value)
  {
    FoundFirst(p.users, username, password);
  }

  /** The text with a plus for every blank. */
  predicate PlusFor(s: string, plus: string) {
    |plus| == |s| && forall i :: 0 <= i < |s| ==> plus[i] == if s[i] == ' ' then '+' else s[i]
  }

  /** A client is let in exactly if an enabled user has the credentials as given or, else, with a plus
    * for every blank. */
  lemma ClientIff(p: Provider, username: string, password: string, u: string, w: string)
    requires PlusFor(username, u) && PlusFor(password, w)
    ensures AuthenticateXtreamClient(p, username, password).Some? <==> Knows(p, username, password) || Knows(p, u, w)
    ensures Knows(p, username, password) ==>
      FirstKnown(p, username, password, AuthenticateXtreamClient(p, username, password).value)
    ensures !Knows(p, username, password) && Knows(p, u, w) ==>
      FirstKnown(p, u, w, AuthenticateXtreamClient(p, username, password).value)
  {
    assert SpacesToPlus(username) == u && SpacesToPlus(password) == w;
    AuthenticatesIff(p, username, password);
    AuthenticatesIff(p, u, w);
  }

  // ---- Two credentials in one request ----

  /** A user is the same as another if their identifiers are; without identifiers, if their names are. */
  predicate Same(a: User, b: User) {
    (a.id != "" && b.id != "" && a.id == b.id) || ((a.id == "" || b.id == "") && a.username != "" && a.username == b.username)
  }

  lemma ConflictIff(a: User, b: User)
    ensures Conflicts(Some(a), b) <==> !Same(a, b)
    ensures !Conflicts(None, b)
  {
  }

  /** Two complete pairs in a query are accepted exactly if they are of one user, and then both become
    * the provider's. */
  lemma TwoPairs(p: Provider, q: Query, a: User, b: User)
    requires AuthenticateXtreamClient(p, Get(q, "username"), Get(q, "password")) == Some(a)
    requires AuthenticateXtreamClient(p, Get(q, "user"), Get(q, "pass")) == Some(b)
    requires Get(q, "username") != "" && Get(q, "password") != "" && Get(q, "user") != "" && Get(q, "pass") != ""
    ensures SwapQuery(p, q)
         == if Same(a, b) then
              Ok(Swapped(q["username" := [p.upstreamUsername]]["password" := [p.upstreamPassword]]
                          ["user" := [p.upstreamUsername]]["pass" := [p.upstreamPassword]], Some(b)))
            else Err(ConflictingCredentials)
  {
    ConflictIff(a, b);
    var one := Set(Set(q, "username", p.upstreamUsername), "password", p.upstreamPassword);
    assert Get(one, "user") == Get(q, "user") && Get(one, "pass") == Get(q, "pass");
  }

  /** The first local username in the path: nothing before it is one. */
  predicate FirstName(p: Provider, segments: seq<string>, i: nat) {
    i + 1 < |segments| && HasClientUsername(p, segments[i]) && forall j :: 0 <= j < i ==> !HasClientUsername(p, segments[j])
  }

  lemma {:induction false} ScanTo(
      p: Provider, segments: seq<string>, index: nat, i: nat, selected: Option<User>, first: Option<nat>)
    requires FirstName(p, segments, i) && index <= i
    ensures ScanPath(p, segments, index, selected, first) == ScanPath(p, segments, i, selected, first)
    decreases i - index
  {
    if index < i { ScanTo(p, segments, index + 1, i, selected, first); }
  }

  /** A user in the path that is not the one of the query is refused, and so is one without the right
    * password; the same user is not. */
  lemma PathAfterQuery(p: Provider, segments: seq<string>, i: nat, selected: Option<User>)
    requires FirstName(p, segments, i)
    ensures
      match AuthenticateXtreamClient(p, segments[i], segments[i + 1])
      case None => ScanPath(p, segments, 0, selected, None) == Err(InvalidCredentials)
      case Some(b) =>
        if selected.Some? && !Same(selected.value, b)
        then ScanPath(p, segments, 0, selected, None) == Err(ConflictingCredentials)
        else ScanPath(p, segments, 0, selected, None)
             == ScanPath(p, segments[i := p.upstreamUsername][i + 1 := p.upstreamPassword], i + 2, Some(b), Some(i))
  {
    ScanTo(p, segments, 0, i, selected, None);
    var b := AuthenticateXtreamClient(p, segments[i], segments[i + 1]);
    if selected.Some? && b.Some? { ConflictIff(selected.value, b.value); }
  }

  /** A path that names a local user, enabled or not, where a password can follow is refused unless an
    * enabled user has that name and that password (or, with a plus for every blank, both). */
  lemma LocalNameFailsClosed(
      p: Provider, segments: seq<string>, i: nat, k: nat, selected: Option<User>, u: string, w: string)
    requires i + 1 < |segments| && k < |p.users| && p.users[k].username == segments[i]
    requires forall j, m :: 0 <= j < i && 0 <= m < |p.users| ==> p.users[m].username != segments[j]
    requires PlusFor(segments[i], u) && PlusFor(segments[i + 1], w)
    requires !Knows(p, segments[i], segments[i + 1]) && !Knows(p, u, w)
    ensures ScanPath(p, segments, 0, selected, None) == Err(InvalidCredentials)
  {
    ClientIff(p, segments[i], segments[i + 1], u, w);
    PathAfterQuery(p, segments, i, selected);
  }

  // ---- The endpoint ----

  lemma {:induction false} FirstKept(
      p: Provider, segments: seq<string>, index: nat, selected: Option<User>, first: nat)
    ensures ScanPath(p, segments, index, selected, Some(first)).Ok? ==>
      ScanPath(p, segments, index, selected, Some(first)).value.first == Some(first)
    decreases |segments| - index
  {
    if index + 1 >= |segments| {
    } else if !HasClientUsername(p, segments[index]) {
      FirstKept(p, segments, index + 1, selected, first);
    } else {
      var user := AuthenticateXtreamClient(p, segments[index], segments[index + 1]);
      if user.Some? && !Conflicts(selected, user.value) {
        FirstKept(p, segments[index := p.upstreamUsername][index + 1 := p.upstreamPassword], index + 2, user, first);
      }
    }
  }

  lemma {:induction false} FirstLater(
      p: Provider, segments: seq<string>, index: nat, selected: Option<User>)
    requires index > 0
    ensures ScanPath(p, segments, index, selected, None).Ok? ==>
      ScanPath(p, segments, index, selected, None).value.first != Some(0)
    decreases |segments| - index
  {
    if index + 1 >= |segments| {
    } else if !HasClientUsername(p, segments[index]) {
      FirstLater(p, segments, index + 1, selected);
    } else {
      var user := AuthenticateXtreamClient(p, segments[index], segments[index + 1]);
      if user.Some? && !Conflicts(selected, user.value) {
        FirstKept(p, segments[index := p.upstreamUsername][index + 1 := p.upstreamPassword], index + 2, user, index);
      }
    }
  }

  /** A request counts as a live stream if its path starts with a local user's name and has three
    * segments or more; otherwise its endpoint is its first segment in lower case. */
  lemma EndpointIs(r: Resolved, q: Query)
    requires Translate(r, q).Ok?
    ensures var segments := SegmentsOf(r.remainingPath);
            Translate(r, q).value.endpoint
            == if |segments| >= 3 && HasClientUsername(r.provider, segments[0]) then "live" else Lower(segments[0])
  {
    var p, segments := r.provider, SegmentsOf(r.remainingPath);
    var selected := SwapQuery(p, q).value.selected;
    if |segments| >= 2 && HasClientUsername(p, segments[0]) {
      var user := AuthenticateXtreamClient(p, segments[0], segments[1]);
      FirstKept(p, segments[0 := p.upstreamUsername][1 := p.upstreamPassword], 2, user, 0);
    } else if |segments| >= 2 {
      FirstLater(p, segments, 1, selected);
    }
  }
}
