/** Catch-up candidates (internal/proxy/catchup.go): what a catch-up URL asks for, the other URLs
  * that ask for the same, and the list of URLs to try. */
module CatchupCandidates {

  import opened Prelude
  import opened Text
  import opened XtreamUrls
  import opened CatchupTime

  /** The nine standard spellings, the two that keep the start as it is, and any other name a
    * stored preference may hold. */
  datatype Format =
    | PathColonDash | PathUnderscore | PathCompactHour | PathColonSeconds
    | QueryUnderscore | QuerySql | QueryColonDash | QueryCompactHour | QueryColonSeconds
    | PathOriginal | QueryOriginal | OtherName(name: string)

  const STANDARD: seq<Format> :=
    [PathColonDash, PathUnderscore, PathCompactHour, PathColonSeconds,
     QueryUnderscore, QuerySql, QueryColonDash, QueryCompactHour, QueryColonSeconds]

  predicate KeepsStart(f: Format) {
    f == PathOriginal || f == QueryOriginal
  }

  predicate IsPath(f: Format) {
    f == PathColonDash || f == PathUnderscore || f == PathCompactHour || f == PathColonSeconds || f == PathOriginal
  }

  /** The layout a format prints the start in. */
  function LayoutIndex(f: Format): (i: Option<nat>)
    ensures i.Some? ==> Printed(i.value)
  {
    match f
    case PathColonDash => Some(0)
    case QueryColonDash => Some(0)
    case PathUnderscore => Some(1)
    case QueryUnderscore => Some(1)
    case PathCompactHour => Some(2)
    case QueryCompactHour => Some(2)
    case PathColonSeconds => Some(3)
    case QueryColonSeconds => Some(3)
    case QuerySql => Some(5)
    case _ => None
  }

  // ---- Describing a URL ----

  datatype Form = PathForm | QueryForm

  datatype Descriptor = Descriptor(
    original: Url, base: seq<string>, username: string, password: string, duration: string, start: string,
    streamId: string, extension: string, extra: Query, form: Form)

  /** The greatest index below `n` of a segment spelled timeshift. */
  function LastTimeshift(segments: seq<string>, n: nat): (i: Option<nat>)
    requires n <= |segments|
    ensures i.Some? ==> i.value < n && EqualFold(segments[i.value], "timeshift")
    ensures i.Some? ==> forall j :: i.value < j < n ==> !EqualFold(segments[j], "timeshift")
    ensures i.None? ==> forall j :: 0 <= j < n ==> !EqualFold(segments[j], "timeshift")
  {
    if n == 0 then None
    else if EqualFold(segments[n - 1], "timeshift") then Some(n - 1)
    else LastTimeshift(segments, n - 1)
  }

  /** How many places there are for the first of six segments. */
  function RoutePlaces(segments: seq<string>): nat {
    if |segments| < 6 then 0 else |segments| - 5
  }

  function PathSegments(u: Url): (segments: seq<string>)
    ensures |segments| > 0
    ensures forall i :: 0 <= i < |segments| ==> '/' !in segments[i]
  {
    Split(Trim(u.path, '/'), '/')
  }

  /** The backward search for the route, from the last place that leaves room for six segments. */
  method TimeshiftPathParts(u: Url) returns (segments: seq<string>, index: Option<nat>)
    ensures segments == PathSegments(u)
    ensures index == LastTimeshift(segments, RoutePlaces(segments))
  {
    segments := Split(Trim(u.path, '/'), '/');
    var i := |segments| - 6;
    while i >= 0
      invariant -1 <= i <= |segments| - 6 || i == |segments| - 6
      invariant LastTimeshift(segments, RoutePlaces(segments)) == LastTimeshift(segments, if i < 0 then 0 else i + 1)
    {
      if EqualFold(segments[i], "timeshift") {
        return segments, Some(i);
      }
      i := i - 1;
    }
    return segments, None;
  }

  /** A file name's extension, with its dot. */
  function Ext(name: string): (e: string)
    ensures |e| <= |name| && name[|name| - |e|..] == e
  {
    if name == "" || name[|name| - 1] == '/' then ""
    else if name[|name| - 1] == '.' then "."
    else
      var e := Ext(name[..|name| - 1]);
      if e == "" then "" else e + [name[|name| - 1]]
  }

  function Stem(name: string): string {
    name[..|name| - |Ext(name)|]
  }

  function ExtensionOr(name: string): string {
    if Ext(name) == "" then ".ts" else Ext(name)
  }

  const OWN_NAMES: set<string> := {"username", "password", "duration", "start", "stream"}

  function DescribePath(u: Url, segments: seq<string>, i: nat): Option<Descriptor>
    requires i + 5 < |segments|
  {
    var file := segments[i + 5];
    if segments[i + 1] == "" || segments[i + 2] == "" || segments[i + 3] == "" || segments[i + 4] == ""
       || Stem(file) == "" then None
    else Some(Descriptor(u, segments[..i], segments[i + 1], segments[i + 2], segments[i + 3], segments[i + 4],
                         Stem(file), ExtensionOr(file), u.query, PathForm))
  }

  predicate IsStreamingTimeshift(segments: seq<string>) {
    |segments| >= 2 && EqualFold(segments[|segments| - 2], "streaming")
    && EqualFold(segments[|segments| - 1], "timeshift.php")
  }

  function DescribeQuery(u: Url, segments: seq<string>): Option<Descriptor>
    requires |segments| >= 2
  {
    var q := u.query;
    var stream := Get(q, "stream");
    if Get(q, "username") == "" || Get(q, "password") == "" || Get(q, "duration") == "" || Get(q, "start") == ""
       || stream == "" then None
    else Some(Descriptor(u, segments[..|segments| - 2], Get(q, "username"), Get(q, "password"), Get(q, "duration"),
                         Get(q, "start"), Stem(stream), ExtensionOr(stream), q - OWN_NAMES, QueryForm))
  }

  /** What a URL asks for: the path form is tried first and decides if its route is there. */
  function Describe(u: Url): Option<Descriptor> {
    var segments := PathSegments(u);
    match LastTimeshift(segments, RoutePlaces(segments))
    case Some(i) => DescribePath(u, segments, i)
    case None => if IsStreamingTimeshift(segments) then DescribeQuery(u, segments) else None
  }

  // ---- Building URLs ----

  /** The start as format `f` prints it. */
  function StartFor(d: Descriptor, f: Format): Option<string> {
    if KeepsStart(f) then Some(d.start)
    else if ParseStart(d.start).None? || LayoutIndex(f).None? then None
    else Some(Print(LAYOUTS[LayoutIndex(f).value], ParseStart(d.start).value))
  }

  function RouteSegments(d: Descriptor, start: string): seq<string> {
    d.base + ["timeshift", d.username, d.password, d.duration, start, d.streamId + d.extension]
  }

  function OwnQuery(d: Descriptor, start: string): Query {
    Set(Set(Set(Set(Set(d.extra, "username", d.username), "password", d.password), "stream", d.streamId),
            "start", start), "duration", d.duration)
  }

  function BuildWith(d: Descriptor, f: Format, start: string): Url {
    if IsPath(f) then d.original.(path := "/" + Join(RouteSegments(d, start), '/'), query := d.extra)
    else d.original.(path := "/" + Join(d.base + ["streaming", "timeshift.php"], '/'), query := OwnQuery(d, start))
  }

  function Build(d: Descriptor, f: Format): Option<Url> {
    match StartFor(d, f)
    case None => None
    case Some(start) => Some(BuildWith(d, f, start))
  }

  /** The first of `formats` that prints the start just as it is. */
  function Spelled(d: Descriptor, t: Time, formats: seq<Format>): Option<Format>
    requires forall f :: f in formats ==> LayoutIndex(f).Some?
  {
    if formats == [] then None
    else if d.start == Print(LAYOUTS[LayoutIndex(formats[0]).value], t) then Some(formats[0])
    else Spelled(d, t, formats[1..])
  }

  /** The formats of a form that print the start. */
  function PrintedFormats(form: Form): (formats: seq<Format>)
    ensures forall f :: f in formats ==> LayoutIndex(f).Some? && !KeepsStart(f) && (IsPath(f) <==> form.PathForm?)
  {
    if form.PathForm? then [PathColonDash, PathUnderscore, PathCompactHour, PathColonSeconds]
    else [QueryUnderscore, QuerySql, QueryColonDash, QueryCompactHour, QueryColonSeconds]
  }

  function OriginalFormat(d: Descriptor): Format {
    var original := if d.form.PathForm? then PathOriginal else QueryOriginal;
    match ParseStart(d.start)
    case None => original
    case Some(t) => (match Spelled(d, t, PrintedFormats(d.form)) case None => original case Some(f) => f)
  }

  // ---- Describe undoes Build ----

  predicate SlashFree(parts: seq<string>) {
    forall i :: 0 <= i < |parts| ==> '/' !in parts[i]
  }

  /** Segments that can stand at the front of a path. */
  predicate GoodBase(base: seq<string>) {
    SlashFree(base) && (base != [] ==> base[0] != "")
  }

  predicate NoValueEmpty(d: Descriptor) {
    d.username != "" && d.password != "" && d.duration != "" && d.streamId != ""
  }

  /** An extension: a dot, then neither a dot nor a slash. */
  predicate GoodExtension(e: string) {
    e != "" && e[0] == '.' && '.' !in e[1..] && '/' !in e[1..]
  }

  lemma ExtGrows(name: string, c: char)
    requires c != '/' && c != '.'
    ensures Ext(name + [c]) == if Ext(name) == "" then "" else Ext(name) + [c]
  {
    assert (name + [c])[..|name|] == name;
  }

  lemma PlainInit(x: string)
    requires x != "" && '.' !in x && '/' !in x
    ensures x[|x| - 1] != '.' && x[|x| - 1] != '/'
    ensures '.' !in x[..|x| - 1] && '/' !in x[..|x| - 1]
    ensures x == x[..|x| - 1] + [x[|x| - 1]]
  {
  }

  lemma ExtOfDotted(dotted: string)
    requires dotted != "" && dotted[|dotted| - 1] == '.'
    ensures Ext(dotted) == "."
  {
  }

  lemma Snoc(a: string, y: string, c: char)
    ensures a + (y + [c]) == (a + y) + [c]
  {
  }

  lemma {:induction false} ExtAfterDot(dotted: string, x: string)
    requires dotted != "" && dotted[|dotted| - 1] == '.' && '.' !in x && '/' !in x
    ensures Ext(dotted + x) == "." + x
    decreases |x|
  {
    if x == "" {
      ExtOfDotted(dotted);
      assert dotted + x == dotted && "." + x == ".";
    } else {
      PlainInit(x);
      ExtAfterDot(dotted, x[..|x| - 1]);
      ExtGrows(dotted + x[..|x| - 1], x[|x| - 1]);
      Snoc(dotted, x[..|x| - 1], x[|x| - 1]);
      Snoc(".", x[..|x| - 1], x[|x| - 1]);
    }
  }

  lemma DottedIs(stem: string, x: string)
    ensures stem + "." + x == stem + ("." + x)
  {
  }

  lemma PrefixOf(stem: string, e: string)
    ensures (stem + e)[..|stem + e| - |e|] == stem
  {
  }

  lemma StemOf(stem: string, e: string)
    requires GoodExtension(e)
    ensures Ext(stem + e) == e && Stem(stem + e) == stem
  {
    var x := e[1..];
    assert e == "." + x;
    DottedIs(stem, x);
    ExtAfterDot(stem + ".", x);
    PrefixOf(stem, e);
  }

  /** Two descriptors that ask for the same programme of the same user. */
  predicate SameRequest(d: Descriptor, e: Descriptor) {
    && d.base == e.base && d.username == e.username && d.password == e.password
    && d.duration == e.duration && d.streamId == e.streamId
  }

  lemma RouteFits(d: Descriptor, start: string)
    requires d.streamId != "" && '/' !in start && GoodBase(d.base) && '/' !in d.extension
    requires SlashFree([d.username, d.password, d.duration, d.streamId])
    ensures var segments := RouteSegments(d, start);
            SlashFree(segments) && segments[0] != "" && segments[|segments| - 1] != ""
  {
    var v := [d.username, d.password, d.duration, d.streamId];
    assert '/' !in v[0] && '/' !in v[1] && '/' !in v[2] && '/' !in v[3];
    assert '/' !in "timeshift";
  }

  lemma RoutePath(d: Descriptor, f: Format, start: string)
    requires IsPath(f) && d.streamId != "" && '/' !in start && GoodBase(d.base) && '/' !in d.extension
    requires SlashFree([d.username, d.password, d.duration, d.streamId])
    ensures PathSegments(BuildWith(d, f, start)) == RouteSegments(d, start)
  {
    RouteFits(d, start);
    SegmentsBack(RouteSegments(d, start));
  }

  lemma RouteRead(u: Url, base: seq<string>, v: seq<string>)
    requires |v| == 6 && PathSegments(u) == base + v && v[0] == "timeshift"
    requires v[1] != "" && v[2] != "" && v[3] != "" && v[4] != "" && Stem(v[5]) != ""
    ensures Describe(u) == Some(Descriptor(u, base, v[1], v[2], v[3], v[4], Stem(v[5]), ExtensionOr(v[5]), u.query, PathForm))
  {
    var segments, n := base + v, |base|;
    assert segments[n] == v[0] && segments[n + 1] == v[1] && segments[n + 2] == v[2] && segments[n + 3] == v[3]
        && segments[n + 4] == v[4] && segments[n + 5] == v[5];
    assert segments[..n] == base;
  }

  /** A path-form URL describes what it was built from, its extension and query included. */
  lemma PathFormBack(d: Descriptor, f: Format, start: string)
    requires IsPath(f) && NoValueEmpty(d) && start != "" && '/' !in start
    requires GoodBase(d.base) && SlashFree([d.username, d.password, d.duration, d.streamId])
    requires GoodExtension(d.extension)
    ensures
      var u := BuildWith(d, f, start);
      Describe(u) == Some(Descriptor(u, d.base, d.username, d.password, d.duration, start, d.streamId,
                                     d.extension, d.extra, PathForm))
  {
    RoutePath(d, f, start);
    StemOf(d.streamId, d.extension);
    RouteRead(BuildWith(d, f, start), d.base,
              ["timeshift", d.username, d.password, d.duration, start, d.streamId + d.extension]);
  }

  /** No base segment can be taken for the timeshift route. */
  predicate PlainBase(base: seq<string>) {
    forall i :: 0 <= i && i + 4 <= |base| ==> !EqualFold(base[i], "timeshift")
  }

  /** The search finds a route in front of the query form's two segments only in the base. */
  lemma BaseSearched(base: seq<string>)
    ensures
      var segments := base + ["streaming", "timeshift.php"];
      var found := LastTimeshift(segments, RoutePlaces(segments));
      && (found.None? <==> PlainBase(base))
      && (found.Some? ==> found.value + 4 <= |base|)
  {
    var segments := base + ["streaming", "timeshift.php"];
    assert forall i :: 0 <= i < |base| ==> segments[i] == base[i];
  }

  lemma QuerySegments(d: Descriptor, f: Format, start: string)
    requires !IsPath(f) && GoodBase(d.base)
    ensures PathSegments(BuildWith(d, f, start)) == d.base + ["streaming", "timeshift.php"]
  {
    var segments := d.base + ["streaming", "timeshift.php"];
    assert '/' !in "streaming" && '/' !in "timeshift.php";
    assert segments[0] != "" && segments[|segments| - 1] == "timeshift.php";
    SegmentsBack(segments);
  }

  lemma OwnQueryBack(d: Descriptor, start: string)
    ensures
      var q := OwnQuery(d, start);
      && Get(q, "username") == d.username && Get(q, "password") == d.password && Get(q, "stream") == d.streamId
      && Get(q, "start") == start && Get(q, "duration") == d.duration && q - OWN_NAMES == d.extra - OWN_NAMES
  {
    assert "username"[0] != "password"[0] && "duration"[0] != "username"[0] && "duration"[0] != "password"[0];
    assert "start"[1] == 't' && "stream"[1] == 't' && |"start"| != |"stream"|;
  }

  /** A query-form URL describes what it was built from exactly when its base path holds no
    * timeshift segment at least four from its end and its stream id has no extension. */
  lemma QueryFormBack(d: Descriptor, f: Format, start: string)
    requires !IsPath(f) && NoValueEmpty(d) && start != "" && GoodBase(d.base)
    ensures
      var described := Describe(BuildWith(d, f, start));
      (PlainBase(d.base) && Ext(d.streamId) == "")
      <==> described.Some? && SameRequest(d, described.value) && described.value.start == start
    ensures PlainBase(d.base) && Ext(d.streamId) == "" ==>
      var u := BuildWith(d, f, start);
      Describe(u) == Some(Descriptor(u, d.base, d.username, d.password, d.duration, start, d.streamId,
                                     ".ts", d.extra - OWN_NAMES, QueryForm))
  {
    var u := BuildWith(d, f, start);
    var segments := d.base + ["streaming", "timeshift.php"];
    QuerySegments(d, f, start);
    OwnQueryBack(d, start);
    BaseSearched(d.base);
    assert segments[|segments| - 2] == "streaming" && segments[|segments| - 1] == "timeshift.php";
    assert segments[..|segments| - 2] == d.base;
    assert |Stem(d.streamId)| == |d.streamId| - |Ext(d.streamId)|;
    if PlainBase(d.base) {
      assert Describe(u) == DescribeQuery(u, segments);
      if Ext(d.streamId) == "" {
        assert Stem(d.streamId) == d.streamId;
      }
    } else if Describe(u).Some? {
      assert |Describe(u).value.base| + 4 <= |d.base|;
    }
  }

  lemma {:induction false} PrintHasNoSlash(layout: Layout, t: Time)
    requires forall e :: e in layout ==> e != Lit('/')
    ensures '/' !in Print(layout, t)
  {
    if layout != [] {
      assert layout[0] in layout && forall e :: e in layout[1..] ==> e in layout;
      assert forall n: nat :: Digit(n) != '/';
      PrintHasNoSlash(layout[1..], t);
    }
  }

  lemma PrintedStart(i: nat, t: Time)
    requires Printed(i)
    ensures Print(LAYOUTS[i], t) != "" && '/' !in Print(LAYOUTS[i], t)
  {
    PrintedDefinite(i);
    PrintEnds(LAYOUTS[i], t);
    PrintHasNoSlash(LAYOUTS[i], t);
  }

  /** Round trip: describing any candidate built in a format that prints the start gives back
    * base path, user, password, duration and stream id, and a start that is read as the
    * original one truncated to what the format shows. */
  lemma DescribeBuilt(d: Descriptor, f: Format)
    requires NoValueEmpty(d) && GoodBase(d.base) && Build(d, f).Some? && !KeepsStart(f)
    requires if IsPath(f) then SlashFree([d.username, d.password, d.duration, d.streamId]) && GoodExtension(d.extension)
             else PlainBase(d.base) && Ext(d.streamId) == ""
    ensures
      var described := Describe(Build(d, f).value);
      && described.Some? && SameRequest(d, described.value)
      && described.value.form == (if IsPath(f) then PathForm else QueryForm)
      && ParseStart(described.value.start) == Some(Truncated(ParseStart(d.start).value, LayoutIndex(f).value))
  {
    var t, i := ParseStart(d.start).value, LayoutIndex(f).value;
    ParsedIsValid(0, TrimSpace(d.start));
    StartRoundTrip(i, t);
    PrintedStart(i, t);
    if IsPath(f) {
      PathFormBack(d, f, Print(LAYOUTS[i], t));
    } else {
      QueryFormBack(d, f, Print(LAYOUTS[i], t));
    }
  }

  // ---- What describing guarantees ----

  lemma {:induction false} TrimmedOpens(s: string)
    ensures TrimRight(TrimLeft(s, '/'), '/') != "" ==> TrimRight(TrimLeft(s, '/'), '/')[0] != '/'
  {
    if s != "" && s[0] == '/' {
      TrimmedOpens(s[1..]);
    } else {
      TrimRightOpens(s);
    }
  }

  lemma {:induction false} TrimRightOpens(s: string)
    ensures TrimRight(s, '/') != "" ==> TrimRight(s, '/')[0] == s[0]
    decreases |s|
  {
    if s != "" && s[|s| - 1] == '/' {
      TrimRightOpens(s[..|s| - 1]);
    }
  }

  lemma FirstSegment(s: string)
    requires s != "" && s[0] != '/'
    ensures Split(s, '/')[0] != ""
  {
  }

  lemma {:induction false} ExtIsGood(name: string)
    requires '/' !in name
    ensures Ext(name) != "" ==> GoodExtension(Ext(name))
    decreases |name|
  {
    if name != "" && name[|name| - 1] != '.' {
      var shorter := name[..|name| - 1];
      assert forall c :: c in shorter ==> c in name;
      assert name[|name| - 1] in name;
      ExtIsGood(shorter);
      if Ext(shorter) != "" {
        assert Ext(name)[1..] == Ext(shorter)[1..] + [name[|name| - 1]];
      }
    }
  }

  /** Every URL that is described has a good base and no empty value, and one in path form can
    * be rebuilt in every path format. */
  lemma DescribedFits(u: Url)
    requires Describe(u).Some?
    ensures
      var d := Describe(u).value;
      && d.username != "" && d.password != "" && d.duration != "" && d.start != ""
      && GoodBase(d.base)
      && (d.form.PathForm? ==>
            NoValueEmpty(d) && SlashFree([d.username, d.password, d.duration, d.streamId]) && '/' !in d.start
            && GoodExtension(d.extension))
  {
    var d, segments := Describe(u).value, PathSegments(u);
    TrimmedOpens(u.path);
    if segments[0] == "" && Trim(u.path, '/') != "" {
      FirstSegment(Trim(u.path, '/'));
    }
    BaseIsGood(segments, |d.base|, Trim(u.path, '/'));
    if d.form.PathForm? {
      var file := segments[LastTimeshift(segments, RoutePlaces(segments)).value + 5];
      ExtIsGood(file);
      assert forall c :: c in Stem(file) ==> c in file;
    }
  }

  lemma BaseIsGood(segments: seq<string>, n: nat, s: string)
    requires segments == Split(s, '/') && n < |segments| && (s != "" ==> segments[0] != "")
    ensures GoodBase(segments[..n])
  {
    if s == "" {
      assert segments == [""];
    }
  }

  /** The path-form URL a client asked for is rebuilt as it was, so it is not tried twice. */
  lemma RebuildsItself(u: Url)
    requires Describe(u).Some? && Describe(u).value.form.PathForm?
    requires u.path == "/" + Join(PathSegments(u), '/')
    requires |Describe(u).value.base| + 6 == |PathSegments(u)|
    requires Ext(PathSegments(u)[|PathSegments(u)| - 1]) != ""
    requires PathSegments(u)[|Describe(u).value.base|] == "timeshift"
    ensures Build(Describe(u).value, OriginalFormat(Describe(u).value)) == Some(u)
  {
    var d, segments := Describe(u).value, PathSegments(u);
    DescribedPath(u);
    Rebuilt(u, d, segments);
  }

  /** What a path-form descriptor says about the URL's segments. */
  predicate PathDescribed(u: Url, d: Descriptor, segments: seq<string>) {
    var n := |d.base|;
    && n + 5 < |segments| && segments[..n] == d.base && d.original == u && d.extra == u.query && d.form.PathForm?
    && segments[n + 1] == d.username && segments[n + 2] == d.password && segments[n + 3] == d.duration
    && segments[n + 4] == d.start && Stem(segments[n + 5]) == d.streamId && ExtensionOr(segments[n + 5]) == d.extension
  }

  lemma DescribedPath(u: Url)
    requires Describe(u).Some? && Describe(u).value.form.PathForm?
    ensures PathDescribed(u, Describe(u).value, PathSegments(u))
  {
  }

  lemma Rebuilt(u: Url, d: Descriptor, segments: seq<string>)
    requires PathDescribed(u, d, segments) && u.path == "/" + Join(segments, '/')
    requires |d.base| + 6 == |segments| && segments[|d.base|] == "timeshift" && Ext(segments[|segments| - 1]) != ""
    ensures Build(d, OriginalFormat(d)) == Some(u)
  {
    StemThenExt(segments[|d.base| + 5]);
    RouteIs(d, segments, segments[|d.base| + 5]);
    OriginalKeepsStart(d);
    BuildFrom(d, OriginalFormat(d), d.start);
    assert u.(path := "/" + Join(segments, '/'), query := u.query) == u;
  }

  lemma BuildFrom(d: Descriptor, f: Format, start: string)
    requires StartFor(d, f) == Some(start)
    ensures Build(d, f) == Some(BuildWith(d, f, start))
  {
  }

  lemma StemThenExt(name: string)
    requires Ext(name) != ""
    ensures Stem(name) + ExtensionOr(name) == name
  {
  }

  lemma RouteIs(d: Descriptor, segments: seq<string>, file: string)
    requires |segments| == |d.base| + 6 && segments[..|d.base|] == d.base
    requires segments[|d.base|] == "timeshift" && segments[|d.base| + 1] == d.username
    requires segments[|d.base| + 2] == d.password && segments[|d.base| + 3] == d.duration
    requires segments[|d.base| + 4] == d.start && segments[|d.base| + 5] == file == d.streamId + d.extension
    ensures RouteSegments(d, d.start) == segments
  {
    SixAfter(d.base, segments, ["timeshift", d.username, d.password, d.duration, d.start, file]);
  }

  lemma SixAfter(base: seq<string>, s: seq<string>, v: seq<string>)
    requires |v| == 6 && |s| == |base| + 6 && s[..|base|] == base
    requires var n := |base|; s[n] == v[0] && s[n + 1] == v[1] && s[n + 2] == v[2] && s[n + 3] == v[3]
                              && s[n + 4] == v[4] && s[n + 5] == v[5]
    ensures base + v == s
  {
    assert s[|base|..] == v;
    assert s == s[..|base|] + s[|base|..];
  }

  /** The format taken for the client's own URL prints its start as it is, in its own form. */
  lemma OriginalKeepsStart(d: Descriptor)
    ensures StartFor(d, OriginalFormat(d)) == Some(d.start)
    ensures IsPath(OriginalFormat(d)) <==> d.form.PathForm?
  {
    if ParseStart(d.start).Some? {
      var formats := PrintedFormats(d.form);
      SpelledIs(d, ParseStart(d.start).value, formats);
      var found := Spelled(d, ParseStart(d.start).value, formats);
      assert OriginalFormat(d) == if found.Some? then found.value else if d.form.PathForm? then PathOriginal else QueryOriginal;
    }
  }

  lemma {:induction false} SpelledIs(d: Descriptor, t: Time, formats: seq<Format>)
    requires forall f :: f in formats ==> LayoutIndex(f).Some?
    ensures
      match Spelled(d, t, formats)
      case None => true
      case Some(f) => f in formats && d.start == Print(LAYOUTS[LayoutIndex(f).value], t)
  {
    if formats != [] {
      SpelledIs(d, t, formats[1..]);
    }
  }

  // ---- The candidate list ----

  datatype Candidate = Candidate(url: Url, format: Format)

  type Builder = Format -> Option<Url>

  function BuilderOf(d: Descriptor): Builder {
    f => Build(d, f)
  }

  function One(u: Option<Url>, f: Format): seq<Candidate> {
    match u
    case Some(v) => [Candidate(v, f)]
    case None => []
  }

  function Buildable(build: Builder, formats: seq<Format>): seq<Candidate> {
    if formats == [] then [] else One(build(formats[0]), formats[0]) + Buildable(build, formats[1..])
  }

  /** Everything that is offered, in order: the preferred format, the client's own URL `u`,
    * which is spelled in format `own`, and the standard formats. */
  function Offered(u: Url, own: Format, build: Builder, preferred: Option<Format>): seq<Candidate> {
    (if preferred.Some? then One(build(preferred.value), preferred.value) else [])
    + ([Candidate(u, own)] + Buildable(build, STANDARD))
  }

  /** The candidates whose text has not been seen, in order. */
  function Fresh(cs: seq<Candidate>, text: Url -> string, seen: set<string>): seq<Candidate> {
    if cs == [] then []
    else if text(cs[0].url) in seen then Fresh(cs[1..], text, seen)
    else [cs[0]] + Fresh(cs[1..], text, seen + {text(cs[0].url)})
  }

  /** Appending one candidate, unless its text was seen. */
  method AppendCandidate(
      list: seq<Candidate>, seen: set<string>, u: Option<Url>, f: Format, text: Url -> string, ghost rest: seq<Candidate>)
    returns (list': seq<Candidate>, seen': set<string>)
    ensures list' + Fresh(rest, text, seen') == list + Fresh(One(u, f) + rest, text, seen)
  {
    list', seen' := list, seen;
    if u.None? {
      assert One(u, f) + rest == rest;
      return;
    }
    FreshStep(Candidate(u.value, f), rest, text, seen);
    if text(u.value) in seen {
      return;
    }
    list', seen' := list + [Candidate(u.value, f)], seen + {text(u.value)};
  }

  method AssembleCandidates(u: Url, own: Format, build: Builder, preferred: Option<Format>, text: Url -> string)
    returns (list: seq<Candidate>)
    ensures list == Fresh(Offered(u, own, build, preferred), text, {})
  {
    var seen: set<string> := {};
    list := [];
    ghost var tail := [Candidate(u, own)] + Buildable(build, STANDARD);
    ghost var all := Fresh(Offered(u, own, build, preferred), text, {});
    if preferred.Some? {
      list, seen := AppendCandidate(list, seen, build(preferred.value), preferred.value, text, tail);
    } else {
      assert Offered(u, own, build, preferred) == tail;
    }
    list, seen := AppendCandidate(list, seen, Some(u), own, text, Buildable(build, STANDARD));
    assert STANDARD[0..] == STANDARD;
    for i := 0 to |STANDARD|
      invariant list + Fresh(Buildable(build, STANDARD[i..]), text, seen) == all
    {
      assert STANDARD[i..][1..] == STANDARD[i + 1..];
      list, seen := AppendCandidate(list, seen, build(STANDARD[i]), STANDARD[i], text, Buildable(build, STANDARD[i + 1..]));
    }
  }

  /** The candidate list of a catch-up URL; none for any other URL. */
  method BuildCatchupCandidates(u: Url, preferred: Option<Format>, text: Url -> string)
    returns (candidates: Option<seq<Candidate>>)
    ensures candidates == match Describe(u)
                          case None => None
                          case Some(d) => Some(Fresh(Offered(u, OriginalFormat(d), BuilderOf(d), preferred), text, {}))
  {
    var described := Describe(u);
    if described.None? {
      return None;
    }
    var d := described.value;
    var list := AssembleCandidates(u, OriginalFormat(d), BuilderOf(d), preferred, text);
    return Some(list);
  }

  lemma FreshStep(c: Candidate, rest: seq<Candidate>, text: Url -> string, seen: set<string>)
    ensures Fresh([c] + rest, text, seen)
         == if text(c.url) in seen then Fresh(rest, text, seen) else [c] + Fresh(rest, text, seen + {text(c.url)})
  {
    assert ([c] + rest)[1..] == rest;
  }

  /** No text appears twice, nothing is invented. */
  lemma {:induction false} FreshIsDistinct(cs: seq<Candidate>, text: Url -> string, seen: set<string>)
    ensures var r := Fresh(cs, text, seen);
            && |r| <= |cs|
            && (forall c :: c in r ==> c in cs && text(c.url) !in seen)
            && (forall i, j :: 0 <= i < j < |r| ==> text(r[i].url) != text(r[j].url))
  {
    if cs != [] {
      var more := if text(cs[0].url) in seen then seen else seen + {text(cs[0].url)};
      FreshIsDistinct(cs[1..], text, more);
      var rest := Fresh(cs[1..], text, more);
      forall i | 0 <= i < |rest| ensures text(rest[i].url) !in more {
        assert rest[i] in rest;
      }
    }
  }

  /** Some candidate of the list has the text `key`. */
  predicate HasText(list: seq<Candidate>, text: Url -> string, key: string) {
    exists i :: 0 <= i < |list| && text(list[i].url) == key
  }

  /** Every text offered is there, unless it was seen before. */
  lemma {:induction false} FreshCovers(cs: seq<Candidate>, text: Url -> string, seen: set<string>, c: Candidate)
    requires c in cs && text(c.url) !in seen
    ensures HasText(Fresh(cs, text, seen), text, text(c.url))
  {
    var r := Fresh(cs, text, seen);
    if text(cs[0].url) == text(c.url) {
      assert r[0] == cs[0];
    } else {
      assert c in cs[1..];
      var more := if text(cs[0].url) in seen then seen else seen + {text(cs[0].url)};
      FreshCovers(cs[1..], text, more, c);
      var rest := Fresh(cs[1..], text, more);
      var i :| 0 <= i < |rest| && text(rest[i].url) == text(c.url);
      assert rest[i] == r[if text(cs[0].url) in seen then i else i + 1];
    }
  }

  /** What is built from the formats, and nothing else. */
  lemma {:induction false} BuiltOnly(build: Builder, formats: seq<Format>)
    ensures |Buildable(build, formats)| <= |formats|
    ensures forall c :: c in Buildable(build, formats) ==> build(c.format) == Some(c.url)
  {
    if formats != [] {
      BuiltOnly(build, formats[1..]);
    }
  }

  lemma {:induction false} BuiltAll(build: Builder, formats: seq<Format>, f: Format)
    requires f in formats && build(f).Some?
    ensures Candidate(build(f).value, f) in Buildable(build, formats)
  {
    if f != formats[0] {
      BuiltAll(build, formats[1..], f);
    }
  }

  /** A preferred format that can be built, else the client's own URL. */
  function FirstOffered(u: Url, own: Format, build: Builder, preferred: Option<Format>): Candidate {
    if preferred.Some? && build(preferred.value).Some? then Candidate(build(preferred.value).value, preferred.value)
    else Candidate(u, own)
  }

  /** The candidates are pairwise distinct as text and at most eleven; the client's own URL and
    * every standard format that can be built are among them; a preferred format that can be
    * built comes first, else the client's own URL does; and each candidate is one or the
    * other: the client's URL, or what its format builds. */
  lemma CandidateList(u: Url, own: Format, build: Builder, preferred: Option<Format>, text: Url -> string)
    ensures var list := Fresh(Offered(u, own, build, preferred), text, {});
            && 1 <= |list| <= 11
            && (forall i, j :: 0 <= i < j < |list| ==> text(list[i].url) != text(list[j].url))
            && HasText(list, text, text(u))
            && (forall f :: f in STANDARD && build(f).Some? ==> HasText(list, text, text(build(f).value)))
            && list[0] == FirstOffered(u, own, build, preferred)
            && (forall c :: c in list ==> c == Candidate(u, own) || build(c.format) == Some(c.url))
  {
    ListSound(u, own, build, preferred, text);
    ListComplete(u, own, build, preferred, text);
    FreshIsDistinct(Offered(u, own, build, preferred), text, {});
  }

  lemma OfferedSound(u: Url, own: Format, build: Builder, preferred: Option<Format>)
    ensures var offered := Offered(u, own, build, preferred);
            && 1 <= |offered| <= 11
            && offered[0] == FirstOffered(u, own, build, preferred)
            && forall c :: c in offered ==> c == Candidate(u, own) || build(c.format) == Some(c.url)
  {
    BuiltOnly(build, STANDARD);
  }

  lemma ListSound(u: Url, own: Format, build: Builder, preferred: Option<Format>, text: Url -> string)
    ensures var list := Fresh(Offered(u, own, build, preferred), text, {});
            && 1 <= |list| <= 11 && list[0] == FirstOffered(u, own, build, preferred)
            && (forall c :: c in list ==> c == Candidate(u, own) || build(c.format) == Some(c.url))
  {
    var offered := Offered(u, own, build, preferred);
    OfferedSound(u, own, build, preferred);
    FreshIsDistinct(offered, text, {});
    FreshStep(offered[0], offered[1..], text, {});
    assert offered == [offered[0]] + offered[1..];
  }

  lemma ListComplete(u: Url, own: Format, build: Builder, preferred: Option<Format>, text: Url -> string)
    ensures var list := Fresh(Offered(u, own, build, preferred), text, {});
            && HasText(list, text, text(u))
            && (forall f :: f in STANDARD && build(f).Some? ==> HasText(list, text, text(build(f).value)))
  {
    var offered := Offered(u, own, build, preferred);
    var first := if preferred.Some? then One(build(preferred.value), preferred.value) else [];
    assert Candidate(u, own) in offered by {
      assert offered[|first|] == Candidate(u, own);
    }
    FreshCovers(offered, text, {}, Candidate(u, own));
    forall f | f in STANDARD && build(f).Some?
      ensures HasText(Fresh(offered, text, {}), text, text(build(f).value))
    {
      BuiltAll(build, STANDARD, f);
      FreshCovers(offered, text, {}, Candidate(build(f).value, f));
    }
  }
}
