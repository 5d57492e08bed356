/** Cached bodies as templates (internal/proxy/cache_template.go): four placeholders stand for a
  * client's credentials, and a cache hit only substitutes them. A document is modelled as a
  * sequence of pieces, fixed text and slots; the placeholders are what the slots hold in the
  * cached form. */
module CacheTemplate {

  import opened Prelude
  import opened Escaping
  import opened Text

  const CONTENT_TYPE_PREFIX: string := "x-iptv-cache-template-v1|"
  const PATH_USER_PLACEHOLDER: string := "__IPTV_PATH_USER_V1__"
  const PATH_PASS_PLACEHOLDER: string := "__IPTV_PATH_PASS_V1__"
  const QUERY_USER_PLACEHOLDER: string := "__IPTV_QUERY_USER_V1__"
  const QUERY_PASS_PLACEHOLDER: string := "__IPTV_QUERY_PASS_V1__"

  datatype Kind = PathUser | PathPass | QueryUser | QueryPass

  /** In the order of substitution. */
  const KINDS: seq<Kind> := [PathUser, PathPass, QueryUser, QueryPass]

  function Marker(k: Kind): (m: string)
    ensures m != ""
  {
    match k
    case PathUser => PATH_USER_PLACEHOLDER
    case PathPass => PATH_PASS_PLACEHOLDER
    case QueryUser => QUERY_USER_PLACEHOLDER
    case QueryPass => QUERY_PASS_PLACEHOLDER
  }

  // ---- Content type ----

  function MarkContentType(contentType: string): string {
    CONTENT_TYPE_PREFIX + contentType
  }

  function CanonicalContentType(contentType: string): (string, bool) {
    if HasPrefix(contentType, CONTENT_TYPE_PREFIX) then (contentType[|CONTENT_TYPE_PREFIX|..], true)
    else (contentType, false)
  }

  /** Every marked content type is recognised and unmarked again, and nothing else is. */
  lemma ContentTypeRoundTrip(contentType: string)
    ensures CanonicalContentType(MarkContentType(contentType)) == (contentType, true)
    ensures CanonicalContentType(contentType).1
            ==> MarkContentType(CanonicalContentType(contentType).0) == contentType
    ensures !CanonicalContentType(contentType).1
            ==> forall c: string :: MarkContentType(c) != contentType
  {
    assert MarkContentType(contentType)[|CONTENT_TYPE_PREFIX|..] == contentType;
    forall c: string | MarkContentType(c) == contentType ensures CanonicalContentType(contentType).1 {
      assert contentType[..|CONTENT_TYPE_PREFIX|] == CONTENT_TYPE_PREFIX;
    }
  }

  // ---- Literal substitution ----

  predicate Occurs(s: string, marker: string) {
    HasPrefix(s, marker) || (s != "" && Occurs(s[1..], marker))
  }

  /** Every occurrence replaced, leftmost first and without overlaps. */
  function ReplaceAll(s: string, marker: string, value: string): string
    requires marker != ""
    decreases |s|
  {
    if s == "" then ""
    else if HasPrefix(s, marker) then value + ReplaceAll(s[|marker|..], marker, value)
    else [s[0]] + ReplaceAll(s[1..], marker, value)
  }

  lemma {:induction false} NothingToReplace(s: string, marker: string, value: string)
    requires marker != "" && !Occurs(s, marker)
    ensures ReplaceAll(s, marker, value) == s
  {
    if s == "" {
    } else {
      NothingToReplace(s[1..], marker, value);
    }
  }

  /** A substitution that starts at the very beginning. */
  lemma ReplaceWhole(marker: string, value: string)
    requires marker != ""
    ensures ReplaceAll(marker, marker, value) == value
  {
    assert marker[|marker|..] == "" && value + "" == value;
  }

  /** The characters placeholders are made of, and the two control characters whose JSON escape
    * ends in one of them. */
  predicate MarkerChar(c: char) {
    'A' <= c <= 'Z' || c == '1' || c == '_' || c as int == 1 || c as int == 17
  }

  predicate AllMarkerChars(s: string) {
    forall i :: 0 <= i < |s| ==> MarkerChar(s[i])
  }

  /** No placeholder can straddle the seam between `a` and `b`. */
  predicate Seam(a: string, b: string) {
    a == "" || b == "" || !MarkerChar(a[|a| - 1]) || !MarkerChar(b[0])
  }

  lemma PrefixWithin(a: string, b: string, marker: string)
    requires a != "" && AllMarkerChars(marker) && Seam(a, b) && HasPrefix(a + b, marker)
    ensures HasPrefix(a, marker)
  {
    var s := a + b;
    assert forall i :: 0 <= i < |marker| ==> s[i] == s[..|marker|][i] == marker[i];
    assert forall i :: 0 <= i < |marker| ==> MarkerChar(s[i]);
    assert s[|a| - 1] == a[|a| - 1];
    assert b != "" ==> s[|a|] == b[0];
    assert |marker| <= |a| ==> s[..|marker|] == a[..|marker|];
  }

  lemma PrefixExtends(a: string, b: string, marker: string)
    ensures HasPrefix(a, marker) ==> HasPrefix(a + b, marker)
  {
    if HasPrefix(a, marker) {
      assert (a + b)[..|marker|] == a[..|marker|];
    }
  }

  lemma PrefixStart(s: string, m: string)
    requires m != "" && s != ""
    ensures HasPrefix(s, m) ==> s[0] == m[0]
  {
    assert |m| <= |s| ==> s[..|m|][0] == s[0];
  }

  lemma {:induction false} ReplaceAcrossSeam(a: string, b: string, marker: string, value: string)
    requires marker != "" && AllMarkerChars(marker) && Seam(a, b)
    ensures ReplaceAll(a + b, marker, value) == ReplaceAll(a, marker, value) + ReplaceAll(b, marker, value)
    decreases |a|
  {
    var s := a + b;
    if a == "" {
      assert s == b;
    } else if HasPrefix(s, marker) {
      PrefixWithin(a, b, marker);
      assert s[|marker|..] == a[|marker|..] + b;
      ReplaceAcrossSeam(a[|marker|..], b, marker, value);
    } else {
      PrefixExtends(a, b, marker);
      assert s[1..] == a[1..] + b;
      ReplaceAcrossSeam(a[1..], b, marker, value);
    }
  }

  // ---- Documents ----

  datatype Piece = Fixed(text: string) | Slot(kind: Kind)

  type Values = Kind -> string

  function RenderPiece(p: Piece, vals: Values): string {
    match p
    case Fixed(text) => text
    case Slot(kind) => vals(kind)
  }

  function Render(doc: seq<Piece>, vals: Values): string {
    if doc == [] then "" else RenderPiece(doc[0], vals) + Render(doc[1..], vals)
  }

  /** Between two neighbouring pieces there is text whose facing character cannot belong to a
    * placeholder. */
  predicate Fenced(left: Piece, right: Piece) {
    || (left.Fixed? && left.text != "" && !MarkerChar(left.text[|left.text| - 1]))
    || (right.Fixed? && right.text != "" && !MarkerChar(right.text[0]))
  }

  ghost predicate Delimited(doc: seq<Piece>) {
    forall i :: 0 <= i < |doc| - 1 ==> Fenced(doc[i], doc[i + 1])
  }

  predicate MarkerFree(s: string) {
    forall k: Kind :: !Occurs(s, Marker(k))
  }

  /** The provider's own text holds no placeholder. */
  ghost predicate PlaceholderFree(doc: seq<Piece>) {
    forall i :: 0 <= i < |doc| && doc[i].Fixed? ==> MarkerFree(doc[i].text)
  }

  /** Replacing one placeholder in a rendered document fills the slots of that kind. */
  lemma {:induction false} ReplaceInDocument(doc: seq<Piece>, vals: Values, k: Kind, value: string)
    requires Delimited(doc) && PlaceholderFree(doc)
    requires vals(k) == Marker(k) && forall j :: j != k ==> !Occurs(vals(j), Marker(k))
    ensures ReplaceAll(Render(doc, vals), Marker(k), value) == Render(doc, j => if j == k then value else vals(j))
  {
    if doc == [] {
    } else {
      var head, tail := RenderPiece(doc[0], vals), Render(doc[1..], vals);
      if |doc| > 1 {
        assert Fenced(doc[0], doc[1]);
        assert doc[1..][0] == doc[1];
      }
      assert Seam(head, tail);
      MarkersAreMarkers(k);
      ReplaceAcrossSeam(head, tail, Marker(k), value);
      assert Delimited(doc[1..]) by {
        forall i | 0 <= i < |doc[1..]| - 1 ensures Fenced(doc[1..][i], doc[1..][i + 1]) {
          assert Fenced(doc[i + 1], doc[i + 2]);
        }
      }
      ReplaceInDocument(doc[1..], vals, k, value);
      if doc[0] == Slot(k) {
        ReplaceWhole(Marker(k), value);
      } else {
        NothingToReplace(head, Marker(k), value);
      }
    }
  }

  predicate Plain(s: string) {
    forall i :: 0 <= i < |s| ==> Unreserved(s[i])
  }

  lemma MarkersAreMarkers(k: Kind)
    ensures AllMarkerChars(Marker(k)) && Plain(Marker(k))
  {
  }

  lemma {:induction false} TooShort(s: string, marker: string)
    requires |s| < |marker|
    ensures !Occurs(s, marker)
  {
    if s != "" {
      TooShort(s[1..], marker);
    }
  }

  lemma PrefixAt(s: string, m: string, i: nat)
    requires i < |s| && i < |m| && s[i] != m[i]
    ensures !HasPrefix(s, m)
  {
    assert |m| <= |s| ==> s[..|m|][i] == s[i];
  }

  /** Where two placeholders differ. */
  function Difference(j: Kind, k: Kind): nat {
    if (j.PathUser? || j.PathPass?) != (k.PathUser? || k.PathPass?) then 7
    else if j.PathUser? || j.PathPass? then 12
    else 13
  }

  lemma MarkersDiffer(j: Kind, k: Kind)
    requires j != k
    ensures Difference(j, k) < |Marker(j)| && Difference(j, k) < |Marker(k)|
    ensures Marker(j)[Difference(j, k)] != Marker(k)[Difference(j, k)]
    ensures |Marker(j)| >= 3 && Marker(j)[2] == 'I' && Marker(k)[1] == '_' && |Marker(j)| < |Marker(k)| + 2
  {
  }

  /** No placeholder contains another: they differ where they could overlap. */
  lemma MarkersApart(j: Kind, k: Kind)
    requires j != k
    ensures !Occurs(Marker(j), Marker(k))
  {
    MarkersDiffer(j, k);
    ApartFrom(Marker(j), Marker(k), Difference(j, k));
  }

  lemma ApartFrom(m: string, n: string, at: nat)
    requires at < |m| && at < |n| && m[at] != n[at]
    requires 3 <= |m| < |n| + 2 && 2 <= |n| && m[2] != n[1]
    ensures !Occurs(m, n)
  {
    PrefixAt(m, n, at);
    PrefixAt(m[1..], n, 1);
    TooShort(m[1..][1..], n);
  }

  // ---- Personalization ----

  datatype Client = Client(username: string, clientPassword: string)

  function RawValue(client: Client, k: Kind): string {
    if k.PathUser? || k.QueryUser? then client.username else client.clientPassword
  }

  /** What is put in for a placeholder. */
  function FastValue(client: Client, k: Kind): string {
    Escape(RawValue(client, k), if k.PathUser? || k.PathPass? then Segment else Query)
  }

  /** The first `n` substitutions. */
  function Substituted(body: string, client: Client, n: nat): string
    requires n <= |KINDS|
  {
    if n == 0 then body
    else ReplaceAll(Substituted(body, client, n - 1), Marker(KINDS[n - 1]), FastValue(client, KINDS[n - 1]))
  }

  function Personalized(body: string, client: Client): string {
    if body == "" || client.username == "" || client.clientPassword == "" then body
    else Substituted(body, client, |KINDS|)
  }

  /** The loop of a cache hit, which skips placeholders that do not occur. */
  method PersonalizeCanonicalCache(body: string, client: Client) returns (out: string)
    ensures out == Personalized(body, client)
  {
    if |body| == 0 || client.username == "" || client.clientPassword == "" {
      return body;
    }
    out := body;
    for i := 0 to |KINDS|
      invariant out == Substituted(body, client, i)
    {
      var marker, value := Marker(KINDS[i]), FastValue(client, KINDS[i]);
      if !Occurs(out, marker) {
        NothingToReplace(out, marker, value);
        continue;
      }
      out := ReplaceAll(out, marker, value);
    }
  }

  // ---- Escaped credentials hold no placeholder ----

  /** Escaping neither makes nor hides a text of unreserved characters. */
  lemma {:induction false} PrefixSurvivesEscaping(s: string, m: string, mode: Mode)
    requires Plain(m) && HasPrefix(Escape(s, mode), m)
    ensures HasPrefix(s, m)
    decreases |m|
  {
    if m == "" {
    } else {
      var e := Escape(s, mode);
      assert e[0] == e[..|m|][0] == m[0];
      assert Unreserved(m[0]);
      assert EscapeChar(s[0], mode) == [s[0]];
      assert e == [s[0]] + Escape(s[1..], mode);
      assert e[1..] == Escape(s[1..], mode);
      assert e[1..][..|m| - 1] == e[..|m|][1..] == m[1..];
      PrefixSurvivesEscaping(s[1..], m[1..], mode);
      assert s[..|m|] == [s[0]] + s[1..][..|m| - 1];
      assert m == [m[0]] + m[1..];
    }
  }

  lemma {:induction false} EscapingAddsNoMarker(s: string, m: string, mode: Mode)
    requires Plain(m) && |m| > 0 && m[0] == '_'
    requires Occurs(Escape(s, mode), m)
    ensures Occurs(s, m)
    decreases |s|
  {
    var e := Escape(s, mode);
    if HasPrefix(e, m) {
      PrefixSurvivesEscaping(s, m, mode);
    } else {
      var code, rest := EscapeChar(s[0], mode), Escape(s[1..], mode);
      assert e == code + rest;
      if |code| == 1 {
        assert e[1..] == rest;
      } else {
        var two, three := e[1..], e[1..][1..];
        assert three[1..] == rest;
        assert two[0] == code[1] && three[0] == code[2];
        PrefixStart(two, m);
        PrefixStart(three, m);
        assert Occurs(two, m);
        assert Occurs(three, m);
        assert Occurs(rest, m);
      }
      EscapingAddsNoMarker(s[1..], m, mode);
    }
  }

  /** A client whose name and password contain no placeholder. */
  predicate PlainClient(client: Client) {
    client.username != "" && client.clientPassword != ""
    && MarkerFree(client.username) && MarkerFree(client.clientPassword)
  }

  lemma ValuesPlain(client: Client, j: Kind, k: Kind)
    requires PlainClient(client)
    ensures !Occurs(FastValue(client, j), Marker(k))
  {
    MarkersAreMarkers(k);
    if Occurs(FastValue(client, j), Marker(k)) {
      EscapingAddsNoMarker(RawValue(client, j), Marker(k), if j.PathUser? || j.PathPass? then Segment else Query);
    }
  }

  /** Slot values once the first `n` placeholders have been replaced. */
  function PartlyFilled(client: Client, n: nat): Values
    requires n <= |KINDS|
  {
    k => if k in KINDS[..n] then FastValue(client, k) else Marker(k)
  }

  lemma KindsOnce(n: nat)
    requires n < |KINDS|
    ensures KINDS[n] !in KINDS[..n]
    ensures KINDS[..n + 1] == KINDS[..n] + [KINDS[n]]
  {
    assert KINDS[0] == PathUser && KINDS[1] == PathPass && KINDS[2] == QueryUser && KINDS[3] == QueryPass;
  }

  lemma ValuesApart(client: Client, n: nat)
    requires n < |KINDS| && PlainClient(client)
    ensures PartlyFilled(client, n)(KINDS[n]) == Marker(KINDS[n])
    ensures forall j :: j != KINDS[n] ==> !Occurs(PartlyFilled(client, n)(j), Marker(KINDS[n]))
    ensures forall j :: PartlyFilled(client, n + 1)(j)
                        == if j == KINDS[n] then FastValue(client, j) else PartlyFilled(client, n)(j)
  {
    KindsOnce(n);
    forall j | j != KINDS[n] ensures !Occurs(PartlyFilled(client, n)(j), Marker(KINDS[n])) {
      if j in KINDS[..n] {
        ValuesPlain(client, j, KINDS[n]);
      } else {
        MarkersApart(j, KINDS[n]);
      }
    }
  }

  lemma {:induction false} SubstitutedSoFar(doc: seq<Piece>, client: Client, n: nat)
    requires Delimited(doc) && PlaceholderFree(doc) && PlainClient(client) && n <= |KINDS|
    ensures Substituted(Render(doc, Marker), client, n) == Render(doc, PartlyFilled(client, n))
  {
    if n == 0 {
      SameValues(doc, Marker, PartlyFilled(client, 0));
    } else {
      SubstitutedSoFar(doc, client, n - 1);
      ValuesApart(client, n - 1);
      var k, vals := KINDS[n - 1], PartlyFilled(client, n - 1);
      ReplaceInDocument(doc, vals, k, FastValue(client, k));
      SameValues(doc, j => if j == k then FastValue(client, k) else vals(j), PartlyFilled(client, n));
    }
  }

  lemma {:induction false} SameValues(doc: seq<Piece>, u: Values, v: Values)
    requires forall k :: u(k) == v(k)
    ensures Render(doc, u) == Render(doc, v)
  {
    if doc == [] {
    } else {
      SameValues(doc[1..], u, v);
    }
  }

  lemma AllKinds()
    ensures forall k: Kind :: k in KINDS[..|KINDS|]
  {
    assert KINDS[0] == PathUser && KINDS[1] == PathPass && KINDS[2] == QueryUser && KINDS[3] == QueryPass;
    assert KINDS[..|KINDS|] == KINDS;
    forall k: Kind ensures k in KINDS {
      match k
      case PathUser => assert KINDS[0] == k;
      case PathPass => assert KINDS[1] == k;
      case QueryUser => assert KINDS[2] == k;
      case QueryPass => assert KINDS[3] == k;
    }
  }

  /** The fast form: substituting into the cached rendering is rendering with the escaped
    * credentials. */
  lemma PersonalizedIsFilled(doc: seq<Piece>, client: Client)
    requires Delimited(doc) && PlaceholderFree(doc) && PlainClient(client)
    ensures Personalized(Render(doc, Marker), client) == Render(doc, k => FastValue(client, k))
  {
    SubstitutedSoFar(doc, client, |KINDS|);
    AllFilled(client);
    SameValues(doc, PartlyFilled(client, |KINDS|), k => FastValue(client, k));
    EmptyStays(client, |KINDS|);
  }

  lemma AllFilled(client: Client)
    ensures forall k: Kind :: PartlyFilled(client, |KINDS|)(k) == FastValue(client, k)
  {
    AllKinds();
  }

  lemma {:induction false} EmptyStays(client: Client, n: nat)
    requires n <= |KINDS|
    ensures Substituted("", client, n) == ""
  {
    if n > 0 {
      EmptyStays(client, n - 1);
    }
  }
}
