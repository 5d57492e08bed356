/** Which strings of a catalogue are rewritten, said by their place in the value: every published URL
  * strictly inside it, at any depth, and nothing else (internal/proxy/xtream_urls.go, 100-156). */
module JsonStrings {

  import opened Prelude
  import opened Text
  import opened XtreamUrls
  import opened CacheTemplate
  import opened UrlDocuments
  import opened CachedJson

  /** The value reached by going into child `path[0]`, then into its child `path[1]`, and so on. */
  function At(v: Json, path: seq<nat>): Option<Json>
    decreases |path|
  {
    if path == [] then Some(v)
    else if v.Node? && path[0] < |v.children| then At(v.children[path[0]], path[1..])
    else None
  }

  /** Strictly inside `v`, at `path`, stands a URL that is published. */
  predicate PublishedAt(source: Source, c: Credentials, v: Json, path: seq<nat>) {
    path != [] && At(v, path).Some? && At(v, path).value.Str? && PublishedText(source, c, At(v, path).value.s).Some?
  }

  ghost predicate HoldsPublished(source: Source, c: Credentials, v: Json) {
    exists path :: PublishedAt(source, c, v, path)
  }

  lemma Inside(v: Json, i: nat, path: seq<nat>)
    requires v.Node? && i < |v.children|
    ensures At(v, [i] + path) == At(v.children[i], path)
  {
    assert ([i] + path)[1..] == path;
  }

  lemma {:induction false} PublishedChanges(source: Source, c: Credentials, v: Json, path: seq<nat>)
    requires PublishedAt(source, c, v, path)
    ensures Changes(source, c, v)
    decreases |path|
  {
    var child := v.children[path[0]];
    if |path| == 1 {
      assert At(child, path[1..]) == Some(child);
    } else {
      PublishedChanges(source, c, child, path[1..]);
    }
    assert ChildChanges(source, c, child);
  }

  lemma {:induction false} ChangesPublished(source: Source, c: Credentials, v: Json) returns (path: seq<nat>)
    requires Changes(source, c, v)
    ensures PublishedAt(source, c, v, path)
    decreases v
  {
    var i :| 0 <= i < |v.children| && ChildChanges(source, c, v.children[i]);
    if v.children[i].Str? {
      path := [i];
      Inside(v, i, []);
      assert [i] + [] == [i];
    } else {
      var inner := ChangesPublished(source, c, v.children[i]);
      path := [i] + inner;
      Inside(v, i, inner);
    }
  }

  /** A change is reported if and only if a published URL stands somewhere inside the value. */
  lemma ChangesIff(source: Source, c: Credentials, v: Json)
    ensures Changes(source, c, v) <==> HoldsPublished(source, c, v)
  {
    if Changes(source, c, v) {
      var path := ChangesPublished(source, c, v);
    }
    if path :| PublishedAt(source, c, v, path) {
      PublishedChanges(source, c, v, path);
    }
  }

  /** A value that is rewritten is reported as changed. */
  lemma {:induction false} ReportsChanges(source: Source, c: Credentials, v: Json)
    ensures Rewritten(source, c, v) != v ==> Changes(source, c, v)
    decreases v
  {
    if v.Node? && !Changes(source, c, v) {
      forall i | 0 <= i < |v.children| ensures Child(source, c, v.children[i]) == v.children[i] {
        assert !ChildChanges(source, c, v.children[i]);
        ReportsChanges(source, c, v.children[i]);
      }
      assert Rewritten(source, c, v).children == v.children;
    }
  }

  /** What stands at a place inside the rewritten value: a published URL's text instead of that URL,
    * and everything else as it was. */
  predicate RewrittenFrom(source: Source, c: Credentials, was: Option<Json>, is_: Option<Json>) {
    match was
    case None => is_ == None
    case Some(Str(s)) =>
      is_ == Some(Str(match PublishedText(source, c, s) case Some(text) => text case None => s))
    case Some(Atom(_)) => is_ == was
    case Some(Node(keys, children)) =>
      is_.Some? && is_.value.Node? && is_.value.keys == keys && |is_.value.children| == |children|
  }

  lemma ChildFrom(source: Source, c: Credentials, child: Json)
    ensures RewrittenFrom(source, c, Some(child), Some(Child(source, c, child)))
    ensures child.Node? ==> Child(source, c, child) == Rewritten(source, c, child)
    ensures Child(source, c, child).Node? <==> child.Node?
  {
    match child
    case Str(_) =>
    case Atom(_) => assert Rewritten(source, c, child) == child;
    case Node(keys, children) =>
      assert Rewritten(source, c, child).keys == keys && |Rewritten(source, c, child).children| == |children|;
  }

  lemma {:induction false} RewrittenAt(source: Source, c: Credentials, v: Json, path: seq<nat>)
    requires path != []
    ensures RewrittenFrom(source, c, At(v, path), At(Rewritten(source, c, v), path))
    decreases |path|
  {
    if v.Node? && path[0] < |v.children| {
      var child := v.children[path[0]];
      var new_ := Child(source, c, child);
      ChildFrom(source, c, child);
      assert Rewritten(source, c, v).children[path[0]] == new_;
      if |path| == 1 {
        assert At(child, path[1..]) == Some(child) && At(new_, path[1..]) == Some(new_);
      } else if child.Node? {
        RewrittenAt(source, c, child, path[1..]);
      }
    }
  }

  /** Any catalogue that holds a published URL is served, to every client, as text of the rewritten
    * value, and from the cache as text of a value that reads alike. */
  lemma CatalogueServed(source: Source, v: Json, body: string, client: Client)
    requires CachedJson.Sensible(source) && PlainClient(client) && SlashFreeClient(client)
    requires MarkerFree(body) && PlaceholderFree(ValueDoc(source, v))
    requires HoldsPublished(source, CredentialsOf(client), v)
    ensures
      var c := CredentialsOf(client);
      var fast := Personalized(JsonText(source, CanonicalCredentials(), Some(v), body), client);
      && JsonText(source, c, Some(v), body) == Marshal(Rewritten(source, c, v))
      && Spells(JsonText(source, c, Some(v), body), Rewritten(source, c, v))
      && Spells(fast, FastTree(source, client, v))
      && TreesAlike(FastTree(source, client, v), Rewritten(source, c, v))
  {
    ChangesIff(source, CredentialsOf(client), v);
    CachedJson.FastEqualsSlow(source, Some(v), body, client);
  }

  // ---- The text of a value ----

  function Marshalled(values: seq<Json>): seq<string> {
    seq(|values|, i requires 0 <= i < |values| => Marshal(values[i]))
  }

  function Pairs(keys: seq<string>, values: seq<Json>): seq<string>
    requires |keys| == |values|
  {
    seq(|values|, i requires 0 <= i < |values| => "\"" + JsonEscape(keys[i]) + "\":" + Marshal(values[i]))
  }

  /** Arrays stand in brackets, objects in braces with a quoted key and a colon before each member. */
  lemma BracketsAndBraces(keys: seq<string>, values: seq<Json>)
    requires |keys| == |values|
    ensures Marshal(Node(None, values)) == "[" + Join(Marshalled(values), ',') + "]"
    ensures Marshal(Node(Some(keys), values)) == "{" + Join(Pairs(keys, values), ',') + "}"
  {
    var list, record := Node(None, values), Node(Some(keys), values);
    forall i | 0 <= i < |values| ensures MemberTexts(list)[i] == Marshalled(values)[i] {
      assert "" + Marshal(values[i]) == Marshal(values[i]);
    }
    assert MemberTexts(list) == Marshalled(values);
    forall i | 0 <= i < |values| ensures MemberTexts(record)[i] == Pairs(keys, values)[i] {
      assert "\"" + JsonEscape(keys[i]) + "\"" + ":" == "\"" + JsonEscape(keys[i]) + "\":";
    }
    assert MemberTexts(record) == Pairs(keys, values);
  }
}
