/** The cache's JSON catalogues (internal/proxy/xtream_urls.go, 100-156): the same theorem as for
  * playlists, over JSON values of any shape. */
module CachedJson {

  import opened Prelude
  import opened Text
  import opened Escaping
  import opened XtreamUrls
  import opened CacheTemplate
  import opened UrlDocuments

  /** A JSON value: a string, an atom (number, true, false, null) by its text, or an array or
    * object. An object is a node with one key for each child, in the order of printing. */
  datatype Json = Str(s: string) | Atom(text: string) | Node(keys: Option<seq<string>>, children: seq<Json>)

  /** A provider, where it is published, and what the URL library is taken to do. */
  datatype Source = Source(provider: Provider, publicBase: Url, parse: string -> Option<Url>, order: NameOrder)

  ghost predicate Sensible(source: Source) {
    forall raw :: source.parse(raw).Some? ==>
      source.parse(raw).value.path != "" ==> source.parse(raw).value.path[0] == '/'
  }

  // ---- Rewriting values ----

  function PublishedText(source: Source, c: Credentials, raw: string): Option<string> {
    match source.parse(raw)
    case None => None
    case Some(target) =>
      match Publish(source.provider, c, source.publicBase, target)
      case None => None
      case Some(u) => Some(PrintUrl(u, source.order))
  }

  /** What becomes of a member of an array or object. A string that is a whole document is not
    * looked at. */
  function Child(source: Source, c: Credentials, v: Json): Json
    decreases v, 1
  {
    match v
    case Str(s) => (match PublishedText(source, c, s) case Some(text) => Str(text) case None => v)
    case _ => Rewritten(source, c, v)
  }

  function Rewritten(source: Source, c: Credentials, v: Json): Json
    decreases v, 0
  {
    match v
    case Node(keys, children) =>
      Node(keys, seq(|children|, i requires 0 <= i < |children| => Child(source, c, children[i])))
    case _ => v
  }

  predicate ChildChanges(source: Source, c: Credentials, v: Json)
    decreases v, 1
  {
    match v
    case Str(s) => PublishedText(source, c, s).Some?
    case _ => Changes(source, c, v)
  }

  predicate Changes(source: Source, c: Credentials, v: Json)
    decreases v, 0
  {
    v.Node? && exists i :: 0 <= i < |v.children| && ChildChanges(source, c, v.children[i])
  }

  /** One of the first `n` members changes. */
  predicate AnyChanges(source: Source, c: Credentials, members: seq<Json>, n: nat)
    requires n <= |members|
  {
    exists i :: 0 <= i < n && ChildChanges(source, c, members[i])
  }

  lemma AnyStep(source: Source, c: Credentials, members: seq<Json>, n: nat)
    requires n < |members|
    ensures AnyChanges(source, c, members, n + 1)
       <==> AnyChanges(source, c, members, n) || ChildChanges(source, c, members[n])
  {
  }

  /** The recursive rewriter, which replaces members in place and reports whether it did. */
  method RewriteXtreamJSONValue(source: Source, c: Credentials, v: Json) returns (r: Json, changed: bool)
    ensures r == Rewritten(source, c, v) && changed == Changes(source, c, v)
    decreases v
  {
    changed := false;
    if !v.Node? {
      return v, false;
    }
    var members := v.children;
    for index := 0 to |v.children|
      invariant |members| == |v.children|
      invariant forall i :: index <= i < |members| ==> members[i] == v.children[i]
      invariant forall i :: 0 <= i < index ==> members[i] == Child(source, c, v.children[i])
      invariant changed == AnyChanges(source, c, v.children, index)
    {
      AnyStep(source, c, v.children, index);
      var child := members[index];
      var replacement := if child.Str? then PublishedText(source, c, child.s) else None;
      if replacement.Some? {
        members := members[index := Str(replacement.value)];
        changed := true;
        continue;
      }
      var inner, innerChanged := RewriteXtreamJSONValue(source, c, child);
      members := members[index := inner];
      if innerChanged {
        changed := true;
      }
    }
    r := Node(v.keys, members);
  }

  // ---- JSON text ----

  /** Characters that are written as `\u00XX`. */
  predicate Coded(c: char) {
    (c as int < 32 && c != '\n' && c != '\r' && c != '\t') || c == '<' || c == '>' || c == '&'
  }

  const LOWER_HEX: string := "0123456789abcdef"

  function JsonChar(c: char): string {
    if c == '"' || c == '\\' then ['\\', c]
    else if c == '\n' then "\\n"
    else if c == '\r' then "\\r"
    else if c == '\t' then "\\t"
    else if Coded(c) then ['\\', 'u', '0', '0', LOWER_HEX[c as int / 16 % 16], LOWER_HEX[c as int % 16]]
    else [c]
  }

  function JsonEscape(s: string): string {
    if s == "" then "" else JsonChar(s[0]) + JsonEscape(s[1..])
  }

  function JsonQuote(s: string): string {
    "\"" + JsonEscape(s) + "\""
  }

  function FourHex(s: string): Option<nat>
    requires |s| >= 4
  {
    if UnHex(s[0]).None? || UnHex(s[1]).None? || UnHex(s[2]).None? || UnHex(s[3]).None? then None
    else Some(((UnHex(s[0]).value * 16 + UnHex(s[1]).value) * 16 + UnHex(s[2]).value) * 16 + UnHex(s[3]).value)
  }

  function ShortEscape(c: char): Option<char> {
    match c
    case '"' => Some('"')
    case '\\' => Some('\\')
    case '/' => Some('/')
    case 'b' => Some(8 as char)
    case 'f' => Some(12 as char)
    case 'n' => Some('\n')
    case 'r' => Some('\r')
    case 't' => Some('\t')
    case _ => None
  }

  /** What stands between the quotes of a JSON string, decoded; a bare quote is an error.
    * (Surrogate pairs are not combined.) */
  function JsonUnescape(s: string): Option<string> {
    if s == "" then Some("")
    else if s[0] == '"' then None
    else if s[0] != '\\' then After([s[0]], JsonUnescape(s[1..]))
    else if |s| < 2 then None
    else if s[1] == 'u' then
      if |s| < 6 || FourHex(s[2..]).None? || FourHex(s[2..]).value >= 0xD800 then None
      else After([FourHex(s[2..]).value as char], JsonUnescape(s[6..]))
    else if ShortEscape(s[1]).None? then None
    else After([ShortEscape(s[1]).value], JsonUnescape(s[2..]))
  }

  function Label(v: Json, i: nat): string
    requires v.Node?
  {
    if v.keys.Some? && i < |v.keys.value| then JsonQuote(v.keys.value[i]) + ":" else ""
  }

  function Open(v: Json): string
    requires v.Node?
  {
    if v.keys.Some? then "{" else "["
  }

  function Close(v: Json): string
    requires v.Node?
  {
    if v.keys.Some? then "}" else "]"
  }

  function Marshal(v: Json): string {
    match v
    case Str(s) => JsonQuote(s)
    case Atom(text) => text
    case Node(_, children) =>
      Open(v) + Join(seq(|children|, i requires 0 <= i < |children| => Label(v, i) + Marshal(children[i])), ',')
      + Close(v)
  }

  /** A body that is no JSON or holds no provider URL is kept as it came. */
  function JsonText(source: Source, c: Credentials, parsed: Option<Json>, body: string): string {
    if parsed.None? || !Changes(source, c, parsed.value) then body
    else Marshal(Rewritten(source, c, parsed.value))
  }

  // ---- Documents ----

  function EscapedDoc(doc: seq<Piece>): seq<Piece> {
    seq(|doc|, i requires 0 <= i < |doc| => if doc[i].Fixed? then Fixed(JsonEscape(doc[i].text)) else doc[i])
  }

  /** The document of a published string, if it is published. */
  function StringDoc(source: Source, raw: string): Option<seq<Piece>> {
    match source.parse(raw)
    case None => None
    case Some(target) => UrlDoc(source.provider, source.publicBase, target, source.order)
  }

  function ChildDoc(source: Source, v: Json): seq<Piece>
    decreases v, 1
  {
    match v
    case Str(s) =>
      (match StringDoc(source, s)
       case None => [Fixed(JsonQuote(s))]
       case Some(doc) => [Fixed("\"")] + EscapedDoc(doc) + [Fixed("\"")])
    case _ => ValueDoc(source, v)
  }

  function LabelDoc(v: Json, i: nat): seq<Piece>
    requires v.Node?
  {
    if Label(v, i) == "" then [] else [Fixed(Label(v, i))]
  }

  function ValueDoc(source: Source, v: Json): seq<Piece>
    decreases v, 0
  {
    match v
    case Str(s) => [Fixed(JsonQuote(s))]
    case Atom(text) => [Fixed(text)]
    case Node(_, children) =>
      [Fixed(Open(v))]
      + JoinDocs(seq(|children|, i requires 0 <= i < |children| => LabelDoc(v, i) + ChildDoc(source, children[i])), ',')
      + [Fixed(Close(v))]
  }

  function JsonValues(vals: Values): Values {
    k => JsonEscape(vals(k))
  }

  // ---- Escaping and documents ----

  lemma {:induction false} JsonEscapeAppend(a: string, b: string)
    ensures JsonEscape(a + b) == JsonEscape(a) + JsonEscape(b)
  {
    if a == "" {
      assert a + b == b;
    } else {
      assert (a + b)[1..] == a[1..] + b;
      JsonEscapeAppend(a[1..], b);
    }
  }

  lemma {:induction false} EscapedRendered(doc: seq<Piece>, vals: Values)
    ensures Render(EscapedDoc(doc), JsonValues(vals)) == JsonEscape(Render(doc, vals))
  {
    if doc == [] {
    } else {
      EscapedRendered(doc[1..], vals);
      assert EscapedDoc(doc)[1..] == EscapedDoc(doc[1..]);
      JsonEscapeAppend(RenderPiece(doc[0], vals), Render(doc[1..], vals));
    }
  }

  lemma {:induction false} UnreservedJson(s: string)
    requires forall i :: 0 <= i < |s| ==> Unreserved(s[i])
    ensures JsonEscape(s) == s
  {
    if s != "" {
      UnreservedJson(s[1..]);
    }
  }

  // ---- Rewriting writes the document ----

  lemma ChildText(source: Source, c: Credentials, s: string)
    requires Complete(c)
    ensures StringDoc(source, s).Some? <==> PublishedText(source, c, s).Some?
    ensures Marshal(Child(source, c, Str(s))) == Render(ChildDoc(source, Str(s)), JsonValues(SlowValues(c)))
  {
    var vals := JsonValues(SlowValues(c));
    if source.parse(s).Some? {
      UrlRendered(source.provider, c, source.publicBase, source.parse(s).value, source.order);
    }
    RenderOne(Fixed(JsonQuote(s)), vals);
    if StringDoc(source, s).Some? {
      var doc := StringDoc(source, s).value;
      EscapedRendered(doc, SlowValues(c));
      RenderOne(Fixed("\""), vals);
      RenderAppend([Fixed("\"")] + EscapedDoc(doc), [Fixed("\"")], vals);
      RenderAppend([Fixed("\"")], EscapedDoc(doc), vals);
    }
  }

  function MemberTexts(v: Json): seq<string>
    requires v.Node?
  {
    seq(|v.children|, i requires 0 <= i < |v.children| => Label(v, i) + Marshal(v.children[i]))
  }

  function MemberDocs(source: Source, v: Json): seq<seq<Piece>>
    requires v.Node?
  {
    seq(|v.children|, i requires 0 <= i < |v.children| => LabelDoc(v, i) + ChildDoc(source, v.children[i]))
  }

  lemma NodeRendered(source: Source, v: Json, vals: Values)
    requires v.Node?
    ensures Render(ValueDoc(source, v), vals)
         == Open(v) + Join(RenderEach(MemberDocs(source, v), vals), ',') + Close(v)
  {
    var docs := MemberDocs(source, v);
    RenderJoin(docs, ',', vals);
    RenderOne(Fixed(Open(v)), vals);
    RenderOne(Fixed(Close(v)), vals);
    RenderAppend([Fixed(Open(v))] + JoinDocs(docs, ','), [Fixed(Close(v))], vals);
    RenderAppend([Fixed(Open(v))], JoinDocs(docs, ','), vals);
  }

  lemma MemberRendered(source: Source, v: Json, i: nat, vals: Values)
    requires v.Node? && i < |v.children|
    ensures Render(MemberDocs(source, v)[i], vals) == Label(v, i) + Render(ChildDoc(source, v.children[i]), vals)
  {
    RenderAppend(LabelDoc(v, i), ChildDoc(source, v.children[i]), vals);
    if Label(v, i) != "" {
      RenderOne(Fixed(Label(v, i)), vals);
    }
  }

  lemma MembersRendered(source: Source, c: Credentials, v: Json)
    requires v.Node?
    requires forall i :: 0 <= i < |v.children| ==>
      Marshal(Child(source, c, v.children[i])) == Render(ChildDoc(source, v.children[i]), JsonValues(SlowValues(c)))
    ensures Marshal(Rewritten(source, c, v)) == Render(ValueDoc(source, v), JsonValues(SlowValues(c)))
  {
    var vals, w := JsonValues(SlowValues(c)), Rewritten(source, c, v);
    forall i | 0 <= i < |v.children|
      ensures MemberTexts(w)[i] == RenderEach(MemberDocs(source, v), vals)[i]
    {
      MemberRendered(source, v, i, vals);
      assert w.children[i] == Child(source, c, v.children[i]);
    }
    assert MemberTexts(w) == RenderEach(MemberDocs(source, v), vals);
    NodeRendered(source, v, vals);
  }

  lemma {:induction false} ValueRendered(source: Source, c: Credentials, v: Json)
    requires Complete(c)
    ensures Marshal(Rewritten(source, c, v)) == Render(ValueDoc(source, v), JsonValues(SlowValues(c)))
    decreases v
  {
    var vals := JsonValues(SlowValues(c));
    match v
    case Str(s) => RenderOne(Fixed(JsonQuote(s)), vals);
    case Atom(text) => RenderOne(Fixed(text), vals);
    case Node(_, children) =>
      forall i | 0 <= i < |children|
        ensures Marshal(Child(source, c, children[i])) == Render(ChildDoc(source, children[i]), vals)
      {
        if children[i].Str? {
          ChildText(source, c, children[i].s);
        } else {
          ValueRendered(source, c, children[i]);
        }
      }
      MembersRendered(source, c, v);
  }

  /** Whether anything changes does not depend on the client. */
  lemma {:induction false} ChangesForAll(source: Source, c: Credentials, d: Credentials, v: Json)
    requires Complete(c) && Complete(d)
    ensures Changes(source, c, v) == Changes(source, d, v)
    ensures ChildChanges(source, c, v) == ChildChanges(source, d, v)
    decreases v
  {
    match v
    case Str(s) =>
      ChildText(source, c, s);
      ChildText(source, d, s);
    case Atom(_) =>
    case Node(_, children) =>
      forall i | 0 <= i < |children|
        ensures ChildChanges(source, c, children[i]) == ChildChanges(source, d, children[i])
      {
        ChangesForAll(source, c, d, children[i]);
      }
  }

  // ---- The documents are sound ----

  lemma {:induction false} EscapedEnds(s: string)
    requires s != ""
    ensures JsonEscape(s) != ""
    ensures !MarkerChar(s[0]) ==> !MarkerChar(JsonEscape(s)[0])
    ensures !MarkerChar(s[|s| - 1]) ==> !MarkerChar(JsonEscape(s)[|JsonEscape(s)| - 1])
    ensures s[0] == '/' ==> JsonEscape(s)[0] == '/'
    ensures s[|s| - 1] == '/' ==> JsonEscape(s)[|JsonEscape(s)| - 1] == '/'
  {
    CharEnds(s[0]);
    if |s| > 1 {
      EscapedEnds(s[1..]);
    } else {
      assert JsonEscape(s[1..]) == "";
    }
  }

  lemma CharEnds(c: char)
    ensures JsonChar(c) != ""
    ensures !MarkerChar(c) ==> !MarkerChar(JsonChar(c)[0]) && !MarkerChar(JsonChar(c)[|JsonChar(c)| - 1])
    ensures c == '/' ==> JsonChar(c) == "/"
  {
    if Coded(c) {
      var d := c as int % 16;
      assert LOWER_HEX[d] == '1' ==> d == 1;
      assert !('A' <= LOWER_HEX[d] <= 'Z') && LOWER_HEX[d] != '_';
    }
  }

  lemma EscapedSound(doc: seq<Piece>)
    requires Sound(doc)
    ensures Sound(EscapedDoc(doc))
  {
    forall i | 0 <= i < |doc| - 1 ensures Neighbours(EscapedDoc(doc)[i], EscapedDoc(doc)[i + 1]) {
      assert Neighbours(doc[i], doc[i + 1]);
      if doc[i].Fixed? && doc[i].text != "" { EscapedEnds(doc[i].text); }
      if doc[i + 1].Fixed? && doc[i + 1].text != "" { EscapedEnds(doc[i + 1].text); }
    }
  }

  lemma QuotedSound(doc: seq<Piece>)
    requires Sound(doc)
    ensures Sound([Fixed("\"")] + doc + [Fixed("\"")])
  {
    SoundAppend([Fixed("\"")], doc);
    SoundAppend([Fixed("\"")] + doc, [Fixed("\"")]);
  }

  lemma ChildStringSound(source: Source, s: string)
    requires Sensible(source)
    ensures Sound(ChildDoc(source, Str(s)))
  {
    if StringDoc(source, s).Some? {
      UrlDocSound(source.provider, source.publicBase, source.parse(s).value, source.order);
      EscapedSound(StringDoc(source, s).value);
      QuotedSound(EscapedDoc(StringDoc(source, s).value));
    }
  }

  lemma LabelSound(v: Json, i: nat, doc: seq<Piece>)
    requires v.Node? && Sound(doc)
    ensures Sound(LabelDoc(v, i) + doc)
  {
    if Label(v, i) != "" {
      assert Label(v, i)[|Label(v, i)| - 1] == ':';
    }
    SoundAppend(LabelDoc(v, i), doc);
  }

  lemma NodeSound(source: Source, v: Json)
    requires v.Node? && forall i :: 0 <= i < |v.children| ==> Sound(MemberDocs(source, v)[i])
    ensures Sound(ValueDoc(source, v))
  {
    var docs := MemberDocs(source, v);
    SoundJoin(docs, ',');
    SoundAppend([Fixed(Open(v))], JoinDocs(docs, ','));
    SoundAppend([Fixed(Open(v))] + JoinDocs(docs, ','), [Fixed(Close(v))]);
  }

  lemma {:induction false} ValueSound(source: Source, v: Json)
    requires Sensible(source)
    ensures Sound(ValueDoc(source, v))
    decreases v
  {
    if v.Node? {
      forall i | 0 <= i < |v.children| ensures Sound(MemberDocs(source, v)[i]) {
        if v.children[i].Str? {
          ChildStringSound(source, v.children[i].s);
        } else {
          ValueSound(source, v.children[i]);
        }
        LabelSound(v, i, ChildDoc(source, v.children[i]));
      }
      NodeSound(source, v);
    }
  }

  // ---- Reading the text back ----

  lemma CodedBack(c: char, rest: string)
    requires Coded(c)
    ensures JsonUnescape(JsonChar(c) + rest) == After([c], JsonUnescape(rest))
  {
    var d, e := c as int / 16, c as int % 16;
    LowerHexBack(d);
    LowerHexBack(e);
    var s := JsonChar(c) + rest;
    assert s[6..] == rest;
    assert s[2..][0] == '0' && s[2..][1] == '0' && s[2..][2] == LOWER_HEX[d] && s[2..][3] == LOWER_HEX[e];
    assert d * 16 + e == c as int;
    assert FourHex(s[2..]) == Some(c as int);
  }

  lemma LowerHexBack(d: nat)
    requires d < 16
    ensures UnHex(LOWER_HEX[d]) == Some(d)
  {
  }

  lemma CharBack(c: char, rest: string)
    ensures JsonUnescape(JsonChar(c) + rest) == After([c], JsonUnescape(rest))
  {
    var code := JsonChar(c);
    var s := code + rest;
    if c in "\"\\\n\r\t" {
      assert s[0] == '\\' && s[1] == code[1] && s[2..] == rest;
    } else if Coded(c) {
      CodedBack(c, rest);
    } else {
      assert s[1..] == rest;
    }
  }

  lemma {:induction false} JsonBack(s: string, rest: string)
    ensures JsonUnescape(JsonEscape(s) + rest) == After(s, JsonUnescape(rest))
  {
    if s == "" {
      assert JsonEscape(s) + rest == rest;
      AfterAppend("", "", JsonUnescape(rest));
    } else {
      JsonBack(s[1..], rest);
      CharBack(s[0], JsonEscape(s[1..]) + rest);
      assert JsonEscape(s) + rest == JsonChar(s[0]) + (JsonEscape(s[1..]) + rest);
      assert s == [s[0]] + s[1..];
      AfterAppend([s[0]], s[1..], JsonUnescape(rest));
    }
  }

  /** Characters that stand for themselves between the quotes of a JSON string. */
  predicate Literal(s: string) {
    '"' !in s && '\\' !in s
  }

  lemma {:induction false} LiteralBack(s: string, rest: string)
    requires Literal(s)
    ensures JsonUnescape(s + rest) == After(s, JsonUnescape(rest))
  {
    if s == "" {
      assert s + rest == rest;
      AfterAppend("", "", JsonUnescape(rest));
    } else {
      assert s[0] in s;
      LiteralBack(s[1..], rest);
      assert (s + rest)[1..] == s[1..] + rest;
      assert s == [s[0]] + s[1..];
      AfterAppend([s[0]], s[1..], JsonUnescape(rest));
    }
  }

  /** Substituted values need no JSON escaping: the escaped template with them reads as the
    * plain document with them. */
  lemma {:induction false} FilledReads(doc: seq<Piece>, vals: Values)
    requires forall k :: Literal(vals(k))
    ensures JsonUnescape(Render(EscapedDoc(doc), vals)) == Some(Render(doc, vals))
  {
    if doc == [] {
    } else {
      FilledReads(doc[1..], vals);
      assert EscapedDoc(doc)[1..] == EscapedDoc(doc[1..]);
      var rest := Render(EscapedDoc(doc[1..]), vals);
      if doc[0].Fixed? {
        JsonBack(doc[0].text, rest);
      } else {
        LiteralBack(vals(doc[0].kind), rest);
      }
    }
  }

  lemma FastIsLiteral(client: Client, k: Kind)
    ensures Literal(FastValue(client, k))
  {
    EscapedAlphabet(RawValue(client, k), if k.PathUser? || k.PathPass? then Segment else Query);
  }

  /** `text` is a way to write the value `v` in JSON. */
  ghost predicate Spells(text: string, v: Json)
    decreases v
  {
    match v
    case Str(s) => exists inner :: text == "\"" + inner + "\"" && JsonUnescape(inner) == Some(s)
    case Atom(t) => text == t
    case Node(_, children) =>
      exists texts: seq<string> ::
        && |texts| == |children|
        && text == Open(v) + Join(Labelled(v, texts), ',') + Close(v)
        && forall i :: 0 <= i < |children| ==> Spells(texts[i], children[i])
  }

  function Labelled(v: Json, texts: seq<string>): seq<string>
    requires v.Node?
  {
    seq(|texts|, i requires 0 <= i < |texts| => Label(v, i) + texts[i])
  }

  lemma QuoteSpells(s: string)
    ensures Spells(JsonQuote(s), Str(s))
  {
    JsonBack(s, "");
    assert JsonEscape(s) + "" == JsonEscape(s) && s + "" == s;
    assert JsonQuote(s) == "\"" + JsonEscape(s) + "\"" && JsonUnescape(JsonEscape(s)) == Some(s);
  }

  /** Marshalling writes the value. */
  lemma {:induction false} MarshalSpells(v: Json)
    ensures Spells(Marshal(v), v)
    decreases v
  {
    match v
    case Str(s) => QuoteSpells(s);
    case Atom(_) =>
    case Node(_, children) =>
      var texts := seq(|children|, i requires 0 <= i < |children| => Marshal(children[i]));
      forall i | 0 <= i < |children| ensures Spells(texts[i], children[i]) {
        MarshalSpells(children[i]);
      }
      assert Labelled(v, texts) == MemberTexts(v);
  }

  // ---- The tree a personalized catalogue spells ----

  function FastChild(source: Source, client: Client, v: Json): Json
    decreases v, 1
  {
    match v
    case Str(s) =>
      (match StringDoc(source, s) case None => v case Some(doc) => Str(Render(doc, FastValues(client))))
    case _ => FastTree(source, client, v)
  }

  /** The value with every published string as the substitution spells it. */
  function FastTree(source: Source, client: Client, v: Json): Json
    decreases v, 0
  {
    match v
    case Node(keys, children) =>
      Node(keys, seq(|children|, i requires 0 <= i < |children| => FastChild(source, client, children[i])))
    case _ => v
  }

  lemma ChildSpelled(source: Source, client: Client, s: string)
    ensures Spells(Render(ChildDoc(source, Str(s)), FastValues(client)), FastChild(source, client, Str(s)))
  {
    var vals := FastValues(client);
    match StringDoc(source, s)
    case None =>
      RenderOne(Fixed(JsonQuote(s)), vals);
      QuoteSpells(s);
    case Some(doc) =>
      forall k ensures Literal(vals(k)) {
        FastIsLiteral(client, k);
      }
      FilledReads(doc, vals);
      var inner := Render(EscapedDoc(doc), vals);
      RenderOne(Fixed("\""), vals);
      RenderAppend([Fixed("\"")] + EscapedDoc(doc), [Fixed("\"")], vals);
      RenderAppend([Fixed("\"")], EscapedDoc(doc), vals);
      assert Render(ChildDoc(source, Str(s)), vals) == "\"" + inner + "\"";
  }

  lemma NodeSpells(v: Json, texts: seq<string>)
    requires v.Node? && |texts| == |v.children|
    requires forall i :: 0 <= i < |v.children| ==> Spells(texts[i], v.children[i])
    ensures Spells(Open(v) + Join(Labelled(v, texts), ',') + Close(v), v)
  {
  }

  lemma MembersSpelled(source: Source, client: Client, v: Json)
    requires v.Node?
    requires forall i :: 0 <= i < |v.children| ==>
      Spells(Render(ChildDoc(source, v.children[i]), FastValues(client)), FastChild(source, client, v.children[i]))
    ensures Spells(Render(ValueDoc(source, v), FastValues(client)), FastTree(source, client, v))
  {
    var vals, w := FastValues(client), FastTree(source, client, v);
    var texts := seq(|v.children|, i requires 0 <= i < |v.children| => Render(ChildDoc(source, v.children[i]), vals));
    forall i | 0 <= i < |v.children|
      ensures Labelled(w, texts)[i] == RenderEach(MemberDocs(source, v), vals)[i]
    {
      MemberRendered(source, v, i, vals);
    }
    assert Labelled(w, texts) == RenderEach(MemberDocs(source, v), vals);
    NodeRendered(source, v, vals);
    forall i | 0 <= i < |v.children| ensures Spells(texts[i], w.children[i]) {
      assert w.children[i] == FastChild(source, client, v.children[i]);
    }
    NodeSpells(w, texts);
  }

  lemma {:induction false} TreeSpelled(source: Source, client: Client, v: Json)
    ensures Spells(Render(ValueDoc(source, v), FastValues(client)), FastTree(source, client, v))
    decreases v
  {
    match v
    case Str(s) =>
      RenderOne(Fixed(JsonQuote(s)), FastValues(client));
      QuoteSpells(s);
    case Atom(text) => RenderOne(Fixed(text), FastValues(client));
    case Node(_, children) =>
      forall i | 0 <= i < |children|
        ensures Spells(Render(ChildDoc(source, children[i]), FastValues(client)), FastChild(source, client, children[i]))
      {
        if children[i].Str? {
          ChildSpelled(source, client, children[i].s);
        } else {
          TreeSpelled(source, client, children[i]);
        }
      }
      MembersSpelled(source, client, v);
  }

  /** Values of the same shape, with the same keys and atoms, whose strings decode alike. */
  ghost predicate TreesAlike(a: Json, b: Json)
    decreases a
  {
    match a
    case Str(s) => b.Str? && DecodedSegments(s) == DecodedSegments(b.s)
    case Atom(_) => a == b
    case Node(keys, children) =>
      && b.Node? && keys == b.keys && |children| == |b.children|
      && forall i :: 0 <= i < |children| ==> TreesAlike(children[i], b.children[i])
  }

  lemma {:induction false} FastTreeAlike(source: Source, client: Client, v: Json)
    requires Sensible(source) && PlainClient(client) && SlashFreeClient(client)
    ensures TreesAlike(FastTree(source, client, v), Rewritten(source, CredentialsOf(client), v))
    ensures TreesAlike(FastChild(source, client, v), Child(source, CredentialsOf(client), v))
    decreases v
  {
    match v
    case Str(s) =>
      ChildText(source, CredentialsOf(client), s);
      if StringDoc(source, s).Some? {
        var target := source.parse(s).value;
        UrlDocSound(source.provider, source.publicBase, target, source.order);
        UrlRendered(source.provider, CredentialsOf(client), source.publicBase, target, source.order);
        FastDecodesLikeSlow(StringDoc(source, s).value, client);
      }
    case Atom(_) =>
    case Node(_, children) =>
      forall i | 0 <= i < |children|
        ensures TreesAlike(FastChild(source, client, children[i]), Child(source, CredentialsOf(client), children[i]))
      {
        FastTreeAlike(source, client, children[i]);
      }
  }

  // ---- Fast and slow ----

  /** Rewriting a catalogue once with placeholders and substituting a client's credentials
    * gives JSON for a value that is, string by string, the catalogue rewritten for that client:
    * the same shape, keys and atoms, and strings that decode alike. A body nothing is rewritten
    * in is served as it came, in both forms. */
  lemma FastEqualsSlow(source: Source, parsed: Option<Json>, body: string, client: Client)
    requires Sensible(source) && PlainClient(client) && SlashFreeClient(client)
    requires MarkerFree(body) && (parsed.Some? ==> PlaceholderFree(ValueDoc(source, parsed.value)))
    ensures
      var fast := Personalized(JsonText(source, CanonicalCredentials(), parsed, body), client);
      var slow := JsonText(source, CredentialsOf(client), parsed, body);
      if parsed.Some? && Changes(source, CredentialsOf(client), parsed.value) then
        && Spells(fast, FastTree(source, client, parsed.value))
        && Spells(slow, Rewritten(source, CredentialsOf(client), parsed.value))
        && TreesAlike(FastTree(source, client, parsed.value), Rewritten(source, CredentialsOf(client), parsed.value))
      else fast == slow == body
  {
    if parsed.Some? {
      ChangesForAll(source, CanonicalCredentials(), CredentialsOf(client), parsed.value);
    }
    if parsed.None? || !Changes(source, CredentialsOf(client), parsed.value) {
      BodyKept(body, client);
    } else {
      var v := parsed.value;
      ValueRendered(source, CanonicalCredentials(), v);
      ValueSound(source, v);
      forall k ensures JsonValues(SlowValues(CanonicalCredentials()))(k) == Marker(k) {
        CanonicalIsMarkers(k);
        MarkersAreMarkers(k);
        UnreservedJson(Marker(k));
      }
      TemplateFills(ValueDoc(source, v), JsonValues(SlowValues(CanonicalCredentials())), client);
      TreeSpelled(source, client, v);
      MarshalSpells(Rewritten(source, CredentialsOf(client), v));
      FastTreeAlike(source, client, v);
    }
  }

  lemma BodyKept(body: string, client: Client)
    requires MarkerFree(body)
    ensures Personalized(body, client) == body
  {
    for n := 0 to |KINDS|
      invariant Substituted(body, client, n) == body
    {
      NothingToReplace(body, Marker(KINDS[n]), FastValue(client, KINDS[n]));
    }
  }
}
