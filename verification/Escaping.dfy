/** Percent-encoding as Go's net/url does it (RFC 3986, section 2.1). A string holds one byte
  * per character. */
module Escaping {

  import opened Prelude

  /** Which characters are left alone depends on where in the URL they stand: in a path taken
    * as a whole (URL.String), in one path segment (PathEscape), in a query (QueryEscape) or
    * in a fragment. */
  datatype Mode = WholePath | Segment | Query | Fragment

  predicate Bytewise(s: string) {
    forall i :: 0 <= i < |s| ==> s[i] as int < 256
  }

  predicate Unreserved(c: char) {
    'a' <= c <= 'z' || 'A' <= c <= 'Z' || '0' <= c <= '9' || c == '-' || c == '_' || c == '.' || c == '~'
  }

  predicate Reserved(c: char) {
    c in "$&+,/:;=?@"
  }

  predicate ShouldEscape(c: char, mode: Mode) {
    if Unreserved(c) then false
    else if Reserved(c) then
      match mode
      case WholePath => c == '?'
      case Segment => c in "/;,?"
      case Query => true
      case Fragment => false
    else !(mode == Fragment && c in "!()*")
  }

  const HEX: string := "0123456789ABCDEF"

  function EscapeChar(c: char, mode: Mode): string {
    if c == ' ' && mode == Query then "+"
    else if ShouldEscape(c, mode) then ['%', HEX[c as int / 16 % 16], HEX[c as int % 16]]
    else [c]
  }

  function Escape(s: string, mode: Mode): string {
    if s == "" then "" else EscapeChar(s[0], mode) + Escape(s[1..], mode)
  }

  function UnHex(c: char): Option<nat> {
    if '0' <= c <= '9' then Some(c as int - '0' as int)
    else if 'A' <= c <= 'F' then Some(c as int - 'A' as int + 10)
    else if 'a' <= c <= 'f' then Some(c as int - 'a' as int + 10)
    else None
  }

  /** A decoded text with `head` in front, unless decoding failed. */
  function After(head: string, tail: Option<string>): Option<string> {
    match tail
    case None => None
    case Some(t) => Some(head + t)
  }

  /** Decoding; a `%` without two hex digits behind it is an error. */
  function Unescape(s: string, mode: Mode): Option<string> {
    if s == "" then Some("")
    else if s[0] == '%' then
      if |s| < 3 || UnHex(s[1]).None? || UnHex(s[2]).None? then None
      else After([(UnHex(s[1]).value * 16 + UnHex(s[2]).value) as char], Unescape(s[3..], mode))
    else After([if s[0] == '+' && mode == Query then ' ' else s[0]], Unescape(s[1..], mode))
  }

  lemma HexRoundTrip(d: nat)
    requires d < 16
    ensures UnHex(HEX[d]) == Some(d)
  {
  }

  lemma CodeRead(d: nat, e: nat, rest: string, mode: Mode)
    requires d < 16 && e < 16
    ensures Unescape(['%', HEX[d], HEX[e]] + rest, mode) == After([(d * 16 + e) as char], Unescape(rest, mode))
  {
    HexRoundTrip(d);
    HexRoundTrip(e);
    assert (['%', HEX[d], HEX[e]] + rest)[3..] == rest;
  }

  lemma CodeBack(c: char, mode: Mode, rest: string)
    requires c as int < 256
    ensures Unescape(['%', HEX[c as int / 16 % 16], HEX[c as int % 16]] + rest, mode)
         == After([c], Unescape(rest, mode))
  {
    var d, e := c as int / 16, c as int % 16;
    assert d < 16 && d % 16 == d && d * 16 + e == c as int;
    CodeRead(d, e, rest, mode);
  }

  lemma EscapeCharBack(c: char, mode: Mode, rest: string)
    requires c as int < 256
    ensures Unescape(EscapeChar(c, mode) + rest, mode) == After([c], Unescape(rest, mode))
  {
    if c == ' ' && mode == Query {
      assert ("+" + rest)[1..] == rest;
    } else if ShouldEscape(c, mode) {
      CodeBack(c, mode, rest);
    } else {
      assert ([c] + rest)[1..] == rest;
    }
  }

  lemma AfterAppend(a: string, b: string, tail: Option<string>)
    ensures After(a + b, tail) == After(a, After(b, tail))
    ensures After("", tail) == tail
  {
    if tail.Some? {
      assert a + b + tail.value == a + (b + tail.value);
      assert "" + tail.value == tail.value;
    }
  }

  /** Whatever follows, an escaped text decodes to the text; so escaping a whole path or one
    * segment of it are different spellings of the same thing. */
  lemma {:induction false} EscapeBack(s: string, mode: Mode, rest: string)
    requires Bytewise(s)
    ensures Unescape(Escape(s, mode) + rest, mode) == After(s, Unescape(rest, mode))
  {
    if s == "" {
      assert Escape(s, mode) + rest == rest;
      AfterAppend("", "", Unescape(rest, mode));
    } else {
      EscapeBack(s[1..], mode, rest);
      EscapeCharBack(s[0], mode, Escape(s[1..], mode) + rest);
      assert Escape(s, mode) + rest == EscapeChar(s[0], mode) + (Escape(s[1..], mode) + rest);
      assert s == [s[0]] + s[1..];
      AfterAppend([s[0]], s[1..], Unescape(rest, mode));
    }
  }

  lemma RoundTrip(s: string, mode: Mode)
    requires Bytewise(s)
    ensures Unescape(Escape(s, mode), mode) == Some(s)
  {
    EscapeBack(s, mode, "");
    assert Escape(s, mode) + "" == Escape(s, mode) && s + "" == s;
  }

  /** The two path modes decode alike. */
  lemma {:induction false} PathModesDecodeAlike(s: string)
    ensures Unescape(s, WholePath) == Unescape(s, Segment)
  {
    if s == "" {
    } else if s[0] == '%' {
      if |s| >= 3 { PathModesDecodeAlike(s[3..]); }
    } else {
      PathModesDecodeAlike(s[1..]);
    }
  }

  lemma {:induction false} EscapeAppend(a: string, b: string, mode: Mode)
    ensures Escape(a + b, mode) == Escape(a, mode) + Escape(b, mode)
  {
    if a == "" {
      assert a + b == b;
    } else {
      assert (a + b)[1..] == a[1..] + b;
      EscapeAppend(a[1..], b, mode);
    }
  }

  /** Texts of unreserved characters are written as they are. */
  lemma {:induction false} UnreservedKept(s: string, mode: Mode)
    requires forall i :: 0 <= i < |s| ==> Unreserved(s[i])
    ensures Escape(s, mode) == s
  {
    if s == "" {
    } else {
      UnreservedKept(s[1..], mode);
    }
  }

  lemma HexDigitsUnreserved(d: nat)
    requires d < 16
    ensures Unreserved(HEX[d])
  {
  }

  /** The characters an escaped text is made of; a slash only where it was one and stays one. */
  lemma {:induction false} EscapedAlphabet(s: string, mode: Mode)
    requires mode != Fragment
    ensures forall c :: c in Escape(s, mode) ==> Unreserved(c) || Reserved(c) || c == '%'
    ensures '/' !in s || mode == Segment || mode == Query ==> '/' !in Escape(s, mode)
  {
    if s == "" {
    } else {
      EscapedAlphabet(s[1..], mode);
      EscapedCharAlphabet(s[0], mode);
      assert s[0] in s && forall c :: c in s[1..] ==> c in s;
    }
  }

  lemma EscapedCharAlphabet(c: char, mode: Mode)
    requires mode != Fragment
    ensures forall d :: d in EscapeChar(c, mode) ==> Unreserved(d) || Reserved(d) || d == '%'
    ensures c != '/' || mode == Segment || mode == Query ==> '/' !in EscapeChar(c, mode)
  {
    HexDigitsUnreserved(c as int / 16 % 16);
    HexDigitsUnreserved(c as int % 16);
  }
}
