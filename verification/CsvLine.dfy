/** The CSV line reader of the VPN Gate server list (lib/services/vpn/vpngate.ts). */
module CsvLine {

  const QUOTE := '"'
  const COMMA := ','

  /** The fields still to come, given the unread text, the field read so far and whether
    * the reader is inside quotes. */
  function FieldsFrom(rest: string, current: string, quoted: bool): (values: seq<string>)
    ensures |values| > 0
    decreases |rest|
  {
    if rest == "" then [current]
    else if rest[0] == QUOTE then
      if quoted && |rest| > 1 && rest[1] == QUOTE then FieldsFrom(rest[2..], current + [QUOTE], quoted)
      else FieldsFrom(rest[1..], current, !quoted)
    else if rest[0] == COMMA && !quoted then [current] + FieldsFrom(rest[1..], "", quoted)
    else FieldsFrom(rest[1..], current + [rest[0]], quoted)
  }

  function Fields(line: string): seq<string> {
    FieldsFrom(line, "", false)
  }

  /** The reader's loop. */
  method ParseCsvLine(line: string) returns (values: seq<string>)
    ensures values == Fields(line)
  {
    values := [];
    var current, quoted := "", false;
    var i := 0;
    while i < |line|
      invariant i <= |line|
      invariant values + FieldsFrom(line[i..], current, quoted) == Fields(line)
    {
      var c := line[i];
      ghost var rest := line[i..];
      assert rest[1..] == line[i + 1..];
      if c == QUOTE {
        if quoted && i + 1 < |line| && line[i + 1] == QUOTE {
          assert rest[2..] == line[i + 2..];
          current := current + [QUOTE];
          i := i + 1;
        } else {
          quoted := !quoted;
        }
      } else if c == COMMA && !quoted {
        assert forall tail :: values + ([current] + tail) == (values + [current]) + tail;
        values := values + [current];
        current := "";
      } else {
        current := current + [c];
      }
      i := i + 1;
    }
    values := values + [current];
  }

  /** Every quote of a field written twice. */
  function Doubled(field: string): string {
    if field == "" then ""
    else (if field[0] == '"' then ['"', '"'] else [field[0]]) + Doubled(field[1..])
  }

  /** A field as printed by section 2 of RFC 4180, in quotes or bare. */
  function PrintField(field: string, inQuotes: bool): string {
    if inQuotes then ['"'] + Doubled(field) + ['"'] else field
  }

  function PrintLine(fields: seq<string>, inQuotes: seq<bool>): string
    requires 0 < |fields| == |inQuotes|
  {
    if |fields| == 1 then PrintField(fields[0], inQuotes[0])
    else PrintField(fields[0], inQuotes[0]) + [','] + PrintLine(fields[1..], inQuotes[1..])
  }

  /** A field that may be printed bare. */
  predicate Plain(field: string) {
    '"' !in field && ',' !in field
  }

  /** What must follow a printed field. */
  ghost predicate EndsField(rest: string) {
    rest == "" || rest[0] == ','
  }

  lemma {:induction false} ReadsBare(field: string, rest: string, current: string)
    requires Plain(field)
    ensures FieldsFrom(field + rest, current, false) == FieldsFrom(rest, current + field, false)
    decreases |field|
  {
    if field == "" {
      assert field + rest == rest && current + field == current;
    } else {
      assert field[0] in field;
      assert (field + rest)[1..] == field[1..] + rest;
      ReadsBare(field[1..], rest, current + [field[0]]);
      assert current + [field[0]] + field[1..] == current + field;
    }
  }

  lemma {:induction false} ReadsQuoted(field: string, rest: string, current: string)
    requires EndsField(rest)
    ensures FieldsFrom(Doubled(field) + [QUOTE] + rest, current, true)
         == FieldsFrom(rest, current + field, false)
    decreases |field|
  {
    var text := Doubled(field) + [QUOTE] + rest;
    if field == "" {
      assert text == [QUOTE] + rest && text[1..] == rest;
      assert current + field == current;
    } else {
      var tail := Doubled(field[1..]) + [QUOTE] + rest;
      ReadsQuoted(field[1..], rest, current + [field[0]]);
      assert current + [field[0]] + field[1..] == current + field;
      if field[0] == QUOTE {
        assert text == [QUOTE, QUOTE] + tail && text[2..] == tail;
      } else {
        assert text == [field[0]] + tail && text[1..] == tail;
      }
    }
  }

  lemma ReadsField(field: string, inQuotes: bool, rest: string)
    requires inQuotes || Plain(field)
    requires EndsField(rest)
    ensures FieldsFrom(PrintField(field, inQuotes) + rest, "", false) == FieldsFrom(rest, field, false)
  {
    assert "" + field == field;
    if inQuotes {
      ReadsQuoted(field, rest, "");
      var text := PrintField(field, true) + rest;
      assert text[1..] == Doubled(field) + [QUOTE] + rest;
    } else {
      ReadsBare(field, rest, "");
    }
  }

  /** Reading back a printed line gives the fields that were printed, however each field
    * was printed: in quotes always, only when it must be, or any mixture. */
  lemma {:induction false} RoundTrip(fields: seq<string>, inQuotes: seq<bool>)
    requires 0 < |fields| == |inQuotes|
    requires forall i :: 0 <= i < |fields| ==> inQuotes[i] || Plain(fields[i])
    ensures Fields(PrintLine(fields, inQuotes)) == fields
  {
    var first := PrintField(fields[0], inQuotes[0]);
    if |fields| == 1 {
      assert first + "" == first;
      ReadsField(fields[0], inQuotes[0], "");
    } else {
      var more := PrintLine(fields[1..], inQuotes[1..]);
      RoundTrip(fields[1..], inQuotes[1..]);
      assert PrintLine(fields, inQuotes) == first + ([COMMA] + more);
      ReadsField(fields[0], inQuotes[0], [COMMA] + more);
      assert ([COMMA] + more)[1..] == more;
      assert fields == [fields[0]] + fields[1..];
    }
  }

  lemma AlwaysQuotedRoundTrip(fields: seq<string>)
    requires |fields| > 0
    ensures Fields(PrintLine(fields, seq(|fields|, _ => true))) == fields
  {
    RoundTrip(fields, seq(|fields|, _ => true));
  }

  lemma MinimallyQuotedRoundTrip(fields: seq<string>)
    requires |fields| > 0
    ensures Fields(PrintLine(fields, seq(|fields|, i requires 0 <= i < |fields| => !Plain(fields[i])))) == fields
  {
    RoundTrip(fields, seq(|fields|, i requires 0 <= i < |fields| => !Plain(fields[i])));
  }

  /** How many commas have an even number of quote characters before them; `odd` tells
    * the parity so far. No escape rule: every quote character counts. */
  function Separators(rest: string, odd: bool): nat {
    if rest == "" then 0
    else
      (if rest[0] == COMMA && !odd then 1 else 0)
      + Separators(rest[1..], if rest[0] == QUOTE then !odd else odd)
  }

  /** On any line, well formed or not, a comma separates exactly when an even number of
    * quotes precedes it; in particular an unbalanced quote swallows the rest. */
  lemma {:induction false} CommasByParity(rest: string, current: string, quoted: bool)
    ensures |FieldsFrom(rest, current, quoted)| == 1 + Separators(rest, quoted)
    decreases |rest|
  {
    if rest == "" {
    } else if rest[0] == QUOTE && quoted && |rest| > 1 && rest[1] == QUOTE {
      CommasByParity(rest[2..], current + [QUOTE], quoted);
      assert rest[1..][1..] == rest[2..];
      assert Separators(rest[1..], false) == Separators(rest[2..], true);
    } else if rest[0] == QUOTE {
      CommasByParity(rest[1..], current, !quoted);
    } else if rest[0] == COMMA && !quoted {
      CommasByParity(rest[1..], "", quoted);
    } else {
      CommasByParity(rest[1..], current + [rest[0]], quoted);
    }
  }
}
