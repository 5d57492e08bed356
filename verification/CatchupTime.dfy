/** Catch-up start times (internal/proxy/catchup.go, 194-229): the layouts in which a start is
  * accepted, tried in order, and the five in which it is printed. Layouts are read as Go's
  * time package reads them. A time is its civil fields; zones and fractions are read over. */
module CatchupTime {

  import opened Prelude
  import opened XtreamUrls

  datatype Time = Time(year: nat, month: nat, day: nat, hour: nat, minute: nat, second: nat)

  /** An element of a layout: a field, the zone of RFC 3339, or a literal character. */
  datatype Element = Year | Month | Day | Hour | Minute | Second | Zone | Lit(c: char)

  type Layout = seq<Element>

  const COLON_DASH: Layout := [Year, Lit('-'), Month, Lit('-'), Day, Lit(':'), Hour, Lit('-'), Minute]
  const UNDERSCORE: Layout := [Year, Lit('-'), Month, Lit('-'), Day, Lit('_'), Hour, Lit('-'), Minute]
  const COMPACT_HOUR: Layout := [Year, Month, Day, Lit('-'), Hour]
  const COLON_SECONDS: Layout :=
    [Year, Lit('-'), Month, Lit('-'), Day, Lit(':'), Hour, Lit(':'), Minute, Lit(':'), Second]
  const COLON_MINUTES: Layout := [Year, Lit('-'), Month, Lit('-'), Day, Lit(':'), Hour, Lit(':'), Minute]
  const SQL: Layout :=
    [Year, Lit('-'), Month, Lit('-'), Day, Lit(' '), Hour, Lit(':'), Minute, Lit(':'), Second]
  const ISO: Layout :=
    [Year, Lit('-'), Month, Lit('-'), Day, Lit('T'), Hour, Lit(':'), Minute, Lit(':'), Second]
  const RFC3339: Layout :=
    [Year, Lit('-'), Month, Lit('-'), Day, Lit('T'), Hour, Lit(':'), Minute, Lit(':'), Second, Zone]

  const LAYOUTS: seq<Layout> :=
    [COLON_DASH, UNDERSCORE, COMPACT_HOUR, COLON_SECONDS, COLON_MINUTES, SQL, ISO, RFC3339]

  // ---- Printing ----

  function Digit(n: nat): char {
    "0123456789"[n % 10]
  }

  function TwoDigits(n: nat): string {
    [Digit(n / 10), Digit(n)]
  }

  function FourDigits(n: nat): string {
    TwoDigits(n / 100) + TwoDigits(n % 100)
  }

  function PrintElement(e: Element, t: Time): string {
    match e
    case Year => FourDigits(t.year)
    case Month => TwoDigits(t.month)
    case Day => TwoDigits(t.day)
    case Hour => TwoDigits(t.hour)
    case Minute => TwoDigits(t.minute)
    case Second => TwoDigits(t.second)
    case Zone => "Z"
    case Lit(c) => [c]
  }

  function Print(layout: Layout, t: Time): string {
    if layout == [] then "" else PrintElement(layout[0], t) + Print(layout[1..], t)
  }

  // ---- Reading ----

  predicate IsDigit(c: char) {
    '0' <= c <= '9'
  }

  function DigitValue(c: char): nat
    requires IsDigit(c)
  {
    c as int - '0' as int
  }

  datatype Read<+T> = Read(value: T, rest: string)

  /** Two digits, or, unless `fixed`, one. */
  function ReadNumber(s: string, fixed: bool): Option<Read<nat>> {
    if s == "" || !IsDigit(s[0]) then None
    else if |s| < 2 || !IsDigit(s[1]) then (if fixed then None else Some(Read(DigitValue(s[0]), s[1..])))
    else Some(Read(DigitValue(s[0]) * 10 + DigitValue(s[1]), s[2..]))
  }

  function ReadYear(s: string): Option<Read<nat>> {
    if |s| < 4 || !IsDigit(s[0]) || !IsDigit(s[1]) || !IsDigit(s[2]) || !IsDigit(s[3]) then None
    else Some(Read(((DigitValue(s[0]) * 10 + DigitValue(s[1])) * 10 + DigitValue(s[2])) * 10 + DigitValue(s[3]), s[4..]))
  }

  function SkipDigits(s: string): string {
    if s != "" && IsDigit(s[0]) then SkipDigits(s[1..]) else s
  }

  /** After the seconds a fraction is read over, though no layout asks for one. */
  function SkipFraction(s: string): string {
    if |s| >= 2 && (s[0] == '.' || s[0] == ',') && IsDigit(s[1]) then SkipDigits(s[2..]) else s
  }

  function SkipSpaces(s: string): string {
    if s != "" && s[0] == ' ' then SkipSpaces(s[1..]) else s
  }

  /** A blank in a layout stands for any number of blanks; another character for itself. */
  function ReadLiteral(c: char, s: string): Option<string> {
    if c == ' ' then (if s != "" && s[0] != ' ' then None else Some(SkipSpaces(s)))
    else if s != "" && s[0] == c then Some(s[1..])
    else None
  }

  function ReadZone(s: string): Option<string> {
    if s != "" && s[0] == 'Z' then Some(s[1..])
    else if |s| < 6 || s[3] != ':' || (s[0] != '+' && s[0] != '-') then None
    else
      var hours, minutes := ReadNumber(s[1..3], true), ReadNumber(s[4..6], true);
      if hours.None? || minutes.None? || hours.value.value > 24 || minutes.value.value > 60 then None
      else Some(s[6..])
  }

  predicate InRange(e: Element, n: nat) {
    match e
    case Month => 1 <= n <= 12
    case Hour => n < 24
    case Minute => n < 60
    case Second => n < 60
    case _ => true
  }

  function WithField(t: Time, e: Element, n: nat): Time {
    match e
    case Year => t.(year := n)
    case Month => t.(month := n)
    case Day => t.(day := n)
    case Hour => t.(hour := n)
    case Minute => t.(minute := n)
    case Second => t.(second := n)
    case _ => t
  }

  function FieldOf(t: Time, e: Element): nat {
    match e
    case Year => t.year
    case Month => t.month
    case Day => t.day
    case Hour => t.hour
    case Minute => t.minute
    case Second => t.second
    case _ => 0
  }

  /** One element read off the front of `s`. Only the hour may have a single digit. */
  function ReadElement(e: Element, s: string, t: Time): Option<Read<Time>> {
    match e
    case Lit(c) => (match ReadLiteral(c, s) case None => None case Some(rest) => Some(Read(t, rest)))
    case Zone => (match ReadZone(s) case None => None case Some(rest) => Some(Read(t, rest)))
    case _ =>
      var number := if e == Year then ReadYear(s) else ReadNumber(s, e != Hour);
      if number.None? || !InRange(e, number.value.value) then None
      else
        var rest := if e == Second then SkipFraction(number.value.rest) else number.value.rest;
        Some(Read(WithField(t, e, number.value.value), rest))
  }

  function ReadLayout(layout: Layout, s: string, t: Time): Option<Time> {
    if layout == [] then (if s == "" then Some(t) else None)
    else
      match ReadElement(layout[0], s, t)
      case None => None
      case Some(read) => ReadLayout(layout[1..], read.rest, read.value)
  }

  predicate LeapYear(y: nat) {
    y % 4 == 0 && (y % 100 != 0 || y % 400 == 0)
  }

  function DaysIn(month: nat, year: nat): nat {
    if month == 2 then (if LeapYear(year) then 29 else 28)
    else if month in {4, 6, 9, 11} then 30
    else 31
  }

  predicate RealDay(t: Time) {
    1 <= t.day <= DaysIn(t.month, t.year)
  }

  /** time.Parse: fields a layout does not have are at their least. */
  function ParseLayout(layout: Layout, s: string): Option<Time> {
    match ReadLayout(layout, s, Time(0, 1, 1, 0, 0, 0))
    case None => None
    case Some(t) => if RealDay(t) then Some(t) else None
  }

  /** The layouts are tried from index `i` on, and the first that fits decides. */
  function ParseFrom(i: nat, s: string): Option<Time>
    requires i <= |LAYOUTS|
    decreases |LAYOUTS| - i
  {
    if i == |LAYOUTS| then None
    else if ParseLayout(LAYOUTS[i], s).Some? then ParseLayout(LAYOUTS[i], s)
    else ParseFrom(i + 1, s)
  }

  function ParseStart(value: string): Option<Time> {
    ParseFrom(0, TrimSpace(value))
  }

  method ParseCatchupStart(value: string) returns (r: Option<Time>)
    ensures r == ParseStart(value)
  {
    var trimmed := TrimSpace(value);
    for i := 0 to |LAYOUTS|
      invariant ParseStart(value) == ParseFrom(i, trimmed)
    {
      var parsed := ParseLayout(LAYOUTS[i], trimmed);
      if parsed.Some? {
        return parsed;
      }
    }
    return None;
  }

  // ---- Reading back what was printed ----

  /** A time of the calendar with a four-digit year. */
  predicate ValidTime(t: Time) {
    t.year <= 9999 && 1 <= t.month <= 12 && RealDay(t) && t.hour < 24 && t.minute < 60 && t.second < 60
  }

  predicate Number(e: Element) {
    !e.Lit? && !e.Zone?
  }

  /** Layouts in which every number ends where the next element starts: a blank is followed by
    * a number, seconds come last, and there is no zone. */
  predicate Definite(layout: Layout) {
    forall i :: 0 <= i < |layout| ==> DefiniteAt(layout, i)
  }

  predicate DefiniteAt(layout: Layout, i: nat)
    requires i < |layout|
  {
    && !layout[i].Zone?
    && (layout[i] == Second ==> i == |layout| - 1)
    && (layout[i] == Lit(' ') ==> i + 1 < |layout| && Number(layout[i + 1]))
  }

  lemma DefiniteTail(layout: Layout)
    requires layout != [] && Definite(layout)
    ensures DefiniteAt(layout, 0) && Definite(layout[1..])
  {
    forall i | 0 <= i < |layout[1..]| ensures DefiniteAt(layout[1..], i) {
      assert DefiniteAt(layout, i + 1);
    }
  }

  /** The fields of `t` that the layout has, the others from `base`. */
  function Merged(layout: Layout, t: Time, base: Time): Time {
    Time(if Year in layout then t.year else base.year,
         if Month in layout then t.month else base.month,
         if Day in layout then t.day else base.day,
         if Hour in layout then t.hour else base.hour,
         if Minute in layout then t.minute else base.minute,
         if Second in layout then t.second else base.second)
  }

  lemma MergedStep(layout: Layout, t: Time, base: Time)
    requires layout != []
    ensures Merged(layout[1..], t, WithField(base, layout[0], FieldOf(t, layout[0]))) == Merged(layout, t, base)
  {
    assert forall e: Element :: e in layout <==> e == layout[0] || e in layout[1..];
  }

  lemma DigitBack(n: nat)
    requires n < 10
    ensures IsDigit(Digit(n)) && DigitValue(Digit(n)) == n
  {
  }

  lemma TwoBack(n: nat, rest: string, fixed: bool)
    requires n < 100
    ensures ReadNumber(TwoDigits(n) + rest, fixed) == Some(Read(n, rest))
  {
    DigitBack(n / 10);
    DigitBack(n % 10);
    assert (TwoDigits(n) + rest)[2..] == rest;
  }

  lemma FourBack(n: nat, rest: string)
    requires n <= 9999
    ensures ReadYear(FourDigits(n) + rest) == Some(Read(n, rest))
  {
    var high, low := n / 100, n % 100;
    var a, b, c, d := high / 10, high % 10, low / 10, low % 10;
    DigitBack(a);
    DigitBack(b);
    DigitBack(c);
    DigitBack(d);
    assert FourDigits(n) == [Digit(a), Digit(b), Digit(c), Digit(d)];
    var s := [Digit(a), Digit(b), Digit(c), Digit(d)] + rest;
    assert s[4..] == rest;
    assert ((a * 10 + b) * 10 + c) * 10 + d == n;
  }

  lemma NumberOpens(e: Element, t: Time)
    requires Number(e)
    ensures PrintElement(e, t) != "" && IsDigit(PrintElement(e, t)[0])
  {
    assert forall n: nat :: IsDigit(Digit(n));
  }

  lemma LiteralBack(c: char, rest: string)
    requires c == ' ' ==> rest != "" && rest[0] != ' '
    ensures ReadLiteral(c, [c] + rest) == Some(rest)
  {
    var s := [c] + rest;
    assert s[1..] == rest;
    assert c == ' ' ==> SkipSpaces(s) == SkipSpaces(rest) == rest;
  }

  /** An element read back from its print, whatever follows: text that does not go on with a
    * fraction after the seconds, or with a blank after a blank. */
  lemma ElementBack(e: Element, t: Time, rest: string, base: Time)
    requires ValidTime(t) && !e.Zone?
    requires e == Second ==> rest == ""
    requires e == Lit(' ') ==> rest != "" && rest[0] != ' '
    ensures ReadElement(e, PrintElement(e, t) + rest, base) == Some(Read(WithField(base, e, FieldOf(t, e)), rest))
  {
    match e
    case Lit(c) => LiteralBack(c, rest);
    case Year => FourBack(t.year, rest);
    case Month => TwoBack(t.month, rest, true);
    case Day => TwoBack(t.day, rest, true);
    case Hour => TwoBack(t.hour, rest, false);
    case Minute => TwoBack(t.minute, rest, true);
    case Second =>
      TwoBack(t.second, rest, true);
      assert SkipFraction("") == "";
  }

  lemma RestFits(layout: Layout, t: Time)
    requires layout != [] && Definite(layout)
    ensures layout[0] == Second ==> Print(layout[1..], t) == ""
    ensures layout[0] == Lit(' ') ==> Print(layout[1..], t) != "" && Print(layout[1..], t)[0] != ' '
  {
    DefiniteTail(layout);
    if layout[0] == Lit(' ') {
      NumberOpens(layout[1], t);
    }
  }

  lemma {:induction false} LayoutBack(layout: Layout, t: Time, base: Time)
    requires ValidTime(t) && Definite(layout)
    ensures ReadLayout(layout, Print(layout, t), base) == Some(Merged(layout, t, base))
  {
    if layout == [] {
    } else {
      RestFits(layout, t);
      DefiniteTail(layout);
      ElementBack(layout[0], t, Print(layout[1..], t), base);
      MergedStep(layout, t, base);
      LayoutBack(layout[1..], t, WithField(base, layout[0], FieldOf(t, layout[0])));
    }
  }

  // ---- Accepted starts are times ----

  predicate FieldsInRange(t: Time) {
    t.year <= 9999 && 1 <= t.month <= 12 && t.hour < 24 && t.minute < 60 && t.second < 60
  }

  lemma {:induction false} ReadFields(layout: Layout, s: string, t: Time)
    requires FieldsInRange(t)
    ensures ReadLayout(layout, s, t).Some? ==> FieldsInRange(ReadLayout(layout, s, t).value)
  {
    if layout != [] && ReadElement(layout[0], s, t).Some? {
      var read := ReadElement(layout[0], s, t).value;
      assert FieldsInRange(read.value);
      ReadFields(layout[1..], read.rest, read.value);
    }
  }

  /** Whatever start is accepted, it is a time of the calendar with a four-digit year. */
  lemma {:induction false} ParsedIsValid(i: nat, s: string)
    requires i <= |LAYOUTS|
    ensures ParseFrom(i, s).Some? ==> ValidTime(ParseFrom(i, s).value)
    decreases |LAYOUTS| - i
  {
    if i < |LAYOUTS| {
      ReadFields(LAYOUTS[i], s, Time(0, 1, 1, 0, 0, 0));
      ParsedIsValid(i + 1, s);
    }
  }

  // ---- Earlier layouts do not capture later prints ----

  /** The layouts agree up to a place where one has a literal that the other's element, a
    * different literal or a number, does not start with. */
  predicate Diverges(a: Layout, b: Layout) {
    a != [] && b != [] &&
    (if a[0] == b[0] then Diverges(a[1..], b[1..])
     else if a[0].Lit? && b[0].Lit? then true
     else if a[0].Lit? then Number(b[0]) && !IsDigit(a[0].c)
     else Number(a[0]) && b[0].Lit? && !IsDigit(b[0].c))
  }

  lemma {:induction false} NotCaptured(a: Layout, b: Layout, t: Time, base: Time)
    requires ValidTime(t) && Definite(b) && Diverges(a, b)
    ensures ReadLayout(a, Print(b, t), base) == None
  {
    var s := Print(b, t);
    if a[0] == b[0] {
      RestFits(b, t);
      DefiniteTail(b);
      ElementBack(b[0], t, Print(b[1..], t), base);
      NotCaptured(a[1..], b[1..], t, WithField(base, b[0], FieldOf(t, b[0])));
    } else if b[0].Lit? {
      assert s[0] == b[0].c;
    } else {
      NumberOpens(b[0], t);
      assert s[0] == PrintElement(b[0], t)[0];
    }
  }

  lemma {:induction false} DivergesAt(a: Layout, b: Layout, k: nat)
    requires k < |a| && k < |b| && a[..k] == b[..k] && a[k] != b[k]
    requires (a[k].Lit? && b[k].Lit?) || (a[k].Lit? && Number(b[k]) && !IsDigit(a[k].c))
             || (b[k].Lit? && Number(a[k]) && !IsDigit(b[k].c))
    ensures Diverges(a, b)
  {
    if k > 0 {
      assert a[0] == a[..k][0] == b[..k][0] == b[0];
      assert a[1..][..k - 1] == a[..k][1..] == b[..k][1..] == b[1..][..k - 1];
      DivergesAt(a[1..], b[1..], k - 1);
    }
  }

  /** A print in one layout, rejected by those before it in the list. */
  lemma ReachedAt(i: nat, t: Time)
    requires i < |LAYOUTS| && ValidTime(t) && Definite(LAYOUTS[i])
    requires forall j :: 0 <= j < i ==> Diverges(LAYOUTS[j], LAYOUTS[i])
    ensures ParseFrom(0, Print(LAYOUTS[i], t)) == ParseFrom(i, Print(LAYOUTS[i], t))
  {
    var s := Print(LAYOUTS[i], t);
    for j := 0 to i
      invariant ParseFrom(0, s) == ParseFrom(j, s)
    {
      NotCaptured(LAYOUTS[j], LAYOUTS[i], t, Time(0, 1, 1, 0, 0, 0));
    }
  }

  // ---- The printed formats ----

  /** The layouts a start is printed in, by their place in the list. */
  predicate Printed(i: nat) {
    i == 0 || i == 1 || i == 2 || i == 3 || i == 5
  }

  /** What the resolution of a layout keeps of a time: hours, minutes or seconds. */
  function Truncated(t: Time, i: nat): Time {
    if i == 2 then t.(minute := 0, second := 0)
    else if i == 3 || i == 5 then t
    else t.(second := 0)
  }

  lemma EarlierDiverge(i: nat, j: nat)
    requires Printed(i) && j < i
    ensures Diverges(LAYOUTS[j], LAYOUTS[i])
  {
    DivergesAt(LAYOUTS[j], LAYOUTS[i], if i == 2 || j == 2 then 1 else if i == 3 && j == 0 then 7 else 5);
  }

  lemma PrintedDefinite(i: nat)
    requires Printed(i)
    ensures Definite(LAYOUTS[i]) && Number(LAYOUTS[i][0]) && Number(LAYOUTS[i][|LAYOUTS[i]| - 1])
  {
  }

  lemma PrintedFields(i: nat, t: Time)
    requires Printed(i)
    ensures Merged(LAYOUTS[i], t, Time(0, 1, 1, 0, 0, 0)) == Truncated(t, i)
  {
    var l := LAYOUTS[i];
    assert Year == l[0];
    if i == 2 {
      assert Month == l[1] && Day == l[2] && Hour == l[4];
    } else {
      assert Month == l[2] && Day == l[4] && Hour == l[6] && Minute == l[8];
      if i == 3 || i == 5 { assert Second == l[10]; }
    }
  }

  lemma {:induction false} PrintEnds(layout: Layout, t: Time)
    requires layout != [] && Number(layout[|layout| - 1])
    ensures Print(layout, t) != "" && IsDigit(Print(layout, t)[|Print(layout, t)| - 1])
  {
    assert forall n: nat :: IsDigit(Digit(n));
    if |layout| > 1 {
      PrintEnds(layout[1..], t);
    } else {
      assert Print(layout[1..], t) == "";
    }
  }

  lemma PrintTrimmed(i: nat, t: Time)
    requires Printed(i)
    ensures TrimSpace(Print(LAYOUTS[i], t)) == Print(LAYOUTS[i], t)
  {
    PrintedDefinite(i);
    NumberOpens(LAYOUTS[i][0], t);
    PrintEnds(LAYOUTS[i], t);
  }

  /** Round trip: a start printed in any of the five formats is read back as the time it was
    * printed from, truncated to the format's resolution. No earlier layout takes it for
    * something else. */
  lemma StartRoundTrip(i: nat, t: Time)
    requires Printed(i) && ValidTime(t)
    ensures ParseStart(Print(LAYOUTS[i], t)) == Some(Truncated(t, i))
  {
    PrintTrimmed(i, t);
    PrintedDefinite(i);
    forall j | 0 <= j < i ensures Diverges(LAYOUTS[j], LAYOUTS[i]) {
      EarlierDiverge(i, j);
    }
    ReachedAt(i, t);
    LayoutBack(LAYOUTS[i], t, Time(0, 1, 1, 0, 0, 0));
    PrintedFields(i, t);
  }
}
