/** What the texts of catch-up starts mean (internal/proxy/catchup.go, 194-229), written out digit by
  * digit: which time each of the eight accepted spellings is read as, and what each format prints. */
module CatchupTexts {

  import opened Prelude
  import opened XtreamUrls
  import opened CatchupTime
  import opened CatchupCandidates

  // ---- Digits ----

  function D(n: nat): char
    requires n < 10
  {
    ('0' as int + n) as char
  }

  function Two(n: nat): string
    requires n < 100
  {
    [D(n / 10), D(n % 10)]
  }

  function Four(n: nat): string
    requires n < 10000
  {
    [D(n / 1000), D(n / 100 % 10), D(n / 10 % 10), D(n % 10)]
  }

  /** `2006-01-02` */
  function Dashed(t: Time): string
    requires ValidTime(t)
  {
    Four(t.year) + "-" + Two(t.month) + "-" + Two(t.day)
  }

  /** `15:04` with another separator, `x`. */
  function HourMinute(t: Time, x: string): string
    requires ValidTime(t)
  {
    Two(t.hour) + x + Two(t.minute)
  }

  /** `15:04:05` */
  function Clock(t: Time): string
    requires ValidTime(t)
  {
    Two(t.hour) + ":" + Two(t.minute) + ":" + Two(t.second)
  }

  lemma DigitIs(n: nat)
    ensures Digit(n) == D(n % 10)
  {
    var d := n % 10;
    assert d == 0 || d == 1 || d == 2 || d == 3 || d == 4 || d == 5 || d == 6 || d == 7 || d == 8 || d == 9;
  }

  lemma TwoIs(n: nat)
    requires n < 100
    ensures TwoDigits(n) == Two(n)
  {
    DigitIs(n / 10);
    DigitIs(n);
  }

  lemma FourIs(n: nat)
    requires n < 10000
    ensures FourDigits(n) == Four(n)
  {
    var high, low := n / 100, n % 100;
    TwoIs(high);
    TwoIs(low);
    Halves(n);
    assert FourDigits(n) == Two(high) + Two(low);
  }

  lemma Halves(n: nat)
    requires n < 10000
    ensures n / 100 / 10 == n / 1000
    ensures n % 100 / 10 == n / 10 % 10 && n % 100 % 10 == n % 10
  {
  }

  lemma NumbersAre(t: Time)
    requires ValidTime(t)
    ensures PrintElement(Year, t) == Four(t.year) && PrintElement(Month, t) == Two(t.month)
    ensures PrintElement(Day, t) == Two(t.day) && PrintElement(Hour, t) == Two(t.hour)
    ensures PrintElement(Minute, t) == Two(t.minute) && PrintElement(Second, t) == Two(t.second)
  {
    FourIs(t.year);
    TwoIs(t.month);
    TwoIs(t.day);
    TwoIs(t.hour);
    TwoIs(t.minute);
    TwoIs(t.second);
  }

  // ---- What the layouts print ----

  lemma PrintOne(e: Element, t: Time)
    ensures Print([e], t) == PrintElement(e, t)
  {
    assert [e][1..] == [];
  }

  lemma PrintCons(e: Element, rest: Layout, t: Time)
    ensures Print([e] + rest, t) == PrintElement(e, t) + Print(rest, t)
  {
    assert ([e] + rest)[1..] == rest;
  }

  lemma {:induction false} PrintAppend(a: Layout, b: Layout, t: Time)
    ensures Print(a + b, t) == Print(a, t) + Print(b, t)
  {
    if a == [] {
      assert a + b == b;
    } else {
      var e, tail := a[0], a[1..];
      assert a == [e] + tail && a + b == [e] + (tail + b);
      PrintCons(e, tail, t);
      PrintCons(e, tail + b, t);
      PrintAppend(tail, b, t);
      Grouped(PrintElement(e, t), Print(tail, t), Print(b, t));
    }
  }

  lemma Grouped(a: string, b: string, c: string)
    ensures a + (b + c) == (a + b) + c
  {
  }

  lemma PrintPair(a: Element, b: Element, t: Time)
    ensures Print([a, b], t) == PrintElement(a, t) + PrintElement(b, t)
  {
    PrintOne(a, t);
    PrintOne(b, t);
    PrintAppend([a], [b], t);
    assert [a, b] == [a] + [b];
  }

  const DATE: Layout := [Year, Lit('-'), Month, Lit('-'), Day]

  lemma PrintDate(t: Time)
    requires ValidTime(t)
    ensures Print(DATE, t) == Dashed(t)
  {
    NumbersAre(t);
    PrintPair(Year, Lit('-'), t);
    PrintPair(Month, Lit('-'), t);
    PrintOne(Day, t);
    PrintAppend([Month, Lit('-')], [Day], t);
    PrintAppend([Year, Lit('-')], [Month, Lit('-')] + [Day], t);
    assert DATE == [Year, Lit('-')] + ([Month, Lit('-')] + [Day]);
    assert Dashed(t) == (Four(t.year) + "-") + ((Two(t.month) + "-") + Two(t.day));
  }

  /** A dashed date, a separator, and hours and minutes around another. */
  lemma PrintMinutes(t: Time, x: char, y: char)
    requires ValidTime(t)
    ensures Print(DATE + [Lit(x), Hour, Lit(y), Minute], t) == Dashed(t) + [x] + HourMinute(t, [y])
  {
    NumbersAre(t);
    PrintDate(t);
    PrintPair(Lit(x), Hour, t);
    PrintPair(Lit(y), Minute, t);
    PrintAppend([Lit(x), Hour], [Lit(y), Minute], t);
    PrintAppend(DATE, [Lit(x), Hour, Lit(y), Minute], t);
    assert [Lit(x), Hour, Lit(y), Minute] == [Lit(x), Hour] + [Lit(y), Minute];
    assert Dashed(t) + (([x] + Two(t.hour)) + ([y] + Two(t.minute))) == Dashed(t) + [x] + HourMinute(t, [y]);
  }

  lemma PrintSeconds(t: Time, x: char)
    requires ValidTime(t)
    ensures Print(DATE + [Lit(x), Hour, Lit(':'), Minute, Lit(':'), Second], t) == Dashed(t) + [x] + Clock(t)
  {
    NumbersAre(t);
    PrintMinutes(t, x, ':');
    PrintPair(Lit(':'), Second, t);
    var minutes: Layout := DATE + [Lit(x), Hour, Lit(':'), Minute];
    PrintAppend(minutes, [Lit(':'), Second], t);
    assert DATE + [Lit(x), Hour, Lit(':'), Minute, Lit(':'), Second] == minutes + [Lit(':'), Second];
    assert Dashed(t) + [x] + HourMinute(t, ":") + (":" + Two(t.second)) == Dashed(t) + [x] + Clock(t);
  }

  lemma PrintCompact(t: Time)
    requires ValidTime(t)
    ensures Print(COMPACT_HOUR, t) == Four(t.year) + Two(t.month) + Two(t.day) + "-" + Two(t.hour)
  {
    NumbersAre(t);
    PrintPair(Year, Month, t);
    PrintPair(Day, Lit('-'), t);
    PrintOne(Hour, t);
    PrintAppend([Day, Lit('-')], [Hour], t);
    PrintAppend([Year, Month], [Day, Lit('-')] + [Hour], t);
    assert COMPACT_HOUR == [Year, Month] + ([Day, Lit('-')] + [Hour]);
  }

  /** The texts of the three layouts with minutes. */
  lemma MinuteTexts(t: Time)
    requires ValidTime(t)
    ensures Print(COLON_DASH, t) == Dashed(t) + ":" + HourMinute(t, "-")
    ensures Print(UNDERSCORE, t) == Dashed(t) + "_" + HourMinute(t, "-")
    ensures Print(COLON_MINUTES, t) == Dashed(t) + ":" + HourMinute(t, ":")
  {
    PrintMinutes(t, ':', '-');
    PrintMinutes(t, '_', '-');
    PrintMinutes(t, ':', ':');
    assert COLON_DASH == DATE + [Lit(':'), Hour, Lit('-'), Minute];
    assert UNDERSCORE == DATE + [Lit('_'), Hour, Lit('-'), Minute];
    assert COLON_MINUTES == DATE + [Lit(':'), Hour, Lit(':'), Minute];
  }

  /** The texts of the three layouts with seconds and no zone. */
  lemma SecondTexts(t: Time)
    requires ValidTime(t)
    ensures Print(COLON_SECONDS, t) == Dashed(t) + ":" + Clock(t)
    ensures Print(SQL, t) == Dashed(t) + " " + Clock(t)
    ensures Print(ISO, t) == Dashed(t) + "T" + Clock(t)
  {
    PrintSeconds(t, ':');
    PrintSeconds(t, ' ');
    PrintSeconds(t, 'T');
    assert COLON_SECONDS == DATE + [Lit(':'), Hour, Lit(':'), Minute, Lit(':'), Second];
    assert SQL == DATE + [Lit(' '), Hour, Lit(':'), Minute, Lit(':'), Second];
    assert ISO == DATE + [Lit('T'), Hour, Lit(':'), Minute, Lit(':'), Second];
  }

  // ---- Reading on behind a printed beginning ----

  /** What follows does not go on with a fraction. */
  predicate NoFraction(rest: string) {
    rest == "" || (rest[0] != '.' && rest[0] != ',')
  }

  lemma ElementThrough(e: Element, t: Time, rest: string, base: Time)
    requires ValidTime(t) && !e.Zone? && NoFraction(rest)
    requires e == Lit(' ') ==> rest != "" && rest[0] != ' '
    ensures ReadElement(e, PrintElement(e, t) + rest, base) == Some(Read(WithField(base, e, FieldOf(t, e)), rest))
  {
    if e == Second {
      TwoBack(t.second, rest, true);
    } else {
      ElementBack(e, t, rest, base);
    }
  }

  /** Printed elements that start with no fraction sign. */
  predicate Fractionless(layout: Layout) {
    forall i :: 0 <= i < |layout| ==> layout[i] != Lit('.') && layout[i] != Lit(',')
  }

  lemma PrintStarts(layout: Layout, t: Time, rest: string)
    requires layout != [] && Definite(layout) && Fractionless(layout)
    ensures Print(layout, t) + rest != "" && NoFraction(Print(layout, t) + rest)
    ensures Number(layout[0]) ==> (Print(layout, t) + rest)[0] != ' '
  {
    assert DefiniteAt(layout, 0);
    if Number(layout[0]) { NumberOpens(layout[0], t); }
  }

  /** A printed beginning is read, and the rest of the layout goes on where it ends. */
  lemma {:induction false} ReadThrough(layout: Layout, more: Layout, t: Time, rest: string, base: Time)
    requires ValidTime(t) && Definite(layout) && Fractionless(layout) && NoFraction(rest)
    ensures ReadLayout(layout + more, Print(layout, t) + rest, base) == ReadLayout(more, rest, Merged(layout, t, base))
  {
    if layout == [] {
      assert layout + more == more && "" + rest == rest;
    } else {
      var e, tail := layout[0], layout[1..];
      var after := Print(tail, t) + rest;
      DefiniteTail(layout);
      assert Print(layout, t) + rest == PrintElement(e, t) + after;
      assert (layout + more)[1..] == tail + more && (layout + more)[0] == e;
      if tail == [] {
        assert after == rest;
      } else {
        assert Fractionless(tail) by { assert forall i :: 0 <= i < |tail| ==> tail[i] == layout[i + 1]; }
        PrintStarts(tail, t, rest);
      }
      ElementThrough(e, t, after, base);
      MergedStep(layout, t, base);
      assert Fractionless(tail) by { assert forall i :: 0 <= i < |tail| ==> tail[i] == layout[i + 1]; }
      ReadThrough(tail, more, t, rest, WithField(base, e, FieldOf(t, e)));
    }
  }

  // ---- What the accepted texts mean ----

  /** The lengths of the twelve months. */
  lemma MonthLengths(year: nat)
    ensures
      var february := if year % 400 == 0 || (year % 4 == 0 && year % 100 != 0) then 29 else 28;
      [DaysIn(1, year), DaysIn(2, year), DaysIn(3, year), DaysIn(4, year), DaysIn(5, year), DaysIn(6, year),
       DaysIn(7, year), DaysIn(8, year), DaysIn(9, year), DaysIn(10, year), DaysIn(11, year), DaysIn(12, year)]
      == [31, february, 31, 30, 31, 30, 31, 31, 30, 31, 30, 31]
  {
  }

  const LEAST: Time := Time(0, 1, 1, 0, 0, 0)

  /** Text that starts and ends with something else than a blank is read as it is. */
  lemma Untrimmed(s: string)
    requires s != "" && !IsSpace(s[0]) && !IsSpace(s[|s| - 1])
    ensures TrimSpace(s) == s
  {
  }

  lemma {:induction false} PrintedMeaning(i: nat, t: Time, text: string)
    requires Printed(i) && ValidTime(t) && text == Print(LAYOUTS[i], t)
    ensures ParseStart(text) == Some(Truncated(t, i))
  {
    StartRoundTrip(i, t);
  }

  lemma DigitNoSpace(n: nat)
    requires n < 10
    ensures !IsSpace(D(n)) && IsDigit(D(n))
  {
  }

  lemma FourDate(t: Time, rest: string)
    requires ValidTime(t) && rest != "" && !IsSpace(rest[|rest| - 1])
    ensures TrimSpace(Dashed(t) + rest) == Dashed(t) + rest
  {
    var s := Dashed(t) + rest;
    DigitNoSpace(t.year / 1000);
    assert s[0] == D(t.year / 1000) && s[|s| - 1] == rest[|rest| - 1];
    Untrimmed(s);
  }

  lemma MinutesDefinite()
    ensures Definite(COLON_MINUTES) && Fractionless(COLON_MINUTES) && Definite(ISO) && Fractionless(ISO)
    ensures Definite([Year]) && Fractionless([Year]) && Definite(DATE) && Fractionless(DATE)
  {
  }

  /** A layout that goes on with a colon does not read a text that has ended. */
  lemma {:induction false} GoesOn(t: Time)
    requires ValidTime(t)
    ensures ReadLayout(COLON_SECONDS, Print(COLON_MINUTES, t), LEAST) == None
  {
    var s := Print(COLON_MINUTES, t);
    MinutesDefinite();
    ReadThrough(COLON_MINUTES, [Lit(':'), Second], t, "", LEAST);
    assert COLON_SECONDS == COLON_MINUTES + [Lit(':'), Second] && s + "" == s;
  }

  /** A layout that diverges at element `n` does not read it either. */
  lemma {:induction false} NotMinutes(a: Layout, n: nat, t: Time)
    requires ValidTime(t) && n < |a| && n < |COLON_MINUTES| && a[..n] == COLON_MINUTES[..n] && a[n] != COLON_MINUTES[n]
    requires var b := COLON_MINUTES[n];
             (a[n].Lit? && b.Lit?) || (a[n].Lit? && Number(b) && !IsDigit(a[n].c)) || (b.Lit? && Number(a[n]) && !IsDigit(b.c))
    ensures ReadLayout(a, Print(COLON_MINUTES, t), LEAST) == None
  {
    DivergesAt(a, COLON_MINUTES, n);
    assert Definite(COLON_MINUTES) by { MinutesDefinite(); }
    NotCaptured(a, COLON_MINUTES, t, LEAST);
  }

  lemma {:induction false} MinutesCapturedByNone(t: Time)
    requires ValidTime(t)
    ensures forall i :: 0 <= i < 4 ==> ReadLayout(LAYOUTS[i], Print(COLON_MINUTES, t), LEAST) == None
  {
    NotMinutes(COLON_DASH, 7, t);
    NotMinutes(UNDERSCORE, 5, t);
    NotMinutes(COMPACT_HOUR, 1, t);
    GoesOn(t);
    assert LAYOUTS[0] == COLON_DASH && LAYOUTS[1] == UNDERSCORE && LAYOUTS[2] == COMPACT_HOUR && LAYOUTS[3] == COLON_SECONDS;
  }

  /** Layouts before `i` that do not read the text leave it to layout `i`. */
  lemma {:induction false} LeftTo(s: string, i: nat)
    requires i < |LAYOUTS| && forall j :: 0 <= j < i ==> ReadLayout(LAYOUTS[j], s, LEAST) == None
    ensures ParseFrom(0, s) == ParseFrom(i, s)
  {
    for j := 0 to i
      invariant ParseFrom(0, s) == ParseFrom(j, s)
    {
    }
  }

  lemma MinutesMerged(t: Time)
    ensures Merged(COLON_MINUTES, t, LEAST) == t.(second := 0)
  {
    assert COLON_MINUTES[0] == Year && COLON_MINUTES[2] == Month && COLON_MINUTES[4] == Day
        && COLON_MINUTES[6] == Hour && COLON_MINUTES[8] == Minute;
  }

  /** The text that layout `i` is the first to read. */
  lemma {:induction false} ReadBy(s: string, i: nat, t: Time)
    requires i < |LAYOUTS| && forall j :: 0 <= j < i ==> ReadLayout(LAYOUTS[j], s, LEAST) == None
    requires ReadLayout(LAYOUTS[i], s, LEAST) == Some(t) && RealDay(t)
    ensures ParseFrom(0, s) == Some(t)
  {
    LeftTo(s, i);
  }

  lemma {:induction false} MinutesMeaning(t: Time)
    requires ValidTime(t)
    ensures ParseFrom(0, Print(COLON_MINUTES, t)) == Some(t.(second := 0))
  {
    MinutesCapturedByNone(t);
    assert Definite(COLON_MINUTES) by { MinutesDefinite(); }
    LayoutBack(COLON_MINUTES, t, LEAST);
    MinutesMerged(t);
    ReadBy(Print(COLON_MINUTES, t), 4, t.(second := 0));
  }

  lemma IsoMerged(t: Time)
    ensures Merged(ISO, t, LEAST) == t
  {
    assert ISO[0] == Year && ISO[2] == Month && ISO[4] == Day && ISO[6] == Hour && ISO[8] == Minute && ISO[10] == Second;
  }

  /** The part of the ISO layout behind the date. */
  const ISO_TIME: Layout := [Lit('T'), Hour, Lit(':'), Minute, Lit(':'), Second]

  lemma IsoRest(t: Time, zone: string)
    requires ValidTime(t)
    ensures Print(ISO, t) + zone == Print(DATE, t) + (Print(ISO_TIME, t) + zone)
    ensures Print(ISO, t) + zone == Print([Year], t) + (Print(ISO[1..], t) + zone)
    ensures Print(ISO_TIME, t) != "" && Print(ISO_TIME, t)[0] == 'T'
    ensures Print(ISO[1..], t) != "" && Print(ISO[1..], t)[0] == '-'
  {
    assert ISO == DATE + ISO_TIME && ISO == [Year] + ISO[1..];
    PrintAppend(DATE, ISO_TIME, t);
    PrintAppend([Year], ISO[1..], t);
    Grouped(Print(DATE, t), Print(ISO_TIME, t), zone);
    Grouped(Print([Year], t), Print(ISO[1..], t), zone);
  }

  /** A layout with another character between date and time does not read the text. */
  lemma {:induction false} OtherSeparator(a: Layout, c: char, more: Layout, t: Time, zone: string)
    requires ValidTime(t) && a == DATE + ([Lit(c)] + more) && c != 'T'
    ensures ReadLayout(a, Print(ISO, t) + zone, LEAST) == None
  {
    var rest := Print(ISO_TIME, t) + zone;
    MinutesDefinite();
    IsoRest(t, zone);
    ReadThrough(DATE, [Lit(c)] + more, t, rest, LEAST);
    assert rest[0] == 'T';
  }

  lemma {:induction false} NotCompact(t: Time, zone: string)
    requires ValidTime(t)
    ensures ReadLayout(COMPACT_HOUR, Print(ISO, t) + zone, LEAST) == None
  {
    var rest := Print(ISO[1..], t) + zone;
    MinutesDefinite();
    IsoRest(t, zone);
    ReadThrough([Year], COMPACT_HOUR[1..], t, rest, LEAST);
    assert COMPACT_HOUR == [Year] + COMPACT_HOUR[1..] && COMPACT_HOUR[1..][0] == Month && rest[0] == '-';
  }

  lemma {:induction false} BeforeIso(t: Time, zone: string)
    requires ValidTime(t)
    ensures forall i :: 0 <= i < 6 ==> ReadLayout(LAYOUTS[i], Print(ISO, t) + zone, LEAST) == None
  {
    OtherSeparator(COLON_DASH, ':', [Hour, Lit('-'), Minute], t, zone);
    OtherSeparator(UNDERSCORE, '_', [Hour, Lit('-'), Minute], t, zone);
    NotCompact(t, zone);
    OtherSeparator(COLON_SECONDS, ':', [Hour, Lit(':'), Minute, Lit(':'), Second], t, zone);
    OtherSeparator(COLON_MINUTES, ':', [Hour, Lit(':'), Minute], t, zone);
    OtherSeparator(SQL, ' ', [Hour, Lit(':'), Minute, Lit(':'), Second], t, zone);
  }

  lemma {:induction false} IsoMeaning(t: Time)
    requires ValidTime(t)
    ensures ParseFrom(0, Print(ISO, t)) == Some(t)
  {
    BeforeIso(t, "");
    assert Print(ISO, t) + "" == Print(ISO, t);
    LeftTo(Print(ISO, t), 6);
    MinutesDefinite();
    LayoutBack(ISO, t, LEAST);
    IsoMerged(t);
  }

  /** `Z`, or hours and minutes east or west. */
  ghost predicate ZoneText(zone: string) {
    || zone == "Z"
    || exists sign, hours: nat, minutes: nat ::
         (sign == '+' || sign == '-') && hours <= 24 && minutes <= 60
         && zone == [sign] + Two(hours) + ":" + Two(minutes)
  }

  lemma OffsetReads(sign: char, hours: nat, minutes: nat)
    requires (sign == '+' || sign == '-') && hours <= 24 && minutes <= 60
    ensures var zone := [sign] + Two(hours) + ":" + Two(minutes);
            && |zone| == 6 && zone[0] == sign && zone[5] == D(minutes % 10)
            && ReadZone(zone) == Some("")
  {
    var zone := [sign] + Two(hours) + ":" + Two(minutes);
    TwoIs(hours);
    TwoIs(minutes);
    TwoBack(hours, "", true);
    TwoBack(minutes, "", true);
    assert TwoDigits(hours) + "" == Two(hours) && TwoDigits(minutes) + "" == Two(minutes);
    assert zone[1..3] == Two(hours) && zone[4..6] == Two(minutes) && zone[6..] == "" && zone[3] == ':';
  }

  lemma ZoneReads(zone: string)
    requires ZoneText(zone)
    ensures ReadZone(zone) == Some("") && zone != "" && NoFraction(zone) && !IsSpace(zone[|zone| - 1])
  {
    if zone != "Z" {
      var sign, hours: nat, minutes: nat :|
        (sign == '+' || sign == '-') && hours <= 24 && minutes <= 60 && zone == [sign] + Two(hours) + ":" + Two(minutes);
      OffsetReads(sign, hours, minutes);
      DigitNoSpace(minutes % 10);
    } else {
      assert zone[1..] == "";
    }
  }

  /** The ISO layout stops where the zone begins, and the last one reads it. */
  lemma {:induction false} ZoneIsRead(t: Time, zone: string)
    requires ValidTime(t) && zone != "" && NoFraction(zone) && ReadZone(zone) == Some("")
    ensures ReadLayout(ISO, Print(ISO, t) + zone, LEAST) == None
    ensures ReadLayout(RFC3339, Print(ISO, t) + zone, LEAST) == Some(t)
  {
    MinutesDefinite();
    IsoMerged(t);
    ReadThrough(ISO, [], t, zone, LEAST);
    ReadThrough(ISO, [Zone], t, zone, LEAST);
    assert ISO + [] == ISO && RFC3339 == ISO + [Zone] && [Zone][1..] == [];
  }

  lemma {:induction false} ZonedMeaning(t: Time, zone: string)
    requires ValidTime(t) && ZoneText(zone)
    ensures ParseFrom(0, Print(ISO, t) + zone) == Some(t)
  {
    ZoneReads(zone);
    BeforeIso(t, zone);
    ZoneIsRead(t, zone);
    ReadBy(Print(ISO, t) + zone, 7, t);
  }

  /**
   What every accepted spelling of a start means, for all dates and times of day: the fields are the
   ones written, and those not written are zero. A zone is read over.
   */
  lemma {:induction false} StartMeans(t: Time, zone: string)
    requires ValidTime(t) && ZoneText(zone)
    ensures ParseStart(Dashed(t) + ":" + HourMinute(t, "-")) == Some(t.(second := 0))
    ensures ParseStart(Dashed(t) + "_" + HourMinute(t, "-")) == Some(t.(second := 0))
    ensures ParseStart(Four(t.year) + Two(t.month) + Two(t.day) + "-" + Two(t.hour)) == Some(t.(minute := 0, second := 0))
    ensures ParseStart(Dashed(t) + ":" + Clock(t)) == Some(t)
    ensures ParseStart(Dashed(t) + ":" + HourMinute(t, ":")) == Some(t.(second := 0))
    ensures ParseStart(Dashed(t) + " " + Clock(t)) == Some(t)
    ensures ParseStart(Dashed(t) + "T" + Clock(t)) == Some(t)
    ensures ParseStart(Dashed(t) + "T" + Clock(t) + zone) == Some(t)
  {
    PrintedMeans(t);
    OthersMean(t, zone);
  }

  lemma {:induction false} PrintedMeans(t: Time)
    requires ValidTime(t)
    ensures ParseStart(Dashed(t) + ":" + HourMinute(t, "-")) == Some(t.(second := 0))
    ensures ParseStart(Dashed(t) + "_" + HourMinute(t, "-")) == Some(t.(second := 0))
    ensures ParseStart(Four(t.year) + Two(t.month) + Two(t.day) + "-" + Two(t.hour)) == Some(t.(minute := 0, second := 0))
    ensures ParseStart(Dashed(t) + ":" + Clock(t)) == Some(t)
    ensures ParseStart(Dashed(t) + " " + Clock(t)) == Some(t)
  {
    MinuteTexts(t);
    SecondTexts(t);
    PrintCompact(t);
    PrintedMeaning(0, t, Print(COLON_DASH, t));
    PrintedMeaning(1, t, Print(UNDERSCORE, t));
    PrintedMeaning(2, t, Print(COMPACT_HOUR, t));
    PrintedMeaning(3, t, Print(COLON_SECONDS, t));
    PrintedMeaning(5, t, Print(SQL, t));
  }

  lemma {:induction false} OthersMean(t: Time, zone: string)
    requires ValidTime(t) && ZoneText(zone)
    ensures ParseStart(Dashed(t) + ":" + HourMinute(t, ":")) == Some(t.(second := 0))
    ensures ParseStart(Dashed(t) + "T" + Clock(t)) == Some(t)
    ensures ParseStart(Dashed(t) + "T" + Clock(t) + zone) == Some(t)
  {
    MinuteTexts(t);
    SecondTexts(t);
    MinutesMeaning(t);
    IsoMeaning(t);
    ZonedMeaning(t, zone);
    ZoneReads(zone);
    TimeEnds(t);
    FourDate(t, ":" + HourMinute(t, ":"));
    FourDate(t, "T" + Clock(t));
    FourDate(t, "T" + Clock(t) + zone);
    Grouped(Dashed(t), ":", HourMinute(t, ":"));
    Grouped(Dashed(t), "T", Clock(t));
    Grouped(Dashed(t), "T" + Clock(t), zone);
  }

  lemma TimeEnds(t: Time)
    requires ValidTime(t)
    ensures var s := ":" + HourMinute(t, ":"); !IsSpace(s[|s| - 1])
    ensures var s := "T" + Clock(t); !IsSpace(s[|s| - 1])
  {
    DigitNoSpace(t.minute % 10);
    DigitNoSpace(t.second % 10);
    var m, c := ":" + HourMinute(t, ":"), "T" + Clock(t);
    assert m[|m| - 1] == D(t.minute % 10);
    assert c[|c| - 1] == D(t.second % 10);
  }

  // ---- What the formats print ----

  lemma {:induction false} FormatPrints(d: Descriptor, f: Format, t: Time)
    requires ParseStart(d.start) == Some(t) && LayoutIndex(f).Some?
    ensures StartFor(d, f) == Some(Print(LAYOUTS[LayoutIndex(f).value], t))
  {
  }

  /** The text that each of the nine formats writes for a start that is read as `t`. */
  lemma {:induction false} FormatTexts(d: Descriptor, t: Time)
    requires ParseStart(d.start) == Some(t) && ValidTime(t)
    ensures StartFor(d, PathColonDash) == Some(Dashed(t) + ":" + HourMinute(t, "-")) == StartFor(d, QueryColonDash)
    ensures StartFor(d, PathUnderscore) == Some(Dashed(t) + "_" + HourMinute(t, "-")) == StartFor(d, QueryUnderscore)
    ensures StartFor(d, PathCompactHour) == Some(Four(t.year) + Two(t.month) + Two(t.day) + "-" + Two(t.hour))
         == StartFor(d, QueryCompactHour)
    ensures StartFor(d, PathColonSeconds) == Some(Dashed(t) + ":" + Clock(t)) == StartFor(d, QueryColonSeconds)
    ensures StartFor(d, QuerySql) == Some(Dashed(t) + " " + Clock(t))
  {
    MinuteFormats(d, t);
    CompactFormats(d, t);
    SecondFormats(d, t);
    SqlFormat(d, t);
  }

  lemma {:induction false} MinuteFormats(d: Descriptor, t: Time)
    requires ParseStart(d.start) == Some(t) && ValidTime(t)
    ensures StartFor(d, PathColonDash) == Some(Dashed(t) + ":" + HourMinute(t, "-")) == StartFor(d, QueryColonDash)
    ensures StartFor(d, PathUnderscore) == Some(Dashed(t) + "_" + HourMinute(t, "-")) == StartFor(d, QueryUnderscore)
  {
    MinuteTexts(t);
    FormatPrints(d, PathColonDash, t);
    FormatPrints(d, QueryColonDash, t);
    FormatPrints(d, PathUnderscore, t);
    FormatPrints(d, QueryUnderscore, t);
  }

  lemma {:induction false} CompactFormats(d: Descriptor, t: Time)
    requires ParseStart(d.start) == Some(t) && ValidTime(t)
    ensures StartFor(d, PathCompactHour) == Some(Four(t.year) + Two(t.month) + Two(t.day) + "-" + Two(t.hour))
         == StartFor(d, QueryCompactHour)
  {
    PrintCompact(t);
    FormatPrints(d, PathCompactHour, t);
    FormatPrints(d, QueryCompactHour, t);
  }

  lemma {:induction false} SqlFormat(d: Descriptor, t: Time)
    requires ParseStart(d.start) == Some(t) && ValidTime(t)
    ensures StartFor(d, QuerySql) == Some(Dashed(t) + " " + Clock(t))
  {
    SecondTexts(t);
    FormatPrints(d, QuerySql, t);
  }

  lemma {:induction false} SecondFormats(d: Descriptor, t: Time)
    requires ParseStart(d.start) == Some(t) && ValidTime(t)
    ensures StartFor(d, PathColonSeconds) == Some(Dashed(t) + ":" + Clock(t)) == StartFor(d, QueryColonSeconds)
  {
    SecondTexts(t);
    FormatPrints(d, PathColonSeconds, t);
    FormatPrints(d, QueryColonSeconds, t);
  }
}
