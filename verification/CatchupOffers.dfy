/** What a catch-up request is tried with and answered with, spelled out: the formats in their order,
  * the format taken for the client's own URL, and which failure is reported. */
module CatchupOffers {

  import opened Prelude
  import opened Text
  import opened XtreamUrls
  import opened CatchupTime
  import opened CatchupCandidates
  import opened CatchupTexts
  import opened CatchupProbe
  import opened CatchupServe

  // ---- The formats, in order ----

  const NINE: seq<Format> :=
    [PathColonDash, PathUnderscore, PathCompactHour, PathColonSeconds,
     QueryUnderscore, QuerySql, QueryColonDash, QueryCompactHour, QueryColonSeconds]

  lemma {:induction false} BuildsAll(d: Descriptor)
    ensures ParseStart(d.start).Some? ==> forall f :: f in NINE ==> Build(d, f).Some?
    ensures ParseStart(d.start).None? ==> forall f :: f in NINE ==> Build(d, f).None?
  {
  }

  lemma {:induction false} BuildableAll(build: Builder, formats: seq<Format>)
    requires forall f :: f in formats ==> build(f).Some?
    ensures |Buildable(build, formats)| == |formats|
    ensures forall i :: 0 <= i < |formats| ==>
      Buildable(build, formats)[i] == Candidate(build(formats[i]).value, formats[i])
  {
    if formats != [] { BuildableAll(build, formats[1..]); }
  }

  lemma {:induction false} BuildableNone(build: Builder, formats: seq<Format>)
    requires forall f :: f in formats ==> build(f).None?
    ensures Buildable(build, formats) == []
  {
    if formats != [] { BuildableNone(build, formats[1..]); }
  }

  /** What the formats build, one after the other. */
  function Made(build: Builder, formats: seq<Format>): seq<Candidate>
    requires forall f :: f in formats ==> build(f).Some?
  {
    seq(|formats|, i requires 0 <= i < |formats| => Candidate(build(formats[i]).value, formats[i]))
  }

  lemma {:induction false} BuiltInOrder(u: Url, own: Format, build: Builder, formats: seq<Format>)
    requires formats == STANDARD && forall f :: f in formats ==> build(f).Some?
    ensures Offered(u, own, build, None) == [Candidate(u, own)] + Made(build, formats)
  {
    OfferedThen(u, own, build);
    BuildableAll(build, formats);
    assert Buildable(build, formats) == Made(build, formats);
  }

  lemma {:induction false} NoneBuilt(u: Url, own: Format, build: Builder, formats: seq<Format>)
    requires formats == STANDARD && forall f :: f in formats ==> build(f).None?
    ensures Offered(u, own, build, None) == [Candidate(u, own)]
  {
    OfferedThen(u, own, build);
    BuildableNone(build, formats);
    assert [Candidate(u, own)] + [] == [Candidate(u, own)];
  }

  lemma {:induction false} BuilderBuilds(d: Descriptor, formats: seq<Format>)
    requires formats == NINE
    ensures ParseStart(d.start).Some? ==> forall f :: f in formats ==> BuilderOf(d)(f).Some?
    ensures ParseStart(d.start).None? ==> forall f :: f in formats ==> BuilderOf(d)(f).None?
  {
    BuildsAll(d);
  }

  lemma StandardIsNine()
    ensures STANDARD == NINE
  {
  }

  /** With a start that is understood, the nine formats are offered in their order behind the client's
    * own URL; with any other start none of them is. */
  lemma {:induction false} NineInOrder(d: Descriptor, u: Url, own: Format, formats: seq<Format>)
    requires formats == NINE
    ensures ParseStart(d.start).Some? ==>
      && (forall f :: f in formats ==> BuilderOf(d)(f).Some?)
      && Offered(u, own, BuilderOf(d), None) == [Candidate(u, own)] + Made(BuilderOf(d), formats)
    ensures ParseStart(d.start).None? ==> Offered(u, own, BuilderOf(d), None) == [Candidate(u, own)]
  {
    StandardIsNine();
    BuilderBuilds(d, formats);
    if ParseStart(d.start).Some? {
      BuiltInOrder(u, own, BuilderOf(d), formats);
    } else {
      NoneBuilt(u, own, BuilderOf(d), formats);
    }
  }

  lemma {:induction false} OfferedThen(u: Url, own: Format, build: Builder)
    ensures Offered(u, own, build, None) == [Candidate(u, own)] + Buildable(build, STANDARD)
  {
  }

  /** A preferred format that can be built comes first, and nothing else changes. */
  lemma {:induction false} PreferredFirst(u: Url, own: Format, build: Builder, f: Format)
    ensures Offered(u, own, build, Some(f))
         == (match build(f) case Some(v) => [Candidate(v, f)] case None => []) + Offered(u, own, build, None)
  {
    OfferedThen(u, own, build);
  }

  /** Offers whose texts all differ are all tried, in the order they are offered. */
  lemma {:induction false} DistinctKept(cs: seq<Candidate>, text: Url -> string, seen: set<string>)
    requires forall i, j :: 0 <= i < j < |cs| ==> text(cs[i].url) != text(cs[j].url)
    requires forall c :: c in cs ==> text(c.url) !in seen
    ensures Fresh(cs, text, seen) == cs
  {
    if cs != [] {
      assert cs[0] in cs;
      forall c | c in cs[1..] ensures text(c.url) !in seen + {text(cs[0].url)} {
        var i :| 0 <= i < |cs[1..]| && cs[1..][i] == c;
        assert cs[i + 1] == c && text(cs[0].url) != text(cs[i + 1].url);
      }
      DistinctKept(cs[1..], text, seen + {text(cs[0].url)});
      assert cs == [cs[0]] + cs[1..];
    }
  }

  // ---- The format of the client's own URL ----

  lemma {:induction false} PrintLengths(t: Time)
    requires ValidTime(t)
    ensures var dash, under := Dashed(t) + ":" + HourMinute(t, "-"), Dashed(t) + "_" + HourMinute(t, "-");
            var compact := Four(t.year) + Two(t.month) + Two(t.day) + "-" + Two(t.hour);
            var seconds, sql := Dashed(t) + ":" + Clock(t), Dashed(t) + " " + Clock(t);
            && |dash| == 16 == |under| && dash[10] == ':' && under[10] == '_'
            && |compact| == 11
            && |seconds| == 19 == |sql| && seconds[10] == ':' && sql[10] == ' '
  {
  }

  /** A path-form start in one of the four spellings gives the format of that spelling. */
  lemma {:induction false} OwnPathFormat(d: Descriptor, t: Time)
    requires d.form.PathForm? && ParseStart(d.start) == Some(t) && ValidTime(t)
    ensures d.start == Dashed(t) + ":" + HourMinute(t, "-") ==> OriginalFormat(d) == PathColonDash
    ensures d.start == Dashed(t) + "_" + HourMinute(t, "-") ==> OriginalFormat(d) == PathUnderscore
    ensures d.start == Four(t.year) + Two(t.month) + Two(t.day) + "-" + Two(t.hour) ==> OriginalFormat(d) == PathCompactHour
    ensures d.start == Dashed(t) + ":" + Clock(t) ==> OriginalFormat(d) == PathColonSeconds
    ensures d.start !in {Dashed(t) + ":" + HourMinute(t, "-"), Dashed(t) + "_" + HourMinute(t, "-"),
                         Four(t.year) + Two(t.month) + Two(t.day) + "-" + Two(t.hour), Dashed(t) + ":" + Clock(t)}
            ==> OriginalFormat(d) == PathOriginal
  {
    PrintLengths(t);
    MinuteTexts(t);
    SecondTexts(t);
    PrintCompact(t);
    SpelledPath(d, t);
  }

  lemma {:induction false} SpelledPath(d: Descriptor, t: Time)
    requires d.form.PathForm?
    ensures Spelled(d, t, PrintedFormats(d.form))
         == if d.start == Print(COLON_DASH, t) then Some(PathColonDash)
            else if d.start == Print(UNDERSCORE, t) then Some(PathUnderscore)
            else if d.start == Print(COMPACT_HOUR, t) then Some(PathCompactHour)
            else if d.start == Print(COLON_SECONDS, t) then Some(PathColonSeconds)
            else None
  {
    var three: seq<Format> := [PathColonSeconds];
    var two := [PathCompactHour] + three;
    var one := [PathUnderscore] + two;
    assert PrintedFormats(d.form) == [PathColonDash] + one;
    assert three == [PathColonSeconds] + [];
    SpelledStep(d, t, PathColonSeconds, []);
    SpelledStep(d, t, PathCompactHour, three);
    SpelledStep(d, t, PathUnderscore, two);
    SpelledStep(d, t, PathColonDash, one);
  }

  lemma {:induction false} SpelledStep(d: Descriptor, t: Time, f: Format, rest: seq<Format>)
    requires LayoutIndex(f).Some? && forall g :: g in rest ==> LayoutIndex(g).Some?
    ensures Spelled(d, t, [f] + rest)
         == if d.start == Print(LAYOUTS[LayoutIndex(f).value], t) then Some(f) else Spelled(d, t, rest)
  {
    assert ([f] + rest)[1..] == rest;
  }

  lemma {:induction false} SpelledThree(d: Descriptor, t: Time)
    ensures
      (forall f :: f in [QueryColonDash, QueryCompactHour, QueryColonSeconds] ==> LayoutIndex(f).Some?) &&
      Spelled(d, t, [QueryColonDash, QueryCompactHour, QueryColonSeconds])
      == if d.start == Print(COLON_DASH, t) then Some(QueryColonDash)
         else if d.start == Print(COMPACT_HOUR, t) then Some(QueryCompactHour)
         else if d.start == Print(COLON_SECONDS, t) then Some(QueryColonSeconds)
         else None
  {
    var two: seq<Format> := [QueryColonSeconds];
    var one := [QueryCompactHour] + two;
    assert two == [QueryColonSeconds] + [];
    assert [QueryColonDash, QueryCompactHour, QueryColonSeconds] == [QueryColonDash] + one;
    SpelledStep(d, t, QueryColonSeconds, []);
    SpelledStep(d, t, QueryCompactHour, two);
    SpelledStep(d, t, QueryColonDash, one);
  }

  lemma {:induction false} SpelledQuery(d: Descriptor, t: Time)
    requires d.form.QueryForm?
    ensures Spelled(d, t, PrintedFormats(d.form))
         == if d.start == Print(UNDERSCORE, t) then Some(QueryUnderscore)
            else if d.start == Print(SQL, t) then Some(QuerySql)
            else if d.start == Print(COLON_DASH, t) then Some(QueryColonDash)
            else if d.start == Print(COMPACT_HOUR, t) then Some(QueryCompactHour)
            else if d.start == Print(COLON_SECONDS, t) then Some(QueryColonSeconds)
            else None
  {
    var two: seq<Format> := [QueryColonDash, QueryCompactHour, QueryColonSeconds];
    var one := [QuerySql] + two;
    SpelledThree(d, t);
    assert PrintedFormats(d.form) == [QueryUnderscore] + one;
    SpelledStep(d, t, QuerySql, two);
    SpelledStep(d, t, QueryUnderscore, one);
  }

  /** And a query-form start likewise. */
  lemma {:induction false} OwnQueryFormat(d: Descriptor, t: Time)
    requires d.form.QueryForm? && ParseStart(d.start) == Some(t) && ValidTime(t)
    ensures d.start == Dashed(t) + "_" + HourMinute(t, "-") ==> OriginalFormat(d) == QueryUnderscore
    ensures d.start == Dashed(t) + " " + Clock(t) ==> OriginalFormat(d) == QuerySql
    ensures d.start == Dashed(t) + ":" + HourMinute(t, "-") ==> OriginalFormat(d) == QueryColonDash
    ensures d.start == Four(t.year) + Two(t.month) + Two(t.day) + "-" + Two(t.hour) ==> OriginalFormat(d) == QueryCompactHour
    ensures d.start == Dashed(t) + ":" + Clock(t) ==> OriginalFormat(d) == QueryColonSeconds
    ensures d.start !in {Dashed(t) + ":" + HourMinute(t, "-"), Dashed(t) + "_" + HourMinute(t, "-"),
                         Four(t.year) + Two(t.month) + Two(t.day) + "-" + Two(t.hour), Dashed(t) + ":" + Clock(t),
                         Dashed(t) + " " + Clock(t)}
            ==> OriginalFormat(d) == QueryOriginal
  {
    PrintLengths(t);
    MinuteTexts(t);
    SecondTexts(t);
    PrintCompact(t);
    SpelledQuery(d, t);
  }

  // ---- Which failure is reported ----

  /** Answer `k` is the last response of the provider. */
  predicate LastResponse(answers: seq<Fetched>, k: int) {
    0 <= k < |answers| && answers[k].Fetched? && forall j :: k < j < |answers| ==> answers[j].NoResponse?
  }

  predicate AnySuccess(answers: seq<Fetched>) {
    exists i :: 0 <= i < |answers| && answers[i].Fetched? && answers[i].status in {200, 206}
  }

  lemma {:induction false} LastStatusIs(answers: seq<Fetched>, n: nat, k: nat)
    requires k < n <= |answers| && answers[k].Fetched? && forall j :: k < j < n ==> answers[j].NoResponse?
    ensures LastStatus(answers, n) == answers[k].status
  {
    if k < n - 1 {
      assert answers[n - 1].NoResponse?;
      LastStatusIs(answers, n - 1, k);
    }
  }

  lemma {:induction false} NoStatus(answers: seq<Fetched>, n: nat)
    requires n <= |answers| && forall k :: 0 <= k < n ==> answers[k].NoResponse?
    ensures LastStatus(answers, n) == 0
  {
    if n > 0 { NoStatus(answers, n - 1); }
  }

  /**
   When no answer ends the cascade: a success that was no archive is reported before anything else, as
   502; else the status of the last response, if that is an error; else a request that failed, and else
   that nothing is available, both as 502. No candidates at all are a bad request.
   */
  lemma {:induction false} FailurePrecedence(answers: seq<Fetched>, k: int)
    ensures answers == [] ==> Exhausted(answers) == Failed(400, InvalidRequest)
    ensures AnySuccess(answers) ==> Exhausted(answers) == Failed(502, NoValidArchive)
    ensures !AnySuccess(answers) && LastResponse(answers, k) && answers[k].status >= 400 ==>
      Exhausted(answers) == Failed(answers[k].status, ProviderError)
    ensures !AnySuccess(answers) && LastResponse(answers, k) && answers[k].status < 400 ==>
      Exhausted(answers) == if NoResponse in answers then Failed(502, LastError) else Failed(502, Unavailable)
    ensures answers != [] && (forall j :: 0 <= j < |answers| ==> answers[j].NoResponse?) ==>
      Exhausted(answers) == Failed(502, LastError)
  {
    if LastResponse(answers, k) { LastStatusIs(answers, |answers|, k); }
    if AnySuccess(answers) {
      var i :| 0 <= i < |answers| && answers[i].Fetched? && answers[i].status in {200, 206};
      assert Success(answers[i].status);
    }
    if answers != [] && forall j :: 0 <= j < |answers| ==> answers[j].NoResponse? {
      NoStatus(answers, |answers|);
      assert answers[0] in answers;
    }
  }

  // ---- The URLs that are built ----

  /** A path-form URL reads base, `timeshift`, user, password, duration, start and stream, in this order. */
  lemma {:induction false} PathText(d: Descriptor, f: Format, start: string)
    requires IsPath(f)
    ensures var tail := "timeshift/" + d.username + "/" + d.password + "/" + d.duration + "/" + start + "/" + d.streamId + d.extension;
            BuildWith(d, f, start).path == if d.base == [] then "/" + tail else "/" + Join(d.base, '/') + "/" + tail
    ensures BuildWith(d, f, start) == d.original.(path := BuildWith(d, f, start).path, query := d.extra)
  {
    var file := d.streamId + d.extension;
    var parts := ["timeshift", d.username, d.password, d.duration, start, file];
    SixJoined(d.username, d.password, d.duration, start, file);
    if d.base == [] {
      assert d.base + parts == parts;
    } else {
      JoinAppend(d.base, parts, '/');
      assert "/" + (Join(d.base, '/') + "/" + Join(parts, '/')) == "/" + Join(d.base, '/') + "/" + Join(parts, '/');
    }
  }

  lemma {:induction false} JoinStep(a: string, rest: seq<string>)
    requires |rest| > 0
    ensures Join([a] + rest, '/') == a + ("/" + Join(rest, '/'))
  {
    assert ([a] + rest)[1..] == rest;
  }

  lemma {:induction false} SixJoined(u: string, w: string, duration: string, start: string, file: string)
    ensures Join(["timeshift", u, w, duration, start, file], '/')
         == "timeshift/" + u + "/" + w + "/" + duration + "/" + start + "/" + file
  {
    var five := [file];
    var four := [start] + five;
    var three := [duration] + four;
    var two := [w] + three;
    var one := [u] + two;
    JoinStep(start, five);
    JoinStep(duration, four);
    JoinStep(w, three);
    JoinStep(u, two);
    JoinStep("timeshift", one);
    assert ["timeshift", u, w, duration, start, file] == ["timeshift"] + one;
  }

  lemma {:induction false} BelowBase(base: seq<string>, parts: seq<string>)
    requires |parts| > 0
    ensures "/" + Join(base + parts, '/')
         == if base == [] then "/" + Join(parts, '/') else "/" + Join(base, '/') + ("/" + Join(parts, '/'))
  {
    if base == [] {
      assert base + parts == parts;
    } else {
      JoinAppend(base, parts, '/');
    }
  }

  lemma {:induction false} ScriptJoined()
    ensures Join(["streaming", "timeshift.php"], '/') == "streaming/timeshift.php"
  {
    JoinStep("streaming", ["timeshift.php"]);
    assert ["streaming", "timeshift.php"] == ["streaming"] + ["timeshift.php"];
  }

  lemma {:induction false} QueryBuilt(d: Descriptor, f: Format, start: string)
    requires !IsPath(f)
    ensures BuildWith(d, f, start).path == "/" + Join(d.base + ["streaming", "timeshift.php"], '/')
    ensures BuildWith(d, f, start).query
         == d.extra["username" := [d.username]]["password" := [d.password]]["stream" := [d.streamId]]
                   ["start" := [start]]["duration" := [d.duration]]
  {
  }

  /** A query-form URL asks the timeshift script, with five parameters beside the client's own. */
  lemma {:induction false} QueryText(d: Descriptor, f: Format, start: string)
    requires !IsPath(f)
    ensures BuildWith(d, f, start).path
         == (if d.base == [] then "" else "/" + Join(d.base, '/')) + "/" + "streaming/timeshift.php"
    ensures BuildWith(d, f, start).query
         == d.extra["username" := [d.username]]["password" := [d.password]]["stream" := [d.streamId]]
                   ["start" := [start]]["duration" := [d.duration]]
  {
    QueryBuilt(d, f, start);
    ScriptJoined();
    BelowBase(d.base, ["streaming", "timeshift.php"]);
  }

  // ---- What ends the cascade ----

  /** An answer ends the cascade if its status is one of six, or a refused range that was asked for, or a
    * success the probe accepts. */
  lemma {:induction false} WhatEnds(f: Fetched, ask: Ask)
    requires f.Fetched?
    ensures Ends(f, ask)
       <==> || f.status in {401, 403, 406, 408, 429, 458} || (f.status == 416 && ask.range != "")
            || ((f.status == 200 || f.status == 206) && Usable(f, ask))
  {
  }

  /** Sync bytes a packet apart are found; a single one that nothing can follow is not. */
  lemma {:induction false} PacketsSync(body: Bytes, o: nat)
    ensures o + 376 < |body| && body[o] == 0x47 && body[o + 188] == 0x47 && body[o + 376] == 0x47 ==> SyncAt(body, o)
    ensures o + 188 < |body| <= o + 376 && body[o] == 0x47 && body[o + 188] == 0x47 ==> SyncAt(body, o)
    ensures SyncAt(body, o) ==> o + 188 < |body| && body[o] == 0x47 && body[o + 188] == 0x47
                                && (o + 376 < |body| ==> body[o + 376] == 0x47)
  {
  }
}
