/** Serving a catch-up request: the cascade over the candidate URLs (internal/proxy/direct_proxy.go). */
module CatchupServe {

  import opened Prelude
  import opened Text
  import opened XtreamUrls
  import opened CatchupCandidates
  import opened CatchupProbe

  // ---- The provider's side ----

  /** What a provider answers to a request for a URL: nothing, or a response. `hls` and `document`
    * are the two content checks on it: an HLS playlist, a document in place of media. */
  datatype Fetched =
    | NoResponse
    | Fetched(
        status: int, body: Bytes, fails: bool, contentLength: int, lengthHeader: bool, hls: bool, document: bool)

  /** A request may be sent only while no earlier response is open. */
  class Upstream {
    const fetch: Url -> Fetched
    var asked: seq<Url>
    var open: bool

    constructor (fetch: Url -> Fetched)
      ensures this.fetch == fetch && asked == [] && !open
    {
      this.fetch, asked, open := fetch, [], false;
    }

    method Ask(url: Url) returns (r: Response?)
      requires !open
      modifies this
      ensures asked == old(asked) + [url] && open == fetch(url).Fetched?
      ensures r == null <==> fetch(url).NoResponse?
      ensures r != null ==>
        && fresh(r) && r.status == fetch(url).status && r.unread == fetch(url).body && r.fails == fetch(url).fails
        && r.contentLength == fetch(url).contentLength && r.lengthHeader == fetch(url).lengthHeader
    {
      asked := asked + [url];
      match fetch(url)
      case NoResponse =>
        r, open := null, false;
      case Fetched(status, body, fails, contentLength, lengthHeader, _, _) =>
        r := new Response(status, body, fails, contentLength, lengthHeader);
        open := true;
    }

    method Close()
      modifies this`open
      ensures !open
    {
      open := false;
    }
  }

  // ---- What an answer means ----

  /** The client's request, as far as the cascade looks at it. */
  datatype Ask = Ask(range: string, get: bool, head: bool)

  /** The probe's view of the range header, which it trims. */
  predicate Ranged(ask: Ask) {
    TrimSpace(ask.range) != ""
  }

  predicate Success(status: int) {
    status == 200 || status == 206
  }

  /** Session and account failures, which no other spelling of the URL can cure. */
  predicate Decisive(status: int) {
    status in {401, 403, 406, 408, 429, 458}
  }

  /** The body of a successful response that ends before the probe has its prefix. */
  predicate PrefixLost(f: Fetched, ask: Ask)
    requires f.Fetched?
  {
    Inspects(f.status, f.hls, ask.head) && f.fails && |f.body| < PROBE_BYTES
  }

  /** A successful response worth relaying: a playlist, an answer to HEAD, a part of an archive the
    * client asked for, or a body in which MPEG-TS packets start within the prefix. */
  ghost predicate Usable(f: Fetched, ask: Ask)
    requires f.Fetched?
  {
    Inspects(f.status, f.hls, ask.head) ==>
      && !PrefixLost(f, ask) && f.body != [] && !f.document
      && ((f.status == 206 && Ranged(ask)) || exists o: nat :: SyncedFrom(f.body, o))
  }

  /** The answers that end the cascade. */
  ghost predicate Ends(f: Fetched, ask: Ask) {
    f.Fetched? && (Decisive(f.status) || (f.status == 416 && ask.range != "") || (Success(f.status) && Usable(f, ask)))
  }

  /** What is relayed of an answer: all of it, unless the probe looked for packets; then the body
    * from the first of them on, and a known length less by as much. */
  ghost predicate RelayedFrom(f: Fetched, ask: Ask, body: Bytes, contentLength: int)
    requires f.Fetched?
  {
    if Inspects(f.status, f.hls, ask.head) && !(f.status == 206 && Ranged(ask)) then
      exists o: nat :: SyncedFrom(f.body, o) && o <= |f.body| && body == f.body[o..]
        && contentLength == if f.contentLength >= 0 then f.contentLength - o else f.contentLength
    else body == f.body && contentLength == f.contentLength
  }

  // ---- The client's side ----

  /** What the client gets: a provider response, or an error of the proxy's own. */
  datatype Reply = Relayed(candidate: nat, body: Bytes, contentLength: int) | Failed(status: int, cause: Cause)

  datatype Cause = InvalidRequest | NoValidArchive | ProviderError | LastError | Unavailable

  class Client {
    var replies: seq<Reply>

    constructor ()
      ensures replies == []
    {
      replies := [];
    }

    method Write(r: Reply)
      modifies this
      ensures replies == old(replies) + [r]
    {
      replies := replies + [r];
    }
  }

  // ---- The cascade ----

  /** The candidates of a request; none unless it is a catch-up request. */
  function Candidates(u: Url, preferred: Option<Format>, text: Url -> string): seq<Candidate> {
    match Describe(u)
    case None => []
    case Some(d) => Fresh(Offered(u, OriginalFormat(d), BuilderOf(d), preferred), text, {})
  }

  function UrlsOf(list: seq<Candidate>): (urls: seq<Url>)
    ensures |urls| == |list|
  {
    seq(|list|, i requires 0 <= i < |list| => list[i].url)
  }

  function AnswersTo(list: seq<Candidate>, fetch: Url -> Fetched): (answers: seq<Fetched>)
    ensures |answers| == |list|
  {
    seq(|list|, i requires 0 <= i < |list| => fetch(list[i].url))
  }

  /** The status of the last response among the first `n` answers; 0 if there was none. */
  function LastStatus(answers: seq<Fetched>, n: nat): int
    requires n <= |answers|
  {
    if n == 0 then 0
    else if answers[n - 1].Fetched? then answers[n - 1].status
    else LastStatus(answers, n - 1)
  }

  /** The reply when no answer ends the cascade: a rejected success counts as a bad gateway;
    * else the provider's last error status is passed on; else the error of a request. */
  function Exhausted(answers: seq<Fetched>): Reply {
    if |answers| == 0 then Failed(400, InvalidRequest)
    else if exists i :: 0 <= i < |answers| && answers[i].Fetched? && Success(answers[i].status)
      then Failed(502, NoValidArchive)
    else if LastStatus(answers, |answers|) >= 400 then Failed(LastStatus(answers, |answers|), ProviderError)
    else if NoResponse in answers then Failed(502, LastError)
    else Failed(502, Unavailable)
  }

  /** One candidate's successful response, probed. */
  method Judge(f: Fetched, resp: Response, ask: Ask) returns (accepted: bool, failed: bool)
    requires f.Fetched? && Success(f.status)
    requires resp.status == f.status && resp.unread == f.body && resp.fails == f.fails
    requires resp.contentLength == f.contentLength
    modifies resp
    ensures accepted <==> Usable(f, ask)
    ensures failed <==> PrefixLost(f, ask)
    ensures accepted ==> RelayedFrom(f, ask, resp.unread, resp.contentLength)
  {
    var reason;
    accepted, reason := ProbeCatchupResponse(resp, f.hls, ask.head, _ => f.document, Ranged(ask));
    failed := reason == PrefixReadFailed;
  }

  /** One candidate: asked, judged, and relayed if its answer ends the cascade, else closed. */
  method TryCandidate(c: Candidate, index: nat, up: Upstream, client: Client, ask: Ask)
    returns (stop: bool, status: Option<int>, failed: bool)
    requires !up.open
    modifies up, client
    ensures up.asked == old(up.asked) + [c.url]
    ensures status == (match up.fetch(c.url) case NoResponse => None case Fetched(s, _, _, _, _, _, _) => Some(s))
    ensures stop <==> Ends(up.fetch(c.url), ask)
    ensures up.open == stop
    ensures !stop ==> client.replies == old(client.replies)
    ensures stop ==> exists body, length {:trigger Relayed(index, body, length)} ::
              && client.replies == old(client.replies) + [Relayed(index, body, length)]
              && RelayedFrom(up.fetch(c.url), ask, body, length)
    ensures failed ==> status.Some? && Success(status.value)
  {
    stop, status, failed := false, None, false;
    var resp := up.Ask(c.url);
    if resp == null {
      return;
    }
    status := Some(resp.status);
    if Decisive(resp.status) {
      client.Write(Relayed(index, resp.unread, resp.contentLength));
      stop := true;
      return;
    }
    if resp.status == 416 && ask.range != "" {
      client.Write(Relayed(index, resp.unread, resp.contentLength));
      stop := true;
      return;
    }
    if Success(resp.status) {
      stop, failed := Judge(up.fetch(c.url), resp, ask);
      if stop {
        client.Write(Relayed(index, resp.unread, resp.contentLength));
        return;
      }
    }
    up.Close();
  }

  /** The reply that stands for the answers of a candidate list, and the requests behind it. */
  ghost predicate Served(
      list: seq<Candidate>, answers: seq<Fetched>, ask: Ask,
      reply: Reply, asked: seq<Url>, open: bool, remembered: Option<Format>)
    requires |answers| == |list|
  {
    match reply
    case Relayed(i, body, contentLength) =>
      && i < |list| && Ends(answers[i], ask)
      && (forall j :: 0 <= j < i ==> !Ends(answers[j], ask))
      && asked == UrlsOf(list)[..i + 1] && open
      && RelayedFrom(answers[i], ask, body, contentLength)
      && remembered == if ask.get && Success(answers[i].status) then Some(list[i].format) else None
    case Failed(_, _) =>
      && (forall j :: 0 <= j < |answers| ==> !Ends(answers[j], ask))
      && asked == UrlsOf(list) && !open
      && reply == Exhausted(answers)
      && remembered == None
  }

  /** Exactly one reply is written: the first candidate whose answer ends the cascade is relayed
    * and no further one is asked; without one, every candidate was asked once, in order. Never are
    * two provider responses open at a time, and none is left open that is not relayed. */
  method ServeCatchupDirect(
      u: Url, preferred: Option<Format>, text: Url -> string, up: Upstream, client: Client, ask: Ask)
    returns (remembered: Option<Format>)
    requires up.asked == [] && !up.open
    modifies up, client
    ensures |client.replies| == |old(client.replies)| + 1 && old(client.replies) < client.replies
    ensures var list := Candidates(u, preferred, text);
            Served(list, AnswersTo(list, up.fetch), ask,
                   client.replies[|client.replies| - 1], up.asked, up.open, remembered)
  {
    var built := BuildCatchupCandidates(u, preferred, text);
    if built.None? || |built.value| == 0 {
      client.Write(Failed(400, InvalidRequest));
      return None;
    }
    assert built.value == Candidates(u, preferred, text);
    remembered := TryAll(built.value, up, client, ask);
  }

  method TryAll(list: seq<Candidate>, up: Upstream, client: Client, ask: Ask)
    returns (remembered: Option<Format>)
    requires |list| > 0 && up.asked == [] && !up.open
    modifies up, client
    ensures |client.replies| == |old(client.replies)| + 1 && old(client.replies) < client.replies
    ensures Served(list, AnswersTo(list, up.fetch), ask,
                   client.replies[|client.replies| - 1], up.asked, up.open, remembered)
  {
    ghost var answers, urls := AnswersTo(list, up.fetch), UrlsOf(list);
    var lastStatus, lastErr, invalidSuccess := 0, false, false;
    for index := 0 to |list|
      invariant up.asked == urls[..index] && !up.open && client.replies == old(client.replies)
      invariant forall j :: 0 <= j < index ==> !Ends(answers[j], ask)
      invariant lastStatus == LastStatus(answers, index)
      invariant lastErr || invalidSuccess <==> invalidSuccess || NoResponse in answers[..index]
      invariant invalidSuccess <==>
        exists j :: 0 <= j < index && answers[j].Fetched? && Success(answers[j].status)
    {
      var stop, status, failed := TryCandidate(list[index], index, up, client, ask);
      assert answers[..index + 1] == answers[..index] + [answers[index]];
      assert urls[..index + 1] == urls[..index] + [urls[index]];
      if stop {
        return if ask.get && Success(status.value) then Some(list[index].format) else None;
      }
      match status
      case None =>
        lastErr := true;
      case Some(code) =>
        lastStatus, lastErr := code, lastErr || failed;
        invalidSuccess := invalidSuccess || Success(code);
    }
    assert answers[..|answers|] == answers && urls[..|urls|] == urls;
    if invalidSuccess {
      client.Write(Failed(502, NoValidArchive));
    } else if lastStatus >= 400 {
      client.Write(Failed(lastStatus, ProviderError));
    } else if lastErr {
      client.Write(Failed(502, LastError));
    } else {
      client.Write(Failed(502, Unavailable));
    }
    remembered := None;
  }
}
