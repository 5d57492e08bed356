/** Catch-up negotiation: probing one provider response (internal/proxy/catchup.go). */
module CatchupProbe {

  import opened Prelude

  const PROBE_BYTES: nat := 1024
  const SYNC_BYTE: byte := 0x47
  const PACKET: nat := 188

  // ---- MPEG-TS synchronisation ----

  /** A sync byte at `o`, one a packet later, and one two packets later if the text goes that far. */
  predicate SyncAt(body: Bytes, o: nat) {
    && o < |body| && body[o] == SYNC_BYTE
    && o + PACKET < |body| && body[o + PACKET] == SYNC_BYTE
    && (o + 2 * PACKET < |body| ==> body[o + 2 * PACKET] == SYNC_BYTE)
  }

  /** The least synchronised offset, or -1. */
  method FindMPEGTSSync(body: Bytes) returns (offset: int)
    ensures -1 <= offset < |body|
    ensures offset >= 0 ==> SyncAt(body, offset) && forall j: nat :: j < offset ==> !SyncAt(body, j)
    ensures offset == -1 ==> forall j: nat :: !SyncAt(body, j)
  {
    offset := 0;
    while offset < |body|
      invariant 0 <= offset <= |body|
      invariant forall j: nat :: j < offset ==> !SyncAt(body, j)
    {
      if body[offset] == SYNC_BYTE {
        var second := offset + PACKET;
        if second < |body| && body[second] == SYNC_BYTE {
          var third := second + PACKET;
          if third >= |body| || body[third] == SYNC_BYTE {
            return offset;
          }
        }
      }
      offset := offset + 1;
    }
    return -1;
  }

  // ---- The probe ----

  datatype Reason =
    | NonSuccess | Hls | Head | PrefixReadFailed | EmptyBody | DocumentBody | PartialArchive | NoSync | MpegTs

  /** A provider response. `unread` is what a reader of the body would still get, after which
    * the body ends, or fails when `fails` is set. A negative length is unknown. */
  class Response {
    const status: int
    var unread: Bytes
    const fails: bool
    var contentLength: int
    var lengthHeader: bool

    constructor (status: int, body: Bytes, fails: bool, contentLength: int, lengthHeader: bool)
      ensures this.status == status && unread == body && this.fails == fails
      ensures this.contentLength == contentLength && this.lengthHeader == lengthHeader
    {
      this.status, this.unread, this.fails := status, body, fails;
      this.contentLength, this.lengthHeader := contentLength, lengthHeader;
    }

    /** io.ReadAll over io.LimitReader: up to `limit` bytes leave the body; the body's failure
      * shows only if it comes before the limit. */
    method ReadLimited(limit: nat) returns (data: Bytes, failed: bool)
      modifies this`unread
      ensures data + unread == old(unread)
      ensures |data| == if |old(unread)| < limit then |old(unread)| else limit
      ensures failed <==> fails && |old(unread)| < limit
    {
      var n := if |unread| < limit then |unread| else limit;
      data, failed := unread[..n], fails && n < limit;
      unread := unread[n..];
    }

    /** The body replaced by `data` followed by what is left of it. */
    method Replay(data: Bytes)
      modifies this`unread
      ensures unread == data + old(unread)
    {
      unread := data + unread;
    }
  }

  /** The prefix the probe looks at. */
  function Prefix(body: Bytes): Bytes {
    if |body| < PROBE_BYTES then body else body[..PROBE_BYTES]
  }

  /** Whether the probe has to look at the body at all. */
  predicate Inspects(status: int, isHls: bool, isHead: bool) {
    (status == 200 || status == 206) && !isHls && !isHead
  }

  /** The synchronised part of a body: the least offset at which its prefix is synchronised. */
  predicate SyncedFrom(body: Bytes, o: nat) {
    SyncAt(Prefix(body), o) && forall j: nat :: j < o ==> !SyncAt(Prefix(body), j)
  }

  /** Conservation: whatever the verdict, a body that was read without error loses nothing but
    * the bytes before the first synchronised offset of an accepted one, and a known length
    * drops by as much. */
  method ProbeCatchupResponse(resp: Response, isHls: bool, isHead: bool, isDocument: Bytes -> bool, ranged: bool)
    returns (accepted: bool, reason: Reason)
    modifies resp
    // Decided without the body
    ensures !Inspects(resp.status, isHls, isHead) ==>
              resp.unread == old(resp.unread) && resp.contentLength == old(resp.contentLength)
              && resp.lengthHeader == old(resp.lengthHeader)
    ensures !Inspects(resp.status, isHls, isHead) ==>
              (accepted <==> resp.status == 200 || resp.status == 206)
              && reason == if resp.status != 200 && resp.status != 206 then NonSuccess else if isHls then Hls else Head
    // A failing prefix is lost, and only then
    ensures Inspects(resp.status, isHls, isHead) ==>
              (reason == PrefixReadFailed <==> resp.fails && |old(resp.unread)| < PROBE_BYTES)
    ensures reason == PrefixReadFailed ==> !accepted && resp.unread == []
    // Everything else is served from the first synchronised offset, or whole
    ensures Inspects(resp.status, isHls, isHead) && reason != PrefixReadFailed ==>
              var body := old(resp.unread);
              && (accepted <==> body != [] && !isDocument(Prefix(body))
                                && ((resp.status == 206 && ranged) || exists o: nat :: SyncedFrom(body, o)))
              && (!accepted || (resp.status == 206 && ranged) ==>
                    resp.unread == body && resp.contentLength == old(resp.contentLength)
                    && resp.lengthHeader == old(resp.lengthHeader))
              && (accepted && !(resp.status == 206 && ranged) ==>
                    exists o: nat :: SyncedFrom(body, o) && o <= |body| && resp.unread == body[o..]
                      && resp.contentLength == (if old(resp.contentLength) >= 0 then old(resp.contentLength) - o
                                                else old(resp.contentLength))
                      && resp.lengthHeader == (old(resp.lengthHeader) && (o == 0 || old(resp.contentLength) < 0)))
  {
    if resp.status != 200 && resp.status != 206 {
      return false, NonSuccess;
    }
    if isHls {
      return true, Hls;
    }
    if isHead {
      return true, Head;
    }
    ghost var body := resp.unread;
    var prefix, failed := resp.ReadLimited(PROBE_BYTES);
    assert prefix == Prefix(body) by {
      assert prefix == (prefix + resp.unread)[..|prefix|];
    }
    if failed {
      return false, PrefixReadFailed;
    }
    if |prefix| == 0 {
      return false, EmptyBody;
    }
    if isDocument(prefix) {
      resp.Replay(prefix);
      return false, DocumentBody;
    }
    if resp.status == 206 && ranged {
      resp.Replay(prefix);
      return true, PartialArchive;
    }
    var offset := FindMPEGTSSync(prefix);
    if offset < 0 {
      resp.Replay(prefix);
      return false, NoSync;
    }
    ghost var rest := resp.unread;
    resp.Replay(prefix[offset..]);
    assert prefix[offset..] + rest == (prefix + rest)[offset..];
    if offset > 0 && resp.contentLength >= 0 {
      resp.contentLength := resp.contentLength - offset;
      resp.lengthHeader := false;
    }
    assert SyncedFrom(body, offset);
    return true, MpegTs;
  }
}
