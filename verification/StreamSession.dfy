/**
 A stream session and its viewers as objects. The methods are the critical sections and channel
 operations of the session, without interference; the interleaved runs are the subject of
 `StreamTheorems`, whose `Offer` is what the locked broadcast does to each viewer.
 */
module StreamSession {
  import opened Prelude
  import P = StreamProtocol

  /** What reading from a viewer comes to. `Waits` means that no case of the select is ready yet. */
  datatype Received = Chunk(data: Bytes) | EndOfFile | ClientGone | Waits

  class Viewer {
    const id: nat
    /** The buffered channel. */
    var queue: seq<Bytes>
    var closed: bool

    constructor (id: nat)
      ensures this.id == id && queue == [] && !closed
    {
      this.id := id;
      queue, closed := [], false;
    }

    /**
     Viewer.Next: the oldest chunk, even for a client that has gone; from an empty queue the end of the
     file if closed, or the client's own end if it has gone; if both, either of them.
     */
    method Next(clientGone: bool) returns (r: Received)
      modifies this
      ensures old(queue) != [] ==> r == Chunk(old(queue)[0]) && queue == old(queue)[1..]
      ensures old(queue) == [] ==> queue == [] && !r.Chunk?
      ensures r == EndOfFile ==> closed
      ensures r == ClientGone ==> clientGone
      ensures r == Waits ==> !closed && !clientGone
      ensures closed == old(closed)
    {
      if queue != [] {
        r := Chunk(queue[0]);
        queue := queue[1..];
      } else if {
        case clientGone => r := ClientGone;
        case closed => r := EndOfFile;
        case !clientGone && !closed => r := Waits;
      }
    }
  }

  /** How a broadcast ends: done, given up because the session is cancelled, or not ready yet. */
  datatype Sending = Sent | Skipped | Blocked

  class Manager {
    /** The running sessions by key. */
    var sessions: map<string, Session>

    constructor ()
      ensures sessions == map[]
    {
      sessions := map[];
    }
  }

  class Session {
    const key: string
    const manager: Manager
    var viewers: map<nat, Viewer>
    var nextId: nat
    var started: bool
    var cancelled: bool
    var done: bool

    constructor (key: string, manager: Manager)
      ensures this.key == key && this.manager == manager
      ensures Valid() && viewers == map[] && !started && !cancelled && !done
    {
      this.key, this.manager := key, manager;
      viewers, nextId := map[], 0;
      started, cancelled, done := false, false, false;
    }

    /** Registered viewers are open, filed under their own id, and within their queue bound. */
    ghost predicate Valid()
      reads this, viewers.Values
    {
      forall id | id in viewers ::
        && viewers[id].id == id && id <= nextId
        && !viewers[id].closed && |viewers[id].queue| <= P.VIEWER_QUEUE_SIZE
    }

    method AddViewer() returns (v: Viewer)
      requires Valid()
      modifies this
      ensures Valid() && fresh(v) && v.queue == [] && !v.closed
      ensures v.id !in old(viewers) && viewers == old(viewers)[v.id := v] && started
      ensures cancelled == old(cancelled) && done == old(done)
    {
      nextId := nextId + 1;
      v := new Viewer(nextId);
      viewers := viewers[v.id := v];
      started := true;
    }

    /**
     broadcast. With one viewer the send succeeds if there is room, can be given up if the session is
     cancelled, and blocks if there is neither. Otherwise every viewer gets the chunk, and those whose
     queue is full are dropped.
     */
    method Broadcast(chunk: Bytes) returns (r: Sending)
      requires Valid()
      modifies this, viewers.Values
      ensures Valid()
      // one viewer, which is never dropped
      ensures |old(viewers)| == 1 ==> viewers == old(viewers) && cancelled == old(cancelled)
      ensures |old(viewers)| == 1 ==> forall id | id in viewers ::
        && viewers[id].queue == (if r == Sent then old(viewers[id].queue) + [chunk] else old(viewers[id].queue))
        && (r == Sent ==> |old(viewers[id].queue)| < P.VIEWER_QUEUE_SIZE)
        && (r == Blocked ==> |old(viewers[id].queue)| == P.VIEWER_QUEUE_SIZE)
      ensures r == Skipped ==> |old(viewers)| == 1 && cancelled
      ensures r == Blocked ==> |old(viewers)| == 1 && !cancelled
      // several
      ensures |old(viewers)| != 1 ==>
        && viewers.Keys == set id | id in old(viewers) && |old(viewers[id].queue)| < P.VIEWER_QUEUE_SIZE
        && forall id | id in old(viewers) ::
             if id in viewers then viewers[id] == old(viewers[id]) && viewers[id].queue == old(viewers[id].queue) + [chunk]
             else old(viewers[id]).closed && old(viewers[id]).queue == old(viewers[id].queue)
      ensures |old(viewers)| != 1 ==> (cancelled <==> old(cancelled) || viewers == map[])
    {
      if |viewers| == 1 {
        LoneKey(viewers);
        var id :| id in viewers;
        var only := viewers[id];
        if {
          case cancelled =>
            return Skipped;
          case |only.queue| < P.VIEWER_QUEUE_SIZE =>
            only.queue := only.queue + [chunk];
            return Sent;
          case !cancelled && |only.queue| >= P.VIEWER_QUEUE_SIZE =>
            return Blocked;
        }
      }
      OfferAll(chunk);
      if viewers == map[] {
        cancelled := true;
      }
      return Sent;
    }

    /** The locked loop of broadcast. */
    method OfferAll(chunk: Bytes)
      requires Valid()
      modifies this`viewers, viewers.Values
      ensures Valid()
      ensures viewers.Keys == set id | id in old(viewers) && |old(viewers[id].queue)| < P.VIEWER_QUEUE_SIZE
      ensures forall id | id in old(viewers) ::
        if id in viewers then viewers[id] == old(viewers[id]) && viewers[id].queue == old(viewers[id].queue) + [chunk]
        else old(viewers[id]).closed && old(viewers[id]).queue == old(viewers[id].queue)
    {
      ghost var before := viewers;
      var todo := viewers.Keys;
      while todo != {}
        invariant todo <= before.Keys && todo <= viewers.Keys <= before.Keys
        invariant forall id | id in viewers :: viewers[id] == before[id]
        invariant forall id | id in todo :: before[id].queue == old(before[id].queue) && !before[id].closed
        invariant forall id | id in before.Keys - todo ::
          (id in viewers <==> |old(before[id].queue)| < P.VIEWER_QUEUE_SIZE)
          && (if id in viewers then before[id].queue == old(before[id].queue) + [chunk] && !before[id].closed
              else before[id].queue == old(before[id].queue) && before[id].closed)
        decreases todo
      {
        var id :| id in todo;
        var v := viewers[id];
        todo := todo - {id};
        if |v.queue| < P.VIEWER_QUEUE_SIZE {
          v.queue := v.queue + [chunk];
        } else {
          viewers := viewers - {id};
          v.closed := true;
        }
      }
    }

    /** Session.Remove. */
    method Remove(v: Viewer)
      requires Valid()
      modifies this, v
      ensures Valid()
      ensures viewers == if v.id in old(viewers) && old(viewers)[v.id] == v then old(viewers) - {v.id} else old(viewers)
      ensures v.closed <==> old(v.closed) || (v.id in old(viewers) && old(viewers)[v.id] == v)
      ensures v.queue == old(v.queue)
      ensures cancelled <==> old(cancelled) || viewers == map[]
    {
      if v.id in viewers && viewers[v.id] == v {
        viewers := viewers - {v.id};
        v.closed := true;
      }
      if viewers == map[] {
        cancelled := true;
      }
    }

    /**
     finish: every registered viewer is closed with its queue untouched, the session is done, and it
     leaves the manager unless another session has taken its key.
     */
    method Finish()
      requires Valid()
      modifies this, viewers.Values, manager
      ensures manager.sessions ==
        if key in old(manager.sessions) && old(manager.sessions)[key] == this then old(manager.sessions) - {key}
        else old(manager.sessions)
      ensures Valid() && viewers == map[] && cancelled && done
      ensures forall id | id in old(viewers) :: old(viewers[id]).closed && old(viewers[id]).queue == old(viewers[id].queue)
    {
      cancelled := true;
      ghost var before := viewers;
      while viewers.Keys != {}
        invariant viewers.Keys <= before.Keys && cancelled && manager.sessions == old(manager.sessions)
        invariant forall id | id in viewers :: viewers[id] == before[id]
        invariant forall id | id in before :: before[id].queue == old(before[id].queue) && before[id].id == id
        invariant forall id | id in before :: id in viewers || before[id].closed
        invariant Valid()
        decreases viewers.Keys
      {
        var id :| id in viewers.Keys;
        var v := viewers[id];
        viewers := viewers - {id};
        v.closed := true;
      }
      done := true;
      if key in manager.sessions && manager.sessions[key] == this {
        manager.sessions := manager.sessions - {key};
      }
    }
  }

  lemma LoneKey(m: map<nat, Viewer>)
    requires |m| == 1
    ensures exists id :: id in m
    ensures forall a, b | a in m && b in m :: a == b
  {
    assert |m.Keys| == 1;
    var x :| x in m.Keys;
    assert |m.Keys - {x}| == 0;
  }

  // ---- Sending and reading a whole stream ----

  /** Drains a closed viewer for a client that stays: end of file is reported only after every queued
    * chunk, in order. */
  method DrainClosed(v: Viewer) returns (got: seq<Bytes>)
    requires v.closed
    modifies v
    ensures got == old(v.queue) && v.queue == [] && v.closed
  {
    got := [];
    var r := v.Next(false);
    while r != EndOfFile
      invariant v.closed && !r.ClientGone? && !r.Waits?
      invariant got + (if r.Chunk? then [r.data] else []) + v.queue == old(v.queue)
      invariant r == EndOfFile ==> v.queue == []
      decreases |v.queue|, r.Chunk?
    {
      got := got + [r.data];
      r := v.Next(false);
    }
  }
}
