/** What the multiplexer promises, over every reachable state. */
module StreamTheorems {
  import opened Prelude
  import opened StreamProtocol
  import opened StreamInvariant
  import opened StreamPreservation

  // ---- One upstream per key ----

  /** Two sessions that are not done never share a key, and a session opens its upstream once. */
  lemma OneUpstreamPerKey(s: State, id: SessionId, id': SessionId)
    requires Reachable(s) && id in s.sessions && id' in s.sessions
    requires s.sessions[id].key == s.sessions[id'].key && !s.sessions[id].Done() && !s.sessions[id'].Done()
    ensures id == id' && s.sessions[id].opens <= 1
    ensures Lookup(s.registry, s.sessions[id].key) == Some(id)
  {
    ReachableInv(s);
  }

  /** The upstream is read only once a viewer has registered, and the first viewer starts at its first chunk. */
  lemma ReadOnlyWhenWatched(s: State, id: SessionId)
    requires Reachable(s) && id in s.sessions && s.sessions[id].produced != []
    ensures exists v :: OfSession(s.viewers, id, v)
  {
    ReachableInv(s);
    SoundOf(s, id);
  }

  lemma FirstViewerFromStart(s: State, t: TaskId)
    requires Reachable(s) && Enabled(s, Add(t))
    requires forall v | v in s.viewers :: s.viewers[v].session != s.tasks[t].session
    ensures Apply(s, Add(t)).viewers[s.next].join == 0
  {
    ReachableInv(s);
    SoundOf(s, s.tasks[t].session);
    assert !exists v :: OfSession(s.viewers, s.tasks[t].session, v);
  }

  // ---- Gap-free fan-out ----

  /**
   Whatever joins, removals, overflows and blocking sends interleave, the chunks a viewer has taken
   and those waiting in its queue are one contiguous, in-order block of the upstream that starts
   where the viewer joined. The queue is bounded.
   */
  lemma GapFree(s: State, v: ViewerId)
    requires Reachable(s) && v in s.viewers
    ensures s.viewers[v].session in s.sessions
    ensures var w := s.viewers[v];
            var upstream := s.sessions[w.session].produced;
            && w.End() <= |upstream|
            && w.got == upstream[w.join..w.join + |w.got|]
            && w.queue == upstream[w.join + |w.got|..w.End()]
            && |w.queue| <= VIEWER_QUEUE_SIZE
  {
    var w := s.viewers[v];
    assert w.session in s.sessions && ViewerTrue(s.sessions[w.session], v, w) by { ReachableInv(s); }
    var upstream := s.sessions[w.session].produced;
    SplitBlock(w.got, w.queue, upstream, w.join);
  }

  lemma SplitBlock(a: seq<Bytes>, b: seq<Bytes>, whole: seq<Bytes>, at: nat)
    requires at + |a| + |b| <= |whole| && a + b == whole[at..at + |a| + |b|]
    ensures a == whole[at..at + |a|] && b == whole[at + |a|..at + |a| + |b|]
  {
    assert a == (a + b)[..|a|] && b == (a + b)[|a|..];
  }

  /** Between two reads, every registered viewer has been given everything since it joined: no chunk is skipped. */
  lemma RegisteredIsUpToDate(s: State, v: ViewerId)
    requires Reachable(s) && v in s.viewers && s.viewers[v].fate.Live?
    requires s.viewers[v].session in s.sessions && s.sessions[s.viewers[v].session].phase.Reading?
    ensures s.viewers[v].End() == |s.sessions[s.viewers[v].session].produced|
  {
    ReachableInv(s);
    assert ViewerTrue(s.sessions[s.viewers[v].session], v, s.viewers[v]);
    SoundOf(s, s.viewers[v].session);
  }

  /** The ways a step can change viewer `v`. */
  predicate Moves(s: State, a: Action, v: ViewerId, w': Viewer)
    requires Enabled(s, a) && v in s.viewers
  {
    var w := s.viewers[v];
    || w' == w
    || (a == Deliver(v) && w.queue != [] && w' == w.(queue := w.queue[1..], got := w.got + [w.queue[0]]))
    || (a.Sole? && a.how == Enqueued && s.sessions[a.id].phase.viewer == v
        && w' == w.(queue := w.queue + [LastChunk(s.sessions[a.id])]))
    || (a.Multi? && v in s.sessions[a.id].viewers && w' == Offer(w, LastChunk(s.sessions[a.id])))
    || (a.Finish? && s.sessions[a.id].phase.stage == 1 && v in s.sessions[a.id].viewers && w' == w.(fate := Swept))
    || (a == Remove(v) && v in s.sessions[w.session].viewers && w' == w.(fate := Removed))
  }

  lemma SendStep(s: State, a: Action, v: ViewerId)
    requires Enabled(s, a) && v in s.viewers && (a.Sole? || a.Multi? || a.Finish?)
    ensures v in Apply(s, a).viewers && Moves(s, a, v, Apply(s, a).viewers[v])
  {
  }

  lemma QuietLoopStep(s: State, a: Action, v: ViewerId)
    requires Enabled(s, a) && v in s.viewers && LoopAction(a) && !a.Sole? && !a.Multi? && !a.Finish?
    ensures v in Apply(s, a).viewers && Apply(s, a).viewers[v] == s.viewers[v]
  {
  }

  lemma ClientViewerStep(s: State, a: Action, v: ViewerId)
    requires Enabled(s, a) && v in s.viewers && v != s.next && !LoopAction(a)
    ensures v in Apply(s, a).viewers && Moves(s, a, v, Apply(s, a).viewers[v])
  {
  }

  lemma ViewerStep(s: State, a: Action, v: ViewerId)
    requires Enabled(s, a) && v in s.viewers && v != s.next
    ensures v in Apply(s, a).viewers && Moves(s, a, v, Apply(s, a).viewers[v])
  {
    if a.Sole? || a.Multi? || a.Finish? {
      SendStep(s, a, v);
    } else if LoopAction(a) {
      QuietLoopStep(s, a, v);
    } else {
      ClientViewerStep(s, a, v);
    }
  }

  /** Viewer `v` is registered with no session. */
  ghost predicate Unregistered(s: State, v: ViewerId) {
    forall id | id in s.sessions :: v !in s.sessions[id].viewers
  }

  lemma NamedIsLive(s: State, id: SessionId)
    requires Inv(s) && id in s.sessions
    ensures forall v | v in s.sessions[id].viewers ::
      v in s.viewers && s.viewers[v].session == id && s.viewers[v].fate.Live?
  {
    ViewersNamed(s, id);
    forall v | v in s.sessions[id].viewers
      ensures v in s.viewers && s.viewers[v].session == id && s.viewers[v].fate.Live?
    {
      assert OfSession(s.viewers, id, v);
      assert ViewerTrue(s.sessions[id], v, s.viewers[v]);
    }
  }

  lemma ClosedIsUnregistered(s: State, v: ViewerId)
    requires Inv(s) && v in s.viewers && s.viewers[v].Closed()
    ensures Unregistered(s, v)
  {
    forall id | id in s.sessions ensures v !in s.sessions[id].viewers {
      NamedIsLive(s, id);
    }
  }

  /** The target of a blocking send belongs to the session and was neither dropped nor closed by finish. */
  lemma TargetIsOpen(s: State, id: SessionId)
    requires Inv(s) && id in s.sessions && s.sessions[id].phase.SoleSend?
    ensures var v := s.sessions[id].phase.viewer;
            v in s.viewers && s.viewers[v].session == id && (s.viewers[v].fate.Live? || s.viewers[v].fate.Removed?)
  {
    var v := s.sessions[id].phase.viewer;
    SoundOf(s, id);
    assert v in Named(s.sessions[id]);
    assert OfSession(s.viewers, id, v);
    assert ViewerTrue(s.sessions[id], v, s.viewers[v]);
  }

  lemma FreshId(s: State, v: ViewerId)
    requires Inv(s) && v in s.viewers
    ensures v != s.next && s.viewers[v].session in s.sessions && s.viewers[v].session != s.next
  {
  }

  /** A step hands a viewer the next chunk of its block or nothing; where it joined never changes. */
  lemma StepExtendsGot(s: State, a: Action, v: ViewerId)
    requires Reachable(s) && Enabled(s, a) && v in s.viewers
    ensures v in Apply(s, a).viewers
    ensures var w, w' := s.viewers[v], Apply(s, a).viewers[v];
            && w'.session == w.session && w'.join == w.join
            && (w'.got == w.got || (a == Deliver(v) && w.queue != [] && w'.got == w.got + [w.queue[0]]))
            && (w.Closed() ==> w'.fate == w.fate)
  {
    ReachableInv(s);
    FreshId(s, v);
    if s.viewers[v].Closed() { ClosedIsUnregistered(s, v); }
    GotStep(s, a, v);
  }

  lemma GotStep(s: State, a: Action, v: ViewerId)
    requires Enabled(s, a) && v in s.viewers && v != s.next && s.viewers[v].session in s.sessions
    requires s.viewers[v].Closed() ==> Unregistered(s, v)
    ensures v in Apply(s, a).viewers
    ensures var w, w' := s.viewers[v], Apply(s, a).viewers[v];
            && w'.session == w.session && w'.join == w.join
            && (w'.got == w.got || (a == Deliver(v) && w.queue != [] && w'.got == w.got + [w.queue[0]]))
            && (w.Closed() ==> w'.fate == w.fate)
  {
    ViewerStep(s, a, v);
  }

  // ---- End of stream ----

  /** Once finish has closed the viewers, the upstream was read to its end unless somebody cancelled. */
  lemma SweptHasEnded(s: State, id: SessionId)
    requires Reachable(s) && id in s.sessions && s.sessions[id].Swept()
    ensures s.sessions[id].ended || s.sessions[id].aborted || s.sessions[id].failed
  {
    ReachableInv(s);
    SoundOf(s, id);
  }

  /** A session that failed to open has no viewers. */
  lemma FailedHasNoViewers(s: State, v: ViewerId)
    requires Reachable(s) && v in s.viewers
    ensures s.viewers[v].session in s.sessions && !s.sessions[s.viewers[v].session].failed
  {
    ReachableInv(s);
    SoundOf(s, s.viewers[v].session);
    assert OfSession(s.viewers, s.viewers[v].session, v);
  }

  /**
   A viewer that finish closed, when it sees the end of the file, has been given every chunk from
   its joining point on; the one exception is a viewer whose blocking send was given up because
   somebody cancelled the session, and it misses exactly the last chunk. Unless somebody cancelled,
   the chunks go up to the upstream's end. (`StreamEndings.CompleteIff` says when a send is given up.)
   */
  lemma SweptGetsEverything(s: State, v: ViewerId)
    requires Reachable(s) && Enabled(s, Eof(v)) && s.viewers[v].fate.Swept?
    ensures var sess := s.sessions[s.viewers[v].session];
            var join := s.viewers[v].join;
            && join <= |sess.produced|
            && (s.viewers[v].got == sess.produced[join..] <==> v !in sess.skipped)
            && (v in sess.skipped ==> sess.aborted && join < |sess.produced| && s.viewers[v].got == sess.produced[join..|sess.produced| - 1])
            && (sess.ended || sess.aborted)
  {
    var w := s.viewers[v];
    var sess := s.sessions[w.session];
    assert SessionTrue(sess) && ViewerTrue(sess, v, w) && (v in sess.skipped ==> sess.produced != []) by {
      ReachableInv(s);
      SoundOf(s, w.session);
    }
    assert w.got + w.queue == w.got;
    FailedHasNoViewers(s, v);
  }

  /**
   The only viewer a session ever had, if it is not taken away and nobody cancels the session, reads
   the whole upstream body, to its end and in order, before it sees the end of the file.
   */
  lemma SoleViewerGetsWholeBody(s: State, v: ViewerId)
    requires Reachable(s) && Enabled(s, Eof(v)) && !s.viewers[v].fate.Removed?
    requires !Crowded(s.viewers, s.viewers[v].session) && !s.sessions[s.viewers[v].session].aborted
    ensures s.viewers[v].got == s.sessions[s.viewers[v].session].produced
    ensures s.sessions[s.viewers[v].session].ended
  {
    var id := s.viewers[v].session;
    assert s.viewers[v].join == 0 && s.viewers[v].fate.Swept? by {
      ReachableInv(s);
      SoundOf(s, id);
      assert OfSession(s.viewers, id, v);
    }
    SweptGetsEverything(s, v);
  }

  /** A viewer is dropped only from a session that has had several viewers. */
  lemma SoleViewerNeverDropped(s: State, v: ViewerId)
    requires Reachable(s) && v in s.viewers && s.viewers[v].fate.Dropped?
    ensures Crowded(s.viewers, s.viewers[v].session)
  {
    ReachableInv(s);
    SoundOf(s, s.viewers[v].session);
    assert OfSession(s.viewers, s.viewers[v].session, v);
  }

  /** Nothing is enqueued any more for a viewer that was dropped or closed by finish and has drained its queue. */
  lemma EofIsFinal(s: State, a: Action, v: ViewerId)
    requires Reachable(s) && Enabled(s, a)
    requires v in s.viewers && (s.viewers[v].fate.Swept? || s.viewers[v].fate.Dropped?) && s.viewers[v].queue == []
    ensures v in Apply(s, a).viewers && Apply(s, a).viewers[v] == s.viewers[v]
  {
    ReachableInv(s);
    FreshId(s, v);
    ClosedIsUnregistered(s, v);
    if a.Sole? { TargetIsOpen(s, a.id); }
    QuietStep(s, a, v);
  }

  /** A viewer with nothing queued that no broadcast, sweep or removal reaches stays as it is. */
  lemma QuietStep(s: State, a: Action, v: ViewerId)
    requires Enabled(s, a) && v in s.viewers && s.viewers[v].session in s.sessions
    requires s.viewers[v].queue == [] && OutOfReach(s, a, v)
    requires a == Remove(v) ==> v !in s.sessions[s.viewers[v].session].viewers
    ensures v in Apply(s, a).viewers && Apply(s, a).viewers[v] == s.viewers[v]
  {
    ViewerStep(s, a, v);
  }

  // ---- Viewers that come too late ----

  lemma PhaseKept(s: State, a: Action, id: SessionId)
    requires Enabled(s, a) && id in s.sessions && id != s.next && !LoopAction(a)
    ensures id in Apply(s, a).sessions && Apply(s, a).sessions[id].phase == s.sessions[id].phase
  {
  }

  lemma PhaseMoves(s: State, a: Action, id: SessionId)
    requires Enabled(s, a) && id in s.sessions && LoopAction(a)
    requires Closing(s.sessions[id].phase) && a != Finish(id)
    ensures id in Apply(s, a).sessions && Apply(s, a).sessions[id].phase == s.sessions[id].phase
  {
    assert a.id != id;
  }

  lemma SweptStays(s: State, a: Action, id: SessionId)
    requires Enabled(s, a) && id in s.sessions && s.sessions[id].Swept() && id != s.next
    ensures id in Apply(s, a).sessions && Apply(s, a).sessions[id].Swept()
  {
    if !LoopAction(a) {
      PhaseKept(s, a, id);
    } else if a != Finish(id) {
      PhaseMoves(s, a, id);
    }
  }

  lemma LateIsUnreached(s: State, a: Action, v: ViewerId)
    requires Inv(s) && Enabled(s, a) && v in s.viewers && s.viewers[v].session in s.sessions
    requires s.sessions[s.viewers[v].session].Swept()
    ensures OutOfReach(s, a, v)
  {
    FreshId(s, v);
    if a.Sole? { TargetIsOpen(s, a.id); }
    if a.Multi? || a.Finish? { NamedIsLive(s, a.id); }
  }

  /**
   Once finish has closed the viewers of a session, one registered afterwards gets neither a chunk
   nor the end of the file, and no step but its own removal changes that.
   */
  lemma LateViewerStarves(s: State, a: Action, v: ViewerId)
    requires Reachable(s) && Enabled(s, a) && v in s.viewers && s.viewers[v].fate.Live?
    requires s.viewers[v].session in s.sessions && s.sessions[s.viewers[v].session].Swept()
    ensures s.viewers[v].got == [] && !Enabled(s, Deliver(v)) && !Enabled(s, Eof(v))
    ensures a != Remove(v) ==> v in Apply(s, a).viewers && Apply(s, a).viewers[v] == s.viewers[v]
    ensures s.viewers[v].session in Apply(s, a).sessions && Apply(s, a).sessions[s.viewers[v].session].Swept()
  {
    assert s.viewers[v].got == [] && s.viewers[v].queue == [] && OutOfReach(s, a, v) by {
      ReachableInv(s);
      FreshId(s, v);
      LateHasNothing(s, v);
      LateIsUnreached(s, a, v);
    }
    LateStep(s, a, v);
  }

  /** No send, broadcast or sweep of the step `a` can reach viewer `v`. */
  predicate OutOfReach(s: State, a: Action, v: ViewerId)
    requires Enabled(s, a) && v in s.viewers
  {
    && v != s.next && s.viewers[v].session != s.next
    && (a.Sole? ==> s.sessions[a.id].phase.viewer != v)
    && (a.Multi? || (a.Finish? && s.sessions[a.id].phase.stage == 1) ==> v !in s.sessions[a.id].viewers)
  }

  lemma LateHasNothing(s: State, v: ViewerId)
    requires Inv(s) && v in s.viewers && s.viewers[v].fate.Live?
    requires s.viewers[v].session in s.sessions && s.sessions[s.viewers[v].session].Swept()
    ensures s.viewers[v].got == [] && s.viewers[v].queue == []
  {
    assert ViewerTrue(s.sessions[s.viewers[v].session], v, s.viewers[v]);
  }

  lemma LateStep(s: State, a: Action, v: ViewerId)
    requires Enabled(s, a) && v in s.viewers && s.viewers[v].queue == [] && OutOfReach(s, a, v)
    requires s.viewers[v].session in s.sessions && s.sessions[s.viewers[v].session].Swept()
    ensures a != Remove(v) ==> v in Apply(s, a).viewers && Apply(s, a).viewers[v] == s.viewers[v]
    ensures s.viewers[v].session in Apply(s, a).sessions && Apply(s, a).sessions[s.viewers[v].session].Swept()
  {
    SweptStays(s, a, s.viewers[v].session);
    if a != Remove(v) { QuietStep(s, a, v); }
  }
}
