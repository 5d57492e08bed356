/**
 How streams end for their viewers: which steps lose a viewer its last chunk, which viewers are
 never told of the end, and that what was read up to the end is all there is.
 */
module StreamEndings {
  import opened Prelude
  import opened StreamProtocol
  import opened StreamInvariant
  import opened StreamPreservation
  import opened StreamTheorems

  // ---- What a step does to a session's record ----

  /** A step of a read loop changes its own session's record only. */
  lemma LoopChangesOwn(s: State, a: Action)
    requires Enabled(s, a) && LoopAction(a)
    ensures a.id in s.sessions && a.id in Apply(s, a).sessions
    ensures Apply(s, a).sessions == s.sessions[a.id := Apply(s, a).sessions[a.id]]
  {
  }

  /** A step of a client leaves what the read loop has done as it is. */
  predicate SameProgress(a: Session, b: Session) {
    b.phase == a.phase && b.produced == a.produced && b.ended == a.ended && b.skipped == a.skipped
  }

  lemma ClientKeepsProgress(s: State, a: Action, id: SessionId)
    requires Enabled(s, a) && !LoopAction(a) && id in s.sessions && id != s.next
    ensures id in Apply(s, a).sessions && SameProgress(s.sessions[id], Apply(s, a).sessions[id])
  {
  }

  /** What a step of a read loop may have done to its session. */
  predicate LoopMoves(s: State, a: Action, x: Session, y: Session)
    requires Enabled(s, a)
  {
    && (!a.Read? ==> y.produced == x.produced && y.ended == x.ended)
    && y.skipped == (if a.Sole? && a.how == Cancelled && x.phase.SoleSend? then x.skipped + {x.phase.viewer} else x.skipped)
    && (y.Swept() && !x.Swept() ==> a.Finish? && x.phase.Finishing? && x.phase.stage == 1)
  }

  lemma SoleRecord(s: State, id: SessionId, how: Send)
    requires Enabled(s, Sole(id, how))
    ensures id in Apply(s, Sole(id, how)).sessions
    ensures LoopMoves(s, Sole(id, how), s.sessions[id], Apply(s, Sole(id, how)).sessions[id])
  {
  }

  lemma MultiRecord(s: State, a: Action, s': State)
    requires Enabled(s, a) && s' == Apply(s, a) && a.Multi?
    ensures a.id in s'.sessions && LoopMoves(s, a, s.sessions[a.id], s'.sessions[a.id])
  {
  }

  lemma CancelRecord(s: State, a: Action, s': State)
    requires Enabled(s, a) && s' == Apply(s, a) && a.CancelEmpty?
    ensures a.id in s'.sessions && LoopMoves(s, a, s.sessions[a.id], s'.sessions[a.id])
  {
  }

  lemma FinishRecord(s: State, id: SessionId)
    requires Enabled(s, Finish(id))
    ensures id in Apply(s, Finish(id)).sessions
    ensures LoopMoves(s, Finish(id), s.sessions[id], Apply(s, Finish(id)).sessions[id])
  {
    if s.sessions[id].phase.stage != 1 {
      FinishShape(s, id);
    }
  }

  lemma OpenRecord(s: State, a: Action, s': State)
    requires Enabled(s, a) && s' == Apply(s, a) && a.Opened?
    ensures a.id in s'.sessions && LoopMoves(s, a, s.sessions[a.id], s'.sessions[a.id])
  {
  }

  lemma WaitRecord(s: State, a: Action, s': State)
    requires Enabled(s, a) && s' == Apply(s, a) && (a.Begin? || a.Abandon?)
    ensures a.id in s'.sessions && LoopMoves(s, a, s.sessions[a.id], s'.sessions[a.id])
  {
  }

  lemma ReadRecord(s: State, id: SessionId, chunk: Bytes, last: bool)
    requires Enabled(s, Read(id, chunk, last))
    ensures id in Apply(s, Read(id, chunk, last)).sessions
    ensures LoopMoves(s, Read(id, chunk, last), s.sessions[id], Apply(s, Read(id, chunk, last)).sessions[id])
  {
    var a, x := Read(id, chunk, last), s.sessions[id];
    var y := if chunk == [] then x.(ended := last, phase := Checking(last))
             else x.(ended := last, phase := Broadcasting(last), produced := x.produced + [chunk]);
    assert Apply(s, a).sessions[id] == y;
    assert LoopMoves(s, a, x, y);
  }

  lemma CountRecord(s: State, id: SessionId)
    requires Enabled(s, Count(id))
    ensures id in Apply(s, Count(id)).sessions
    ensures LoopMoves(s, Count(id), s.sessions[id], Apply(s, Count(id)).sessions[id])
  {
    var sess := s.sessions[id];
    if |sess.viewers| == 1 {
      assert ApplyCount(s, id) == SetPhase(s, id, SoleSend(Only(sess.viewers), sess.phase.last));
    } else {
      assert ApplyCount(s, id) == SetPhase(s, id, MultiSend(sess.phase.last));
    }
  }

  lemma CheckRecord(s: State, id: SessionId)
    requires Enabled(s, Check(id))
    ensures id in Apply(s, Check(id)).sessions
    ensures LoopMoves(s, Check(id), s.sessions[id], Apply(s, Check(id)).sessions[id])
  {
    if s.sessions[id].phase.last || s.sessions[id].cancelled {
      assert ApplyCheck(s, id) == SetPhase(s, id, Finishing(0));
    } else {
      assert ApplyCheck(s, id) == SetPhase(s, id, Reading);
    }
  }

  lemma LoopRecord(s: State, a: Action)
    requires Enabled(s, a) && LoopAction(a)
    ensures a.id in s.sessions && a.id in Apply(s, a).sessions
    ensures LoopMoves(s, a, s.sessions[a.id], Apply(s, a).sessions[a.id])
  {
    var s' := Apply(s, a);
    match a
    case Sole(id, how) => SoleRecord(s, id, how);
    case Multi(_) => MultiRecord(s, a, s');
    case CancelEmpty(_) => CancelRecord(s, a, s');
    case Finish(id) => FinishRecord(s, id);
    case Opened(_, _) => OpenRecord(s, a, s');
    case Begin(_) => WaitRecord(s, a, s');
    case Abandon(_) => WaitRecord(s, a, s');
    case Read(id, chunk, last) => ReadRecord(s, id, chunk, last);
    case Count(id) => CountRecord(s, id);
    case Check(id) => CheckRecord(s, id);
  }

  // ---- The upstream's end ----

  /** After the upstream's end nothing more is read: the chunks read by then are the whole body. */
  lemma NothingAfterEnd(s: State, a: Action, id: SessionId)
    requires Reachable(s) && Enabled(s, a) && id in s.sessions && s.sessions[id].ended
    ensures id in Apply(s, a).sessions
    ensures Apply(s, a).sessions[id].produced == s.sessions[id].produced && Apply(s, a).sessions[id].ended
  {
    assert !s.sessions[id].phase.Reading? && id != s.next by {
      ReachableInv(s);
      SoundOf(s, id);
    }
    ProducedKept(s, a, id);
  }

  lemma ProducedKept(s: State, a: Action, id: SessionId)
    requires Enabled(s, a) && id in s.sessions && id != s.next && !s.sessions[id].phase.Reading?
    ensures id in Apply(s, a).sessions
    ensures Apply(s, a).sessions[id].produced == s.sessions[id].produced
    ensures Apply(s, a).sessions[id].ended == s.sessions[id].ended
  {
    if LoopAction(a) {
      LoopChangesOwn(s, a);
      if a.id == id { LoopRecord(s, a); }
    } else {
      ClientKeepsProgress(s, a, id);
    }
  }

  // ---- A blocking send that is given up ----

  /**
   A blocking send to a viewer that is still registered can be given up exactly when the session is
   cancelled; while it is not, the only way on is to deliver the chunk.
   */
  lemma SoleSendOutcome(s: State, id: SessionId, how: Send)
    requires Reachable(s) && id in s.sessions && s.sessions[id].phase.SoleSend?
    requires s.sessions[id].phase.viewer in s.viewers && s.viewers[s.sessions[id].phase.viewer].fate.Live?
    ensures Enabled(s, Sole(id, Cancelled)) <==> s.sessions[id].cancelled
    ensures !s.sessions[id].cancelled && Enabled(s, Sole(id, how)) ==>
      && how == Enqueued
      && Apply(s, Sole(id, how)).viewers[s.sessions[id].phase.viewer].queue
         == s.viewers[s.sessions[id].phase.viewer].queue + [LastChunk(s.sessions[id])]
  {
  }

  /** The step gives up the chunk that is being sent to `v`. */
  predicate GivesUpOn(s: State, a: Action, id: SessionId, v: ViewerId)
    requires Enabled(s, a)
  {
    a == Sole(id, Cancelled) && s.sessions[id].phase.viewer == v
  }

  lemma SkippedStep(s: State, a: Action, id: SessionId, v: ViewerId)
    requires Enabled(s, a) && id in s.sessions && id != s.next
    ensures id in Apply(s, a).sessions
    ensures v in Apply(s, a).sessions[id].skipped <==> v in s.sessions[id].skipped || GivesUpOn(s, a, id, v)
  {
    if LoopAction(a) {
      LoopChangesOwn(s, a);
      if a.id == id { LoopRecord(s, a); }
    } else {
      ClientKeepsProgress(s, a, id);
    }
  }

  /** Some step of the run before state `j` gave up a chunk for `v`. */
  ghost predicate GivenUp(states: seq<State>, actions: seq<Action>, j: nat, id: SessionId, v: ViewerId)
    requires Run(states, actions) && j < |states|
  {
    exists i :: 0 <= i < j && actions[i] == Sole(id, Cancelled) && GivesUpOn(states[i], actions[i], id, v)
  }

  lemma {:induction false} ReachedBy(states: seq<State>, actions: seq<Action>, j: nat)
    requires Run(states, actions) && states[0] == Initial() && j < |states|
    ensures Reachable(states[j])
  {
    var states', actions' := states[..j + 1], actions[..j];
    forall i | 0 <= i < |actions'|
      ensures Enabled(states'[i], actions'[i]) && states'[i + 1] == Apply(states'[i], actions'[i])
    {
      assert Enabled(states[i], actions[i]);
    }
    assert Run(states', actions') && states'[0] == Initial() && states'[|actions'|] == states[j];
  }

  lemma BornClean(s: State, a: Action, id: SessionId)
    requires Enabled(s, a) && !LoopAction(a) && id !in s.sessions && id in Apply(s, a).sessions
    ensures Apply(s, a).sessions[id].skipped == {}
  {
  }

  lemma SkippedBirth(s: State, a: Action, id: SessionId)
    requires Enabled(s, a) && id !in s.sessions && id in Apply(s, a).sessions
    ensures Apply(s, a).sessions[id].skipped == {} && forall v :: !GivesUpOn(s, a, id, v)
  {
    if LoopAction(a) {
      LoopChangesOwn(s, a);
    } else {
      BornClean(s, a, id);
    }
  }

  lemma {:induction false} SkippedIffGivenUp(
      states: seq<State>, actions: seq<Action>, j: nat, id: SessionId, v: ViewerId)
    requires Run(states, actions) && states[0] == Initial() && j < |states|
    ensures id in states[j].sessions ==>
      (v in states[j].sessions[id].skipped <==> GivenUp(states, actions, j, id, v))
    ensures id !in states[j].sessions ==> !GivenUp(states, actions, j, id, v)
  {
    if j > 0 {
      var s, a := states[j - 1], actions[j - 1];
      SkippedIffGivenUp(states, actions, j - 1, id, v);
      assert s.next !in s.sessions by {
        RunKeepsInv(states, actions, j - 1);
      }
      assert Enabled(s, a) && states[j] == Apply(s, a);
      if id in s.sessions {
        SkippedStep(s, a, id, v);
      } else if id in Apply(s, a).sessions {
        SkippedBirth(s, a, id);
      }
      GivenUpStep(states, actions, j, id, v);
    }
  }

  lemma GivenUpStep(states: seq<State>, actions: seq<Action>, j: nat, id: SessionId, v: ViewerId)
    requires Run(states, actions) && 0 < j < |states|
    ensures Enabled(states[j - 1], actions[j - 1])
    ensures GivenUp(states, actions, j, id, v)
       <==> GivenUp(states, actions, j - 1, id, v) || GivesUpOn(states[j - 1], actions[j - 1], id, v)
  {
  }

  /**
   In every run, a viewer that finish closed sees the end of the file with everything since it
   joined if and only if no step gave up a send to it; and such a step can only be taken while the
   session is cancelled (`SoleSendOutcome`).
   */
  lemma CompleteIff(states: seq<State>, actions: seq<Action>, j: nat, v: ViewerId)
    requires Run(states, actions) && states[0] == Initial() && j < |states|
    requires Enabled(states[j], Eof(v)) && states[j].viewers[v].fate.Swept?
    ensures var w := states[j].viewers[v];
            var sess := states[j].sessions[w.session];
            && w.join <= |sess.produced|
            && (w.got == sess.produced[w.join..] <==> !GivenUp(states, actions, j, w.session, v))
  {
    ReachedBy(states, actions, j);
    SweptGetsEverything(states[j], v);
    SkippedIffGivenUp(states, actions, j, states[j].viewers[v].session, v);
  }

  // ---- Viewers that are never told ----

  /** finish closes every viewer that is registered when it empties the map. */
  lemma SweepReachesAll(s: State, id: SessionId, v: ViewerId)
    requires Reachable(s) && Enabled(s, Finish(id)) && s.sessions[id].phase.stage == 1
    requires v in s.viewers && s.viewers[v].session == id && s.viewers[v].fate.Live?
    ensures v in Apply(s, Finish(id)).viewers && Apply(s, Finish(id)).viewers[v].fate.Swept?
  {
    assert v in s.sessions[id].viewers by {
      ReachableInv(s);
      assert ViewerTrue(s.sessions[id], v, s.viewers[v]);
    }
  }

  /** A viewer left open in a session that has closed its viewers: it gets neither chunk nor end. */
  predicate Starves(s: State, v: ViewerId) {
    && v in s.viewers && s.viewers[v].fate.Live?
    && s.viewers[v].session in s.sessions && s.sessions[s.viewers[v].session].Swept()
  }

  lemma StarvingGetsNothing(s: State, v: ViewerId)
    requires Reachable(s) && Starves(s, v)
    ensures s.viewers[v].got == [] && !Enabled(s, Deliver(v)) && !Enabled(s, Eof(v))
  {
    assert s.viewers[v].got == [] && s.viewers[v].queue == [] by {
      ReachableInv(s);
      LateHasNothing(s, v);
    }
  }

  /** A step can make a session swept only by the sweep itself. */
  lemma SweptBy(s: State, a: Action, id: SessionId)
    requires Enabled(s, a) && id in s.sessions && id != s.next && !s.sessions[id].Swept()
    requires id in Apply(s, a).sessions && Apply(s, a).sessions[id].Swept()
    ensures a == Finish(id) && s.sessions[id].phase.stage == 1
  {
    if LoopAction(a) {
      LoopChangesOwn(s, a);
      if a.id == id { LoopRecord(s, a); }
    } else {
      ClientKeepsProgress(s, a, id);
    }
  }

  /** Fates do not go back. */
  lemma LiveBefore(s: State, a: Action, v: ViewerId)
    requires Enabled(s, a) && v in s.viewers && v != s.next && v in Apply(s, a).viewers
    requires Apply(s, a).viewers[v].fate.Live?
    ensures s.viewers[v].fate.Live? && Apply(s, a).viewers[v].session == s.viewers[v].session
  {
    ViewerStep(s, a, v);
  }

  lemma SessionStays(s: State, a: Action, id: SessionId)
    requires Enabled(s, a) && id in s.sessions && id != s.next
    ensures id in Apply(s, a).sessions
  {
    if LoopAction(a) {
      LoopChangesOwn(s, a);
    } else {
      ClientKeepsProgress(s, a, id);
    }
  }

  /** Nobody starts starving after registering. */
  lemma StarvingBefore(s: State, a: Action, v: ViewerId)
    requires Reachable(s) && Enabled(s, a) && v in s.viewers && Starves(Apply(s, a), v)
    ensures Starves(s, v)
  {
    var id := s.viewers[v].session;
    assert v != s.next && id in s.sessions && id != s.next by {
      ReachableInv(s);
      FreshId(s, v);
    }
    LiveBefore(s, a, v);
    if !s.sessions[id].Swept() {
      SweptBy(s, a, id);
      SweepReachesAll(s, id, v);
    }
  }

  /** Nor does it stop, but by the viewer's own removal. */
  lemma StarvingAfter(s: State, a: Action, v: ViewerId)
    requires Reachable(s) && Enabled(s, a) && Starves(s, v) && a != Remove(v)
    ensures Starves(Apply(s, a), v)
  {
    LateViewerStarves(s, a, v);
  }

  lemma StarvingStep(states: seq<State>, actions: seq<Action>, i: nat, v: ViewerId)
    requires Run(states, actions) && states[0] == Initial() && i < |actions|
    requires v in states[i].viewers && actions[i] != Remove(v)
    ensures v in states[i + 1].viewers && (Starves(states[i + 1], v) <==> Starves(states[i], v))
  {
    ReachedBy(states, actions, i);
    assert Enabled(states[i], actions[i]) && states[i + 1] == Apply(states[i], actions[i]);
    StarvingSame(states[i], actions[i], v);
  }

  lemma {:induction false} StarvingAllAlong(
      states: seq<State>, actions: seq<Action>, p: nat, j: nat, v: ViewerId)
    requires Run(states, actions) && states[0] == Initial() && p < j < |states| && v in states[p + 1].viewers
    requires forall i | p < i < j :: actions[i] != Remove(v)
    ensures v in states[j].viewers && (Starves(states[j], v) <==> Starves(states[p + 1], v))
    decreases j
  {
    if p + 1 < j {
      StarvingAllAlong(states, actions, p, j - 1, v);
      StarvingStep(states, actions, j - 1, v);
    }
  }

  /**
   In every run, for a viewer that registers at step `p` and is not removed by its handler up to
   state `j`: it is starving there if and only if finish had closed the session's viewers before it
   registered. Every other viewer is told of the end by the sweep.
   */
  lemma StarvesIff(
      states: seq<State>, actions: seq<Action>, p: nat, j: nat, v: ViewerId)
    requires Run(states, actions) && states[0] == Initial() && p < j < |states|
    requires actions[p].Add? && v == states[p].next
    requires forall i | p < i < j :: actions[i] != Remove(v)
    ensures v in states[j].viewers
    ensures Starves(states[j], v) <==>
      states[p].sessions[states[p].tasks[actions[p].t].session].Swept()
  {
    ReachedBy(states, actions, p);
    assert states[p + 1] == Apply(states[p], actions[p]);
    Registered(states[p], actions[p].t);
    StarvingAllAlong(states, actions, p, j, v);
  }

  lemma StarvingSame(s: State, a: Action, v: ViewerId)
    requires Reachable(s) && Enabled(s, a) && v in s.viewers && a != Remove(v)
    ensures v in Apply(s, a).viewers && (Starves(Apply(s, a), v) <==> Starves(s, v))
  {
    assert v != s.next by { ReachableInv(s); }
    ViewerStep(s, a, v);
    if Starves(Apply(s, a), v) {
      StarvingBefore(s, a, v);
    } else if Starves(s, v) {
      StarvingAfter(s, a, v);
    }
  }

  lemma Registered(s: State, t: TaskId)
    requires Reachable(s) && Enabled(s, Add(t))
    ensures var s' := Apply(s, Add(t));
            && s.next in s'.viewers
            && (Starves(s', s.next) <==> s.sessions[s.tasks[t].session].Swept())
  {
  }
}
