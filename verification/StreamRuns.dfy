/**
 What viewers get over a whole run, in terms of what the run's reads returned: the chunks that the
 upstream delivered, in order, the one that came together with its end included.
 */
module StreamRuns {
  import opened Prelude
  import opened StreamProtocol
  import opened StreamInvariant
  import opened StreamPreservation
  import opened StreamTheorems
  import opened StreamEndings

  predicate ReadsOf(a: Action, id: SessionId) {
    a.Read? && a.id == id
  }

  /** The chunks that the reads of session `id` returned in the first `j` steps. */
  function ReadChunks(actions: seq<Action>, j: nat, id: SessionId): seq<Bytes>
    requires j <= |actions|
  {
    if j == 0 then []
    else ReadChunks(actions, j - 1, id)
         + (if ReadsOf(actions[j - 1], id) && actions[j - 1].chunk != [] then [actions[j - 1].chunk] else [])
  }

  /** Some step before `j` cancelled session `id`: a client that saw it empty, or its own loop. */
  ghost predicate CancelledBy(states: seq<State>, actions: seq<Action>, j: nat, id: SessionId)
    requires Run(states, actions) && j < |states|
  {
    exists i :: 0 <= i < j && Cancels(states[i], actions[i], id)
  }

  predicate Cancels(s: State, a: Action, id: SessionId) {
    a == CancelEmpty(id) || (a.Cancel? && a.t in s.tasks && s.tasks[a.t].Cancelling? && s.tasks[a.t].session == id)
  }

  /** Some read before `j` reported the upstream's end or its error. */
  ghost predicate EndRead(actions: seq<Action>, j: nat, id: SessionId)
    requires j <= |actions|
  {
    exists r :: 0 <= r < j && ReadsOf(actions[r], id) && actions[r].last
  }

  // ---- One step ----

  /** A session's history after a step, from its history before. */
  predicate HistoryStep(s: State, a: Action, id: SessionId, x: Session, y: Session) {
    && y.produced == x.produced + (if ReadsOf(a, id) && a.chunk != [] then [a.chunk] else [])
    && y.ended == (if ReadsOf(a, id) then a.last else x.ended)
    && y.aborted == (x.aborted || Cancels(s, a, id))
  }

  /** Nothing a session has a history of happens. */
  predicate SameHistory(x: Session, y: Session) {
    y.produced == x.produced && y.ended == x.ended && y.aborted == x.aborted
  }

  lemma ReadHistory(s: State, id: SessionId, chunk: Bytes, last: bool)
    requires Enabled(s, Read(id, chunk, last))
    ensures id in s.sessions && id in Apply(s, Read(id, chunk, last)).sessions
    ensures HistoryStep(s, Read(id, chunk, last), id, s.sessions[id], Apply(s, Read(id, chunk, last)).sessions[id])
  {
  }

  lemma SoleHistory(s: State, id: SessionId, how: Send)
    requires Enabled(s, Sole(id, how))
    ensures id in s.sessions && id in Apply(s, Sole(id, how)).sessions
    ensures SameHistory(s.sessions[id], Apply(s, Sole(id, how)).sessions[id])
  {
  }

  lemma MultiHistory(s: State, id: SessionId)
    requires Enabled(s, Multi(id))
    ensures id in s.sessions && id in Apply(s, Multi(id)).sessions
    ensures SameHistory(s.sessions[id], Apply(s, Multi(id)).sessions[id])
  {
  }

  lemma SendHistory(s: State, a: Action)
    requires Enabled(s, a) && (a.Sole? || a.Multi? || a.CancelEmpty?)
    ensures a.id in s.sessions && a.id in Apply(s, a).sessions
    ensures HistoryStep(s, a, a.id, s.sessions[a.id], Apply(s, a).sessions[a.id])
  {
    match a
    case Sole(id, how) => SoleHistory(s, id, how);
    case Multi(id) => MultiHistory(s, id);
    case CancelEmpty(_) =>
  }

  lemma CountHistory(s: State, id: SessionId)
    requires Enabled(s, Count(id))
    ensures id in Apply(s, Count(id)).sessions && SameHistory(s.sessions[id], Apply(s, Count(id)).sessions[id])
  {
    var sess := s.sessions[id];
    if |sess.viewers| == 1 {
      assert ApplyCount(s, id) == SetPhase(s, id, SoleSend(Only(sess.viewers), sess.phase.last));
    } else {
      assert ApplyCount(s, id) == SetPhase(s, id, MultiSend(sess.phase.last));
    }
  }

  lemma CheckHistory(s: State, id: SessionId)
    requires Enabled(s, Check(id))
    ensures id in Apply(s, Check(id)).sessions && SameHistory(s.sessions[id], Apply(s, Check(id)).sessions[id])
  {
    if s.sessions[id].phase.last || s.sessions[id].cancelled {
      assert ApplyCheck(s, id) == SetPhase(s, id, Finishing(0));
    } else {
      assert ApplyCheck(s, id) == SetPhase(s, id, Reading);
    }
  }

  lemma FinishHistory(s: State, id: SessionId)
    requires Enabled(s, Finish(id))
    ensures id in Apply(s, Finish(id)).sessions && SameHistory(s.sessions[id], Apply(s, Finish(id)).sessions[id])
  {
    if s.sessions[id].phase.stage != 1 { FinishShape(s, id); }
  }

  lemma OpenHistory(s: State, a: Action)
    requires Enabled(s, a) && (a.Opened? || a.Begin? || a.Abandon?)
    ensures a.id in s.sessions && a.id in Apply(s, a).sessions
    ensures SameHistory(s.sessions[a.id], Apply(s, a).sessions[a.id])
  {
  }

  lemma PhaseHistory(s: State, a: Action)
    requires Enabled(s, a) && (a.Opened? || a.Begin? || a.Abandon? || a.Count? || a.Check? || a.Finish?)
    ensures a.id in s.sessions && a.id in Apply(s, a).sessions
    ensures SameHistory(s.sessions[a.id], Apply(s, a).sessions[a.id])
  {
    match a
    case Count(id) => CountHistory(s, id);
    case Check(id) => CheckHistory(s, id);
    case Finish(id) => FinishHistory(s, id);
    case _ => OpenHistory(s, a);
  }

  lemma LoopHistory(s: State, a: Action)
    requires Enabled(s, a) && LoopAction(a)
    ensures a.id in s.sessions && a.id in Apply(s, a).sessions
    ensures HistoryStep(s, a, a.id, s.sessions[a.id], Apply(s, a).sessions[a.id])
  {
    if a.Read? {
      ReadHistory(s, a.id, a.chunk, a.last);
    } else if a.Sole? || a.Multi? || a.CancelEmpty? {
      SendHistory(s, a);
    } else {
      PhaseHistory(s, a);
    }
  }

  lemma CancelHistory(s: State, t: TaskId, id: SessionId)
    requires Enabled(s, Cancel(t)) && id in s.sessions
    ensures id in Apply(s, Cancel(t)).sessions
    ensures HistoryStep(s, Cancel(t), id, s.sessions[id], Apply(s, Cancel(t)).sessions[id])
  {
  }

  lemma QuietClientHistory(s: State, a: Action, id: SessionId)
    requires Enabled(s, a) && !LoopAction(a) && !a.Cancel? && id in s.sessions && id != s.next
    ensures id in Apply(s, a).sessions && SameHistory(s.sessions[id], Apply(s, a).sessions[id])
  {
  }

  lemma ClientHistory(s: State, a: Action, id: SessionId)
    requires Enabled(s, a) && !LoopAction(a) && id in s.sessions && id != s.next
    ensures id in Apply(s, a).sessions && HistoryStep(s, a, id, s.sessions[id], Apply(s, a).sessions[id])
  {
    if a.Cancel? { CancelHistory(s, a.t, id); } else { QuietClientHistory(s, a, id); }
  }

  lemma StepHistory(s: State, a: Action, id: SessionId)
    requires Enabled(s, a) && id in s.sessions && id != s.next
    ensures id in Apply(s, a).sessions && HistoryStep(s, a, id, s.sessions[id], Apply(s, a).sessions[id])
  {
    if LoopAction(a) {
      LoopHistory(s, a);
      if a.id != id { LoopChangesOwn(s, a); }
    } else {
      ClientHistory(s, a, id);
    }
  }

  lemma BornEmpty(s: State, a: Action, id: SessionId)
    requires Enabled(s, a) && id !in s.sessions
    ensures !ReadsOf(a, id) && !Cancels(s, a, id)
    ensures id in Apply(s, a).sessions ==>
      var y := Apply(s, a).sessions[id]; y.produced == [] && !y.ended && !y.aborted
  {
    if LoopAction(a) {
      LoopChangesOwn(s, a);
    } else {
      BornOutside(s, a, id);
    }
  }

  lemma BornOutside(s: State, a: Action, id: SessionId)
    requires Enabled(s, a) && !LoopAction(a) && id !in s.sessions
    ensures !Cancels(s, a, id)
    ensures id in Apply(s, a).sessions ==>
      var y := Apply(s, a).sessions[id]; y.produced == [] && !y.ended && !y.aborted
  {
  }

  // ---- Runs ----

  lemma RunStep(states: seq<State>, actions: seq<Action>, i: nat)
    requires Run(states, actions) && i < |actions|
    ensures Enabled(states[i], actions[i]) && states[i + 1] == Apply(states[i], actions[i])
  {
  }

  /** A session's history fields say what happened in the run. */
  ghost predicate HistoryTold(states: seq<State>, actions: seq<Action>, j: nat, id: SessionId)
    requires Run(states, actions) && j < |states|
  {
    if id in states[j].sessions then
      var sess := states[j].sessions[id];
      && sess.produced == ReadChunks(actions, j, id)
      && (sess.ended <==> EndRead(actions, j, id))
      && (sess.aborted <==> CancelledBy(states, actions, j, id))
    else ReadChunks(actions, j, id) == [] && !EndRead(actions, j, id) && !CancelledBy(states, actions, j, id)
  }

  lemma EndReadStep(actions: seq<Action>, j: nat, id: SessionId)
    requires j < |actions|
    ensures EndRead(actions, j + 1, id) <==> EndRead(actions, j, id) || (ReadsOf(actions[j], id) && actions[j].last)
  {
  }

  lemma CancelledStep(states: seq<State>, actions: seq<Action>, j: nat, id: SessionId)
    requires Run(states, actions) && j < |actions|
    ensures CancelledBy(states, actions, j + 1, id)
       <==> CancelledBy(states, actions, j, id) || Cancels(states[j], actions[j], id)
  {
  }

  lemma {:induction false} ToldStep(states: seq<State>, actions: seq<Action>, j: nat, id: SessionId)
    requires Run(states, actions) && j < |actions| && HistoryTold(states, actions, j, id)
    requires id in states[j].sessions && id in states[j + 1].sessions
    requires HistoryStep(states[j], actions[j], id, states[j].sessions[id], states[j + 1].sessions[id])
    requires ReadsOf(actions[j], id) ==> !states[j].sessions[id].ended
    ensures HistoryTold(states, actions, j + 1, id)
  {
    EndReadStep(actions, j, id);
    CancelledStep(states, actions, j, id);
  }

  lemma BornTold(states: seq<State>, actions: seq<Action>, j: nat, id: SessionId)
    requires Run(states, actions) && j < |actions| && HistoryTold(states, actions, j, id) && id !in states[j].sessions
    ensures HistoryTold(states, actions, j + 1, id)
  {
    RunStep(states, actions, j);
    BornEmpty(states[j], actions[j], id);
  }

  lemma ReadsUnended(s: State, a: Action, id: SessionId)
    requires Reachable(s) && Enabled(s, a) && ReadsOf(a, id)
    ensures !s.sessions[id].ended
  {
    ReachableInv(s);
    SoundOf(s, id);
  }

  /** In every run the chunks a session has produced are those its reads returned, in order; it has
    * ended exactly if a read said so, and been cancelled exactly by the steps that do. */
  lemma {:induction false} ProducedIsRead(states: seq<State>, actions: seq<Action>, j: nat, id: SessionId)
    requires Run(states, actions) && states[0] == Initial() && j < |states|
    ensures HistoryTold(states, actions, j, id)
  {
    if j > 0 {
      var s, a := states[j - 1], actions[j - 1];
      ProducedIsRead(states, actions, j - 1, id);
      if id in s.sessions {
        RunStep(states, actions, j - 1);
        StreamEndings.ReachedBy(states, actions, j - 1);
        assert id != s.next by { ReachableInv(s); }
        StepHistory(s, a, id);
        if ReadsOf(a, id) { ReadsUnended(s, a, id); }
        ToldStep(states, actions, j - 1, id);
      } else {
        BornTold(states, actions, j - 1, id);
      }
    }
  }

  /** In every run, what a viewer has taken is what the reads returned from its joining point on. */
  lemma TakesWhatWasRead(states: seq<State>, actions: seq<Action>, j: nat, v: ViewerId)
    requires Run(states, actions) && states[0] == Initial() && j < |states| && v in states[j].viewers
    ensures var w := states[j].viewers[v];
            var read := ReadChunks(actions, j, w.session);
            && w.join + |w.got| <= |read| && w.got == read[w.join..w.join + |w.got|]
  {
    StreamEndings.ReachedBy(states, actions, j);
    GapFree(states[j], v);
    ProducedIsRead(states, actions, j, states[j].viewers[v].session);
  }

  /** In every run a viewer that registers at step `p` joins at the first chunk not read by then, or
    * at the one that is being handed out. */
  lemma JoinsAtNext(states: seq<State>, actions: seq<Action>, p: nat, j: nat, v: ViewerId)
    requires Run(states, actions) && states[0] == Initial() && p < j < |states|
    requires actions[p].Add? && v == states[p].next
    ensures v in states[j].viewers
    ensures var w := states[j].viewers[v];
            |ReadChunks(actions, p, w.session)| - 1 <= w.join <= |ReadChunks(actions, p, w.session)|
  {
    RunStep(states, actions, p);
    var id := states[p].tasks[actions[p].t].session;
    var join := JoinNow(states[p], actions[p].t);
    ProducedIsRead(states, actions, p, id);
    for k := p + 1 to j
      invariant JoinedAs(states[k], v, id, join)
    {
      RunStep(states, actions, k);
      StreamEndings.ReachedBy(states, actions, k);
      StaysJoined(states[k], actions[k], v, id, join);
    }
  }

  predicate JoinedAs(s: State, v: ViewerId, id: SessionId, join: nat) {
    v in s.viewers && s.viewers[v].session == id && s.viewers[v].join == join
  }

  lemma JoinNow(s: State, t: TaskId) returns (join: nat)
    requires Enabled(s, Add(t))
    ensures JoinedAs(Apply(s, Add(t)), s.next, s.tasks[t].session, join)
    ensures |s.sessions[s.tasks[t].session].produced| - 1 <= join <= |s.sessions[s.tasks[t].session].produced|
  {
    join := NextChunk(s.sessions[s.tasks[t].session]);
  }

  lemma StaysJoined(s: State, a: Action, v: ViewerId, id: SessionId, join: nat)
    requires Reachable(s) && Enabled(s, a) && JoinedAs(s, v, id, join)
    ensures JoinedAs(Apply(s, a), v, id, join)
  {
    StepExtendsGot(s, a, v);
  }

  /** In every run a viewer that finish closed sees its end of file with all that was read since it
    * joined if and only if no step gave up a send to it. */
  lemma CompleteInRun(states: seq<State>, actions: seq<Action>, j: nat, v: ViewerId)
    requires Run(states, actions) && states[0] == Initial() && j < |states|
    requires Enabled(states[j], Eof(v)) && states[j].viewers[v].fate.Swept?
    ensures var w := states[j].viewers[v];
            var read := ReadChunks(actions, j, w.session);
            && w.join <= |read|
            && (w.got == read[w.join..] <==> !GivenUp(states, actions, j, w.session, v))
  {
    CompleteIff(states, actions, j, v);
    ProducedIsRead(states, actions, j, states[j].viewers[v].session);
  }

  /** The last read of session `id` before `j`: it reported the end. */
  ghost predicate LastRead(actions: seq<Action>, j: nat, id: SessionId, r: int)
    requires j <= |actions|
  {
    0 <= r < j && ReadsOf(actions[r], id) && actions[r].last && forall k | r < k < j :: !ReadsOf(actions[k], id)
  }

  lemma {:induction false} NothingRead(actions: seq<Action>, r: nat, j: nat, id: SessionId)
    requires r <= j <= |actions| && forall k | r <= k < j :: !ReadsOf(actions[k], id)
    ensures ReadChunks(actions, j, id) == ReadChunks(actions, r, id)
  {
    if r < j { NothingRead(actions, r, j - 1, id); }
  }

  lemma NoReadAfterEnd(states: seq<State>, actions: seq<Action>, k: nat, id: SessionId)
    requires Run(states, actions) && states[0] == Initial() && k < |actions| && EndRead(actions, k, id)
    ensures !ReadsOf(actions[k], id)
  {
    RunStep(states, actions, k);
    ProducedIsRead(states, actions, k, id);
    if ReadsOf(actions[k], id) {
      StreamEndings.ReachedBy(states, actions, k);
      ReadsUnended(states[k], actions[k], id);
    }
  }

  /** A read that reports the end is the last. */
  lemma EndIsLast(states: seq<State>, actions: seq<Action>, j: nat, id: SessionId) returns (r: int)
    requires Run(states, actions) && states[0] == Initial() && j < |states| && EndRead(actions, j, id)
    ensures LastRead(actions, j, id, r)
  {
    r :| 0 <= r < j && ReadsOf(actions[r], id) && actions[r].last;
    forall k | r < k < j ensures !ReadsOf(actions[k], id) {
      NoReadAfterEnd(states, actions, k, id);
    }
  }

  /** Everything read, the chunk that came with the end last. */
  lemma ReadToEnd(actions: seq<Action>, j: nat, id: SessionId, r: int)
    requires j <= |actions| && LastRead(actions, j, id, r)
    ensures ReadChunks(actions, j, id)
         == ReadChunks(actions, r, id) + (if actions[r].chunk != [] then [actions[r].chunk] else [])
  {
    NothingRead(actions, r + 1, j, id);
  }

  lemma SoleViewerEnds(states: seq<State>, actions: seq<Action>, j: nat, v: ViewerId)
    requires Run(states, actions) && states[0] == Initial() && j < |states|
    requires Enabled(states[j], Eof(v)) && !states[j].viewers[v].fate.Removed?
    requires !Crowded(states[j].viewers, states[j].viewers[v].session)
    requires !CancelledBy(states, actions, j, states[j].viewers[v].session)
    ensures var w := states[j].viewers[v];
            w.got == ReadChunks(actions, j, w.session) && EndRead(actions, j, w.session)
  {
    StreamEndings.ReachedBy(states, actions, j);
    ProducedIsRead(states, actions, j, states[j].viewers[v].session);
    SoleViewerGetsWholeBody(states[j], v);
  }

  /**
   In every run, the only viewer a session ever had, if it is not taken away and no step cancels the
   session, reads exactly the chunks that the upstream delivered, and the last of its reads reported
   the end: a chunk that came with it is the last the viewer gets.
   */
  lemma SoleViewerReadsAll(states: seq<State>, actions: seq<Action>, j: nat, v: ViewerId) returns (r: int)
    requires Run(states, actions) && states[0] == Initial() && j < |states|
    requires Enabled(states[j], Eof(v)) && !states[j].viewers[v].fate.Removed?
    requires !Crowded(states[j].viewers, states[j].viewers[v].session)
    requires !CancelledBy(states, actions, j, states[j].viewers[v].session)
    ensures var w := states[j].viewers[v];
            && w.got == ReadChunks(actions, j, w.session) && LastRead(actions, j, w.session, r)
            && w.got == ReadChunks(actions, r, w.session) + (if actions[r].chunk != [] then [actions[r].chunk] else [])
  {
    var id := states[j].viewers[v].session;
    SoleViewerEnds(states, actions, j, v);
    r := EndIsLast(states, actions, j, id);
    ReadToEnd(actions, j, id, r);
  }
}
