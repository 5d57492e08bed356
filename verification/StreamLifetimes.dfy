/**
 How sessions come to an end: who cancels them, that a cancelled one soon stops reading, and that an
 ended one makes room for the next.
 */
module StreamLifetimes {
  import opened Prelude
  import opened StreamProtocol
  import opened StreamInvariant
  import opened StreamPreservation
  import opened StreamTheorems
  import opened StreamEndings
  import opened StreamRuns

  // ---- Sessions come to an end ----

  /** The loop is behind its last read, if the session is cancelled. */
  predicate PastReading(phase: Phase) {
    !phase.Opening? && !phase.Waiting? && !phase.Reading?
  }

  predicate Stopping(s: State, id: SessionId) {
    id in s.sessions && s.sessions[id].cancelled && PastReading(s.sessions[id].phase)
  }

  lemma ReadStops(s: State, id: SessionId, chunk: Bytes, last: bool)
    requires Enabled(s, Read(id, chunk, last)) && s.sessions[id].cancelled
    ensures Stopping(Apply(s, Read(id, chunk, last)), id)
  {
    var x := s.sessions[id].(ended := last);
    if chunk == [] {
      assert ApplyRead(s, id, chunk, last) == s.(sessions := s.sessions[id := x.(phase := Checking(last))]);
    } else {
      var y := x.(phase := Broadcasting(last), produced := x.produced + [chunk]);
      assert ApplyRead(s, id, chunk, last) == s.(sessions := s.sessions[id := y]);
    }
  }

  lemma CheckStops(s: State, id: SessionId)
    requires Enabled(s, Check(id)) && s.sessions[id].cancelled
    ensures Apply(s, Check(id)).sessions == s.sessions[id := s.sessions[id].(phase := Finishing(0))]
  {
    assert ApplyCheck(s, id) == SetPhase(s, id, Finishing(0));
  }

  lemma CountStops(s: State, id: SessionId)
    requires Enabled(s, Count(id)) && s.sessions[id].cancelled
    ensures Stopping(Apply(s, Count(id)), id)
  {
    var sess := s.sessions[id];
    if |sess.viewers| == 1 {
      assert ApplyCount(s, id) == SetPhase(s, id, SoleSend(Only(sess.viewers), sess.phase.last));
    } else {
      assert ApplyCount(s, id) == SetPhase(s, id, MultiSend(sess.phase.last));
    }
  }

  lemma FinishStops(s: State, id: SessionId)
    requires Enabled(s, Finish(id)) && s.sessions[id].cancelled
    ensures Stopping(Apply(s, Finish(id)), id)
  {
    if s.sessions[id].phase.stage != 1 { FinishShape(s, id); }
  }

  lemma SoleStops(s: State, id: SessionId, how: Send)
    requires Enabled(s, Sole(id, how)) && s.sessions[id].cancelled
    ensures Stopping(Apply(s, Sole(id, how)), id)
  {
  }

  lemma MultiStops(s: State, id: SessionId)
    requires Enabled(s, Multi(id)) && s.sessions[id].cancelled
    ensures Stopping(Apply(s, Multi(id)), id)
  {
  }

  lemma LoopStops(s: State, a: Action)
    requires Enabled(s, a) && LoopAction(a) && Stopping(s, a.id)
    ensures Stopping(Apply(s, a), a.id)
  {
    match a
    case Check(id) => CheckStops(s, id);
    case Count(id) => CountStops(s, id);
    case Finish(id) => FinishStops(s, id);
    case Sole(id, how) => SoleStops(s, id, how);
    case Multi(id) => MultiStops(s, id);
    case _ =>
  }

  lemma ClientLeavesStopping(s: State, a: Action, id: SessionId)
    requires Enabled(s, a) && !LoopAction(a) && Stopping(s, id) && id != s.next
    ensures Stopping(Apply(s, a), id)
  {
  }

  lemma StaysStopping(s: State, a: Action, id: SessionId)
    requires Reachable(s) && Enabled(s, a) && Stopping(s, id)
    ensures Stopping(Apply(s, a), id)
  {
    assert id != s.next by { ReachableInv(s); }
    if !LoopAction(a) {
      ClientLeavesStopping(s, a, id);
    } else if a.id == id {
      LoopStops(s, a);
    } else {
      LoopChangesOwn(s, a);
    }
  }

  /** In every run a cancelled session reads at most once more. */
  lemma CancelledReadsOnce(
      states: seq<State>, actions: seq<Action>, k: nat, j: nat, id: SessionId)
    requires Run(states, actions) && states[0] == Initial() && k < j < |actions|
    requires id in states[k].sessions && states[k].sessions[id].cancelled && ReadsOf(actions[k], id)
    ensures !ReadsOf(actions[j], id)
  {
    RunStep(states, actions, k);
    ReadStops(states[k], id, actions[k].chunk, actions[k].last);
    for i := k + 1 to j
      invariant Stopping(states[i], id)
    {
      RunStep(states, actions, i);
      StreamEndings.ReachedBy(states, actions, i);
      StaysStopping(states[i], actions[i], id);
    }
    RunStep(states, actions, j);
  }

  /** Whoever leaves a session empty goes on to cancel it: the handler of its last viewer, a client that
    * gave up waiting, and the loop that dropped everybody. */
  lemma EmptyIsCancelled(s: State, v: ViewerId, t: TaskId, id: SessionId)
    ensures Enabled(s, Remove(v)) && s.sessions[s.viewers[v].session].viewers <= {v} ==>
      var s' := Apply(s, Remove(v)); s.next in s'.tasks && s'.tasks[s.next] == Cancelling(s.viewers[v].session)
    ensures Enabled(s, GiveUp(t)) && s.sessions[s.tasks[t].session].viewers == {} ==>
      Apply(s, GiveUp(t)).tasks[t] == Cancelling(s.tasks[t].session)
    ensures Enabled(s, Cancel(t)) ==> Apply(s, Cancel(t)).sessions[s.tasks[t].session].cancelled
    ensures Enabled(s, CancelEmpty(id)) ==> Apply(s, CancelEmpty(id)).sessions[id].cancelled
  {
    if Enabled(s, Remove(v)) && s.sessions[s.viewers[v].session].viewers <= {v} {
      assert s.sessions[s.viewers[v].session].viewers - {v} == {};
    }
  }

  /** A broadcast that drops every viewer is followed by the cancellation, any other by the check. */
  lemma DroppingAllCancels(s: State, id: SessionId)
    requires Enabled(s, Multi(id))
    ensures var y := Apply(s, Multi(id)).sessions[id];
            if y.viewers == {} then y.phase == Emptied(s.sessions[id].phase.last)
            else y.phase == Checking(s.sessions[id].phase.last)
  {
  }

  // ---- Ended sessions are forgotten ----

  /** No registered session has ended. */
  ghost predicate RegisteredRun(s: State) {
    forall k | k in s.registry :: s.registry[k] in s.sessions && !s.sessions[s.registry[k]].phase.Ended?
  }

  lemma EndsOnly(s: State, a: Action, id: SessionId)
    requires Enabled(s, a) && LoopAction(a) && id == a.id && !s.sessions[id].phase.Ended?
    ensures id in Apply(s, a).sessions
    ensures Apply(s, a).sessions[id].phase.Ended? ==> a == Finish(id) && s.sessions[id].phase.stage > 2
  {
    match a
    case Check(_) => CheckEndsNot(s, id);
    case Count(_) => CountEndsNot(s, id);
    case Finish(_) => if s.sessions[id].phase.stage != 1 { FinishShape(s, id); }
    case Sole(_, how) => SoleEndsNot(s, id, how);
    case Multi(_) => MultiEndsNot(s, id);
    case _ =>
  }

  lemma SoleEndsNot(s: State, id: SessionId, how: Send)
    requires Enabled(s, Sole(id, how))
    ensures id in Apply(s, Sole(id, how)).sessions && !Apply(s, Sole(id, how)).sessions[id].phase.Ended?
  {
  }

  lemma MultiEndsNot(s: State, id: SessionId)
    requires Enabled(s, Multi(id))
    ensures id in Apply(s, Multi(id)).sessions && !Apply(s, Multi(id)).sessions[id].phase.Ended?
  {
  }

  lemma CheckEndsNot(s: State, id: SessionId)
    requires Enabled(s, Check(id))
    ensures id in Apply(s, Check(id)).sessions && !Apply(s, Check(id)).sessions[id].phase.Ended?
  {
    if s.sessions[id].phase.last || s.sessions[id].cancelled {
      assert ApplyCheck(s, id) == SetPhase(s, id, Finishing(0));
    } else {
      assert ApplyCheck(s, id) == SetPhase(s, id, Reading);
    }
  }

  lemma CountEndsNot(s: State, id: SessionId)
    requires Enabled(s, Count(id))
    ensures id in Apply(s, Count(id)).sessions && !Apply(s, Count(id)).sessions[id].phase.Ended?
  {
    var sess := s.sessions[id];
    if |sess.viewers| == 1 {
      assert ApplyCount(s, id) == SetPhase(s, id, SoleSend(Only(sess.viewers), sess.phase.last));
    } else {
      assert ApplyCount(s, id) == SetPhase(s, id, MultiSend(sess.phase.last));
    }
  }

  lemma ClientRegisters(s: State, a: Action)
    requires Enabled(s, a) && !LoopAction(a) && RegisteredRun(s) && s.next !in s.sessions
    ensures RegisteredRun(Apply(s, a))
  {
  }

  lemma LoopRegisters(s: State, a: Action)
    requires Enabled(s, a) && LoopAction(a)
    ensures forall k | k in Apply(s, a).registry :: k in s.registry && Apply(s, a).registry[k] == s.registry[k]
    ensures a.Finish? && s.sessions[a.id].phase.stage > 2 && Lookup(s.registry, s.sessions[a.id].key) == Some(a.id) ==>
      s.sessions[a.id].key !in Apply(s, a).registry
  {
    if a.Finish? && s.sessions[a.id].phase.stage != 1 { FinishShape(s, a.id); }
  }

  lemma RegisteredStep(s: State, a: Action)
    requires Reachable(s) && Enabled(s, a) && RegisteredRun(s)
    ensures RegisteredRun(Apply(s, a))
  {
    assert s.next !in s.sessions && RegistryTrue(s) by { ReachableInv(s); }
    if !LoopAction(a) {
      ClientRegisters(s, a);
    } else {
      LoopChangesOwn(s, a);
      LoopRegisters(s, a);
      var s' := Apply(s, a);
      forall k | k in s'.registry ensures s'.registry[k] in s'.sessions && !s'.sessions[s'.registry[k]].phase.Ended? {
        if s.registry[k] == a.id {
          EndsOnly(s, a, a.id);
          assert s.sessions[a.id].key == k;
        }
      }
    }
  }

  /** In every run a session that has ended is no longer registered, so the next client opens a new one. */
  lemma EndedIsForgotten(states: seq<State>, actions: seq<Action>, j: nat)
    requires Run(states, actions) && states[0] == Initial() && j < |states|
    ensures RegisteredRun(states[j])
  {
    for i := 0 to j
      invariant RegisteredRun(states[i])
    {
      RunStep(states, actions, i);
      StreamEndings.ReachedBy(states, actions, i);
      RegisteredStep(states[i], actions[i]);
    }
  }

  /** A client whose key has no session gets a new one, not yet opened; otherwise it waits for the one
    * that is registered. */
  lemma LookFinds(s: State, t: TaskId)
    requires Enabled(s, Look(t))
    ensures var s', key := Apply(s, Look(t)), s.tasks[t].key;
            match Lookup(s.registry, key)
            case Some(id) => s' == s.(tasks := s.tasks[t := Awaiting(key, id)])
            case None =>
              && Lookup(s'.registry, key) == Some(s.next) && s.next in s'.sessions
              && s'.sessions[s.next].phase.Opening? && s'.sessions[s.next].viewers == {}
              && s'.tasks[t] == Awaiting(key, s.next)
  {
  }
}
