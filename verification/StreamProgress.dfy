/** No session is ever stuck or forgotten: until it has ended, its loop can go on, or the viewer whose
  * queue it waits for can take a chunk, or a client is on its way to start or cancel it. And a viewer is
  * dropped exactly when its queue is full. */
module StreamProgress {
  import opened Prelude
  import opened StreamProtocol
  import opened StreamInvariant
  import opened StreamPreservation
  import opened StreamTheorems
  import StreamEndings
  import opened StreamRuns

  // ---- Clients on their way ----

  /** A client inside Subscribe that knows session `id`, or one that is about to cancel it. */
  predicate Serves(task: Task, id: SessionId) {
    match task
    case Looking(_) => false
    case Awaiting(_, session) => session == id
    case Passed(session) => session == id
    case Starting(session, _) => session == id
    case Cancelling(session) => session == id
  }

  /** Neither started nor cancelled: the loop has nothing to wait for but its clients. */
  predicate Idle(sess: Session) {
    (sess.phase.Opening? || sess.phase.Waiting?) && !sess.started && !sess.cancelled
  }

  ghost predicate Attended(s: State, id: SessionId) {
    id in s.sessions && Idle(s.sessions[id]) ==> exists t :: t in s.tasks && Serves(s.tasks[t], id)
  }

  /** Until the session has started, whoever has registered a viewer is about to signal the start. */
  ghost predicate Starters(s: State, id: SessionId) {
    id in s.sessions && !s.sessions[id].started ==>
      forall v | v in s.sessions[id].viewers :: exists t :: t in s.tasks && s.tasks[t] == Starting(id, v)
  }

  /** Which client steps end or change a task. */
  predicate Touches(a: Action, t: TaskId) {
    (a.Look? || a.Await? || a.GiveUp? || a.Cancel? || a.Add? || a.Start?) && a.t == t
  }

  lemma Untouched(s: State, a: Action, t: TaskId)
    requires Enabled(s, a) && t in s.tasks && t != s.next && !Touches(a, t)
    ensures t in Apply(s, a).tasks && Apply(s, a).tasks[t] == s.tasks[t]
  {
    if LoopAction(a) { LoopTasks(s, a); }
  }

  lemma LoopTasks(s: State, a: Action)
    requires Enabled(s, a) && LoopAction(a)
    ensures Apply(s, a).tasks == s.tasks
  {
  }

  /** A client that gives up leaves a session that has viewers to the one that registered them. */
  lemma LeavesItToOther(s: State, t: TaskId, id: SessionId)
    requires Inv(s) && Enabled(s, GiveUp(t)) && s.tasks[t].session == id && s.sessions[id].viewers != {}
    requires !s.sessions[id].started && Starters(s, id)
    ensures exists other :: other in Apply(s, GiveUp(t)).tasks && Serves(Apply(s, GiveUp(t)).tasks[other], id)
  {
    var v :| v in s.sessions[id].viewers;
    var other :| other in s.tasks && s.tasks[other] == Starting(id, v);
    Untouched(s, GiveUp(t), other);
  }

  /** A client that serves the session goes on serving it, or hands over to the one that registered a
    * viewer, or starts or cancels the session. */
  lemma ServerStays(s: State, a: Action, id: SessionId, t: TaskId)
    requires Inv(s) && Enabled(s, a) && id in s.sessions && t in s.tasks && Serves(s.tasks[t], id)
    requires Idle(s.sessions[id]) && Starters(s, id) && id in Apply(s, a).sessions && Idle(Apply(s, a).sessions[id])
    ensures Attended(Apply(s, a), id)
  {
    assert t < s.next && TaskTrue(s, s.tasks[t]) && SessionTrue(s.sessions[id]);
    if !Touches(a, t) {
      Untouched(s, a, t);
    } else if a.GiveUp? && s.sessions[id].viewers != {} {
      LeavesItToOther(s, t, id);
    } else {
      assert t in Apply(s, a).tasks && Serves(Apply(s, a).tasks[t], id);
    }
  }

  // ---- What a step of the loop does to its session ----

  /** No viewer is added, nothing is started, and the loop does not go back to waiting. */
  predicate LoopKeeps(x: Session, y: Session) {
    y.viewers <= x.viewers && y.started == x.started && (Idle(y) ==> Idle(x))
  }

  lemma CountKeeps(s: State, id: SessionId)
    requires Enabled(s, Count(id))
    ensures id in Apply(s, Count(id)).sessions && LoopKeeps(s.sessions[id], Apply(s, Count(id)).sessions[id])
  {
    var sess := s.sessions[id];
    if |sess.viewers| == 1 {
      assert ApplyCount(s, id) == SetPhase(s, id, SoleSend(Only(sess.viewers), sess.phase.last));
    } else {
      assert ApplyCount(s, id) == SetPhase(s, id, MultiSend(sess.phase.last));
    }
  }

  lemma CheckKeeps(s: State, id: SessionId)
    requires Enabled(s, Check(id))
    ensures id in Apply(s, Check(id)).sessions && LoopKeeps(s.sessions[id], Apply(s, Check(id)).sessions[id])
  {
    if s.sessions[id].phase.last || s.sessions[id].cancelled {
      assert ApplyCheck(s, id) == SetPhase(s, id, Finishing(0));
    } else {
      assert ApplyCheck(s, id) == SetPhase(s, id, Reading);
    }
  }

  lemma SweepKeeps(s: State, id: SessionId)
    requires Enabled(s, Finish(id)) && s.sessions[id].phase.stage == 1
    ensures id in Apply(s, Finish(id)).sessions && LoopKeeps(s.sessions[id], Apply(s, Finish(id)).sessions[id])
  {
  }

  lemma FinishKeeps(s: State, id: SessionId)
    requires Enabled(s, Finish(id))
    ensures id in Apply(s, Finish(id)).sessions && LoopKeeps(s.sessions[id], Apply(s, Finish(id)).sessions[id])
  {
    if s.sessions[id].phase.stage == 1 { SweepKeeps(s, id); } else { FinishShape(s, id); }
  }

  lemma SoleKeeps(s: State, id: SessionId, how: Send)
    requires Enabled(s, Sole(id, how))
    ensures id in Apply(s, Sole(id, how)).sessions && LoopKeeps(s.sessions[id], Apply(s, Sole(id, how)).sessions[id])
  {
  }

  lemma MultiKeeps(s: State, id: SessionId)
    requires Enabled(s, Multi(id))
    ensures id in Apply(s, Multi(id)).sessions && LoopKeeps(s.sessions[id], Apply(s, Multi(id)).sessions[id])
  {
  }

  lemma ReadKeeps(s: State, a: Action)
    requires Enabled(s, a) && (a.Opened? || a.Begin? || a.Abandon? || a.Read? || a.CancelEmpty?)
    ensures a.id in s.sessions && a.id in Apply(s, a).sessions
    ensures LoopKeeps(s.sessions[a.id], Apply(s, a).sessions[a.id])
  {
  }

  lemma LoopKept(s: State, a: Action)
    requires Enabled(s, a) && LoopAction(a)
    ensures a.id in s.sessions && a.id in Apply(s, a).sessions
    ensures LoopKeeps(s.sessions[a.id], Apply(s, a).sessions[a.id])
  {
    match a
    case Count(id) => CountKeeps(s, id);
    case Check(id) => CheckKeeps(s, id);
    case Finish(id) => FinishKeeps(s, id);
    case Sole(id, how) => SoleKeeps(s, id, how);
    case Multi(id) => MultiKeeps(s, id);
    case _ => ReadKeeps(s, a);
  }

  lemma IdleBefore(s: State, a: Action, id: SessionId)
    requires Enabled(s, a) && id in s.sessions && id != s.next
    requires id in Apply(s, a).sessions && Idle(Apply(s, a).sessions[id])
    ensures Idle(s.sessions[id])
  {
    if LoopAction(a) {
      StreamEndings.LoopChangesOwn(s, a);
      LoopKept(s, a);
    }
  }

  lemma NewAttended(s: State, a: Action, id: SessionId)
    requires Enabled(s, a) && id !in s.sessions
    ensures Attended(Apply(s, a), id) && Starters(Apply(s, a), id)
  {
    if LoopAction(a) {
      StreamEndings.LoopChangesOwn(s, a);
    } else if a.Look? {
      assert a.t in Apply(s, a).tasks;
    }
  }

  // ---- Starters ----

  /** A step adds viewers to a session only by the client that then starts it. */
  lemma NewViewer(s: State, a: Action, id: SessionId, v: ViewerId)
    requires Enabled(s, a) && id in s.sessions && id != s.next && id in Apply(s, a).sessions
    requires v in Apply(s, a).sessions[id].viewers && v !in s.sessions[id].viewers
    ensures a.Add? && a.t in Apply(s, a).tasks && Apply(s, a).tasks[a.t] == Starting(id, v)
  {
    if LoopAction(a) {
      StreamEndings.LoopChangesOwn(s, a);
      LoopKept(s, a);
    }
  }

  lemma StartedOnly(s: State, a: Action, id: SessionId)
    requires Enabled(s, a) && id in s.sessions && id != s.next && id in Apply(s, a).sessions
    requires !Apply(s, a).sessions[id].started
    ensures !s.sessions[id].started && !(a.Start? && s.tasks[a.t].session == id)
  {
    if LoopAction(a) {
      StreamEndings.LoopChangesOwn(s, a);
      LoopKept(s, a);
    }
  }

  lemma SignalStays(s: State, a: Action, id: SessionId, v: ViewerId)
    requires Inv(s) && Enabled(s, a) && !(a.Start? && s.tasks[a.t].session == id)
    requires exists t :: t in s.tasks && s.tasks[t] == Starting(id, v)
    ensures exists t :: t in Apply(s, a).tasks && Apply(s, a).tasks[t] == Starting(id, v)
  {
    var t :| t in s.tasks && s.tasks[t] == Starting(id, v);
    Untouched(s, a, t);
  }

  lemma StarterStays(s: State, a: Action, id: SessionId, v: ViewerId)
    requires Inv(s) && Enabled(s, a) && Starters(s, id) && id in s.sessions && id in Apply(s, a).sessions
    requires !Apply(s, a).sessions[id].started && v in Apply(s, a).sessions[id].viewers
    ensures exists t :: t in Apply(s, a).tasks && Apply(s, a).tasks[t] == Starting(id, v)
  {
    assert id < s.next;
    StartedOnly(s, a, id);
    if v in s.sessions[id].viewers {
      SignalStays(s, a, id, v);
    } else {
      NewViewer(s, a, id, v);
    }
  }

  lemma AttendedStep(s: State, a: Action, id: SessionId)
    requires Inv(s) && Enabled(s, a) && Attended(s, id) && Starters(s, id)
    ensures Attended(Apply(s, a), id) && Starters(Apply(s, a), id)
  {
    var s' := Apply(s, a);
    if id !in s.sessions {
      NewAttended(s, a, id);
    } else if id in s'.sessions {
      assert id < s.next;
      if Idle(s'.sessions[id]) {
        IdleBefore(s, a, id);
        var t :| t in s.tasks && Serves(s.tasks[t], id);
        ServerStays(s, a, id, t);
      }
      if !s'.sessions[id].started {
        forall v | v in s'.sessions[id].viewers ensures exists t :: t in s'.tasks && s'.tasks[t] == Starting(id, v) {
          StarterStays(s, a, id, v);
        }
      }
    }
  }

  /** In every run a session that is neither started nor cancelled has a client that will do one or
    * the other. */
  lemma AlwaysAttended(states: seq<State>, actions: seq<Action>, j: nat, id: SessionId)
    requires Run(states, actions) && states[0] == Initial() && j < |states|
    ensures Attended(states[j], id) && Starters(states[j], id)
  {
    for i := 0 to j
      invariant Attended(states[i], id) && Starters(states[i], id)
    {
      RunStep(states, actions, i);
      assert Inv(states[i]) by {
        StreamEndings.ReachedBy(states, actions, i);
        ReachableInv(states[i]);
      }
      AttendedStep(states[i], actions[i], id);
    }
  }

  // ---- Progress ----

  /** A step of the session's loop, of a client that starts or cancels it, or of the viewer whose full
    * queue the loop waits for. */
  predicate Advances(s: State, a: Action, id: SessionId)
    requires id in s.sessions
  {
    || (LoopAction(a) && a.id == id)
    || ((a.Await? || a.Add? || a.Start? || a.Cancel?) && a.t in s.tasks && Serves(s.tasks[a.t], id))
    || (s.sessions[id].phase.SoleSend? && a == Deliver(s.sessions[id].phase.viewer))
  }

  lemma SoleGoesOn(s: State, id: SessionId) returns (a: Action)
    requires Inv(s) && id in s.sessions && s.sessions[id].phase.SoleSend?
    ensures Enabled(s, a) && Advances(s, a, id)
  {
    var v := s.sessions[id].phase.viewer;
    assert CrowdTrue(s.sessions[id], id, s.viewers) && v in Named(s.sessions[id]);
    if |s.viewers[v].queue| < 32 {
      a := Sole(id, Enqueued);
    } else {
      a := Deliver(v);
    }
  }

  lemma ServerGoesOn(s: State, id: SessionId, t: TaskId) returns (a: Action)
    requires id in s.sessions && s.sessions[id].phase.Waiting? && t in s.tasks && Serves(s.tasks[t], id)
    ensures Enabled(s, a) && Advances(s, a, id)
  {
    a := match s.tasks[t]
         case Awaiting(_, _) => Await(t)
         case Passed(_) => Add(t)
         case Starting(_, _) => Start(t)
         case _ => Cancel(t);
  }

  lemma LoopGoesOn(s: State, id: SessionId) returns (a: Action)
    requires id in s.sessions
    requires !s.sessions[id].phase.Ended? && !s.sessions[id].phase.SoleSend? && !Idle(s.sessions[id])
    ensures Enabled(s, a) && Advances(s, a, id)
  {
    a := match s.sessions[id].phase
         case Opening => Opened(id, true)
         case Waiting => if s.sessions[id].started then Begin(id) else Abandon(id)
         case Reading => Read(id, [], false)
         case Broadcasting(_) => Count(id)
         case MultiSend(_) => Multi(id)
         case Emptied(_) => CancelEmpty(id)
         case Checking(_) => Check(id)
         case _ => Finish(id);
  }

  /** In every run a session that has not ended can always go on: it is never stuck behind a queue or
    * left waiting for a client that has gone. */
  lemma NeverStuck(states: seq<State>, actions: seq<Action>, j: nat, id: SessionId) returns (a: Action)
    requires Run(states, actions) && states[0] == Initial() && j < |states|
    requires id in states[j].sessions && !states[j].sessions[id].phase.Ended?
    ensures Enabled(states[j], a) && Advances(states[j], a, id)
  {
    var s := states[j];
    var phase := s.sessions[id].phase;
    if phase.SoleSend? {
      StreamEndings.ReachedBy(states, actions, j);
      ReachableInv(s);
      a := SoleGoesOn(s, id);
    } else if phase.Opening? {
      a := Opened(id, true);
    } else if Idle(s.sessions[id]) {
      AlwaysAttended(states, actions, j, id);
      var t :| t in s.tasks && Serves(s.tasks[t], id);
      a := ServerGoesOn(s, id, t);
    } else {
      a := LoopGoesOn(s, id);
    }
  }

  // ---- Dropped viewers ----

  /** A step drops a viewer if and only if it broadcasts to several and the viewer's queue holds
    * thirty-two chunks; it then keeps them. */
  lemma DroppedIff(s: State, a: Action, v: ViewerId)
    requires Reachable(s) && Enabled(s, a) && v in s.viewers && !s.viewers[v].fate.Dropped?
    ensures v in Apply(s, a).viewers
    ensures Apply(s, a).viewers[v].fate.Dropped?
       <==> a.Multi? && v in s.sessions[a.id].viewers && |s.viewers[v].queue| == 32
    ensures Apply(s, a).viewers[v].fate.Dropped? ==> Apply(s, a).viewers[v] == s.viewers[v].(fate := Dropped)
  {
    assert v < s.next && |s.viewers[v].queue| <= 32 by {
      ReachableInv(s);
      assert ViewerTrue(s.sessions[s.viewers[v].session], v, s.viewers[v]);
    }
    if !LoopAction(a) { ClientDropsNone(s, a, v); } else { LoopDrops(s, a, v); }
  }

  lemma ClientDropsNone(s: State, a: Action, v: ViewerId)
    requires Enabled(s, a) && !LoopAction(a) && v in s.viewers && !s.viewers[v].fate.Dropped? && v != s.next
    ensures v in Apply(s, a).viewers && !Apply(s, a).viewers[v].fate.Dropped?
  {
  }

  lemma LoopDrops(s: State, a: Action, v: ViewerId)
    requires Enabled(s, a) && LoopAction(a) && v in s.viewers && !s.viewers[v].fate.Dropped?
    requires |s.viewers[v].queue| <= 32
    ensures v in Apply(s, a).viewers
    ensures Apply(s, a).viewers[v].fate.Dropped?
       <==> a.Multi? && v in s.sessions[a.id].viewers && |s.viewers[v].queue| == 32
    ensures Apply(s, a).viewers[v].fate.Dropped? ==> Apply(s, a).viewers[v] == s.viewers[v].(fate := Dropped)
  {
  }
}
