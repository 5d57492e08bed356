/**
 The live-stream multiplexer as a transition system: one upstream session per key, fanned out to
 viewers through bounded queues. One action is one critical section, one channel operation, or one
 step of the session's read loop; actions of different goroutines interleave freely.
 */
module StreamProtocol {
  import opened Prelude

  type Key = string
  type SessionId = nat
  type ViewerId = nat
  type TaskId = nat

  const VIEWER_QUEUE_SIZE: nat := 32

  /** Where the read loop of a session stands. `last` says that the read also reported an error or end. */
  datatype Phase =
    | Opening
    | Waiting
    | Reading
    | Broadcasting(last: bool)                     // chunk read, viewers not yet counted
    | SoleSend(viewer: ViewerId, last: bool)       // blocked on the only viewer's queue
    | MultiSend(last: bool)                        // about to lock and offer the chunk to all
    | Emptied(last: bool)                          // nobody left: about to cancel
    | Checking(last: bool)
    | Finishing(stage: nat)                        // 0 cancel, 1 close viewers, 2 close done, 3 deregister
    | Ended

  datatype Session = Session(
    key: Key,
    phase: Phase,
    opens: nat,             // calls of open so far
    failed: bool,           // openErr is set
    started: bool,
    cancelled: bool,
    viewers: set<ViewerId>,
    // history
    produced: seq<Bytes>,   // the chunks read from the upstream
    ended: bool,            // a read has reported the upstream's end, or its error
    aborted: bool,          // cancelled by somebody other than finish
    skipped: set<ViewerId>) // viewers whose blocking send was given up because of a cancellation
  {
    predicate Ready() { !phase.Opening? }
    predicate Swept() { phase.Ended? || (phase.Finishing? && phase.stage >= 2) }
    predicate Done() { phase.Ended? || (phase.Finishing? && phase.stage >= 3) }
  }

  /** Registered; dropped for overflow; removed by its handler; closed by finish. */
  datatype Fate = Live | Dropped | Removed | Swept

  /** `join` is the index of the first upstream chunk meant for this viewer. */
  datatype Viewer = Viewer(session: SessionId, fate: Fate, queue: seq<Bytes>, join: nat, got: seq<Bytes>)
  {
    predicate Closed() { !fate.Live? }
    /** The index after the last chunk enqueued for this viewer. */
    function End(): nat { join + |got| + |queue| }
  }

  /** A client goroutine inside Subscribe, or one that is about to cancel a session it saw empty. */
  datatype Task =
    | Looking(key: Key)
    | Awaiting(key: Key, session: SessionId)
    | Passed(session: SessionId)                    // ready and not done: about to add its viewer
    | Starting(session: SessionId, viewer: ViewerId) // viewer added, start not yet signalled
    | Cancelling(session: SessionId)

  datatype State = State(
    registry: map<Key, SessionId>,
    sessions: map<SessionId, Session>,
    viewers: map<ViewerId, Viewer>,
    tasks: map<TaskId, Task>,
    next: nat)

  datatype Send = Enqueued | Cancelled | ViewerClosed

  datatype Action =
    | Subscribe(key: Key)
    | Look(t: TaskId)                     // Manager.mu: find or create the session
    | Await(t: TaskId)                    // session ready
    | GiveUp(t: TaskId)                   // the client's context ended while waiting
    | Cancel(t: TaskId)
    | Add(t: TaskId)                      // Session.mu: register the viewer
    | Start(t: TaskId)
    | Opened(id: SessionId, ok: bool)
    | Begin(id: SessionId)                // start signalled
    | Abandon(id: SessionId)              // cancelled before start
    | Read(id: SessionId, chunk: Bytes, last: bool)
    | Count(id: SessionId)                // Session.mu.RLock
    | Sole(id: SessionId, how: Send)
    | Multi(id: SessionId)                // Session.mu.Lock
    | CancelEmpty(id: SessionId)
    | Check(id: SessionId)
    | Finish(id: SessionId)               // one stage of finish
    | Deliver(v: ViewerId)                // Next returns a chunk
    | Eof(v: ViewerId)                    // Next returns io.EOF
    | Remove(v: ViewerId)                 // Session.mu: Session.Remove

  /** The three ways out of the blocking send to a sole viewer. */
  predicate CanSend(sess: Session, v: Viewer, how: Send) {
    match how
    case Enqueued => |v.queue| < VIEWER_QUEUE_SIZE
    case Cancelled => sess.cancelled
    case ViewerClosed => v.Closed()
  }

  predicate HasViewer(s: State, v: ViewerId) {
    v in s.viewers && s.viewers[v].session in s.sessions
  }

  predicate Enabled(s: State, a: Action) {
    match a
    case Subscribe(_) => true
    case Look(t) => t in s.tasks && s.tasks[t].Looking?
    case Await(t) =>
      t in s.tasks && s.tasks[t].Awaiting? && s.tasks[t].session in s.sessions && s.sessions[s.tasks[t].session].Ready()
    case GiveUp(t) => t in s.tasks && s.tasks[t].Awaiting? && s.tasks[t].session in s.sessions
    case Cancel(t) => t in s.tasks && s.tasks[t].Cancelling? && s.tasks[t].session in s.sessions
    case Add(t) => t in s.tasks && s.tasks[t].Passed? && s.tasks[t].session in s.sessions
    case Start(t) => t in s.tasks && s.tasks[t].Starting? && s.tasks[t].session in s.sessions
    case Opened(id, _) => id in s.sessions && s.sessions[id].phase.Opening?
    case Begin(id) => id in s.sessions && s.sessions[id].phase.Waiting? && s.sessions[id].started
    case Abandon(id) => id in s.sessions && s.sessions[id].phase.Waiting? && s.sessions[id].cancelled
    case Read(id, _, _) => id in s.sessions && s.sessions[id].phase.Reading?
    case Count(id) => id in s.sessions && s.sessions[id].phase.Broadcasting?
    case Sole(id, how) =>
      && id in s.sessions && s.sessions[id].phase.SoleSend?
      && s.sessions[id].phase.viewer in s.viewers
      && CanSend(s.sessions[id], s.viewers[s.sessions[id].phase.viewer], how)
    case Multi(id) => id in s.sessions && s.sessions[id].phase.MultiSend?
    case CancelEmpty(id) => id in s.sessions && s.sessions[id].phase.Emptied?
    case Check(id) => id in s.sessions && s.sessions[id].phase.Checking?
    case Finish(id) => id in s.sessions && s.sessions[id].phase.Finishing?
    case Deliver(v) => HasViewer(s, v) && s.viewers[v].queue != []
    case Eof(v) => HasViewer(s, v) && s.viewers[v].queue == [] && s.viewers[v].Closed()
    case Remove(v) => HasViewer(s, v)
  }

  function SetPhase(s: State, id: SessionId, phase: Phase): State
    requires id in s.sessions
  {
    s.(sessions := s.sessions[id := s.sessions[id].(phase := phase)])
  }

  function SetTask(s: State, t: TaskId, task: Task): State {
    s.(tasks := s.tasks[t := task])
  }

  function EndTask(s: State, t: TaskId): State {
    s.(tasks := s.tasks - {t})
  }

  function NewTask(s: State, task: Task): State {
    s.(tasks := s.tasks[s.next := task], next := s.next + 1)
  }

  function NewSession(key: Key): Session {
    Session(key, Opening, 0, false, false, false, {}, [], false, false, {})
  }

  function ApplyLook(s: State, t: TaskId): State
    requires Enabled(s, Look(t))
  {
    var key := s.tasks[t].key;
    if key in s.registry then SetTask(s, t, Awaiting(key, s.registry[key]))
    else
      SetTask(s, t, Awaiting(key, s.next)).(
        registry := s.registry[key := s.next],
        sessions := s.sessions[s.next := NewSession(key)],
        next := s.next + 1)
  }

  function ApplyAwait(s: State, t: TaskId): State
    requires Enabled(s, Await(t))
  {
    var sess := s.sessions[s.tasks[t].session];
    if sess.failed then EndTask(s, t)
    else if sess.Done() then SetTask(s, t, Looking(s.tasks[t].key))
    else SetTask(s, t, Passed(s.tasks[t].session))
  }

  function ApplyGiveUp(s: State, t: TaskId): State
    requires Enabled(s, GiveUp(t))
  {
    if s.sessions[s.tasks[t].session].viewers == {} then SetTask(s, t, Cancelling(s.tasks[t].session)) else EndTask(s, t)
  }

  function Abort(sess: Session): Session {
    sess.(cancelled := true, aborted := true)
  }

  /** The first chunk a viewer registered now will be offered. */
  function NextChunk(sess: Session): nat {
    if (sess.phase.Broadcasting? || sess.phase.MultiSend?) && sess.produced != [] then |sess.produced| - 1 else |sess.produced|
  }

  function ApplyAdd(s: State, t: TaskId): State
    requires Enabled(s, Add(t))
  {
    var id := s.tasks[t].session;
    var sess := s.sessions[id];
    SetTask(s, t, Starting(id, s.next)).(
      sessions := s.sessions[id := sess.(viewers := sess.viewers + {s.next})],
      viewers := s.viewers[s.next := Viewer(id, Live, [], NextChunk(sess), [])],
      next := s.next + 1)
  }

  function ApplyRead(s: State, id: SessionId, chunk: Bytes, last: bool): State
    requires Enabled(s, Read(id, chunk, last))
  {
    var sess := s.sessions[id].(ended := last);
    if chunk == [] then s.(sessions := s.sessions[id := sess.(phase := Checking(last))])
    else s.(sessions := s.sessions[id := sess.(phase := Broadcasting(last), produced := sess.produced + [chunk])])
  }

  function ApplyCount(s: State, id: SessionId): State
    requires Enabled(s, Count(id))
  {
    var sess := s.sessions[id];
    if |sess.viewers| == 1 then SetPhase(s, id, SoleSend(Only(sess.viewers), sess.phase.last))
    else SetPhase(s, id, MultiSend(sess.phase.last))
  }

  function Only(vs: set<ViewerId>): (v: ViewerId)
    requires |vs| == 1
    ensures vs == {v}
  {
    Singleton(vs);
    var v :| v in vs && vs == {v};
    v
  }

  lemma Singleton(vs: set<ViewerId>)
    requires |vs| == 1
    ensures exists v :: v in vs && vs == {v}
    ensures forall v, w | v in vs && w in vs :: v == w
  {
    var v :| v in vs;
    assert |vs - {v}| == 0;
    assert vs == {v};
  }

  function LastChunk(sess: Session): Bytes {
    if sess.produced == [] then [] else sess.produced[|sess.produced| - 1]
  }

  function ApplySole(s: State, id: SessionId, how: Send): State
    requires Enabled(s, Sole(id, how))
  {
    var sess := s.sessions[id];
    var v := sess.phase.viewer;
    var s' := SetPhase(s, id, Checking(sess.phase.last));
    match how
    case Enqueued => s'.(viewers := s.viewers[v := s.viewers[v].(queue := s.viewers[v].queue + [LastChunk(sess)])])
    case Cancelled => s'.(sessions := s'.sessions[id := s'.sessions[id].(skipped := sess.skipped + {v})])
    case ViewerClosed => s'
  }

  /** What the locked branch of broadcast does to one registered viewer. */
  function Offer(v: Viewer, chunk: Bytes): Viewer {
    if |v.queue| < VIEWER_QUEUE_SIZE then v.(queue := v.queue + [chunk]) else v.(fate := Dropped)
  }

  function ApplyMulti(s: State, id: SessionId): State
    requires Enabled(s, Multi(id))
  {
    var sess := s.sessions[id];
    var kept := set v | v in sess.viewers && v in s.viewers && |s.viewers[v].queue| < VIEWER_QUEUE_SIZE;
    s.(sessions := s.sessions[id := sess.(
         viewers := kept,
         phase := if kept == {} then Emptied(sess.phase.last) else Checking(sess.phase.last))],
       viewers := map v | v in s.viewers :: if v in sess.viewers then Offer(s.viewers[v], LastChunk(sess)) else s.viewers[v])
  }

  function ApplyCheck(s: State, id: SessionId): State
    requires Enabled(s, Check(id))
  {
    if s.sessions[id].phase.last || s.sessions[id].cancelled then SetPhase(s, id, Finishing(0)) else SetPhase(s, id, Reading)
  }

  function ApplyFinish(s: State, id: SessionId): State
    requires Enabled(s, Finish(id))
  {
    var sess := s.sessions[id];
    if sess.phase.stage == 0 then
      s.(sessions := s.sessions[id := sess.(phase := Finishing(1), cancelled := true)])
    else if sess.phase.stage == 1 then
      s.(sessions := s.sessions[id := sess.(phase := Finishing(2), viewers := {})],
         viewers := map v | v in s.viewers :: if v in sess.viewers then s.viewers[v].(fate := Swept) else s.viewers[v])
    else if sess.phase.stage == 2 then SetPhase(s, id, Finishing(3))
    else
      SetPhase(s, id, Ended).(
        registry := if sess.key in s.registry && s.registry[sess.key] == id then s.registry - {sess.key} else s.registry)
  }

  function ApplyRemove(s: State, v: ViewerId): State
    requires Enabled(s, Remove(v))
  {
    var id := s.viewers[v].session;
    var sess := s.sessions[id];
    var left := sess.viewers - {v};
    var s' := if v in sess.viewers
              then s.(sessions := s.sessions[id := sess.(viewers := left)],
                      viewers := s.viewers[v := s.viewers[v].(fate := Removed)])
              else s;
    if left == {} then NewTask(s', Cancelling(id)) else s'
  }

  function Apply(s: State, a: Action): State
    requires Enabled(s, a)
  {
    match a
    case Subscribe(key) => NewTask(s, Looking(key))
    case Look(t) => ApplyLook(s, t)
    case Await(t) => ApplyAwait(s, t)
    case GiveUp(t) => ApplyGiveUp(s, t)
    case Cancel(t) =>
      EndTask(s, t).(sessions := s.sessions[s.tasks[t].session := Abort(s.sessions[s.tasks[t].session])])
    case Add(t) => ApplyAdd(s, t)
    case Start(t) =>
      EndTask(s, t).(sessions := s.sessions[s.tasks[t].session := s.sessions[s.tasks[t].session].(started := true)])
    case Opened(id, ok) =>
      s.(sessions := s.sessions[id := s.sessions[id].(
        opens := s.sessions[id].opens + 1, failed := !ok, phase := if ok then Waiting else Finishing(0))])
    case Begin(id) => SetPhase(s, id, Reading)
    case Abandon(id) => SetPhase(s, id, Finishing(0))
    case Read(id, chunk, last) => ApplyRead(s, id, chunk, last)
    case Count(id) => ApplyCount(s, id)
    case Sole(id, how) => ApplySole(s, id, how)
    case Multi(id) => ApplyMulti(s, id)
    case CancelEmpty(id) =>
      s.(sessions := s.sessions[id := Abort(s.sessions[id]).(phase := Checking(s.sessions[id].phase.last))])
    case Check(id) => ApplyCheck(s, id)
    case Finish(id) => ApplyFinish(s, id)
    case Deliver(v) =>
      var w := s.viewers[v];
      s.(viewers := s.viewers[v := w.(queue := w.queue[1..], got := w.got + [w.queue[0]])])
    case Eof(v) => s
    case Remove(v) => ApplyRemove(s, v)
  }

  ghost predicate Run(states: seq<State>, actions: seq<Action>) {
    && |states| == |actions| + 1
    && forall i | 0 <= i < |actions| :: Enabled(states[i], actions[i]) && states[i + 1] == Apply(states[i], actions[i])
  }

  function Initial(): State {
    State(map[], map[], map[], map[], 0)
  }

  ghost predicate Reachable(s: State) {
    exists states: seq<State>, actions: seq<Action> ::
      Run(states, actions) && states[0] == Initial() && states[|actions|] == s
  }
}
