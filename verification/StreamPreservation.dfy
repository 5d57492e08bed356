/** Every action of the multiplexer keeps the invariant. */
module StreamPreservation {
  import opened Prelude
  import opened StreamProtocol
  import opened StreamInvariant

  // ---- One session ----

  /** A change of phase (or flags) that leaves every viewer as well served as before. */
  lemma PhaseSound(a: Session, b: Session, id: SessionId, viewers: map<ViewerId, Viewer>)
    requires Sound(a, id, viewers) && SessionTrue(b) && !b.phase.MultiSend? && !b.phase.SoleSend?
    requires b.viewers == a.viewers && b.produced == a.produced && b.skipped == a.skipped
    requires b.started == a.started && (a.Swept() <==> b.Swept())
    requires !InFlight(a.phase) && !InFlight(b.phase)
    requires b.phase.Opening? || b.failed ==> a.phase.Opening? || a.failed
    ensures Sound(b, id, viewers)
  {
    forall v | OfSession(viewers, id, v) ensures ViewerTrue(b, v, viewers[v]) {
      assert ViewerTrue(a, v, viewers[v]);
    }
  }

  lemma AbortSound(a: Session, id: SessionId, viewers: map<ViewerId, Viewer>)
    requires Sound(a, id, viewers)
    ensures Sound(Abort(a), id, viewers)
  {
    forall v | OfSession(viewers, id, v) ensures ViewerTrue(Abort(a), v, viewers[v]) {
      assert ViewerTrue(a, v, viewers[v]);
    }
  }

  lemma StartViewer(a: Session, v: ViewerId, w: Viewer)
    requires ViewerTrue(a, v, w)
    ensures ViewerTrue(a.(started := true), v, w)
  {
  }

  lemma StartCrowd(a: Session, id: SessionId, viewers: map<ViewerId, Viewer>, v0: ViewerId)
    requires CrowdTrue(a, id, viewers) && OfSession(viewers, id, v0)
    ensures CrowdTrue(a.(started := true), id, viewers)
  {
    assert Named(a.(started := true)) == Named(a);
  }

  lemma StartSession(a: Session)
    requires SessionTrue(a)
    ensures SessionTrue(a.(started := true))
  {
  }

  lemma StartSound(a: Session, id: SessionId, viewers: map<ViewerId, Viewer>, v0: ViewerId)
    requires Sound(a, id, viewers) && OfSession(viewers, id, v0)
    ensures Sound(a.(started := true), id, viewers)
  {
    StartSession(a);
    StartCrowd(a, id, viewers, v0);
    forall v | OfSession(viewers, id, v) ensures ViewerTrue(a.(started := true), v, viewers[v]) {
      StartViewer(a, v, viewers[v]);
    }
  }

  lemma ReadSound(a: Session, id: SessionId, viewers: map<ViewerId, Viewer>, chunk: Bytes, last: bool)
    requires Sound(a, id, viewers) && a.phase.Reading?
    ensures Sound(a.(ended := last, phase := Broadcasting(last), produced := a.produced + [chunk]), id, viewers)
  {
    var b := a.(ended := last, phase := Broadcasting(last), produced := a.produced + [chunk]);
    forall v | OfSession(viewers, id, v) ensures ViewerTrue(b, v, viewers[v]) {
      assert ViewerTrue(a, v, viewers[v]);
      assert b.produced[viewers[v].join..viewers[v].End()] == a.produced[viewers[v].join..viewers[v].End()];
    }
  }

  /** Two registered viewers make a crowd. */
  lemma SeveralCrowd(a: Session, id: SessionId, viewers: map<ViewerId, Viewer>, v: ViewerId)
    requires v in a.viewers && |a.viewers| != 1 && forall w | w in a.viewers :: OfSession(viewers, id, w)
    ensures Crowded(viewers, id)
  {
    assert a.viewers != {v};
    var w :| w in a.viewers && w != v;
    assert v != w && OfSession(viewers, id, v) && OfSession(viewers, id, w);
  }

  /** The phase after the viewers have been counted. */
  function Counted(a: Session): Session
    requires a.phase.Broadcasting?
  {
    a.(phase := if |a.viewers| == 1 then SoleSend(Only(a.viewers), a.phase.last) else MultiSend(a.phase.last))
  }

  lemma CountViewer(a: Session, v: ViewerId, w: Viewer)
    requires a.phase.Broadcasting? && SessionTrue(a) && ViewerTrue(a, v, w)
    ensures ViewerTrue(Counted(a), v, w)
  {
  }

  lemma CountCrowd(a: Session, id: SessionId, viewers: map<ViewerId, Viewer>)
    requires a.phase.Broadcasting? && CrowdTrue(a, id, viewers)
    ensures CrowdTrue(Counted(a), id, viewers)
  {
    forall w | w in a.viewers ensures OfSession(viewers, id, w) { assert w in Named(a); }
    if |a.viewers| != 1 {
      forall v | v in a.viewers ensures Crowded(viewers, id) {
        SeveralCrowd(a, id, viewers, v);
      }
    }
  }

  lemma CountSound(a: Session, id: SessionId, viewers: map<ViewerId, Viewer>)
    requires Sound(a, id, viewers) && a.phase.Broadcasting?
    ensures Sound(Counted(a), id, viewers)
  {
    forall v | OfSession(viewers, id, v) ensures ViewerTrue(Counted(a), v, viewers[v]) {
      CountViewer(a, v, viewers[v]);
    }
    CountCrowd(a, id, viewers);
    assert SessionTrue(Counted(a));
  }

  /** The slice of the upstream grows by the chunk just read. */
  lemma Extends(sess: Session, v: Viewer, w: Viewer)
    requires Contiguous(sess, v) && sess.produced != [] && v.End() == |sess.produced| - 1
    requires w == v.(queue := v.queue + [LastChunk(sess)])
    ensures Contiguous(sess, w)
  {
    assert w.got + w.queue == (v.got + v.queue) + [LastChunk(sess)];
    assert sess.produced[v.join..w.End()] == sess.produced[v.join..v.End()] + [sess.produced[v.End()]];
  }

  lemma EnqueueSound(a: Session, id: SessionId, viewers: map<ViewerId, Viewer>)
    requires Sound(a, id, viewers) && a.phase.SoleSend? && OfSession(viewers, id, a.phase.viewer)
    requires |viewers[a.phase.viewer].queue| < VIEWER_QUEUE_SIZE
    ensures var v0 := a.phase.viewer;
            Sound(a.(phase := Checking(a.phase.last)), id,
                  viewers[v0 := viewers[v0].(queue := viewers[v0].queue + [LastChunk(a)])])
  {
    var v0 := a.phase.viewer;
    var b := a.(phase := Checking(a.phase.last));
    var w0 := viewers[v0].(queue := viewers[v0].queue + [LastChunk(a)]);
    var viewers' := viewers[v0 := w0];
    Extends(a, viewers[v0], w0);
    forall v | OfSession(viewers', id, v) ensures ViewerTrue(b, v, viewers'[v]) {
      assert ViewerTrue(a, v, viewers[v]);
    }
    CrowdMarks(a, b, id, viewers, viewers');
  }

  /** Queues may change freely as far as crowding goes, outside the locked broadcast. */
  lemma CrowdMarks(a: Session, b: Session, id: SessionId, viewers: map<ViewerId, Viewer>, viewers': map<ViewerId, Viewer>)
    requires CrowdTrue(a, id, viewers) && Named(b) <= Named(a) && (b.started ==> a.started)
    requires b.phase.Opening? || b.failed ==> a.phase.Opening? || a.failed
    requires forall v | v in viewers ::
      v in viewers' && viewers'[v].session == viewers[v].session && viewers'[v].join == viewers[v].join
    requires forall v | OfSession(viewers', id, v) :: v in viewers
    requires b.phase.MultiSend? ==> forall v | v in b.viewers ::
      Crowded(viewers, id) || (v in viewers' && viewers'[v].got == [] && viewers'[v].queue == [])
    requires forall v | OfSession(viewers, id, v) && viewers'[v].fate.Dropped? :: viewers[v].fate.Dropped? || Crowded(viewers, id)
    ensures CrowdTrue(b, id, viewers')
  {
    assert forall v :: OfSession(viewers, id, v) ==> OfSession(viewers', id, v);
    assert forall v :: OfSession(viewers', id, v) ==> OfSession(viewers, id, v);
    if Crowded(viewers, id) { CrowdedStays(viewers, viewers', id); }
  }

  lemma SkipSound(a: Session, id: SessionId, viewers: map<ViewerId, Viewer>)
    requires Sound(a, id, viewers) && a.phase.SoleSend? && a.aborted
    ensures Sound(a.(phase := Checking(a.phase.last), skipped := a.skipped + {a.phase.viewer}), id, viewers)
  {
    var b := a.(phase := Checking(a.phase.last), skipped := a.skipped + {a.phase.viewer});
    forall v | OfSession(viewers, id, v) ensures ViewerTrue(b, v, viewers[v]) {
      assert ViewerTrue(a, v, viewers[v]);
    }
  }

  lemma ClosedSound(a: Session, id: SessionId, viewers: map<ViewerId, Viewer>)
    requires Sound(a, id, viewers) && a.phase.SoleSend? && OfSession(viewers, id, a.phase.viewer)
    requires viewers[a.phase.viewer].Closed()
    ensures Sound(a.(phase := Checking(a.phase.last)), id, viewers)
  {
    var b := a.(phase := Checking(a.phase.last));
    forall v | OfSession(viewers, id, v) ensures ViewerTrue(b, v, viewers[v]) {
      assert ViewerTrue(a, v, viewers[v]);
    }
  }

  function Offered(a: Session, viewers: map<ViewerId, Viewer>): map<ViewerId, Viewer> {
    map v | v in viewers :: if v in a.viewers then Offer(viewers[v], LastChunk(a)) else viewers[v]
  }

  function Kept(a: Session, viewers: map<ViewerId, Viewer>): set<ViewerId> {
    set v | v in a.viewers && v in viewers && |viewers[v].queue| < VIEWER_QUEUE_SIZE
  }

  /** What the locked broadcast leaves of one viewer. */
  lemma MultiViewerTrue(a: Session, viewers: map<ViewerId, Viewer>, b: Session, v: ViewerId)
    requires a.phase.MultiSend? && v in viewers && ViewerTrue(a, v, viewers[v]) && a.produced != []
    requires b == a.(viewers := Kept(a, viewers), phase := b.phase) && a.skipped == {}
    requires b.phase == Emptied(a.phase.last) || b.phase == Checking(a.phase.last)
    ensures ViewerTrue(b, v, Offered(a, viewers)[v])
  {
    if v in a.viewers && |viewers[v].queue| < VIEWER_QUEUE_SIZE { Extends(a, viewers[v], Offered(a, viewers)[v]); }
  }

  lemma MultiCrowd(a: Session, id: SessionId, viewers: map<ViewerId, Viewer>, b: Session)
    requires CrowdTrue(a, id, viewers) && a.phase.MultiSend?
    requires b == a.(viewers := Kept(a, viewers), phase := b.phase)
    requires b.phase == Emptied(a.phase.last) || b.phase == Checking(a.phase.last)
    ensures CrowdTrue(b, id, Offered(a, viewers))
  {
    var viewers' := Offered(a, viewers);
    forall v | OfSession(viewers, id, v) && viewers'[v].fate.Dropped?
      ensures viewers[v].fate.Dropped? || Crowded(viewers, id) {}
    CrowdMarks(a, b, id, viewers, viewers');
  }

  lemma MultiSound(a: Session, id: SessionId, viewers: map<ViewerId, Viewer>, b: Session)
    requires Sound(a, id, viewers) && a.phase.MultiSend?
    requires b == a.(viewers := Kept(a, viewers), phase := b.phase)
    requires b.phase == Emptied(a.phase.last) || b.phase == Checking(a.phase.last)
    ensures Sound(b, id, Offered(a, viewers))
  {
    var viewers' := Offered(a, viewers);
    forall v | OfSession(viewers', id, v) ensures ViewerTrue(b, v, viewers'[v]) {
      assert OfSession(viewers, id, v);
      MultiViewerTrue(a, viewers, b, v);
    }
    MultiCrowd(a, id, viewers, b);
  }

  function SweptAll(a: Session, viewers: map<ViewerId, Viewer>): map<ViewerId, Viewer> {
    map v | v in viewers :: if v in a.viewers then viewers[v].(fate := Swept) else viewers[v]
  }

  lemma SweepSound(a: Session, id: SessionId, viewers: map<ViewerId, Viewer>)
    requires Sound(a, id, viewers) && a.phase == Finishing(1) && a.cancelled
    ensures Sound(a.(phase := Finishing(2), viewers := {}), id, SweptAll(a, viewers))
  {
    var b := a.(phase := Finishing(2), viewers := {});
    var viewers' := SweptAll(a, viewers);
    forall v | OfSession(viewers', id, v) ensures ViewerTrue(b, v, viewers'[v]) {
      assert OfSession(viewers, id, v) && ViewerTrue(a, v, viewers[v]);
    }
    CrowdMarks(a, b, id, viewers, viewers');
  }

  lemma DeliverSound(a: Session, id: SessionId, viewers: map<ViewerId, Viewer>, v0: ViewerId)
    requires Sound(a, id, viewers) && OfSession(viewers, id, v0) && viewers[v0].queue != []
    ensures var w := viewers[v0];
            Sound(a, id, viewers[v0 := w.(queue := w.queue[1..], got := w.got + [w.queue[0]])])
  {
    var w := viewers[v0];
    var w' := w.(queue := w.queue[1..], got := w.got + [w.queue[0]]);
    var viewers' := viewers[v0 := w'];
    assert w'.got + w'.queue == w.got + w.queue;
    forall v | OfSession(viewers', id, v) ensures ViewerTrue(a, v, viewers'[v]) {
      assert ViewerTrue(a, v, viewers[v]);
    }
    CrowdMarks(a, a, id, viewers, viewers');
  }

  lemma RemoveViewerTrue(a: Session, viewers: map<ViewerId, Viewer>, v0: ViewerId, v: ViewerId)
    requires v0 in viewers && v in viewers && ViewerTrue(a, v, viewers[v])
    ensures ViewerTrue(a.(viewers := a.viewers - {v0}), v, viewers[v0 := viewers[v0].(fate := Removed)][v])
  {
  }

  lemma RemoveSound(a: Session, id: SessionId, viewers: map<ViewerId, Viewer>, v0: ViewerId)
    requires Sound(a, id, viewers) && v0 in a.viewers && OfSession(viewers, id, v0)
    ensures Sound(a.(viewers := a.viewers - {v0}), id, viewers[v0 := viewers[v0].(fate := Removed)])
  {
    var b := a.(viewers := a.viewers - {v0});
    var viewers' := viewers[v0 := viewers[v0].(fate := Removed)];
    forall v | OfSession(viewers', id, v) ensures ViewerTrue(b, v, viewers'[v]) {
      assert OfSession(viewers, id, v);
      RemoveViewerTrue(a, viewers, v0, v);
    }
    CrowdMarks(a, b, id, viewers, viewers');
  }

  lemma AddSound(a: Session, id: SessionId, viewers: map<ViewerId, Viewer>, v0: ViewerId)
    requires Sound(a, id, viewers) && v0 !in viewers && v0 !in Named(a) && a.Ready() && !a.failed
    ensures Sound(a.(viewers := a.viewers + {v0}), id, viewers[v0 := Viewer(id, Live, [], NextChunk(a), [])])
  {
    var b := a.(viewers := a.viewers + {v0});
    var w := Viewer(id, Live, [], NextChunk(a), []);
    var viewers' := viewers[v0 := w];
    assert w.End() == NextChunk(a) && a.produced[w.join..w.End()] == [];
    forall v | OfSession(viewers', id, v) ensures ViewerTrue(b, v, viewers'[v]) {
      if v != v0 { assert OfSession(viewers, id, v) && ViewerTrue(a, v, viewers[v]); }
    }
    AddCrowd(a, id, viewers, v0, w);
  }

  lemma AddCrowd(a: Session, id: SessionId, viewers: map<ViewerId, Viewer>, v0: ViewerId, w: Viewer)
    requires SessionTrue(a) && CrowdTrue(a, id, viewers) && v0 !in viewers
    requires w == Viewer(id, Live, [], NextChunk(a), [])
    requires a.Ready() && !a.failed
    ensures CrowdTrue(a.(viewers := a.viewers + {v0}), id, viewers[v0 := w])
  {
    var viewers' := viewers[v0 := w];
    assert OfSession(viewers', id, v0);
    assert forall v :: OfSession(viewers, id, v) ==> OfSession(viewers', id, v);
    if v :| OfSession(viewers, id, v) {
      assert v != v0 && OfSession(viewers', id, v);
      assert Crowded(viewers', id);
    } else {
      assert a.produced == [];
    }
  }

  // ---- The shape of steps that change viewers ----

  lemma SoleShape(s: State, id: SessionId)
    requires Enabled(s, Sole(id, Enqueued)) && s.viewers[s.sessions[id].phase.viewer].session == id
    ensures ViewersBut(s.viewers, Apply(s, Sole(id, Enqueued)).viewers, id)
    ensures TasksBut(s, Apply(s, Sole(id, Enqueued)))
  {
  }

  lemma DeliverShape(s: State, v: ViewerId)
    requires Enabled(s, Deliver(v))
    ensures ViewersBut(s.viewers, Apply(s, Deliver(v)).viewers, s.viewers[v].session)
    ensures TasksBut(s, Apply(s, Deliver(v)))
  {
  }

  lemma RemoveShape(s: State, v: ViewerId)
    requires Enabled(s, Remove(v)) && v in s.sessions[s.viewers[v].session].viewers
    ensures var s' := Apply(s, Remove(v));
            var id := s.viewers[v].session;
            && s'.sessions == s.sessions[id := s.sessions[id].(viewers := s.sessions[id].viewers - {v})]
            && s'.viewers == s.viewers[v := s.viewers[v].(fate := Removed)]
            && s'.registry == s.registry && s.next <= s'.next
            && ViewersBut(s.viewers, s'.viewers, id) && TasksBut(s, s')
  {
  }

  lemma AddShape(s: State, t: TaskId)
    requires Enabled(s, Add(t)) && s.next !in s.viewers && t < s.next
    ensures ViewersBut(s.viewers, Apply(s, Add(t)).viewers, s.tasks[t].session)
    ensures TasksBut(s, Apply(s, Add(t)))
  {
  }

  lemma MultiShape(s: State, id: SessionId)
    requires Enabled(s, Multi(id)) && forall v | v in s.sessions[id].viewers :: OfSession(s.viewers, id, v)
    ensures Apply(s, Multi(id)).viewers == Offered(s.sessions[id], s.viewers)
    ensures ViewersBut(s.viewers, Apply(s, Multi(id)).viewers, id)
    ensures TasksBut(s, Apply(s, Multi(id)))
  {
  }

  lemma SweepShape(s: State, id: SessionId)
    requires Enabled(s, Finish(id)) && s.sessions[id].phase.stage == 1
    requires forall v | v in s.sessions[id].viewers :: OfSession(s.viewers, id, v)
    ensures Apply(s, Finish(id)).viewers == SweptAll(s.sessions[id], s.viewers)
    ensures ViewersBut(s.viewers, Apply(s, Finish(id)).viewers, id)
    ensures TasksBut(s, Apply(s, Finish(id)))
  {
  }

  lemma ViewersNamed(s: State, id: SessionId)
    requires Inv(s) && id in s.sessions
    ensures forall v | v in s.sessions[id].viewers :: OfSession(s.viewers, id, v)
  {
    forall v | v in s.sessions[id].viewers ensures OfSession(s.viewers, id, v) { assert v in Named(s.sessions[id]); }
  }

  /** The actions of a read loop that only move its phase. */
  predicate PhaseAction(a: Action, id: SessionId) {
    || a == Opened(id, true) || a == Opened(id, false) || a == Begin(id) || a == Abandon(id) || a == Check(id)
    || (a.Read? && a.id == id && a.chunk == [])
  }

  /** A step of the loop between reading and broadcasting. */
  predicate PhaseMove(x: Session, y: Session) {
    && Follows(x, y) && !Closing(x.phase) && !InFlight(x.phase) && !InFlight(y.phase) && !y.Swept()
    && y == x.(phase := y.phase, opens := y.opens, failed := y.failed, ended := y.ended)
  }

  /** The record after such a step. */
  function Moved(x: Session, a: Action): Session
    requires a.Check? ==> x.phase.Checking?
  {
    match a
    case Opened(_, ok) => x.(opens := x.opens + 1, failed := !ok, phase := if ok then Waiting else Finishing(0))
    case Begin(_) => x.(phase := Reading)
    case Abandon(_) => x.(phase := Finishing(0))
    case Read(_, _, last) => x.(ended := last, phase := Checking(last))
    case Check(_) => x.(phase := if x.phase.last || x.cancelled then Finishing(0) else Reading)
    case _ => x
  }

  lemma PhaseActionShape(s: State, a: Action, id: SessionId)
    requires Enabled(s, a) && PhaseAction(a, id)
    ensures id in s.sessions && (a.Check? ==> s.sessions[id].phase.Checking?)
    ensures Apply(s, a) == s.(sessions := s.sessions[id := Moved(s.sessions[id], a)])
  {
  }

  lemma MovedTrue(x: Session, a: Action)
    requires SessionTrue(x)
    requires match a
             case Opened(_, _) => x.phase.Opening?
             case Begin(_) => x.phase.Waiting? && x.started
             case Abandon(_) => x.phase.Waiting? && x.cancelled
             case Read(_, _, _) => x.phase.Reading?
             case Check(_) => x.phase.Checking?
             case _ => false
    ensures PhaseMove(x, Moved(x, a)) && SessionTrue(Moved(x, a))
  {
  }

  lemma PhaseMoveSound(x: Session, y: Session, id: SessionId, viewers: map<ViewerId, Viewer>)
    requires Sound(x, id, viewers) && PhaseMove(x, y) && SessionTrue(y)
    ensures Sound(y, id, viewers)
  {
    PhaseSound(x, y, id, viewers);
  }

  lemma AwaitShape(s: State, t: TaskId)
    requires Enabled(s, Await(t)) && t < s.next
    ensures Apply(s, Await(t)) == s.(tasks := Apply(s, Await(t)).tasks) && TasksBut(s, Apply(s, Await(t)))
  {
  }

  lemma GiveUpShape(s: State, t: TaskId)
    requires Enabled(s, GiveUp(t)) && t < s.next
    ensures Apply(s, GiveUp(t)) == s.(tasks := Apply(s, GiveUp(t)).tasks) && TasksBut(s, Apply(s, GiveUp(t)))
  {
  }

  lemma RemoveAgainShape(s: State, v: ViewerId)
    requires Enabled(s, Remove(v)) && v !in s.sessions[s.viewers[v].session].viewers
    ensures var s' := Apply(s, Remove(v));
            s' == s.(tasks := s'.tasks, next := s'.next) && s.next <= s'.next && TasksBut(s, s')
  {
  }

  // ---- Steps ----

  lemma StepSubscribe(s: State, key: Key)
    requires Inv(s)
    ensures Inv(Apply(s, Subscribe(key)))
  {
    StepTaskOnly(s, Apply(s, Subscribe(key)));
  }

  lemma StepAwait(s: State, t: TaskId)
    requires Inv(s) && Enabled(s, Await(t))
    ensures Inv(Apply(s, Await(t)))
  {
    AwaitShape(s, t);
    StepTaskOnly(s, Apply(s, Await(t)));
  }

  lemma StepGiveUp(s: State, t: TaskId)
    requires Inv(s) && Enabled(s, GiveUp(t))
    ensures Inv(Apply(s, GiveUp(t)))
  {
    GiveUpShape(s, t);
    StepTaskOnly(s, Apply(s, GiveUp(t)));
  }

  lemma StepCancel(s: State, t: TaskId)
    requires Inv(s) && Enabled(s, Cancel(t))
    ensures Inv(Apply(s, Cancel(t)))
  {
    var id := s.tasks[t].session;
    SoundOf(s, id);
    AbortSound(s.sessions[id], id, s.viewers);
    StepSessionOnly(s, Apply(s, Cancel(t)), id, Abort(s.sessions[id]));
  }

  lemma StepStart(s: State, t: TaskId)
    requires Inv(s) && Enabled(s, Start(t))
    ensures Inv(Apply(s, Start(t)))
  {
    var id := s.tasks[t].session;
    SoundOf(s, id);
    assert TaskTrue(s, s.tasks[t]);
    StartSound(s.sessions[id], id, s.viewers, s.tasks[t].viewer);
    StepSessionOnly(s, Apply(s, Start(t)), id, s.sessions[id].(started := true));
  }

  lemma MovesPhase(s: State, a: Action, id: SessionId)
    requires Enabled(s, a) && PhaseAction(a, id) && id in s.sessions && SessionTrue(s.sessions[id])
    requires a.Check? ==> s.sessions[id].phase.Checking?
    ensures PhaseMove(s.sessions[id], Moved(s.sessions[id], a))
    ensures SessionTrue(Moved(s.sessions[id], a))
  {
    MovedTrue(s.sessions[id], a);
  }

  lemma StepMove(s: State, s': State, id: SessionId, y: Session)
    requires Inv(s) && id in s.sessions && s' == s.(sessions := s.sessions[id := y])
    requires PhaseMove(s.sessions[id], y) && SessionTrue(y)
    ensures Inv(s')
  {
    SoundOf(s, id);
    PhaseMoveSound(s.sessions[id], y, id, s.viewers);
    StepSessionOnly(s, s', id, y);
  }

  lemma StepPhase(s: State, a: Action, id: SessionId)
    requires Inv(s) && Enabled(s, a) && PhaseAction(a, id)
    ensures Inv(Apply(s, a))
  {
    PhaseActionShape(s, a, id);
    assert SessionTrue(s.sessions[id]) by {
      SoundOf(s, id);
    }
    MovesPhase(s, a, id);
    StepMove(s, Apply(s, a), id, Moved(s.sessions[id], a));
  }

  lemma StepRead(s: State, id: SessionId, chunk: Bytes, last: bool)
    requires Inv(s) && Enabled(s, Read(id, chunk, last))
    ensures Inv(Apply(s, Read(id, chunk, last)))
  {
    if chunk == [] {
      StepPhase(s, Read(id, chunk, last), id);
    } else {
      SoundOf(s, id);
      ReadSound(s.sessions[id], id, s.viewers, chunk, last);
      StepSessionOnly(s, Apply(s, Read(id, chunk, last)), id, Apply(s, Read(id, chunk, last)).sessions[id]);
    }
  }

  lemma StepCount(s: State, id: SessionId)
    requires Inv(s) && Enabled(s, Count(id))
    ensures Inv(Apply(s, Count(id)))
  {
    SoundOf(s, id);
    CountSound(s.sessions[id], id, s.viewers);
    StepSessionOnly(s, Apply(s, Count(id)), id, Apply(s, Count(id)).sessions[id]);
  }

  lemma StepEnqueue(s: State, id: SessionId)
    requires Inv(s) && Enabled(s, Sole(id, Enqueued))
    ensures Inv(Apply(s, Sole(id, Enqueued)))
  {
    var sess := s.sessions[id];
    var s' := Apply(s, Sole(id, Enqueued));
    SoundOf(s, id);
    assert OfSession(s.viewers, id, sess.phase.viewer) by { assert sess.phase.viewer in Named(sess); }
    EnqueueSound(sess, id, s.viewers);
    SoleShape(s, id);
    TouchPlain(s, s', id, s'.sessions[id]);
  }

  lemma SoleGivesUp(s: State, id: SessionId, how: Send)
    requires Enabled(s, Sole(id, how)) && how != Enqueued
    requires Sound(s.sessions[id], id, s.viewers)
    ensures Apply(s, Sole(id, how)) == s.(sessions := s.sessions[id := Apply(s, Sole(id, how)).sessions[id]])
    ensures Follows(s.sessions[id], Apply(s, Sole(id, how)).sessions[id])
    ensures Sound(Apply(s, Sole(id, how)).sessions[id], id, s.viewers)
  {
    assert s.sessions[id].phase.viewer in Named(s.sessions[id]);
    if how == Cancelled {
      SkipSound(s.sessions[id], id, s.viewers);
    } else {
      ClosedSound(s.sessions[id], id, s.viewers);
    }
  }

  lemma StepSole(s: State, id: SessionId, how: Send)
    requires Inv(s) && Enabled(s, Sole(id, how))
    ensures Inv(Apply(s, Sole(id, how)))
  {
    if how == Enqueued {
      StepEnqueue(s, id);
    } else {
      SoundOf(s, id);
      SoleGivesUp(s, id, how);
      StepSessionOnly(s, Apply(s, Sole(id, how)), id, Apply(s, Sole(id, how)).sessions[id]);
    }
  }

  lemma StepMulti(s: State, id: SessionId)
    requires Inv(s) && Enabled(s, Multi(id))
    ensures Inv(Apply(s, Multi(id)))
  {
    var s' := Apply(s, Multi(id));
    SoundOf(s, id);
    ViewersNamed(s, id);
    MultiSound(s.sessions[id], id, s.viewers, s'.sessions[id]);
    MultiShape(s, id);
    TouchPlain(s, s', id, s'.sessions[id]);
  }

  lemma CancelEmptySound(a: Session, id: SessionId, viewers: map<ViewerId, Viewer>)
    requires Sound(a, id, viewers) && a.phase.Emptied?
    ensures Sound(Abort(a).(phase := Checking(a.phase.last)), id, viewers)
  {
    AbortSound(a, id, viewers);
    PhaseSound(Abort(a), Abort(a).(phase := Checking(a.phase.last)), id, viewers);
  }

  lemma StepCancelEmpty(s: State, id: SessionId)
    requires Inv(s) && Enabled(s, CancelEmpty(id))
    ensures Inv(Apply(s, CancelEmpty(id)))
  {
    var a := s.sessions[id];
    SoundOf(s, id);
    CancelEmptySound(a, id, s.viewers);
    StepSessionOnly(s, Apply(s, CancelEmpty(id)), id, Abort(a).(phase := Checking(a.phase.last)));
  }

  lemma EndBookkeeping(s: State, s': State, id: SessionId, sess: Session)
    requires RegistryTrue(s) && IdsTrue(s) && id in s.sessions && sess.phase.Ended? && sess.key == s.sessions[id].key
    requires s' == s.(sessions := s.sessions[id := sess], registry := s'.registry)
    requires s'.registry == if sess.key in s.registry && s.registry[sess.key] == id then s.registry - {sess.key} else s.registry
    ensures RegistryTrue(s') && IdsTrue(s')
  {
  }

  lemma StepSweep(s: State, id: SessionId)
    requires Inv(s) && Enabled(s, Finish(id)) && s.sessions[id].phase.Finishing? && s.sessions[id].phase.stage == 1
    ensures Inv(Apply(s, Finish(id)))
  {
    var s' := Apply(s, Finish(id));
    SoundOf(s, id);
    ViewersNamed(s, id);
    SweepSound(s.sessions[id], id, s.viewers);
    SweepShape(s, id);
    TouchPlain(s, s', id, s'.sessions[id]);
  }

  lemma FinishShape(s: State, id: SessionId)
    requires Enabled(s, Finish(id)) && s.sessions[id].phase.stage != 1
    ensures var s' := Apply(s, Finish(id));
            var x, y := s.sessions[id], s'.sessions[id];
            && s' == s.(sessions := s.sessions[id := y], registry := s'.registry)
            && y == x.(phase := y.phase, cancelled := y.cancelled)
            && (x.phase.stage == 0 ==> y.phase == Finishing(1) && y.cancelled && s'.registry == s.registry)
            && (x.phase.stage == 2 ==> y.phase == Finishing(3) && y.cancelled == x.cancelled && s'.registry == s.registry)
            && (x.phase.stage > 2 ==> y.phase == Ended && y.cancelled == x.cancelled)
  {
  }

  lemma FinishedSound(a: Session, b: Session, id: SessionId, viewers: map<ViewerId, Viewer>)
    requires Sound(a, id, viewers) && a.phase.Finishing? && a.phase.stage != 1
    requires b == a.(phase := b.phase, cancelled := b.cancelled)
    requires a.phase.stage == 0 ==> b.phase == Finishing(1) && b.cancelled
    requires a.phase.stage == 2 ==> b.phase == Finishing(3) && b.cancelled == a.cancelled
    requires a.phase.stage > 2 ==> b.phase == Ended && b.cancelled == a.cancelled
    ensures Sound(b, id, viewers)
  {
    PhaseSound(a, b, id, viewers);
  }

  lemma StepFinish(s: State, id: SessionId)
    requires Inv(s) && Enabled(s, Finish(id))
    ensures Inv(Apply(s, Finish(id)))
  {
    var stage := s.sessions[id].phase.stage;
    if stage == 1 {
      StepSweep(s, id);
    } else {
      var s' := Apply(s, Finish(id));
      FinishShape(s, id);
      SoundOf(s, id);
      FinishedSound(s.sessions[id], s'.sessions[id], id, s.viewers);
      if stage == 0 || stage == 2 {
        StepSessionOnly(s, s', id, s'.sessions[id]);
      } else {
        StepDeregister(s, id);
      }
    }
  }

  lemma StepDeregister(s: State, id: SessionId)
    requires Inv(s) && Enabled(s, Finish(id)) && s.sessions[id].phase.Finishing? && s.sessions[id].phase.stage > 2
    requires Sound(Apply(s, Finish(id)).sessions[id], id, s.viewers)
    ensures Inv(Apply(s, Finish(id)))
  {
    var s' := Apply(s, Finish(id));
    FinishShape(s, id);
    EndBookkeeping(s, s', id, s'.sessions[id]);
    assert ViewersBut(s.viewers, s'.viewers, id);
    Touch(s, s', id, s'.sessions[id]);
  }

  lemma StepDeliver(s: State, v: ViewerId)
    requires Inv(s) && Enabled(s, Deliver(v))
    ensures Inv(Apply(s, Deliver(v)))
  {
    var id := s.viewers[v].session;
    var s' := Apply(s, Deliver(v));
    SoundOf(s, id);
    assert OfSession(s.viewers, id, v);
    DeliverSound(s.sessions[id], id, s.viewers, v);
    assert s'.sessions == s.sessions[id := s.sessions[id]];
    DeliverShape(s, v);
    TouchPlain(s, s', id, s.sessions[id]);
  }

  lemma StepRemoveLive(s: State, v: ViewerId)
    requires Inv(s) && Enabled(s, Remove(v)) && v in s.sessions[s.viewers[v].session].viewers
    ensures Inv(Apply(s, Remove(v)))
  {
    var id := s.viewers[v].session;
    var s' := Apply(s, Remove(v));
    var sess := s.sessions[id].(viewers := s.sessions[id].viewers - {v});
    SoundOf(s, id);
    assert OfSession(s.viewers, id, v);
    RemoveSound(s.sessions[id], id, s.viewers, v);
    RemoveShape(s, v);
    TouchPlain(s, s', id, sess);
  }

  lemma StepRemove(s: State, v: ViewerId)
    requires Inv(s) && Enabled(s, Remove(v))
    ensures Inv(Apply(s, Remove(v)))
  {
    if v in s.sessions[s.viewers[v].session].viewers {
      StepRemoveLive(s, v);
    } else {
      RemoveAgainShape(s, v);
      StepTaskOnly(s, Apply(s, Remove(v)));
    }
  }

  lemma StepAdd(s: State, t: TaskId)
    requires Inv(s) && Enabled(s, Add(t))
    ensures Inv(Apply(s, Add(t)))
  {
    var id := s.tasks[t].session;
    var s' := Apply(s, Add(t));
    SoundOf(s, id);
    forall v | v in Named(s.sessions[id]) ensures v != s.next { assert OfSession(s.viewers, id, v); }
    AddSound(s.sessions[id], id, s.viewers, s.next);
    AddShape(s, t);
    TouchPlain(s, s', id, s'.sessions[id]);
  }

  /** The actions of a session's own goroutine. */
  predicate LoopAction(a: Action) {
    || a.Opened? || a.Begin? || a.Abandon? || a.Read? || a.Count? || a.Sole? || a.Multi?
    || a.CancelEmpty? || a.Check? || a.Finish?
  }

  lemma ClientStep(s: State, a: Action)
    requires Inv(s) && Enabled(s, a) && !LoopAction(a)
    ensures Inv(Apply(s, a))
  {
    match a
    case Subscribe(key) => StepSubscribe(s, key);
    case Look(t) => StepLook(s, t);
    case Await(t) => StepAwait(s, t);
    case GiveUp(t) => StepGiveUp(s, t);
    case Cancel(t) => StepCancel(s, t);
    case Add(t) => StepAdd(s, t);
    case Start(t) => StepStart(s, t);
    case Deliver(v) => StepDeliver(s, v);
    case Eof(_) =>
    case Remove(v) => StepRemove(s, v);
  }

  lemma BroadcastStep(s: State, a: Action)
    requires Inv(s) && Enabled(s, a) && (a.Sole? || a.Multi? || a.CancelEmpty?)
    ensures Inv(Apply(s, a))
  {
    match a
    case Sole(id, how) => StepSole(s, id, how);
    case Multi(id) => StepMulti(s, id);
    case CancelEmpty(id) => StepCancelEmpty(s, id);
  }

  lemma ReadingStep(s: State, a: Action)
    requires Inv(s) && Enabled(s, a) && (a.Read? || a.Count? || a.Finish?)
    ensures Inv(Apply(s, a))
  {
    match a
    case Read(id, chunk, last) => StepRead(s, id, chunk, last);
    case Count(id) => StepCount(s, id);
    case Finish(id) => StepFinish(s, id);
  }

  lemma LoopStep(s: State, a: Action)
    requires Inv(s) && Enabled(s, a) && LoopAction(a)
    ensures Inv(Apply(s, a))
  {
    if a.Sole? || a.Multi? || a.CancelEmpty? {
      BroadcastStep(s, a);
    } else if a.Read? || a.Count? || a.Finish? {
      ReadingStep(s, a);
    } else {
      StepPhase(s, a, a.id);
    }
  }

  /** Every action keeps the invariant. */
  lemma StepKeepsInv(s: State, a: Action)
    requires Inv(s) && Enabled(s, a)
    ensures Inv(Apply(s, a))
  {
    if LoopAction(a) { LoopStep(s, a); } else { ClientStep(s, a); }
  }

  /** The invariant holds all along every run. */
  lemma {:induction false} RunKeepsInv(states: seq<State>, actions: seq<Action>, i: nat)
    requires Run(states, actions) && states[0] == Initial() && i < |states|
    ensures Inv(states[i])
  {
    if i == 0 {
      InitialHasInv();
    } else {
      RunKeepsInv(states, actions, i - 1);
      StepKeepsInv(states[i - 1], actions[i - 1]);
    }
  }

  lemma ReachableInv(s: State)
    requires Reachable(s)
    ensures Inv(s)
  {
    var states, actions :| Run(states, actions) && states[0] == Initial() && states[|actions|] == s;
    RunKeepsInv(states, actions, |actions|);
  }
}
