/** The inductive invariant of the multiplexer and its preservation. */
module StreamInvariant {
  import opened Prelude
  import opened StreamProtocol

  // ---- Sessions ----

  predicate Pumping(p: Phase) {
    p.Reading? || p.Broadcasting? || p.SoleSend? || p.MultiSend? || p.Emptied? || p.Checking?
  }

  /** A chunk has been read and is not yet offered to everybody it is meant for. */
  predicate InFlight(p: Phase) {
    p.Broadcasting? || p.SoleSend? || p.MultiSend?
  }

  /** Nothing more will be broadcast. */
  predicate Closing(p: Phase) {
    p.Finishing? || p.Ended?
  }

  /** The read loop has been told of the upstream's end and is on its way out. */
  predicate Last(p: Phase) {
    match p
    case Broadcasting(last) => last
    case SoleSend(_, last) => last
    case MultiSend(last) => last
    case Emptied(last) => last
    case Checking(last) => last
    case _ => false
  }

  ghost predicate SessionTrue(sess: Session) {
    && sess.opens == (if sess.phase.Opening? then 0 else 1)
    && (sess.phase.Finishing? ==> sess.phase.stage <= 3)
    && (sess.failed ==> Closing(sess.phase))
    && (Pumping(sess.phase) ==> sess.started)
    && (!sess.started ==> sess.produced == [])
    && (InFlight(sess.phase) ==> sess.produced != [])
    && (sess.aborted ==> sess.cancelled)
    && (sess.cancelled ==> sess.aborted || Closing(sess.phase))
    // a blocking send is given up only in a cancelled session, which then stops reading
    && (sess.skipped != {} ==> sess.aborted && (sess.phase.Checking? || Closing(sess.phase)))
    && (sess.phase.Ended? || (sess.phase.Finishing? && sess.phase.stage >= 1) ==> sess.cancelled)
    // the loop ends for one of three reasons
    && (Last(sess.phase) ==> sess.ended)
    && (sess.ended ==> Last(sess.phase) || Closing(sess.phase))
    && (Closing(sess.phase) ==> sess.ended || sess.aborted || sess.failed)
  }

  // ---- Viewers ----

  /** How far the registered viewer `id` has been served. */
  predicate Served(sess: Session, id: ViewerId, v: Viewer) {
    match sess.phase
    case Broadcasting(_) => v.End() == |sess.produced| - 1
    case MultiSend(_) => v.End() == |sess.produced| - 1
    case SoleSend(only, _) => v.End() == if id == only then |sess.produced| - 1 else |sess.produced|
    case _ => v.End() == if id in sess.skipped then |sess.produced| - 1 else |sess.produced|
  }

  /** The chunks enqueued for `v`, read or not, are one contiguous block of the upstream. */
  predicate Contiguous(sess: Session, v: Viewer) {
    v.End() <= |sess.produced| && v.got + v.queue == sess.produced[v.join..v.End()]
  }

  ghost predicate ViewerTrue(sess: Session, id: ViewerId, v: Viewer) {
    && |v.queue| <= VIEWER_QUEUE_SIZE
    && Contiguous(sess, v)
    && (v.fate.Live? <==> id in sess.viewers)
    && (v.fate.Live? ==> Served(sess, id, v))
    && (v.fate.Swept? ==> sess.Swept() && v.End() == if id in sess.skipped then |sess.produced| - 1 else |sess.produced|)
    && (sess.phase.SoleSend? && sess.phase.viewer == id ==>
          (v.fate.Live? || v.fate.Removed?) && v.End() == |sess.produced| - 1)
    // registered after finish closed the others: never served
    && (v.fate.Live? && sess.Swept() ==> v.got == [] && v.queue == [])
  }

  /** Viewers of session `id`, past and present. */
  ghost predicate OfSession(viewers: map<ViewerId, Viewer>, id: SessionId, v: ViewerId) {
    v in viewers && viewers[v].session == id
  }

  /** The session has had more than one viewer. */
  ghost predicate Crowded(viewers: map<ViewerId, Viewer>, id: SessionId) {
    exists v, w :: v != w && OfSession(viewers, id, v) && OfSession(viewers, id, w)
  }

  /** The viewers a session's record speaks of. */
  function Named(sess: Session): set<ViewerId> {
    sess.viewers + sess.skipped + (if sess.phase.SoleSend? then {sess.phase.viewer} else {})
  }

  ghost predicate CrowdTrue(sess: Session, id: SessionId, viewers: map<ViewerId, Viewer>) {
    && (forall v | v in Named(sess) :: OfSession(viewers, id, v))
    // only a session with several viewers drops one
    && (forall v | OfSession(viewers, id, v) && viewers[v].fate.Dropped? :: Crowded(viewers, id))
    && (sess.phase.MultiSend? ==>
          forall v | v in sess.viewers :: Crowded(viewers, id) || (v in viewers && viewers[v].got == [] && viewers[v].queue == []))
    // the first viewer is offered the upstream from its first chunk
    && (forall v | OfSession(viewers, id, v) :: Crowded(viewers, id) || viewers[v].join == 0)
    // start is signalled by a viewer
    && (sess.started ==> exists v :: OfSession(viewers, id, v))
    && (sess.phase.Opening? || sess.failed ==> forall v :: !OfSession(viewers, id, v))
  }

  // ---- The whole state ----

  /** Every session that has not fully ended is the one registered under its key. */
  ghost predicate RegistryTrue(s: State) {
    && (forall k | k in s.registry :: s.registry[k] in s.sessions && s.sessions[s.registry[k]].key == k)
    && (forall id | id in s.sessions && !s.sessions[id].phase.Ended? ::
          s.sessions[id].key in s.registry && s.registry[s.sessions[id].key] == id)
  }

  ghost predicate TaskTrue(s: State, t: Task) {
    match t
    case Looking(_) => true
    case Awaiting(key, id) => id in s.sessions && s.sessions[id].key == key
    case Passed(id) => id in s.sessions && s.sessions[id].Ready() && !s.sessions[id].failed
    case Starting(id, v) => id in s.sessions && OfSession(s.viewers, id, v)
    case Cancelling(id) => id in s.sessions
  }

  ghost predicate TasksTrue(s: State) {
    forall t | t in s.tasks :: TaskTrue(s, s.tasks[t])
  }

  ghost predicate SessionsTrue(s: State) {
    forall id | id in s.sessions :: SessionTrue(s.sessions[id]) && CrowdTrue(s.sessions[id], id, s.viewers)
  }

  ghost predicate ViewersTrue(s: State) {
    forall v | v in s.viewers ::
      s.viewers[v].session in s.sessions && ViewerTrue(s.sessions[s.viewers[v].session], v, s.viewers[v])
  }

  ghost predicate IdsTrue(s: State) {
    && (forall id | id in s.sessions :: id < s.next)
    && (forall v | v in s.viewers :: v < s.next)
    && (forall t | t in s.tasks :: t < s.next)
  }

  ghost predicate Inv(s: State) {
    RegistryTrue(s) && TasksTrue(s) && SessionsTrue(s) && ViewersTrue(s) && IdsTrue(s)
  }

  lemma InitialHasInv()
    ensures Inv(Initial())
  {
  }

  // ---- Frames ----

  /** The viewers of session `id` are the same in both maps. */
  ghost predicate SameViewers(viewers: map<ViewerId, Viewer>, viewers': map<ViewerId, Viewer>, id: SessionId) {
    forall v :: (OfSession(viewers, id, v) <==> OfSession(viewers', id, v))
             && (OfSession(viewers, id, v) ==> viewers'[v] == viewers[v])
  }

  lemma CrowdedStays(viewers: map<ViewerId, Viewer>, viewers': map<ViewerId, Viewer>, id: SessionId)
    requires Crowded(viewers, id)
    requires forall v :: OfSession(viewers, id, v) ==> OfSession(viewers', id, v)
    ensures Crowded(viewers', id)
  {
    var v, w :| v != w && OfSession(viewers, id, v) && OfSession(viewers, id, w);
    assert OfSession(viewers', id, v) && OfSession(viewers', id, w);
  }

  lemma CrowdFramed(sess: Session, id: SessionId, viewers: map<ViewerId, Viewer>, viewers': map<ViewerId, Viewer>)
    requires CrowdTrue(sess, id, viewers) && SameViewers(viewers, viewers', id)
    ensures CrowdTrue(sess, id, viewers')
  {
    if Crowded(viewers, id) { CrowdedStays(viewers, viewers', id); }
  }

  /** Only viewers of session `id` differ, and none changes its session. */
  ghost predicate ViewersBut(viewers: map<ViewerId, Viewer>, viewers': map<ViewerId, Viewer>, id: SessionId) {
    && (forall v | v in viewers :: v in viewers' && viewers'[v].session == viewers[v].session)
    && (forall v | v in viewers' && viewers'[v].session != id :: v in viewers && viewers'[v] == viewers[v])
  }

  lemma ButSame(viewers: map<ViewerId, Viewer>, viewers': map<ViewerId, Viewer>, id: SessionId, other: SessionId)
    requires ViewersBut(viewers, viewers', id) && other != id
    ensures SameViewers(viewers, viewers', other)
  {
  }

  /** Every task of `s'` is one of `s` or a sound new one. */
  ghost predicate TasksBut(s: State, s': State) {
    forall t | t in s'.tasks :: (t in s.tasks && s'.tasks[t] == s.tasks[t]) || (t < s'.next && TaskTrue(s', s'.tasks[t]))
  }

  // ---- Steps that touch no session ----

  lemma StepTaskOnly(s: State, s': State)
    requires Inv(s)
    requires s' == s.(tasks := s'.tasks, next := s'.next) && s.next <= s'.next
    requires TasksBut(s, s')
    ensures Inv(s')
  {
    forall t | t in s'.tasks ensures TaskTrue(s', s'.tasks[t]) {
      if t in s.tasks { assert TaskTrue(s, s.tasks[t]); }
    }
  }

  lemma FreshSessionSound(key: Key, id: SessionId, viewers: map<ViewerId, Viewer>)
    requires forall v | v in viewers :: viewers[v].session != id
    ensures SessionTrue(NewSession(key)) && CrowdTrue(NewSession(key), id, viewers)
  {
  }

  lemma NewSessionSound(s: State, t: TaskId)
    requires SessionsTrue(s) && ViewersTrue(s) && IdsTrue(s)
    requires Enabled(s, Look(t)) && s.tasks[t].key !in s.registry
    ensures SessionsTrue(Apply(s, Look(t)))
  {
    var s' := Apply(s, Look(t));
    forall id | id in s'.sessions
      ensures SessionTrue(s'.sessions[id]) && CrowdTrue(s'.sessions[id], id, s'.viewers)
    {
      if id == s.next {
        FreshSessionSound(s.tasks[t].key, id, s.viewers);
      }
    }
  }

  lemma NewSessionViewers(s: State, t: TaskId)
    requires ViewersTrue(s) && TasksTrue(s) && IdsTrue(s) && Enabled(s, Look(t)) && s.tasks[t].key !in s.registry
    ensures ViewersTrue(Apply(s, Look(t))) && TasksTrue(Apply(s, Look(t)))
  {
    var s' := Apply(s, Look(t));
    forall i | i in s.sessions ensures i in s'.sessions && s'.sessions[i] == s.sessions[i] {}
    forall i | i in s'.tasks ensures TaskTrue(s', s'.tasks[i]) {
      if i != t { assert TaskTrue(s, s.tasks[i]); }
    }
  }

  lemma NewSessionRegistry(s: State, t: TaskId)
    requires RegistryTrue(s) && IdsTrue(s) && Enabled(s, Look(t)) && s.tasks[t].key !in s.registry
    ensures RegistryTrue(Apply(s, Look(t))) && IdsTrue(Apply(s, Look(t)))
  {
  }

  lemma StepLook(s: State, t: TaskId)
    requires Inv(s) && Enabled(s, Look(t))
    ensures Inv(Apply(s, Look(t)))
  {
    if s.tasks[t].key in s.registry {
      assert TasksBut(s, Apply(s, Look(t)));
      StepTaskOnly(s, Apply(s, Look(t)));
    } else {
      NewSessionSound(s, t);
      NewSessionViewers(s, t);
      NewSessionRegistry(s, t);
    }
  }

  // ---- Steps of one session ----

  /** The new record `sess` and its viewers are sound. */
  ghost predicate Sound(sess: Session, id: SessionId, viewers: map<ViewerId, Viewer>) {
    && SessionTrue(sess) && CrowdTrue(sess, id, viewers)
    && (forall v :: OfSession(viewers, id, v) ==> ViewerTrue(sess, v, viewers[v]))
  }

  /** The record may change, but not its key; it does not go back to opening, nor fail later. */
  predicate Follows(a: Session, b: Session) {
    b.key == a.key && (b.phase.Opening? ==> a.phase.Opening?) && (b.failed ==> a.failed || a.phase.Opening?)
  }

  /** A step that changes session `id` to `sess` and viewers of that session only. */
  lemma Touch(s: State, s': State, id: SessionId, sess: Session)
    requires Inv(s) && id in s.sessions
    requires s'.sessions == s.sessions[id := sess] && Follows(s.sessions[id], sess)
    requires ViewersBut(s.viewers, s'.viewers, id)
    requires Sound(sess, id, s'.viewers)
    requires RegistryTrue(s') && IdsTrue(s')
    requires forall t | t in s'.tasks :: TaskTrue(s, s'.tasks[t]) || TaskTrue(s', s'.tasks[t])
    ensures Inv(s')
  {
    TouchTasks(s, s', id, sess);
    forall i | i in s'.sessions ensures SessionTrue(s'.sessions[i]) && CrowdTrue(s'.sessions[i], i, s'.viewers) {
      if i != id {
        ButSame(s.viewers, s'.viewers, id, i);
        CrowdFramed(s.sessions[i], i, s.viewers, s'.viewers);
      }
    }
    forall v | v in s'.viewers
      ensures s'.viewers[v].session in s'.sessions
      ensures ViewerTrue(s'.sessions[s'.viewers[v].session], v, s'.viewers[v])
    {
      if s'.viewers[v].session == id { assert OfSession(s'.viewers, id, v); }
    }
  }

  lemma TouchTasks(s: State, s': State, id: SessionId, sess: Session)
    requires id in s.sessions
    requires s'.sessions == s.sessions[id := sess] && Follows(s.sessions[id], sess)
    requires ViewersBut(s.viewers, s'.viewers, id)
    requires forall t | t in s'.tasks :: TaskTrue(s, s'.tasks[t]) || TaskTrue(s', s'.tasks[t])
    ensures TasksTrue(s')
  {
  }

  /** Registry and identifiers after a step of a session that does not end and starts no other. */
  lemma Bookkeeping(s: State, s': State, id: SessionId, sess: Session)
    requires RegistryTrue(s) && IdsTrue(s) && id in s.sessions
    requires s'.registry == s.registry && s'.sessions == s.sessions[id := sess] && s.next <= s'.next
    requires sess.key == s.sessions[id].key && (s.sessions[id].phase.Ended? ==> sess.phase.Ended?)
    requires forall v | v in s'.viewers :: v in s.viewers || v < s'.next
    requires forall t | t in s'.tasks :: t in s.tasks || t < s'.next
    ensures RegistryTrue(s') && IdsTrue(s')
  {
  }

  /** `Touch` for a step that leaves the registry alone. */
  lemma TouchPlain(s: State, s': State, id: SessionId, sess: Session)
    requires Inv(s) && id in s.sessions
    requires s'.sessions == s.sessions[id := sess] && Follows(s.sessions[id], sess)
    requires s.sessions[id].phase.Ended? ==> sess.phase.Ended?
    requires s'.registry == s.registry && s.next <= s'.next
    requires ViewersBut(s.viewers, s'.viewers, id)
    requires Sound(sess, id, s'.viewers)
    requires forall v | v in s'.viewers :: v in s.viewers || v < s'.next
    requires TasksBut(s, s')
    ensures Inv(s')
  {
    Bookkeeping(s, s', id, sess);
    Touch(s, s', id, sess);
  }

  /** A step that only changes the record of session `id`. */
  lemma StepSessionOnly(s: State, s': State, id: SessionId, sess: Session)
    requires Inv(s) && id in s.sessions
    requires s' == s.(sessions := s.sessions[id := sess], tasks := s'.tasks)
    requires forall t | t in s'.tasks :: t in s.tasks && s'.tasks[t] == s.tasks[t]
    requires Follows(s.sessions[id], sess) && (s.sessions[id].phase.Ended? ==> sess.phase.Ended?)
    requires Sound(sess, id, s.viewers)
    ensures Inv(s')
  {
    TouchPlain(s, s', id, sess);
  }

  lemma SoundOf(s: State, id: SessionId)
    requires Inv(s) && id in s.sessions
    ensures Sound(s.sessions[id], id, s.viewers)
  {
  }
}
