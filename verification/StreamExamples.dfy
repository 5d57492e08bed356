/**
 Two unwanted runs: a viewer registers with a session that has already closed its viewers, and a
 cancelled session drops the chunk it is sending although there is room for it.
 */
module StreamExamples {
  import opened Prelude
  import opened StreamProtocol
  import opened StreamInvariant
  import opened StreamTheorems

  const KEY: Key := "p:live:1.ts"

  lemma ReachableStep(s: State, a: Action, s': State)
    requires Reachable(s) && Enabled(s, a) && s' == Apply(s, a)
    ensures Reachable(s')
  {
    var states, actions :| Run(states, actions) && states[0] == Initial() && states[|actions|] == s;
    var states', actions' := states + [s'], actions + [a];
    assert states'[|actions'|] == s' && states'[0] == states[0];
    forall i | 0 <= i < |actions'|
      ensures Enabled(states'[i], actions'[i]) && states'[i + 1] == Apply(states'[i], actions'[i])
    {
      if i < |actions| { assert Enabled(states[i], actions[i]); }
    }
    assert Run(states', actions');
  }

  lemma InitialReachable()
    ensures Reachable(Initial())
  {
    var states, actions: seq<Action> := [Initial()], [];
    assert Run(states, actions) && states[|actions|] == Initial();
  }

  // Two clients ask for the same stream; task 0 creates session 1, task 2 finds it.

  function Created(): State {
    State(map[KEY := 1], map[1 := NewSession(KEY)], map[], map[0 := Awaiting(KEY, 1)], 2)
  }

  function BothWait(): State {
    Created().(tasks := map[0 := Awaiting(KEY, 1), 2 := Awaiting(KEY, 1)], next := 3)
  }

  function SessionAt(phase: Phase, cancelled: bool): Session {
    NewSession(KEY).(opens := 1, phase := phase, cancelled := cancelled, aborted := cancelled)
  }

  /** The session is ready; client 0 is past its checks, client 2 may still be waiting or cancelling. */
  function Ready(task2: map<TaskId, Task>, phase: Phase, cancelled: bool): State {
    State(map[KEY := 1], map[1 := SessionAt(phase, cancelled)], map[], map[0 := Passed(1)] + task2, 3)
  }

  lemma Creation()
    ensures Enabled(Apply(Initial(), Subscribe(KEY)), Look(0))
    ensures Apply(Apply(Initial(), Subscribe(KEY)), Look(0)) == Created()
    ensures Enabled(Apply(Created(), Subscribe(KEY)), Look(2))
    ensures Apply(Apply(Created(), Subscribe(KEY)), Look(2)) == BothWait()
  {
  }

  lemma Opening()
    ensures Enabled(BothWait(), Opened(1, true))
    ensures var s := Apply(BothWait(), Opened(1, true));
            Enabled(s, Await(0)) && Apply(s, Await(0)) == Ready(map[2 := Awaiting(KEY, 1)], Waiting, false)
  {
  }

  lemma Cancellation()
    ensures var s := Ready(map[2 := Awaiting(KEY, 1)], Waiting, false);
            Enabled(s, GiveUp(2)) && Apply(s, GiveUp(2)) == Ready(map[2 := Task.Cancelling(1)], Waiting, false)
    ensures var s := Ready(map[2 := Task.Cancelling(1)], Waiting, false);
            Enabled(s, Cancel(2)) && Apply(s, Cancel(2)) == Ready(map[], Waiting, true)
    ensures var s := Ready(map[], Waiting, true);
            Enabled(s, Abandon(1)) && Apply(s, Abandon(1)) == Ready(map[], Finishing(0), true)
  {
  }

  lemma Finishing0()
    ensures var s := Ready(map[], Finishing(0), true);
            Enabled(s, Finish(1)) && Apply(s, Finish(1)) == Ready(map[], Finishing(1), true)
    ensures var s := Ready(map[], Finishing(1), true);
            Enabled(s, Finish(1)) && Apply(s, Finish(1)) == Ready(map[], Finishing(2), true)
    ensures var s := Ready(map[], Finishing(2), true);
            Enabled(s, Add(0)) && 3 in Apply(s, Add(0)).viewers
            && Apply(s, Add(0)).viewers[3].fate.Live? && Apply(s, Add(0)).viewers[3].session == 1
            && 1 in Apply(s, Add(0)).sessions && Apply(s, Add(0)).sessions[1].Swept()
  {
  }

  lemma WaitingReachable()
    ensures Reachable(Ready(map[2 := Awaiting(KEY, 1)], Waiting, false))
  {
    InitialReachable();
    Creation();
    Opening();
    ReachableStep(Initial(), Subscribe(KEY), Apply(Initial(), Subscribe(KEY)));
    ReachableStep(Apply(Initial(), Subscribe(KEY)), Look(0), Created());
    ReachableStep(Created(), Subscribe(KEY), Apply(Created(), Subscribe(KEY)));
    ReachableStep(Apply(Created(), Subscribe(KEY)), Look(2), BothWait());
    var s := Apply(BothWait(), Opened(1, true));
    ReachableStep(BothWait(), Opened(1, true), s);
    ReachableStep(s, Await(0), Ready(map[2 := Awaiting(KEY, 1)], Waiting, false));
  }

  /**
   One client gives up while another is past its checks but not yet registered; the session, seen
   empty, is cancelled and closes its viewers before that registration. By `LateViewerStarves` the
   registered viewer then waits for ever.
   */
  lemma LateViewerHappens()
    ensures exists s: State, v: ViewerId ::
      && Reachable(s) && v in s.viewers && s.viewers[v].fate.Live?
      && s.viewers[v].session in s.sessions && s.sessions[s.viewers[v].session].Swept()
  {
    WaitingReachable();
    Cancellation();
    Finishing0();
    ReachableStep(Ready(map[2 := Awaiting(KEY, 1)], Waiting, false), GiveUp(2), Ready(map[2 := Task.Cancelling(1)], Waiting, false));
    ReachableStep(Ready(map[2 := Task.Cancelling(1)], Waiting, false), Cancel(2), Ready(map[], Waiting, true));
    ReachableStep(Ready(map[], Waiting, true), Abandon(1), Ready(map[], Finishing(0), true));
    ReachableStep(Ready(map[], Finishing(0), true), Finish(1), Ready(map[], Finishing(1), true));
    ReachableStep(Ready(map[], Finishing(1), true), Finish(1), Ready(map[], Finishing(2), true));
    var s := Apply(Ready(map[], Finishing(2), true), Add(0));
    ReachableStep(Ready(map[], Finishing(2), true), Add(0), s);
    assert Reachable(s) && 3 in s.viewers && s.viewers[3].fate.Live?
        && s.viewers[3].session in s.sessions && s.sessions[s.viewers[3].session].Swept();
  }

  // ---- A chunk lost with room in the queue ----

  const CHUNK: Bytes := [1]

  /** The session with its one viewer, number 3, which has been given nothing. */
  function Watched(phase: Phase, produced: seq<Bytes>, cancelled: bool, skipped: set<ViewerId>): Session {
    SessionAt(phase, cancelled).(started := true, viewers := {3}, produced := produced, skipped := skipped)
  }

  /** Client 2 has seen the session empty and is about to cancel it. */
  function Sending(sess: Session, tasks: map<TaskId, Task>): State {
    State(map[KEY := 1], map[1 := sess], map[3 := Waiter()], tasks, 4)
  }

  function Waiter(): Viewer {
    Viewer(1, Live, [], 0, [])
  }

  function About(): map<TaskId, Task> {
    map[2 := Task.Cancelling(1)]
  }

  lemma Joining()
    ensures var s := Ready(map[2 := Task.Cancelling(1)], Waiting, false);
            Enabled(s, Add(0)) && Enabled(Apply(s, Add(0)), Start(0))
            && Apply(Apply(s, Add(0)), Start(0)) == Sending(Watched(Waiting, [], false, {}), About())
  {
    var s := Ready(map[2 := Task.Cancelling(1)], Waiting, false);
    var joined := Apply(s, Add(0));
    assert s.tasks == map[0 := Passed(1), 2 := Task.Cancelling(1)];
    assert joined.tasks == map[0 := Starting(1, 3), 2 := Task.Cancelling(1)];
    assert {} + {3} == {3};
    assert joined.sessions[1] == SessionAt(Waiting, false).(viewers := {3});
    assert joined.viewers == map[3 := Waiter()];
    var started := Apply(joined, Start(0));
    assert started.tasks == About();
    assert started.sessions == map[1 := Watched(Waiting, [], false, {})];
  }

  lemma ReadingOne()
    ensures var s := Sending(Watched(Waiting, [], false, {}), About());
            Enabled(s, Begin(1)) && Apply(s, Begin(1)) == Sending(Watched(Reading, [], false, {}), About())
    ensures var s := Sending(Watched(Reading, [], false, {}), About());
            Enabled(s, Read(1, CHUNK, false))
            && Apply(s, Read(1, CHUNK, false)) == Sending(Watched(Broadcasting(false), [CHUNK], false, {}), About())
  {
    assert [] + [CHUNK] == [CHUNK];
  }

  lemma SendingOne()
    ensures var s := Sending(Watched(Broadcasting(false), [CHUNK], false, {}), About());
            Enabled(s, Count(1)) && Apply(s, Count(1)) == Sending(Watched(SoleSend(3, false), [CHUNK], false, {}), About())
    ensures var s := Sending(Watched(SoleSend(3, false), [CHUNK], false, {}), About());
            Enabled(s, Cancel(2)) && Apply(s, Cancel(2)) == Sending(Watched(SoleSend(3, false), [CHUNK], true, {}), map[])
  {
    assert Only({3}) == 3 by { assert Only({3}) in {3}; }
  }

  lemma GivingUp()
    ensures var s := Sending(Watched(SoleSend(3, false), [CHUNK], true, {}), map[]);
            Enabled(s, Sole(1, Cancelled))
            && Apply(s, Sole(1, Cancelled)) == Sending(Watched(Checking(false), [CHUNK], true, {3}), map[])
    ensures var s := Sending(Watched(Checking(false), [CHUNK], true, {3}), map[]);
            Enabled(s, Check(1)) && Apply(s, Check(1)) == Sending(Watched(Finishing(0), [CHUNK], true, {3}), map[])
    ensures var s := Sending(Watched(Finishing(0), [CHUNK], true, {3}), map[]);
            Enabled(s, Finish(1)) && Apply(s, Finish(1)) == Sending(Watched(Finishing(1), [CHUNK], true, {3}), map[])
  {
    var none: set<ViewerId> := {};
    assert none + {3} == {3};
  }

  lemma Sweeping()
    ensures var s := Sending(Watched(Finishing(1), [CHUNK], true, {3}), map[]);
            Enabled(s, Finish(1))
            && var s' := Apply(s, Finish(1));
               && 3 in s'.viewers && s'.viewers[3] == Waiter().(fate := Fate.Swept)
               && 1 in s'.sessions && s'.sessions[1].produced == [CHUNK] && Enabled(s', Eof(3))
  {
  }

  /** The session blocked on nothing but a choice: viewer 3's queue is empty and the session cancelled. */
  lemma SendingReachable()
    ensures Reachable(Sending(Watched(SoleSend(3, false), [CHUNK], true, {}), map[]))
  {
    WaitingReachable();
    Cancellation();
    Joining();
    ReadingOne();
    SendingOne();
    var w := Ready(map[2 := Task.Cancelling(1)], Waiting, false);
    ReachableStep(Ready(map[2 := Awaiting(KEY, 1)], Waiting, false), GiveUp(2), w);
    ReachableStep(w, Add(0), Apply(w, Add(0)));
    ReachableStep(Apply(w, Add(0)), Start(0), Sending(Watched(Waiting, [], false, {}), About()));
    ReachableStep(Sending(Watched(Waiting, [], false, {}), About()), Begin(1),
                  Sending(Watched(Reading, [], false, {}), About()));
    ReachableStep(Sending(Watched(Reading, [], false, {}), About()), Read(1, CHUNK, false),
                  Sending(Watched(Broadcasting(false), [CHUNK], false, {}), About()));
    ReachableStep(Sending(Watched(Broadcasting(false), [CHUNK], false, {}), About()), Count(1),
                  Sending(Watched(SoleSend(3, false), [CHUNK], false, {}), About()));
    ReachableStep(Sending(Watched(SoleSend(3, false), [CHUNK], false, {}), About()), Cancel(2),
                  Sending(Watched(SoleSend(3, false), [CHUNK], true, {}), map[]));
  }

  /**
   A client that saw the session empty cancels it after another has registered. The chunk being sent
   to that viewer is given up although its queue is empty, and the viewer, which stayed registered
   until finish closed it, sees the end of the file without that chunk.
   */
  lemma CancelledChunkIsLost()
    ensures exists s: State, v: ViewerId ::
      && Reachable(s) && Enabled(s, Eof(v)) && s.viewers[v].fate.Swept? && s.viewers[v].join == 0
      && s.viewers[v].got == [] && s.sessions[s.viewers[v].session].produced == [CHUNK]
  {
    SendingReachable();
    GivingUp();
    Sweeping();
    ReachableStep(Sending(Watched(SoleSend(3, false), [CHUNK], true, {}), map[]), Sole(1, Cancelled),
                  Sending(Watched(Checking(false), [CHUNK], true, {3}), map[]));
    ReachableStep(Sending(Watched(Checking(false), [CHUNK], true, {3}), map[]), Check(1),
                  Sending(Watched(Finishing(0), [CHUNK], true, {3}), map[]));
    ReachableStep(Sending(Watched(Finishing(0), [CHUNK], true, {3}), map[]), Finish(1),
                  Sending(Watched(Finishing(1), [CHUNK], true, {3}), map[]));
    var s := Apply(Sending(Watched(Finishing(1), [CHUNK], true, {3}), map[]), Finish(1));
    ReachableStep(Sending(Watched(Finishing(1), [CHUNK], true, {3}), map[]), Finish(1), s);
    assert Reachable(s) && Enabled(s, Eof(3)) && s.viewers[3].fate.Swept? && s.viewers[3].join == 0
        && s.viewers[3].got == [] && s.sessions[s.viewers[3].session].produced == [CHUNK];
  }
}
