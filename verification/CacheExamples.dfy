/** Runs that show where the cache gives less than its design promises. */
module CacheExamples {
  import opened Prelude
  import opened CacheState
  import opened CacheProtocol
  import opened CacheInvariant
  import opened CacheTheorems
  import opened CacheGuards

  const KEY: Key := "iptv:cache:p:get.php"
  const OLD: GenId := GenId(KEY, "a")

  /** A catalogue of five items, and one known to be empty. */
  function Sample(): Response {
    Response(200, "text/plain", [1], 5, true)
  }

  function Nothing(): Response {
    Response(200, "text/plain", [1], 0, true)
  }

  /** A freshly started process that finds one published entry of one chunk. */
  function Start(): State {
    State(
      Redis(0, map[KEY := ManifestFor(Sample(), "a")], map[ChunkKey(OLD, 0) := Chunk([1], None)], map[]),
      Book(map[], map[]), map[], 1,
      History(map[OLD := Made(Sample(), 0)], map[], {}, {}))
  }

  lemma StartIsInit()
    ensures Init(Start())
  {
    assert ChunkCount(1) == 1;
    assert ChunkSlice([1], 0) == [1];
  }

  lemma ReachableStep(s: State, a: Action, s': State)
    requires Reachable(s) && Enabled(s, a) && s' == Apply(s, a)
    ensures Reachable(s')
  {
    var states, actions :| Run(states, actions) && Init(states[0]) && states[|actions|] == s;
    var states', actions' := states + [s'], actions + [a];
    assert states'[|actions'|] == s' && states'[0] == states[0];
    forall i | 0 <= i < |actions'|
      ensures Enabled(states'[i], actions'[i]) && states'[i + 1] == Apply(states'[i], actions'[i])
    {
      if i < |actions| { assert Enabled(states[i], actions[i]); }
    }
    assert Run(states', actions');
  }

  lemma StartReachable()
    ensures Reachable(Start())
  {
    StartIsInit();
    var states, actions: seq<Action> := [Start()], [];
    assert Run(states, actions) && Init(states[0]) && states[|actions|] == Start();
  }

  // ---- A fill that does not see the entry it replaces ----

  function FillLocked(): State {
    Start().(redis := Start().redis.(locks := map[KEY := Lock(1, LOCK_TTL)]),
             ops := map[1 := Locked(Fill, KEY, FETCH_TIMEOUT)], nextOp := 2)
  }

  function FillLoaded(): State {
    FillLocked().(ops := map[1 := Loaded(KEY, FETCH_TIMEOUT, None, true)])
  }

  function FillFetched(): State {
    FillLocked().(ops := map[1 := Staging(KEY, FETCH_TIMEOUT, None, true, "b", Nothing(), 0)],
                  hist := Start().hist.(made := map[OLD := Made(Sample(), 0), GenId(KEY, "b") := Made(Nothing(), 1)]))
  }

  function FillStaged(): State {
    FillFetched().(
      redis := SetStaged(FillFetched().redis, ChunkKey(GenId(KEY, "b"), 0), [1]),
      ops := map[1 := Staging(KEY, FETCH_TIMEOUT, None, true, "b", Nothing(), 1)])
  }

  lemma FillSteps()
    ensures Enabled(Start(), Acquire(Fill, KEY, FETCH_TIMEOUT))
    ensures Apply(Start(), Acquire(Fill, KEY, FETCH_TIMEOUT)) == FillLocked()
    ensures Enabled(FillLocked(), Load(1, false)) && Apply(FillLocked(), Load(1, false)) == FillLoaded()
    ensures Enabled(FillLoaded(), Fetch(1, Some(Nothing()), "b"))
    ensures Apply(FillLoaded(), Fetch(1, Some(Nothing()), "b")) == FillFetched()
  {
  }

  lemma FillStagesAll()
    ensures Enabled(FillFetched(), Stage(1, true)) && Apply(FillFetched(), Stage(1, true)) == FillStaged()
    ensures Enabled(FillStaged(), Swap(1, true)) && ActiveGen(FillStaged().redis, KEY) == Some(OLD)
  {
    assert ChunkCount(|Nothing().body|) == 1;
    assert ChunkSlice(Nothing().body, 0) == [1];
  }

  lemma FillStagedReachable()
    ensures Reachable(FillStaged())
  {
    StartReachable();
    FillSteps();
    FillStagesAll();
    ReachableStep(Start(), Acquire(Fill, KEY, FETCH_TIMEOUT), FillLocked());
    ReachableStep(FillLocked(), Load(1, false), FillLoaded());
    ReachableStep(FillLoaded(), Fetch(1, Some(Nothing()), "b"), FillFetched());
    ReachableStep(FillFetched(), Stage(1, true), FillStaged());
  }

  /**
   A fill whose manifest read reports an error goes on to publish over the entry it did not see:
   a reachable state in which the swap of such a fill is enabled over an active generation.
   With `CacheLeaks.LeakedForGood`, the old generation's chunk is then stored for good.
   */
  lemma BlindFillHappens()
    ensures exists s: State, id: OpId ::
      Reachable(s) && Enabled(s, Swap(id, true)) && s.ops[id].blind && ActiveGen(s.redis, s.ops[id].key) == Some(OLD)
  {
    FillStagedReachable();
    FillStagesAll();
    var s := FillStaged();
    assert Reachable(s) && Enabled(s, Swap(1, true)) && s.ops[1].blind && ActiveGen(s.redis, s.ops[1].key) == Some(OLD);
  }

  /** And it may replace a catalogue of five items by one known to be empty. */
  lemma BlindFillEmpties()
    ensures exists s: State, id: OpId ::
      && Reachable(s) && Enabled(s, Swap(id, true))
      && NonEmptyCatalogue(s.redis, s.ops[id].key)
      && EmptyCatalogue(Apply(s, Swap(id, true)).redis, s.ops[id].key)
  {
    FillStagedReachable();
    FillStagesAll();
    var s := FillStaged();
    assert NonEmptyCatalogue(s.redis, KEY) && BlindEmptying(s, Swap(1, true), KEY);
    EmptiedIff(s, Swap(1, true), KEY);
    assert Reachable(s) && Enabled(s, Swap(1, true)) && s.ops[1].key == KEY;
  }

  // ---- A Remove that outlives its lock ----

  function RemoveLocked(): State {
    Start().(redis := Start().redis.(locks := map[KEY := Lock(1, LOCK_TTL)]), ops := map[1 := Removing(KEY)], nextOp := 2)
  }

  function LockLapsed(): State {
    RemoveLocked().(redis := Start().redis.(now := LOCK_TTL))
  }

  function Relocked(): State {
    LockLapsed().(redis := LockLapsed().redis.(locks := map[KEY := Lock(2, LOCK_TTL + LOCK_TTL)]),
                  ops := map[1 := Removing(KEY), 2 := Locked(Replace, KEY, LOCK_TTL + FETCH_TIMEOUT)], nextOp := 3)
  }

  function Reloaded(): State {
    Relocked().(ops := map[1 := Removing(KEY),
                           2 := Loaded(KEY, LOCK_TTL + FETCH_TIMEOUT, Some(ManifestFor(Sample(), "a")), false)])
  }

  lemma RemoveSteps()
    ensures Apply(Start(), AcquireRemove(KEY)) == RemoveLocked()
    ensures Apply(RemoveLocked(), Tick(LOCK_TTL)) == LockLapsed()
  {
    var r := Elapse(RemoveLocked().redis, LOCK_TTL);
    assert r.chunks == Start().redis.chunks && r.locks == map[];
  }

  lemma RelockSteps()
    ensures Enabled(LockLapsed(), Acquire(Replace, KEY, LOCK_TTL + FETCH_TIMEOUT))
    ensures Apply(LockLapsed(), Acquire(Replace, KEY, LOCK_TTL + FETCH_TIMEOUT)) == Relocked()
    ensures Enabled(Relocked(), Load(2, true)) && Apply(Relocked(), Load(2, true)) == Reloaded()
    ensures Enabled(Reloaded(), RemoveCut(1, true))
    ensures KEY !in Apply(Reloaded(), RemoveCut(1, true)).redis.manifests
    ensures Apply(Reloaded(), RemoveCut(1, true)).redis.now == LOCK_TTL
    ensures 2 in Apply(Reloaded(), RemoveCut(1, true)).ops
         && Apply(Reloaded(), RemoveCut(1, true)).ops[2] == Reloaded().ops[2]
  {
  }

  /**
   Remove has no deadline of its own. One that outlives its lock deletes the manifest a later
   replacement has already read, so that replacement swaps over an absent manifest.
   */
  lemma LateRemoveHappens()
    ensures exists s: State, id: OpId ::
      && Reachable(s) && id in s.ops && s.ops[id].Loaded? && !s.ops[id].blind && InTime(s, s.ops[id].deadline)
      && s.ops[id].prev.Some? && s.ops[id].key !in s.redis.manifests
  {
    StartReachable();
    RemoveSteps();
    RelockSteps();
    var s := Apply(Reloaded(), RemoveCut(1, true));
    ReachableStep(Start(), AcquireRemove(KEY), RemoveLocked());
    ReachableStep(RemoveLocked(), Tick(LOCK_TTL), LockLapsed());
    ReachableStep(LockLapsed(), Acquire(Replace, KEY, LOCK_TTL + FETCH_TIMEOUT), Relocked());
    ReachableStep(Relocked(), Load(2, true), Reloaded());
    ReachableStep(Reloaded(), RemoveCut(1, true), s);
    assert Reachable(s) && 2 in s.ops && s.ops[2].Loaded? && !s.ops[2].blind && InTime(s, s.ops[2].deadline)
        && s.ops[2].prev.Some? && s.ops[2].key !in s.redis.manifests;
  }
}
