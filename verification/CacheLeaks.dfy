/**
 When the cache leaks chunks: never, as long as deletes succeed and no fill runs blind over an
 active generation; and then for good.
 */
module CacheLeaks {
  import opened Prelude
  import opened CacheState
  import opened CacheProtocol
  import opened CacheInvariant
  import opened CachePreservation
  import opened CacheSwitching
  import opened CacheTheorems

  // ---- Runs without a leak ----

  /** The steps that leave chunks behind: a DEL that fails, and a blind fill's swap over a generation. */
  predicate LeakyStep(s: State, a: Action)
    requires Enabled(s, a)
  {
    || (a.Clean? && !a.ok)
    || (a.Swap? && a.ok && s.ops[a.id].blind && ActiveGen(s.redis, s.ops[a.id].key).Some?)
  }

  ghost predicate TidyRun(states: seq<State>, actions: seq<Action>) {
    && Run(states, actions) && Init(states[0]) && states[0].hist.orphans == {}
    && forall i | 0 <= i < |actions| :: !LeakyStep(states[i], actions[i])
  }

  lemma ReachedBy(states: seq<State>, actions: seq<Action>, j: nat)
    requires Run(states, actions) && Init(states[0]) && j < |states|
    ensures Reachable(states[j])
  {
    var states', actions' := states[..j + 1], actions[..j];
    forall i | 0 <= i < |actions'|
      ensures Enabled(states'[i], actions'[i]) && states'[i + 1] == Apply(states'[i], actions'[i])
    {
      assert Enabled(states[i], actions[i]);
    }
    assert Run(states', actions') && Init(states'[0]) && states'[|actions'|] == states[j];
  }

  lemma {:induction false} NothingWrittenOff(states: seq<State>, actions: seq<Action>, j: nat)
    requires TidyRun(states, actions) && j < |states|
    ensures states[j].hist.orphans == {}
  {
    if j > 0 {
      NothingWrittenOff(states, actions, j - 1);
      ReachedBy(states, actions, j - 1);
      assert !LeakyStep(states[j - 1], actions[j - 1]);
      WrittenOffOnlyBy(states[j - 1], actions[j - 1]);
    }
  }

  /**
   No chunk leak: in every run that starts without abandoned chunks, has no failing delete and no
   blind swap over an active generation, whenever nothing is in flight and no lease is out, the
   chunks stored are exactly those of the active manifests.
   */
  lemma NoLeak(states: seq<State>, actions: seq<Action>, j: nat, c: ChunkKey)
    requires TidyRun(states, actions) && j < |states| && states[j].ops == map[]
    ensures c in states[j].redis.chunks <==> ActiveChunk(states[j], c)
  {
    NothingWrittenOff(states, actions, j);
    ReachedBy(states, actions, j);
    QuietAccounting(states[j]);
    assert Leaked(states[j], c) <==> c in states[j].redis.chunks && c in states[j].hist.orphans;
  }

  // ---- Leaks are for good ----

  /** The generation a replacement would retire. */
  function Known(op: Op): Option<GenId> {
    match op
    case Loaded(key, _, prev, _) => if prev.Some? && Leasable(prev.value) then Some(GenOf(key, prev.value)) else None
    case Staging(key, _, prev, _, _, _, _) =>
      if prev.Some? && Leasable(prev.value) then Some(GenOf(key, prev.value)) else None
    case _ => None
  }

  /** The operation will not touch a chunk of `g`, nor hand it to anybody who will. */
  predicate LeavesAlone(r: Redis, op: Op, g: GenId) {
    && (op.Expiring? || op.Cleaning? ==> op.gid != g)
    && (op.Staging? ==> StagedGen(op) != g)
    && (Known(op) == Some(g) ==> op.deadline <= r.now)
  }

  /** Stored without a TTL, not active, not retired, and known to no operation that could still act. */
  ghost predicate Forgotten(s: State, c: ChunkKey) {
    && c in s.redis.chunks && s.redis.chunks[c].expiry == None
    && c.gid in s.hist.made && !Active(s.redis, c.gid) && c.gid !in s.book.retired
    && forall id | id in s.ops :: LeavesAlone(s.redis, s.ops[id], c.gid)
  }

  /** The chunk is stored as it was and its generation is not active. */
  predicate StillStored(r: Redis, r': Redis, c: ChunkKey) {
    && r.now <= r'.now && !Active(r', c.gid)
    && c in r.chunks && c in r'.chunks && r'.chunks[c] == r.chunks[c]
  }

  lemma QuietStore(s: State, a: Action, c: ChunkKey)
    requires Enabled(s, a) && !a.Tick? && !a.Stage? && !a.Swap? && !a.RemoveCut? && !a.Expire? && !a.Clean?
    ensures Apply(s, a).redis.(locks := s.redis.locks) == s.redis
  {
  }

  lemma ForgottenStored(s: State, a: Action, c: ChunkKey)
    requires Enabled(s, a) && c in s.redis.chunks && s.redis.chunks[c].expiry == None && !Active(s.redis, c.gid)
    requires Owner(s, a) in s.ops ==> LeavesAlone(s.redis, s.ops[Owner(s, a)], c.gid)
    ensures StillStored(s.redis, Apply(s, a).redis, c)
  {
    if !a.Tick? && !a.Stage? && !a.Swap? && !a.RemoveCut? && !a.Expire? && !a.Clean? {
      QuietStore(s, a, c);
    }
  }

  lemma ForgottenBook(s: State, a: Action, g: GenId)
    requires Enabled(s, a) && g in s.hist.made && g !in s.book.retired && !Active(s.redis, g)
    requires Owner(s, a) in s.ops ==> LeavesAlone(s.redis, s.ops[Owner(s, a)], g)
    ensures g in Apply(s, a).hist.made && g !in Apply(s, a).book.retired
  {
  }

  /** The operation a step is a step of, if it goes on. */
  function Owner(s: State, a: Action): OpId {
    match a
    case Tick(_) => s.nextOp
    case GetPin(_) => s.nextOp
    case Acquire(_, _, _) => s.nextOp
    case AcquireRemove(_) => s.nextOp
    case _ => a.id
  }

  lemma OthersSame(s: State, a: Action, id: OpId)
    requires Enabled(s, a) && id in Apply(s, a).ops && id != Owner(s, a)
    ensures id in s.ops && Apply(s, a).ops[id] == s.ops[id]
  {
  }

  lemma ReaderLeavesAlone(s: State, a: Action, g: GenId)
    requires Enabled(s, a) && !Replaces(a) && !Active(s.redis, g) && g !in s.book.retired && g in s.hist.made
    requires Owner(s, a) in s.ops ==> LeavesAlone(s.redis, s.ops[Owner(s, a)], g)
    requires Owner(s, a) in Apply(s, a).ops && s.nextOp !in s.ops
    ensures LeavesAlone(Apply(s, a).redis, Apply(s, a).ops[Owner(s, a)], g)
  {
  }

  lemma ReplacerLeavesAlone(s: State, a: Action, g: GenId)
    requires Enabled(s, a) && Replaces(a) && !Active(s.redis, g) && g !in s.book.retired && g in s.hist.made
    requires Owner(s, a) in s.ops ==> LeavesAlone(s.redis, s.ops[Owner(s, a)], g)
    requires Owner(s, a) in Apply(s, a).ops && s.nextOp !in s.ops
    ensures LeavesAlone(Apply(s, a).redis, Apply(s, a).ops[Owner(s, a)], g)
  {
  }

  /** Steps of replacements and removals. */
  predicate Replaces(a: Action) {
    a.Acquire? || a.Load? || a.Fetch? || a.Stage? || a.Swap? || a.AcquireRemove? || a.RemoveCut?
  }

  lemma OwnerLeavesAlone(s: State, a: Action, g: GenId)
    requires Enabled(s, a) && !Active(s.redis, g) && g !in s.book.retired && g in s.hist.made
    requires Owner(s, a) in s.ops ==> LeavesAlone(s.redis, s.ops[Owner(s, a)], g)
    requires Owner(s, a) in Apply(s, a).ops && s.nextOp !in s.ops
    ensures LeavesAlone(Apply(s, a).redis, Apply(s, a).ops[Owner(s, a)], g)
  {
    if Replaces(a) {
      ReplacerLeavesAlone(s, a, g);
    } else {
      ReaderLeavesAlone(s, a, g);
    }
  }

  lemma ForgottenStays(s: State, a: Action, c: ChunkKey)
    requires s.nextOp !in s.ops && Enabled(s, a) && Forgotten(s, c)
    ensures Forgotten(Apply(s, a), c)
  {
    var s' := Apply(s, a);
    if Owner(s, a) in s.ops { assert LeavesAlone(s.redis, s.ops[Owner(s, a)], c.gid); }
    ForgottenStored(s, a, c);
    ForgottenBook(s, a, c.gid);
    forall id | id in s'.ops ensures LeavesAlone(s'.redis, s'.ops[id], c.gid) {
      if id == Owner(s, a) {
        OwnerLeavesAlone(s, a, c.gid);
      } else {
        OthersSame(s, a, id);
        assert LeavesAlone(s.redis, s.ops[id], c.gid);
      }
    }
  }

  /** The blind swap itself goes on to unlock, retiring nothing. */
  lemma SwapKeepsRecords(s: State, id: OpId, g: GenId)
    requires Reachable(s) && Enabled(s, Swap(id, true)) && s.ops[id].blind
    requires ActiveGen(s.redis, s.ops[id].key) == Some(g)
    ensures var s' := Apply(s, Swap(id, true));
            && s'.ops == s.ops[id := Unlocking(s.ops[id].key)] && s'.book == s.book
            && s'.redis == SwitchTo(s.redis, StagedGen(s.ops[id]), s.ops[id].resp)
            && s'.hist.made == s.hist.made && g in s.hist.made && g !in s.book.retired && StagedGen(s.ops[id]) != g
  {
    assert s.ops[id].prev == None && g in s.hist.made && g !in s.book.retired && StagedGen(s.ops[id]) != g by {
      ReachableInv(s);
      assert OpTrue(s.redis, s.book, s.hist, id, s.ops[id]);
    }
  }

  /** A blind swap forgets every chunk of the generation it overwrites. */
  lemma BlindSwapForgets(s: State, id: OpId, g: GenId, i: nat)
    requires Reachable(s) && Enabled(s, Swap(id, true)) && s.ops[id].blind
    requires ActiveGen(s.redis, s.ops[id].key) == Some(g) && i < s.redis.manifests[s.ops[id].key].chunkCount
    ensures Forgotten(Apply(s, Swap(id, true)), ChunkKey(g, i))
  {
    var s' := Apply(s, Swap(id, true));
    BlindSwapLeaks(s, id, g, i);
    SwapKeepsRecords(s, id, g);
    SwitchedOff(s.redis, StagedGen(s.ops[id]), s.ops[id].resp, g);
    forall k | k in s'.ops ensures LeavesAlone(s'.redis, s'.ops[k], g) {
      if k != id {
        OthersLeave(s, id, g, k);
      }
    }
  }

  lemma SwitchedOff(r: Redis, to: GenId, resp: Response, g: GenId)
    requires g != to && g.key == to.key
    ensures !Active(SwitchTo(r, to, resp), g) && SwitchTo(r, to, resp).now == r.now
  {
  }

  /** Nobody else is about to touch a generation that was active until now. */
  lemma OthersLeave(s: State, id: OpId, g: GenId, k: OpId)
    requires Reachable(s) && Enabled(s, Swap(id, true)) && k in s.ops && k != id
    requires ActiveGen(s.redis, s.ops[id].key) == Some(g)
    ensures LeavesAlone(s.redis, s.ops[k], g)
  {
    ReachableInv(s);
    assert g !in s.hist.dead && Active(s.redis, g) && g.key == s.ops[id].key;
    assert OpTrue(s.redis, s.book, s.hist, k, s.ops[k]);
    if Known(s.ops[k]) == Some(g) && InTime(s, s.ops[k].deadline) {
      ReplacementsExclude(s, id, k);
    }
  }

  lemma {:induction false} ForgottenForGood(
      states: seq<State>, actions: seq<Action>, p: nat, j: nat, c: ChunkKey)
    requires Run(states, actions) && Init(states[0]) && p <= j < |states| && Forgotten(states[p], c)
    ensures Forgotten(states[j], c)
  {
    if p < j {
      ForgottenForGood(states, actions, p, j - 1, c);
      assert states[j - 1].nextOp !in states[j - 1].ops by { RunKeepsInv(states, actions, j - 1); }
      ForgottenStays(states[j - 1], actions[j - 1], c);
    }
  }

  /**
   In every run, what a blind fill's swap at step `p` overwrites is never deleted again: each chunk
   of the old generation is stored, without a TTL and leaked, in every later state.
   */
  lemma LeakedForGood(states: seq<State>, actions: seq<Action>, p: nat, j: nat, g: GenId, i: nat)
    requires Run(states, actions) && Init(states[0]) && p < j < |states|
    requires actions[p].Swap? && actions[p].ok && states[p].ops[actions[p].id].blind
    requires ActiveGen(states[p].redis, states[p].ops[actions[p].id].key) == Some(g)
    requires i < states[p].redis.manifests[g.key].chunkCount
    ensures Leaked(states[j], ChunkKey(g, i))
    ensures states[j].redis.chunks[ChunkKey(g, i)].expiry == None
  {
    ReachedBy(states, actions, p);
    assert states[p + 1] == Apply(states[p], actions[p]);
    BlindSwapForgets(states[p], actions[p].id, g, i);
    ForgottenForGood(states, actions, p + 1, j, ChunkKey(g, i));
  }
}
