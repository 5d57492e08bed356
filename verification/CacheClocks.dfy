/** How long the cache's locks and chunks live, in every run: a lock for exactly thirty-five minutes, a
  * staged chunk that nobody publishes for two hours at most, whatever fails in between. */
module CacheClocks {
  import opened Prelude
  import opened CacheState
  import opened CacheProtocol
  import opened CacheInvariant
  import opened CachePreservation
  import opened CacheSwitching
  import opened CacheTheorems
  import CacheLeaks
  import opened CacheOrigins

  // ---- Locks ----

  /** A replacement or a removal starts by taking the free lock of `key`. */
  predicate Takes(s: State, a: Action, key: Key) {
    (a.Acquire? || a.AcquireRemove?) && a.key == key && key !in s.redis.locks
  }

  /** Operation `id` gives nothing back between the steps `p` and `j`. */
  ghost predicate Unreleased(actions: seq<Action>, p: nat, j: nat, id: OpId)
    requires j <= |actions|
  {
    forall k | p < k < j :: actions[k] != Unlock(id)
  }

  /** `id` owns the lock exactly until the clock shows `until`. */
  predicate OwnsUntil(s: State, key: Key, id: OpId, until: nat) {
    && id < s.nextOp
    && (OwnsLock(s.redis, key, id) <==> s.redis.now < until)
    && (OwnsLock(s.redis, key, id) ==> s.redis.locks[key].expiry == until)
  }

  lemma LockTaken(s: State, a: Action, key: Key)
    requires Enabled(s, a) && Takes(s, a, key)
    ensures OwnsUntil(Apply(s, a), key, s.nextOp, s.redis.now + 35 * 60)
  {
  }

  lemma LockStep(s: State, a: Action, key: Key, id: OpId, until: nat)
    requires Enabled(s, a) && OwnsUntil(s, key, id, until) && a != Unlock(id)
    ensures OwnsUntil(Apply(s, a), key, id, until)
  {
  }

  /** In every run whoever takes a lock owns it, until it gives it back, exactly for thirty-five
    * minutes. */
  lemma LockLasts(states: seq<State>, actions: seq<Action>, p: nat, j: nat, key: Key)
    requires Run(states, actions) && p < j < |states| && Takes(states[p], actions[p], key)
    requires Unreleased(actions, p, j, states[p].nextOp)
    ensures OwnsLock(states[j].redis, key, states[p].nextOp)
       <==> states[j].redis.now < states[p].redis.now + 35 * 60
  {
    var id, until := states[p].nextOp, states[p].redis.now + 35 * 60;
    StepOf(states, actions, p);
    LockTaken(states[p], actions[p], key);
    for k := p + 1 to j
      invariant OwnsUntil(states[k], key, id, until)
    {
      StepOf(states, actions, k);
      LockStep(states[k], actions[k], key, id, until);
    }
  }

  /** A held lock keeps everybody else out, and only a held lock does. */
  lemma LockExcludes(s: State, kind: Kind, key: Key, deadline: nat)
    requires Enabled(s, Acquire(kind, key, deadline))
    ensures Apply(s, Acquire(kind, key, deadline)) == s <==> key in s.redis.locks
    ensures Apply(s, AcquireRemove(key)) == s <==> key in s.redis.locks
  {
    var s', s'' := Apply(s, Acquire(kind, key, deadline)), Apply(s, AcquireRemove(key));
    if key !in s.redis.locks { assert s'.nextOp == s''.nextOp == s.nextOp + 1; }
  }

  /** In every run a replacement publishes within thirty minutes of taking its lock. */
  lemma PublishesInTime(states: seq<State>, actions: seq<Action>, j: nat, id: OpId) returns (q: nat)
    requires Run(states, actions) && Init(states[0]) && j < |actions| && actions[j] == Swap(id, true)
    ensures q < j && actions[q].Acquire? && states[q].nextOp == id && Takes(states[q], actions[q], actions[q].key)
    ensures states[j].redis.now < states[q].redis.now + 30 * 60
  {
    StepOf(states, actions, j);
    AllTraced(states, actions, j, id);
    var op := states[j].ops[id];
    var kind, i, ok :| ReadBy(states, actions, j, id, op, kind, i, ok);
    q :| q < i && AcquiredAt(states, actions, q, id, kind, op.key, op.deadline);
    StepOf(states, actions, q);
  }

  // ---- Chunks ----

  /** The step publishes generation `g`, or gives a chunk of it another hour. */
  predicate Renews(s: State, a: Action, g: GenId)
    requires Enabled(s, a)
  {
    || (a.Swap? && a.ok && StagedGen(s.ops[a.id]) == g)
    || (a.Expire? && s.ops[a.id].gid == g)
  }

  /** Chunk `c` has been staged, and nobody stages it again. */
  ghost predicate StagedBefore(s: State, c: ChunkKey) {
    && c.gid in s.hist.made
    && forall id | id in s.ops && s.ops[id].Staging? && StagedGen(s.ops[id]) == c.gid :: s.ops[id].next > c.index
  }

  /** Chunk `c`, if it is stored, goes when the clock shows `until`. */
  predicate GoesAt(s: State, c: ChunkKey, until: nat) {
    c in s.redis.chunks ==> s.redis.chunks[c].expiry == Some(until) && s.redis.now < until
  }

  lemma StagedGoes(s: State, id: OpId)
    requires Reachable(s) && Enabled(s, Stage(id, true))
    ensures StagedBefore(Apply(s, Stage(id, true)), ChunkKey(StagedGen(s.ops[id]), s.ops[id].next))
    ensures GoesAt(Apply(s, Stage(id, true)), ChunkKey(StagedGen(s.ops[id]), s.ops[id].next), s.redis.now + 2 * 60 * 60)
  {
    ReachableInv(s);
    assert OpTrue(s.redis, s.book, s.hist, id, s.ops[id]);
    forall other | other in s.ops && s.ops[other].Staging? && StagedGen(s.ops[other]) == StagedGen(s.ops[id])
      ensures other == id
    {
      assert OpTrue(s.redis, s.book, s.hist, other, s.ops[other]);
    }
  }

  lemma StaysStaged(s: State, a: Action, c: ChunkKey)
    requires Enabled(s, a) && StagedBefore(s, c)
    ensures StagedBefore(Apply(s, a), c)
  {
  }

  lemma StillGoes(s: State, a: Action, c: ChunkKey, until: nat)
    requires Enabled(s, a) && StagedBefore(s, c) && GoesAt(s, c, until) && !Renews(s, a, c.gid)
    ensures GoesAt(Apply(s, a), c, until)
  {
  }

  /** No step after `p` and before `j` publishes the generation or gives its chunks another hour. */
  ghost predicate Unrenewed(states: seq<State>, actions: seq<Action>, p: nat, j: nat, g: GenId)
    requires Run(states, actions) && j < |states|
  {
    forall k | p < k < j :: Enabled(states[k], actions[k]) && !Renews(states[k], actions[k], g)
  }

  /**
   In every run a staged chunk that is not published is gone two hours later, even if its replacement
   never got to delete it or every DEL failed.
   */
  lemma StagedIsTemporary(states: seq<State>, actions: seq<Action>, p: nat, j: nat, id: OpId)
    requires Run(states, actions) && Init(states[0]) && p < j < |states| && actions[p] == Stage(id, true)
    requires id in states[p].ops && states[p].ops[id].Staging?
    requires Unrenewed(states, actions, p, j, StagedGen(states[p].ops[id]))
    requires states[j].redis.now >= states[p].redis.now + 2 * 60 * 60
    ensures ChunkKey(StagedGen(states[p].ops[id]), states[p].ops[id].next) !in states[j].redis.chunks
  {
    var c, until := ChunkKey(StagedGen(states[p].ops[id]), states[p].ops[id].next), states[p].redis.now + 2 * 60 * 60;
    StepOf(states, actions, p);
    CacheLeaks.ReachedBy(states, actions, p);
    StagedGoes(states[p], id);
    for k := p + 1 to j
      invariant StagedBefore(states[k], c) && GoesAt(states[k], c, until)
    {
      StepOf(states, actions, k);
      StaysStaged(states[k], actions[k], c);
      StillGoes(states[k], actions[k], c, until);
    }
  }
}
