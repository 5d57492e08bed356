/**
 The two places where a replacement can go wrong, each with the guard of the step that does it:
 a Remove that has lost its lock, and a fill that could not read the manifest.
 */
module CacheGuards {
  import opened Prelude
  import opened CacheState
  import opened CacheProtocol
  import opened CacheInvariant
  import opened CachePreservation
  import opened CacheSwitching
  import opened CacheTheorems

  // ---- A Remove that has lost its lock ----

  /** A replacement that has read the manifest, is not a blind fill, and whose context is alive. */
  predicate LiveReplacement(s: State, id: OpId) {
    && id in s.ops && (s.ops[id].Loaded? || s.ops[id].Staging?)
    && !s.ops[id].blind && InTime(s, s.ops[id].deadline)
  }

  /** The manifest the replacement read at its start is still the one stored. */
  predicate PrevStored(s: State, id: OpId)
    requires LiveReplacement(s, id)
  {
    s.ops[id].prev == Lookup(s.redis.manifests, s.ops[id].key)
  }

  lemma LiveFacts(s: State, id: OpId)
    requires Reachable(s) && LiveReplacement(s, id)
    ensures s.ops[id].key in s.redis.manifests ==> PrevStored(s, id)
    ensures OwnsLock(s.redis, s.ops[id].key, id)
  {
    ReachableInv(s);
    assert OpTrue(s.redis, s.book, s.hist, id, s.ops[id]);
  }

  /**
   A live replacement still finds the manifest it read exactly when it found none at its start or
   some manifest is stored now: nobody else can have stored another one.
   */
  lemma PrevStoredIff(s: State, id: OpId)
    requires Reachable(s) && LiveReplacement(s, id)
    ensures PrevStored(s, id) <==> (s.ops[id].prev.Some? ==> s.ops[id].key in s.redis.manifests)
  {
    LiveFacts(s, id);
  }

  /** The step that takes away the manifest a live replacement has read. */
  predicate Cuts(s: State, a: Action, id: OpId)
    requires Enabled(s, a) && LiveReplacement(s, id)
  {
    a.RemoveCut? && a.ok && s.ops[a.id].key == s.ops[id].key && s.ops[id].prev.Some?
  }

  /** A live replacement's record is changed by its own steps only. */
  lemma RecordKept(s: State, a: Action, id: OpId)
    requires Enabled(s, a) && LiveReplacement(s, id) && id != s.nextOp && LiveReplacement(Apply(s, a), id)
    ensures Apply(s, a).ops[id].key == s.ops[id].key && Apply(s, a).ops[id].prev == s.ops[id].prev
    ensures !(a.Swap? && a.ok && a.id == id)
  {
  }

  /** A swap of the same key by another replacement cannot happen beside a live one. */
  lemma NoSwapBeside(s: State, a: Action, id: OpId)
    requires Reachable(s) && Enabled(s, a) && LiveReplacement(s, id) && a.Swap? && a.ok && a.id != id
    ensures s.ops[a.id].key != s.ops[id].key
  {
    if s.ops[a.id].key == s.ops[id].key {
      ReplacementsExclude(s, id, a.id);
    }
  }

  /**
   Over any step: as long as a replacement lives, the manifest it read stays the one stored, and the
   only step that changes that is a Remove cutting the key.
   */
  lemma PrevStoredStep(s: State, a: Action, id: OpId)
    requires Reachable(s) && Enabled(s, a) && LiveReplacement(s, id) && PrevStored(s, id)
    requires LiveReplacement(Apply(s, a), id)
    ensures PrevStored(Apply(s, a), id) <==> !Cuts(s, a, id)
  {
    assert id != s.nextOp by {
      ReachableInv(s);
    }
    RecordKept(s, a, id);
    StepShape(s, a, s.ops[id].key);
    if a.Swap? && a.ok {
      NoSwapBeside(s, a, id);
    }
  }

  /**
   The guard Remove does not test: a Remove that still owns its lock never cuts the key of a live
   replacement, so every live replacement keeps the manifest it read. Only one whose lock has lapsed
   can, and it does exactly when the replacement had read a manifest.
   */
  lemma OwnedCutIsHarmless(s: State, rid: OpId, id: OpId)
    requires Reachable(s) && Enabled(s, RemoveCut(rid, true)) && LiveReplacement(s, id)
    ensures s.ops[rid].key == s.ops[id].key ==> !OwnsLock(s.redis, s.ops[rid].key, rid)
    ensures LiveReplacement(Apply(s, RemoveCut(rid, true)), id)
    ensures OwnsLock(s.redis, s.ops[rid].key, rid) && PrevStored(s, id) ==> PrevStored(Apply(s, RemoveCut(rid, true)), id)
    ensures PrevStored(s, id) ==>
      (!PrevStored(Apply(s, RemoveCut(rid, true)), id) <==> s.ops[rid].key == s.ops[id].key && s.ops[id].prev.Some?)
  {
    LiveFacts(s, id);
    assert rid != id;
    CutKeepsRecord(s, rid, id);
    if PrevStored(s, id) {
      PrevStoredStep(s, RemoveCut(rid, true), id);
    }
  }

  lemma CutKeepsRecord(s: State, rid: OpId, id: OpId)
    requires Enabled(s, RemoveCut(rid, true)) && LiveReplacement(s, id) && rid != id
    ensures LiveReplacement(Apply(s, RemoveCut(rid, true)), id)
  {
  }

  // ---- A fill that could not read the manifest ----

  /** The manifest of `key` counts no items, and is known to. */
  predicate EmptyCatalogue(r: Redis, key: Key) {
    key in r.manifests && r.manifests[key].itemCountKnown && r.manifests[key].itemCount == 0
  }

  predicate NonEmptyCatalogue(r: Redis, key: Key) {
    key in r.manifests && r.manifests[key].itemCountKnown && r.manifests[key].itemCount > 0
  }

  /** A swap that runs blind and would put an empty catalogue over one known not to be. */
  predicate BlindEmptying(s: State, a: Action, key: Key)
    requires Enabled(s, a)
  {
    a.Swap? && a.ok && s.ops[a.id].key == key && s.ops[a.id].blind && KnownEmpty(s.ops[a.id].resp)
  }

  /**
   Over any step, a known non-empty catalogue becomes a known empty one if and only if the step is
   the swap of a fill that failed to read the manifest and fetched an empty catalogue.
   */
  lemma EmptiedIff(s: State, a: Action, key: Key)
    requires Reachable(s) && Enabled(s, a) && NonEmptyCatalogue(s.redis, key)
    ensures EmptyCatalogue(Apply(s, a).redis, key) <==> BlindEmptying(s, a, key)
  {
    StepShape(s, a, key);
    if a.Swap? && a.ok && s.ops[a.id].key == key {
      SwapStores(s, a.id);
      if !s.ops[a.id].blind {
        KnownNonEmptyKept(s, a.id);
      }
    } else if a.RemoveCut? && a.ok && s.ops[a.id].key == key {
      CutClears(s, a.id);
    }
  }

  lemma SwapStores(s: State, id: OpId)
    requires Enabled(s, Swap(id, true))
    ensures Lookup(Apply(s, Swap(id, true)).redis.manifests, s.ops[id].key)
         == Some(ManifestFor(s.ops[id].resp, s.ops[id].gen))
  {
  }

  lemma CutClears(s: State, id: OpId)
    requires Enabled(s, RemoveCut(id, true))
    ensures s.ops[id].key !in Apply(s, RemoveCut(id, true)).redis.manifests
  {
  }
}
