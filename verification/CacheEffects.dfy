/**
 What each effect on Redis, the lease book or the history does to the invariant: one lemma for
 the world, one for an operation that is not the one taking the step.
 */
module CacheEffects {
  import opened Prelude
  import opened CacheState
  import opened CacheProtocol
  import opened CacheInvariant

  // ---- Time ----

  lemma ElapseWorld(r: Redis, b: Book, h: History, d: nat)
    requires World(r, b, h)
    ensures World(Elapse(r, d), b, h)
  {
    var r' := Elapse(r, d);
    forall g, i: nat | g in b.readers && i < MadeCount(h, g)
      ensures Kept(r', h, ChunkKey(g, i))
    {
      assert Kept(r, h, ChunkKey(g, i));
    }
  }

  lemma ElapseOp(r: Redis, b: Book, h: History, d: nat, id: OpId, op: Op)
    requires OpTrue(r, b, h, id, op)
    ensures OpTrue(Elapse(r, d), b, h, id, op)
  {
  }

  lemma ElapseOps(r: Redis, b: Book, h: History, d: nat, ops: map<OpId, Op>)
    requires OpsTrue(r, b, h, ops)
    ensures OpsTrue(Elapse(r, d), b, h, ops)
  {
    forall id | id in ops ensures OpTrue(Elapse(r, d), b, h, id, ops[id]) {
      ElapseOp(r, b, h, d, id, ops[id]);
    }
  }

  // ---- Leases ----

  lemma PinWorld(r: Redis, b: Book, h: History, g: GenId)
    requires World(r, b, h) && Active(r, g)
    ensures World(r, Pin(b, g), h)
  {
    assert GenOf(g.key, r.manifests[g.key]) == g;
  }

  lemma PinOp(r: Redis, b: Book, h: History, g: GenId, id: OpId, op: Op)
    requires World(r, b, h) && Active(r, g)
    requires OpTrue(r, b, h, id, op)
    ensures OpTrue(r, Pin(b, g), h, id, op)
  {
    assert GenOf(g.key, r.manifests[g.key]) == g;
  }

  lemma PinOps(r: Redis, b: Book, h: History, g: GenId, ops: map<OpId, Op>)
    requires OpsTrue(r, b, h, ops)
    requires World(r, b, h) && Active(r, g)
    ensures OpsTrue(r, Pin(b, g), h, ops)
  {
    forall id | id in ops ensures OpTrue(r, Pin(b, g), h, id, ops[id]) {
      PinOp(r, b, h, g, id, ops[id]);
    }
  }

  lemma UnpinWorld(r: Redis, b: Book, h: History, g: GenId)
    requires World(r, b, h)
    ensures World(r, Unpin(b, g), h)
  {
  }

  lemma UnpinOp(r: Redis, b: Book, h: History, g: GenId, id: OpId, op: Op)
    requires OpTrue(r, b, h, id, op)
    ensures OpTrue(r, Unpin(b, g), h, id, op)
  {
  }

  lemma UnpinOps(r: Redis, b: Book, h: History, g: GenId, ops: map<OpId, Op>)
    requires OpsTrue(r, b, h, ops)
    ensures OpsTrue(r, Unpin(b, g), h, ops)
  {
    forall id | id in ops ensures OpTrue(r, Unpin(b, g), h, id, ops[id]) {
      UnpinOp(r, b, h, g, id, ops[id]);
    }
  }

  /** A given-up generation with readers goes on the retired list. */
  lemma RetireWorld(r: Redis, b: Book, h: History, g: GenId, count: nat)
    requires World(r, b, h)
    requires g in h.dead && g in h.made && count == MadeCount(h, g)
    ensures World(r, Retire(b, g, count), h)
  {
  }

  lemma RetireOp(r: Redis, b: Book, h: History, g: GenId, count: nat, id: OpId, op: Op)
    requires OpTrue(r, b, h, id, op)
    ensures OpTrue(r, Retire(b, g, count), h, id, op)
  {
  }

  lemma RetireOps(r: Redis, b: Book, h: History, g: GenId, count: nat, ops: map<OpId, Op>)
    requires OpsTrue(r, b, h, ops)
    ensures OpsTrue(r, Retire(b, g, count), h, ops)
  {
    forall id | id in ops ensures OpTrue(r, Retire(b, g, count), h, id, ops[id]) {
      RetireOp(r, b, h, g, count, id, ops[id]);
    }
  }

  // ---- Locks ----

  lemma LocksWorld(r: Redis, b: Book, h: History, locks: map<Key, Lock>)
    requires World(r, b, h)
    ensures World(r.(locks := locks), b, h)
  {
    var r' := r.(locks := locks);
    forall g, i: nat | g in b.readers && i < MadeCount(h, g)
      ensures Kept(r', h, ChunkKey(g, i))
    {
      assert Kept(r, h, ChunkKey(g, i));
    }
  }

  lemma LocksOp(r: Redis, b: Book, h: History, locks: map<Key, Lock>, id: OpId, op: Op)
    requires OpTrue(r, b, h, id, op)
    requires forall k :: OwnsLock(r, k, id) ==> k in locks && locks[k] == r.locks[k]
    ensures OpTrue(r.(locks := locks), b, h, id, op)
  {
  }

  lemma LocksOps(r: Redis, b: Book, h: History, locks: map<Key, Lock>, ops: map<OpId, Op>)
    requires OpsTrue(r, b, h, ops)
    requires forall id, k | id in ops && OwnsLock(r, k, id) :: k in locks && locks[k] == r.locks[k]
    ensures OpsTrue(r.(locks := locks), b, h, ops)
  {
    forall id | id in ops ensures OpTrue(r.(locks := locks), b, h, id, ops[id]) {
      LocksOp(r, b, h, locks, id, ops[id]);
    }
  }

  // ---- Staging ----

  /** Nothing but its own operation knows the generation `g`. */
  predicate Private(r: Redis, b: Book, h: History, g: GenId, maker: OpId) {
    g in h.made && h.made[g].maker == maker && g !in h.dead && !Active(r, g) && g !in b.readers
  }

  lemma MadeWorld(r: Redis, b: Book, h: History, g: GenId, m: Made)
    requires World(r, b, h) && g !in h.made
    ensures World(r, b, h.(made := h.made[g := m]))
  {
    var h' := h.(made := h.made[g := m]);
    forall g', i: nat | g' in b.readers && i < MadeCount(h', g')
      ensures Kept(r, h', ChunkKey(g', i))
    {
      assert Kept(r, h, ChunkKey(g', i));
    }
  }

  lemma MadeOp(r: Redis, b: Book, h: History, g: GenId, m: Made, id: OpId, op: Op)
    requires OpTrue(r, b, h, id, op) && g !in h.made
    ensures OpTrue(r, b, h.(made := h.made[g := m]), id, op)
  {
  }

  lemma MadeOps(r: Redis, b: Book, h: History, g: GenId, m: Made, ops: map<OpId, Op>)
    requires OpsTrue(r, b, h, ops)
    requires g !in h.made
    ensures OpsTrue(r, b, h.(made := h.made[g := m]), ops)
  {
    forall id | id in ops ensures OpTrue(r, b, h.(made := h.made[g := m]), id, ops[id]) {
      MadeOp(r, b, h, g, m, id, ops[id]);
    }
  }

  lemma StageWorld(r: Redis, b: Book, h: History, g: GenId, maker: OpId, i: nat)
    requires World(r, b, h) && Private(r, b, h, g, maker) && i < MadeCount(h, g)
    ensures World(SetStaged(r, ChunkKey(g, i), ChunkSlice(h.made[g].resp.body, i)), b, h)
  {
    var r' := SetStaged(r, ChunkKey(g, i), ChunkSlice(h.made[g].resp.body, i));
    forall g', j: nat | g' in b.readers && j < MadeCount(h, g')
      ensures Kept(r', h, ChunkKey(g', j))
    {
      assert Kept(r, h, ChunkKey(g', j));
    }
  }

  lemma StageOp(r: Redis, b: Book, h: History, g: GenId, maker: OpId, i: nat, data: Bytes, id: OpId, op: Op)
    requires OpTrue(r, b, h, id, op) && Private(r, b, h, g, maker) && id != maker
    ensures OpTrue(SetStaged(r, ChunkKey(g, i), data), b, h, id, op)
  {
  }

  lemma StageOps(r: Redis, b: Book, h: History, g: GenId, maker: OpId, i: nat, data: Bytes, ops: map<OpId, Op>)
    requires OpsTrue(r, b, h, ops)
    requires Private(r, b, h, g, maker) && maker !in ops
    ensures OpsTrue(SetStaged(r, ChunkKey(g, i), data), b, h, ops)
  {
    forall id | id in ops ensures OpTrue(SetStaged(r, ChunkKey(g, i), data), b, h, id, ops[id]) {
      StageOp(r, b, h, g, maker, i, data, id, ops[id]);
    }
  }

  /** The operation that stages chunk `op.next`, before and after. */
  lemma StagedOp(r: Redis, b: Book, h: History, id: OpId, op: Op)
    requires op.Staging? && OpTrue(r, b, h, id, op) && op.next < ChunkCount(|op.resp.body|)
    ensures OpTrue(SetStaged(r, ChunkKey(StagedGen(op), op.next), ChunkSlice(op.resp.body, op.next)), b, h, id,
              Staging(op.key, op.deadline, op.prev, op.blind, op.gen, op.resp, op.next + 1))
  {
  }

  lemma GiveUpWorld(r: Redis, b: Book, h: History, g: GenId, maker: OpId)
    requires World(r, b, h) && Private(r, b, h, g, maker)
    ensures World(r, b, Bury(h, g, r.now))
  {
    var h' := Bury(h, g, r.now);
    forall g', i: nat | g' in b.readers && i < MadeCount(h, g')
      ensures Kept(r, h', ChunkKey(g', i))
    {
      assert Kept(r, h, ChunkKey(g', i));
    }
  }

  lemma GiveUpOp(r: Redis, b: Book, h: History, g: GenId, maker: OpId, id: OpId, op: Op)
    requires OpTrue(r, b, h, id, op) && Private(r, b, h, g, maker) && id != maker
    ensures OpTrue(r, b, Bury(h, g, r.now), id, op)
  {
  }

  lemma GiveUpOps(r: Redis, b: Book, h: History, g: GenId, maker: OpId, ops: map<OpId, Op>)
    requires OpsTrue(r, b, h, ops)
    requires Private(r, b, h, g, maker) && maker !in ops
    ensures OpsTrue(r, b, Bury(h, g, r.now), ops)
  {
    forall id | id in ops ensures OpTrue(r, b, Bury(h, g, r.now), id, ops[id]) {
      GiveUpOp(r, b, h, g, maker, id, ops[id]);
    }
  }

  // ---- Chunks of given-up generations ----

  lemma FallbackWorld(r: Redis, b: Book, h: History, c: ChunkKey)
    requires World(r, b, h) && c.gid in h.dead
    ensures World(SetFallback(r, c), b, h)
  {
    var r' := SetFallback(r, c);
    forall g, i: nat | g in b.readers && i < MadeCount(h, g)
      ensures Kept(r', h, ChunkKey(g, i))
    {
      assert Kept(r, h, ChunkKey(g, i));
    }
  }

  lemma FallbackOp(r: Redis, b: Book, h: History, c: ChunkKey, id: OpId, op: Op)
    requires OpTrue(r, b, h, id, op) && c.gid in h.dead
    ensures OpTrue(SetFallback(r, c), b, h, id, op)
  {
  }

  lemma FallbackOps(r: Redis, b: Book, h: History, c: ChunkKey, ops: map<OpId, Op>)
    requires OpsTrue(r, b, h, ops)
    requires c.gid in h.dead
    ensures OpsTrue(SetFallback(r, c), b, h, ops)
  {
    forall id | id in ops ensures OpTrue(SetFallback(r, c), b, h, id, ops[id]) {
      FallbackOp(r, b, h, c, id, ops[id]);
    }
  }

  lemma DelChunkWorld(r: Redis, b: Book, h: History, c: ChunkKey)
    requires World(r, b, h) && c.gid in h.dead && c.gid !in b.readers
    ensures World(DelChunk(r, c), b, h)
  {
    var r' := DelChunk(r, c);
    forall g, i: nat | g in b.readers && i < MadeCount(h, g)
      ensures Kept(r', h, ChunkKey(g, i))
    {
      assert Kept(r, h, ChunkKey(g, i));
    }
  }

  lemma DelChunkOp(r: Redis, b: Book, h: History, c: ChunkKey, id: OpId, op: Op)
    requires OpTrue(r, b, h, id, op) && c.gid in h.dead
    ensures OpTrue(DelChunk(r, c), b, h, id, op)
  {
  }

  lemma DelChunkOps(r: Redis, b: Book, h: History, c: ChunkKey, ops: map<OpId, Op>)
    requires OpsTrue(r, b, h, ops)
    requires c.gid in h.dead
    ensures OpsTrue(DelChunk(r, c), b, h, ops)
  {
    forall id | id in ops ensures OpTrue(DelChunk(r, c), b, h, id, ops[id]) {
      DelChunkOp(r, b, h, c, id, ops[id]);
    }
  }

  lemma OrphanWorld(r: Redis, b: Book, h: History, cs: set<ChunkKey>)
    requires World(r, b, h) && forall c | c in cs :: c.gid in h.dead
    ensures World(r, b, h.(orphans := h.orphans + cs))
  {
    var h' := h.(orphans := h.orphans + cs);
    forall g, i: nat | g in b.readers && i < MadeCount(h, g)
      ensures Kept(r, h', ChunkKey(g, i))
    {
      assert Kept(r, h, ChunkKey(g, i));
    }
  }

  lemma OrphanOp(r: Redis, b: Book, h: History, cs: set<ChunkKey>, id: OpId, op: Op)
    requires OpTrue(r, b, h, id, op)
    ensures OpTrue(r, b, h.(orphans := h.orphans + cs), id, op)
  {
  }

  lemma OrphanOps(r: Redis, b: Book, h: History, cs: set<ChunkKey>, ops: map<OpId, Op>)
    requires OpsTrue(r, b, h, ops)
    ensures OpsTrue(r, b, h.(orphans := h.orphans + cs), ops)
  {
    forall id | id in ops ensures OpTrue(r, b, h.(orphans := h.orphans + cs), id, ops[id]) {
      OrphanOp(r, b, h, cs, id, ops[id]);
    }
  }

  // ---- Manifests ----

  /** An operation whose claim on the manifest of `key` survives the manifest's disappearance. */
  predicate Tolerates(r: Redis, h: History, key: Key, op: Op) {
    (op.Loaded? || op.Staging?) && op.key == key && !op.blind ==> op.deadline <= r.now || key in h.lateRemoves
  }

  /** The manifest goes; the generation it leased, if any, is given up. */
  function Cut(r: Redis, h: History, key: Key): (Redis, History) {
    (DelManifest(r, key),
     match ActiveGen(r, key) case Some(g) => Bury(h, g, r.now) case None => h)
  }

  lemma CutWorld(r: Redis, b: Book, h: History, key: Key)
    requires World(r, b, h)
    ensures World(Cut(r, h, key).0, b, Cut(r, h, key).1)
  {
    var (r', h') := Cut(r, h, key);
    forall g, i: nat | g in b.readers && i < MadeCount(h, g)
      ensures Kept(r', h', ChunkKey(g, i))
    {
      assert Kept(r, h, ChunkKey(g, i));
      assert g !in h.dead && Active(r, g) ==> Persisted(r, g, MadeCount(h, g));
    }
    forall g | g in b.readers ensures Active(r', g) || g in h'.dead {
      assert Active(r, g) || g in h.dead;
    }
  }

  lemma CutOp(r: Redis, b: Book, h: History, key: Key, id: OpId, op: Op)
    requires OpTrue(r, b, h, id, op) && Tolerates(r, h, key, op)
    ensures OpTrue(Cut(r, h, key).0, b, Cut(r, h, key).1, id, op)
  {
  }

  lemma CutOps(r: Redis, b: Book, h: History, key: Key, ops: map<OpId, Op>)
    requires OpsTrue(r, b, h, ops)
    requires forall id | id in ops :: Tolerates(r, h, key, ops[id])
    ensures OpsTrue(Cut(r, h, key).0, b, Cut(r, h, key).1, ops)
  {
    forall id | id in ops ensures OpTrue(Cut(r, h, key).0, b, Cut(r, h, key).1, id, ops[id]) {
      CutOp(r, b, h, key, id, ops[id]);
    }
  }

  /** An operation that makes no claim on the manifest of `key` any more. */
  predicate Yields(r: Redis, key: Key, op: Op) {
    (op.Loaded? || op.Staging?) && op.key == key && !op.blind ==> op.deadline <= r.now
  }

  /** The publish script makes the new manifest whole and touches no other generation. */
  lemma SwitchActive(r: Redis, h: History, g: GenId)
    requires ChunksTrue(r, h) && ActiveWhole(r, h) && g in h.made && g !in h.dead
    requires g.key !in r.manifests
    requires AllStaged(r, g, MadeCount(h, g))
    ensures ActiveWhole(SwitchTo(r, g, h.made[g].resp), h)
    ensures ChunksTrue(SwitchTo(r, g, h.made[g].resp), h)
  {
  }

  lemma SwitchLeases(r: Redis, b: Book, h: History, g: GenId)
    requires LeasesKept(r, b, h) && g in h.made && g !in b.readers && g.key !in r.manifests
    ensures LeasesKept(SwitchTo(r, g, h.made[g].resp), b, h)
  {
    var r' := SwitchTo(r, g, h.made[g].resp);
    forall g', i: nat | g' in b.readers && i < MadeCount(h, g')
      ensures Kept(r', h, ChunkKey(g', i))
    {
      assert Kept(r, h, ChunkKey(g', i));
    }
  }

  /** The publish script runs where no manifest is stored. */
  lemma SwitchWorld(r: Redis, b: Book, h: History, g: GenId, maker: OpId)
    requires World(r, b, h) && Private(r, b, h, g, maker)
    requires g.key !in r.manifests
    requires AllStaged(r, g, MadeCount(h, g))
    ensures World(SwitchTo(r, g, h.made[g].resp), b, h)
  {
    SwitchActive(r, h, g);
    SwitchLeases(r, b, h, g);
  }

  lemma SwitchOp(r: Redis, b: Book, h: History, g: GenId, maker: OpId, id: OpId, op: Op)
    requires Private(r, b, h, g, maker) && id != maker
    requires g.key !in r.manifests
    requires Yields(r, g.key, op)
    requires OpTrue(r, b, h, id, op)
    ensures OpTrue(SwitchTo(r, g, h.made[g].resp), b, h, id, op)
  {
  }

  lemma SwitchOps(r: Redis, b: Book, h: History, g: GenId, maker: OpId, ops: map<OpId, Op>)
    requires OpsTrue(r, b, h, ops)
    requires Private(r, b, h, g, maker) && maker !in ops
    requires g.key !in r.manifests
    requires forall id | id in ops :: Yields(r, g.key, ops[id])
    ensures OpsTrue(SwitchTo(r, g, h.made[g].resp), b, h, ops)
  {
    forall id | id in ops ensures OpTrue(SwitchTo(r, g, h.made[g].resp), b, h, id, ops[id]) {
      SwitchOp(r, b, h, g, maker, id, ops[id]);
    }
  }

  /** The script overwrites the manifest: deleting it first makes no difference. */
  lemma SwitchAfterCut(r: Redis, g: GenId, resp: Response)
    ensures SwitchTo(DelManifest(r, g.key), g, resp) == SwitchTo(r, g, resp)
  {
    assert DelManifest(r, g.key).manifests[g.key := ManifestFor(resp, g.gen)]
        == r.manifests[g.key := ManifestFor(resp, g.gen)];
  }

  lemma LateWorld(r: Redis, b: Book, h: History, keys: set<Key>)
    requires World(r, b, h)
    ensures World(r, b, h.(lateRemoves := h.lateRemoves + keys))
  {
    var h' := h.(lateRemoves := h.lateRemoves + keys);
    forall g, i: nat | g in b.readers && i < MadeCount(h, g)
      ensures Kept(r, h', ChunkKey(g, i))
    {
      assert Kept(r, h, ChunkKey(g, i));
    }
  }

  lemma LateOps(r: Redis, b: Book, h: History, keys: set<Key>, ops: map<OpId, Op>)
    requires OpsTrue(r, b, h, ops)
    ensures OpsTrue(r, b, h.(lateRemoves := h.lateRemoves + keys), ops)
  {
    var h' := h.(lateRemoves := h.lateRemoves + keys);
    forall id | id in ops ensures OpTrue(r, b, h', id, ops[id]) {
      assert OpTrue(r, b, h, id, ops[id]);
    }
  }
}
