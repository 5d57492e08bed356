/** The two critical sections that move a key's manifest keep the invariant, and so does every run. */
module CacheSwitching {
  import opened Prelude
  import opened CacheState
  import opened CacheProtocol
  import opened CacheInvariant
  import opened CacheEffects
  import opened CachePreservation

  // ---- Remove ----

  lemma CutTolerated(s: State, id: OpId, key: Key, h: History)
    requires Inv(s)
    requires OwnsLock(s.redis, key, id) || key in h.lateRemoves
    ensures forall i | i in s.ops - {id} :: Tolerates(s.redis, h, key, (s.ops - {id})[i])
  {
    forall i | i in s.ops - {id} ensures Tolerates(s.redis, h, key, s.ops[i]) {
      assert OpTrue(s.redis, s.book, s.hist, i, s.ops[i]);
    }
  }

  /** Giving up a generation and deciding who cleans it. */
  lemma RetireSettles(r: Redis, b: Book, h: History, id: OpId, g: GenId, count: nat, ops: map<OpId, Op>)
    requires World(r, b, h) && OpsTrue(r, b, h, ops)
    requires g in h.dead && g in h.made && count == MadeCount(h, g)
    ensures World(r, Retire(b, g, count), h) && OpsTrue(r, Retire(b, g, count), h, ops)
    ensures OpTrue(r, Retire(b, g, count), h, id, AfterRetire(b, g, count))
    ensures Retire(b, g, count).readers == b.readers
  {
    RetireWorld(r, b, h, g, count);
    RetireOps(r, b, h, g, count, ops);
  }

  lemma RemoveHandsOver(s: State, id: OpId)
    requires Enabled(s, RemoveCut(id, true)) && ChunksTrue(s.redis, s.hist) && ActiveWhole(s.redis, s.hist)
    ensures HandsOver(s, Apply(s, RemoveCut(id, true)), id)
    ensures SameButFor(s.ops, Apply(s, RemoveCut(id, true)).ops, id)
  {
  }

  /** World and bystanders once the manifest is gone and its generation given up. */
  lemma RemoveClears(s: State, id: OpId)
    requires Inv(s) && Enabled(s, RemoveCut(id, true))
    ensures var s' := Apply(s, RemoveCut(id, true));
            && World(s'.redis, s'.book, s'.hist)
            && OpsTrue(s'.redis, s'.book, s'.hist, s.ops - {id})
            && OpTrue(s'.redis, s'.book, s'.hist, id, s'.ops[id])
            && s'.book.readers == s.book.readers
  {
    var s' := Apply(s, RemoveCut(id, true));
    var key := s.ops[id].key;
    var keys := if OwnsLock(s.redis, key, id) then {} else {key};
    var h := s.hist.(lateRemoves := s.hist.lateRemoves + keys);
    LateWorld(s.redis, s.book, s.hist, keys);
    LateOps(s.redis, s.book, s.hist, keys, s.ops - {id});
    CutTolerated(s, id, key, h);
    CutWorld(s.redis, s.book, h, key);
    CutOps(s.redis, s.book, h, key, s.ops - {id});
    var (r1, h1) := Cut(s.redis, h, key);
    if keys == {} { assert h == s.hist; }
    assert s'.redis == r1 && s'.hist == h1;
    var victim := ActiveGen(s.redis, key);
    if victim.Some? {
      RetireSettles(r1, s.book, h1, id, victim.value, s.redis.manifests[key].chunkCount, s.ops - {id});
    }
  }

  lemma RemoveFails(s: State, id: OpId)
    requires Enabled(s, RemoveCut(id, false))
    ensures HandsOver(s, Apply(s, RemoveCut(id, false)), id)
    ensures SameButFor(s.ops, Apply(s, RemoveCut(id, false)).ops, id)
  {
  }

  /** Besides its own record a Remove changes no operation, no lease and no identifier. */
  lemma CutShape(s: State, id: OpId, ok: bool)
    requires Enabled(s, RemoveCut(id, ok)) && IdsTrue(s.redis, s.ops, s.nextOp)
    ensures var s' := Apply(s, RemoveCut(id, ok));
            && SameButFor(s.ops, s'.ops, id) && LeaseAt(s.ops, id) == LeaseAt(s'.ops, id)
            && id in s'.ops && IdsTrue(s'.redis, s'.ops, s'.nextOp)
  {
  }

  lemma StepRemoveCut(s: State, id: OpId, ok: bool)
    requires Inv(s) && Enabled(s, RemoveCut(id, ok))
    ensures Inv(Apply(s, RemoveCut(id, ok)))
  {
    CutShape(s, id, ok);
    if ok {
      RemoveClears(s, id);
      RemoveHandsOver(s, id);
    } else {
      RemoveFails(s, id);
    }
    Settle(s, Apply(s, RemoveCut(id, ok)), id);
  }

  // ---- The publish script ----

  /** At the script, the operation owns its lock, so nobody else claims the key. */
  lemma SwapAlone(s: State, id: OpId)
    requires Inv(s) && Enabled(s, Swap(id, true))
    ensures OwnsLock(s.redis, s.ops[id].key, id)
    ensures forall i | i in s.ops - {id} :: Yields(s.redis, s.ops[id].key, (s.ops - {id})[i])
    ensures PrevTrue(s.redis, s.hist, s.ops[id].key, s.ops[id].deadline, s.ops[id].prev, s.ops[id].blind)
  {
    assert OpTrue(s.redis, s.book, s.hist, id, s.ops[id]);
    forall i | i in s.ops - {id} ensures Yields(s.redis, s.ops[id].key, s.ops[i]) {
      assert OpTrue(s.redis, s.book, s.hist, i, s.ops[i]);
    }
  }

  /** What the swap does with a chunk: make it active, retire it, write it off, or list it for deletion. */
  lemma SwapAccounts(s: State, id: OpId, c: ChunkKey)
    requires Enabled(s, Swap(id, true)) && ChunksTrue(s.redis, s.hist) && ActiveWhole(s.redis, s.hist)
    requires s.ops[id].gen != ""
    requires PrevGen(s.ops[id]).Some? ==> Describes(s.hist, s.ops[id].key, s.ops[id].prev.value)
    requires c in s.redis.chunks && SelfAccounted(s, id, c)
    ensures SelfAccounted(Apply(s, Swap(id, true)), id, c)
  {
    var op := s.ops[id];
    if Active(s.redis, c.gid) && c.gid.key == op.key {
      var m := s.redis.manifests[op.key];
      assert GenOf(op.key, m) == c.gid && Describes(s.hist, op.key, m);
      assert ActiveGen(s.redis, op.key) == Some(c.gid) && c.index < m.chunkCount;
    }
  }

  lemma SwapHandsOver(s: State, id: OpId)
    requires Enabled(s, Swap(id, true)) && ChunksTrue(s.redis, s.hist) && ActiveWhole(s.redis, s.hist)
    requires s.ops[id].gen != ""
    requires PrevGen(s.ops[id]).Some? ==> Describes(s.hist, s.ops[id].key, s.ops[id].prev.value)
    ensures HandsOver(s, Apply(s, Swap(id, true)), id)
  {
    forall c | c in Apply(s, Swap(id, true)).redis.chunks && SelfAccounted(s, id, c)
      ensures SelfAccounted(Apply(s, Swap(id, true)), id, c)
    {
      SwapAccounts(s, id, c);
    }
  }

  /** The history a successful swap leaves. */
  lemma SwapHistory(s: State, id: OpId)
    requires Enabled(s, Swap(id, true))
    ensures var op := s.ops[id];
            var victim := ActiveGen(s.redis, op.key);
            var h1 := Cut(s.redis, s.hist, op.key).1;
            Apply(s, Swap(id, true)).hist
            == if victim.Some? && PrevGen(op) != victim
               then h1.(orphans := h1.orphans + ChunkKeys(victim.value, s.redis.manifests[op.key].chunkCount))
               else h1
  {
  }

  /** The generation of the manifest read at the start of a replacement. */
  function PrevGen(op: Op): Option<GenId>
    requires op.Staging?
  {
    if op.prev.Some? && Leasable(op.prev.value) then Some(GenOf(op.key, op.prev.value)) else None
  }

  /** World and bystanders up to the moment the new manifest is written. */
  lemma SwapClears(s: State, id: OpId)
    returns (r: Redis, b: Book, h: History)
    requires Inv(s) && Enabled(s, Swap(id, true))
    ensures r == DelManifest(s.redis, s.ops[id].key)
    ensures b == Apply(s, Swap(id, true)).book && b.readers == s.book.readers
    ensures h == Apply(s, Swap(id, true)).hist && h.made == s.hist.made
    ensures World(r, b, h)
    ensures OpsTrue(r, b, h, s.ops - {id})
    ensures OpTrue(r, b, h, id, Apply(s, Swap(id, true)).ops[id])
    ensures Private(r, b, h, StagedGen(s.ops[id]), id)
  {
    var op := s.ops[id];
    var key := op.key;
    var s' := Apply(s, Swap(id, true));
    var rest := s.ops - {id};
    SwapAlone(s, id);
    SwapHistory(s, id);
    StagedPrivate(s, id);
    forall i | i in rest ensures Tolerates(s.redis, s.hist, key, rest[i]) {
      assert Yields(s.redis, key, rest[i]);
    }
    CutWorld(s.redis, s.book, s.hist, key);
    CutOps(s.redis, s.book, s.hist, key, rest);
    r, h := Cut(s.redis, s.hist, key).0, Cut(s.redis, s.hist, key).1;
    var victim := ActiveGen(s.redis, key);
    if victim.Some? && PrevGen(op) != victim {
      var cs := ChunkKeys(victim.value, s.redis.manifests[key].chunkCount);
      OrphanWorld(r, s.book, h, cs);
      OrphanOps(r, s.book, h, cs, rest);
      h := h.(orphans := h.orphans + cs);
    }
    b := s.book;
    if PrevGen(op).Some? {
      var g := PrevGen(op).value;
      RetireSettles(r, b, h, id, g, op.prev.value.chunkCount, rest);
      b := Retire(b, g, op.prev.value.chunkCount);
    }
  }

  /** A tail operation looks at no manifest. */
  lemma TailOp(r: Redis, r': Redis, b: Book, h: History, id: OpId, op: Op)
    requires op.Expiring? || op.Cleaning? || op.Unlocking?
    requires OpTrue(r, b, h, id, op)
    ensures OpTrue(r', b, h, id, op)
  {
  }

  /** World and operations once the new manifest is written. */
  lemma SwapWrites(s: State, id: OpId, r: Redis, b: Book, h: History)
    requires Enabled(s, Swap(id, true))
    requires r == DelManifest(s.redis, s.ops[id].key)
    requires h.made == s.hist.made && StagedGen(s.ops[id]) in h.made
    requires h.made[StagedGen(s.ops[id])].resp == s.ops[id].resp
    requires World(r, b, h)
    requires OpsTrue(r, b, h, s.ops - {id})
    requires OpTrue(r, b, h, id, Apply(s, Swap(id, true)).ops[id])
    requires Private(r, b, h, StagedGen(s.ops[id]), id)
    requires forall i | i in s.ops - {id} :: Yields(r, s.ops[id].key, (s.ops - {id})[i])
    ensures World(Apply(s, Swap(id, true)).redis, b, h)
    ensures OpsTrue(Apply(s, Swap(id, true)).redis, b, h, s.ops - {id})
    ensures OpTrue(Apply(s, Swap(id, true)).redis, b, h, id, Apply(s, Swap(id, true)).ops[id])
  {
    var g := StagedGen(s.ops[id]);
    var s' := Apply(s, Swap(id, true));
    SwitchAfterCut(s.redis, g, s.ops[id].resp);
    assert s'.redis == SwitchTo(r, g, h.made[g].resp);
    SwitchWorld(r, b, h, g, id);
    SwitchOps(r, b, h, g, id, s.ops - {id});
    TailOp(r, s'.redis, b, h, id, s'.ops[id]);
  }

  /** Besides its own record the switch changes no operation, no lease and no identifier. */
  lemma SwapShape(s: State, id: OpId)
    requires Enabled(s, Swap(id, true)) && IdsTrue(s.redis, s.ops, s.nextOp)
    ensures var s' := Apply(s, Swap(id, true));
            && SameButFor(s.ops, s'.ops, id) && LeaseAt(s.ops, id) == LeaseAt(s'.ops, id)
            && id in s'.ops && IdsTrue(s'.redis, s'.ops, s'.nextOp)
  {
  }

  /** World and operations after the whole switch, and what happens to every chunk. */
  lemma SwapSettles(s: State, id: OpId)
    requires Inv(s) && Enabled(s, Swap(id, true))
    ensures var s' := Apply(s, Swap(id, true));
            && World(s'.redis, s'.book, s'.hist)
            && OpsTrue(s'.redis, s'.book, s'.hist, s.ops - {id})
            && OpTrue(s'.redis, s'.book, s'.hist, id, s'.ops[id])
            && s'.book.readers == s.book.readers
            && HandsOver(s, s', id)
  {
    StagedPrivate(s, id);
    SwapAlone(s, id);
    SwapHandsOver(s, id);
    var r, b, h := SwapClears(s, id);
    SwapWrites(s, id, r, b, h);
  }

  lemma StepSwitch(s: State, id: OpId)
    requires Inv(s) && Enabled(s, Swap(id, true))
    ensures Inv(Apply(s, Swap(id, true)))
  {
    SwapShape(s, id);
    SwapSettles(s, id);
    Settle(s, Apply(s, Swap(id, true)), id);
  }

  lemma StepSwap(s: State, id: OpId, ok: bool)
    requires Inv(s) && Enabled(s, Swap(id, ok))
    ensures Inv(Apply(s, Swap(id, ok)))
  {
    if ok {
      StepSwitch(s, id);
    } else {
      StepGiveUp(s, id);
    }
  }

  // ---- All steps ----

  /** Every action keeps the invariant. */
  lemma StepKeepsInv(s: State, a: Action)
    requires Inv(s) && Enabled(s, a)
    ensures Inv(Apply(s, a))
  {
    match a
    case Tick(d) => StepTick(s, d);
    case GetPin(key) => StepGetPin(s, key);
    case GetChunk(id) => StepGetChunk(s, id);
    case GetAbort(id) => StepUnpin(s, id, GenOf(s.ops[id].key, s.ops[id].man));
    case GetLegacyBody(id, ok) => StepGetLegacyBody(s, id, ok);
    case Release(id) => StepRelease(s, id);
    case Acquire(kind, key, deadline) => StepAcquire(s, key, Locked(kind, key, deadline));
    case Load(id, ok) => StepLoad(s, id, ok);
    case Fetch(id, result, gen) => StepFetch(s, id, result, gen);
    case Stage(id, ok) => StepStage(s, id, ok);
    case Swap(id, ok) => StepSwap(s, id, ok);
    case AcquireRemove(key) => StepAcquire(s, key, Removing(key));
    case RemoveCut(id, ok) => StepRemoveCut(s, id, ok);
    case Expire(id, ok) => StepExpire(s, id, ok);
    case Clean(id, ok) => StepClean(s, id, ok);
    case Unlock(id) => StepUnlock(s, id);
  }

  /** The invariant holds all along every run. */
  lemma {:induction false} RunKeepsInv(states: seq<State>, actions: seq<Action>, i: nat)
    requires Run(states, actions) && Init(states[0]) && i < |states|
    ensures Inv(states[i])
  {
    if i == 0 {
      InitHasInv(states[0]);
    } else {
      RunKeepsInv(states, actions, i - 1);
      StepKeepsInv(states[i - 1], actions[i - 1]);
    }
  }
}
