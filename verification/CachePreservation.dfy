/** Every action of the cache protocol keeps the invariant. */
module CachePreservation {
  import opened Prelude
  import opened CacheState
  import opened CacheProtocol
  import opened CacheInvariant
  import opened CacheEffects

  // ---- Assembling the invariant after a step of operation `id` ----

  /** Only operation `id` may differ between `ops` and `ops'`. */
  ghost predicate SameButFor(ops: map<OpId, Op>, ops': map<OpId, Op>, id: OpId) {
    forall i: OpId | i != id :: (i in ops' <==> i in ops) && (i in ops ==> ops'[i] == ops[i])
  }

  function LeaseAt(ops: map<OpId, Op>, id: OpId): Option<GenId> {
    if id in ops then LeaseOf(ops[id]) else None
  }

  lemma CountsStay(b: Book, b': Book, ops: map<OpId, Op>, ops': map<OpId, Op>, id: OpId)
    requires CountsTrue(b, ops) && b'.readers == b.readers
    requires SameButFor(ops, ops', id) && LeaseAt(ops, id) == LeaseAt(ops', id)
    ensures CountsTrue(b', ops')
  {
    forall g: GenId ensures ReaderCount(b', g) == |Holders(ops', g)| {
      assert Holders(ops', g) == Holders(ops, g);
    }
  }

  lemma CountsPin(b: Book, ops: map<OpId, Op>, ops': map<OpId, Op>, id: OpId, g: GenId)
    requires CountsTrue(b, ops)
    requires SameButFor(ops, ops', id) && LeaseAt(ops, id) == None && LeaseAt(ops', id) == Some(g)
    ensures CountsTrue(Pin(b, g), ops')
  {
    assert Holders(ops', g) == Holders(ops, g) + {id};
    forall g': GenId ensures ReaderCount(Pin(b, g), g') == |Holders(ops', g')| {
      if g' != g {
        assert Holders(ops', g') == Holders(ops, g');
      }
    }
  }

  lemma CountsUnpin(b: Book, ops: map<OpId, Op>, ops': map<OpId, Op>, id: OpId, g: GenId)
    requires CountsTrue(b, ops)
    requires SameButFor(ops, ops', id) && LeaseAt(ops, id) == Some(g) && LeaseAt(ops', id) == None
    ensures ReaderCount(b, g) >= 1
    ensures CountsTrue(Unpin(b, g), ops')
  {
    assert Holders(ops, g) == Holders(ops', g) + {id};
    forall g': GenId | g' != g ensures Holders(ops', g') == Holders(ops, g') {}
  }

  /** Chunks swept by others stay swept. */
  lemma SweptStay(ops: map<OpId, Op>, ops': map<OpId, Op>, id: OpId, c: ChunkKey)
    requires SameButFor(ops, ops', id) && Swept(ops, c)
    ensures Swept(ops', c) || (id in ops && Sweeps(ops[id], c))
  {
    var i :| i in ops && Sweeps(ops[i], c);
    if i != id { assert i in ops' && Sweeps(ops'[i], c); }
  }

  lemma OpsOf(s: State, s': State, id: OpId)
    requires SameButFor(s.ops, s'.ops, id)
    requires OpsTrue(s'.redis, s'.book, s'.hist, s.ops - {id})
    requires id in s'.ops ==> OpTrue(s'.redis, s'.book, s'.hist, id, s'.ops[id])
    ensures OpsTrue(s'.redis, s'.book, s'.hist, s'.ops)
  {
    forall i | i in s'.ops ensures OpTrue(s'.redis, s'.book, s'.hist, i, s'.ops[i]) {
      if i != id { assert i in s.ops - {id} && (s.ops - {id})[i] == s'.ops[i]; }
    }
  }

  // ---- get and Release ----

  lemma StepTick(s: State, d: nat)
    requires Inv(s)
    ensures Inv(Apply(s, Tick(d)))
  {
    var s' := Apply(s, Tick(d));
    ElapseWorld(s.redis, s.book, s.hist, d);
    ElapseOps(s.redis, s.book, s.hist, d, s.ops);
    forall c | c in s'.redis.chunks ensures Accounted(s'.redis, s'.book, s'.hist, s'.ops, c) {
      assert Accounted(s.redis, s.book, s.hist, s.ops, c);
    }
  }

  lemma StepGetPin(s: State, key: Key)
    requires Inv(s)
    ensures Inv(Apply(s, GetPin(key)))
  {
    var s' := Apply(s, GetPin(key));
    if key in s.redis.manifests {
      var man := s.redis.manifests[key];
      var id := s.nextOp;
      var g := GenOf(key, man);
      if Leasable(man) {
        PinWorld(s.redis, s.book, s.hist, g);
        PinOps(s.redis, s.book, s.hist, g, s.ops - {id});
        WholeBody(s.hist.made[g].resp.body);
        CountsPin(s.book, s.ops, s'.ops, id, g);
      } else {
        CountsStay(s.book, s'.book, s.ops, s'.ops, id);
      }
      OpsOf(s, s', id);
      forall c | c in s'.redis.chunks ensures Accounted(s'.redis, s'.book, s'.hist, s'.ops, c) {
        assert Accounted(s.redis, s.book, s.hist, s.ops, c);
        if Swept(s.ops, c) { SweptStay(s.ops, s'.ops, id, c); }
      }
    }
  }

  /** Chunk `c` is accounted for without the help of an operation other than `id`. */
  predicate SelfAccounted(s: State, id: OpId, c: ChunkKey) {
    || Active(s.redis, c.gid)
    || c.gid in s.book.retired
    || c in s.hist.orphans
    || (id in s.ops && Sweeps(s.ops[id], c))
  }

  /** A step of `id` leaves no chunk behind that only `id` was accounting for. */
  ghost predicate HandsOver(s: State, s': State, id: OpId) {
    forall c | c in s'.redis.chunks ::
      SelfAccounted(s', id, c) || (c in s.redis.chunks && !SelfAccounted(s, id, c))
  }

  /** The invariant after a step of `id` that neither takes nor ends a lease. */
  lemma Settle(s: State, s': State, id: OpId)
    requires Inv(s)
    requires SameButFor(s.ops, s'.ops, id) && LeaseAt(s.ops, id) == LeaseAt(s'.ops, id)
    requires s'.book.readers == s.book.readers
    requires World(s'.redis, s'.book, s'.hist) && IdsTrue(s'.redis, s'.ops, s'.nextOp)
    requires OpsTrue(s'.redis, s'.book, s'.hist, s.ops - {id})
    requires id in s'.ops ==> OpTrue(s'.redis, s'.book, s'.hist, id, s'.ops[id])
    requires HandsOver(s, s', id)
    ensures Inv(s')
  {
    CountsStay(s.book, s'.book, s.ops, s'.ops, id);
    OpsOf(s, s', id);
    forall c | c in s'.redis.chunks ensures Accounted(s'.redis, s'.book, s'.hist, s'.ops, c) {
      if !SelfAccounted(s', id, c) {
        assert Accounted(s.redis, s.book, s.hist, s.ops, c);
        SweptStay(s.ops, s'.ops, id, c);
      } else if id in s'.ops && Sweeps(s'.ops[id], c) {
        assert Swept(s'.ops, c);
      }
    }
  }

  /** The operation that takes an action which neither starts an operation nor moves a lease. */
  function Actor(a: Action): Option<OpId> {
    match a
    case GetChunk(id) => Some(id)
    case GetLegacyBody(id, _) => Some(id)
    case Load(id, _) => Some(id)
    case Fetch(id, _, _) => Some(id)
    case Stage(id, _) => Some(id)
    case Expire(id, _) => Some(id)
    case Clean(id, _) => Some(id)
    case Unlock(id) => Some(id)
    case _ => None
  }

  lemma ActorShape(s: State, a: Action, id: OpId)
    requires Enabled(s, a) && Actor(a) == Some(id)
    requires a.GetChunk? || a.GetLegacyBody? ==> (Leasable(s.ops[id].man) <==> a.GetChunk?)
    ensures SameButFor(s.ops, Apply(s, a).ops, id)
    ensures LeaseAt(s.ops, id) == LeaseAt(Apply(s, a).ops, id)
    ensures Apply(s, a).book == s.book && Apply(s, a).nextOp == s.nextOp
  {
  }

  lemma ActorHandsOver(s: State, a: Action, id: OpId)
    requires Enabled(s, a) && Actor(a) == Some(id)
    ensures HandsOver(s, Apply(s, a), id)
  {
  }

  lemma StepActor(s: State, a: Action, id: OpId)
    requires Inv(s) && Enabled(s, a) && Actor(a) == Some(id)
    requires World(Apply(s, a).redis, s.book, Apply(s, a).hist)
    requires forall k | k in Apply(s, a).redis.locks :: k in s.redis.locks && Apply(s, a).redis.locks[k] == s.redis.locks[k]
    requires OpsTrue(Apply(s, a).redis, s.book, Apply(s, a).hist, s.ops - {id})
    requires id in Apply(s, a).ops ==>
      OpTrue(Apply(s, a).redis, s.book, Apply(s, a).hist, id, Apply(s, a).ops[id])
    ensures Inv(Apply(s, a))
  {
    ActorShape(s, a, id);
    ActorHandsOver(s, a, id);
    assert IdsTrue(Apply(s, a).redis, Apply(s, a).ops, Apply(s, a).nextOp);
    Settle(s, Apply(s, a), id);
  }

  lemma StepGetChunk(s: State, id: OpId)
    requires Inv(s) && Enabled(s, GetChunk(id))
    ensures Inv(Apply(s, GetChunk(id)))
  {
    var op := s.ops[id];
    var body := s.hist.made[GenOf(op.key, op.man)].resp.body;
    PrefixThenSlice(body, op.next);
    WholeBody(body);
    StepActor(s, GetChunk(id), id);
  }

  /** What a lease's end takes off the retired list, the operation itself cleans. */
  lemma UnpinAccounted(
      r: Redis, b: Book, h: History, ops: map<OpId, Op>, ops': map<OpId, Op>, id: OpId, g: GenId)
    requires AllAccounted(r, b, h, ops) && ChunksTrue(r, h) && RetiredTrue(b, h)
    requires SameButFor(ops, ops', id) && id in ops && LeaseOf(ops[id]) == Some(g)
    requires match UnpinCleans(b, g)
             case None => true
             case Some(count) => id in ops' && ops'[id] == Cleaning(g, count, 0, false)
    ensures AllAccounted(r, Unpin(b, g), h, ops')
  {
    forall c | c in r.chunks ensures Accounted(r, Unpin(b, g), h, ops', c) {
      assert Accounted(r, b, h, ops, c);
      if Swept(ops, c) {
        SweptStay(ops, ops', id, c);
      } else if c.gid in b.retired && c.gid !in Unpin(b, g).retired {
        assert id in ops' && Sweeps(ops'[id], c);
      }
    }
  }

  lemma StepUnpin(s: State, id: OpId, g: GenId)
    requires Inv(s) && id in s.ops && LeaseOf(s.ops[id]) == Some(g)
    ensures Inv(ApplyUnpin(s, id, g))
  {
    var s' := ApplyUnpin(s, id, g);
    UnpinWorld(s.redis, s.book, s.hist, g);
    UnpinOps(s.redis, s.book, s.hist, g, s.ops - {id});
    CountsUnpin(s.book, s.ops, s'.ops, id, g);
    OpsOf(s, s', id);
    UnpinAccounted(s.redis, s.book, s.hist, s.ops, s'.ops, id, g);
  }

  lemma StepGetLegacyBody(s: State, id: OpId, ok: bool)
    requires Inv(s) && Enabled(s, GetLegacyBody(id, ok))
    ensures Inv(Apply(s, GetLegacyBody(id, ok)))
  {
    StepActor(s, GetLegacyBody(id, ok), id);
  }

  lemma StepRelease(s: State, id: OpId)
    requires Inv(s) && Enabled(s, Release(id))
    ensures Inv(Apply(s, Release(id)))
  {
    if Leasable(s.ops[id].man) {
      StepUnpin(s, id, GenOf(s.ops[id].key, s.ops[id].man));
    } else {
      Settle(s, Apply(s, Release(id)), id);
    }
  }

  // ---- Locks ----

  lemma StepAcquire(s: State, key: Key, op: Op)
    requires Inv(s)
    requires op == Removing(key)
          || (op.Locked? && op.key == key && op.deadline <= s.redis.now + FETCH_TIMEOUT)
    ensures Inv(ApplyAcquire(s, key, op))
  {
    if key !in s.redis.locks {
      var s' := ApplyAcquire(s, key, op);
      LocksWorld(s.redis, s.book, s.hist, s'.redis.locks);
      LocksOps(s.redis, s.book, s.hist, s'.redis.locks, s.ops - {s.nextOp});
      Settle(s, s', s.nextOp);
    }
  }

  lemma StepUnlock(s: State, id: OpId)
    requires Inv(s) && Enabled(s, Unlock(id))
    ensures Inv(Apply(s, Unlock(id)))
  {
    var s' := Apply(s, Unlock(id));
    LocksWorld(s.redis, s.book, s.hist, s'.redis.locks);
    LocksOps(s.redis, s.book, s.hist, s'.redis.locks, s.ops - {id});
    assert s'.redis == s.redis.(locks := s'.redis.locks);
    StepActor(s, Unlock(id), id);
  }

  // ---- Replacement ----

  lemma StepLoad(s: State, id: OpId, ok: bool)
    requires Inv(s) && Enabled(s, Load(id, ok))
    ensures Inv(Apply(s, Load(id, ok)))
  {
    var s' := Apply(s, Load(id, ok));
    assert s'.redis == s.redis && s'.hist == s.hist;
    LoadedTrue(s, id, ok);
    StepActor(s, Load(id, ok), id);
  }

  lemma LoadedTrue(s: State, id: OpId, ok: bool)
    requires Enabled(s, Load(id, ok)) && OpTrue(s.redis, s.book, s.hist, id, s.ops[id])
    requires ActiveWhole(s.redis, s.hist)
    ensures var s' := Apply(s, Load(id, ok)); id in s'.ops && OpTrue(s.redis, s.book, s.hist, id, s'.ops[id])
  {
  }

  lemma StepFetched(s: State, id: OpId, result: Response, gen: string)
    requires Inv(s) && Enabled(s, Fetch(id, Some(result), gen))
    requires Apply(s, Fetch(id, Some(result), gen)).ops[id].Staging?
    ensures Inv(Apply(s, Fetch(id, Some(result), gen)))
  {
    var s' := Apply(s, Fetch(id, Some(result), gen));
    var g := GenId(s.ops[id].key, gen);
    var m := Made(result, id);
    assert s'.hist == s.hist.(made := s.hist.made[g := m]);
    MadeWorld(s.redis, s.book, s.hist, g, m);
    MadeOps(s.redis, s.book, s.hist, g, m, s.ops - {id});
    MadeOp(s.redis, s.book, s.hist, g, m, id, s.ops[id]);
    StepActor(s, Fetch(id, Some(result), gen), id);
  }

  lemma StepFetch(s: State, id: OpId, result: Option<Response>, gen: string)
    requires Inv(s) && Enabled(s, Fetch(id, result, gen))
    ensures Inv(Apply(s, Fetch(id, result, gen)))
  {
    var s' := Apply(s, Fetch(id, result, gen));
    if s'.ops[id].Staging? {
      StepFetched(s, id, result.value, gen);
    } else {
      assert s'.hist == s.hist && s'.redis == s.redis;
      StepActor(s, Fetch(id, result, gen), id);
    }
  }

  /** Facts about the generation an operation is staging. */
  lemma StagedPrivate(s: State, id: OpId)
    requires Inv(s) && id in s.ops && s.ops[id].Staging?
    ensures Private(s.redis, s.book, s.hist, StagedGen(s.ops[id]), id)
    ensures s.hist.made[StagedGen(s.ops[id])].resp == s.ops[id].resp
    ensures OpTrue(s.redis, s.book, s.hist, id, s.ops[id])
    ensures OpsTrue(s.redis, s.book, s.hist, s.ops - {id})
  {
  }

  lemma GiveUpSettles(s: State, id: OpId)
    requires id in s.ops && s.ops[id].Staging?
    ensures SameButFor(s.ops, GiveUpStaged(s, id, s.ops[id].next).ops, id)
    ensures HandsOver(s, GiveUpStaged(s, id, s.ops[id].next), id)
  {
  }

  lemma StepGiveUp(s: State, id: OpId)
    requires Inv(s) && id in s.ops && s.ops[id].Staging?
    ensures Inv(GiveUpStaged(s, id, s.ops[id].next))
  {
    var op := s.ops[id];
    var g := StagedGen(op);
    StagedPrivate(s, id);
    GiveUpSettles(s, id);
    GiveUpWorld(s.redis, s.book, s.hist, g, id);
    GiveUpOps(s.redis, s.book, s.hist, g, id, s.ops - {id});
    Settle(s, GiveUpStaged(s, id, op.next), id);
  }

  lemma StepStage(s: State, id: OpId, ok: bool)
    requires Inv(s) && Enabled(s, Stage(id, ok))
    ensures Inv(Apply(s, Stage(id, ok)))
  {
    if !ok {
      StepGiveUp(s, id);
    } else {
      var op := s.ops[id];
      var g := StagedGen(op);
      var data := ChunkSlice(op.resp.body, op.next);
      StagedPrivate(s, id);
      StageWorld(s.redis, s.book, s.hist, g, id, op.next);
      StageOps(s.redis, s.book, s.hist, g, id, op.next, data, s.ops - {id});
      StagedOp(s.redis, s.book, s.hist, id, op);
      StepActor(s, Stage(id, ok), id);
    }
  }

  // ---- Tails ----

  lemma StepExpire(s: State, id: OpId, ok: bool)
    requires Inv(s) && Enabled(s, Expire(id, ok))
    ensures Inv(Apply(s, Expire(id, ok)))
  {
    var op := s.ops[id];
    if op.next < op.count && ok {
      var c := ChunkKey(op.gid, op.next);
      FallbackWorld(s.redis, s.book, s.hist, c);
      FallbackOps(s.redis, s.book, s.hist, c, s.ops - {id});
    }
    StepActor(s, Expire(id, ok), id);
  }

  lemma StepClean(s: State, id: OpId, ok: bool)
    requires Inv(s) && Enabled(s, Clean(id, ok))
    ensures Inv(Apply(s, Clean(id, ok)))
  {
    var op := s.ops[id];
    var c := ChunkKey(op.gid, op.next);
    if op.next < op.count {
      if ok {
        DelChunkWorld(s.redis, s.book, s.hist, c);
        DelChunkOps(s.redis, s.book, s.hist, c, s.ops - {id});
      } else {
        OrphanWorld(s.redis, s.book, s.hist, {c});
        OrphanOps(s.redis, s.book, s.hist, {c}, s.ops - {id});
      }
    }
    StepActor(s, Clean(id, ok), id);
  }
}
