/** What the cache promises, over every reachable state and every run. */
module CacheTheorems {
  import opened Prelude
  import opened CacheState
  import opened CacheProtocol
  import opened CacheInvariant
  import opened CachePreservation
  import opened CacheSwitching

  ghost predicate Reachable(s: State) {
    exists states: seq<State>, actions: seq<Action> ::
      Run(states, actions) && Init(states[0]) && states[|actions|] == s
  }

  lemma ReachableInv(s: State)
    requires Reachable(s)
    ensures Inv(s)
  {
    var states, actions :| Run(states, actions) && Init(states[0]) && states[|actions|] == s;
    RunKeepsInv(states, actions, |actions|);
  }

  // ---- The cache as a map from keys to responses ----

  /** The first `count` chunks of a generation as stored right now, if all are there. */
  function Assembled(r: Redis, g: GenId, count: nat): Option<Bytes> {
    if count == 0 then Some([])
    else
      match Assembled(r, g, count - 1)
      case None => None
      case Some(b) => if ChunkKey(g, count - 1) in r.chunks then Some(b + r.chunks[ChunkKey(g, count - 1)].data) else None
  }

  /** What Redis holds for a key: the abstract value of the cache. */
  function Entry(r: Redis, key: Key): Option<Response> {
    if key !in r.manifests then None
    else
      var m := r.manifests[key];
      match if Leasable(m) then Assembled(r, GenOf(key, m), m.chunkCount) else m.legacyBody
      case None => None
      case Some(body) => Some(ResponseFrom(m, body))
  }

  lemma {:induction false} AssembledIsPrefix(r: Redis, h: History, g: GenId, count: nat)
    requires ChunksTrue(r, h) && g in h.made && count <= MadeCount(h, g)
    requires forall i: nat | i < count :: ChunkKey(g, i) in r.chunks
    ensures Assembled(r, g, count) == Some(ChunkPrefix(h.made[g].resp.body, count))
  {
    if count == 0 {
      WholeBody(h.made[g].resp.body);
    } else {
      AssembledIsPrefix(r, h, g, count - 1);
      PrefixThenSlice(h.made[g].resp.body, count - 1);
    }
  }

  /** A manifest that names chunks stands for exactly the response it was published with. */
  lemma EntryOfActive(s: State, key: Key)
    requires Inv(s) && key in s.redis.manifests && Leasable(s.redis.manifests[key])
    ensures GenOf(key, s.redis.manifests[key]) in s.hist.made
    ensures Entry(s.redis, key) == Some(s.hist.made[GenOf(key, s.redis.manifests[key])].resp)
  {
    var m := s.redis.manifests[key];
    var g := GenOf(key, m);
    assert Persisted(s.redis, g, m.chunkCount);
    AssembledIsPrefix(s.redis, s.hist, g, m.chunkCount);
    WholeBody(s.hist.made[g].resp.body);
  }

  /**
   Active-manifest integrity: whatever interleaving of staging, expiry and clean-up led here, a
   manifest that names chunks has all of them, none with a TTL, and reading them back in order
   gives the body the manifest was published with.
   */
  lemma ActiveEntryWhole(s: State, key: Key)
    requires Reachable(s) && key in s.redis.manifests && Leasable(s.redis.manifests[key])
    ensures var m := s.redis.manifests[key];
            var g := GenOf(key, m);
            && Persisted(s.redis, g, m.chunkCount)
            && g in s.hist.made
            && Entry(s.redis, key) == Some(s.hist.made[g].resp)
            && m == ManifestFor(s.hist.made[g].resp, g.gen)
  {
    ReachableInv(s);
    EntryOfActive(s, key);
    assert Persisted(s.redis, GenOf(key, s.redis.manifests[key]), s.redis.manifests[key].chunkCount);
  }

  // ---- Refinement: each step is a map update or nothing ----

  /** The effect of a step on the abstract map, at `key`. */
  function MapStep(s: State, a: Action, key: Key): Option<Response>
    requires Enabled(s, a)
  {
    match a
    case Swap(id, ok) =>
      if ok && s.ops[id].key == key then
        // a body without bytes has no chunks: the key is then not readable
        if s.ops[id].resp.body == [] then None else Some(s.ops[id].resp)
      else Entry(s.redis, key)
    case RemoveCut(id, ok) => if ok && s.ops[id].key == key then None else Entry(s.redis, key)
    case _ => Entry(s.redis, key)
  }

  lemma EntryStays(s: State, s': State, key: Key)
    requires Inv(s) && Inv(s')
    requires Lookup(s.redis.manifests, key) == Lookup(s'.redis.manifests, key)
    requires forall g | g in s.hist.made :: g in s'.hist.made && s'.hist.made[g] == s.hist.made[g]
    ensures Entry(s'.redis, key) == Entry(s.redis, key)
  {
    if key in s.redis.manifests {
      assert key in s'.redis.manifests;
      if Leasable(s.redis.manifests[key]) {
        EntryOfActive(s, key);
        EntryOfActive(s', key);
      }
    }
  }

  /** History only grows, and only the two critical sections move a manifest. */
  lemma StepShape(s: State, a: Action, key: Key)
    requires Enabled(s, a)
    ensures forall g | g in s.hist.made :: g in Apply(s, a).hist.made && Apply(s, a).hist.made[g] == s.hist.made[g]
    ensures !(a.Swap? && a.ok && s.ops[a.id].key == key) && !(a.RemoveCut? && a.ok && s.ops[a.id].key == key)
      ==> Lookup(Apply(s, a).redis.manifests, key) == Lookup(s.redis.manifests, key)
  {
  }

  lemma SwapEntry(s: State, id: OpId)
    requires Inv(s) && Enabled(s, Swap(id, true))
    ensures Entry(Apply(s, Swap(id, true)).redis, s.ops[id].key) == MapStep(s, Swap(id, true), s.ops[id].key)
  {
    var s', op := Apply(s, Swap(id, true)), s.ops[id];
    WholeBody(op.resp.body);
    assert s'.redis == SwitchTo(s.redis, StagedGen(op), op.resp);
    if op.resp.body != [] {
      assert op.gen != "" && StagedGen(op) in s.hist.made && s.hist.made[StagedGen(op)].resp == op.resp by {
        assert OpTrue(s.redis, s.book, s.hist, id, op);
      }
      assert Inv(s') by { StepKeepsInv(s, Swap(id, true)); }
      EntryOfActive(s', op.key);
      StepShape(s, Swap(id, true), op.key);
    }
  }

  lemma CutEntry(s: State, id: OpId)
    requires Enabled(s, RemoveCut(id, true))
    ensures Entry(Apply(s, RemoveCut(id, true)).redis, s.ops[id].key) == None
  {
  }

  /**
   The cache refines a map: publishing is one update, removing is one deletion, and every other
   step (a failed fetch, a rejected empty catalog, failed staging, a failed script, expiry,
   retirement, clean-up, reads) leaves the map as it was.
   */
  lemma StepRefinesMap(s: State, a: Action, key: Key)
    requires Reachable(s) && Enabled(s, a)
    ensures Entry(Apply(s, a).redis, key) == MapStep(s, a, key)
  {
    assert Inv(s) by { ReachableInv(s); }
    if a.Swap? && a.ok && s.ops[a.id].key == key {
      SwapEntry(s, a.id);
    } else if a.RemoveCut? && a.ok && s.ops[a.id].key == key {
      CutEntry(s, a.id);
    } else {
      assert Inv(Apply(s, a)) by { StepKeepsInv(s, a); }
      StepShape(s, a, key);
      EntryStays(s, Apply(s, a), key);
    }
  }

  // ---- Hits ----

  predicate IsGet(op: Op) {
    op.Reading? || op.ReadingLegacy? || op.Holding?
  }

  /** What a get that selected manifest `man` of `key` is bound to return. */
  function Promise(h: History, key: Key, man: Manifest): Option<Response> {
    if Leasable(man) then
      if GenOf(key, man) in h.made then Some(h.made[GenOf(key, man)].resp) else None
    else if man.legacyBody.Some? then Some(ResponseFrom(man, man.legacyBody.value))
    else None
  }

  /** Identifiers are not reused, and a get stays with the manifest it selected. */
  lemma GetShape(s: State, a: Action, id: OpId)
    requires Enabled(s, a)
    ensures s.nextOp <= Apply(s, a).nextOp
    ensures id in Apply(s, a).ops && id < s.nextOp ==> id in s.ops
    ensures id in s.ops && id in Apply(s, a).ops && id != s.nextOp && IsGet(Apply(s, a).ops[id]) ==>
      IsGet(s.ops[id]) && Apply(s, a).ops[id].key == s.ops[id].key && Apply(s, a).ops[id].man == s.ops[id].man
  {
  }

  lemma PromiseStays(s: State, a: Action, key: Key, man: Manifest)
    requires Enabled(s, a) && (Leasable(man) ==> GenOf(key, man) in s.hist.made)
    ensures Promise(Apply(s, a).hist, key, man) == Promise(s.hist, key, man)
  {
    StepShape(s, a, key);
  }

  lemma AnswerIsPromise(s: State, id: OpId)
    requires Inv(s) && id in s.ops && IsGet(s.ops[id])
    ensures Leasable(s.ops[id].man) ==> GenOf(s.ops[id].key, s.ops[id].man) in s.hist.made
    ensures s.ops[id].Holding? ==>
      Promise(s.hist, s.ops[id].key, s.ops[id].man) == Some(ResponseFrom(s.ops[id].man, s.ops[id].body))
  {
    assert OpTrue(s.redis, s.book, s.hist, id, s.ops[id]);
  }

  /** If `id` is still a get, it is a get of `key` bound to return `e`. */
  predicate Bound(s: State, id: OpId, key: Key, e: Option<Response>) {
    && id < s.nextOp
    && (id in s.ops && IsGet(s.ops[id]) ==>
          s.ops[id].key == key && Promise(s.hist, key, s.ops[id].man) == e)
  }

  lemma PinBinds(s: State, key: Key)
    requires Inv(s) && key in s.redis.manifests
    ensures Bound(Apply(s, GetPin(key)), s.nextOp, key, Entry(s.redis, key))
  {
    if Leasable(s.redis.manifests[key]) { EntryOfActive(s, key); }
  }

  lemma BoundStays(s: State, a: Action, id: OpId, key: Key, e: Option<Response>)
    requires Inv(s) && Enabled(s, a) && Bound(s, id, key, e)
    ensures Bound(Apply(s, a), id, key, e)
  {
    var s' := Apply(s, a);
    GetShape(s, a, id);
    if id in s'.ops && IsGet(s'.ops[id]) {
      AnswerIsPromise(s, id);
      PromiseStays(s, a, key, s.ops[id].man);
    }
  }

  /** The get that pins at step `p` stays bound to the entry stored at that moment. */
  lemma {:induction false} GetStaysBound(states: seq<State>, actions: seq<Action>, p: nat, j: nat, key: Key)
    requires Run(states, actions) && Init(states[0]) && p < j < |states|
    requires actions[p] == GetPin(key) && key in states[p].redis.manifests
    ensures Bound(states[j], states[p].nextOp, key, Entry(states[p].redis, key))
  {
    RunKeepsInv(states, actions, j - 1);
    if j == p + 1 {
      PinBinds(states[p], key);
    } else {
      GetStaysBound(states, actions, p, j - 1, key);
      BoundStays(states[j - 1], actions[j - 1], states[p].nextOp, key, Entry(states[p].redis, key));
    }
  }

  /**
   No torn reads: in every run, whatever replacements, removals, expiries and clean-ups happen
   while the chunks are being read, a hit returns exactly the whole entry that was stored at the
   moment the get pinned its manifest.
   */
  lemma HitIsSnapshot(states: seq<State>, actions: seq<Action>, p: nat, j: nat, key: Key)
    requires Run(states, actions) && Init(states[0]) && p < j < |states|
    requires actions[p] == GetPin(key) && key in states[p].redis.manifests
    requires states[p].nextOp in states[j].ops && states[j].ops[states[p].nextOp].Holding?
    ensures var op := states[j].ops[states[p].nextOp];
            op.key == key && Entry(states[p].redis, key) == Some(ResponseFrom(op.man, op.body))
  {
    GetStaysBound(states, actions, p, j, key);
    RunKeepsInv(states, actions, j);
    AnswerIsPromise(states[j], states[p].nextOp);
  }

  // ---- Leases ----

  /** The generation operation `id` has pinned, if any. */
  function LeasedBy(s: State, id: OpId): Option<GenId> {
    if id in s.ops then LeaseOf(s.ops[id]) else None
  }

  lemma LeaseCounted(s: State, id: OpId, g: GenId)
    requires Inv(s) && LeasedBy(s, id) == Some(g)
    ensures g in s.book.readers && g in s.hist.made
  {
    assert id in Holders(s.ops, g);
    assert ReaderCount(s.book, g) == |Holders(s.ops, g)|;
  }

  /** Clean-up never deletes a chunk of a generation somebody holds a lease on. */
  lemma CleanSparesLeases(s: State, id: OpId, ok: bool, reader: OpId, g: GenId)
    requires Reachable(s) && Enabled(s, Clean(id, ok)) && LeasedBy(s, reader) == Some(g)
    ensures s.ops[id].gid != g
    ensures forall c | c in s.redis.chunks && c.gid == g ::
      c in Apply(s, Clean(id, ok)).redis.chunks && Apply(s, Clean(id, ok)).redis.chunks[c] == s.redis.chunks[c]
  {
    assert s.ops[id].gid != g by {
      ReachableInv(s);
      LeaseCounted(s, reader, g);
      assert OpTrue(s.redis, s.book, s.hist, id, s.ops[id]);
    }
  }

  /**
   A leased generation has all its chunks, unless it was given up at least the fallback TTL ago:
   only that crash protection can take a chunk from a reader.
   */
  lemma LeasedChunksStored(s: State, reader: OpId, g: GenId, i: nat)
    requires Reachable(s) && LeasedBy(s, reader) == Some(g)
    ensures g in s.hist.made
    ensures i < MadeCount(s.hist, g) && !FallbackOver(s.redis, s.hist, g) ==>
      && ChunkKey(g, i) in s.redis.chunks
      && s.redis.chunks[ChunkKey(g, i)].data == ChunkSlice(s.hist.made[g].resp.body, i)
  {
    ReachableInv(s);
    LeaseCounted(s, reader, g);
    if i < MadeCount(s.hist, g) { assert Kept(s.redis, s.hist, ChunkKey(g, i)); }
  }

  /** So a get is never stuck or failed by clean-up: its next chunk can be read. */
  lemma NextChunkReadable(s: State, id: OpId)
    requires Reachable(s) && id in s.ops && s.ops[id].Reading?
    requires !FallbackOver(s.redis, s.hist, GenOf(s.ops[id].key, s.ops[id].man))
    ensures Enabled(s, GetChunk(id))
  {
    ReachableInv(s);
    assert OpTrue(s.redis, s.book, s.hist, id, s.ops[id]);
    LeasedChunksStored(s, id, GenOf(s.ops[id].key, s.ops[id].man), s.ops[id].next);
  }

  // ---- Locks ----

  /** An operation of a replacement between taking its lock and swapping. */
  predicate Replacing(op: Op) {
    op.Locked? || op.Loaded? || op.Staging?
  }

  /** Replacements of one key exclude each other for as long as their contexts are alive. */
  lemma ReplacementsExclude(s: State, id: OpId, id': OpId)
    requires Reachable(s) && id in s.ops && id' in s.ops && Replacing(s.ops[id]) && Replacing(s.ops[id'])
    requires s.ops[id].key == s.ops[id'].key
    requires InTime(s, s.ops[id].deadline) && InTime(s, s.ops[id'].deadline)
    ensures id == id'
  {
    ReachableInv(s);
    assert OpTrue(s.redis, s.book, s.hist, id, s.ops[id]);
    assert OpTrue(s.redis, s.book, s.hist, id', s.ops[id']);
  }

  /**
   Every swap happens under the swapper's own, unexpired lock, finds all its staged chunks, and
   overwrites the manifest its operation read at the start, exactly when it found none there or
   some manifest is stored now. The exception is a key a Remove cut after losing its lock: there
   the manifest is gone. `CacheGuards` says which steps do that.
   */
  lemma SwapUnderLock(s: State, id: OpId)
    requires Reachable(s) && id in s.ops && s.ops[id].Staging?
    requires s.ops[id].next == ChunkCount(|s.ops[id].resp.body|) && InTime(s, s.ops[id].deadline)
    ensures Enabled(s, Swap(id, true))
    ensures OwnsLock(s.redis, s.ops[id].key, id) && s.ops[id].deadline < s.redis.locks[s.ops[id].key].expiry
    ensures !s.ops[id].blind ==>
      || s.ops[id].prev == Lookup(s.redis.manifests, s.ops[id].key)
      || (s.ops[id].key !in s.redis.manifests && s.ops[id].key in s.hist.lateRemoves)
    ensures !s.ops[id].blind ==>
      (s.ops[id].prev == Lookup(s.redis.manifests, s.ops[id].key)
       <==> (s.ops[id].prev.Some? ==> s.ops[id].key in s.redis.manifests))
  {
    ReachableInv(s);
    assert OpTrue(s.redis, s.book, s.hist, id, s.ops[id]);
  }

  /** Freeing a lock never frees another owner's. */
  lemma UnlockOnlyOwn(s: State, id: OpId, key: Key)
    requires Reachable(s) && Enabled(s, Unlock(id)) && key in s.redis.locks && s.redis.locks[key].owner != id
    ensures key in Apply(s, Unlock(id)).redis.locks
    ensures Apply(s, Unlock(id)).redis.locks[key] == s.redis.locks[key]
  {
    ReachableInv(s);
  }

  /** A replacement never puts a known-empty catalog over a known non-empty one, unless it is a blind fill. */
  lemma KnownNonEmptyKept(s: State, id: OpId)
    requires Reachable(s) && Enabled(s, Swap(id, true)) && !s.ops[id].blind
    requires s.ops[id].key in s.redis.manifests && KnownNonEmpty(s.redis.manifests[s.ops[id].key])
    ensures !KnownEmpty(s.ops[id].resp)
  {
    ReachableInv(s);
    SwapUnderLock(s, id);
    assert OpTrue(s.redis, s.book, s.hist, id, s.ops[id]);
  }

  // ---- Accounting ----

  /** The book counts leases exactly; only given-up generations with a reader wait in `retired`. */
  lemma BookExact(s: State, g: GenId)
    requires Reachable(s)
    ensures ReaderCount(s.book, g) == |Holders(s.ops, g)|
    ensures g in s.book.readers <==> Holders(s.ops, g) != {}
    ensures g in s.book.retired ==> !Active(s.redis, g) && Holders(s.ops, g) != {}
  {
    ReachableInv(s);
    assert ReaderCount(s.book, g) == |Holders(s.ops, g)|;
    assert Active(s.redis, g) ==> GenOf(g.key, s.redis.manifests[g.key]) == g;
  }

  /** Chunks of the generations current manifests name. */
  ghost predicate ActiveChunk(s: State, c: ChunkKey) {
    Active(s.redis, c.gid) && c.index < s.redis.manifests[c.gid.key].chunkCount
  }

  /** Chunks nobody will delete although nobody can read them. */
  ghost predicate Leaked(s: State, c: ChunkKey) {
    c in s.redis.chunks && !ActiveChunk(s, c)
  }

  /**
   When nothing is in flight and no lease is out, the lease book is empty, the active chunks are
   all stored, and a stored chunk is leaked exactly if it was written off.
   */
  lemma QuietAccounting(s: State)
    requires Reachable(s) && s.ops == map[]
    ensures s.book == Book(map[], map[])
    ensures forall c :: ActiveChunk(s, c) ==> c in s.redis.chunks
    ensures forall c :: Leaked(s, c) <==> c in s.redis.chunks && c in s.hist.orphans
  {
    ReachableInv(s);
    forall g: GenId ensures g !in s.book.readers {
      assert Holders(s.ops, g) == {};
      assert ReaderCount(s.book, g) == 0;
    }
    assert s.book.readers == map[] && s.book.retired == map[];
    forall c | ActiveChunk(s, c) ensures c in s.redis.chunks && c !in s.hist.orphans {
      var m := s.redis.manifests[c.gid.key];
      assert GenOf(c.gid.key, m) == c.gid;
      assert Persisted(s.redis, c.gid, m.chunkCount);
      assert ChunkKey(c.gid, c.index) == c;
    }
    forall c | c in s.redis.chunks ensures ActiveChunk(s, c) || c in s.hist.orphans {
      assert Accounted(s.redis, s.book, s.hist, s.ops, c);
      if Active(s.redis, c.gid) { assert GenOf(c.gid.key, s.redis.manifests[c.gid.key]) == c.gid; }
    }
  }

  /**
   A chunk is written off in exactly two ways: a DEL fails, or a fill whose manifest read failed
   overwrites a generation it does not know about.
   */
  lemma WrittenOffOnlyBy(s: State, a: Action)
    requires Reachable(s) && Enabled(s, a)
    ensures Apply(s, a).hist.orphans != s.hist.orphans ==>
      || (a.Clean? && !a.ok)
      || (a.Swap? && a.ok && s.ops[a.id].blind && ActiveGen(s.redis, s.ops[a.id].key).Some?)
  {
    if a.Swap? && a.ok && !s.ops[a.id].blind {
      SwapUnderLock(s, a.id);
    }
  }

  /** Such a fill does leak every chunk of the generation it overwrites; `CacheLeaks` says for how long. */
  lemma BlindSwapLeaks(s: State, id: OpId, g: GenId, i: nat)
    requires Reachable(s) && Enabled(s, Swap(id, true)) && s.ops[id].blind
    requires ActiveGen(s.redis, s.ops[id].key) == Some(g) && i < s.redis.manifests[s.ops[id].key].chunkCount
    ensures Leaked(Apply(s, Swap(id, true)), ChunkKey(g, i))
    ensures ChunkKey(g, i) in Apply(s, Swap(id, true)).hist.orphans
    ensures Apply(s, Swap(id, true)).redis.chunks[ChunkKey(g, i)].expiry == None
  {
    var op := s.ops[id];
    assert StagedGen(op) != g && op.prev == None
           && ChunkKey(g, i) in s.redis.chunks && s.redis.chunks[ChunkKey(g, i)].expiry == None by {
      ReachableInv(s);
      assert Persisted(s.redis, g, s.redis.manifests[op.key].chunkCount);
      StagedPrivate(s, id);
    }
    SwitchedAway(s.redis, StagedGen(op), op.resp, g, i);
  }

  /** A switch of the key takes its manifest off every other generation and leaves their chunks alone. */
  lemma SwitchedAway(r: Redis, to: GenId, resp: Response, g: GenId, i: nat)
    requires g != to && g.key == to.key && ChunkKey(g, i) in r.chunks
    ensures !Active(SwitchTo(r, to, resp), g)
    ensures ChunkKey(g, i) in SwitchTo(r, to, resp).chunks
    ensures SwitchTo(r, to, resp).chunks[ChunkKey(g, i)] == r.chunks[ChunkKey(g, i)]
  {
  }

  // ---- Releasing once ----

  /** Operation `id` was issued and is not a get any more. */
  predicate Spent(s: State, id: OpId) {
    id < s.nextOp && (id in s.ops ==> !IsGet(s.ops[id]))
  }

  lemma SpentStays(s: State, a: Action, id: OpId)
    requires Enabled(s, a) && Spent(s, id)
    ensures Spent(Apply(s, a), id)
  {
    GetShape(s, a, id);
  }

  lemma ReleaseSpends(s: State, a: Action, id: OpId)
    requires Enabled(s, a) && (a == Release(id) || a == GetAbort(id)) && id < s.nextOp
    ensures Spent(Apply(s, a), id)
  {
  }

  /** A lease is given back at most once: after its release no later step can release it again. */
  lemma {:induction false} ReleasedOnce(states: seq<State>, actions: seq<Action>, p: nat, j: nat, id: OpId)
    requires Run(states, actions) && Init(states[0]) && p < j < |states|
    requires actions[p] == Release(id) || actions[p] == GetAbort(id)
    ensures Spent(states[j], id) && !Enabled(states[j], Release(id)) && !Enabled(states[j], GetAbort(id))
  {
    if j == p + 1 {
      assert id < states[p].nextOp by { RunKeepsInv(states, actions, p); }
      ReleaseSpends(states[p], actions[p], id);
    } else {
      ReleasedOnce(states, actions, p, j - 1, id);
      SpentStays(states[j - 1], actions[j - 1], id);
    }
  }
}
