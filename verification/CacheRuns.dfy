/**
 What whole runs of the cache do, in terms of their steps alone: which steps empty a catalogue, write
 chunks off or leak them, and that a replacement which meets no failure publishes what it fetched.
 */
module CacheRuns {
  import opened Prelude
  import opened CacheState
  import opened CacheProtocol
  import opened CacheInvariant
  import opened CachePreservation
  import opened CacheSwitching
  import opened CacheTheorems
  import opened CacheGuards
  import opened CacheLeaks
  import opened CacheOrigins

  // ---- What a failed read of the manifest can do ----

  /** Step `p` publishes the response of a fill whose read of the manifest failed. */
  ghost predicate UnreadSwap(states: seq<State>, actions: seq<Action>, p: nat, id: OpId)
    requires Run(states, actions) && p < |actions|
  {
    actions[p] == Swap(id, true) && LoadFailed(actions, p, id)
  }

  lemma SwapBlindIff(states: seq<State>, actions: seq<Action>, p: nat, id: OpId)
    requires Run(states, actions) && Init(states[0]) && p < |actions| && actions[p] == Swap(id, true)
    ensures Enabled(states[p], actions[p]) && id in states[p].ops && states[p].ops[id].Staging?
    ensures states[p].ops[id].blind <==> UnreadSwap(states, actions, p, id)
    ensures FetchedBy(actions, p, id, states[p].ops[id])
  {
    StepOf(states, actions, p);
    BlindIff(states, actions, p, id);
    AllTraced(states, actions, p, id);
  }

  /** Operation `id` was started as a fill of `key`. */
  ghost predicate FillFor(states: seq<State>, actions: seq<Action>, j: nat, id: OpId, key: Key)
    requires Run(states, actions) && j < |states|
  {
    exists q, deadline :: q < j && AcquiredAt(states, actions, q, id, Fill, key, deadline)
  }

  /** A fetch of `id` answered with a response known to be empty. */
  ghost predicate FetchedEmpty(actions: seq<Action>, j: nat, id: OpId)
    requires j <= |actions|
  {
    exists f, resp, gen :: 0 <= f < j && actions[f] == Fetch(id, Some(resp), gen)
      && resp.itemCountKnown && resp.itemCount == 0
  }

  /** Step `p` publishes, for `key`, an empty response of a fill whose read of the manifest failed. */
  ghost predicate EmptiesUnread(states: seq<State>, actions: seq<Action>, p: nat, key: Key)
    requires Run(states, actions) && p < |actions|
  {
    exists id :: UnreadSwap(states, actions, p, id) && FillFor(states, actions, p, id, key) && FetchedEmpty(actions, p, id)
  }

  /** What a step makes of an operation that has fetched. */
  lemma FetchedStep(s: State, a: Action, id: OpId)
    requires Enabled(s, a) && id in Apply(s, a).ops && id < s.nextOp
    requires id in s.ops ==> !s.ops[id].Locked? && !s.ops[id].Loaded?
    ensures var op' := Apply(s, a).ops[id];
            && !op'.Locked? && !op'.Loaded?
            && (op'.Staging? ==> id in s.ops && s.ops[id].Staging? && op'.resp == s.ops[id].resp && op'.gen == s.ops[id].gen)
  {
    var op := Apply(s, a).ops[id];
    if op.Locked? && (id !in s.ops || s.ops[id] != op) { NewLocked(s, a, id); }
    if BeforeSwap(op) {
      if a.Load? && a.id == id { NewLoaded(s, a, id); } else { StillLoaded(s, a, id); }
    }
  }

  ghost predicate HasFetched(s: State, a: Action, id: OpId)
    requires a.Fetch?
  {
    && id < s.nextOp
    && (id in s.ops ==>
          && !s.ops[id].Locked? && !s.ops[id].Loaded?
          && (s.ops[id].Staging? ==> a == Fetch(id, Some(s.ops[id].resp), s.ops[id].gen)))
  }

  lemma JustFetched(s: State, fetch: Action)
    requires Enabled(s, fetch) && fetch.Fetch? && fetch.id < s.nextOp
    ensures HasFetched(Apply(s, fetch), fetch, fetch.id)
  {
    NextGrows(s, fetch);
    FetchDecides(s, fetch.id, fetch.result, fetch.gen);
  }

  lemma StillFetched(s: State, a: Action, fetch: Action, id: OpId)
    requires Enabled(s, a) && fetch.Fetch? && HasFetched(s, fetch, id)
    ensures HasFetched(Apply(s, a), fetch, id)
  {
    NextGrows(s, a);
    if id in Apply(s, a).ops { FetchedStep(s, a, id); }
  }

  lemma {:induction false} FetchedAt(states: seq<State>, actions: seq<Action>, f: nat)
    requires Run(states, actions) && Init(states[0]) && f < |actions| && actions[f].Fetch?
    ensures HasFetched(states[f + 1], actions[f], actions[f].id)
  {
    StepOf(states, actions, f);
    assert actions[f].id < states[f].nextOp by { RunKeepsInv(states, actions, f); }
    JustFetched(states[f], actions[f]);
  }

  lemma {:induction false} FetchedOn(states: seq<State>, actions: seq<Action>, k: nat, fetch: Action, id: OpId)
    requires Run(states, actions) && k < |actions| && fetch.Fetch? && HasFetched(states[k], fetch, id)
    ensures HasFetched(states[k + 1], fetch, id)
  {
    StepOf(states, actions, k);
    StillFetched(states[k], actions[k], fetch, id);
  }

  lemma {:induction false} FetchedOnce(states: seq<State>, actions: seq<Action>, j: nat, id: OpId, f: int)
    requires Run(states, actions) && Init(states[0]) && 0 <= f < j < |states| && actions[f].Fetch? && actions[f].id == id
    ensures HasFetched(states[j], actions[f], id)
  {
    var fetch := actions[f];
    FetchedAt(states, actions, f);
    for k := f + 1 to j
      invariant HasFetched(states[k], fetch, id)
    {
      FetchedOn(states, actions, k, fetch, id);
    }
  }

  lemma FetchedEmptyIff(states: seq<State>, actions: seq<Action>, p: nat, id: OpId)
    requires Run(states, actions) && Init(states[0]) && p < |actions| && actions[p] == Swap(id, true)
    ensures id in states[p].ops && states[p].ops[id].Staging?
    ensures FetchedEmpty(actions, p, id) <==> KnownEmpty(states[p].ops[id].resp)
  {
    SwapBlindIff(states, actions, p, id);
    var op := states[p].ops[id];
    if KnownEmpty(op.resp) {
      var f :| 0 <= f < p && actions[f] == Fetch(id, Some(op.resp), op.gen);
    }
    if f, resp, gen :| 0 <= f < p && actions[f] == Fetch(id, Some(resp), gen) && KnownEmpty(resp) {
      FetchedOnce(states, actions, p, id, f);
    }
  }

  /** A fetched response is staged unless there is none, or it is known to be empty and would replace
    * a catalogue that the replacement knows not to be. */
  lemma FetchDecides(s: State, id: OpId, result: Option<Response>, gen: string)
    requires Enabled(s, Fetch(id, result, gen))
    ensures var op, op' := s.ops[id], Apply(s, Fetch(id, result, gen)).ops[id];
            if result.None? || (op.prev.Some? && KnownNonEmpty(op.prev.value) && KnownEmpty(result.value))
            then op' == Unlocking(op.key)
            else op' == Staging(op.key, op.deadline, op.prev, op.blind, gen, result.value, 0)
  {
  }

  /**
   In every run a known non-empty catalogue becomes a known-empty one exactly at the steps that
   publish an empty response of a fill whose read of the manifest failed.
   */
  lemma EmptiedInRun(states: seq<State>, actions: seq<Action>, p: nat, key: Key)
    requires Run(states, actions) && Init(states[0]) && p < |actions| && NonEmptyCatalogue(states[p].redis, key)
    ensures EmptyCatalogue(states[p + 1].redis, key) <==> EmptiesUnread(states, actions, p, key)
  {
    StepOf(states, actions, p);
    ReachedBy(states, actions, p);
    EmptiedIff(states[p], actions[p], key);
    if actions[p].Swap? && actions[p].ok {
      UnreadSwapIff(states, actions, p, actions[p].id, key);
    }
  }

  lemma UnreadSwapIff(states: seq<State>, actions: seq<Action>, p: nat, id: OpId, key: Key)
    requires Run(states, actions) && Init(states[0]) && p < |actions| && actions[p] == Swap(id, true)
    ensures Enabled(states[p], actions[p])
    ensures BlindEmptying(states[p], actions[p], key) <==>
      UnreadSwap(states, actions, p, id) && FillFor(states, actions, p, id, key) && FetchedEmpty(actions, p, id)
  {
    SwapBlindIff(states, actions, p, id);
    FetchedEmptyIff(states, actions, p, id);
    if UnreadSwap(states, actions, p, id) { SwapOrigin(states, actions, p, id, key); }
  }

  /** A swap after a failed read is that of the fill that was started for the key. */
  lemma SwapOrigin(states: seq<State>, actions: seq<Action>, p: nat, id: OpId, key: Key)
    requires Run(states, actions) && Init(states[0]) && p < |actions| && UnreadSwap(states, actions, p, id)
    ensures id in states[p].ops && states[p].ops[id].Staging?
    ensures FillFor(states, actions, p, id, key) <==> states[p].ops[id].key == key
  {
    SwapBlindIff(states, actions, p, id);
    var op := states[p].ops[id];
    var q, deadline := FillOf(states, actions, p, id);
    if q', deadline' :| q' < p && AcquiredAt(states, actions, q', id, Fill, key, deadline') {
      if q < q' { Acquires(states, actions, q, q'); }
      if q' < q { Acquires(states, actions, q', q); }
    }
  }

  lemma FillOf(states: seq<State>, actions: seq<Action>, p: nat, id: OpId) returns (q: int, deadline: nat)
    requires Run(states, actions) && Init(states[0]) && p < |actions| && LoadFailed(actions, p, id)
    requires id in states[p].ops && states[p].ops[id].Staging?
    ensures q < p && AcquiredAt(states, actions, q, id, Fill, states[p].ops[id].key, deadline)
  {
    AllTraced(states, actions, p, id);
    var op := states[p].ops[id];
    var kind, i, ok :| ReadBy(states, actions, p, id, op, kind, i, ok);
    ReadDecides(states, actions, p, id, op, kind, i, ok);
    deadline := op.deadline;
    q := StartOf(states, actions, p, id, op, kind, i, ok);
  }

  /** In every run chunks are written off in exactly two ways: a DEL fails, or a fill whose read of the
    * manifest failed publishes over a generation. */
  lemma WrittenOffInRun(states: seq<State>, actions: seq<Action>, p: nat)
    requires Run(states, actions) && Init(states[0]) && p < |actions|
    requires states[p + 1].hist.orphans != states[p].hist.orphans
    ensures || (actions[p].Clean? && !actions[p].ok)
            || exists id :: UnreadSwap(states, actions, p, id) && OverwritesGeneration(states[p], id)
  {
    StepOf(states, actions, p);
    ReachedBy(states, actions, p);
    WrittenOffOnlyBy(states[p], actions[p]);
    if actions[p].Swap? {
      SwapBlindIff(states, actions, p, actions[p].id);
    }
  }

  predicate OverwritesGeneration(s: State, id: OpId) {
    id in s.ops && s.ops[id].Staging? && ActiveGen(s.redis, s.ops[id].key).Some?
  }

  /** A run in which deletes succeed and no fill publishes over a generation that it failed to read. */
  ghost predicate SoundRun(states: seq<State>, actions: seq<Action>) {
    && Run(states, actions) && Init(states[0]) && states[0].hist.orphans == {}
    && (forall p | 0 <= p < |actions| :: !(actions[p].Clean? && !actions[p].ok))
    && (forall p: nat, id | p < |actions| && OverwritesGeneration(states[p], id) :: !UnreadSwap(states, actions, p, id))
  }

  /** In such a run, whenever nothing is in flight, exactly the chunks of the stored manifests are stored. */
  lemma NoLeakInRun(states: seq<State>, actions: seq<Action>, j: nat, c: ChunkKey)
    requires SoundRun(states, actions) && j < |states| && states[j].ops == map[]
    ensures c in states[j].redis.chunks <==> ActiveChunk(states[j], c)
  {
    forall p | 0 <= p < |actions| ensures Enabled(states[p], actions[p]) && !LeakyStep(states[p], actions[p]) {
      StepOf(states, actions, p);
      if actions[p].Swap? && actions[p].ok {
        SwapBlindIff(states, actions, p, actions[p].id);
        assert OverwritesGeneration(states[p], actions[p].id) ==> !UnreadSwap(states, actions, p, actions[p].id);
      }
    }
    NoLeak(states, actions, j, c);
  }

  /** And what such a fill overwrites is stored, without TTL and unnamed, in every later state. */
  lemma LeakedInRun(states: seq<State>, actions: seq<Action>, p: nat, id: OpId, j: nat, g: GenId, i: nat)
    requires Run(states, actions) && Init(states[0]) && p < j < |states| && UnreadSwap(states, actions, p, id)
    requires id in states[p].ops && states[p].ops[id].Staging?
    requires ActiveGen(states[p].redis, states[p].ops[id].key) == Some(g)
    requires i < states[p].redis.manifests[g.key].chunkCount
    ensures Leaked(states[j], ChunkKey(g, i)) && states[j].redis.chunks[ChunkKey(g, i)].expiry == None
  {
    SwapBlindIff(states, actions, p, id);
    LeakedForGood(states, actions, p, j, g, i);
  }

  // ---- A replacement that meets no failure ----

  /** No command of `id` fails from step `f` on, before `j`. */
  ghost predicate NoFailure(actions: seq<Action>, f: nat, j: nat, id: OpId)
    requires j <= |actions|
  {
    forall k | f <= k < j :: actions[k] != Stage(id, false) && actions[k] != Swap(id, false)
  }

  lemma StagingGoesOn(s: State, a: Action, id: OpId)
    requires Enabled(s, a) && id in s.ops && s.ops[id].Staging? && s.nextOp !in s.ops
    requires a != Stage(id, false) && a != Swap(id, false) && a != Swap(id, true)
    ensures id in Apply(s, a).ops
    ensures var op, op' := s.ops[id], Apply(s, a).ops[id];
            op'.Staging? && op'.key == op.key && op'.resp == op.resp && op'.gen == op.gen
  {
  }

  /**
   From an accepted fetch on, as long as none of its commands fails, a replacement is staging the
   fetched response, until the step that publishes it.
   */
  lemma AcceptedIsPublished(
      states: seq<State>, actions: seq<Action>, f: nat, j: nat, id: OpId, key: Key, resp: Response, gen: string)
    requires Run(states, actions) && Init(states[0]) && f < j < |states| && NoFailure(actions, f, j, id)
    requires actions[f] == Fetch(id, Some(resp), gen) && AwaitsFetch(states[f], id, key, resp)
    ensures StagingOf(states[j], id, key, resp) || Published(states, actions, f, j, id, key, resp)
  {
    StepOf(states, actions, f);
    AcceptedStages(states[f], id, key, resp, gen);
    for k := f + 1 to j
      invariant StagingOf(states[k], id, key, resp) || Published(states, actions, f, k, id, key, resp)
    {
      if Published(states, actions, f, k, id, key, resp) {
        PublishedStays(states, actions, f, k + 1, id, key, resp);
      } else {
        assert actions[k] != Stage(id, false) && actions[k] != Swap(id, false);
        StagingStep(states, actions, f, k + 1, id, key, resp);
      }
    }
  }

  /** The replacement has read the manifest and may take the response. */
  predicate AwaitsFetch(s: State, id: OpId, key: Key, resp: Response) {
    id in s.ops && s.ops[id].Loaded? && s.ops[id].key == key && Accepts(s.ops[id].prev, resp)
  }

  lemma AcceptedStages(s: State, id: OpId, key: Key, resp: Response, gen: string)
    requires Enabled(s, Fetch(id, Some(resp), gen)) && AwaitsFetch(s, id, key, resp)
    ensures StagingOf(Apply(s, Fetch(id, Some(resp), gen)), id, key, resp)
  {
    FetchDecides(s, id, Some(resp), gen);
  }

  /** The replacement is staging the response. */
  predicate StagingOf(s: State, id: OpId, key: Key, resp: Response) {
    id in s.ops && s.ops[id].Staging? && s.ops[id].key == key && s.ops[id].resp == resp
  }

  /** Some step between `f` and `j` has published it. */
  ghost predicate Published(
      states: seq<State>, actions: seq<Action>, f: nat, j: nat, id: OpId, key: Key, resp: Response)
    requires Run(states, actions) && j < |states|
  {
    exists p :: f < p < j && PublishedAt(states, actions, p, id, key, resp)
  }

  lemma PublishedStays(
      states: seq<State>, actions: seq<Action>, f: nat, j: nat, id: OpId, key: Key, resp: Response)
    requires Run(states, actions) && f < j < |states| && Published(states, actions, f, j - 1, id, key, resp)
    ensures Published(states, actions, f, j, id, key, resp)
  {
    var p :| f < p < j - 1 && PublishedAt(states, actions, p, id, key, resp);
  }

  lemma StagingStep(
      states: seq<State>, actions: seq<Action>, f: nat, j: nat, id: OpId, key: Key, resp: Response)
    requires Run(states, actions) && Init(states[0]) && f + 1 < j < |states| && StagingOf(states[j - 1], id, key, resp)
    requires actions[j - 1] != Stage(id, false) && actions[j - 1] != Swap(id, false)
    ensures StagingOf(states[j], id, key, resp) || Published(states, actions, f, j, id, key, resp)
  {
    var s, a := states[j - 1], actions[j - 1];
    StepOf(states, actions, j - 1);
    if a == Swap(id, true) {
      ReachedBy(states, actions, j - 1);
      StepRefinesMap(s, a, key);
      assert PublishedAt(states, actions, j - 1, id, key, resp);
    } else {
      assert s.nextOp !in s.ops by { RunKeepsInv(states, actions, j - 1); }
      StagingGoesOn(s, a, id);
    }
  }

  /** The response may replace what the replacement read: it is not known to be empty, or nothing
    * known to be non-empty was read. */
  predicate Accepts(prev: Option<Manifest>, resp: Response) {
    !(prev.Some? && prev.value.itemCountKnown && prev.value.itemCount > 0 && resp.itemCountKnown && resp.itemCount == 0)
  }

  /** After step `p` the key reads the response (one without bytes cannot be read). */
  ghost predicate PublishedAt(
      states: seq<State>, actions: seq<Action>, p: nat, id: OpId, key: Key, resp: Response)
    requires Run(states, actions) && p < |actions|
  {
    && actions[p] == Swap(id, true)
    && Entry(states[p + 1].redis, key) == if resp.body == [] then None else Some(resp)
  }

  /**
   A replacement in which every command succeeds ends with the key reading the response it fetched,
   unless that is known to be empty and the manifest stored when it read counted items.
   */
  lemma ReplacementPublishes(
      states: seq<State>, actions: seq<Action>, i: nat, f: nat, j: nat, id: OpId, resp: Response, gen: string)
    requires Run(states, actions) && Init(states[0]) && i < f < j < |states|
    requires actions[i] == Load(id, true) && actions[f] == Fetch(id, Some(resp), gen)
    requires id in states[f].ops && states[f].ops[id].Loaded?
    requires Accepts(Lookup(states[i].redis.manifests, states[f].ops[id].key), resp) || FillStarted(states, actions, f, id)
    requires NoFailure(actions, f, j, id) && (id in states[j].ops ==> !states[j].ops[id].Staging?)
    ensures Published(states, actions, f, j, id, states[f].ops[id].key, resp)
  {
    GoesOnOnlyIf(states, actions, i, f, id, true);
    AcceptedIsPublished(states, actions, f, j, id, states[f].ops[id].key, resp, gen);
  }

  // ---- A get that meets no failure ----

  /** The get neither fails nor is its answer released after step `p`, before `j`. */
  ghost predicate Undisturbed(actions: seq<Action>, p: nat, j: nat, id: OpId)
    requires j <= |actions|
  {
    forall k | p < k < j :: actions[k] != GetAbort(id) && actions[k] != Release(id)
  }

  /** How many chunks the get has read by then. */
  function ChunkReads(actions: seq<Action>, p: nat, j: nat, id: OpId): nat
    requires p < j <= |actions|
    decreases j
  {
    if j == p + 1 then 0 else ChunkReads(actions, p, j - 1, id) + if actions[j - 1] == GetChunk(id) then 1 else 0
  }

  /** A get of chunked entry `m` that has read `n` chunks: answered once it has read them all. */
  predicate GetAt(s: State, id: OpId, key: Key, m: Manifest, n: nat) {
    && id in s.ops
    && if n < m.chunkCount then s.ops[id].Reading? && s.ops[id].key == key && s.ops[id].man == m && s.ops[id].next == n
       else s.ops[id].Holding? && s.ops[id].key == key && s.ops[id].man == m
  }

  lemma PinStarts(s: State, key: Key)
    requires key in s.redis.manifests && Leasable(s.redis.manifests[key])
    ensures GetAt(Apply(s, GetPin(key)), s.nextOp, key, s.redis.manifests[key], 0)
  {
  }

  lemma GetGoesOn(s: State, a: Action, id: OpId, key: Key, m: Manifest, n: nat)
    requires Enabled(s, a) && GetAt(s, id, key, m, n) && s.nextOp !in s.ops
    requires a != GetAbort(id) && a != Release(id)
    ensures GetAt(Apply(s, a), id, key, m, if a == GetChunk(id) then n + 1 else n)
  {
  }

  lemma GetStep(states: seq<State>, actions: seq<Action>, p: nat, k: nat, id: OpId, key: Key, m: Manifest)
    requires Run(states, actions) && Init(states[0]) && p < k < |actions|
    requires actions[k] != GetAbort(id) && actions[k] != Release(id)
    requires GetAt(states[k], id, key, m, ChunkReads(actions, p, k, id))
    ensures GetAt(states[k + 1], id, key, m, ChunkReads(actions, p, k + 1, id))
  {
    StepOf(states, actions, k);
    assert states[k].nextOp !in states[k].ops by { RunKeepsInv(states, actions, k); }
    GetGoesOn(states[k], actions[k], id, key, m, ChunkReads(actions, p, k, id));
  }

  lemma GetReads(states: seq<State>, actions: seq<Action>, p: nat, j: nat, key: Key)
    requires Run(states, actions) && Init(states[0]) && p < j < |states| && actions[p] == GetPin(key)
    requires key in states[p].redis.manifests && Leasable(states[p].redis.manifests[key])
    requires Undisturbed(actions, p, j, states[p].nextOp)
    ensures var id := states[p].nextOp;
            GetAt(states[j], id, key, states[p].redis.manifests[key], ChunkReads(actions, p, j, id))
  {
    var id, m := states[p].nextOp, states[p].redis.manifests[key];
    StepOf(states, actions, p);
    PinStarts(states[p], key);
    for k := p + 1 to j
      invariant GetAt(states[k], id, key, m, ChunkReads(actions, p, k, id))
    {
      assert actions[k] != GetAbort(id) && actions[k] != Release(id);
      GetStep(states, actions, p, k, id, key, m);
    }
  }

  /**
   In every run a get that meets no failure is answered, with the entry stored when it pinned the
   manifest, as soon as it has read as many chunks as the manifest names; until then it is reading.
   */
  lemma GetAnswers(states: seq<State>, actions: seq<Action>, p: nat, j: nat, key: Key)
    requires Run(states, actions) && Init(states[0]) && p < j < |states| && actions[p] == GetPin(key)
    requires key in states[p].redis.manifests && Leasable(states[p].redis.manifests[key])
    requires Undisturbed(actions, p, j, states[p].nextOp)
    ensures var id, m := states[p].nextOp, states[p].redis.manifests[key];
            if ChunkReads(actions, p, j, id) < m.chunkCount then id in states[j].ops && states[j].ops[id].Reading?
            else id in states[j].ops && states[j].ops[id].Holding?
                 && Entry(states[p].redis, key) == Some(ResponseFrom(m, states[j].ops[id].body))
  {
    GetReads(states, actions, p, j, key);
    if ChunkReads(actions, p, j, states[p].nextOp) >= states[p].redis.manifests[key].chunkCount {
      HitIsSnapshot(states, actions, p, j, key);
    }
  }

  /** An old-style entry answers with its body field. */
  lemma LegacyAnswers(s: State, id: OpId)
    requires Reachable(s) && Enabled(s, GetLegacyBody(id, true))
    requires s.ops[id].key in s.redis.manifests && s.redis.manifests[s.ops[id].key].legacyBody.Some?
    ensures var op := Apply(s, GetLegacyBody(id, true)).ops[id];
            op.Holding? && Entry(s.redis, s.ops[id].key) == Some(ResponseFrom(op.man, op.body))
  {
    ReachableInv(s);
    assert OpTrue(s.redis, s.book, s.hist, id, s.ops[id]);
  }

  // ---- Locks and fallback TTLs ----

  /** Releasing a lock frees the operation's own, and ends the operation. */
  lemma UnlockFrees(s: State, id: OpId)
    requires Enabled(s, Unlock(id))
    ensures id !in Apply(s, Unlock(id)).ops
    ensures OwnsLock(s.redis, s.ops[id].key, id) ==> s.ops[id].key !in Apply(s, Unlock(id)).redis.locks
  {
  }

  /** A chunk of a given-up generation gets an hour to live, and no other chunk changes. */
  lemma ExpireSetsFallback(s: State, id: OpId, c: ChunkKey)
    requires Enabled(s, Expire(id, true)) && s.ops[id].next < s.ops[id].count && c in s.redis.chunks
    ensures c in Apply(s, Expire(id, true)).redis.chunks
    ensures Apply(s, Expire(id, true)).redis.chunks[c]
         == if c == ChunkKey(s.ops[id].gid, s.ops[id].next)
            then Chunk(s.redis.chunks[c].data, Some(s.redis.now + 60 * 60)) else s.redis.chunks[c]
  {
  }
}
