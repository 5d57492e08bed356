/**
 The cache as a transition system. One action is one Redis command or one critical
 section of the Manager's mutex; actions of different operations interleave freely.
 The same Redis and lease-book functions specify the methods of `CacheManager.Manager`.
 */
module CacheProtocol {
  import opened Prelude
  import opened CacheState

  // ---- Redis commands ----

  predicate Expired(c: Chunk, now: nat) {
    c.expiry.Some? && c.expiry.value <= now
  }

  /** Time passes; keys whose TTL ran out disappear. */
  function Elapse(r: Redis, d: nat): Redis {
    var now := r.now + d;
    r.(now := now,
       chunks := map c | c in r.chunks && !Expired(r.chunks[c], now) :: r.chunks[c],
       locks := map k | k in r.locks && now < r.locks[k].expiry :: r.locks[k])
  }

  /** SET chunk EX stagingGenerationTTL. */
  function SetStaged(r: Redis, c: ChunkKey, data: Bytes): Redis {
    r.(chunks := r.chunks[c := Chunk(data, Some(r.now + STAGING_TTL))])
  }

  /** EXPIRE chunk retiredGenerationFallbackTTL; nothing happens when the chunk is gone. */
  function SetFallback(r: Redis, c: ChunkKey): Redis {
    if c in r.chunks then
      r.(chunks := r.chunks[c := r.chunks[c].(expiry := Some(r.now + FALLBACK_TTL))])
    else r
  }

  /** DEL chunk. */
  function DelChunk(r: Redis, c: ChunkKey): Redis {
    r.(chunks := r.chunks - {c})
  }

  /** The EXISTS loop of the publish script. */
  predicate AllStaged(r: Redis, g: GenId, count: nat) {
    forall i: nat | i < count :: ChunkKey(g, i) in r.chunks
  }

  /** The rest of the publish script: PERSIST every chunk, HSET the manifest, HDEL `body`. */
  function SwitchTo(r: Redis, g: GenId, resp: Response): Redis {
    r.(chunks := map c | c in r.chunks ::
         if c.gid == g && c.index < ChunkCount(|resp.body|) then r.chunks[c].(expiry := None) else r.chunks[c],
       manifests := r.manifests[g.key := ManifestFor(resp, g.gen)])
  }

  /** DEL manifest. */
  function DelManifest(r: Redis, key: Key): Redis {
    r.(manifests := r.manifests - {key})
  }

  /** SETNX lock owner EX lockTTL. */
  function TakeLock(r: Redis, key: Key, id: OpId): Redis {
    if key in r.locks then r else r.(locks := r.locks[key := Lock(id, r.now + LOCK_TTL)])
  }

  /** The compare-and-delete script that frees a lock. */
  function FreeLock(r: Redis, key: Key, id: OpId): Redis {
    if key in r.locks && r.locks[key].owner == id then r.(locks := r.locks - {key}) else r
  }

  predicate OwnsLock(r: Redis, key: Key, id: OpId) {
    key in r.locks && r.locks[key].owner == id
  }

  // ---- The lease book ----

  function Pin(b: Book, g: GenId): Book {
    b.(readers := b.readers[g := ReaderCount(b, g) + 1])
  }

  /** releaseGenerationReader: the last reader out takes the generation off the retired list. */
  function Unpin(b: Book, g: GenId): Book {
    if ReaderCount(b, g) > 1 then b.(readers := b.readers[g := b.readers[g] - 1])
    else Book(b.readers - {g}, b.retired - {g})
  }

  /** The chunk count the last reader out must clean, if the generation is retired. */
  function UnpinCleans(b: Book, g: GenId): Option<nat> {
    if ReaderCount(b, g) <= 1 then Lookup(b.retired, g) else None
  }

  /** Giving up a generation: it waits for its readers if it has any. */
  function Retire(b: Book, g: GenId, count: nat): Book {
    if ReaderCount(b, g) > 0 then b.(retired := b.retired[g := count]) else b
  }

  /** What the operation that gave up a generation does next. */
  function AfterRetire(b: Book, g: GenId, count: nat): Op {
    if ReaderCount(b, g) > 0 then Expiring(g, count, 0) else Cleaning(g, count, 0, true)
  }

  // ---- Actions ----

  datatype Action =
    | Tick(d: nat)
    | GetPin(key: Key)                      // m.mu: read the manifest, count the reader
    | GetChunk(id: OpId)                    // GET one chunk; the last one completes the hit
    | GetAbort(id: OpId)                    // a chunk read failed: give the lease back
    | GetLegacyBody(id: OpId, ok: bool)     // HGET body
    | Release(id: OpId)                     // Response.Release of a hit
    | Acquire(kind: Kind, key: Key, deadline: nat)
    | Load(id: OpId, ok: bool)              // loadManifest; ok is false when it reports an error
    | Fetch(id: OpId, result: Option<Response>, gen: string)
    | Stage(id: OpId, ok: bool)             // SET one chunk
    | Swap(id: OpId, ok: bool)              // m.mu: publish script and retirement of the old generation
    | AcquireRemove(key: Key)
    | RemoveCut(id: OpId, ok: bool)         // m.mu: read and delete the manifest, retire its generation
    | Expire(id: OpId, ok: bool)            // EXPIRE one chunk
    | Clean(id: OpId, ok: bool)             // DEL one chunk
    | Unlock(id: OpId)

  /** The context of a replacement still lets it talk to Redis. */
  predicate InTime(s: State, deadline: nat) {
    s.redis.now < deadline
  }

  predicate Enabled(s: State, a: Action) {
    match a
    case Tick(_) => true
    case GetPin(_) => true
    case GetChunk(id) =>
      && id in s.ops && s.ops[id].Reading?
      && ChunkKey(GenOf(s.ops[id].key, s.ops[id].man), s.ops[id].next) in s.redis.chunks
    case GetAbort(id) => id in s.ops && s.ops[id].Reading?
    case GetLegacyBody(id, _) => id in s.ops && s.ops[id].ReadingLegacy?
    case Release(id) => id in s.ops && s.ops[id].Holding?
    case Acquire(_, _, deadline) => s.redis.now < deadline <= s.redis.now + FETCH_TIMEOUT
    case Load(id, ok) => id in s.ops && s.ops[id].Locked? && (ok ==> InTime(s, s.ops[id].deadline))
    case Fetch(id, _, gen) =>
      // newID never repeats an identifier
      id in s.ops && s.ops[id].Loaded? && gen != "" && GenId(s.ops[id].key, gen) !in s.hist.made
    case Stage(id, ok) =>
      && id in s.ops && s.ops[id].Staging?
      && s.ops[id].next < ChunkCount(|s.ops[id].resp.body|)
      && (ok ==> InTime(s, s.ops[id].deadline))
    case Swap(id, ok) =>
      && id in s.ops && s.ops[id].Staging?
      && s.ops[id].next == ChunkCount(|s.ops[id].resp.body|)
      && (ok ==> InTime(s, s.ops[id].deadline) && AllStaged(s.redis, StagedGen(s.ops[id]), s.ops[id].next))
    case AcquireRemove(_) => true
    case RemoveCut(id, _) => id in s.ops && s.ops[id].Removing?
    case Expire(id, _) => id in s.ops && s.ops[id].Expiring?
    case Clean(id, _) => id in s.ops && s.ops[id].Cleaning?
    case Unlock(id) => id in s.ops && s.ops[id].Unlocking?
  }

  function StagedGen(op: Op): GenId
    requires op.Staging?
  {
    GenId(op.key, op.gen)
  }

  function Begin(s: State, r: Redis, b: Book, op: Op): State {
    s.(redis := r, book := b, ops := s.ops[s.nextOp := op], nextOp := s.nextOp + 1)
  }

  function Become(s: State, id: OpId, op: Op): State {
    s.(ops := s.ops[id := op])
  }

  function End(s: State, id: OpId): State {
    s.(ops := s.ops - {id})
  }

  /** A generation is given up for good; the first time counts. */
  function Bury(h: History, g: GenId, now: nat): History {
    if g in h.dead then h else h.(dead := h.dead[g := now])
  }

  function ChunkKeys(g: GenId, count: nat): set<ChunkKey> {
    set i: nat | i < count :: ChunkKey(g, i)
  }

  function ApplyGetPin(s: State, key: Key): State {
    if key !in s.redis.manifests then s
    else
      var man := s.redis.manifests[key];
      if Leasable(man) then Begin(s, s.redis, Pin(s.book, GenOf(key, man)), Reading(key, man, 0, []))
      else Begin(s, s.redis, s.book, ReadingLegacy(key, man))
  }

  function ApplyGetChunk(s: State, id: OpId): State
    requires Enabled(s, GetChunk(id))
  {
    var op := s.ops[id];
    var acc := op.acc + s.redis.chunks[ChunkKey(GenOf(op.key, op.man), op.next)].data;
    if op.next + 1 < op.man.chunkCount then Become(s, id, Reading(op.key, op.man, op.next + 1, acc))
    else Become(s, id, Holding(op.key, op.man, acc))
  }

  /** The lease of operation `id` on `g` ends; a retired generation is then cleaned. */
  function ApplyUnpin(s: State, id: OpId, g: GenId): State {
    var s' := s.(book := Unpin(s.book, g));
    match UnpinCleans(s.book, g)
    case Some(count) => Become(s', id, Cleaning(g, count, 0, false))
    case None => End(s', id)
  }

  function ApplyGetLegacyBody(s: State, id: OpId, ok: bool): State
    requires Enabled(s, GetLegacyBody(id, ok))
  {
    var op := s.ops[id];
    if ok && op.key in s.redis.manifests && s.redis.manifests[op.key].legacyBody.Some? then
      Become(s, id, Holding(op.key, op.man, s.redis.manifests[op.key].legacyBody.value))
    else End(s, id)
  }

  function ApplyRelease(s: State, id: OpId): State
    requires Enabled(s, Release(id))
  {
    var op := s.ops[id];
    if Leasable(op.man) then ApplyUnpin(s, id, GenOf(op.key, op.man)) else End(s, id)
  }

  function ApplyAcquire(s: State, key: Key, op: Op): State {
    if key in s.redis.locks then s else Begin(s, TakeLock(s.redis, key, s.nextOp), s.book, op)
  }

  function ApplyLoad(s: State, id: OpId, ok: bool): State
    requires Enabled(s, Load(id, ok))
  {
    var op := s.ops[id];
    var found := Lookup(s.redis.manifests, op.key);
    match op.kind
    case Replace =>
      if ok then Become(s, id, Loaded(op.key, op.deadline, found, false)) else Become(s, id, Unlocking(op.key))
    case Fill =>
      // a load error is ignored: the fill goes on as if nothing were stored
      if ok && found.Some? then Become(s, id, Unlocking(op.key))
      else Become(s, id, Loaded(op.key, op.deadline, None, !ok))
  }

  function ApplyFetch(s: State, id: OpId, result: Option<Response>, gen: string): State
    requires Enabled(s, Fetch(id, result, gen))
  {
    var op := s.ops[id];
    if result.None? || (op.prev.Some? && KnownNonEmpty(op.prev.value) && KnownEmpty(result.value)) then
      Become(s, id, Unlocking(op.key))
    else
      var s' := Become(s, id, Staging(op.key, op.deadline, op.prev, op.blind, gen, result.value, 0));
      s'.(hist := s.hist.(made := s.hist.made[GenId(op.key, gen) := Made(result.value, id)]))
  }

  /** Staging failed after `count` chunks: delete them, then unlock. */
  function GiveUpStaged(s: State, id: OpId, count: nat): State
    requires id in s.ops && s.ops[id].Staging?
  {
    var g := StagedGen(s.ops[id]);
    Become(s, id, Cleaning(g, count, 0, true)).(hist := Bury(s.hist, g, s.redis.now))
  }

  function ApplyStage(s: State, id: OpId, ok: bool): State
    requires Enabled(s, Stage(id, ok))
  {
    var op := s.ops[id];
    if ok then
      Become(s, id, Staging(op.key, op.deadline, op.prev, op.blind, op.gen, op.resp, op.next + 1)).(
        redis := SetStaged(s.redis, ChunkKey(StagedGen(op), op.next), ChunkSlice(op.resp.body, op.next)))
    else GiveUpStaged(s, id, op.next)
  }

  /** The generation the current manifest of a key leases, if any. */
  function ActiveGen(r: Redis, key: Key): Option<GenId> {
    if key in r.manifests && Leasable(r.manifests[key]) then Some(GenOf(key, r.manifests[key])) else None
  }

  function ApplySwap(s: State, id: OpId, ok: bool): State
    requires Enabled(s, Swap(id, ok))
  {
    var op := s.ops[id];
    if !ok then GiveUpStaged(s, id, op.next)
    else
      var r := SwitchTo(s.redis, StagedGen(op), op.resp);
      // history: whatever the swap overwrites without retiring it is orphaned
      var victim := ActiveGen(s.redis, op.key);
      var known := if op.prev.Some? && Leasable(op.prev.value) then Some(GenOf(op.key, op.prev.value)) else None;
      var h := if victim.Some? then Bury(s.hist, victim.value, s.redis.now) else s.hist;
      var h' :=
        if victim.Some? && known != victim
        then h.(orphans := h.orphans + ChunkKeys(victim.value, s.redis.manifests[op.key].chunkCount))
        else h;
      match known
      case Some(g) =>
        Become(s, id, AfterRetire(s.book, g, op.prev.value.chunkCount)).(
          redis := r, book := Retire(s.book, g, op.prev.value.chunkCount), hist := h')
      case None => Become(s, id, Unlocking(op.key)).(redis := r, hist := h')
  }

  function ApplyRemoveCut(s: State, id: OpId, ok: bool): State
    requires Enabled(s, RemoveCut(id, ok))
  {
    var key := s.ops[id].key;
    if !ok then Become(s, id, Unlocking(key))
    else
      var r := DelManifest(s.redis, key);
      var h := if OwnsLock(s.redis, key, id) then s.hist
               else s.hist.(lateRemoves := s.hist.lateRemoves + {key});
      match ActiveGen(s.redis, key)
      case Some(g) =>
        var count := s.redis.manifests[key].chunkCount;
        Become(s, id, AfterRetire(s.book, g, count)).(
          redis := r, book := Retire(s.book, g, count), hist := Bury(h, g, s.redis.now))
      case None => Become(s, id, Unlocking(key)).(redis := r, hist := h)
  }

  function ApplyExpire(s: State, id: OpId, ok: bool): State
    requires Enabled(s, Expire(id, ok))
  {
    var op := s.ops[id];
    if op.next >= op.count then Become(s, id, Unlocking(op.gid.key))
    else
      Become(s, id, Expiring(op.gid, op.count, op.next + 1)).(
        redis := if ok then SetFallback(s.redis, ChunkKey(op.gid, op.next)) else s.redis)
  }

  function ApplyClean(s: State, id: OpId, ok: bool): State
    requires Enabled(s, Clean(id, ok))
  {
    var op := s.ops[id];
    var c := ChunkKey(op.gid, op.next);
    if op.next >= op.count then
      if op.unlock then Become(s, id, Unlocking(op.gid.key)) else End(s, id)
    else
      var s' := Become(s, id, Cleaning(op.gid, op.count, op.next + 1, op.unlock));
      if ok then s'.(redis := DelChunk(s.redis, c))
      else s'.(hist := s.hist.(orphans := s.hist.orphans + {c}))
  }

  function Apply(s: State, a: Action): State
    requires Enabled(s, a)
  {
    match a
    case Tick(d) => s.(redis := Elapse(s.redis, d))
    case GetPin(key) => ApplyGetPin(s, key)
    case GetChunk(id) => ApplyGetChunk(s, id)
    case GetAbort(id) => ApplyUnpin(s, id, GenOf(s.ops[id].key, s.ops[id].man))
    case GetLegacyBody(id, ok) => ApplyGetLegacyBody(s, id, ok)
    case Release(id) => ApplyRelease(s, id)
    case Acquire(kind, key, deadline) => ApplyAcquire(s, key, Locked(kind, key, deadline))
    case Load(id, ok) => ApplyLoad(s, id, ok)
    case Fetch(id, result, gen) => ApplyFetch(s, id, result, gen)
    case Stage(id, ok) => ApplyStage(s, id, ok)
    case Swap(id, ok) => ApplySwap(s, id, ok)
    case AcquireRemove(key) => ApplyAcquire(s, key, Removing(key))
    case RemoveCut(id, ok) => ApplyRemoveCut(s, id, ok)
    case Expire(id, ok) => ApplyExpire(s, id, ok)
    case Clean(id, ok) => ApplyClean(s, id, ok)
    case Unlock(id) => End(s, id).(redis := FreeLock(s.redis, s.ops[id].key, id))
  }

  // ---- Runs ----

  /** `states` is a run under `actions`: each state follows from the one before. */
  ghost predicate Run(states: seq<State>, actions: seq<Action>) {
    && |states| == |actions| + 1
    && forall i | 0 <= i < |actions| :: Enabled(states[i], actions[i]) && states[i + 1] == Apply(states[i], actions[i])
  }
}
