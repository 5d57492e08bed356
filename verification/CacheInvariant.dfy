/** The inductive invariant of the cache protocol and the states it may start from. */
module CacheInvariant {
  import opened Prelude
  import opened CacheState
  import opened CacheProtocol

  function MadeCount(h: History, g: GenId): nat
    requires g in h.made
  {
    ChunkCount(|h.made[g].resp.body|)
  }

  /** `m` is exactly the manifest published for the response made under `GenOf(key, m)`. */
  predicate Describes(h: History, key: Key, m: Manifest) {
    GenOf(key, m) in h.made && m == ManifestFor(h.made[GenOf(key, m)].resp, m.generation)
  }

  // ---- Redis ----

  /** Every stored chunk is the right slice of the body its generation was made from. */
  ghost predicate ChunksTrue(r: Redis, h: History) {
    forall c | c in r.chunks ::
      && c.gid in h.made
      && c.index < MadeCount(h, c.gid)
      && r.chunks[c].data == ChunkSlice(h.made[c.gid].resp.body, c.index)
  }

  /** All chunks of `g` are stored and none carries a TTL. */
  ghost predicate Persisted(r: Redis, g: GenId, count: nat) {
    forall i: nat | i < count :: ChunkKey(g, i) in r.chunks && r.chunks[ChunkKey(g, i)].expiry == None
  }

  /** A manifest that names chunks is backed by all of them, none with a TTL. */
  ghost predicate ActiveWhole(r: Redis, h: History) {
    forall k | k in r.manifests && Leasable(r.manifests[k]) ::
      && Describes(h, k, r.manifests[k])
      && GenOf(k, r.manifests[k]) !in h.dead
      && Persisted(r, GenOf(k, r.manifests[k]), r.manifests[k].chunkCount)
  }

  // ---- Generations given up ----

  ghost predicate DeadTrue(r: Redis, h: History) {
    && (forall g | g in h.dead :: g in h.made && h.dead[g] <= r.now)
    && (forall c | c in h.orphans :: c.gid in h.dead)
  }

  /** The crash-protection TTL of a given-up generation has run out. */
  predicate FallbackOver(r: Redis, h: History, g: GenId) {
    g in h.dead && h.dead[g] + FALLBACK_TTL <= r.now
  }

  /** A chunk a reader may still need: stored at least until the fallback TTL has run out. */
  predicate Kept(r: Redis, h: History, c: ChunkKey) {
    if c in r.chunks then
      r.chunks[c].expiry.Some? ==>
        c.gid in h.dead && h.dead[c.gid] + FALLBACK_TTL <= r.chunks[c].expiry.value
    else FallbackOver(r, h, c.gid)
  }

  // ---- The lease book ----

  ghost predicate LeasesKept(r: Redis, b: Book, h: History) {
    forall g | g in b.readers ::
      && b.readers[g] > 0
      && g in h.made
      && (Active(r, g) || g in h.dead)
      && forall i: nat | i < MadeCount(h, g) :: Kept(r, h, ChunkKey(g, i))
  }

  /** `retired` holds only given-up generations that still have a reader. */
  ghost predicate RetiredTrue(b: Book, h: History) {
    forall g | g in b.retired ::
      g in h.dead && g in h.made && g in b.readers && b.retired[g] == MadeCount(h, g)
  }

  ghost predicate World(r: Redis, b: Book, h: History) {
    ChunksTrue(r, h) && ActiveWhole(r, h) && DeadTrue(r, h) && LeasesKept(r, b, h) && RetiredTrue(b, h)
  }

  /** `readers` counts exactly the outstanding leases. */
  ghost predicate CountsTrue(b: Book, ops: map<OpId, Op>) {
    forall g: GenId :: ReaderCount(b, g) == |Holders(ops, g)|
  }

  // ---- Who will delete a chunk ----

  predicate Sweeps(op: Op, c: ChunkKey) {
    match op
    case Staging(key, _, _, _, gen, _, next) => c.gid == GenId(key, gen) && c.index < next
    case Cleaning(gid, count, next, _) => c.gid == gid && next <= c.index < count
    case _ => false
  }

  ghost predicate Swept(ops: map<OpId, Op>, c: ChunkKey) {
    exists id :: id in ops && Sweeps(ops[id], c)
  }

  /** A stored chunk is active, retired, written off, or on the list of an operation that deletes it. */
  ghost predicate Accounted(r: Redis, b: Book, h: History, ops: map<OpId, Op>, c: ChunkKey) {
    Active(r, c.gid) || c.gid in b.retired || c in h.orphans || Swept(ops, c)
  }

  ghost predicate AllAccounted(r: Redis, b: Book, h: History, ops: map<OpId, Op>) {
    forall c | c in r.chunks :: Accounted(r, b, h, ops, c)
  }

  // ---- Locks and identifiers ----

  ghost predicate IdsTrue(r: Redis, ops: map<OpId, Op>, nextOp: OpId) {
    && (forall k | k in r.locks :: r.locks[k].owner < nextOp)
    && (forall id | id in ops :: id < nextOp)
  }

  /** As long as its context is alive, a replacement owns its lock with time to spare. */
  predicate LockHeld(r: Redis, id: OpId, key: Key, deadline: nat) {
    && deadline <= r.now + FETCH_TIMEOUT
    && (r.now < deadline ==> OwnsLock(r, key, id) && deadline < r.locks[key].expiry)
  }

  // ---- In-flight operations ----

  /** The manifest read at the start is still the one stored, or a late Remove took it away. */
  predicate PrevTrue(r: Redis, h: History, key: Key, deadline: nat, prev: Option<Manifest>, blind: bool) {
    && (blind ==> prev.None?)
    && (!blind && r.now < deadline ==>
          if key in r.manifests then prev == Some(r.manifests[key])
          else prev.None? || key in h.lateRemoves)
    && (prev.Some? && Leasable(prev.value) ==>
          && Describes(h, key, prev.value)
          && (Active(r, GenOf(key, prev.value)) || GenOf(key, prev.value) in h.dead))
  }

  /** The chunks staged so far are stored and outlive the replacement. */
  ghost predicate StagedKept(r: Redis, g: GenId, count: nat, deadline: nat) {
    forall i: nat | i < count ::
      && ChunkKey(g, i) in r.chunks
      && r.chunks[ChunkKey(g, i)].expiry.Some?
      && deadline < r.chunks[ChunkKey(g, i)].expiry.value
  }

  /** A generation being staged belongs to its operation alone. */
  ghost predicate StagedTrue(r: Redis, b: Book, h: History, id: OpId, op: Op)
    requires op.Staging?
  {
    var g := StagedGen(op);
    && op.gen != ""
    && g in h.made && h.made[g] == Made(op.resp, id)
    && g !in h.dead && !Active(r, g) && g !in b.readers
    && op.next <= ChunkCount(|op.resp.body|)
    && (r.now < op.deadline ==> StagedKept(r, g, op.next, op.deadline))
    && (op.prev.Some? && KnownNonEmpty(op.prev.value) ==> !KnownEmpty(op.resp))
  }

  ghost predicate OpTrue(r: Redis, b: Book, h: History, id: OpId, op: Op) {
    match op
    case Reading(key, man, next, acc) =>
      && Leasable(man) && Describes(h, key, man)
      && next < man.chunkCount
      && acc == ChunkPrefix(h.made[GenOf(key, man)].resp.body, next)
    case ReadingLegacy(key, man) =>
      && !Leasable(man)
      && (key in r.manifests && r.manifests[key].legacyBody.Some? ==> r.manifests[key] == man)
    case Holding(key, man, body) =>
      if Leasable(man) then Describes(h, key, man) && body == h.made[GenOf(key, man)].resp.body
      else man.legacyBody == Some(body)
    case Locked(_, key, deadline) => LockHeld(r, id, key, deadline)
    case Loaded(key, deadline, prev, blind) =>
      LockHeld(r, id, key, deadline) && PrevTrue(r, h, key, deadline, prev, blind)
    case Staging(key, deadline, prev, blind, _, _, _) =>
      && LockHeld(r, id, key, deadline)
      && PrevTrue(r, h, key, deadline, prev, blind)
      && StagedTrue(r, b, h, id, op)
    case Removing(_) => true
    case Expiring(gid, _, _) => gid in h.dead
    case Cleaning(gid, _, _, _) => gid in h.dead && gid !in b.readers
    case Unlocking(_) => true
  }

  ghost predicate OpsTrue(r: Redis, b: Book, h: History, ops: map<OpId, Op>) {
    forall id | id in ops :: OpTrue(r, b, h, id, ops[id])
  }

  ghost predicate Inv(s: State) {
    && World(s.redis, s.book, s.hist)
    && CountsTrue(s.book, s.ops)
    && AllAccounted(s.redis, s.book, s.hist, s.ops)
    && IdsTrue(s.redis, s.ops, s.nextOp)
    && OpsTrue(s.redis, s.book, s.hist, s.ops)
  }

  /**
   A process that has just started: no leases, nothing in flight. Redis may hold whatever an
   earlier process left: published entries, old-style entries, locks, and abandoned chunks.
   */
  ghost predicate Init(s: State) {
    && ChunksTrue(s.redis, s.hist) && ActiveWhole(s.redis, s.hist) && DeadTrue(s.redis, s.hist)
    && (forall k | k in s.redis.locks :: s.redis.locks[k].owner < s.nextOp)
    && (forall c | c in s.redis.chunks :: Active(s.redis, c.gid) || c in s.hist.orphans)
    && s.book == Book(map[], map[])
    && s.ops == map[]
  }

  lemma InitHasInv(s: State)
    requires Init(s)
    ensures Inv(s)
  {
    forall g: GenId ensures Holders(s.ops, g) == {} {}
  }
}
