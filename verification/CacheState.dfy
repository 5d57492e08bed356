/**
 State of the generational metadata cache: what Redis holds, what the Manager
 holds under its mutex, and the operations that are in flight.
 */
module CacheState {
  import opened Prelude

  type Key = string
  type OpId = nat

  // Durations in seconds.
  const FETCH_TIMEOUT: nat := 30 * 60
  const LOCK_TTL: nat := 35 * 60
  const STAGING_TTL: nat := 2 * 60 * 60
  const FALLBACK_TTL: nat := 60 * 60

  const BODY_CHUNK_SIZE: nat := 8 * 1024 * 1024

  /** What the provider returned, and what a cache hit hands to its caller. */
  datatype Response = Response(status: int, contentType: string, body: Bytes, itemCount: int, itemCountKnown: bool)

  /** The Redis hash stored under a cache key. `legacyBody` is its old `body` field. */
  datatype Manifest = Manifest(
    status: int, contentType: string, itemCount: int, itemCountKnown: bool,
    generation: string, chunkCount: nat, legacyBody: Option<Bytes>)

  /** A generation of a key; also the Manager's lease key. */
  datatype GenId = GenId(key: Key, gen: string)

  /** Redis key of one body chunk. */
  datatype ChunkKey = ChunkKey(gid: GenId, index: nat)

  /** A stored chunk; it vanishes when the clock reaches `expiry`. */
  datatype Chunk = Chunk(data: Bytes, expiry: Option<nat>)

  datatype Lock = Lock(owner: OpId, expiry: nat)

  datatype Redis = Redis(
    now: nat,
    manifests: map<Key, Manifest>,
    chunks: map<ChunkKey, Chunk>,
    locks: map<Key, Lock>)

  /** The Manager's lease book: `m.readers` and `m.retired` (with the chunk count to clean). */
  datatype Book = Book(readers: map<GenId, nat>, retired: map<GenId, nat>)

  datatype Kind = Replace | Fill

  /** One in-flight operation and where it stands. */
  datatype Op =
    // get: pinned and reading chunks; reading the old `body` field; answered, lease not yet released
    | Reading(key: Key, man: Manifest, next: nat, acc: Bytes)
    | ReadingLegacy(key: Key, man: Manifest)
    | Holding(key: Key, man: Manifest, body: Bytes)
    // replaceWithSpec and refillMissing: lock taken; manifest read; chunks being staged
    | Locked(kind: Kind, key: Key, deadline: nat)
    | Loaded(key: Key, deadline: nat, prev: Option<Manifest>, blind: bool)
    | Staging(key: Key, deadline: nat, prev: Option<Manifest>, blind: bool, gen: string, resp: Response, next: nat)
    // Remove: lock taken
    | Removing(key: Key)
    // shared tails: put the fallback TTL, delete chunks, release the lock
    | Expiring(gid: GenId, count: nat, next: nat)
    | Cleaning(gid: GenId, count: nat, next: nat, unlock: bool)
    | Unlocking(key: Key)

  /** A generation that was ever created: the response it holds and the operation that staged it. */
  datatype Made = Made(resp: Response, maker: OpId)

  /**
   History: never read by an operation, only by the properties.
   `dead` says when a generation was given up, `orphans` are chunks nobody is left to delete,
   `lateRemoves` are keys on which a Remove ran without holding its lock any more.
   */
  datatype History = History(
    made: map<GenId, Made>,
    dead: map<GenId, nat>,
    orphans: set<ChunkKey>,
    lateRemoves: set<Key>)

  datatype State = State(redis: Redis, book: Book, ops: map<OpId, Op>, nextOp: nat, hist: History)

  // ---- Chunking of a body ----

  function ChunkCount(size: nat): nat {
    (size + BODY_CHUNK_SIZE - 1) / BODY_CHUNK_SIZE
  }

  /** The first `i` chunks of a body. */
  function ChunkPrefix(body: Bytes, i: nat): Bytes {
    body[..Min(i * BODY_CHUNK_SIZE, |body|)]
  }

  /** Chunk `i` of a body: `body[i*size .. min((i+1)*size, len)]`. */
  function ChunkSlice(body: Bytes, i: nat): Bytes
    requires i < ChunkCount(|body|)
  {
    body[i * BODY_CHUNK_SIZE..Min((i + 1) * BODY_CHUNK_SIZE, |body|)]
  }

  lemma PrefixThenSlice(body: Bytes, i: nat)
    requires i < ChunkCount(|body|)
    ensures ChunkPrefix(body, i) + ChunkSlice(body, i) == ChunkPrefix(body, i + 1)
  {
  }

  lemma WholeBody(body: Bytes)
    ensures ChunkPrefix(body, 0) == []
    ensures ChunkPrefix(body, ChunkCount(|body|)) == body
    ensures ChunkCount(|body|) == 0 <==> body == []
  {
  }

  // ---- Manifests and generations ----

  /** A manifest whose body lives in chunks; only such a manifest is leased. */
  predicate Leasable(m: Manifest) {
    m.generation != "" && m.chunkCount > 0
  }

  function GenOf(key: Key, m: Manifest): GenId {
    GenId(key, m.generation)
  }

  predicate Active(r: Redis, g: GenId) {
    g.key in r.manifests && Leasable(r.manifests[g.key]) && r.manifests[g.key].generation == g.gen
  }

  function ManifestFor(resp: Response, gen: string): Manifest {
    Manifest(resp.status, resp.contentType, resp.itemCount, resp.itemCountKnown, gen, ChunkCount(|resp.body|), None)
  }

  function ResponseFrom(m: Manifest, body: Bytes): Response {
    Response(m.status, m.contentType, body, m.itemCount, m.itemCountKnown)
  }

  predicate KnownNonEmpty(m: Manifest) {
    m.itemCountKnown && m.itemCount > 0
  }

  predicate KnownEmpty(resp: Response) {
    resp.itemCountKnown && resp.itemCount == 0
  }

  // ---- Leases ----

  function LeaseOf(op: Op): Option<GenId> {
    match op
    case Reading(key, man, _, _) => Some(GenOf(key, man))
    case Holding(key, man, _) => if Leasable(man) then Some(GenOf(key, man)) else None
    case _ => None
  }

  function Holders(ops: map<OpId, Op>, g: GenId): set<OpId> {
    set id | id in ops && LeaseOf(ops[id]) == Some(g)
  }

  function ReaderCount(b: Book, g: GenId): nat {
    if g in b.readers then b.readers[g] else 0
  }
}
