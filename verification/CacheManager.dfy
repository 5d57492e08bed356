/**
 The cache Manager as it runs: a store with Redis commands, and an object whose maps are guarded
 by one mutex. Critical sections and chunk loops are methods; each is proved equal to the protocol
 functions of `CacheProtocol`, uninterrupted. The interleaved runs are the subject of `CacheTheorems`.
 Any command may report an error; one that does has done nothing.
 */
module CacheManager {
  import opened Prelude
  import opened CacheState
  import opened CacheProtocol
  import opened CacheInvariant
  import opened CacheTheorems

  // ---- Loops over the chunks of a generation ----

  /** The first `n` chunks of `body` have been SET. */
  function Staged(r: Redis, g: GenId, body: Bytes, n: nat): Redis
    requires n <= ChunkCount(|body|)
  {
    if n == 0 then r else SetStaged(Staged(r, g, body, n - 1), ChunkKey(g, n - 1), ChunkSlice(body, n - 1))
  }

  /** The first `n` chunks of `g` have been deleted, but for those whose DEL failed. */
  function Cleaned(r: Redis, g: GenId, n: nat, failing: set<ChunkKey>): Redis {
    if n == 0 then r
    else
      var before := Cleaned(r, g, n - 1, failing);
      if ChunkKey(g, n - 1) in failing then before else DelChunk(before, ChunkKey(g, n - 1))
  }

  /** The first `n` chunks of `g` carry the fallback TTL, but for those whose EXPIRE failed. */
  function FallenBack(r: Redis, g: GenId, n: nat, failing: set<ChunkKey>): Redis {
    if n == 0 then r
    else
      var before := FallenBack(r, g, n - 1, failing);
      if ChunkKey(g, n - 1) in failing then before else SetFallback(before, ChunkKey(g, n - 1))
  }

  /** The first of chunks `i` to `n` of `g` whose command fails. */
  function FirstFailing(g: GenId, i: nat, n: nat, failing: set<ChunkKey>): (first: Option<nat>)
    requires i <= n
    ensures match first
            case None => forall j :: i <= j < n ==> ChunkKey(g, j) !in failing
            case Some(k) => i <= k < n && ChunkKey(g, k) in failing && forall j :: i <= j < k ==> ChunkKey(g, j) !in failing
    decreases n - i
  {
    if i == n then None else if ChunkKey(g, i) in failing then Some(i) else FirstFailing(g, i + 1, n, failing)
  }

  lemma {:induction false} StagedChunks(r: Redis, g: GenId, body: Bytes, n: nat)
    requires n <= ChunkCount(|body|)
    ensures var r' := Staged(r, g, body, n);
            && r'.manifests == r.manifests && r'.now == r.now && r'.locks == r.locks
            && (forall i: nat | i < n :: ChunkKey(g, i) in r'.chunks
                  && r'.chunks[ChunkKey(g, i)] == Chunk(ChunkSlice(body, i), Some(r.now + STAGING_TTL)))
            && (forall c: ChunkKey | c.gid != g || n <= c.index :: Lookup(r'.chunks, c) == Lookup(r.chunks, c))
  {
    if n > 0 { StagedChunks(r, g, body, n - 1); }
  }

  lemma {:induction false} CleanedChunks(r: Redis, g: GenId, n: nat, failing: set<ChunkKey>)
    ensures var r' := Cleaned(r, g, n, failing);
            && r'.manifests == r.manifests && r'.now == r.now && r'.locks == r.locks
            && forall c: ChunkKey :: Lookup(r'.chunks, c) ==
                 if c.gid == g && c.index < n && c !in failing then None else Lookup(r.chunks, c)
  {
    if n > 0 { CleanedChunks(r, g, n - 1, failing); }
  }

  lemma {:induction false} FallenBackChunks(r: Redis, g: GenId, n: nat, failing: set<ChunkKey>)
    ensures var r' := FallenBack(r, g, n, failing);
            && r'.manifests == r.manifests && r'.now == r.now && r'.locks == r.locks
            && r'.chunks.Keys == r.chunks.Keys
            && (forall c | c in r.chunks :: r'.chunks[c] ==
                  if c.gid == g && c.index < n && c !in failing then r.chunks[c].(expiry := Some(r.now + FALLBACK_TTL))
                  else r.chunks[c])
  {
    if n > 0 { FallenBackChunks(r, g, n - 1, failing); }
  }

  lemma {:induction false} AssembledFrom(r: Redis, g: GenId, body: Bytes, n: nat)
    requires n <= ChunkCount(|body|)
    requires forall i: nat | i < n ::
      ChunkKey(g, i) in r.chunks && r.chunks[ChunkKey(g, i)].data == ChunkSlice(body, i)
    ensures Assembled(r, g, n) == Some(ChunkPrefix(body, n))
  {
    if n == 0 {
      WholeBody(body);
    } else {
      AssembledFrom(r, g, body, n - 1);
      PrefixThenSlice(body, n - 1);
    }
  }

  /**
   Chunking round trip: staging a non-empty body of any size under a new generation and running the
   publish script makes the key read back exactly the published response.
   */
  lemma PublishedReadsBack(r: Redis, g: GenId, resp: Response)
    requires g.gen != "" && resp.body != []
    ensures var n := ChunkCount(|resp.body|);
            && AllStaged(Staged(r, g, resp.body, n), g, n)
            && Entry(SwitchTo(Staged(r, g, resp.body, n), g, resp), g.key) == Some(resp)
  {
    var n := ChunkCount(|resp.body|);
    var r1 := Staged(r, g, resp.body, n);
    StagedChunks(r, g, resp.body, n);
    AssembledFrom(SwitchTo(r1, g, resp), g, resp.body, n);
    WholeBody(resp.body);
  }

  /** A staged response is ready for the script, after which the key reads back as published. */
  lemma StagedReads(r: Redis, g: GenId, resp: Response)
    requires g.gen != ""
    ensures var r' := Staged(r, g, resp.body, ChunkCount(|resp.body|));
            && AllStaged(r', g, ChunkCount(|resp.body|))
            && Entry(SwitchTo(r', g, resp), g.key) == if resp.body == [] then None else Some(resp)
  {
    WholeBody(resp.body);
    if resp.body != [] { PublishedReadsBack(r, g, resp); }
  }

  lemma {:induction false} AssembledElsewhere(r: Redis, r': Redis, g: GenId, n: nat)
    requires forall i: nat | i < n ::
      (ChunkKey(g, i) in r.chunks <==> ChunkKey(g, i) in r'.chunks)
      && (ChunkKey(g, i) in r.chunks ==> r.chunks[ChunkKey(g, i)].data == r'.chunks[ChunkKey(g, i)].data)
    ensures Assembled(r, g, n) == Assembled(r', g, n)
  {
    if n > 0 { AssembledElsewhere(r, r', g, n - 1); }
  }

  /** Cleaning or expiring another generation does not show in an entry, whichever commands fail. */
  lemma TailKeepsEntry(r: Redis, g: GenId, n: nat, failing: set<ChunkKey>, key: Key)
    requires ActiveGen(r, key) != Some(g)
    ensures Entry(Cleaned(r, g, n, failing), key) == Entry(r, key)
    ensures Entry(FallenBack(r, g, n, failing), key) == Entry(r, key)
  {
    var r1, r2 := Cleaned(r, g, n, failing), FallenBack(r, g, n, failing);
    CleanedChunks(r, g, n, failing);
    FallenBackChunks(r, g, n, failing);
    if key in r.manifests && Leasable(r.manifests[key]) {
      var m := r.manifests[key];
      var a := GenOf(key, m);
      forall i: nat | i < m.chunkCount ensures Lookup(r1.chunks, ChunkKey(a, i)) == Lookup(r.chunks, ChunkKey(a, i)) {}
      AssembledElsewhere(r, r1, a, m.chunkCount);
      AssembledElsewhere(r, r2, a, m.chunkCount);
    }
  }

  // ---- The objects ----

  /**
   The commands that report an error while a method runs: those on a chunk by its key, the others as
   a whole (HMGET and HGET of a manifest, SETNX and release of the lock, the script, DEL of a manifest).
   */
  datatype Faults = Faults(
    staging: set<ChunkKey>, reading: set<ChunkKey>, deleting: set<ChunkKey>, expiring: set<ChunkKey>,
    load: bool, legacy: bool, lock: bool, unlock: bool, script: bool, cut: bool)

  /** Redis: what it holds, and which commands are failing. */
  class Store {
    var db: Redis
    var faults: Faults

    constructor (db: Redis, faults: Faults)
      ensures this.db == db && this.faults == faults
    {
      this.db, this.faults := db, faults;
    }
  }

  /** The release closure shared by all copies of one Response; `sync.Once` makes it count once. */
  class Lease {
    const gid: GenId
    var released: bool

    constructor (gid: GenId)
      ensures this.gid == gid && !released
    {
      this.gid := gid;
      released := false;
    }
  }

  class Manager {
    const store: Store
    var readers: map<GenId, nat>
    var retired: map<GenId, nat>
    /** When each armed refresh timer fires. */
    var timers: map<Key, int>
    /** Keys with a registered fetch recipe. */
    var specs: set<Key>

    constructor (store: Store)
      ensures this.store == store && Leases() == Book(map[], map[]) && timers == map[] && specs == {}
    {
      this.store := store;
      readers, retired, timers, specs := map[], map[], map[], {};
    }

    function Leases(): Book
      reads this
    {
      Book(readers, retired)
    }

    // ---- Chunk loops ----

    /** A failing SET gives up: what was staged is deleted again. */
    method WriteGeneration(g: GenId, body: Bytes) returns (written: Option<nat>)
      modifies store`db
      ensures match FirstFailing(g, 0, ChunkCount(|body|), store.faults.staging)
              case None =>
                written == Some(ChunkCount(|body|)) && store.db == Staged(old(store.db), g, body, ChunkCount(|body|))
              case Some(k) =>
                written == None && store.db == Cleaned(Staged(old(store.db), g, body, k), g, k, store.faults.deleting)
    {
      var count := ChunkCount(|body|);
      var i: nat := 0;
      while i < count
        invariant i <= count
        invariant FirstFailing(g, 0, count, store.faults.staging) == FirstFailing(g, i, count, store.faults.staging)
        invariant store.db == Staged(old(store.db), g, body, i)
      {
        if ChunkKey(g, i) in store.faults.staging {
          CleanupGeneration(g, i);
          return None;
        }
        store.db := SetStaged(store.db, ChunkKey(g, i), ChunkSlice(body, i));
        i := i + 1;
      }
      return Some(count);
    }

    method ReadGeneration(g: GenId, count: nat) returns (body: Option<Bytes>)
      ensures body == Fetchable(store.db, store.faults, g, count)
    {
      var buffer: Bytes := [];
      var i: nat := 0;
      while i < count
        invariant i <= count
        invariant FirstFailing(g, 0, count, store.faults.reading) == FirstFailing(g, i, count, store.faults.reading)
        invariant Assembled(store.db, g, i) == Some(buffer)
      {
        var c := ChunkKey(g, i);
        if c in store.faults.reading {
          return None;
        }
        if c !in store.db.chunks {
          MissingChunk(store.db, g, i, count);
          return None;
        }
        buffer := buffer + store.db.chunks[c].data;
        i := i + 1;
      }
      return Some(buffer);
    }

    method CleanupGeneration(g: GenId, count: nat)
      modifies store`db
      ensures store.db == Cleaned(old(store.db), g, count, store.faults.deleting)
    {
      var i: nat := 0;
      while i < count
        invariant i <= count
        invariant store.db == Cleaned(old(store.db), g, i, store.faults.deleting)
      {
        if ChunkKey(g, i) !in store.faults.deleting {
          store.db := DelChunk(store.db, ChunkKey(g, i));
        }
        i := i + 1;
      }
    }

    method ExpireGenerationFallback(g: GenId, count: nat)
      modifies store`db
      ensures store.db == FallenBack(old(store.db), g, count, store.faults.expiring)
    {
      var i: nat := 0;
      while i < count
        invariant i <= count
        invariant store.db == FallenBack(old(store.db), g, i, store.faults.expiring)
      {
        if ChunkKey(g, i) !in store.faults.expiring {
          store.db := SetFallback(store.db, ChunkKey(g, i));
        }
        i := i + 1;
      }
    }

    // ---- get and Release ----

    /** The critical section of get: select the manifest and count the reader. */
    method PinActive(key: Key) returns (man: Option<Manifest>, failed: bool)
      modifies this
      ensures failed == store.faults.load
      ensures man == if failed then None else Lookup(store.db.manifests, key)
      ensures Leases() == if man.Some? && Leasable(man.value) then Pin(old(Leases()), GenOf(key, man.value)) else old(Leases())
      ensures timers == old(timers) && specs == old(specs)
    {
      if store.faults.load {
        return None, true;
      }
      man, failed := Lookup(store.db.manifests, key), false;
      if man.Some? && Leasable(man.value) {
        var g := GenOf(key, man.value);
        readers := readers[g := (if g in readers then readers[g] else 0) + 1];
      }
    }

    /** The critical section of releaseGenerationReader, and the clean-up it may trigger. */
    method ReleaseGenerationReader(g: GenId)
      modifies this, store`db
      ensures Leases() == Unpin(old(Leases()), g)
      ensures store.db == Unpinned(old(store.db), store.faults, old(Leases()), g)
      ensures timers == old(timers) && specs == old(specs)
    {
      var cleans: Option<nat> := None;
      if g in readers && readers[g] > 1 {
        readers := readers[g := readers[g] - 1];
      } else {
        readers := readers - {g};
        if g in retired {
          cleans := Some(retired[g]);
        }
        retired := retired - {g};
      }
      if cleans.Some? {
        CleanupGeneration(g, cleans.value);
      }
    }

    /**
     A get without interference: it answers with the entry, and leases it if its body is chunked; it
     finds nothing if there is no entry, and fails if a command does or a chunk is missing. Then what
     it pinned is given back.
     */
    method Get(key: Key) returns (response: Option<Response>, failed: bool, lease: Lease?)
      modifies this, store`db
      ensures response == if GetFails(old(store.db), store.faults, key) then None else Entry(old(store.db), key)
      ensures failed == GetFails(old(store.db), store.faults, key)
      ensures lease != null <==> response.Some? && ActiveGen(old(store.db), key).Some?
      ensures lease != null ==> fresh(lease) && !lease.released && Some(lease.gid) == ActiveGen(old(store.db), key)
      ensures lease != null ==> Leases() == Pin(old(Leases()), lease.gid) && store.db == old(store.db)
      ensures lease == null ==>
        match if store.faults.load then None else ActiveGen(old(store.db), key)
        case None => Leases() == old(Leases()) && store.db == old(store.db)
        case Some(g) =>
          && Leases() == Unpin(Pin(old(Leases()), g), g)
          && store.db == Unpinned(old(store.db), store.faults, Pin(old(Leases()), g), g)
      ensures timers == old(timers) && specs == old(specs)
    {
      var man, loadFailed := PinActive(key);
      if loadFailed {
        return None, true, null;
      }
      if man == None {
        return None, false, null;
      }
      var m := man.value;
      if Leasable(m) {
        var body := ReadGeneration(GenOf(key, m), m.chunkCount);
        if body == None {
          ReleaseGenerationReader(GenOf(key, m));
          return None, true, null;
        }
        lease := new Lease(GenOf(key, m));
        return Some(ResponseFrom(m, body.value)), false, lease;
      }
      if store.faults.legacy {
        return None, true, null;
      }
      if m.legacyBody == None {
        return None, false, null;
      }
      return Some(ResponseFrom(m, m.legacyBody.value)), false, null;
    }

    /** Response.Release, through any copy of the response: the first call counts, later ones do nothing. */
    method Release(lease: Lease)
      modifies this, store`db, lease
      ensures lease.released
      ensures old(lease.released) ==> Leases() == old(Leases()) && store.db == old(store.db)
      ensures !old(lease.released) ==>
        && Leases() == Unpin(old(Leases()), lease.gid)
        && store.db == Unpinned(old(store.db), store.faults, old(Leases()), lease.gid)
    {
      if !lease.released {
        lease.released := true;
        ReleaseGenerationReader(lease.gid);
      }
    }

    // ---- Locks ----

    method Acquire(key: Key, opId: OpId) returns (locked: bool, failed: bool)
      modifies store`db
      ensures failed == store.faults.lock
      ensures locked <==> !failed && key !in old(store.db).locks
      ensures store.db == if failed then old(store.db) else TakeLock(old(store.db), key, opId)
    {
      if store.faults.lock {
        return false, true;
      }
      locked, failed := key !in store.db.locks, false;
      if locked {
        store.db := store.db.(locks := store.db.locks[key := Lock(opId, store.db.now + LOCK_TTL)]);
      }
    }

    method ReleaseLock(key: Key, opId: OpId)
      modifies store`db
      ensures store.db == if store.faults.unlock then old(store.db) else FreeLock(old(store.db), key, opId)
    {
      if !store.faults.unlock && key in store.db.locks && store.db.locks[key].owner == opId {
        store.db := store.db.(locks := store.db.locks - {key});
      }
    }

    // ---- publish ----

    /** The critical section of publish: the script, and the decision about the old generation. */
    method SwitchManifest(g: GenId, resp: Response, prev: Option<Manifest>) returns (ok: bool, tail: Option<Op>)
      modifies this, store`db
      ensures ok <==> !store.faults.script && AllStaged(old(store.db), g, ChunkCount(|resp.body|))
      ensures !ok ==> tail == None && store.db == old(store.db) && Leases() == old(Leases())
      ensures ok ==> store.db == SwitchTo(old(store.db), g, resp)
      ensures ok && (prev.None? || !Leasable(prev.value)) ==> tail == None && Leases() == old(Leases())
      ensures ok && prev.Some? && Leasable(prev.value) ==>
        && tail == Some(AfterRetire(old(Leases()), GenOf(g.key, prev.value), prev.value.chunkCount))
        && Leases() == Retire(old(Leases()), GenOf(g.key, prev.value), prev.value.chunkCount)
      ensures timers == old(timers) && specs == old(specs)
    {
      if store.faults.script {
        return false, None;
      }
      var i: nat := 0;
      while i < ChunkCount(|resp.body|)
        invariant i <= ChunkCount(|resp.body|)
        invariant AllStaged(store.db, g, i)
      {
        if ChunkKey(g, i) !in store.db.chunks {
          return false, None;
        }
        i := i + 1;
      }
      store.db := SwitchTo(store.db, g, resp);
      ok, tail := true, None;
      if prev.Some? && Leasable(prev.value) {
        var p := GenOf(g.key, prev.value);
        if p in readers && readers[p] > 0 {
          retired := retired[p := prev.value.chunkCount];
          tail := Some(Expiring(p, prev.value.chunkCount, 0));
        } else {
          tail := Some(Cleaning(p, prev.value.chunkCount, 0, true));
        }
      }
    }

    /** What happens to the generation a critical section gave up. */
    method FinishTail(tail: Option<Op>)
      requires tail.Some? ==> tail.value.Expiring? || tail.value.Cleaning?
      modifies store`db
      ensures store.db == TailOf(old(store.db), store.faults, tail)
    {
      if tail.Some? {
        if tail.value.Expiring? {
          ExpireGenerationFallback(tail.value.gid, tail.value.count);
        } else {
          CleanupGeneration(tail.value.gid, tail.value.count);
        }
      }
    }

    /**
     publish without interference. On failure nothing a reader can see has changed, and of the staged
     chunks only those are left, under the staging TTL, whose DEL failed too; on success the key reads
     back the response (a body without bytes cannot be read back).
     */
    method Publish(g: GenId, resp: Response, prev: Option<Manifest>) returns (ok: bool)
      requires g.gen != "" && (forall c | c in store.db.chunks :: c.gid != g)
      requires g.key in store.db.manifests ==> store.db.manifests[g.key].generation != g.gen
      requires prev.Some? ==> prev.value.generation != g.gen
      modifies this, store`db
      ensures ok <==> !store.faults.script && FirstFailing(g, 0, ChunkCount(|resp.body|), store.faults.staging) == None
      ensures ok ==> Entry(store.db, g.key) == if resp.body == [] then None else Some(resp)
      ensures !ok ==> Entry(store.db, g.key) == Entry(old(store.db), g.key)
      ensures !ok ==> LeftStaged(old(store.db), store.db, g, store.faults.deleting)
      ensures !ok ==> Leases() == old(Leases()) && store.db.manifests == old(store.db).manifests
      ensures ok ==> Leases() == RetirePrev(old(Leases()), g.key, prev)
      ensures ok && prev.Some? && Leasable(prev.value) && ReaderCount(old(Leases()), GenOf(g.key, prev.value)) == 0 ==>
        Gone(store.db, GenOf(g.key, prev.value), prev.value.chunkCount, store.faults.deleting)
      ensures timers == old(timers) && specs == old(specs)
    {
      var count := ChunkCount(|resp.body|);
      var written := WriteGeneration(g, resp.body);
      if written == None {
        GivenUp(old(store.db), g, resp.body, FirstFailing(g, 0, count, store.faults.staging).value, store.faults.deleting);
        return false;
      }
      StagedReads(old(store.db), g, resp);
      var tail;
      ok, tail := SwitchManifest(g, resp, prev);
      if !ok {
        CleanupGeneration(g, count);
        GivenUp(old(store.db), g, resp.body, count, store.faults.deleting);
        return;
      }
      ghost var r := store.db;
      FinishTail(tail);
      if tail.Some? {
        TailSettles(r, store.faults, tail.value, g.key);
      }
    }

    // ---- Remove ----

    /** The critical section of Remove. */
    method CutManifest(key: Key) returns (failed: bool, tail: Option<Op>)
      modifies this, store`db
      ensures failed <==> store.faults.load || store.faults.cut
      ensures failed ==> tail == None && store.db == old(store.db) && Leases() == old(Leases())
      ensures failed ==> timers == old(timers) && specs == old(specs)
      ensures !failed ==> store.db == DelManifest(old(store.db), key)
      ensures !failed ==> timers == old(timers) - {key} && specs == old(specs) - {key}
      ensures !failed ==>
              match ActiveGen(old(store.db), key)
              case None => tail == None && Leases() == old(Leases())
              case Some(g) =>
                var count := old(store.db).manifests[key].chunkCount;
                tail == Some(AfterRetire(old(Leases()), g, count)) && Leases() == Retire(old(Leases()), g, count)
    {
      if store.faults.load {
        return true, None;
      }
      var man := Lookup(store.db.manifests, key);
      if store.faults.cut {
        return true, None;
      }
      store.db := DelManifest(store.db, key);
      timers := timers - {key};
      specs := specs - {key};
      failed, tail := false, None;
      if man.Some? && Leasable(man.value) {
        var g := GenOf(key, man.value);
        if g in readers && readers[g] > 0 {
          retired := retired[g := man.value.chunkCount];
          tail := Some(Expiring(g, man.value.chunkCount, 0));
        } else {
          tail := Some(Cleaning(g, man.value.chunkCount, 0, true));
        }
      }
    }

    /**
     Remove without interference. Any error leaves everything as it was, but for a lock that could
     not be freed; a removed key reads as missing, its timer and recipe are gone, and its chunks are
     gone too unless somebody is still reading them or their DEL failed.
     */
    method Remove(key: Key, opId: OpId) returns (outcome: Removal)
      modifies this, store`db
      ensures outcome == RemovalOf(old(store.db), store.faults, key)
      ensures outcome != Removed ==> Leases() == old(Leases()) && timers == old(timers) && specs == old(specs)
      ensures outcome != Removed ==> store.db.manifests == old(store.db).manifests && store.db.chunks == old(store.db).chunks
      ensures outcome == Removed ==> Entry(store.db, key) == None && key !in timers && key !in specs
      ensures store.db.locks == if (outcome == Removed || outcome == CommandFailed) && store.faults.unlock
                                then TakeLock(old(store.db), key, opId).locks else old(store.db).locks
      ensures outcome == Removed ==> match ActiveGen(old(store.db), key)
        case None => true
        case Some(g) =>
          if ReaderCount(old(Leases()), g) == 0 then
            Gone(store.db, g, old(store.db).manifests[key].chunkCount, store.faults.deleting)
          else store.db.chunks.Keys == old(store.db).chunks.Keys && g in retired
    {
      if !IsCacheKey(key) {
        return InvalidKey;
      }
      var locked, lockFailed := Acquire(key, opId);
      if lockFailed {
        return LockFailed;
      }
      if !locked {
        return InProgress;
      }
      var failed, tail := CutManifest(key);
      if failed {
        ReleaseLock(key, opId);
        assert !store.faults.unlock ==> store.db.locks == old(store.db).locks;
        return CommandFailed;
      }
      ghost var r := store.db;
      FinishTail(tail);
      if tail.Some? {
        TailSettles(r, store.faults, tail.value, key);
      }
      ReleaseLock(key, opId);
      assert !store.faults.unlock ==> store.db.locks == old(store.db).locks;
      return Removed;
    }
  }

  const CACHE_PREFIX: string := "iptv:cache:"

  predicate IsCacheKey(key: Key) {
    |CACHE_PREFIX| <= |key| && key[..|CACHE_PREFIX|] == CACHE_PREFIX
  }

  /** How a removal ends. */
  datatype Removal = Removed | InvalidKey | LockFailed | InProgress | CommandFailed

  function RemovalOf(r: Redis, faults: Faults, key: Key): Removal {
    if !IsCacheKey(key) then InvalidKey
    else if faults.lock then LockFailed
    else if key in r.locks then InProgress
    else if faults.load || faults.cut then CommandFailed
    else Removed
  }

  /** The body that the chunks spell, if every GET succeeds. */
  function Fetchable(r: Redis, faults: Faults, g: GenId, count: nat): Option<Bytes> {
    if FirstFailing(g, 0, count, faults.reading).Some? then None else Assembled(r, g, count)
  }

  /** A get ends with an error: a command failed, or a chunk that the manifest names is missing. */
  predicate GetFails(r: Redis, faults: Faults, key: Key) {
    || faults.load
    || (key in r.manifests &&
          var m := r.manifests[key];
          if Leasable(m) then Fetchable(r, faults, GenOf(key, m), m.chunkCount) == None else faults.legacy)
  }

  /** What the end of a lease does to the store. */
  function Unpinned(r: Redis, faults: Faults, b: Book, g: GenId): Redis {
    match UnpinCleans(b, g)
    case Some(count) => Cleaned(r, g, count, faults.deleting)
    case None => r
  }

  /** No chunk of `g` is left but those whose DEL failed. */
  predicate Gone(r: Redis, g: GenId, count: nat, failing: set<ChunkKey>) {
    forall i: nat | i < count && ChunkKey(g, i) in r.chunks :: ChunkKey(g, i) in failing
  }

  /** Besides what there was, at most chunks of `g` whose DEL failed, each under the staging TTL. */
  ghost predicate LeftStaged(r: Redis, r': Redis, g: GenId, failing: set<ChunkKey>) {
    && (forall c | c in r.chunks :: c in r'.chunks && r'.chunks[c] == r.chunks[c])
    && (forall c | c in r'.chunks && c !in r.chunks ::
          c.gid == g && c in failing && r'.chunks[c].expiry == Some(r.now + STAGING_TTL))
  }

  /** What giving up a staged generation leaves. */
  lemma GivenUp(r: Redis, g: GenId, body: Bytes, n: nat, failing: set<ChunkKey>)
    requires n <= ChunkCount(|body|) && (forall c | c in r.chunks :: c.gid != g)
    requires g.key in r.manifests ==> r.manifests[g.key].generation != g.gen
    ensures var r' := Cleaned(Staged(r, g, body, n), g, n, failing);
            && r'.manifests == r.manifests && LeftStaged(r, r', g, failing)
            && Entry(r', g.key) == Entry(r, g.key)
  {
    var r1 := Staged(r, g, body, n);
    var r' := Cleaned(r1, g, n, failing);
    StagedChunks(r, g, body, n);
    CleanedChunks(r1, g, n, failing);
    forall c: ChunkKey ensures c in r.chunks ==> c in r'.chunks && r'.chunks[c] == r.chunks[c] {
      assert Lookup(r'.chunks, c) == if c.gid == g && c.index < n && c !in failing then None else Lookup(r1.chunks, c);
      assert c.gid != g ==> Lookup(r1.chunks, c) == Lookup(r.chunks, c);
    }
    forall c: ChunkKey | c in r'.chunks && c !in r.chunks
      ensures c.gid == g && c in failing && r'.chunks[c].expiry == Some(r.now + STAGING_TTL)
    {
      assert Lookup(r'.chunks, c) == if c.gid == g && c.index < n && c !in failing then None else Lookup(r1.chunks, c);
      assert c.gid != g || n <= c.index ==> Lookup(r1.chunks, c) == Lookup(r.chunks, c);
    }
    if g.key in r.manifests {
      var m := r.manifests[g.key];
      var a := GenOf(g.key, m);
      forall i: nat | i < m.chunkCount ensures Lookup(r'.chunks, ChunkKey(a, i)) == Lookup(r.chunks, ChunkKey(a, i)) {
        assert ChunkKey(a, i).gid != g;
      }
      AssembledElsewhere(r, r', a, m.chunkCount);
    }
  }

  /** What finishing a critical section leaves of the generation that was given up. */
  lemma TailSettles(r: Redis, faults: Faults, tail: Op, key: Key)
    requires tail.Expiring? || tail.Cleaning?
    requires ActiveGen(r, key) != Some(tail.gid)
    ensures var r' := TailOf(r, faults, Some(tail));
            && Entry(r', key) == Entry(r, key) && r'.locks == r.locks && r'.manifests == r.manifests
            && (tail.Cleaning? ==> Gone(r', tail.gid, tail.count, faults.deleting))
            && (tail.Expiring? ==> r'.chunks.Keys == r.chunks.Keys)
  {
    var failing := if tail.Expiring? then faults.expiring else faults.deleting;
    TailKeepsEntry(r, tail.gid, tail.count, failing, key);
    CleanedChunks(r, tail.gid, tail.count, failing);
    FallenBackChunks(r, tail.gid, tail.count, failing);
    if tail.Cleaning? {
      var r' := TailOf(r, faults, Some(tail));
      forall i: nat | i < tail.count && ChunkKey(tail.gid, i) in r'.chunks ensures ChunkKey(tail.gid, i) in failing {
        assert Lookup(r'.chunks, ChunkKey(tail.gid, i)).Some?;
      }
    }
  }

  lemma {:induction false} MissingChunk(r: Redis, g: GenId, i: nat, count: nat)
    requires i < count && ChunkKey(g, i) !in r.chunks
    ensures Assembled(r, g, count) == None
  {
    if i + 1 < count { MissingChunk(r, g, i, count - 1); }
  }

  /** What the tail of a critical section does to the store. */
  function TailOf(r: Redis, faults: Faults, tail: Option<Op>): Redis
    requires tail.Some? ==> tail.value.Expiring? || tail.value.Cleaning?
  {
    if tail == None then r
    else if tail.value.Expiring? then FallenBack(r, tail.value.gid, tail.value.count, faults.expiring)
    else Cleaned(r, tail.value.gid, tail.value.count, faults.deleting)
  }

  function RetirePrev(b: Book, key: Key, prev: Option<Manifest>): Book {
    if prev.Some? && Leasable(prev.value) then Retire(b, GenOf(key, prev.value), prev.value.chunkCount) else b
  }
}
