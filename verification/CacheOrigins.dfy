/**
 Where the operations in flight come from: every replacement traces back to the acquisition, the
 manifest read and the fetch of its run. Nothing here looks at the flags an operation carries.
 */
module CacheOrigins {
  import opened Prelude
  import opened CacheState
  import opened CacheProtocol
  import opened CacheInvariant
  import opened CachePreservation
  import opened CacheSwitching
  import opened CacheTheorems

  // ---- Steps of one operation ----

  /** Step `q` of the run starts operation `id` as a replacement of `key`. */
  ghost predicate AcquiredAt(
      states: seq<State>, actions: seq<Action>, q: int, id: OpId, kind: Kind, key: Key, deadline: nat)
    requires Run(states, actions)
  {
    && 0 <= q < |actions| && actions[q] == Acquire(kind, key, deadline)
    && states[q].nextOp == id && key !in states[q].redis.locks
  }

  /** Operation `id`, acquired as stated, tries to read its manifest at step `i`, and at no other before `j`. */
  ghost predicate LoadedAt(
      states: seq<State>, actions: seq<Action>, j: nat, id: OpId, kind: Kind, key: Key, deadline: nat, i: int, ok: bool)
    requires Run(states, actions) && j < |states|
  {
    && 0 <= i < j && actions[i] == Load(id, ok)
    && (forall k | 0 <= k < j && actions[k].Load? && actions[k].id == id :: k == i)
    && exists q :: q < i && AcquiredAt(states, actions, q, id, kind, key, deadline)
  }

  /** No read of the manifest by `id` before `j`. */
  ghost predicate Unread(actions: seq<Action>, j: nat, id: OpId)
    requires j <= |actions|
  {
    forall k | 0 <= k < j && actions[k].Load? :: actions[k].id != id
  }

  /** Some read of the manifest by `id` before `j` reported an error. */
  ghost predicate LoadFailed(actions: seq<Action>, j: nat, id: OpId)
    requires j <= |actions|
  {
    exists i :: 0 <= i < j && actions[i] == Load(id, false)
  }

  predicate BeforeSwap(op: Op) {
    op.Loaded? || op.Staging?
  }

  /** What a replacement may hold after reading the manifest at `r`: a fill goes on only if it found
    * nothing or the read failed, another replacement only if it did not fail. */
  predicate ReadAs(kind: Kind, ok: bool, r: Redis, key: Key, prev: Option<Manifest>, blind: bool) {
    match kind
    case Replace => ok && prev == Lookup(r.manifests, key) && !blind
    case Fill => (ok ==> key !in r.manifests) && prev == None && blind == !ok
  }

  // ---- One step ----

  lemma NewLocked(s: State, a: Action, id: OpId)
    requires Enabled(s, a) && id in Apply(s, a).ops && Apply(s, a).ops[id].Locked?
    requires id !in s.ops || s.ops[id] != Apply(s, a).ops[id]
    ensures var op := Apply(s, a).ops[id];
            id == s.nextOp && a == Acquire(op.kind, op.key, op.deadline) && op.key !in s.redis.locks
  {
  }

  /** An operation stands between its read and its swap because it did before, or by the read itself. */
  lemma NewLoaded(s: State, a: Action, id: OpId)
    requires Enabled(s, a) && id in Apply(s, a).ops && BeforeSwap(Apply(s, a).ops[id])
    requires a.Load? && a.id == id
    ensures id in s.ops && s.ops[id].Locked?
    ensures var op, op' := s.ops[id], Apply(s, a).ops[id];
            && op'.Loaded? && op'.key == op.key && op'.deadline == op.deadline
            && ReadAs(op.kind, a.ok, s.redis, op.key, op'.prev, op'.blind)
  {
  }

  lemma StillLoaded(s: State, a: Action, id: OpId)
    requires Enabled(s, a) && id in Apply(s, a).ops && BeforeSwap(Apply(s, a).ops[id])
    requires !(a.Load? && a.id == id)
    ensures id in s.ops && BeforeSwap(s.ops[id])
    ensures var op, op' := s.ops[id], Apply(s, a).ops[id];
            && op'.key == op.key && op'.deadline == op.deadline && op'.prev == op.prev && op'.blind == op.blind
            && (op'.Loaded? ==> op.Loaded?)
            && (op'.Staging? ==>
                  if op.Staging? then op'.gen == op.gen && op'.resp == op.resp
                  else a == Fetch(id, Some(op'.resp), op'.gen))
  {
  }

  /** Reading the manifest decides whether the replacement goes on. */
  lemma LoadDecides(s: State, id: OpId, ok: bool)
    requires Enabled(s, Load(id, ok))
    ensures var op, op' := s.ops[id], Apply(s, Load(id, ok)).ops[id];
            if (op.kind.Replace? && !ok) || (op.kind.Fill? && ok && op.key in s.redis.manifests)
            then op' == Unlocking(op.key) else BeforeSwap(op')
  {
  }

  // ---- Runs ----

  /** The read behind a replacement in state `j`: step `i`, which found what the operation holds. */
  ghost predicate ReadBy(
      states: seq<State>, actions: seq<Action>, j: nat, id: OpId, op: Op, kind: Kind, i: int, ok: bool)
    requires Run(states, actions) && j < |states| && BeforeSwap(op)
  {
    && LoadedAt(states, actions, j, id, kind, op.key, op.deadline, i, ok)
    && ReadAs(kind, ok, states[i].redis, op.key, op.prev, op.blind)
  }

  /** The fetch behind a replacement that is staging. */
  ghost predicate FetchedBy(actions: seq<Action>, j: nat, id: OpId, op: Op)
    requires j <= |actions| && op.Staging?
  {
    exists f :: 0 <= f < j && actions[f] == Fetch(id, Some(op.resp), op.gen)
  }

  ghost predicate OpTraced(states: seq<State>, actions: seq<Action>, j: nat, id: OpId, op: Op)
    requires Run(states, actions) && j < |states|
  {
    && (op.Locked? ==>
          && Unread(actions, j, id)
          && exists q :: q < j && AcquiredAt(states, actions, q, id, op.kind, op.key, op.deadline))
    && (BeforeSwap(op) ==> exists kind, i, ok :: ReadBy(states, actions, j, id, op, kind, i, ok))
    && (op.Staging? ==> FetchedBy(actions, j, id, op))
  }

  ghost predicate Traced(states: seq<State>, actions: seq<Action>, j: nat, id: OpId)
    requires Run(states, actions) && j < |states|
  {
    && (id >= states[j].nextOp ==> Unread(actions, j, id))
    && (id in states[j].ops ==> OpTraced(states, actions, j, id, states[j].ops[id]))
  }

  lemma NextGrows(s: State, a: Action)
    requires Enabled(s, a)
    ensures s.nextOp <= Apply(s, a).nextOp
  {
  }

  lemma StepOf(states: seq<State>, actions: seq<Action>, i: nat)
    requires Run(states, actions) && i < |actions|
    ensures Enabled(states[i], actions[i]) && states[i + 1] == Apply(states[i], actions[i])
  {
  }

  lemma LockedTraced(states: seq<State>, actions: seq<Action>, j: nat, id: OpId)
    requires Run(states, actions) && 0 < j < |states| && Traced(states, actions, j - 1, id)
    requires id in states[j].ops && states[j].ops[id].Locked?
    ensures OpTraced(states, actions, j, id, states[j].ops[id])
  {
    var s, a, op := states[j - 1], actions[j - 1], states[j].ops[id];
    StepOf(states, actions, j - 1);
    if id !in s.ops || s.ops[id] != op {
      NewLocked(s, a, id);
      assert AcquiredAt(states, actions, j - 1, id, op.kind, op.key, op.deadline);
    } else {
      assert !(a.Load? && a.id == id) by {
        if a.Load? && a.id == id { LoadDecides(s, id, a.ok); }
      }
    }
  }

  lemma LoadTraced(states: seq<State>, actions: seq<Action>, j: nat, id: OpId)
    requires Run(states, actions) && 0 < j < |states| && Traced(states, actions, j - 1, id)
    requires id in states[j].ops && BeforeSwap(states[j].ops[id])
    requires actions[j - 1].Load? && actions[j - 1].id == id
    ensures OpTraced(states, actions, j, id, states[j].ops[id])
  {
    var s, a, op := states[j - 1], actions[j - 1], states[j].ops[id];
    StepOf(states, actions, j - 1);
    NewLoaded(s, a, id);
    assert LoadedAt(states, actions, j, id, s.ops[id].kind, op.key, op.deadline, j - 1, a.ok);
    assert ReadBy(states, actions, j, id, op, s.ops[id].kind, j - 1, a.ok);
  }

  lemma LoadedLater(
      states: seq<State>, actions: seq<Action>, j: nat, id: OpId, op: Op, op': Op, kind: Kind, i: int, ok: bool)
    requires Run(states, actions) && 0 < j < |states| && !(actions[j - 1].Load? && actions[j - 1].id == id)
    requires BeforeSwap(op) && ReadBy(states, actions, j - 1, id, op, kind, i, ok)
    requires BeforeSwap(op') && op'.key == op.key && op'.deadline == op.deadline
    requires op'.prev == op.prev && op'.blind == op.blind
    ensures ReadBy(states, actions, j, id, op', kind, i, ok)
  {
  }

  lemma StillTraced(states: seq<State>, actions: seq<Action>, j: nat, id: OpId)
    requires Run(states, actions) && 0 < j < |states| && Traced(states, actions, j - 1, id)
    requires id in states[j].ops && BeforeSwap(states[j].ops[id])
    requires !(actions[j - 1].Load? && actions[j - 1].id == id)
    ensures OpTraced(states, actions, j, id, states[j].ops[id])
  {
    var s, a, op := states[j - 1], actions[j - 1], states[j].ops[id];
    StepOf(states, actions, j - 1);
    StillLoaded(s, a, id);
    var kind, i, ok :| ReadBy(states, actions, j - 1, id, s.ops[id], kind, i, ok);
    LoadedLater(states, actions, j, id, s.ops[id], op, kind, i, ok);
    if op.Staging? {
      if s.ops[id].Staging? {
        var f :| 0 <= f < j - 1 && actions[f] == Fetch(id, Some(op.resp), op.gen);
        assert 0 <= f < j && actions[f] == Fetch(id, Some(op.resp), op.gen);
      } else {
        assert actions[j - 1] == Fetch(id, Some(op.resp), op.gen);
      }
    }
  }

  /** In every run, every operation traces back to the steps that made it what it is. */
  lemma {:induction false} AllTraced(states: seq<State>, actions: seq<Action>, j: nat, id: OpId)
    requires Run(states, actions) && Init(states[0]) && j < |states|
    ensures Traced(states, actions, j, id)
  {
    if j > 0 {
      var s, a := states[j - 1], actions[j - 1];
      AllTraced(states, actions, j - 1, id);
      StepOf(states, actions, j - 1);
      NextGrows(s, a);
      assert id >= s.nextOp ==> id !in s.ops by {
        RunKeepsInv(states, actions, j - 1);
      }
      if id in states[j].ops {
        var op := states[j].ops[id];
        if op.Locked? {
          LockedTraced(states, actions, j, id);
        } else if BeforeSwap(op) && a.Load? && a.id == id {
          LoadTraced(states, actions, j, id);
        } else if BeforeSwap(op) {
          StillTraced(states, actions, j, id);
        }
      }
    }
  }

  /** The run started operation `id` as a fill. */
  ghost predicate FillStarted(states: seq<State>, actions: seq<Action>, j: nat, id: OpId)
    requires Run(states, actions) && j < |states|
  {
    exists q, key, deadline :: q < j && AcquiredAt(states, actions, q, id, Fill, key, deadline)
  }

  lemma ReadDecides(
      states: seq<State>, actions: seq<Action>, j: nat, id: OpId, op: Op, kind: Kind, i: int, ok: bool)
    requires Run(states, actions) && j < |states| && BeforeSwap(op) && ReadBy(states, actions, j, id, op, kind, i, ok)
    ensures op.blind <==> LoadFailed(actions, j, id)
    ensures op.blind ==> kind == Fill
  {
    assert actions[i] == Load(id, ok);
    if LoadFailed(actions, j, id) {
      var k :| 0 <= k < j && actions[k] == Load(id, false);
      assert actions[k].Load? && k == i;
    }
  }

  lemma StartOf(
      states: seq<State>, actions: seq<Action>, j: nat, id: OpId, op: Op, kind: Kind, i: int, ok: bool)
    returns (q: int)
    requires Run(states, actions) && j < |states| && BeforeSwap(op) && ReadBy(states, actions, j, id, op, kind, i, ok)
    ensures q < j && AcquiredAt(states, actions, q, id, kind, op.key, op.deadline)
  {
    q :| q < i && AcquiredAt(states, actions, q, id, kind, op.key, op.deadline);
  }

  /**
   An operation between its read and its swap is blind if and only if its read of the manifest
   reported an error; and then it was started as a fill.
   */
  lemma BlindIff(states: seq<State>, actions: seq<Action>, j: nat, id: OpId)
    requires Run(states, actions) && Init(states[0]) && j < |states|
    requires id in states[j].ops && BeforeSwap(states[j].ops[id])
    ensures states[j].ops[id].blind <==> LoadFailed(actions, j, id)
    ensures LoadFailed(actions, j, id) ==> FillStarted(states, actions, j, id)
  {
    AllTraced(states, actions, j, id);
    var op := states[j].ops[id];
    var kind, i, ok :| ReadBy(states, actions, j, id, op, kind, i, ok);
    ReadDecides(states, actions, j, id, op, kind, i, ok);
    var q := StartOf(states, actions, j, id, op, kind, i, ok);
  }

  /**
   A fill goes on after a read that succeeded only if the key had no manifest then; any other
   replacement only if its read succeeded, and it holds the manifest that was stored then.
   */
  lemma GoesOnOnlyIf(states: seq<State>, actions: seq<Action>, i: nat, j: nat, id: OpId, ok: bool)
    requires Run(states, actions) && Init(states[0]) && i < j < |actions| && actions[i] == Load(id, ok)
    requires (actions[j].Fetch? || actions[j].Stage? || actions[j].Swap?) && actions[j].id == id
    ensures id in states[j].ops && BeforeSwap(states[j].ops[id])
    ensures var op := states[j].ops[id];
            if FillStarted(states, actions, j, id)
            then op.prev == None && (ok ==> op.key !in states[i].redis.manifests)
            else ok && op.prev == Lookup(states[i].redis.manifests, op.key)
  {
    StepOf(states, actions, j);
    AllTraced(states, actions, j, id);
    var op := states[j].ops[id];
    var kind, k, ok' :| ReadBy(states, actions, j, id, op, kind, k, ok');
    assert k == i;
    StartedOnce(states, actions, j, id, kind, op.key, op.deadline);
  }

  lemma {:induction false} NextGrowsOver(states: seq<State>, actions: seq<Action>, q: nat, j: nat)
    requires Run(states, actions) && q <= j < |states|
    ensures states[q].nextOp <= states[j].nextOp
  {
    if q < j {
      NextGrowsOver(states, actions, q, j - 1);
      StepOf(states, actions, j - 1);
      NextGrows(states[j - 1], actions[j - 1]);
    }
  }

  /** An operation has one kind. */
  lemma StartedOnce(
      states: seq<State>, actions: seq<Action>, j: nat, id: OpId, kind: Kind, key: Key, deadline: nat)
    requires Run(states, actions) && j < |states|
    requires exists q :: q < j && AcquiredAt(states, actions, q, id, kind, key, deadline)
    ensures FillStarted(states, actions, j, id) <==> kind == Fill
  {
    var q :| q < j && AcquiredAt(states, actions, q, id, kind, key, deadline);
    if q', key', deadline' :| q' < j && AcquiredAt(states, actions, q', id, Fill, key', deadline') {
      if q < q' { Acquires(states, actions, q, q'); }
      if q' < q { Acquires(states, actions, q', q); }
    }
  }

  lemma Acquires(states: seq<State>, actions: seq<Action>, q: nat, q': nat)
    requires Run(states, actions) && q < q' < |states|
    requires actions[q].Acquire? && actions[q].key !in states[q].redis.locks
    ensures states[q].nextOp < states[q'].nextOp
  {
    StepOf(states, actions, q);
    NextGrowsOver(states, actions, q + 1, q');
  }
}
