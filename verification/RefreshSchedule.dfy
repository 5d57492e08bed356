/** When a cached entry is refreshed (internal/cache/manager.go). Instants and durations are
  * nanoseconds, as Go's are; the persisted metadata keeps whole seconds. The factor 0.30 is
  * taken exactly and the product truncated to nanoseconds. */
module RefreshSchedule {

  import opened Prelude

  const SECOND: int := 1_000_000_000

  /** The part of the TTL that is left when a refresh is due. */
  function Threshold(ttl: nat): nat {
    3 * ttl / 10
  }

  /** The seconds written to the metadata by a publish at `fetched`. */
  function ExpiresAt(fetched: nat, ttl: nat): nat {
    (fetched + ttl) / SECOND
  }

  /** The instant scheduleAtThreshold arms when called at `at`. */
  function ArmedInstant(at: nat, ttl: nat): nat {
    at + 7 * ttl / 10
  }

  /** The instant the metadata asks for. */
  function DueInstant(expiresAt: nat, ttl: nat): int {
    expiresAt * SECOND - Threshold(ttl)
  }

  /** The refresh timers: at most one per key, each with its firing instant. */
  class RefreshTimers<Key(==)> {
    var timers: map<Key, int>

    constructor ()
      ensures timers == map[]
    {
      timers := map[];
    }

    /** Arming stops and replaces the key's timer and leaves the others alone. */
    method Schedule(key: Key, now: nat, delay: int)
      modifies this
      ensures timers == old(timers)[key := now + delay]
    {
      if key in timers {
        timers := timers - {key};
      }
      timers := timers[key := now + delay];
    }

    /** After a publish. */
    method ScheduleAtThreshold(key: Key, now: nat, ttl: nat)
      modifies this
      ensures timers == old(timers)[key := ArmedInstant(now, ttl)]
    {
      Schedule(key, now, 7 * ttl / 10);
    }

    /** After a cache hit or a restart: at the instant the metadata asks for, or at once when
      * that has passed. */
    method ScheduleFromMeta(key: Key, now: nat, ttl: nat, expiresAt: nat)
      modifies this
      ensures timers == old(timers)[key := Max(now, DueInstant(expiresAt, ttl))]
    {
      var remaining := expiresAt * SECOND - now;
      var delay := remaining - Threshold(ttl);
      if delay < 0 {
        delay := 0;
      }
      Schedule(key, now, delay);
    }
  }

  /** The due instant survives a restart: compared with the instant 0.7 TTL after the fetch it
    * is early by less than a second and late by at most the one nanosecond of truncation, and
    * it is late exactly when the TTL is not a multiple of ten nanoseconds and the entry
    * expires on a whole second. */
  lemma DueNearArmed(fetched: nat, ttl: nat)
    ensures
      var due, armed := DueInstant(ExpiresAt(fetched, ttl), ttl), ArmedInstant(fetched, ttl);
      && armed - SECOND < due <= armed + 1
      && (due > armed <==> ttl % 10 != 0 && (fetched + ttl) % SECOND == 0)
  {
    var past := (fetched + ttl) % SECOND;
    assert ExpiresAt(fetched, ttl) * SECOND == fetched + ttl - past;
    assert ttl - 3 * ttl / 10 == 7 * ttl / 10 + (if ttl % 10 == 0 then 0 else 1);
  }

  /** With a TTL of whole tens of nanoseconds, so with any TTL of whole seconds, a re-armed
    * refresh fires at the later of now and an instant that is less than a second before the
    * one 0.7 TTL after the fetch. So it never fires after the instant the publish armed, which
    * was no earlier than the fetch, unless that has already passed. */
  lemma RearmNeverLater(fetched: nat, armedAt: nat, now: nat, ttl: nat)
    requires ttl % 10 == 0 && fetched <= armedAt
    ensures
      var fires := Max(now, DueInstant(ExpiresAt(fetched, ttl), ttl));
      && fires <= Max(now, ArmedInstant(armedAt, ttl))
      && (fires < ArmedInstant(fetched, ttl) ==> fires > ArmedInstant(fetched, ttl) - SECOND)
  {
    DueNearArmed(fetched, ttl);
  }
}
