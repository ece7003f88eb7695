/** The catalogue cache as its critical sections update it. */
module CatalogStore {
  import opened Common
  import opened CatalogCache

  class BatchCatalog {
    var entries: map<Key, Entry>
    var inflight: set<Key>
    var bytes: int
    var hits: nat
    var misses: nat
    var waits: nat
    var stores: nat
    var skipped: nat
    var evictions: nat

    ghost function Value(): Cache
      reads this
    {
      Cache(entries, inflight, bytes, hits, misses, waits, stores, skipped, evictions)
    }

    constructor ()
      ensures Value() == Cache(map[], {}, 0, 0, 0, 0, 0, 0, 0) && Valid(Value())
    {
      entries, inflight, bytes, hits, misses := map[], {}, 0, 0, 0;
      waits, stores, skipped, evictions := 0, 0, 0, 0;
    }

    method Lookup(k: Key, now: int, counted: bool) returns (look: Look)
      requires Valid(Value())
      modifies this
      ensures (look, Value()) == Looked(old(Value()), k, now, counted)
      ensures Valid(Value())
    {
      LookedValid(Value(), k, now, counted);
      if k in entries {
        var entry := entries[k];
        if entry.ttl <= 0 || now < entry.storedAt + entry.ttl {
          return Found(entry.value, entry.storedAt, entry.ttl);
        }
        bytes := bytes - entry.size;
        entries := entries - {k};
        evictions := evictions + 1;
      }
      if !counted {
        misses := misses + 1;
      }
      if k in inflight {
        waits := waits + 1;
        return Wait;
      }
      inflight := inflight + {k};
      look := Read;
    }

    /** A payload that does not decode is thrown out, whichever it is by now. */
    method DropUndecodable(k: Key)
      requires Valid(Value())
      modifies this
      ensures Value() == Evicted(old(Value()), k) && Valid(Value())
    {
      EvictedValid(Value(), k);
      if k in entries {
        bytes := bytes - entries[k].size;
        entries := entries - {k};
        evictions := evictions + 1;
      }
    }

    method Land(k: Key, payload: Option<(int, nat)>, ttl: int, now: int)
      requires Valid(Value()) && k in inflight
      modifies this
      ensures Value() == Landed(old(Value()), k, payload, ttl, now) && Valid(Value())
    {
      LandedValid(Value(), k, payload, ttl, now);
      var size := if payload.Some? then payload.value.1 else 0;
      if size > 0 && bytes + size <= Budget {
        entries := entries[k := Entry(payload.value.0, size, now, ttl)];
        bytes := bytes + size;
        stores := stores + 1;
      } else if size > 0 {
        skipped := skipped + 1;
      }
      inflight := inflight - {k};
    }
  }
}
