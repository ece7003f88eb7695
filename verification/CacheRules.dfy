/** What one look into the catalogue cache finds, what one read leaves, and who reads what. */
module CacheRules {
  import opened Common
  import opened CatalogCache

  /** The entry has no expiry, or it lies ahead. */
  predicate Usable(c: Cache, k: Key, now: int) {
    k in c.entries && (c.entries[k].ttl > 0 ==> c.entries[k].storedAt + c.entries[k].ttl > now)
  }

  /** A usable entry is found and stays; any other look is a miss, counted once, that waits for the reader or becomes it. */
  lemma LookFinds(c: Cache, k: Key, now: int, counted: bool)
    ensures var (look, d) := Looked(c, k, now, counted);
            && (look.Found? <==> Usable(c, k, now))
            && (Usable(c, k, now) ==> look == Found(c.entries[k].value, c.entries[k].storedAt, c.entries[k].ttl) && d == c)
            && (!Usable(c, k, now) ==>
                  && d.misses == c.misses + (if counted then 0 else 1)
                  && (look.Wait? <==> k in c.inflight) && (look.Read? <==> k !in c.inflight)
                  && d.inflight == c.inflight + {k} && d.waits == c.waits + (if k in c.inflight then 1 else 0)
                  && k !in d.entries && (forall q :: q in d.entries <==> q in c.entries && q != k)
                  && (forall q :: q in d.entries ==> d.entries[q] == c.entries[q])
                  && d.bytes == c.bytes - (if k in c.entries then c.entries[k].size else 0)
                  && d.evictions == c.evictions + (if k in c.entries then 1 else 0)
                  && d.hits == c.hits && d.stores == c.stores && d.skipped == c.skipped)
  {
  }

  /** A payload is stored exactly when it is not empty and fits the budget of 128 MiB; one that does not fit is counted. */
  lemma LandingStores(c: Cache, k: Key, payload: Option<(int, nat)>, ttl: int, now: int)
    requires k !in c.entries
    ensures var d := Landed(c, k, payload, ttl, now);
            && d.inflight == c.inflight - {k}
            && (forall q :: q in c.entries ==> q in d.entries && d.entries[q] == c.entries[q])
            && (forall q :: q in d.entries ==> q == k || q in c.entries)
            && (k in d.entries <==> payload.Some? && payload.value.1 > 0 && c.bytes + payload.value.1 <= 128 * 1024 * 1024)
            && (k in d.entries ==> d.entries[k].value == payload.value.0 && d.entries[k].size == payload.value.1 &&
                                   d.entries[k].storedAt == now && d.entries[k].ttl == ttl)
            && d.bytes == c.bytes + (if k in d.entries then payload.value.1 else 0)
            && d.stores == c.stores + (if k in d.entries then 1 else 0)
            && d.skipped == c.skipped + (if k !in d.entries && payload.Some? && payload.value.1 > 0 then 1 else 0)
            && d.hits == c.hits && d.misses == c.misses && d.waits == c.waits && d.evictions == c.evictions
  {
  }

  // ---------------------------------------------------------------- every flight has its reader

  predicate Reads(w: World, g: int, k: Key) { g in w.callers && w.callers[g].Reading? && w.callers[g].k == k }

  /** Whoever waits for a key waits for a caller that is reading it, or will find the flight ended. */
  ghost predicate Manned(w: World) { forall k :: k in w.cache.inflight ==> exists g :: Reads(w, g, k) }

  lemma StepManned(w: World, s: Step)
    requires Inv(w) && Manned(w) && Enabled(w, s)
    ensures Manned(Next(w, s))
  {
    var t := Next(w, s);
    forall k | k in t.cache.inflight ensures exists g :: Reads(t, g, k) {
      if k in w.cache.inflight {
        var g :| Reads(w, g, k);
        if s.LookUp? || s.Decode? || s.Return? || s.Wake? || s.GiveUp? || s.Call? {
          if g != s.g {
            assert Reads(t, g, k);
          }
        } else {
          assert Reads(t, g, k);
        }
      } else {
        assert s.LookUp? && Reads(t, s.g, k);
      }
    }
  }

  /** In every run exactly one caller reads each key in flight, so no wait is for nobody. */
  lemma {:induction false} EveryFlightHasReader(worlds: seq<World>, steps: seq<Step>, n: nat)
    requires IsRun(worlds, steps) && n < |worlds|
    ensures Manned(worlds[n])
  {
    if n > 0 {
      EveryFlightHasReader(worlds, steps, n - 1);
      EveryWorldOk(worlds, steps, n - 1);
      StepManned(worlds[n - 1], steps[n - 1]);
    }
  }

  /** A caller ends with a value served, a value read, or by giving up its wait; nobody else is disturbed. */
  lemma StepTouches(w: World, s: Step, h: int)
    requires Enabled(w, s) && h in w.callers
    ensures var t := Next(w, s);
            && h in t.callers
            && (t.callers[h] != w.callers[h] ==> !s.Tick? && s.g == h && !w.callers[h].Done?)
            && (t.callers[h].Done? && !w.callers[h].Done? ==>
                  || (w.callers[h].Decoding? && t.served == w.served + [Hit(w.callers[h].k, w.callers[h].found.value, w.callers[h].at)])
                  || w.callers[h].Reading? || w.callers[h].Waiting?)
  {
    if w.callers[h].Decoding? && s.Decode? && s.g == h {
      assert w.callers[h].found.Found?;
    }
  }

  /** A value that does not decode is not served: its entry goes, if it is still there, and the caller looks again. */
  lemma DecodeServes(w: World, g: int, ok: bool)
    requires Enabled(w, Decode(g, ok))
    ensures var (t, c) := (Next(w, Decode(g, ok)), w.callers[g]);
            && (ok ==> t.served == w.served + [Hit(c.k, c.found.value, c.at)] && t.callers[g] == Done &&
                       t.cache == w.cache.(hits := w.cache.hits + 1))
            && (!ok ==> t.served == w.served && t.callers[g] == Looking(c.k, c.ttl, c.counted) && c.k !in t.cache.entries &&
                        t.cache.hits == w.cache.hits && t.cache.evictions == w.cache.evictions + (if c.k in w.cache.entries then 1 else 0) &&
                        t.cache.inflight == w.cache.inflight && forall k :: k in w.cache.entries && k != c.k ==>
                          k in t.cache.entries && t.cache.entries[k] == w.cache.entries[k])
  {
  }
}
