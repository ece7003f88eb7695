/**
 The single-flight catalogue cache: entries within a byte budget, an expiry per entry, and at most one
 reader per key. Every critical section is one method of the cache; callers interleave freely between them.
 */
module CatalogCache {
  import opened Common

  const Budget: nat := 134217728

  datatype Key = Key(seller: string, operation: string, query: string)

  /** A stored payload: the value it decodes to, its size, when it was stored and for how long (0: for ever). */
  datatype Entry = Entry(value: int, size: nat, storedAt: int, ttl: int)

  datatype Cache = Cache(entries: map<Key, Entry>, inflight: set<Key>, bytes: int,
                         hits: nat, misses: nat, waits: nat, stores: nat, skipped: nat, evictions: nat)

  predicate Live(e: Entry, now: int) { e.ttl <= 0 || now < e.storedAt + e.ttl }

  // ---------------------------------------------------------------- the sum of the payload sizes

  ghost function Total(entries: map<Key, Entry>): int
    decreases |entries.Keys|
  {
    if entries.Keys == {} then 0
    else
      var k :| k in entries.Keys;
      entries[k].size + Total(entries - {k})
  }

  lemma {:induction false} TotalWithout(entries: map<Key, Entry>, k: Key)
    requires k in entries
    ensures Total(entries) == entries[k].size + Total(entries - {k})
    decreases |entries.Keys|
  {
    var j :| j in entries.Keys && Total(entries) == entries[j].size + Total(entries - {j});
    if j != k {
      TotalWithout(entries - {j}, k);
      assert entries - {j} - {k} == entries - {k} - {j};
      TotalWithout(entries - {k}, j);
    }
  }

  lemma TotalWith(entries: map<Key, Entry>, k: Key, e: Entry)
    requires k !in entries
    ensures Total(entries[k := e]) == Total(entries) + e.size
  {
    TotalWithout(entries[k := e], k);
    assert entries[k := e] - {k} == entries;
  }

  // ---------------------------------------------------------------- the critical sections

  ghost predicate Valid(c: Cache) {
    && c.bytes == Total(c.entries) && c.bytes <= Budget
    && c.entries.Keys !! c.inflight
    && c.stores == |c.entries.Keys| + c.evictions
  }

  function Evicted(c: Cache, k: Key): Cache {
    if k in c.entries then
      c.(entries := c.entries - {k}, bytes := c.bytes - c.entries[k].size, evictions := c.evictions + 1)
    else c
  }

  datatype Look = Found(value: int, storedAt: int, ttl: int) | Wait | Read

  /** What a caller finds at time `now`, and the cache after it; `counted` says its miss was counted before. */
  function Looked(c: Cache, k: Key, now: int, counted: bool): (Look, Cache) {
    if k in c.entries && Live(c.entries[k], now) then
      (Found(c.entries[k].value, c.entries[k].storedAt, c.entries[k].ttl), c)
    else
      var d := Evicted(c, k);
      var e := if counted then d else d.(misses := d.misses + 1);
      if k in e.inflight then (Wait, e.(waits := e.waits + 1))
      else (Read, e.(inflight := e.inflight + {k}))
  }

  /** The reader of `k` is back; `payload` is None when the read failed or its result is not cacheable. */
  function Landed(c: Cache, k: Key, payload: Option<(int, nat)>, ttl: int, now: int): Cache {
    var d := c.(inflight := c.inflight - {k});
    if payload.None? || payload.value.1 == 0 then d
    else if c.bytes + payload.value.1 <= Budget then
      d.(entries := d.entries[k := Entry(payload.value.0, payload.value.1, now, ttl)],
         bytes := d.bytes + payload.value.1, stores := d.stores + 1)
    else d.(skipped := d.skipped + 1)
  }

  lemma EvictedValid(c: Cache, k: Key)
    requires Valid(c)
    ensures Valid(Evicted(c, k))
  {
    if k in c.entries {
      TotalWithout(c.entries, k);
      assert (c.entries - {k}).Keys == c.entries.Keys - {k};
    }
  }

  lemma LookedValid(c: Cache, k: Key, now: int, counted: bool)
    requires Valid(c)
    ensures Valid(Looked(c, k, now, counted).1)
  {
    EvictedValid(c, k);
  }

  lemma LandedValid(c: Cache, k: Key, payload: Option<(int, nat)>, ttl: int, now: int)
    requires Valid(c) && k in c.inflight
    ensures Valid(Landed(c, k, payload, ttl, now))
  {
    if payload.Some? {
      TotalWith(c.entries, k, Entry(payload.value.0, payload.value.1, now, ttl));
      assert c.entries[k := Entry(payload.value.0, payload.value.1, now, ttl)].Keys == c.entries.Keys + {k};
    }
  }

  // ---------------------------------------------------------------- every interleaving of callers

  /** Where a caller is between two critical sections. */
  datatype Caller =
    | Looking(k: Key, ttl: int, counted: bool)
    | Decoding(k: Key, ttl: int, counted: bool, found: Look, at: int)
    | Waiting(k: Key, ttl: int)
    | Reading(k: Key, ttl: int)
    | Done

  /** A read of the key that came back without error and may be cached. */
  datatype GoodRead = GoodRead(k: Key, value: int, at: int, ttl: int)

  /** A value served from the cache, found at time `at`. */
  datatype Hit = Hit(k: Key, value: int, at: int)

  datatype World = World(cache: Cache, callers: map<int, Caller>, now: int, readings: seq<GoodRead>, served: seq<Hit>)

  datatype Step =
    | Call(g: int, k: Key, ttl: int)
    | LookUp(g: int)
    | Decode(g: int, ok: bool)
    | Wake(g: int)
    | GiveUp(g: int)
    | Return(g: int, payload: Option<(int, nat)>)
    | Tick(d: nat)

  predicate Enabled(w: World, s: Step) {
    match s
    case Call(g, _, _) => g !in w.callers
    case LookUp(g) => g in w.callers && w.callers[g].Looking?
    case Decode(g, _) => g in w.callers && w.callers[g].Decoding? && w.callers[g].found.Found?
    case Wake(g) => g in w.callers && w.callers[g].Waiting?
    case GiveUp(g) => g in w.callers && w.callers[g].Waiting?
    case Return(g, _) => g in w.callers && w.callers[g].Reading?
    case Tick(_) => true
  }

  function Next(w: World, s: Step): World
    requires Enabled(w, s)
  {
    match s
    case Call(g, k, ttl) => w.(callers := w.callers[g := Looking(k, ttl, false)])
    case LookUp(g) =>
      var c := w.callers[g];
      var (look, cache) := Looked(w.cache, c.k, w.now, c.counted);
      var next := if look.Found? then Decoding(c.k, c.ttl, c.counted, look, w.now)
                  else if look.Wait? then Waiting(c.k, c.ttl) else Reading(c.k, c.ttl);
      w.(cache := cache, callers := w.callers[g := next])
    case Decode(g, ok) =>
      var c := w.callers[g];
      if ok then w.(cache := w.cache.(hits := w.cache.hits + 1), callers := w.callers[g := Done],
                    served := w.served + [Hit(c.k, c.found.value, c.at)])
      else w.(cache := Evicted(w.cache, c.k), callers := w.callers[g := Looking(c.k, c.ttl, c.counted)])
    case Wake(g) => w.(callers := w.callers[g := Looking(w.callers[g].k, w.callers[g].ttl, true)])
    case GiveUp(g) => w.(callers := w.callers[g := Done])
    case Return(g, payload) =>
      var c := w.callers[g];
      w.(cache := Landed(w.cache, c.k, payload, c.ttl, w.now), callers := w.callers[g := Done],
         readings := if payload.Some? then w.readings + [GoodRead(c.k, payload.value.0, w.now, c.ttl)] else w.readings)
    case Tick(d) => w.(now := w.now + d)
  }

  /** The value was read without error for this key, and at time `at` its time to live had not run out. */
  ghost predicate Backed(readings: seq<GoodRead>, k: Key, value: int, at: int) {
    exists i :: 0 <= i < |readings| && readings[i].k == k && readings[i].value == value &&
                (readings[i].ttl <= 0 || at < readings[i].at + readings[i].ttl)
  }

  ghost predicate EntryBacked(readings: seq<GoodRead>, k: Key, e: Entry) {
    exists i :: 0 <= i < |readings| && readings[i] == GoodRead(k, e.value, e.storedAt, e.ttl)
  }

  ghost predicate CallerOk(w: World, g: int)
    requires g in w.callers
  {
    var c := w.callers[g];
    && (c.Decoding? ==> c.found.Found? && Backed(w.readings, c.k, c.found.value, c.at))
    && (c.Reading? ==> c.k in w.cache.inflight)
  }

  ghost predicate Inv(w: World) {
    && Valid(w.cache)
    && (forall g :: g in w.callers ==> CallerOk(w, g))
    && (forall g, h :: g in w.callers && h in w.callers && g != h && w.callers[g].Reading? && w.callers[h].Reading? ==>
          w.callers[g].k != w.callers[h].k)
    && (forall k :: k in w.cache.entries ==> EntryBacked(w.readings, k, w.cache.entries[k]))
    && (forall i :: 0 <= i < |w.served| ==> Backed(w.readings, w.served[i].k, w.served[i].value, w.served[i].at))
    && w.cache.hits == |w.served|
  }

  lemma MoreReads(readings: seq<GoodRead>, more: seq<GoodRead>)
    requires readings <= more
    ensures forall k, v, at :: Backed(readings, k, v, at) ==> Backed(more, k, v, at)
    ensures forall k, e :: EntryBacked(readings, k, e) ==> EntryBacked(more, k, e)
  {
    forall k, v, at | Backed(readings, k, v, at) ensures Backed(more, k, v, at) {
      var i :| 0 <= i < |readings| && readings[i].k == k && readings[i].value == v && (readings[i].ttl <= 0 || at < readings[i].at + readings[i].ttl);
      assert more[i] == readings[i];
    }
    forall k, e | EntryBacked(readings, k, e) ensures EntryBacked(more, k, e) {
      var i :| 0 <= i < |readings| && readings[i] == GoodRead(k, e.value, e.storedAt, e.ttl);
      assert more[i] == readings[i];
    }
  }

  lemma LookUpKeeps(w: World, g: int)
    requires Inv(w) && Enabled(w, LookUp(g))
    ensures Inv(Next(w, LookUp(g)))
  {
    var c := w.callers[g];
    LookedValid(w.cache, c.k, w.now, c.counted);
    assert CallerOk(w, g);
    var t := Next(w, LookUp(g));
    if t.callers[g].Decoding? {
      assert EntryBacked(w.readings, c.k, w.cache.entries[c.k]);
    }
    forall h | h in t.callers ensures CallerOk(t, h) {
      if h != g { assert CallerOk(w, h); }
    }
  }

  lemma ReturnKeeps(w: World, g: int, payload: Option<(int, nat)>)
    requires Inv(w) && Enabled(w, Return(g, payload))
    ensures Inv(Next(w, Return(g, payload)))
  {
    var c, t := w.callers[g], Next(w, Return(g, payload));
    assert CallerOk(w, g);
    LandedValid(w.cache, c.k, payload, c.ttl, w.now);
    MoreReads(w.readings, t.readings);
    forall h | h in t.callers ensures CallerOk(t, h) {
      if h != g { assert CallerOk(w, h); }
    }
    forall k | k in t.cache.entries ensures EntryBacked(t.readings, k, t.cache.entries[k]) {
      if k == c.k {
        assert t.readings[|w.readings|] == GoodRead(k, payload.value.0, w.now, c.ttl);
      } else {
        assert EntryBacked(w.readings, k, w.cache.entries[k]);
      }
    }
  }

  lemma ServeKeeps(w: World, g: int)
    requires Inv(w) && Enabled(w, Decode(g, true))
    ensures Inv(Next(w, Decode(g, true)))
  {
    var t := Next(w, Decode(g, true));
    assert CallerOk(w, g);
    assert Valid(t.cache);
    forall h | h in t.callers ensures CallerOk(t, h) {
      if h != g { assert CallerOk(w, h); }
    }
  }

  lemma DropKeeps(w: World, g: int)
    requires Inv(w) && Enabled(w, Decode(g, false))
    ensures Inv(Next(w, Decode(g, false)))
  {
    var t := Next(w, Decode(g, false));
    EvictedValid(w.cache, w.callers[g].k);
    forall h | h in t.callers ensures CallerOk(t, h) {
      if h != g { assert CallerOk(w, h); }
    }
  }

  lemma StepKeeps(w: World, s: Step)
    requires Inv(w) && Enabled(w, s)
    ensures Inv(Next(w, s))
  {
    match s
    case LookUp(g) => LookUpKeeps(w, g);
    case Decode(g, ok) => if ok { ServeKeeps(w, g); } else { DropKeeps(w, g); }
    case Return(g, payload) => ReturnKeeps(w, g, payload);
    case _ =>
      forall h | h in Next(w, s).callers ensures CallerOk(Next(w, s), h) {
        if h in w.callers { assert CallerOk(w, h); }
      }
  }

  predicate IsRun(worlds: seq<World>, steps: seq<Step>) {
    && |worlds| == |steps| + 1
    && worlds[0] == World(Cache(map[], {}, 0, 0, 0, 0, 0, 0, 0), map[], worlds[0].now, [], [])
    && forall i :: 0 <= i < |steps| ==> Enabled(worlds[i], steps[i]) && worlds[i + 1] == Next(worlds[i], steps[i])
  }

  lemma {:induction false} EveryWorldOk(worlds: seq<World>, steps: seq<Step>, n: nat)
    requires IsRun(worlds, steps) && n < |worlds|
    ensures Inv(worlds[n])
  {
    if n > 0 {
      EveryWorldOk(worlds, steps, n - 1);
      StepKeeps(worlds[n - 1], steps[n - 1]);
    }
  }

  /**
   Under every interleaving: the byte count is the sum of the stored sizes and within budget, no key is both
   stored and being read, each key has one reader, entries are stores less evictions, and every hit is an
   error-free read of the same key that had not expired.
   */
  lemma EveryInterleaving(worlds: seq<World>, steps: seq<Step>, n: nat)
    requires IsRun(worlds, steps) && n < |worlds|
    ensures var w := worlds[n];
            && w.cache.bytes == Total(w.cache.entries) && w.cache.bytes <= Budget
            && w.cache.entries.Keys !! w.cache.inflight
            && w.cache.stores == |w.cache.entries.Keys| + w.cache.evictions
            && (forall g, h :: g in w.callers && h in w.callers && g != h && w.callers[g].Reading? && w.callers[h].Reading? ==>
                  w.callers[g].k != w.callers[h].k)
            && w.cache.hits == |w.served|
            && (forall i :: 0 <= i < |w.served| ==> Backed(w.readings, w.served[i].k, w.served[i].value, w.served[i].at))
  {
    EveryWorldOk(worlds, steps, n);
  }
}
