/** The cache of recently seen cards: one index by vendor code, one by card number. */
module RecentCards {
  import opened Common

  datatype Card = Card(nmId: int, vendor: string, photos: nat, video: bool)

  datatype Entry = Entry(card: Card, at: int)

  datatype VendorKey = VendorKey(seller: string, vendor: string)

  datatype NmKey = NmKey(seller: string, nmId: int)

  datatype Indexes = Indexes(byVendor: map<VendorKey, Entry>, byNm: map<NmKey, Entry>)

  function VendorOf(seller: string, card: Card): VendorKey { VendorKey(seller, Trim(card.vendor)) }

  function NmOf(seller: string, card: Card): NmKey { NmKey(seller, card.nmId) }

  /** Both indexes with the card entered and the entries it displaces removed. */
  function Entered(x: Indexes, seller: string, entry: Entry): Indexes {
    var v, n := VendorOf(seller, entry.card), NmOf(seller, entry.card);
    var byNm := if v in x.byVendor && x.byVendor[v].card.nmId != entry.card.nmId
                then x.byNm - {NmOf(seller, x.byVendor[v].card)} else x.byNm;
    var byVendor := if n in byNm && VendorOf(seller, byNm[n].card) != v
                    then x.byVendor - {VendorOf(seller, byNm[n].card)} else x.byVendor;
    Indexes(byVendor[v := entry], byNm[n := entry])
  }

  ghost predicate FiledByNumber(x: Indexes, v: VendorKey)
    requires v in x.byVendor
  {
    var e := x.byVendor[v];
    VendorOf(v.seller, e.card) == v && NmOf(v.seller, e.card) in x.byNm && x.byNm[NmOf(v.seller, e.card)] == e
  }

  ghost predicate FiledByVendor(x: Indexes, n: NmKey)
    requires n in x.byNm
  {
    var e := x.byNm[n];
    NmOf(n.seller, e.card) == n && VendorOf(n.seller, e.card) in x.byVendor && x.byVendor[VendorOf(n.seller, e.card)] == e
  }

  /** Each entry is filed under its own vendor code and its own number, in both indexes. */
  ghost predicate Inverse(x: Indexes) {
    && (forall v :: v in x.byVendor ==> FiledByNumber(x, v))
    && (forall n :: n in x.byNm ==> FiledByVendor(x, n))
  }

  lemma EnteredKeepsInverse(x: Indexes, seller: string, entry: Entry)
    requires Inverse(x)
    ensures Inverse(Entered(x, seller, entry))
  {
    var next := Entered(x, seller, entry);
    var v0, n0 := VendorOf(seller, entry.card), NmOf(seller, entry.card);
    assert v0 in x.byVendor ==> FiledByNumber(x, v0);
    assert n0 in x.byNm ==> FiledByVendor(x, n0);
    forall v | v in next.byVendor ensures FiledByNumber(next, v) {
      if v != v0 { assert FiledByNumber(x, v); }
    }
    forall n | n in next.byNm ensures FiledByVendor(next, n) {
      if n != n0 { assert FiledByVendor(x, n); }
    }
  }

  class RecentCardsCache {
    var byVendor: map<VendorKey, Entry>
    var byNm: map<NmKey, Entry>
    var stores: nat
    var vendorHits: nat
    var vendorMisses: nat
    const ttl: int

    ghost function Value(): Indexes
      reads this
    {
      Indexes(byVendor, byNm)
    }

    constructor (ttl: int)
      requires ttl > 0
      ensures Value() == Indexes(map[], map[]) && this.ttl == ttl
      ensures stores == vendorHits == vendorMisses == 0
    {
      byVendor, byNm, stores, vendorHits, vendorMisses := map[], map[], 0, 0, 0;
      this.ttl := ttl;
    }

    /** Refuses a card without a seller, a number or a vendor code. */
    method StoreIfRecent(seller: string, card: Card, now: int) returns (ok: bool)
      modifies this
      ensures ok <==> seller != [] && card.nmId > 0 && Trim(card.vendor) != []
      ensures Value() == if ok then Entered(old(Value()), seller, Entry(card, now)) else old(Value())
      ensures stores == old(stores) + (if ok then 1 else 0)
      ensures vendorHits == old(vendorHits) && vendorMisses == old(vendorMisses)
    {
      if seller == [] || card.nmId <= 0 || Trim(card.vendor) == [] {
        return false;
      }
      var v, n := VendorKey(seller, Trim(card.vendor)), NmKey(seller, card.nmId);
      var entry := Entry(card, now);
      if v in byVendor && byVendor[v].card.nmId != card.nmId {
        byNm := byNm - {NmKey(seller, byVendor[v].card.nmId)};
      }
      if n in byNm && Trim(byNm[n].card.vendor) != v.vendor {
        byVendor := byVendor - {VendorKey(seller, Trim(byNm[n].card.vendor))};
      }
      byVendor := byVendor[v := entry];
      byNm := byNm[n := entry];
      stores := stores + 1;
      ok := true;
    }

    method LookupVendorCode(seller: string, vendor: string, now: int) returns (found: Option<Card>)
      modifies this`vendorHits, this`vendorMisses
      ensures found == Fresh(Value(), ttl, seller, vendor, now)
      ensures seller != [] && Trim(vendor) != [] ==> vendorHits + vendorMisses == old(vendorHits) + old(vendorMisses) + 1
      ensures vendorHits == old(vendorHits) + (if found.Some? then 1 else 0)
    {
      if seller == [] {
        return None;
      }
      var key := VendorKey(seller, Trim(vendor));
      if key.vendor == [] {
        return None;
      }
      if key !in byVendor || byVendor[key].at < now - ttl {
        vendorMisses := vendorMisses + 1;
        return None;
      }
      vendorHits := vendorHits + 1;
      found := Some(byVendor[key].card);
    }
  }

  /** The card a lookup by vendor code gives at time `now`. */
  function Fresh(x: Indexes, ttl: int, seller: string, vendor: string, now: int): Option<Card> {
    var key := VendorKey(seller, Trim(vendor));
    if seller == [] || key.vendor == [] || key !in x.byVendor || x.byVendor[key].at < now - ttl then None
    else Some(x.byVendor[key].card)
  }

  // ---------------------------------------------------------------- over any history of stores

  datatype Stored = Stored(seller: string, card: Card, at: int)

  function After(history: seq<Stored>): Indexes {
    if history == [] then Indexes(map[], map[])
    else
      var last := history[|history| - 1];
      Entered(After(history[..|history| - 1]), last.seller, Entry(last.card, last.at))
  }

  lemma {:induction false} AlwaysInverse(history: seq<Stored>)
    ensures Inverse(After(history))
  {
    if history != [] {
      var last := history[|history| - 1];
      AlwaysInverse(history[..|history| - 1]);
      EnteredKeepsInverse(After(history[..|history| - 1]), last.seller, Entry(last.card, last.at));
    }
  }

  predicate Files(s: Stored, v: VendorKey) { VendorOf(s.seller, s.card) == v }

  predicate SameNumber(s: Stored, t: Stored) { NmOf(s.seller, s.card) == NmOf(t.seller, t.card) }

  /** Store `i` is the newest for the vendor code, and its card number was not filed under another code since. */
  ghost predicate Newest(history: seq<Stored>, v: VendorKey, i: nat) {
    && i < |history| && Files(history[i], v)
    && forall j :: i < j < |history| ==> !Files(history[j], v) && !SameNumber(history[i], history[j])
  }

  /** The index by vendor code holds exactly the newest stores that were not displaced. */
  lemma {:induction false} HoldsTheNewest(history: seq<Stored>, v: VendorKey)
    ensures v in After(history).byVendor <==> exists i: nat :: Newest(history, v, i)
    ensures forall i: nat :: Newest(history, v, i) ==>
              v in After(history).byVendor && After(history).byVendor[v] == Entry(history[i].card, history[i].at)
  {
    if history != [] {
      var n := |history| - 1;
      var front, last := history[..n], history[n];
      var before := After(front);
      HoldsTheNewest(front, v);
      AlwaysInverse(front);
      if Files(last, v) {
        assert Newest(history, v, n);
        forall i: nat | Newest(history, v, i) ensures i == n { }
      } else {
        forall i: nat ensures Newest(history, v, i) <==> Newest(front, v, i) && !SameNumber(history[i], last) {
          NewestStep(history, v, i);
        }
        if v in before.byVendor {
          var i: nat :| Newest(front, v, i);
          DisplacedIff(before, last, v);
          assert FiledByNumber(before, v);
          assert NmOf(v.seller, before.byVendor[v].card) == NmOf(history[i].seller, history[i].card);
        }
      }
    }
  }

  lemma NewestStep(history: seq<Stored>, v: VendorKey, i: nat)
    requires history != [] && !Files(history[|history| - 1], v)
    ensures Newest(history, v, i) <==>
            Newest(history[..|history| - 1], v, i) && !SameNumber(history[i], history[|history| - 1])
  {
    var n := |history| - 1;
    var front := history[..n];
    if Newest(front, v, i) && !SameNumber(history[i], history[n]) {
      forall j | i < j < |history| ensures !Files(history[j], v) && !SameNumber(history[i], history[j]) {
        if j < n { assert front[j] == history[j]; }
      }
    }
    if Newest(history, v, i) {
      assert i < n;
      forall j | i < j < n ensures !Files(front[j], v) && !SameNumber(front[i], front[j]) {
        assert front[j] == history[j];
      }
    }
  }

  /** A store under another code removes the entry exactly when it takes over its card number. */
  lemma DisplacedIff(x: Indexes, last: Stored, v: VendorKey)
    requires Inverse(x) && v in x.byVendor && !Files(last, v)
    ensures var next := Entered(x, last.seller, Entry(last.card, last.at));
            && (v in next.byVendor <==> NmOf(v.seller, x.byVendor[v].card) != NmOf(last.seller, last.card))
            && (v in next.byVendor ==> next.byVendor[v] == x.byVendor[v])
  {
    var n := NmOf(last.seller, last.card);
    assert FiledByNumber(x, v) && (n in x.byNm ==> FiledByVendor(x, n));
  }

  /** A lookup gives the newest undisplaced card of the code, unless it is older than the TTL. */
  lemma LookupGivesNewest(history: seq<Stored>, ttl: int, seller: string, vendor: string, now: int, i: nat)
    requires seller != [] && Trim(vendor) != [] && Newest(history, VendorKey(seller, Trim(vendor)), i)
    ensures Fresh(After(history), ttl, seller, vendor, now) ==
            if history[i].at < now - ttl then None else Some(history[i].card)
  {
    HoldsTheNewest(history, VendorKey(seller, Trim(vendor)));
  }

  /** The cache agrees with the newest observation of every code when codes and numbers go together. */
  lemma AgreesWhenCodesAreUnique(history: seq<Stored>, v: VendorKey, i: nat)
    requires i < |history| && Files(history[i], v) && forall j :: i < j < |history| ==> !Files(history[j], v)
    requires forall j, k :: 0 <= j < |history| && 0 <= k < |history| && SameNumber(history[j], history[k]) ==>
               VendorOf(history[j].seller, history[j].card) == VendorOf(history[k].seller, history[k].card)
    ensures v in After(history).byVendor && After(history).byVendor[v] == Entry(history[i].card, history[i].at)
  {
    HoldsTheNewest(history, v);
    assert Newest(history, v, i);
  }
}
