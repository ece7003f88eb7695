/** Who occupies the active slot of a product identity, and why every statement keeps it so. */
module Slots {
  import opened Common
  import opened Publication
  import opened Tables
  import opened Transactions

  /** Member `i` of an attempted action that still needs its identity for itself. */
  predicate Holds(act: Action, i: nat)
    requires i < |act.members|
  {
    && act.attempt.Some?
    && (|| Pending(act.members[i])
        || (IsProduct(act.kind) && Blocking(act.members[i].outcome.value.cls)))
  }

  /** The identity of member `i` is bound to action `a`, and locked for a product. */
  predicate Held(db: Tables, a: int, i: nat)
    requires a in db.actions && i < |db.actions[a].members|
  {
    var act := db.actions[a];
    var k := KeyOf(act, i);
    && k in db.identities
    && db.identities[k].active == Some(a)
    && (IsProduct(act.kind) ==>
          && (db.identities[k].state.MutationPending? || db.identities[k].state.BlockedUncertain?)
          && (!Pending(act.members[i]) ==> db.identities[k].state.BlockedUncertain?))
  }

  ghost predicate HeldBy(db: Tables, k: Key, a: int) {
    && a in db.actions
    && exists i :: 0 <= i < |db.actions[a].members| && Holds(db.actions[a], i) && KeyOf(db.actions[a], i) == k
  }

  /** Occupied slots and holding members are the same thing, seen from either side. */
  ghost predicate SlotsOk(db: Tables) {
    && (forall a, i :: a in db.actions && 0 <= i < |db.actions[a].members| && Holds(db.actions[a], i) ==> Held(db, a, i))
    && (forall k :: k in db.identities && db.identities[k].active.Some? ==> HeldBy(db, k, db.identities[k].active.value))
  }

  /** An attempted product action never repeats a vendor code. */
  ghost predicate KeysOk(act: Action) {
    act.attempt.Some? && IsProduct(act.kind) ==>
      forall i, j :: 0 <= i < j < |act.members| ==> act.members[i].vendor != act.members[j].vendor
  }

  // ---------------------------------------------------------------- statements

  /** What of an action decides which slots it holds. */
  predicate SameClaims(x: Action, y: Action) {
    && x.attempt.Some? == y.attempt.Some? && x.kind == y.kind && x.seller == y.seller && |x.members| == |y.members|
    && (x.attempt.Some? ==> x.members == y.members)
  }

  /** Statements that change no claim and keep each identity bound and locked as it was. */
  lemma SlotsFrame(db: Tables, next: Tables)
    requires SlotsOk(db)
    requires db.actions.Keys <= next.actions.Keys
    requires forall a :: a in db.actions ==> SameClaims(db.actions[a], next.actions[a])
    requires forall a :: a in next.actions && a !in db.actions ==> next.actions[a].attempt.None?
    requires db.identities.Keys <= next.identities.Keys
    requires forall k :: k in next.identities ==>
      if k in db.identities then
        && next.identities[k].active == db.identities[k].active
        && (|| next.identities[k].state == db.identities[k].state
            || (db.identities[k].state.MutationPending? && next.identities[k].state.BlockedUncertain?)
            || !(db.identities[k].state.MutationPending? || db.identities[k].state.BlockedUncertain?))
      else next.identities[k].active.None?
    ensures SlotsOk(next)
  {
    forall a, i | a in next.actions && 0 <= i < |next.actions[a].members| && Holds(next.actions[a], i)
      ensures Held(next, a, i)
    {
      assert SameClaims(db.actions[a], next.actions[a]);
      assert Holds(db.actions[a], i) && Held(db, a, i);
    }
    forall k | k in next.identities && next.identities[k].active.Some?
      ensures HeldBy(next, k, next.identities[k].active.value)
    {
      var a := next.identities[k].active.value;
      assert HeldBy(db, k, a);
      var i :| 0 <= i < |db.actions[a].members| && Holds(db.actions[a], i) && KeyOf(db.actions[a], i) == k;
      assert SameClaims(db.actions[a], next.actions[a]);
      assert Holds(next.actions[a], i) && KeyOf(next.actions[a], i) == k;
    }
  }

  lemma SettleKeepsSlots(db: Tables, a: int, i: nat, o: Outcome, attributed: bool, identity: Identity)
    requires SlotsOk(db) && a in db.actions && i < |db.actions[a].members|
    requires KeysOk(db.actions[a]) && IsProduct(db.actions[a].kind) && Holds(db.actions[a], i)
    requires identity.active == (if Blocking(o.cls) then Some(a) else None)
    requires Blocking(o.cls) ==> identity.state.BlockedUncertain?
    ensures SlotsOk(Settle(db, a, i, o, attributed, identity))
  {
    var act, next := db.actions[a], Settle(db, a, i, o, attributed, identity);
    var k := KeyOf(act, i);
    assert Held(db, a, i);
    forall b, j | b in next.actions && 0 <= j < |next.actions[b].members| && Holds(next.actions[b], j)
      ensures Held(next, b, j)
    {
      if b != a {
        assert Holds(db.actions[b], j) && Held(db, b, j);
      } else if j != i {
        assert Holds(act, j) && Held(db, a, j);
        assert act.members[j].vendor != act.members[i].vendor;
      }
    }
    forall l | l in next.identities && next.identities[l].active.Some?
      ensures HeldBy(next, l, next.identities[l].active.value)
    {
      if l == k {
        assert Holds(next.actions[a], i);
      } else {
        var b := db.identities[l].active.value;
        assert HeldBy(db, l, b);
        var j :| 0 <= j < |db.actions[b].members| && Holds(db.actions[b], j) && KeyOf(db.actions[b], j) == l;
        assert Holds(next.actions[b], j) && KeyOf(next.actions[b], j) == l;
      }
    }
  }

  /** The binding statement reaches every member exactly when all identities are free and none repeats. */
  lemma BindReachesAllIff(identities: map<Key, Identity>, keys: seq<Key>)
    ensures |BoundRows(identities, keys)| == |keys| <==>
            Distinct(keys) && forall i :: 0 <= i < |keys| ==> keys[i] in identities && Free(identities[keys[i]])
  {
    var rows := BoundRows(identities, keys);
    DistinctIffFull(keys);
    assert rows <= Elements(keys);
    SubsetSameSize(rows, Elements(keys));
    if |rows| == |keys| {
      forall i | 0 <= i < |keys| ensures keys[i] in identities && Free(identities[keys[i]]) {
        assert keys[i] in Elements(keys);
      }
    }
    if forall i :: 0 <= i < |keys| ==> keys[i] in identities && Free(identities[keys[i]]) {
      assert rows == Elements(keys);
    }
  }

  lemma BeginKeepsSlots(db: Tables, a: int, baseline: Option<Stamp>, now: int)
    requires SlotsOk(db) && CanBeginAttempt(db, a) && AllPending(db.actions[a])
    ensures SlotsOk(BeginAttempt(db, a, baseline, now))
    ensures KeysOk(BeginAttempt(db, a, baseline, now).actions[a])
  {
    var act, next := db.actions[a], BeginAttempt(db, a, baseline, now);
    var keys := Keys(act);
    BindReachesAllIff(db.identities, keys);
    forall b, j | b in next.actions && 0 <= j < |next.actions[b].members| && Holds(next.actions[b], j)
      ensures Held(next, b, j)
    {
      if b == a {
        assert keys[j] == KeyOf(act, j) && keys[j] in keys;
      } else {
        assert Holds(db.actions[b], j) && Held(db, b, j);
      }
    }
    forall k | k in next.identities && next.identities[k].active.Some?
      ensures HeldBy(next, k, next.identities[k].active.value)
    {
      if k in keys && Free(db.identities[k]) {
        var i :| 0 <= i < |keys| && keys[i] == k;
        assert Holds(next.actions[a], i) && KeyOf(next.actions[a], i) == k;
      } else {
        var b := db.identities[k].active.value;
        assert HeldBy(db, k, b);
        var j :| 0 <= j < |db.actions[b].members| && Holds(db.actions[b], j) && KeyOf(db.actions[b], j) == k;
        assert Holds(next.actions[b], j) && KeyOf(next.actions[b], j) == k;
      }
    }
    var begun := next.actions[a];
    forall i, j | 0 <= i < j < |begun.members| ensures begun.members[i].vendor != begun.members[j].vendor {
      assert keys[i] != keys[j];
    }
  }

  lemma BeginMediaKeepsSlots(db: Tables, a: int, nm: int, baseline: Option<Stamp>, now: int)
    requires SlotsOk(db) && CanBeginMedia(db, a, nm) && AllPending(db.actions[a])
    ensures SlotsOk(BeginMedia(db, a, baseline, now))
  {
    var act, next := db.actions[a], BeginMedia(db, a, baseline, now);
    var k := KeyOf(act, 0);
    forall b, j | b in next.actions && 0 <= j < |next.actions[b].members| && Holds(next.actions[b], j)
      ensures Held(next, b, j)
    {
      if b != a {
        assert Holds(db.actions[b], j) && Held(db, b, j);
      }
    }
    forall l | l in next.identities && next.identities[l].active.Some?
      ensures HeldBy(next, l, next.identities[l].active.value)
    {
      if l == k {
        assert Holds(next.actions[a], 0);
      } else {
        var b := db.identities[l].active.value;
        assert HeldBy(db, l, b);
        var j :| 0 <= j < |db.actions[b].members| && Holds(db.actions[b], j) && KeyOf(db.actions[b], j) == l;
        assert Holds(next.actions[b], j) && KeyOf(next.actions[b], j) == l;
      }
    }
  }

  lemma FinishMediaKeepsSlots(db: Tables, a: int, nm: int, o: Outcome)
    requires SlotsOk(db) && CanFinishMedia(db, a, nm) && db.actions[a].attempt.Some?
    ensures SlotsOk(FinishMedia(db, a, o))
  {
    var act, next := db.actions[a], FinishMedia(db, a, o);
    var k := KeyOf(act, 0);
    forall b, j | b in next.actions && 0 <= j < |next.actions[b].members| && Holds(next.actions[b], j)
      ensures Held(next, b, j)
    {
      if b != a {
        assert Holds(db.actions[b], j) && Held(db, b, j);
      }
    }
    forall l | l in next.identities && next.identities[l].active.Some?
      ensures HeldBy(next, l, next.identities[l].active.value)
    {
      var b := db.identities[l].active.value;
      assert HeldBy(db, l, b);
      var j :| 0 <= j < |db.actions[b].members| && Holds(db.actions[b], j) && KeyOf(db.actions[b], j) == l;
      assert Holds(next.actions[b], j) && KeyOf(next.actions[b], j) == l;
    }
  }
}
