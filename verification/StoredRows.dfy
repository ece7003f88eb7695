/** What a result, a verdict or a ruling leaves in the member's row and in the row of its identity, column by column. */
module StoredRows {
  import opened Common
  import opened Publication
  import opened Tables
  import opened Transactions
  import opened Slots
  import opened Folds
  import opened Invariant
  import opened Preservation
  import opened Soundness
  import opened Journal
  import opened Reconciliation
  import Evidence
  import EvidenceRules
  import Reducers
  import Submissions

  // ---------------------------------------------------------------- results of a poll

  predicate Complete(r: MemberResult) { r.nmId > 0 && r.imtId > 0 && r.subjectId > 0 }

  /** The member has the class, the code and the number of the result, and nothing else changed in it. */
  predicate MemberTakes(x: Member, y: Member, r: MemberResult) {
    && y.outcome.Some? && y.outcome.value.cls == r.cls && y.outcome.value.code == r.code && y.outcome.value.nmId == r.nmId
    && y.attributed == (x.attributed || r.attributed)
    && y.id == x.id && y.vendor == x.vendor && y.itemTarget == x.itemTarget && y.groupTarget == x.groupTarget
  }

  /** The identity has the three numbers of the result in their own places; a result that proves something frees it. */
  predicate IdentityTakes(x: Identity, y: Identity, r: MemberResult) {
    && y.nmId == r.nmId && y.imtId == r.imtId && y.subjectId == r.subjectId
    && (if r.cls.Rejected? then y.state.IdentityRejected? && y.active.None?
        else if Complete(r) then y.state.RemotePresent? && y.active.None?
        else y.state.BlockedUncertain? && y.active == x.active)
  }

  /** Result `r` about member `i` is stored in both rows. */
  ghost predicate Stored(db: Tables, next: Tables, a: int, i: nat, r: MemberResult)
    requires a in db.actions && i < |db.actions[a].members|
  {
    var k := KeyOf(db.actions[a], i);
    && a in next.actions && i < |next.actions[a].members| && k in db.identities && k in next.identities
    && MemberTakes(db.actions[a].members[i], next.actions[a].members[i], r)
    && IdentityTakes(db.identities[k], next.identities[k], r)
  }

  ghost predicate About(results: seq<MemberResult>, id: int) { exists j :: 0 <= j < |results| && results[j].memberId == id }

  /** A member nobody ruled on keeps its row, and so does its identity. */
  ghost predicate Kept(db: Tables, next: Tables, a: int, i: nat)
    requires a in db.actions && i < |db.actions[a].members|
  {
    var k := KeyOf(db.actions[a], i);
    && a in next.actions && i < |next.actions[a].members|
    && next.actions[a].members[i] == db.actions[a].members[i]
    && (k in db.identities ==> k in next.identities && next.identities[k] == db.identities[k])
  }

  /** No member of the action has this identity. */
  predicate Foreign(act: Action, k: Key) { forall i :: 0 <= i < |act.members| ==> KeyOf(act, i) != k }

  ghost predicate Ready(db: Tables, a: int) {
    SlotsOk(db) && LiveProduct(db, a) && KeysOk(db.actions[a]) && Evidence.GoodIds(db.actions[a].members)
  }

  lemma RecordOneStores(db: Tables, a: int, r: MemberResult, i: nat)
    requires Ready(db, a) && Evidential(r) && RecordOne(db, a, r).Some?
    requires i < |db.actions[a].members|
    ensures var next := RecordOne(db, a, r).value;
            if db.actions[a].members[i].id == r.memberId then Stored(db, next, a, i, r) else Kept(db, next, a, i)
  {
    var act := db.actions[a];
    FindsOnly(act.members, r.memberId);
    var h := Find(act.members, r.memberId).value;
    if act.members[i].id == r.memberId {
      assert h == i;
    } else {
      assert act.members[h].vendor != act.members[i].vendor;
    }
  }

  lemma RecordOneForeign(db: Tables, a: int, r: MemberResult, k: Key)
    requires a in db.actions && RecordOne(db, a, r).Some? && Foreign(db.actions[a], k)
    ensures var next := RecordOne(db, a, r).value.identities;
            (k in next <==> k in db.identities) && (k in next ==> next[k] == db.identities[k])
  {
    FindsOnly(db.actions[a].members, r.memberId);
  }

  ghost predicate Results(results: seq<MemberResult>) {
    && (forall i :: 0 <= i < |results| ==> Evidential(results[i]))
    && (forall i, j :: 0 <= i < j < |results| ==> results[i].memberId != results[j].memberId)
  }

  /** The results about member `i` are stored, and without one its rows are kept. */
  ghost predicate StoredOrKept(db: Tables, next: Tables, a: int, results: seq<MemberResult>, i: nat)
    requires a in db.actions && i < |db.actions[a].members|
  {
    && (forall j :: 0 <= j < |results| && results[j].memberId == db.actions[a].members[i].id ==> Stored(db, next, a, i, results[j]))
    && (!About(results, db.actions[a].members[i].id) ==> Kept(db, next, a, i))
  }

  lemma LastStores(db: Tables, front: Tables, next: Tables, a: int, results: seq<MemberResult>, i: nat)
    requires results != [] && Results(results) && a in db.actions && i < |db.actions[a].members|
    requires OnlyMembers(db, front, a) && StoredOrKept(db, front, a, results[..|results| - 1], i)
    requires var r := results[|results| - 1];
             if front.actions[a].members[i].id == r.memberId then Stored(front, next, a, i, r) else Kept(front, next, a, i)
    ensures StoredOrKept(db, next, a, results, i)
  {
    var n := |results| - 1;
    LastOrBefore(results, db.actions[a].members[i].id);
    assert front.actions[a].members[i].id == db.actions[a].members[i].id;
    assert KeyOf(front.actions[a], i) == KeyOf(db.actions[a], i);
  }

  lemma {:induction false} RecordAllStores(db: Tables, a: int, results: seq<MemberResult>, i: nat)
    requires Ready(db, a) && Results(results) && RecordAll(db, a, results).Some? && i < |db.actions[a].members|
    ensures StoredOrKept(db, RecordAll(db, a, results).value, a, results, i)
  {
    if results != [] {
      var n := |results| - 1;
      RecordAllStores(db, a, results[..n], i);
      RecordAllKeeps(db, a, results[..n]);
      var front := RecordAll(db, a, results[..n]).value;
      RecordOneStores(front, a, results[n], i);
      LastStores(db, front, RecordOne(front, a, results[n]).value, a, results, i);
    }
  }

  lemma LastOrBefore(results: seq<MemberResult>, id: int)
    requires results != [] && Results(results)
    ensures var n := |results| - 1;
            && (About(results, id) <==> results[n].memberId == id || About(results[..n], id))
            && !(results[n].memberId == id && About(results[..n], id))
            && forall j :: 0 <= j < n ==> results[..n][j] == results[j]
  {
    var n := |results| - 1;
    if j :| 0 <= j < |results| && results[j].memberId == id {
      if j < n { assert results[..n][j].memberId == id; }
    }
    if j :| 0 <= j < n && results[..n][j].memberId == id {
      assert results[j].memberId == id;
    }
  }

  lemma StaysForeign(db: Tables, next: Tables, a: int, k: Key)
    requires OnlyMembers(db, next, a) && Foreign(db.actions[a], k)
    ensures Foreign(next.actions[a], k)
  {
    forall i | 0 <= i < |next.actions[a].members| ensures KeyOf(next.actions[a], i) != k {
      assert KeyOf(next.actions[a], i) == KeyOf(db.actions[a], i);
    }
  }

  lemma {:induction false} RecordAllForeign(db: Tables, a: int, results: seq<MemberResult>, k: Key)
    requires Ready(db, a) && Results(results) && RecordAll(db, a, results).Some? && Foreign(db.actions[a], k)
    ensures var next := RecordAll(db, a, results).value.identities;
            (k in next <==> k in db.identities) && (k in next ==> next[k] == db.identities[k])
  {
    if results != [] {
      var n := |results| - 1;
      RecordAllForeign(db, a, results[..n], k);
      RecordAllKeeps(db, a, results[..n]);
      var front := RecordAll(db, a, results[..n]).value;
      StaysForeign(db, front, a, k);
      RecordOneForeign(front, a, results[n], k);
    }
  }

  /** A poll stores each result in its member and identity and leaves all other members and identities alone. */
  lemma PollStores(db: Tables, a: int, results: seq<MemberResult>, i: nat)
    requires Inv(db) && CanPoll(db, a, results) && (forall j :: 0 <= j < |results| ==> Evidential(results[j]))
    requires i < |db.actions[a].members|
    ensures var next := Poll(db, a, results);
            && (forall j :: 0 <= j < |results| && results[j].memberId == db.actions[a].members[i].id ==> Stored(db, next, a, i, results[j]))
            && (!About(results, db.actions[a].members[i].id) ==> Kept(db, next, a, i))
  {
    assert ActionOk(db.actions[a]);
    RecordAllStores(db, a, results, i);
  }

  lemma PollLeavesForeign(db: Tables, a: int, results: seq<MemberResult>, k: Key)
    requires Inv(db) && CanPoll(db, a, results) && (forall j :: 0 <= j < |results| ==> Evidential(results[j]))
    requires Foreign(db.actions[a], k)
    ensures var next := Poll(db, a, results).identities;
            (k in next <==> k in db.identities) && (k in next ==> next[k] == db.identities[k])
  {
    assert ActionOk(db.actions[a]);
    RecordAllForeign(db, a, results, k);
  }

  /** Closing an action rewrites neither its members nor any identity. */
  lemma CloseKeepsRows(db: Tables, a: int, cls: ResultClass)
    requires a in db.actions
    ensures var next := Close(db, a, cls);
            && next.identities == db.identities && a in next.actions && next.actions[a].members == db.actions[a].members
            && next.actions[a].outcome == Some(cls) && next.actions[a].state.Terminal?
  {
  }

  lemma ConcludeStores(db: Tables, a: int, results: seq<MemberResult>, cls: ResultClass, i: nat)
    requires Inv(db) && CanConclude(db, a, results) && (forall j :: 0 <= j < |results| ==> Evidential(results[j]))
    requires i < |db.actions[a].members|
    ensures var next := Conclude(db, a, results, cls);
            && (forall j :: 0 <= j < |results| && results[j].memberId == db.actions[a].members[i].id ==> Stored(db, next, a, i, results[j]))
            && (!About(results, db.actions[a].members[i].id) ==> Kept(db, next, a, i))
  {
    PollStores(db, a, results, i);
    CloseKeepsRows(Poll(db, a, results), a, cls);
  }

  // ---------------------------------------------------------------- from the evidence to the rows

  /** Storing what a poll or a conclusion brings. */
  lemma DecisionStoresResult(db: Tables, a: int, tx: Tx, now: int, i: nat, r: MemberResult)
    requires Inv(db) && Can(db, tx, now) && FromEvidence(tx) && (tx.TxPoll? || tx.TxConclude?) && tx.a == a
    requires i < |db.actions[a].members| && r in tx.results && r.memberId == db.actions[a].members[i].id
    ensures Stored(db, Do(db, tx, now), a, i, r)
  {
    var j :| 0 <= j < |tx.results| && tx.results[j] == r;
    if tx.TxPoll? {
      PollStores(db, a, tx.results, i);
    } else {
      ConcludeStores(db, a, tx.results, tx.cls, i);
    }
  }

  lemma JudgedIsAmong(act: Action, seen: Observation, matches: seq<ErrorBatchMatch>, deadline: bool, i: nat, r: MemberResult)
    requires i < |act.members| && Evidence.Judge(SubjectOf(act), i, seen, matches, deadline) == Evidence.Decided(r)
    ensures r in Evidence.NewResults(Evidence.Verdicts(SubjectOf(act), seen, matches, deadline))
  {
    var verdicts := Evidence.Verdicts(SubjectOf(act), seen, matches, deadline);
    DecidedIsAmong(verdicts, i);
  }

  lemma {:induction false} DecidedIsAmong(verdicts: seq<Evidence.Verdict>, i: nat)
    requires i < |verdicts| && verdicts[i].Decided?
    ensures verdicts[i].result in Evidence.NewResults(verdicts)
    decreases |verdicts|
  {
    var n := |verdicts| - 1;
    if i < n {
      DecidedIsAmong(verdicts[..n], i);
    }
  }

  /** The action is reconciled on the evidence, and not on the answer to its retry. */
  ghost predicate OnEvidence(act: Action, seen: Observation, matches: seq<ErrorBatchMatch>, at: int) {
    !ShouldRetry(act, seen, matches, at) && !(act.retry.Some? && ProvedRejection(act.retry.value))
  }

  function VerdictOn(act: Action, i: nat, seen: Observation, matches: seq<ErrorBatchMatch>, at: int, timeout: int): Evidence.Verdict
    requires i < |act.members|
  {
    Evidence.Judge(SubjectOf(act), i, seen, matches, Evidence.DeadlineReached(StartedAt(act), at, timeout))
  }

  lemma VerdictIsCommitted(act: Action, a: int, seen: Observation, matches: seq<ErrorBatchMatch>, at: int, timeout: int, i: nat, r: MemberResult)
    requires OnEvidence(act, seen, matches, at) && i < |act.members| && VerdictOn(act, i, seen, matches, at, timeout) == Evidence.Decided(r)
    ensures var tx := Decide(a, act, seen, matches, at, timeout); (tx.TxPoll? || tx.TxConclude?) && tx.a == a && r in tx.results
  {
    JudgedIsAmong(act, seen, matches, Evidence.DeadlineReached(StartedAt(act), at, timeout), i, r);
  }

  /** A reconciliation that judges the evidence commits each verdict to the rows of its member. */
  lemma JudgedIsStored(db: Tables, a: int, seen: Observation, matches: seq<ErrorBatchMatch>, at: int, timeout: int, now: int,
                       tx: Tx, i: nat, r: MemberResult)
    requires Inv(db) && AllSound(db) && Reconcilable(db, a) && Listed(db, db.actions[a], matches) && at <= now
    requires tx == Decide(a, db.actions[a], seen, matches, at, timeout) && OnEvidence(db.actions[a], seen, matches, at)
    requires i < |db.actions[a].members| && r.memberId == db.actions[a].members[i].id
    requires VerdictOn(db.actions[a], i, seen, matches, at, timeout) == Evidence.Decided(r)
    ensures Can(db, tx, now) && Stored(db, Do(db, tx, now), a, i, r)
  {
    DecisionCommits(db, a, seen, matches, at, timeout, now);
    DecisionFromService(db, a, seen, matches, at, timeout);
    VerdictIsCommitted(db.actions[a], a, seen, matches, at, timeout, i, r);
    DecisionStoresResult(db, a, tx, now, i, r);
  }

  /** The product's own card alone: after the commit the member succeeded and the identity bears that card's numbers. */
  lemma CreatedIsStored(db: Tables, a: int, seen: Observation, matches: seq<ErrorBatchMatch>, at: int, timeout: int, now: int,
                        tx: Tx, i: nat, card: Card)
    requires Inv(db) && AllSound(db) && Reconcilable(db, a) && Listed(db, db.actions[a], matches) && at <= now
    requires tx == Decide(a, db.actions[a], seen, matches, at, timeout) && OnEvidence(db.actions[a], seen, matches, at)
    requires i < |db.actions[a].members| && Pending(db.actions[a].members[i])
    requires var (act, vendor) := (db.actions[a], db.actions[a].members[i].vendor);
             && EvidenceRules.OnlyCard(seen.normal, vendor, card) && EvidenceRules.Unopposed(seen, matches, vendor)
             && EvidenceRules.Asked(act.kind, act.request, i, vendor, card)
    ensures Can(db, tx, now) && CreatedRows(db, Do(db, tx, now), a, i, card)
  {
    var act := db.actions[a];
    EvidenceRules.OneCardDecides(SubjectOf(act), i, seen, matches, Evidence.DeadlineReached(StartedAt(act), at, timeout), card);
    JudgedIsStored(db, a, seen, matches, at, timeout, now, tx, i, VerdictOn(act, i, seen, matches, at, timeout).result);
  }

  ghost predicate CreatedRows(db: Tables, next: Tables, a: int, i: nat, card: Card)
    requires a in db.actions && i < |db.actions[a].members|
  {
    var k := KeyOf(db.actions[a], i);
    && a in next.actions && i < |next.actions[a].members| && k in next.identities
    && next.actions[a].members[i].outcome == Some(Outcome(Success, CreatedConfirmedByVendorCode, card.nmId))
    && next.actions[a].members[i].attributed
    && next.identities[k] == Identity(RemotePresent, card.nmId, card.imtId, card.subjectId, None)
  }

  // ---------------------------------------------------------------- an answer

  /** An accepted answer leaves the identities as they were; an uncertain one blocks exactly those of the action. */
  lemma AwaitStores(db: Tables, a: int, s: Submission, now: int, k: Key)
    requires Inv(db) && CanAwaitEvidence(db, a, s) && k in db.identities
    ensures var next := AwaitEvidence(db, a, s, now).identities;
            && k in next
            && (s.disposition.Accepted? ==> next[k] == db.identities[k])
            && (s.disposition.Uncertain? && !Foreign(db.actions[a], k) ==>
                  next[k].state.BlockedUncertain? && next[k].active == Some(a) && next[k] == db.identities[k].(state := next[k].state))
            && (Foreign(db.actions[a], k) ==> next[k] == db.identities[k])
  {
    assert ActionOk(db.actions[a]);
    if !Foreign(db.actions[a], k) {
      var i :| 0 <= i < |db.actions[a].members| && KeyOf(db.actions[a], i) == k;
      assert Holds(db.actions[a], i) && Held(db, a, i);
      assert Keys(WithAnswer(db.actions[a], s, now))[i] == k;
    }
  }

  /** What a verdict leaves: a rejected product frees its identity, one that was never sent keeps it blocked. */
  predicate VerdictTakes(x: Member, y: Member, before: Identity, after: Identity, v: MemberVerdict) {
    && y == x.(outcome := Some(Outcome(v.cls, v.code, 0)))
    && after == (if v.cls.InternalError? then before.(state := BlockedUncertain) else before.(state := IdentityRejected, active := None))
  }

  ghost predicate VerdictStored(db: Tables, next: Tables, a: int, i: nat, v: MemberVerdict)
    requires a in db.actions && i < |db.actions[a].members|
  {
    var k := KeyOf(db.actions[a], i);
    && a in next.actions && i < |next.actions[a].members| && k in db.identities && k in next.identities
    && VerdictTakes(db.actions[a].members[i], next.actions[a].members[i], db.identities[k], next.identities[k], v)
  }

  lemma RejectMemberStores(db: Tables, a: int, n: nat, verdicts: seq<MemberVerdict>, i: nat)
    requires Ready(db, a) && RejectMember(db, a, n, verdicts).Some? && i < |db.actions[a].members|
    ensures var next := RejectMember(db, a, n, verdicts).value;
            if i == n then VerdictOf(verdicts, db.actions[a].members[i].id).Some? && VerdictStored(db, next, a, i, VerdictOf(verdicts, db.actions[a].members[i].id).value)
            else Kept(db, next, a, i)
  {
    if i != n {
      assert db.actions[a].members[i].vendor != db.actions[a].members[n].vendor;
    }
  }

  lemma {:induction false} RejectMembersStore(db: Tables, a: int, n: nat, verdicts: seq<MemberVerdict>, i: nat)
    requires Ready(db, a) && Verdictal(verdicts) && n <= |db.actions[a].members| && i < |db.actions[a].members|
    requires RejectMembers(db, a, n, verdicts).Some?
    ensures var next := RejectMembers(db, a, n, verdicts).value;
            if i < n then VerdictOf(verdicts, db.actions[a].members[i].id).Some? && VerdictStored(db, next, a, i, VerdictOf(verdicts, db.actions[a].members[i].id).value)
            else Kept(db, next, a, i)
  {
    if n > 0 {
      RejectMembersStore(db, a, n - 1, verdicts, i);
      RejectMembersKeeps(db, a, n - 1, verdicts);
      var front := RejectMembers(db, a, n - 1, verdicts).value;
      RejectMemberStores(front, a, n - 1, verdicts, i);
    }
  }

  /** A proven rejection stores the verdict on each member in its two rows. */
  lemma RejectStores(db: Tables, a: int, s: Submission, now: int, i: nat, j: nat)
    requires Inv(db) && CanReject(db, a, s, now) && i < |db.actions[a].members|
    requires j < |s.members| && s.members[j].memberId == db.actions[a].members[i].id
    ensures VerdictStored(db, Reject(db, a, s, now), a, i, s.members[j])
  {
    var answered := RecordAnswer(db, a, s, now);
    assert ActionOk(db.actions[a]);
    AnswerKeepsSlots(db, a, s, now);
    RejectMembersStore(answered, a, |db.actions[a].members|, s.members, i);
    OnlyVerdict(s.members, j);
    CloseKeepsRows(Rejections(db, a, s, now).value, a, RejectionClass(db.actions[a].members, s.members));
  }

  lemma {:induction false} OnlyVerdict(verdicts: seq<MemberVerdict>, j: nat)
    requires j < |verdicts| && forall i, k :: 0 <= i < k < |verdicts| ==> verdicts[i].memberId != verdicts[k].memberId
    ensures VerdictOf(verdicts, verdicts[j].memberId) == Some(verdicts[j])
    decreases |verdicts|
  {
    var n := |verdicts| - 1;
    if j < n {
      OnlyVerdict(verdicts[..n], j);
    }
  }

  // ---------------------------------------------------------------- a resolution

  /** What a ruling leaves in the member's row and in the row of its identity. */
  predicate RulingTakes(x: Member, y: Member, before: Identity, after: Identity, ruling: Ruling) {
    match ruling
    case MarkPresent(card, _, _) =>
      && y == x.(outcome := Some(Outcome(Success, ManualRemotePresent, card.nmId)), attributed := true)
      && after == Identity(RemotePresent, card.nmId, card.imtId, card.subjectId, None)
    case MarkRejected(_) =>
      && y == x.(outcome := Some(Outcome(Rejected, ManualErrorListRejected, 0)))
      && after.active.None? && (before.state.RemotePresent? ==> after == before.(active := None))
      && (!before.state.RemotePresent? ==> after == Identity(IdentityRejected, 0, 0, 0, None))
    case CloseNoRetry => y == x && after == before
  }

  /** A resolution rewrites the ruled member and its identity as stated, and no other member or identity. */
  lemma ResolveStores(db: Tables, a: int, i: nat, revision: nat, ruling: Ruling)
    requires Resolvable(db, a, i, revision) && AllSettled(db.actions[a])
    ensures var (act, next, k) := (db.actions[a], Resolve(db, a, i, ruling), KeyOf(db.actions[a], i));
            && a in next.actions && |next.actions[a].members| == |act.members| && k in next.identities
            && RulingTakes(act.members[i], next.actions[a].members[i], db.identities[k], next.identities[k], ruling)
            && (forall h :: 0 <= h < |act.members| && h != i ==> next.actions[a].members[h] == act.members[h])
            && (forall q :: q in db.identities && q != k ==> q in next.identities && next.identities[q] == db.identities[q])
            && (forall b :: b in db.actions && b != a ==> b in next.actions && next.actions[b] == db.actions[b])
  {
  }

  /** The class of the action then follows from its members, and that of its plan from its actions, by the resolution rule. */
  lemma ResolveReduces(db: Tables, a: int, i: nat, revision: nat, ruling: Ruling)
    requires Resolvable(db, a, i, revision) && AllSettled(db.actions[a])
    ensures var next := Resolve(db, a, i, ruling);
            && a in next.actions && AllSettled(next.actions[a]) && db.actions[a].plan in next.plans
            && next.actions[a].revision == db.actions[a].revision + 1
            && next.actions[a].outcome == Some(Reducers.ResolvedActionClass(Reducers.TallyOf(ClassesOf(next.actions[a].members))))
            && next.plans[db.actions[a].plan].state.PlanTerminal?
            && next.plans[db.actions[a].plan].outcome == Some(Reducers.ResolvedPlanClass(PlanTally(next, db.actions[a].plan)))
  {
    var next, p := Resolve(db, a, i, ruling), db.actions[a].plan;
    forall cls ensures WithClass(next, p, cls) == WithClass(next.(plans := db.plans), p, cls) { }
    assert ActionsOf(next, p) == ActionsOf(next.(plans := db.plans), p);
  }
}
