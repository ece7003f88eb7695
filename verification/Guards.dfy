/** Exactly when the journal accepts a transaction of the product dispatcher, in every state it can be in. */
module Guards {
  import opened Common
  import opened Publication
  import opened Tables
  import opened Transactions
  import opened Slots
  import opened Folds
  import opened Invariant
  import opened Preservation
  import opened Soundness
  import opened Reconciliation
  import Evidence
  import Submissions

  /** A product action in the given state. */
  predicate ProductIn(db: Tables, a: int, state: ActionState) {
    a in db.actions && (db.actions[a].kind == CreateGroup || db.actions[a].kind == AddToGroup) && db.actions[a].state == state
  }

  ghost predicate Named(verdicts: seq<MemberVerdict>, id: int) { exists j :: 0 <= j < |verdicts| && verdicts[j].memberId == id }

  /** Every member has a verdict. */
  ghost predicate AllNamed(members: seq<Member>, verdicts: seq<MemberVerdict>) {
    forall i :: 0 <= i < |members| ==> Named(verdicts, members[i].id)
  }

  lemma {:induction false} VerdictIff(verdicts: seq<MemberVerdict>, id: int)
    ensures VerdictOf(verdicts, id).Some? <==> Named(verdicts, id)
  {
    if verdicts != [] {
      var n := |verdicts| - 1;
      VerdictIff(verdicts[..n], id);
      if j :| 0 <= j < n && verdicts[..n][j].memberId == id { assert verdicts[j].memberId == id; }
      if j :| 0 <= j <= n && verdicts[j].memberId == id { assert j < n ==> verdicts[..n][j].memberId == id; }
    }
  }

  lemma AllNamedIff(members: seq<Member>, verdicts: seq<MemberVerdict>)
    ensures AllNamed(members, verdicts) <==> forall i :: 0 <= i < |members| ==> VerdictOf(verdicts, members[i].id).Some?
  {
    forall i | 0 <= i < |members| ensures VerdictOf(verdicts, members[i].id).Some? <==> Named(verdicts, members[i].id) {
      VerdictIff(verdicts, members[i].id);
    }
  }

  // ---------------------------------------------------------------- the answer

  /** An answer that proves nothing is stored exactly on a dispatching product. */
  lemma AwaitableIff(db: Tables, a: int, s: Submission)
    requires Inv(db)
    ensures CanAwaitEvidence(db, a, s) <==> ProductIn(db, a, Dispatching) && Submissions.Valid(s) && s.disposition != RejectedProven
  {
    if a in db.actions {
      assert ActionOk(db.actions[a]);
    }
  }

  lemma NextRejects(db: Tables, a: int, n: nat, verdicts: seq<MemberVerdict>)
    requires SlotsOk(db) && LiveProduct(db, a) && KeysOk(db.actions[a]) && AllPending(db.actions[a]) && Verdictal(verdicts)
    requires n < |db.actions[a].members| && RejectMembers(db, a, n, verdicts).Some?
    ensures RejectMember(RejectMembers(db, a, n, verdicts).value, a, n, verdicts).Some? <==>
            VerdictOf(verdicts, db.actions[a].members[n].id).Some?
  {
    RejectMembersKeeps(db, a, n, verdicts);
    var front := RejectMembers(db, a, n, verdicts).value;
    assert front.actions[a].members[n] == db.actions[a].members[n];
    assert Holds(front.actions[a], n) && Held(front, a, n);
  }

  lemma {:induction false} RejectMembersSucceed(db: Tables, a: int, n: nat, verdicts: seq<MemberVerdict>)
    requires SlotsOk(db) && LiveProduct(db, a) && KeysOk(db.actions[a]) && AllPending(db.actions[a]) && Verdictal(verdicts)
    requires n <= |db.actions[a].members|
    ensures RejectMembers(db, a, n, verdicts).Some? <==>
            forall i :: 0 <= i < n ==> VerdictOf(verdicts, db.actions[a].members[i].id).Some?
  {
    if n > 0 {
      RejectMembersSucceed(db, a, n - 1, verdicts);
      if RejectMembers(db, a, n - 1, verdicts).Some? {
        NextRejects(db, a, n - 1, verdicts);
      }
    }
  }

  /** A proven rejection is stored exactly on a dispatching product all of whose members it names. */
  lemma RejectableIff(db: Tables, a: int, s: Submission, now: int)
    requires Inv(db)
    ensures CanReject(db, a, s, now) <==>
            && ProductIn(db, a, Dispatching) && Submissions.Valid(s) && s.disposition == RejectedProven
            && |s.members| == |db.actions[a].members| && AllNamed(db.actions[a].members, s.members)
  {
    if ProductIn(db, a, Dispatching) && Submissions.Valid(s) && s.disposition == RejectedProven {
      var act := db.actions[a];
      var answered := RecordAnswer(db, a, s, now);
      assert ActionOk(act);
      AnswerKeepsSlots(db, a, s, now);
      RejectMembersSucceed(answered, a, |act.members|, s.members);
      AllNamedIff(act.members, s.members);
      if Rejections(db, a, s, now).Some? {
        RejectMembersKeeps(answered, a, |act.members|, s.members);
      }
    } else if a in db.actions {
      assert ActionOk(db.actions[a]);
    }
  }

  /** Whatever the marketplace answers, the classified answer of a dispatching product is accepted. */
  lemma ClassifiedIsStored(db: Tables, a: int, reply: Submissions.Reply, now: int)
    requires Inv(db) && ProductIn(db, a, Dispatching) && Submissions.GoodMembers(db.actions[a].members) && Submissions.PlausibleStatus(reply)
    ensures var s := Submissions.Classify(db.actions[a].members, reply);
            if s.disposition == RejectedProven then CanReject(db, a, s, now) else CanAwaitEvidence(db, a, s)
  {
    var members := db.actions[a].members;
    var s := Submissions.Classify(members, reply);
    Submissions.ClassifiedIsValidIff(members, reply);
    Submissions.RejectionCauses(members, reply);
    if s.disposition == RejectedProven {
      forall i | 0 <= i < |members| ensures Named(s.members, members[i].id) { assert s.members[i].memberId == members[i].id; }
      assert AllNamed(members, s.members) && |s.members| == |members|;
      RejectableIff(db, a, s, now);
    } else {
      AwaitableIff(db, a, s);
    }
  }

  // ---------------------------------------------------------------- the retry

  /** The second call is ordered exactly once, ten minutes after an unreadable HTTP 200. */
  lemma RetryableIff(db: Tables, a: int, now: int)
    requires Inv(db)
    ensures CanBeginRetry(db, a, now) <==>
            && ProductIn(db, a, Reconciling) && db.actions[a].retry == None && db.actions[a].attempt.Some? && db.actions[a].attempt.value.answer.Some?
            && var (s, at) := (db.actions[a].attempt.value.answer.value.submission, db.actions[a].attempt.value.answer.value.at);
               && s.delivery == ResponseReceived && s.httpStatus == 200 && s.disposition == Uncertain && now - at >= 600
               && (s.code == Transport(EmptyResponse) || s.code == Transport(InvalidResponse))
  {
  }

  /** Its answer is stored exactly once; a proven rejection has to name every member. */
  lemma RetryAnswerableIff(db: Tables, a: int, s: Submission)
    requires Inv(db)
    ensures CanRecordRetry(db, a, s) <==>
            && ProductIn(db, a, Reconciling) && Submissions.Valid(s) && db.actions[a].retry.Some? && db.actions[a].retry.value.answer == None
            && (s.disposition == RejectedProven ==> |s.members| == |db.actions[a].members| && AllNamed(db.actions[a].members, s.members))
  {
    if a in db.actions {
      AllNamedIff(db.actions[a].members, s.members);
    }
  }

  // ---------------------------------------------------------------- polls

  ghost predicate CorrelatesIn(db: Tables, act: Action, r: MemberResult) {
    exists i :: 0 <= i < |act.members| && act.members[i].id == r.memberId && Correlated(db, act, r.errorBatchId, act.members[i].vendor)
  }

  lemma RecordOneNeeds(db: Tables, front: Tables, a: int, r: MemberResult)
    requires OnlyMembers(db, front, a) && RecordOne(front, a, r).Some? && r.errorBatchId > 0
    ensures CorrelatesIn(db, db.actions[a], r)
  {
    FindsOnly(front.actions[a].members, r.memberId);
    var i := Find(front.actions[a].members, r.memberId).value;
    assert db.actions[a].members[i].id == r.memberId && db.actions[a].members[i].vendor == front.actions[a].members[i].vendor;
    assert Correlated(db, db.actions[a], r.errorBatchId, db.actions[a].members[i].vendor);
  }

  lemma LastNeeds(db: Tables, a: int, results: seq<MemberResult>, n: nat)
    requires |results| == n + 1
    requires SlotsOk(db) && LiveProduct(db, a) && KeysOk(db.actions[a]) && Evidence.GoodIds(db.actions[a].members)
    requires forall k :: 0 <= k < n ==> Evidential(results[k])
    requires forall i, k :: 0 <= i < k < n ==> results[i].memberId != results[k].memberId
    requires RecordAll(db, a, results).Some? && results[n].errorBatchId > 0
    ensures CorrelatesIn(db, db.actions[a], results[n])
  {
    RecordAllKeeps(db, a, results[..n]);
    RecordOneNeeds(db, RecordAll(db, a, results[..n]).value, a, results[n]);
  }

  lemma {:induction false} RecordAllNeeds(db: Tables, a: int, results: seq<MemberResult>, j: nat)
    requires SlotsOk(db) && LiveProduct(db, a) && KeysOk(db.actions[a]) && Evidence.GoodIds(db.actions[a].members)
    requires forall k :: 0 <= k < |results| ==> Evidential(results[k])
    requires forall i, k :: 0 <= i < k < |results| ==> results[i].memberId != results[k].memberId
    requires RecordAll(db, a, results).Some? && j < |results| && results[j].errorBatchId > 0
    ensures CorrelatesIn(db, db.actions[a], results[j])
    decreases |results|
  {
    var n := |results| - 1;
    if j < n {
      RecordAllNeeds(db, a, results[..n], j);
    } else {
      LastNeeds(db, a, results, n);
    }
  }

  /** The batch a rejection names is one that the journal correlates with the member. */
  ghost predicate BatchesCorrelate(db: Tables, act: Action, results: seq<MemberResult>) {
    forall j :: 0 <= j < |results| && results[j].errorBatchId > 0 ==> CorrelatesIn(db, act, results[j])
  }

  /** In a sound state a poll is accepted exactly when its results are valid and its batches correlate. */
  lemma PollableIff(db: Tables, a: int, results: seq<MemberResult>)
    requires Inv(db) && AllSound(db) && forall j :: 0 <= j < |results| ==> Evidential(results[j])
    ensures CanPoll(db, a, results) <==>
            && ProductIn(db, a, Reconciling) && Evidence.ValidResults(db.actions[a].members, results)
            && BatchesCorrelate(db, db.actions[a], results)
  {
    if ProductIn(db, a, Reconciling) && Evidence.ValidResults(db.actions[a].members, results) {
      var act := db.actions[a];
      assert ActionOk(act) && Sound(act);
      if BatchesCorrelate(db, act, results) {
        forall k | 0 <= k < |results| ensures StorableSomewhere(db, act, results[k]) {
          ResultStorable(db, act, results, k);
        }
        RecordAllSucceeds(db, a, results);
      }
      if RecordAll(db, a, results).Some? {
        forall j | 0 <= j < |results| && results[j].errorBatchId > 0 ensures CorrelatesIn(db, act, results[j]) {
          RecordAllNeeds(db, a, results, j);
        }
      }
    }
  }

  lemma ResultStorable(db: Tables, act: Action, results: seq<MemberResult>, k: nat)
    requires k < |results| && Evidence.ValidResults(act.members, results) && BatchesCorrelate(db, act, results) && Sound(act)
    requires Evidence.GoodIds(act.members) && IsProduct(act.kind)
    ensures StorableSomewhere(db, act, results[k])
  {
    var r := results[k];
    assert Evidence.AwaitedId(act.members, r.memberId);
    var i :| 0 <= i < |act.members| && Pending(act.members[i]) && act.members[i].id == r.memberId;
    assert MemberSound(act.members[i]);
    if r.errorBatchId > 0 {
      var h :| 0 <= h < |act.members| && act.members[h].id == r.memberId && Correlated(db, act, r.errorBatchId, act.members[h].vendor);
      assert h == i;
    }
    assert Storable(db, act, i, r);
  }

  /** And a conclusion exactly when, besides, no pending member is left without a result. */
  lemma ConcludableIff(db: Tables, a: int, results: seq<MemberResult>)
    requires Inv(db) && CanPoll(db, a, results) && forall j :: 0 <= j < |results| ==> Evidential(results[j])
    ensures CanConclude(db, a, results) <==>
            forall i :: 0 <= i < |db.actions[a].members| && db.actions[a].members[i].outcome == None ==>
              exists r :: r in results && r.memberId == db.actions[a].members[i].id
  {
    PollSettles(db, a, results);
    var members := db.actions[a].members;
    forall i | 0 <= i < |members|
      ensures Pending(Poll(db, a, results).actions[a].members[i]) <==>
              members[i].outcome == None && !exists r :: r in results && r.memberId == members[i].id
    {
      assert Poll(db, a, results).actions[a].members[i] == Applied(members[i], results);
      FoundIff(results, members[i].id);
    }
  }

  lemma {:induction false} FoundIff(results: seq<MemberResult>, id: int)
    ensures ResultFor(results, id).Some? <==> exists r :: r in results && r.memberId == id
  {
    if results != [] {
      var n := |results| - 1;
      FoundIff(results[..n], id);
      assert results == results[..n] + [results[n]];
    }
  }

  /** A batch correlates when it is the seller's, names the code, and was listed after the attempt's baseline. */
  lemma CorrelatedIff(db: Tables, act: Action, batch: int, vendor: string)
    ensures Correlated(db, act, batch, vendor) <==>
            && batch in db.batches && db.batches[batch].seller == act.seller && (exists l :: 0 <= l < |db.batches[batch].rejected| && db.batches[batch].rejected[l] == vendor)
            && act.attempt.Some? && (act.attempt.value.baseline.Some? ==>
                 var (stamp, base) := (db.batches[batch].stamp, act.attempt.value.baseline.value);
                 base.updatedAt < stamp.updatedAt || (base.updatedAt == stamp.updatedAt && base.uuid < stamp.uuid))
  {
    if batch in db.batches && vendor in db.batches[batch].rejected {
      var l :| 0 <= l < |db.batches[batch].rejected| && db.batches[batch].rejected[l] == vendor;
    }
  }

  // ---------------------------------------------------------------- media

  /** The card of a media action: present, under the number, and in the hands of `holder`. */
  predicate CardOf(db: Tables, a: int, nm: int, holder: Option<int>)
    requires a in db.actions && |db.actions[a].members| == 1
  {
    var k := Key(db.actions[a].seller, db.actions[a].members[0].vendor);
    k in db.identities && db.identities[k].state == RemotePresent && db.identities[k].nmId == nm && db.identities[k].active == holder
  }

  predicate MediaIn(db: Tables, a: int, state: ActionState) {
    a in db.actions && db.actions[a].kind == UploadMedia && db.actions[a].state == state && |db.actions[a].members| == 1
  }

  /** Each media transaction is accepted exactly in its state, and where it binds or frees the card, on that card. */
  lemma MediaGuards(db: Tables, a: int, nm: int, s: Submission)
    requires Inv(db)
    ensures CanBeginMedia(db, a, nm) <==> MediaIn(db, a, Planned) && CardOf(db, a, nm, None)
    ensures CanSkipMedia(db, a) <==> MediaIn(db, a, Planned)
    ensures CanRecordMedia(db, a, nm) <==> MediaIn(db, a, Dispatching) && CardOf(db, a, nm, Some(a))
    ensures CanScheduleVisibility(db, a, s) <==> MediaIn(db, a, Dispatching) && s.disposition != RejectedProven
    ensures CanConcludeMedia(db, a, nm) <==> MediaIn(db, a, Reconciling) && CardOf(db, a, nm, Some(a))
  {
    if a in db.actions {
      var act := db.actions[a];
      assert ActionOk(act) && act.plan in db.plans && PlanOk(db, act.plan);
      if act.state == Planned {
        assert InPlan(db, act.plan, a) && !Finished(act.state) && Unfinished(db, act.plan);
      }
    }
  }

  // ---------------------------------------------------------------- resolutions

  /** A member can be resolved exactly in a finished plan, at the expected revision, while it and its action are unsettled. */
  lemma ResolvableIff(db: Tables, a: int, i: nat, revision: nat)
    requires Inv(db)
    ensures Resolvable(db, a, i, revision) <==>
            && ProductIn(db, a, Terminal) && i < |db.actions[a].members| && db.actions[a].revision == revision && db.actions[a].attempt.Some?
            && db.actions[a].outcome.value in {Unresolved, InternalError}
            && db.actions[a].members[i].outcome.value.cls in {Unresolved, InternalError}
            && KeyOf(db.actions[a], i) in db.identities
            && var identity := db.identities[KeyOf(db.actions[a], i)];
               && ((identity.state == BlockedUncertain && identity.active == Some(a)) || (identity.state == RemotePresent && identity.active == None))
               && forall b :: b in db.actions && db.actions[b].plan == db.actions[a].plan ==>
                    db.actions[b].state == Terminal || db.actions[b].state == Superseded
  {
    if ProductIn(db, a, Terminal) && db.actions[a].attempt.Some? {
      var act := db.actions[a];
      assert ActionOk(act) && act.plan in db.plans && PlanOk(db, act.plan);
      assert InPlan(db, act.plan, a) && Attempted(db, act.plan);
      if Unfinished(db, act.plan) {
        var b :| b in db.actions && InPlan(db, act.plan, b) && !Finished(db.actions[b].state);
      } else {
        forall b | b in db.actions && db.actions[b].plan == act.plan ensures Finished(db.actions[b].state) { assert InPlan(db, act.plan, b); }
      }
    }
  }
}
