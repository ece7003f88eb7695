/** The member-by-member loops of the journal: what a whole loop does to the rows and to the slots. */
module Folds {
  import opened Common
  import opened Publication
  import opened Tables
  import opened Transactions
  import opened Slots
  import Evidence
  import Submissions

  /** The same member rows up to their results. */
  predicate SameRows(x: seq<Member>, y: seq<Member>) {
    && |x| == |y|
    && forall i :: 0 <= i < |x| ==>
         y[i] == x[i].(outcome := y[i].outcome, attributed := y[i].attributed)
  }

  /** Only the results of action `a`'s members and the identities moved. */
  predicate OnlyMembers(db: Tables, next: Tables, a: int) {
    && a in db.actions && a in next.actions
    && next.plans == db.plans && next.batches == db.batches
    && next.identities.Keys == db.identities.Keys
    && next.actions == db.actions[a := db.actions[a].(members := next.actions[a].members)]
    && SameRows(db.actions[a].members, next.actions[a].members)
  }

  predicate LiveProduct(db: Tables, a: int) {
    a in db.actions && IsProduct(db.actions[a].kind) && db.actions[a].attempt.Some?
  }

  // ---------------------------------------------------------------- proven rejection

  predicate Verdictal(verdicts: seq<MemberVerdict>) {
    forall i :: 0 <= i < |verdicts| ==> verdicts[i].cls.Rejected? || verdicts[i].cls.InternalError?
  }

  lemma {:induction false} VerdictFound(verdicts: seq<MemberVerdict>, id: int)
    ensures VerdictOf(verdicts, id).Some? ==> VerdictOf(verdicts, id).value in verdicts
    ensures VerdictOf(verdicts, id).Some? ==> VerdictOf(verdicts, id).value.memberId == id
  {
    if verdicts != [] {
      VerdictFound(verdicts[..|verdicts| - 1], id);
    }
  }

  /** Member `i` carries the verdict on it. */
  predicate RejectedAs(before: Member, now: Member, verdicts: seq<MemberVerdict>) {
    && VerdictOf(verdicts, before.id).Some?
    && var v := VerdictOf(verdicts, before.id).value;
       now == SetOutcome(before, Outcome(v.cls, v.code, 0)) && (v.cls.Rejected? || v.cls.InternalError?)
  }

  lemma {:induction false} RejectMembersKeeps(db: Tables, a: int, n: nat, verdicts: seq<MemberVerdict>)
    requires SlotsOk(db) && LiveProduct(db, a) && KeysOk(db.actions[a]) && n <= |db.actions[a].members|
    requires Verdictal(verdicts) && RejectMembers(db, a, n, verdicts).Some?
    ensures var next := RejectMembers(db, a, n, verdicts).value;
            && OnlyMembers(db, next, a) && SlotsOk(next) && KeysOk(next.actions[a])
            && (forall i :: 0 <= i < n ==> RejectedAs(db.actions[a].members[i], next.actions[a].members[i], verdicts))
            && (forall i :: n <= i < |db.actions[a].members| ==> next.actions[a].members[i] == db.actions[a].members[i])
  {
    if n > 0 {
      RejectMembersKeeps(db, a, n - 1, verdicts);
      var front := RejectMembers(db, a, n - 1, verdicts).value;
      RejectMemberKeeps(front, a, n - 1, verdicts);
    }
  }

  lemma RejectMemberKeeps(db: Tables, a: int, i: nat, verdicts: seq<MemberVerdict>)
    requires SlotsOk(db) && LiveProduct(db, a) && KeysOk(db.actions[a])
    requires Verdictal(verdicts) && RejectMember(db, a, i, verdicts).Some?
    ensures var next := RejectMember(db, a, i, verdicts).value;
            && i < |db.actions[a].members|
            && OnlyMembers(db, next, a) && SlotsOk(next) && KeysOk(next.actions[a])
            && RejectedAs(db.actions[a].members[i], next.actions[a].members[i], verdicts)
            && next.actions[a].members == db.actions[a].members[i := next.actions[a].members[i]]
  {
    var act := db.actions[a];
    VerdictFound(verdicts, act.members[i].id);
    var v := VerdictOf(verdicts, act.members[i].id).value;
    var k := KeyOf(act, i);
    var identity := if v.cls.InternalError? then db.identities[k].(state := BlockedUncertain)
                    else db.identities[k].(state := IdentityRejected, active := None);
    SettleKeepsSlots(db, a, i, Outcome(v.cls, v.code, 0), false, identity);
  }

  // ---------------------------------------------------------------- poll results

  function ResultFor(results: seq<MemberResult>, id: int): Option<MemberResult> {
    if results == [] then None
    else
      var n := |results| - 1;
      if results[n].memberId == id then Some(results[n]) else ResultFor(results[..n], id)
  }

  /** The member row after the results are stored. */
  function Applied(m: Member, results: seq<MemberResult>): Member {
    var found := ResultFor(results, m.id);
    if found.None? then m
    else
      var r := found.value;
      SetOutcome(m, Outcome(r.cls, r.code, r.nmId)).(attributed := m.attributed || r.attributed)
  }

  function AllApplied(members: seq<Member>, results: seq<MemberResult>): (applied: seq<Member>)
    ensures |applied| == |members|
    ensures forall i :: 0 <= i < |members| ==> applied[i] == Applied(members[i], results)
  {
    seq(|members|, i requires 0 <= i < |members| => Applied(members[i], results))
  }

  /** The three kinds of ruling a poll can give. */
  predicate Evidential(r: MemberResult) {
    match r.cls
    case Success => r.nmId > 0 && r.imtId > 0 && r.subjectId > 0
    case Rejected => true
    case Unresolved => r.nmId == 0
    case _ => false
  }

  lemma {:induction false} FindsOnly(members: seq<Member>, id: int)
    ensures Find(members, id).Some? ==> Find(members, id).value < |members| && members[Find(members, id).value].id == id
  {
    if members != [] {
      FindsOnly(members[..|members| - 1], id);
    }
  }

  lemma RecordOneKeeps(db: Tables, a: int, r: MemberResult)
    requires SlotsOk(db) && LiveProduct(db, a) && KeysOk(db.actions[a]) && Evidential(r)
    requires RecordOne(db, a, r).Some?
    ensures var next := RecordOne(db, a, r).value;
            && Find(db.actions[a].members, r.memberId).Some?
            && var i := Find(db.actions[a].members, r.memberId).value;
            && i < |db.actions[a].members| && db.actions[a].members[i].id == r.memberId
            && OnlyMembers(db, next, a) && SlotsOk(next) && KeysOk(next.actions[a])
            && next.actions[a].members ==
               db.actions[a].members[i := SetOutcome(db.actions[a].members[i], Outcome(r.cls, r.code, r.nmId)).(
                                            attributed := db.actions[a].members[i].attributed || r.attributed)]
  {
    var act := db.actions[a];
    FindsOnly(act.members, r.memberId);
    var i := Find(act.members, r.memberId).value;
    var identity := Ruled(db.identities[KeyOf(act, i)], r);
    SettleKeepsSlots(db, a, i, Outcome(r.cls, r.code, r.nmId), r.attributed, identity);
  }

  lemma {:induction false} RecordAllKeeps(db: Tables, a: int, results: seq<MemberResult>)
    requires SlotsOk(db) && LiveProduct(db, a) && KeysOk(db.actions[a]) && Evidence.GoodIds(db.actions[a].members)
    requires forall i :: 0 <= i < |results| ==> Evidential(results[i])
    requires forall i, j :: 0 <= i < j < |results| ==> results[i].memberId != results[j].memberId
    requires RecordAll(db, a, results).Some?
    ensures var next := RecordAll(db, a, results).value;
            && OnlyMembers(db, next, a) && SlotsOk(next) && KeysOk(next.actions[a])
            && next.actions[a].members == AllApplied(db.actions[a].members, results)
  {
    if results != [] {
      var n := |results| - 1;
      RecordAllKeeps(db, a, results[..n]);
      var front := RecordAll(db, a, results[..n]).value;
      RecordOneKeeps(front, a, results[n]);
      AppliedStep(db.actions[a].members, results, front.actions[a].members,
                  RecordOne(front, a, results[n]).value.actions[a].members,
                  Find(front.actions[a].members, results[n].memberId).value);
    } else {
      assert AllApplied(db.actions[a].members, results) == db.actions[a].members;
    }
  }

  lemma {:induction false} Unseen(results: seq<MemberResult>, id: int)
    requires forall i :: 0 <= i < |results| ==> results[i].memberId != id
    ensures ResultFor(results, id).None?
  {
    if results != [] {
      Unseen(results[..|results| - 1], id);
    }
  }

  lemma AppliedStep(members: seq<Member>, results: seq<MemberResult>, front: seq<Member>, next: seq<Member>, i: nat)
    requires results != [] && Evidence.GoodIds(members)
    requires forall j, k :: 0 <= j < k < |results| ==> results[j].memberId != results[k].memberId
    requires front == AllApplied(members, results[..|results| - 1])
    requires i < |members| && front[i].id == results[|results| - 1].memberId
    requires var r := results[|results| - 1];
             next == front[i := SetOutcome(front[i], Outcome(r.cls, r.code, r.nmId)).(
                                  attributed := front[i].attributed || r.attributed)]
    ensures next == AllApplied(members, results)
  {
    var n := |results| - 1;
    Unseen(results[..n], results[n].memberId);
    forall j | 0 <= j < |members| ensures next[j] == Applied(members[j], results) {
      assert front[j] == Applied(members[j], results[..n]);
      if j != i {
        assert members[j].id != members[i].id;
      }
    }
  }

  /** Whatever the results say, storing them touches the members of `a` and identities only. */
  lemma {:induction false} RecordAllTouches(db: Tables, a: int, results: seq<MemberResult>)
    requires a in db.actions && RecordAll(db, a, results).Some?
    ensures OnlyMembers(db, RecordAll(db, a, results).value, a)
  {
    if results != [] {
      var n := |results| - 1;
      RecordAllTouches(db, a, results[..n]);
      var front := RecordAll(db, a, results[..n]).value;
      FindsOnly(front.actions[a].members, results[n].memberId);
    }
  }
}
