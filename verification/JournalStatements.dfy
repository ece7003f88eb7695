/** The single statements and small loops inside the journal's transactions. */
module JournalStatements {
  import opened Common
  import opened Publication
  import opened Tables
  import opened Transactions
  import opened Slots
  import opened Folds
  import opened Invariant
  import opened Preservation
  import Evidence
  import Reducers
  import Submissions

  // ---------------------------------------------------------------- the statements of the media clean-up

  predicate MediaWaiting(p: int, act: Action) {
    act.plan == p && act.kind.UploadMedia? && act.state.Planned?
  }

  function SkipRow(db: Tables, p: int, seller: string, members: seq<Member>, m: Member): Member {
    if Targets(members, m.itemTarget) && Pending(m) && !Attributed(db, p, seller, m) then SetOutcome(m, SkipOutcome()) else m
  }

  function SkipRows(db: Tables, p: int, seller: string, members: seq<Member>, act: Action): Action {
    if MediaWaiting(p, act) then
      act.(members := seq(|act.members|, i requires 0 <= i < |act.members| => SkipRow(db, p, seller, members, act.members[i])))
    else act
  }

  predicate Concerned(members: seq<Member>, act: Action) {
    exists i :: 0 <= i < |act.members| && Targets(members, act.members[i].itemTarget)
  }

  function SkipIfDone(p: int, members: seq<Member>, act: Action): Action {
    if MediaWaiting(p, act) && Concerned(members, act) && AllSettled(act) then Finish(act, Terminal, Skipped) else act
  }

  /** On a planned media action, which has one open member, the two statements skip it or leave it alone. */
  lemma SkipInTwo(db: Tables, p: int, seller: string, members: seq<Member>, act: Action)
    requires act.kind.UploadMedia? ==> ActionOk(act)
    ensures SkipIfDone(p, members, SkipRows(db, p, seller, members, act)) ==
            if Hopeless(db, p, seller, members, act) then Skip(act) else act
  {
    if MediaWaiting(p, act) {
      var rows := SkipRows(db, p, seller, members, act);
      assert rows.members == [SkipRow(db, p, seller, members, act.members[0])];
      assert Pending(act.members[0]);
      if Hopeless(db, p, seller, members, act) {
        assert rows.members == SettleAll(act.members, SkipOutcome());
        assert Targets(members, rows.members[0].itemTarget);
      } else {
        assert rows.members == act.members;
      }
    }
  }

  /** Once a member cannot be settled the whole loop fails. */
  lemma {:induction false} RejectMissed(db: Tables, a: int, i: nat, n: nat, verdicts: seq<MemberVerdict>)
    requires i < n && RejectMembers(db, a, i + 1, verdicts).None?
    ensures RejectMembers(db, a, n, verdicts).None?
    decreases n
  {
    if i + 1 < n {
      RejectMissed(db, a, i, n - 1, verdicts);
    }
  }

  lemma {:induction false} RecordMissed(db: Tables, a: int, results: seq<MemberResult>, i: nat)
    requires i < |results| && RecordAll(db, a, results[..i + 1]).None?
    ensures RecordAll(db, a, results).None?
    decreases |results|
  {
    if i + 1 < |results| {
      var front := results[..|results| - 1];
      assert front[..i + 1] == results[..i + 1];
      RecordMissed(db, a, front, i);
    } else {
      assert results[..i + 1] == results;
    }
  }

  // ---------------------------------------------------------------- coverage of a proven rejection

  function MemberIds(members: seq<Member>): (ids: seq<int>)
    ensures |ids| == |members| && forall i :: 0 <= i < |ids| ==> ids[i] == members[i].id
  {
    seq(|members|, i requires 0 <= i < |members| => members[i].id)
  }

  function VerdictIds(verdicts: seq<MemberVerdict>): (ids: seq<int>)
    ensures |ids| == |verdicts| && forall i :: 0 <= i < |ids| ==> ids[i] == verdicts[i].memberId
  {
    seq(|verdicts|, i requires 0 <= i < |verdicts| => verdicts[i].memberId)
  }

  lemma {:induction false} VerdictExistsIff(verdicts: seq<MemberVerdict>, id: int)
    ensures VerdictOf(verdicts, id).Some? <==> id in VerdictIds(verdicts)
  {
    if verdicts != [] {
      var n := |verdicts| - 1;
      VerdictExistsIff(verdicts[..n], id);
      assert VerdictIds(verdicts) == VerdictIds(verdicts[..n]) + [verdicts[n].memberId];
    }
  }

  /** With as many verdicts as members, naming only members and naming all members are the same. */
  lemma CoverEitherWay(members: seq<Member>, verdicts: seq<MemberVerdict>)
    requires Evidence.GoodIds(members) && Submissions.ValidVerdicts(verdicts) && |verdicts| == |members|
    ensures (forall i :: 0 <= i < |members| ==> VerdictOf(verdicts, members[i].id).Some?) <==>
            Elements(VerdictIds(verdicts)) <= Elements(MemberIds(members))
    ensures Elements(VerdictIds(verdicts)) <= Elements(MemberIds(members)) ==>
            Elements(VerdictIds(verdicts)) == Elements(MemberIds(members))
  {
    var mine, named := MemberIds(members), VerdictIds(verdicts);
    DistinctIffFull(mine);
    DistinctIffFull(named);
    assert Distinct(mine) && Distinct(named);
    if Elements(named) <= Elements(mine) {
      SubsetSameSize(Elements(named), Elements(mine));
      forall i | 0 <= i < |members| ensures VerdictOf(verdicts, members[i].id).Some? {
        assert mine[i] in Elements(mine);
        VerdictExistsIff(verdicts, members[i].id);
      }
    }
    if forall i :: 0 <= i < |members| ==> VerdictOf(verdicts, members[i].id).Some? {
      forall id | id in Elements(mine) ensures id in Elements(named) {
        var i :| 0 <= i < |mine| && mine[i] == id;
        assert VerdictOf(verdicts, members[i].id).Some?;
        VerdictExistsIff(verdicts, id);
      }
      SubsetSameSize(Elements(mine), Elements(named));
    }
  }

  /** Strikes every named member off the list; a proven rejection must leave nobody on it. */
  method CoversMembers(members: seq<Member>, verdicts: seq<MemberVerdict>) returns (ok: bool)
    requires Evidence.GoodIds(members) && Submissions.ValidVerdicts(verdicts)
    ensures ok <==> |verdicts| == |members| &&
                    forall i :: 0 <= i < |members| ==> VerdictOf(verdicts, members[i].id).Some?
  {
    if |verdicts| != |members| {
      return false;
    }
    CoverEitherWay(members, verdicts);
    var left := Elements(MemberIds(members));
    ghost var ids := VerdictIds(verdicts);
    var j := 0;
    while j < |verdicts|
      invariant 0 <= j <= |verdicts|
      invariant left == Elements(MemberIds(members)) - Elements(ids[..j])
      invariant Elements(ids[..j]) <= Elements(MemberIds(members))
    {
      var id := verdicts[j].memberId;
      assert id !in Elements(ids[..j]);
      assert ids[..j + 1] == ids[..j] + [id];
      if id !in left {
        assert ids[j] in Elements(ids);
        return false;
      }
      left := left - {id};
      j := j + 1;
    }
    assert ids[..j] == ids;
    ok := left == {};
  }

  // ---------------------------------------------------------------- counting member outcomes

  /** One pass of conditional counters over the members of an action. */
  method TallyMembers(members: seq<Member>) returns (tally: Reducers.Tally)
    requires forall i :: 0 <= i < |members| ==> !Pending(members[i])
    ensures tally == Reducers.TallyOf(ClassesOf(members))
  {
    ghost var classes := ClassesOf(members);
    var rejected, partial, unresolved, internal, accepted := 0, 0, 0, 0, 0;
    var i := 0;
    while i < |members|
      invariant 0 <= i <= |members|
      invariant Reducers.Tally(i, rejected, partial, unresolved, internal, accepted) == Reducers.TallyOf(classes[..i])
    {
      assert classes[..i + 1][..i] == classes[..i] && classes[i] == MemberClass(members[i]);
      match MemberClass(members[i]) {
        case Rejected => rejected := rejected + 1;
        case Partial => partial := partial + 1;
        case Unresolved => unresolved := unresolved + 1;
        case InternalError => internal := internal + 1;
        case _ => accepted := accepted + 1;
      }
      i := i + 1;
    }
    assert classes[..i] == classes;
    tally := Reducers.Tally(|members|, rejected, partial, unresolved, internal, accepted);
  }

  // ---------------------------------------------------------------- the statements of planning and stopping

  function LastDraft(drafts: seq<IdentityDraft>, k: Key): Option<IdentityDraft> {
    if drafts == [] then None
    else
      var n := |drafts| - 1;
      if drafts[n].key == k then Some(drafts[n]) else LastDraft(drafts[..n], k)
  }

  function Merged(identities: map<Key, Identity>, latest: map<Key, IdentityDraft>, k: Key): Identity
    requires k in identities || k in latest
  {
    if k !in latest then identities[k]
    else
      var d := latest[k];
      if k !in identities then Identity(d.state, d.nmId, d.imtId, d.subjectId, None)
      else if identities[k].state.MutationPending? || identities[k].state.BlockedUncertain? then identities[k]
      else Identity(d.state, d.nmId, d.imtId, d.subjectId, identities[k].active)
  }

  /** Upserting the drafts one by one leaves what upserting only the last of each key would. */
  lemma {:induction false} UpsertTakesLast(identities: map<Key, Identity>, drafts: seq<IdentityDraft>, k: Key)
    requires forall i :: 0 <= i < |drafts| ==> Observed(drafts[i].state)
    ensures k in Upsert(identities, drafts) <==> k in identities || LastDraft(drafts, k).Some?
    ensures LastDraft(drafts, k).Some? ==>
              Upsert(identities, drafts)[k] == Merged(identities, map[k := LastDraft(drafts, k).value], k)
    ensures LastDraft(drafts, k).None? && k in identities ==> Upsert(identities, drafts)[k] == identities[k]
  {
    if drafts != [] {
      var n := |drafts| - 1;
      UpsertTakesLast(identities, drafts[..n], k);
      LastDraftIn(drafts[..n], k);
    }
  }

  lemma {:induction false} LastDraftIn(drafts: seq<IdentityDraft>, k: Key)
    ensures LastDraft(drafts, k).Some? ==> LastDraft(drafts, k).value in drafts
  {
    if drafts != [] {
      LastDraftIn(drafts[..|drafts| - 1], k);
    }
  }

  function PlannedIn(db: Tables, p: int): set<int> {
    set a | a in db.actions && InPlan(db, p, a) && db.actions[a].state.Planned?
  }

  lemma AllPlannedIff(db: Tables, p: int)
    ensures |PlannedIn(db, p)| == |ActionsOf(db, p)| <==>
            forall a :: a in db.actions && InPlan(db, p, a) ==> db.actions[a].state.Planned?
  {
    SubsetSameSize(PlannedIn(db, p), ActionsOf(db, p));
    if PlannedIn(db, p) == ActionsOf(db, p) {
      forall a | a in db.actions && InPlan(db, p, a) ensures db.actions[a].state.Planned? {
        assert a in ActionsOf(db, p);
      }
    }
  }

  function SettleIf(c: bool, act: Action): Action {
    if c then act.(members := SettleAll(act.members, Outcome(Skipped, RecheckRemoteChanged, 0))) else act
  }

  function SupersedeIf(c: bool, act: Action): Action {
    if c then Finish(act, Superseded, Skipped) else act
  }

  lemma AbortedAlike(db: Tables, next: Tables, p: int)
    requires db.actions == next.actions
    ensures AbortRows(db, p).actions == AbortRows(next, p).actions
  {
    assert forall a :: Abortable(db, p, a) <==> Abortable(next, p, a);
  }

  /** Settling the open members and then ending the actions is superseding them. */
  lemma SupersededInTwo(db: Tables, p: int, settled: map<int, Action>, ended: map<int, Action>)
    requires CanSupersede(db, p) && settled.Keys == db.actions.Keys && ended.Keys == db.actions.Keys
    requires forall a :: a in settled ==> settled[a] == SettleIf(db.actions[a].plan == p, db.actions[a])
    requires forall a :: a in ended ==> ended[a] == SupersedeIf(settled[a].plan == p && settled[a].state.Planned?, settled[a])
    ensures ended == Supersede(db, p).actions
  {
    forall a | a in ended ensures ended[a] == Supersede(db, p).actions[a] {
      assert InPlan(db, p, a) <==> db.actions[a].plan == p;
    }
  }

  lemma AbortedInTwo(db: Tables, p: int, settled: map<int, Action>, ended: map<int, Action>)
    requires settled.Keys == db.actions.Keys && ended.Keys == db.actions.Keys
    requires forall a :: a in settled ==>
               settled[a] == if Abortable(db, p, a) then AbortMembers(db.actions[a]) else db.actions[a]
    requires forall a :: a in ended ==>
               ended[a] == if settled[a].plan == p && settled[a].state.Planned? then AbortState(settled[a]) else settled[a]
    ensures ended == AbortRows(db, p).actions
  {
    forall a | a in ended ensures ended[a] == AbortRows(db, p).actions[a] {
      AbortInTwo(db.actions[a]);
    }
  }

  lemma AbortInTwo(act: Action)
    ensures AbortState(AbortMembers(act)) == AbortAction(act)
  {
  }

  function AbortMembers(act: Action): Action {
    act.(members := SettleAll(act.members, if act.kind.UploadMedia? then SkipOutcome() else Outcome(Unresolved, PlanChangedAfterDispatch, 0)))
  }

  function AbortState(act: Action): Action {
    Finish(act, Terminal, if act.kind.UploadMedia? then Skipped else Unresolved)
  }

  /** The product rows an abort locks. */
  function PlannedProducts(db: Tables, p: int): set<int> {
    set a | a in db.actions && Abortable(db, p, a) && IsProduct(db.actions[a].kind)
  }

  lemma AbortNeedsProduct(db: Tables, p: int)
    requires p in db.plans && Attempted(db, p)
    ensures CanAbort(db, p) <==> |PlannedProducts(db, p)| > 0
  {
    if CanAbort(db, p) {
      var a :| a in db.actions && Abortable(db, p, a) && IsProduct(db.actions[a].kind);
      assert a in PlannedProducts(db, p);
    }
    if |PlannedProducts(db, p)| > 0 {
      var a :| a in PlannedProducts(db, p);
      assert a in db.actions && Abortable(db, p, a) && IsProduct(db.actions[a].kind);
    }
  }

  // ---------------------------------------------------------------- a new plan

  /** The plan, its actions and its identities are well formed, before any row is looked at. */
  predicate DraftsOk(p: int, drafts: map<int, Action>, observed: seq<IdentityDraft>) {
    && (forall a :: a in drafts ==> DraftOk(drafts[a], p))
    && (forall i :: 0 <= i < |observed| ==> Observed(observed[i].state))
  }
}
