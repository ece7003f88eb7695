/**
 The journal as the repository updates it: statement by statement inside a transaction, with every
 statement's row count checked and everything restored when one of them misses.
 */
module JournalStore {
  import opened Common
  import opened Publication
  import opened Tables
  import opened Transactions
  import opened Slots
  import opened Folds
  import opened Invariant
  import opened Preservation
  import opened JournalStatements
  import Evidence
  import Reducers
  import Submissions

  class PublicationJournal {
    var plans: map<int, Plan>
    var actions: map<int, Action>
    var identities: map<Key, Identity>
    var batches: map<int, ErrorBatch>

    function Rows(): Tables
      reads this
    {
      Tables(plans, actions, identities, batches)
    }

    constructor ()
      ensures Rows() == Tables(map[], map[], map[], map[])
    {
      plans, actions, identities, batches := map[], map[], map[], map[];
    }

    /** Puts the tables back to what they were when the transaction began. */
    method Rollback(before: Tables)
      modifies this
      ensures Rows() == before
    {
      plans, actions, identities, batches := before.plans, before.actions, before.identities, before.batches;
    }

    // -------------------------------------------------------------- the product attempt

    /** Binds the identities, starts the action and its plan, and inserts the attempt. */
    method BeginProductAttempt(a: int, baseline: Option<Stamp>, now: int) returns (ok: bool)
      modifies this
      ensures ok <==> CanBeginAttempt(old(Rows()), a)
      ensures Rows() == if ok then BeginAttempt(old(Rows()), a, baseline, now) else old(Rows())
    {
      var before := Rows();
      if a !in actions || !IsProduct(actions[a].kind) || !actions[a].state.Planned? || actions[a].attempt.Some? {
        return false;
      }
      var act := actions[a];
      var rows := BoundRows(identities, Keys(act));
      identities := Bind(identities, Keys(act), a);
      if |rows| != |act.members| {
        Rollback(before);
        return false;
      }
      actions := actions[a := act.(state := Dispatching, revision := act.revision + 1)];
      if act.plan !in plans || !(plans[act.plan].state.Awaiting? || plans[act.plan].state.Executing?) {
        Rollback(before);
        return false;
      }
      plans := plans[act.plan := Plan(Executing, None)];
      actions := actions[a := actions[a].(attempt := Some(Attempt(now, baseline, None)))];
      ok := true;
    }

    /** Stores the marketplace's answer; a proven rejection settles every member at once. */
    method RecordSubmission(a: int, s: Submission, now: int) returns (ok: bool)
      requires Inv(Rows())
      modifies this
      ensures ok <==> if s.disposition.RejectedProven? then CanReject(old(Rows()), a, s, now)
                      else CanAwaitEvidence(old(Rows()), a, s)
      ensures Rows() == if !ok then old(Rows())
                        else if s.disposition.RejectedProven? then Reject(old(Rows()), a, s, now)
                        else AwaitEvidence(old(Rows()), a, s, now)
    {
      var valid := Submissions.Validate(s);
      if !valid || !InDispatch(Rows(), a) || !IsProduct(actions[a].kind) {
        return false;
      }
      if s.disposition.RejectedProven? {
        ok := RecordRejection(a, s, now);
      } else {
        ok := true;
        RecordUnproved(a, s, now);
      }
    }

    method RecordUnproved(a: int, s: Submission, now: int)
      requires InDispatch(Rows(), a)
      modifies this
      ensures Rows() == AwaitEvidence(old(Rows()), a, s, now)
    {
      var act := actions[a];
      actions := actions[a := WithAnswer(act, s, now)];
      actions := actions[a := actions[a].(state := Reconciling, revision := act.revision + 1)];
      assert actions == old(actions)[a := actions[a]];
      if s.disposition.Uncertain? {
        assert Keys(act) == Keys(WithAnswer(act, s, now));
        identities := Block(identities, Keys(act), a);
      }
    }

    method RecordRejection(a: int, s: Submission, now: int) returns (ok: bool)
      requires Inv(Rows()) && InDispatch(Rows(), a) && IsProduct(actions[a].kind)
      requires Submissions.Valid(s) && s.disposition.RejectedProven?
      modifies this
      ensures ok <==> CanReject(old(Rows()), a, s, now)
      ensures Rows() == if ok then Reject(old(Rows()), a, s, now) else old(Rows())
    {
      var before := Rows();
      var act := actions[a];
      if |s.members| != |act.members| {
        return false;
      }
      assert ActionOk(act);
      AnswerKeepsSlots(before, a, s, now);
      actions := actions[a := WithAnswer(act, s, now)];
      ghost var answered := Rows();
      ok := SettleRejected(a, s.members);
      if !ok {
        Rollback(before);
        return;
      }
      RejectMembersKeeps(answered, a, |act.members|, s.members);
      CloseAction(a, RejectionClass(act.members, s.members));
    }

    /** The member loop of a proven rejection; false when a row is not as expected. */
    method SettleRejected(a: int, verdicts: seq<MemberVerdict>) returns (ok: bool)
      requires a in actions
      modifies this
      ensures var n := |old(actions)[a].members|;
              && (ok <==> RejectMembers(old(Rows()), a, n, verdicts).Some?)
              && (ok ==> Rows() == RejectMembers(old(Rows()), a, n, verdicts).value)
              && (ok ==> a in actions)
    {
      ghost var before := Rows();
      var n, i := |actions[a].members|, 0;
      while i < n
        invariant 0 <= i <= n
        invariant RejectMembers(before, a, i, verdicts) == Some(Rows())
        invariant a in actions && |actions[a].members| == n
      {
        var act := actions[a];
        var verdict := VerdictOf(verdicts, act.members[i].id);
        var k := KeyOf(act, i);
        if verdict.None? || act.members[i].outcome.Some? || k !in identities || identities[k].active != Some(a) {
          RejectMissed(before, a, i, n, verdicts);
          return false;
        }
        var v := verdict.value;
        actions := actions[a := act.(members := act.members[i := SetOutcome(act.members[i], Outcome(v.cls, v.code, 0))])];
        identities := identities[k :=
          if v.cls.InternalError? then identities[k].(state := BlockedUncertain)
          else identities[k].(state := IdentityRejected, active := None)];
        i := i + 1;
      }
      ok := true;
    }

    /** Skips the media that waited in vain, ends the action and reduces its plan. */
    method CloseAction(a: int, cls: ResultClass)
      requires a in actions && IsProduct(actions[a].kind)
      requires forall b :: b in actions && b != a ==> ActionOk(actions[b])
      modifies this
      ensures Rows() == Close(old(Rows()), a, cls)
    {
      ghost var before := Rows();
      var act := actions[a];
      FinishPotentialMedia(act.plan, act.seller, act.members);
      actions := actions[a := Finish(act, Terminal, cls)];
      ReducePlan(act.plan);
    }

    /** First the member rows, then the actions none of whose members is left open. */
    method FinishPotentialMedia(p: int, seller: string, members: seq<Member>)
      requires forall b :: b in actions && actions[b].kind.UploadMedia? ==> ActionOk(actions[b])
      modifies this
      ensures Rows() == SkipMedia(old(Rows()), p, seller, members)
    {
      var before := Rows();
      var rows := map b | b in actions :: SkipRows(before, p, seller, members, actions[b]);
      actions := rows;
      actions := map b | b in actions :: SkipIfDone(p, members, actions[b]);
      var skipped := SkipMedia(before, p, seller, members).actions;
      forall b | b in before.actions ensures actions[b] == skipped[b] {
        SkipInTwo(before, p, seller, members, before.actions[b]);
        assert rows[b] == SkipRows(before, p, seller, members, before.actions[b]);
      }
      assert actions == skipped;
    }

    method ReducePlan(p: int)
      modifies this
      ensures Rows() == Reduce(old(Rows()), p)
    {
      if p !in plans || !plans[p].state.Executing? {
        return;
      }
      if Unfinished(Rows(), p) {
        return;
      }
      var tally := PlanTally(Rows(), p);
      if tally.total > 0 {
        plans := plans[p := Plan(PlanTerminal, Some(Reducers.DispatchedPlanClass(tally)))];
      }
    }

    // -------------------------------------------------------------- the retry

    method BeginProductRetry(a: int, now: int) returns (ok: bool)
      modifies this
      ensures ok <==> CanBeginRetry(old(Rows()), a, now)
      ensures Rows() == if ok then BeginRetry(old(Rows()), a, now) else old(Rows())
    {
      if a !in actions || !IsProduct(actions[a].kind) || !actions[a].state.Reconciling? || actions[a].retry.Some? {
        return false;
      }
      var act := actions[a];
      if !Answered(act) || act.attempt.value.answer.value.at > now - RetryDelay ||
         !Unreadable(act.attempt.value.answer.value.submission) {
        return false;
      }
      actions := actions[a := act.(retry := Some(Retry(now, None)))];
      actions := actions[a := actions[a].(revision := act.revision + 1)];
      assert actions == old(actions)[a := actions[a]];
      ok := true;
    }

    /** A retry's proven rejection must name each member of the action once. */
    method RecordProductRetry(a: int, s: Submission, now: int) returns (ok: bool)
      requires Inv(Rows())
      modifies this
      ensures ok <==> CanRecordRetry(old(Rows()), a, s)
      ensures Rows() == if ok then RecordRetry(old(Rows()), a, s, now) else old(Rows())
    {
      var valid := Submissions.Validate(s);
      if !valid || a !in actions || !IsProduct(actions[a].kind) || !actions[a].state.Reconciling? ||
         actions[a].retry.None? || actions[a].retry.value.answer.Some? {
        return false;
      }
      var act := actions[a];
      if s.disposition.RejectedProven? {
        assert ActionOk(act);
        var covered := CoversMembers(act.members, s.members);
        if !covered {
          return false;
        }
      }
      actions := actions[a := act.(retry := Some(act.retry.value.(answer := Some(Answer(s, now)))))];
      actions := actions[a := actions[a].(revision := act.revision + 1)];
      assert actions == old(actions)[a := actions[a]];
      ok := true;
    }

    // -------------------------------------------------------------- reconciliation

    /** The member loop of a poll; false when a row is not as expected. */
    method RecordMembers(a: int, results: seq<MemberResult>) returns (ok: bool)
      requires a in actions
      modifies this
      ensures ok <==> RecordAll(old(Rows()), a, results).Some?
      ensures ok ==> Rows() == RecordAll(old(Rows()), a, results).value && a in actions
    {
      ghost var before := Rows();
      var i := 0;
      while i < |results|
        invariant 0 <= i <= |results|
        invariant RecordAll(before, a, results[..i]) == Some(Rows())
        invariant a in actions
      {
        assert results[..i + 1][..i] == results[..i];
        ok := RecordMember(a, results[i]);
        if !ok {
          RecordMissed(before, a, results, i);
          return;
        }
        i := i + 1;
      }
      assert results[..i] == results;
      ok := true;
    }

    method RecordMember(a: int, r: MemberResult) returns (ok: bool)
      requires a in actions
      modifies this
      ensures ok <==> RecordOne(old(Rows()), a, r).Some?
      ensures ok ==> Rows() == RecordOne(old(Rows()), a, r).value && a in actions
      ensures !ok ==> Rows() == old(Rows())
    {
      var act := actions[a];
      var at := Find(act.members, r.memberId);
      FindsOnly(act.members, r.memberId);
      if at.None? || act.members[at.value].outcome.Some? {
        return false;
      }
      var i := at.value;
      var m, k := act.members[i], KeyOf(act, i);
      if k !in identities || identities[k].active != Some(a) || (r.attributed && m.attributed) ||
         (r.errorBatchId > 0 && !Correlated(Rows(), act, r.errorBatchId, m.vendor)) {
        return false;
      }
      actions := actions[a := act.(members := act.members[i := SetOutcome(m, Outcome(r.cls, r.code, r.nmId))])];
      var state, active := BlockedUncertain, identities[k].active;
      if r.cls.Rejected? {
        state, active := IdentityRejected, None;
      } else if r.nmId > 0 && r.imtId > 0 && r.subjectId > 0 {
        state, active := RemotePresent, None;
      }
      identities := identities[k := Identity(state, r.nmId, r.imtId, r.subjectId, active)];
      if r.attributed {
        var member := actions[a].members[i];
        actions := actions[a := actions[a].(members := actions[a].members[i := member.(attributed := true)])];
      }
      assert actions[a].members == act.members[i := actions[a].members[i]];
      assert actions == old(actions)[a := actions[a]];
      ok := true;
    }

    method RecordReconciliationPoll(a: int, results: seq<MemberResult>) returns (ok: bool)
      requires Inv(Rows())
      modifies this
      ensures ok <==> CanPoll(old(Rows()), a, results)
      ensures Rows() == if ok then Poll(old(Rows()), a, results) else old(Rows())
    {
      var before := Rows();
      if a !in actions || !IsProduct(actions[a].kind) || !actions[a].state.Reconciling? || !Answered(actions[a]) {
        return false;
      }
      ok := Evidence.ValidateResults(actions[a].members, results);
      if ok {
        ok := RecordMembers(a, results);
        if !ok {
          Rollback(before);
        }
      }
    }

    method FinishReconciliation(a: int, results: seq<MemberResult>, cls: ResultClass) returns (ok: bool)
      requires Inv(Rows())
      modifies this
      ensures ok <==> CanConclude(old(Rows()), a, results)
      ensures Rows() == if ok then Conclude(old(Rows()), a, results, cls) else old(Rows())
    {
      var before := Rows();
      ok := RecordReconciliationPoll(a, results);
      if !ok {
        return;
      }
      RecordAllTouches(before, a, results);
      if !AllSettled(actions[a]) {
        Rollback(before);
        return false;
      }
      CloseAction(a, cls);
    }

    // -------------------------------------------------------------- planning

    /** Keeps the last draft of each identity, then inserts or refreshes the rows in one statement. */
    method UpsertIdentities(drafts: seq<IdentityDraft>)
      requires forall i :: 0 <= i < |drafts| ==> Observed(drafts[i].state)
      modifies this
      ensures Rows() == old(Rows()).(identities := Upsert(old(identities), drafts))
    {
      var latest: map<Key, IdentityDraft> := map[];
      var i := 0;
      while i < |drafts|
        invariant 0 <= i <= |drafts|
        invariant Rows() == old(Rows())
        invariant forall k :: k in latest <==> LastDraft(drafts[..i], k).Some?
        invariant forall k :: k in latest ==> latest[k] == LastDraft(drafts[..i], k).value
      {
        assert drafts[..i + 1][..i] == drafts[..i];
        latest := latest[drafts[i].key := drafts[i]];
        i := i + 1;
      }
      assert drafts[..i] == drafts;
      var merged := map k | k in identities.Keys + latest.Keys :: Merged(identities, latest, k);
      forall k ensures k in merged <==> k in Upsert(identities, drafts)
               ensures k in merged ==> merged[k] == Upsert(identities, drafts)[k]
      {
        UpsertTakesLast(identities, drafts, k);
      }
      assert merged == Upsert(identities, drafts);
      identities := merged;
    }

    method InsertPublicationPlan(p: int, drafts: map<int, Action>, observed: seq<IdentityDraft>, preflight: ResultClass)
      returns (ok: bool)
      modifies this
      ensures ok <==> CanInsertPlan(old(Rows()), p, drafts, observed)
      ensures Rows() == if ok then InsertPlan(old(Rows()), p, drafts, observed, preflight) else old(Rows())
    {
      var before := Rows();
      if !DraftsOk(p, drafts, observed) || p in plans {
        return false;
      }
      plans := plans[p := if drafts == map[] then Plan(PlanTerminal, Some(preflight)) else Plan(Awaiting, None)];
      if exists a :: a in drafts && a in actions {
        Rollback(before);
        return false;
      }
      actions := actions + drafts;
      UpsertIdentities(observed);
      ok := true;
    }

    // -------------------------------------------------------------- stopping a plan

    method SupersedePlan(p: int) returns (ok: bool)
      modifies this
      ensures ok <==> CanSupersede(old(Rows()), p)
      ensures Rows() == if ok then Supersede(old(Rows()), p) else old(Rows())
    {
      var before := Rows();
      if Attempted(Rows(), p) {
        return false;
      }
      var expected := |ActionsOf(Rows(), p)|;
      var rows := FinishSuperseded(p);
      AllPlannedIff(before, p);
      if rows != expected || p !in plans || !plans[p].state.Awaiting? {
        Rollback(before);
        return false;
      }
      plans := plans[p := Plan(PlanSuperseded, Some(Skipped))];
      ok := true;
    }

    /** First the open member rows of the plan, then its planned actions; counts the latter. */
    method FinishSuperseded(p: int) returns (rows: nat)
      modifies this
      ensures rows == |PlannedIn(old(Rows()), p)|
      ensures plans == old(plans) && identities == old(identities) && batches == old(batches)
      ensures CanSupersede(old(Rows()), p) ==> actions == Supersede(old(Rows()), p).actions
    {
      ghost var before := Rows();
      var settled := map a | a in actions :: SettleIf(actions[a].plan == p, actions[a]);
      actions := settled;
      rows := |PlannedIn(Rows(), p)|;
      assert PlannedIn(Rows(), p) == PlannedIn(before, p);
      actions := map a | a in settled :: SupersedeIf(settled[a].plan == p && settled[a].state.Planned?, settled[a]);
      if CanSupersede(before, p) {
        SupersededInTwo(before, p, settled, actions);
      }
    }

    method AbortPlan(p: int) returns (ok: bool)
      modifies this
      ensures ok <==> CanAbort(old(Rows()), p)
      ensures Rows() == if ok then Abort(old(Rows()), p) else old(Rows())
    {
      if p !in plans || !Attempted(Rows(), p) {
        return false;
      }
      ghost var before := Rows();
      var locked := PlannedProducts(Rows(), p);
      AbortNeedsProduct(before, p);
      if |locked| == 0 {
        return false;
      }
      BlockWanted(p);
      AbortedAlike(before, Rows(), p);
      FinishAborted(p);
      assert Rows() == AbortRows(before, p);
      ReducePlan(p);
      ok := true;
    }

    method BlockWanted(p: int)
      modifies this
      ensures Rows() == old(Rows()).(identities := AbortRows(old(Rows()), p).identities)
    {
      var before := Rows();
      identities := map k | k in identities ::
        if Free(identities[k]) && WantedBy(before, p, k) then identities[k].(state := BlockedUncertain) else identities[k];
      assert identities == AbortRows(before, p).identities;
    }

    /** First the member rows of the planned actions, then the actions themselves. */
    method FinishAborted(p: int)
      modifies this
      ensures Rows() == old(Rows()).(actions := AbortRows(old(Rows()), p).actions)
    {
      var before := Rows();
      var settled := map a | a in actions :: if Abortable(before, p, a) then AbortMembers(actions[a]) else actions[a];
      actions := settled;
      actions := map a | a in settled ::
        if settled[a].plan == p && settled[a].state.Planned? then AbortState(settled[a]) else settled[a];
      AbortedInTwo(before, p, settled, actions);
    }

    // -------------------------------------------------------------- media

    method BeginMediaAttempt(a: int, nm: int, baseline: Option<Stamp>, now: int) returns (ok: bool)
      modifies this
      ensures ok <==> CanBeginMedia(old(Rows()), a, nm)
      ensures Rows() == if ok then BeginMedia(old(Rows()), a, baseline, now) else old(Rows())
    {
      var before := Rows();
      if !IsMedia(Rows(), a) || !actions[a].state.Planned? || actions[a].attempt.Some? {
        return false;
      }
      var act := actions[a];
      var k := KeyOf(act, 0);
      if !MediaCardIs(Rows(), act, nm, None) {
        return false;
      }
      identities := identities[k := identities[k].(active := Some(a))];
      actions := actions[a := act.(state := Dispatching, revision := act.revision + 1)];
      if !PlanOpen(Rows(), act.plan) {
        Rollback(before);
        return false;
      }
      plans := plans[act.plan := Plan(Executing, None)];
      actions := actions[a := actions[a].(attempt := Some(Attempt(now, baseline, None)))];
      assert actions == before.actions[a := actions[a]];
      ok := true;
    }

    method FinishMediaWithoutAttempt(a: int) returns (ok: bool)
      modifies this
      ensures ok <==> CanSkipMedia(old(Rows()), a)
      ensures Rows() == if ok then SkipMediaAction(old(Rows()), a) else old(Rows())
    {
      var before := Rows();
      if !IsMedia(Rows(), a) || !actions[a].state.Planned? || actions[a].attempt.Some? {
        return false;
      }
      var act := actions[a];
      if act.members[0].outcome.Some? {
        return false;
      }
      actions := actions[a := act.(members := [SetOutcome(act.members[0], SkipOutcome())])];
      actions := actions[a := Finish(actions[a], Terminal, Skipped)];
      if act.plan !in plans {
        Rollback(before);
        return false;
      }
      assert actions[a].members == SettleAll(act.members, SkipOutcome());
      assert actions == before.actions[a := Skip(act)];
      ReducePlan(act.plan);
      ok := true;
    }

    /** Ends a media action and frees the card it held; the card must still be the one it was begun for. */
    method FinishMediaAction(a: int, nm: int, o: Outcome) returns (ok: bool)
      modifies this
      ensures ok <==> CanFinishMedia(old(Rows()), a, nm)
      ensures Rows() == if ok then FinishMedia(old(Rows()), a, o) else old(Rows())
    {
      var before := Rows();
      if !IsMedia(Rows(), a) || actions[a].members[0].outcome.Some? ||
         !(actions[a].state.Dispatching? || actions[a].state.Reconciling?) {
        return false;
      }
      var act := actions[a];
      var k := KeyOf(act, 0);
      actions := actions[a := act.(members := [SetOutcome(act.members[0], o)])];
      actions := actions[a := Finish(actions[a], Terminal, o.cls)];
      if k !in identities || !identities[k].state.RemotePresent? || identities[k].nmId != nm ||
         identities[k].active != Some(a) || act.plan !in plans {
        Rollback(before);
        return false;
      }
      identities := identities[k := identities[k].(active := None)];
      assert actions[a].members == SettleAll(act.members, o);
      assert actions == before.actions[a := actions[a]];
      ReducePlan(act.plan);
      ok := true;
    }

    // -------------------------------------------------------------- resolution

    method ApplyResolution(a: int, i: nat, revision: nat, ruling: Ruling) returns (ok: bool)
      requires Inv(Rows())
      modifies this
      ensures ok <==> Resolvable(old(Rows()), a, i, revision) && RulingProved(old(Rows()), a, i, ruling) &&
                      AllSettled(old(actions)[a])
      ensures Rows() == if ok then Resolve(old(Rows()), a, i, ruling) else old(Rows())
    {
      if !Resolvable(Rows(), a, i, revision) || !RulingProved(Rows(), a, i, ruling) {
        return false;
      }
      var before := Rows();
      assert ActionOk(actions[a]);
      CorrectedKeeps(before, a, i, revision, ruling);
      CorrectMember(a, i, ruling);
      ReduceResolved(a);
      ok := true;
    }

    /** Recomputes the class of a finished action from its members, and of its plan from its actions. */
    method ReduceResolved(a: int)
      requires a in actions && AllSettled(actions[a])
      modifies this
      ensures Rows() == Resolved(old(Rows()), a)
    {
      var act := actions[a];
      var tally := TallyMembers(act.members);
      actions := actions[a := act.(outcome := Some(Reducers.ResolvedActionClass(tally)), revision := act.revision + 1)];
      plans := plans[act.plan := Plan(PlanTerminal, Some(Reducers.ResolvedPlanClass(PlanTally(Rows(), act.plan))))];
    }

    method CorrectMember(a: int, i: nat, ruling: Ruling)
      requires a in actions && i < |actions[a].members| && KeyOf(actions[a], i) in identities
      modifies this
      ensures Rows() == Corrected(old(Rows()), a, i, ruling)
    {
      var act := actions[a];
      var m, k := act.members[i], KeyOf(act, i);
      match ruling {
        case MarkPresent(card, _, _) =>
          var o := Outcome(Success, ManualRemotePresent, card.nmId);
          actions := actions[a := act.(members := act.members[i := SetOutcome(m, o).(attributed := true)])];
          identities := identities[k := Identity(RemotePresent, card.nmId, card.imtId, card.subjectId, None)];
        case MarkRejected(_) =>
          var o := Outcome(Rejected, ManualErrorListRejected, 0);
          actions := actions[a := act.(members := act.members[i := SetOutcome(m, o)])];
          if identities[k].state.RemotePresent? {
            identities := identities[k := identities[k].(active := None)];
          } else {
            identities := identities[k := Identity(IdentityRejected, 0, 0, 0, None)];
          }
        case CloseNoRetry =>
      }
    }
  }
}
