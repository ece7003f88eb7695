/**
 Every transaction of the publication journal as a guard and an effect on the tables.
 A transaction whose guard fails is rolled back.
 */
module Transactions {
  import opened Common
  import opened Publication
  import opened Tables
  import Evidence
  import Reducers
  import Submissions

  // ---------------------------------------------------------------- plans

  datatype IdentityDraft = IdentityDraft(key: Key, state: IdentityState, nmId: int, imtId: int, subjectId: int)

  /** What planning may observe about an identity. */
  predicate Observed(s: IdentityState) { s.RemoteMissing? || s.RemotePresent? || s.RemoteConflict? }

  predicate DraftOk(act: Action, p: int) {
    && act.plan == p && act.members != [] && act.state.Planned? && act.revision == 0
    && act.outcome.None? && act.attempt.None? && act.retry.None?
    && AllPending(act)
    && (act.kind.UploadMedia? ==> |act.members| == 1)
    && (forall i :: 0 <= i < |act.members| ==> act.members[i].id > 0 && !act.members[i].attributed)
    && (forall i, j :: 0 <= i < j < |act.members| ==> act.members[i].id != act.members[j].id)
  }

  /** Inserts or refreshes one identity; a locked identity keeps its row. */
  function UpsertOne(identities: map<Key, Identity>, d: IdentityDraft): map<Key, Identity> {
    if d.key !in identities then identities[d.key := Identity(d.state, d.nmId, d.imtId, d.subjectId, None)]
    else
      var row := identities[d.key];
      if row.state.MutationPending? || row.state.BlockedUncertain? then identities
      else identities[d.key := Identity(d.state, d.nmId, d.imtId, d.subjectId, row.active)]
  }

  /** Position order: the last draft of a key wins. */
  function Upsert(identities: map<Key, Identity>, drafts: seq<IdentityDraft>): map<Key, Identity> {
    if drafts == [] then identities
    else
      var n := |drafts| - 1;
      UpsertOne(Upsert(identities, drafts[..n]), drafts[n])
  }

  predicate CanInsertPlan(db: Tables, p: int, drafts: map<int, Action>, identities: seq<IdentityDraft>) {
    && p !in db.plans
    && (forall a :: a in drafts ==> a !in db.actions && DraftOk(drafts[a], p))
    && (forall i :: 0 <= i < |identities| ==> Observed(identities[i].state))
  }

  function InsertPlan(db: Tables, p: int, drafts: map<int, Action>, identities: seq<IdentityDraft>,
                      preflight: ResultClass): Tables
  {
    var plan := if drafts == map[] then Plan(PlanTerminal, Some(preflight)) else Plan(Awaiting, None);
    Tables(db.plans[p := plan], db.actions + drafts, Upsert(db.identities, identities), db.batches)
  }

  // ---------------------------------------------------------------- the product attempt

  predicate PlanOpen(db: Tables, p: int) {
    p in db.plans && (db.plans[p].state.Awaiting? || db.plans[p].state.Executing?)
  }

  function StartPlan(db: Tables, p: int): map<int, Plan> {
    db.plans[p := Plan(Executing, None)]
  }

  predicate CanBeginAttempt(db: Tables, a: int) {
    && a in db.actions
    && var act := db.actions[a];
       && IsProduct(act.kind) && act.state.Planned? && act.attempt.None?
       && |BoundRows(db.identities, Keys(act))| == |act.members|
       && PlanOpen(db, act.plan)
  }

  function BeginAttempt(db: Tables, a: int, baseline: Option<Stamp>, now: int): Tables
    requires CanBeginAttempt(db, a)
  {
    var act := db.actions[a];
    var begun := act.(state := Dispatching, revision := act.revision + 1, attempt := Some(Attempt(now, baseline, None)));
    db.(plans := StartPlan(db, act.plan), actions := db.actions[a := begun],
        identities := Bind(db.identities, Keys(act), a))
  }

  predicate InDispatch(db: Tables, a: int) {
    && a in db.actions && db.actions[a].state.Dispatching?
    && db.actions[a].attempt.Some? && db.actions[a].attempt.value.answer.None?
  }

  /** The answer proves nothing yet: the action waits for evidence. */
  function AwaitEvidence(db: Tables, a: int, s: Submission, now: int): Tables
    requires InDispatch(db, a)
  {
    var act := WithAnswer(db.actions[a], s, now);
    db.(actions := db.actions[a := act.(state := Reconciling, revision := act.revision + 1)],
        identities := if s.disposition.Uncertain? then Block(db.identities, Keys(act), a) else db.identities)
  }

  ghost predicate CanAwaitEvidence(db: Tables, a: int, s: Submission) {
    InDispatch(db, a) && IsProduct(db.actions[a].kind) && Submissions.Valid(s) && !s.disposition.RejectedProven?
  }

  function VerdictOf(verdicts: seq<MemberVerdict>, id: int): Option<MemberVerdict> {
    if verdicts == [] then None
    else
      var n := |verdicts| - 1;
      if verdicts[n].memberId == id then Some(verdicts[n]) else VerdictOf(verdicts[..n], id)
  }

  predicate SlotIs(db: Tables, k: Key, a: int) {
    k in db.identities && db.identities[k].active == Some(a)
  }

  /** Settles member `i` by the verdict on it; None when a row is not as expected. */
  function RejectMember(db: Tables, a: int, i: nat, verdicts: seq<MemberVerdict>): Option<Tables> {
    if a !in db.actions || i >= |db.actions[a].members| then None
    else
      var act := db.actions[a];
      var verdict := VerdictOf(verdicts, act.members[i].id);
      var k := KeyOf(act, i);
      if verdict.None? || !Pending(act.members[i]) || !SlotIs(db, k, a) then None
      else
        var v := verdict.value;
        var identity := if v.cls.InternalError? then db.identities[k].(state := BlockedUncertain)
                        else db.identities[k].(state := IdentityRejected, active := None);
        Some(Settle(db, a, i, Outcome(v.cls, v.code, 0), false, identity))
  }

  function RejectMembers(db: Tables, a: int, n: nat, verdicts: seq<MemberVerdict>): Option<Tables> {
    if n == 0 then Some(db)
    else
      var front := RejectMembers(db, a, n - 1, verdicts);
      if front.None? then None else RejectMember(front.value, a, n - 1, verdicts)
  }

  predicate AnyInternal(verdicts: seq<MemberVerdict>, members: seq<Member>) {
    exists i :: 0 <= i < |members| &&
      VerdictOf(verdicts, members[i].id).Some? && VerdictOf(verdicts, members[i].id).value.cls.InternalError?
  }

  /** The rows of action `a` and its plan once every member of it is settled. */
  function Close(db: Tables, a: int, cls: ResultClass): Tables
    requires a in db.actions
  {
    var act := db.actions[a];
    var skipped := SkipMedia(db, act.plan, act.seller, act.members);
    Reduce(skipped.(actions := skipped.actions[a := Finish(act, Terminal, cls)]), act.plan)
  }

  function RecordAnswer(db: Tables, a: int, s: Submission, now: int): Tables
    requires InDispatch(db, a)
  {
    db.(actions := db.actions[a := WithAnswer(db.actions[a], s, now)])
  }

  function Rejections(db: Tables, a: int, s: Submission, now: int): Option<Tables>
    requires InDispatch(db, a)
  {
    RejectMembers(RecordAnswer(db, a, s, now), a, |db.actions[a].members|, s.members)
  }

  ghost predicate CanReject(db: Tables, a: int, s: Submission, now: int) {
    && InDispatch(db, a) && IsProduct(db.actions[a].kind) && Submissions.Valid(s) && s.disposition.RejectedProven?
    && |s.members| == |db.actions[a].members|
    && Rejections(db, a, s, now).Some? && a in Rejections(db, a, s, now).value.actions
  }

  function RejectionClass(members: seq<Member>, verdicts: seq<MemberVerdict>): ResultClass {
    if AnyInternal(verdicts, members) then InternalError else Rejected
  }

  /** The answer proves that nothing was created: every member is settled and the action ends. */
  function Reject(db: Tables, a: int, s: Submission, now: int): Tables
    requires InDispatch(db, a) && Rejections(db, a, s, now).Some? && a in Rejections(db, a, s, now).value.actions
  {
    Close(Rejections(db, a, s, now).value, a, RejectionClass(db.actions[a].members, s.members))
  }

  // ---------------------------------------------------------------- the retry

  const RetryDelay: int := 600

  /** The first answer was an HTTP 200 that could not be read. */
  predicate Unreadable(s: Submission) {
    && s.delivery.ResponseReceived? && s.httpStatus == 200 && s.disposition.Uncertain?
    && (s.code == Transport(EmptyResponse) || s.code == Transport(InvalidResponse))
  }

  predicate CanBeginRetry(db: Tables, a: int, now: int) {
    && a in db.actions
    && var act := db.actions[a];
       && IsProduct(act.kind) && act.state.Reconciling? && Answered(act) && act.retry.None?
       && Unreadable(act.attempt.value.answer.value.submission)
       && act.attempt.value.answer.value.at <= now - RetryDelay
  }

  function BeginRetry(db: Tables, a: int, now: int): Tables
    requires CanBeginRetry(db, a, now)
  {
    var act := db.actions[a];
    db.(actions := db.actions[a := act.(retry := Some(Retry(now, None)), revision := act.revision + 1)])
  }

  ghost predicate CanRecordRetry(db: Tables, a: int, s: Submission) {
    && a in db.actions && Submissions.Valid(s)
    && var act := db.actions[a];
       && IsProduct(act.kind) && act.state.Reconciling? && act.retry.Some? && act.retry.value.answer.None?
       && (s.disposition.RejectedProven? ==>
             && |s.members| == |act.members|
             && forall i :: 0 <= i < |act.members| ==> VerdictOf(s.members, act.members[i].id).Some?)
  }

  function RecordRetry(db: Tables, a: int, s: Submission, now: int): Tables
    requires a in db.actions && db.actions[a].retry.Some?
  {
    var act := db.actions[a];
    db.(actions := db.actions[a := act.(retry := Some(act.retry.value.(answer := Some(Answer(s, now)))),
                                        revision := act.revision + 1)])
  }

  // ---------------------------------------------------------------- reconciliation

  predicate After(stamp: Stamp, baseline: Option<Stamp>) {
    || baseline.None?
    || stamp.updatedAt > baseline.value.updatedAt
    || (stamp.updatedAt == baseline.value.updatedAt && stamp.uuid > baseline.value.uuid)
  }

  /** The batch was listed after the attempt's baseline and names the vendor code. */
  predicate Correlated(db: Tables, act: Action, batch: int, vendor: string) {
    && batch in db.batches && db.batches[batch].seller == act.seller
    && vendor in db.batches[batch].rejected
    && act.attempt.Some? && After(db.batches[batch].stamp, act.attempt.value.baseline)
  }

  function Find(members: seq<Member>, id: int): Option<nat> {
    if members == [] then None
    else
      var n := |members| - 1;
      if members[n].id == id then Some(n) else Find(members[..n], id)
  }

  function Ruled(identity: Identity, r: MemberResult): Identity {
    if r.cls.Rejected? then Identity(IdentityRejected, r.nmId, r.imtId, r.subjectId, None)
    else if r.nmId > 0 && r.imtId > 0 && r.subjectId > 0 then
      Identity(RemotePresent, r.nmId, r.imtId, r.subjectId, None)
    else Identity(BlockedUncertain, r.nmId, r.imtId, r.subjectId, identity.active)
  }

  /** Stores one poll result; None when a row is not as expected. */
  function RecordOne(db: Tables, a: int, r: MemberResult): Option<Tables> {
    if a !in db.actions then None
    else
      var act := db.actions[a];
      var at := Find(act.members, r.memberId);
      if at.None? || at.value >= |act.members| || !Pending(act.members[at.value]) then None
      else
        var i := at.value;
        var k := KeyOf(act, i);
        if !SlotIs(db, k, a) || (r.attributed && act.members[i].attributed) ||
           (r.errorBatchId > 0 && !Correlated(db, act, r.errorBatchId, act.members[i].vendor))
        then None
        else Some(Settle(db, a, i, Outcome(r.cls, r.code, r.nmId), r.attributed, Ruled(db.identities[k], r)))
  }

  function RecordAll(db: Tables, a: int, results: seq<MemberResult>): Option<Tables> {
    if results == [] then Some(db)
    else
      var n := |results| - 1;
      var front := RecordAll(db, a, results[..n]);
      if front.None? then None else RecordOne(front.value, a, results[n])
  }

  ghost predicate CanPoll(db: Tables, a: int, results: seq<MemberResult>) {
    && a in db.actions
    && var act := db.actions[a];
       && IsProduct(act.kind) && act.state.Reconciling? && Answered(act)
       && Evidence.ValidResults(act.members, results)
       && RecordAll(db, a, results).Some?
  }

  function Poll(db: Tables, a: int, results: seq<MemberResult>): Tables
    requires RecordAll(db, a, results).Some?
  {
    RecordAll(db, a, results).value
  }

  ghost predicate CanConclude(db: Tables, a: int, results: seq<MemberResult>) {
    && CanPoll(db, a, results)
    && a in Poll(db, a, results).actions && AllSettled(Poll(db, a, results).actions[a])
  }

  function Conclude(db: Tables, a: int, results: seq<MemberResult>, cls: ResultClass): Tables
    requires RecordAll(db, a, results).Some? && a in Poll(db, a, results).actions
  {
    Close(Poll(db, a, results), a, cls)
  }

  // ---------------------------------------------------------------- stopping a plan

  predicate Attempted(db: Tables, p: int) {
    exists a :: a in db.actions && InPlan(db, p, a) && db.actions[a].attempt.Some?
  }

  predicate CanSupersede(db: Tables, p: int) {
    && p in db.plans && db.plans[p].state.Awaiting? && !Attempted(db, p)
    && forall a :: a in db.actions && InPlan(db, p, a) ==> db.actions[a].state.Planned?
  }

  function Supersede(db: Tables, p: int): Tables
    requires CanSupersede(db, p)
  {
    var o := Outcome(Skipped, RecheckRemoteChanged, 0);
    db.(plans := db.plans[p := Plan(PlanSuperseded, Some(Skipped))],
        actions := map a | a in db.actions ::
          if InPlan(db, p, a) then
            Finish(db.actions[a], Superseded, Skipped).(members := SettleAll(db.actions[a].members, o))
          else db.actions[a])
  }

  predicate Abortable(db: Tables, p: int, a: int) {
    InPlan(db, p, a) && db.actions[a].state.Planned?
  }

  predicate CanAbort(db: Tables, p: int) {
    && p in db.plans && Attempted(db, p)
    && exists a :: a in db.actions && Abortable(db, p, a) && IsProduct(db.actions[a].kind)
  }

  /** A planned product of the plan wants this identity. */
  predicate WantedBy(db: Tables, p: int, k: Key) {
    exists a :: a in db.actions && Abortable(db, p, a) && IsProduct(db.actions[a].kind) && k in Keys(db.actions[a])
  }

  function AbortAction(act: Action): Action {
    if act.kind.UploadMedia? then Skip(act)
    else Finish(act, Terminal, Unresolved).(
      members := SettleAll(act.members, Outcome(Unresolved, PlanChangedAfterDispatch, 0)))
  }

  function AbortRows(db: Tables, p: int): Tables {
    db.(identities := map k | k in db.identities ::
          if Free(db.identities[k]) && WantedBy(db, p, k) then db.identities[k].(state := BlockedUncertain)
          else db.identities[k],
        actions := map a | a in db.actions ::
          if Abortable(db, p, a) then AbortAction(db.actions[a]) else db.actions[a])
  }

  function Abort(db: Tables, p: int): Tables {
    Reduce(AbortRows(db, p), p)
  }

  // ---------------------------------------------------------------- media

  predicate MediaCardIs(db: Tables, act: Action, nm: int, holder: Option<int>)
    requires |act.members| > 0
  {
    var k := KeyOf(act, 0);
    && k in db.identities && db.identities[k].state.RemotePresent?
    && db.identities[k].nmId == nm && db.identities[k].active == holder
  }

  predicate IsMedia(db: Tables, a: int) {
    a in db.actions && db.actions[a].kind.UploadMedia? && |db.actions[a].members| == 1
  }

  predicate CanBeginMedia(db: Tables, a: int, nm: int) {
    && IsMedia(db, a)
    && var act := db.actions[a];
       && act.state.Planned? && act.attempt.None?
       && MediaCardIs(db, act, nm, None) && PlanOpen(db, act.plan)
  }

  function BeginMedia(db: Tables, a: int, baseline: Option<Stamp>, now: int): Tables
    requires IsMedia(db, a) && KeyOf(db.actions[a], 0) in db.identities
  {
    var act := db.actions[a];
    var k := KeyOf(act, 0);
    var begun := act.(state := Dispatching, revision := act.revision + 1, attempt := Some(Attempt(now, baseline, None)));
    db.(plans := StartPlan(db, act.plan), actions := db.actions[a := begun],
        identities := db.identities[k := db.identities[k].(active := Some(a))])
  }

  predicate CanSkipMedia(db: Tables, a: int) {
    && IsMedia(db, a)
    && db.actions[a].state.Planned? && db.actions[a].attempt.None? && Pending(db.actions[a].members[0])
    && db.actions[a].plan in db.plans
  }

  function SkipMediaAction(db: Tables, a: int): Tables
    requires a in db.actions
  {
    Reduce(db.(actions := db.actions[a := Skip(db.actions[a])]), db.actions[a].plan)
  }

  /** The submission's own class says how a media call that is not followed up ends. */
  predicate CanFinishMedia(db: Tables, a: int, nm: int) {
    && IsMedia(db, a)
    && var act := db.actions[a];
       && Pending(act.members[0]) && (act.state.Dispatching? || act.state.Reconciling?)
       && MediaCardIs(db, act, nm, Some(a)) && act.plan in db.plans
  }

  function FinishMedia(db: Tables, a: int, o: Outcome): Tables
    requires IsMedia(db, a) && KeyOf(db.actions[a], 0) in db.identities
  {
    var act := db.actions[a];
    var k := KeyOf(act, 0);
    Reduce(db.(actions := db.actions[a := Finish(act, Terminal, o.cls).(members := SettleAll(act.members, o))],
               identities := db.identities[k := db.identities[k].(active := None)]), act.plan)
  }

  predicate CanRecordMedia(db: Tables, a: int, nm: int) {
    InDispatch(db, a) && CanFinishMedia(db, a, nm)
  }

  function RecordMedia(db: Tables, a: int, s: Submission, o: Outcome, now: int): Tables
    requires InDispatch(db, a) && IsMedia(db, a) && KeyOf(db.actions[a], 0) in db.identities
  {
    FinishMedia(RecordAnswer(db, a, s, now), a, o)
  }

  predicate CanScheduleVisibility(db: Tables, a: int, s: Submission) {
    InDispatch(db, a) && IsMedia(db, a) && !s.disposition.RejectedProven?
  }

  function ScheduleVisibility(db: Tables, a: int, s: Submission, now: int): Tables
    requires InDispatch(db, a)
  {
    var act := WithAnswer(db.actions[a], s, now);
    db.(actions := db.actions[a := act.(state := Reconciling, revision := act.revision + 1)])
  }

  predicate CanConcludeMedia(db: Tables, a: int, nm: int) {
    CanFinishMedia(db, a, nm) && db.actions[a].state.Reconciling? && Answered(db.actions[a])
  }

  // ---------------------------------------------------------------- manual and verified resolution

  /** A card is found present by an observation of the catalogue made at time `at`. */
  datatype Ruling = MarkPresent(card: Card, at: int, seen: Observation) | MarkRejected(batch: int) | CloseNoRetry

  function Times(vendors: seq<string>, vendor: string): nat { multiset(vendors)[vendor] }

  /** The groups of the request that name the vendor code. */
  function GroupsNaming(groups: seq<RequestGroup>, vendor: string): seq<RequestGroup> {
    if groups == [] then []
    else
      var n := |groups| - 1;
      GroupsNaming(groups[..n], vendor) + (if Times(groups[n].vendors, vendor) > 0 then [groups[n]] else [])
  }

  /** The action asked for this card: its request names the vendor code once, in the card's subject or group. */
  predicate AskedFor(kind: ActionKind, request: Request, card: Card) {
    match kind
    case CreateGroup =>
      && request.CreateRequest?
      && var groups := GroupsNaming(request.groups, card.vendor);
         |groups| == 1 && Times(groups[0].vendors, card.vendor) == 1 && groups[0].subjectId == card.subjectId
    case AddToGroup =>
      request.AddRequest? && request.imtId > 0 && request.imtId == card.imtId && Times(request.vendors, card.vendor) == 1
    case UploadMedia => false
  }

  /** Observed after the attempt began: one card with the vendor code, none in the trash, and it is what was asked for. */
  predicate PresentProved(act: Action, vendor: string, card: Card, at: int, seen: Observation) {
    && act.attempt.Some? && act.attempt.value.startedAt <= at
    && Evidence.CardsFor(seen.normal, vendor) == [card] && Evidence.TrashFor(seen.trash, vendor) == []
    && card.nmId > 0 && card.imtId > 0 && card.subjectId > 0 && card.vendor == vendor
    && AskedFor(act.kind, act.request, card)
  }

  predicate CorrectableSlot(identity: Identity, a: int) {
    || (identity.state.BlockedUncertain? && identity.active == Some(a))
    || (identity.state.RemotePresent? && identity.active.None?)
  }

  predicate Resolvable(db: Tables, a: int, i: nat, revision: nat) {
    && a in db.actions && i < |db.actions[a].members|
    && var act := db.actions[a];
       && IsProduct(act.kind) && act.state.Terminal? && act.revision == revision && Answered(act)
       && act.outcome.Some? && Blocking(act.outcome.value)
       && act.members[i].outcome.Some? && Blocking(act.members[i].outcome.value.cls)
       && KeyOf(act, i) in db.identities && CorrectableSlot(db.identities[KeyOf(act, i)], a)
       && act.plan in db.plans && db.plans[act.plan].state.PlanTerminal? && !Unfinished(db, act.plan)
  }

  predicate RulingProved(db: Tables, a: int, i: nat, ruling: Ruling)
    requires a in db.actions && i < |db.actions[a].members|
  {
    var act := db.actions[a];
    match ruling
    case MarkPresent(card, at, seen) => PresentProved(act, act.members[i].vendor, card, at, seen)
    case MarkRejected(batch) => Correlated(db, act, batch, act.members[i].vendor)
    case CloseNoRetry =>
      KeyOf(act, i) in db.identities && db.identities[KeyOf(act, i)].state.BlockedUncertain? &&
      db.identities[KeyOf(act, i)].active == Some(a)
  }

  function Corrected(db: Tables, a: int, i: nat, ruling: Ruling): Tables
    requires a in db.actions && i < |db.actions[a].members| && KeyOf(db.actions[a], i) in db.identities
  {
    var act := db.actions[a];
    var identity := db.identities[KeyOf(act, i)];
    match ruling
    case MarkPresent(card, _, _) =>
      Settle(db, a, i, Outcome(Success, ManualRemotePresent, card.nmId), true,
             Identity(RemotePresent, card.nmId, card.imtId, card.subjectId, None))
    case MarkRejected(_) =>
      Settle(db, a, i, Outcome(Rejected, ManualErrorListRejected, 0), false,
             if identity.state.RemotePresent? then identity.(active := None)
             else Identity(IdentityRejected, 0, 0, 0, None))
    case CloseNoRetry => db
  }

  function MemberClass(m: Member): ResultClass
    requires !Pending(m)
  {
    m.outcome.value.cls
  }

  function ClassesOf(members: seq<Member>): (classes: seq<ResultClass>)
    requires forall i :: 0 <= i < |members| ==> !Pending(members[i])
    ensures |classes| == |members|
    ensures forall i :: 0 <= i < |members| ==> classes[i] == MemberClass(members[i])
  {
    seq(|members|, i requires 0 <= i < |members| => MemberClass(members[i]))
  }

  /** The class of a finished action from its members, and of its plan from its actions. */
  function Resolved(db: Tables, a: int): Tables
    requires a in db.actions && AllSettled(db.actions[a])
  {
    var act := db.actions[a];
    var reduced := act.(outcome := Some(Reducers.ResolvedActionClass(Reducers.TallyOf(ClassesOf(act.members)))),
                        revision := act.revision + 1);
    var next := db.(actions := db.actions[a := reduced]);
    next.(plans := next.plans[act.plan := Plan(PlanTerminal, Some(Reducers.ResolvedPlanClass(PlanTally(next, act.plan))))])
  }

  function Resolve(db: Tables, a: int, i: nat, ruling: Ruling): Tables
    requires a in db.actions && i < |db.actions[a].members| && KeyOf(db.actions[a], i) in db.identities
    requires AllSettled(db.actions[a])
  {
    Resolved(Corrected(db, a, i, ruling), a)
  }
}
