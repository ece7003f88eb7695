/**
 The publication journal: one value per table, and the SQL statements that several
 transactions share as functions on them.
 */
module Tables {
  import opened Common
  import opened Publication
  import Reducers

  datatype Key = Key(seller: string, vendor: string)

  datatype IdentityState =
    RemoteMissing | RemotePresent | RemoteConflict | MutationPending | BlockedUncertain | IdentityRejected

  datatype Identity = Identity(state: IdentityState, nmId: int, imtId: int, subjectId: int, active: Option<int>)

  /** A position in a seller's Error List; the batch UUID is kept as its rank in the text order. */
  datatype Stamp = Stamp(updatedAt: int, uuid: int)

  datatype ErrorBatch = ErrorBatch(seller: string, stamp: Stamp, rejected: seq<string>)

  datatype Answer = Answer(submission: Submission, at: int)

  datatype Attempt = Attempt(startedAt: int, baseline: Option<Stamp>, answer: Option<Answer>)

  datatype Retry = Retry(startedAt: int, answer: Option<Answer>)

  datatype ActionState = Planned | Dispatching | Reconciling | Terminal | Superseded

  /** An action row with its member, attempt and retry rows; the schema allows one of each of the last two. */
  datatype Action = Action(plan: int, seller: string, kind: ActionKind, request: Request, members: seq<Member>,
                           state: ActionState, revision: nat, outcome: Option<ResultClass>,
                           attempt: Option<Attempt>, retry: Option<Retry>)

  datatype PlanState = Awaiting | Executing | PlanTerminal | PlanSuperseded

  datatype Plan = Plan(state: PlanState, outcome: Option<ResultClass>)

  datatype Tables = Tables(plans: map<int, Plan>, actions: map<int, Action>,
                           identities: map<Key, Identity>, batches: map<int, ErrorBatch>)

  predicate Finished(s: ActionState) { s.Terminal? || s.Superseded? }

  predicate Blocking(cls: ResultClass) { cls.Unresolved? || cls.InternalError? }

  function KeyOf(act: Action, i: nat): Key
    requires i < |act.members|
  {
    Key(act.seller, act.members[i].vendor)
  }

  function Keys(act: Action): (keys: seq<Key>)
    ensures |keys| == |act.members|
    ensures forall i :: 0 <= i < |keys| ==> keys[i] == KeyOf(act, i)
  {
    seq(|act.members|, i requires 0 <= i < |act.members| => KeyOf(act, i))
  }

  predicate Answered(act: Action) {
    act.attempt.Some? && act.attempt.value.answer.Some?
  }

  predicate AllPending(act: Action) {
    forall i :: 0 <= i < |act.members| ==> Pending(act.members[i])
  }

  predicate AllSettled(act: Action) {
    forall i :: 0 <= i < |act.members| ==> !Pending(act.members[i])
  }

  function SetOutcome(m: Member, o: Outcome): Member {
    m.(outcome := Some(o))
  }

  /** The members of an action that is finished as a whole, all with the same outcome. */
  function SettleAll(members: seq<Member>, o: Outcome): (settled: seq<Member>)
    ensures |settled| == |members|
    ensures forall i :: 0 <= i < |members| ==>
              settled[i] == if Pending(members[i]) then SetOutcome(members[i], o) else members[i]
  {
    seq(|members|, i requires 0 <= i < |members| =>
      if Pending(members[i]) then SetOutcome(members[i], o) else members[i])
  }

  function Finish(act: Action, state: ActionState, cls: ResultClass): Action {
    act.(state := state, outcome := Some(cls), revision := act.revision + 1)
  }

  function WithAnswer(act: Action, s: Submission, now: int): Action
    requires act.attempt.Some?
  {
    act.(attempt := Some(act.attempt.value.(answer := Some(Answer(s, now)))))
  }

  // ---------------------------------------------------------------- statements on a product identity

  predicate Free(identity: Identity) {
    identity.state.RemoteMissing? && identity.active.None?
  }

  function Bind(identities: map<Key, Identity>, keys: seq<Key>, a: int): map<Key, Identity> {
    map k | k in identities ::
      if k in keys && Free(identities[k]) then identities[k].(state := MutationPending, active := Some(a))
      else identities[k]
  }

  /** The rows the binding statement changes. */
  function BoundRows(identities: map<Key, Identity>, keys: seq<Key>): set<Key> {
    set k | k in identities && k in keys && Free(identities[k])
  }

  function Block(identities: map<Key, Identity>, keys: seq<Key>, a: int): map<Key, Identity> {
    map k | k in identities ::
      if k in keys && identities[k].active == Some(a) && identities[k].state.MutationPending?
      then identities[k].(state := BlockedUncertain)
      else identities[k]
  }

  /** Finishes the member at `i` of action `a` and rewrites the identity of its vendor code. */
  function Settle(db: Tables, a: int, i: nat, o: Outcome, attributed: bool, identity: Identity): Tables
    requires a in db.actions && i < |db.actions[a].members|
  {
    var act := db.actions[a];
    var m := SetOutcome(act.members[i], o);
    var members := act.members[i := m.(attributed := m.attributed || attributed)];
    db.(actions := db.actions[a := act.(members := members)],
        identities := db.identities[KeyOf(act, i) := identity])
  }

  // ---------------------------------------------------------------- statements on plans

  predicate InPlan(db: Tables, p: int, a: int) {
    a in db.actions && db.actions[a].plan == p
  }

  predicate Unfinished(db: Tables, p: int) {
    exists a :: a in db.actions && InPlan(db, p, a) && !Finished(db.actions[a].state)
  }

  function ActionsOf(db: Tables, p: int): set<int> {
    set a | a in db.actions && InPlan(db, p, a)
  }

  function WithClass(db: Tables, p: int, cls: ResultClass): set<int> {
    set a | a in db.actions && InPlan(db, p, a) && db.actions[a].outcome == Some(cls)
  }

  function PlanTally(db: Tables, p: int): Reducers.Tally {
    Reducers.Tally(|ActionsOf(db, p)|, |WithClass(db, p, Rejected)|, |WithClass(db, p, Partial)|,
                   |WithClass(db, p, Unresolved)|, |WithClass(db, p, InternalError)|,
                   |WithClass(db, p, Success)| + |WithClass(db, p, Skipped)|)
  }

  /** Closes an executing plan once none of its actions is open. */
  function Reduce(db: Tables, p: int): Tables {
    if p in db.plans && db.plans[p].state.Executing? && !Unfinished(db, p) && ActionsOf(db, p) != {} then
      db.(plans := db.plans[p := Plan(PlanTerminal, Some(Reducers.DispatchedPlanClass(PlanTally(db, p))))])
    else db
  }

  // ---------------------------------------------------------------- media that can no longer happen

  /** A product of the plan was attributed to the card the media member waits for. */
  predicate Attributed(db: Tables, p: int, seller: string, m: Member) {
    exists c, j :: c in db.actions && 0 <= j < |db.actions[c].members| &&
      AttributedBy(db.actions[c], j, p, seller, m)
  }

  predicate AttributedBy(act: Action, j: nat, p: int, seller: string, m: Member)
    requires j < |act.members|
  {
    && act.plan == p && IsProduct(act.kind) && act.seller == seller
    && act.members[j].attributed && act.members[j].itemTarget == m.itemTarget
    && act.members[j].vendor == m.vendor && act.members[j].groupTarget == m.groupTarget
  }

  predicate Targets(members: seq<Member>, item: int) {
    exists i :: 0 <= i < |members| && members[i].itemTarget == item
  }

  /** Planned media of the plan that waits for one of `members` and lacks its attribution. */
  predicate Hopeless(db: Tables, p: int, seller: string, members: seq<Member>, act: Action) {
    && act.plan == p && act.kind.UploadMedia? && act.state.Planned? && |act.members| == 1
    && Targets(members, act.members[0].itemTarget)
    && !Attributed(db, p, seller, act.members[0])
  }

  function SkipOutcome(): Outcome { Outcome(Skipped, AttributionUnavailable, 0) }

  function Skip(act: Action): Action {
    Finish(act, Terminal, Skipped).(members := SettleAll(act.members, SkipOutcome()))
  }

  function SkipMedia(db: Tables, p: int, seller: string, members: seq<Member>): Tables {
    db.(actions := map b | b in db.actions ::
          if Hopeless(db, p, seller, members, db.actions[b]) then Skip(db.actions[b]) else db.actions[b])
  }
}
