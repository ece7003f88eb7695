/**
 Reconciliation of one product action: what the catalogue, the trash and the Error List
 say about each of its members, and the class the whole action ends with.
 */
module Evidence {
  import opened Common
  import opened Publication

  datatype Subject = Subject(kind: ActionKind, request: Request, members: seq<Member>,
                             startedAt: Option<int>)

  // ---------------------------------------------------------------- lookup by vendor code

  function CardsFor(cards: seq<Card>, vendor: string): seq<Card> {
    if cards == [] then []
    else
      var n := |cards| - 1;
      CardsFor(cards[..n], vendor) + (if cards[n].vendor == vendor then [cards[n]] else [])
  }

  function TrashFor(cards: seq<TrashCard>, vendor: string): seq<TrashCard> {
    if cards == [] then []
    else
      var n := |cards| - 1;
      TrashFor(cards[..n], vendor) + (if cards[n].vendor == vendor then [cards[n]] else [])
  }

  /** The batch once for every time it names the vendor code. */
  function Namings(batch: ErrorBatchMatch, named: seq<string>, vendor: string): seq<ErrorBatchMatch> {
    if named == [] then []
    else
      var n := |named| - 1;
      Namings(batch, named[..n], vendor) + (if named[n] == vendor then [batch] else [])
  }

  function BatchesFor(matches: seq<ErrorBatchMatch>, vendor: string): seq<ErrorBatchMatch> {
    if matches == [] then []
    else
      var n := |matches| - 1;
      BatchesFor(matches[..n], vendor) + Namings(matches[n], matches[n].rejected, vendor)
  }

  function At<T>(index: map<string, seq<T>>, vendor: string): seq<T> {
    if vendor in index then index[vendor] else []
  }

  method IndexCards(cards: seq<Card>) returns (index: map<string, seq<Card>>)
    ensures forall v :: At(index, v) == CardsFor(cards, v)
  {
    index := map[];
    var i := 0;
    while i < |cards|
      invariant 0 <= i <= |cards|
      invariant forall v :: At(index, v) == CardsFor(cards[..i], v)
    {
      assert cards[..i + 1][..i] == cards[..i];
      index := index[cards[i].vendor := At(index, cards[i].vendor) + [cards[i]]];
      i := i + 1;
    }
    assert cards[..i] == cards;
  }

  method IndexTrash(cards: seq<TrashCard>) returns (index: map<string, seq<TrashCard>>)
    ensures forall v :: At(index, v) == TrashFor(cards, v)
  {
    index := map[];
    var i := 0;
    while i < |cards|
      invariant 0 <= i <= |cards|
      invariant forall v :: At(index, v) == TrashFor(cards[..i], v)
    {
      assert cards[..i + 1][..i] == cards[..i];
      index := index[cards[i].vendor := At(index, cards[i].vendor) + [cards[i]]];
      i := i + 1;
    }
    assert cards[..i] == cards;
  }

  method IndexBatches(matches: seq<ErrorBatchMatch>) returns (index: map<string, seq<ErrorBatchMatch>>)
    ensures forall v :: At(index, v) == BatchesFor(matches, v)
  {
    index := map[];
    var i := 0;
    while i < |matches|
      invariant 0 <= i <= |matches|
      invariant forall v :: At(index, v) == BatchesFor(matches[..i], v)
    {
      var batch := matches[i];
      var j := 0;
      while j < |batch.rejected|
        invariant 0 <= j <= |batch.rejected|
        invariant forall v :: At(index, v) == BatchesFor(matches[..i], v) + Namings(batch, batch.rejected[..j], v)
      {
        assert batch.rejected[..j + 1][..j] == batch.rejected[..j];
        var vendor := batch.rejected[j];
        index := index[vendor := At(index, vendor) + [batch]];
        j := j + 1;
      }
      assert batch.rejected[..j] == batch.rejected;
      assert matches[..i + 1][..i] == matches[..i];
      i := i + 1;
    }
    assert matches[..i] == matches;
  }

  // ---------------------------------------------------------------- binding of a card to its request

  /** The (subject, vendor code) pairs of a create request, in request order. */
  function Flatten(groups: seq<RequestGroup>): seq<(int, string)> {
    if groups == [] then []
    else
      var n := |groups| - 1;
      Flatten(groups[..n]) + Pairs(groups[n].subjectId, groups[n].vendors)
  }

  function Pairs(subjectId: int, vendors: seq<string>): (pairs: seq<(int, string)>)
    ensures |pairs| == |vendors|
    ensures forall i :: 0 <= i < |vendors| ==> pairs[i] == (subjectId, vendors[i])
  {
    seq(|vendors|, i requires 0 <= i < |vendors| => (subjectId, vendors[i]))
  }

  /** The card is the one the request asked for at the member's position. */
  predicate Bound(kind: ActionKind, request: Request, position: nat, vendor: string, card: Card) {
    && card.nmId > 0 && card.imtId > 0 && card.subjectId > 0 && card.vendor == vendor
    && match kind
       case CreateGroup =>
         && request.CreateRequest?
         && position < |Flatten(request.groups)|
         && Flatten(request.groups)[position] == (card.subjectId, vendor)
       case AddToGroup =>
         && request.AddRequest?
         && position < |request.vendors|
         && request.imtId == card.imtId && request.vendors[position] == vendor
       case UploadMedia => false
  }

  /** Walks the request until it reaches the member's position. */
  method CardMatchesAction(subject: Subject, position: nat, vendor: string, card: Card) returns (matches: bool)
    ensures matches <==> Bound(subject.kind, subject.request, position, vendor, card)
  {
    if card.nmId <= 0 || card.imtId <= 0 || card.subjectId <= 0 || card.vendor != vendor {
      return false;
    }
    match subject.kind {
      case CreateGroup =>
        if !subject.request.CreateRequest? {
          return false;
        }
        var groups := subject.request.groups;
        var flat := Flatten(groups);
        var requestIndex, g := 0, 0;
        while g < |groups|
          invariant 0 <= g <= |groups|
          invariant requestIndex == |Flatten(groups[..g])| <= position
          invariant Flatten(groups[..g]) <= flat
        {
          FlattenStep(groups, g);
          var group := groups[g];
          var v := 0;
          while v < |group.vendors|
            invariant 0 <= v <= |group.vendors|
            invariant requestIndex == |Flatten(groups[..g])| + v <= position
          {
            assert flat[requestIndex] == Flatten(groups[..g + 1])[requestIndex];
            if requestIndex == position {
              return group.vendors[v] == vendor && group.subjectId == card.subjectId;
            }
            requestIndex := requestIndex + 1;
            v := v + 1;
          }
          g := g + 1;
        }
        assert groups[..g] == groups;
        matches := false;
      case AddToGroup =>
        if !subject.request.AddRequest? || position >= |subject.request.vendors| {
          return false;
        }
        matches := subject.request.imtId == card.imtId && subject.request.vendors[position] == vendor;
      case UploadMedia =>
        matches := false;
    }
  }

  lemma {:induction false} FlattenStep(groups: seq<RequestGroup>, g: nat)
    requires g < |groups|
    ensures Flatten(groups[..g + 1]) == Flatten(groups[..g]) + Pairs(groups[g].subjectId, groups[g].vendors)
    ensures Flatten(groups[..g + 1]) <= Flatten(groups)
    decreases |groups| - g
  {
    assert groups[..g + 1][..g] == groups[..g];
    if g + 1 < |groups| {
      FlattenStep(groups, g + 1);
    } else {
      assert groups[..g + 1] == groups;
    }
  }

  // ---------------------------------------------------------------- the verdict on one member

  datatype Verdict = Finished(cls: ResultClass) | Waiting | Decided(result: MemberResult)

  function Unsettled(id: int, code: SafeCode): MemberResult {
    MemberResult(id, Unresolved, code, 0, 0, 0, 0, false)
  }

  function DeadlineReached(startedAt: Option<int>, now: int, timeout: int): bool {
    startedAt.Some? && startedAt.value + timeout <= now
  }

  /** What the evidence proves about the member at `position`. */
  function Judge(subject: Subject, position: nat, seen: Observation, batches: seq<ErrorBatchMatch>,
                 deadline: bool): Verdict
    requires position < |subject.members|
  {
    var m := subject.members[position];
    if m.outcome.Some? then Finished(m.outcome.value.cls)
    else
      var normal := CardsFor(seen.normal, m.vendor);
      var trash := TrashFor(seen.trash, m.vendor);
      var errors := BatchesFor(batches, m.vendor);
      if |normal| == 1 && |trash| == 0 && |errors| == 0 then
        if Bound(subject.kind, subject.request, position, m.vendor, normal[0]) then
          Decided(MemberResult(m.id, Success, CreatedConfirmedByVendorCode, normal[0].nmId,
                               normal[0].imtId, normal[0].subjectId, 0, true))
        else Decided(Unsettled(m.id, RemoteProductBindingMismatch))
      else if |normal| == 0 && |trash| == 0 && |errors| == 1 then
        Decided(MemberResult(m.id, Rejected, ErrorListRejected, 0, 0, 0, errors[0].id, false))
      else if |normal| > 0 || |trash| > 0 || |errors| > 1 then
        Decided(Unsettled(m.id, RemoteEvidenceConflict))
      else if deadline then
        Decided(Unsettled(m.id, ReconciliationTimeout))
      else Waiting
  }

  function Verdicts(subject: Subject, seen: Observation, batches: seq<ErrorBatchMatch>, deadline: bool): (v: seq<Verdict>)
    ensures |v| == |subject.members|
    ensures forall i :: 0 <= i < |v| ==> v[i] == Judge(subject, i, seen, batches, deadline)
  {
    seq(|subject.members|, i requires 0 <= i < |subject.members| => Judge(subject, i, seen, batches, deadline))
  }

  /** The newly decided results, in member order. */
  function NewResults(verdicts: seq<Verdict>): seq<MemberResult> {
    if verdicts == [] then []
    else
      var n := |verdicts| - 1;
      NewResults(verdicts[..n]) + (if verdicts[n].Decided? then [verdicts[n].result] else [])
  }

  predicate AllKnown(verdicts: seq<Verdict>) {
    forall i :: 0 <= i < |verdicts| ==> !verdicts[i].Waiting?
  }

  function ClassOf(v: Verdict): ResultClass
    requires !v.Waiting?
  {
    if v.Finished? then v.cls else v.result.cls
  }

  function Classes(verdicts: seq<Verdict>): (c: seq<ResultClass>)
    requires AllKnown(verdicts)
    ensures |c| == |verdicts|
    ensures forall i :: 0 <= i < |c| ==> c[i] == ClassOf(verdicts[i])
  {
    seq(|verdicts|, i requires 0 <= i < |verdicts| => ClassOf(verdicts[i]))
  }

  predicate Accepts(c: ResultClass) { c.Success? || c.Skipped? }

  /** The class of an action whose members ended with `classes`. */
  function ActionClass(classes: seq<ResultClass>): ResultClass {
    if exists i :: 0 <= i < |classes| && !Accepts(classes[i]) && !classes[i].Rejected? then Unresolved
    else if forall i :: 0 <= i < |classes| ==> classes[i].Rejected? then Rejected
    else if forall i :: 0 <= i < |classes| ==> Accepts(classes[i]) then Success
    else Partial
  }

  function CodeFor(cls: ResultClass): SafeCode {
    match cls
    case Unresolved => ProductReconciliationUnresolved
    case Rejected => ProductRejectedByErrorList
    case Success => ProductCreatedByVendorCode
    case _ => ProductReconciliationPartial
  }

  // ---------------------------------------------------------------- one poll

  /** How a poll counts a member. */
  datatype Bucket = PendingBucket | UnresolvedBucket | RejectedBucket | SucceededBucket

  function BucketOf(v: Verdict): Bucket {
    if v.Waiting? then PendingBucket
    else if Accepts(ClassOf(v)) then SucceededBucket
    else if ClassOf(v).Rejected? then RejectedBucket
    else UnresolvedBucket
  }

  function Buckets(verdicts: seq<Verdict>): (b: seq<Bucket>)
    ensures |b| == |verdicts|
    ensures forall i :: 0 <= i < |b| ==> b[i] == BucketOf(verdicts[i])
  {
    seq(|verdicts|, i requires 0 <= i < |verdicts| => BucketOf(verdicts[i]))
  }

  function Count(buckets: seq<Bucket>, b: Bucket): nat {
    if buckets == [] then 0
    else
      var n := |buckets| - 1;
      Count(buckets[..n], b) + (if buckets[n] == b then 1 else 0)
  }

  lemma {:induction false} CountZero(buckets: seq<Bucket>, b: Bucket)
    ensures Count(buckets, b) == 0 <==> b !in buckets
  {
    if buckets != [] {
      var n := |buckets| - 1;
      CountZero(buckets[..n], b);
      assert buckets == buckets[..n] + [buckets[n]];
    }
  }

  lemma {:induction false} CountsAddUp(buckets: seq<Bucket>)
    ensures Count(buckets, PendingBucket) + Count(buckets, UnresolvedBucket) +
            Count(buckets, RejectedBucket) + Count(buckets, SucceededBucket) == |buckets|
  {
    if buckets != [] {
      CountsAddUp(buckets[..|buckets| - 1]);
    }
  }

  lemma PendingCount(verdicts: seq<Verdict>)
    ensures Count(Buckets(verdicts), PendingBucket) == 0 <==> AllKnown(verdicts)
  {
    var b := Buckets(verdicts);
    CountZero(b, PendingBucket);
    assert PendingBucket in b <==> exists i :: 0 <= i < |b| && b[i] == PendingBucket;
  }

  /** The class read off the counters is the fold of the settled members. */
  lemma CountersDecideClass(verdicts: seq<Verdict>)
    requires AllKnown(verdicts)
    ensures var b := Buckets(verdicts);
            ActionClass(Classes(verdicts)) ==
            if Count(b, UnresolvedBucket) > 0 then Unresolved
            else if Count(b, RejectedBucket) == |verdicts| then Rejected
            else if Count(b, SucceededBucket) == |verdicts| then Success
            else Partial
  {
    var b, classes := Buckets(verdicts), Classes(verdicts);
    PendingCount(verdicts);
    CountsAddUp(b);
    CountZero(b, UnresolvedBucket);
    CountZero(b, RejectedBucket);
    CountZero(b, SucceededBucket);
    assert forall i :: 0 <= i < |b| ==> b[i] == BucketOf(verdicts[i]) && classes[i] == ClassOf(verdicts[i]);
    if UnresolvedBucket in b {
      var i :| 0 <= i < |b| && b[i] == UnresolvedBucket;
      assert !Accepts(classes[i]) && !classes[i].Rejected?;
    } else if RejectedBucket in b {
      var i :| 0 <= i < |b| && b[i] == RejectedBucket;
      assert classes[i].Rejected?;
    }
  }

  /** The case analysis of one member, over the three indexes built for the poll. */
  method JudgeMember(subject: Subject, position: nat, seen: Observation, batches: seq<ErrorBatchMatch>, deadline: bool,
                     normalByVendor: map<string, seq<Card>>, trashByVendor: map<string, seq<TrashCard>>,
                     errorsByVendor: map<string, seq<ErrorBatchMatch>>)
    returns (verdict: Verdict)
    requires position < |subject.members|
    requires forall v :: At(normalByVendor, v) == CardsFor(seen.normal, v)
    requires forall v :: At(trashByVendor, v) == TrashFor(seen.trash, v)
    requires forall v :: At(errorsByVendor, v) == BatchesFor(batches, v)
    ensures verdict == Judge(subject, position, seen, batches, deadline)
  {
    var member := subject.members[position];
    if member.outcome.Some? {
      return Finished(member.outcome.value.cls);
    }
    var normal := At(normalByVendor, member.vendor);
    var trash := At(trashByVendor, member.vendor);
    var errors := At(errorsByVendor, member.vendor);
    if |normal| == 1 && |trash| == 0 && |errors| == 0 {
      var card := normal[0];
      var bound := CardMatchesAction(subject, position, member.vendor, card);
      if !bound {
        return Decided(Unsettled(member.id, RemoteProductBindingMismatch));
      }
      return Decided(MemberResult(member.id, Success, CreatedConfirmedByVendorCode,
                                  card.nmId, card.imtId, card.subjectId, 0, true));
    }
    if |normal| == 0 && |trash| == 0 && |errors| == 1 {
      return Decided(MemberResult(member.id, Rejected, ErrorListRejected, 0, 0, 0, errors[0].id, false));
    }
    if |normal| > 0 || |trash| > 0 || |errors| > 1 {
      return Decided(Unsettled(member.id, RemoteEvidenceConflict));
    }
    if deadline {
      return Decided(Unsettled(member.id, ReconciliationTimeout));
    }
    verdict := Waiting;
  }

  method JudgeMembers(subject: Subject, seen: Observation, batches: seq<ErrorBatchMatch>, deadline: bool)
    returns (verdicts: seq<Verdict>)
    ensures verdicts == Verdicts(subject, seen, batches, deadline)
  {
    var normalByVendor := IndexCards(seen.normal);
    var trashByVendor := IndexTrash(seen.trash);
    var errorsByVendor := IndexBatches(batches);
    verdicts := [];
    while |verdicts| < |subject.members|
      invariant |verdicts| <= |subject.members|
      invariant verdicts == Verdicts(subject, seen, batches, deadline)[..|verdicts|]
    {
      var verdict := JudgeMember(subject, |verdicts|, seen, batches, deadline,
                                 normalByVendor, trashByVendor, errorsByVendor);
      verdicts := verdicts + [verdict];
    }
  }

  /** Counts the verdicts and reads the class of the action off the counters. */
  method Summarize(verdicts: seq<Verdict>)
    returns (results: seq<MemberResult>, complete: bool, outcome: Option<(ResultClass, SafeCode)>)
    ensures results == NewResults(verdicts)
    ensures complete <==> AllKnown(verdicts)
    ensures complete ==> var c := ActionClass(Classes(verdicts)); outcome == Some((c, CodeFor(c)))
    ensures !complete ==> outcome == None
  {
    ghost var buckets := Buckets(verdicts);
    results := [];
    var unresolved, rejected, succeeded, pending := 0, 0, 0, 0;
    var i := 0;
    while i < |verdicts|
      invariant 0 <= i <= |verdicts|
      invariant results == NewResults(verdicts[..i])
      invariant pending == Count(buckets[..i], PendingBucket)
      invariant unresolved == Count(buckets[..i], UnresolvedBucket)
      invariant rejected == Count(buckets[..i], RejectedBucket)
      invariant succeeded == Count(buckets[..i], SucceededBucket)
    {
      var verdict := verdicts[i];
      assert verdicts[..i + 1][..i] == verdicts[..i] && buckets[..i + 1][..i] == buckets[..i];
      if verdict.Waiting? {
        pending := pending + 1;
      } else {
        match ClassOf(verdict) {
          case Success => succeeded := succeeded + 1;
          case Skipped => succeeded := succeeded + 1;
          case Rejected => rejected := rejected + 1;
          case _ => unresolved := unresolved + 1;
        }
        if verdict.Decided? {
          results := results + [verdict.result];
        }
      }
      i := i + 1;
    }
    assert verdicts[..i] == verdicts && buckets[..i] == buckets;
    PendingCount(verdicts);
    if pending > 0 {
      return results, false, None;
    }
    CountersDecideClass(verdicts);
    complete := true;
    if unresolved > 0 {
      outcome := Some((Unresolved, ProductReconciliationUnresolved));
    } else if rejected == |verdicts| {
      outcome := Some((Rejected, ProductRejectedByErrorList));
    } else if succeeded == |verdicts| {
      outcome := Some((Success, ProductCreatedByVendorCode));
    } else {
      outcome := Some((Partial, ProductReconciliationPartial));
    }
  }

  /**
   One reconciliation poll: the members decided now, and, once nobody waits, the class and
   code of the action.
   */
  method ReconcileEvidence(subject: Subject, seen: Observation, batches: seq<ErrorBatchMatch>, now: int, timeout: int)
    returns (results: seq<MemberResult>, complete: bool, outcome: Option<(ResultClass, SafeCode)>)
    ensures var verdicts := Verdicts(subject, seen, batches, DeadlineReached(subject.startedAt, now, timeout));
            && results == NewResults(verdicts)
            && (complete <==> AllKnown(verdicts))
            && (complete ==> var c := ActionClass(Classes(verdicts)); outcome == Some((c, CodeFor(c))))
            && (!complete ==> outcome == None)
  {
    var verdicts := JudgeMembers(subject, seen, batches, DeadlineReached(subject.startedAt, now, timeout));
    results, complete, outcome := Summarize(verdicts);
  }

  // ---------------------------------------------------------------- what every poll guarantees

  /** Once the deadline has passed nobody keeps waiting, so the poll completes. */
  lemma DeadlineCompletes(subject: Subject, seen: Observation, batches: seq<ErrorBatchMatch>, now: int, timeout: int)
    requires DeadlineReached(subject.startedAt, now, timeout)
    ensures AllKnown(Verdicts(subject, seen, batches, DeadlineReached(subject.startedAt, now, timeout)))
  {
  }

  /** What the journal demands of the results of a poll. */
  ghost predicate ValidResults(members: seq<Member>, results: seq<MemberResult>) {
    && (forall k :: 0 <= k < |results| ==> ValidResult(results[k]) && AwaitedId(members, results[k].memberId))
    && (forall j, k :: 0 <= j < k < |results| ==> results[j].memberId != results[k].memberId)
  }

  ghost predicate AwaitedId(members: seq<Member>, id: int) {
    exists i :: 0 <= i < |members| && Pending(members[i]) && members[i].id == id
  }

  predicate ValidResult(r: MemberResult) {
    && r.memberId > 0 && r.nmId >= 0 && r.imtId >= 0 && r.subjectId >= 0 && r.errorBatchId >= 0
    && (r.cls.Success? ==> r.attributed && r.nmId > 0 && r.imtId > 0 && r.subjectId > 0 && r.errorBatchId == 0)
    && (!r.cls.Success? ==> !r.attributed)
  }

  method ValidateResults(members: seq<Member>, results: seq<MemberResult>) returns (ok: bool)
    ensures ok <==> ValidResults(members, results)
  {
    var awaited := PendingIds(members);
    var seenIds: set<int> := {};
    var k := 0;
    while k < |results|
      invariant 0 <= k <= |results|
      invariant ValidResults(members, results[..k])
      invariant seenIds == set j | 0 <= j < k :: results[j].memberId
    {
      var r := results[k];
      if !ValidResult(r) || r.memberId in seenIds || r.memberId !in awaited {
        assert !ValidResults(members, results);
        return false;
      }
      seenIds := seenIds + {r.memberId};
      k := k + 1;
    }
    assert results[..k] == results;
    ok := true;
  }

  method PendingIds(members: seq<Member>) returns (ids: set<int>)
    ensures forall id :: id in ids <==> AwaitedId(members, id)
  {
    ids := {};
    var i := 0;
    while i < |members|
      invariant 0 <= i <= |members|
      invariant forall id :: id in ids <==> AwaitedId(members[..i], id)
    {
      forall id ensures AwaitedId(members[..i + 1], id) <==>
                        AwaitedId(members[..i], id) || (Pending(members[i]) && members[i].id == id)
      {
        AwaitedStep(members, i, id);
      }
      if Pending(members[i]) {
        ids := ids + {members[i].id};
      }
      i := i + 1;
    }
    assert members[..i] == members;
  }

  lemma AwaitedStep(members: seq<Member>, i: nat, id: int)
    requires i < |members|
    ensures AwaitedId(members[..i + 1], id) <==>
            AwaitedId(members[..i], id) || (Pending(members[i]) && members[i].id == id)
  {
    var front, whole := members[..i], members[..i + 1];
    if AwaitedId(front, id) {
      var j :| 0 <= j < i && Pending(front[j]) && front[j].id == id;
      assert whole[j] == front[j];
    }
    if AwaitedId(whole, id) {
      var j :| 0 <= j < |whole| && Pending(whole[j]) && whole[j].id == id;
      assert j < i ==> front[j] == whole[j];
    }
    assert whole[i] == members[i];
  }

  ghost predicate GoodIds(members: seq<Member>) {
    && (forall i :: 0 <= i < |members| ==> members[i].id > 0)
    && (forall i, j :: 0 <= i < j < |members| ==> members[i].id != members[j].id)
  }

  ghost predicate DecidedIn(verdicts: seq<Verdict>, r: MemberResult) {
    exists i :: 0 <= i < |verdicts| && verdicts[i] == Decided(r)
  }

  /** The results are exactly the newly decided members. */
  lemma {:induction false} ResultsAreDecided(verdicts: seq<Verdict>, r: MemberResult)
    ensures r in NewResults(verdicts) <==> DecidedIn(verdicts, r)
  {
    if verdicts != [] {
      var n := |verdicts| - 1;
      var front := verdicts[..n];
      ResultsAreDecided(front, r);
      assert verdicts == front + [verdicts[n]];
      if DecidedIn(front, r) {
        var i :| 0 <= i < n && front[i] == Decided(r);
        assert verdicts[i] == Decided(r);
      }
      if DecidedIn(verdicts, r) {
        var i :| 0 <= i <= n && verdicts[i] == Decided(r);
        assert i < n ==> front[i] == Decided(r);
      }
    }
  }

  lemma {:induction false} NamingsAreBatch(batch: ErrorBatchMatch, named: seq<string>, vendor: string)
    ensures forall i :: 0 <= i < |Namings(batch, named, vendor)| ==> Namings(batch, named, vendor)[i] == batch
    ensures vendor in named <==> Namings(batch, named, vendor) != []
  {
    if named != [] {
      var n := |named| - 1;
      NamingsAreBatch(batch, named[..n], vendor);
      assert named == named[..n] + [named[n]];
    }
  }

  /** Whatever is counted against a vendor code is a listed batch that names it. */
  lemma {:induction false} BatchesName(matches: seq<ErrorBatchMatch>, vendor: string)
    ensures forall i :: 0 <= i < |BatchesFor(matches, vendor)| ==>
              BatchesFor(matches, vendor)[i] in matches && vendor in BatchesFor(matches, vendor)[i].rejected
  {
    if matches != [] {
      var n := |matches| - 1;
      BatchesName(matches[..n], vendor);
      NamingsAreBatch(matches[n], matches[n].rejected, vendor);
    }
  }

  lemma DecidedIsValid(subject: Subject, i: nat, seen: Observation, batches: seq<ErrorBatchMatch>, deadline: bool)
    requires i < |subject.members| && subject.members[i].id > 0
    requires forall k :: 0 <= k < |batches| ==> batches[k].id > 0
    ensures var v := Judge(subject, i, seen, batches, deadline);
            v.Decided? ==> ValidResult(v.result) && v.result.memberId == subject.members[i].id && Pending(subject.members[i])
  {
    BatchesName(batches, subject.members[i].vendor);
  }

  ghost predicate ListedNaming(batches: seq<ErrorBatchMatch>, id: int, vendor: string) {
    exists j :: 0 <= j < |batches| && batches[j].id == id && vendor in batches[j].rejected
  }

  /** A rejection by the Error List points at a listed batch that names the member. */
  lemma RejectionIsListed(subject: Subject, i: nat, seen: Observation, batches: seq<ErrorBatchMatch>, deadline: bool)
    requires i < |subject.members|
    ensures var v := Judge(subject, i, seen, batches, deadline);
            v.Decided? ==> && Pending(subject.members[i]) && v.result.memberId == subject.members[i].id
                           && (v.result.errorBatchId > 0 ==> ListedNaming(batches, v.result.errorBatchId, subject.members[i].vendor))
  {
    var vendor := subject.members[i].vendor;
    BatchesName(batches, vendor);
    if |BatchesFor(batches, vendor)| == 1 {
      var j :| 0 <= j < |batches| && batches[j] == BatchesFor(batches, vendor)[0];
      assert ListedNaming(batches, batches[j].id, vendor);
    }
  }

  /** Member `i < n` carries the identifier. */
  ghost predicate IdBefore(members: seq<Member>, n: nat, id: int) {
    exists i :: 0 <= i < n <= |members| && members[i].id == id
  }

  lemma {:induction false} PrefixPassesValidator(subject: Subject, seen: Observation, batches: seq<ErrorBatchMatch>,
                                                 deadline: bool, n: nat)
    requires GoodIds(subject.members) && n <= |subject.members|
    requires forall i :: 0 <= i < |batches| ==> batches[i].id > 0
    ensures var results := NewResults(Verdicts(subject, seen, batches, deadline)[..n]);
            && ValidResults(subject.members, results)
            && forall k :: 0 <= k < |results| ==> IdBefore(subject.members, n, results[k].memberId)
  {
    if n > 0 {
      PrefixPassesValidator(subject, seen, batches, deadline, n - 1);
      var verdicts := Verdicts(subject, seen, batches, deadline);
      assert verdicts[..n][..n - 1] == verdicts[..n - 1];
      var v := verdicts[n - 1];
      if v.Decided? {
        DecidedIsValid(subject, n - 1, seen, batches, deadline);
        assert AwaitedId(subject.members, v.result.memberId);
      }
    }
  }

  /** The validator that guards the journal accepts the results of every poll. */
  lemma PollPassesValidator(subject: Subject, seen: Observation, batches: seq<ErrorBatchMatch>, deadline: bool)
    requires GoodIds(subject.members)
    requires forall i :: 0 <= i < |batches| ==> batches[i].id > 0
    ensures ValidResults(subject.members, NewResults(Verdicts(subject, seen, batches, deadline)))
  {
    var verdicts := Verdicts(subject, seen, batches, deadline);
    PrefixPassesValidator(subject, seen, batches, deadline, |verdicts|);
    assert verdicts[..|verdicts|] == verdicts;
  }
}
