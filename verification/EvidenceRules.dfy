/** What the evidence about one product means, said of the cards, the trash and the Error List themselves. */
module EvidenceRules {
  import opened Common
  import opened Publication
  import opened Evidence

  // ---------------------------------------------------------------- what was seen

  predicate NoCard(cards: seq<Card>, vendor: string) {
    forall k :: 0 <= k < |cards| ==> cards[k].vendor != vendor
  }

  /** Position `k` holds the only card with the vendor code. */
  predicate OnlyCardAt(cards: seq<Card>, vendor: string, k: nat) {
    && k < |cards| && cards[k].vendor == vendor
    && forall j :: 0 <= j < |cards| && j != k ==> cards[j].vendor != vendor
  }

  ghost predicate OnlyCard(cards: seq<Card>, vendor: string, card: Card) {
    exists k: nat :: OnlyCardAt(cards, vendor, k) && cards[k] == card
  }

  predicate NoTrash(cards: seq<TrashCard>, vendor: string) {
    forall k :: 0 <= k < |cards| ==> cards[k].vendor != vendor
  }

  predicate NamedAt(batches: seq<ErrorBatchMatch>, vendor: string, k: nat, l: nat) {
    k < |batches| && l < |batches[k].rejected| && batches[k].rejected[l] == vendor
  }

  ghost predicate NoBatch(batches: seq<ErrorBatchMatch>, vendor: string) {
    forall k: nat, l: nat :: !NamedAt(batches, vendor, k, l)
  }

  /** The batches name the vendor code once, in the batch `id`. */
  ghost predicate OnlyBatch(batches: seq<ErrorBatchMatch>, vendor: string, id: int) {
    exists k: nat, l: nat :: OnlyNaming(batches, vendor, k, l) && batches[k].id == id
  }

  ghost predicate OnlyNaming(batches: seq<ErrorBatchMatch>, vendor: string, k: nat, l: nat) {
    && NamedAt(batches, vendor, k, l)
    && forall i: nat, j: nat :: NamedAt(batches, vendor, i, j) ==> i == k && j == l
  }

  // ---------------------------------------------------------------- the selections

  lemma {:induction false} NoCardIff(cards: seq<Card>, vendor: string)
    ensures CardsFor(cards, vendor) == [] <==> NoCard(cards, vendor)
  {
    if cards != [] {
      var n := |cards| - 1;
      NoCardIff(cards[..n], vendor);
      assert NoCard(cards, vendor) <==> NoCard(cards[..n], vendor) && cards[n].vendor != vendor by {
        assert forall k :: 0 <= k < n ==> cards[..n][k] == cards[k];
      }
    }
  }

  lemma {:induction false} OnlyCardIff(cards: seq<Card>, vendor: string, card: Card)
    ensures CardsFor(cards, vendor) == [card] <==> OnlyCard(cards, vendor, card)
  {
    if cards != [] {
      var n := |cards| - 1;
      var front := cards[..n];
      OnlyCardIff(front, vendor, card);
      NoCardIff(front, vendor);
      OnlyCardLast(cards, vendor, card);
      var found := CardsFor(front, vendor);
      assert found + [cards[n]] == [card] <==> found == [] && cards[n] == card by {
        assert |found + [cards[n]]| == |found| + 1 && (found + [cards[n]])[|found|] == cards[n];
      }
      assert found + [] == found;
    }
  }

  /** The only card is the last one, or it is the only one before it. */
  lemma OnlyCardLast(cards: seq<Card>, vendor: string, card: Card)
    requires cards != []
    ensures var n := |cards| - 1;
            OnlyCard(cards, vendor, card) <==>
            if cards[n].vendor == vendor then cards[n] == card && NoCard(cards[..n], vendor) else OnlyCard(cards[..n], vendor, card)
  {
    var n := |cards| - 1;
    var front := cards[..n];
    if cards[n].vendor == vendor {
      if k: nat :| OnlyCardAt(cards, vendor, k) && cards[k] == card {
        assert k == n;
      }
      if cards[n] == card && NoCard(front, vendor) {
        assert forall j :: 0 <= j < n ==> front[j] == cards[j];
        assert OnlyCardAt(cards, vendor, n);
      }
    } else {
      if k: nat :| OnlyCardAt(cards, vendor, k) && cards[k] == card {
        assert OnlyCardAt(front, vendor, k) && front[k] == card;
      }
      if k: nat :| OnlyCardAt(front, vendor, k) && front[k] == card {
        assert forall j :: 0 <= j < n ==> front[j] == cards[j];
        assert OnlyCardAt(cards, vendor, k) && cards[k] == card;
      }
    }
  }

  lemma {:induction false} NoTrashIff(cards: seq<TrashCard>, vendor: string)
    ensures TrashFor(cards, vendor) == [] <==> NoTrash(cards, vendor)
  {
    if cards != [] {
      var n := |cards| - 1;
      NoTrashIff(cards[..n], vendor);
      assert NoTrash(cards, vendor) <==> NoTrash(cards[..n], vendor) && cards[n].vendor != vendor by {
        assert forall k :: 0 <= k < n ==> cards[..n][k] == cards[k];
      }
    }
  }

  /** How often the list names the vendor code. */
  lemma {:induction false} NamingsCount(batch: ErrorBatchMatch, named: seq<string>, vendor: string)
    ensures |Namings(batch, named, vendor)| == multiset(named)[vendor]
    ensures forall b :: b in Namings(batch, named, vendor) ==> b == batch
  {
    if named != [] {
      var n := |named| - 1;
      NamingsCount(batch, named[..n], vendor);
      assert named == named[..n] + [named[n]];
    }
  }

  /** All the places at which the batches name the vendor code. */
  ghost function Places(batches: seq<ErrorBatchMatch>, vendor: string): set<(nat, nat)> {
    set k: nat, l: nat | k < |batches| && l < |batches[k].rejected| && NamedAt(batches, vendor, k, l) :: (k, l)
  }

  ghost function PlacesIn(named: seq<string>, vendor: string, k: nat): set<(nat, nat)> {
    set l: nat | l < |named| && named[l] == vendor :: (k, l)
  }

  lemma {:induction false} PlacesInCount(named: seq<string>, vendor: string, k: nat)
    ensures |PlacesIn(named, vendor, k)| == multiset(named)[vendor]
  {
    if named != [] {
      var n := |named| - 1;
      PlacesInCount(named[..n], vendor, k);
      assert named == named[..n] + [named[n]];
      var front, all := PlacesIn(named[..n], vendor, k), PlacesIn(named, vendor, k);
      assert all == if named[n] == vendor then front + {(k, n)} else front;
    }
  }

  lemma PlacesSplit(batches: seq<ErrorBatchMatch>, vendor: string)
    requires batches != []
    ensures var n := |batches| - 1;
            Places(batches, vendor) == Places(batches[..n], vendor) + PlacesIn(batches[n].rejected, vendor, n)
            && Places(batches[..n], vendor) !! PlacesIn(batches[n].rejected, vendor, n)
  {
    var n := |batches| - 1;
    var front := batches[..n];
    forall k: nat, l: nat ensures (k, l) in Places(batches, vendor) <==>
      (k, l) in Places(front, vendor) || (k, l) in PlacesIn(batches[n].rejected, vendor, n)
    {
      if k < n { assert front[k] == batches[k]; }
    }
  }

  lemma {:induction false} BatchesCount(batches: seq<ErrorBatchMatch>, vendor: string)
    ensures |BatchesFor(batches, vendor)| == |Places(batches, vendor)|
  {
    if batches == [] {
      assert Places(batches, vendor) == {};
    } else {
      var n := |batches| - 1;
      BatchesCount(batches[..n], vendor);
      PlacesSplit(batches, vendor);
      NamingsCount(batches[n], batches[n].rejected, vendor);
      PlacesInCount(batches[n].rejected, vendor, n);
    }
  }

  /** Each selected batch stands at a place that names the code. */
  lemma {:induction false} BatchHasPlace(batches: seq<ErrorBatchMatch>, vendor: string, b: ErrorBatchMatch)
    requires b in BatchesFor(batches, vendor)
    ensures exists k: nat, l: nat :: NamedAt(batches, vendor, k, l) && batches[k] == b
  {
    var n := |batches| - 1;
    if b in BatchesFor(batches[..n], vendor) {
      BatchHasPlace(batches[..n], vendor, b);
      var k: nat, l: nat :| NamedAt(batches[..n], vendor, k, l) && batches[..n][k] == b;
      assert NamedAt(batches, vendor, k, l) && batches[k] == b;
    } else {
      var named := batches[n].rejected;
      NamingsCount(batches[n], named, vendor);
      assert vendor in multiset(named);
      var l :| 0 <= l < |named| && named[l] == vendor;
      assert NamedAt(batches, vendor, n, l);
    }
  }

  lemma NoBatchIff(batches: seq<ErrorBatchMatch>, vendor: string)
    ensures BatchesFor(batches, vendor) == [] <==> NoBatch(batches, vendor)
  {
    BatchesCount(batches, vendor);
    if NoBatch(batches, vendor) {
      assert Places(batches, vendor) == {};
    } else {
      var k: nat, l: nat :| NamedAt(batches, vendor, k, l);
      assert (k, l) in Places(batches, vendor);
    }
  }

  lemma OnlyBatchIff(batches: seq<ErrorBatchMatch>, vendor: string)
    ensures |BatchesFor(batches, vendor)| == 1 <==> exists id :: OnlyBatch(batches, vendor, id)
    ensures forall id :: OnlyBatch(batches, vendor, id) ==> |BatchesFor(batches, vendor)| == 1 && BatchesFor(batches, vendor)[0].id == id
  {
    BatchesCount(batches, vendor);
    var selected, places := BatchesFor(batches, vendor), Places(batches, vendor);
    if |selected| == 1 {
      BatchHasPlace(batches, vendor, selected[0]);
      var k: nat, l: nat :| NamedAt(batches, vendor, k, l) && batches[k] == selected[0];
      SinglePlace(places, (k, l));
      assert forall i: nat, j: nat :: NamedAt(batches, vendor, i, j) ==> (i, j) in places;
      assert OnlyNaming(batches, vendor, k, l) && batches[k].id == selected[0].id;
      assert OnlyBatch(batches, vendor, selected[0].id);
    }
    forall id | OnlyBatch(batches, vendor, id) ensures |selected| == 1 && selected[0].id == id {
      var k: nat, l: nat :| OnlyNaming(batches, vendor, k, l) && batches[k].id == id;
      assert places == {(k, l)};
      BatchHasPlace(batches, vendor, selected[0]);
    }
  }

  lemma SinglePlace(places: set<(nat, nat)>, p: (nat, nat))
    requires |places| == 1 && p in places
    ensures places == {p}
  {
    assert |places - {p}| == 0;
  }

  // ---------------------------------------------------------------- what was asked for

  /** How many products the groups before group `g` ask for. */
  function Offset(groups: seq<RequestGroup>, g: nat): nat
    requires g <= |groups|
  {
    if g == 0 then 0 else Offset(groups, g - 1) + |groups[g - 1].vendors|
  }

  /** Product `v` of group `g` is the one at the position, with the vendor code and the subject. */
  predicate AskedInGroup(groups: seq<RequestGroup>, g: nat, v: nat, position: nat, vendor: string, subject: int) {
    && g < |groups| && v < |groups[g].vendors| && Offset(groups, g) + v == position
    && groups[g].vendors[v] == vendor && groups[g].subjectId == subject
  }

  /** The card is complete and is the product the action asked for at the position. */
  ghost predicate Asked(kind: ActionKind, request: Request, position: nat, vendor: string, card: Card) {
    && card.nmId > 0 && card.imtId > 0 && card.subjectId > 0 && card.vendor == vendor
    && ((kind.CreateGroup? && request.CreateRequest? &&
         exists g: nat, v: nat :: AskedInGroup(request.groups, g, v, position, vendor, card.subjectId))
        || (kind.AddToGroup? && request.AddRequest? && position < |request.vendors| &&
            request.vendors[position] == vendor && request.imtId == card.imtId))
  }

  lemma {:induction false} FlattenAt(groups: seq<RequestGroup>, position: nat, vendor: string, subject: int)
    ensures |Flatten(groups)| == Offset(groups, |groups|)
    ensures position < |Flatten(groups)| && Flatten(groups)[position] == (subject, vendor) <==>
            exists g: nat, v: nat :: AskedInGroup(groups, g, v, position, vendor, subject)
  {
    if groups != [] {
      var n := |groups| - 1;
      var front := groups[..n];
      FlattenAt(front, position, vendor, subject);
      SameOffsets(groups, n);
      var last := position - Offset(groups, n);
      if g: nat, v: nat :| AskedInGroup(front, g, v, position, vendor, subject) {
        OffsetWithin(front, g, v);
        SameOffset(groups, n, g);
        assert AskedInGroup(groups, g, v, position, vendor, subject);
      }
      if g: nat, v: nat :| AskedInGroup(groups, g, v, position, vendor, subject) {
        if g < n {
          SameOffset(groups, n, g);
          assert AskedInGroup(front, g, v, position, vendor, subject);
        }
      }
      if 0 <= last < |groups[n].vendors| && groups[n].vendors[last] == vendor && groups[n].subjectId == subject {
        assert AskedInGroup(groups, n, last, position, vendor, subject);
      }
    }
  }

  lemma SameOffsets(groups: seq<RequestGroup>, n: nat)
    requires n <= |groups|
    ensures Offset(groups[..n], n) == Offset(groups, n)
  {
    SameOffset(groups, n, n);
  }

  lemma {:induction false} SameOffset(groups: seq<RequestGroup>, n: nat, g: nat)
    requires g <= n <= |groups|
    ensures Offset(groups[..n], g) == Offset(groups, g)
  {
    if g > 0 {
      SameOffset(groups, n, g - 1);
    }
  }

  /** A product of a group lies before the offset of the end. */
  lemma {:induction false} OffsetWithin(groups: seq<RequestGroup>, g: nat, v: nat)
    requires g < |groups| && v < |groups[g].vendors|
    ensures Offset(groups, g) + v < Offset(groups, |groups|)
    decreases |groups|
  {
    var n := |groups| - 1;
    SameOffset(groups, n, n);
    if g < n {
      OffsetWithin(groups[..n], g, v);
      SameOffset(groups, n, g);
    }
  }

  lemma BoundIff(kind: ActionKind, request: Request, position: nat, vendor: string, card: Card)
    ensures Bound(kind, request, position, vendor, card) <==> Asked(kind, request, position, vendor, card)
  {
    if kind.CreateGroup? && request.CreateRequest? {
      FlattenAt(request.groups, position, vendor, card.subjectId);
    }
  }

  // ---------------------------------------------------------------- the verdict

  /** Neither a card in the trash nor an Error List batch speaks about the vendor code. */
  ghost predicate Unopposed(seen: Observation, batches: seq<ErrorBatchMatch>, vendor: string) {
    NoTrash(seen.trash, vendor) && NoBatch(batches, vendor)
  }

  ghost predicate Unseen(seen: Observation, vendor: string) { NoCard(seen.normal, vendor) && NoTrash(seen.trash, vendor) }

  /** Nothing, one card alone or one batch alone; anything else is in conflict. */
  ghost predicate Clear(seen: Observation, batches: seq<ErrorBatchMatch>, vendor: string) {
    || (Unopposed(seen, batches, vendor) && (NoCard(seen.normal, vendor) || exists card :: OnlyCard(seen.normal, vendor, card)))
    || (Unseen(seen, vendor) && exists id :: OnlyBatch(batches, vendor, id))
  }

  lemma Selections(seen: Observation, batches: seq<ErrorBatchMatch>, vendor: string)
    ensures CardsFor(seen.normal, vendor) == [] <==> NoCard(seen.normal, vendor)
    ensures forall card :: CardsFor(seen.normal, vendor) == [card] <==> OnlyCard(seen.normal, vendor, card)
    ensures |CardsFor(seen.normal, vendor)| == 1 <==> exists card :: OnlyCard(seen.normal, vendor, card)
    ensures TrashFor(seen.trash, vendor) == [] <==> NoTrash(seen.trash, vendor)
    ensures BatchesFor(batches, vendor) == [] <==> NoBatch(batches, vendor)
    ensures |BatchesFor(batches, vendor)| == 1 <==> exists id :: OnlyBatch(batches, vendor, id)
    ensures forall id :: OnlyBatch(batches, vendor, id) ==> |BatchesFor(batches, vendor)| == 1 && BatchesFor(batches, vendor)[0].id == id
  {
    NoCardIff(seen.normal, vendor);
    NoTrashIff(seen.trash, vendor);
    NoBatchIff(batches, vendor);
    OnlyBatchIff(batches, vendor);
    forall card ensures CardsFor(seen.normal, vendor) == [card] <==> OnlyCard(seen.normal, vendor, card) {
      OnlyCardIff(seen.normal, vendor, card);
    }
    if |CardsFor(seen.normal, vendor)| == 1 {
      assert CardsFor(seen.normal, vendor) == [CardsFor(seen.normal, vendor)[0]];
    }
  }

  /** A member that is settled keeps its class. */
  lemma SettledStays(subject: Subject, i: nat, seen: Observation, batches: seq<ErrorBatchMatch>, deadline: bool)
    requires i < |subject.members| && subject.members[i].outcome.Some?
    ensures Judge(subject, i, seen, batches, deadline) == Finished(subject.members[i].outcome.value.cls)
  {
  }

  /** One card and nothing else: the product was created, with the numbers of that card, or the card is another product's. */
  lemma OneCardDecides(subject: Subject, i: nat, seen: Observation, batches: seq<ErrorBatchMatch>, deadline: bool, card: Card)
    requires i < |subject.members| && Pending(subject.members[i])
    requires OnlyCard(seen.normal, subject.members[i].vendor, card) && Unopposed(seen, batches, subject.members[i].vendor)
    ensures var m := subject.members[i];
            Judge(subject, i, seen, batches, deadline) == Decided(
              if Asked(subject.kind, subject.request, i, m.vendor, card)
              then MemberResult(m.id, Success, CreatedConfirmedByVendorCode, card.nmId, card.imtId, card.subjectId, 0, true)
              else MemberResult(m.id, Unresolved, RemoteProductBindingMismatch, 0, 0, 0, 0, false))
  {
    Selections(seen, batches, subject.members[i].vendor);
    BoundIff(subject.kind, subject.request, i, subject.members[i].vendor, card);
  }

  /** One naming in the Error List and nothing else: rejected, with the id of that batch. */
  lemma OneBatchDecides(subject: Subject, i: nat, seen: Observation, batches: seq<ErrorBatchMatch>, deadline: bool, id: int)
    requires i < |subject.members| && Pending(subject.members[i])
    requires Unseen(seen, subject.members[i].vendor) && OnlyBatch(batches, subject.members[i].vendor, id)
    ensures Judge(subject, i, seen, batches, deadline) ==
            Decided(MemberResult(subject.members[i].id, Rejected, ErrorListRejected, 0, 0, 0, id, false))
  {
    Selections(seen, batches, subject.members[i].vendor);
  }

  /** Nothing at all: the member waits, until the deadline. */
  lemma NothingDecides(subject: Subject, i: nat, seen: Observation, batches: seq<ErrorBatchMatch>, deadline: bool)
    requires i < |subject.members| && Pending(subject.members[i])
    requires Unseen(seen, subject.members[i].vendor) && NoBatch(batches, subject.members[i].vendor)
    ensures Judge(subject, i, seen, batches, deadline) ==
            if deadline then Decided(MemberResult(subject.members[i].id, Unresolved, ReconciliationTimeout, 0, 0, 0, 0, false)) else Waiting
  {
    Selections(seen, batches, subject.members[i].vendor);
  }

  /** Anything else is a conflict. */
  lemma ConflictDecides(subject: Subject, i: nat, seen: Observation, batches: seq<ErrorBatchMatch>, deadline: bool)
    requires i < |subject.members| && Pending(subject.members[i]) && !Clear(seen, batches, subject.members[i].vendor)
    ensures Judge(subject, i, seen, batches, deadline) ==
            Decided(MemberResult(subject.members[i].id, Unresolved, RemoteEvidenceConflict, 0, 0, 0, 0, false))
  {
    Selections(seen, batches, subject.members[i].vendor);
  }

  /** A pending member is found created exactly when its own complete card is all there is. */
  lemma CreatedIff(subject: Subject, i: nat, seen: Observation, batches: seq<ErrorBatchMatch>, deadline: bool)
    requires i < |subject.members| && Pending(subject.members[i])
    ensures var (m, v) := (subject.members[i], Judge(subject, i, seen, batches, deadline));
            v.Decided? && v.result.cls.Success? <==>
            Unopposed(seen, batches, m.vendor) &&
            exists card :: OnlyCard(seen.normal, m.vendor, card) && Asked(subject.kind, subject.request, i, m.vendor, card)
  {
    var vendor := subject.members[i].vendor;
    Selections(seen, batches, vendor);
    forall card ensures Bound(subject.kind, subject.request, i, vendor, card) <==> Asked(subject.kind, subject.request, i, vendor, card) {
      BoundIff(subject.kind, subject.request, i, vendor, card);
    }
    var cards := CardsFor(seen.normal, vendor);
    if |cards| == 1 {
      assert OnlyCard(seen.normal, vendor, cards[0]);
    }
  }
}
