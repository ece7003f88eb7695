/** Deciding from a stored observation that a card is present after all. */
module ManualResolution {
  import opened Common
  import opened Publication
  import opened Tables
  import opened Transactions
  import Evidence
  import EvidenceRules

  method CountUploadVendor(vendors: seq<string>, vendor: string) returns (count: nat)
    ensures count == Times(vendors, vendor)
  {
    count := 0;
    var i := 0;
    while i < |vendors|
      invariant 0 <= i <= |vendors| && count == Times(vendors[..i], vendor)
    {
      assert vendors[..i + 1] == vendors[..i] + [vendors[i]];
      if vendors[i] == vendor {
        count := count + 1;
      }
      i := i + 1;
    }
    assert vendors[..i] == vendors;
  }

  /** Every group that names the code names it once and has the subject, and there is one such group. */
  method UploadVendorMatchesSubject(groups: seq<RequestGroup>, vendor: string, subject: int) returns (ok: bool)
    ensures ok <==> var named := GroupsNaming(groups, vendor);
                    |named| == 1 && Times(named[0].vendors, vendor) == 1 && named[0].subjectId == subject
  {
    var matches := 0;
    var i := 0;
    while i < |groups|
      invariant 0 <= i <= |groups| && matches == |GroupsNaming(groups[..i], vendor)|
      invariant forall g :: g in GroupsNaming(groups[..i], vendor) ==> Times(g.vendors, vendor) == 1 && g.subjectId == subject
    {
      assert groups[..i + 1][..i] == groups[..i];
      var count := CountUploadVendor(groups[i].vendors, vendor);
      if count != 0 {
        if count != 1 || groups[i].subjectId != subject {
          NamingStays(groups, i, vendor);
          return false;
        }
        matches := matches + 1;
      }
      i := i + 1;
    }
    assert groups[..i] == groups;
    ok := matches == 1;
  }

  lemma {:induction false} NamingStays(groups: seq<RequestGroup>, i: nat, vendor: string)
    requires i < |groups| && Times(groups[i].vendors, vendor) > 0
    ensures groups[i] in GroupsNaming(groups, vendor)
    decreases |groups|
  {
    if i < |groups| - 1 {
      NamingStays(groups[..|groups| - 1], i, vendor);
    }
  }

  /** The cards with the vendor code, collected in order. */
  method Matching(cards: seq<Card>, vendor: string) returns (matching: seq<Card>)
    ensures matching == Evidence.CardsFor(cards, vendor)
    ensures forall card :: card in matching ==> card.vendor == vendor
  {
    matching := [];
    var i := 0;
    while i < |cards|
      invariant 0 <= i <= |cards| && matching == Evidence.CardsFor(cards[..i], vendor)
      invariant forall card :: card in matching ==> card.vendor == vendor
    {
      assert cards[..i + 1][..i] == cards[..i];
      if cards[i].vendor == vendor {
        matching := matching + [cards[i]];
      }
      i := i + 1;
    }
    assert cards[..i] == cards;
  }

  method InTrash(cards: seq<TrashCard>, vendor: string) returns (found: bool)
    ensures found <==> Evidence.TrashFor(cards, vendor) != []
  {
    var i := 0;
    while i < |cards|
      invariant 0 <= i <= |cards| && Evidence.TrashFor(cards[..i], vendor) == []
    {
      assert cards[..i + 1][..i] == cards[..i];
      if cards[i].vendor == vendor {
        TrashStays(cards, i, vendor);
        return true;
      }
      i := i + 1;
    }
    assert cards[..i] == cards;
    found := false;
  }

  lemma {:induction false} TrashStays(cards: seq<TrashCard>, i: nat, vendor: string)
    requires i < |cards| && cards[i].vendor == vendor
    ensures Evidence.TrashFor(cards, vendor) != []
    decreases |cards|
  {
    if i < |cards| - 1 {
      TrashStays(cards[..|cards| - 1], i, vendor);
    }
  }

  /** Finds the card that proves a manual "present" ruling on the vendor code, exactly when there is one. */
  method DecideManualRemotePresent(act: Action, vendor: string, at: int, seen: Observation) returns (r: Option<Card>)
    requires act.attempt.Some?
    ensures r.Some? ==> PresentProved(act, vendor, r.value, at, seen)
    ensures r.None? ==> forall card :: !PresentProved(act, vendor, card, at, seen)
  {
    if at < act.attempt.value.startedAt {
      return None;
    }
    var matching := Matching(seen.normal, vendor);
    var discarded := InTrash(seen.trash, vendor);
    if discarded || |matching| != 1 {
      return None;
    }
    var card := matching[0];
    assert card in matching;
    if card.nmId <= 0 || card.imtId <= 0 || card.subjectId <= 0 {
      return None;
    }
    var asked := false;
    match act.kind {
      case CreateGroup =>
        if act.request.CreateRequest? {
          asked := UploadVendorMatchesSubject(act.request.groups, vendor, card.subjectId);
        }
      case AddToGroup =>
        if act.request.AddRequest? && act.request.imtId > 0 && act.request.imtId == card.imtId {
          var count := CountUploadVendor(act.request.vendors, vendor);
          asked := count == 1;
        }
      case UploadMedia =>
    }
    r := if asked then Some(card) else None;
  }

  // ---------------------------------------------------------------- what was asked for

  /** Group `g` alone names the code, and names it once. */
  ghost predicate OnlyGroup(groups: seq<RequestGroup>, vendor: string, g: nat) {
    && g < |groups| && multiset(groups[g].vendors)[vendor] == 1
    && forall h :: 0 <= h < |groups| && h != g ==> vendor !in groups[h].vendors
  }

  lemma {:induction false} NoneNames(groups: seq<RequestGroup>, vendor: string)
    ensures GroupsNaming(groups, vendor) == [] <==> forall h :: 0 <= h < |groups| ==> vendor !in groups[h].vendors
  {
    if groups != [] {
      var n := |groups| - 1;
      NoneNames(groups[..n], vendor);
      assert forall h :: 0 <= h < n ==> groups[..n][h] == groups[h];
      assert vendor in groups[n].vendors <==> vendor in multiset(groups[n].vendors);
    }
  }

  lemma NamesIt(groups: seq<RequestGroup>, vendor: string, n: nat)
    requires |groups| == n + 1
    ensures GroupsNaming(groups, vendor) ==
            if vendor in groups[n].vendors then GroupsNaming(groups[..n], vendor) + [groups[n]] else GroupsNaming(groups[..n], vendor)
  {
    assert vendor in groups[n].vendors <==> vendor in multiset(groups[n].vendors);
  }

  lemma {:induction false} IsNamed(groups: seq<RequestGroup>, vendor: string, g: nat)
    requires g < |groups| && vendor in groups[g].vendors
    ensures groups[g] in GroupsNaming(groups, vendor)
    decreases |groups|
  {
    var n := |groups| - 1;
    NamesIt(groups, vendor, n);
    if g < n {
      IsNamed(groups[..n], vendor, g);
    }
  }

  lemma {:induction false} AloneNamed(groups: seq<RequestGroup>, vendor: string, g: nat)
    requires g < |groups| && vendor in groups[g].vendors && forall h :: 0 <= h < |groups| && h != g ==> vendor !in groups[h].vendors
    ensures GroupsNaming(groups, vendor) == [groups[g]]
    decreases |groups|
  {
    var n := |groups| - 1;
    NamesIt(groups, vendor, n);
    if g < n {
      AloneNamed(groups[..n], vendor, g);
    } else {
      NoneNames(groups[..n], vendor);
    }
  }

  lemma {:induction false} NamingGrows(groups: seq<RequestGroup>, vendor: string, n: nat)
    requires n <= |groups|
    ensures |GroupsNaming(groups[..n], vendor)| <= |GroupsNaming(groups, vendor)|
  {
    if n < |groups| {
      var front := groups[..|groups| - 1];
      assert front[..n] == groups[..n];
      NamingGrows(front, vendor, n);
      NamesIt(groups, vendor, |groups| - 1);
    } else {
      assert groups[..n] == groups;
    }
  }

  lemma CountsOne(groups: seq<RequestGroup>, vendor: string, g: nat)
    requires g < |groups| && vendor in groups[g].vendors
    ensures |GroupsNaming(groups, vendor)| >= 1
  {
    IsNamed(groups, vendor, g);
  }

  lemma CountsLast(groups: seq<RequestGroup>, vendor: string, h: nat)
    requires h < |groups| && vendor in groups[h].vendors
    ensures |GroupsNaming(groups[..h + 1], vendor)| == |GroupsNaming(groups[..h], vendor)| + 1
  {
    assert groups[..h + 1][..h] == groups[..h] && groups[..h + 1][h] == groups[h];
    NamesIt(groups[..h + 1], vendor, h);
  }

  lemma BothNamed(groups: seq<RequestGroup>, vendor: string, g: nat, h: nat)
    requires g < h < |groups| && vendor in groups[g].vendors && vendor in groups[h].vendors
    ensures |GroupsNaming(groups, vendor)| >= 2
  {
    assert groups[..h][g] == groups[g];
    CountsOne(groups[..h], vendor, g);
    CountsLast(groups, vendor, h);
    NamingGrows(groups, vendor, h + 1);
  }

  lemma OneNames(groups: seq<RequestGroup>, vendor: string, g: nat)
    requires g < |groups| && vendor in groups[g].vendors
    ensures |GroupsNaming(groups, vendor)| == 1 <==> forall h :: 0 <= h < |groups| && h != g ==> vendor !in groups[h].vendors
    ensures |GroupsNaming(groups, vendor)| == 1 ==> GroupsNaming(groups, vendor) == [groups[g]]
  {
    if forall h :: 0 <= h < |groups| && h != g ==> vendor !in groups[h].vendors {
      AloneNamed(groups, vendor, g);
    } else {
      var h :| 0 <= h < |groups| && h != g && vendor in groups[h].vendors;
      BothNamed(groups, vendor, if g < h then g else h, if g < h then h else g);
    }
  }

  /** A create request asked for the card exactly when one group alone names its code, once, and has its subject. */
  lemma CreateAskedIff(groups: seq<RequestGroup>, card: Card)
    ensures AskedFor(CreateGroup, CreateRequest(groups), card) <==>
            exists g: nat :: OnlyGroup(groups, card.vendor, g) && groups[g].subjectId == card.subjectId
  {
    var named := GroupsNaming(groups, card.vendor);
    if |named| == 1 {
      NoneNames(groups, card.vendor);
      var g :| 0 <= g < |groups| && card.vendor in groups[g].vendors;
      OneNames(groups, card.vendor, g);
      assert named == [groups[g]];
      if Times(named[0].vendors, card.vendor) == 1 { assert OnlyGroup(groups, card.vendor, g); }
    }
    if g: nat :| OnlyGroup(groups, card.vendor, g) && groups[g].subjectId == card.subjectId {
      assert card.vendor in multiset(groups[g].vendors);
      OneNames(groups, card.vendor, g);
      forall h: nat | OnlyGroup(groups, card.vendor, h) ensures h == g { assert card.vendor in multiset(groups[h].vendors); }
    }
  }

  /** An add request asked for it exactly when it names the code once and adds to the card's group. */
  lemma AddAskedIff(imt: int, vendors: seq<string>, card: Card)
    ensures AskedFor(AddToGroup, AddRequest(imt, vendors), card) <==> imt >= 1 && imt == card.imtId && multiset(vendors)[card.vendor] == 1
  {
  }

  /** What proves that a card is present: seen after the attempt began, alone with its code, complete, and asked for. */
  lemma ProvedMeans(act: Action, vendor: string, card: Card, at: int, seen: Observation)
    ensures PresentProved(act, vendor, card, at, seen) <==>
            && act.attempt.Some? && at >= act.attempt.value.startedAt
            && EvidenceRules.OnlyCard(seen.normal, vendor, card) && EvidenceRules.NoTrash(seen.trash, vendor)
            && card.nmId >= 1 && card.imtId >= 1 && card.subjectId >= 1 && AskedFor(act.kind, act.request, card)
  {
    EvidenceRules.OnlyCardIff(seen.normal, vendor, card);
    EvidenceRules.NoTrashIff(seen.trash, vendor);
  }
}
