/**
 An import session: spreadsheet files are parsed and re-parsed, conflicts between them are recorded as
 issues, "continue" drops what conflicts, and a ready session is frozen into a batch.
 */
module ImportSession {
  import opened Common
  import Aggregation

  datatype FileStatus = Reserved | Stored | Parsing | Valid | Invalid | Abandoned

  datatype Item = Item(file: int, position: int, rows: seq<int>, vendor: string, barcodes: seq<string>)

  datatype IssueCode = VendorAcrossFiles(vendor: string) | BarcodeAcrossFiles(barcode: string) | InFile(number: int)

  /** `file` is None for an issue of the whole session, `row` None for one of a whole file. */
  datatype Issue = Issue(file: Option<int>, error: bool, row: Option<int>, code: IssueCode)

  datatype Status = Collecting | Cancelled | Finalized

  datatype Session = Session(status: Status, revision: nat, files: map<int, FileStatus>,
                             items: map<int, Item>, issues: set<Issue>)

  // ---------------------------------------------------------------- conflicts

  predicate SharesVendor(x: Item, y: Item) { x.vendor == y.vendor }

  predicate Shares(x: Item, y: Item, b: string) { b in x.barcodes && b in y.barcodes }

  predicate RepeatsIn(x: Item, b: string) { multiset(x.barcodes)[b] > 1 }

  /** The vendor codes that occur in more than one file. */
  function VendorsAcross(items: map<int, Item>): set<string> {
    set i, j | i in items && j in items && items[i].file != items[j].file && SharesVendor(items[i], items[j]) :: items[i].vendor
  }

  function BarcodesAcross(items: map<int, Item>): set<string> {
    set i, j, b | i in items && b in items[i].barcodes && j in items && items[i].file != items[j].file && Shares(items[i], items[j], b) :: b
  }

  function VendorIssue(v: string): Issue { Issue(None, true, None, VendorAcrossFiles(v)) }

  function BarcodeIssue(b: string): Issue { Issue(None, true, None, BarcodeAcrossFiles(b)) }

  function CrossFileIssues(items: map<int, Item>): set<Issue> {
    (set v | v in VendorsAcross(items) :: VendorIssue(v)) + (set b | b in BarcodesAcross(items) :: BarcodeIssue(b))
  }

  predicate IsCrossFile(x: Issue) { x.file.None? && (x.code.VendorAcrossFiles? || x.code.BarcodeAcrossFiles?) }

  // ---------------------------------------------------------------- transactions

  predicate CanAddFile(s: Session, f: int) { s.status.Collecting? && f !in s.files }

  function AddFile(s: Session, f: int): Session { s.(files := s.files[f := Stored]) }

  /** `stale`: the previous parser has been silent for five minutes. */
  predicate CanClaim(s: Session, f: int, stale: bool) {
    && s.status.Collecting? && f in s.files
    && (s.files[f].Stored? || s.files[f].Valid? || s.files[f].Invalid? || (s.files[f].Parsing? && stale))
  }

  function Claim(s: Session, f: int): Session { s.(files := s.files[f := Parsing]) }

  /** Items of file `f` under fresh ids and its issues, with every barcode shared inside the file reported. */
  ghost predicate Parsed(s: Session, f: int, items: map<int, Item>, issues: set<Issue>) {
    && (forall i :: i in items ==> i !in s.items && items[i].file == f)
    && (forall x :: x in issues ==> x.file == Some(f))
    && (forall i, j :: i in items && j in items && i != j ==> !SharesVendor(items[i], items[j]))
    && ((exists x :: x in issues && x.error) || Unique(items))
  }

  /** No barcode occurs in two items or twice in one. */
  ghost predicate Unique(items: map<int, Item>) {
    && (forall i, j, b :: i in items && j in items && i != j ==> !Shares(items[i], items[j], b))
    && (forall i, b :: i in items ==> !RepeatsIn(items[i], b))
  }

  predicate CanSave(s: Session, f: int) {
    s.status.Collecting? && f in s.files && s.files[f].Parsing?
  }

  function Without(items: map<int, Item>, f: int): map<int, Item> {
    map i | i in items && items[i].file != f :: items[i]
  }

  /** Replaces the file's items and issues and recomputes the conflicts between files. */
  function Save(s: Session, f: int, items: map<int, Item>, issues: set<Issue>): Session {
    var kept := set x | x in s.issues && x.file != Some(f) && !IsCrossFile(x);
    var all := Without(s.items, f) + items;
    s.(items := all, issues := kept + issues + CrossFileIssues(all),
       files := s.files[f := if exists x :: x in issues && x.error then Invalid else Valid],
       revision := s.revision + 1)
  }

  // ---------------------------------------------------------------- continue

  predicate HasErrors(s: Session) { exists x :: x in s.issues && x.error }

  predicate CanContinue(s: Session, revision: nat) {
    s.status.Collecting? && s.revision == revision && HasErrors(s)
  }

  /** An error of the item's own file hits it: the file is invalid, and the error names no row or one of its rows. */
  predicate Hit(s: Session, x: Item) {
    && x.file in s.files && s.files[x.file].Invalid?
    && exists e :: e in s.issues && e.error && e.file == Some(x.file) && (e.row.None? || e.row.value in x.rows)
  }

  /** Earlier in the order of file, position and id. */
  predicate Before(items: map<int, Item>, i: int, j: int)
    requires i in items && j in items
  {
    var x, y := items[i], items[j];
    x.file < y.file || (x.file == y.file && (x.position < y.position || (x.position == y.position && i < j)))
  }

  predicate LosesVendor(items: map<int, Item>, i: int)
    requires i in items
  {
    exists j :: j in items && Before(items, j, i) && SharesVendor(items[i], items[j])
  }

  predicate LosesBarcode(items: map<int, Item>, i: int)
    requires i in items
  {
    exists b :: b in items[i].barcodes &&
      (RepeatsIn(items[i], b) || exists j :: j in items && Before(items, j, i) && Shares(items[i], items[j], b))
  }

  function UnhitItems(s: Session): map<int, Item> {
    map i | i in s.items && !Hit(s, s.items[i]) :: s.items[i]
  }

  function FirstOfVendor(items: map<int, Item>): map<int, Item> {
    map i | i in items && !LosesVendor(items, i) :: items[i]
  }

  function FirstOfBarcode(items: map<int, Item>): map<int, Item> {
    map i | i in items && !LosesBarcode(items, i) :: items[i]
  }

  function Survivors(s: Session): map<int, Item> {
    FirstOfBarcode(FirstOfVendor(UnhitItems(s)))
  }

  predicate FileHasItem(items: map<int, Item>, f: int) { exists i :: i in items && items[i].file == f }

  function SettledFiles(s: Session, items: map<int, Item>): map<int, FileStatus> {
    map f | f in s.files ::
      if s.files[f].Valid? || s.files[f].Invalid? then (if FileHasItem(items, f) then Valid else Abandoned)
      else s.files[f]
  }

  predicate OfAbandoned(files: map<int, FileStatus>, x: Issue) {
    x.file.Some? && x.file.value in files && files[x.file.value].Abandoned?
  }

  function Continue(s: Session): Session {
    var items := Survivors(s);
    var files := SettledFiles(s, items);
    var kept := set x | x in s.issues && !x.error && !OfAbandoned(files, x);
    s.(items := items, files := files, issues := kept + CrossFileIssues(items), revision := s.revision + 1)
  }

  // ---------------------------------------------------------------- cancel and finalize

  predicate CanCancel(s: Session) { s.status.Collecting? || s.status.Cancelled? }

  function Cancel(s: Session): Session {
    s.(status := Cancelled, revision := if s.status.Collecting? then s.revision + 1 else s.revision,
       files := map f | f in s.files :: Abandoned)
  }

  /** Some file is active, all active files are valid, no error is left and there is something to freeze. */
  predicate Ready(s: Session) {
    && (exists f :: f in s.files && !s.files[f].Abandoned?)
    && (forall f :: f in s.files && !s.files[f].Abandoned? ==> s.files[f].Valid?)
    && !HasErrors(s) && s.items != map[]
  }

  predicate CanFinalize(s: Session, revision: nat) {
    s.status.Collecting? && s.revision == revision && Ready(s)
  }

  function Finalize(s: Session): Session { s.(status := Finalized, revision := s.revision + 1) }

  // ---------------------------------------------------------------- the invariant

  ghost predicate FileErrors(s: Session, f: int) { exists x :: x in s.issues && x.error && x.file == Some(f) }

  /** Items of one file never share a vendor code, and share a barcode only if the file has an error. */
  ghost predicate WithinFiles(s: Session) {
    && (forall i, j :: i in s.items && j in s.items && i != j && s.items[i].file == s.items[j].file ==>
          !SharesVendor(s.items[i], s.items[j]))
    && (forall i, j, b :: i in s.items && j in s.items && i != j && s.items[i].file == s.items[j].file && Shares(s.items[i], s.items[j], b) ==>
          FileErrors(s, s.items[i].file))
    && (forall i, b :: i in s.items && RepeatsIn(s.items[i], b) ==> FileErrors(s, s.items[i].file))
  }

  /** Whatever two files share is recorded as an error of the session. */
  ghost predicate AcrossFiles(s: Session) {
    CrossFileIssues(s.items) <= s.issues
  }

  ghost predicate Inv(s: Session) { WithinFiles(s) && AcrossFiles(s) }

  lemma RecordedAcross(items: map<int, Item>, i: int, j: int)
    requires i in items && j in items && items[i].file != items[j].file
    ensures SharesVendor(items[i], items[j]) ==> VendorIssue(items[i].vendor) in CrossFileIssues(items)
    ensures forall b :: Shares(items[i], items[j], b) ==> BarcodeIssue(b) in CrossFileIssues(items)
  {
    if SharesVendor(items[i], items[j]) {
      assert items[i].vendor in VendorsAcross(items);
    }
    forall b | Shares(items[i], items[j], b) ensures BarcodeIssue(b) in CrossFileIssues(items) {
      assert b in BarcodesAcross(items);
    }
  }

  ghost predicate VendorsUnique(items: map<int, Item>) {
    forall i, j :: i in items && j in items && i != j ==> !SharesVendor(items[i], items[j])
  }

  /** A session without errors has no shared vendor code and no shared barcode. */
  lemma NoErrorsMeansUnique(s: Session)
    requires Inv(s) && !HasErrors(s)
    ensures VendorsUnique(s.items) && Unique(s.items)
  {
    forall i, j | i in s.items && j in s.items && i != j
      ensures !SharesVendor(s.items[i], s.items[j])
      ensures forall b :: !Shares(s.items[i], s.items[j], b)
    {
      if s.items[i].file != s.items[j].file {
        RecordedAcross(s.items, i, j);
      }
    }
  }

  lemma SaveKeeps(s: Session, f: int, items: map<int, Item>, issues: set<Issue>)
    requires Inv(s) && CanSave(s, f) && Parsed(s, f, items, issues)
    ensures Inv(Save(s, f, items, issues))
  {
    var next := Save(s, f, items, issues);
    forall g | g != f && FileErrors(s, g) ensures FileErrors(next, g) {
      var x :| x in s.issues && x.error && x.file == Some(g);
      assert x in next.issues;
    }
    if exists x :: x in issues && x.error {
      var x :| x in issues && x.error;
      assert x in next.issues && FileErrors(next, f);
    }
    SavedItems(s, f, items);
  }

  lemma SavedItems(s: Session, f: int, items: map<int, Item>)
    requires forall i :: i in items ==> i !in s.items && items[i].file == f
    ensures var all := Without(s.items, f) + items;
            forall i :: i in all ==> if all[i].file == f then i in items && all[i] == items[i]
                                     else i in s.items && all[i] == s.items[i]
  {
  }

  // ---------------------------------------------------------------- parse results

  /** The item rows of aggregated cards, under consecutive fresh ids. */
  function ItemsOf(f: int, cards: seq<Aggregation.Card>, first: int): map<int, Item> {
    map i | first <= i < first + |cards| :: ItemAt(f, cards, first, i)
  }

  function ItemAt(f: int, cards: seq<Aggregation.Card>, first: int, i: int): Item
    requires first <= i < first + |cards|
  {
    var card := cards[i - first];
    Item(f, i - first + 1, card.rows, card.vendor, Aggregation.Barcodes(card))
  }

  /** The issue rows of a file; a field conflict and a duplicate barcode are errors. */
  function IssuesOf(f: int, issues: seq<Aggregation.Issue>, other: set<Issue>): set<Issue> {
    (set k | 0 <= k < |issues| :: Issue(Some(f), true, Some(issues[k].row), InFile(k))) + other
  }

  /** What aggregation makes of a file whose barcodes are trimmed and not blank keeps its items apart or reports why not. */
  lemma AggregatedIsParsed(s: Session, f: int, rows: seq<Aggregation.Row>, other: set<Issue>, first: int)
    requires Aggregation.Clean(rows) && forall x :: x in other ==> x.file == Some(f)
    requires forall i :: i >= first ==> i !in s.items
    ensures Parsed(s, f, ItemsOf(f, Aggregation.Cards(rows), first), IssuesOf(f, Aggregation.Issues(rows), other))
  {
    var cards, found := Aggregation.Cards(rows), Aggregation.Issues(rows);
    var items, issues := ItemsOf(f, cards, first), IssuesOf(f, found, other);
    Aggregation.VendorsStayDistinct(rows);
    forall i, j | i in items && j in items && i != j ensures !SharesVendor(items[i], items[j]) {
      assert Trim(cards[i - first].vendor) != Trim(cards[j - first].vendor);
    }
    if Aggregation.ReportsDuplicate(found) {
      var k :| 0 <= k < |found| && found[k].DuplicateBarcode?;
      assert Issue(Some(f), true, Some(found[k].row), InFile(k)) in issues;
    } else {
      UniqueCards(f, rows, first);
    }
  }

  ghost predicate Apart(x: Aggregation.Card, y: Aggregation.Card, b: string) {
    !(b in Aggregation.Barcodes(x) && b in Aggregation.Barcodes(y))
  }

  ghost predicate Once(x: Aggregation.Card, b: string) { multiset(Aggregation.Barcodes(x))[b] <= 1 }

  lemma ApartMeansUnique(f: int, cards: seq<Aggregation.Card>, first: int)
    requires forall i, j, b :: 0 <= i < |cards| && 0 <= j < |cards| && i != j ==> Apart(cards[i], cards[j], b)
    requires forall i, b :: 0 <= i < |cards| ==> Once(cards[i], b)
    ensures Unique(ItemsOf(f, cards, first))
  {
    var items := ItemsOf(f, cards, first);
    forall i, j, b | i in items && j in items && i != j ensures !Shares(items[i], items[j], b) {
      assert Apart(cards[i - first], cards[j - first], b);
    }
    forall i, b | i in items ensures !RepeatsIn(items[i], b) {
      assert Once(cards[i - first], b);
    }
  }

  lemma UniqueCards(f: int, rows: seq<Aggregation.Row>, first: int)
    requires Aggregation.Clean(rows) && !Aggregation.ReportsDuplicate(Aggregation.Issues(rows))
    ensures Unique(ItemsOf(f, Aggregation.Cards(rows), first))
  {
    var cards := Aggregation.Cards(rows);
    forall i, j, b | 0 <= i < |cards| && 0 <= j < |cards| && i != j ensures Apart(cards[i], cards[j], b) {
      CardsShareNothing(rows, i, j, b);
    }
    forall i, b | 0 <= i < |cards| ensures Once(cards[i], b) {
      CardsShareNothing(rows, i, i, b);
    }
    ApartMeansUnique(f, cards, first);
  }

  lemma CardsShareNothing(rows: seq<Aggregation.Row>, i: nat, j: nat, b: string)
    requires Aggregation.Clean(rows) && !Aggregation.ReportsDuplicate(Aggregation.Issues(rows))
    requires i < |Aggregation.Cards(rows)| && j < |Aggregation.Cards(rows)|
    ensures var cards := Aggregation.Cards(rows);
            && multiset(Aggregation.Barcodes(cards[i]))[b] <= 1
            && (i != j ==> !(b in Aggregation.Barcodes(cards[i]) && b in Aggregation.Barcodes(cards[j])))
  {
    var cards := Aggregation.Cards(rows);
    Aggregation.UnreportedMeansUnique(rows, b);
    Aggregation.PartsOfTotal(cards, i, j, b);
    Aggregation.SizesAreSkus(cards[i].sizes, b);
    Aggregation.SizesAreSkus(cards[j].sizes, b);
  }

  // ---------------------------------------------------------------- what continuing leaves

  lemma FirstsAreUnique(items: map<int, Item>)
    ensures VendorsUnique(FirstOfVendor(items))
    ensures Unique(FirstOfBarcode(items))
    ensures VendorsUnique(items) ==> VendorsUnique(FirstOfBarcode(items))
  {
    var vendors, barcodes := FirstOfVendor(items), FirstOfBarcode(items);
    forall i, j | i in vendors && j in vendors && i != j ensures !SharesVendor(vendors[i], vendors[j]) {
      assert Before(items, i, j) || Before(items, j, i);
    }
    forall i, j, b | i in barcodes && j in barcodes && i != j ensures !Shares(barcodes[i], barcodes[j], b) {
      assert Before(items, i, j) || Before(items, j, i);
    }
  }

  lemma UniqueMeansNothingAcross(items: map<int, Item>)
    requires VendorsUnique(items) && Unique(items)
    ensures CrossFileIssues(items) == {}
  {
    assert VendorsAcross(items) == {};
    assert BarcodesAcross(items) == {};
  }

  /** "Continue" leaves no error, no shared code, only items there were, and a file valid exactly when it has one. */
  lemma ContinueCleans(s: Session)
    ensures var t := Continue(s);
            && !HasErrors(t) && VendorsUnique(t.items) && Unique(t.items) && Inv(t)
            && (forall i :: i in t.items ==> i in s.items && t.items[i] == s.items[i])
            && (forall f :: f in s.files && (s.files[f].Valid? || s.files[f].Invalid?) ==>
                  f in t.files && (t.files[f].Valid? <==> FileHasItem(t.items, f)) && (t.files[f].Abandoned? <==> !FileHasItem(t.items, f)))
            && (forall f :: f in s.files && !(s.files[f].Valid? || s.files[f].Invalid?) ==> f in t.files && t.files[f] == s.files[f])
  {
    var t := Continue(s);
    FirstsAreUnique(UnhitItems(s));
    FirstsAreUnique(FirstOfVendor(UnhitItems(s)));
    UniqueMeansNothingAcross(t.items);
  }

  // ---------------------------------------------------------------- freezing

  /** All barcodes of the items that are not blank, in order. */
  function FrozenCodes(items: seq<Item>): seq<string> {
    if items == [] then [] else FrozenCodes(items[..|items| - 1]) + NotBlank(items[|items| - 1].barcodes)
  }

  function NotBlank(codes: seq<string>): seq<string> {
    if codes == [] then []
    else NotBlank(codes[..|codes| - 1]) + (if codes[|codes| - 1] != [] then [codes[|codes| - 1]] else [])
  }

  /** Reads the items in order and fails on the first barcode met before; `positions` remembers where. */
  method LoadFrozenItems(items: seq<Item>) returns (ok: bool, positions: map<string, nat>)
    ensures ok <==> Distinct(FrozenCodes(items))
    ensures ok ==> forall b :: b in positions <==> b in FrozenCodes(items)
  {
    positions := map[];
    var i := 0;
    while i < |items|
      invariant 0 <= i <= |items|
      invariant Distinct(FrozenCodes(items[..i]))
      invariant forall b :: b in positions <==> b in FrozenCodes(items[..i])
    {
      assert items[..i + 1][..i] == items[..i];
      ok, positions := FreezeBarcodes(items[i].barcodes, i + 1, positions, FrozenCodes(items[..i]));
      if !ok {
        PrefixRepeats(items, i + 1);
        return;
      }
      i := i + 1;
    }
    assert items[..i] == items;
    ok := true;
  }

  method FreezeBarcodes(codes: seq<string>, position: nat, known: map<string, nat>, ghost before: seq<string>)
    returns (ok: bool, positions: map<string, nat>)
    requires Distinct(before) && forall b :: b in known <==> b in before
    ensures ok <==> Distinct(before + NotBlank(codes))
    ensures ok ==> forall b :: b in positions <==> b in before + NotBlank(codes)
  {
    positions := known;
    var j := 0;
    assert before + NotBlank(codes[..0]) == before;
    while j < |codes|
      invariant 0 <= j <= |codes|
      invariant Distinct(before + NotBlank(codes[..j]))
      invariant forall b :: b in positions <==> b in before + NotBlank(codes[..j])
    {
      ghost var walked := before + NotBlank(codes[..j]);
      assert codes[..j + 1][..j] == codes[..j];
      if codes[j] != [] {
        assert before + NotBlank(codes[..j + 1]) == walked + [codes[j]];
        if codes[j] in positions {
          RepeatBreaks(walked, codes[j]);
          CodesPrefix(codes, j + 1);
          PrefixDistinct(before + NotBlank(codes[..j + 1]), before + NotBlank(codes));
          return false, positions;
        }
        positions := positions[codes[j] := position];
      } else {
        assert before + NotBlank(codes[..j + 1]) == walked;
      }
      j := j + 1;
    }
    assert codes[..j] == codes;
    ok := true;
  }

  lemma RepeatBreaks(walked: seq<string>, b: string)
    requires b in walked
    ensures !Distinct(walked + [b])
  {
    var k :| 0 <= k < |walked| && walked[k] == b;
    assert (walked + [b])[k] == (walked + [b])[|walked|];
  }

  lemma PrefixDistinct(x: seq<string>, y: seq<string>)
    requires x <= y
    ensures Distinct(y) ==> Distinct(x)
  {
    if Distinct(y) {
      forall i, j | 0 <= i < j < |x| ensures x[i] != x[j] { assert x[i] == y[i] && x[j] == y[j]; }
    }
  }

  lemma {:induction false} CodesPrefix(codes: seq<string>, n: nat)
    requires n <= |codes|
    ensures NotBlank(codes[..n]) <= NotBlank(codes)
  {
    if n < |codes| {
      assert codes[..|codes| - 1][..n] == codes[..n];
      CodesPrefix(codes[..|codes| - 1], n);
    } else {
      assert codes[..n] == codes;
    }
  }

  lemma {:induction false} PrefixRepeats(items: seq<Item>, n: nat)
    requires n <= |items|
    ensures Distinct(FrozenCodes(items)) ==> Distinct(FrozenCodes(items[..n]))
  {
    if n < |items| {
      assert items[..|items| - 1][..n] == items[..n];
      PrefixRepeats(items[..|items| - 1], n);
      PrefixDistinct(FrozenCodes(items[..|items| - 1]), FrozenCodes(items));
    } else {
      assert items[..n] == items;
    }
  }

  /** The items listed in the given order of ids. */
  function Listing(items: map<int, Item>, order: seq<int>): (listed: seq<Item>)
    requires forall k :: 0 <= k < |order| ==> order[k] in items
    ensures |listed| == |order| && forall k :: 0 <= k < |order| ==> listed[k] == items[order[k]]
  {
    seq(|order|, k requires 0 <= k < |order| => items[order[k]])
  }

  ghost predicate CodeOfSome(items: map<int, Item>, order: seq<int>, b: string) {
    exists k :: 0 <= k < |order| && order[k] in items && b in items[order[k]].barcodes
  }

  lemma {:induction false} NotBlankIn(codes: seq<string>, b: string)
    ensures b in NotBlank(codes) ==> b in codes
    ensures multiset(NotBlank(codes))[b] <= multiset(codes)[b]
  {
    if codes != [] {
      var n := |codes| - 1;
      NotBlankIn(codes[..n], b);
      assert codes == codes[..n] + [codes[n]];
    }
  }

  lemma {:induction false} OnceIsDistinct(codes: seq<string>)
    requires forall b :: multiset(codes)[b] <= 1
    ensures Distinct(codes)
  {
    forall i, j | 0 <= i < j < |codes| ensures codes[i] != codes[j] {
      var front, back := codes[..j], codes[j..];
      assert codes == front + back && front[i] == codes[i] && back[0] == codes[j];
      assert multiset(codes) == multiset(front) + multiset(back);
      assert multiset(front)[codes[i]] >= 1 && multiset(back)[codes[j]] >= 1 && multiset(codes)[codes[i]] <= 1;
    }
  }

  /** Items that share no barcode freeze without a conflict, in whatever order they are read. */
  lemma {:induction false} UniqueItemsFreeze(items: map<int, Item>, order: seq<int>)
    requires Unique(items) && Distinct(order) && forall k :: 0 <= k < |order| ==> order[k] in items
    ensures Distinct(FrozenCodes(Listing(items, order)))
    ensures forall b :: b in FrozenCodes(Listing(items, order)) ==> CodeOfSome(items, order, b)
  {
    if order != [] {
      var n := |order| - 1;
      var front := order[..n];
      assert Distinct(front) by {
        forall i, j | 0 <= i < j < n ensures front[i] != front[j] { assert order[i] != order[j]; }
      }
      UniqueItemsFreeze(items, front);
      var listed := Listing(items, order);
      assert listed[..n] == Listing(items, front);
      var codes := NotBlank(items[order[n]].barcodes);
      LastItemFreezes(items, order, FrozenCodes(listed[..n]), codes);
      CodesAreListed(items, order, FrozenCodes(listed[..n]), codes);
    }
  }

  /** Codes of the items before the last one, and of the last one, are codes of the items listed. */
  lemma CodesAreListed(items: map<int, Item>, order: seq<int>, before: seq<string>, codes: seq<string>)
    requires order != [] && forall k :: 0 <= k < |order| ==> order[k] in items
    requires var n := |order| - 1;
             && (forall b :: b in before ==> CodeOfSome(items, order[..n], b))
             && codes == NotBlank(items[order[n]].barcodes)
    ensures forall b :: b in before + codes ==> CodeOfSome(items, order, b)
  {
    var n := |order| - 1;
    var front := order[..n];
    forall b | b in before + codes ensures CodeOfSome(items, order, b) {
      NotBlankIn(items[order[n]].barcodes, b);
      if b in before {
        var k :| 0 <= k < |front| && front[k] in items && b in items[front[k]].barcodes;
        assert order[k] == front[k];
      }
    }
  }

  lemma NoRepeat(items: map<int, Item>, i: int, b: string)
    requires Unique(items) && i in items
    ensures multiset(items[i].barcodes)[b] <= 1
  {
    assert !RepeatsIn(items[i], b);
  }

  lemma LastItemFreezes(items: map<int, Item>, order: seq<int>, before: seq<string>, codes: seq<string>)
    requires Unique(items) && Distinct(order) && order != [] && forall k :: 0 <= k < |order| ==> order[k] in items
    requires var n := |order| - 1;
             && Distinct(before) && (forall b :: b in before ==> CodeOfSome(items, order[..n], b))
             && codes == NotBlank(items[order[n]].barcodes)
    ensures Distinct(before + codes)
  {
    var n := |order| - 1;
    var x := items[order[n]];
    forall b ensures multiset(codes)[b] <= 1 {
      NotBlankIn(x.barcodes, b);
      NoRepeat(items, order[n], b);
    }
    OnceIsDistinct(codes);
    forall b | b in before ensures b !in codes {
      NotBlankIn(x.barcodes, b);
      assert CodeOfSome(items, order[..n], b);
      var k :| 0 <= k < n && order[..n][k] in items && b in items[order[..n][k]].barcodes;
      assert order[k] != order[n] && !Shares(items[order[k]], items[order[n]], b);
    }
    var all := before + codes;
    forall i, j | 0 <= i < j < |all| ensures all[i] != all[j] {
      if i < |before| <= j { assert before[i] in before && codes[j - |before|] in codes; }
    }
  }

  // ---------------------------------------------------------------- every sequence of steps

  datatype Step =
    | DoAddFile(f: int)
    | DoClaim(f: int, stale: bool)
    | DoSave(f: int, rows: seq<Aggregation.Row>, other: set<Issue>, first: int)
    | DoContinue(revision: nat)
    | DoCancel
    | DoFinalize(revision: nat)

  /**
   What the parser hands over: rows whose barcodes are trimmed and not blank, and any further issues of the file. The
   cards are stored under ids from `first` on, which are fresh.
   */
  ghost predicate ParserGives(s: Session, f: int, rows: seq<Aggregation.Row>, other: set<Issue>, first: int) {
    Aggregation.Clean(rows) && (forall x :: x in other ==> x.file == Some(f)) && forall i :: i >= first ==> i !in s.items
  }

  /** Aggregates the rows of a file and saves the result. */
  function SaveRows(s: Session, f: int, rows: seq<Aggregation.Row>, other: set<Issue>, first: int): Session {
    Save(s, f, ItemsOf(f, Aggregation.Cards(rows), first), IssuesOf(f, Aggregation.Issues(rows), other))
  }

  ghost predicate Enabled(s: Session, step: Step) {
    match step
    case DoAddFile(f) => CanAddFile(s, f)
    case DoClaim(f, stale) => CanClaim(s, f, stale)
    case DoSave(f, rows, other, first) => CanSave(s, f) && ParserGives(s, f, rows, other, first)
    case DoContinue(revision) => CanContinue(s, revision)
    case DoCancel => CanCancel(s)
    case DoFinalize(revision) => CanFinalize(s, revision)
  }

  function Next(s: Session, step: Step): Session {
    match step
    case DoAddFile(f) => AddFile(s, f)
    case DoClaim(f, _) => Claim(s, f)
    case DoSave(f, rows, other, first) => SaveRows(s, f, rows, other, first)
    case DoContinue(_) => Continue(s)
    case DoCancel => Cancel(s)
    case DoFinalize(_) => Finalize(s)
  }

  lemma StepKeeps(s: Session, step: Step)
    requires Inv(s) && Enabled(s, step)
    ensures Inv(Next(s, step))
  {
    match step
    case DoSave(f, rows, other, first) =>
      AggregatedIsParsed(s, f, rows, other, first);
      SaveKeeps(s, f, ItemsOf(f, Aggregation.Cards(rows), first), IssuesOf(f, Aggregation.Issues(rows), other));
    case DoContinue(_) => ContinueCleans(s);
    case _ =>
      var t := Next(s, step);
      forall f | FileErrors(s, f) ensures FileErrors(t, f) { }
  }

  ghost predicate IsRun(sessions: seq<Session>, steps: seq<Step>) {
    && |sessions| == |steps| + 1 && sessions[0] == Session(Collecting, 0, map[], map[], {})
    && forall i :: 0 <= i < |steps| ==> Enabled(sessions[i], steps[i]) && sessions[i + 1] == Next(sessions[i], steps[i])
  }

  lemma {:induction false} EverySessionOk(sessions: seq<Session>, steps: seq<Step>, n: nat)
    requires IsRun(sessions, steps) && n < |sessions|
    ensures Inv(sessions[n])
  {
    if n > 0 {
      EverySessionOk(sessions, steps, n - 1);
      StepKeeps(sessions[n - 1], steps[n - 1]);
    }
  }

  /**
   Whatever rows the files had, and whatever was claimed, parsed again, continued or cancelled before: a session that passes the readiness
   check shares no vendor code and no barcode, so freezing it cannot meet a duplicate.
   */
  lemma ReadyMeansFreezable(sessions: seq<Session>, steps: seq<Step>, n: nat, order: seq<int>)
    requires IsRun(sessions, steps) && n < |sessions| && Ready(sessions[n])
    requires Distinct(order) && forall k :: 0 <= k < |order| ==> order[k] in sessions[n].items
    ensures VendorsUnique(sessions[n].items) && Unique(sessions[n].items)
    ensures Distinct(FrozenCodes(Listing(sessions[n].items, order)))
  {
    EverySessionOk(sessions, steps, n);
    NoErrorsMeansUnique(sessions[n]);
    UniqueItemsFreeze(sessions[n].items, order);
  }
}
