/** What "continue", saving a file and freezing do to the rows of an import session, item by item and issue by issue. */
module ContinueRules {
  import opened Common
  import opened ImportSession
  import Aggregation

  // ---------------------------------------------------------------- continue

  /** Its file is not invalid, or no error of the file names the whole file or one of the item's rows. */
  ghost predicate Spared(s: Session, i: int)
    requires i in s.items
  {
    var x := s.items[i];
    && (x.file in s.files && s.files[x.file] == Invalid ==>
          forall e :: e in s.issues && e.error && e.file == Some(x.file) ==> e.row.Some? && e.row.value !in x.rows)
  }

  /** Strictly earlier by file, then position, then id. */
  predicate Precedes(x: Item, i: int, y: Item, j: int) {
    || x.file < y.file
    || (x.file == y.file && x.position < y.position)
    || (x.file == y.file && x.position == y.position && i < j)
  }

  /** Of the spared items with its vendor code it is the first. */
  ghost predicate FirstCode(s: Session, i: int)
    requires i in s.items
  {
    forall j :: j in s.items && j != i && Spared(s, j) && s.items[j].vendor == s.items[i].vendor ==>
      Precedes(s.items[i], i, s.items[j], j)
  }

  ghost predicate Contends(s: Session, j: int) { j in s.items && Spared(s, j) && FirstCode(s, j) }

  /** It repeats none of its barcodes and is, for each of them, the first of the items that are left. */
  ghost predicate FirstBarcodes(s: Session, i: int)
    requires i in s.items
  {
    forall b :: b in s.items[i].barcodes ==>
      && multiset(s.items[i].barcodes)[b] == 1
      && forall j :: Contends(s, j) && j != i && b in s.items[j].barcodes ==> Precedes(s.items[i], i, s.items[j], j)
  }

  lemma SparedIff(s: Session, i: int)
    requires i in s.items
    ensures i in UnhitItems(s) <==> Spared(s, i)
  {
  }

  lemma FirstCodeIff(s: Session, i: int)
    requires i in s.items
    ensures i in FirstOfVendor(UnhitItems(s)) <==> Spared(s, i) && FirstCode(s, i)
  {
    var items := UnhitItems(s);
    SparedIff(s, i);
    forall j | j in s.items ensures j in items <==> Spared(s, j) { SparedIff(s, j); }
    if i in items {
      forall j | j in items && j != i ensures Before(items, j, i) <==> !Precedes(s.items[i], i, s.items[j], j) { }
      assert !Before(items, i, i);
    }
  }

  lemma RepeatsIff(codes: seq<string>, b: string)
    requires b in codes
    ensures multiset(codes)[b] == 1 <==> !(multiset(codes)[b] > 1)
  {
    assert b in multiset(codes);
  }

  /** "Continue" keeps exactly these items, as they are. */
  lemma ContinueKeepsIff(s: Session, i: int)
    ensures i in Continue(s).items <==>
            i in s.items && Spared(s, i) && FirstCode(s, i) && FirstBarcodes(s, i)
    ensures i in Continue(s).items ==> Continue(s).items[i] == s.items[i]
  {
    if i in s.items {
      var items := FirstOfVendor(UnhitItems(s));
      forall j | j in s.items ensures j in items <==> Contends(s, j) { FirstCodeIff(s, j); }
      if i in items {
        forall j | j in items && j != i ensures Before(items, j, i) <==> !Precedes(s.items[i], i, s.items[j], j) { }
        assert !Before(items, i, i);
        forall b | b in s.items[i].barcodes ensures multiset(s.items[i].barcodes)[b] == 1 <==> !RepeatsIn(items[i], b) {
          RepeatsIff(s.items[i].barcodes, b);
        }
        LosesIff(s, items, i);
      }
    }
  }

  lemma LosesIff(s: Session, items: map<int, Item>, i: int)
    requires i in s.items && i in items && items[i] == s.items[i]
    requires forall j :: j in items <==> Contends(s, j)
    requires forall j :: j in items ==> j in s.items && items[j] == s.items[j]
    requires forall j :: j in items && j in s.items && j != i ==> (Before(items, j, i) <==> !Precedes(s.items[i], i, s.items[j], j))
    requires !Before(items, i, i)
    requires forall b :: b in s.items[i].barcodes ==> (multiset(s.items[i].barcodes)[b] == 1 <==> !RepeatsIn(items[i], b))
    ensures LosesBarcode(items, i) <==> !FirstBarcodes(s, i)
  {
    if LosesBarcode(items, i) {
      var b :| b in items[i].barcodes &&
               (RepeatsIn(items[i], b) || exists j :: j in items && Before(items, j, i) && Shares(items[i], items[j], b));
      if !RepeatsIn(items[i], b) {
        var j :| j in items && Before(items, j, i) && Shares(items[i], items[j], b);
        assert Contends(s, j) && j != i && b in s.items[j].barcodes;
      }
    }
    if !FirstBarcodes(s, i) {
      var b :| b in s.items[i].barcodes && !(multiset(s.items[i].barcodes)[b] == 1 &&
               forall j :: Contends(s, j) && j != i && b in s.items[j].barcodes ==> Precedes(s.items[i], i, s.items[j], j));
      if multiset(s.items[i].barcodes)[b] == 1 {
        var j :| Contends(s, j) && j != i && b in s.items[j].barcodes && !Precedes(s.items[i], i, s.items[j], j);
        assert Before(items, j, i) && Shares(items[i], items[j], b);
      }
    }
  }

  /** The issues that stay are the warnings of the session and of the files that are left; no file is left without an item. */
  lemma ContinueKeepsIssues(s: Session, e: Issue)
    ensures var t := Continue(s);
            e in t.issues <==>
            e in s.issues && !e.error &&
            (e.file.Some? && e.file.value in s.files ==>
               match s.files[e.file.value]
               case Valid => exists i :: i in t.items && t.items[i].file == e.file.value
               case Invalid => exists i :: i in t.items && t.items[i].file == e.file.value
               case Abandoned => false
               case _ => true)
  {
    var t := Continue(s);
    FirstsAreUnique(UnhitItems(s));
    FirstsAreUnique(FirstOfVendor(UnhitItems(s)));
    UniqueMeansNothingAcross(t.items);
  }

  // ---------------------------------------------------------------- conflicts between files

  ghost predicate CodeAcross(items: map<int, Item>, v: string) {
    exists i, j :: i in items && j in items && items[i].file != items[j].file && items[i].vendor == v && items[j].vendor == v
  }

  ghost predicate BarcodeAcross(items: map<int, Item>, b: string) {
    exists i, j :: i in items && j in items && items[i].file != items[j].file && b in items[i].barcodes && b in items[j].barcodes
  }

  /** A conflict is recorded for exactly the vendor codes and barcodes that two files share. */
  lemma CrossFileIff(items: map<int, Item>, e: Issue)
    ensures e in CrossFileIssues(items) <==>
            e.file.None? && e.error && e.row.None? &&
            match e.code
            case VendorAcrossFiles(v) => CodeAcross(items, v)
            case BarcodeAcrossFiles(b) => BarcodeAcross(items, b)
            case InFile(_) => false
  {
    if e.code.VendorAcrossFiles? && CodeAcross(items, e.code.vendor) {
      var i, j :| i in items && j in items && items[i].file != items[j].file && items[i].vendor == e.code.vendor && items[j].vendor == e.code.vendor;
      assert SharesVendor(items[i], items[j]) && items[i].vendor in VendorsAcross(items);
    }
    if e.code.BarcodeAcrossFiles? && BarcodeAcross(items, e.code.barcode) {
      var i, j :| i in items && j in items && items[i].file != items[j].file && e.code.barcode in items[i].barcodes &&
                  e.code.barcode in items[j].barcodes;
      assert Shares(items[i], items[j], e.code.barcode) && e.code.barcode in BarcodesAcross(items);
    }
  }

  // ---------------------------------------------------------------- saving a file

  /** Saving replaces the items and issues of one file, judges it by its own errors and touches no other file. */
  lemma SaveReplaces(s: Session, f: int, items: map<int, Item>, issues: set<Issue>, i: int, e: Issue)
    requires CanSave(s, f) && (forall j :: j in items ==> j !in s.items && items[j].file == f) && forall x :: x in issues ==> x.file == Some(f)
    ensures var t := Save(s, f, items, issues);
            && (i in t.items <==> i in items || (i in s.items && s.items[i].file != f))
            && (i in items ==> t.items[i] == items[i])
            && (i in t.items && i !in items ==> t.items[i] == s.items[i])
            && (e.file == Some(f) ==> (e in t.issues <==> e in issues))
            && (e.file.Some? && e.file != Some(f) ==> (e in t.issues <==> e in s.issues))
            && (t.files[f] == Valid <==> !exists x :: x in issues && x.error) && (t.files[f] == Invalid <==> exists x :: x in issues && x.error)
            && (forall g :: g in s.files && g != f ==> g in t.files && t.files[g] == s.files[g])
            && t.status == s.status && t.revision == s.revision + 1
  {
    CrossFileIff(Save(s, f, items, issues).items, e);
  }

  /** The issues of the whole session are rebuilt: exactly the conflicts there are now, and others that are no conflicts. */
  lemma SaveRebuilds(s: Session, f: int, items: map<int, Item>, issues: set<Issue>, e: Issue)
    requires CanSave(s, f) && (forall x :: x in issues ==> x.file == Some(f)) && e.file.None?
    ensures var t := Save(s, f, items, issues);
            && (e.code.VendorAcrossFiles? ==> (e in t.issues <==> e.error && e.row.None? && CodeAcross(t.items, e.code.vendor)))
            && (e.code.BarcodeAcrossFiles? ==> (e in t.issues <==> e.error && e.row.None? && BarcodeAcross(t.items, e.code.barcode)))
            && (e.code.InFile? ==> (e in t.issues <==> e in s.issues))
  {
    CrossFileIff(Save(s, f, items, issues).items, e);
  }

  /** A file can be claimed unless it is still reserved, was abandoned, or is with a parser that is not silent. */
  lemma ClaimableIff(s: Session, f: int, stale: bool)
    ensures CanClaim(s, f, stale) <==>
            s.status == Collecting && f in s.files && s.files[f] != Reserved && s.files[f] != Abandoned && (s.files[f] == Parsing ==> stale)
  {
  }

  /** Adding or claiming a file leaves every other file, all items and all issues as they were; a file is added once. */
  lemma FilesStay(s: Session, step: Step, g: int)
    requires ImportSession.Enabled(s, step) && (step.DoAddFile? || step.DoClaim?) && g in s.files
    ensures var t := Next(s, step);
            && g in t.files && (step.DoAddFile? || step.f != g ==> t.files[g] == s.files[g])
            && (step.DoClaim? && step.f == g ==> t.files[g] == Parsing && s.files[g] != Reserved && s.files[g] != Abandoned)
            && (step.DoClaim? && step.f == g && s.files[g] == Parsing ==> step.stale)
            && t.items == s.items && t.issues == s.issues && s.status == Collecting
  {
  }

  // ---------------------------------------------------------------- which commands are accepted

  /** A command that changes the items counts the revision up, so a second command with the same expectation is refused. */
  lemma RevisionGuards(s: Session, expected: nat)
    ensures CanContinue(s, expected) <==> s.status == Collecting && s.revision == expected && exists e :: e in s.issues && e.error
    ensures CanFinalize(s, expected) <==>
            && s.status == Collecting && s.revision == expected
            && (exists f :: f in s.files && s.files[f] == Valid) && (forall f :: f in s.files ==> s.files[f] == Valid || s.files[f] == Abandoned)
            && (forall e :: e in s.issues ==> !e.error) && |s.items| > 0
    ensures CanContinue(s, expected) ==> !CanContinue(Continue(s), expected) && !CanFinalize(Continue(s), expected)
    ensures CanFinalize(s, expected) ==> !CanFinalize(Finalize(s), expected) && !CanContinue(Finalize(s), expected)
  {
    if CanFinalize(s, expected) {
      var f :| f in s.files && !s.files[f].Abandoned?;
      assert s.files[f] == Valid;
    }
    if f :| f in s.files && s.files[f] == Valid {
      assert !s.files[f].Abandoned?;
    }
    assert s.items == map[] <==> |s.items| == 0;
  }

  lemma SavableIff(s: Session, f: int)
    ensures CanSave(s, f) <==> s.status == Collecting && f in s.files && s.files[f] == Parsing
  {
  }

  /** Cancelling abandons every file; a cancelled session can be cancelled again without effect, a frozen one never. */
  lemma CancelAbandons(s: Session)
    ensures CanCancel(s) <==> s.status != Finalized
    ensures var t := Cancel(s);
            && t.status == Cancelled && t.files.Keys == s.files.Keys && t.items == s.items && t.issues == s.issues
            && (forall f :: f in t.files ==> t.files[f] == Abandoned)
            && t.revision == s.revision + (if s.status == Collecting then 1 else 0)
    ensures CanCancel(s) ==> Cancel(Cancel(s)) == Cancel(s)
  {
  }

  /** The cards of a file become items in order, at positions from one on, under consecutive ids. */
  lemma CardsAreItems(f: int, cards: seq<Aggregation.Card>, first: int, i: int)
    ensures var items := ItemsOf(f, cards, first);
            && (i in items <==> first <= i < first + |cards|)
            && (i in items ==> items[i] == Item(f, i - first + 1, cards[i - first].rows, cards[i - first].vendor, Aggregation.Barcodes(cards[i - first])))
  {
  }

  /** How often the items carry the barcode, together. */
  function TimesIn(items: seq<Item>, b: string): nat {
    if items == [] then 0 else TimesIn(items[..|items| - 1], b) + multiset(items[|items| - 1].barcodes)[b]
  }

  lemma {:induction false} NotBlankCount(codes: seq<string>, b: string)
    ensures multiset(NotBlank(codes))[b] == if b == [] then 0 else multiset(codes)[b]
  {
    if codes != [] {
      var n := |codes| - 1;
      NotBlankCount(codes[..n], b);
      assert codes == codes[..n] + [codes[n]];
    }
  }

  lemma {:induction false} FrozenCount(items: seq<Item>, b: string)
    ensures multiset(FrozenCodes(items))[b] == if b == [] then 0 else TimesIn(items, b)
  {
    if items != [] {
      var n := |items| - 1;
      FrozenCount(items[..n], b);
      NotBlankCount(items[n].barcodes, b);
    }
  }

  /** No barcode that is not blank occurs twice, within an item or in two. */
  ghost predicate NoneTwice(items: seq<Item>) { forall b: string :: b != [] ==> TimesIn(items, b) <= 1 }

  /** Freezing succeeds exactly on such items. */
  lemma FreezableIff(items: seq<Item>)
    ensures Distinct(FrozenCodes(items)) <==> NoneTwice(items)
  {
    var codes := FrozenCodes(items);
    if Distinct(codes) {
      forall b: string | b != [] ensures TimesIn(items, b) <= 1 {
        FrozenCount(items, b);
        Aggregation.DistinctBag(codes, b);
      }
    }
    if NoneTwice(items) {
      forall b: string ensures multiset(codes)[b] <= 1 { FrozenCount(items, b); }
      OnceIsDistinct(codes);
    }
  }

  // ---------------------------------------------------------------- what is frozen

  /** There is something to freeze, all of it without errors and from files that were parsed without errors. */
  ghost predicate Sound(s: Session) {
    && s.items.Keys != {} && (forall e :: e in s.issues ==> !e.error)
    && (exists f :: f in s.files && s.files[f] == Valid)
    && forall f :: f in s.files ==> s.files[f] == Valid || s.files[f] == Abandoned
  }

  lemma StepFreezes(s: Session, step: Step)
    requires ImportSession.Enabled(s, step) && (s.status.Finalized? ==> Sound(s))
    ensures Next(s, step).status.Finalized? ==> Sound(Next(s, step))
    ensures s.status.Finalized? ==> Next(s, step) == s
  {
    if step.DoFinalize? {
      var f :| f in s.files && !s.files[f].Abandoned?;
      assert s.files[f] == Valid;
    }
  }

  /** In every run a frozen session is sound, and nothing changes it any more. */
  lemma {:induction false} FrozenIsSound(sessions: seq<Session>, steps: seq<Step>, n: nat)
    requires IsRun(sessions, steps) && n < |sessions|
    ensures sessions[n].status.Finalized? ==> Sound(sessions[n])
    ensures sessions[n].status.Finalized? && n < |steps| ==> sessions[n + 1] == sessions[n]
  {
    if n > 0 {
      FrozenIsSound(sessions, steps, n - 1);
      StepFreezes(sessions[n - 1], steps[n - 1]);
    }
    if n < |steps| {
      StepFreezes(sessions[n], steps[n]);
    }
  }
}
