/** The import session as the repository updates it. */
module ImportRepository {
  import opened Common
  import opened ImportSession

  /** The sessions on which saving this result keeps the invariant. */
  ghost predicate Savable(s: Session, f: int, items: map<int, Item>, issues: set<Issue>) {
    Inv(s) && Parsed(s, f, items, issues)
  }

  lemma SavedKeeps(s: Session, f: int, items: map<int, Item>, issues: set<Issue>)
    requires CanSave(s, f)
    ensures Savable(s, f, items, issues) ==> Inv(Save(s, f, items, issues))
  {
    if Savable(s, f, items, issues) {
      SaveKeeps(s, f, items, issues);
    }
  }

  class ImportStore {
    var status: Status
    var revision: nat
    var files: map<int, FileStatus>
    var items: map<int, Item>
    var issues: set<Issue>

    function Rows(): Session
      reads this
    {
      Session(status, revision, files, items, issues)
    }

    constructor ()
      ensures Rows() == Session(Collecting, 0, map[], map[], {}) && Inv(Rows())
    {
      status, revision, files, items, issues := Collecting, 0, map[], map[], {};
    }

    method ClaimFileForParsing(f: int, stale: bool) returns (ok: bool)
      modifies this
      ensures ok <==> CanClaim(old(Rows()), f, stale)
      ensures Rows() == if ok then Claim(old(Rows()), f) else old(Rows())
    {
      if !status.Collecting? || f !in files ||
         !(files[f].Stored? || files[f].Valid? || files[f].Invalid? || (files[f].Parsing? && stale)) {
        return false;
      }
      files := files[f := Parsing];
      ok := true;
    }

    /** Clears the file's previous result, stores the new one and rebuilds the conflicts between files. */
    method SaveParsedFile(f: int, parsed: map<int, Item>, found: set<Issue>) returns (ok: bool)
      modifies this
      ensures ok <==> CanSave(old(Rows()), f)
      ensures Rows() == if ok then Save(old(Rows()), f, parsed, found) else old(Rows())
      ensures Savable(old(Rows()), f, parsed, found) ==> Inv(Rows())
    {
      ghost var before := Rows();
      if !status.Collecting? || f !in files || !files[f].Parsing? {
        return false;
      }
      SavedKeeps(before, f, parsed, found);
      ClearPrevious(f);
      items := items + parsed;
      issues := issues + found;
      issues := issues + CrossFileIssues(items);
      files := files[f := if exists x :: x in found && x.error then Invalid else Valid];
      revision := revision + 1;
      ok := true;
    }

    method ClearPrevious(f: int)
      modifies this
      ensures Rows() == old(Rows()).(items := Without(old(items), f),
                                     issues := set x | x in old(issues) && x.file != Some(f) && !IsCrossFile(x))
    {
      issues := set x | x in issues && x.file != Some(f);
      issues := set x | x in issues && !IsCrossFile(x);
      items := Without(items, f);
    }

    /** Drops what errors hit and what is not first of its vendor code or barcode, settles the files, clears the errors. */
    method ContinueAfterErrors(expected: nat) returns (ok: bool)
      modifies this
      ensures ok <==> CanContinue(old(Rows()), expected)
      ensures Rows() == if ok then Continue(old(Rows())) else old(Rows())
      ensures ok ==> Inv(Rows()) && !HasErrors(Rows())
    {
      ghost var before := Rows();
      if !CanContinue(Rows(), expected) {
        return false;
      }
      ContinueCleans(before);
      items := UnhitItems(Rows());
      items := FirstOfVendor(items);
      items := FirstOfBarcode(items);
      files := SettledFiles(Rows(), items);
      issues := set x | x in issues && !x.error;
      issues := set x | x in issues && !OfAbandoned(files, x);
      issues := issues + CrossFileIssues(items);
      revision := revision + 1;
      ok := true;
    }

    /** Freezes a ready session; in a reachable state no barcode conflict can be found on the way. */
    method FinalizeSession(expected: nat, order: seq<int>) returns (ok: bool)
      requires Inv(Rows()) && Distinct(order) && forall k :: 0 <= k < |order| ==> order[k] in items
      modifies this
      ensures ok <==> CanFinalize(old(Rows()), expected)
      ensures Rows() == if ok then Finalize(old(Rows())) else old(Rows())
    {
      if !status.Collecting? || revision != expected || !Ready(Rows()) {
        return false;
      }
      NoErrorsMeansUnique(Rows());
      UniqueItemsFreeze(items, order);
      var positions;
      ok, positions := LoadFrozenItems(Listing(items, order));
      if !ok {
        return;
      }
      status := Finalized;
      revision := revision + 1;
    }
  }
}
