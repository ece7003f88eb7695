/** Merging the rows of one parsed spreadsheet into cards, one card per vendor code. */
module Aggregation {
  import opened Common

  /** A Go slice: nil and empty are different values when compared deeply. */
  datatype Slice<T> = Nil | Of(items: seq<T>)

  datatype Size = Size(tech: string, wb: string, price: int, skus: seq<string>)

  /** `fields` stands for all scalar columns that rows of one card must share. */
  datatype Row = Row(number: int, vendor: string, fields: int, sizes: seq<Size>,
                     characteristics: Slice<int>, photos: Slice<string>)

  datatype Card = Card(rows: seq<int>, vendor: string, fields: int, sizes: seq<Size>,
                       characteristics: Slice<int>, photos: Slice<string>)

  datatype Issue = FieldsConflict(row: int) | DuplicateBarcode(row: int)

  /** append(nil, s...): copying an empty slice gives nil. */
  function Cloned<T>(s: Slice<T>): Slice<T> {
    if s.Nil? || s.items == [] then Nil else s
  }

  // ---------------------------------------------------------------- sizes

  predicate SamePair(x: Size, y: Size) { x.tech == y.tech && x.wb == y.wb }

  /** The first size with the same pair of labels. */
  function FindSize(sizes: seq<Size>, size: Size): Option<nat> {
    if sizes == [] then None
    else if SamePair(sizes[0], size) then Some(0)
    else
      var r := FindSize(sizes[1..], size);
      if r.None? then None else Some(r.value + 1)
  }

  /** The SKUs followed by those of `more` that are not among them yet. */
  function AddSkus(skus: seq<string>, more: seq<string>): seq<string> {
    if more == [] then skus
    else
      var n := |more| - 1;
      var front := AddSkus(skus, more[..n]);
      if more[n] in front then front else front + [more[n]]
  }

  function AddSize(sizes: seq<Size>, size: Size): seq<Size> {
    var at := FindSize(sizes, size);
    if at.None? || at.value >= |sizes| then sizes + [size]
    else sizes[at.value := sizes[at.value].(skus := AddSkus(sizes[at.value].skus, size.skus))]
  }

  function AddSizes(sizes: seq<Size>, more: seq<Size>): seq<Size> {
    if more == [] then sizes
    else AddSize(AddSizes(sizes, more[..|more| - 1]), more[|more| - 1])
  }

  method AppendSizes(target: seq<Size>, sizes: seq<Size>) returns (merged: seq<Size>)
    ensures merged == AddSizes(target, sizes)
  {
    merged := target;
    var i := 0;
    while i < |sizes|
      invariant 0 <= i <= |sizes| && merged == AddSizes(target, sizes[..i])
    {
      var size := sizes[i];
      assert sizes[..i + 1][..i] == sizes[..i];
      var at := LookupSize(merged, size);
      if at < 0 {
        merged := merged + [size];
      } else {
        var skus := AppendSkus(merged[at].skus, size.skus);
        merged := merged[at := merged[at].(skus := skus)];
      }
      i := i + 1;
    }
    assert sizes[..i] == sizes;
  }

  method LookupSize(sizes: seq<Size>, size: Size) returns (at: int)
    ensures at < 0 ==> FindSize(sizes, size).None?
    ensures at >= 0 ==> at < |sizes| && FindSize(sizes, size) == Some(at)
  {
    var i := 0;
    while i < |sizes|
      invariant 0 <= i <= |sizes|
      invariant FindSize(sizes, size) == var r := FindSize(sizes[i..], size); if r.None? then None else Some(r.value + i)
    {
      assert sizes[i..][1..] == sizes[i + 1..];
      if SamePair(sizes[i], size) {
        return i;
      }
      i := i + 1;
    }
    at := -1;
  }

  method AppendSkus(skus: seq<string>, more: seq<string>) returns (all: seq<string>)
    ensures all == AddSkus(skus, more)
  {
    var known := Elements(skus);
    all := skus;
    var i := 0;
    while i < |more|
      invariant 0 <= i <= |more| && all == AddSkus(skus, more[..i])
      invariant forall s :: s in known <==> s in all
    {
      assert more[..i + 1][..i] == more[..i];
      if more[i] !in known {
        all := all + [more[i]];
        known := known + {more[i]};
      }
      i := i + 1;
    }
    assert more[..i] == more;
  }

  ghost predicate PairsDistinct(sizes: seq<Size>) {
    forall i, j :: 0 <= i < j < |sizes| ==> !SamePair(sizes[i], sizes[j])
  }

  lemma {:induction false} FindSizeMeaning(sizes: seq<Size>, size: Size)
    ensures var r := FindSize(sizes, size);
            if r.Some? then r.value < |sizes| && SamePair(sizes[r.value], size)
            else forall i :: 0 <= i < |sizes| ==> !SamePair(sizes[i], size)
  {
    if sizes != [] && !SamePair(sizes[0], size) {
      FindSizeMeaning(sizes[1..], size);
    }
  }

  lemma {:induction false} AddSkusMeaning(skus: seq<string>, more: seq<string>, s: string)
    ensures s in AddSkus(skus, more) <==> s in skus || s in more
  {
    if more != [] {
      var n := |more| - 1;
      AddSkusMeaning(skus, more[..n], s);
      assert more == more[..n] + [more[n]];
    }
  }

  /** The sizes carry this (technical size, marketplace size, SKU) triple. */
  ghost predicate HasTriple(sizes: seq<Size>, t: string, w: string, s: string) {
    exists i :: 0 <= i < |sizes| && sizes[i].tech == t && sizes[i].wb == w && s in sizes[i].skus
  }

  lemma AddSizeHas(sizes: seq<Size>, size: Size, t: string, w: string, s: string)
    ensures HasTriple(AddSize(sizes, size), t, w, s) <==>
            HasTriple(sizes, t, w, s) || (size.tech == t && size.wb == w && s in size.skus)
  {
    FindSizeMeaning(sizes, size);
    var at, next := FindSize(sizes, size), AddSize(sizes, size);
    if at.None? {
      assert next[|sizes|] == size;
      if HasTriple(sizes, t, w, s) {
        var i :| 0 <= i < |sizes| && sizes[i].tech == t && sizes[i].wb == w && s in sizes[i].skus;
        assert next[i] == sizes[i];
      }
      if HasTriple(next, t, w, s) {
        var i :| 0 <= i < |next| && next[i].tech == t && next[i].wb == w && s in next[i].skus;
        assert i < |sizes| ==> next[i] == sizes[i];
      }
    } else {
      var k := at.value;
      AddSkusMeaning(sizes[k].skus, size.skus, s);
      if HasTriple(sizes, t, w, s) {
        var i :| 0 <= i < |sizes| && sizes[i].tech == t && sizes[i].wb == w && s in sizes[i].skus;
        assert next[i].tech == t && next[i].wb == w && s in next[i].skus;
      }
      if HasTriple(next, t, w, s) {
        var i :| 0 <= i < |next| && next[i].tech == t && next[i].wb == w && s in next[i].skus;
        assert i != k ==> next[i] == sizes[i];
      }
      assert next[k].tech == size.tech && next[k].wb == size.wb;
    }
  }

  lemma AddSizeKeepsPairs(sizes: seq<Size>, size: Size)
    requires PairsDistinct(sizes)
    ensures PairsDistinct(AddSize(sizes, size))
  {
    FindSizeMeaning(sizes, size);
  }

  /** Merging sizes unites their triples and never repeats a pair. */
  lemma {:induction false} AddSizesMeaning(sizes: seq<Size>, more: seq<Size>, t: string, w: string, s: string)
    ensures HasTriple(AddSizes(sizes, more), t, w, s) <==> HasTriple(sizes, t, w, s) || HasTriple(more, t, w, s)
    ensures PairsDistinct(sizes) ==> PairsDistinct(AddSizes(sizes, more))
  {
    if more != [] {
      var n := |more| - 1;
      AddSizesMeaning(sizes, more[..n], t, w, s);
      AddSizeHas(AddSizes(sizes, more[..n]), more[n], t, w, s);
      if PairsDistinct(sizes) {
        AddSizeKeepsPairs(AddSizes(sizes, more[..n]), more[n]);
      }
      HasTripleLast(more, t, w, s);
    }
  }

  lemma HasTripleLast(sizes: seq<Size>, t: string, w: string, s: string)
    requires sizes != []
    ensures HasTriple(sizes, t, w, s) <==>
            var n := |sizes| - 1;
            HasTriple(sizes[..n], t, w, s) || (sizes[n].tech == t && sizes[n].wb == w && s in sizes[n].skus)
  {
    var n := |sizes| - 1;
    if HasTriple(sizes[..n], t, w, s) {
      var i :| 0 <= i < n && sizes[..n][i].tech == t && sizes[..n][i].wb == w && s in sizes[..n][i].skus;
      assert sizes[i] == sizes[..n][i];
    }
    if HasTriple(sizes, t, w, s) {
      var i :| 0 <= i <= n && sizes[i].tech == t && sizes[i].wb == w && s in sizes[i].skus;
      assert i < n ==> sizes[..n][i] == sizes[i];
    }
  }

  // Merging the same sizes a second time changes nothing.

  /** `sizes` already has the pair and all the SKUs of `size`. */
  ghost predicate Absorbs(sizes: seq<Size>, size: Size) {
    var at := FindSize(sizes, size);
    at.Some? && at.value < |sizes| && forall s :: s in size.skus ==> s in sizes[at.value].skus
  }

  lemma {:induction false} AddKnownSkus(skus: seq<string>, more: seq<string>)
    requires forall s :: s in more ==> s in skus
    ensures AddSkus(skus, more) == skus
  {
    if more != [] {
      AddKnownSkus(skus, more[..|more| - 1]);
    }
  }

  lemma AbsorbedChangesNothing(sizes: seq<Size>, size: Size)
    requires Absorbs(sizes, size)
    ensures AddSize(sizes, size) == sizes
  {
    var k := FindSize(sizes, size).value;
    AddKnownSkus(sizes[k].skus, size.skus);
  }

  lemma {:induction false} FindSizeAfter(sizes: seq<Size>, other: Size, size: Size)
    ensures FindSize(sizes, size).Some? ==> FindSize(AddSize(sizes, other), size) == FindSize(sizes, size)
    ensures FindSize(AddSize(sizes, size), size).Some?
  {
    FindSizeMeaning(sizes, other);
    FindSizeMeaning(sizes, size);
    SamePairs(sizes, AddSize(sizes, other), size);
    FindSizeMeaning(AddSize(sizes, size), size);
    var next := AddSize(sizes, size);
    if FindSize(sizes, size).None? {
      assert SamePair(next[|sizes|], size);
    } else {
      assert SamePair(next[FindSize(sizes, size).value], size);
    }
  }

  /** The first size with a pair stays where it is when labels stay and sizes are appended. */
  lemma {:induction false} SamePairs(sizes: seq<Size>, next: seq<Size>, size: Size)
    requires |sizes| <= |next| && forall i :: 0 <= i < |sizes| ==> SamePair(sizes[i], next[i])
    ensures FindSize(sizes, size).Some? ==> FindSize(next, size) == FindSize(sizes, size)
  {
    if sizes != [] && !SamePair(sizes[0], size) {
      SamePairs(sizes[1..], next[1..], size);
    }
  }

  lemma AddSizeAbsorbs(sizes: seq<Size>, other: Size, size: Size)
    ensures Absorbs(AddSize(sizes, size), size)
    ensures Absorbs(sizes, size) ==> Absorbs(AddSize(sizes, other), size)
  {
    FindSizeMeaning(sizes, size);
    FindSizeMeaning(sizes, other);
    FindSizeAfter(sizes, other, size);
    FindSizeAfter(sizes, size, size);
    FindSizeMeaning(AddSize(sizes, size), size);
    FindSizeMeaning(AddSize(sizes, other), size);
    forall s | s in size.skus ensures s in AddSize(sizes, size)[FindSize(AddSize(sizes, size), size).value].skus {
      if FindSize(sizes, size).Some? {
        AddSkusMeaning(sizes[FindSize(sizes, size).value].skus, size.skus, s);
      } else {
        FirstIsLast(sizes, size);
      }
    }
    if Absorbs(sizes, size) {
      var k := FindSize(sizes, size).value;
      forall s | s in size.skus ensures s in AddSize(sizes, other)[k].skus {
        if FindSize(sizes, other) == Some(k) {
          AddSkusMeaning(sizes[k].skus, other.skus, s);
        }
      }
    }
  }

  lemma {:induction false} FirstIsLast(sizes: seq<Size>, size: Size)
    requires FindSize(sizes, size).None?
    ensures FindSize(sizes + [size], size) == Some(|sizes|)
  {
    if sizes != [] {
      assert (sizes + [size])[1..] == sizes[1..] + [size];
      FirstIsLast(sizes[1..], size);
    }
  }

  lemma {:induction false} AddSizesAbsorbs(sizes: seq<Size>, more: seq<Size>, i: nat)
    requires i < |more|
    ensures Absorbs(AddSizes(sizes, more), more[i])
    decreases |more|
  {
    var n := |more| - 1;
    var front := AddSizes(sizes, more[..n]);
    if i < n {
      AddSizesAbsorbs(sizes, more[..n], i);
      AddSizeAbsorbs(front, more[n], more[i]);
    } else {
      AddSizeAbsorbs(front, more[n], more[n]);
    }
  }

  lemma {:induction false} AbsorbAll(sizes: seq<Size>, more: seq<Size>)
    requires forall i :: 0 <= i < |more| ==> Absorbs(sizes, more[i])
    ensures AddSizes(sizes, more) == sizes
  {
    if more != [] {
      AbsorbAll(sizes, more[..|more| - 1]);
      AbsorbedChangesNothing(sizes, more[|more| - 1]);
    }
  }

  lemma MergingTwiceIsMergingOnce(sizes: seq<Size>, more: seq<Size>)
    ensures AddSizes(AddSizes(sizes, more), more) == AddSizes(sizes, more)
  {
    forall i | 0 <= i < |more| ensures Absorbs(AddSizes(sizes, more), more[i]) {
      AddSizesAbsorbs(sizes, more, i);
    }
    AbsorbAll(AddSizes(sizes, more), more);
  }

  // ---------------------------------------------------------------- rows into cards

  function CardFrom(row: Row): Card {
    Card([row.number], row.vendor, row.fields, AddSizes([], row.sizes), Cloned(row.characteristics), Cloned(row.photos))
  }

  /** The compared columns differ; nil and empty lists count as different. */
  predicate Conflicts(card: Card, row: Row) {
    card.fields != row.fields || card.characteristics != row.characteristics || card.photos != row.photos
  }

  function Merged(card: Card, row: Row): Card {
    card.(rows := card.rows + [row.number], sizes := AddSizes(card.sizes, row.sizes))
  }

  /** The card of a vendor code, compared without surrounding white space. */
  function FindCard(cards: seq<Card>, code: string): Option<nat> {
    if cards == [] then None
    else
      var n := |cards| - 1;
      if Trim(cards[n].vendor) == code then Some(n) else FindCard(cards[..n], code)
  }

  /** Which card takes the row: a new one, an existing one, or none because its fields conflict. */
  function Owner(cards: seq<Card>, row: Row): Option<nat> {
    var at := FindCard(cards, Trim(row.vendor));
    if at.None? then Some(|cards|)
    else if at.value < |cards| && Conflicts(cards[at.value], row) then None
    else at
  }

  function TakeRow(cards: seq<Card>, row: Row): seq<Card> {
    var owner := Owner(cards, row);
    if owner.None? then cards
    else if owner.value >= |cards| then cards + [CardFrom(row)]
    else cards[owner.value := Merged(cards[owner.value], row)]
  }

  function Cards(rows: seq<Row>): seq<Card> {
    if rows == [] then [] else TakeRow(Cards(rows[..|rows| - 1]), rows[|rows| - 1])
  }

  /** For each row the card that took it. */
  function Owners(rows: seq<Row>): (owners: seq<Option<nat>>)
    ensures |owners| == |rows|
  {
    if rows == [] then []
    else Owners(rows[..|rows| - 1]) + [Owner(Cards(rows[..|rows| - 1]), rows[|rows| - 1])]
  }

  // ---------------------------------------------------------------- barcodes and issues

  /** The barcodes of a row that are not blank, trimmed, in reading order. */
  function CodesOfSkus(skus: seq<string>): seq<string> {
    if skus == [] then []
    else CodesOfSkus(skus[..|skus| - 1]) + (if Trim(skus[|skus| - 1]) != [] then [Trim(skus[|skus| - 1])] else [])
  }

  function CodesOfSizes(sizes: seq<Size>): seq<string> {
    if sizes == [] then [] else CodesOfSizes(sizes[..|sizes| - 1]) + CodesOfSkus(sizes[|sizes| - 1].skus)
  }

  function Codes(rows: seq<Row>): seq<string> {
    if rows == [] then [] else Codes(rows[..|rows| - 1]) + CodesOfSizes(rows[|rows| - 1].sizes)
  }

  /** One issue for each code that occurred before it. */
  function Repeats(before: seq<string>, codes: seq<string>, number: int): seq<Issue> {
    if codes == [] then []
    else
      var n := |codes| - 1;
      Repeats(before, codes[..n], number) + (if codes[n] in before || codes[n] in codes[..n] then [DuplicateBarcode(number)] else [])
  }

  function RowIssues(front: seq<Row>, row: Row): seq<Issue> {
    Repeats(Codes(front), CodesOfSizes(row.sizes), row.number) +
    (if Owner(Cards(front), row).None? then [FieldsConflict(row.number)] else [])
  }

  function Issues(rows: seq<Row>): seq<Issue> {
    if rows == [] then [] else Issues(rows[..|rows| - 1]) + RowIssues(rows[..|rows| - 1], rows[|rows| - 1])
  }

  ghost predicate Indexed(cards: seq<Card>, indexes: map<string, nat>) {
    && (forall c :: FindCard(cards, c) == if c in indexes then Some(indexes[c]) else None)
    && (forall c :: c in indexes ==> indexes[c] < |cards|)
  }

  ghost predicate Remembered(seen: set<string>, codes: seq<string>) {
    forall c :: c in seen <==> c in codes
  }

  /** Aggregates a parsed file; `given` are the issues found while parsing it. */
  method AggregateParsedFile(rows: seq<Row>, given: seq<Issue>) returns (cards: seq<Card>, issues: seq<Issue>)
    ensures cards == Cards(rows)
    ensures issues == given + Issues(rows)
  {
    cards, issues := [], given;
    var indexes: map<string, nat> := map[];
    var seen: set<string> := {};
    var i := 0;
    while i < |rows|
      invariant 0 <= i <= |rows|
      invariant cards == Cards(rows[..i]) && issues == given + Issues(rows[..i])
      invariant Indexed(cards, indexes) && Remembered(seen, Codes(rows[..i]))
    {
      cards, indexes, seen, issues := TakeNextRow(rows, i, given, cards, indexes, seen, issues);
      i := i + 1;
    }
    assert rows[..i] == rows;
  }

  /** One turn of the loop over the rows. */
  method TakeNextRow(rows: seq<Row>, i: nat, ghost given: seq<Issue>, before: seq<Card>, indexes: map<string, nat>,
                     seen: set<string>, found: seq<Issue>)
    returns (cards: seq<Card>, indexed: map<string, nat>, known: set<string>, issues: seq<Issue>)
    requires i < |rows| && before == Cards(rows[..i]) && found == given + Issues(rows[..i])
    requires Indexed(before, indexes) && Remembered(seen, Codes(rows[..i]))
    ensures cards == Cards(rows[..i + 1]) && issues == given + Issues(rows[..i + 1])
    ensures Indexed(cards, indexed) && Remembered(known, Codes(rows[..i + 1]))
  {
    var row := rows[i];
    var repeats;
    repeats, known := DuplicateBarcodes(row, seen, Codes(rows[..i]));
    cards, indexed, issues := PlaceRow(before, indexes, row, found + repeats);
    RowStep(rows, i);
    ghost var conflict := if Owner(before, row).None? then [FieldsConflict(row.number)] else [];
    Associative(given, Issues(rows[..i]), repeats);
    Associative(given, Issues(rows[..i]) + repeats, conflict);
    Associative(Issues(rows[..i]), repeats, conflict);
  }

  lemma RowStep(rows: seq<Row>, i: nat)
    requires i < |rows|
    ensures Cards(rows[..i + 1]) == TakeRow(Cards(rows[..i]), rows[i])
    ensures Codes(rows[..i + 1]) == Codes(rows[..i]) + CodesOfSizes(rows[i].sizes)
    ensures Issues(rows[..i + 1]) == Issues(rows[..i]) + RowIssues(rows[..i], rows[i])
  {
    assert rows[..i + 1][..i] == rows[..i];
  }

  method PlaceRow(before: seq<Card>, indexes: map<string, nat>, row: Row, found: seq<Issue>)
    returns (cards: seq<Card>, indexed: map<string, nat>, issues: seq<Issue>)
    requires Indexed(before, indexes)
    ensures cards == TakeRow(before, row)
    ensures issues == found + (if Owner(before, row).None? then [FieldsConflict(row.number)] else [])
    ensures Indexed(cards, indexed)
  {
    cards, indexed, issues := before, indexes, found;
    var code := Trim(row.vendor);
    if code !in indexes {
      indexed := indexes[code := |before|];
      var sizes := AppendSizes([], row.sizes);
      cards := before + [Card([row.number], row.vendor, row.fields, sizes, Cloned(row.characteristics), Cloned(row.photos))];
      assert cards[..|before|] == before;
      return;
    }
    var at := indexes[code];
    if Conflicts(before[at], row) {
      issues := found + [FieldsConflict(row.number)];
      return;
    }
    var sizes := AppendSizes(before[at].sizes, row.sizes);
    cards := before[at := before[at].(rows := before[at].rows + [row.number], sizes := sizes)];
    forall c ensures FindCard(cards, c) == FindCard(before, c) {
      SameVendors(before, cards, c);
    }
  }

  lemma {:induction false} SameVendors(x: seq<Card>, y: seq<Card>, code: string)
    requires |x| == |y| && forall i :: 0 <= i < |x| ==> x[i].vendor == y[i].vendor
    ensures FindCard(x, code) == FindCard(y, code)
  {
    if x != [] {
      SameVendors(x[..|x| - 1], y[..|y| - 1], code);
    }
  }

  /** Walks the barcodes of the row, remembering each and reporting those met before. */
  method DuplicateBarcodes(row: Row, seen: set<string>, ghost before: seq<string>)
    returns (issues: seq<Issue>, known: set<string>)
    requires Remembered(seen, before)
    ensures issues == Repeats(before, CodesOfSizes(row.sizes), row.number)
    ensures Remembered(known, before + CodesOfSizes(row.sizes))
  {
    issues, known := [], seen;
    var i := 0;
    while i < |row.sizes|
      invariant 0 <= i <= |row.sizes|
      invariant issues == Repeats(before, CodesOfSizes(row.sizes[..i]), row.number)
      invariant Remembered(known, before + CodesOfSizes(row.sizes[..i]))
    {
      assert row.sizes[..i + 1][..i] == row.sizes[..i];
      issues, known := WalkSkus(row.number, row.sizes[i].skus, issues, known, before, CodesOfSizes(row.sizes[..i]));
      i := i + 1;
    }
    assert row.sizes[..i] == row.sizes;
  }

  method WalkSkus(number: int, skus: seq<string>, found: seq<Issue>, seen: set<string>,
                  ghost before: seq<string>, ghost done: seq<string>)
    returns (issues: seq<Issue>, known: set<string>)
    requires found == Repeats(before, done, number) && Remembered(seen, before + done)
    ensures issues == Repeats(before, done + CodesOfSkus(skus), number)
    ensures Remembered(known, before + (done + CodesOfSkus(skus)))
  {
    issues, known := found, seen;
    ghost var walked := done;
    var j := 0;
    assert done + CodesOfSkus(skus[..0]) == done;
    while j < |skus|
      invariant 0 <= j <= |skus|
      invariant walked == done + CodesOfSkus(skus[..j])
      invariant issues == Repeats(before, walked, number) && Remembered(known, before + walked)
    {
      SkuStep(skus, j, done);
      var code := Trim(skus[j]);
      if code != [] {
        RepeatsStep(before, walked, code, number);
        RememberedStep(known, before, walked, code);
        if code in known {
          issues := issues + [DuplicateBarcode(number)];
        } else {
          known := known + {code};
        }
        walked := walked + [code];
      }
      j := j + 1;
    }
    assert skus[..j] == skus;
  }

  lemma SkuStep(skus: seq<string>, j: nat, done: seq<string>)
    requires j < |skus|
    ensures done + CodesOfSkus(skus[..j + 1]) ==
            if Trim(skus[j]) != [] then (done + CodesOfSkus(skus[..j])) + [Trim(skus[j])] else done + CodesOfSkus(skus[..j])
  {
    assert skus[..j + 1][..j] == skus[..j];
    Associative(done, CodesOfSkus(skus[..j]), [Trim(skus[j])]);
  }

  lemma RememberedStep(seen: set<string>, before: seq<string>, walked: seq<string>, code: string)
    requires Remembered(seen, before + walked)
    ensures Remembered(seen + {code}, before + (walked + [code]))
    ensures code in seen ==> Remembered(seen, before + (walked + [code]))
  {
    Associative(before, walked, [code]);
  }

  lemma RepeatsStep(before: seq<string>, walked: seq<string>, code: string, number: int)
    ensures Repeats(before, walked + [code], number) ==
            Repeats(before, walked, number) + (if code in before + walked then [DuplicateBarcode(number)] else [])
  {
    assert (walked + [code])[..|walked|] == walked;
  }

  // ---------------------------------------------------------------- every row is accounted for

  lemma {:induction false} FindCardMeaning(cards: seq<Card>, code: string)
    ensures var r := FindCard(cards, code);
            if r.Some? then r.value < |cards| && Trim(cards[r.value].vendor) == code
            else forall i :: 0 <= i < |cards| ==> Trim(cards[i].vendor) != code
  {
    if cards != [] {
      FindCardMeaning(cards[..|cards| - 1], code);
    }
  }

  ghost predicate VendorsDistinct(cards: seq<Card>) {
    forall i, j :: 0 <= i < j < |cards| ==> Trim(cards[i].vendor) != Trim(cards[j].vendor)
  }

  /** The numbers of the rows that went to `owner`, in order. */
  function NumbersOf(rows: seq<Row>, owners: seq<Option<nat>>, owner: Option<nat>): seq<int>
    requires |owners| == |rows|
  {
    if rows == [] then []
    else
      var n := |rows| - 1;
      NumbersOf(rows[..n], owners[..n], owner) + (if owners[n] == owner then [rows[n].number] else [])
  }

  /** Taking a row changes at most the card that owns it. */
  lemma TakeRowMeaning(cards: seq<Card>, row: Row)
    ensures var owner, next := Owner(cards, row), TakeRow(cards, row);
            if owner.None? then next == cards
            else
              && owner.value <= |cards| && owner.value < |next| && |next| == (if owner.value < |cards| then |cards| else |cards| + 1)
              && (forall j :: 0 <= j < |cards| && j != owner.value ==> next[j] == cards[j])
              && Trim(next[owner.value].vendor) == Trim(row.vendor)
              && (owner.value < |cards| ==> next[owner.value].vendor == cards[owner.value].vendor)
              && next[owner.value].rows == (if owner.value < |cards| then cards[owner.value].rows else []) + [row.number]
              && next[owner.value].sizes == AddSizes(if owner.value < |cards| then cards[owner.value].sizes else [], row.sizes)
    ensures VendorsDistinct(cards) ==> VendorsDistinct(TakeRow(cards, row))
  {
    FindCardMeaning(cards, Trim(row.vendor));
  }

  lemma LastRow(rows: seq<Row>)
    requires rows != []
    ensures var n := |rows| - 1;
            && Cards(rows) == TakeRow(Cards(rows[..n]), rows[n])
            && Owners(rows)[..n] == Owners(rows[..n]) && Owners(rows)[n] == Owner(Cards(rows[..n]), rows[n])
  {
  }

  lemma {:induction false} VendorsStayDistinct(rows: seq<Row>)
    ensures VendorsDistinct(Cards(rows))
  {
    if rows != [] {
      var n := |rows| - 1;
      VendorsStayDistinct(rows[..n]);
      LastRow(rows);
      TakeRowMeaning(Cards(rows[..n]), rows[n]);
    }
  }

  /** Card `c` is there and has the vendor code. */
  ghost predicate IsCardOf(cards: seq<Card>, c: nat, code: string) { c < |cards| && Trim(cards[c].vendor) == code }

  lemma TakeRowKeepsCard(cards: seq<Card>, row: Row, c: nat, code: string)
    requires IsCardOf(cards, c, code)
    ensures IsCardOf(TakeRow(cards, row), c, code)
  {
    TakeRowMeaning(cards, row);
  }

  lemma OwnerMatches(cards: seq<Card>, row: Row)
    requires Owner(cards, row).Some?
    ensures IsCardOf(TakeRow(cards, row), Owner(cards, row).value, Trim(row.vendor))
  {
    TakeRowMeaning(cards, row);
  }

  /** A row goes to the card with its vendor code. */
  lemma {:induction false} OwnersMatch(rows: seq<Row>, i: nat)
    requires i < |rows| && Owners(rows)[i].Some?
    ensures IsCardOf(Cards(rows), Owners(rows)[i].value, Trim(rows[i].vendor))
    decreases |rows|
  {
    var n := |rows| - 1;
    LastRow(rows);
    if i < n {
      assert Owners(rows)[i] == Owners(rows)[..n][i];
      OwnersMatch(rows[..n], i);
      TakeRowKeepsCard(Cards(rows[..n]), rows[n], Owners(rows)[i].value, Trim(rows[i].vendor));
    } else {
      OwnerMatches(Cards(rows[..n]), rows[n]);
    }
  }

  /** Each card lists exactly the rows that went to it, in order. */
  lemma {:induction false} EveryRowAccounted(rows: seq<Row>, c: nat)
    ensures NumbersOf(rows, Owners(rows), Some(c)) == if c < |Cards(rows)| then Cards(rows)[c].rows else []
  {
    if rows != [] {
      var n := |rows| - 1;
      EveryRowAccounted(rows[..n], c);
      LastRow(rows);
      TakeRowMeaning(Cards(rows[..n]), rows[n]);
    }
  }

  /** The field conflicts reported are the rows nobody took, in order. */
  function ConflictNumbers(issues: seq<Issue>): seq<int> {
    if issues == [] then []
    else
      var n := |issues| - 1;
      ConflictNumbers(issues[..n]) + (if issues[n].FieldsConflict? then [issues[n].row] else [])
  }

  lemma {:induction false} ConflictsAppend(x: seq<Issue>, y: seq<Issue>)
    ensures ConflictNumbers(x + y) == ConflictNumbers(x) + ConflictNumbers(y)
  {
    if y == [] {
      assert x + y == x;
    } else {
      var n := |y| - 1;
      assert (x + y)[..|x| + n] == x + y[..n] && (x + y)[|x| + n] == y[n];
      ConflictsAppend(x, y[..n]);
    }
  }

  /** The code at `i` did not occur before it. */
  ghost predicate NewAt(before: seq<string>, codes: seq<string>, i: nat)
    requires i < |codes|
  {
    codes[i] !in before && codes[i] !in codes[..i]
  }

  lemma NewInFront(before: seq<string>, codes: seq<string>, n: nat)
    requires n <= |codes|
    ensures forall i :: 0 <= i < n ==> (NewAt(before, codes[..n], i) <==> NewAt(before, codes, i))
  {
    forall i | 0 <= i < n ensures NewAt(before, codes[..n], i) <==> NewAt(before, codes, i) {
      assert codes[..n][..i] == codes[..i];
    }
  }

  lemma {:induction false} RepeatsAreDuplicates(before: seq<string>, codes: seq<string>, number: int)
    ensures forall i :: 0 <= i < |Repeats(before, codes, number)| ==> Repeats(before, codes, number)[i].DuplicateBarcode?
  {
    if codes != [] {
      RepeatsAreDuplicates(before, codes[..|codes| - 1], number);
    }
  }

  lemma {:induction false} NoRepeatsIff(before: seq<string>, codes: seq<string>, number: int)
    ensures Repeats(before, codes, number) == [] <==> forall i :: 0 <= i < |codes| ==> NewAt(before, codes, i)
  {
    if codes != [] {
      var n := |codes| - 1;
      NoRepeatsIff(before, codes[..n], number);
      NewInFront(before, codes, n);
      assert codes[n] !in before && codes[n] !in codes[..n] <==> NewAt(before, codes, n);
    }
  }

  lemma {:induction false} NoConflictsAmong(issues: seq<Issue>)
    requires forall i :: 0 <= i < |issues| ==> issues[i].DuplicateBarcode?
    ensures ConflictNumbers(issues) == []
  {
    if issues != [] {
      NoConflictsAmong(issues[..|issues| - 1]);
    }
  }

  lemma RepeatsAreNoConflicts(before: seq<string>, codes: seq<string>, number: int)
    ensures ConflictNumbers(Repeats(before, codes, number)) == []
    ensures Repeats(before, codes, number) == [] <==> forall i :: 0 <= i < |codes| ==> NewAt(before, codes, i)
    ensures forall i :: 0 <= i < |Repeats(before, codes, number)| ==> Repeats(before, codes, number)[i].DuplicateBarcode?
  {
    RepeatsAreDuplicates(before, codes, number);
    NoRepeatsIff(before, codes, number);
    NoConflictsAmong(Repeats(before, codes, number));
  }

  /** Conservation: the conflicts are the rows nobody took, and the cards hold all the others. */
  lemma {:induction false} ConflictsAreUnowned(rows: seq<Row>)
    ensures ConflictNumbers(Issues(rows)) == NumbersOf(rows, Owners(rows), None)
  {
    if rows != [] {
      var n := |rows| - 1;
      var front, row := rows[..n], rows[n];
      ConflictsAreUnowned(front);
      LastRow(rows);
      var repeats := Repeats(Codes(front), CodesOfSizes(row.sizes), row.number);
      var conflict := if Owner(Cards(front), row).None? then [FieldsConflict(row.number)] else [];
      RepeatsAreNoConflicts(Codes(front), CodesOfSizes(row.sizes), row.number);
      ConflictsAppend(Issues(front), repeats + conflict);
      ConflictsAppend(repeats, conflict);
      assert ConflictNumbers(conflict) == if Owner(Cards(front), row).None? then [row.number] else [] by {
        assert conflict != [] ==> conflict[..0] == [];
      }
    }
  }

  /** The triples of a card are exactly those of the rows it took, and its size pairs do not repeat. */
  lemma {:induction false} CardsUniteTheirRows(rows: seq<Row>, c: nat, t: string, w: string, s: string)
    ensures TakenTriple(rows, c, t, w, s) <==> c < |Cards(rows)| && HasTriple(Cards(rows)[c].sizes, t, w, s)
    ensures c < |Cards(rows)| ==> PairsDistinct(Cards(rows)[c].sizes)
  {
    if rows != [] {
      var n := |rows| - 1;
      var before, row := Cards(rows[..n]), rows[n];
      CardsUniteTheirRows(rows[..n], c, t, w, s);
      LastRow(rows);
      TakeRowMeaning(before, row);
      TakenStep(rows, c, t, w, s);
      if Owner(before, row) == Some(c) {
        AddSizesMeaning(if c < |before| then before[c].sizes else [], row.sizes, t, w, s);
      }
    }
  }

  ghost predicate TakenTriple(rows: seq<Row>, c: nat, t: string, w: string, s: string) {
    exists i :: 0 <= i < |rows| && Takes(rows, Owners(rows), i, c, t, w, s)
  }

  ghost predicate Takes(rows: seq<Row>, owners: seq<Option<nat>>, i: nat, c: nat, t: string, w: string, s: string)
    requires i < |rows| && |owners| == |rows|
  {
    owners[i] == Some(c) && HasTriple(rows[i].sizes, t, w, s)
  }

  lemma TakenStep(rows: seq<Row>, c: nat, t: string, w: string, s: string)
    requires rows != []
    ensures var n := |rows| - 1;
            TakenTriple(rows, c, t, w, s) <==>
            TakenTriple(rows[..n], c, t, w, s) || (Owners(rows)[n] == Some(c) && HasTriple(rows[n].sizes, t, w, s))
  {
    LastRow(rows);
    TakenSplit(rows, Owners(rows), c, t, w, s);
  }

  /** The row that brings the triple is the last one or one before it. */
  lemma TakenSplit(rows: seq<Row>, owners: seq<Option<nat>>, c: nat, t: string, w: string, s: string)
    requires rows != [] && |owners| == |rows|
    ensures var n := |rows| - 1;
            (exists i :: 0 <= i < |rows| && Takes(rows, owners, i, c, t, w, s)) <==>
            (exists i :: 0 <= i < n && Takes(rows[..n], owners[..n], i, c, t, w, s)) || Takes(rows, owners, n, c, t, w, s)
  {
    var n := |rows| - 1;
    if i :| 0 <= i < n && Takes(rows[..n], owners[..n], i, c, t, w, s) {
      assert Takes(rows, owners, i, c, t, w, s);
    }
    if i :| 0 <= i < |rows| && Takes(rows, owners, i, c, t, w, s) {
      assert i < n ==> Takes(rows[..n], owners[..n], i, c, t, w, s);
    }
  }

  // ---------------------------------------------------------------- which rows merge

  /** Row `i` is the first with its vendor code. */
  ghost predicate Opens(rows: seq<Row>, i: nat) {
    i < |rows| && forall h :: 0 <= h < i ==> Trim(rows[h].vendor) != Trim(rows[i].vendor)
  }

  /** The card has the columns that rows are compared by, as they were copied from `row`. */
  ghost predicate CopiedFrom(cards: seq<Card>, at: Option<nat>, row: Row) {
    && at.Some? && at.value < |cards| && cards[at.value].fields == row.fields
    && cards[at.value].characteristics == Cloned(row.characteristics) && cards[at.value].photos == Cloned(row.photos)
  }

  /** Without a row of the code there is no card of the code. */
  lemma {:induction false} NoRowNoCard(rows: seq<Row>, code: string)
    requires forall h :: 0 <= h < |rows| ==> Trim(rows[h].vendor) != code
    ensures FindCard(Cards(rows), code).None?
  {
    if rows != [] {
      var n := |rows| - 1;
      NoRowNoCard(rows[..n], code);
      LastRow(rows);
      TakeRowMeaning(Cards(rows[..n]), rows[n]);
      FindCardMeaning(Cards(rows[..n]), code);
      FindCardMeaning(Cards(rows), code);
    }
  }

  /** Later rows add sizes to a card and leave its compared columns alone. */
  lemma TakeRowKeepsColumns(cards: seq<Card>, row: Row, code: string, first: Row)
    requires VendorsDistinct(cards) && CopiedFrom(cards, FindCard(cards, code), first)
    ensures CopiedFrom(TakeRow(cards, row), FindCard(TakeRow(cards, row), code), first)
  {
    var c, next := FindCard(cards, code).value, TakeRow(cards, row);
    TakeRowMeaning(cards, row);
    FindCardMeaning(cards, code);
    FindCardMeaning(cards, Trim(row.vendor));
    FindCardMeaning(next, code);
    assert Trim(next[c].vendor) == code;
  }

  /** The card of a vendor code has the compared columns of the first row with that code. */
  lemma {:induction false} CardKeepsFirstRow(rows: seq<Row>, i: nat)
    requires Opens(rows, i)
    ensures CopiedFrom(Cards(rows), FindCard(Cards(rows), Trim(rows[i].vendor)), rows[i])
    decreases |rows|
  {
    var n := |rows| - 1;
    LastRow(rows);
    if i < n {
      CardKeepsFirstRow(rows[..n], i);
      VendorsStayDistinct(rows[..n]);
      TakeRowKeepsColumns(Cards(rows[..n]), rows[n], Trim(rows[i].vendor), rows[i]);
    } else {
      NoRowNoCard(rows[..n], Trim(rows[n].vendor));
      assert Cards(rows)[|Cards(rows[..n])|] == CardFrom(rows[n]);
    }
  }

  lemma {:induction false} OwnersOfPrefix(rows: seq<Row>, j: nat)
    requires j < |rows|
    ensures Owners(rows)[j] == Owner(Cards(rows[..j]), rows[j])
    decreases |rows|
  {
    var n := |rows| - 1;
    if j < n {
      OwnersOfPrefix(rows[..n], j);
      PrefixOfPrefix(rows, n, j);
    }
    LastRow(rows);
  }

  lemma PrefixOfPrefix<T>(s: seq<T>, n: nat, j: nat)
    requires j <= n <= |s|
    ensures s[..n][..j] == s[..j]
  {
  }

  /**
   In every file, row `j` is taken exactly when it opens its vendor code or its columns equal those copied from
   the row `i` that opened it. Copying turns an empty list into nil, so a row may conflict with its own copy.
   */
  lemma {:induction false} RowMergesIff(rows: seq<Row>, i: nat, j: nat)
    requires i <= j < |rows| && Opens(rows, i) && Trim(rows[i].vendor) == Trim(rows[j].vendor)
    ensures Owners(rows)[j].Some? <==>
            || i == j
            || (rows[i].fields == rows[j].fields && Cloned(rows[i].characteristics) == rows[j].characteristics &&
                Cloned(rows[i].photos) == rows[j].photos)
  {
    OwnersOfPrefix(rows, j);
    if i == j {
      NoRowNoCard(rows[..j], Trim(rows[j].vendor));
    } else {
      assert Opens(rows[..j], i);
      CardKeepsFirstRow(rows[..j], i);
    }
  }

  /** Every vendor code of a file is opened by one of its rows. */
  lemma {:induction false} CodeIsOpened(rows: seq<Row>, j: nat)
    requires j < |rows|
    ensures exists i :: 0 <= i <= j && Opens(rows, i) && Trim(rows[i].vendor) == Trim(rows[j].vendor)
  {
    if !Opens(rows, j) {
      var h :| 0 <= h < j && Trim(rows[h].vendor) == Trim(rows[j].vendor);
      CodeIsOpened(rows, h);
    }
  }

  /** Of two equal rows the second merges exactly when the first did and no compared list is empty without being nil. */
  lemma {:induction false} EqualRowsMergeIff(rows: seq<Row>, i: nat, j: nat)
    requires i < j < |rows| && Trim(rows[i].vendor) == Trim(rows[j].vendor) && rows[i].fields == rows[j].fields
    requires rows[i].characteristics == rows[j].characteristics && rows[i].photos == rows[j].photos
    ensures Owners(rows)[j].Some? <==>
            Owners(rows)[i].Some? && rows[j].characteristics != Of([]) && rows[j].photos != Of([])
  {
    CodeIsOpened(rows, i);
    var h :| 0 <= h <= i && Opens(rows, h) && Trim(rows[h].vendor) == Trim(rows[i].vendor);
    RowMergesIff(rows, h, i);
    RowMergesIff(rows, h, j);
  }

  /** Repeating the only row of a file with an empty list in it makes the row conflict with its own card. */
  lemma {:induction false} RowMayConflictWithItself(row: Row)
    ensures Owners([row, row])[0] == Some(0)
    ensures Owners([row, row])[1].None? <==> row.characteristics == Of([]) || row.photos == Of([])
  {
    var rows := [row, row];
    OwnersOfPrefix(rows, 0);
    assert rows[..0] == [];
    EqualRowsMergeIff(rows, 0, 1);
  }

  // ---------------------------------------------------------------- barcodes of the cards

  /** All SKUs of the sizes, in order. */
  function Skus(sizes: seq<Size>): seq<string> {
    if sizes == [] then [] else Skus(sizes[..|sizes| - 1]) + sizes[|sizes| - 1].skus
  }

  function Barcodes(card: Card): seq<string> { Skus(card.sizes) }

  /** How often the barcode occurs. */
  function Times(codes: seq<string>, b: string): nat { multiset(codes)[b] }

  function TimesInSizes(sizes: seq<Size>, b: string): nat {
    if sizes == [] then 0 else TimesInSizes(sizes[..|sizes| - 1], b) + Times(sizes[|sizes| - 1].skus, b)
  }

  function TimesInCards(cards: seq<Card>, b: string): nat {
    if cards == [] then 0 else TimesInCards(cards[..|cards| - 1], b) + TimesInSizes(cards[|cards| - 1].sizes, b)
  }

  lemma {:induction false} SizesAreSkus(sizes: seq<Size>, b: string)
    ensures TimesInSizes(sizes, b) == Times(Skus(sizes), b)
  {
    if sizes != [] {
      SizesAreSkus(sizes[..|sizes| - 1], b);
    }
  }

  /** Barcodes come from the parser trimmed and not blank. */
  ghost predicate CleanSkus(skus: seq<string>) {
    forall i :: 0 <= i < |skus| ==> skus[i] != [] && Trim(skus[i]) == skus[i]
  }

  ghost predicate Clean(rows: seq<Row>) {
    forall i, j :: 0 <= i < |rows| && 0 <= j < |rows[i].sizes| ==> CleanSkus(rows[i].sizes[j].skus)
  }

  lemma CleanLast(skus: seq<string>, n: nat)
    requires |skus| == n + 1 && skus[n] != [] && Trim(skus[n]) == skus[n]
    ensures CodesOfSkus(skus) == CodesOfSkus(skus[..n]) + [skus[n]]
  {
  }

  lemma CleanFront(skus: seq<string>, n: nat)
    requires n <= |skus| && CleanSkus(skus)
    ensures CleanSkus(skus[..n])
  {
  }

  lemma {:induction false} CleanCodes(skus: seq<string>)
    requires CleanSkus(skus)
    ensures CodesOfSkus(skus) == skus
  {
    if skus != [] {
      var n := |skus| - 1;
      CleanFront(skus, n);
      CleanCodes(skus[..n]);
      CleanLast(skus, n);
      assert skus == skus[..n] + [skus[n]];
    }
  }

  lemma {:induction false} CleanSizes(sizes: seq<Size>)
    requires forall j :: 0 <= j < |sizes| ==> CleanSkus(sizes[j].skus)
    ensures CodesOfSizes(sizes) == Skus(sizes)
  {
    if sizes != [] {
      CleanSizes(sizes[..|sizes| - 1]);
      CleanCodes(sizes[|sizes| - 1].skus);
    }
  }

  lemma {:induction false} SizesUpdate(sizes: seq<Size>, k: nat, x: Size, b: string)
    requires k < |sizes|
    ensures TimesInSizes(sizes[k := x], b) + Times(sizes[k].skus, b) == TimesInSizes(sizes, b) + Times(x.skus, b)
  {
    var n := |sizes| - 1;
    if k < n {
      SizesUpdate(sizes[..n], k, x, b);
      assert sizes[k := x][..n] == sizes[..n][k := x];
    } else {
      assert sizes[k := x][..n] == sizes[..n];
    }
  }

  lemma {:induction false} AddSkusTimes(skus: seq<string>, more: seq<string>, b: string)
    ensures Times(AddSkus(skus, more), b) <= Times(skus, b) + Times(more, b)
  {
    if more != [] {
      var n := |more| - 1;
      AddSkusTimes(skus, more[..n], b);
      assert more == more[..n] + [more[n]];
    }
  }

  lemma AddSizeTimes(sizes: seq<Size>, size: Size, b: string)
    ensures TimesInSizes(AddSize(sizes, size), b) <= TimesInSizes(sizes, b) + Times(size.skus, b)
  {
    FindSizeMeaning(sizes, size);
    var at := FindSize(sizes, size);
    if at.None? {
      assert (sizes + [size])[..|sizes|] == sizes;
    } else {
      var k := at.value;
      AddSkusTimes(sizes[k].skus, size.skus, b);
      SizesUpdate(sizes, k, sizes[k].(skus := AddSkus(sizes[k].skus, size.skus)), b);
    }
  }

  lemma {:induction false} AddSizesTimes(sizes: seq<Size>, more: seq<Size>, b: string)
    ensures TimesInSizes(AddSizes(sizes, more), b) <= TimesInSizes(sizes, b) + TimesInSizes(more, b)
  {
    if more != [] {
      var n := |more| - 1;
      AddSizesTimes(sizes, more[..n], b);
      AddSizeTimes(AddSizes(sizes, more[..n]), more[n], b);
    }
  }

  lemma {:induction false} CardsUpdate(cards: seq<Card>, k: nat, x: Card, b: string)
    requires k < |cards|
    ensures TimesInCards(cards[k := x], b) + TimesInSizes(cards[k].sizes, b) == TimesInCards(cards, b) + TimesInSizes(x.sizes, b)
  {
    var n := |cards| - 1;
    if k < n {
      CardsUpdate(cards[..n], k, x, b);
      assert cards[k := x][..n] == cards[..n][k := x];
    } else {
      assert cards[k := x][..n] == cards[..n];
    }
  }

  lemma TakeRowTimes(cards: seq<Card>, row: Row, b: string)
    ensures TimesInCards(TakeRow(cards, row), b) <= TimesInCards(cards, b) + TimesInSizes(row.sizes, b)
  {
    var owner, next := Owner(cards, row), TakeRow(cards, row);
    TakeRowMeaning(cards, row);
    if owner.Some? {
      var k := owner.value;
      if k < |cards| {
        AddSizesTimes(cards[k].sizes, row.sizes, b);
        CardsUpdate(cards, k, next[k], b);
        assert next == cards[k := next[k]];
      } else {
        AddSizesTimes([], row.sizes, b);
        assert next[..|cards|] == cards;
      }
    }
  }

  /** No barcode occurs more often in the cards than in the rows. */
  lemma {:induction false} BarcodesComeFromRows(rows: seq<Row>, b: string)
    requires Clean(rows)
    ensures TimesInCards(Cards(rows), b) <= Times(Codes(rows), b)
  {
    if rows != [] {
      var n := |rows| - 1;
      BarcodesComeFromRows(rows[..n], b);
      LastRow(rows);
      CleanSizes(rows[n].sizes);
      SizesAreSkus(rows[n].sizes, b);
      TakeRowTimes(Cards(rows[..n]), rows[n], b);
    }
  }

  ghost predicate ReportsDuplicate(issues: seq<Issue>) {
    exists i :: 0 <= i < |issues| && issues[i].DuplicateBarcode?
  }

  /** A file reports a duplicate barcode exactly when one occurs twice among its rows. */
  lemma {:induction false} DuplicatesReportedIff(rows: seq<Row>)
    ensures !ReportsDuplicate(Issues(rows)) <==> Distinct(Codes(rows))
  {
    if rows != [] {
      var n := |rows| - 1;
      var front, codes := rows[..n], CodesOfSizes(rows[n].sizes);
      DuplicatesReportedIff(front);
      var repeats := Repeats(Codes(front), codes, rows[n].number);
      RepeatsAreNoConflicts(Codes(front), codes, rows[n].number);
      ReportSplit(Issues(front), RowIssues(front, rows[n]));
      var conflict := if Owner(Cards(front), rows[n]).None? then [FieldsConflict(rows[n].number)] else [];
      ReportSplit(repeats, conflict);
      assert ReportsDuplicate(repeats) <==> repeats != [] by {
        if repeats != [] { assert repeats[0].DuplicateBarcode?; }
      }
      DistinctSplit(Codes(front), codes);
    }
  }

  lemma ReportSplit(x: seq<Issue>, y: seq<Issue>)
    ensures ReportsDuplicate(x + y) <==> ReportsDuplicate(x) || ReportsDuplicate(y)
  {
    if ReportsDuplicate(x) {
      var i :| 0 <= i < |x| && x[i].DuplicateBarcode?;
      assert (x + y)[i].DuplicateBarcode?;
    }
    if ReportsDuplicate(y) {
      var i :| 0 <= i < |y| && y[i].DuplicateBarcode?;
      assert (x + y)[|x| + i].DuplicateBarcode?;
    }
  }

  lemma DistinctSplit(x: seq<string>, y: seq<string>)
    ensures Distinct(x + y) <==> Distinct(x) && forall i :: 0 <= i < |y| ==> NewAt(x, y, i)
  {
    var z := x + y;
    if Distinct(z) {
      forall i, j | 0 <= i < j < |x| ensures x[i] != x[j] { assert z[i] != z[j]; }
      forall i | 0 <= i < |y| ensures NewAt(x, y, i) {
        assert forall j :: 0 <= j < |x| + i ==> z[j] != z[|x| + i];
        assert forall j :: 0 <= j < |x| ==> x[j] == z[j];
        assert forall j :: 0 <= j < i ==> y[j] == z[|x| + j];
      }
    }
    if Distinct(x) && forall i :: 0 <= i < |y| ==> NewAt(x, y, i) {
      forall i, j | 0 <= i < j < |z| ensures z[i] != z[j] {
        if j >= |x| {
          assert NewAt(x, y, j - |x|);
          if i >= |x| { assert y[i - |x|] == y[..j - |x|][i - |x|]; } else { assert x[i] in x; }
        }
      }
    }
  }

  lemma {:induction false} DistinctBag(s: seq<string>, b: string)
    requires Distinct(s)
    ensures multiset(s)[b] <= 1
  {
    if s != [] {
      var n := |s| - 1;
      assert s == s[..n] + [s[n]];
      DistinctBag(s[..n], b);
    }
  }

  /** Without a reported duplicate every barcode of the file belongs to one place of one card. */
  lemma UnreportedMeansUnique(rows: seq<Row>, b: string)
    requires Clean(rows) && !ReportsDuplicate(Issues(rows))
    ensures TimesInCards(Cards(rows), b) <= 1
  {
    BarcodesComeFromRows(rows, b);
    DuplicatesReportedIff(rows);
    DistinctBag(Codes(rows), b);
  }

  lemma {:induction false} PartOfTotal(cards: seq<Card>, i: nat, b: string)
    requires i < |cards|
    ensures TimesInSizes(cards[i].sizes, b) <= TimesInCards(cards, b)
    decreases |cards|
  {
    var n := |cards| - 1;
    if i < n {
      PartOfTotal(cards[..n], i, b);
    }
  }

  /** Two cards together hold no more of a barcode than all cards do. */
  lemma {:induction false} PartsOfTotal(cards: seq<Card>, i: nat, j: nat, b: string)
    requires i < |cards| && j < |cards|
    ensures TimesInSizes(cards[i].sizes, b) <= TimesInCards(cards, b)
    ensures i != j ==> TimesInSizes(cards[i].sizes, b) + TimesInSizes(cards[j].sizes, b) <= TimesInCards(cards, b)
    decreases |cards|
  {
    PartOfTotal(cards, i, b);
    var n := |cards| - 1;
    if i < n && j < n {
      PartsOfTotal(cards[..n], i, j, b);
    } else if i != j {
      PartOfTotal(cards[..n], if i < n then i else j, b);
    }
  }
}
