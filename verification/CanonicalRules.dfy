/** What two equal streams say about their sources, and which items a batch accepts. */
module CanonicalRules {
  import opened Common
  import opened CanonicalStream

  /** Equal source-group streams come exactly from one file and one group, or from one file and one ungrouped card. */
  lemma SameGroupIff(file: Int64, group: seq<Byte>, vendor: seq<Byte>, other: Int64, group2: seq<Byte>, vendor2: seq<Byte>)
    requires Fits(group) && Fits(vendor) && Fits(group2) && Fits(vendor2)
    ensures Flat(GroupChunks(file, OriginOf(group, vendor))) == Flat(GroupChunks(other, OriginOf(group2, vendor2))) <==>
            file == other && if group == [] then group2 == [] && vendor == vendor2 else group == group2
  {
    if Flat(GroupChunks(file, OriginOf(group, vendor))) == Flat(GroupChunks(other, OriginOf(group2, vendor2))) {
      GroupStreamsDiffer(file, OriginOf(group, vendor), other, OriginOf(group2, vendor2));
    }
  }

  ghost predicate Storable(items: seq<Item>) {
    && |items| < 0x8000_0000_0000_0000
    && (forall i :: 0 <= i < |items| ==> ItemOk(items[i], i + 1) && ItemFits(items[i]) && Fits(items[i].payloadGroup))
  }

  lemma SameStreamSameItem(x: Item, y: Item, p: int)
    requires ItemOk(x, p) && ItemOk(y, p) && SameItem(x, y) && ItemFits(x) && Fits(x.payloadGroup) && Fits(y.payloadGroup)
    ensures x == y
  {
    SameGroupIff(x.file, x.payloadGroup, x.vendor, y.file, y.payloadGroup, y.vendor);
  }

  /** Two accepted batches with the same checksum stream are the same batch, items, payload groups and all. */
  lemma SameStreamSameBatch(p: seq<Byte>, g: Int64, x: seq<Item>, q: seq<Byte>, h: Int64, y: seq<Item>)
    requires Fits(p) && Fits(q) && Storable(x) && Storable(y) && BatchStream(p, g, x) == BatchStream(q, h, y)
    ensures p == q && g == h && x == y
  {
    BatchStreamsDiffer(p, g, x, q, h, y);
    forall i | 0 <= i < |x| ensures x[i] == y[i] {
      SameStreamSameItem(x[i], y[i], i + 1);
    }
  }

  /** An accepted item has a vendor code, rising source rows from one on, and a payload and key that agree with it. */
  lemma AcceptedIff(item: Item, p: int)
    ensures ItemOk(item, p) <==>
            && item.position == p && p >= 1 && item.file >= 1 && |item.rows| >= 1
            && item.rows[0] >= 1 && (forall i, j :: 0 <= i < j < |item.rows| ==> item.rows[i] < item.rows[j])
            && !Blank(item.vendor) && item.payloadVendor == item.vendor && item.payloadRows == item.rows
            && item.key == Flat(GroupChunks(item.file, if item.payloadGroup == [] then Origin(false, item.vendor) else Origin(true, item.payloadGroup)))
  {
    if RowsOrdered(item.rows) {
      Rising(item.rows, |item.rows|);
    }
    if |item.rows| >= 1 && item.rows[0] >= 1 && (forall i, j :: 0 <= i < j < |item.rows| ==> item.rows[i] < item.rows[j]) {
      assert forall i :: 0 < i < |item.rows| ==> item.rows[0] < item.rows[i];
    }
  }

  lemma {:induction false} Rising(rows: seq<Int64>, n: nat)
    requires RowsOrdered(rows) && n <= |rows|
    ensures forall i, j :: 0 <= i < j < n ==> rows[i] < rows[j]
  {
    if n > 1 {
      Rising(rows, n - 1);
      assert rows[n - 1 - 1] < rows[n - 1];
    }
  }
}
