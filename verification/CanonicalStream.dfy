/**
 The byte streams under the source-group keys and the batch checksum. A digest is taken of the stream;
 what matters is that two different inputs never write the same stream.
 */
module CanonicalStream {
  import opened Common

  type Byte = b: int | 0 <= b < 256

  /** Go's int64. */
  type Int64 = v: int | -0x8000_0000_0000_0000 <= v < 0x8000_0000_0000_0000

  /** A byte string that fits a Go slice. */
  predicate Fits(s: seq<Byte>) { |s| < 0x8000_0000_0000_0000 }

  // ---------------------------------------------------------------- fixed-width numbers

  function Pow256(k: nat): nat {
    if k == 0 then 1 else 256 * Pow256(k - 1)
  }

  /** The `k` low bytes of `n`, most significant first. */
  function BigEndian(n: nat, k: nat): (bytes: seq<Byte>)
    ensures |bytes| == k
  {
    if k == 0 then [] else BigEndian(n / 256, k - 1) + [n % 256]
  }

  function Number(bytes: seq<Byte>): nat {
    if bytes == [] then 0 else Number(bytes[..|bytes| - 1]) * 256 + bytes[|bytes| - 1]
  }

  lemma {:induction false} NumberRoundTrip(n: nat, k: nat)
    requires n < Pow256(k)
    ensures Number(BigEndian(n, k)) == n
  {
    if k > 0 {
      NumberRoundTrip(n / 256, k - 1);
      assert BigEndian(n, k)[..k - 1] == BigEndian(n / 256, k - 1);
    }
  }

  lemma Pow8()
    ensures Pow256(8) == 0x1_0000_0000_0000_0000
  {
    assert Pow256(4) == 0x1_0000_0000;
    assert Pow256(8) == 256 * (256 * (256 * (256 * Pow256(4))));
  }

  // ---------------------------------------------------------------- chunks

  /** What one call of the builder writes. */
  datatype Chunk = Num(value: Int64) | Blob(bytes: seq<Byte>)

  /** A number is two's complement in eight bytes; a byte string is its length in eight bytes, then its bytes. */
  function Encoded(c: Chunk): seq<Byte> {
    match c
    case Num(v) => BigEndian(if v < 0 then v + 0x1_0000_0000_0000_0000 else v, 8)
    case Blob(bytes) => BigEndian(|bytes|, 8) + bytes
  }

  function Flat(chunks: seq<Chunk>): seq<Byte> {
    if chunks == [] then [] else Encoded(chunks[0]) + Flat(chunks[1..])
  }

  predicate Writable(c: Chunk) { c.Blob? ==> Fits(c.bytes) }

  lemma {:induction false} FlatAppend(x: seq<Chunk>, y: seq<Chunk>)
    ensures Flat(x + y) == Flat(x) + Flat(y)
  {
    if x == [] {
      assert x + y == y;
    } else {
      assert (x + y)[1..] == x[1..] + y;
      FlatAppend(x[1..], y);
      Associative(Encoded(x[0]), Flat(x[1..]), Flat(y));
    }
  }

  lemma FlatOne(c: Chunk)
    ensures Flat([c]) == Encoded(c)
  {
    assert [c][1..] == [];
  }

  /** Eight bytes at the front of a stream determine the number and the rest. */
  lemma FixedFirst(n: nat, m: nat, r: seq<Byte>, s: seq<Byte>)
    requires n < 0x1_0000_0000_0000_0000 && m < 0x1_0000_0000_0000_0000
    requires BigEndian(n, 8) + r == BigEndian(m, 8) + s
    ensures n == m && r == s
  {
    var x, y := BigEndian(n, 8), BigEndian(m, 8);
    Pow8();
    assert x == (x + r)[..8] == (y + s)[..8] == y;
    assert r == (x + r)[8..] == (y + s)[8..] == s;
    NumberRoundTrip(n, 8);
    NumberRoundTrip(m, 8);
  }

  /** A chunk of a known kind at the front of a stream can be told from the rest. */
  lemma ChunkFirst(c: Chunk, d: Chunk, r: seq<Byte>, s: seq<Byte>)
    requires Writable(c) && Writable(d) && c.Num? == d.Num? && Encoded(c) + r == Encoded(d) + s
    ensures c == d && r == s
  {
    if c.Num? {
      FixedFirst(if c.value < 0 then c.value + 0x1_0000_0000_0000_0000 else c.value,
                 if d.value < 0 then d.value + 0x1_0000_0000_0000_0000 else d.value, r, s);
    } else {
      var x, y := c.bytes, d.bytes;
      assert Encoded(c) + r == BigEndian(|x|, 8) + (x + r);
      assert Encoded(d) + s == BigEndian(|y|, 8) + (y + s);
      FixedFirst(|x|, |y|, x + r, y + s);
      assert x == (x + r)[..|x|] && y == (y + s)[..|x|];
      assert r == (x + r)[|x|..] && s == (y + s)[|x|..];
    }
  }

  lemma FlatSplit(x: seq<Chunk>, r: seq<Byte>)
    requires x != []
    ensures Flat(x) + r == Encoded(x[0]) + (Flat(x[1..]) + r)
  {
    Associative(Encoded(x[0]), Flat(x[1..]), r);
  }

  predicate SameKinds(x: seq<Chunk>, y: seq<Chunk>) {
    |x| == |y| && forall i :: 0 <= i < |x| ==> Writable(x[i]) && Writable(y[i]) && x[i].Num? == y[i].Num?
  }

  /** So can any number of chunks, as long as their kinds are known. */
  lemma {:induction false} ChunksFirst(x: seq<Chunk>, y: seq<Chunk>, r: seq<Byte>, s: seq<Byte>)
    requires SameKinds(x, y) && Flat(x) + r == Flat(y) + s
    ensures x == y && r == s
  {
    if x == [] {
      assert Flat(x) + r == r && Flat(y) + s == s;
    } else {
      FlatSplit(x, r);
      FlatSplit(y, s);
      ChunkFirst(x[0], y[0], Flat(x[1..]) + r, Flat(y[1..]) + s);
      assert SameKinds(x[1..], y[1..]);
      ChunksFirst(x[1..], y[1..], r, s);
      assert x == [x[0]] + x[1..] && y == [y[0]] + y[1..];
    }
  }

  /** The two chunk lists cannot be confused, whatever follows them. */
  ghost predicate Delimits(b: seq<Chunk>, c: seq<Chunk>) {
    forall r, s :: Flat(b) + r == Flat(c) + s ==> b == c && r == s
  }

  function Concat(blocks: seq<seq<Chunk>>): seq<Chunk> {
    if blocks == [] then [] else Concat(blocks[..|blocks| - 1]) + blocks[|blocks| - 1]
  }

  lemma LastBlock(b: seq<seq<Chunk>>, r: seq<Byte>)
    requires b != []
    ensures Flat(Concat(b)) + r == Flat(Concat(b[..|b| - 1])) + (Flat(b[|b| - 1]) + r)
  {
    FlatAppend(Concat(b[..|b| - 1]), b[|b| - 1]);
    Associative(Flat(Concat(b[..|b| - 1])), Flat(b[|b| - 1]), r);
  }

  /** As many blocks on both sides, each told from its counterpart: the streams determine the blocks. */
  lemma {:induction false} BlocksFirst(b: seq<seq<Chunk>>, c: seq<seq<Chunk>>, r: seq<Byte>, s: seq<Byte>)
    requires |b| == |c| && forall i :: 0 <= i < |b| ==> Delimits(b[i], c[i])
    requires Flat(Concat(b)) + r == Flat(Concat(c)) + s
    ensures b == c && r == s
  {
    if b == [] {
      assert Flat(Concat(b)) + r == r && Flat(Concat(c)) + s == s;
    } else {
      var n := |b| - 1;
      LastBlock(b, r);
      LastBlock(c, s);
      BlocksFirst(b[..n], c[..n], Flat(b[n]) + r, Flat(c[n]) + s);
      assert Delimits(b[n], c[n]);
      assert b == b[..n] + [b[n]] && c == c[..n] + [c[n]];
    }
  }

  // ---------------------------------------------------------------- source groups

  /** "cardimport-source-group:v1", "group", "singleton" and "cardimport-batch-semantic:v1" in UTF-8. */
  const GroupDomain: seq<Byte> := [99, 97, 114, 100, 105, 109, 112, 111, 114, 116, 45, 115, 111, 117, 114, 99, 101, 45,
                                   103, 114, 111, 117, 112, 58, 118, 49]
  const GroupTag: seq<Byte> := [103, 114, 111, 117, 112]
  const SingletonTag: seq<Byte> := [115, 105, 110, 103, 108, 101, 116, 111, 110]
  const BatchDomain: seq<Byte> := [99, 97, 114, 100, 105, 109, 112, 111, 114, 116, 45, 98, 97, 116, 99, 104, 45,
                                   115, 101, 109, 97, 110, 116, 105, 99, 58, 118, 49]

  /** What a card is keyed by within its file: its group, or itself. */
  datatype Origin = Origin(grouped: bool, value: seq<Byte>)

  function OriginOf(group: seq<Byte>, vendor: seq<Byte>): Origin {
    if group != [] then Origin(true, group) else Origin(false, vendor)
  }

  function GroupChunks(file: Int64, o: Origin): seq<Chunk> {
    [Blob(GroupDomain), Num(file), Blob(if o.grouped then GroupTag else SingletonTag), Blob(o.value)]
  }

  /** Two source groups with the same stream are the same file and the same group or the same single card. */
  lemma GroupStreamsDiffer(file: Int64, o: Origin, other: Int64, p: Origin)
    requires Fits(o.value) && Fits(p.value) && Flat(GroupChunks(file, o)) == Flat(GroupChunks(other, p))
    ensures file == other && o == p
  {
    var x, y := GroupChunks(file, o), GroupChunks(other, p);
    ChunksFirst(x, y, [], []);
    assert x[1] == y[1] && x[2] == y[2] && x[3] == y[3];
    assert |GroupTag| != |SingletonTag|;
  }

  // ---------------------------------------------------------------- the batch checksum

  /** The number of bytes of the white-space character, in UTF-8, that the text begins with; 0 when it begins with none. */
  function SpaceLength(text: seq<Byte>): (n: nat)
    ensures n <= |text|
  {
    if |text| >= 1 && (9 <= text[0] <= 13 || text[0] == 32) then 1
    else if |text| >= 2 && text[0] == 0xC2 && (text[1] == 0x85 || text[1] == 0xA0) then 2
    else if |text| >= 3 && ThreeByteSpace(text[0], text[1], text[2]) then 3
    else 0
  }

  predicate ThreeByteSpace(a: Byte, b: Byte, c: Byte) {
    || (a == 0xE1 && b == 0x9A && c == 0x80)
    || (a == 0xE2 && b == 0x80 && (0x80 <= c <= 0x8A || c == 0xA8 || c == 0xA9 || c == 0xAF))
    || (a == 0xE2 && b == 0x81 && c == 0x9F)
    || (a == 0xE3 && b == 0x80 && c == 0x80)
  }

  /** Nothing but white space. */
  predicate Blank(text: seq<Byte>) {
    text == [] || (SpaceLength(text) > 0 && Blank(text[SpaceLength(text)..]))
  }

  /** A frozen item; `json` is its payload as encoded, `key` its source-group key, kept as the stream it digests. */
  datatype Item = Item(position: Int64, file: Int64, rows: seq<Int64>, key: seq<Byte>, vendor: seq<Byte>,
                       json: seq<Byte>, payloadVendor: seq<Byte>, payloadGroup: seq<Byte>, payloadRows: seq<Int64>)

  predicate ItemFits(item: Item) {
    |item.rows| < 0x8000_0000_0000_0000 && Fits(item.key) && Fits(item.vendor) && Fits(item.json)
  }

  function RowChunks(rows: seq<Int64>): (chunks: seq<Chunk>)
    ensures |chunks| == |rows| && forall i :: 0 <= i < |rows| ==> chunks[i] == Num(rows[i])
  {
    seq(|rows|, i requires 0 <= i < |rows| => Num(rows[i]))
  }

  function LeadChunks(item: Item): seq<Chunk>
    requires ItemFits(item)
  {
    [Num(item.position), Num(item.file), Num(|item.rows|)]
  }

  function RestChunks(item: Item): seq<Chunk> {
    RowChunks(item.rows) + [Blob(item.key), Blob(item.vendor), Blob(item.json)]
  }

  function ItemChunks(item: Item): seq<Chunk>
    requires ItemFits(item)
  {
    LeadChunks(item) + RestChunks(item)
  }

  function Blocks(items: seq<Item>): (blocks: seq<seq<Chunk>>)
    requires forall i :: 0 <= i < |items| ==> ItemFits(items[i])
    ensures |blocks| == |items| && forall i :: 0 <= i < |items| ==> blocks[i] == ItemChunks(items[i])
  {
    seq(|items|, i requires 0 <= i < |items| => ItemChunks(items[i]))
  }

  function HeaderChunks(purpose: seq<Byte>, count: Int64, groups: Int64): seq<Chunk> {
    [Blob(BatchDomain), Blob(purpose), Num(1), Num(1), Num(count), Num(groups)]
  }

  /** The stream under the checksum of a batch. */
  function BatchStream(purpose: seq<Byte>, groups: Int64, items: seq<Item>): seq<Byte>
    requires |items| < 0x8000_0000_0000_0000 && forall i :: 0 <= i < |items| ==> ItemFits(items[i])
  {
    Flat(HeaderChunks(purpose, |items|, groups) + Concat(Blocks(items)))
  }

  /** The rows of an item are positive and strictly increasing. */
  predicate RowsOrdered(rows: seq<Int64>) {
    && (forall i :: 0 <= i < |rows| ==> rows[i] > 0)
    && (forall i :: 0 < i < |rows| ==> rows[i - 1] < rows[i])
  }

  /** What an item must be to go into a batch at position `p`. */
  ghost predicate ItemOk(item: Item, p: int) {
    && item.position == p > 0 && item.file > 0 && item.rows != [] && !Blank(item.vendor)
    && item.payloadVendor == item.vendor && item.payloadRows == item.rows
    && item.key == Flat(GroupChunks(item.file, OriginOf(item.payloadGroup, item.vendor)))
    && RowsOrdered(item.rows)
  }

  // ---------------------------------------------------------------- reading a batch stream back is unambiguous

  /** The part of an item that the stream carries. */
  predicate SameItem(x: Item, y: Item) {
    x.position == y.position && x.file == y.file && x.rows == y.rows && x.key == y.key && x.vendor == y.vendor && x.json == y.json
  }

  lemma ItemFirst(x: Item, y: Item, r: seq<Byte>, s: seq<Byte>)
    requires ItemFits(x) && ItemFits(y) && Flat(ItemChunks(x)) + r == Flat(ItemChunks(y)) + s
    ensures ItemChunks(x) == ItemChunks(y) && SameItem(x, y) && r == s
  {
    var a, b := LeadChunks(x), LeadChunks(y);
    var c, d := RestChunks(x), RestChunks(y);
    FlatAppend(a, c);
    FlatAppend(b, d);
    Associative(Flat(a), Flat(c), r);
    Associative(Flat(b), Flat(d), s);
    ChunksFirst(a, b, Flat(c) + r, Flat(d) + s);
    assert a[0] == b[0] && a[1] == b[1] && a[2] == b[2];
    ChunksFirst(c, d, r, s);
    RestDetermines(x, y);
  }

  lemma ItemDelimits(x: Item, y: Item)
    requires ItemFits(x) && ItemFits(y)
    ensures Delimits(ItemChunks(x), ItemChunks(y))
    ensures ItemChunks(x) == ItemChunks(y) ==> SameItem(x, y)
  {
    forall r, s | Flat(ItemChunks(x)) + r == Flat(ItemChunks(y)) + s ensures ItemChunks(x) == ItemChunks(y) && r == s {
      ItemFirst(x, y, r, s);
    }
    if ItemChunks(x) == ItemChunks(y) {
      ItemFirst(x, y, [], []);
    }
  }

  lemma RestDetermines(x: Item, y: Item)
    requires |x.rows| == |y.rows| && RestChunks(x) == RestChunks(y)
    ensures x.rows == y.rows && x.key == y.key && x.vendor == y.vendor && x.json == y.json
  {
    var c, d, n := RestChunks(x), RestChunks(y), |x.rows|;
    assert c[n] == d[n] && c[n + 1] == d[n + 1] && c[n + 2] == d[n + 2];
    forall i | 0 <= i < n ensures x.rows[i] == y.rows[i] {
      assert c[i] == d[i];
    }
  }

  lemma {:induction false} ItemsFirst(x: seq<Item>, y: seq<Item>)
    requires |x| == |y| && (forall i :: 0 <= i < |x| ==> ItemFits(x[i])) && (forall i :: 0 <= i < |y| ==> ItemFits(y[i]))
    requires Flat(Concat(Blocks(x))) == Flat(Concat(Blocks(y)))
    ensures forall i :: 0 <= i < |x| ==> SameItem(x[i], y[i])
  {
    var b, c := Blocks(x), Blocks(y);
    forall i | 0 <= i < |x| ensures Delimits(b[i], c[i]) && (b[i] == c[i] ==> SameItem(x[i], y[i])) {
      ItemDelimits(x[i], y[i]);
    }
    assert Flat(Concat(b)) + [] == Flat(Concat(c)) + [];
    BlocksFirst(b, c, [], []);
  }

  /** Two batches with the same stream agree on purpose, group count and every item in order. */
  lemma BatchStreamsDiffer(p: seq<Byte>, g: Int64, x: seq<Item>, q: seq<Byte>, h: Int64, y: seq<Item>)
    requires Fits(p) && Fits(q) && |x| < 0x8000_0000_0000_0000 && |y| < 0x8000_0000_0000_0000
    requires (forall i :: 0 <= i < |x| ==> ItemFits(x[i])) && (forall i :: 0 <= i < |y| ==> ItemFits(y[i]))
    requires BatchStream(p, g, x) == BatchStream(q, h, y)
    ensures p == q && g == h && |x| == |y| && forall i :: 0 <= i < |x| ==> SameItem(x[i], y[i])
  {
    HeaderFirst(p, q, |x|, |y|, g, h, Concat(Blocks(x)), Concat(Blocks(y)));
    ItemsFirst(x, y);
  }

  lemma HeaderFirst(p: seq<Byte>, q: seq<Byte>, c: Int64, d: Int64, g: Int64, h: Int64, x: seq<Chunk>, y: seq<Chunk>)
    requires Fits(p) && Fits(q) && Flat(HeaderChunks(p, c, g) + x) == Flat(HeaderChunks(q, d, h) + y)
    ensures p == q && c == d && g == h && Flat(x) == Flat(y)
  {
    var a, b := HeaderChunks(p, c, g), HeaderChunks(q, d, h);
    FlatAppend(a, x);
    FlatAppend(b, y);
    ChunksFirst(a, b, Flat(x), Flat(y));
    assert a[1] == b[1] && a[4] == b[4] && a[5] == b[5];
  }
}
