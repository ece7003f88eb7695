/** Writing the canonical streams byte by byte. */
module CanonicalBuilder {
  import opened Common
  import opened CanonicalStream

  class Builder {
    var stream: seq<Byte>
    ghost var chunks: seq<Chunk>

    ghost predicate Valid()
      reads this
    {
      stream == Flat(chunks)
    }

    constructor (domain: seq<Byte>)
      ensures Valid() && chunks == [Blob(domain)]
    {
      stream, chunks := [], [];
      new;
      Bytes(domain);
    }

    method Bytes(value: seq<Byte>)
      requires Valid()
      modifies this
      ensures Valid() && chunks == old(chunks) + [Blob(value)]
    {
      FlatAppend(chunks, [Blob(value)]);
      FlatOne(Blob(value));
      stream := stream + BigEndian(|value|, 8);
      stream := stream + value;
      chunks := chunks + [Blob(value)];
    }

    method WriteInt64(value: Int64)
      requires Valid()
      modifies this
      ensures Valid() && chunks == old(chunks) + [Num(value)]
    {
      FlatAppend(chunks, [Num(value)]);
      FlatOne(Num(value));
      var encoded := BigEndian(if value < 0 then value + 0x1_0000_0000_0000_0000 else value, 8);
      stream := stream + encoded;
      chunks := chunks + [Num(value)];
    }

    method Bool(value: bool)
      requires Valid()
      modifies this
      ensures Valid() && chunks == old(chunks) + [Blob([if value then 1 else 0])]
    {
      if value {
        Bytes([1]);
        return;
      }
      Bytes([0]);
    }
  }

  method NewSourceGroupKey(file: Int64, group: seq<Byte>, vendor: seq<Byte>) returns (stream: seq<Byte>)
    ensures stream == Flat(GroupChunks(file, OriginOf(group, vendor)))
  {
    var builder := new Builder(GroupDomain);
    builder.WriteInt64(file);
    if group != [] {
      builder.Bytes(GroupTag);
      builder.Bytes(group);
    } else {
      builder.Bytes(SingletonTag);
      builder.Bytes(vendor);
    }
    assert builder.chunks == GroupChunks(file, OriginOf(group, vendor));
    stream := builder.stream;
  }

  method ValidateItem(item: Item) returns (ok: bool)
    ensures ok <==> ItemOk(item, item.position)
  {
    if item.position <= 0 || item.file <= 0 || item.rows == [] || Blank(item.vendor) ||
       item.payloadVendor != item.vendor || item.payloadRows != item.rows {
      return false;
    }
    var stream := NewSourceGroupKey(item.file, item.payloadGroup, item.vendor);
    if item.key != stream {
      return false;
    }
    var i := 0;
    while i < |item.rows|
      invariant 0 <= i <= |item.rows| && RowsOrdered(item.rows[..i])
    {
      if item.rows[i] <= 0 || (i > 0 && item.rows[i] <= item.rows[i - 1]) {
        return false;
      }
      assert item.rows[..i + 1] == item.rows[..i] + [item.rows[i]];
      i := i + 1;
    }
    assert item.rows[..i] == item.rows;
    ok := true;
  }

  method ValidateItems(items: seq<Item>) returns (ok: bool)
    ensures ok <==> forall i :: 0 <= i < |items| ==> ItemOk(items[i], i + 1)
  {
    var i := 0;
    while i < |items|
      invariant 0 <= i <= |items| && forall j :: 0 <= j < i ==> ItemOk(items[j], j + 1)
    {
      ok := ValidateItem(items[i]);
      if items[i].position != i + 1 || !ok {
        return false;
      }
      i := i + 1;
    }
    ok := true;
  }

  method BatchChecksum(purpose: seq<Byte>, groups: Int64, items: seq<Item>) returns (stream: Option<seq<Byte>>)
    requires |items| < 0x8000_0000_0000_0000 && forall i :: 0 <= i < |items| ==> ItemFits(items[i])
    ensures stream.Some? <==> forall i :: 0 <= i < |items| ==> ItemOk(items[i], i + 1)
    ensures stream.Some? ==> stream.value == BatchStream(purpose, groups, items)
  {
    var ok := ValidateItems(items);
    if !ok {
      return None;
    }
    var builder := WriteHeader(purpose, |items|, groups);
    WriteItems(builder, items);
    stream := Some(builder.stream);
  }

  method WriteItems(builder: Builder, items: seq<Item>)
    requires builder.Valid() && forall i :: 0 <= i < |items| ==> ItemFits(items[i])
    modifies builder
    ensures builder.Valid() && builder.chunks == old(builder.chunks) + Concat(Blocks(items))
  {
    ghost var header, blocks := builder.chunks, Blocks(items);
    var i := 0;
    while i < |items|
      invariant 0 <= i <= |items| && builder.Valid()
      invariant builder.chunks == header + Concat(blocks[..i])
    {
      WriteItem(builder, items[i]);
      assert blocks[..i + 1][..i] == blocks[..i];
      Associative(header, Concat(blocks[..i]), blocks[i]);
      i := i + 1;
    }
    assert blocks[..i] == blocks;
  }

  method WriteHeader(purpose: seq<Byte>, count: Int64, groups: Int64) returns (builder: Builder)
    ensures fresh(builder) && builder.Valid() && builder.chunks == HeaderChunks(purpose, count, groups)
  {
    builder := new Builder(BatchDomain);
    builder.Bytes(purpose);
    builder.WriteInt64(1);
    builder.WriteInt64(1);
    builder.WriteInt64(count);
    builder.WriteInt64(groups);
  }

  method WriteItem(builder: Builder, item: Item)
    requires builder.Valid() && ItemFits(item)
    modifies builder
    ensures builder.Valid() && builder.chunks == old(builder.chunks) + ItemChunks(item)
  {
    builder.WriteInt64(item.position);
    builder.WriteInt64(item.file);
    builder.WriteInt64(|item.rows|);
    WriteRows(builder, item.rows);
    builder.Bytes(item.key);
    builder.Bytes(item.vendor);
    builder.Bytes(item.json);
  }

  method WriteRows(builder: Builder, rows: seq<Int64>)
    requires builder.Valid()
    modifies builder
    ensures builder.Valid() && builder.chunks == old(builder.chunks) + RowChunks(rows)
  {
    var i := 0;
    while i < |rows|
      invariant 0 <= i <= |rows| && builder.Valid()
      invariant builder.chunks == old(builder.chunks) + RowChunks(rows)[..i]
    {
      builder.WriteInt64(rows[i]);
      i := i + 1;
    }
  }
}
