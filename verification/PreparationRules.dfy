/** Which catalogue entry a source value is filed under, what an upload has to be, and when a group can be prepared. */
module PreparationRules {
  import opened Common
  import opened Preparation

  // ---------------------------------------------------------------- texts

  /** The parts joined by semicolons. */
  function WithSemicolons(parts: seq<string>): string
    requires parts != []
  {
    if |parts| == 1 then parts[0] else WithSemicolons(parts[..|parts| - 1]) + [';'] + parts[|parts| - 1]
  }

  /** Splitting cuts a text at every semicolon and loses nothing else. */
  lemma {:induction false} SplitMeans(s: string)
    ensures WithSemicolons(Split(s)) == s && forall i :: 0 <= i < |Split(s)| ==> ';' !in Split(s)[i]
  {
    if s == [] {
    } else {
      var n := |s| - 1;
      SplitMeans(s[..n]);
      var front := Split(s[..n]);
      assert s == s[..n] + [s[n]];
      if s[n] == ';' {
        assert (front + [[]])[..|front|] == front;
        assert WithSemicolons(front + [[]]) == WithSemicolons(front) + [';'] + [];
      } else {
        LastExtends(front, s[n]);
      }
    }
  }

  lemma LastExtends(parts: seq<string>, c: char)
    requires parts != []
    ensures WithSemicolons(parts[|parts| - 1 := parts[|parts| - 1] + [c]]) == WithSemicolons(parts) + [c]
  {
    var n := |parts| - 1;
    var more := parts[n := parts[n] + [c]];
    assert more[..n] == parts[..n];
    if n > 0 {
      assert WithSemicolons(parts[..n]) + [';'] + (parts[n] + [c]) == (WithSemicolons(parts[..n]) + [';'] + parts[n]) + [c];
    }
  }

  /** A value is blank when it is missing, a text of white space, or an empty list; a number never is. */
  lemma BlankValueIff(raw: Raw)
    ensures IsBlank(raw) <==>
            || raw == Missing || raw == Texts([]) || raw == Mixed([])
            || (raw.Text? && Trim(raw.text) == [])
    ensures NumberOf(raw).Some? <==> raw.Number? || (raw.Text? && raw.number.Some?)
    ensures NumberOf(raw).Some? ==> NumberOf(raw).value == if raw.Number? then raw.value else raw.number.value
  {
  }

  /** A characteristic is bound to a directory when its name has one that is not empty. */
  lemma DirectoryIff(directories: Directories, s: Spec)
    ensures HasDirectory(directories, s) <==> Key(s.name) in directories && |directories[Key(s.name)]| >= 1
  {
  }

  // ---------------------------------------------------------------- entries

  /** By a positive id, else by the key of the name, else by the first of its aliases that is known. */
  lemma ResolveMeans(schema: Schema, vocabulary: Vocabulary, id: int, name: string)
    ensures var r := Resolve(schema, vocabulary, id, name);
            && (id >= 1 && id in schema.byId ==> r == Some(schema.byId[id]))
            && (!(id >= 1 && id in schema.byId) && Key(name) in schema.byName ==> r == Some(schema.byName[Key(name)]))
            && (!(id >= 1 && id in schema.byId) && Key(name) !in schema.byName ==>
                  var names := if Key(name) in vocabulary.aliases then vocabulary.aliases[Key(name)] else [];
                  && (r.None? <==> forall i :: 0 <= i < |names| ==> names[i] !in schema.byName)
                  && (forall i :: 0 <= i < |names| && names[i] in schema.byName && (forall h :: 0 <= h < i ==> names[h] !in schema.byName) ==>
                        r == Some(schema.byName[names[i]])))
  {
    if Key(name) in vocabulary.aliases {
      FirstKnownMeans(schema, vocabulary.aliases[Key(name)]);
    }
  }

  lemma {:induction false} FirstKnownMeans(schema: Schema, names: seq<string>)
    ensures FirstKnown(schema, names).None? <==> forall i :: 0 <= i < |names| ==> names[i] !in schema.byName
    ensures forall i :: 0 <= i < |names| && names[i] in schema.byName && (forall h :: 0 <= h < i ==> names[h] !in schema.byName) ==>
              FirstKnown(schema, names) == Some(schema.byName[names[i]])
  {
    if names != [] && names[0] !in schema.byName {
      FirstKnownMeans(schema, names[1..]);
      forall i | 0 <= i < |names| && names[i] in schema.byName && (forall h :: 0 <= h < i ==> names[h] !in schema.byName)
        ensures FirstKnown(schema, names) == Some(schema.byName[names[i]])
      {
        assert names[1..][i - 1] == names[i];
        forall h | 0 <= h < i - 1 ensures names[1..][h] !in schema.byName { assert names[1..][h] == names[h + 1]; }
      }
      assert forall i :: 0 < i < |names| ==> names[i] == names[1..][i - 1];
    }
  }

  /** Raw value `i` is meant for entry `id`. */
  predicate MeantFor(schema: Schema, vocabulary: Vocabulary, raws: seq<RawCharacteristic>, i: nat, id: int) {
    i < |raws| && Resolve(schema, vocabulary, raws[i].id, raws[i].name).Some? && Resolve(schema, vocabulary, raws[i].id, raws[i].name).value.id == id
  }

  /** No value is blank and no two are meant for one entry. */
  ghost predicate Fileable(schema: Schema, vocabulary: Vocabulary, raws: seq<RawCharacteristic>) {
    && (forall i :: 0 <= i < |raws| ==> !IsBlank(raws[i].value))
    && forall i, j, id :: 0 <= i < j && MeantFor(schema, vocabulary, raws, i, id) ==> !MeantFor(schema, vocabulary, raws, j, id)
  }

  /** Each entry holds exactly the value that is meant for it; values for unknown entries are dropped. */
  lemma {:induction false} FiledMeans(schema: Schema, vocabulary: Vocabulary, raws: seq<RawCharacteristic>)
    ensures Filed(schema, vocabulary, raws).Some? <==> Fileable(schema, vocabulary, raws)
    ensures Filed(schema, vocabulary, raws).Some? ==>
              var filed := Filed(schema, vocabulary, raws).value;
              && (forall id :: id in filed ==> exists i: nat :: MeantFor(schema, vocabulary, raws, i, id))
              && (forall i: nat, id :: MeantFor(schema, vocabulary, raws, i, id) ==> id in filed && filed[id] == raws[i].value)
  {
    if raws != [] {
      var n := |raws| - 1;
      var front := raws[..n];
      FiledMeans(schema, vocabulary, front);
      forall i: nat, id | i < n ensures MeantFor(schema, vocabulary, front, i, id) <==> MeantFor(schema, vocabulary, raws, i, id) { }
      if Filed(schema, vocabulary, raws).Some? {
        FiledStep(schema, vocabulary, raws);
      }
      if Fileable(schema, vocabulary, raws) {
        FileableFront(schema, vocabulary, raws);
        var spec := Resolve(schema, vocabulary, raws[n].id, raws[n].name);
        if spec.Some? && spec.value.id in Filed(schema, vocabulary, front).value {
          var i: nat :| MeantFor(schema, vocabulary, front, i, spec.value.id);
          assert MeantFor(schema, vocabulary, raws, i, spec.value.id) && MeantFor(schema, vocabulary, raws, n, spec.value.id);
        }
      }
    }
  }

  lemma FileableFront(schema: Schema, vocabulary: Vocabulary, raws: seq<RawCharacteristic>)
    requires raws != [] && Fileable(schema, vocabulary, raws)
    ensures Fileable(schema, vocabulary, raws[..|raws| - 1])
  {
    var n := |raws| - 1;
    forall i, j, id | 0 <= i < j && MeantFor(schema, vocabulary, raws[..n], i, id) ensures !MeantFor(schema, vocabulary, raws[..n], j, id) {
      assert MeantFor(schema, vocabulary, raws, i, id);
      if MeantFor(schema, vocabulary, raws[..n], j, id) { assert MeantFor(schema, vocabulary, raws, j, id); }
    }
  }

  lemma FiledStep(schema: Schema, vocabulary: Vocabulary, raws: seq<RawCharacteristic>)
    requires raws != [] && Filed(schema, vocabulary, raws).Some?
    requires var front := raws[..|raws| - 1];
             && Fileable(schema, vocabulary, front) && Filed(schema, vocabulary, front).Some?
             && (forall id :: id in Filed(schema, vocabulary, front).value ==> exists i: nat :: MeantFor(schema, vocabulary, front, i, id))
             && (forall i: nat, id :: MeantFor(schema, vocabulary, front, i, id) ==>
                   id in Filed(schema, vocabulary, front).value && Filed(schema, vocabulary, front).value[id] == front[i].value)
    ensures Fileable(schema, vocabulary, raws)
    ensures var filed := Filed(schema, vocabulary, raws).value;
            && (forall id :: id in filed ==> exists i: nat :: MeantFor(schema, vocabulary, raws, i, id))
            && (forall i: nat, id :: MeantFor(schema, vocabulary, raws, i, id) ==> id in filed && filed[id] == raws[i].value)
  {
    var n := |raws| - 1;
    var front, filed := raws[..n], Filed(schema, vocabulary, raws).value;
    forall i: nat, id | i < n ensures MeantFor(schema, vocabulary, front, i, id) <==> MeantFor(schema, vocabulary, raws, i, id) { }
    forall i, j, id | 0 <= i < j && MeantFor(schema, vocabulary, raws, i, id) ensures !MeantFor(schema, vocabulary, raws, j, id) {
      assert MeantFor(schema, vocabulary, front, i, id) || i >= n;
    }
    forall id | id in filed ensures exists i: nat :: MeantFor(schema, vocabulary, raws, i, id) {
      if id in Filed(schema, vocabulary, front).value {
        var i: nat :| MeantFor(schema, vocabulary, front, i, id);
        assert MeantFor(schema, vocabulary, raws, i, id);
      } else {
        assert MeantFor(schema, vocabulary, raws, n, id);
      }
    }
    forall i: nat, id | MeantFor(schema, vocabulary, raws, i, id) ensures id in filed && filed[id] == raws[i].value {
      if i < n { assert MeantFor(schema, vocabulary, front, i, id); }
    }
  }

  /** The VAT rate is filed under its own entry, if the catalogue has one, and must not have been given before. */
  lemma VatIsFiled(item: Item, schema: Schema, vocabulary: Vocabulary)
    ensures var (filed, all) := (Filed(schema, vocabulary, item.characteristics), FiledWithVat(item, schema, vocabulary));
            var due := item.vat != [] && vocabulary.vatKey in schema.byName;
            && (all.Some? <==> filed.Some? && (due ==> schema.byName[vocabulary.vatKey].id !in filed.value))
            && (all.Some? && !due ==> all == filed)
            && (all.Some? && due ==> all.value == filed.value[schema.byName[vocabulary.vatKey].id := Text(item.vat, item.vatNumber)])
  {
  }

  predicate BothOf(specs: seq<Spec>, i: int, j: int, subject: int) {
    0 <= i < |specs| && 0 <= j < |specs| && specs[i].subject == subject && specs[j].subject == subject
  }

  /** One name for each id and one id for each name, every entry usable. */
  lemma ConsistentIff(specs: seq<Spec>, subject: int)
    ensures Consistent(specs, subject) <==>
            && (forall i :: 0 <= i < |specs| && specs[i].subject == subject ==>
                  specs[i].id >= 1 && Key(specs[i].name) != [] && specs[i].maxCount >= 0)
            && (forall i, j :: BothOf(specs, i, j, subject) && specs[i].id == specs[j].id ==> Key(specs[i].name) == Key(specs[j].name))
            && (forall i, j :: BothOf(specs, i, j, subject) && Key(specs[i].name) == Key(specs[j].name) ==> specs[i].id == specs[j].id)
  {
  }

  // ---------------------------------------------------------------- the upload

  /** A size without a price of its own takes the price of the item. */
  lemma SizePriced(size: Size, price: int)
    ensures var u := UploadSize(size, price);
            u.price == (if size.price >= 1 then size.price else price) && u.tech == size.tech && u.wb == size.wb && u.skus == size.skus
  {
  }

  /** The columns of a variant that an upload accepts. */
  ghost predicate UploadAccepts(v: Variant) {
    && Trim(v.vendor) != [] && |v.title| <= 60 && |v.description| <= 5000
    && v.dimensions.length > 0.0 && v.dimensions.width > 0.0 && v.dimensions.height > 0.0 && v.dimensions.weight > 0.0
    && |v.sizes| >= 1
    && (forall size :: size in v.sizes ==> size.price >= 1 && forall sku :: sku in size.skus ==> Trim(sku) != [])
    && (forall c :: c in v.characteristics ==> c.id >= 1)
    && (forall i, j :: 0 <= i < |v.characteristics| && 0 <= j < |v.characteristics| && v.characteristics[i].id == v.characteristics[j].id ==> i == j)
  }

  lemma VariantFitsMeans(v: Variant)
    ensures VariantFits(v) <==> UploadAccepts(v)
  {
    assert forall i :: 0 <= i < |v.sizes| ==> v.sizes[i] in v.sizes;
    assert forall i :: 0 <= i < |v.characteristics| ==> v.characteristics[i] in v.characteristics;
    forall i | 0 <= i < |v.sizes| ensures SizeOk(v.sizes[i]) <==> v.sizes[i].price >= 1 && forall sku :: sku in v.sizes[i].skus ==> Trim(sku) != [] {
      assert forall j :: 0 <= j < |v.sizes[i].skus| ==> v.sizes[i].skus[j] in v.sizes[i].skus;
    }
  }

  /** An upload has a subject, one to thirty acceptable variants, and no vendor code twice. */
  lemma UploadOkMeans(subject: int, variants: seq<Variant>)
    ensures UploadOk(subject, variants) <==>
            && subject >= 1 && 1 <= |variants| <= 30 && (forall v :: v in variants ==> UploadAccepts(v))
            && (forall i, j :: 0 <= i < |variants| && 0 <= j < |variants| && variants[i].vendor == variants[j].vendor ==> i == j)
  {
    forall v | v in variants ensures VariantFits(v) <==> UploadAccepts(v) { VariantFitsMeans(v); }
    assert forall i :: 0 <= i < |variants| ==> variants[i] in variants;
  }

  /** The limits are known, do not overflow, and leave room for the group; its items share a category. */
  lemma RoomMeans(items: seq<Item>, snapshot: Snapshot, vocabulary: Vocabulary)
    requires Preparable(items, snapshot, vocabulary)
    ensures snapshot.observedAt != 0 && snapshot.limits.free >= 0 && snapshot.limits.paid >= 0
    ensures snapshot.limits.free + snapshot.limits.paid < 0x8000_0000_0000_0000 && 1 <= |items| <= 30
    ensures |items| <= snapshot.limits.free + snapshot.limits.paid
    ensures forall i, j :: 0 <= i < |items| && 0 <= j < |items| ==> Key(items[i].category) == Key(items[j].category)
    ensures forall i, j :: 0 <= i < |items| && 0 <= j < |items| && items[i].vendor == items[j].vendor ==> i == j
    ensures forall item :: item in items ==> item.marking.Some? && item.adult == Some(false)
  {
    forall item | item in items ensures item.marking.Some? && item.adult == Some(false) {
      var i :| 0 <= i < |items| && items[i] == item;
      var e :| Resolves(snapshot.subjects, Key(items[0].category), e) && CatalogServes(items, snapshot, vocabulary, e.id);
      assert Buildable(items[i], Collected(snapshot.specs, e.id).value, vocabulary, snapshot.brands, snapshot.directories);
    }
  }
}
