/** Compiling source cards and a catalogue snapshot into an upload request. */
module Preparation {
  import opened Common

  /** Why a group is not prepared. */
  datatype Code =
    | CatalogContractError
    | SubjectNotFound
    | SubjectAmbiguous
    | CardLimitExceeded
    | BrandNotFound
    | CharacteristicInvalid
    | CharacteristicMissing
    | DirectoryValueInvalid
    | PayloadTooLarge
    | SourceGroupInvalid
    | EncodingFailed

  datatype Result<T> = Ok(value: T) | Refused(code: Code)

  // ---------------------------------------------------------------- comparison keys

  /** Lower case of the Latin and Cyrillic letters. */
  function Lower(c: char): char {
    var u := c as int;
    if 65 <= u <= 90 || 0x410 <= u <= 0x42F then (u + 32) as char
    else if u == 0x401 then 0x451 as char
    else c
  }

  function LowerAll(s: string): string {
    if s == [] then [] else [Lower(s[0])] + LowerAll(s[1..])
  }

  function Words(s: string): string
    decreases |s|
  {
    if s == [] then []
    else if IsSpace(s[0]) then
      TrimLeftShrinks(s);
      [' '] + Words(TrimLeft(s))
    else [s[0]] + Words(s[1..])
  }

  lemma {:induction false} TrimLeftShrinks(s: string)
    ensures |TrimLeft(s)| <= |s|
    ensures s != [] && IsSpace(s[0]) ==> |TrimLeft(s)| < |s|
  {
    if s != [] && IsSpace(s[0]) {
      TrimLeftShrinks(s[1..]);
    }
  }

  /** The text in lower case with single spaces between its words. */
  function Key(s: string): string { Words(LowerAll(Trim(s))) }

  ghost predicate KeysDistinct(values: seq<string>) {
    forall i, j :: 0 <= i < j < |values| ==> Key(values[i]) != Key(values[j])
  }

  // ---------------------------------------------------------------- text values

  function Trimmed(values: seq<string>): (trimmed: seq<string>)
    ensures |trimmed| == |values| && forall i :: 0 <= i < |values| ==> trimmed[i] == Trim(values[i])
  {
    seq(|values|, i requires 0 <= i < |values| => Trim(values[i]))
  }

  /** Some values, none blank, no two with the same key. */
  ghost predicate Proper(values: seq<string>) {
    && values != [] && KeysDistinct(values)
    && forall i :: 0 <= i < |values| ==> Key(values[i]) != []
  }

  function KeysOf(values: seq<string>): (keys: seq<string>)
    ensures |keys| == |values| && forall i :: 0 <= i < |values| ==> keys[i] == Key(values[i])
  {
    seq(|values|, i requires 0 <= i < |values| => Key(values[i]))
  }

  /** No key is blank and none repeats. */
  ghost predicate Usable(keys: seq<string>) { Distinct(keys) && [] !in keys }

  lemma ProperIff(values: seq<string>)
    ensures Proper(values) <==> values != [] && Usable(KeysOf(values))
  {
    var keys := KeysOf(values);
    if Usable(keys) {
      forall i | 0 <= i < |values| ensures Key(values[i]) != [] { assert keys[i] in keys; }
    }
  }

  lemma UsableStep(keys: seq<string>, n: nat, seen: set<string>)
    requires n < |keys| && Usable(keys[..n]) && seen == Elements(keys[..n])
    ensures keys[n] == [] || keys[n] in seen ==> !Usable(keys)
    ensures !(keys[n] == [] || keys[n] in seen) ==> Usable(keys[..n + 1]) && seen + {keys[n]} == Elements(keys[..n + 1])
  {
    var more := keys[..n + 1];
    assert more == keys[..n] + [keys[n]];
    if keys[n] == [] {
      assert keys[n] in keys;
    } else if keys[n] in seen {
      var i :| 0 <= i < n && keys[..n][i] == keys[n];
      assert keys[i] == keys[n];
    }
  }

  method NormalizeValues(values: seq<string>) returns (r: Option<seq<string>>)
    ensures r == if Proper(Trimmed(values)) then Some(Trimmed(values)) else None
  {
    ProperIff(Trimmed(values));
    var ok, result := TrimValues(values, Trimmed(values), KeysOf(Trimmed(values)));
    r := if !ok || result == [] then None else Some(result);
  }

  /** Trims the values in turn and stops at the first whose key is blank or was met before. */
  method TrimValues(values: seq<string>, ghost trimmed: seq<string>, ghost keys: seq<string>) returns (ok: bool, result: seq<string>)
    requires trimmed == Trimmed(values) && keys == KeysOf(trimmed)
    ensures ok <==> Usable(keys)
    ensures ok ==> result == trimmed
  {
    result := [];
    var seen: set<string> := {};
    while |result| < |values|
      invariant |result| <= |values| && result == trimmed[..|result|]
      invariant Usable(keys[..|result|]) && seen == Elements(keys[..|result|])
    {
      var value := Trim(values[|result|]);
      var key := Key(value);
      UsableStep(keys, |result|, seen);
      if key == [] || key in seen {
        return false, result;
      }
      seen := seen + {key};
      result := result + [value];
    }
    assert keys[..|result|] == keys;
    ok := true;
  }

  /** The parts of a text between semicolons. */
  function Split(s: string): (parts: seq<string>)
    ensures parts != []
  {
    if s == [] then [[]]
    else
      var n := |s| - 1;
      var front := Split(s[..n]);
      if s[n] == ';' then front + [[]] else front[|front| - 1 := front[|front| - 1] + [s[n]]]
  }

  /** A characteristic as the source gives it; a text carries the number it parses to, if any. */
  datatype Raw =
    | Missing
    | Text(text: string, number: Option<real>)
    | Texts(texts: seq<string>)
    | Mixed(parts: seq<Option<string>>)
    | Number(value: real)

  predicate IsBlank(raw: Raw) {
    match raw
    case Missing => true
    case Text(text, _) => Trim(text) == []
    case Texts(texts) => texts == []
    case Mixed(parts) => parts == []
    case Number(_) => false
  }

  ghost function Inputs(raw: Raw): Option<seq<string>> {
    match raw
    case Text(text, _) => Some(Split(text))
    case Texts(texts) => Some(texts)
    case Mixed(parts) => if forall i :: 0 <= i < |parts| ==> parts[i].Some? then Some(Unwrapped(parts)) else None
    case _ => None
  }

  function Unwrapped(parts: seq<Option<string>>): (texts: seq<string>)
    requires forall i :: 0 <= i < |parts| ==> parts[i].Some?
    ensures |texts| == |parts| && forall i :: 0 <= i < |parts| ==> texts[i] == parts[i].value
  {
    seq(|parts|, i requires 0 <= i < |parts| => parts[i].value)
  }

  method CharacteristicValues(raw: Raw) returns (r: Option<seq<string>>)
    ensures r.Some? <==> Inputs(raw).Some? && Proper(Trimmed(Inputs(raw).value))
    ensures r.Some? ==> r.value == Trimmed(Inputs(raw).value)
  {
    match raw {
      case Text(text, _) => r := NormalizeValues(Split(text));
      case Texts(texts) => r := NormalizeValues(texts);
      case Mixed(parts) =>
        var texts: seq<string> := [];
        while |texts| < |parts|
          invariant |texts| <= |parts|
          invariant forall i :: 0 <= i < |texts| ==> parts[i] == Some(texts[i])
        {
          if parts[|texts|].None? {
            return None;
          }
          texts := texts + [parts[|texts|].value];
        }
        assert texts == Unwrapped(parts);
        r := NormalizeValues(texts);
      case _ => r := None;
    }
  }

  // ---------------------------------------------------------------- directories

  predicate Matches(candidate: string, value: string) { Key(candidate) == Key(value) }

  ghost predicate Canonical(directory: seq<string>, value: string, canonical: string) {
    && canonical in directory && Matches(canonical, value)
    && forall i :: 0 <= i < |directory| && Matches(directory[i], value) ==> directory[i] == canonical
  }

  ghost predicate HasCanonical(directory: seq<string>, value: string) {
    exists c :: Canonical(directory, value, c)
  }

  ghost predicate Ambiguous(directory: seq<string>, value: string) {
    exists i, j :: 0 <= i < |directory| && 0 <= j < |directory| && Matches(directory[i], value) && Matches(directory[j], value) &&
                   directory[i] != directory[j]
  }

  /** The directory's own spelling of the value, when all its matching entries agree. */
  method ExactDirectoryValue(value: string, directory: seq<string>) returns (canonical: string, found: bool, ambiguous: bool)
    ensures ambiguous <==> Ambiguous(directory, value)
    ensures found ==> !ambiguous && Canonical(directory, value, canonical)
    ensures !found && !ambiguous ==> forall i :: 0 <= i < |directory| ==> !Matches(directory[i], value)
  {
    canonical, found := [], false;
    var i := 0;
    ghost var at := 0;
    while i < |directory|
      invariant 0 <= i <= |directory|
      invariant found ==> 0 <= at < i && directory[at] == canonical && Matches(canonical, value)
      invariant forall j :: 0 <= j < i && Matches(directory[j], value) ==> found && directory[j] == canonical
    {
      if Key(directory[i]) == Key(value) {
        if !found {
          canonical, found, at := directory[i], true, i;
        } else if canonical != directory[i] {
          assert Matches(directory[i], value) && Matches(directory[at], value);
          return [], false, true;
        }
      }
      i := i + 1;
    }
    ambiguous := false;
  }

  /** Replaces every value by its spelling in the directory. */
  method Canonicalize(values: seq<string>, directory: seq<string>) returns (r: Result<seq<string>>)
    ensures r.Ok? ==> |r.value| == |values| && forall i :: 0 <= i < |values| ==> Canonical(directory, values[i], r.value[i])
    ensures r.Ok? <==> forall i :: 0 <= i < |values| ==> HasCanonical(directory, values[i])
    ensures r.Refused? ==> r.code.CatalogContractError? || r.code.DirectoryValueInvalid?
  {
    var result: seq<string> := [];
    while |result| < |values|
      invariant |result| <= |values|
      invariant forall i :: 0 <= i < |result| ==> Canonical(directory, values[i], result[i])
    {
      var value := values[|result|];
      var canonical, found, ambiguous := ExactDirectoryValue(value, directory);
      if !found {
        forall c ensures !Canonical(directory, value, c) {
          NoCanonical(directory, value, c);
        }
        assert !HasCanonical(directory, values[|result|]);
        return Refused(if ambiguous then CatalogContractError else DirectoryValueInvalid);
      }
      result := result + [canonical];
    }
    assert forall i :: 0 <= i < |values| ==> Canonical(directory, values[i], result[i]);
    r := Ok(result);
  }

  lemma NoCanonical(directory: seq<string>, value: string, c: string)
    requires Ambiguous(directory, value) || forall i :: 0 <= i < |directory| ==> !Matches(directory[i], value)
    ensures !Canonical(directory, value, c)
  {
    if Ambiguous(directory, value) {
      var i, j :| 0 <= i < |directory| && 0 <= j < |directory| && Matches(directory[i], value) && Matches(directory[j], value) &&
                  directory[i] != directory[j];
      assert directory[i] != c || directory[j] != c;
    } else if c in directory {
      var i :| 0 <= i < |directory| && directory[i] == c;
      assert !Matches(directory[i], value);
    }
  }

  // ---------------------------------------------------------------- the schema of a subject

  /** `kind` 0 is deprecated, 1 a text list, 4 a number. */
  datatype Spec = Spec(subject: int, id: int, name: string, kind: int, maxCount: int, required: bool)

  datatype Schema = Schema(ordered: seq<Spec>, byId: map<int, Spec>, byName: map<string, Spec>)

  predicate SpecValid(s: Spec) { s.id > 0 && Key(s.name) != [] && s.maxCount >= 0 }

  /** Among the subject's entries every id has one name and every name one id. */
  ghost predicate Consistent(specs: seq<Spec>, subject: int) {
    && (forall i :: 0 <= i < |specs| && specs[i].subject == subject ==> SpecValid(specs[i]))
    && (forall i, j :: 0 <= i < |specs| && 0 <= j < |specs| && specs[i].subject == subject && specs[j].subject == subject ==>
          (specs[i].id == specs[j].id <==> Key(specs[i].name) == Key(specs[j].name)))
  }

  ghost predicate Indexed(schema: Schema, specs: seq<Spec>, subject: int, s: Spec) {
    && s in specs && s.subject == subject && SpecValid(s)
    && s.id in schema.byId && schema.byId[s.id] == s
    && Key(s.name) in schema.byName && schema.byName[Key(s.name)] == s
  }

  /** The two indexes and the list hold the same entries, all of the subject. */
  ghost predicate Indexes(schema: Schema, specs: seq<Spec>, subject: int) {
    && (forall s :: s in schema.ordered ==> Indexed(schema, specs, subject, s))
    && (forall id :: id in schema.byId ==> schema.byId[id] in schema.ordered && schema.byId[id].id == id)
    && (forall k :: k in schema.byName ==> schema.byName[k] in schema.ordered && Key(schema.byName[k].name) == k)
  }

  ghost predicate Increasing(specs: seq<Spec>) {
    forall i, j :: 0 <= i < j < |specs| ==> specs[i].id < specs[j].id
  }

  /** Every entry of the subject is represented. */
  ghost predicate Represents(schema: Schema, specs: seq<Spec>, subject: int) {
    forall i :: 0 <= i < |specs| && specs[i].subject == subject ==>
      specs[i].id in schema.byId && Key(schema.byId[specs[i].id].name) == Key(specs[i].name)
  }

  ghost predicate SchemaOf(schema: Schema, specs: seq<Spec>, subject: int) {
    Indexes(schema, specs, subject) && Represents(schema, specs, subject) && Increasing(schema.ordered)
  }

  datatype Verdict = Skip | Take | Contract

  /** What to do with the next entry of the catalogue. */
  function Judge(schema: Schema, s: Spec, subject: int): Verdict {
    if s.subject != subject then Skip
    else if !SpecValid(s) then Contract
    else if s.id in schema.byId then (if Key(schema.byId[s.id].name) == Key(s.name) then Skip else Contract)
    else if Key(s.name) in schema.byName then (if schema.byName[Key(s.name)].id == s.id then Skip else Contract)
    else Take
  }

  function Taken(schema: Schema, s: Spec): Schema {
    Schema(schema.ordered + [s], schema.byId[s.id := s], schema.byName[Key(s.name) := s])
  }

  /** The schema after the next entry; None when the entry breaks the contract. */
  function AfterEntry(schema: Schema, s: Spec, subject: int): Option<Schema> {
    match Judge(schema, s, subject)
    case Skip => Some(schema)
    case Take => Some(Taken(schema, s))
    case Contract => None
  }

  /** The schema collected from the entries in turn; None once one of them breaks the contract. */
  function Collected(specs: seq<Spec>, subject: int): Option<Schema> {
    if specs == [] then Some(Schema([], map[], map[]))
    else
      var n := |specs| - 1;
      var front := Collected(specs[..n], subject);
      if front.None? then None else AfterEntry(front.value, specs[n], subject)
  }

  lemma TakenIndexes(schema: Schema, specs: seq<Spec>, n: nat, subject: int)
    requires n < |specs| && Indexes(schema, specs[..n], subject) && Represents(schema, specs[..n], subject)
    requires Judge(schema, specs[n], subject).Take?
    ensures Indexes(Taken(schema, specs[n]), specs[..n + 1], subject) && Represents(Taken(schema, specs[n]), specs[..n + 1], subject)
  {
    var next, more := Taken(schema, specs[n]), specs[..n + 1];
    assert more == specs[..n] + [specs[n]];
    forall s | s in next.ordered ensures Indexed(next, more, subject, s) {
      if s in schema.ordered { assert Indexed(schema, specs[..n], subject, s); }
    }
    forall id | id in next.byId ensures next.byId[id] in next.ordered && next.byId[id].id == id {
      if id != specs[n].id { assert schema.byId[id] in schema.ordered; }
    }
    forall k | k in next.byName ensures next.byName[k] in next.ordered && Key(next.byName[k].name) == k {
      if k != Key(specs[n].name) { assert schema.byName[k] in schema.ordered; }
    }
  }

  ghost predicate IdsDistinct(specs: seq<Spec>) {
    forall j, k :: 0 <= j < k < |specs| ==> specs[j].id != specs[k].id
  }

  lemma TakenDistinct(schema: Schema, specs: seq<Spec>, subject: int, s: Spec)
    requires Indexes(schema, specs, subject) && IdsDistinct(schema.ordered) && s.id !in schema.byId
    ensures IdsDistinct(schema.ordered + [s])
  {
    forall j | 0 <= j < |schema.ordered| ensures schema.ordered[j].id != s.id {
      assert Indexed(schema, specs, subject, schema.ordered[j]);
    }
  }

  /** A skipped entry is either foreign or already represented. */
  lemma SkippedRepresents(schema: Schema, specs: seq<Spec>, n: nat, subject: int)
    requires n < |specs| && Indexes(schema, specs[..n], subject) && Represents(schema, specs[..n], subject)
    requires Judge(schema, specs[n], subject).Skip?
    ensures Indexes(schema, specs[..n + 1], subject) && Represents(schema, specs[..n + 1], subject)
  {
    assert specs[..n + 1] == specs[..n] + [specs[n]];
    forall s | s in schema.ordered ensures Indexed(schema, specs[..n + 1], subject, s) {
      assert Indexed(schema, specs[..n], subject, s);
    }
    forall k | k in schema.byName ensures schema.byName[k].id in schema.byId {
      assert Indexed(schema, specs[..n], subject, schema.byName[k]);
    }
  }

  /** A contract error is an inconsistency of the catalogue. */
  lemma ContractMeansInconsistent(schema: Schema, specs: seq<Spec>, n: nat, subject: int)
    requires n < |specs| && Indexes(schema, specs[..n], subject) && Judge(schema, specs[n], subject).Contract?
    ensures !Consistent(specs, subject)
  {
    var s := specs[n];
    if SpecValid(s) {
      var other := if s.id in schema.byId then schema.byId[s.id] else schema.byName[Key(s.name)];
      assert other in schema.ordered && Indexed(schema, specs[..n], subject, other);
      var i :| 0 <= i < n && specs[..n][i] == other;
      assert specs[i] == other;
    }
  }

  /** A schema that represents every entry witnesses that the catalogue is consistent. */
  lemma SchemaMeansConsistent(schema: Schema, specs: seq<Spec>, subject: int)
    requires Indexes(schema, specs, subject) && Represents(schema, specs, subject)
    requires forall i :: 0 <= i < |specs| && specs[i].subject == subject ==> SpecValid(specs[i])
    ensures Consistent(specs, subject)
  {
    forall i, j | 0 <= i < |specs| && 0 <= j < |specs| && specs[i].subject == subject && specs[j].subject == subject
      ensures specs[i].id == specs[j].id <==> Key(specs[i].name) == Key(specs[j].name)
    {
      var a, b := schema.byId[specs[i].id], schema.byId[specs[j].id];
      assert a in schema.ordered && b in schema.ordered;
      assert Indexed(schema, specs, subject, a) && Indexed(schema, specs, subject, b);
    }
  }

  /** The same schema up to the order of its list. */
  ghost predicate SameEntries(x: Schema, y: Schema) {
    x.byId == y.byId && x.byName == y.byName && forall s :: s in x.ordered <==> s in y.ordered
  }

  /** What the first `n` entries have made of the schema. */
  ghost predicate Building(schema: Schema, specs: seq<Spec>, n: nat, subject: int) {
    && n <= |specs| && Indexes(schema, specs[..n], subject) && Represents(schema, specs[..n], subject)
    && (forall j :: 0 <= j < n && specs[j].subject == subject ==> SpecValid(specs[j]))
    && IdsDistinct(schema.ordered) && Collected(specs[..n], subject) == Some(schema)
  }

  lemma CollectedStep(specs: seq<Spec>, n: nat, subject: int, schema: Schema)
    requires n < |specs| && Collected(specs[..n], subject) == Some(schema)
    ensures Collected(specs[..n + 1], subject) == AfterEntry(schema, specs[n], subject)
  {
    assert specs[..n + 1][..n] == specs[..n];
  }

  lemma SkipBuilds(schema: Schema, specs: seq<Spec>, n: nat, subject: int)
    requires n < |specs| && Building(schema, specs, n, subject) && Judge(schema, specs[n], subject).Skip?
    ensures Building(schema, specs, n + 1, subject)
  {
    CollectedStep(specs, n, subject, schema);
    SkippedRepresents(schema, specs, n, subject);
  }

  lemma TakeBuilds(schema: Schema, specs: seq<Spec>, n: nat, subject: int)
    requires n < |specs| && Building(schema, specs, n, subject) && Judge(schema, specs[n], subject).Take?
    ensures Building(Taken(schema, specs[n]), specs, n + 1, subject)
  {
    CollectedStep(specs, n, subject, schema);
    TakenIndexes(schema, specs, n, subject);
    TakenDistinct(schema, specs[..n], subject, specs[n]);
  }

  method BuildSchema(subject: int, specs: seq<Spec>) returns (r: Result<Schema>)
    ensures r.Ok? <==> Consistent(specs, subject)
    ensures r.Ok? ==> SchemaOf(r.value, specs, subject)
    ensures r.Ok? ==> Collected(specs, subject).Some? && SameEntries(r.value, Collected(specs, subject).value)
    ensures r.Refused? ==> r.code.CatalogContractError?
  {
    var schema := CollectSchema(subject, specs);
    if schema.None? {
      return Refused(CatalogContractError);
    }
    var ordered := SortSpecs(schema.value.ordered);
    BuiltSchema(schema.value, ordered, specs, subject);
    r := Ok(schema.value.(ordered := ordered));
  }

  lemma EntryBuilds(schema: Schema, specs: seq<Spec>, n: nat, subject: int)
    requires n < |specs| && Building(schema, specs, n, subject)
    ensures var next := AfterEntry(schema, specs[n], subject);
            if next.Some? then Building(next.value, specs, n + 1, subject) else !Consistent(specs, subject)
  {
    match Judge(schema, specs[n], subject)
    case Skip => SkipBuilds(schema, specs, n, subject);
    case Take => TakeBuilds(schema, specs, n, subject);
    case Contract => ContractMeansInconsistent(schema, specs, n, subject);
  }

  lemma NothingBuilt(specs: seq<Spec>, subject: int)
    ensures Building(Schema([], map[], map[]), specs, 0, subject)
  {
    assert specs[..0] == [];
  }

  /** Takes the subject's entries in turn until one of them breaks the contract. */
  method CollectSchema(subject: int, specs: seq<Spec>) returns (r: Option<Schema>)
    ensures r.Some? ==> Building(r.value, specs, |specs|, subject)
    ensures r.None? ==> !Consistent(specs, subject)
  {
    NothingBuilt(specs, subject);
    r := Some(Schema([], map[], map[]));
    var i := 0;
    while i < |specs|
      invariant 0 <= i <= |specs| && r.Some? && Building(r.value, specs, i, subject)
    {
      EntryBuilds(r.value, specs, i, subject);
      r := AfterEntry(r.value, specs[i], subject);
      if r.None? {
        return;
      }
      i := i + 1;
    }
  }

  lemma BuiltSchema(schema: Schema, ordered: seq<Spec>, specs: seq<Spec>, subject: int)
    requires Building(schema, specs, |specs|, subject) && Increasing(ordered) && forall s :: s in ordered <==> s in schema.ordered
    ensures Consistent(specs, subject) && SchemaOf(schema.(ordered := ordered), specs, subject)
    ensures Collected(specs, subject) == Some(schema)
  {
    assert specs[..|specs|] == specs;
    SchemaMeansConsistent(schema, specs, subject);
    SortedIndexes(schema, ordered, specs, subject);
  }

  lemma SortedIndexes(schema: Schema, ordered: seq<Spec>, specs: seq<Spec>, subject: int)
    requires Indexes(schema, specs, subject) && Represents(schema, specs, subject) && forall s :: s in ordered <==> s in schema.ordered
    ensures Indexes(schema.(ordered := ordered), specs, subject) && Represents(schema.(ordered := ordered), specs, subject)
  {
    var next := schema.(ordered := ordered);
    forall s | s in ordered ensures Indexed(next, specs, subject, s) {
      assert Indexed(schema, specs, subject, s);
    }
  }

  method SortSpecs(specs: seq<Spec>) returns (sorted: seq<Spec>)
    requires IdsDistinct(specs)
    ensures Increasing(sorted) && |sorted| == |specs| && forall s :: s in sorted <==> s in specs
  {
    sorted := [];
    var i := 0;
    while i < |specs|
      invariant 0 <= i <= |specs| && |sorted| == i && Increasing(sorted)
      invariant forall s :: s in sorted <==> s in specs[..i]
    {
      assert specs[..i + 1] == specs[..i] + [specs[i]];
      forall s | s in sorted ensures s.id != specs[i].id {
        var j :| 0 <= j < i && specs[..i][j] == s;
        assert specs[j].id != specs[i].id;
      }
      sorted := InsertSpec(sorted, specs[i]);
      i := i + 1;
    }
    assert specs[..i] == specs;
  }

  lemma InsertedMembers<T>(s: seq<T>, k: nat, x: T)
    requires k <= |s|
    ensures forall t :: t in s[..k] + [x] + s[k..] <==> t == x || t in s
  {
    assert s == s[..k] + s[k..];
  }

  lemma InsertedIncreasing(sorted: seq<Spec>, k: nat, s: Spec)
    requires Increasing(sorted) && k <= |sorted|
    requires k > 0 ==> sorted[k - 1].id < s.id
    requires k < |sorted| ==> s.id < sorted[k].id
    ensures Increasing(sorted[..k] + [s] + sorted[k..])
  {
    forall j | 0 <= j < |sorted| ensures if j < k then sorted[j].id < s.id else s.id < sorted[j].id { }
  }

  method InsertSpec(sorted: seq<Spec>, s: Spec) returns (more: seq<Spec>)
    requires Increasing(sorted) && forall t :: t in sorted ==> t.id != s.id
    ensures Increasing(more) && |more| == |sorted| + 1 && forall t :: t in more <==> t == s || t in sorted
  {
    var k := 0;
    while k < |sorted| && sorted[k].id < s.id
      invariant 0 <= k <= |sorted| && (k > 0 ==> sorted[k - 1].id < s.id)
    {
      k := k + 1;
    }
    assert k < |sorted| ==> sorted[k] in sorted;
    InsertedIncreasing(sorted, k, s);
    InsertedMembers(sorted, k, s);
    more := sorted[..k] + [s] + sorted[k..];
  }

  // ---------------------------------------------------------------- one value

  datatype Value = TextValue(texts: seq<string>) | NumberValue(number: real)

  /** Directories by the key of the characteristic they belong to. */
  type Directories = map<string, seq<string>>

  predicate HasDirectory(directories: Directories, s: Spec) {
    Key(s.name) in directories && directories[Key(s.name)] != []
  }

  /** A text value is a proper list within its count, spelled as its directory spells it. */
  ghost predicate ValueOk(s: Spec, value: Value, directories: Directories) {
    if value.NumberValue? then s.kind == 4
    else
      && s.kind == 1 && Proper(value.texts)
      && (s.maxCount > 0 ==> |value.texts| <= s.maxCount)
      && (HasDirectory(directories, s) ==> forall i :: 0 <= i < |value.texts| ==> value.texts[i] in directories[Key(s.name)])
  }

  /** The value is the supplied one: the number, or the texts trimmed and spelled as the directory spells them, in order. */
  ghost predicate ValueFrom(s: Spec, raw: Raw, value: Value, directories: Directories) {
    if s.kind == 4 then value.NumberValue? && NumberOf(raw) == Some(value.number)
    else
      && value.TextValue? && Inputs(raw).Some? && |value.texts| == |Inputs(raw).value|
      && forall i :: 0 <= i < |value.texts| ==> Respelled(s, Trimmed(Inputs(raw).value)[i], value.texts[i], directories)
  }

  ghost predicate Respelled(s: Spec, given: string, text: string, directories: Directories) {
    if HasDirectory(directories, s) then Canonical(directories[Key(s.name)], given, text) else text == given
  }

  ghost predicate TextAcceptable(s: Spec, raw: Raw, directories: Directories) {
    && Inputs(raw).Some? && Proper(Trimmed(Inputs(raw).value))
    && (s.maxCount > 0 ==> |Inputs(raw).value| <= s.maxCount)
    && (HasDirectory(directories, s) ==>
          forall i :: 0 <= i < |Inputs(raw).value| ==> HasCanonical(directories[Key(s.name)], Trimmed(Inputs(raw).value)[i]))
  }

  function NumberOf(raw: Raw): Option<real> {
    match raw
    case Number(value) => Some(value)
    case Text(_, number) => number
    case _ => None
  }

  ghost predicate Acceptable(s: Spec, raw: Raw, directories: Directories) {
    (s.kind == 1 && TextAcceptable(s, raw, directories)) || (s.kind == 4 && NumberOf(raw).Some?)
  }

  method CharacteristicValue(s: Spec, raw: Raw, directories: Directories) returns (r: Result<Value>)
    ensures r.Ok? <==> Acceptable(s, raw, directories)
    ensures r.Ok? ==> ValueOk(s, r.value, directories) && ValueFrom(s, raw, r.value, directories)
  {
    if s.kind == 1 {
      r := TextCharacteristic(s, raw, directories);
    } else if s.kind == 4 {
      var number := NumberOf(raw);
      r := if number.Some? then Ok(NumberValue(number.value)) else Refused(CharacteristicInvalid);
    } else {
      r := Refused(if s.kind == 0 then CharacteristicInvalid else CatalogContractError);
    }
  }

  method TextCharacteristic(s: Spec, raw: Raw, directories: Directories) returns (r: Result<Value>)
    requires s.kind == 1
    ensures r.Ok? <==> TextAcceptable(s, raw, directories)
    ensures r.Ok? ==> ValueOk(s, r.value, directories) && ValueFrom(s, raw, r.value, directories)
  {
    var values := CharacteristicValues(raw);
    if values.None? || (s.maxCount > 0 && |values.value| > s.maxCount) {
      return Refused(CharacteristicInvalid);
    }
    if !HasDirectory(directories, s) {
      return Ok(TextValue(values.value));
    }
    var canonical := Canonicalize(values.value, directories[Key(s.name)]);
    if canonical.Refused? {
      return Refused(canonical.code);
    }
    CanonicalIsProper(values.value, canonical.value, directories[Key(s.name)]);
    r := Ok(TextValue(canonical.value));
  }

  /** Respelling values by a directory keeps them apart. */
  lemma CanonicalIsProper(values: seq<string>, canonical: seq<string>, directory: seq<string>)
    requires Proper(values) && |canonical| == |values|
    requires forall i :: 0 <= i < |values| ==> Canonical(directory, values[i], canonical[i])
    ensures Proper(canonical)
  {
    forall i | 0 <= i < |values| ensures Key(canonical[i]) == Key(values[i]) {
      assert Canonical(directory, values[i], canonical[i]);
    }
  }

  // ---------------------------------------------------------------- one variant

  datatype RawCharacteristic = RawCharacteristic(id: int, name: string, value: Raw)

  datatype Size = Size(tech: string, wb: string, price: int, skus: seq<string>)

  datatype Dimensions = Dimensions(length: real, width: real, height: real, weight: real)

  /** A normalized source card; the flags are None when unreadable. */
  datatype Item = Item(position: int, vendor: string, category: string, title: string, description: string, brand: string,
                       marking: Option<bool>, adult: Option<bool>, vat: string, vatNumber: Option<real>, price: int, dimensions: Dimensions,
                       sizes: seq<Size>, characteristics: seq<RawCharacteristic>)

  datatype Characteristic = Characteristic(id: int, value: Value)

  datatype Variant = Variant(vendor: string, marked: bool, title: string, description: string, brand: string,
                             dimensions: Dimensions, characteristics: seq<Characteristic>, sizes: seq<Size>)

  /** Fixed names of the catalogue: the key of the VAT characteristic, and the other keys a name may stand for. */
  datatype Vocabulary = Vocabulary(vatKey: string, aliases: map<string, seq<string>>)

  /** The entry meant by an id or a name: by id first, then by name, then by the name's aliases. */
  function Resolve(schema: Schema, vocabulary: Vocabulary, id: int, name: string): Option<Spec> {
    if id > 0 && id in schema.byId then Some(schema.byId[id])
    else if Key(name) in schema.byName then Some(schema.byName[Key(name)])
    else if Key(name) in vocabulary.aliases then FirstKnown(schema, vocabulary.aliases[Key(name)])
    else None
  }

  function FirstKnown(schema: Schema, names: seq<string>): Option<Spec> {
    if names == [] then None
    else if names[0] in schema.byName then Some(schema.byName[names[0]])
    else FirstKnown(schema, names[1..])
  }

  /** The raw values filed under the ids of their entries; None when one is blank or an entry is given twice. */
  function Filed(schema: Schema, vocabulary: Vocabulary, raws: seq<RawCharacteristic>): Option<map<int, Raw>> {
    if raws == [] then Some(map[])
    else
      var n := |raws| - 1;
      var front := Filed(schema, vocabulary, raws[..n]);
      var spec := Resolve(schema, vocabulary, raws[n].id, raws[n].name);
      if front.None? || IsBlank(raws[n].value) then None
      else if spec.None? then front
      else if spec.value.id in front.value then None
      else Some(front.value[spec.value.id := raws[n].value])
  }

  /** The same with the VAT rate, which must not be given a second time. */
  function FiledWithVat(item: Item, schema: Schema, vocabulary: Vocabulary): Option<map<int, Raw>> {
    var filed := Filed(schema, vocabulary, item.characteristics);
    if filed.None? || item.vat == [] || vocabulary.vatKey !in schema.byName then filed
    else
      var id := schema.byName[vocabulary.vatKey].id;
      if id in filed.value then None else Some(filed.value[id := Text(item.vat, item.vatNumber)])
  }

  lemma {:induction false} FiledPrefix(schema: Schema, vocabulary: Vocabulary, raws: seq<RawCharacteristic>, n: nat)
    requires n <= |raws| && Filed(schema, vocabulary, raws[..n]).None?
    ensures Filed(schema, vocabulary, raws).None?
  {
    if n < |raws| {
      assert raws[..|raws| - 1][..n] == raws[..n];
      FiledPrefix(schema, vocabulary, raws[..|raws| - 1], n);
    } else {
      assert raws[..n] == raws;
    }
  }

  method CollectValues(item: Item, schema: Schema, vocabulary: Vocabulary) returns (r: Result<map<int, Raw>>)
    ensures r.Ok? <==> FiledWithVat(item, schema, vocabulary).Some?
    ensures r.Ok? ==> r.value == FiledWithVat(item, schema, vocabulary).value
    ensures r.Refused? ==> r.code.CharacteristicInvalid?
  {
    var values: map<int, Raw> := map[];
    var raws := item.characteristics;
    var i := 0;
    while i < |raws|
      invariant 0 <= i <= |raws| && Filed(schema, vocabulary, raws[..i]) == Some(values)
    {
      assert raws[..i + 1][..i] == raws[..i];
      var spec := Resolve(schema, vocabulary, raws[i].id, raws[i].name);
      if IsBlank(raws[i].value) || (spec.Some? && spec.value.id in values) {
        FiledPrefix(schema, vocabulary, raws, i + 1);
        return Refused(CharacteristicInvalid);
      }
      if spec.Some? {
        values := values[spec.value.id := raws[i].value];
      }
      i := i + 1;
    }
    assert raws[..i] == raws;
    if item.vat != [] && vocabulary.vatKey in schema.byName {
      var id := schema.byName[vocabulary.vatKey].id;
      if id in values {
        return Refused(CharacteristicInvalid);
      }
      values := values[id := Text(item.vat, item.vatNumber)];
    }
    r := Ok(values);
  }

  /** An entry of the schema that is not deprecated, with the value that was supplied for it. */
  ghost predicate EntryOf(s: Spec, c: Characteristic, values: map<int, Raw>, directories: Directories) {
    && s.id == c.id && s.kind != 0 && ValueOk(s, c.value, directories)
    && c.id in values && ValueFrom(s, values[c.id], c.value, directories)
  }

  ghost predicate CharacteristicOk(c: Characteristic, specs: seq<Spec>, values: map<int, Raw>, directories: Directories) {
    exists s :: s in specs && EntryOf(s, c, values, directories)
  }

  ghost predicate Supplied(cs: seq<Characteristic>, id: int) {
    exists i :: 0 <= i < |cs| && cs[i].id == id
  }

  ghost predicate IdsIncrease(cs: seq<Characteristic>) {
    forall i, j :: 0 <= i < j < |cs| ==> cs[i].id < cs[j].id
  }

  /** The entry has to appear: it is required, or a value was supplied for it. */
  predicate Wanted(s: Spec, values: map<int, Raw>) { s.kind != 0 && (s.required || s.id in values) }

  /**
   The characteristics of a variant: ordered, each with the valid value supplied for it, and none missing that was
   supplied or is required.
   */
  ghost predicate Complete(cs: seq<Characteristic>, specs: seq<Spec>, values: map<int, Raw>, directories: Directories) {
    && IdsIncrease(cs)
    && (forall i :: 0 <= i < |cs| ==> CharacteristicOk(cs[i], specs, values, directories))
    && (forall s :: s in specs && Wanted(s, values) ==> Supplied(cs, s.id))
  }

  /** The ids of a variant are exactly those a value was supplied for and whose entry is not deprecated. */
  lemma SuppliedIff(cs: seq<Characteristic>, specs: seq<Spec>, values: map<int, Raw>, directories: Directories, id: int)
    requires Complete(cs, specs, values, directories)
    ensures Supplied(cs, id) <==> id in values && exists s :: s in specs && s.id == id && s.kind != 0
  {
    if Supplied(cs, id) {
      var i :| 0 <= i < |cs| && cs[i].id == id;
      assert CharacteristicOk(cs[i], specs, values, directories);
    }
    if id in values {
      if s :| s in specs && s.id == id && s.kind != 0 {
        assert Wanted(s, values);
      }
    }
  }

  lemma CompleteSkips(cs: seq<Characteristic>, specs: seq<Spec>, s: Spec, values: map<int, Raw>, directories: Directories)
    requires Complete(cs, specs, values, directories) && !Wanted(s, values)
    ensures Complete(cs, specs + [s], values, directories)
  {
    forall i | 0 <= i < |cs| ensures CharacteristicOk(cs[i], specs + [s], values, directories) {
      assert CharacteristicOk(cs[i], specs, values, directories);
      var t :| t in specs && EntryOf(t, cs[i], values, directories);
      assert t in specs + [s];
    }
  }

  lemma CompleteAppends(cs: seq<Characteristic>, specs: seq<Spec>, s: Spec, value: Value, values: map<int, Raw>,
                        directories: Directories)
    requires Complete(cs, specs, values, directories) && EntryOf(s, Characteristic(s.id, value), values, directories)
    requires forall t :: t in specs ==> t.id < s.id
    ensures Complete(cs + [Characteristic(s.id, value)], specs + [s], values, directories)
  {
    var more, all := cs + [Characteristic(s.id, value)], specs + [s];
    forall i | 0 <= i < |cs| ensures CharacteristicOk(more[i], all, values, directories) && more[i].id < s.id {
      assert more[i] == cs[i] && CharacteristicOk(cs[i], specs, values, directories);
      var t :| t in specs && EntryOf(t, cs[i], values, directories);
      assert t in all;
    }
    assert s in all && CharacteristicOk(more[|cs|], all, values, directories);
    forall t | t in all && Wanted(t, values) ensures Supplied(more, t.id) {
      if t == s {
        assert more[|cs|].id == s.id;
      } else {
        assert Supplied(cs, t.id);
        var i :| 0 <= i < |cs| && cs[i].id == t.id;
        assert more[i].id == t.id;
      }
    }
  }

  /** The entry is deprecated, or has an acceptable value, or needs none. */
  ghost predicate EntryServed(s: Spec, values: map<int, Raw>, directories: Directories) {
    s.kind == 0 || (if s.id in values then Acceptable(s, values[s.id], directories) else !s.required)
  }

  /** Walks the schema in order of id and takes what was supplied. */
  method BuildCharacteristics(ordered: seq<Spec>, values: map<int, Raw>, directories: Directories) returns (r: Result<seq<Characteristic>>)
    requires Increasing(ordered)
    ensures r.Ok? ==> Complete(r.value, ordered, values, directories)
    ensures r.Ok? <==> forall s :: s in ordered ==> EntryServed(s, values, directories)
  {
    var cs: seq<Characteristic> := [];
    var i := 0;
    while i < |ordered|
      invariant 0 <= i <= |ordered| && Complete(cs, ordered[..i], values, directories)
      invariant forall s :: s in ordered[..i] ==> EntryServed(s, values, directories)
    {
      var s := ordered[i];
      assert ordered[..i + 1] == ordered[..i] + [s];
      if s.kind != 0 {
        if s.id !in values {
          if s.required {
            assert s in ordered && !EntryServed(s, values, directories);
            return Refused(CharacteristicMissing);
          }
          CompleteSkips(cs, ordered[..i], s, values, directories);
        } else {
          var value := CharacteristicValue(s, values[s.id], directories);
          if value.Refused? {
            assert s in ordered && !EntryServed(s, values, directories);
            return Refused(value.code);
          }
          assert forall t :: t in ordered[..i] ==> t.id < s.id;
          CompleteAppends(cs, ordered[..i], s, value.value, values, directories);
          cs := cs + [Characteristic(s.id, value.value)];
        }
      } else {
        CompleteSkips(cs, ordered[..i], s, values, directories);
      }
      i := i + 1;
    }
    assert ordered[..i] == ordered;
    r := Ok(cs);
  }

  // ---------------------------------------------------------------- names of the catalogue

  /** A subject or a brand. */
  datatype Named = Named(id: int, name: string)

  /** All entries with the key are usable and have one id. */
  ghost predicate Resolves(entries: seq<Named>, key: string, e: Named) {
    && e in entries && Key(e.name) == key && e.id > 0
    && forall i :: 0 <= i < |entries| && Key(entries[i].name) == key ==> entries[i].id == e.id
  }

  /** What has been collected from the first `i` entries: one usable match for each id seen. */
  ghost predicate Gathered(entries: seq<Named>, key: string, i: nat, matches: seq<Named>, seen: set<int>) {
    && i <= |entries|
    && (forall j :: 0 <= j < i && Key(entries[j].name) == key ==> entries[j].id > 0 && entries[j].id in seen)
    && (forall j :: 0 <= j < |matches| ==>
          matches[j] in entries && Key(matches[j].name) == key && matches[j].id > 0 && matches[j].id in seen)
    && (forall j, k :: 0 <= j < k < |matches| ==> matches[j].id != matches[k].id)
    && (matches == [] ==> seen == {})
    && (|matches| == 1 ==> seen == {matches[0].id})
  }

  /** The one entry with the key; `missing` and `ambiguous` say what to report otherwise. */
  method ResolveNamed(entries: seq<Named>, key: string, missing: Code, ambiguous: Code) returns (r: Result<Named>)
    ensures r.Ok? ==> Resolves(entries, key, r.value)
    ensures r.Ok? <==> exists e :: Resolves(entries, key, e)
  {
    var matches: seq<Named> := [];
    var seen: set<int> := {};
    var i := 0;
    while i < |entries|
      invariant 0 <= i <= |entries| && Gathered(entries, key, i, matches, seen)
    {
      var e := entries[i];
      if Key(e.name) == key {
        if e.id <= 0 {
          assert forall x :: Resolves(entries, key, x) ==> x.id == e.id;
          return Refused(CatalogContractError);
        }
        if e.id !in seen {
          GatherOne(entries, key, i, matches, seen);
          seen := seen + {e.id};
          matches := matches + [e];
        }
      }
      i := i + 1;
    }
    if |matches| == 1 {
      assert Resolves(entries, key, matches[0]);
      r := Ok(matches[0]);
    } else if |matches| == 0 {
      r := Refused(missing);
      NoneResolves(entries, key);
    } else {
      r := Refused(ambiguous);
      TwoResolve(entries, key, matches[0], matches[1]);
    }
  }

  lemma GatherOne(entries: seq<Named>, key: string, i: nat, matches: seq<Named>, seen: set<int>)
    requires i < |entries| && Gathered(entries, key, i, matches, seen)
    requires Key(entries[i].name) == key && entries[i].id > 0 && entries[i].id !in seen
    ensures Gathered(entries, key, i + 1, matches + [entries[i]], seen + {entries[i].id})
  {
  }

  lemma NoneResolves(entries: seq<Named>, key: string)
    requires forall j :: 0 <= j < |entries| ==> Key(entries[j].name) != key
    ensures forall e :: !Resolves(entries, key, e)
  {
  }

  lemma TwoResolve(entries: seq<Named>, key: string, x: Named, y: Named)
    requires x in entries && y in entries && Key(x.name) == key && Key(y.name) == key && x.id != y.id
    ensures forall e :: !Resolves(entries, key, e)
  {
    forall e ensures !Resolves(entries, key, e) {
      var i :| 0 <= i < |entries| && entries[i] == x;
      var j :| 0 <= j < |entries| && entries[j] == y;
    }
  }

  // ---------------------------------------------------------------- a variant

  function UploadSize(size: Size, price: int): Size {
    if size.price <= 0 then size.(price := price) else size
  }

  function UploadSizes(sizes: seq<Size>, price: int): (uploaded: seq<Size>)
    ensures |uploaded| == |sizes| && forall i :: 0 <= i < |sizes| ==> uploaded[i] == UploadSize(sizes[i], price)
  {
    seq(|sizes|, i requires 0 <= i < |sizes| => UploadSize(sizes[i], price))
  }

  /** The variant is the item's own, with the catalogue's spelling of its brand and the characteristics supplied for it. */
  ghost predicate VariantOf(v: Variant, item: Item, schema: Schema, vocabulary: Vocabulary, brands: seq<Named>, directories: Directories) {
    && v.vendor == item.vendor && v.title == item.title && v.description == item.description
    && v.dimensions == item.dimensions && v.sizes == UploadSizes(item.sizes, item.price)
    && item.marking == Some(v.marked) && item.adult == Some(false)
    && (if Key(item.brand) == [] then v.brand == [] else exists b :: Resolves(brands, Key(item.brand), b) && v.brand == b.name)
    && FiledWithVat(item, schema, vocabulary).Some?
    && Complete(v.characteristics, schema.ordered, FiledWithVat(item, schema, vocabulary).value, directories)
  }

  /** Everything a variant needs is there. */
  ghost predicate Buildable(item: Item, schema: Schema, vocabulary: Vocabulary, brands: seq<Named>, directories: Directories) {
    && (Key(item.brand) == [] || exists b :: Resolves(brands, Key(item.brand), b))
    && item.marking.Some? && item.adult == Some(false)
    && FiledWithVat(item, schema, vocabulary).Some?
    && forall s :: s in schema.ordered ==> EntryServed(s, FiledWithVat(item, schema, vocabulary).value, directories)
  }

  method BuildVariant(item: Item, schema: Schema, vocabulary: Vocabulary, brands: seq<Named>, directories: Directories)
    returns (r: Result<Variant>)
    requires Increasing(schema.ordered)
    ensures r.Ok? <==> Buildable(item, schema, vocabulary, brands, directories)
    ensures r.Ok? ==> VariantOf(r.value, item, schema, vocabulary, brands, directories)
  {
    var brand := [];
    if Key(item.brand) != [] {
      var found := ResolveNamed(brands, Key(item.brand), BrandNotFound, CatalogContractError);
      if found.Refused? {
        return Refused(found.code);
      }
      brand := found.value.name;
    }
    if item.marking.None? || item.adult != Some(false) {
      return Refused(CharacteristicInvalid);
    }
    var values := CollectValues(item, schema, vocabulary);
    if values.Refused? {
      return Refused(values.code);
    }
    var characteristics := BuildCharacteristics(schema.ordered, values.value, directories);
    if characteristics.Refused? {
      return Refused(characteristics.code);
    }
    var sizes: seq<Size> := [];
    while |sizes| < |item.sizes|
      invariant |sizes| <= |item.sizes| && sizes == UploadSizes(item.sizes, item.price)[..|sizes|]
    {
      var size := item.sizes[|sizes|];
      var price := size.price;
      if price <= 0 {
        price := item.price;
      }
      sizes := sizes + [size.(price := price)];
    }
    r := Ok(Variant(item.vendor, item.marking.value, item.title, item.description, brand, item.dimensions,
                    characteristics.value, sizes));
  }

  // ---------------------------------------------------------------- the upload request

  const MaxVariants: nat := 30
  const MaxTitle: nat := 60
  const MaxDescription: nat := 5000

  predicate DimensionsOk(d: Dimensions) { d.length > 0.0 && d.width > 0.0 && d.height > 0.0 && d.weight > 0.0 }

  predicate SizeOk(size: Size) {
    size.price > 0 && forall i :: 0 <= i < |size.skus| ==> Trim(size.skus[i]) != []
  }

  ghost predicate VariantFits(v: Variant) {
    && Trim(v.vendor) != [] && |v.title| <= MaxTitle && |v.description| <= MaxDescription
    && DimensionsOk(v.dimensions) && v.sizes != []
    && (forall i :: 0 <= i < |v.characteristics| ==> v.characteristics[i].id > 0)
    && (forall i, j :: 0 <= i < j < |v.characteristics| ==> v.characteristics[i].id != v.characteristics[j].id)
    && (forall i :: 0 <= i < |v.sizes| ==> SizeOk(v.sizes[i]))
  }

  ghost predicate UploadOk(subject: int, variants: seq<Variant>) {
    && subject > 0 && 0 < |variants| <= MaxVariants
    && (forall i :: 0 <= i < |variants| ==> VariantFits(variants[i]))
    && (forall i, j :: 0 <= i < j < |variants| ==> variants[i].vendor != variants[j].vendor)
  }

  method ValidateVariant(v: Variant) returns (ok: bool)
    ensures ok <==> VariantFits(v)
  {
    if Trim(v.vendor) == [] || |v.title| > MaxTitle || |v.description| > MaxDescription || !DimensionsOk(v.dimensions) || v.sizes == [] {
      return false;
    }
    var ids: set<int> := {};
    var i := 0;
    while i < |v.characteristics|
      invariant 0 <= i <= |v.characteristics|
      invariant ids == set j | 0 <= j < i :: v.characteristics[j].id
      invariant forall j :: 0 <= j < i ==> v.characteristics[j].id > 0
      invariant forall j, k :: 0 <= j < k < i ==> v.characteristics[j].id != v.characteristics[k].id
    {
      var id := v.characteristics[i].id;
      if id <= 0 || id in ids {
        return false;
      }
      ids := ids + {id};
      i := i + 1;
    }
    i := 0;
    while i < |v.sizes|
      invariant 0 <= i <= |v.sizes| && forall j :: 0 <= j < i ==> SizeOk(v.sizes[j])
    {
      if !SizeOk(v.sizes[i]) {
        return false;
      }
      i := i + 1;
    }
    ok := true;
  }

  method ValidateUpload(subject: int, variants: seq<Variant>) returns (ok: bool)
    ensures ok <==> UploadOk(subject, variants)
  {
    if subject <= 0 || |variants| == 0 || |variants| > MaxVariants {
      return false;
    }
    var vendors: set<string> := {};
    var i := 0;
    while i < |variants|
      invariant 0 <= i <= |variants|
      invariant vendors == set j | 0 <= j < i :: variants[j].vendor
      invariant forall j :: 0 <= j < i ==> VariantFits(variants[j])
      invariant forall j, k :: 0 <= j < k < i ==> variants[j].vendor != variants[k].vendor
    {
      var fits := ValidateVariant(variants[i]);
      if !fits || variants[i].vendor in vendors {
        return false;
      }
      vendors := vendors + {variants[i].vendor};
      i := i + 1;
    }
    ok := true;
  }

  // ---------------------------------------------------------------- preparing a group

  const MaxInt64: int := 0x7FFF_FFFF_FFFF_FFFF

  datatype Limits = Limits(free: int, paid: int)

  /** What the marketplace's directories held; `observedAt` is 0 when the observation was never dated. */
  datatype Snapshot = Snapshot(observedAt: int, limits: Limits, subjects: seq<Named>, specs: seq<Spec>,
                               brands: seq<Named>, directories: Directories)

  /** One group of an upload request. */
  datatype Upload = Upload(subject: int, variants: seq<Variant>)

  type Bytes = seq<bv8>

  /** A digest as a number; 0 is the zero digest. */
  type Digest = nat

  /** JSON encoding and the digests built on it; encoding may fail. */
  datatype Codec = Codec(request: seq<Upload> -> Option<Bytes>, semantic: seq<Item> -> Option<Digest>,
                         metadata: Snapshot -> Option<Digest>, root: (Digest, Digest, Bytes) -> Digest)

  const MaxRequestBytes: nat := 10_000_000

  datatype Proposal = Proposal(subject: int, request: seq<Upload>, encoded: Bytes, snapshot: Snapshot,
                               semanticDigest: Digest, metadataDigest: Digest, root: Digest,
                               limits: Limits, limitsObservedAt: int)

  /** The stored proposal is well formed and agrees with its own bytes and digests. */
  predicate Intact(p: Proposal, codec: Codec) {
    && p.subject > 0 && |p.request| == 1 && p.request[0].variants != [] && p.request[0].subject == p.subject
    && p.encoded != [] && p.semanticDigest != 0 && p.metadataDigest != 0 && p.root != 0
    && p.limitsObservedAt != 0 && p.limitsObservedAt == p.snapshot.observedAt && p.limits == p.snapshot.limits
    && codec.request(p.request) == Some(p.encoded)
    && codec.metadata(p.snapshot) == Some(p.metadataDigest)
    && p.root == codec.root(p.semanticDigest, p.metadataDigest, p.encoded)
  }

  ghost predicate Ordered(items: seq<Item>) {
    forall i, j :: 0 <= i < j < |items| ==> items[i].position < items[j].position
  }

  ghost predicate Arrangement(x: seq<Item>, y: seq<Item>) {
    |x| == |y| && forall item :: item in x <==> item in y
  }

  ghost predicate PositionsOk(items: seq<Item>) {
    && (forall i :: 0 <= i < |items| ==> items[i].position > 0)
    && (forall i, j :: 0 <= i < j < |items| ==> items[i].position != items[j].position)
  }

  /** Orders the items by position; None when there is none, or one is not positive or repeats. */
  method NormalizeGroup(items: seq<Item>) returns (r: Option<seq<Item>>)
    ensures r.Some? <==> items != [] && PositionsOk(items)
    ensures r.Some? ==> Ordered(r.value) && r.value != [] && Arrangement(r.value, items)
  {
    if items == [] {
      return None;
    }
    var sorted: seq<Item> := [];
    var i := 0;
    while i < |items|
      invariant 0 <= i <= |items| && Ordered(sorted) && Arrangement(sorted, items[..i]) && PositionsOk(items[..i])
    {
      assert items[..i + 1] == items[..i] + [items[i]];
      if items[i].position <= 0 {
        return None;
      }
      var ok, more := InsertItem(sorted, items[i]);
      if !ok {
        var x :| x in sorted && x.position == items[i].position;
        assert x in items[..i];
        return None;
      }
      assert forall j :: 0 <= j < i ==> items[..i][j] in sorted;
      sorted := more;
      i := i + 1;
    }
    assert items[..i] == items;
    r := Some(sorted);
  }

  lemma InsertedOrdered(sorted: seq<Item>, k: nat, x: Item)
    requires Ordered(sorted) && k <= |sorted|
    requires k > 0 ==> sorted[k - 1].position < x.position
    requires k < |sorted| ==> x.position < sorted[k].position
    ensures Ordered(sorted[..k] + [x] + sorted[k..])
    ensures forall y :: y in sorted ==> y.position != x.position
  {
    forall j | 0 <= j < |sorted| ensures if j < k then sorted[j].position < x.position else x.position < sorted[j].position { }
  }

  method InsertItem(sorted: seq<Item>, x: Item) returns (ok: bool, more: seq<Item>)
    requires Ordered(sorted)
    ensures ok <==> forall y :: y in sorted ==> y.position != x.position
    ensures ok ==> Ordered(more) && |more| == |sorted| + 1 && forall y :: y in more <==> y == x || y in sorted
  {
    var k := 0;
    while k < |sorted| && sorted[k].position < x.position
      invariant 0 <= k <= |sorted| && (k > 0 ==> sorted[k - 1].position < x.position)
    {
      k := k + 1;
    }
    if k < |sorted| && sorted[k].position == x.position {
      assert sorted[k] in sorted;
      return false, sorted;
    }
    InsertedOrdered(sorted, k, x);
    InsertedMembers(sorted, k, x);
    more := sorted[..k] + [x] + sorted[k..];
    ok := true;
  }

  /** All items have the category of the first one, compared by key. */
  predicate OneCategory(items: seq<Item>)
    requires items != []
  {
    forall i :: 0 <= i < |items| ==> Key(items[i].category) == Key(items[0].category)
  }

  /** What a prepared upload guarantees. */
  ghost predicate UploadFor(u: Upload, items: seq<Item>, snapshot: Snapshot, vocabulary: Vocabulary) {
    && snapshot.observedAt != 0 && LimitsOk(snapshot) && |items| <= snapshot.limits.free + snapshot.limits.paid
    && UploadOk(u.subject, u.variants)
    && items != [] && OneCategory(items)
    && (exists e :: Resolves(snapshot.subjects, Key(items[0].category), e) && e.id == u.subject)
    && (exists schema :: SchemaOf(schema, snapshot.specs, u.subject) && BuiltFrom(u.variants, items, schema, vocabulary, snapshot))
  }

  /** The upload can be encoded within the size limit, and the digests exist. */
  predicate Encodable(u: Upload, items: seq<Item>, snapshot: Snapshot, codec: Codec) {
    && codec.request([u]).Some? && |codec.request([u]).value| <= MaxRequestBytes
    && codec.semantic(items).Some? && codec.metadata(snapshot).Some?
  }

  /** What a prepared proposal guarantees; it passes the integrity check unless an encoding or a digest is empty. */
  ghost predicate PreparedOk(p: Proposal, items: seq<Item>, snapshot: Snapshot, vocabulary: Vocabulary, codec: Codec) {
    && |p.request| == 1 && p.request[0].subject == p.subject && UploadFor(p.request[0], items, snapshot, vocabulary)
    && p.snapshot == snapshot && codec.semantic(items) == Some(p.semanticDigest)
    && (Intact(p, codec) <==> p.encoded != [] && p.semanticDigest != 0 && p.metadataDigest != 0 && p.root != 0)
  }

  /** Variant by variant, in order of position. */
  ghost predicate BuiltFrom(variants: seq<Variant>, items: seq<Item>, schema: Schema, vocabulary: Vocabulary, snapshot: Snapshot) {
    && |variants| == |items| && Ordered(items)
    && forall i :: 0 <= i < |items| ==> VariantOf(variants[i], items[i], schema, vocabulary, snapshot.brands, snapshot.directories)
  }

  method ResolveSubject(items: seq<Item>, subjects: seq<Named>) returns (r: Result<Named>)
    requires items != []
    ensures r.Ok? <==> OneCategory(items) && exists e :: Resolves(subjects, Key(items[0].category), e)
    ensures r.Ok? ==> Resolves(subjects, Key(items[0].category), r.value)
  {
    var key := Key(items[0].category);
    var i := 1;
    while i < |items|
      invariant 1 <= i <= |items| && forall j :: 0 <= j < i ==> Key(items[j].category) == key
    {
      if Key(items[i].category) != key {
        return Refused(CharacteristicInvalid);
      }
      i := i + 1;
    }
    r := ResolveNamed(subjects, key, SubjectNotFound, SubjectAmbiguous);
  }

  /** The first items are built, variant by variant. */
  ghost predicate Prefix(variants: seq<Variant>, items: seq<Item>, schema: Schema, vocabulary: Vocabulary, snapshot: Snapshot) {
    && |variants| <= |items|
    && forall i :: 0 <= i < |variants| ==>
         && Buildable(items[i], schema, vocabulary, snapshot.brands, snapshot.directories)
         && VariantOf(variants[i], items[i], schema, vocabulary, snapshot.brands, snapshot.directories)
  }

  lemma PrefixGrows(variants: seq<Variant>, v: Variant, items: seq<Item>, schema: Schema, vocabulary: Vocabulary, snapshot: Snapshot)
    requires Prefix(variants, items, schema, vocabulary, snapshot) && |variants| < |items|
    requires Buildable(items[|variants|], schema, vocabulary, snapshot.brands, snapshot.directories)
    requires VariantOf(v, items[|variants|], schema, vocabulary, snapshot.brands, snapshot.directories)
    ensures Prefix(variants + [v], items, schema, vocabulary, snapshot)
  {
  }

  method BuildVariants(items: seq<Item>, schema: Schema, vocabulary: Vocabulary, snapshot: Snapshot) returns (r: Result<seq<Variant>>)
    requires Increasing(schema.ordered) && Ordered(items)
    ensures r.Ok? ==> BuiltFrom(r.value, items, schema, vocabulary, snapshot)
    ensures r.Ok? <==> forall i :: 0 <= i < |items| ==> Buildable(items[i], schema, vocabulary, snapshot.brands, snapshot.directories)
  {
    var variants: seq<Variant> := [];
    while |variants| < |items|
      invariant Prefix(variants, items, schema, vocabulary, snapshot)
    {
      var variant := BuildVariant(items[|variants|], schema, vocabulary, snapshot.brands, snapshot.directories);
      if variant.Refused? {
        return Refused(variant.code);
      }
      PrefixGrows(variants, variant.value, items, schema, vocabulary, snapshot);
      variants := variants + [variant.value];
    }
    r := Ok(variants);
  }

  // ---------------------------------------------------------------- exactly when a group is prepared

  /** The item's own columns fit an upload. */
  ghost predicate ItemFits(item: Item) {
    && Trim(item.vendor) != [] && |item.title| <= MaxTitle && |item.description| <= MaxDescription
    && DimensionsOk(item.dimensions) && item.sizes != []
    && forall i :: 0 <= i < |item.sizes| ==> SizeOk(UploadSize(item.sizes[i], item.price))
  }

  /** Building never adds a reason to refuse the upload: a variant fits exactly when its item does. */
  lemma VariantFitsIff(v: Variant, item: Item, schema: Schema, specs: seq<Spec>, subject: int, vocabulary: Vocabulary, brands: seq<Named>,
                       directories: Directories)
    requires VariantOf(v, item, schema, vocabulary, brands, directories) && SchemaOf(schema, specs, subject)
    ensures VariantFits(v) <==> ItemFits(item)
  {
    var cs := v.characteristics;
    forall i | 0 <= i < |cs| ensures cs[i].id > 0 {
      var values := FiledWithVat(item, schema, vocabulary).value;
      assert CharacteristicOk(cs[i], schema.ordered, values, directories);
      var s :| s in schema.ordered && EntryOf(s, cs[i], values, directories);
      assert Indexed(schema, specs, subject, s);
    }
  }

  ghost predicate VendorsDistinct(items: seq<Item>) {
    forall i, j :: 0 <= i < j < |items| ==> items[i].vendor != items[j].vendor
  }

  lemma UploadOkIff(subject: int, variants: seq<Variant>, items: seq<Item>, schema: Schema, vocabulary: Vocabulary, snapshot: Snapshot)
    requires BuiltFrom(variants, items, schema, vocabulary, snapshot) && SchemaOf(schema, snapshot.specs, subject) && subject > 0
    ensures UploadOk(subject, variants) <==>
            0 < |items| <= MaxVariants && VendorsDistinct(items) && forall i :: 0 <= i < |items| ==> ItemFits(items[i])
  {
    forall i | 0 <= i < |items| ensures VariantFits(variants[i]) <==> ItemFits(items[i]) {
      VariantFitsIff(variants[i], items[i], schema, snapshot.specs, subject, vocabulary, snapshot.brands, snapshot.directories);
    }
    assert forall i :: 0 <= i < |items| ==> variants[i].vendor == items[i].vendor;
  }

  /** Resolution looks at the indexes only. */
  lemma {:induction false} FiledSame(x: Schema, y: Schema, vocabulary: Vocabulary, raws: seq<RawCharacteristic>)
    requires SameEntries(x, y)
    ensures Filed(x, vocabulary, raws) == Filed(y, vocabulary, raws)
  {
    if raws != [] {
      var n := |raws| - 1;
      FiledSame(x, y, vocabulary, raws[..n]);
      if Key(raws[n].name) in vocabulary.aliases {
        FirstKnownSame(x, y, vocabulary.aliases[Key(raws[n].name)]);
      }
    }
  }

  lemma {:induction false} FirstKnownSame(x: Schema, y: Schema, names: seq<string>)
    requires SameEntries(x, y)
    ensures FirstKnown(x, names) == FirstKnown(y, names)
  {
    if names != [] {
      FirstKnownSame(x, y, names[1..]);
    }
  }

  lemma BuildableSame(item: Item, x: Schema, y: Schema, vocabulary: Vocabulary, brands: seq<Named>, directories: Directories)
    requires SameEntries(x, y)
    ensures Buildable(item, x, vocabulary, brands, directories) <==> Buildable(item, y, vocabulary, brands, directories)
  {
    FiledSame(x, y, vocabulary, item.characteristics);
  }

  ghost predicate LimitsOk(snapshot: Snapshot) {
    snapshot.limits.free >= 0 && snapshot.limits.paid >= 0 && snapshot.limits.free + snapshot.limits.paid <= MaxInt64
  }

  ghost predicate CatalogServes(items: seq<Item>, snapshot: Snapshot, vocabulary: Vocabulary, subject: int) {
    && Consistent(snapshot.specs, subject) && Collected(snapshot.specs, subject).Some?
    && forall i :: 0 <= i < |items| ==>
         Buildable(items[i], Collected(snapshot.specs, subject).value, vocabulary, snapshot.brands, snapshot.directories)
  }

  /** What it takes, read off the source cards and the snapshot alone. */
  ghost predicate Preparable(items: seq<Item>, snapshot: Snapshot, vocabulary: Vocabulary) {
    && snapshot.observedAt != 0 && LimitsOk(snapshot)
    && 0 < |items| <= MaxVariants && |items| <= snapshot.limits.free + snapshot.limits.paid
    && OneCategory(items) && VendorsDistinct(items)
    && (forall i :: 0 <= i < |items| ==> ItemFits(items[i]))
    && exists e :: Resolves(snapshot.subjects, Key(items[0].category), e) && CatalogServes(items, snapshot, vocabulary, e.id)
  }

  lemma ServesIff(items: seq<Item>, snapshot: Snapshot, vocabulary: Vocabulary, subject: int, schema: Schema)
    requires Collected(snapshot.specs, subject).Some? && SameEntries(schema, Collected(snapshot.specs, subject).value)
    requires Consistent(snapshot.specs, subject)
    ensures CatalogServes(items, snapshot, vocabulary, subject) <==>
            forall i :: 0 <= i < |items| ==> Buildable(items[i], schema, vocabulary, snapshot.brands, snapshot.directories)
  {
    forall i | 0 <= i < |items|
      ensures Buildable(items[i], schema, vocabulary, snapshot.brands, snapshot.directories) <==>
              Buildable(items[i], Collected(snapshot.specs, subject).value, vocabulary, snapshot.brands, snapshot.directories)
    {
      BuildableSame(items[i], schema, Collected(snapshot.specs, subject).value, vocabulary, snapshot.brands, snapshot.directories);
    }
  }

  /**
   Prepares a group. `sorted` is the group in order of position; `upload` is what was built of it, before it was
   encoded.
   */
  method Prepare(group: seq<Item>, snapshot: Snapshot, vocabulary: Vocabulary, codec: Codec)
    returns (r: Result<Proposal>, sorted: seq<Item>, upload: Option<Upload>)
    ensures group != [] && PositionsOk(group) ==>
              Arrangement(sorted, group) && Ordered(sorted) && (upload.Some? <==> Preparable(sorted, snapshot, vocabulary))
    ensures !(group != [] && PositionsOk(group)) ==> r == Refused(SourceGroupInvalid)
    ensures upload.Some? ==> UploadFor(upload.value, sorted, snapshot, vocabulary)
    ensures r.Ok? <==> upload.Some? && Encodable(upload.value, sorted, snapshot, codec)
    ensures r.Ok? ==> r.value.request == [upload.value] && PreparedOk(r.value, sorted, snapshot, vocabulary, codec)
  {
    sorted, upload := [], None;
    var items := NormalizeGroup(group);
    if items.None? {
      return Refused(SourceGroupInvalid), sorted, None;
    }
    sorted := items.value;
    if snapshot.observedAt == 0 || snapshot.limits.free < 0 || snapshot.limits.paid < 0 ||
       snapshot.limits.free > MaxInt64 - snapshot.limits.paid {
      return Refused(CatalogContractError), sorted, None;
    }
    var subject := ResolveSubject(sorted, snapshot.subjects);
    if subject.Refused? {
      return Refused(subject.code), sorted, None;
    }
    if |sorted| > snapshot.limits.free + snapshot.limits.paid {
      return Refused(CardLimitExceeded), sorted, None;
    }
    var built := PrepareFor(sorted, snapshot, vocabulary, subject.value);
    if built.Refused? {
      return Refused(built.code), sorted, None;
    }
    upload := Some(built.value);
    r := Propose(built.value, sorted, snapshot, vocabulary, codec);
  }

  /** The part of preparation that builds the upload once the subject is known. */
  method PrepareFor(items: seq<Item>, snapshot: Snapshot, vocabulary: Vocabulary, subject: Named)
    returns (r: Result<Upload>)
    requires snapshot.observedAt != 0 && LimitsOk(snapshot) && items != [] && Ordered(items) && OneCategory(items)
    requires |items| <= snapshot.limits.free + snapshot.limits.paid
    requires Resolves(snapshot.subjects, Key(items[0].category), subject)
    ensures r.Ok? <==> Preparable(items, snapshot, vocabulary)
    ensures r.Ok? ==> UploadFor(r.value, items, snapshot, vocabulary)
  {
    assert forall e :: Resolves(snapshot.subjects, Key(items[0].category), e) ==> e.id == subject.id;
    var schema := BuildSchema(subject.id, snapshot.specs);
    if schema.Refused? {
      return Refused(schema.code);
    }
    ServesIff(items, snapshot, vocabulary, subject.id, schema.value);
    var variants := BuildVariants(items, schema.value, vocabulary, snapshot);
    if variants.Refused? {
      return Refused(variants.code);
    }
    UploadOkIff(subject.id, variants.value, items, schema.value, vocabulary, snapshot);
    var valid := ValidateUpload(subject.id, variants.value);
    if !valid {
      return Refused(CharacteristicInvalid);
    }
    r := Ok(Upload(subject.id, variants.value));
    assert SchemaOf(schema.value, snapshot.specs, subject.id) && BuiltFrom(variants.value, items, schema.value, vocabulary, snapshot);
  }

  /** Encodes the upload and seals it with its digests. */
  method Propose(upload: Upload, items: seq<Item>, snapshot: Snapshot, ghost vocabulary: Vocabulary, codec: Codec) returns (r: Result<Proposal>)
    requires UploadFor(upload, items, snapshot, vocabulary)
    ensures r.Ok? <==> Encodable(upload, items, snapshot, codec)
    ensures r.Ok? ==> r.value.request == [upload] && PreparedOk(r.value, items, snapshot, vocabulary, codec)
  {
    var encoded := codec.request([upload]);
    if encoded.None? {
      return Refused(EncodingFailed);
    }
    if |encoded.value| > MaxRequestBytes {
      return Refused(PayloadTooLarge);
    }
    var semantic, metadata := codec.semantic(items), codec.metadata(snapshot);
    if semantic.None? || metadata.None? {
      return Refused(EncodingFailed);
    }
    var root := codec.root(semantic.value, metadata.value, encoded.value);
    r := Ok(Proposal(upload.subject, [upload], encoded.value, snapshot, semantic.value, metadata.value, root,
                     snapshot.limits, snapshot.observedAt));
  }

  /** The check a proposal passes before it is used, in the order of its refusals. */
  method ValidateIntegrity(p: Proposal, codec: Codec) returns (ok: bool)
    ensures ok <==> Intact(p, codec)
  {
    if p.subject <= 0 || |p.request| != 1 || p.request[0].variants == [] || p.request[0].subject != p.subject || p.encoded == [] ||
       p.semanticDigest == 0 || p.metadataDigest == 0 || p.root == 0 || p.limitsObservedAt == 0 || p.snapshot.observedAt == 0 ||
       p.limitsObservedAt != p.snapshot.observedAt || p.limits != p.snapshot.limits {
      return false;
    }
    var encoded := codec.request(p.request);
    if encoded.None? || encoded.value != p.encoded {
      return false;
    }
    var metadata := codec.metadata(p.snapshot);
    if metadata.None? || metadata.value != p.metadataDigest {
      return false;
    }
    ok := codec.root(p.semanticDigest, p.metadataDigest, p.encoded) == p.root;
  }
}
