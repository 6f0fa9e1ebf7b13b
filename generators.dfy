/** The generator registry: for each category (METHOD, PATH, HEADER, QUERY,
    BODY, STATUS) a map from path key to the generator that produces a fresh
    value there. The registry is a mutable object; each of its operations is
    specified by a pure function over the table it holds. */
module Generators {
  import opened Wrappers
  import opened Text
  import opened Paths
  import opened Json
  import opened JsonQuery

  datatype Category = METHOD | PATH | HEADER | QUERY | BODY | STATUS

  /** METHOD, PATH and STATUS hold a single generator, stored under key "". */
  predicate IsSingleValued(c: Category) {
    c == METHOD || c == PATH || c == STATUS
  }

  datatype Generator =
    | RandomStringGenerator(size: int)
    | RandomIntGenerator(min: int, max: int)
    | RandomDecimalGenerator(digits: int)
    | RandomHexadecimalGenerator(digits: int)
    | RandomBooleanGenerator
    | UuidGenerator
    | DateGenerator(format: string)
    | TimeGenerator(format: string)
    | DateTimeGenerator(format: string)

  type GeneratorTable = map<Category, map<string, Generator>>

  function CategoryMap(t: GeneratorTable, c: Category): map<string, Generator> {
    if c in t then t[c] else map[]
  }

  /** `addGenerator(category, key, generator)`. */
  function WithGenerator(t: GeneratorTable, c: Category, key: string, g: Generator): (r: GeneratorTable)
    ensures r.Keys == t.Keys + {c}
    ensures r[c] == CategoryMap(t, c)[key := g]
    ensures forall c' :: c' in t && c' != c ==> r[c'] == t[c']
  {
    t[c := CategoryMap(t, c)[key := g]]
  }

  /** Last writer wins: a second generator at the same key replaces the first. */
  lemma LastWriterWins(t: GeneratorTable, c: Category, key: string, g1: Generator, g2: Generator)
    ensures WithGenerator(WithGenerator(t, c, key, g1), c, key, g2) == WithGenerator(t, c, key, g2)
  {
    assert CategoryMap(t, c)[key := g1][key := g2] == CategoryMap(t, c)[key := g2];
  }

  /** Categories of `other` that hold at least one generator. */
  function NonEmptyCategories(other: GeneratorTable): set<Category> {
    set c | c in other && other[c] != map[]
  }

  /** `addGenerators(other, prefix)`: every `(c, k -> g)` of `other` added as `(c, prefix + k -> g)`. */
  function Merged(t: GeneratorTable, other: GeneratorTable, prefix: string): GeneratorTable {
    map c | c in t.Keys + NonEmptyCategories(other) :: CategoryMap(t, c) + PrefixKeys(CategoryMap(other, c), prefix)
  }

  /** What a merge holds: every generator of `other` under its prefixed key, every
      other generator of the receiver untouched, nothing else, and no category
      that `other` leaves empty. */
  lemma MergedContents(t: GeneratorTable, other: GeneratorTable, prefix: string)
    ensures Merged(t, other, prefix).Keys == t.Keys + NonEmptyCategories(other)
    ensures forall c, k :: c in other && k in other[c] ==>
              c in Merged(t, other, prefix) && prefix + k in Merged(t, other, prefix)[c]
              && Merged(t, other, prefix)[c][prefix + k] == other[c][k]
    ensures forall c, k :: c in t && k in t[c] && !(|prefix| <= |k| && k[..|prefix|] == prefix && k[|prefix|..] in CategoryMap(other, c))
              ==> k in Merged(t, other, prefix)[c] && Merged(t, other, prefix)[c][k] == t[c][k]
    ensures forall c, k :: c in Merged(t, other, prefix) && k in Merged(t, other, prefix)[c] ==>
              (c in t && k in t[c]) || (|prefix| <= |k| && k[..|prefix|] == prefix && k[|prefix|..] in CategoryMap(other, c))
  {
    var r := Merged(t, other, prefix);
    forall c | c in r
      ensures forall k :: k in CategoryMap(other, c) ==> prefix + k in r[c] && r[c][prefix + k] == other[c][k]
      ensures forall k :: k in CategoryMap(t, c) && !(|prefix| <= |k| && k[..|prefix|] == prefix && k[|prefix|..] in CategoryMap(other, c))
                ==> k in r[c] && r[c][k] == t[c][k]
      ensures forall k :: k in r[c] ==> (c in t && k in t[c]) || (|prefix| <= |k| && k[..|prefix|] == prefix && k[|prefix|..] in CategoryMap(other, c))
    {
      PrefixKeysContents(CategoryMap(other, c), prefix);
    }
    forall c | c in other && other[c] != map[]
      ensures c in r
    {
      assert c in NonEmptyCategories(other);
    }
  }

  /** Merging a category that holds no generator does not create it. */
  lemma MergeSkipsEmptyCategory(t: GeneratorTable, c: Category, prefix: string)
    requires c !in t
    ensures c !in Merged(t, map[c := map[]], prefix)
  {
  }

  /** `addCategory(c)`. */
  function WithCategory(t: GeneratorTable, c: Category): (r: GeneratorTable)
    ensures c in r && r.Keys == t.Keys + {c}
    ensures forall c' :: c' in t ==> r[c'] == t[c']
    ensures c !in t ==> r[c] == map[]
  {
    if c in t then t else t[c := map[]]
  }

  /** `addCategory` is idempotent. */
  lemma AddCategoryIdempotent(t: GeneratorTable, c: Category)
    ensures WithCategory(WithCategory(t, c), c) == WithCategory(t, c)
  {
  }

  /** `applyRootPrefix(p)`: every key of every category prefixed by `p`. */
  function RootPrefixed(t: GeneratorTable, p: string): GeneratorTable {
    map c | c in t :: PrefixKeys(t[c], p)
  }

  /** Prefixing keeps the categories and every generator, under its key with
      `p` in front, and every key starts with `p`. */
  lemma RootPrefixedContents(t: GeneratorTable, p: string)
    ensures RootPrefixed(t, p).Keys == t.Keys
    ensures forall c, k :: c in t && k in t[c] ==> p + k in RootPrefixed(t, p)[c] && RootPrefixed(t, p)[c][p + k] == t[c][k]
    ensures forall c, k :: c in RootPrefixed(t, p) && k in RootPrefixed(t, p)[c] ==>
              |p| <= |k| && k[..|p|] == p && k[|p|..] in t[c]
  {
    var r := RootPrefixed(t, p);
    forall c | c in t
      ensures forall k :: k in t[c] ==> p + k in r[c] && r[c][p + k] == t[c][k]
      ensures forall k :: k in r[c] ==> |p| <= |k| && k[..|p|] == p && k[|p|..] in t[c]
    {
      PrefixKeysContents(t[c], p);
    }
  }

  /** Pact specification versions, in order. */
  datatype PactSpecVersion = V1 | V1_1 | V2 | V3 | V4 {
    function Ordinal(): nat {
      match this
      case V1 => 0
      case V1_1 => 1
      case V2 => 2
      case V3 => 3
      case V4 => 4
    }
  }

  function CategoryName(c: Category): string {
    match c
    case METHOD => "method"
    case PATH => "path"
    case HEADER => "header"
    case QUERY => "query"
    case BODY => "body"
    case STATUS => "status"
  }

  /** `Category.valueOf(name)`: None where the JVM throws IllegalArgumentException. */
  function CategoryOf(name: string): Option<Category> {
    if name == "METHOD" then Some(METHOD)
    else if name == "PATH" then Some(PATH)
    else if name == "HEADER" then Some(HEADER)
    else if name == "QUERY" then Some(QUERY)
    else if name == "BODY" then Some(BODY)
    else if name == "STATUS" then Some(STATUS)
    else None
  }

  /** The names `toMap` writes are read back by `fromMap` to the same category. */
  lemma CategoryNameRoundTrip(c: Category)
    ensures CategoryOf(ToUpperAscii(CategoryName(c))) == Some(c)
  {
    var n := CategoryName(c);
    var u := ToUpperAscii(n);
    match c
    case METHOD => assert u == "METHOD";
    case PATH => assert u == "PATH";
    case HEADER => assert u == "HEADER";
    case QUERY => assert u == "QUERY";
    case BODY => assert u == "BODY";
    case STATUS => assert u == "STATUS";
  }

  lemma CategoryNamesDistinct()
    ensures forall a: Category, b: Category :: CategoryName(a) == CategoryName(b) ==> a == b
  {
    forall a: Category, b: Category | CategoryName(a) == CategoryName(b)
      ensures a == b
    {
      CategoryNameRoundTrip(a);
      CategoryNameRoundTrip(b);
    }
  }

  /** A loosely typed configuration value, as a JSON parser produces it. */
  datatype Raw = RawObject(entries: seq<(string, Raw)>) | RawScalar(text: string)

  predicate HasKey(entries: seq<(string, Raw)>, key: string) {
    exists i :: 0 <= i < |entries| && entries[i].0 == key
  }

  /** What `toMap` writes for one category. */
  datatype Exported = Single(config: Raw) | Keyed(configs: map<string, Raw>)

  /** Failures the registry's operations throw: `InvalidPactException`, a
      `NullPointerException`, or the JSON parser's exception on a malformed body. */
  datatype GeneratorsError = InvalidPact(message: string) | NullPointer | InvalidJson

  /** The inner loop of `fromMap` for a keyed category: each value that is a map
      with a "type" entry and that `lookup` recognises is added under its key. */
  function AddConfigs(t: GeneratorTable, c: Category, configs: seq<(string, Raw)>,
                      lookup: seq<(string, Raw)> -> Option<Generator>): GeneratorTable
    decreases |configs|
  {
    if configs == [] then t
    else
      var t' := AddConfigs(t, c, configs[..|configs| - 1], lookup);
      var (key, value) := configs[|configs| - 1];
      if value.RawObject? && HasKey(value.entries, "type") then
        match lookup(value.entries)
        case Some(g) => WithGenerator(t', c, key, g)
        case None => t'
      else t'
  }

  /** One entry of the map `fromMap` reads. */
  function AddEntry(t: GeneratorTable, entry: (string, seq<(string, Raw)>),
                    lookup: seq<(string, Raw)> -> Option<Generator>): GeneratorTable
  {
    match CategoryOf(ToUpperAscii(entry.0))
    case None => t
    case Some(c) =>
      if IsSingleValued(c) then
        if HasKey(entry.1, "type") then
          match lookup(entry.1)
          case Some(g) => WithGenerator(t, c, "", g)
          case None => t
        else t
      else AddConfigs(t, c, entry.1, lookup)
  }

  /** `fromMap` over the entries read so far. */
  function AddEntries(t: GeneratorTable, entries: seq<(string, seq<(string, Raw)>)>,
                      lookup: seq<(string, Raw)> -> Option<Generator>): GeneratorTable
    decreases |entries|
  {
    if entries == [] then t
    else AddEntry(AddEntries(t, entries[..|entries| - 1], lookup), entries[|entries| - 1], lookup)
  }

  /** Single-valued categories keep a single key "" however `fromMap` fills them. */
  predicate SingleValuedUnderEmptyKey(t: GeneratorTable) {
    forall c, k :: c in t && IsSingleValued(c) && k in t[c] ==> k == ""
  }

  lemma {:induction false} AddConfigsKeepsCategories(t: GeneratorTable, c: Category, configs: seq<(string, Raw)>,
                                                     lookup: seq<(string, Raw)> -> Option<Generator>)
    ensures t.Keys <= AddConfigs(t, c, configs, lookup).Keys <= t.Keys + {c}
    ensures forall c' :: c' in t && c' != c ==> AddConfigs(t, c, configs, lookup)[c'] == t[c']
    decreases |configs|
  {
    if configs != [] {
      AddConfigsKeepsCategories(t, c, configs[..|configs| - 1], lookup);
    }
  }

  lemma {:induction false} FromMapKeepsSingleValuedKeys(t: GeneratorTable, entries: seq<(string, seq<(string, Raw)>)>,
                                                        lookup: seq<(string, Raw)> -> Option<Generator>)
    requires SingleValuedUnderEmptyKey(t)
    ensures SingleValuedUnderEmptyKey(AddEntries(t, entries, lookup))
    decreases |entries|
  {
    if entries != [] {
      var before := AddEntries(t, entries[..|entries| - 1], lookup);
      FromMapKeepsSingleValuedKeys(t, entries[..|entries| - 1], lookup);
      var e := entries[|entries| - 1];
      match CategoryOf(ToUpperAscii(e.0))
      case None =>
      case Some(c) =>
        if !IsSingleValued(c) {
          AddConfigsKeepsCategories(before, c, e.1, lookup);
        }
    }
  }

  /** Every category `fromMap` creates is named, up to case, by some entry. */
  lemma {:induction false} FromMapCategoriesNamed(t: GeneratorTable, entries: seq<(string, seq<(string, Raw)>)>,
                                                  lookup: seq<(string, Raw)> -> Option<Generator>)
    ensures forall c :: c in AddEntries(t, entries, lookup) ==>
              c in t || exists i :: 0 <= i < |entries| && CategoryOf(ToUpperAscii(entries[i].0)) == Some(c)
    decreases |entries|
  {
    if entries != [] {
      var init := entries[..|entries| - 1];
      var before := AddEntries(t, init, lookup);
      FromMapCategoriesNamed(t, init, lookup);
      var e := entries[|entries| - 1];
      forall c | c in AddEntries(t, entries, lookup)
        ensures c in t || exists i :: 0 <= i < |entries| && CategoryOf(ToUpperAscii(entries[i].0)) == Some(c)
      {
        match CategoryOf(ToUpperAscii(e.0))
        case None =>
          assert c in before;
        case Some(c0) =>
          if !IsSingleValued(c0) {
            AddConfigsKeepsCategories(before, c0, e.1, lookup);
          }
          if c != c0 {
            assert c in before;
            if c !in t {
              var i :| 0 <= i < |init| && CategoryOf(ToUpperAscii(init[i].0)) == Some(c);
              assert entries[i] == init[i];
            }
          } else {
            assert CategoryOf(ToUpperAscii(entries[|entries| - 1].0)) == Some(c);
          }
      }
    }
  }

  /** `OptionalBody`: a body that is missing, empty, JSON null, or present with its text. */
  datatype OptionalBody = Missing | Empty | NullBody | Present(value: string)

  /** `OptionalBody.body(text)` for a text that is not null: an empty text is the
      EMPTY body, and any other text a present body holding it. */
  function BodyOf(text: string): (b: OptionalBody)
    ensures b == Empty <==> text == ""
    ensures b.Present? <==> text != ""
    ensures b.Present? ==> b.value == text
  {
    if text == "" then Empty else Present(text)
  }

  /** The answers of `ContentType.isJson()` and `ContentType.isXml()`. */
  datatype ContentType = ContentType(isJson: bool, isXml: bool)

  /** The BODY generators applied to a parsed body one key after the other, in
      `order`; `None` when one of the walks throws. */
  function BodyGenerated(body: Json, order: seq<string>, gens: map<string, Generator>,
                         parsePath: string -> seq<PathToken>, generate: (Generator, Json) -> Json): Option<Json>
    requires forall i :: 0 <= i < |order| ==> order[i] in gens
    decreases |order|
  {
    if order == [] then Some(body)
    else match KeyApplied(body, parsePath(order[0]), gens[order[0]], generate)
      case None => None
      case Some(next) => BodyGenerated(next, order[1..], gens, parsePath, generate)
  }

  /** `applyBodyGenerators(body, contentType)`, visiting the BODY keys in `order`.
      Only a present JSON body is processed: it is parsed, every BODY generator is
      applied, and it is rendered again. An XML body finds no registered handler and
      comes back as it was; so does every other body. */
  function BodyWithGenerators(body: OptionalBody, contentType: ContentType, order: seq<string>,
                              gens: map<string, Generator>, parse: string -> Option<Json>, render: Json -> string,
                              parsePath: string -> seq<PathToken>, generate: (Generator, Json) -> Json)
    : Result<OptionalBody, GeneratorsError>
    requires forall i :: 0 <= i < |order| ==> order[i] in gens
  {
    if body.Present? && contentType.isJson then
      match parse(body.value)
      case None => Failure(InvalidJson)
      case Some(json) =>
        match BodyGenerated(json, order, gens, parsePath, generate)
        case None => Failure(NullPointer)
        case Some(result) => Success(BodyOf(render(result)))
    else Success(body)
  }

  /** `order` lists every key of `m` exactly once. */
  predicate EnumeratesKeys(order: seq<string>, m: map<string, Generator>) {
    (forall i :: 0 <= i < |order| ==> order[i] in m)
    && (forall k :: k in m ==> k in order)
    && (forall i, j :: 0 <= i < j < |order| ==> order[i] != order[j])
  }

  /** Missing, empty and null bodies come back unchanged, whatever the content type. */
  lemma NonPresentBodyUnchanged(body: OptionalBody, contentType: ContentType, order: seq<string>,
                                gens: map<string, Generator>, parse: string -> Option<Json>, render: Json -> string,
                                parsePath: string -> seq<PathToken>, generate: (Generator, Json) -> Json)
    requires forall i :: 0 <= i < |order| ==> order[i] in gens
    requires !body.Present?
    ensures BodyWithGenerators(body, contentType, order, gens, parse, render, parsePath, generate) == Success(body)
  {
  }

  /** A present body that is not JSON (XML included) comes back unchanged. */
  lemma NonJsonBodyUnchanged(body: OptionalBody, contentType: ContentType, order: seq<string>,
                             gens: map<string, Generator>, parse: string -> Option<Json>, render: Json -> string,
                             parsePath: string -> seq<PathToken>, generate: (Generator, Json) -> Json)
    requires forall i :: 0 <= i < |order| ==> order[i] in gens
    requires !contentType.isJson
    ensures BodyWithGenerators(body, contentType, order, gens, parse, render, parsePath, generate) == Success(body)
  {
  }

  /** Without BODY generators a JSON body is only parsed and rendered again. */
  lemma NoBodyGeneratorsRerenders(text: string, contentType: ContentType, parse: string -> Option<Json>,
                                  render: Json -> string, parsePath: string -> seq<PathToken>,
                                  generate: (Generator, Json) -> Json)
    requires contentType.isJson && parse(text).Some?
    ensures BodyWithGenerators(Present(text), contentType, [], map[], parse, render, parsePath, generate)
            == Success(BodyOf(render(parse(text).value)))
  {
  }

  /** A single BODY generator at the root path replaces the whole body. */
  lemma {:induction false} RootGeneratorReplacesBody(body: Json, key: string, g: Generator,
                                                     parsePath: string -> seq<PathToken>,
                                                     generate: (Generator, Json) -> Json)
    requires parsePath(key) == [Root]
    ensures BodyGenerated(body, [key], map[key := g], parsePath, generate) == Some(generate(g, body))
  {
    ApplyKeyAtRoot(body, g, generate);
    assert [key][1..] == [];
  }

  /** The registry object. */
  class Generators {
    var categories: GeneratorTable

    constructor ()
      ensures categories == map[]
    {
      categories := map[];
    }

    /** `addGenerator(category, key, generator)`; a null key is stored as "". */
    method AddGenerator(category: Category, key: Option<string>, generator: Generator)
      modifies this
      ensures categories == WithGenerator(old(categories), category, key.GetOr(""), generator)
    {
      var k := key.GetOr("");
      if category in categories {
        categories := categories[category := categories[category][k := generator]];
      } else {
        categories := categories[category := map[k := generator]];
      }
    }

    /** One entry of the map `fromMap` reads: an unknown category name is
        skipped, a single-valued category takes the entry's own configuration,
        a keyed one each nested configuration under its key. */
    method ReadEntry(name: string, config: seq<(string, Raw)>, lookup: seq<(string, Raw)> -> Option<Generator>)
      modifies this
      ensures categories == AddEntry(old(categories), (name, config), lookup)
    {
      var category := CategoryOf(ToUpperAscii(name));
      if category.Some? {
        var c := category.value;
        if IsSingleValued(c) {
          if HasKey(config, "type") {
            var generator := lookup(config);
            if generator.Some? {
              AddGenerator(c, None, generator.value);
            }
          }
        } else {
          ghost var start := categories;
          var j := 0;
          while j < |config|
            invariant 0 <= j <= |config|
            invariant categories == AddConfigs(start, c, config[..j], lookup)
          {
            var key: string, value: Raw := config[j].0, config[j].1;
            if value.RawObject? && HasKey(value.entries, "type") {
              var generator := lookup(value.entries);
              if generator.Some? {
                AddGenerator(c, Some(key), generator.value);
              }
            }
            assert config[..j + 1][..j] == config[..j];
            j := j + 1;
          }
          assert config[..j] == config;
        }
      }
    }

    /** `addGenerators(other, keyPrefix)`: a loop over the categories of `other`
        and, inside it, over the keys of each. */
    method AddGenerators(other: GeneratorTable, keyPrefix: string)
      modifies this
      ensures categories == Merged(old(categories), other, keyPrefix)
    {
      ghost var start := categories;
      var pending := other.Keys;
      ghost var done: GeneratorTable := map[];
      MergedNothing(start, keyPrefix);
      while pending != {}
        invariant pending == other.Keys - done.Keys
        invariant done.Keys <= other.Keys
        invariant forall c :: c in done ==> done[c] == other[c]
        invariant categories == Merged(start, done, keyPrefix)
        decreases pending
      {
        var c :| c in pending;
        AddCategoryGenerators(c, other[c], keyPrefix);
        MergedCompose(start, done, c, other[c], keyPrefix);
        done := done[c := other[c]];
        pending := pending - {c};
      }
      assert done.Keys == other.Keys by {
        forall c | c in other ensures c in done { assert c !in pending; }
      }
      assert done == other;
    }

    /** The inner loop of `addGenerators`: the generators of one category, each
        added under its prefixed key. */
    method AddCategoryGenerators(c: Category, m: map<string, Generator>, keyPrefix: string)
      modifies this
      ensures categories == MergedCategory(old(categories), c, m, keyPrefix)
    {
      ghost var base := categories;
      var keys := m.Keys;
      ghost var part: map<string, Generator> := map[];
      while keys != {}
        invariant keys == m.Keys - part.Keys
        invariant part.Keys <= m.Keys
        invariant forall k :: k in part ==> part[k] == m[k]
        invariant categories == MergedCategory(base, c, part, keyPrefix)
        decreases keys
      {
        var k :| k in keys;
        MergedCategoryStep(base, c, part, k, m[k], keyPrefix);
        AddGenerator(c, Some(keyPrefix + k), m[k]);
        part := part[k := m[k]];
        keys := keys - {k};
      }
      assert part.Keys == m.Keys by {
        forall k | k in m ensures k in part { assert k !in keys; }
      }
      assert part == m;
    }

    /** `addCategory(category)`: creates an empty category only when it is missing. */
    method AddCategory(category: Category)
      modifies this
      ensures categories == WithCategory(old(categories), category)
    {
      if category !in categories {
        categories := categories[category := map[]];
      }
    }

    /** `applyRootPrefix(prefix)`: a loop re-keying each category in turn. */
    method ApplyRootPrefix(prefix: string)
      modifies this
      ensures categories == RootPrefixed(old(categories), prefix)
    {
      ghost var start := categories;
      var pending := categories.Keys;
      while pending != {}
        invariant pending <= start.Keys && categories.Keys == start.Keys
        invariant forall c :: c in start && c !in pending ==> categories[c] == PrefixKeys(start[c], prefix)
        invariant forall c :: c in pending ==> categories[c] == start[c]
        decreases pending
      {
        var c :| c in pending;
        categories := categories[c := PrefixKeys(categories[c], prefix)];
        pending := pending - {c};
      }
    }

    /** `applyBodyGenerators(body, contentType)` with the JSON handler's
        `processBody`: the BODY keys are visited in the map's iteration order,
        which the model leaves open and reports as `order`. */
    method ApplyBodyGenerators(body: OptionalBody, contentType: ContentType, parse: string -> Option<Json>,
                               render: Json -> string, parsePath: string -> seq<PathToken>,
                               generate: (Generator, Json) -> Json)
      returns (r: Result<OptionalBody, GeneratorsError>, ghost order: seq<string>)
      ensures EnumeratesKeys(order, CategoryMap(categories, BODY))
      ensures r == BodyWithGenerators(body, contentType, order, CategoryMap(categories, BODY), parse, render, parsePath, generate)
    {
      var gens := CategoryMap(categories, BODY);
      var keys := KeysInSomeOrder(gens);
      order := keys;
      if !(body.Present? && contentType.isJson) {
        r := Success(body);
        return;
      }
      var parsed := parse(body.value);
      if parsed.None? {
        r := Failure(InvalidJson);
        return;
      }
      var json := parsed.value;
      var i := 0;
      while i < |keys|
        invariant 0 <= i <= |keys|
        invariant BodyGenerated(json, keys[i..], gens, parsePath, generate)
                  == BodyGenerated(parsed.value, keys, gens, parsePath, generate)
      {
        assert keys[i..][1..] == keys[i + 1..];
        var next := ApplyKey(json, parsePath(keys[i]), gens[keys[i]], generate);
        if next.None? {
          r := Failure(NullPointer);
          return;
        }
        json := next.value;
        i := i + 1;
      }
      r := Success(BodyOf(render(json)));
    }

    /** `isEmpty()`: no category at all, even an empty one. */
    function IsEmpty(): (r: bool)
      reads this
      ensures r <==> categories.Keys == {}
    {
      categories == map[]
    }

    function IsNotEmpty(): (r: bool)
      reads this
      ensures r <==> !IsEmpty()
    {
      categories != map[]
    }

    /** `toMap(version)`, with `Generator.toMap` given as `genToMap`. */
    function ToMap(version: PactSpecVersion, genToMap: Generator -> Raw): (r: Result<map<string, Exported>, GeneratorsError>)
      reads this
      ensures version.Ordinal() < V3.Ordinal() ==>
                r == Failure(InvalidPact("Generators are only supported with pact specification version 3+"))
      ensures r.Success? <==> version.Ordinal() >= V3.Ordinal()
                               && forall c :: c in categories && IsSingleValued(c) ==> "" in categories[c]
      ensures r.Success? ==> r.value.Keys == set c | c in categories :: CategoryName(c)
      ensures r.Success? ==> forall c :: c in categories && IsSingleValued(c) ==>
                r.value[CategoryName(c)] == Single(genToMap(categories[c][""]))
      ensures r.Success? ==> forall c :: c in categories && !IsSingleValued(c) ==>
                r.value[CategoryName(c)] == Keyed(map k | k in categories[c] :: genToMap(categories[c][k]))
    {
      if version.Ordinal() < V3.Ordinal() then
        Failure(InvalidPact("Generators are only supported with pact specification version 3+"))
      else if !SingleValuedComplete(categories) then
        Failure(NullPointer)
      else
        Success(ExportTable(categories, genToMap))
    }
  }

  /** The keys of a map, each once, in an order the model leaves open. */
  method KeysInSomeOrder(m: map<string, Generator>) returns (order: seq<string>)
    ensures EnumeratesKeys(order, m)
  {
    var pending := m.Keys;
    order := [];
    while pending != {}
      invariant pending <= m.Keys
      invariant forall i :: 0 <= i < |order| ==> order[i] in m && order[i] !in pending
      invariant forall k :: k in m ==> k in pending || k in order
      invariant forall i, j :: 0 <= i < j < |order| ==> order[i] != order[j]
      decreases pending
    {
      var k :| k in pending;
      order := order + [k];
      pending := pending - {k};
    }
  }

  /** Every single-valued category holds its generator under the empty key. */
  predicate SingleValuedComplete(t: GeneratorTable) {
    forall c :: c in t && IsSingleValued(c) ==> "" in t[c]
  }

  /** The exported form of every category, under its lower-case name. */
  function ExportTable(t: GeneratorTable, genToMap: Generator -> Raw): (r: map<string, Exported>)
    requires SingleValuedComplete(t)
    ensures r.Keys == set c | c in t :: CategoryName(c)
    ensures forall c :: c in t ==> r[CategoryName(c)] == Export(c, t[c], genToMap)
  {
    CategoryNamesDistinct();
    map c | c in t :: CategoryName(c) := Export(c, t[c], genToMap)
  }

  function Export(c: Category, m: map<string, Generator>, genToMap: Generator -> Raw): Exported
    requires IsSingleValued(c) ==> "" in m
  {
    if IsSingleValued(c) then Single(genToMap(m[""]))
    else Keyed(map k | k in m :: genToMap(m[k]))
  }

  lemma MergedNothing(t: GeneratorTable, prefix: string)
    ensures Merged(t, map[], prefix) == t
  {
    assert NonEmptyCategories(map[]) == {};
    forall c | c in t
      ensures Merged(t, map[], prefix)[c] == t[c]
    {
      assert PrefixKeys(CategoryMap(map[], c), prefix) == map[];
    }
  }

  /** The generators `m` of category `c` of a merged table, added under prefixed keys. */
  function MergedCategory(t: GeneratorTable, c: Category, m: map<string, Generator>, prefix: string): GeneratorTable {
    if m == map[] then t else t[c := CategoryMap(t, c) + PrefixKeys(m, prefix)]
  }

  lemma PrefixKeysEmpty(m: map<string, Generator>, prefix: string)
    ensures m == map[] ==> PrefixKeys(m, prefix) == map[]
  {
    PrefixKeysContents(m, prefix);
  }

  lemma UnionUpdate(a: map<string, Generator>, b: map<string, Generator>, x: string, v: Generator)
    ensures (a + b)[x := v] == a + b[x := v]
  {
  }

  /** The category `c` after a merge of `m` into it. */
  lemma MergedCategoryAt(t: GeneratorTable, c: Category, m: map<string, Generator>, prefix: string)
    ensures CategoryMap(MergedCategory(t, c, m, prefix), c) == CategoryMap(t, c) + PrefixKeys(m, prefix)
  {
    PrefixKeysEmpty(m, prefix);
    if m == map[] {
      assert CategoryMap(t, c) + map[] == CategoryMap(t, c);
    }
  }

  /** One step of the inner loop of `addGenerators`. */
  lemma MergedCategoryStep(t: GeneratorTable, c: Category, part: map<string, Generator>, k: string, g: Generator, prefix: string)
    ensures MergedCategory(t, c, part[k := g], prefix) == WithGenerator(MergedCategory(t, c, part, prefix), c, prefix + k, g)
  {
    var a := CategoryMap(t, c);
    var b := PrefixKeys(part, prefix);
    MergedCategoryAt(t, c, part, prefix);
    PrefixKeysUpdate(part, prefix, k, g);
    assert part[k := g] != map[] by { assert k in part[k := g]; }
    UpdateThroughCategory(t, MergedCategory(t, c, part, prefix), c, a, b, prefix + k, g);
  }

  /** Adding one generator to category `c` of a table whose other categories
      are those of `t`. */
  lemma UpdateThroughCategory(t: GeneratorTable, before: GeneratorTable, c: Category,
                              a: map<string, Generator>, b: map<string, Generator>, x: string, g: Generator)
    requires a == CategoryMap(t, c)
    requires before == t || before == t[c := a + b]
    requires CategoryMap(before, c) == a + b
    ensures t[c := a + b[x := g]] == WithGenerator(before, c, x, g)
  {
    UnionUpdate(a, b, x, g);
  }

  /** Two tables with the same categories and the same category maps are equal. */
  lemma TableExtensional(a: GeneratorTable, b: GeneratorTable)
    requires a.Keys == b.Keys
    requires forall c :: CategoryMap(a, c) == CategoryMap(b, c)
    ensures a == b
  {
    forall c | c in a
      ensures a[c] == b[c]
    {
      assert CategoryMap(a, c) == CategoryMap(b, c);
    }
  }

  /** The merged map of one category. */
  lemma MergedAt(t: GeneratorTable, other: GeneratorTable, prefix: string, c: Category)
    ensures CategoryMap(Merged(t, other, prefix), c) == CategoryMap(t, c) + PrefixKeys(CategoryMap(other, c), prefix)
  {
    if c !in t && c !in NonEmptyCategories(other) {
      assert CategoryMap(other, c) == map[];
      PrefixKeysEmpty(CategoryMap(other, c), prefix);
    }
  }

  lemma MergedComposeAt(t: GeneratorTable, done: GeneratorTable, c: Category, m: map<string, Generator>, prefix: string, c': Category)
    requires c !in done
    ensures CategoryMap(MergedCategory(Merged(t, done, prefix), c, m, prefix), c') == CategoryMap(Merged(t, done[c := m], prefix), c')
  {
    if c' == c {
      MergedComposeSame(t, done, c, m, prefix);
    } else {
      MergedComposeOther(t, done, c, m, prefix, c');
    }
  }

  lemma MergedComposeSame(t: GeneratorTable, done: GeneratorTable, c: Category, m: map<string, Generator>, prefix: string)
    requires c !in done
    ensures CategoryMap(MergedCategory(Merged(t, done, prefix), c, m, prefix), c) == CategoryMap(t, c) + PrefixKeys(m, prefix)
    ensures CategoryMap(Merged(t, done[c := m], prefix), c) == CategoryMap(t, c) + PrefixKeys(m, prefix)
  {
    var merged := Merged(t, done, prefix);
    MergedAt(t, done, prefix, c);
    MergedAt(t, done[c := m], prefix, c);
    PrefixKeysEmpty(CategoryMap(done, c), prefix);
    PrefixKeysEmpty(m, prefix);
    assert CategoryMap(merged, c) == CategoryMap(t, c);
    assert CategoryMap(done[c := m], c) == m;
  }

  lemma MergedComposeOther(t: GeneratorTable, done: GeneratorTable, c: Category, m: map<string, Generator>, prefix: string, c': Category)
    requires c' != c
    ensures CategoryMap(MergedCategory(Merged(t, done, prefix), c, m, prefix), c') == CategoryMap(Merged(t, done, prefix), c')
    ensures CategoryMap(Merged(t, done[c := m], prefix), c') == CategoryMap(Merged(t, done, prefix), c')
  {
    MergedAt(t, done, prefix, c');
    MergedAt(t, done[c := m], prefix, c');
    assert CategoryMap(done[c := m], c') == CategoryMap(done, c');
  }

  lemma MergedComposeKeys(t: GeneratorTable, done: GeneratorTable, c: Category, m: map<string, Generator>, prefix: string)
    requires c !in done
    ensures MergedCategory(Merged(t, done, prefix), c, m, prefix).Keys == Merged(t, done[c := m], prefix).Keys
  {
    assert NonEmptyCategories(done[c := m]) == NonEmptyCategories(done) + (if m == map[] then {} else {c});
  }

  /** Merging categories one at a time is merging them together. */
  lemma MergedCompose(t: GeneratorTable, done: GeneratorTable, c: Category, m: map<string, Generator>, prefix: string)
    requires c !in done
    ensures MergedCategory(Merged(t, done, prefix), c, m, prefix) == Merged(t, done[c := m], prefix)
  {
    var lhs := MergedCategory(Merged(t, done, prefix), c, m, prefix);
    var rhs := Merged(t, done[c := m], prefix);
    MergedComposeKeys(t, done, c, m, prefix);
    forall c' | true
      ensures CategoryMap(lhs, c') == CategoryMap(rhs, c')
    {
      MergedComposeAt(t, done, c, m, prefix, c');
    }
    TableExtensional(lhs, rhs);
  }

  /** `fromMap(map)`: a fresh registry filled from a parsed configuration; a null map gives an empty one. */
  method FromMap(input: Option<seq<(string, seq<(string, Raw)>)>>,
                 lookup: seq<(string, Raw)> -> Option<Generator>) returns (g: Generators)
    ensures fresh(g)
    ensures g.categories == if input.None? then map[] else AddEntries(map[], input.value, lookup)
  {
    g := new Generators();
    if input.Some? {
      var entries := input.value;
      var i := 0;
      while i < |entries|
        invariant 0 <= i <= |entries|
        invariant g.categories == AddEntries(map[], entries[..i], lookup)
      {
        g.ReadEntry(entries[i].0, entries[i].1, lookup);
        assert entries[..i + 1][..i] == entries[..i];
        i := i + 1;
      }
      assert entries[..i] == entries;
    }
  }
}
