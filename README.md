# pact-jvm core, modelled in Dafny

This project models four parts of pact-jvm, a consumer-driven contract testing library for the JVM, and proves properties of them.

- **The JSON array builder of the consumer DSL** (`PactDslJsonArray`). Each element method appends an example value. It registers a matching rule, and sometimes a generator, under the key of that element: the builder's root path followed by `[i]`, or `[*]` for a wildcard array. Nested builders are attached to their parent with `putObject`/`putArray`. `close()` walks up to the outermost builder and prefixes every key with `$`.
- **The generator registry** (`Generators`). It maps a category (METHOD, PATH, HEADER, QUERY, BODY, STATUS) to a map from key to generator. The model covers:
  - its merge and prefix operations;
  - `fromMap`/`toMap`;
  - the JSON body walk that writes generated values (`applyBodyGenerators`, `applyKey`, `queryObjectGraph`).
- **The matcher executor** (`MatcherExecutor`). It checks an actual value against an expected one under a matching rule, or under an AND/OR group of rules, and returns the mismatches.
- **The request builder before a path is given** (`PactDslRequestWithoutPath`). It collects the method, headers, query, body, matching rules and generators.

## How the model is built

- **Mutable objects are classes.** The array builder, the generator registry and the request builder are Dafny classes whose methods update their fields. Each method's postcondition states the new state as a pure function of the old one: `AddRule`, `Put`, `Merged`, `RootPrefixed`, `Closing`, `WithPairs` and so on. The properties the library promises are proved as lemmas about those functions.
- **Loops stay loops.** The loops of the source (copying rules, merging registries, re-keying, walking the JSON, reading `fromMap`'s input, putting header pairs, closing a chain of builders, repeating a template) are `while` loops proved against those functions.
- **Values are an abstract JSON type** (`Json.Json`): null, boolean, integral number, decimal number (kept as its text), string, list, and an insertion-ordered map. Equality of two values is Java's `equals` (`Json.JsonEq`): lists compare element by element and maps as key-to-value maps, whatever the order of their members.
- **Library calls are parameters.** Regular-expression matching, date parsing and formatting, `Generex`, `Generator.generate`, `lookupGenerator`, `Generator.toMap`, `parsePath`, JSON parsing and rendering, `queryStringToMap`, `xmlToString` and the URL matcher support are not modelled. They come in as function-typed parameters.
- **Exceptions are error values.** A thrown exception becomes a `Failure`/`Fail` result carrying the source's message.
- **Overloads that only supply a default argument** are the modelled forms with that argument:
  - `eachLike()` and `arrayLike()` are `eachLike(1)`;
  - `minArrayLike(size)` is `minArrayLike(size, size)`;
  - `maxArrayLike(size)` is `maxArrayLike(size, 1)`;
  - `eachArrayLike()` and the `eachArray*` size-only forms, the `array*Like` factories without a count, `guid` (`uuid`), `realType` (`decimalType`), `string` (`stringValue`) and `number` (`numberValue`) likewise.

A second `close()` re-applies the `$` prefix; `DslArray.SecondPrefixChangesKeys` shows that the keys change.

## Model

| member | source | states |
|---|---|---|
| Text.IntRoundTrip | pact-jvm-consumer/src/main/java/au/com/dius/pact/consumer/dsl/PactDslJsonArray.java:671-677 | the element index `String.valueOf` writes reads back as the same integer, negative ones included |
| Text.IntToStringInjective | pact-jvm-consumer/src/main/java/au/com/dius/pact/consumer/dsl/PactDslJsonArray.java:671-677 | different indices are written as different texts |
| Text.ToUpperAscii | pact-jvm-model/src/main/kotlin/au/com/dius/pact/model/generators/Generators.kt:108 | `toUpperCase` on the category name: same length, each ASCII letter upper-cased, every other character kept |
| Text.ContainsInfix | pact-jvm-matchers/src/main/kotlin/au/com/dius/pact/matchers/MatcherExecutor.kt:43 | a text contains every text that occurs inside it, the property `contains` is used for |
| Json.FindField | pact-jvm-model/src/main/kotlin/au/com/dius/pact/model/generators/Generators.kt:58-61 | the index found holds a member of that name; none is found exactly when no member has the name |
| Json.JsonEqReflexive | pact-jvm-matchers/src/main/kotlin/au/com/dius/pact/matchers/MatcherExecutor.kt:92 | every value is `equals` to itself, so two identical values always match |
| Json.MemberOrderIgnored | pact-jvm-matchers/src/main/kotlin/au/com/dius/pact/matchers/MatcherExecutor.kt:92 | map equality ignores member order: `{"a": 1, "b": 2}` equals `{"b": 2, "a": 1}` though the member sequences differ |
| Paths.PrefixKeysContents | pact-jvm-model/src/main/kotlin/au/com/dius/pact/model/generators/Generators.kt:229 | `mapKeys { prefix + key }` keeps every entry under its prefixed key and creates no other key |
| Paths.PrefixKeysUpdate | pact-jvm-model/src/main/kotlin/au/com/dius/pact/model/generators/Generators.kt:157 | prefixing the keys of a map and then adding one entry gives the same map as adding the entry first and prefixing afterwards |
| Paths.ArrayIndexRoundTrip | pact-jvm-consumer/src/main/java/au/com/dius/pact/consumer/dsl/PactDslJsonArray.java:671-677 | `appendArrayIndex(offset)` reads back as `[*]` in wildcard mode and otherwise as the index `length - 1 + offset` |
| Paths.DistinctIndicesDistinctKeys | pact-jvm-consumer/src/main/java/au/com/dius/pact/consumer/dsl/PactDslJsonArray.java:671-677 | in concrete-index mode two different element positions never share a key |
| Paths.WildcardIndexConstant | pact-jvm-consumer/src/main/java/au/com/dius/pact/consumer/dsl/PactDslJsonArray.java:671-677 | in wildcard mode the key does not depend on the length or the offset |
| Paths.LookAheadMatchesAppended | pact-jvm-consumer/src/main/java/au/com/dius/pact/consumer/dsl/PactDslJsonArray.java:275-278 | offset 1 before an append names the same element as offset 0 after it |
| MatchingRules.AddRule | pact-jvm-consumer/src/main/java/au/com/dius/pact/consumer/dsl/PactDslJsonArray.java:266-270 | `addRule` appends the rule to the group at the key, or creates an AND group holding only that rule; every other key is unchanged |
| MatchingRules.AddRuleAccumulates | pact-jvm-consumer/src/main/java/au/com/dius/pact/consumer/dsl/PactDslRequestWithoutPath.java:267-271 | two rules added at a fresh key stay in call order in one AND group |
| MatchingRules.SetRules | pact-jvm-consumer/src/main/java/au/com/dius/pact/consumer/dsl/PactDslJsonArray.java:1013-1021 | `setRules` replaces the whole group at the key and leaves every other key alone |
| MatchingRules.AbsorbContents | pact-jvm-consumer/src/main/java/au/com/dius/pact/consumer/dsl/PactDslJsonArray.java:184-188 | after the child's rules are copied, each child group sits under the prefixed key and every other group of the parent is kept |
| MatchingRules.AbsorbAt | pact-jvm-consumer/src/main/java/au/com/dius/pact/consumer/dsl/PactDslJsonArray.java:184-188 | one child group is found under its prefixed key |
| MatchingRules.AbsorbAddsNothingElse | pact-jvm-consumer/src/main/java/au/com/dius/pact/consumer/dsl/PactDslJsonArray.java:184-188 | copying the child's rules adds only the child's keys with the prefix in front |
| MatchingRules.ApplyRootPrefixContents | pact-jvm-consumer/src/main/java/au/com/dius/pact/consumer/dsl/PactDslJsonArray.java:547 | `applyMatcherRootPrefix(p)` keeps every group under its key with `p` in front, and every resulting key starts with `p` |
| MatchingRules.CopyRules | pact-jvm-consumer/src/main/java/au/com/dius/pact/consumer/dsl/PactDslJsonArray.java:185-188 | the loop of `setRules` calls ends with exactly the child's rules copied under the prefix |
| Generators.WithGenerator | pact-jvm-model/src/main/kotlin/au/com/dius/pact/model/generators/Generators.kt:144-151 | `addGenerator` stores the generator under the key in the category, creating the category if missing; other categories are unchanged |
| Generators.LastWriterWins | pact-jvm-model/src/main/kotlin/au/com/dius/pact/model/generators/Generators.kt:144-151 | a second generator at the same key replaces the first |
| Generators.MergedContents | pact-jvm-model/src/main/kotlin/au/com/dius/pact/model/generators/Generators.kt:154-161 | `addGenerators(other, prefix)` adds every generator of `other` under its prefixed key, keeps every other generator, adds nothing else, and creates no category that `other` leaves empty |
| Generators.MergeSkipsEmptyCategory | pact-jvm-model/src/main/kotlin/au/com/dius/pact/model/generators/Generators.kt:155-159 | an empty category of `other` is not created in the receiver |
| Generators.MergedCategoryStep | pact-jvm-model/src/main/kotlin/au/com/dius/pact/model/generators/Generators.kt:156-158 | one more key of the inner loop is one more `addGenerator` call under the prefixed key |
| Generators.MergedCompose | pact-jvm-model/src/main/kotlin/au/com/dius/pact/model/generators/Generators.kt:155-159 | merging the categories one at a time gives the same table as merging them all together |
| Generators.WithCategory | pact-jvm-model/src/main/kotlin/au/com/dius/pact/model/generators/Generators.kt:163-168 | `addCategory` creates an empty category only when it is missing and keeps every existing one |
| Generators.AddCategoryIdempotent | pact-jvm-model/src/main/kotlin/au/com/dius/pact/model/generators/Generators.kt:163-168 | `addCategory` twice is the same as once |
| Generators.RootPrefixedContents | pact-jvm-model/src/main/kotlin/au/com/dius/pact/model/generators/Generators.kt:227-231 | `applyRootPrefix(p)` keeps the categories and every generator under its key with `p` in front, and every key starts with `p` |
| Generators.CategoryNameRoundTrip | pact-jvm-model/src/main/kotlin/au/com/dius/pact/model/generators/Generators.kt:217-220 | the lower-case name `toMap` writes is read back by `fromMap` (upper-cased, then `valueOf`) as the same category |
| Generators.CategoryNamesDistinct | pact-jvm-model/src/main/kotlin/au/com/dius/pact/model/generators/Generators.kt:217-224 | no two categories share a name in the exported map |
| Generators.AddConfigsKeepsCategories | pact-jvm-model/src/main/kotlin/au/com/dius/pact/model/generators/Generators.kt:120-132 | the keyed inner loop of `fromMap` only touches its own category |
| Generators.FromMapKeepsSingleValuedKeys | pact-jvm-model/src/main/kotlin/au/com/dius/pact/model/generators/Generators.kt:106-137 | METHOD, PATH and STATUS read by `fromMap` only ever hold the key "" |
| Generators.FromMapCategoriesNamed | pact-jvm-model/src/main/kotlin/au/com/dius/pact/model/generators/Generators.kt:106-137 | every category `fromMap` creates is named, up to case, by an entry of the input |
| Generators.NonPresentBodyUnchanged | pact-jvm-model/src/main/kotlin/au/com/dius/pact/model/generators/Generators.kt:181-183 | missing, empty and null bodies come back unchanged whatever the content type |
| Generators.NonJsonBodyUnchanged | pact-jvm-model/src/main/kotlin/au/com/dius/pact/model/generators/Generators.kt:184-200 | a body that is not JSON, XML included, comes back unchanged, because no handler is registered for XML |
| Generators.NoBodyGeneratorsRerenders | pact-jvm-model/src/main/kotlin/au/com/dius/pact/model/generators/Generators.kt:35-39 | without BODY generators a JSON body is parsed and rendered again, and nothing else happens |
| Generators.BodyOf | pact-jvm-consumer/src/main/java/au/com/dius/pact/consumer/dsl/PactDslRequestWithoutPath.java:106 | `OptionalBody.body(text)`: the EMPTY body exactly when the text is empty, and otherwise a present body holding the text |
| Generators.RootGeneratorReplacesBody | pact-jvm-model/src/main/kotlin/au/com/dius/pact/model/generators/Generators.kt:41-51 | a single BODY generator at the root path replaces the whole body with its value |
| Generators.Generators.constructor | pact-jvm-model/src/main/kotlin/au/com/dius/pact/model/generators/Generators.kt:99 | a new registry has no category |
| Generators.Generators.AddGenerator | pact-jvm-model/src/main/kotlin/au/com/dius/pact/model/generators/Generators.kt:144-151 | the new table is `WithGenerator` of the old one; a null key is stored as "" |
| Generators.Generators.ReadEntry | pact-jvm-model/src/main/kotlin/au/com/dius/pact/model/generators/Generators.kt:107-136 | one entry read by `fromMap`: an unknown name is skipped, a single-valued category takes the entry's own configuration, and a keyed one takes each nested configuration that has a "type" and is recognised |
| Generators.Generators.AddGenerators | pact-jvm-model/src/main/kotlin/au/com/dius/pact/model/generators/Generators.kt:154-161 | the nested loops leave the table equal to `Merged(old, other, prefix)`, whose contents `MergedContents` states |
| Generators.Generators.AddCategoryGenerators | pact-jvm-model/src/main/kotlin/au/com/dius/pact/model/generators/Generators.kt:156-158 | the inner loop adds each generator of one category under its prefixed key |
| Generators.Generators.AddCategory | pact-jvm-model/src/main/kotlin/au/com/dius/pact/model/generators/Generators.kt:163-168 | the new table is `WithCategory` of the old one |
| Generators.Generators.ApplyRootPrefix | pact-jvm-model/src/main/kotlin/au/com/dius/pact/model/generators/Generators.kt:227-231 | the loop over categories re-keys every category and leaves the table equal to `RootPrefixed` |
| Generators.Generators.ApplyBodyGenerators | pact-jvm-model/src/main/kotlin/au/com/dius/pact/model/generators/Generators.kt:181-201 | the result is `BodyWithGenerators` of the body with the BODY keys in an order that lists each key once; JSON parse failures and null dereferences are returned as errors |
| Generators.Generators.IsEmpty | pact-jvm-model/src/main/kotlin/au/com/dius/pact/model/generators/Generators.kt:206 | true exactly when no category exists, including empty ones |
| Generators.Generators.IsNotEmpty | pact-jvm-model/src/main/kotlin/au/com/dius/pact/model/generators/Generators.kt:211 | the negation of `isEmpty` |
| Generators.Generators.ToMap | pact-jvm-model/src/main/kotlin/au/com/dius/pact/model/generators/Generators.kt:213-225 | versions before V3 raise `InvalidPactException` with its message; a single-valued category without key "" raises a null-pointer error; otherwise every category is exported under its lower-case name, METHOD, PATH and STATUS as the "" generator's map and the others key by key |
| Generators.KeysInSomeOrder | pact-jvm-model/src/main/kotlin/au/com/dius/pact/model/generators/Generators.kt:174-176 | iterating over a category's map visits every key exactly once |
| Generators.ExportTable | pact-jvm-model/src/main/kotlin/au/com/dius/pact/model/generators/Generators.kt:217-224 | the exported map has exactly the lower-case category names as keys, each holding that category's export |
| Generators.FromMap | pact-jvm-model/src/main/kotlin/au/com/dius/pact/model/generators/Generators.kt:103-140 | a null map gives an empty registry; otherwise the table is `AddEntries` of the entries in order, about which `FromMapKeepsSingleValuedKeys` and `FromMapCategoriesNamed` hold |
| JsonQuery.Query | pact-jvm-model/src/main/kotlin/au/com/dius/pact/model/generators/Generators.kt:53-95 | soundness: every value handed to the callback lies as many levels below the start as the path has descending tokens, and is the value found at that location |
| JsonQuery.QuerySound | pact-jvm-model/src/main/kotlin/au/com/dius/pact/model/generators/Generators.kt:53-95 | every value handed to the callback is reached by the path from the start, each step selected by its token and no value on the way null |
| JsonQuery.QueryComplete | pact-jvm-model/src/main/kotlin/au/com/dius/pact/model/generators/Generators.kt:53-95 | when the walk does not throw, every value the path reaches is handed to the callback at its location |
| JsonQuery.QueryHitsExactly | pact-jvm-model/src/main/kotlin/au/com/dius/pact/model/generators/Generators.kt:53-95 | when the walk does not throw, a value is handed to the callback at a location exactly when the path reaches it there |
| JsonQuery.NullStepThrows | pact-jvm-model/src/main/kotlin/au/com/dius/pact/model/generators/Generators.kt:61-85 | a null selected by a field, index, `*` or `[*]` token is a null-pointer error: the whole walk throws |
| JsonQuery.ThenAllHits | pact-jvm-model/src/main/kotlin/au/com/dius/pact/model/generators/Generators.kt:74-76 | a run of walks one after the other completes exactly when each completes, and then holds exactly their hits |
| JsonQuery.StarIndexFansOut | pact-jvm-model/src/main/kotlin/au/com/dius/pact/model/generators/Generators.kt:81-87 | `[*]` walks the rest of the path once from every element, in index order, and throws exactly when an element is null or its walk throws |
| JsonQuery.StarFansOut | pact-jvm-model/src/main/kotlin/au/com/dius/pact/model/generators/Generators.kt:71-77 | `*` walks the rest of the path once from every member, in member order, and throws exactly when a member is null or its walk throws |
| JsonQuery.QueryFields | pact-jvm-model/src/main/kotlin/au/com/dius/pact/model/generators/Generators.kt:71-77 | the `*` fan-out over a map: every hit lies one level further down |
| JsonQuery.QueryItems | pact-jvm-model/src/main/kotlin/au/com/dius/pact/model/generators/Generators.kt:81-87 | the `[*]` fan-out over a list: every hit lies one level further down |
| JsonQuery.EmptyPathHitsStart | pact-jvm-model/src/main/kotlin/au/com/dius/pact/model/generators/Generators.kt:94 | with no token left, or only `$`, the callback gets the starting value |
| JsonQuery.MissingFieldNoHit | pact-jvm-model/src/main/kotlin/au/com/dius/pact/model/generators/Generators.kt:58-64 | a field token on a non-map, or on a map without the key, ends the walk and the callback is never invoked |
| JsonQuery.MissingIndexNoHit | pact-jvm-model/src/main/kotlin/au/com/dius/pact/model/generators/Generators.kt:65-70 | an index token past the end of a list, or on a non-list, ends the walk and the callback is never invoked |
| JsonQuery.StarIndexOncePerElement | pact-jvm-model/src/main/kotlin/au/com/dius/pact/model/generators/Generators.kt:81-87 | `[*]` at the end of a path hands over each element once, in order, at its own index |
| JsonQuery.ItemsFrom | pact-jvm-model/src/main/kotlin/au/com/dius/pact/model/generators/Generators.kt:84-86 | the element loop from index `from` on yields exactly the elements from `from` on |
| JsonQuery.SetAtThenValueAt | pact-jvm-model/src/main/kotlin/au/com/dius/pact/model/generators/Generators.kt:46-47 | writing into the parent map or list makes that location hold the generated value |
| JsonQuery.SetAtMissing | pact-jvm-model/src/main/kotlin/au/com/dius/pact/model/generators/Generators.kt:41-51 | writing where no value exists changes nothing |
| JsonQuery.ApplyKeyAtRoot | pact-jvm-model/src/main/kotlin/au/com/dius/pact/model/generators/Generators.kt:48 | a hit without a parent replaces the whole body |
| JsonQuery.ApplyKeyNoHit | pact-jvm-model/src/main/kotlin/au/com/dius/pact/model/generators/Generators.kt:58-64 | a key whose field is absent leaves the body as it was |
| JsonQuery.ApplyKeyAtField | pact-jvm-model/src/main/kotlin/au/com/dius/pact/model/generators/Generators.kt:41-51 | a key naming one existing non-null member puts the generated value at that member |
| JsonQuery.QueryObjectGraph | pact-jvm-model/src/main/kotlin/au/com/dius/pact/model/generators/Generators.kt:53-95 | the cursor loop returns exactly the hits `Query` describes |
| JsonQuery.EachField | pact-jvm-model/src/main/kotlin/au/com/dius/pact/model/generators/Generators.kt:71-77 | the loop over the members of a map returns `QueryFields` |
| JsonQuery.EachItem | pact-jvm-model/src/main/kotlin/au/com/dius/pact/model/generators/Generators.kt:81-87 | the loop over the elements of a list returns `QueryItems` |
| JsonQuery.ApplyKey | pact-jvm-model/src/main/kotlin/au/com/dius/pact/model/generators/Generators.kt:41-51 | the loop over the hits returns `KeyApplied`: every hit's location gets the generated value |
| MatcherExecutor.ValueOf | pact-jvm-matchers/src/main/kotlin/au/com/dius/pact/matchers/MatcherExecutor.kt:25-31 | null is written as `null` and a string is quoted; anything else uses its `toString` |
| MatcherExecutor.SafeToString | pact-jvm-matchers/src/main/kotlin/au/com/dius/pact/matchers/MatcherExecutor.kt:33-39 | null is the empty text and a string is its own text |
| MatcherExecutor.MatchInclude | pact-jvm-matchers/src/main/kotlin/au/com/dius/pact/matchers/MatcherExecutor.kt:41-51 | no mismatch exactly when the actual text contains the value; otherwise one mismatch with the message of the source |
| MatcherExecutor.MatchEqualityAsWritten | pact-jvm-matchers/src/main/kotlin/au/com/dius/pact/matchers/MatcherExecutor.kt:90-99 | no mismatch exactly when the two values are `equals`, both nulls included and map member order ignored; otherwise one mismatch whose message quotes the actual value twice |
| MatcherExecutor.MatchEquality | pact-jvm-matchers/src/main/kotlin/au/com/dius/pact/matchers/MatcherExecutor.kt:90-99 | the corrected matcher: no mismatch exactly when the values are `equals`; otherwise one mismatch whose message shows the expected value |
| MatcherExecutor.EqualityFixKeepsVerdict | pact-jvm-matchers/src/main/kotlin/au/com/dius/pact/matchers/MatcherExecutor.kt:97 | the corrected message changes no verdict: both matchers fail on the same values, with the same expected, actual and path |
| MatcherExecutor.EqualityMessageHidesExpected | pact-jvm-matchers/src/main/kotlin/au/com/dius/pact/matchers/MatcherExecutor.kt:97 | expecting 1 and getting 2, the source reports "Expected 2 to equal 2", which does not contain the expected value |
| MatcherExecutor.MatchRegex | pact-jvm-matchers/src/main/kotlin/au/com/dius/pact/matchers/MatcherExecutor.kt:101-114 | no mismatch exactly when the text matches the regex, or both values are lists, or both are maps |
| MatcherExecutor.MatchType | pact-jvm-matchers/src/main/kotlin/au/com/dius/pact/matchers/MatcherExecutor.kt:116-138 | no mismatch exactly when both values have the same kind; a null expected value accepts only null, with the "to be null" message |
| MatcherExecutor.MatchNumber | pact-jvm-matchers/src/main/kotlin/au/com/dius/pact/matchers/MatcherExecutor.kt:140-170 | no mismatch exactly when the expected value is not null while the actual is not null, and the actual value is a number of the requested kind; a null expected value rejects any non-null actual value |
| MatcherExecutor.MatchDateLike | pact-jvm-matchers/src/main/kotlin/au/com/dius/pact/matchers/MatcherExecutor.kt:172-209 | no mismatch exactly when the text parses with the pattern; otherwise the parser's message is appended |
| MatcherExecutor.MatchMinType | pact-jvm-matchers/src/main/kotlin/au/com/dius/pact/matchers/MatcherExecutor.kt:211-235 | a list has no mismatch exactly when it has at least `min` elements; any other value is type-matched |
| MatcherExecutor.MatchMaxType | pact-jvm-matchers/src/main/kotlin/au/com/dius/pact/matchers/MatcherExecutor.kt:237-261 | a list has no mismatch exactly when it has at most `max` elements; any other value is type-matched |
| MatcherExecutor.MatchNull | pact-jvm-matchers/src/main/kotlin/au/com/dius/pact/matchers/MatcherExecutor.kt:263-271 | no mismatch exactly when the actual value is null; the mismatch reports null as expected |
| MatcherExecutor.DoMatch | pact-jvm-matchers/src/main/kotlin/au/com/dius/pact/matchers/MatcherExecutor.kt:73-88 | every rule gives at most one mismatch |
| MatcherExecutor.UnknownRuleIsEquality | pact-jvm-matchers/src/main/kotlin/au/com/dius/pact/matchers/MatcherExecutor.kt:86 | the equality rule and any rule kind without its own branch go to `matchEquality` as written: no mismatch exactly when the values are `equals`, and otherwise the message quoting the actual value twice |
| MatcherExecutor.Results | pact-jvm-matchers/src/main/kotlin/au/com/dius/pact/matchers/MatcherExecutor.kt:58-60 | each rule of the group is applied to the same values, in order |
| MatcherExecutor.FlattenCounts | pact-jvm-matchers/src/main/kotlin/au/com/dius/pact/matchers/MatcherExecutor.kt:63 | the concatenation has one mismatch per failing rule and is empty exactly when every rule passes |
| MatcherExecutor.AndGroup | pact-jvm-matchers/src/main/kotlin/au/com/dius/pact/matchers/MatcherExecutor.kt:62-63 | an AND group gives no mismatch exactly when every rule passes, and otherwise one mismatch per failing rule |
| MatcherExecutor.OrGroup | pact-jvm-matchers/src/main/kotlin/au/com/dius/pact/matchers/MatcherExecutor.kt:64-70 | an OR group gives no mismatch exactly when it is empty or some rule passes, and otherwise one mismatch per rule |
| MatcherExecutor.OrResults | pact-jvm-matchers/src/main/kotlin/au/com/dius/pact/matchers/MatcherExecutor.kt:64-70 | the OR verdict holds for any results of at most one mismatch each |
| DslArray.Repeat | pact-jvm-consumer/src/main/java/au/com/dius/pact/consumer/dsl/PactDslJsonArray.java:190-192 | `n` copies of the value, none when `n` is not positive |
| DslArray.PutBody | pact-jvm-consumer/src/main/java/au/com/dius/pact/consumer/dsl/PactDslJsonArray.java:184-193 | attaching a child keeps the old elements and appends `copies` copies of the child's body |
| DslArray.PutRules | pact-jvm-consumer/src/main/java/au/com/dius/pact/consumer/dsl/PactDslJsonArray.java:184-188 | attaching a child puts each child rule under the key of the first copy, keeps the parent's other rules, and that key reads back as the copy's index |
| DslArray.PutGenerators | pact-jvm-consumer/src/main/java/au/com/dius/pact/consumer/dsl/PactDslJsonArray.java:189 | attaching a child puts each child generator under the key of the first copy |
| DslArray.TemplatedBody | pact-jvm-consumer/src/main/java/au/com/dius/pact/consumer/dsl/PactDslJsonArray.java:659-664 | `template(t, n)` appends `n` groups of `numberExamples` copies after the existing elements |
| DslArray.GroupsShape | pact-jvm-consumer/src/main/java/au/com/dius/pact/consumer/dsl/PactDslJsonArray.java:659-664 | those groups hold `n * numberExamples` elements, all equal to the template's body |
| DslArray.SecondPrefixChangesKeys | pact-jvm-consumer/src/main/java/au/com/dius/pact/consumer/dsl/PactDslJsonArray.java:533-551 | a second `close()` prefixes the keys with `$` again, so it is not idempotent |
| DslArray.CheckMin | pact-jvm-consumer/src/main/java/au/com/dius/pact/consumer/dsl/PactDslJsonArray.java:137-141 | the minimum forms refuse fewer examples than the size with `IllegalArgumentException` |
| DslArray.CheckMax | pact-jvm-consumer/src/main/java/au/com/dius/pact/consumer/dsl/PactDslJsonArray.java:173-177 | the maximum forms refuse more examples than the size with `IllegalArgumentException` |
| DslArray.NamedFormRejected | pact-jvm-consumer/src/main/java/au/com/dius/pact/consumer/dsl/PactDslJsonArray.java:68-70 | every overload that takes a field name throws `UnsupportedOperationException` |
| DslArray.DateGeneratorOf | pact-jvm-consumer/src/main/java/au/com/dius/pact/consumer/dsl/PactDslJsonArray.java:405-505 | the ISO and pattern forms register a generator and the explicit-example forms none; `date(format)` registers a date-and-time generator |
| DslArray.DateWithFormatGeneratesDateTime | pact-jvm-consumer/src/main/java/au/com/dius/pact/consumer/dsl/PactDslJsonArray.java:452-458 | `date(format)` pairs a date rule with a date-and-time generator |
| DslArray.ClosingKeepsInnerRules | pact-jvm-consumer/src/main/java/au/com/dius/pact/consumer/dsl/PactDslJsonArray.java:533-545 | closing keeps every rule of the innermost array, under the addresses of the arrays it is closed into |
| DslArray.WildcardChildRuleKey | pact-jvm-consumer/src/main/java/au/com/dius/pact/consumer/dsl/PactDslJsonArray.java:105-110 | a template rule given to an `eachLike` child ends up under the parent path, the element index, the child's own root path, `[*]` and the rule's key |
| DslArray.EachLikeKeyDiffersFromMinArrayLike | pact-jvm-consumer/src/main/java/au/com/dius/pact/consumer/dsl/PactDslJsonArray.java:137-146 | with a non-empty root path, `eachLike` and `minArrayLike` file the same template rule under different keys |
| DslArray.PactDslJsonArray.constructor | pact-jvm-consumer/src/main/java/au/com/dius/pact/consumer/dsl/PactDslJsonArray.java:49-53 | a new array has an empty body, no rules or generators, one example, and is open |
| DslArray.PactDslJsonArray.ChainShape | pact-jvm-consumer/src/main/java/au/com/dius/pact/consumer/dsl/PactDslJsonArray.java:58-64 | each enclosing array of the chain is the parent of the one before |
| DslArray.PactDslJsonArray.ChainLinks | pact-jvm-consumer/src/main/java/au/com/dius/pact/consumer/dsl/PactDslJsonArray.java:533-545 | the chain of enclosing arrays ends at a root and never repeats an array, so `close()` terminates |
| DslArray.PactDslJsonArray.AppendArrayIndex | pact-jvm-consumer/src/main/java/au/com/dius/pact/consumer/dsl/PactDslJsonArray.java:671-677 | the key reads back as `[*]` in wildcard mode, otherwise as the index `length - 1 + offset` |
| DslArray.PactDslJsonArray.PutWithRule | pact-jvm-consumer/src/main/java/au/com/dius/pact/consumer/dsl/PactDslJsonArray.java:266-270 | appends the value and adds the rule at the new element's key |
| DslArray.PactDslJsonArray.AddBodyGenerator | pact-jvm-consumer/src/main/java/au/com/dius/pact/consumer/dsl/PactDslJsonArray.java:257 | registers a BODY generator at the key of the element `offset` places on |
| DslArray.PactDslJsonArray.StringValue | pact-jvm-consumer/src/main/java/au/com/dius/pact/consumer/dsl/PactDslJsonArray.java:213-220 | appends the string, or JSON null for a null string, and registers nothing |
| DslArray.PactDslJsonArray.NumberValue | pact-jvm-consumer/src/main/java/au/com/dius/pact/consumer/dsl/PactDslJsonArray.java:230-233 | appends the number and registers nothing |
| DslArray.PactDslJsonArray.BooleanValue | pact-jvm-consumer/src/main/java/au/com/dius/pact/consumer/dsl/PactDslJsonArray.java:247-250 | appends the boolean and registers nothing |
| DslArray.PactDslJsonArray.NullValue | pact-jvm-consumer/src/main/java/au/com/dius/pact/consumer/dsl/PactDslJsonArray.java:817-820 | appends JSON null and registers nothing |
| DslArray.PactDslJsonArray.StringType | pact-jvm-consumer/src/main/java/au/com/dius/pact/consumer/dsl/PactDslJsonArray.java:255-260 | appends "string" with a type rule and a random-string generator of size 20 at that element |
| DslArray.PactDslJsonArray.StringTypeWith | pact-jvm-consumer/src/main/java/au/com/dius/pact/consumer/dsl/PactDslJsonArray.java:266-270 | appends the example with a type rule |
| DslArray.PactDslJsonArray.NumberType | pact-jvm-consumer/src/main/java/au/com/dius/pact/consumer/dsl/PactDslJsonArray.java:275-278 | registers a random-integer generator at offset 1, then appends 100 with a number rule |
| DslArray.PactDslJsonArray.NumberTypeWith | pact-jvm-consumer/src/main/java/au/com/dius/pact/consumer/dsl/PactDslJsonArray.java:284-288 | appends the number with a NUMBER rule |
| DslArray.PactDslJsonArray.IntegerType | pact-jvm-consumer/src/main/java/au/com/dius/pact/consumer/dsl/PactDslJsonArray.java:293-296 | a random-integer generator ahead, then 100 with an INTEGER rule |
| DslArray.PactDslJsonArray.IntegerTypeWith | pact-jvm-consumer/src/main/java/au/com/dius/pact/consumer/dsl/PactDslJsonArray.java:302-306 | appends the integer with an INTEGER rule |
| DslArray.PactDslJsonArray.DecimalType | pact-jvm-consumer/src/main/java/au/com/dius/pact/consumer/dsl/PactDslJsonArray.java:330-333 | a random-decimal generator ahead, then 100 with a DECIMAL rule |
| DslArray.PactDslJsonArray.DecimalTypeWith | pact-jvm-consumer/src/main/java/au/com/dius/pact/consumer/dsl/PactDslJsonArray.java:339-353 | appends the decimal with a DECIMAL rule |
| DslArray.PactDslJsonArray.BooleanType | pact-jvm-consumer/src/main/java/au/com/dius/pact/consumer/dsl/PactDslJsonArray.java:358-363 | a random-boolean generator ahead, then `true` with a type rule |
| DslArray.PactDslJsonArray.BooleanTypeWith | pact-jvm-consumer/src/main/java/au/com/dius/pact/consumer/dsl/PactDslJsonArray.java:369-373 | appends the example with a type rule |
| DslArray.PactDslJsonArray.StringMatcher | pact-jvm-consumer/src/main/java/au/com/dius/pact/consumer/dsl/PactDslJsonArray.java:380-388 | an example the regex does not match is refused with the source's message, and nothing changes; otherwise the example is appended with a regex rule |
| DslArray.PactDslJsonArray.StringMatcherGenerated | pact-jvm-consumer/src/main/java/au/com/dius/pact/consumer/dsl/PactDslJsonArray.java:396-400 | the random-string generator is registered first, so it stays even when the generated example is refused |
| DslArray.PactDslJsonArray.DateTimeElement | pact-jvm-consumer/src/main/java/au/com/dius/pact/consumer/dsl/PactDslJsonArray.java:405-505 | appends the formatted example with a timestamp, date or time rule and the generator `DateGeneratorOf` gives |
| DslArray.PactDslJsonArray.IpAddress | pact-jvm-consumer/src/main/java/au/com/dius/pact/consumer/dsl/PactDslJsonArray.java:510-514 | appends 127.0.0.1 with the IPv4 regex rule |
| DslArray.PactDslJsonArray.Id | pact-jvm-consumer/src/main/java/au/com/dius/pact/consumer/dsl/PactDslJsonArray.java:567-572 | appends 100 with a type rule; its random-integer generator is at the new element, offset 0 |
| DslArray.PactDslJsonArray.IdWith | pact-jvm-consumer/src/main/java/au/com/dius/pact/consumer/dsl/PactDslJsonArray.java:578-582 | appends the id with a type rule |
| DslArray.PactDslJsonArray.HexValue | pact-jvm-consumer/src/main/java/au/com/dius/pact/consumer/dsl/PactDslJsonArray.java:587-590 | a hexadecimal generator ahead, then the example "1234a" |
| DslArray.PactDslJsonArray.HexValueWith | pact-jvm-consumer/src/main/java/au/com/dius/pact/consumer/dsl/PactDslJsonArray.java:596-603 | a non-hexadecimal example is refused with the source's message and nothing changes; otherwise it is appended with the hex regex rule |
| DslArray.PactDslJsonArray.Uuid | pact-jvm-consumer/src/main/java/au/com/dius/pact/consumer/dsl/PactDslJsonArray.java:627-630 | a UUID generator ahead, then the fixed example UUID |
| DslArray.PactDslJsonArray.UuidWith | pact-jvm-consumer/src/main/java/au/com/dius/pact/consumer/dsl/PactDslJsonArray.java:636-643 | an example that is not a UUID is refused with the source's message and nothing changes; otherwise it is appended with the UUID regex rule |
| DslArray.PactDslJsonArray.IncludesStr | pact-jvm-consumer/src/main/java/au/com/dius/pact/consumer/dsl/PactDslJsonArray.java:992-996 | appends the value with an include rule |
| DslArray.PactDslJsonArray.EqualsTo | pact-jvm-consumer/src/main/java/au/com/dius/pact/consumer/dsl/PactDslJsonArray.java:1002-1006 | appends the value with an equality rule |
| DslArray.PactDslJsonArray.Combined | pact-jvm-consumer/src/main/java/au/com/dius/pact/consumer/dsl/PactDslJsonArray.java:1013-1036 | `and` and `or` append the value and replace the element's whole rule group |
| DslArray.PactDslJsonArray.MatchUrl | pact-jvm-consumer/src/main/java/au/com/dius/pact/consumer/dsl/PactDslJsonArray.java:1043-1048 | appends the example URL with the derived regex rule |
| DslArray.PactDslJsonArray.PutObject | pact-jvm-consumer/src/main/java/au/com/dius/pact/consumer/dsl/PactDslJsonArray.java:184-193 | the new state is `Put` with `numberExamples` copies |
| DslArray.PactDslJsonArray.PutArray | pact-jvm-consumer/src/main/java/au/com/dius/pact/consumer/dsl/PactDslJsonArray.java:195-202 | the new state is `Put` with one copy |
| DslArray.PactDslJsonArray.Template | pact-jvm-consumer/src/main/java/au/com/dius/pact/consumer/dsl/PactDslJsonArray.java:649-652 | one `putObject` of the template |
| DslArray.PactDslJsonArray.TemplateTimes | pact-jvm-consumer/src/main/java/au/com/dius/pact/consumer/dsl/PactDslJsonArray.java:659-664 | the loop leaves the state `Templated` by `occurrences` puts, whose body `TemplatedBody` describes |
| DslArray.PactDslJsonArray.SetNumberExamples | pact-jvm-consumer/src/main/java/au/com/dius/pact/consumer/dsl/PactDslJsonArray.java:825-834 | only the number of examples changes |
| DslArray.PactDslJsonArray.CloseArray | pact-jvm-consumer/src/main/java/au/com/dius/pact/consumer/dsl/PactDslJsonArray.java:58-64 | the parent receives this array by `putArray`, this array is marked closed, and the parent is returned |
| DslArray.PactDslJsonArray.ApplyRootPrefixes | pact-jvm-consumer/src/main/java/au/com/dius/pact/consumer/dsl/PactDslJsonArray.java:547-548 | both the rules and the generators are re-keyed under the prefix; the body is untouched |
| DslArray.PactDslJsonArray.States | pact-jvm-consumer/src/main/java/au/com/dius/pact/consumer/dsl/PactDslJsonArray.java:533-545 | the state of each array of the chain, innermost first |
| DslArray.PactDslJsonArray.CloseChain | pact-jvm-consumer/src/main/java/au/com/dius/pact/consumer/dsl/PactDslJsonArray.java:535-545 | the walk up the parents ends at the outermost array, which is closed and holds the `Closing` state |
| DslArray.PactDslJsonArray.Close | pact-jvm-consumer/src/main/java/au/com/dius/pact/consumer/dsl/PactDslJsonArray.java:533-551 | an open array closes the whole chain and returns the prefixed outermost array; an already closed array is re-prefixed with `$`, and no other array changes |
| DslArray.PactDslJsonArray.ArrayChild | pact-jvm-consumer/src/main/java/au/com/dius/pact/consumer/dsl/PactDslJsonArray.java:560-562 | a fresh nested non-wildcard array with an empty root path |
| DslArray.PactDslJsonArray.WildcardChild | pact-jvm-consumer/src/main/java/au/com/dius/pact/consumer/dsl/PactDslJsonArray.java:107-108 | a fresh wildcard array with the given root path and number of examples |
| DslArray.PactDslJsonArray.EachLike | pact-jvm-consumer/src/main/java/au/com/dius/pact/consumer/dsl/PactDslJsonArray.java:105-110 | a minimum-0 rule at the next element and a wildcard child that keeps this array's root path |
| DslArray.PactDslJsonArray.MinArrayLike | pact-jvm-consumer/src/main/java/au/com/dius/pact/consumer/dsl/PactDslJsonArray.java:137-146 | refuses fewer examples than the size; otherwise a minimum rule and a wildcard child with an empty root path |
| DslArray.PactDslJsonArray.MaxArrayLike | pact-jvm-consumer/src/main/java/au/com/dius/pact/consumer/dsl/PactDslJsonArray.java:173-182 | refuses more examples than the size; otherwise a maximum rule and a wildcard child with an empty root path |
| DslArray.PactDslJsonArray.EachArrayLike | pact-jvm-consumer/src/main/java/au/com/dius/pact/consumer/dsl/PactDslJsonArray.java:852-857 | a minimum-0 rule, a wildcard array keeping the root path, and inside it a plain array, which is returned |
| DslArray.PactDslJsonArray.EachArrayWithMaxLike | pact-jvm-consumer/src/main/java/au/com/dius/pact/consumer/dsl/PactDslJsonArray.java:875-884 | refuses more examples than the size; otherwise as `eachArrayLike` with a maximum rule |
| DslArray.PactDslJsonArray.EachArrayWithMinLike | pact-jvm-consumer/src/main/java/au/com/dius/pact/consumer/dsl/PactDslJsonArray.java:902-911 | refuses fewer examples than the size; otherwise as `eachArrayLike` with a minimum rule |
| DslArray.PactDslJsonArray.RootValueChild | pact-jvm-consumer/src/main/java/au/com/dius/pact/consumer/dsl/PactDslJsonArray.java:926-932 | the rule at the next element, then a wildcard child that holds the value's copies, closed into this array |
| DslArray.PactDslJsonArray.EachLikeValue | pact-jvm-consumer/src/main/java/au/com/dius/pact/consumer/dsl/PactDslJsonArray.java:926-932 | `eachLike(value, n)` attaches a wildcard child of `n` copies under a minimum-0 rule |
| DslArray.PactDslJsonArray.MinArrayLikeValue | pact-jvm-consumer/src/main/java/au/com/dius/pact/consumer/dsl/PactDslJsonArray.java:949-959 | refuses fewer examples than the size; otherwise as `eachLike(value, n)` with a minimum rule |
| DslArray.PactDslJsonArray.MaxArrayLikeValue | pact-jvm-consumer/src/main/java/au/com/dius/pact/consumer/dsl/PactDslJsonArray.java:976-986 | refuses more examples than the size; otherwise as `eachLike(value, n)` with a maximum rule |
| DslArray.RootWildcard | pact-jvm-consumer/src/main/java/au/com/dius/pact/consumer/dsl/PactDslJsonArray.java:690-695 | a fresh root wildcard array with the rule under the empty key |
| DslArray.ArrayEachLike | pact-jvm-consumer/src/main/java/au/com/dius/pact/consumer/dsl/PactDslJsonArray.java:690-695 | a root wildcard array with a minimum-0 rule under the empty key |
| DslArray.ArrayEachLikeValue | pact-jvm-consumer/src/main/java/au/com/dius/pact/consumer/dsl/PactDslJsonArray.java:708-714 | that root array holding `numberExamples` copies of the value |
| DslArray.ArrayMinLike | pact-jvm-consumer/src/main/java/au/com/dius/pact/consumer/dsl/PactDslJsonArray.java:729-738 | refuses fewer examples than the minimum size; otherwise a root wildcard array with a minimum rule |
| DslArray.ArrayMinLikeValue | pact-jvm-consumer/src/main/java/au/com/dius/pact/consumer/dsl/PactDslJsonArray.java:753-763 | the same check, then the copies of the value |
| DslArray.ArrayMaxLike | pact-jvm-consumer/src/main/java/au/com/dius/pact/consumer/dsl/PactDslJsonArray.java:778-787 | refuses more examples than the maximum size; otherwise a root wildcard array with a maximum rule |
| DslArray.ArrayMaxLikeValue | pact-jvm-consumer/src/main/java/au/com/dius/pact/consumer/dsl/PactDslJsonArray.java:802-812 | the same check, then the copies of the value |
| DslRequest.WithPairs | pact-jvm-consumer/src/main/java/au/com/dius/pact/consumer/dsl/PactDslRequestWithoutPath.java:83-85 | putting header pairs never removes a header |
| DslRequest.UnpairedNameKept | pact-jvm-consumer/src/main/java/au/com/dius/pact/consumer/dsl/PactDslRequestWithoutPath.java:83-85 | a name that no pair puts keeps its value, or stays absent |
| DslRequest.LastPairWins | pact-jvm-consumer/src/main/java/au/com/dius/pact/consumer/dsl/PactDslRequestWithoutPath.java:83-85 | a name ends with the value of the last pair that puts it |
| DslRequest.PairsAddOnlyTheirNames | pact-jvm-consumer/src/main/java/au/com/dius/pact/consumer/dsl/PactDslRequestWithoutPath.java:83-85 | only the names of complete pairs are added |
| DslRequest.WithDefault | pact-jvm-consumer/src/main/java/au/com/dius/pact/consumer/dsl/PactDslRequestWithoutPath.java:206-209 | the Content-Type default is put only when the header is absent |
| DslRequest.ExplicitContentTypeKept | pact-jvm-consumer/src/main/java/au/com/dius/pact/consumer/dsl/PactDslRequestWithoutPath.java:115-119 | a Content-Type given with the body survives a later JSON or XML body, and a second default never replaces the first |
| DslRequest.WithPathRule | pact-jvm-consumer/src/main/java/au/com/dius/pact/consumer/dsl/PactDslRequestWithoutPath.java:268 | `matchPath` adds a regex rule under the empty key of the "path" category and keeps every other rule |
| DslRequest.MatchPathTwiceKeepsBoth | pact-jvm-consumer/src/main/java/au/com/dius/pact/consumer/dsl/PactDslRequestWithoutPath.java:267-271 | two `matchPath` calls leave both regexes, in call order, in one AND group |
| DslRequest.ClosedBodyKeepsInnerRules | pact-jvm-consumer/src/main/java/au/com/dius/pact/consumer/dsl/PactDslRequestWithoutPath.java:218-227 | once an open array is closed and prefixed with `$`, each rule of the innermost array sits under `$`, the addresses it was closed into and its own key |
| DslRequest.ClosedBodyKeepsAllInnerRules | pact-jvm-consumer/src/main/java/au/com/dius/pact/consumer/dsl/PactDslRequestWithoutPath.java:218-227 | the same for every rule of the innermost array at once, which `body(DslPart)` states about the request's body rules |
| DslRequest.PactDslRequestWithoutPath.constructor | pact-jvm-consumer/src/main/java/au/com/dius/pact/consumer/dsl/PactDslRequestWithoutPath.java:26-48 | a new request has no method, headers, query, body, rules or generators |
| DslRequest.PactDslRequestWithoutPath.Method | pact-jvm-consumer/src/main/java/au/com/dius/pact/consumer/dsl/PactDslRequestWithoutPath.java:55-58 | sets the method and changes nothing else |
| DslRequest.PactDslRequestWithoutPath.HeadersMap | pact-jvm-consumer/src/main/java/au/com/dius/pact/consumer/dsl/PactDslRequestWithoutPath.java:65-68 | replaces the header map |
| DslRequest.PactDslRequestWithoutPath.Headers | pact-jvm-consumer/src/main/java/au/com/dius/pact/consumer/dsl/PactDslRequestWithoutPath.java:77-88 | an odd number of further arguments is refused before any header is written; otherwise the first pair and then every further pair are put in order |
| DslRequest.PactDslRequestWithoutPath.Query | pact-jvm-consumer/src/main/java/au/com/dius/pact/consumer/dsl/PactDslRequestWithoutPath.java:95-98 | the query is the parsed query string |
| DslRequest.PactDslRequestWithoutPath.Body | pact-jvm-consumer/src/main/java/au/com/dius/pact/consumer/dsl/PactDslRequestWithoutPath.java:105-108 | the body is `OptionalBody.body` of the text: EMPTY for an empty text, present otherwise |
| DslRequest.PactDslRequestWithoutPath.BodyWithMime | pact-jvm-consumer/src/main/java/au/com/dius/pact/consumer/dsl/PactDslRequestWithoutPath.java:115-119 | the body is `OptionalBody.body` of the text, and Content-Type is the given type, whatever it was |
| DslRequest.PactDslRequestWithoutPath.BodyJson | pact-jvm-consumer/src/main/java/au/com/dius/pact/consumer/dsl/PactDslRequestWithoutPath.java:205-211 | the body is `OptionalBody.body` of the object's text, and the JSON Content-Type is set unless one is already set |
| DslRequest.PactDslRequestWithoutPath.BodyPart | pact-jvm-consumer/src/main/java/au/com/dius/pact/consumer/dsl/PactDslRequestWithoutPath.java:218-227 | the part is closed: an open part's result is the outermost array of its chain, closed, in the state `Closing` of the old states prefixed with `$`, and an already closed part is itself re-prefixed; that root's rules become the body category, so every rule of the part sits there under `$` and its chain address; its generators are added to the registry, its text becomes the body, and the JSON Content-Type is defaulted |
| DslRequest.PactDslRequestWithoutPath.InstallBody | pact-jvm-consumer/src/main/java/au/com/dius/pact/consumer/dsl/PactDslRequestWithoutPath.java:220-225 | the registry updates of `body(DslPart)` once the part is closed |
| DslRequest.PactDslRequestWithoutPath.BodyXml | pact-jvm-consumer/src/main/java/au/com/dius/pact/consumer/dsl/PactDslRequestWithoutPath.java:234-240 | the body is `OptionalBody.body` of the document's text, and the XML Content-Type is set unless one is already set |
| DslRequest.PactDslRequestWithoutPath.Path | pact-jvm-consumer/src/main/java/au/com/dius/pact/consumer/dsl/PactDslRequestWithoutPath.java:247-250 | the request with a path carries everything collected so far |
| DslRequest.PactDslRequestWithoutPath.MatchPath | pact-jvm-consumer/src/main/java/au/com/dius/pact/consumer/dsl/PactDslRequestWithoutPath.java:267-271 | a regex rule for the path is added, then the request is handed on with the example path |
| DslRequest.PactDslRequestWithoutPath.MatchPathRandom | pact-jvm-consumer/src/main/java/au/com/dius/pact/consumer/dsl/PactDslRequestWithoutPath.java:257-259 | the example path is generated from the regex |

## Left out

- `PactDslJsonBody`, `PactDslJsonRootValue` and `DslPart` in general are not part of this model.
  - A nested part is passed as a value `Part` (its body, rules and generators).
  - The forms that return a new `PactDslJsonBody` (`eachLike`, `minArrayLike`, `maxArrayLike`, `arrayEachLike`, `arrayMinLike`, `arrayMaxLike`) return the array builder that will receive that object.
  - `object()` is not modelled, because it only creates a `PactDslJsonBody`.
- Only array builders are modelled as parents. Closing into an object builder (`closeObject` on a `PactDslJsonBody`) is not modelled.
- DslArray.PactDslJsonArray.Close: states the returned outermost array, its final state and that it is closed. It does not state that every array in between is marked closed, or their final states and example counts.
- DslArray.PactDslJsonArray.CloseChain: the same.
- DslArray.PactDslJsonArray.GetNumberExamples: has no contract of its own. It reads the field that `SetNumberExamples` states.
- DslArray.PactDslJsonArray: the `getBody()` and `toString()` accessors are not modelled separately. The request builder renders the closed array's body through its `render` parameter.
- MatcherExecutor.DoMatch: its own contract states only that a rule gives at most one mismatch. What each rule kind decides is stated on the matcher it dispatches to.
- Generators.Generators.ApplyBodyGenerators: the order in which BODY keys are visited is the map's iteration order. The model leaves it open and reports it as a ghost `order`.
- JsonQuery.QueryFields: the source walks a `HashMap` copy of the map, in hash order. The model walks the members in insertion order. A repeated member name is read at its first occurrence; JVM maps have no repeated keys.
- Aliasing: the request with a path receives the same `MatchingRules` and `Generators` objects as the request without one. The model hands over their contents as values.
- `MatchingRules.addCategory(category)` is taken to install the category under its name and replace any earlier one. MatchingRules.java is not part of this model.
- `body(String, ContentType)`, the `Supplier` forms and the `bodyWithSingleQuotes` forms are left out. They convert their argument (`ContentType.toString`, `Supplier.get`, `QuoteUtil.convert`) and then call the modelled `body` forms. None of those conversions is part of this model.
- Null arguments are modelled only where the code branches on them:
  - `stringValue(null)`;
  - the null key of `addGenerator`;
  - the null map of `fromMap`;
  - null JSON values in the body walk, which throw a null-pointer error.
- OptionalBody.kt is not part of this model. `Generators.BodyOf` states what the body forms rely on from `OptionalBody.body`: an empty text gives the EMPTY body, any other text a present one. The NULL body of a null text is not produced, since null texts are left out.
- Scala collections and XML values (`Elem`) are left out of the matcher executor.
- The boxed JVM number types are reduced to integral and fractional numbers. `Integer` 1 and `Long` 1 are unequal on the JVM, but equal in the model.
- `ToText`, the `toString` of a value in mismatch messages, assumes the values are Java collections, strings and numbers.
- `toUpperCase` is modelled on ASCII letters only. Locale-dependent case mappings of other characters are not modelled.
- The registry of content-type handlers is fixed at its default, a single JSON handler. `setupDefaultContentTypeHandlers` and handler registration are left out.
- `Generators.applyGenerator` appears only as the loop inside `applyBodyGenerators`.
- Logging calls are left out.
- Java `int` arithmetic is not bounded in the model. The only arithmetic is `length - 1 + offset` on an array length, which stays far below 2^31.

## Findings

| source | as written | input that shows it | evidently intended | confidence | as-written member | corrected member |
|---|---|---|---|---|---|---|
| pact-jvm-matchers/src/main/kotlin/au/com/dius/pact/matchers/MatcherExecutor.kt:97 | the equality mismatch message is `"Expected ${valueOf(actual)} to equal ${valueOf(actual)}"`, quoting the actual value twice | expected 1, actual 2: the message is "Expected 2 to equal 2" | `"Expected ${valueOf(actual)} to equal ${valueOf(expected)}"`, so that the message shows the expected value | not executed | MatcherExecutor.MatchEqualityAsWritten, MatcherExecutor.EqualityMessageHidesExpected | MatcherExecutor.MatchEquality |

The dispatch `MatcherExecutor.DoMatch` follows the code and calls the matcher as written. The corrected matcher stands beside it, and `MatcherExecutor.EqualityFixKeepsVerdict` shows that the fix changes only the message, never a verdict.
