/** The consumer DSL's JSON array builder. A builder holds the example body it
    has built so far, the "body" rules and generators registered for its
    elements, the number of examples an object template is repeated, and a
    link to the builder it is nested in. Every element method appends one
    value and registers its rule (and possibly a generator) under the key of
    that element: the builder's root path followed by `[i]`, or `[*]` when the
    array is a wildcard array standing for every element. */
module DslArray {
  import opened Wrappers
  import opened Text
  import opened Json
  import opened Paths
  import opened MatchingRules
  import opened Generators

  /** `Integer.MAX_VALUE`, the upper bound of the random integer generators. */
  const INTEGER_MAX_VALUE: int := 2147483647

  /** Prefix of the messages that reject an example value. */
  const EXAMPLE: string := "Example \""

  /** The example `uuid()` falls back to. */
  const DEFAULT_UUID: string := "e2490de5-5bd3-43d5-b7c4-526e33f71304"

  /** The IPv4 address regular expression of `ipAddress()`. */
  const IP_ADDRESS_REGEX: string := "(\\d{1,3}\\.)+\\d{1,3}"

  /** The hexadecimal regular expression of `hexValue(v)`. */
  const HEX_REGEX: string := "[0-9a-fA-F]+"

  /** The exceptions the builder throws. */
  datatype DslError =
    | InvalidMatcher(message: string)
    | IllegalArgument(message: string)
    | UnsupportedOperation(message: string)

  /** What the builder borrows from libraries it does not define: regular
      expression matching, date formatting, and the constants of its base
      class and of the date utilities. */
  datatype DslLibrary = DslLibrary(
    matches: (string, string) -> bool,    // value.matches(regex)
    formatDate: (string, int) -> string,  // FastDateFormat.getInstance(pattern).format(instant)
    isoDateTimePattern: string,
    isoDatePattern: string,
    isoTimePattern: string,
    date2000: int,                        // DATE_2000
    hexadecimal: string,                  // HEXADECIMAL
    uuidRegex: string)                    // UUID_REGEX

  /** A finished part (object, root value or array) as its parent sees it:
      its example body, its "body" rules and its generators. */
  datatype Part = Part(body: Json, matchers: RuleCategory, generators: GeneratorTable)

  /** The state an array builder changes: example elements, rules, generators. */
  datatype ArrayState = ArrayState(body: seq<Json>, matchers: RuleCategory, generators: GeneratorTable)

  const EMPTY: ArrayState := ArrayState([], map[], map[])

  /** An array builder seen as a part of its parent. */
  function AsPart(s: ArrayState): Part {
    Part(JArray(s.body), s.matchers, s.generators)
  }

  /** `n` copies of `v`; none when `n` is not positive. */
  function Repeat(v: Json, n: int): (r: seq<Json>)
    ensures |r| == (if n < 0 then 0 else n)
    ensures forall i :: 0 <= i < |r| ==> r[i] == v
  {
    if n <= 0 then [] else Repeat(v, n - 1) + [v]
  }

  /** `putObject` (`copies` is the number of examples) and `putArray` (`copies`
      is 1): the child's rules and generators re-keyed under the address of the
      next element, then the child's body appended `copies` times. */
  function Put(s: ArrayState, rootPath: string, wildCard: bool, part: Part, copies: int): ArrayState {
    var prefix := rootPath + ArrayIndex(wildCard, |s.body|, 1);
    ArrayState(s.body + Repeat(part.body, copies),
               Absorb(s.matchers, prefix, part.matchers),
               Merged(s.generators, part.generators, prefix))
  }

  /** The body after attaching a child: the old elements followed by the copies. */
  lemma PutBody(s: ArrayState, rootPath: string, wildCard: bool, part: Part, copies: int)
    ensures var r := Put(s, rootPath, wildCard, part, copies);
            && r.body[..|s.body|] == s.body
            && |r.body| == |s.body| + (if copies < 0 then 0 else copies)
            && forall i :: |s.body| <= i < |r.body| ==> r.body[i] == part.body
  {
    var r := Put(s, rootPath, wildCard, part, copies);
    assert r.body[..|s.body|] == s.body;
    forall i | |s.body| <= i < |r.body| ensures r.body[i] == part.body {
      assert r.body[i] == Repeat(part.body, copies)[i - |s.body|];
    }
  }

  /** The rules after attaching a child: every child rule under the key of the
      first copy, which in concrete-index mode reads back as that copy's index;
      rules of the parent at other keys are kept. */
  lemma PutRules(s: ArrayState, rootPath: string, wildCard: bool, part: Part, copies: int)
    ensures var r := Put(s, rootPath, wildCard, part, copies);
            var prefix := rootPath + ArrayIndex(wildCard, |s.body|, 1);
            && (forall k :: k in part.matchers ==> prefix + k in r.matchers && r.matchers[prefix + k] == part.matchers[k])
            && (forall k :: k in s.matchers && !(|prefix| <= |k| && k[..|prefix|] == prefix && k[|prefix|..] in part.matchers)
                  ==> k in r.matchers && r.matchers[k] == s.matchers[k])
            && ParseArrayIndex(ArrayIndex(wildCard, |s.body|, 1)) == Some(if wildCard then Wildcard else At(|s.body|))
  {
    AbsorbContents(s.matchers, rootPath + ArrayIndex(wildCard, |s.body|, 1), part.matchers);
    ArrayIndexRoundTrip(wildCard, |s.body|, 1);
  }

  /** The generators after attaching a child: every child generator under the
      key of the first copy. */
  lemma PutGenerators(s: ArrayState, rootPath: string, wildCard: bool, part: Part, copies: int)
    ensures var r := Put(s, rootPath, wildCard, part, copies);
            var prefix := rootPath + ArrayIndex(wildCard, |s.body|, 1);
            forall c, k :: c in part.generators && k in part.generators[c] ==>
              c in r.generators && prefix + k in r.generators[c] && r.generators[c][prefix + k] == part.generators[c][k]
  {
    MergedContents(s.generators, part.generators, rootPath + ArrayIndex(wildCard, |s.body|, 1));
  }

  /** `template(t, occurrences)`: `putObject(t)` repeated `occurrences` times. */
  function Templated(s: ArrayState, rootPath: string, wildCard: bool, part: Part, copies: int, occurrences: int): ArrayState
    decreases if occurrences < 0 then 0 else occurrences
  {
    if occurrences <= 0 then s
    else Put(Templated(s, rootPath, wildCard, part, copies, occurrences - 1), rootPath, wildCard, part, copies)
  }

  lemma TemplatedStep(s: ArrayState, rootPath: string, wildCard: bool, part: Part, copies: int, i: nat)
    ensures Templated(s, rootPath, wildCard, part, copies, i + 1)
         == Put(Templated(s, rootPath, wildCard, part, copies, i), rootPath, wildCard, part, copies)
  {
  }

  /** `occurrences` groups of `copies` copies of `v`. */
  function Groups(v: Json, copies: int, occurrences: int): seq<Json>
    decreases if occurrences < 0 then 0 else occurrences
  {
    if occurrences <= 0 then [] else Groups(v, copies, occurrences - 1) + Repeat(v, copies)
  }

  /** Each occurrence of a template appends one example's worth of copies
      after the elements already there. */
  lemma {:induction false} TemplatedBody(s: ArrayState, rootPath: string, wildCard: bool, part: Part, copies: int, occurrences: int)
    ensures Templated(s, rootPath, wildCard, part, copies, occurrences).body == s.body + Groups(part.body, copies, occurrences)
    decreases if occurrences < 0 then 0 else occurrences
  {
    if occurrences > 0 {
      TemplatedBody(s, rootPath, wildCard, part, copies, occurrences - 1);
      var prev := Templated(s, rootPath, wildCard, part, copies, occurrences - 1);
      assert prev.body + Repeat(part.body, copies) == s.body + (Groups(part.body, copies, occurrences - 1) + Repeat(part.body, copies));
    } else {
      assert s.body + [] == s.body;
    }
  }

  /** The groups hold `occurrences * copies` elements, all equal to `v`. */
  lemma {:induction false} GroupsShape(v: Json, copies: nat, occurrences: nat)
    ensures |Groups(v, copies, occurrences)| == occurrences * copies
    ensures forall i :: 0 <= i < |Groups(v, copies, occurrences)| ==> Groups(v, copies, occurrences)[i] == v
  {
    if occurrences > 0 {
      GroupsShape(v, copies, occurrences - 1);
      var g := Groups(v, copies, occurrences - 1);
      assert (occurrences - 1) * copies + copies == occurrences * copies;
      forall i | 0 <= i < |Groups(v, copies, occurrences)| ensures Groups(v, copies, occurrences)[i] == v {
        if i >= |g| {
          assert Groups(v, copies, occurrences)[i] == Repeat(v, copies)[i - |g|];
        }
      }
    }
  }

  /** `applyMatcherRootPrefix(p)` and the generators' `applyRootPrefix(p)` on
      one builder; the body is untouched. */
  function Prefixed(s: ArrayState, p: string): ArrayState {
    ArrayState(s.body, ApplyRootPrefix(s.matchers, p), RootPrefixed(s.generators, p))
  }

  /** Prefixing is not idempotent: when no key starts with "$", a second
      prefixing produces keys ("$$" followed by a key) that one prefixing never does. */
  lemma SecondPrefixChangesKeys(s: ArrayState, k: string)
    requires k in s.matchers
    requires forall j :: j in s.matchers ==> |j| == 0 || j[0] != '$'
    ensures "$$" + k in Prefixed(Prefixed(s, "$"), "$").matchers
    ensures "$$" + k !in Prefixed(s, "$").matchers
    ensures Prefixed(Prefixed(s, "$"), "$") != Prefixed(s, "$")
  {
    var once := Prefixed(s, "$").matchers;
    ApplyRootPrefixContents(s.matchers, "$");
    ApplyRootPrefixContents(once, "$");
    assert "$" + k in once;
    assert "$" + ("$" + k) == "$$" + k;
    assert ("$$" + k)[1..] == "$" + k;
    assert ("$" + k)[0] == '$';
  }

  /** The bound check of the minimum forms. */
  function CheckMin(numberExamples: int, size: int): (r: Outcome<DslError>)
    ensures r.Fail? <==> numberExamples < size
    ensures r.Fail? ==> r.error.IllegalArgument?
  {
    if numberExamples < size then
      Fail(IllegalArgument("Number of example " + IntToString(numberExamples)
                           + " is less than the minimum size of " + IntToString(size)))
    else Pass
  }

  /** The bound check of the maximum forms. */
  function CheckMax(numberExamples: int, size: int): (r: Outcome<DslError>)
    ensures r.Fail? <==> numberExamples > size
    ensures r.Fail? ==> r.error.IllegalArgument?
  {
    if numberExamples > size then
      Fail(IllegalArgument("Number of example " + IntToString(numberExamples)
                           + " is more than the maximum size of " + IntToString(size)))
    else Pass
  }

  /** The overloads that take a field name, which an array cannot use. */
  datatype NamedForm =
    | ArrayLikeNamed | EachLikeNamed | EachLikeNamedExamples
    | MinArrayLikeNamed | MinArrayLikeNamedExamples
    | MaxArrayLikeNamed | MaxArrayLikeNamedExamples
    | ObjectNamed | ArrayNamed | CloseObject
    | EachArrayLikeNamed | EachArrayLikeNamedExamples
    | EachArrayWithMaxLikeNamed | EachArrayWithMaxLikeNamedExamples
    | EachArrayWithMinLikeNamed | EachArrayWithMinLikeNamedExamples

  /** The exception every named form throws; each points at the form to use
      instead, and `closeObject` says that an array cannot close an object. */
  function NamedFormRejected(f: NamedForm): (r: DslError)
    ensures r.UnsupportedOperation?
  {
    UnsupportedOperation(match f
      case ArrayLikeNamed => "use the eachLike() form"
      case EachLikeNamed => "use the eachLike() form"
      case EachLikeNamedExamples => "use the eachLike(numberExamples) form"
      case MinArrayLikeNamed => "use the minArrayLike(Integer size) form"
      case MinArrayLikeNamedExamples => "use the minArrayLike(Integer size, int numberExamples) form"
      case MaxArrayLikeNamed => "use the maxArrayLike(Integer size) form"
      case MaxArrayLikeNamedExamples => "use the maxArrayLike(Integer size, int numberExamples) form"
      case ObjectNamed => "use the object() form"
      case ArrayNamed => "use the array() form"
      case CloseObject => "can't call closeObject on an Array"
      case EachArrayLikeNamed => "use the eachArrayLike() form"
      case EachArrayLikeNamedExamples => "use the eachArrayLike(numberExamples) form"
      case EachArrayWithMaxLikeNamed => "use the eachArrayWithMaxLike() form"
      case EachArrayWithMaxLikeNamedExamples => "use the eachArrayWithMaxLike(numberExamples) form"
      case EachArrayWithMinLikeNamed => "use the eachArrayWithMinLike() form"
      case EachArrayWithMinLikeNamedExamples => "use the eachArrayWithMinLike(numberExamples) form")
  }

  /** The three forms of `timestamp`, `date` and `time`: the ISO pattern with
      the fixed example instant, a given pattern with that instant, and a given
      pattern with a given example instant. */
  datatype DateForm = IsoPattern | WithFormat(format: string) | WithExample(format: string, example: int)

  datatype DateKind = TimestampKind | DateOnlyKind | TimeOnlyKind

  /** The pattern a date form uses. */
  function DatePattern(lib: DslLibrary, kind: DateKind, form: DateForm): string {
    match form
    case IsoPattern =>
      (match kind
       case TimestampKind => lib.isoDateTimePattern
       case DateOnlyKind => lib.isoDatePattern
       case TimeOnlyKind => lib.isoTimePattern)
    case WithFormat(f) => f
    case WithExample(f, _) => f
  }

  /** The example text a date form appends. */
  function DateExample(lib: DslLibrary, kind: DateKind, form: DateForm): string {
    lib.formatDate(DatePattern(lib, kind, form), if form.WithExample? then form.example else lib.date2000)
  }

  /** The generator a date form registers; an explicit example registers none,
      and `date(format)` registers a date-and-time generator. */
  function DateGeneratorOf(kind: DateKind, form: DateForm, pattern: string): (r: Option<Generator>)
    ensures r.None? <==> form.WithExample?
    ensures kind == TimestampKind && r.Some? ==> r.value == DateTimeGenerator(pattern)
    ensures kind == TimeOnlyKind && r.Some? ==> r.value == TimeGenerator(pattern)
    ensures kind == DateOnlyKind && r.Some? ==> r.value == (if form.IsoPattern? then DateGenerator(pattern) else DateTimeGenerator(pattern))
  {
    if form.WithExample? then None
    else match kind
      case TimestampKind => Some(DateTimeGenerator(pattern))
      case DateOnlyKind => if form.IsoPattern? then Some(DateGenerator(pattern)) else Some(DateTimeGenerator(pattern))
      case TimeOnlyKind => Some(TimeGenerator(pattern))
  }

  /** The rule a date form registers. */
  function DateRule(kind: DateKind, pattern: string): MatchingRule {
    match kind
    case TimestampKind => TimestampMatcher(pattern)
    case DateOnlyKind => DateMatcher(pattern)
    case TimeOnlyKind => TimeMatcher(pattern)
  }

  /** `date(format)` generates values of a different kind than the rule it
      registers checks: a date-and-time generator beside a date rule. */
  lemma DateWithFormatGeneratesDateTime(lib: DslLibrary, format: string)
    ensures DateGeneratorOf(DateOnlyKind, WithFormat(format), DatePattern(lib, DateOnlyKind, WithFormat(format)))
            == Some(DateTimeGenerator(format))
    ensures DateRule(DateOnlyKind, DatePattern(lib, DateOnlyKind, WithFormat(format))) == DateMatcher(format)
  {
  }

  /** The state of `chain[i]` once `close()` has walked up to it: each builder
      has received the closed state of the one below it by `putArray`. */
  ghost function Closing(chain: seq<PactDslJsonArray>, olds: seq<ArrayState>, i: nat): ArrayState
    requires i < |chain| == |olds|
  {
    if i == 0 then olds[0]
    else Put(olds[i], chain[i].rootPath, chain[i].wildCard, AsPart(Closing(chain, olds, i - 1)), 1)
  }

  /** The key prefix under which the innermost builder's rules end up in `chain[i]`. */
  ghost function Address(chain: seq<PactDslJsonArray>, olds: seq<ArrayState>, i: nat): string
    requires i < |chain| == |olds|
  {
    if i == 0 then ""
    else chain[i].rootPath + ArrayIndex(chain[i].wildCard, |olds[i].body|, 1) + Address(chain, olds, i - 1)
  }

  /** Closing keeps every rule of the innermost builder, re-keyed by the
      addresses of the builders it passes through. */
  lemma {:induction false} ClosingKeepsInnerRules(chain: seq<PactDslJsonArray>, olds: seq<ArrayState>, i: nat, k: string)
    requires i < |chain| == |olds|
    requires k in olds[0].matchers
    ensures Address(chain, olds, i) + k in Closing(chain, olds, i).matchers
    ensures Closing(chain, olds, i).matchers[Address(chain, olds, i) + k] == olds[0].matchers[k]
  {
    if i == 0 {
      assert Address(chain, olds, i) + k == k;
    } else {
      ClosingKeepsInnerRules(chain, olds, i - 1, k);
      var prefix := chain[i].rootPath + ArrayIndex(chain[i].wildCard, |olds[i].body|, 1);
      var inner := Address(chain, olds, i - 1) + k;
      AbsorbAt(olds[i].matchers, prefix, Closing(chain, olds, i - 1).matchers, inner);
      assert Closing(chain, olds, i).matchers == Absorb(olds[i].matchers, prefix, Closing(chain, olds, i - 1).matchers);
      assert Address(chain, olds, i) == prefix + Address(chain, olds, i - 1);
      Associative(prefix, Address(chain, olds, i - 1), k);
    }
  }

  /** Where a rule of an object template given to a wildcard child ends up in
      the parent once that child is closed: the parent's path, the child's
      element index, the child's own root path, then `[*]`. `eachLike` creates
      the child with the parent's root path and `minArrayLike`/`maxArrayLike`
      with an empty one, so only `eachLike` repeats the root path. */
  lemma WildcardChildRuleKey(s: ArrayState, rootPath: string, wildCard: bool, childRoot: string,
                             part: Part, copies: int, k: string)
    requires k in part.matchers
    ensures var child := Put(EMPTY, childRoot, true, part, copies);
            var r := Put(s, rootPath, wildCard, AsPart(child), 1);
            var key := rootPath + ArrayIndex(wildCard, |s.body|, 1) + childRoot + "[*]" + k;
            key in r.matchers && r.matchers[key] == part.matchers[k]
  {
    var child := Put(EMPTY, childRoot, true, part, copies);
    var inner := childRoot + "[*]";
    assert ArrayIndex(true, 0, 1) == "[*]";
    AbsorbAt(map[], inner, part.matchers, k);
    assert child.matchers == Absorb(map[], inner, part.matchers);
    var prefix := rootPath + ArrayIndex(wildCard, |s.body|, 1);
    AbsorbAt(s.matchers, prefix, child.matchers, inner + k);
    Associative(prefix, inner, k);
    Associative(rootPath + ArrayIndex(wildCard, |s.body|, 1), childRoot, "[*]");
  }

  /** Concatenating keys is associative; kept as a lemma so that the proofs above
      need not reason about sequence equality in their own, larger contexts. */
  lemma Associative(a: string, b: string, c: string)
    ensures a + (b + c) == a + b + c
  {
  }

  /** With a non-empty root path the keys of `eachLike` and of `minArrayLike`
      differ for the same template. */
  lemma EachLikeKeyDiffersFromMinArrayLike(rootPath: string, index: string, k: string)
    requires rootPath != ""
    ensures rootPath + index + rootPath + "[*]" + k != rootPath + index + "" + "[*]" + k
  {
    assert |rootPath + index + rootPath + "[*]" + k| > |rootPath + index + "" + "[*]" + k|;
  }

  class PactDslJsonArray {
    const rootPath: string
    const rootName: string
    /** The enclosing builder; only enclosing arrays are modelled. */
    const parent: PactDslJsonArray?
    /** The enclosing builders, innermost first. */
    ghost const ancestors: seq<PactDslJsonArray>
    const wildCard: bool
    var body: seq<Json>
    var matchers: RuleCategory
    var generators: GeneratorTable
    var numberExamples: int
    var closed: bool

    /** `ancestors` lists the parent chain; it is finite, so no builder is its own ancestor. */
    ghost predicate Linked()
      decreases |ancestors|
    {
      if parent == null then ancestors == []
      else |ancestors| >= 1 && ancestors[0] == parent && ancestors[1..] == parent.ancestors && parent.Linked()
    }

    ghost function Chain(): seq<PactDslJsonArray> {
      [this] + ancestors
    }

    function State(): ArrayState
      reads this
    {
      ArrayState(body, matchers, generators)
    }

    constructor (rootPath: string, rootName: string, parent: PactDslJsonArray?, wildCard: bool)
      requires parent != null ==> parent.Linked()
      ensures this.rootPath == rootPath && this.rootName == rootName
      ensures this.parent == parent && this.wildCard == wildCard && Linked()
      ensures State() == EMPTY && numberExamples == 1 && !closed
    {
      this.rootPath := rootPath;
      this.rootName := rootName;
      this.parent := parent;
      this.ancestors := if parent == null then [] else [parent] + parent.ancestors;
      this.wildCard := wildCard;
      body := [];
      matchers := map[];
      generators := map[];
      numberExamples := 1;
      closed := false;
    }

    /** Each builder of the chain is linked, its ancestors are the rest of the
        chain, and its parent is the next one. */
    lemma ChainShape()
      requires Linked()
      ensures forall i :: 0 <= i < |Chain()| ==>
                Chain()[i].Linked() && Chain()[i].ancestors == Chain()[i + 1..]
                && Chain()[i].parent == (if i + 1 < |Chain()| then Chain()[i + 1] else null)
      decreases |ancestors|
    {
      if parent != null {
        parent.ChainShape();
        assert Chain() == [this] + parent.Chain();
      }
    }

    /** No builder occurs twice in the chain. */
    lemma ChainLinks()
      requires Linked()
      ensures forall i {:trigger Chain()[i].parent} :: 0 <= i < |Chain()| - 1 ==> Chain()[i].parent == Chain()[i + 1]
      ensures Chain()[|Chain()| - 1].parent == null
      ensures forall i, j :: 0 <= i < j < |Chain()| ==> Chain()[i] != Chain()[j]
    {
      ChainShape();
      forall i, j | 0 <= i < j < |Chain()| ensures Chain()[i] != Chain()[j] {
        assert |Chain()[i].ancestors| != |Chain()[j].ancestors|;
      }
    }

    /** `appendArrayIndex(offset)`; it names the element at `|body| - 1 + offset`. */
    function AppendArrayIndex(offset: int): (r: string)
      reads this
      ensures ParseArrayIndex(r) == Some(if wildCard then Wildcard else At(|body| - 1 + offset))
    {
      ArrayIndexRoundTrip(wildCard, |body|, offset);
      ArrayIndex(wildCard, |body|, offset)
    }

    /** The key of the element `offset` places from the last one. */
    function ElementKey(offset: int): string
      reads this
    {
      rootPath + ArrayIndex(wildCard, |body|, offset)
    }

    /** `body.put(value)` followed by `matchers.addRule(rootPath + appendArrayIndex(0), rule)`. */
    method PutWithRule(value: Json, rule: MatchingRule)
      modifies this
      ensures body == old(body) + [value]
      ensures matchers == AddRule(old(matchers), ElementKey(0), rule)
      ensures generators == old(generators) && numberExamples == old(numberExamples) && closed == old(closed)
    {
      body := body + [value];
      matchers := AddRule(matchers, rootPath + AppendArrayIndex(0), rule);
    }

    /** `generators.addGenerator(Category.BODY, rootPath + appendArrayIndex(offset), g)`. */
    method AddBodyGenerator(offset: int, g: Generator)
      modifies this
      ensures generators == WithGenerator(old(generators), BODY, ElementKey(offset), g)
      ensures body == old(body) && matchers == old(matchers)
      ensures numberExamples == old(numberExamples) && closed == old(closed)
    {
      generators := WithGenerator(generators, BODY, rootPath + AppendArrayIndex(offset), g);
    }

    /** `stringValue(value)`; a null value is stored as JSON null. */
    method StringValue(value: Option<string>)
      modifies this
      ensures body == old(body) + [if value.None? then JNull else JString(value.value)]
      ensures matchers == old(matchers) && generators == old(generators)
      ensures numberExamples == old(numberExamples) && closed == old(closed)
    {
      match value {
        case None => body := body + [JNull];
        case Some(s) => body := body + [JString(s)];
      }
    }

    /** `numberValue(value)`. */
    method NumberValue(value: Json)
      requires value.JInt? || value.JDecimal?
      modifies this
      ensures body == old(body) + [value]
      ensures matchers == old(matchers) && generators == old(generators)
      ensures numberExamples == old(numberExamples) && closed == old(closed)
    {
      body := body + [value];
    }

    /** `booleanValue(value)`. */
    method BooleanValue(value: bool)
      modifies this
      ensures body == old(body) + [JBool(value)]
      ensures matchers == old(matchers) && generators == old(generators)
      ensures numberExamples == old(numberExamples) && closed == old(closed)
    {
      body := body + [JBool(value)];
    }

    /** `nullValue()`. */
    method NullValue()
      modifies this
      ensures body == old(body) + [JNull]
      ensures matchers == old(matchers) && generators == old(generators)
      ensures numberExamples == old(numberExamples) && closed == old(closed)
    {
      body := body + [JNull];
    }

    /** `stringType()`: the example "string", a type rule and a random string
        generator, both at the new element. */
    method StringType()
      modifies this
      ensures body == old(body) + [JString("string")]
      ensures matchers == AddRule(old(matchers), ElementKey(0), TypeMatcher)
      ensures generators == WithGenerator(old(generators), BODY, ElementKey(0), RandomStringGenerator(20))
      ensures numberExamples == old(numberExamples) && closed == old(closed)
    {
      body := body + [JString("string")];
      AddBodyGenerator(0, RandomStringGenerator(20));
      matchers := AddRule(matchers, rootPath + AppendArrayIndex(0), TypeMatcher);
    }

    /** `stringType(example)`. */
    method StringTypeWith(example: string)
      modifies this
      ensures body == old(body) + [JString(example)]
      ensures matchers == AddRule(old(matchers), ElementKey(0), TypeMatcher)
      ensures generators == old(generators)
      ensures numberExamples == old(numberExamples) && closed == old(closed)
    {
      PutWithRule(JString(example), TypeMatcher);
    }

    /** `numberType()`: the generator is registered one place ahead before the
        example 100 is appended. */
    method NumberType()
      modifies this
      ensures body == old(body) + [JInt(100)]
      ensures matchers == AddRule(old(matchers), ElementKey(0), NumberTypeMatcher(NUMBER))
      ensures generators == WithGenerator(old(generators), BODY, rootPath + ArrayIndex(wildCard, |old(body)|, 1),
                                          RandomIntGenerator(0, INTEGER_MAX_VALUE))
      ensures numberExamples == old(numberExamples) && closed == old(closed)
    {
      AddBodyGenerator(1, RandomIntGenerator(0, INTEGER_MAX_VALUE));
      NumberTypeWith(JInt(100));
    }

    /** `numberType(number)`. */
    method NumberTypeWith(number: Json)
      requires number.JInt? || number.JDecimal?
      modifies this
      ensures body == old(body) + [number]
      ensures matchers == AddRule(old(matchers), ElementKey(0), NumberTypeMatcher(NUMBER))
      ensures generators == old(generators)
      ensures numberExamples == old(numberExamples) && closed == old(closed)
    {
      PutWithRule(number, NumberTypeMatcher(NUMBER));
    }

    /** `integerType()`. */
    method IntegerType()
      modifies this
      ensures body == old(body) + [JInt(100)]
      ensures matchers == AddRule(old(matchers), ElementKey(0), NumberTypeMatcher(INTEGER))
      ensures generators == WithGenerator(old(generators), BODY, rootPath + ArrayIndex(wildCard, |old(body)|, 1),
                                          RandomIntGenerator(0, INTEGER_MAX_VALUE))
      ensures numberExamples == old(numberExamples) && closed == old(closed)
    {
      AddBodyGenerator(1, RandomIntGenerator(0, INTEGER_MAX_VALUE));
      IntegerTypeWith(100);
    }

    /** `integerType(number)`. */
    method IntegerTypeWith(number: int)
      modifies this
      ensures body == old(body) + [JInt(number)]
      ensures matchers == AddRule(old(matchers), ElementKey(0), NumberTypeMatcher(INTEGER))
      ensures generators == old(generators)
      ensures numberExamples == old(numberExamples) && closed == old(closed)
    {
      PutWithRule(JInt(number), NumberTypeMatcher(INTEGER));
    }

    /** `decimalType()`. */
    method DecimalType()
      modifies this
      ensures body == old(body) + [JDecimal("100")]
      ensures matchers == AddRule(old(matchers), ElementKey(0), NumberTypeMatcher(DECIMAL))
      ensures generators == WithGenerator(old(generators), BODY, rootPath + ArrayIndex(wildCard, |old(body)|, 1),
                                          RandomDecimalGenerator(10))
      ensures numberExamples == old(numberExamples) && closed == old(closed)
    {
      AddBodyGenerator(1, RandomDecimalGenerator(10));
      DecimalTypeWith("100");
    }

    /** `decimalType(number)`, for both the BigDecimal and the Double example;
        the example is kept as its decimal text. */
    method DecimalTypeWith(number: string)
      modifies this
      ensures body == old(body) + [JDecimal(number)]
      ensures matchers == AddRule(old(matchers), ElementKey(0), NumberTypeMatcher(DECIMAL))
      ensures generators == old(generators)
      ensures numberExamples == old(numberExamples) && closed == old(closed)
    {
      PutWithRule(JDecimal(number), NumberTypeMatcher(DECIMAL));
    }

    /** `booleanType()`. */
    method BooleanType()
      modifies this
      ensures body == old(body) + [JBool(true)]
      ensures matchers == AddRule(old(matchers), ElementKey(0), TypeMatcher)
      ensures generators == WithGenerator(old(generators), BODY, rootPath + ArrayIndex(wildCard, |old(body)|, 1),
                                          RandomBooleanGenerator)
      ensures numberExamples == old(numberExamples) && closed == old(closed)
    {
      AddBodyGenerator(1, RandomBooleanGenerator);
      PutWithRule(JBool(true), TypeMatcher);
    }

    /** `booleanType(example)`. */
    method BooleanTypeWith(example: bool)
      modifies this
      ensures body == old(body) + [JBool(example)]
      ensures matchers == AddRule(old(matchers), ElementKey(0), TypeMatcher)
      ensures generators == old(generators)
      ensures numberExamples == old(numberExamples) && closed == old(closed)
    {
      PutWithRule(JBool(example), TypeMatcher);
    }

    /** `stringMatcher(regex, value)`: rejects an example the expression does
        not match, before changing anything. */
    method StringMatcher(lib: DslLibrary, regex: string, value: string) returns (r: Outcome<DslError>)
      modifies this
      ensures r.Fail? <==> !lib.matches(value, regex)
      ensures r.Fail? ==> r.error == InvalidMatcher(EXAMPLE + value + "\" does not match regular expression \"" + regex + "\"")
                          && State() == old(State())
      ensures r.Pass? ==> body == old(body) + [JString(value)]
                          && matchers == AddRule(old(matchers), ElementKey(0), RegexMatcher(regex))
                          && generators == old(generators)
      ensures numberExamples == old(numberExamples) && closed == old(closed)
    {
      if !lib.matches(value, regex) {
        return Fail(InvalidMatcher(EXAMPLE + value + "\" does not match regular expression \"" + regex + "\""));
      }
      PutWithRule(JString(value), RegexMatcher(regex));
      r := Pass;
    }

    /** `stringMatcher(regex)` with `random` the string the regular expression
        generator produced. The generator is registered before the example is
        checked, so it stays even when the check fails. */
    method StringMatcherGenerated(lib: DslLibrary, regex: string, random: string) returns (r: Outcome<DslError>)
      modifies this
      ensures r.Fail? <==> !lib.matches(random, regex)
      ensures generators == WithGenerator(old(generators), BODY, rootPath + ArrayIndex(wildCard, |old(body)|, 1),
                                          RandomStringGenerator(10))
      ensures r.Fail? ==> body == old(body) && matchers == old(matchers)
      ensures r.Pass? ==> body == old(body) + [JString(random)]
                          && matchers == AddRule(old(matchers), ElementKey(0), RegexMatcher(regex))
      ensures numberExamples == old(numberExamples) && closed == old(closed)
    {
      AddBodyGenerator(1, RandomStringGenerator(10));
      r := StringMatcher(lib, regex, random);
    }

    /** `timestamp`, `date` and `time` in their three forms each. */
    method DateTimeElement(lib: DslLibrary, kind: DateKind, form: DateForm)
      modifies this
      ensures body == old(body) + [JString(DateExample(lib, kind, form))]
      ensures matchers == AddRule(old(matchers), ElementKey(0), DateRule(kind, DatePattern(lib, kind, form)))
      ensures generators == (match DateGeneratorOf(kind, form, DatePattern(lib, kind, form))
                             case None => old(generators)
                             case Some(g) => WithGenerator(old(generators), BODY, ElementKey(0), g))
      ensures numberExamples == old(numberExamples) && closed == old(closed)
    {
      var pattern := DatePattern(lib, kind, form);
      body := body + [JString(DateExample(lib, kind, form))];
      match DateGeneratorOf(kind, form, pattern) {
        case None =>
        case Some(g) => AddBodyGenerator(0, g);
      }
      matchers := AddRule(matchers, rootPath + AppendArrayIndex(0), DateRule(kind, pattern));
    }

    /** `ipAddress()`. */
    method IpAddress()
      modifies this
      ensures body == old(body) + [JString("127.0.0.1")]
      ensures matchers == AddRule(old(matchers), ElementKey(0), RegexMatcher(IP_ADDRESS_REGEX))
      ensures generators == old(generators)
      ensures numberExamples == old(numberExamples) && closed == old(closed)
    {
      PutWithRule(JString("127.0.0.1"), RegexMatcher(IP_ADDRESS_REGEX));
    }

    /** `id()`: unlike `numberType()`, the generator is registered after the append. */
    method Id()
      modifies this
      ensures body == old(body) + [JInt(100)]
      ensures matchers == AddRule(old(matchers), ElementKey(0), TypeMatcher)
      ensures generators == WithGenerator(old(generators), BODY, ElementKey(0), RandomIntGenerator(0, INTEGER_MAX_VALUE))
      ensures numberExamples == old(numberExamples) && closed == old(closed)
    {
      body := body + [JInt(100)];
      AddBodyGenerator(0, RandomIntGenerator(0, INTEGER_MAX_VALUE));
      matchers := AddRule(matchers, rootPath + AppendArrayIndex(0), TypeMatcher);
    }

    /** `id(id)`. */
    method IdWith(id: int)
      modifies this
      ensures body == old(body) + [JInt(id)]
      ensures matchers == AddRule(old(matchers), ElementKey(0), TypeMatcher)
      ensures generators == old(generators)
      ensures numberExamples == old(numberExamples) && closed == old(closed)
    {
      PutWithRule(JInt(id), TypeMatcher);
    }

    /** `hexValue()`: a hexadecimal generator ahead of the example "1234a". */
    method HexValue(lib: DslLibrary) returns (r: Outcome<DslError>)
      modifies this
      ensures r.Fail? <==> !lib.matches("1234a", lib.hexadecimal)
      ensures generators == WithGenerator(old(generators), BODY, rootPath + ArrayIndex(wildCard, |old(body)|, 1),
                                          RandomHexadecimalGenerator(10))
      ensures r.Fail? ==> body == old(body) && matchers == old(matchers)
      ensures r.Pass? ==> body == old(body) + [JString("1234a")]
                          && matchers == AddRule(old(matchers), ElementKey(0), RegexMatcher(HEX_REGEX))
      ensures numberExamples == old(numberExamples) && closed == old(closed)
    {
      AddBodyGenerator(1, RandomHexadecimalGenerator(10));
      r := HexValueWith(lib, "1234a");
    }

    /** `hexValue(hexValue)`: rejects a non-hexadecimal example. */
    method HexValueWith(lib: DslLibrary, hexValue: string) returns (r: Outcome<DslError>)
      modifies this
      ensures r.Fail? <==> !lib.matches(hexValue, lib.hexadecimal)
      ensures r.Fail? ==> r.error == InvalidMatcher(EXAMPLE + hexValue + "\" is not a hexadecimal value")
                          && State() == old(State())
      ensures r.Pass? ==> body == old(body) + [JString(hexValue)]
                          && matchers == AddRule(old(matchers), ElementKey(0), RegexMatcher(HEX_REGEX))
                          && generators == old(generators)
      ensures numberExamples == old(numberExamples) && closed == old(closed)
    {
      if !lib.matches(hexValue, lib.hexadecimal) {
        return Fail(InvalidMatcher(EXAMPLE + hexValue + "\" is not a hexadecimal value"));
      }
      PutWithRule(JString(hexValue), RegexMatcher(HEX_REGEX));
      r := Pass;
    }

    /** `uuid()` (and `guid()`): a UUID generator ahead of a fixed example. */
    method Uuid(lib: DslLibrary) returns (r: Outcome<DslError>)
      modifies this
      ensures r.Fail? <==> !lib.matches(DEFAULT_UUID, lib.uuidRegex)
      ensures generators == WithGenerator(old(generators), BODY, rootPath + ArrayIndex(wildCard, |old(body)|, 1), UuidGenerator)
      ensures r.Fail? ==> body == old(body) && matchers == old(matchers)
      ensures r.Pass? ==> body == old(body) + [JString(DEFAULT_UUID)]
                          && matchers == AddRule(old(matchers), ElementKey(0), RegexMatcher(lib.uuidRegex))
      ensures numberExamples == old(numberExamples) && closed == old(closed)
    {
      AddBodyGenerator(1, UuidGenerator);
      r := UuidWith(lib, DEFAULT_UUID);
    }

    /** `uuid(uuid)` (and `guid(uuid)`): rejects an example that is not a UUID. */
    method UuidWith(lib: DslLibrary, uuid: string) returns (r: Outcome<DslError>)
      modifies this
      ensures r.Fail? <==> !lib.matches(uuid, lib.uuidRegex)
      ensures r.Fail? ==> r.error == InvalidMatcher(EXAMPLE + uuid + "\" is not an UUID") && State() == old(State())
      ensures r.Pass? ==> body == old(body) + [JString(uuid)]
                          && matchers == AddRule(old(matchers), ElementKey(0), RegexMatcher(lib.uuidRegex))
                          && generators == old(generators)
      ensures numberExamples == old(numberExamples) && closed == old(closed)
    {
      if !lib.matches(uuid, lib.uuidRegex) {
        return Fail(InvalidMatcher(EXAMPLE + uuid + "\" is not an UUID"));
      }
      PutWithRule(JString(uuid), RegexMatcher(lib.uuidRegex));
      r := Pass;
    }

    /** `includesStr(value)`. */
    method IncludesStr(value: string)
      modifies this
      ensures body == old(body) + [JString(value)]
      ensures matchers == AddRule(old(matchers), ElementKey(0), IncludeMatcher(value))
      ensures generators == old(generators)
      ensures numberExamples == old(numberExamples) && closed == old(closed)
    {
      PutWithRule(JString(value), IncludeMatcher(value));
    }

    /** `equalsTo(value)`. */
    method EqualsTo(value: Json)
      modifies this
      ensures body == old(body) + [value]
      ensures matchers == AddRule(old(matchers), ElementKey(0), EqualsMatcher)
      ensures generators == old(generators)
      ensures numberExamples == old(numberExamples) && closed == old(closed)
    {
      PutWithRule(value, EqualsMatcher);
    }

    /** `and(value, rules...)` and `or(value, rules...)`: the element's whole
        rule group is replaced; a null value is stored as JSON null. */
    method Combined(value: Json, rules: seq<MatchingRule>, logic: RuleLogic)
      modifies this
      ensures body == old(body) + [value]
      ensures matchers == SetRules(old(matchers), ElementKey(0), MatchingRuleGroup(rules, logic))
      ensures generators == old(generators)
      ensures numberExamples == old(numberExamples) && closed == old(closed)
    {
      body := body + [value];
      matchers := SetRules(matchers, rootPath + AppendArrayIndex(0), MatchingRuleGroup(rules, logic));
    }

    /** `matchUrl(basePath, pathFragments...)`, given the example URL and the
        regular expression the URL support derives from them. */
    method MatchUrl(example: string, regex: string)
      modifies this
      ensures body == old(body) + [JString(example)]
      ensures matchers == AddRule(old(matchers), ElementKey(0), RegexMatcher(regex))
      ensures generators == old(generators)
      ensures numberExamples == old(numberExamples) && closed == old(closed)
    {
      PutWithRule(JString(example), RegexMatcher(regex));
    }

    /** `putObject(object)`: the template's rules and generators under the next
        element's key, then its body once per example. */
    method PutObject(part: Part)
      modifies this
      ensures State() == Put(old(State()), rootPath, wildCard, part, numberExamples)
      ensures numberExamples == old(numberExamples) && closed == old(closed)
    {
      var prefix := rootPath + AppendArrayIndex(1);
      matchers := CopyRules(matchers, prefix, part.matchers);
      generators := Merged(generators, part.generators, prefix);
      var i := 0;
      ghost var start := body;
      ghost var rules, gens := matchers, generators;
      while i < numberExamples
        invariant 0 <= i <= (if numberExamples < 0 then 0 else numberExamples)
        invariant body == start + Repeat(part.body, i)
        invariant matchers == rules && generators == gens
        invariant numberExamples == old(numberExamples) && closed == old(closed)
        decreases numberExamples - i
      {
        body := body + [part.body];
        i := i + 1;
      }
      assert Repeat(part.body, i) == Repeat(part.body, numberExamples);
    }

    /** `putArray(object)`: as `putObject`, with the body added once. */
    method PutArray(part: Part)
      modifies this
      ensures State() == Put(old(State()), rootPath, wildCard, part, 1)
      ensures numberExamples == old(numberExamples) && closed == old(closed)
    {
      var prefix := rootPath + AppendArrayIndex(1);
      matchers := CopyRules(matchers, prefix, part.matchers);
      generators := Merged(generators, part.generators, prefix);
      body := body + [part.body];
      assert Repeat(part.body, 1) == [part.body];
    }

    /** `template(template)`. */
    method Template(template: Part)
      modifies this
      ensures State() == Templated(old(State()), rootPath, wildCard, template, numberExamples, 1)
      ensures numberExamples == old(numberExamples) && closed == old(closed)
    {
      PutObject(template);
    }

    /** `template(template, occurrences)`. */
    method TemplateTimes(template: Part, occurrences: int)
      modifies this
      ensures State() == Templated(old(State()), rootPath, wildCard, template, numberExamples, occurrences)
      ensures numberExamples == old(numberExamples) && closed == old(closed)
    {
      var i := 0;
      ghost var start := State();
      ghost var copies := numberExamples;
      while i < occurrences
        invariant 0 <= i <= (if occurrences < 0 then 0 else occurrences)
        invariant State() == Templated(start, rootPath, wildCard, template, copies, i)
        invariant numberExamples == copies && closed == old(closed)
        decreases occurrences - i
      {
        PutObject(template);
        TemplatedStep(start, rootPath, wildCard, template, copies, i);
        i := i + 1;
      }
      assert Templated(start, rootPath, wildCard, template, copies, i)
          == Templated(start, rootPath, wildCard, template, copies, occurrences);
    }

    /** `getNumberExamples()`. */
    function GetNumberExamples(): int
      reads this
    {
      numberExamples
    }

    /** `setNumberExamples(n)`. */
    method SetNumberExamples(n: int)
      modifies this
      ensures numberExamples == n && State() == old(State()) && closed == old(closed)
    {
      numberExamples := n;
    }

    /** `closeArray()`: hands this array to its parent with `putArray`, marks it
        closed and returns the parent. */
    method CloseArray() returns (p: PactDslJsonArray?)
      requires parent != this
      modifies this, parent
      ensures p == parent && closed
      ensures State() == old(State()) && numberExamples == old(numberExamples)
      ensures parent != null ==>
                parent.State() == Put(old(parent.State()), parent.rootPath, parent.wildCard, AsPart(old(State())), 1)
                && parent.closed == old(parent.closed) && parent.numberExamples == old(parent.numberExamples)
    {
      if parent != null {
        parent.PutArray(AsPart(State()));
      }
      closed := true;
      p := parent;
    }

    /** Both root prefixes applied to this builder. */
    method ApplyRootPrefixes(p: string)
      modifies this
      ensures State() == Prefixed(old(State()), p)
      ensures numberExamples == old(numberExamples) && closed == old(closed)
    {
      matchers := ApplyRootPrefix(matchers, p);
      generators := RootPrefixed(generators, p);
    }

    /** The states of this builder and of every enclosing one, innermost first. */
    ghost function States(): (r: seq<ArrayState>)
      reads Chain()
      ensures |r| == |Chain()|
      ensures forall j :: 0 <= j < |r| ==> r[j] == Chain()[j].State()
    {
      seq(|Chain()|, j requires 0 <= j < |Chain()| reads Chain() => Chain()[j].State())
    }

    /** The walk of `close()` on an open array: each builder from this one
        outwards is handed to its parent by `closeArray()`, so the outermost
        builder ends with the state `Closing` describes. */
    method CloseChain(ghost olds: seq<ArrayState>) returns (root: PactDslJsonArray)
      requires !closed
      requires forall i {:trigger Chain()[i].parent} :: 0 <= i < |Chain()| - 1 ==> Chain()[i].parent == Chain()[i + 1]
      requires Chain()[|Chain()| - 1].parent == null
      requires forall i, j :: 0 <= i < j < |Chain()| ==> Chain()[i] != Chain()[j]
      requires |olds| == |Chain()| && forall j :: 0 <= j < |olds| ==> olds[j] == Chain()[j].State()
      modifies Chain()
      ensures root == Chain()[|Chain()| - 1]
      ensures root.closed
      ensures root.State() == Closing(Chain(), olds, |Chain()| - 1)
    {
      ghost var c := Chain();
      root := this;
      assert c[0] == this;
      var p := CloseArray();
      var i := 1;
      while p != null
        invariant 1 <= i <= |c|
        invariant i < |c| ==> p == c[i]
        invariant i == |c| ==> p == null
        invariant root == c[i - 1]
        invariant root.closed
        invariant root.State() == Closing(c, olds, i - 1)
        invariant i < |c| ==> c[i].State() == Closing(c, olds, i)
        invariant forall j :: i < j < |c| ==> c[j].State() == olds[j]
        decreases |c| - i
      {
        root := p;
        assert p.parent == if i + 1 < |c| then c[i + 1] else null;
        p := p.CloseArray();
        i := i + 1;
      }
    }

    /** `close()`: unless already closed, closes this array and every enclosing
        one in turn, then prefixes the outermost builder's keys with "$". On a
        closed array it prefixes this array's keys with "$" once more. */
    method Close() returns (root: PactDslJsonArray)
      requires Linked()
      modifies Chain()
      ensures old(closed) ==> root == this && State() == Prefixed(old(State()), "$")
      ensures old(closed) ==> forall i :: 1 <= i < |Chain()| ==>
                Chain()[i].State() == old(Chain()[i].State()) && Chain()[i].closed == old(Chain()[i].closed)
      ensures !old(closed) ==> root == Chain()[|Chain()| - 1]
      ensures !old(closed) ==> root.closed
      ensures !old(closed) ==> root.State() == Prefixed(Closing(Chain(), old(States()), |Chain()| - 1), "$")
    {
      ChainLinks();
      assert Chain()[0] == this;
      if closed {
        root := this;
      } else {
        root := CloseChain(States());
      }
      assert root in Chain();
      root.ApplyRootPrefixes("$");
    }

    /** `array()`: a nested, non-wildcard array with an empty root path. */
    method ArrayChild() returns (child: PactDslJsonArray)
      requires Linked()
      ensures fresh(child) && child.parent == this && child.Linked()
      ensures child.rootPath == "" && !child.wildCard
      ensures child.State() == EMPTY && child.numberExamples == 1 && !child.closed
    {
      child := new PactDslJsonArray("", "", this, false);
    }

    /** The wildcard array `eachLike`, `minArrayLike`, `maxArrayLike` and the
        `eachArray*` forms create: the given root path, this array as parent,
        and the given number of examples. */
    method WildcardChild(childRoot: string, examples: int) returns (host: PactDslJsonArray)
      requires Linked()
      ensures fresh(host) && host.parent == this && host.Linked()
      ensures host.rootPath == childRoot && host.wildCard
      ensures host.State() == EMPTY && host.numberExamples == examples && !host.closed
    {
      host := new PactDslJsonArray(childRoot, "", this, true);
      host.numberExamples := examples;
    }

    /** `eachLike(numberExamples)`: a minimum-size-0 rule at the next element,
        and a wildcard child that keeps this array's root path. The object
        builder the source returns is not modelled; the child array that
        receives it is returned. */
    method EachLike(examples: int) returns (host: PactDslJsonArray)
      requires Linked()
      modifies this
      ensures matchers == AddRule(old(matchers), ElementKey(1), MinTypeMatcher(0))
      ensures body == old(body) && generators == old(generators)
      ensures numberExamples == old(numberExamples) && closed == old(closed)
      ensures fresh(host) && host.parent == this && host.Linked() && host.rootPath == rootPath && host.wildCard
      ensures host.State() == EMPTY && host.numberExamples == examples && !host.closed
    {
      matchers := AddRule(matchers, rootPath + AppendArrayIndex(1), MinTypeMatcher(0));
      host := WildcardChild(rootPath, examples);
    }

    /** `minArrayLike(size, numberExamples)`: rejects fewer examples than the
        minimum; otherwise a minimum-size rule and a wildcard child with an
        empty root path. */
    method MinArrayLike(size: int, examples: int) returns (r: Result<PactDslJsonArray, DslError>)
      requires Linked()
      modifies this
      ensures r.Failure? <==> examples < size
      ensures r.Failure? ==> r.error == CheckMin(examples, size).error && State() == old(State())
      ensures r.Success? ==> matchers == AddRule(old(matchers), ElementKey(1), MinTypeMatcher(size))
      ensures body == old(body) && generators == old(generators)
      ensures numberExamples == old(numberExamples) && closed == old(closed)
      ensures r.Success? ==> var host := r.value;
                fresh(host) && host.parent == this && host.Linked() && host.rootPath == "" && host.wildCard
                && host.State() == EMPTY && host.numberExamples == examples && !host.closed
    {
      var check := CheckMin(examples, size);
      if check.Fail? {
        return Failure(check.error);
      }
      matchers := AddRule(matchers, rootPath + AppendArrayIndex(1), MinTypeMatcher(size));
      var host := WildcardChild("", examples);
      r := Success(host);
    }

    /** `maxArrayLike(size, numberExamples)`: rejects more examples than the maximum. */
    method MaxArrayLike(size: int, examples: int) returns (r: Result<PactDslJsonArray, DslError>)
      requires Linked()
      modifies this
      ensures r.Failure? <==> examples > size
      ensures r.Failure? ==> r.error == CheckMax(examples, size).error && State() == old(State())
      ensures r.Success? ==> matchers == AddRule(old(matchers), ElementKey(1), MaxTypeMatcher(size))
      ensures body == old(body) && generators == old(generators)
      ensures numberExamples == old(numberExamples) && closed == old(closed)
      ensures r.Success? ==> var host := r.value;
                fresh(host) && host.parent == this && host.Linked() && host.rootPath == "" && host.wildCard
                && host.State() == EMPTY && host.numberExamples == examples && !host.closed
    {
      var check := CheckMax(examples, size);
      if check.Fail? {
        return Failure(check.error);
      }
      matchers := AddRule(matchers, rootPath + AppendArrayIndex(1), MaxTypeMatcher(size));
      var host := WildcardChild("", examples);
      r := Success(host);
    }

    /** `eachArrayLike(numberExamples)`: a wildcard array keeping this root
        path, and inside it a plain array, which is returned. */
    method EachArrayLike(examples: int) returns (inner: PactDslJsonArray)
      requires Linked()
      modifies this
      ensures matchers == AddRule(old(matchers), ElementKey(1), MinTypeMatcher(0))
      ensures body == old(body) && generators == old(generators)
      ensures numberExamples == old(numberExamples) && closed == old(closed)
      ensures fresh(inner) && inner.Linked() && inner.rootPath == "" && !inner.wildCard
      ensures inner.State() == EMPTY && inner.numberExamples == 1 && !inner.closed
      ensures inner.parent != null && fresh(inner.parent) && inner.parent.parent == this
      ensures inner.parent.rootPath == rootPath && inner.parent.wildCard
      ensures inner.parent.State() == EMPTY && inner.parent.numberExamples == examples && !inner.parent.closed
    {
      matchers := AddRule(matchers, rootPath + AppendArrayIndex(1), MinTypeMatcher(0));
      var host := WildcardChild(rootPath, examples);
      inner := host.ArrayChild();
    }

    /** `eachArrayWithMaxLike(numberExamples, size)`. */
    method EachArrayWithMaxLike(examples: int, size: int) returns (r: Result<PactDslJsonArray, DslError>)
      requires Linked()
      modifies this
      ensures r.Failure? <==> examples > size
      ensures r.Failure? ==> r.error == CheckMax(examples, size).error && State() == old(State())
      ensures r.Success? ==> matchers == AddRule(old(matchers), ElementKey(1), MaxTypeMatcher(size))
      ensures body == old(body) && generators == old(generators)
      ensures numberExamples == old(numberExamples) && closed == old(closed)
      ensures r.Success? ==> var inner := r.value;
                fresh(inner) && inner.Linked() && inner.rootPath == "" && !inner.wildCard
                && inner.State() == EMPTY && inner.numberExamples == 1 && !inner.closed
                && inner.parent != null && fresh(inner.parent) && inner.parent.parent == this
                && inner.parent.rootPath == rootPath && inner.parent.wildCard
                && inner.parent.State() == EMPTY && inner.parent.numberExamples == examples
    {
      var check := CheckMax(examples, size);
      if check.Fail? {
        return Failure(check.error);
      }
      matchers := AddRule(matchers, rootPath + AppendArrayIndex(1), MaxTypeMatcher(size));
      var host := WildcardChild(rootPath, examples);
      var inner := host.ArrayChild();
      r := Success(inner);
    }

    /** `eachArrayWithMinLike(numberExamples, size)`. */
    method EachArrayWithMinLike(examples: int, size: int) returns (r: Result<PactDslJsonArray, DslError>)
      requires Linked()
      modifies this
      ensures r.Failure? <==> examples < size
      ensures r.Failure? ==> r.error == CheckMin(examples, size).error && State() == old(State())
      ensures r.Success? ==> matchers == AddRule(old(matchers), ElementKey(1), MinTypeMatcher(size))
      ensures body == old(body) && generators == old(generators)
      ensures numberExamples == old(numberExamples) && closed == old(closed)
      ensures r.Success? ==> var inner := r.value;
                fresh(inner) && inner.Linked() && inner.rootPath == "" && !inner.wildCard
                && inner.State() == EMPTY && inner.numberExamples == 1 && !inner.closed
                && inner.parent != null && fresh(inner.parent) && inner.parent.parent == this
                && inner.parent.rootPath == rootPath && inner.parent.wildCard
                && inner.parent.State() == EMPTY && inner.parent.numberExamples == examples
    {
      var check := CheckMin(examples, size);
      if check.Fail? {
        return Failure(check.error);
      }
      matchers := AddRule(matchers, rootPath + AppendArrayIndex(1), MinTypeMatcher(size));
      var host := WildcardChild(rootPath, examples);
      var inner := host.ArrayChild();
      r := Success(inner);
    }

    /** The shared tail of the root-value forms: `rule` at the next element,
        a wildcard child keeping this root path that receives `value` with
        `putObject`, and the child handed back to this array by `closeArray`. */
    method RootValueChild(rule: MatchingRule, value: Part, examples: int)
      requires Linked()
      modifies this
      ensures State() == Put(ArrayState(old(body), AddRule(old(matchers), rootPath + ArrayIndex(wildCard, |old(body)|, 1), rule),
                                        old(generators)),
                             rootPath, wildCard, AsPart(Put(EMPTY, rootPath, true, value, examples)), 1)
      ensures numberExamples == old(numberExamples) && closed == old(closed)
    {
      matchers := AddRule(matchers, rootPath + AppendArrayIndex(1), rule);
      var child := WildcardChild(rootPath, examples);
      child.PutObject(value);
      var p := child.CloseArray();
    }

    /** `eachLike(value, numberExamples)`. */
    method EachLikeValue(value: Part, examples: int)
      requires Linked()
      modifies this
      ensures State() == Put(ArrayState(old(body), AddRule(old(matchers), rootPath + ArrayIndex(wildCard, |old(body)|, 1), MinTypeMatcher(0)),
                                        old(generators)),
                             rootPath, wildCard, AsPart(Put(EMPTY, rootPath, true, value, examples)), 1)
      ensures numberExamples == old(numberExamples) && closed == old(closed)
    {
      RootValueChild(MinTypeMatcher(0), value, examples);
    }

    /** `minArrayLike(size, value, numberExamples)`; unlike the object form, the
        child keeps this array's root path. */
    method MinArrayLikeValue(size: int, value: Part, examples: int) returns (r: Outcome<DslError>)
      requires Linked()
      modifies this
      ensures r == CheckMin(examples, size)
      ensures r.Fail? ==> State() == old(State())
      ensures r.Pass? ==>
                State() == Put(ArrayState(old(body), AddRule(old(matchers), rootPath + ArrayIndex(wildCard, |old(body)|, 1), MinTypeMatcher(size)),
                                          old(generators)),
                               rootPath, wildCard, AsPart(Put(EMPTY, rootPath, true, value, examples)), 1)
      ensures numberExamples == old(numberExamples) && closed == old(closed)
    {
      r := CheckMin(examples, size);
      if r.Pass? {
        RootValueChild(MinTypeMatcher(size), value, examples);
      }
    }

    /** `maxArrayLike(size, value, numberExamples)`. */
    method MaxArrayLikeValue(size: int, value: Part, examples: int) returns (r: Outcome<DslError>)
      requires Linked()
      modifies this
      ensures r == CheckMax(examples, size)
      ensures r.Fail? ==> State() == old(State())
      ensures r.Pass? ==>
                State() == Put(ArrayState(old(body), AddRule(old(matchers), rootPath + ArrayIndex(wildCard, |old(body)|, 1), MaxTypeMatcher(size)),
                                          old(generators)),
                               rootPath, wildCard, AsPart(Put(EMPTY, rootPath, true, value, examples)), 1)
      ensures numberExamples == old(numberExamples) && closed == old(closed)
    {
      r := CheckMax(examples, size);
      if r.Pass? {
        RootValueChild(MaxTypeMatcher(size), value, examples);
      }
    }
  }

  /** The static factories' wildcard root array: empty root path, no parent, a
      top-level rule under the empty key. */
  method RootWildcard(rule: MatchingRule, examples: int) returns (host: PactDslJsonArray)
    ensures fresh(host) && host.parent == null && host.Linked() && host.rootPath == "" && host.wildCard
    ensures host.body == [] && host.generators == map[] && host.matchers == map["" := MatchingRuleGroup([rule], AND)]
    ensures host.numberExamples == examples && !host.closed
  {
    host := new PactDslJsonArray("", "", null, true);
    host.numberExamples := examples;
    host.matchers := AddRule(host.matchers, "", rule);
  }

  /** `arrayEachLike(numberExamples)`: a root array whose every element is
      like the object the caller builds next; the array is returned. */
  method ArrayEachLike(examples: int) returns (host: PactDslJsonArray)
    ensures fresh(host) && host.parent == null && host.Linked() && host.rootPath == "" && host.wildCard
    ensures host.body == [] && host.generators == map[] && host.matchers == map["" := MatchingRuleGroup([MinTypeMatcher(0)], AND)]
    ensures host.numberExamples == examples && !host.closed
  {
    host := RootWildcard(MinTypeMatcher(0), examples);
  }

  /** `arrayEachLike(numberExamples, value)`: the same root array holding
      `numberExamples` copies of the value. */
  method ArrayEachLikeValue(examples: int, value: Part) returns (host: PactDslJsonArray)
    ensures fresh(host) && host.parent == null && host.Linked() && host.rootPath == "" && host.wildCard
    ensures host.State() == Put(ArrayState([], map["" := MatchingRuleGroup([MinTypeMatcher(0)], AND)], map[]), "", true, value, examples)
    ensures host.numberExamples == examples && !host.closed
  {
    host := RootWildcard(MinTypeMatcher(0), examples);
    host.PutObject(value);
  }

  /** `arrayMinLike(minSize, numberExamples)`. */
  method ArrayMinLike(minSize: int, examples: int) returns (r: Result<PactDslJsonArray, DslError>)
    ensures r.Failure? <==> examples < minSize
    ensures r.Failure? ==> r.error == CheckMin(examples, minSize).error
    ensures r.Success? ==> var host := r.value;
              fresh(host) && host.parent == null && host.Linked() && host.rootPath == "" && host.wildCard
              && host.body == [] && host.generators == map[]
              && host.matchers == map["" := MatchingRuleGroup([MinTypeMatcher(minSize)], AND)]
              && host.numberExamples == examples && !host.closed
  {
    var check := CheckMin(examples, minSize);
    if check.Fail? {
      return Failure(check.error);
    }
    var host := RootWildcard(MinTypeMatcher(minSize), examples);
    r := Success(host);
  }

  /** `arrayMinLike(minSize, numberExamples, value)`. */
  method ArrayMinLikeValue(minSize: int, examples: int, value: Part) returns (r: Result<PactDslJsonArray, DslError>)
    ensures r.Failure? <==> examples < minSize
    ensures r.Failure? ==> r.error == CheckMin(examples, minSize).error
    ensures r.Success? ==> var host := r.value;
              fresh(host) && host.parent == null && host.Linked() && host.rootPath == "" && host.wildCard
              && host.State() == Put(ArrayState([], map["" := MatchingRuleGroup([MinTypeMatcher(minSize)], AND)], map[]), "", true, value, examples)
              && host.numberExamples == examples && !host.closed
  {
    var check := CheckMin(examples, minSize);
    if check.Fail? {
      return Failure(check.error);
    }
    var host := RootWildcard(MinTypeMatcher(minSize), examples);
    host.PutObject(value);
    r := Success(host);
  }

  /** `arrayMaxLike(maxSize, numberExamples)`. */
  method ArrayMaxLike(maxSize: int, examples: int) returns (r: Result<PactDslJsonArray, DslError>)
    ensures r.Failure? <==> examples > maxSize
    ensures r.Failure? ==> r.error == CheckMax(examples, maxSize).error
    ensures r.Success? ==> var host := r.value;
              fresh(host) && host.parent == null && host.Linked() && host.rootPath == "" && host.wildCard
              && host.body == [] && host.generators == map[]
              && host.matchers == map["" := MatchingRuleGroup([MaxTypeMatcher(maxSize)], AND)]
              && host.numberExamples == examples && !host.closed
  {
    var check := CheckMax(examples, maxSize);
    if check.Fail? {
      return Failure(check.error);
    }
    var host := RootWildcard(MaxTypeMatcher(maxSize), examples);
    r := Success(host);
  }

  /** `arrayMaxLike(maxSize, numberExamples, value)`. */
  method ArrayMaxLikeValue(maxSize: int, examples: int, value: Part) returns (r: Result<PactDslJsonArray, DslError>)
    ensures r.Failure? <==> examples > maxSize
    ensures r.Failure? ==> r.error == CheckMax(examples, maxSize).error
    ensures r.Success? ==> var host := r.value;
              fresh(host) && host.parent == null && host.Linked() && host.rootPath == "" && host.wildCard
              && host.State() == Put(ArrayState([], map["" := MatchingRuleGroup([MaxTypeMatcher(maxSize)], AND)], map[]), "", true, value, examples)
              && host.numberExamples == examples && !host.closed
  {
    var check := CheckMax(examples, maxSize);
    if check.Fail? {
      return Failure(check.error);
    }
    var host := RootWildcard(MaxTypeMatcher(maxSize), examples);
    host.PutObject(value);
    r := Success(host);
  }
}
