/** The matcher executor: a pure decision procedure that checks an actual value
    against an expected one under a matching rule, or under a group of rules
    combined by AND or OR, and returns the mismatches found. Regular-expression
    matching and date parsing are library calls, passed in as `Library`. */
module MatcherExecutor {
  import opened Wrappers
  import opened Text
  import opened Json
  import opened MatchingRules

  /** What the mismatch factory is given: expected, actual, message and path. */
  datatype Mismatch = Mismatch(expected: Json, actual: Json, message: string, path: seq<string>)

  /** The library calls the executor makes. `matches(text, regex)` is Kotlin's
      whole-string `String.matches(Regex)`; `parseDate(text, pattern)` is
      `DateUtils.parseDate`, giving `None` when the text parses and otherwise the
      `ParseException` message. */
  datatype Library = Library(matches: (string, string) -> bool, parseDate: (string, string) -> Option<string>)

  /** `valueOf`: how a value is quoted in a message. */
  function ValueOf(v: Json): (s: string)
    ensures v.JNull? ==> s == "null"
    ensures v.JString? ==> s == "'" + v.s + "'"
  {
    match v
    case JNull => "null"
    case JString(t) => "'" + t + "'"
    case _ => ToText(v)
  }

  /** `safeToString`: the text a value is matched as; null reads as the empty string. */
  function SafeToString(v: Json): (s: string)
    ensures v.JNull? ==> s == ""
    ensures v.JString? ==> s == v.s
  {
    if v.JNull? then "" else ToText(v)
  }

  /** `matchInclude`: the actual value's text contains `included`. */
  function MatchInclude(included: string, path: seq<string>, expected: Json, actual: Json): (r: seq<Mismatch>)
    ensures r == [] <==> Contains(SafeToString(actual), included)
    ensures r != [] ==> r == [Mismatch(expected, actual,
                                       "Expected " + ValueOf(actual) + " to include " + ValueOf(JString(included)), path)]
  {
    if Contains(SafeToString(actual), included) then []
    else [Mismatch(expected, actual, "Expected " + ValueOf(actual) + " to include " + ValueOf(JString(included)), path)]
  }

  /** `matchEquality` as written: its message quotes the actual value twice and
      never shows the expected one. Both nulls, or a non-null actual equal to the
      expected value, match: that is `JsonEq` here. */
  function MatchEqualityAsWritten(path: seq<string>, expected: Json, actual: Json): (r: seq<Mismatch>)
    ensures r == [] <==> JsonEq(actual, expected)
    ensures actual == expected ==> r == []
    ensures r != [] ==> r == [Mismatch(expected, actual, "Expected " + ValueOf(actual) + " to equal " + ValueOf(actual), path)]
  {
    JsonEqReflexive(actual);
    if JsonEq(actual, expected) then []
    else [Mismatch(expected, actual, "Expected " + ValueOf(actual) + " to equal " + ValueOf(actual), path)]
  }

  /** `matchEquality` with the message its authors intended. */
  function MatchEquality(path: seq<string>, expected: Json, actual: Json): (r: seq<Mismatch>)
    ensures r == [] <==> JsonEq(actual, expected)
    ensures actual == expected ==> r == []
    ensures r != [] ==> (|r| == 1 && r[0].expected == expected && r[0].actual == actual && r[0].path == path
                         && Contains(r[0].message, ValueOf(expected)))
  {
    JsonEqReflexive(actual);
    if JsonEq(actual, expected) then []
    else
      var message := "Expected " + ValueOf(actual) + " to equal " + ValueOf(expected);
      ContainsInfix("Expected " + ValueOf(actual) + " to equal ", ValueOf(expected), "");
      assert message == "Expected " + ValueOf(actual) + " to equal " + ValueOf(expected) + "";
      [Mismatch(expected, actual, message, path)]
  }

  /** The as-written message can hide the expected value: expecting 1 and getting 2
      reports "Expected 2 to equal 2". */
  lemma EqualityMessageHidesExpected()
    ensures MatchEqualityAsWritten([], JInt(1), JInt(2)) == [Mismatch(JInt(1), JInt(2), "Expected 2 to equal 2", [])]
    ensures !Contains("Expected 2 to equal 2", ValueOf(JInt(1)))
  {
    assert DigitChar(2) == '2' && DigitChar(1) == '1';
    assert IntToString(2) == "2" && IntToString(1) == "1";
    assert ValueOf(JInt(2)) == "2" && ValueOf(JInt(1)) == "1";
    var m := "Expected 2 to equal 2";
    assert "Expected " + "2" + " to equal " + "2" == m;
    assert forall i :: 0 <= i < |m| ==> m[i] != '1';
    NotContainsChar(m, '1');
  }

  /** A text without the character `c` does not contain the one-character text `[c]`. */
  lemma {:induction false} NotContainsChar(s: string, c: char)
    requires forall i :: 0 <= i < |s| ==> s[i] != c
    ensures !Contains(s, [c])
    decreases |s|
  {
    if |s| >= 1 {
      assert s[..1][0] == s[0];
      assert forall i :: 0 <= i < |s[1..]| ==> s[1..][i] == s[i + 1];
      NotContainsChar(s[1..], c);
    }
  }

  /** `matchRegex`: the actual value's text matches the regex as a whole, or both
      values are lists, or both are maps. */
  function MatchRegex(lib: Library, regex: string, path: seq<string>, expected: Json, actual: Json): (r: seq<Mismatch>)
    ensures r == [] <==> lib.matches(SafeToString(actual), regex)
                          || (expected.JArray? && actual.JArray?)
                          || (expected.JObject? && actual.JObject?)
    ensures r != [] ==> r == [Mismatch(expected, actual, "Expected " + ValueOf(actual) + " to match '" + regex + "'", path)]
  {
    if lib.matches(SafeToString(actual), regex)
       || (expected.JArray? && actual.JArray?)
       || (expected.JObject? && actual.JObject?)
    then []
    else [Mismatch(expected, actual, "Expected " + ValueOf(actual) + " to match '" + regex + "'", path)]
  }

  /** `matchType`: both values of the same kind (string, number, boolean, list,
      map), or both null. */
  function MatchType(path: seq<string>, expected: Json, actual: Json): (r: seq<Mismatch>)
    ensures r == [] <==> KindOf(expected) == KindOf(actual)
    ensures expected.JNull? ==> (r == [] <==> actual.JNull?)
    ensures r != [] ==> |r| == 1 && r[0].expected == expected && r[0].actual == actual && r[0].path == path
    ensures r != [] && expected.JNull? ==> r[0].message == "Expected " + ValueOf(actual) + " to be null"
  {
    if KindOf(expected) == KindOf(actual) && !expected.JNull? then []
    else if expected.JNull? then
      if actual.JNull? then []
      else [Mismatch(expected, actual, "Expected " + ValueOf(actual) + " to be null", path)]
    else [Mismatch(expected, actual, "Expected " + ValueOf(actual) + " to be the same type as " + ValueOf(expected), path)]
  }

  /** The number kinds each `NumberType` accepts: integral (Int, Long, BigInteger)
      for INTEGER, fractional (Float, Double, BigDecimal) for DECIMAL, either for NUMBER. */
  predicate IsNumberOf(numberType: NumberType, v: Json) {
    match numberType
    case NUMBER => v.JInt? || v.JDecimal?
    case INTEGER => v.JInt?
    case DECIMAL => v.JDecimal?
  }

  /** `matchNumber`: fails at once when expected is null and actual is not;
      otherwise the actual value must be a number of the requested kind. */
  function MatchNumber(numberType: NumberType, path: seq<string>, expected: Json, actual: Json): (r: seq<Mismatch>)
    ensures r == [] <==> !(expected.JNull? && !actual.JNull?) && IsNumberOf(numberType, actual)
    ensures expected.JNull? && !actual.JNull? ==>
              r == [Mismatch(expected, actual, "Expected " + ValueOf(actual) + " to be null", path)]
    ensures |r| <= 1
  {
    if expected.JNull? && !actual.JNull? then
      [Mismatch(expected, actual, "Expected " + ValueOf(actual) + " to be null", path)]
    else
      match numberType
      case NUMBER =>
        if !(actual.JInt? || actual.JDecimal?) then
          [Mismatch(expected, actual, "Expected " + ValueOf(actual) + " to be a number", path)]
        else []
      case INTEGER =>
        if !actual.JInt? then [Mismatch(expected, actual, "Expected " + ValueOf(actual) + " to be an integer", path)]
        else []
      case DECIMAL =>
        if !actual.JDecimal? then
          [Mismatch(expected, actual, "Expected " + ValueOf(actual) + " to be a decimal number", path)]
        else []
  }

  /** `matchDate`, `matchTime` and `matchTimestamp` differ only in the word in
      their message: the actual value's text must parse with the pattern. */
  function MatchDateLike(lib: Library, what: string, pattern: string, path: seq<string>,
                         expected: Json, actual: Json): (r: seq<Mismatch>)
    ensures r == [] <==> lib.parseDate(SafeToString(actual), pattern).None?
    ensures r != [] ==> r == [Mismatch(expected, actual,
                                       "Expected " + ValueOf(actual) + " to match a " + what + " of '" + pattern + "': "
                                       + lib.parseDate(SafeToString(actual), pattern).value, path)]
  {
    match lib.parseDate(SafeToString(actual), pattern)
    case None => []
    case Some(error) =>
      [Mismatch(expected, actual,
                "Expected " + ValueOf(actual) + " to match a " + what + " of '" + pattern + "': " + error, path)]
  }

  /** `matchMinType`: a list must have at least `min` elements; anything else is type-matched. */
  function MatchMinType(min: int, path: seq<string>, expected: Json, actual: Json): (r: seq<Mismatch>)
    ensures actual.JArray? ==> (r == [] <==> |actual.items| >= min)
    ensures actual.JArray? && r != [] ==>
              r == [Mismatch(expected, actual, "Expected " + ValueOf(actual) + " to have minimum " + IntToString(min), path)]
    ensures !actual.JArray? ==> r == MatchType(path, expected, actual)
  {
    if actual.JArray? then
      if |actual.items| < min then
        [Mismatch(expected, actual, "Expected " + ValueOf(actual) + " to have minimum " + IntToString(min), path)]
      else []
    else MatchType(path, expected, actual)
  }

  /** `matchMaxType`: a list must have at most `max` elements; anything else is type-matched. */
  function MatchMaxType(max: int, path: seq<string>, expected: Json, actual: Json): (r: seq<Mismatch>)
    ensures actual.JArray? ==> (r == [] <==> |actual.items| <= max)
    ensures actual.JArray? && r != [] ==>
              r == [Mismatch(expected, actual, "Expected " + ValueOf(actual) + " to have maximum " + IntToString(max), path)]
    ensures !actual.JArray? ==> r == MatchType(path, expected, actual)
  {
    if actual.JArray? then
      if |actual.items| > max then
        [Mismatch(expected, actual, "Expected " + ValueOf(actual) + " to have maximum " + IntToString(max), path)]
      else []
    else MatchType(path, expected, actual)
  }

  /** `matchNull`: the actual value must be null; the mismatch reports null as expected. */
  function MatchNull(path: seq<string>, actual: Json): (r: seq<Mismatch>)
    ensures r == [] <==> actual.JNull?
    ensures r != [] ==> r == [Mismatch(JNull, actual, "Expected " + ValueOf(actual) + " to be null", path)]
  {
    if actual.JNull? then [] else [Mismatch(JNull, actual, "Expected " + ValueOf(actual) + " to be null", path)]
  }

  /** `domatch(rule, …)`: dispatch on the rule kind; kinds without a branch of
      their own (equality and any other) are matched by equality. */
  function DoMatch(lib: Library, rule: MatchingRule, path: seq<string>, expected: Json, actual: Json): (r: seq<Mismatch>)
    ensures |r| <= 1
  {
    match rule
    case RegexMatcher(regex) => MatchRegex(lib, regex, path, expected, actual)
    case TypeMatcher => MatchType(path, expected, actual)
    case NumberTypeMatcher(numberType) => MatchNumber(numberType, path, expected, actual)
    case DateMatcher(format) => MatchDateLike(lib, "date", format, path, expected, actual)
    case TimeMatcher(format) => MatchDateLike(lib, "time", format, path, expected, actual)
    case TimestampMatcher(format) => MatchDateLike(lib, "timestamp", format, path, expected, actual)
    case MinTypeMatcher(min) => MatchMinType(min, path, expected, actual)
    case MaxTypeMatcher(max) => MatchMaxType(max, path, expected, actual)
    case IncludeMatcher(value) => MatchInclude(value, path, expected, actual)
    case NullMatcher => MatchNull(path, actual)
    case _ => MatchEqualityAsWritten(path, expected, actual)
  }

  /** The equality rule, and rule kinds the dispatch does not name, fall back to
      `matchEquality` as written: no mismatch exactly when the values are equal,
      and otherwise the message that quotes the actual value twice. */
  lemma UnknownRuleIsEquality(lib: Library, rule: MatchingRule, path: seq<string>, expected: Json, actual: Json)
    requires rule.EqualsMatcher? || rule.OtherMatcher?
    ensures DoMatch(lib, rule, path, expected, actual) == MatchEqualityAsWritten(path, expected, actual)
    ensures DoMatch(lib, rule, path, expected, actual) == [] <==> JsonEq(actual, expected)
    ensures DoMatch(lib, rule, path, expected, actual) != [] ==>
              DoMatch(lib, rule, path, expected, actual)
              == [Mismatch(expected, actual, "Expected " + ValueOf(actual) + " to equal " + ValueOf(actual), path)]
  {
  }

  /** The corrected `matchEquality` changes only the message: it reaches the same
      verdict as the one written, on the same values and path. */
  lemma EqualityFixKeepsVerdict(path: seq<string>, expected: Json, actual: Json)
    ensures MatchEquality(path, expected, actual) == [] <==> MatchEqualityAsWritten(path, expected, actual) == []
    ensures MatchEquality(path, expected, actual) != [] ==>
              var w := MatchEqualityAsWritten(path, expected, actual)[0];
              var c := MatchEquality(path, expected, actual)[0];
              |MatchEqualityAsWritten(path, expected, actual)| == |MatchEquality(path, expected, actual)| == 1
              && w.expected == c.expected && w.actual == c.actual && w.path == c.path
  {
  }

  /** The mismatches of every rule, concatenated in rule order. */
  function Flatten(results: seq<seq<Mismatch>>): seq<Mismatch>
    decreases |results|
  {
    if results == [] then [] else results[0] + Flatten(results[1..])
  }

  /** Each rule of a group applied to the same values. */
  function Results(lib: Library, rules: seq<MatchingRule>, path: seq<string>, expected: Json, actual: Json)
    : (r: seq<seq<Mismatch>>)
    ensures |r| == |rules|
    ensures forall i :: 0 <= i < |rules| ==> r[i] == DoMatch(lib, rules[i], path, expected, actual)
  {
    seq(|rules|, i requires 0 <= i < |rules| => DoMatch(lib, rules[i], path, expected, actual))
  }

  /** `domatch(group, …)`: AND concatenates every rule's mismatches; OR gives none
      as soon as one rule gives none, and otherwise concatenates them too. */
  function DoMatchGroup(lib: Library, group: MatchingRuleGroup, path: seq<string>, expected: Json, actual: Json)
    : seq<Mismatch>
  {
    CombineResults(group.ruleLogic, Results(lib, group.rules, path, expected, actual))
  }

  /** The group's verdict from the results of its rules, by its logic. */
  function CombineResults(logic: RuleLogic, results: seq<seq<Mismatch>>): seq<Mismatch> {
    if logic == AND then Flatten(results)
    else if exists i :: 0 <= i < |results| && results[i] == [] then []
    else Flatten(results)
  }

  /** Number of rules that fail. */
  function Failing(results: seq<seq<Mismatch>>): nat
    decreases |results|
  {
    if results == [] then 0 else (if results[0] == [] then 0 else 1) + Failing(results[1..])
  }

  /** Each rule contributing at most one mismatch, the concatenation holds one
      mismatch per failing rule, and is empty exactly when every rule passes. */
  lemma {:induction false} FlattenCounts(results: seq<seq<Mismatch>>)
    requires forall i :: 0 <= i < |results| ==> |results[i]| <= 1
    ensures |Flatten(results)| == Failing(results)
    ensures Flatten(results) == [] <==> forall i :: 0 <= i < |results| ==> results[i] == []
    decreases |results|
  {
    if results != [] {
      FlattenCounts(results[1..]);
      assert forall i :: 1 <= i < |results| ==> results[1..][i - 1] == results[i];
    }
  }

  /** AND: no mismatch exactly when every rule passes, and one mismatch per failing rule. */
  lemma AndGroup(lib: Library, rules: seq<MatchingRule>, path: seq<string>, expected: Json, actual: Json)
    ensures var r := DoMatchGroup(lib, MatchingRuleGroup(rules, AND), path, expected, actual);
            (r == [] <==> forall i :: 0 <= i < |rules| ==> DoMatch(lib, rules[i], path, expected, actual) == [])
            && |r| == Failing(Results(lib, rules, path, expected, actual))
  {
    FlattenCounts(Results(lib, rules, path, expected, actual));
  }

  /** OR: no mismatch exactly when the group is empty or some rule passes;
      otherwise one mismatch per rule. */
  lemma OrGroup(lib: Library, rules: seq<MatchingRule>, path: seq<string>, expected: Json, actual: Json)
    ensures var r := DoMatchGroup(lib, MatchingRuleGroup(rules, OR), path, expected, actual);
            (r == [] <==> rules == [] || exists i :: 0 <= i < |rules| && DoMatch(lib, rules[i], path, expected, actual) == [])
            && (r != [] ==> |r| == |rules|)
  {
    OrResults(Results(lib, rules, path, expected, actual));
  }

  /** The OR verdict over any results of at most one mismatch each. */
  lemma OrResults(results: seq<seq<Mismatch>>)
    requires forall i :: 0 <= i < |results| ==> |results[i]| <= 1
    ensures var r := CombineResults(OR, results);
            (r == [] <==> results == [] || exists i :: 0 <= i < |results| && results[i] == [])
            && (r != [] ==> |r| == |results|)
  {
    FlattenCounts(results);
    if forall i :: 0 <= i < |results| ==> results[i] != [] {
      AllFailing(results);
    }
  }

  lemma {:induction false} AllFailing(results: seq<seq<Mismatch>>)
    requires forall i :: 0 <= i < |results| ==> results[i] != []
    ensures Failing(results) == |results|
    decreases |results|
  {
    if results != [] {
      AllFailing(results[1..]);
    }
  }
}
