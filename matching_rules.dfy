/** Matching rules as the builders register them: the rule kinds, a rule group
    combined by AND or OR, and one rule category (for example "body") as a map
    from path key to rule group. Only the interface the core uses is modelled. */
module MatchingRules {
  import opened Paths

  datatype NumberType = NUMBER | INTEGER | DECIMAL

  datatype MatchingRule =
    | RegexMatcher(regex: string)
    | TypeMatcher
    | NumberTypeMatcher(numberType: NumberType)
    | DateMatcher(format: string)
    | TimeMatcher(format: string)
    | TimestampMatcher(format: string)
    | MinTypeMatcher(min: int)
    | MaxTypeMatcher(max: int)
    | IncludeMatcher(value: string)
    | NullMatcher
    | EqualsMatcher
      /** A rule kind the executor has no branch for. */
    | OtherMatcher(name: string)

  datatype RuleLogic = AND | OR

  datatype MatchingRuleGroup = MatchingRuleGroup(rules: seq<MatchingRule>, ruleLogic: RuleLogic)

  /** One category of rules: path key to rule group. */
  type RuleCategory = map<string, MatchingRuleGroup>

  /** `addRule(path, rule)`: appends to the group at `path`, creating an AND group if absent. */
  function AddRule(c: RuleCategory, path: string, rule: MatchingRule): (r: RuleCategory)
    ensures r.Keys == c.Keys + {path}
    ensures path in c ==> r[path] == MatchingRuleGroup(c[path].rules + [rule], c[path].ruleLogic)
    ensures path !in c ==> r[path] == MatchingRuleGroup([rule], AND)
    ensures forall k :: k in c && k != path ==> r[k] == c[k]
  {
    if path in c then c[path := MatchingRuleGroup(c[path].rules + [rule], c[path].ruleLogic)]
    else c[path := MatchingRuleGroup([rule], AND)]
  }

  /** The same `path` given rules one after another keeps them in call order. */
  lemma AddRuleAccumulates(c: RuleCategory, path: string, r1: MatchingRule, r2: MatchingRule)
    requires path !in c
    ensures AddRule(AddRule(c, path, r1), path, r2)[path] == MatchingRuleGroup([r1, r2], AND)
  {
  }

  /** `setRules(path, group)`: replaces the whole group at `path`. */
  function SetRules(c: RuleCategory, path: string, group: MatchingRuleGroup): (r: RuleCategory)
    ensures r.Keys == c.Keys + {path} && r[path] == group
    ensures forall k :: k in c && k != path ==> r[k] == c[k]
  {
    c[path := group]
  }

  /** Every key of `child`, re-keyed under `prefix`, installed with `setRules` over `c`:
      the effect of attaching a closed subtree at address `prefix`. */
  function Absorb(c: RuleCategory, prefix: string, child: RuleCategory): RuleCategory {
    c + PrefixKeys(child, prefix)
  }

  /** What attaching a subtree holds: every child group under its prefixed key,
      and every other group of `c` untouched. */
  lemma AbsorbContents(c: RuleCategory, prefix: string, child: RuleCategory)
    ensures forall k :: k in child ==>
              prefix + k in Absorb(c, prefix, child) && Absorb(c, prefix, child)[prefix + k] == child[k]
    ensures forall k :: k in c && !(|prefix| <= |k| && k[..|prefix|] == prefix && k[|prefix|..] in child)
              ==> k in Absorb(c, prefix, child) && Absorb(c, prefix, child)[k] == c[k]
  {
    PrefixKeysContents(child, prefix);
  }

  /** One child group, found under its prefixed key after attaching. */
  lemma AbsorbAt(c: RuleCategory, prefix: string, child: RuleCategory, k: string)
    requires k in child
    ensures prefix + k in Absorb(c, prefix, child) && Absorb(c, prefix, child)[prefix + k] == child[k]
  {
    PrefixKeysContents(child, prefix);
  }

  /** Attaching a subtree adds no key other than the child's prefixed keys. */
  lemma AbsorbAddsNothingElse(c: RuleCategory, prefix: string, child: RuleCategory)
    ensures forall k :: k in Absorb(c, prefix, child) ==>
              k in c || (|prefix| <= |k| && k[..|prefix|] == prefix && k[|prefix|..] in child)
  {
    PrefixKeysContents(child, prefix);
  }

  /** `applyMatcherRootPrefix(p)` on one category. */
  function ApplyRootPrefix(c: RuleCategory, p: string): RuleCategory {
    PrefixKeys(c, p)
  }

  /** Every group kept under its key with `p` in front, and every key starts with `p`. */
  lemma ApplyRootPrefixContents(c: RuleCategory, p: string)
    ensures forall k :: k in c ==> p + k in ApplyRootPrefix(c, p) && ApplyRootPrefix(c, p)[p + k] == c[k]
    ensures forall k :: k in ApplyRootPrefix(c, p) ==> |p| <= |k| && k[..|p|] == p && k[|p|..] in c
  {
    PrefixKeysContents(c, p);
  }

  /** The first loop of `putObject` and `putArray`: `setRules(prefix + key, group)`
      for each key of the child's rules, in the set's iteration order. */
  method CopyRules(c: RuleCategory, prefix: string, child: RuleCategory) returns (r: RuleCategory)
    ensures r == Absorb(c, prefix, child)
  {
    r := c;
    var keys := child.Keys;
    ghost var done: RuleCategory := map[];
    AbsorbNothing(c, prefix);
    while keys != {}
      invariant keys == child.Keys - done.Keys && done.Keys <= child.Keys
      invariant forall k :: k in done ==> done[k] == child[k]
      invariant r == Absorb(c, prefix, done)
      decreases keys
    {
      var k :| k in keys;
      AbsorbStep(c, prefix, done, k, child[k]);
      r := SetRules(r, prefix + k, child[k]);
      done := done[k := child[k]];
      keys := keys - {k};
    }
    SameKeysSameMap(done, child);
  }

  lemma AbsorbNothing(start: RuleCategory, prefix: string)
    ensures Absorb(start, prefix, map[]) == start
  {
    var none: RuleCategory := map[];
    assert PrefixKeys(none, prefix) == map[];
    assert start + map[] == start;
  }

  lemma SameKeysSameMap(done: RuleCategory, child: RuleCategory)
    requires child.Keys - done.Keys == {} && done.Keys <= child.Keys
    requires forall k :: k in done ==> done[k] == child[k]
    ensures done == child
  {
    assert done.Keys == child.Keys by {
      forall k | k in child ensures k in done { assert k !in child.Keys - done.Keys; }
    }
  }

  /** One step of the rule-copying loop: one more child key installed with `setRules`. */
  lemma AbsorbStep(start: RuleCategory, prefix: string, done: RuleCategory, k: string, g: MatchingRuleGroup)
    ensures Absorb(start, prefix, done[k := g]) == SetRules(Absorb(start, prefix, done), prefix + k, g)
  {
    PrefixKeysUpdate(done, prefix, k, g);
    var a := start + PrefixKeys(done, prefix);
    assert start + PrefixKeys(done, prefix)[prefix + k := g] == a[prefix + k := g];
  }

}
