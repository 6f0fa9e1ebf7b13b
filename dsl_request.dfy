/** The consumer DSL's request builder before a path is given: it collects the
    HTTP method, the headers, the query, the body and the request's matching
    rules and generators, and hands them on to a request with a path. */
module DslRequest {
  import opened Wrappers
  import opened Json
  import opened MatchingRules
  import opened Generators
  import opened DslArray

  /** The header every body form may set. */
  const CONTENT_TYPE: string := "Content-Type"

  /** `ContentType.APPLICATION_JSON.toString()` of Apache HttpCore. */
  const APPLICATION_JSON: string := "application/json; charset=UTF-8"

  /** `ContentType.APPLICATION_XML.toString()` of Apache HttpCore. */
  const APPLICATION_XML: string := "application/xml; charset=ISO-8859-1"

  /** The message of the exception `headers` throws for a name without a value. */
  const MISSING_VALUE: string := "Pair key value should be provided, but there is one key without value."

  datatype RequestError = IllegalArgument(message: string)

  /** The request's matching rules: category name ("body", "path", ...) to its rules. */
  type RequestRules = map<string, RuleCategory>

  /** What `path(...)` and `matchPath(...)` hand to the request with a path. */
  datatype RequestWithPath = RequestWithPath(
    description: string,
    path: string,
    requestMethod: Option<string>,
    headers: map<string, string>,
    query: map<string, seq<string>>,
    body: OptionalBody,
    matchers: RequestRules,
    generators: GeneratorTable)

  /** The headers after the name-value pairs of `pairs` are put one pair after
      another, (pairs[0], pairs[1]) first; a trailing name without a value is not put. */
  function WithPairs(h: map<string, string>, pairs: seq<string>): (r: map<string, string>)
    ensures h.Keys <= r.Keys
    decreases |pairs|
  {
    if |pairs| < 2 then h else WithPairs(h[pairs[0] := pairs[1]], pairs[2..])
  }

  /** A name that no pair puts keeps the value it had, or stays absent. */
  lemma {:induction false} UnpairedNameKept(h: map<string, string>, pairs: seq<string>, k: string)
    requires forall l :: 0 <= l < |pairs| - 1 && l % 2 == 0 ==> pairs[l] != k
    ensures k in WithPairs(h, pairs) <==> k in h
    ensures k in h ==> WithPairs(h, pairs)[k] == h[k]
    decreases |pairs|
  {
    if |pairs| >= 2 {
      assert pairs[0] != k;
      forall l | 0 <= l < |pairs[2..]| - 1 && l % 2 == 0
        ensures pairs[2..][l] != k
      {
        assert pairs[2..][l] == pairs[l + 2];
      }
      UnpairedNameKept(h[pairs[0] := pairs[1]], pairs[2..], k);
    }
  }

  /** Later duplicates overwrite earlier ones: a name ends with the value of the
      last pair that puts it. */
  lemma {:induction false} LastPairWins(h: map<string, string>, pairs: seq<string>, k: string, j: int)
    requires 0 <= j < |pairs| - 1 && j % 2 == 0 && pairs[j] == k
    requires forall l :: j < l < |pairs| - 1 && l % 2 == 0 ==> pairs[l] != k
    ensures k in WithPairs(h, pairs) && WithPairs(h, pairs)[k] == pairs[j + 1]
    decreases |pairs|
  {
    forall l | 0 <= l < |pairs[2..]|
      ensures pairs[2..][l] == pairs[l + 2]
    {
    }
    if j == 0 {
      UnpairedNameKept(h[k := pairs[1]], pairs[2..], k);
    } else {
      LastPairWins(h[pairs[0] := pairs[1]], pairs[2..], k, j - 2);
    }
  }

  /** Putting pairs adds no name other than the names of complete pairs. */
  lemma {:induction false} PairsAddOnlyTheirNames(h: map<string, string>, pairs: seq<string>, k: string)
    requires k in WithPairs(h, pairs) && k !in h
    ensures exists l :: 0 <= l < |pairs| - 1 && l % 2 == 0 && pairs[l] == k
  {
    if forall l :: 0 <= l < |pairs| - 1 && l % 2 == 0 ==> pairs[l] != k {
      UnpairedNameKept(h, pairs, k);
    }
  }

  /** A header put only when the name is absent: an existing value is kept. */
  function WithDefault(h: map<string, string>, name: string, value: string): (r: map<string, string>)
    ensures r.Keys == h.Keys + {name}
    ensures name in h ==> r == h
    ensures name !in h ==> r[name] == value && forall k :: k in h ==> r[k] == h[k]
  {
    if name in h then h else h[name := value]
  }

  /** An explicit Content-Type given with `body(String, mimeType)` survives a
      later JSON or XML body, and a second default never replaces the first. */
  lemma ExplicitContentTypeKept(h: map<string, string>, mime: string, d1: string, d2: string)
    ensures WithDefault(h[CONTENT_TYPE := mime], CONTENT_TYPE, d1)[CONTENT_TYPE] == mime
    ensures WithDefault(WithDefault(h, CONTENT_TYPE, d1), CONTENT_TYPE, d2)[CONTENT_TYPE]
            == (if CONTENT_TYPE in h then h[CONTENT_TYPE] else d1)
  {
  }

  /** `addCategory(name)` on the request's rules: the category, created empty
      when missing. */
  function RuleCategoryOf(m: RequestRules, name: string): RuleCategory {
    if name in m then m[name] else map[]
  }

  /** `matchPath(regex, path)` on the request's rules: a regex rule added to the
      "path" category, under the empty key the path category uses. */
  function WithPathRule(m: RequestRules, regex: string): (r: RequestRules)
    ensures r.Keys == m.Keys + {"path"}
    ensures forall n :: n in m && n != "path" ==> r[n] == m[n]
    ensures "" in r["path"]
    ensures r["path"][""].rules == (if "path" in m && "" in m["path"] then m["path"][""].rules else []) + [RegexMatcher(regex)]
    ensures forall k :: "path" in m && k in m["path"] && k != "" ==> k in r["path"] && r["path"][k] == m["path"][k]
  {
    m["path" := AddRule(RuleCategoryOf(m, "path"), "", RegexMatcher(regex))]
  }

  /** Two `matchPath` calls on one request leave both regexes, in call order, in
      one AND group. */
  lemma MatchPathTwiceKeepsBoth(m: RequestRules, r1: string, r2: string)
    requires "path" !in m
    ensures WithPathRule(WithPathRule(m, r1), r2)["path"][""] == MatchingRuleGroup([RegexMatcher(r1), RegexMatcher(r2)], AND)
  {
    AddRuleAccumulates(map[], "", RegexMatcher(r1), RegexMatcher(r2));
  }

  /** Once an open array is closed and prefixed with "$", every rule the
      innermost builder had sits under "$", the addresses of the builders it was
      closed into, and its own key; `body(DslPart)` installs exactly these rules
      as the request's "body" rules. */
  lemma ClosedBodyKeepsInnerRules(chain: seq<PactDslJsonArray>, olds: seq<ArrayState>, k: string)
    requires 0 < |chain| == |olds|
    requires k in olds[0].matchers
    ensures var rules := Prefixed(Closing(chain, olds, |chain| - 1), "$").matchers;
            var key := "$" + (Address(chain, olds, |chain| - 1) + k);
            key in rules && rules[key] == olds[0].matchers[k]
  {
    var closing := Closing(chain, olds, |chain| - 1);
    ClosingKeepsInnerRules(chain, olds, |chain| - 1, k);
    ApplyRootPrefixContents(closing.matchers, "$");
  }

  /** The same for every rule of the innermost builder at once. */
  lemma ClosedBodyKeepsAllInnerRules(chain: seq<PactDslJsonArray>, olds: seq<ArrayState>, rules: RuleCategory)
    requires 0 < |chain| == |olds|
    requires rules == Prefixed(Closing(chain, olds, |chain| - 1), "$").matchers
    ensures forall k :: k in olds[0].matchers ==>
              "$" + (Address(chain, olds, |chain| - 1) + k) in rules
              && rules["$" + (Address(chain, olds, |chain| - 1) + k)] == olds[0].matchers[k]
  {
    forall k | k in olds[0].matchers
      ensures "$" + (Address(chain, olds, |chain| - 1) + k) in rules
      ensures rules["$" + (Address(chain, olds, |chain| - 1) + k)] == olds[0].matchers[k]
    {
      ClosedBodyKeepsInnerRules(chain, olds, k);
    }
  }

  class PactDslRequestWithoutPath {
    const description: string
    var requestMethod: Option<string>
    var requestHeaders: map<string, string>
    var query: map<string, seq<string>>
    var requestBody: OptionalBody
    var requestMatchers: RequestRules
    /** The request's generator registry, filled in place by `body(DslPart)`. */
    const requestGenerators: Generators

    constructor (description: string)
      ensures this.description == description
      ensures requestMethod == None && requestHeaders == map[] && query == map[]
      ensures requestBody == Missing && requestMatchers == map[]
      ensures fresh(requestGenerators) && requestGenerators.categories == map[]
    {
      this.description := description;
      requestMethod := None;
      requestHeaders := map[];
      query := map[];
      requestBody := Missing;
      requestMatchers := map[];
      requestGenerators := new Generators();
    }

    /** `method(m)`. */
    method Method(m: string)
      modifies this
      ensures requestMethod == Some(m)
      ensures requestHeaders == old(requestHeaders) && query == old(query)
      ensures requestBody == old(requestBody) && requestMatchers == old(requestMatchers)
    {
      requestMethod := Some(m);
    }

    /** `headers(Map)`: the header map replaced by a copy of the argument. */
    method HeadersMap(headers: map<string, string>)
      modifies this
      ensures requestHeaders == headers
      ensures requestMethod == old(requestMethod) && query == old(query)
      ensures requestBody == old(requestBody) && requestMatchers == old(requestMatchers)
    {
      requestHeaders := headers;
    }

    /** `headers(name, value, pairs...)`: an odd number of further arguments is
        refused before any header is written; otherwise the first pair and then
        every (pairs[i], pairs[i + 1]) are put in order. */
    method Headers(firstName: string, firstValue: string, pairs: seq<string>) returns (r: Outcome<RequestError>)
      modifies this
      ensures |pairs| % 2 != 0 ==> r == Fail(RequestError.IllegalArgument(MISSING_VALUE)) && requestHeaders == old(requestHeaders)
      ensures |pairs| % 2 == 0 ==> r == Pass && requestHeaders == WithPairs(old(requestHeaders)[firstName := firstValue], pairs)
      ensures requestMethod == old(requestMethod) && query == old(query)
      ensures requestBody == old(requestBody) && requestMatchers == old(requestMatchers)
    {
      if |pairs| % 2 != 0 {
        return Fail(RequestError.IllegalArgument(MISSING_VALUE));
      }
      requestHeaders := requestHeaders[firstName := firstValue];
      ghost var start := requestHeaders;
      var i := 0;
      while i < |pairs|
        invariant 0 <= i <= |pairs| && i % 2 == 0
        invariant WithPairs(requestHeaders, pairs[i..]) == WithPairs(start, pairs)
        invariant requestMethod == old(requestMethod) && query == old(query)
        invariant requestBody == old(requestBody) && requestMatchers == old(requestMatchers)
        decreases |pairs| - i
      {
        assert pairs[i..][2..] == pairs[i + 2..];
        requestHeaders := requestHeaders[pairs[i] := pairs[i + 1]];
        i := i + 2;
      }
      assert pairs[i..] == [];
      r := Pass;
    }

    /** `query(q)`: the query string parsed by `queryStringToMap`, given as `parse`. */
    method Query(q: string, parse: string -> map<string, seq<string>>)
      modifies this
      ensures query == parse(q)
      ensures requestMethod == old(requestMethod) && requestHeaders == old(requestHeaders)
      ensures requestBody == old(requestBody) && requestMatchers == old(requestMatchers)
    {
      query := parse(q);
    }

    /** `body(String)`. */
    method Body(body: string)
      modifies this
      ensures requestBody == BodyOf(body)
      ensures requestMethod == old(requestMethod) && requestHeaders == old(requestHeaders)
      ensures query == old(query) && requestMatchers == old(requestMatchers)
    {
      requestBody := BodyOf(body);
    }

    /** `body(String, mimeType)`: the Content-Type is set whatever it was. */
    method BodyWithMime(body: string, mimeType: string)
      modifies this
      ensures requestBody == BodyOf(body)
      ensures requestHeaders == old(requestHeaders)[CONTENT_TYPE := mimeType]
      ensures requestMethod == old(requestMethod) && query == old(query) && requestMatchers == old(requestMatchers)
    {
      requestBody := BodyOf(body);
      requestHeaders := requestHeaders[CONTENT_TYPE := mimeType];
    }

    /** `body(JSONObject)`: the object's JSON text (`JSONObject.toString()`, given
        as `render`), and a JSON Content-Type unless one is set. */
    method BodyJson(body: Json, render: Json -> string)
      modifies this
      ensures requestBody == BodyOf(render(body))
      ensures requestHeaders == WithDefault(old(requestHeaders), CONTENT_TYPE, APPLICATION_JSON)
      ensures requestMethod == old(requestMethod) && query == old(query) && requestMatchers == old(requestMatchers)
    {
      requestBody := BodyOf(render(body));
      if CONTENT_TYPE !in requestHeaders {
        requestHeaders := requestHeaders[CONTENT_TYPE := APPLICATION_JSON];
      }
    }

    /** `body(DslPart)` for an array builder: the builder is closed, the closed
        root's "body" rules installed as the request's "body" category, its
        generators added to the request's registry, its JSON text
        (`JSONArray.toString()`, given as `render`) made the body, and a JSON
        Content-Type set unless one is set. */
    method BodyPart(part: PactDslJsonArray, render: Json -> string) returns (root: PactDslJsonArray)
      requires part.Linked()
      modifies this, requestGenerators, part.Chain()
      ensures requestMatchers == old(requestMatchers)["body" := root.matchers]
      ensures requestGenerators.categories == Merged(old(requestGenerators.categories), root.generators, "")
      ensures requestBody == BodyOf(render(JArray(root.body)))
      ensures requestHeaders == WithDefault(old(requestHeaders), CONTENT_TYPE, APPLICATION_JSON)
      ensures requestMethod == old(requestMethod) && query == old(query)
      ensures !old(part.closed) ==>
                root == part.Chain()[|part.Chain()| - 1] && root.closed
                && root.State() == Prefixed(Closing(part.Chain(), old(part.States()), |part.Chain()| - 1), "$")
      ensures old(part.closed) ==> root == part && root.State() == Prefixed(old(part.State()), "$")
      ensures !old(part.closed) ==> forall k :: k in old(part.matchers) ==>
                "$" + (Address(part.Chain(), old(part.States()), |part.Chain()| - 1) + k) in requestMatchers["body"]
                && requestMatchers["body"]["$" + (Address(part.Chain(), old(part.States()), |part.Chain()| - 1) + k)]
                   == old(part.matchers)[k]
    {
      ghost var request := (requestMethod, requestHeaders, query, requestMatchers, requestGenerators.categories);
      ghost var chain := part.Chain();
      ghost var olds := part.States();
      ghost var arrays: seq<object> := chain;
      assert this !in arrays && requestGenerators !in arrays;
      root := part.Close();
      assert (requestMethod, requestHeaders, query, requestMatchers, requestGenerators.categories) == request;
      ghost var closed := root.State();
      assert root as object != this && root as object != requestGenerators;
      InstallBody(root.matchers, root.generators, render(JArray(root.body)));
      assert root.State() == closed;
      if !old(part.closed) {
        ClosedBodyKeepsAllInnerRules(chain, olds, root.matchers);
      }
    }

    /** The rest of `body(DslPart)` once the part is closed: its rules, its
        generators and its text installed, and the JSON Content-Type defaulted. */
    method InstallBody(rules: RuleCategory, generators: GeneratorTable, text: string)
      modifies this, requestGenerators
      ensures requestMatchers == old(requestMatchers)["body" := rules]
      ensures requestGenerators.categories == Merged(old(requestGenerators.categories), generators, "")
      ensures requestBody == BodyOf(text)
      ensures requestHeaders == WithDefault(old(requestHeaders), CONTENT_TYPE, APPLICATION_JSON)
      ensures requestMethod == old(requestMethod) && query == old(query)
    {
      requestMatchers := requestMatchers["body" := rules];
      requestGenerators.AddGenerators(generators, "");
      requestBody := BodyOf(text);
      if CONTENT_TYPE !in requestHeaders {
        requestHeaders := requestHeaders[CONTENT_TYPE := APPLICATION_JSON];
      }
    }

    /** `body(Document)`: the document's text by `xmlToString`, given as
        `xmlText`, and an XML Content-Type unless one is set. */
    method BodyXml<D>(body: D, xmlText: D -> string)
      modifies this
      ensures requestBody == BodyOf(xmlText(body))
      ensures requestHeaders == WithDefault(old(requestHeaders), CONTENT_TYPE, APPLICATION_XML)
      ensures requestMethod == old(requestMethod) && query == old(query) && requestMatchers == old(requestMatchers)
    {
      requestBody := BodyOf(xmlText(body));
      if CONTENT_TYPE !in requestHeaders {
        requestHeaders := requestHeaders[CONTENT_TYPE := APPLICATION_XML];
      }
    }

    /** `path(path)`: the request so far, with the path. */
    method Path(path: string) returns (r: RequestWithPath)
      ensures r == RequestWithPath(description, path, requestMethod, requestHeaders, query, requestBody,
                                   requestMatchers, requestGenerators.categories)
    {
      r := RequestWithPath(description, path, requestMethod, requestHeaders, query, requestBody,
                           requestMatchers, requestGenerators.categories);
    }

    /** `matchPath(regex, path)`: a regex rule for the path, then the request with
        `path` as its example path. */
    method MatchPath(pathRegex: string, path: string) returns (r: RequestWithPath)
      modifies this
      ensures requestMatchers == WithPathRule(old(requestMatchers), pathRegex)
      ensures r == RequestWithPath(description, path, requestMethod, requestHeaders, query, requestBody,
                                   requestMatchers, requestGenerators.categories)
      ensures requestMethod == old(requestMethod) && requestHeaders == old(requestHeaders)
      ensures query == old(query) && requestBody == old(requestBody)
    {
      requestMatchers := requestMatchers["path" := AddRule(RuleCategoryOf(requestMatchers, "path"), "", RegexMatcher(pathRegex))];
      r := Path(path);
    }

    /** `matchPath(regex)`: the example path is a string generated from the
        regex (`new Generex(regex).random()`, given as `random`). */
    method MatchPathRandom(pathRegex: string, random: string -> string) returns (r: RequestWithPath)
      modifies this
      ensures requestMatchers == WithPathRule(old(requestMatchers), pathRegex)
      ensures r.path == random(pathRegex) && r.matchers == requestMatchers
      ensures requestMethod == old(requestMethod) && requestHeaders == old(requestHeaders)
      ensures query == old(query) && requestBody == old(requestBody)
    {
      r := MatchPath(pathRegex, random(pathRegex));
    }
  }
}
