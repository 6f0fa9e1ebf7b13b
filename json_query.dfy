/** The JSON body walk of the generator registry: a parsed body path is
    followed through a JSON value, descending on field and index tokens and
    fanning out on `*` and `[*]`, and a generator's value is written at every
    place the walk reaches. JVM objects are shared and written in place; here
    a value is rebuilt along the location of each write. */
module JsonQuery {
  import opened Wrappers
  import opened Json

  /** A token of a parsed body path: `$`, `.name`, `[n]`, `.*`, `[*]`. */
  datatype PathToken = Root | Field(name: string) | Index(index: nat) | Star | StarIndex

  /** The key under which a value sits in its parent: a map key or a list index. */
  datatype Step = FieldStep(name: string) | IndexStep(index: nat)

  /** A value reached by the walk, with its location from the root. */
  datatype Hit = Hit(value: Json, location: seq<Step>)

  /** Number of tokens that descend one level (every token except `$`). */
  function Depth(path: seq<PathToken>): (d: nat)
    ensures d <= |path|
  {
    if path == [] then 0 else (if path[0].Root? then 0 else 1) + Depth(path[1..])
  }

  /** The value at a location, if the location exists. */
  function ValueAt(v: Json, location: seq<Step>): Option<Json>
    decreases |location|
  {
    if location == [] then Some(v)
    else match location[0]
      case FieldStep(n) =>
        if v.JObject? && FindField(v.fields, n).Some? then
          ValueAt(v.fields[FindField(v.fields, n).value].value, location[1..])
        else None
      case IndexStep(i) =>
        if v.JArray? && i < |v.items| then ValueAt(v.items[i], location[1..]) else None
  }

  /** `v` with the value at `location` replaced by `x`; unchanged if the location does not exist. */
  function SetAt(v: Json, location: seq<Step>, x: Json): Json
    decreases |location|
  {
    if location == [] then x
    else match location[0]
      case FieldStep(n) =>
        if v.JObject? && FindField(v.fields, n).Some? then
          var k := FindField(v.fields, n).value;
          JObject(v.fields[k := Member(n, SetAt(v.fields[k].value, location[1..], x))])
        else v
      case IndexStep(i) =>
        if v.JArray? && i < |v.items| then JArray(v.items[i := SetAt(v.items[i], location[1..], x)]) else v
  }

  /** Two walks one after the other; a walk that throws makes the whole walk throw. */
  function Then(a: Option<seq<Hit>>, b: Option<seq<Hit>>): Option<seq<Hit>> {
    if a.None? || b.None? then None else Some(a.value + b.value)
  }

  lemma ThenUnit(a: Option<seq<Hit>>)
    ensures Then(Some([]), a) == a
  {
    if a.Some? {
      assert [] + a.value == a.value;
    }
  }

  lemma ThenStep(acc: seq<Hit>, next: seq<Hit>, later: Option<seq<Hit>>)
    ensures Then(Some(acc), Then(Some(next), later)) == Then(Some(acc + next), later)
  {
    if later.Some? {
      assert acc + (next + later.value) == acc + next + later.value;
    }
  }

  /** Every hit lies below `location`, `depth` levels down, and holds the value found there. */
  predicate HitsBelow(hits: seq<Hit>, v: Json, location: seq<Step>, depth: nat) {
    forall h :: h in hits ==>
      |h.location| == |location| + depth && h.location[..|location|] == location
      && ValueAt(v, h.location[|location|..]) == Some(h.value)
  }

  /** `queryObjectGraph(path, body, fn)`: the hits the callback `fn` receives, in
      order; `None` when the walk dereferences a JSON null (a NullPointerException). */
  function Query(path: seq<PathToken>, v: Json, location: seq<Step>): (r: Option<seq<Hit>>)
    ensures r.Some? ==> HitsBelow(r.value, v, location, Depth(path))
    decreases |path|, 1, 0
  {
    if path == [] then Some([Hit(v, location)])
    else match path[0]
      case Root => Query(path[1..], v, location)
      case Field(n) =>
        if v.JObject? && FindField(v.fields, n).Some? then
          var child := v.fields[FindField(v.fields, n).value].value;
          if child.JNull? then None
          else
            var r := Query(path[1..], child, location + [FieldStep(n)]);
            HitsLift(r, v, child, location, FieldStep(n), Depth(path[1..]));
            r
        else Some([])
      case Index(i) =>
        if v.JArray? && i < |v.items| then
          var child := v.items[i];
          if child.JNull? then None
          else
            var r := Query(path[1..], child, location + [IndexStep(i)]);
            HitsLift(r, v, child, location, IndexStep(i), Depth(path[1..]));
            r
        else Some([])
      case Star =>
        if v.JObject? then QueryFields(path[1..], v, location, 0) else Some([])
      case StarIndex =>
        if v.JArray? then QueryItems(path[1..], v, location, 0) else Some([])
  }

  /** The rest of the path from each member of the map `v`, from member `from` on;
      a member's value is read by its name, as a map entry is. */
  function QueryFields(rest: seq<PathToken>, v: Json, location: seq<Step>, from: nat): (r: Option<seq<Hit>>)
    requires v.JObject?
    ensures r.Some? ==> HitsBelow(r.value, v, location, 1 + Depth(rest))
    decreases |rest| + 1, 0, |v.fields| - from
  {
    if from >= |v.fields| then Some([])
    else
      var name := v.fields[from].name;
      var child := v.fields[FindField(v.fields, name).value].value;
      if child.JNull? then None
      else
        var here := Query(rest, child, location + [FieldStep(name)]);
        HitsLift(here, v, child, location, FieldStep(name), Depth(rest));
        var later := QueryFields(rest, v, location, from + 1);
        Then(here, later)
  }

  /** The rest of the path from each element of the list `v`, from index `from` on. */
  function QueryItems(rest: seq<PathToken>, v: Json, location: seq<Step>, from: nat): (r: Option<seq<Hit>>)
    requires v.JArray?
    ensures r.Some? ==> HitsBelow(r.value, v, location, 1 + Depth(rest))
    decreases |rest| + 1, 0, |v.items| - from
  {
    if from >= |v.items| then Some([])
    else
      var child := v.items[from];
      if child.JNull? then None
      else
        var here := Query(rest, child, location + [IndexStep(from)]);
        HitsLift(here, v, child, location, IndexStep(from), Depth(rest));
        var later := QueryItems(rest, v, location, from + 1);
        Then(here, later)
  }

  /** Hits found below a child are hits below its parent, one level deeper. */
  lemma HitsLift(r: Option<seq<Hit>>, v: Json, child: Json, location: seq<Step>, step: Step, depth: nat)
    requires ValueAt(v, [step]) == Some(child)
    requires r.Some? ==> HitsBelow(r.value, child, location + [step], depth)
    ensures r.Some? ==> HitsBelow(r.value, v, location, 1 + depth)
  {
    if r.Some? {
      forall h | h in r.value
        ensures |h.location| == |location| + 1 + depth && h.location[..|location|] == location
        ensures ValueAt(v, h.location[|location|..]) == Some(h.value)
      {
        var below := h.location[|location| + 1..];
        assert h.location[..|location| + 1] == location + [step];
        assert h.location[|location|..] == [step] + below;
        assert ValueAt(child, below) == Some(h.value);
      }
    }
  }

  /** With an empty path the callback gets the starting value itself. */
  lemma EmptyPathHitsStart(v: Json, location: seq<Step>)
    ensures Query([], v, location) == Some([Hit(v, location)])
    ensures Query([Root], v, location) == Some([Hit(v, location)])
  {
    assert [Root][1..] == [];
  }

  /** A field token on a value that is not a map, or a map without that key, ends
      the walk: the callback is never invoked. */
  lemma MissingFieldNoHit(n: string, rest: seq<PathToken>, v: Json, location: seq<Step>)
    requires !v.JObject? || FindField(v.fields, n).None?
    ensures Query([Field(n)] + rest, v, location) == Some([])
  {
    assert ([Field(n)] + rest)[0] == Field(n);
  }

  /** An index token past the end of a list, or on a value that is not a list,
      ends the walk: the callback is never invoked. */
  lemma MissingIndexNoHit(i: nat, rest: seq<PathToken>, v: Json, location: seq<Step>)
    requires !v.JArray? || |v.items| <= i
    ensures Query([Index(i)] + rest, v, location) == Some([])
  {
    assert ([Index(i)] + rest)[0] == Index(i);
  }

  predicate NoNullItem(items: seq<Json>) {
    forall k :: 0 <= k < |items| ==> !items[k].JNull?
  }

  /** `[*]` at the end of a path hands the callback each element of the list
      once, in order, at its own index. */
  lemma StarIndexOncePerElement(items: seq<Json>, location: seq<Step>)
    requires NoNullItem(items)
    ensures Query([StarIndex], JArray(items), location)
            == Some(seq(|items|, k requires 0 <= k < |items| => Hit(items[k], location + [IndexStep(k)])))
  {
    assert [StarIndex][1..] == [];
    ItemsFrom(items, location, 0);
    assert ElementHits(items, location, 0)
           == seq(|items|, k requires 0 <= k < |items| => Hit(items[k], location + [IndexStep(k)]));
  }

  /** The hits `[*]` yields for the elements from index `from` on. */
  function ElementHits(items: seq<Json>, location: seq<Step>, from: nat): (r: seq<Hit>)
    requires from <= |items|
    ensures |r| == |items| - from
    ensures forall k :: 0 <= k < |r| ==> r[k] == Hit(items[from + k], location + [IndexStep(from + k)])
  {
    seq(|items| - from, k requires 0 <= k < |items| - from => Hit(items[from + k], location + [IndexStep(from + k)]))
  }

  lemma ElementHitsSplit(items: seq<Json>, location: seq<Step>, from: nat)
    requires from < |items|
    ensures ElementHits(items, location, from)
            == [Hit(items[from], location + [IndexStep(from)])] + ElementHits(items, location, from + 1)
  {
    var all := ElementHits(items, location, from);
    var tail := ElementHits(items, location, from + 1);
    assert forall k :: 1 <= k < |all| ==> all[k] == tail[k - 1];
  }

  lemma {:induction false} ItemsFrom(items: seq<Json>, location: seq<Step>, from: nat)
    requires NoNullItem(items) && from <= |items|
    ensures QueryItems([], JArray(items), location, from) == Some(ElementHits(items, location, from))
    decreases |items| - from
  {
    if from < |items| {
      ItemsFrom(items, location, from + 1);
      var first := Hit(items[from], location + [IndexStep(from)]);
      assert Query([], items[from], location + [IndexStep(from)]) == Some([first]);
      ElementHitsSplit(items, location, from);
    } else {
      assert ElementHits(items, location, from) == [];
    }
  }

  /** Walks run one after the other, in order; the first that throws makes the whole run throw. */
  function ThenAll(walks: seq<Option<seq<Hit>>>): Option<seq<Hit>>
    decreases |walks|
  {
    if walks == [] then Some([]) else Then(walks[0], ThenAll(walks[1..]))
  }

  /** A run of walks completes exactly when every walk completes, and then it
      holds exactly the hits of the walks. */
  lemma {:induction false} ThenAllHits(walks: seq<Option<seq<Hit>>>)
    ensures ThenAll(walks).Some? <==> forall k :: 0 <= k < |walks| ==> walks[k].Some?
    ensures ThenAll(walks).Some? ==>
              forall h :: h in ThenAll(walks).value <==> exists k :: 0 <= k < |walks| && h in walks[k].value
    decreases |walks|
  {
    if walks != [] {
      ThenAllHits(walks[1..]);
      assert forall k :: 1 <= k < |walks| ==> walks[1..][k - 1] == walks[k];
      if ThenAll(walks).Some? {
        forall h | exists k :: 0 <= k < |walks| && h in walks[k].value
          ensures h in ThenAll(walks).value
        {
          var k :| 0 <= k < |walks| && h in walks[k].value;
          if k > 0 {
            assert h in walks[1..][k - 1].value;
          }
        }
      }
    }
  }

  /** The walk `[*]` starts at element `k` of a list: a null element throws. */
  function ItemWalks(rest: seq<PathToken>, items: seq<Json>, location: seq<Step>): seq<Option<seq<Hit>>> {
    seq(|items|, k requires 0 <= k < |items| =>
          if items[k].JNull? then None else Query(rest, items[k], location + [IndexStep(k)]))
  }

  /** The walk `*` starts at member `k` of a map, whose value is read by its name. */
  function FieldWalks(rest: seq<PathToken>, fields: seq<Member>, location: seq<Step>): seq<Option<seq<Hit>>> {
    seq(|fields|, k requires 0 <= k < |fields| =>
          var child := fields[FindField(fields, fields[k].name).value].value;
          if child.JNull? then None else Query(rest, child, location + [FieldStep(fields[k].name)]))
  }

  lemma {:induction false} ItemsFromWalks(rest: seq<PathToken>, items: seq<Json>, location: seq<Step>, from: nat)
    requires from <= |items|
    ensures QueryItems(rest, JArray(items), location, from) == ThenAll(ItemWalks(rest, items, location)[from..])
    decreases |items| - from
  {
    var walks := ItemWalks(rest, items, location);
    if from < |items| {
      ItemsFromWalks(rest, items, location, from + 1);
      assert walks[from..][1..] == walks[from + 1..];
    } else {
      assert walks[from..] == [];
    }
  }

  lemma {:induction false} FieldsFromWalks(rest: seq<PathToken>, fields: seq<Member>, location: seq<Step>, from: nat)
    requires from <= |fields|
    ensures QueryFields(rest, JObject(fields), location, from) == ThenAll(FieldWalks(rest, fields, location)[from..])
    decreases |fields| - from
  {
    var walks := FieldWalks(rest, fields, location);
    if from < |fields| {
      FieldsFromWalks(rest, fields, location, from + 1);
      assert walks[from..][1..] == walks[from + 1..];
    } else {
      assert walks[from..] == [];
    }
  }

  /** `[*]` walks the rest of the path once from every element of the list, in
      index order, and the whole walk throws exactly when one element is null or
      one of those walks throws. */
  lemma StarIndexFansOut(rest: seq<PathToken>, items: seq<Json>, location: seq<Step>)
    ensures Query([StarIndex] + rest, JArray(items), location) == ThenAll(ItemWalks(rest, items, location))
    ensures Query([StarIndex] + rest, JArray(items), location).None? <==>
              exists k :: 0 <= k < |items| && (items[k].JNull? || Query(rest, items[k], location + [IndexStep(k)]).None?)
  {
    assert ([StarIndex] + rest)[1..] == rest;
    var walks := ItemWalks(rest, items, location);
    ItemsFromWalks(rest, items, location, 0);
    assert walks[0..] == walks;
    ThenAllHits(walks);
    assert forall k :: 0 <= k < |items| ==>
             (walks[k].None? <==> items[k].JNull? || Query(rest, items[k], location + [IndexStep(k)]).None?);
  }

  /** `*` walks the rest of the path once from every member of the map, in member
      order, and the whole walk throws exactly when one member is null or one of
      those walks throws. */
  lemma StarFansOut(rest: seq<PathToken>, fields: seq<Member>, location: seq<Step>)
    ensures Query([Star] + rest, JObject(fields), location) == ThenAll(FieldWalks(rest, fields, location))
    ensures Query([Star] + rest, JObject(fields), location).None? <==>
              exists k :: 0 <= k < |fields| &&
                var child := fields[FindField(fields, fields[k].name).value].value;
                child.JNull? || Query(rest, child, location + [FieldStep(fields[k].name)]).None?
  {
    assert ([Star] + rest)[1..] == rest;
    var walks := FieldWalks(rest, fields, location);
    FieldsFromWalks(rest, fields, location, 0);
    assert walks[0..] == walks;
    ThenAllHits(walks);
    assert forall k :: 0 <= k < |fields| ==>
             (walks[k].None? <==>
                var child := fields[FindField(fields, fields[k].name).value].value;
                child.JNull? || Query(rest, child, location + [FieldStep(fields[k].name)]).None?);
  }

  /** Whether a token selects a step: a field or index token its own key, `*`
      any map key and `[*]` any list index. */
  predicate Selects(t: PathToken, s: Step) {
    match t
    case Root => false
    case Field(n) => s == FieldStep(n)
    case Index(i) => s == IndexStep(i)
    case Star => s.FieldStep?
    case StarIndex => s.IndexStep?
  }

  /** `path` leads from `v` along `steps` to the value `x`, each step selected
      by its token and no value on the way null; `$` takes no step. */
  predicate Reaches(path: seq<PathToken>, v: Json, steps: seq<Step>, x: Json)
    decreases |path|
  {
    if path == [] then steps == [] && x == v
    else if path[0].Root? then Reaches(path[1..], v, steps, x)
    else
      steps != [] && Selects(path[0], steps[0]) && ValueAt(v, [steps[0]]).Some?
      && !ValueAt(v, [steps[0]]).value.JNull?
      && Reaches(path[1..], ValueAt(v, [steps[0]]).value, steps[1..], x)
  }

  /** The value one step below `v`, as `Query` reads it. */
  lemma OneStep(v: Json, s: Step)
    ensures s.FieldStep? ==>
              ValueAt(v, [s]) == (if v.JObject? && FindField(v.fields, s.name).Some?
                                  then Some(v.fields[FindField(v.fields, s.name).value].value) else None)
    ensures s.IndexStep? ==>
              ValueAt(v, [s]) == (if v.JArray? && s.index < |v.items| then Some(v.items[s.index]) else None)
  {
    assert [s][1..] == [];
  }

  /** Completeness of the walk: when it does not throw, every value the path
      reaches is handed to the callback, at its location. */
  lemma {:induction false} QueryComplete(path: seq<PathToken>, v: Json, location: seq<Step>, steps: seq<Step>, x: Json)
    requires Reaches(path, v, steps, x)
    requires Query(path, v, location).Some?
    ensures Hit(x, location + steps) in Query(path, v, location).value
    decreases |path|
  {
    if path == [] {
      assert location + steps == location;
    } else if path[0].Root? {
      QueryComplete(path[1..], v, location, steps, x);
    } else {
      var s := steps[0];
      OneStep(v, s);
      var child := ValueAt(v, [s]).value;
      var rest := path[1..];
      assert location + [s] + steps[1..] == location + steps;
      match path[0]
      case Field(n) =>
        QueryComplete(rest, child, location + [s], steps[1..], x);
      case Index(i) =>
        QueryComplete(rest, child, location + [s], steps[1..], x);
      case Star =>
        assert path == [Star] + rest;
        StarFansOut(rest, v.fields, location);
        var walks := FieldWalks(rest, v.fields, location);
        var j := FindField(v.fields, s.name).value;
        ThenAllHits(walks);
        assert walks[j] == Query(rest, child, location + [s]);
        QueryComplete(rest, child, location + [s], steps[1..], x);
      case StarIndex =>
        assert path == [StarIndex] + rest;
        StarIndexFansOut(rest, v.items, location);
        var walks := ItemWalks(rest, v.items, location);
        ThenAllHits(walks);
        assert walks[s.index] == Query(rest, child, location + [s]);
        QueryComplete(rest, child, location + [s], steps[1..], x);
    }
  }

  /** Soundness of the walk: every value handed to the callback lies below the
      starting location and is reached by the path. */
  lemma {:induction false} QuerySound(path: seq<PathToken>, v: Json, location: seq<Step>, h: Hit)
    requires Query(path, v, location).Some? && h in Query(path, v, location).value
    ensures |location| <= |h.location| && h.location[..|location|] == location
    ensures Reaches(path, v, h.location[|location|..], h.value)
    decreases |path|
  {
    if path == [] {
    } else if path[0].Root? {
      QuerySound(path[1..], v, location, h);
    } else {
      var rest := path[1..];
      var s: Step;
      match path[0] {
        case Field(n) =>
          s := FieldStep(n);
        case Index(i) =>
          s := IndexStep(i);
        case Star =>
          assert path == [Star] + rest;
          StarFansOut(rest, v.fields, location);
          var walks := FieldWalks(rest, v.fields, location);
          ThenAllHits(walks);
          var k :| 0 <= k < |walks| && h in walks[k].value;
          s := FieldStep(v.fields[k].name);
        case StarIndex =>
          assert path == [StarIndex] + rest;
          StarIndexFansOut(rest, v.items, location);
          var walks := ItemWalks(rest, v.items, location);
          ThenAllHits(walks);
          var k :| 0 <= k < |walks| && h in walks[k].value;
          s := IndexStep(k);
      }
      OneStep(v, s);
      var child := ValueAt(v, [s]).value;
      assert h in Query(rest, child, location + [s]).value;
      QuerySound(rest, child, location + [s], h);
      SoundStep(path, v, location, h, s);
    }
  }

  /** A hit reached from the value one step below `v` is reached from `v`. */
  lemma SoundStep(path: seq<PathToken>, v: Json, location: seq<Step>, h: Hit, s: Step)
    requires path != [] && !path[0].Root? && Selects(path[0], s)
    requires ValueAt(v, [s]).Some? && !ValueAt(v, [s]).value.JNull?
    requires |location| + 1 <= |h.location| && h.location[..|location| + 1] == location + [s]
    requires Reaches(path[1..], ValueAt(v, [s]).value, h.location[|location| + 1..], h.value)
    ensures h.location[..|location|] == location
    ensures Reaches(path, v, h.location[|location|..], h.value)
  {
    var steps := h.location[|location|..];
    assert steps[0] == h.location[..|location| + 1][|location|] == s;
    assert steps[1..] == h.location[|location| + 1..];
  }

  /** The walk hands the callback exactly the values the path reaches, each at
      its location, whenever it does not throw. */
  lemma QueryHitsExactly(path: seq<PathToken>, v: Json, location: seq<Step>, steps: seq<Step>, x: Json)
    requires Query(path, v, location).Some?
    ensures Hit(x, location + steps) in Query(path, v, location).value <==> Reaches(path, v, steps, x)
  {
    if Reaches(path, v, steps, x) {
      QueryComplete(path, v, location, steps, x);
    }
    if Hit(x, location + steps) in Query(path, v, location).value {
      QuerySound(path, v, location, Hit(x, location + steps));
      assert (location + steps)[|location|..] == steps;
    }
  }

  /** A null reached by a token is a null-pointer error: the whole walk throws. */
  lemma NullStepThrows(t: PathToken, rest: seq<PathToken>, v: Json, location: seq<Step>, s: Step)
    requires Selects(t, s) && ValueAt(v, [s]) == Some(JNull)
    ensures Query([t] + rest, v, location).None?
  {
    OneStep(v, s);
    assert ([t] + rest)[0] == t && ([t] + rest)[1..] == rest;
    match t
    case Field(n) =>
    case Index(i) =>
    case Star =>
      StarFansOut(rest, v.fields, location);
      FindFieldFirst(v.fields, s.name, FindField(v.fields, s.name).value);
      var j := FindField(v.fields, s.name).value;
      assert FindField(v.fields, v.fields[j].name) == Some(j);
    case StarIndex =>
      StarIndexFansOut(rest, v.items, location);
      assert v.items[s.index].JNull?;
  }

  /** A hit list is written one hit after the other: each hit's location gets
      the generator's value for the value the walk found there. */
  function WriteHits<G>(body: Json, hits: seq<Hit>, g: G, generate: (G, Json) -> Json): Json
    decreases |hits|
  {
    if hits == [] then body
    else WriteHits(SetAt(body, hits[0].location, generate(g, hits[0].value)), hits[1..], g, generate)
  }

  /** `applyKey(body, key, generator)` with the key already parsed into `path`:
      every place the walk reaches gets a generated value; `None` when the walk throws. */
  function KeyApplied<G>(body: Json, path: seq<PathToken>, g: G, generate: (G, Json) -> Json): Option<Json> {
    match Query(path, body, [])
    case None => None
    case Some(hits) => Some(WriteHits(body, hits, g, generate))
  }

  /** Writing at an existing location makes that location hold the written value. */
  lemma {:induction false} SetAtThenValueAt(v: Json, location: seq<Step>, x: Json)
    requires ValueAt(v, location).Some?
    ensures ValueAt(SetAt(v, location, x), location) == Some(x)
    decreases |location|
  {
    if location != [] {
      match location[0]
      case FieldStep(n) =>
        var k := FindField(v.fields, n).value;
        SetAtThenValueAt(v.fields[k].value, location[1..], x);
        var fields' := v.fields[k := Member(n, SetAt(v.fields[k].value, location[1..], x))];
        var k' := FindField(fields', n);
        FindFieldAfterUpdate(v.fields, k, n, SetAt(v.fields[k].value, location[1..], x));
      case IndexStep(i) =>
        SetAtThenValueAt(v.items[i], location[1..], x);
    }
  }

  /** Replacing the value of the first member named `n` keeps it the first member named `n`. */
  lemma FindFieldAfterUpdate(fields: seq<Member>, k: nat, n: string, x: Json)
    requires FindField(fields, n) == Some(k)
    ensures FindField(fields[k := Member(n, x)], n) == Some(k)
  {
    var fields' := fields[k := Member(n, x)];
    FindFieldFirst(fields', n, k);
    var j := FindField(fields', n).value;
    if j < k {
      FindFieldFirst(fields, n, j);
    }
  }

  /** `FindField` returns the first member with the name. */
  lemma {:induction false} FindFieldFirst(fields: seq<Member>, n: string, k: nat)
    requires k < |fields| && fields[k].name == n
    ensures FindField(fields, n).Some? && FindField(fields, n).value <= k
  {
    if fields[0].name != n {
      FindFieldFirst(fields[1..], n, k - 1);
    }
  }

  /** Writing where nothing exists changes nothing. */
  lemma {:induction false} SetAtMissing(v: Json, location: seq<Step>, x: Json)
    requires ValueAt(v, location).None?
    ensures SetAt(v, location, x) == v
    decreases |location|
  {
    match location[0]
    case FieldStep(n) =>
      if v.JObject? && FindField(v.fields, n).Some? {
        var k := FindField(v.fields, n).value;
        SetAtMissing(v.fields[k].value, location[1..], x);
        assert v.fields[k := Member(n, v.fields[k].value)] == v.fields;
      }
    case IndexStep(i) =>
      if v.JArray? && i < |v.items| {
        SetAtMissing(v.items[i], location[1..], x);
        assert v.items[i := v.items[i]] == v.items;
      }
  }

  /** On the root path the generator replaces the whole body. */
  lemma ApplyKeyAtRoot<G>(body: Json, g: G, generate: (G, Json) -> Json)
    ensures KeyApplied(body, [Root], g, generate) == Some(generate(g, body))
  {
    EmptyPathHitsStart(body, []);
    var hits := [Hit(body, [])];
    assert hits[1..] == [];
    assert WriteHits(body, hits, g, generate) == WriteHits(generate(g, body), [], g, generate);
  }

  /** A path that finds nothing leaves the body as it was. */
  lemma ApplyKeyNoHit<G>(body: Json, n: string, rest: seq<PathToken>, g: G, generate: (G, Json) -> Json)
    requires !body.JObject? || FindField(body.fields, n).None?
    ensures KeyApplied(body, [Field(n)] + rest, g, generate) == Some(body)
  {
    MissingFieldNoHit(n, rest, body, []);
  }

  /** A path to a single existing non-null member writes exactly there. */
  lemma ApplyKeyAtField<G>(body: Json, n: string, g: G, generate: (G, Json) -> Json)
    requires body.JObject? && FindField(body.fields, n).Some?
    requires !body.fields[FindField(body.fields, n).value].value.JNull?
    ensures var old_value := body.fields[FindField(body.fields, n).value].value;
            KeyApplied(body, [Root, Field(n)], g, generate).Some?
            && ValueAt(KeyApplied(body, [Root, Field(n)], g, generate).value, [FieldStep(n)]) == Some(generate(g, old_value))
  {
    var child := body.fields[FindField(body.fields, n).value].value;
    assert [Root, Field(n)][1..] == [Field(n)];
    assert [Field(n)][1..] == [];
    assert Query([], child, [FieldStep(n)]) == Some([Hit(child, [FieldStep(n)])]);
    assert Query([Field(n)], body, []) == Some([Hit(child, [FieldStep(n)])]);
    assert Query([Root, Field(n)], body, []) == Some([Hit(child, [FieldStep(n)])]);
    var hits := [Hit(child, [FieldStep(n)])];
    assert hits[1..] == [];
    assert WriteHits(body, hits, g, generate) == SetAt(body, [FieldStep(n)], generate(g, child));
    assert ValueAt(body, [FieldStep(n)]) == Some(child) by {
      assert [FieldStep(n)][1..] == [];
    }
    SetAtThenValueAt(body, [FieldStep(n)], generate(g, child));
  }

  /** `queryObjectGraph(pathExp, body, fn)`: a cursor moved token by token;
      on `*` and `[*]` the rest of the path is walked from every member or
      element. Returns what `fn` would receive, or `None` on a NullPointerException. */
  method QueryObjectGraph(path: seq<PathToken>, start: Hit) returns (r: Option<seq<Hit>>)
    ensures r == Query(path, start.value, start.location)
    decreases |path|, 1
  {
    var cursor := start;
    var i := 0;
    while i < |path|
      invariant 0 <= i <= |path|
      invariant Query(path[i..], cursor.value, cursor.location) == Query(path, start.value, start.location)
      decreases |path| - i
    {
      assert path[i..][1..] == path[i + 1..];
      var v := cursor.value;
      match path[i] {
      case Root =>
      case Field(n) =>
        if v.JObject? && FindField(v.fields, n).Some? {
          var child := v.fields[FindField(v.fields, n).value].value;
          if child.JNull? {
            return None;
          }
          cursor := Hit(child, cursor.location + [FieldStep(n)]);
        } else {
          return Some([]);
        }
      case Index(k) =>
        if v.JArray? && k < |v.items| {
          var child := v.items[k];
          if child.JNull? {
            return None;
          }
          cursor := Hit(child, cursor.location + [IndexStep(k)]);
        } else {
          return Some([]);
        }
      case Star =>
        if v.JObject? {
          r := EachField(path[i + 1..], v, cursor.location);
        } else {
          r := Some([]);
        }
        return;
      case StarIndex =>
        if v.JArray? {
          r := EachItem(path[i + 1..], v, cursor.location);
        } else {
          r := Some([]);
        }
        return;
      }
      i := i + 1;
    }
    r := Some([cursor]);
  }

  /** The `*` fan-out: the rest of the path from every member of a map, in member order. */
  method EachField(rest: seq<PathToken>, v: Json, location: seq<Step>) returns (r: Option<seq<Hit>>)
    requires v.JObject?
    ensures r == QueryFields(rest, v, location, 0)
    decreases |rest| + 1, 0
  {
    var acc: seq<Hit> := [];
    var j := 0;
    assert Then(Some(acc), QueryFields(rest, v, location, 0)) == QueryFields(rest, v, location, 0) by {
      ThenUnit(QueryFields(rest, v, location, 0));
    }
    while j < |v.fields|
      invariant 0 <= j <= |v.fields|
      invariant Then(Some(acc), QueryFields(rest, v, location, j)) == QueryFields(rest, v, location, 0)
    {
      var name := v.fields[j].name;
      var child := v.fields[FindField(v.fields, name).value].value;
      if child.JNull? {
        return None;
      }
      var sub := QueryObjectGraph(rest, Hit(child, location + [FieldStep(name)]));
      if sub.None? {
        return None;
      }
      ThenStep(acc, sub.value, QueryFields(rest, v, location, j + 1));
      acc := acc + sub.value;
      j := j + 1;
    }
    assert acc + [] == acc;
    r := Some(acc);
  }

  /** The `[*]` fan-out: the rest of the path from every element of a list, in index order. */
  method EachItem(rest: seq<PathToken>, v: Json, location: seq<Step>) returns (r: Option<seq<Hit>>)
    requires v.JArray?
    ensures r == QueryItems(rest, v, location, 0)
    decreases |rest| + 1, 0
  {
    var acc: seq<Hit> := [];
    var j := 0;
    assert Then(Some(acc), QueryItems(rest, v, location, 0)) == QueryItems(rest, v, location, 0) by {
      ThenUnit(QueryItems(rest, v, location, 0));
    }
    while j < |v.items|
      invariant 0 <= j <= |v.items|
      invariant Then(Some(acc), QueryItems(rest, v, location, j)) == QueryItems(rest, v, location, 0)
    {
      var child := v.items[j];
      if child.JNull? {
        return None;
      }
      var sub := QueryObjectGraph(rest, Hit(child, location + [IndexStep(j)]));
      if sub.None? {
        return None;
      }
      ThenStep(acc, sub.value, QueryItems(rest, v, location, j + 1));
      acc := acc + sub.value;
      j := j + 1;
    }
    assert acc + [] == acc;
    r := Some(acc);
  }

  /** `applyKey(body, key, generator)` with the key parsed into `path`: the walk's
      callback writes a generated value into the parent map or list of each hit,
      or replaces the body when the hit is the root. */
  method ApplyKey<G>(body: Json, path: seq<PathToken>, g: G, generate: (G, Json) -> Json) returns (r: Option<Json>)
    ensures r == KeyApplied(body, path, g, generate)
  {
    var hits := QueryObjectGraph(path, Hit(body, []));
    if hits.None? {
      return None;
    }
    var result := body;
    var j := 0;
    while j < |hits.value|
      invariant 0 <= j <= |hits.value|
      invariant WriteHits(result, hits.value[j..], g, generate) == WriteHits(body, hits.value, g, generate)
    {
      assert hits.value[j..][1..] == hits.value[j + 1..];
      var h := hits.value[j];
      result := SetAt(result, h.location, generate(g, h.value));
      j := j + 1;
    }
    r := Some(result);
  }
}
