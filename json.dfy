/** An abstract JSON value standing for the objects the JVM code passes around
    as `Any?`: `null`, `Boolean`, an integral `Number` (Int, Long, BigInteger),
    a fractional `Number` (Float, Double, BigDecimal, kept as its decimal text),
    `String`, `List` and an insertion-ordered `Map`. */
module Json {
  import opened Text
  import opened Wrappers

  datatype Json =
    | JNull
    | JBool(b: bool)
    | JInt(i: int)
    | JDecimal(text: string)
    | JString(s: string)
    | JArray(items: seq<Json>)
    | JObject(fields: seq<Member>)

  datatype Member = Member(name: string, value: Json)

  /** Joins already rendered parts with a separator, as Java's collection `toString` does. */
  function Join(parts: seq<string>, sep: string): string {
    if parts == [] then ""
    else if |parts| == 1 then parts[0]
    else parts[0] + sep + Join(parts[1..], sep)
  }

  /** Java's `toString` of the value: `AbstractCollection.toString` for lists
      (`[a, b]`), `AbstractMap.toString` for maps (`{k=v}`), strings unquoted. */
  function ToText(v: Json): string
    decreases v
  {
    match v
    case JNull => "null"
    case JBool(b) => if b then "true" else "false"
    case JInt(i) => IntToString(i)
    case JDecimal(t) => t
    case JString(s) => s
    case JArray(items) =>
      "[" + Join(seq(|items|, k requires 0 <= k < |items| => ToText(items[k])), ", ") + "]"
    case JObject(fields) =>
      "{" + Join(seq(|fields|, k requires 0 <= k < |fields| =>
                       fields[k].name + "=" + ToText(fields[k].value)), ", ") + "}"
  }

  /** Index of the first member named `name`, as a map lookup sees it. */
  function FindField(fields: seq<Member>, name: string): (r: Option<nat>)
    ensures r.Some? ==> r.value < |fields| && fields[r.value].name == name
    ensures r.None? ==> forall k :: 0 <= k < |fields| ==> fields[k].name != name
  {
    if fields == [] then None
    else if fields[0].name == name then Some(0)
    else match FindField(fields[1..], name)
      case None => None
      case Some(k) => Some(k + 1)
  }

  /** The names of an object's members. */
  function Names(fields: seq<Member>): set<string> {
    set k | 0 <= k < |fields| :: fields[k].name
  }

  /** Java's `equals` on the values: lists are equal element by element; maps are
      equal when they have the same keys and equal values under each key,
      whatever order the members come in (`AbstractMap.equals`); anything else
      is equal when it is the same value. */
  predicate JsonEq(a: Json, b: Json)
    decreases a
  {
    match a
    case JArray(xs) =>
      b.JArray? && |xs| == |b.items| && forall k :: 0 <= k < |xs| ==> JsonEq(xs[k], b.items[k])
    case JObject(fs) =>
      b.JObject? && Names(fs) == Names(b.fields)
      && forall k :: 0 <= k < |fs| && FindField(fs, fs[k].name) == Some(k) ==>
           FindField(b.fields, fs[k].name).Some?
           && JsonEq(fs[k].value, b.fields[FindField(b.fields, fs[k].name).value].value)
    case _ => a == b
  }

  /** Every value equals itself. */
  lemma {:induction false} JsonEqReflexive(a: Json)
    ensures JsonEq(a, a)
    decreases a
  {
    match a
    case JArray(xs) =>
      forall k | 0 <= k < |xs|
        ensures JsonEq(xs[k], xs[k])
      {
        JsonEqReflexive(xs[k]);
      }
    case JObject(fs) =>
      forall k | 0 <= k < |fs| && FindField(fs, fs[k].name) == Some(k)
        ensures JsonEq(fs[k].value, fs[k].value)
      {
        JsonEqReflexive(fs[k].value);
      }
    case _ =>
  }

  /** Map equality ignores member order: `{"a": 1, "b": 2}` equals `{"b": 2, "a": 1}`,
      though the two member sequences differ. */
  lemma MemberOrderIgnored()
    ensures JsonEq(JObject([Member("a", JInt(1)), Member("b", JInt(2))]),
                   JObject([Member("b", JInt(2)), Member("a", JInt(1))]))
    ensures [Member("a", JInt(1)), Member("b", JInt(2))] != [Member("b", JInt(2)), Member("a", JInt(1))]
  {
    var fs := [Member("a", JInt(1)), Member("b", JInt(2))];
    var gs := [Member("b", JInt(2)), Member("a", JInt(1))];
    assert Names(fs) == {"a", "b"} by {
      assert fs[0].name == "a" && fs[1].name == "b";
    }
    assert Names(gs) == {"a", "b"} by {
      assert gs[0].name == "b" && gs[1].name == "a";
    }
    assert "a" != "b";
    assert FindField(gs, "a") == Some(1);
    assert FindField(gs, "b") == Some(0);
  }

  /** Kinds that `matchType` compares. Every number is a `Number`. */
  datatype Kind = NullKind | BooleanKind | NumberKind | StringKind | ListKind | MapKind

  function KindOf(v: Json): Kind {
    match v
    case JNull => NullKind
    case JBool(_) => BooleanKind
    case JInt(_) => NumberKind
    case JDecimal(_) => NumberKind
    case JString(_) => StringKind
    case JArray(_) => ListKind
    case JObject(_) => MapKind
  }
}
