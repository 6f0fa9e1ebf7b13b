/** The address grammar shared by matching rules and generators: keys are
    strings such as `.name`, `[3]` or `[*]`, and attaching a subtree prepends
    its address to every key the subtree registered. */
module Paths {
  import opened Wrappers
  import opened Text

  /** Re-keys a registry by prepending `p` to every key (Kotlin's `mapKeys { p + it.key }`). */
  function PrefixKeys<V>(m: map<string, V>, p: string): map<string, V> {
    PrefixInjective(m, p);
    map k | k in m :: p + k := m[k]
  }

  lemma PrefixInjective<V>(m: map<string, V>, p: string)
    ensures forall a, b :: a in m && b in m && p + a == p + b ==> a == b
  {
    forall a, b | a in m && b in m && p + a == p + b
      ensures a == b
    {
      assert (p + a)[|p|..] == a;
      assert (p + b)[|p|..] == b;
    }
  }

  /** Prefixing keeps every entry under its new key and invents none. */
  lemma PrefixKeysContents<V>(m: map<string, V>, p: string)
    ensures forall k :: k in m ==> p + k in PrefixKeys(m, p) && PrefixKeys(m, p)[p + k] == m[k]
    ensures forall k :: k in PrefixKeys(m, p) ==> |p| <= |k| && k[..|p|] == p && k[|p|..] in m
  {
    PrefixInjective(m, p);
    var r := PrefixKeys(m, p);
    forall k | k in m
      ensures p + k in r && r[p + k] == m[k]
    {
    }
    forall k | k in r
      ensures |p| <= |k| && k[..|p|] == p && k[|p|..] in m
    {
      var j :| j in m && k == p + j;
      assert k[|p|..] == j;
    }
  }

  /** Prefixing commutes with a single update. */
  lemma PrefixKeysUpdate<V>(m: map<string, V>, p: string, k: string, v: V)
    ensures PrefixKeys(m[k := v], p) == PrefixKeys(m, p)[p + k := v]
  {
    var lhs := PrefixKeys(m[k := v], p);
    var rhs := PrefixKeys(m, p)[p + k := v];
    PrefixKeysContents(m[k := v], p);
    PrefixKeysContents(m, p);
    forall j | j in lhs
      ensures j in rhs && lhs[j] == rhs[j]
    {
      var i := j[|p|..];
      assert j == p + i && i in m[k := v];
      if i != k {
        assert lhs[j] == m[i] == PrefixKeys(m, p)[j];
      }
    }
    forall j | j in rhs
      ensures j in lhs
    {
      if j != p + k {
        var i := j[|p|..];
        assert j == p + i && i in m;
      }
    }
  }

  lemma PrefixKeysKeys<V>(m: map<string, V>, p: string)
    ensures PrefixKeys(m, p).Keys == set k | k in m :: p + k
  {
  }

  /** A bracketed array step: every element, or one index. */
  datatype IndexToken = Wildcard | At(index: int)

  /** `appendArrayIndex(offset)`: `[*]` in wildcard mode, otherwise the index
      `length - 1 + offset` of the element just appended (offset 0) or about to be
      appended (offset 1). */
  function ArrayIndex(wildCard: bool, length: int, offset: int): string {
    "[" + (if wildCard then "*" else IntToString(length - 1 + offset)) + "]"
  }

  /** Reads a bracketed step back, as a resolver of rule keys does. */
  function ParseArrayIndex(token: string): Option<IndexToken> {
    if |token| < 3 || token[0] != '[' || token[|token| - 1] != ']' then None
    else
      var inner := token[1..|token| - 1];
      if inner == "*" then Some(Wildcard)
      else match ParseInt(inner)
        case None => None
        case Some(i) => Some(At(i))
  }

  lemma ArrayIndexRoundTrip(wildCard: bool, length: int, offset: int)
    ensures ParseArrayIndex(ArrayIndex(wildCard, length, offset))
            == Some(if wildCard then Wildcard else At(length - 1 + offset))
  {
    var t := ArrayIndex(wildCard, length, offset);
    if wildCard {
      assert t[1..|t| - 1] == "*";
    } else {
      var digits := IntToString(length - 1 + offset);
      assert t[1..|t| - 1] == digits;
      IntRoundTrip(length - 1 + offset);
      assert digits != "*" by {
        assert digits[0] == '-' || IsDigit(digits[0]);
      }
    }
  }

  /** In concrete-index mode two different element positions never share a key,
      so rules registered for different elements cannot collide. */
  lemma DistinctIndicesDistinctKeys(length1: int, offset1: int, length2: int, offset2: int)
    requires length1 - 1 + offset1 != length2 - 1 + offset2
    ensures ArrayIndex(false, length1, offset1) != ArrayIndex(false, length2, offset2)
  {
    ArrayIndexRoundTrip(false, length1, offset1);
    ArrayIndexRoundTrip(false, length2, offset2);
  }

  /** In wildcard mode the step ignores length and offset. */
  lemma WildcardIndexConstant(length: int, offset: int)
    ensures ArrayIndex(true, length, offset) == "[*]"
  {
  }

  /** Offset 1 before an append names the same element as offset 0 after it:
      the generator `numberType()` registers lines up with the rule `numberType(100)` adds. */
  lemma LookAheadMatchesAppended(wildCard: bool, length: int)
    ensures ArrayIndex(wildCard, length, 1) == ArrayIndex(wildCard, length + 1, 0)
  {
  }
}
