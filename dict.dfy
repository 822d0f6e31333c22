/**
 * Ordered string-keyed dictionaries with the semantics of JavaScript objects and Maps, as their
 * own enumerable entries: entries are kept in enumeration order, `Set` (a Map's `set`, a defining
 * write) keeps an existing key's position and appends a new key, `Assign` (`obj[k] = v` on an
 * object made by `{}`) does the same except for the key `__proto__`, and `{...a, ...b}` defines
 * b's entries onto a copy of a.
 */
module Dict {
  import opened Wrappers

  type Dict<V> = seq<(string, V)>

  /** The keys in enumeration order (`Object.keys`). */
  function Keys<V>(d: Dict<V>): (ks: seq<string>)
    ensures |ks| == |d|
    ensures forall i :: 0 <= i < |d| ==> ks[i] == d[i].0
  {
    if d == [] then [] else [d[0].0] + Keys(d[1..])
  }

  /** The values in enumeration order (`Object.values`). */
  function Values<V>(d: Dict<V>): (vs: seq<V>)
    ensures |vs| == |d|
    ensures forall i :: 0 <= i < |d| ==> vs[i] == d[i].1
  {
    if d == [] then [] else [d[0].1] + Values(d[1..])
  }

  /** Every key occurs once, as in any JavaScript object or Map. */
  predicate Unique<V>(d: Dict<V>) {
    d == [] || (d[0].0 !in Keys(d[1..]) && Unique(d[1..]))
  }

  /** Property lookup `d[k]`, None standing for `undefined`. */
  function Get<V>(d: Dict<V>, k: string): (r: Option<V>)
    ensures r.Some? <==> k in Keys(d)
    ensures r.Some? ==> (k, r.value) in d
  {
    if d == [] then None
    else if d[0].0 == k then Some(d[0].1)
    else Get(d[1..], k)
  }

  lemma {:induction false} GetAt<V>(d: Dict<V>, i: nat)
    requires Unique(d) && i < |d|
    ensures Get(d, d[i].0) == Some(d[i].1)
  {
    if i > 0 {
      GetAt(d[1..], i - 1);
      assert d[1..][i - 1] == d[i];
      assert d[i].0 in Keys(d[1..]);
    }
  }

  /** Lookup in an entry list with one more entry in front. */
  lemma ConsGet<V>(x: (string, V), rest: Dict<V>, k: string)
    ensures Get([x] + rest, k) == if x.0 == k then Some(x.1) else Get(rest, k)
  {
    assert ([x] + rest)[1..] == rest;
  }

  /** The step of `Set` past an entry with another key, for the other keys' lookups. */
  lemma SetStepOthers<V>(d: Dict<V>, k: string, rest: Dict<V>)
    requires d != [] && d[0].0 != k
    requires forall k' :: k' != k ==> Get(rest, k') == Get(d[1..], k')
    ensures forall k' :: k' != k ==> Get([d[0]] + rest, k') == Get(d, k')
  {
    forall k' | k' != k
      ensures Get([d[0]] + rest, k') == Get(d, k')
    {
      ConsGet(d[0], rest, k');
    }
  }

  /** The same step for the key sequence. */
  lemma SetStepKeys<V>(d: Dict<V>, k: string, rest: Dict<V>)
    requires d != [] && d[0].0 != k
    requires k in Keys(d[1..]) ==> Keys(rest) == Keys(d[1..])
    requires k !in Keys(d[1..]) ==> Keys(rest) == Keys(d[1..]) + [k]
    ensures k in Keys(d) ==> Keys([d[0]] + rest) == Keys(d)
    ensures k !in Keys(d) ==> Keys([d[0]] + rest) == Keys(d) + [k]
  {
    assert ([d[0]] + rest)[1..] == rest;
    assert Keys([d[0]] + rest) == [d[0].0] + Keys(rest);
    assert Keys(d) == [d[0].0] + Keys(d[1..]);
    if k !in Keys(d) {
      assert [d[0].0] + (Keys(d[1..]) + [k]) == ([d[0].0] + Keys(d[1..])) + [k];
    }
  }

  /** Assignment `d[k] = v` (also `Map.prototype.set`). */
  function Set<V>(d: Dict<V>, k: string, v: V): (r: Dict<V>)
    ensures Get(r, k) == Some(v)
    ensures forall k' :: k' != k ==> Get(r, k') == Get(d, k')
    ensures k in Keys(d) ==> Keys(r) == Keys(d)
    ensures k !in Keys(d) ==> Keys(r) == Keys(d) + [k]
  {
    if d == [] then [(k, v)]
    else if d[0].0 == k then
      var r := [(k, v)] + d[1..];
      assert r[1..] == d[1..];
      r
    else
      var rest := Set(d[1..], k, v);
      ConsGet(d[0], rest, k);
      SetStepOthers(d, k, rest);
      SetStepKeys(d, k, rest);
      [d[0]] + rest
  }

  /** The one key whose plain assignment reaches an inherited accessor instead of an own property. */
  const ProtoKey := "__proto__"

  /**
   * `obj[k] = v` on an ordinary object created by `{}`: for `__proto__` the inherited setter
   * replaces the prototype (or ignores a primitive) and no own entry appears; any other key is
   * assigned as by `Set`.
   */
  function Assign<V>(d: Dict<V>, k: string, v: V): (r: Dict<V>)
    ensures Get(r, k) == if k == ProtoKey then Get(d, k) else Some(v)
    ensures forall k' :: k' != k ==> Get(r, k') == Get(d, k')
    ensures Keys(r) == if k == ProtoKey || k in Keys(d) then Keys(d) else Keys(d) + [k]
  {
    if k == ProtoKey then d else Set(d, k, v)
  }

  lemma AssignUnique<V>(d: Dict<V>, k: string, v: V)
    requires Unique(d)
    ensures Unique(Assign(d, k, v))
  {
    if k != ProtoKey {
      SetUnique(d, k, v);
    }
  }

  lemma {:induction false} SetUnique<V>(d: Dict<V>, k: string, v: V)
    requires Unique(d)
    ensures Unique(Set(d, k, v))
  {
    if d != [] && d[0].0 != k {
      SetUnique(d[1..], k, v);
      assert Set(d, k, v)[1..] == Set(d[1..], k, v);
    }
  }

  /** A second assignment to the same key overwrites the first in place. */
  lemma {:induction false} SetTwice<V>(d: Dict<V>, k: string, v: V, w: V)
    ensures Set(Set(d, k, v), k, w) == Set(d, k, w)
  {
    if d != [] && d[0].0 != k {
      SetTwice(d[1..], k, v, w);
      assert Set(d, k, v)[1..] == Set(d[1..], k, v);
    }
  }

  /** `Map.prototype.delete` / `delete d[k]`: drops the entry with key k. */
  function Delete<V>(d: Dict<V>, k: string): (r: Dict<V>)
    ensures k !in Keys(r)
    ensures Unique(d) ==> forall k' :: k' != k ==> Get(r, k') == Get(d, k')
    ensures forall k' :: k' in Keys(r) ==> k' in Keys(d)
    ensures Unique(d) ==> Unique(r)
    ensures k !in Keys(d) ==> r == d
  {
    if d == [] then []
    else
      var rest := Delete(d[1..], k);
      if d[0].0 == k then rest else [d[0]] + rest
  }

  /** The object spread `{...a, ...b}`: b's entries assigned, in order, onto a copy of a. */
  function Spread<V>(a: Dict<V>, b: Dict<V>): Dict<V>
    decreases |b|
  {
    if b == [] then a else Spread(Set(a, b[0].0, b[0].1), b[1..])
  }

  lemma {:induction false} SpreadUnique<V>(a: Dict<V>, b: Dict<V>)
    requires Unique(a)
    ensures Unique(Spread(a, b))
    decreases |b|
  {
    if b != [] {
      SetUnique(a, b[0].0, b[0].1);
      SpreadUnique(Set(a, b[0].0, b[0].1), b[1..]);
    }
  }

  /** Keys of the right operand take its value; keys only in the left operand keep theirs. */
  lemma {:induction false} SpreadGet<V>(a: Dict<V>, b: Dict<V>, k: string)
    requires Unique(b)
    ensures Get(Spread(a, b), k) == if k in Keys(b) then Get(b, k) else Get(a, k)
    decreases |b|
  {
    if b != [] {
      SpreadGet(Set(a, b[0].0, b[0].1), b[1..], k);
    }
  }

  /** The spread has exactly the keys of both operands. */
  lemma {:induction false} SpreadKeys<V>(a: Dict<V>, b: Dict<V>, k: string)
    ensures k in Keys(Spread(a, b)) <==> k in Keys(a) || k in Keys(b)
    decreases |b|
  {
    if b != [] {
      SpreadKeys(Set(a, b[0].0, b[0].1), b[1..], k);
    }
  }

  /** The dictionary read as a finite map, forgetting enumeration order. */
  function ToMap<V>(d: Dict<V>): map<string, V> {
    map k | k in Keys(d) :: Get(d, k).value
  }

  /** The spread is the right-biased union of the two maps. */
  lemma SpreadIsUnion<V>(a: Dict<V>, b: Dict<V>)
    requires Unique(b)
    ensures ToMap(Spread(a, b)) == ToMap(a) + ToMap(b)
  {
    var s := Spread(a, b);
    var l, r := ToMap(s), ToMap(a) + ToMap(b);
    forall k ensures k in l <==> k in r {
      SpreadKeys(a, b, k);
    }
    forall k | k in l ensures l[k] == r[k] {
      SpreadGet(a, b, k);
    }
  }
}
