/**
 * The `assign` helper of src/helpers.js: a left-to-right, in-place copy of the
 * own enumerable keys of every source object onto a target object.
 *
 * A JavaScript object is modelled as its own keys in insertion order together
 * with a map from key to value; the order matters to callers that go through
 * `Object.keys` (the client sets request headers in that order).
 */
module Helpers {

  /** No element occurs twice. */
  ghost predicate Distinct<T>(s: seq<T>) {
    forall i, j :: 0 <= i < j < |s| ==> s[i] != s[j]
  }

  /** A plain object: own enumerable keys in insertion order, and their values. */
  datatype Obj<V> = Obj(keys: seq<string>, props: map<string, V>) {

    /** Every key is listed exactly once, and only keys that have a value. */
    ghost predicate Valid() {
      Distinct(keys) && forall k :: k in props <==> k in keys
    }

    /** `o[k] = v`: an existing key keeps its place and a new key goes last. */
    function Put(k: string, v: V): Obj<V> {
      if k in props then Obj(keys, props[k := v]) else Obj(keys + [k], props[k := v])
    }
  }

  /** The object literal `{}`. */
  function Empty<V>(): Obj<V> {
    Obj([], map[])
  }

  /**
   * An argument of `assign` as seen through `Object(arguments[i])`: `null` and
   * `undefined` become an object without keys.
   */
  datatype Source<V> = Nullish | Plain(obj: Obj<V>)

  ghost predicate SourcesValid<V>(sources: seq<Source<V>>) {
    forall i :: 0 <= i < |sources| ==> sources[i].Plain? ==> sources[i].obj.Valid()
  }

  /** The own properties of a source. */
  function Props<V>(s: Source<V>): map<string, V> {
    match s
    case Nullish => map[]
    case Plain(o) => o.props
  }

  /** The target after the inner loop has copied the first `n` keys of `o`. */
  function CopyKeys<V>(t: Obj<V>, o: Obj<V>, n: nat): Obj<V>
    requires o.Valid() && n <= |o.keys|
  {
    if n == 0 then t else CopyKeys(t, o, n - 1).Put(o.keys[n - 1], o.props[o.keys[n - 1]])
  }

  /** The target after one pass of the outer loop. */
  function AssignOne<V>(t: Obj<V>, s: Source<V>): Obj<V>
    requires s.Plain? ==> s.obj.Valid()
  {
    match s
    case Nullish => t
    case Plain(o) => CopyKeys(t, o, |o.keys|)
  }

  /** The state `assign(t, ...sources)` leaves its target in. */
  function AssignAll<V>(t: Obj<V>, sources: seq<Source<V>>): Obj<V>
    requires SourcesValid(sources)
  {
    if sources == [] then t
    else AssignOne(AssignAll(t, sources[..|sources| - 1]), sources[|sources| - 1])
  }

  /** Reference definition: the right-biased union of all properties, later sources winning. */
  function Union<V>(m: map<string, V>, sources: seq<Source<V>>): map<string, V> {
    if sources == [] then m else Union(m, sources[..|sources| - 1]) + Props(sources[|sources| - 1])
  }

  /** Every own key of every source. */
  function SourceKeys<V>(sources: seq<Source<V>>): set<string> {
    if sources == [] then {} else SourceKeys(sources[..|sources| - 1]) + Props(sources[|sources| - 1]).Keys
  }

  /** A property object that can be updated in place (the `target` of `assign`). */
  class JsObject<V> {
    var keys: seq<string>
    var props: map<string, V>

    /** The object's current keys and values. */
    function Value(): Obj<V>
      reads this
    {
      Obj(keys, props)
    }

    constructor (init: Obj<V>)
      ensures Value() == init
    {
      keys := init.keys;
      props := init.props;
    }

    /** `this[key] = value` */
    method Set(key: string, value: V)
      modifies this
      ensures Value() == old(Value()).Put(key, value)
    {
      if key !in props {
        keys := keys + [key];
      }
      props := props[key := value];
    }
  }

  /**
   * `assign(target, ...sources)`: copies, source by source and key by key, every
   * own key onto `target`, and returns `target` itself. The sources are values
   * taken at the call and distinct from `target`, and each source's
   * `hasOwnProperty` is the ordinary one, so the test on it holds for every key
   * `Object.keys` lists.
   */
  method Assign<V>(target: JsObject<V>, sources: seq<Source<V>>) returns (r: JsObject<V>)
    requires SourcesValid(sources)
    modifies target
    ensures r == target
    ensures target.Value() == AssignAll(old(target.Value()), sources)
  {
    for i := 0 to |sources|
      invariant target.Value() == AssignAll(old(target.Value()), sources[..i])
    {
      assert sources[..i + 1][..i] == sources[..i];
      match sources[i]
      case Nullish =>
      case Plain(obj) =>
        for j := 0 to |obj.keys|
          invariant target.Value() == CopyKeys(AssignAll(old(target.Value()), sources[..i]), obj, j)
        {
          var key := obj.keys[j];
          target.Set(key, obj.props[key]);
        }
    }
    assert sources[..|sources|] == sources;
    r := target;
  }

  // ---------------------------------------------------------------------------
  // Properties of the loop's specification

  /** Setting a key keeps an object well formed and never moves an existing key. */
  lemma PutValid<V>(o: Obj<V>, k: string, v: V)
    requires o.Valid()
    ensures o.Put(k, v).Valid()
    ensures o.Put(k, v).props == o.props[k := v]
    ensures |o.keys| <= |o.Put(k, v).keys| && o.Put(k, v).keys[..|o.keys|] == o.keys
  {
  }

  /** The inner loop preserves well-formedness and the order of the keys already present. */
  lemma {:induction false} CopyKeysValid<V>(t: Obj<V>, o: Obj<V>, n: nat)
    requires t.Valid() && o.Valid() && n <= |o.keys|
    ensures CopyKeys(t, o, n).Valid()
    ensures |t.keys| <= |CopyKeys(t, o, n).keys| && CopyKeys(t, o, n).keys[..|t.keys|] == t.keys
  {
    if n > 0 {
      var p := CopyKeys(t, o, n - 1);
      CopyKeysValid(t, o, n - 1);
      PutValid(p, o.keys[n - 1], o.props[o.keys[n - 1]]);
      var q := p.Put(o.keys[n - 1], o.props[o.keys[n - 1]]);
      assert q.keys[..|t.keys|] == q.keys[..|p.keys|][..|t.keys|];
    }
  }

  /** After the inner loop the target holds exactly its old properties overridden by the source's. */
  lemma {:induction false} CopyKeysProps<V>(t: Obj<V>, o: Obj<V>, n: nat)
    requires o.Valid() && n <= |o.keys|
    ensures forall k :: k in CopyKeys(t, o, n).props <==> k in t.props || k in o.keys[..n]
    ensures forall k :: k in o.keys[..n] ==> CopyKeys(t, o, n).props[k] == o.props[k]
    ensures forall k :: k in t.props && k !in o.keys[..n] ==> CopyKeys(t, o, n).props[k] == t.props[k]
  {
    if n > 0 {
      CopyKeysProps(t, o, n - 1);
      assert o.keys[..n] == o.keys[..n - 1] + [o.keys[n - 1]];
    }
  }

  /** One pass of the outer loop is a right-biased map union. */
  lemma AssignOneProps<V>(t: Obj<V>, s: Source<V>)
    requires s.Plain? ==> s.obj.Valid()
    ensures AssignOne(t, s).props == t.props + Props(s)
  {
    if s.Plain? {
      var o := s.obj;
      CopyKeysProps(t, o, |o.keys|);
      assert o.keys[..|o.keys|] == o.keys;
    }
  }

  /** `assign` computes the same properties as the union-based reference definition. */
  lemma {:induction false} AssignAllProps<V>(t: Obj<V>, sources: seq<Source<V>>)
    requires SourcesValid(sources)
    ensures AssignAll(t, sources).props == Union(t.props, sources)
  {
    if sources != [] {
      var init := sources[..|sources| - 1];
      AssignAllProps(t, init);
      AssignOneProps(AssignAll(t, init), sources[|sources| - 1]);
    }
  }

  /** A well-formed target stays well formed and keeps its keys first, in their old order. */
  lemma {:induction false} AssignAllValid<V>(t: Obj<V>, sources: seq<Source<V>>)
    requires t.Valid() && SourcesValid(sources)
    ensures AssignAll(t, sources).Valid()
    ensures |t.keys| <= |AssignAll(t, sources).keys|
    ensures AssignAll(t, sources).keys[..|t.keys|] == t.keys
  {
    if sources != [] {
      var init := sources[..|sources| - 1];
      var last := sources[|sources| - 1];
      AssignAllValid(t, init);
      var p := AssignAll(t, init);
      if last.Plain? {
        CopyKeysValid(p, last.obj, |last.obj.keys|);
        var q := AssignOne(p, last);
        assert q.keys[..|t.keys|] == q.keys[..|p.keys|][..|t.keys|];
      }
    }
  }

  /** The union's key set is the target's keys together with every source's own keys. */
  lemma {:induction false} UnionKeys<V>(m: map<string, V>, sources: seq<Source<V>>)
    ensures Union(m, sources).Keys == m.Keys + SourceKeys(sources)
  {
    if sources != [] {
      UnionKeys(m, sources[..|sources| - 1]);
    }
  }

  /** A key that some source has takes the value of the last source that has it. */
  lemma {:induction false} UnionLastWins<V>(m: map<string, V>, sources: seq<Source<V>>, i: nat, k: string)
    requires i < |sources| && k in Props(sources[i])
    requires forall j :: i < j < |sources| ==> k !in Props(sources[j])
    ensures k in Union(m, sources) && Union(m, sources)[k] == Props(sources[i])[k]
  {
    if i < |sources| - 1 {
      var init := sources[..|sources| - 1];
      forall j | i < j < |init| ensures k !in Props(init[j]) {
        assert init[j] == sources[j];
      }
      UnionLastWins(m, init, i, k);
    }
  }

  /** A key that no source has keeps its presence and its value from the target. */
  lemma {:induction false} UnionUntouched<V>(m: map<string, V>, sources: seq<Source<V>>, k: string)
    requires k !in SourceKeys(sources)
    ensures k in Union(m, sources) <==> k in m
    ensures k in m ==> Union(m, sources)[k] == m[k]
  {
    if sources != [] {
      UnionUntouched(m, sources[..|sources| - 1], k);
    }
  }

  /** Sources that are all `null`/`undefined` leave the target exactly as it was. */
  lemma {:induction false} AssignAllNullish<V>(t: Obj<V>, sources: seq<Source<V>>)
    requires forall i :: 0 <= i < |sources| ==> sources[i] == Nullish
    ensures AssignAll(t, sources) == t
  {
    if sources != [] {
      AssignAllNullish(t, sources[..|sources| - 1]);
    }
  }

  /**
   * The promises of `assign` about values: later sources win over earlier ones
   * and over the target, keys of no source keep their values, and the result's
   * keys are the target's together with the sources'.
   */
  lemma AssignSemantics<V>(t: Obj<V>, sources: seq<Source<V>>)
    requires SourcesValid(sources)
    ensures AssignAll(t, sources).props.Keys == t.props.Keys + SourceKeys(sources)
    ensures forall k :: k in t.props && k !in SourceKeys(sources) ==>
      AssignAll(t, sources).props[k] == t.props[k]
    ensures forall i, k ::
      && 0 <= i < |sources| && k in Props(sources[i])
      && (forall j :: i < j < |sources| ==> k !in Props(sources[j]))
      ==> k in AssignAll(t, sources).props && AssignAll(t, sources).props[k] == Props(sources[i])[k]
  {
    AssignAllProps(t, sources);
    UnionKeys(t.props, sources);
    forall k | k in t.props && k !in SourceKeys(sources)
      ensures AssignAll(t, sources).props[k] == t.props[k]
    {
      UnionUntouched(t.props, sources, k);
    }
    forall i, k |
      && 0 <= i < |sources| && k in Props(sources[i])
      && (forall j :: i < j < |sources| ==> k !in Props(sources[j]))
      ensures k in AssignAll(t, sources).props && AssignAll(t, sources).props[k] == Props(sources[i])[k]
    {
      UnionLastWins(t.props, sources, i, k);
    }
  }
}
