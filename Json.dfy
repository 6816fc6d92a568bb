/**
 * Parsed configuration documents and the recursive, right-biased merge of two
 * of them (`deepMerge` and `isObject`, app.js:537-561).
 */
module Json {
  import opened Text

  /** A JSON value as `JSON.parse` produces it (numbers restricted to integers). */
  datatype Json =
    | Null
    | Bool(b: bool)
    | Num(n: int)
    | Str(s: string)
    | Arr(items: seq<Json>)
    | Obj(fields: map<string, Json>)

  /** `isObject`: truthy, of type "object" and not an array; `null` is excluded. */
  predicate IsObject(v: Json) {
    v.Obj?
  }

  /** The own enumerable properties of a sequence, keyed by index ("0", "1", ...). */
  function IndexMap<T>(items: seq<T>): (m: map<string, T>)
    ensures |items| == 0 ==> m == map[]
    decreases |items|
  {
    if |items| == 0 then map[]
    else IndexMap(items[..|items| - 1])[NatToString(|items| - 1) := items[|items| - 1]]
  }

  /** The keys of a spread sequence are exactly its printed indices. */
  lemma {:induction false} IndexMapKeys<T>(items: seq<T>)
    ensures IndexMap(items).Keys == set i | 0 <= i < |items| :: NatToString(i)
    decreases |items|
  {
    if |items| > 0 {
      var n := |items| - 1;
      IndexMapKeys(items[..n]);
      assert (set i | 0 <= i < n + 1 :: NatToString(i)) == (set i | 0 <= i < n :: NatToString(i)) + {NatToString(n)};
    }
  }

  /** Element `i` of a spread sequence is found under the key "i". */
  lemma {:induction false} IndexMapAt<T>(items: seq<T>, i: nat)
    requires i < |items|
    ensures NatToString(i) in IndexMap(items) && IndexMap(items)[NatToString(i)] == items[i]
    decreases |items|
  {
    if i < |items| - 1 {
      IndexMapAt(items[..|items| - 1], i);
      if NatToString(i) == NatToString(|items| - 1) {
        NatToStringInjective(i, |items| - 1);
      }
    }
  }

  /** `{...v}`: an object's fields; an array's or a string's elements by index; nothing otherwise. */
  function Spread(v: Json): map<string, Json> {
    match v
    case Obj(fields) => fields
    case Arr(items) => IndexMap(items)
    case Str(s) => IndexMap(seq(|s|, i requires 0 <= i < |s| => Str([s[i]])))
    case _ => map[]
  }

  /**
   * `deepMerge(target, source)`. Only when both are objects are the source's
   * keys merged in: an object value under a key the target also has is merged
   * recursively, anything else replaces the target's value. Otherwise the
   * result is a shallow copy of the target and the source is not used.
   */
  function DeepMerge(target: Json, source: Json): Json
    decreases source
  {
    if IsObject(target) && IsObject(source) then
      Obj(map key | key in target.fields.Keys + source.fields.Keys ::
            MergedField(target.fields, source.fields, key))
    else
      Obj(Spread(target))
  }

  /** The merged value under `key` when both arguments are objects. */
  function MergedField(target: map<string, Json>, source: map<string, Json>, key: string): Json
    requires key in target || key in source
    decreases Obj(source), 0
  {
    if key !in source then target[key]
    else if IsObject(source[key]) && key in target then DeepMerge(target[key], source[key])
    else source[key]
  }

  /** `deepMerge` as the source runs it: copy the target, then update one source key at a time. */
  method DeepMergeLoop(target: Json, source: Json) returns (output: Json)
    ensures output == DeepMerge(target, source)
    decreases source
  {
    var fields := Spread(target);
    if IsObject(target) && IsObject(source) {
      var pending := source.fields.Keys;
      ghost var done: set<string> := {};
      while pending != {}
        invariant pending + done == source.fields.Keys && pending !! done
        invariant fields.Keys == target.fields.Keys + done
        invariant forall key :: key in fields ==>
                    fields[key] == if key in done then MergedField(target.fields, source.fields, key) else target.fields[key]
        decreases pending
      {
        var key :| key in pending;
        if IsObject(source.fields[key]) {
          if key !in target.fields {
            fields := fields[key := source.fields[key]];
          } else {
            var merged := DeepMergeLoop(target.fields[key], source.fields[key]);
            fields := fields[key := merged];
          }
        } else {
          fields := fields[key := source.fields[key]];
        }
        pending := pending - {key};
        done := done + {key};
      }
    }
    output := Obj(fields);
  }

  /** Two objects, one level down: the key sets unite and the source wins except where both hold objects. */
  lemma DeepMergeObjects(target: map<string, Json>, source: map<string, Json>)
    ensures var r := DeepMerge(Obj(target), Obj(source));
            && r.Obj?
            && r.fields.Keys == target.Keys + source.Keys
            && (forall key :: key in target && key !in source ==> r.fields[key] == target[key])
            && (forall key :: key in source && !IsObject(source[key]) ==> r.fields[key] == source[key])
            && (forall key :: key in source && IsObject(source[key]) && key !in target ==> r.fields[key] == source[key])
            && (forall key :: key in source && IsObject(source[key]) && key in target ==>
                  r.fields[key] == DeepMerge(target[key], source[key]))
  {
  }

  /** Whenever the two are not both objects, the result is a copy of the target and the source is ignored. */
  lemma DeepMergeOfNonObjects(target: Json, source: Json, other: Json)
    requires !IsObject(target) || !IsObject(source)
    ensures DeepMerge(target, source) == Obj(Spread(target))
    ensures !IsObject(target) ==> DeepMerge(target, source) == DeepMerge(target, other)
    ensures target.Obj? ==> DeepMerge(target, source) == target
    ensures target.Null? || target.Bool? || target.Num? ==> DeepMerge(target, source) == Obj(map[])
    ensures target.Arr? ==>
              && DeepMerge(target, source).fields.Keys == (set i | 0 <= i < |target.items| :: NatToString(i))
              && forall i :: 0 <= i < |target.items| ==> DeepMerge(target, source).fields[NatToString(i)] == target.items[i]
    ensures target.Str? ==>
              && DeepMerge(target, source).fields.Keys == (set i | 0 <= i < |target.s| :: NatToString(i))
              && forall i :: 0 <= i < |target.s| ==> DeepMerge(target, source).fields[NatToString(i)] == Str([target.s[i]])
  {
    match target
    case Arr(items) =>
      IndexMapKeys(items);
      assert DeepMerge(target, source) == Obj(IndexMap(items));
      forall i | 0 <= i < |items|
        ensures NatToString(i) in IndexMap(items) && IndexMap(items)[NatToString(i)] == items[i]
      {
        IndexMapAt(items, i);
      }
    case Str(text) =>
      var chars := seq(|text|, i requires 0 <= i < |text| => Str([text[i]]));
      IndexMapKeys(chars);
      assert DeepMerge(target, source) == Obj(IndexMap(chars));
      forall i | 0 <= i < |text|
        ensures NatToString(i) in IndexMap(chars) && IndexMap(chars)[NatToString(i)] == Str([text[i]])
      {
        IndexMapAt(chars, i);
      }
    case _ =>
  }

  /** Merging an object with itself gives it back. */
  lemma {:induction false} DeepMergeIdempotent(d: Json)
    requires IsObject(d)
    ensures DeepMerge(d, d) == d
    decreases d
  {
    var r := DeepMerge(d, d);
    forall key | key in d.fields
      ensures r.fields[key] == d.fields[key]
    {
      assert r.fields[key] == MergedField(d.fields, d.fields, key);
      if IsObject(d.fields[key]) {
        DeepMergeIdempotent(d.fields[key]);
      }
    }
    assert r.fields.Keys == d.fields.Keys;
  }

  /** The empty object is a neutral element on either side. */
  lemma {:induction false} DeepMergeEmpty(d: Json)
    requires IsObject(d)
    ensures DeepMerge(d, Obj(map[])) == d
    ensures DeepMerge(Obj(map[]), d) == d
  {
    var r := DeepMerge(Obj(map[]), d);
    assert r.fields.Keys == d.fields.Keys;
    assert DeepMerge(d, Obj(map[])).fields.Keys == d.fields.Keys;
  }

  /**
   * No object under the source meets a non-object at the same place in the
   * target: the case where `deepMerge` recurses into a non-object target.
   */
  predicate Compatible(target: Json, source: Json)
    decreases source
  {
    && IsObject(target) && IsObject(source)
    && forall key :: key in source.fields && key in target.fields && IsObject(source.fields[key]) ==>
         Compatible(target.fields[key], source.fields[key])
  }

  /** Every leaf of `source`, at any depth, is found at the same place in `r`. */
  predicate Overrides(r: Json, source: Json)
    decreases source
  {
    && IsObject(r) && IsObject(source)
    && forall key :: key in source.fields ==>
         && key in r.fields
         && if IsObject(source.fields[key]) then Overrides(r.fields[key], source.fields[key])
            else r.fields[key] == source.fields[key]
  }

  lemma {:induction false} OverridesItself(source: Json)
    requires IsObject(source)
    ensures Overrides(source, source)
    decreases source
  {
    forall key | key in source.fields && IsObject(source.fields[key])
      ensures Overrides(source.fields[key], source.fields[key])
    {
      OverridesItself(source.fields[key]);
    }
  }

  /** Right bias at every depth: on compatible documents, every leaf of the source survives the merge. */
  lemma {:induction false} DeepMergeSourceWins(target: Json, source: Json)
    requires Compatible(target, source)
    ensures Overrides(DeepMerge(target, source), source)
    decreases source
  {
    var r := DeepMerge(target, source);
    forall key | key in source.fields && IsObject(source.fields[key])
      ensures Overrides(r.fields[key], source.fields[key])
    {
      if key in target.fields {
        DeepMergeSourceWins(target.fields[key], source.fields[key]);
      } else {
        OverridesItself(source.fields[key]);
      }
    }
  }

  /** Scalars conflict: the later layer wins, `{a:1,b:2}` with `{a:3}` is `{a:3,b:2}`. */
  lemma MergeScalarConflictExample()
    ensures DeepMerge(Obj(map["a" := Num(1), "b" := Num(2)]), Obj(map["a" := Num(3)]))
         == Obj(map["a" := Num(3), "b" := Num(2)])
  {
    var r := DeepMerge(Obj(map["a" := Num(1), "b" := Num(2)]), Obj(map["a" := Num(3)]));
    assert r.fields.Keys == {"a", "b"};
  }

  /** Arrays are replaced whole: `{a:[1,2]}` with `{a:[3]}` is `{a:[3]}`. */
  lemma MergeArrayReplacedExample()
    ensures DeepMerge(Obj(map["a" := Arr([Num(1), Num(2)])]), Obj(map["a" := Arr([Num(3)])]))
         == Obj(map["a" := Arr([Num(3)])])
  {
    var r := DeepMerge(Obj(map["a" := Arr([Num(1), Num(2)])]), Obj(map["a" := Arr([Num(3)])]));
    assert r.fields.Keys == {"a"};
  }

  /** Objects are merged recursively: `{a:{x:1}}` with `{a:{y:2}}` is `{a:{x:1,y:2}}`. */
  lemma MergeNestedExample()
    ensures DeepMerge(Obj(map["a" := Obj(map["x" := Num(1)])]), Obj(map["a" := Obj(map["y" := Num(2)])]))
         == Obj(map["a" := Obj(map["x" := Num(1), "y" := Num(2)])])
  {
    var inner := DeepMerge(Obj(map["x" := Num(1)]), Obj(map["y" := Num(2)]));
    assert inner.fields.Keys == {"x", "y"};
    assert inner == Obj(map["x" := Num(1), "y" := Num(2)]);
    var r := DeepMerge(Obj(map["a" := Obj(map["x" := Num(1)])]), Obj(map["a" := Obj(map["y" := Num(2)])]));
    assert r.fields.Keys == {"a"};
    assert r.fields["a"] == inner;
  }

  /** An object over a number is dropped: `{a:1}` with `{a:{x:1}}` is `{a:{}}`. */
  lemma MergeObjectOverScalarExample()
    ensures DeepMerge(Obj(map["a" := Num(1)]), Obj(map["a" := Obj(map["x" := Num(1)])]))
         == Obj(map["a" := Obj(map[])])
  {
    var r := DeepMerge(Obj(map["a" := Num(1)]), Obj(map["a" := Obj(map["x" := Num(1)])]));
    assert r.fields.Keys == {"a"};
  }
}
