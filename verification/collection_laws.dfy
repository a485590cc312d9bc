/** What the collection builtins compute, stated against plain sequence
    operations: folds, maps, filters, searches, concatenation, slicing,
    objects built from key/value pairs, `refine` and `compare`. */
module CollectionLaws {
  import opened Errors
  import opened Numbers
  import opened Values
  import opened Scopes
  import opened Semantics
  import opened CursorLaws

  /** A property of every item of a list. */
  ghost predicate Every<T>(p: T -> bool, xs: seq<T>) {
    forall i :: 0 <= i < |xs| ==> p(xs[i])
  }

  /** A property holds of every item exactly when it holds of the first
      and of every later one. */
  lemma {:induction false} EveryCons<T>(p: T -> bool, xs: seq<T>)
    requires xs != []
    ensures Every(p, xs) <==> p(xs[0]) && Every(p, xs[1..])
  {
    var tail := xs[1..];
    assert forall i :: 1 <= i < |xs| ==> xs[i] == tail[i - 1];
  }

  /** A property holds of every item exactly when it holds of every item
      but the last, and of the last. */
  lemma {:induction false} EverySplit<T>(p: T -> bool, xs: seq<T>)
    requires xs != []
    ensures Every(p, xs) <==> Every(p, xs[..|xs| - 1]) && p(xs[|xs| - 1])
  {
    var front := xs[..|xs| - 1];
    assert forall i :: 0 <= i < |front| ==> front[i] == xs[i];
  }

  /** The names of a list of properties. */
  function KeySet(fields: seq<Field>): (r: set<string>)
    ensures forall k :: 0 <= k < |fields| ==> fields[k].key in r
    ensures forall key :: key in r ==> exists k :: 0 <= k < |fields| && fields[k].key == key
  {
    set k | 0 <= k < |fields| :: fields[k].key
  }

  /** Writing a property adds its name and keeps every other. */
  lemma {:induction false} SetFieldKeys(fields: seq<Field>, key: string, v: Value)
    requires key != "__proto__"
    ensures SetField(fields, key, v).Ok?
    ensures KeySet(SetField(fields, key, v).value) == KeySet(fields) + {key}
  {
    var r := SetField(fields, key, v).value;
    match FieldIndex(fields, key)
    case Some(i) =>
      assert r == fields[i := Field(key, v)];
      forall name | name in KeySet(r) ensures name in KeySet(fields) + {key} {
        var k :| 0 <= k < |r| && r[k].key == name;
        if k != i { assert r[k] == fields[k]; }
      }
      forall name | name in KeySet(fields) + {key} ensures name in KeySet(r) {
        if name != key {
          var k :| 0 <= k < |fields| && fields[k].key == name;
          assert r[k] == fields[k];
        } else {
          assert r[i].key == key;
        }
      }
    case None =>
      assert r == fields + [Field(key, v)];
      forall name | name in KeySet(r) ensures name in KeySet(fields) + {key} {
        var k :| 0 <= k < |r| && r[k].key == name;
        if k < |fields| { assert r[k] == fields[k]; }
      }
      forall name | name in KeySet(fields) + {key} ensures name in KeySet(r) {
        if name != key {
          var k :| 0 <= k < |fields| && fields[k].key == name;
          assert r[k] == fields[k];
        } else {
          assert r[|fields|].key == key;
        }
      }
  }

  /** Two property lists with the same names in the same places find a
      name at the same place. */
  lemma {:induction false} FieldIndexByKeys(a: seq<Field>, b: seq<Field>, key: string)
    requires |a| <= |b|
    requires forall k :: 0 <= k < |a| ==> a[k].key == b[k].key
    requires forall k :: |a| <= k < |b| ==> b[k].key != key
    ensures FieldIndex(a, key) == FieldIndex(b, key)
  {
    var x, y := FieldIndex(a, key), FieldIndex(b, key);
    if x.Some? {
      assert b[x.value].key == key;
      assert y.Some? && y.value <= x.value;
      assert a[y.value].key == key;
    }
  }

  /** After `o[key] = v`, reading `key` gives `v` and every other name
      reads as before. */
  lemma {:induction false} SetFieldReads(fields: seq<Field>, key: string, v: Value)
    requires key != "__proto__"
    ensures SetField(fields, key, v).Ok?
    ensures Member(Obj(SetField(fields, key, v).value), key) == Ok(v)
    ensures forall name :: name != key ==>
              Member(Obj(SetField(fields, key, v).value), name) == Member(Obj(fields), name)
  {
    var r := SetField(fields, key, v).value;
    match FieldIndex(fields, key)
    case Some(i) =>
      assert r == fields[i := Field(key, v)];
      FieldIndexByKeys(fields, r, key);
      forall name | name != key
        ensures Member(Obj(r), name) == Member(Obj(fields), name)
      {
        FieldIndexByKeys(fields, r, name);
        if FieldIndex(fields, name).Some? {
          assert FieldIndex(fields, name).value != i;
        }
      }
    case None =>
      assert r == fields + [Field(key, v)];
      assert FieldIndex(r, key) == Some(|fields|) by {
        var y := FieldIndex(r, key);
        assert r[|fields|].key == key;
        assert y.Some? && y.value <= |fields|;
      }
      forall name | name != key
        ensures Member(Obj(r), name) == Member(Obj(fields), name)
      {
        FieldIndexByKeys(fields, r, name);
      }
  }

  // ---------------------------------------------------------------- fold

  /** `fold` is a left fold: one more item is one more call on the running
      result. */
  lemma {:induction false} FoldItemsSnoc(fuel: nat, env: Env, f: Value, acc: Value, items: seq<Value>, x: Value)
    ensures FoldItems(fuel, env, f, acc, items + [x])
            == (var r := FoldItems(fuel, env, f, acc, items);
                if r.Err? then r else CallWith(fuel, f, env, [Val(r.value), Val(x)]))
    decreases |items|
  {
    if items == [] {
      assert [] + [x] == [x];
      var next := CallWith(fuel, f, env, [Val(acc), Val(x)]);
      if next.Ok? {
        assert FoldItems(fuel, env, f, next.value, []) == Ok(next.value);
      }
    } else {
      assert (items + [x])[0] == items[0];
      assert (items + [x])[1..] == items[1..] + [x];
      var next := CallWith(fuel, f, env, [Val(acc), Val(items[0])]);
      if next.Ok? {
        FoldItemsSnoc(fuel, env, f, next.value, items[1..], x);
      }
    }
  }

  /** The arguments before the seed are the source: one is folded over as
      it stands (an array item by item), several are folded over as a
      list, and none is a type error. */
  lemma {:induction false} FoldSources(fuel: nat, env: Env, sources: seq<Value>, seed: Value, f: Value)
    ensures var r := FoldCall(fuel, env, Cursor(Vals(sources + [seed, f]), 0));
            && (sources == [] ==> r == Err(TypeError))
            && (|sources| == 1 && sources[0].Arr? ==> r == FoldItems(fuel, env, f, seed, sources[0].items))
            && (|sources| > 1 ==> r == FoldItems(fuel, env, f, seed, sources))
  {
    var vals := sources + [seed, f];
    AllOfVals(fuel, env, vals, 0);
    assert vals[0..] == vals;
    assert vals[|vals| - 1] == f && vals[|vals| - 2] == seed;
    assert vals[..|vals| - 2] == sources;
  }

  // ---------------------------------------------------------------- map

  /** Mapping an array calls the function once per item: it succeeds
      exactly when every call does, and item `k` of the result is the
      result of the call on item `k`. */
  lemma {:induction false} MapItemsPointwise(fuel: nat, env: Env, f: Value, items: seq<Value>)
    ensures MapItems(fuel, env, f, items).Ok? ==>
              forall k :: 0 <= k < |items| ==> CallWith(fuel, f, env, [Val(items[k])]).Ok?
    ensures MapItems(fuel, env, f, items).Err? ==>
              exists k :: 0 <= k < |items| && CallWith(fuel, f, env, [Val(items[k])]).Err?
    ensures MapItems(fuel, env, f, items).Ok? ==>
              |MapItems(fuel, env, f, items).value| == |items|
              && forall k :: 0 <= k < |items| ==>
                   CallWith(fuel, f, env, [Val(items[k])]) == Ok(MapItems(fuel, env, f, items).value[k])
    decreases |items|
  {
    if items != [] {
      var y := CallWith(fuel, f, env, [Val(items[0])]);
      if y.Ok? {
        MapItemsPointwise(fuel, env, f, items[1..]);
        var more := MapItems(fuel, env, f, items[1..]);
        assert forall k :: 1 <= k < |items| ==> items[1..][k - 1] == items[k];
        if more.Ok? {
          assert MapItems(fuel, env, f, items) == Ok([y.value] + more.value);
        } else {
          assert MapItems(fuel, env, f, items) == Err(more.error);
          var k :| 0 <= k < |items[1..]| && CallWith(fuel, f, env, [Val(items[1..][k])]).Err?;
          assert CallWith(fuel, f, env, [Val(items[k + 1])]).Err?;
        }
      } else {
        assert MapItems(fuel, env, f, items) == Err(y.error);
      }
    }
  }

  /** The function maps the property's value without error, and the
      property may be written to a plain object. */
  ghost function Mappable(fuel: nat, env: Env, f: Value): Field -> bool {
    (e: Field) => CallWith(fuel, f, env, [Val(e.value)]).Ok? && e.key != "__proto__"
  }

  /** Mapping an object calls the function on each property value and
      writes the result under the same name: it succeeds exactly when every
      property is mappable, and the names of the result are those of the
      accumulator and the source. */
  lemma {:induction false} MapFieldsKeys(fuel: nat, env: Env, f: Value, entries: seq<Field>, acc: seq<Field>)
    ensures MapFields(fuel, env, f, entries, acc).Ok? <==> Every(Mappable(fuel, env, f), entries)
    ensures MapFields(fuel, env, f, entries, acc).Ok? ==>
              KeySet(MapFields(fuel, env, f, entries, acc).value) == KeySet(acc) + KeySet(entries)
    ensures MapFields(fuel, env, f, entries, acc).Ok? && DistinctKeys(entries) ==>
              forall k :: 0 <= k < |entries| ==>
                Member(Obj(MapFields(fuel, env, f, entries, acc).value), entries[k].key)
                == CallWith(fuel, f, env, [Val(entries[k].value)])
  {
    MapFieldsKeySet(fuel, env, f, entries, acc);
    if DistinctKeys(entries) {
      MapFieldsValues(fuel, env, f, entries, acc);
    }
  }

  /** The success condition and the names of a mapped object. */
  lemma {:induction false} MapFieldsKeySet(fuel: nat, env: Env, f: Value, entries: seq<Field>, acc: seq<Field>)
    ensures MapFields(fuel, env, f, entries, acc).Ok? <==> Every(Mappable(fuel, env, f), entries)
    ensures MapFields(fuel, env, f, entries, acc).Ok? ==>
              KeySet(MapFields(fuel, env, f, entries, acc).value) == KeySet(acc) + KeySet(entries)
    decreases |entries|
  {
    if entries == [] {
      assert KeySet(entries) == {};
    } else {
      var e := entries[0];
      EveryCons(Mappable(fuel, env, f), entries);
      if Mappable(fuel, env, f)(e) {
        var y := CallWith(fuel, f, env, [Val(e.value)]).value;
        SetFieldKeys(acc, e.key, y);
        KeySetCons(entries);
        var updated := SetField(acc, e.key, y).value;
        MapFieldsKeySet(fuel, env, f, entries[1..], updated);
        MapFieldsStep(fuel, env, f, entries, acc);
      } else {
        MapFieldsStep(fuel, env, f, entries, acc);
      }
    }
  }

  /** Over properties with distinct names, the mapped object holds the
      function's result under each name, and any other name reads as it
      did in the accumulator. */
  lemma {:induction false} MapFieldsValues(fuel: nat, env: Env, f: Value, entries: seq<Field>, acc: seq<Field>)
    requires DistinctKeys(entries)
    ensures MapFields(fuel, env, f, entries, acc).Ok? ==>
              forall k :: 0 <= k < |entries| ==>
                Member(Obj(MapFields(fuel, env, f, entries, acc).value), entries[k].key)
                == CallWith(fuel, f, env, [Val(entries[k].value)])
    ensures MapFields(fuel, env, f, entries, acc).Ok? ==>
              forall name :: (forall k :: 0 <= k < |entries| ==> entries[k].key != name) ==>
                Member(Obj(MapFields(fuel, env, f, entries, acc).value), name) == Member(Obj(acc), name)
    decreases |entries|
  {
    if entries != [] {
      var e, tail := entries[0], entries[1..];
      assert forall k :: 1 <= k < |entries| ==> tail[k - 1] == entries[k];
      var y := CallWith(fuel, f, env, [Val(e.value)]);
      MapFieldsStep(fuel, env, f, entries, acc);
      if y.Ok? && e.key != "__proto__" {
        SetFieldReads(acc, e.key, y.value);
        var updated := SetField(acc, e.key, y.value).value;
        MapFieldsValues(fuel, env, f, tail, updated);
        var result := MapFields(fuel, env, f, entries, acc);
        assert result == MapFields(fuel, env, f, tail, updated);
        if result.Ok? {
          assert forall k :: 0 <= k < |tail| ==> tail[k].key != e.key;
          forall k | 0 <= k < |entries|
            ensures Member(Obj(result.value), entries[k].key) == CallWith(fuel, f, env, [Val(entries[k].value)])
          {
            if k > 0 { assert entries[k] == tail[k - 1]; }
          }
        }
      }
    }
  }

  /** One step of mapping an object. */
  lemma {:induction false} MapFieldsStep(fuel: nat, env: Env, f: Value, entries: seq<Field>, acc: seq<Field>)
    requires entries != []
    ensures var e := entries[0];
            var y := CallWith(fuel, f, env, [Val(e.value)]);
            MapFields(fuel, env, f, entries, acc)
            == if y.Err? then Err(y.error)
               else if e.key == "__proto__" then Err(Unsupported)
               else MapFields(fuel, env, f, entries[1..], SetField(acc, e.key, y.value).value)
  {
  }

  /** The names of a non-empty list: the first, and the rest's. */
  lemma {:induction false} KeySetCons(entries: seq<Field>)
    requires entries != []
    ensures KeySet(entries) == {entries[0].key} + KeySet(entries[1..])
  {
    var tail := entries[1..];
    assert forall k :: 1 <= k < |entries| ==> tail[k - 1] == entries[k];
    forall name | name in KeySet(entries) ensures name in {entries[0].key} + KeySet(tail) {
      var k :| 0 <= k < |entries| && entries[k].key == name;
      if k > 0 { assert tail[k - 1].key == name; }
    }
  }

  /** `map` over an array is an array of the same length, item by item. */
  lemma {:induction false} MapOverArray(fuel: nat, env: Env, xs: seq<Value>, f: Value)
    ensures var r := MapCall(fuel, env, Cursor(Vals([Arr(xs), f]), 0));
            && (r.Ok? ==> r.value.Arr? && |r.value.items| == |xs|
                          && forall k :: 0 <= k < |xs| ==> CallWith(fuel, f, env, [Val(xs[k])]) == Ok(r.value.items[k]))
            && (r.Err? ==> exists k :: 0 <= k < |xs| && CallWith(fuel, f, env, [Val(xs[k])]).Err?)
  {
    var c := Cursor(Vals([Arr(xs), f]), 0);
    assert Next(fuel, env, c) == Ok(Step(Arr(xs), c.(index := 1)));
    assert Next(fuel, env, c.(index := 1)) == Ok(Step(f, c.(index := 2)));
    MapItemsPointwise(fuel, env, f, xs);
  }

  // ---------------------------------------------------------------- filter and findOne

  /** `filter` tests every item: it succeeds exactly when every test
      does. */
  lemma {:induction false} FilterItemsTests(fuel: nat, env: Env, f: Value, items: seq<Value>)
    ensures FilterItems(fuel, env, f, items).Ok? ==>
              forall k :: 0 <= k < |items| ==> Keeps(fuel, env, f, items[k]).Ok?
    ensures FilterItems(fuel, env, f, items).Err? ==>
              exists k :: 0 <= k < |items| && Keeps(fuel, env, f, items[k]).Err?
    decreases |items|
  {
    if items != [] {
      var keep := Keeps(fuel, env, f, items[0]);
      var tail := items[1..];
      assert forall k :: 1 <= k < |items| ==> tail[k - 1] == items[k];
      if keep.Ok? {
        FilterItemsTests(fuel, env, f, tail);
        var rest := FilterItems(fuel, env, f, tail);
        if rest.Ok? {
          assert FilterItems(fuel, env, f, items).Ok?;
        } else {
          assert FilterItems(fuel, env, f, items) == Err(rest.error);
          var k :| 0 <= k < |tail| && Keeps(fuel, env, f, tail[k]).Err?;
          assert Keeps(fuel, env, f, items[k + 1]).Err?;
        }
      } else {
        assert FilterItems(fuel, env, f, items) == Err(keep.error);
      }
    }
  }

  /** One step of `filter`: the first item's test, then the rest. */
  lemma {:induction false} FilterStep(fuel: nat, env: Env, f: Value, items: seq<Value>)
    requires items != []
    ensures var keep := Keeps(fuel, env, f, items[0]);
      var rest := FilterItems(fuel, env, f, items[1..]);
      FilterItems(fuel, env, f, items)
      == if keep.Err? then Err(keep.error)
         else if rest.Err? then Err(rest.error)
         else Ok((if keep.value then [items[0]] else []) + rest.value)
  {
  }

  /** `filter` keeps, in order, the items the test accepts: it keeps only
      items of the source, none the test rejects, and drops none it
      accepts. */
  lemma {:induction false} FilterItemsSelects(fuel: nat, env: Env, f: Value, items: seq<Value>)
    ensures FilterItems(fuel, env, f, items).Ok? ==>
              FilterItems(fuel, env, f, items).value == Select(Kept(fuel, env, f), items)
    ensures FilterItems(fuel, env, f, items).Ok? ==>
              multiset(FilterItems(fuel, env, f, items).value) <= multiset(items)
              && (forall x :: x in FilterItems(fuel, env, f, items).value ==> Keeps(fuel, env, f, x) == Ok(true))
              && (forall k :: 0 <= k < |items| && Keeps(fuel, env, f, items[k]) == Ok(true) ==>
                    items[k] in FilterItems(fuel, env, f, items).value)
  {
    FilterItemsOrder(fuel, env, f, items);
    FilterItemsSubset(fuel, env, f, items);
    FilterItemsSound(fuel, env, f, items);
    FilterItemsComplete(fuel, env, f, items);
  }

  /** The items a test accepts, in their original order: a reference
      definition of selection, built from the last item backwards. */
  ghost function Select<T>(p: T -> bool, xs: seq<T>): seq<T>
    decreases |xs|
  {
    if xs == [] then []
    else
      var front := Select(p, xs[..|xs| - 1]);
      if p(xs[|xs| - 1]) then front + [xs[|xs| - 1]] else front
  }

  /** Selection read from the front: the first item when it is accepted,
      then the selection from the rest. */
  lemma {:induction false} SelectCons<T>(p: T -> bool, xs: seq<T>)
    requires xs != []
    ensures Select(p, xs) == (if p(xs[0]) then [xs[0]] else []) + Select(p, xs[1..])
    decreases |xs|
  {
    if |xs| == 1 {
      assert xs[..0] == [] && xs[1..] == [];
      assert Select(p, xs[1..]) == [];
    } else {
      var front := xs[..|xs| - 1];
      var tail := xs[1..];
      SelectCons(p, front);
      assert front[1..] == tail[..|tail| - 1];
      assert front[0] == xs[0];
      assert tail[|tail| - 1] == xs[|xs| - 1];
    }
  }

  /** The test `filter` applies to an item, accepting it without error. */
  ghost function Kept(fuel: nat, env: Env, f: Value): Value -> bool {
    (x: Value) => Keeps(fuel, env, f, x) == Ok(true)
  }

  lemma {:induction false} FilterItemsOrder(fuel: nat, env: Env, f: Value, items: seq<Value>)
    ensures FilterItems(fuel, env, f, items).Ok? ==>
              FilterItems(fuel, env, f, items).value == Select(Kept(fuel, env, f), items)
    decreases |items|
  {
    if items != [] && FilterItems(fuel, env, f, items).Ok? {
      FilterStep(fuel, env, f, items);
      FilterItemsOrder(fuel, env, f, items[1..]);
      SelectCons(Kept(fuel, env, f), items);
    }
  }

  lemma {:induction false} FilterItemsSubset(fuel: nat, env: Env, f: Value, items: seq<Value>)
    ensures FilterItems(fuel, env, f, items).Ok? ==>
              multiset(FilterItems(fuel, env, f, items).value) <= multiset(items)
    decreases |items|
  {
    if items != [] && FilterItems(fuel, env, f, items).Ok? {
      FilterStep(fuel, env, f, items);
      var tail := items[1..];
      FilterItemsSubset(fuel, env, f, tail);
      var head := if Keeps(fuel, env, f, items[0]).value then [items[0]] else [];
      var rest := FilterItems(fuel, env, f, tail).value;
      assert items == [items[0]] + tail;
      assert multiset(head) <= multiset([items[0]]);
      assert multiset(items) == multiset([items[0]]) + multiset(tail);
      assert multiset(head + rest) == multiset(head) + multiset(rest);
    }
  }

  lemma {:induction false} FilterItemsSound(fuel: nat, env: Env, f: Value, items: seq<Value>)
    ensures FilterItems(fuel, env, f, items).Ok? ==>
              forall x :: x in FilterItems(fuel, env, f, items).value ==> Keeps(fuel, env, f, x) == Ok(true)
    decreases |items|
  {
    if items != [] && FilterItems(fuel, env, f, items).Ok? {
      FilterStep(fuel, env, f, items);
      FilterItemsSound(fuel, env, f, items[1..]);
    }
  }

  lemma {:induction false} FilterItemsComplete(fuel: nat, env: Env, f: Value, items: seq<Value>)
    ensures FilterItems(fuel, env, f, items).Ok? ==>
              forall k :: 0 <= k < |items| && Keeps(fuel, env, f, items[k]) == Ok(true) ==>
                items[k] in FilterItems(fuel, env, f, items).value
    decreases |items|
  {
    if items != [] && FilterItems(fuel, env, f, items).Ok? {
      FilterStep(fuel, env, f, items);
      var tail := items[1..];
      FilterItemsComplete(fuel, env, f, tail);
      assert forall k :: 1 <= k < |items| ==> items[k] == tail[k - 1];
    }
  }

  /** Filtering by a value that is not a function keeps only copies of
      that value. */
  lemma {:induction false} FilterByValue(fuel: nat, env: Env, f: Value, items: seq<Value>)
    requires !f.Fn?
    ensures FilterItems(fuel, env, f, items).Ok? ==>
              forall x :: x in FilterItems(fuel, env, f, items).value ==> x == f
  {
    FilterItemsSelects(fuel, env, f, items);
  }

  /** `filter` and `findOne` with fewer than two arguments return them as
      an array, and with a non-array source return undefined. */
  lemma {:induction false} FilterAndFindOneArguments(fuel: nat, env: Env, vs: seq<Value>)
    ensures |vs| < 2 ==> FilterCall(fuel, env, Cursor(Vals(vs), 0)) == Ok(Arr(vs))
    ensures |vs| < 2 ==> FindOneCall(fuel, env, Cursor(Vals(vs), 0)) == Ok(Arr(vs))
    ensures |vs| >= 2 && !vs[0].Arr? ==> FilterCall(fuel, env, Cursor(Vals(vs), 0)) == Ok(Undefined)
    ensures |vs| >= 2 && !vs[0].Arr? ==> FindOneCall(fuel, env, Cursor(Vals(vs), 0)) == Ok(Undefined)
    ensures |vs| >= 2 && vs[0].Arr? ==>
              FindOneCall(fuel, env, Cursor(Vals(vs), 0)) == FindFirst(fuel, env, vs[1], vs[0].items)
  {
    AllOfVals(fuel, env, vs, 0);
    assert vs[0..] == vs;
  }

  /** `findOne` returns the first accepted item; the items after it are
      never visited. */
  lemma {:induction false} FindFirstHit(fuel: nat, env: Env, f: Value, items: seq<Value>, k: nat)
    requires k < |items|
    requires forall j :: 0 <= j < k ==> Accepts(fuel, env, f, items[j]) == Ok(false)
    requires Accepts(fuel, env, f, items[k]) == Ok(true)
    ensures FindFirst(fuel, env, f, items) == Ok(items[k])
    decreases k
  {
    if k > 0 {
      assert forall j :: 0 <= j < k - 1 ==> items[1..][j] == items[j + 1];
      FindFirstHit(fuel, env, f, items[1..], k - 1);
    }
  }

  /** When no item is accepted, `findOne` returns undefined. */
  lemma {:induction false} FindFirstMiss(fuel: nat, env: Env, f: Value, items: seq<Value>)
    requires forall j :: 0 <= j < |items| ==> Accepts(fuel, env, f, items[j]) == Ok(false)
    ensures FindFirst(fuel, env, f, items) == Ok(Undefined)
    decreases |items|
  {
    if items != [] {
      assert forall j :: 0 <= j < |items| - 1 ==> items[1..][j] == items[j + 1];
      FindFirstMiss(fuel, env, f, items[1..]);
    }
  }

  // ---------------------------------------------------------------- concat

  /** What `Array.prototype.concat` appends for a list of arguments: the
      items of each array argument, and each other argument itself. */
  function Spread(vs: seq<Value>): (r: seq<Value>)
    ensures |vs| == 1 && !vs[0].Arr? ==> r == vs
    ensures |vs| == 1 && vs[0].Arr? ==> r == vs[0].items
  {
    if vs == [] then [] else (if vs[0].Arr? then vs[0].items else [vs[0]]) + Spread(vs[1..])
  }

  /** Concatenating onto an array appends the spread of every further
      argument. */
  lemma {:induction false} ConcatOntoArray(fuel: nat, env: Env, vs: seq<Value>, xs: seq<Value>, i: nat)
    requires i <= |vs|
    ensures ConcatFrom(fuel, env, Cursor(Vals(vs), i), Arr(xs)) == Ok(Arr(xs + Spread(vs[i..])))
    decreases |vs| - i
  {
    if i < |vs| {
      var piece := if vs[i].Arr? then vs[i].items else [vs[i]];
      ConcatArrayStep(fuel, env, vs, xs, i);
      ConcatOntoArray(fuel, env, vs, xs + piece, i + 1);
      SpreadStep(vs, xs, i);
    } else {
      assert !HasNext(Cursor(Vals(vs), i));
      assert vs[i..] == [];
      assert Spread([]) == [];
      assert xs + [] == xs;
    }
  }

  /** One further argument concatenated onto an array. */
  lemma {:induction false} ConcatArrayStep(fuel: nat, env: Env, vs: seq<Value>, xs: seq<Value>, i: nat)
    requires i < |vs|
    ensures ConcatFrom(fuel, env, Cursor(Vals(vs), i), Arr(xs))
            == ConcatFrom(fuel, env, Cursor(Vals(vs), i + 1), Arr(xs + if vs[i].Arr? then vs[i].items else [vs[i]]))
  {
    var c := Cursor(Vals(vs), i);
    assert Next(fuel, env, c) == Ok(Step(vs[i], c.(index := i + 1)));
  }

  lemma {:induction false} SpreadStep(vs: seq<Value>, xs: seq<Value>, i: nat)
    requires i < |vs|
    ensures xs + (if vs[i].Arr? then vs[i].items else [vs[i]]) + Spread(vs[i + 1..]) == xs + Spread(vs[i..])
  {
    assert vs[i..][1..] == vs[i + 1..];
  }

  /** The text of each argument, for a list of strings. */
  function Strs(ts: seq<string>): (r: seq<Value>)
    ensures |r| == |ts|
    ensures forall k :: 0 <= k < |ts| ==> r[k] == Str(ts[k])
  {
    seq(|ts|, k requires 0 <= k < |ts| => Str(ts[k]))
  }

  function Concatenation(ts: seq<string>): string {
    if ts == [] then "" else ts[0] + Concatenation(ts[1..])
  }

  /** Concatenating onto a string appends the text of every further string
      argument. */
  lemma {:induction false} ConcatOntoString(fuel: nat, env: Env, ts: seq<string>, s: string, i: nat)
    requires i <= |ts|
    ensures ConcatFrom(fuel, env, Cursor(Vals(Strs(ts)), i), Str(s)) == Ok(Str(s + Concatenation(ts[i..])))
    decreases |ts| - i
  {
    var c := Cursor(Vals(Strs(ts)), i);
    if i < |ts| {
      assert Next(fuel, env, c) == Ok(Step(Str(ts[i]), c.(index := i + 1)));
      assert Appended(Str(s), Str(ts[i])) == Ok(Str(s + ts[i]));
      ConcatOntoString(fuel, env, ts, s + ts[i], i + 1);
      assert ts[i..][1..] == ts[i + 1..];
      assert Concatenation(ts[i..]) == ts[i] + Concatenation(ts[i + 1..]);
      assert s + ts[i] + Concatenation(ts[i + 1..]) == s + Concatenation(ts[i..]);
    } else {
      assert !HasNext(c);
      assert ts[i..] == [];
      assert Concatenation([]) == "";
      assert s + "" == s;
    }
  }

  /** `concat` starting from an array spreads the rest onto it; starting
      from a value with no `concat` of its own, it is undefined as soon as
      there is something to append. */
  lemma {:induction false} ConcatCallLaw(fuel: nat, env: Env, vs: seq<Value>)
    requires vs != []
    ensures vs[0].Arr? ==> ConcatCall(fuel, env, Cursor(Vals(vs), 0)) == Ok(Arr(vs[0].items + Spread(vs[1..])))
    ensures |vs| > 1 && (vs[0].Undefined? || vs[0].Null? || vs[0].Bool? || vs[0].Num? || vs[0].Fn?) ==>
              ConcatCall(fuel, env, Cursor(Vals(vs), 0)) == Ok(Undefined)
  {
    var c := Cursor(Vals(vs), 0);
    assert Next(fuel, env, c) == Ok(Step(vs[0], c.(index := 1)));
    if vs[0].Arr? {
      ConcatOntoArray(fuel, env, vs, vs[0].items, 1);
    }
  }

  // ---------------------------------------------------------------- join and slice

  /** `join`: the first argument is the separator, a comma when it is
      undefined, and the others are joined with it. */
  lemma {:induction false} JoinLaw(fuel: nat, env: Env, sep: string, xs: seq<Value>)
    ensures JoinCall(fuel, env, Cursor(Vals([Str(sep)] + xs), 0))
            == (var t := JoinText(xs, sep); if t.Err? then Err(t.error) else Ok(Str(t.value)))
    ensures JoinCall(fuel, env, Cursor(Vals([Undefined] + xs), 0))
            == (var t := JoinText(xs, ","); if t.Err? then Err(t.error) else Ok(Str(t.value)))
    ensures JoinCall(fuel, env, Cursor(Vals([]), 0)) == Ok(Str(""))
  {
    AllOfVals(fuel, env, [Str(sep)] + xs, 0);
    AllOfVals(fuel, env, [Undefined] + xs, 0);
    AllOfVals(fuel, env, [], 0);
    assert ([Str(sep)] + xs)[0..] == [Str(sep)] + xs;
    assert ([Str(sep)] + xs)[1..] == xs;
    assert ([Undefined] + xs)[0..] == [Undefined] + xs;
    assert ([Undefined] + xs)[1..] == xs;
  }

  /** The strings with the separator between each neighbouring pair: a
      reference definition of joining, built from the last string
      backwards. */
  function Interleaved(ts: seq<string>, sep: string): string
    decreases |ts|
  {
    if ts == [] then ""
    else if |ts| == 1 then ts[0]
    else Interleaved(ts[..|ts| - 1], sep) + sep + ts[|ts| - 1]
  }

  /** Interleaving read from the front: the first string, the separator,
      then the interleaving of the rest. */
  lemma {:induction false} InterleavedCons(ts: seq<string>, sep: string)
    requires |ts| >= 2
    ensures Interleaved(ts, sep) == ts[0] + sep + Interleaved(ts[1..], sep)
    decreases |ts|
  {
    var front := ts[..|ts| - 1];
    var tail := ts[1..];
    assert front[0] == ts[0];
    assert tail[|tail| - 1] == ts[|ts| - 1];
    if |ts| == 2 {
      assert Interleaved(front, sep) == ts[0];
      assert Interleaved(tail, sep) == ts[1];
    } else {
      InterleavedCons(front, sep);
      assert front[1..] == tail[..|tail| - 1];
    }
  }

  /** Joining strings writes them in order with the separator between each
      neighbouring pair, so its length is theirs plus one separator fewer
      than there are strings. */
  lemma {:induction false} JoinStrings(ts: seq<string>, sep: string)
    requires ts != []
    ensures JoinText(Strs(ts), sep) == Ok(Interleaved(ts, sep))
    ensures |JoinText(Strs(ts), sep).value| == |Concatenation(ts)| + (|ts| - 1) * |sep|
  {
    JoinStringsText(ts, sep);
    InterleavedLength(ts, sep);
  }

  lemma {:induction false} JoinStringsText(ts: seq<string>, sep: string)
    requires ts != []
    ensures JoinText(Strs(ts), sep) == Ok(Interleaved(ts, sep))
    decreases |ts|
  {
    var vs := Strs(ts);
    assert ItemText(vs[0]) == Ok(ts[0]);
    if |ts| > 1 {
      assert vs[1..] == Strs(ts[1..]);
      JoinStringsText(ts[1..], sep);
      InterleavedCons(ts, sep);
    }
  }

  lemma {:induction false} InterleavedLength(ts: seq<string>, sep: string)
    requires ts != []
    ensures |Interleaved(ts, sep)| == |Concatenation(ts)| + (|ts| - 1) * |sep|
    decreases |ts|
  {
    if |ts| > 1 {
      InterleavedLength(ts[1..], sep);
      InterleavedCons(ts, sep);
      assert |Concatenation(ts)| == |ts[0]| + |Concatenation(ts[1..])|;
    } else {
      assert ts[1..] == [];
      assert Concatenation(ts) == ts[0] + "";
    }
  }

  /** `slice` with integer positions on an array: one argument copies the
      array, a start copies from there (counting from the end when
      negative), and a start and end copy the range between. */
  lemma {:induction false} SliceArray(fuel: nat, env: Env, xs: seq<Value>, i: int, j: int)
    requires -|xs| <= i <= |xs| && 0 <= j <= |xs|
    ensures SliceCall(fuel, env, Cursor(Vals([Arr(xs)]), 0)) == Ok(Arr(xs))
    ensures 0 <= i ==> SliceCall(fuel, env, Cursor(Vals([Num(Int(i)), Arr(xs)]), 0)) == Ok(Arr(xs[i..]))
    ensures i < 0 ==> SliceCall(fuel, env, Cursor(Vals([Num(Int(i)), Arr(xs)]), 0)) == Ok(Arr(xs[|xs| + i..]))
    ensures 0 <= i <= j ==>
              SliceCall(fuel, env, Cursor(Vals([Num(Int(i)), Num(Int(j)), Arr(xs)]), 0)) == Ok(Arr(xs[i..j]))
    ensures 0 <= j < i ==>
              SliceCall(fuel, env, Cursor(Vals([Num(Int(i)), Num(Int(j)), Arr(xs)]), 0)) == Ok(Arr([]))
  {
    var one := Cursor(Vals([Arr(xs)]), 0);
    assert Next(fuel, env, one) == Ok(Step(Arr(xs), one.(index := 1)));
    assert xs[0..|xs|] == xs;
    var two := Cursor(Vals([Num(Int(i)), Arr(xs)]), 0);
    assert Next(fuel, env, two) == Ok(Step(Num(Int(i)), two.(index := 1)));
    assert Next(fuel, env, two.(index := 1)) == Ok(Step(Arr(xs), two.(index := 2)));
    var three := Cursor(Vals([Num(Int(i)), Num(Int(j)), Arr(xs)]), 0);
    assert Next(fuel, env, three) == Ok(Step(Num(Int(i)), three.(index := 1)));
    assert Next(fuel, env, three.(index := 1)) == Ok(Step(Num(Int(j)), three.(index := 2)));
    assert Next(fuel, env, three.(index := 2)) == Ok(Step(Arr(xs), three.(index := 3)));
  }

  // ---------------------------------------------------------------- object and refine

  /** The arguments `key value key value ...` that build an object. */
  function FieldArgs(fields: seq<Field>): (r: seq<Value>)
    ensures |r| == 2 * |fields|
    ensures forall k :: 0 <= k < |fields| ==> r[2 * k] == Str(fields[k].key) && r[2 * k + 1] == fields[k].value
  {
    if fields == [] then []
    else
      var rest := FieldArgs(fields[1..]);
      assert forall k :: 1 <= k < |fields| ==> fields[1..][k - 1] == fields[k];
      [Str(fields[0].key), fields[0].value] + rest
  }

  /** `object` builds its result from the arguments `key value key value ...`
      taken two at a time: a key-value pair whose key is new is appended. */
  lemma {:induction false} ObjectFromPairs(fuel: nat, env: Env, fields: seq<Field>, j: nat)
    requires j <= |fields|
    requires DistinctKeys(fields)
    requires forall k :: 0 <= k < |fields| ==> fields[k].key != "__proto__"
    ensures ObjectFrom(fuel, env, Cursor(Vals(FieldArgs(fields)), 2 * j), fields[..j]) == Ok(Obj(fields))
    decreases |fields| - j
  {
    if j < |fields| {
      FreshPrefix(fields, j);
      PairStep(fuel, env, fields, j, fields[..j]);
      ObjectFromPairs(fuel, env, fields, j + 1);
    } else {
      PairsEnd(fuel, env, fields);
      assert fields[..j] == fields;
    }
  }

  /** With every pair read, `object` returns the fields it built. */
  lemma {:induction false} PairsEnd(fuel: nat, env: Env, fields: seq<Field>)
    ensures ObjectFrom(fuel, env, Cursor(Vals(FieldArgs(fields)), 2 * |fields|), fields) == Ok(Obj(fields))
  {
    assert !HasNext(Cursor(Vals(FieldArgs(fields)), 2 * |fields|));
  }

  /** Without repeated names, the `j`th name is new to the fields before it. */
  lemma {:induction false} FreshPrefix(fields: seq<Field>, j: nat)
    requires j < |fields|
    requires DistinctKeys(fields)
    ensures FieldIndex(fields[..j], fields[j].key).None?
    ensures fields[..j] + [fields[j]] == fields[..j + 1]
  {
    assert forall m :: 0 <= m < j ==> fields[..j][m].key != fields[j].key;
  }

  /** One pair of `object`'s arguments, read from the `j`th field. */
  lemma {:induction false} PairStep(fuel: nat, env: Env, fields: seq<Field>, j: nat, acc: seq<Field>)
    requires j < |fields|
    requires fields[j].key != "__proto__"
    requires FieldIndex(acc, fields[j].key).None?
    ensures ObjectFrom(fuel, env, Cursor(Vals(FieldArgs(fields)), 2 * j), acc)
            == ObjectFrom(fuel, env, Cursor(Vals(FieldArgs(fields)), 2 * (j + 1)), acc + [fields[j]])
  {
    var c := Cursor(Vals(FieldArgs(fields)), 2 * j);
    var e := fields[j];
    var c1 := c.(index := 2 * j + 1);
    assert Next(fuel, env, c) == Ok(Step(Str(e.key), c1));
    assert Next(fuel, env, c1) == Ok(Step(e.value, c.(index := 2 * (j + 1))));
  }

  /** `object` called with the names and values of an object that has no
      repeated name rebuilds it, and reading each name gives its value. */
  lemma {:induction false} ObjectRoundTrip(fuel: nat, env: Env, fields: seq<Field>)
    requires DistinctKeys(fields)
    requires forall k :: 0 <= k < |fields| ==> fields[k].key != "__proto__"
    ensures CallWith(fuel + 1, Fn(Builtin(ObjectOf)), env, Vals(FieldArgs(fields))) == Ok(Obj(fields))
    ensures forall k :: 0 <= k < |fields| ==> Member(Obj(fields), fields[k].key) == Ok(fields[k].value)
  {
    var c := Cursor(Vals(FieldArgs(fields)), 0);
    ObjectFromPairs(fuel, env, fields, 0);
    assert fields[..0] == [];
    assert ObjectFrom(fuel, env, c, []) == Ok(Obj(fields));
    assert Dispatch(fuel, Builtin(ObjectOf), env, c) == ObjectFrom(fuel, env, c, []);
    forall k | 0 <= k < |fields| ensures Member(Obj(fields), fields[k].key) == Ok(fields[k].value) {
      var m := FieldIndex(fields, fields[k].key);
      assert m.Some? && m.value == k;
    }
  }

  /** `refine` copies the properties chosen by the name list (or, when
      excluding, not in it): it fails only on a chosen `__proto__`, and the
      result's names are exactly the chosen ones. */
  lemma {:induction false} RefinedKeys(entries: seq<Field>, names: seq<string>, exclude: bool, acc: seq<Field>)
    ensures Refined(entries, names, exclude, acc).Err? <==>
              exists k :: 0 <= k < |entries| && (entries[k].key in names) != exclude && entries[k].key == "__proto__"
    ensures Refined(entries, names, exclude, acc).Ok? ==>
              KeySet(Refined(entries, names, exclude, acc).value)
              == KeySet(acc) + (set k | 0 <= k < |entries| && (entries[k].key in names) != exclude :: entries[k].key)
    ensures Refined(entries, names, exclude, acc).Ok? && DistinctKeys(entries) ==>
              forall k :: 0 <= k < |entries| && (entries[k].key in names) != exclude ==>
                Member(Obj(Refined(entries, names, exclude, acc).value), entries[k].key) == Ok(entries[k].value)
  {
    RefinedKeySet(entries, names, exclude, acc);
    if DistinctKeys(entries) {
      RefinedValues(entries, names, exclude, acc);
    }
  }

  /** The failure and the names of `refine`'s result. */
  lemma {:induction false} RefinedKeySet(entries: seq<Field>, names: seq<string>, exclude: bool, acc: seq<Field>)
    ensures Refined(entries, names, exclude, acc).Err? <==>
              exists k :: 0 <= k < |entries| && (entries[k].key in names) != exclude && entries[k].key == "__proto__"
    ensures Refined(entries, names, exclude, acc).Ok? ==>
              KeySet(Refined(entries, names, exclude, acc).value)
              == KeySet(acc) + (set k | 0 <= k < |entries| && (entries[k].key in names) != exclude :: entries[k].key)
    decreases |entries|
  {
    var chosen := set k | 0 <= k < |entries| && (entries[k].key in names) != exclude :: entries[k].key;
    if entries == [] {
      assert chosen == {};
    } else {
      var e := entries[0];
      var tail := entries[1..];
      var chosenTail := set k | 0 <= k < |tail| && (tail[k].key in names) != exclude :: tail[k].key;
      assert forall k :: 1 <= k < |entries| ==> tail[k - 1] == entries[k];
      var pick := (e.key in names) != exclude;
      assert chosen == (if pick then {e.key} else {}) + chosenTail by {
        forall name | name in chosen ensures name in (if pick then {e.key} else {}) + chosenTail {
          var k :| 0 <= k < |entries| && (entries[k].key in names) != exclude && entries[k].key == name;
          if k > 0 { assert tail[k - 1].key == name; }
        }
        forall name | name in chosenTail ensures name in chosen {
          var k :| 0 <= k < |tail| && (tail[k].key in names) != exclude && tail[k].key == name;
          assert entries[k + 1].key == name;
        }
      }
      if pick && e.key == "__proto__" {
        assert Refined(entries, names, exclude, acc).Err?;
      } else if pick {
        SetFieldKeys(acc, e.key, e.value);
        var updated := SetField(acc, e.key, e.value).value;
        RefinedKeySet(tail, names, exclude, updated);
        assert Refined(entries, names, exclude, acc) == Refined(tail, names, exclude, updated);
        if Refined(tail, names, exclude, updated).Err? {
          var k :| 0 <= k < |tail| && (tail[k].key in names) != exclude && tail[k].key == "__proto__";
          assert entries[k + 1] == tail[k];
        }
      } else {
        RefinedKeySet(tail, names, exclude, acc);
        assert Refined(entries, names, exclude, acc) == Refined(tail, names, exclude, acc);
        if Refined(tail, names, exclude, acc).Err? {
          var k :| 0 <= k < |tail| && (tail[k].key in names) != exclude && tail[k].key == "__proto__";
          assert entries[k + 1] == tail[k];
        }
      }
    }
  }

  /** Over properties with distinct names, `refine` copies the original's
      value under each chosen name, and any name not chosen reads as it
      did in the accumulator. */
  lemma {:induction false} RefinedValues(entries: seq<Field>, names: seq<string>, exclude: bool, acc: seq<Field>)
    requires DistinctKeys(entries)
    ensures Refined(entries, names, exclude, acc).Ok? ==>
              forall k :: 0 <= k < |entries| && (entries[k].key in names) != exclude ==>
                Member(Obj(Refined(entries, names, exclude, acc).value), entries[k].key) == Ok(entries[k].value)
    ensures Refined(entries, names, exclude, acc).Ok? ==>
              forall name ::
                (forall k :: 0 <= k < |entries| && (entries[k].key in names) != exclude ==> entries[k].key != name) ==>
                Member(Obj(Refined(entries, names, exclude, acc).value), name) == Member(Obj(acc), name)
    decreases |entries|
  {
    if entries != [] {
      var e, tail := entries[0], entries[1..];
      assert forall k :: 1 <= k < |entries| ==> tail[k - 1] == entries[k];
      var result := Refined(entries, names, exclude, acc);
      if (e.key in names) != exclude {
        if e.key != "__proto__" {
          SetFieldReads(acc, e.key, e.value);
          var updated := SetField(acc, e.key, e.value).value;
          RefinedValues(tail, names, exclude, updated);
          assert result == Refined(tail, names, exclude, updated);
          if result.Ok? {
            assert forall k :: 0 <= k < |tail| ==> tail[k].key != e.key;
            forall k | 0 <= k < |entries| && (entries[k].key in names) != exclude
              ensures Member(Obj(result.value), entries[k].key) == Ok(entries[k].value)
            {
              if k > 0 { assert entries[k] == tail[k - 1]; }
            }
          }
        }
      } else {
        RefinedValues(tail, names, exclude, acc);
        assert result == Refined(tail, names, exclude, acc);
        if result.Ok? {
          forall k | 0 <= k < |entries| && (entries[k].key in names) != exclude
            ensures Member(Obj(result.value), entries[k].key) == Ok(entries[k].value)
          {
            assert k > 0 && entries[k] == tail[k - 1];
          }
        }
      }
    }
  }

  // ---------------------------------------------------------------- compare

  /** The comparison of one property with the reference succeeds. */
  ghost function Compares(fuel: nat, env: Env, comparator: Value, reference: Value): Field -> bool {
    e => Compared(fuel, env, comparator, reference, e).Ok?
  }

  /** The comparison of one property with the reference is truthy. */
  ghost function Holds(fuel: nat, env: Env, comparator: Value, reference: Value): Field -> bool {
    e => Compared(fuel, env, comparator, reference, e) == Ok(true)
  }

  /** `compare` over one object makes every comparison, whatever the
      earlier ones gave: it succeeds exactly when each does, and is true
      exactly when it started true and every comparison was truthy. */
  lemma {:induction false} CompareEntriesAll(fuel: nat, env: Env, comparator: Value, reference: Value, entries: seq<Field>, result: bool)
    ensures CompareEntries(fuel, env, comparator, reference, entries, result).Ok?
            <==> Every(Compares(fuel, env, comparator, reference), entries)
    ensures CompareEntries(fuel, env, comparator, reference, entries, result).Ok? ==>
              (CompareEntries(fuel, env, comparator, reference, entries, result).value
               <==> result && Every(Holds(fuel, env, comparator, reference), entries))
    decreases |entries|
  {
    if entries != [] {
      EveryCons(Compares(fuel, env, comparator, reference), entries);
      EveryCons(Holds(fuel, env, comparator, reference), entries);
      var same := Compared(fuel, env, comparator, reference, entries[0]);
      CompareEntriesStep(fuel, env, comparator, reference, entries, result);
      if same.Ok? {
        CompareEntriesAll(fuel, env, comparator, reference, entries[1..], result && same.value);
      }
    }
  }

  /** One comparison, then the rest of the properties. */
  lemma {:induction false} CompareEntriesStep(fuel: nat, env: Env, comparator: Value, reference: Value, entries: seq<Field>, result: bool)
    requires entries != []
    ensures var same := Compared(fuel, env, comparator, reference, entries[0]);
            CompareEntries(fuel, env, comparator, reference, entries, result)
            == if same.Err? then Err(same.error)
               else CompareEntries(fuel, env, comparator, reference, entries[1..], result && same.value)
  {
  }

  /** Every comparison of one object's properties succeeds. */
  ghost predicate ObjectCompares(fuel: nat, env: Env, comparator: Value, reference: Value, o: Value) {
    Every(Compares(fuel, env, comparator, reference), Entries(o))
  }

  /** Every comparison of one object's properties is truthy. */
  ghost predicate ObjectMatches(fuel: nat, env: Env, comparator: Value, reference: Value, o: Value) {
    Every(Holds(fuel, env, comparator, reference), Entries(o))
  }

  ghost function Succeeds(fuel: nat, env: Env, comparator: Value, reference: Value): Value -> bool {
    o => ObjectCompares(fuel, env, comparator, reference, o)
  }

  ghost function Matches(fuel: nat, env: Env, comparator: Value, reference: Value): Value -> bool {
    o => ObjectMatches(fuel, env, comparator, reference, o)
  }

  /** Every comparison `compare` makes over the objects succeeds. */
  ghost predicate ComparisonsSucceed(fuel: nat, env: Env, comparator: Value, reference: Value, objects: seq<Value>) {
    Every(Succeeds(fuel, env, comparator, reference), objects)
  }

  /** Every comparison `compare` makes over the objects is truthy. */
  ghost predicate ComparisonsHold(fuel: nat, env: Env, comparator: Value, reference: Value, objects: seq<Value>) {
    Every(Matches(fuel, env, comparator, reference), objects)
  }

  /** Comparing one object's properties, when every comparison succeeds. */
  lemma {:induction false} ObjectComparison(fuel: nat, env: Env, comparator: Value, reference: Value, o: Value, result: bool)
    requires ObjectCompares(fuel, env, comparator, reference, o)
    ensures CompareEntries(fuel, env, comparator, reference, Entries(o), result)
            == Ok(result && ObjectMatches(fuel, env, comparator, reference, o))
  {
    CompareEntriesAll(fuel, env, comparator, reference, Entries(o), result);
  }

  /** Over all the objects: true exactly when every comparison is. */
  lemma {:induction false} CompareItemsAll(fuel: nat, env: Env, comparator: Value, reference: Value, objects: seq<Value>, result: bool)
    requires ComparisonsSucceed(fuel, env, comparator, reference, objects)
    ensures CompareItems(fuel, env, comparator, reference, objects, result)
            == Ok(result && ComparisonsHold(fuel, env, comparator, reference, objects))
    decreases |objects|
  {
    if objects != [] {
      var n := |objects| - 1;
      var front := objects[..n];
      var last := objects[n];
      EverySplit(Succeeds(fuel, env, comparator, reference), objects);
      EverySplit(Matches(fuel, env, comparator, reference), objects);
      var lastHolds := ObjectMatches(fuel, env, comparator, reference, last);
      CompareItemsStep(fuel, env, comparator, reference, objects, result);
      CompareItemsAll(fuel, env, comparator, reference, front, result && lastHolds);
    }
  }

  /** `compare` takes the objects from the last: one step. */
  lemma {:induction false} CompareItemsStep(fuel: nat, env: Env, comparator: Value, reference: Value, objects: seq<Value>, result: bool)
    requires objects != []
    requires ObjectCompares(fuel, env, comparator, reference, objects[|objects| - 1])
    ensures CompareItems(fuel, env, comparator, reference, objects, result)
            == CompareItems(fuel, env, comparator, reference, objects[..|objects| - 1],
                            result && ObjectMatches(fuel, env, comparator, reference, objects[|objects| - 1]))
  {
    ObjectComparison(fuel, env, comparator, reference, objects[|objects| - 1], result);
  }

  /** `compare` with the comparator last and the reference before it. */
  lemma {:induction false} CompareCallLaw(fuel: nat, env: Env, objects: seq<Value>, reference: Value, comparator: Value)
    requires ComparisonsSucceed(fuel, env, comparator, reference, objects)
    ensures CompareCall(fuel, env, Cursor(Vals(objects + [reference, comparator]), 0))
            == Ok(Bool(ComparisonsHold(fuel, env, comparator, reference, objects)))
  {
    var vals := objects + [reference, comparator];
    AllOfVals(fuel, env, vals, 0);
    assert vals[0..] == vals;
    assert vals[..|vals| - 2] == objects;
    CompareItemsAll(fuel, env, comparator, reference, objects, true);
  }

  // ---------------------------------------------------------------- small builtins

  /** `!` negates the truthiness of its one argument; with none, it is an
      argument-count error. */
  lemma {:induction false} NotLaw(fuel: nat, env: Env, v: Value)
    ensures NotCall(fuel, env, Cursor(Vals([v]), 0)) == Ok(Bool(!Truthy(v)))
    ensures NotCall(fuel, env, Cursor(Vals([]), 0)) == Err(ArgumentCount)
  {
    var one := Cursor(Vals([v]), 0);
    assert Next(fuel, env, one) == Ok(Step(v, one.(index := 1)));
  }

  /** `==` and `!==` are strict equality and its negation, NaN unequal to
      itself; a comparison the model cannot decide is Unsupported. */
  lemma {:induction false} EqLaw(fuel: nat, env: Env, v: Value, w: Value)
    ensures StrictEquals(v, w).Ok? ==>
              EqCall(fuel, env, Cursor(Vals([v, w]), 0), false) == Ok(Bool(v == w && v != Num(NaN)))
              && EqCall(fuel, env, Cursor(Vals([v, w]), 0), true) == Ok(Bool(!(v == w && v != Num(NaN))))
    ensures StrictEquals(v, w).Err? ==> EqCall(fuel, env, Cursor(Vals([v, w]), 0), false) == Err(Unsupported)
  {
    var two := Cursor(Vals([v, w]), 0);
    assert Next(fuel, env, two) == Ok(Step(v, two.(index := 1)));
    assert Next(fuel, env, two.(index := 1)) == Ok(Step(w, two.(index := 2)));
  }

  /** `array` collects its arguments. */
  lemma {:induction false} ArrayLaw(fuel: nat, env: Env, xs: seq<Value>)
    ensures ArrayCall(fuel, env, Cursor(Vals(xs), 0)) == Ok(Arr(xs))
  {
    AllOfVals(fuel, env, xs, 0);
    assert xs[0..] == xs;
  }

  /** `last` is an array's last item, and undefined for an empty array or
      a value that is not an array. */
  lemma {:induction false} LastLaw(fuel: nat, env: Env, v: Value, xs: seq<Value>)
    ensures LastCall(fuel, env, Cursor(Vals([Arr(xs)]), 0)) == Ok(if xs == [] then Undefined else xs[|xs| - 1])
    ensures !v.Arr? ==> LastCall(fuel, env, Cursor(Vals([v]), 0)) == Ok(Undefined)
  {
    var one := Cursor(Vals([v]), 0);
    assert Next(fuel, env, one) == Ok(Step(v, one.(index := 1)));
    var arr := Cursor(Vals([Arr(xs)]), 0);
    assert Next(fuel, env, arr) == Ok(Step(Arr(xs), arr.(index := 1)));
  }

  /** `length` of an array counts its items, of a string its characters. */
  lemma {:induction false} LengthLaw(fuel: nat, env: Env, xs: seq<Value>, s: string)
    ensures LengthCall(fuel, env, Cursor(Vals([Arr(xs)]), 0)) == Ok(Num(Int(|xs|)))
    ensures LengthCall(fuel, env, Cursor(Vals([Str(s)]), 0)) == Ok(Num(Int(|s|)))
  {
    var arr := Cursor(Vals([Arr(xs)]), 0);
    assert Next(fuel, env, arr) == Ok(Step(Arr(xs), arr.(index := 1)));
    var str := Cursor(Vals([Str(s)]), 0);
    assert Next(fuel, env, str) == Ok(Step(Str(s), str.(index := 1)));
  }

  /** `charAt` is the one-character string at the index (position 0 when
      none is given), and empty outside the string. */
  lemma {:induction false} CharAtLaw(fuel: nat, env: Env, s: string, i: int)
    ensures CharAtCall(fuel, env, Cursor(Vals([Str(s), Num(Int(i))]), 0))
            == Ok(Str(if 0 <= i < |s| then [s[i]] else []))
    ensures CharAtCall(fuel, env, Cursor(Vals([Str(s)]), 0)) == Ok(Str(if s == [] then [] else [s[0]]))
  {
    var str := Cursor(Vals([Str(s)]), 0);
    assert Next(fuel, env, str) == Ok(Step(Str(s), str.(index := 1)));
    var at := Cursor(Vals([Str(s), Num(Int(i))]), 0);
    assert Next(fuel, env, at) == Ok(Step(Str(s), at.(index := 1)));
    assert Next(fuel, env, at.(index := 1)) == Ok(Step(Num(Int(i)), at.(index := 2)));
  }

  /** `getValue` reads a property of an array or object, under the key's
      text, and is undefined on anything else. */
  lemma {:induction false} GetValueLaw(fuel: nat, env: Env, v: Value, w: Value, key: string)
    ensures !(v.Arr? || v.Obj?) ==> GetValueCall(fuel, env, Cursor(Vals([v, w]), 0)) == Ok(Undefined)
    ensures (v.Arr? || v.Obj?) && ToStr(w).Err? ==>
              GetValueCall(fuel, env, Cursor(Vals([v, w]), 0)) == Err(ToStr(w).error)
    ensures (v.Arr? || v.Obj?) && ToStr(w).Ok? ==>
              GetValueCall(fuel, env, Cursor(Vals([v, w]), 0)) == Member(v, ToStr(w).value)
    ensures (v.Arr? || v.Obj?) ==> GetValueCall(fuel, env, Cursor(Vals([v, Str(key)]), 0)) == Member(v, key)
  {
    var two := Cursor(Vals([v, w]), 0);
    assert Next(fuel, env, two) == Ok(Step(v, two.(index := 1)));
    assert Next(fuel, env, two.(index := 1)) == Ok(Step(w, two.(index := 2)));
    var get := Cursor(Vals([v, Str(key)]), 0);
    assert Next(fuel, env, get) == Ok(Step(v, get.(index := 1)));
    assert Next(fuel, env, get.(index := 1)) == Ok(Step(Str(key), get.(index := 2)));
  }
}
