/** Python's `==` on decoded JSON: dictionaries without regard to the order of keys, and True and
    False as the numbers 1 and 0. */
module PythonEquality {
  import opened CanonicalJson
  import opened Ordering
  import opened Sequences

  /** Python counts True and False as 1 and 0 in comparisons. */
  function BoolsAsInts(v: Json): Json
    decreases v, 0
  {
    match v
    case JBool(b) => JInt(if b then 1 else 0)
    case JArr(items) => JArr(ItemsAsInts(items))
    case JObj(fields) => JObj(ValuesAsInts(fields))
    case _ => v
  }

  function ItemsAsInts(items: seq<Json>): (r: seq<Json>)
    ensures |r| == |items| && forall i | 0 <= i < |r| :: r[i] == BoolsAsInts(items[i])
    decreases items, 1
  {
    if items == [] then [] else [BoolsAsInts(items[0])] + ItemsAsInts(items[1..])
  }

  function ValuesAsInts(fields: seq<Field>): (r: seq<Field>)
    ensures |r| == |fields|
    ensures forall i | 0 <= i < |r| :: r[i] == Field(fields[i].key, BoolsAsInts(fields[i].value))
    decreases fields, 1
  {
    if fields == [] then []
    else [Field(fields[0].key, BoolsAsInts(fields[0].value))] + ValuesAsInts(fields[1..])
  }

  /** `a == b` in Python, decided by bringing both values to one form. */
  predicate PythonEqual(a: Json, b: Json) {
    SortKeys(BoolsAsInts(a)) == SortKeys(BoolsAsInts(b))
  }

  /** What it decides: the same shape all through, equal texts, and booleans and integers equal as
      numbers. */
  ghost predicate EqualValues(a: Json, b: Json) {
    match a
    case JNull => b.JNull?
    case JStr(s) => b == JStr(s)
    case JBool(x) => b == JBool(x) || (x && b == JInt(1)) || (!x && b == JInt(0))
    case JInt(n) => b == JInt(n) || (n == 1 && b == JBool(true)) || (n == 0 && b == JBool(false))
    case JArr(xs) => b.JArr? && |xs| == |b.items| && forall i | 0 <= i < |xs| :: EqualValues(xs[i], b.items[i])
    case JObj(fs) =>
      && b.JObj? && |fs| == |b.fields|
      && forall i | 0 <= i < |fs| ::
           exists j | 0 <= j < |b.fields| :: fs[i].key == b.fields[j].key && EqualValues(fs[i].value, b.fields[j].value)
  }

  lemma {:induction false} SameIsEqual(a: Json, b: Json)
    ensures SameValue(BoolsAsInts(a), BoolsAsInts(b)) <==> EqualValues(a, b)
  {
    if a.JArr? && b.JArr? {
      var xs, ys := a.items, b.items;
      var x, y := ItemsAsInts(xs), ItemsAsInts(ys);
      forall i | 0 <= i < |xs| && i < |ys| ensures SameValue(x[i], y[i]) <==> EqualValues(xs[i], ys[i]) {
        SameIsEqual(xs[i], ys[i]);
      }
    } else if a.JObj? && b.JObj? {
      var fs, gs := a.fields, b.fields;
      var f, g := ValuesAsInts(fs), ValuesAsInts(gs);
      forall i, j | 0 <= i < |fs| && 0 <= j < |gs|
        ensures SameValue(f[i].value, g[j].value) <==> EqualValues(fs[i].value, gs[j].value)
      {
        SameIsEqual(fs[i].value, gs[j].value);
      }
      SameFields(fs, gs);
    }
  }

  lemma {:induction false} SameFields(fs: seq<Field>, gs: seq<Field>)
    requires forall i, j | 0 <= i < |fs| && 0 <= j < |gs| ::
      SameValue(ValuesAsInts(fs)[i].value, ValuesAsInts(gs)[j].value) <==> EqualValues(fs[i].value, gs[j].value)
    ensures SameValue(JObj(ValuesAsInts(fs)), JObj(ValuesAsInts(gs))) <==> EqualValues(JObj(fs), JObj(gs))
  {
    hide SameValue, EqualValues, SameIn, EqualIn;
    var f, g := ValuesAsInts(fs), ValuesAsInts(gs);
    SameObjects(f, g);
    EqualObjects(fs, gs);
    forall i | 0 <= i < |fs| ensures SameIn(f[i], g) <==> EqualIn(fs[i], gs) {
      FieldMatches(f[i], g, fs[i], gs);
    }
  }

  lemma {:induction false} SameObjects(f: seq<Field>, g: seq<Field>)
    ensures SameValue(JObj(f), JObj(g)) <==> |f| == |g| && forall i | 0 <= i < |f| :: SameIn(f[i], g)
  {
    if SameValue(JObj(f), JObj(g)) {
      forall i | 0 <= i < |f| ensures SameIn(f[i], g) {
        var j :| 0 <= j < |g| && f[i].key == g[j].key && SameValue(f[i].value, g[j].value);
      }
    }
    if |f| == |g| && forall i | 0 <= i < |f| :: SameIn(f[i], g) {
      forall i | 0 <= i < |f|
        ensures exists j | 0 <= j < |g| :: f[i].key == g[j].key && SameValue(f[i].value, g[j].value)
      {
        assert SameIn(f[i], g);
      }
    }
  }

  lemma {:induction false} EqualObjects(f: seq<Field>, g: seq<Field>)
    ensures EqualValues(JObj(f), JObj(g)) <==> |f| == |g| && forall i | 0 <= i < |f| :: EqualIn(f[i], g)
  {
    if EqualValues(JObj(f), JObj(g)) {
      forall i | 0 <= i < |f| ensures EqualIn(f[i], g) {
        var j :| 0 <= j < |g| && f[i].key == g[j].key && EqualValues(f[i].value, g[j].value);
      }
    }
    if |f| == |g| && forall i | 0 <= i < |f| :: EqualIn(f[i], g) {
      forall i | 0 <= i < |f|
        ensures exists j | 0 <= j < |g| :: f[i].key == g[j].key && EqualValues(f[i].value, g[j].value)
      {
        assert EqualIn(f[i], g);
      }
    }
  }

  ghost predicate SameIn(x: Field, g: seq<Field>) {
    exists j | 0 <= j < |g| :: x.key == g[j].key && SameValue(x.value, g[j].value)
  }

  ghost predicate EqualIn(x: Field, g: seq<Field>) {
    exists j | 0 <= j < |g| :: x.key == g[j].key && EqualValues(x.value, g[j].value)
  }

  lemma {:induction false} FieldMatches(x: Field, g: seq<Field>, y: Field, gs: seq<Field>)
    requires g == ValuesAsInts(gs) && x.key == y.key
    requires forall j | 0 <= j < |gs| :: SameValue(x.value, g[j].value) <==> EqualValues(y.value, gs[j].value)
    ensures SameIn(x, g) <==> EqualIn(y, gs)
  {
    hide SameValue, EqualValues;
    if j :| 0 <= j < |g| && x.key == g[j].key && SameValue(x.value, g[j].value) {
      assert y.key == gs[j].key && EqualValues(y.value, gs[j].value);
    }
    if j :| 0 <= j < |gs| && y.key == gs[j].key && EqualValues(y.value, gs[j].value) {
      assert x.key == g[j].key && SameValue(x.value, g[j].value);
    }
  }

  lemma {:induction false} IntsUnique(v: Json)
    ensures UniqueKeys(BoolsAsInts(v)) <==> UniqueKeys(v)
  {
    if v.JArr? {
      forall i | 0 <= i < |v.items| ensures UniqueKeys(BoolsAsInts(v.items[i])) <==> UniqueKeys(v.items[i]) {
        IntsUnique(v.items[i]);
      }
      assert forall i | 0 <= i < |v.items| :: ItemsAsInts(v.items)[i] == BoolsAsInts(v.items[i]);
    } else if v.JObj? {
      var f, g := v.fields, ValuesAsInts(v.fields);
      forall i | 0 <= i < |f| ensures UniqueKeys(g[i].value) <==> UniqueKeys(f[i].value) {
        IntsUnique(f[i].value);
      }
      assert forall i | 0 <= i < |f| :: g[i].key == f[i].key;
    }
  }

  function FieldKey(f: Field): string { f.key }

  lemma {:induction false} SortedUniqueKeys(v: Json)
    ensures UniqueKeys(SortKeys(v)) <==> UniqueKeys(v)
  {
    if v.JArr? {
      forall i | 0 <= i < |v.items| ensures UniqueKeys(SortKeys(v.items[i])) <==> UniqueKeys(v.items[i]) {
        SortedUniqueKeys(v.items[i]);
      }
      assert forall i | 0 <= i < |v.items| :: SortItems(v.items)[i] == SortKeys(v.items[i]);
    } else if v.JObj? {
      var f, g := v.fields, SortValues(v.fields);
      forall i | 0 <= i < |f| ensures UniqueKeys(g[i].value) <==> UniqueKeys(f[i].value) {
        SortedUniqueKeys(f[i].value);
      }
      assert forall i | 0 <= i < |f| :: g[i].key == f[i].key;
      assert UniqueKeys(JObj(g)) <==> UniqueKeys(JObj(f));
      ReorderedUnique(g, Sorted(FieldLeq, g));
    }
  }

  /** Uniqueness does not depend on the order of fields. */
  lemma {:induction false} ReorderedUnique(f: seq<Field>, g: seq<Field>)
    requires g == Sorted(FieldLeq, f)
    ensures UniqueKeys(JObj(f)) <==> UniqueKeys(JObj(g))
  {
    hide Sorted, FieldLeq;
    SortedPermutes(FieldLeq, f);
    PermutationMembers(f, g);
    MapPermutation(FieldKey, f, g);
    if Distinct(Map(FieldKey, f)) { DistinctPermutation(Map(FieldKey, f), Map(FieldKey, g)); }
    if Distinct(Map(FieldKey, g)) { DistinctPermutation(Map(FieldKey, g), Map(FieldKey, f)); }
    UniqueByParts(f);
    UniqueByParts(g);
  }

  lemma {:induction false} UniqueByParts(f: seq<Field>)
    ensures UniqueKeys(JObj(f)) <==> Distinct(Map(FieldKey, f)) && forall x | x in f :: UniqueKeys(x.value)
  {
    if Distinct(Map(FieldKey, f)) {
      forall i, j | 0 <= i < j < |f| ensures f[i].key != f[j].key {
        assert Map(FieldKey, f)[i] != Map(FieldKey, f)[j];
      }
    }
    if forall x | x in f :: UniqueKeys(x.value) {
      forall i | 0 <= i < |f| ensures UniqueKeys(f[i].value) { assert f[i] in f; }
    }
  }

  /** Without repeated keys Python's `==` is equality of values. */
  lemma {:induction false} PythonEqualExact(a: Json, b: Json)
    requires UniqueKeys(a) && UniqueKeys(b)
    ensures PythonEqual(a, b) <==> EqualValues(a, b)
  {
    IntsUnique(a);
    IntsUnique(b);
    SameIsEqual(a, b);
    if EqualValues(a, b) { SameValueGivesSameOrder(BoolsAsInts(a), BoolsAsInts(b)); }
    if PythonEqual(a, b) { SameOrderGivesSameValue(BoolsAsInts(a), BoolsAsInts(b)); }
  }

  /** A value equal to one without repeated keys repeats none. */
  lemma {:induction false} PythonEqualUnique(a: Json, b: Json)
    requires PythonEqual(a, b) && UniqueKeys(b)
    ensures UniqueKeys(a)
  {
    IntsUnique(a);
    IntsUnique(b);
    SortedUniqueKeys(BoolsAsInts(a));
    SortedUniqueKeys(BoolsAsInts(b));
  }
}
