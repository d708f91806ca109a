/**
 * The pure logic of the global-variables table: renaming a variable key in
 * place, the set of variables whose value changed, removing links, and the
 * split of the variable names into linked and unlinked ones.
 *
 * A JavaScript object is modelled as its own properties in enumeration order
 * (`Object.keys` order). Property creation follows the language's rules: a key
 * that is already present keeps its place, a new array-index key ("0", "1",
 * ..., "4294967294") is placed among the other array-index keys in ascending
 * numeric order ahead of every other key, and any other new key is appended.
 */
module GlobalVariablesTable {
  import opened JsValues

  type Entry = (string, Val)

  /** A plain object: its own properties in enumeration order. */
  type JsObject = seq<Entry>

  /** `Object.keys(o)`. */
  function KeysOf(o: JsObject): seq<string> {
    seq(|o|, i requires 0 <= i < |o| => o[i].0)
  }

  predicate IsDigit(c: char) {
    '0' <= c <= '9'
  }

  predicate AllDigits(s: string) {
    forall i :: 0 <= i < |s| ==> IsDigit(s[i])
  }

  function DigitsValue(s: string): nat
    requires AllDigits(s)
  {
    if s == [] then 0 else DigitsValue(s[..|s| - 1]) * 10 + (s[|s| - 1] as int - '0' as int)
  }

  /** A canonical decimal numeral of an integer below 2^32 - 1 (an "array index"). */
  predicate IsArrayIndex(k: string) {
    && |k| > 0
    && AllDigits(k)
    && (k[0] != '0' || |k| == 1)
    && DigitsValue(k) < 4294967295
  }

  /** Key `a` may be enumerated before a different key `b`. */
  predicate Before(a: string, b: string) {
    && a != b
    && (IsArrayIndex(b) ==> IsArrayIndex(a) && DigitsValue(a) < DigitsValue(b))
  }

  /** Keys that are all different and listed in enumeration order. */
  ghost predicate WellOrdered(ks: seq<string>) {
    forall i, j :: 0 <= i < j < |ks| ==> Before(ks[i], ks[j])
  }

  /** `o[k]`, `undefined` when `k` is not an own property. */
  function Get(o: JsObject, k: string): Val {
    if o == [] then Undefined
    else if o[0].0 == k then o[0].1
    else Get(o[1..], k)
  }

  function UpdateAt(o: JsObject, k: string, v: Val): JsObject {
    if o == [] then []
    else if o[0].0 == k then [(k, v)] + UpdateAt(o[1..], k, v)
    else [o[0]] + UpdateAt(o[1..], k, v)
  }

  function InsertIndexKey(o: JsObject, k: string, v: Val): (r: JsObject)
    requires IsArrayIndex(k)
    ensures forall e :: e in r <==> e in o || e == (k, v)
  {
    if o == [] then [(k, v)]
    else if !IsArrayIndex(o[0].0) || DigitsValue(o[0].0) > DigitsValue(k) then [(k, v)] + o
    else [o[0]] + InsertIndexKey(o[1..], k, v)
  }

  /** `o[k] = v` on a plain object. */
  function Put(o: JsObject, k: string, v: Val): JsObject {
    if k in KeysOf(o) then UpdateAt(o, k, v)
    else if IsArrayIndex(k) then InsertIndexKey(o, k, v)
    else o + [(k, v)]
  }

  /** Creating the properties `es` one after the other, as an object spread does. */
  function PutAll(o: JsObject, es: seq<Entry>): JsObject
    decreases |es|
  {
    if es == [] then o else PutAll(Put(o, es[0].0, es[0].1), es[1..])
  }

  function PickedEntries(o: JsObject, paths: seq<string>): seq<Entry> {
    if paths == [] then []
    else if paths[0] in KeysOf(o) then [(paths[0], Get(o, paths[0]))] + PickedEntries(o, paths[1..])
    else PickedEntries(o, paths[1..])
  }

  /** lodash `pick(o, paths)` for paths that name own properties of `o`. */
  function Pick(o: JsObject, paths: seq<string>): JsObject {
    PutAll([], PickedEntries(o, paths))
  }

  /** `keys.slice(from, to)`, with the clamping of `Array.prototype.slice`. */
  function Slice(ks: seq<string>, from: nat, to: nat): seq<string> {
    var b := if to <= |ks| then to else |ks|;
    if from <= b then ks[from..b] else []
  }

  /**
   * changeGlobalKey: the object
   * `{ ...pick(gv, keys.slice(0, idx)), [newKey]: gv[oldKey], ...pick(gv, keys.slice(idx + 1)) }`
   * that replaces the global variables.
   */
  function ChangeGlobalKey(newKey: string, oldKey: string, gv: JsObject, idx: nat): JsObject {
    var keys := KeysOf(gv);
    var front := PutAll([], Pick(gv, Slice(keys, 0, idx)));
    PutAll(Put(front, newKey, Get(gv, oldKey)), Pick(gv, Slice(keys, idx + 1, |keys|)))
  }

  lemma {:induction false} GetAt(o: JsObject, i: nat)
    requires i < |o|
    requires WellOrdered(KeysOf(o))
    ensures Get(o, o[i].0) == o[i].1
  {
    if i > 0 {
      assert KeysOf(o[1..]) == KeysOf(o)[1..];
      assert Before(KeysOf(o)[0], KeysOf(o)[i]);
      GetAt(o[1..], i - 1);
    }
  }

  lemma {:induction false} GetMissing(o: JsObject, k: string)
    requires k !in KeysOf(o)
    ensures Get(o, k) == Undefined
  {
    if o != [] {
      assert KeysOf(o[1..]) == KeysOf(o)[1..];
      assert KeysOf(o)[0] == o[0].0;
      GetMissing(o[1..], k);
    }
  }

  /** Inserting an array index larger than every key already present appends it. */
  lemma {:induction false} InsertIndexKeyLast(o: JsObject, k: string, v: Val)
    requires IsArrayIndex(k)
    requires forall i :: 0 <= i < |o| ==> IsArrayIndex(o[i].0) && DigitsValue(o[i].0) < DigitsValue(k)
    ensures InsertIndexKey(o, k, v) == o + [(k, v)]
  {
    if o != [] {
      InsertIndexKeyLast(o[1..], k, v);
      assert [o[0]] + (o[1..] + [(k, v)]) == o + [(k, v)];
    }
  }

  /** Creating a key that belongs after every present key appends it. */
  lemma PutLast(o: JsObject, k: string, v: Val)
    requires WellOrdered(KeysOf(o + [(k, v)]))
    ensures Put(o, k, v) == o + [(k, v)]
  {
    var ks := KeysOf(o + [(k, v)]);
    assert ks[|o|] == k;
    forall i | 0 <= i < |o| ensures Before(o[i].0, k) {
      assert ks[i] == o[i].0;
    }
    assert k !in KeysOf(o);
    if IsArrayIndex(k) {
      InsertIndexKeyLast(o, k, v);
    }
  }

  /** The keys of a prefix of an object are in order when the whole object's are. */
  lemma WellOrderedPrefix(a: JsObject, b: JsObject)
    requires WellOrdered(KeysOf(a + b))
    ensures WellOrdered(KeysOf(a))
  {
    var ks := KeysOf(a + b);
    var rs := KeysOf(a);
    forall i, j | 0 <= i < j < |a| ensures Before(rs[i], rs[j]) {
      assert rs[i] == a[i].0 == (a + b)[i].0 == ks[i];
      assert rs[j] == a[j].0 == (a + b)[j].0 == ks[j];
    }
  }

  /** The keys of a suffix of an object are in order when the whole object's are. */
  lemma WellOrderedSuffix(a: JsObject, b: JsObject)
    requires WellOrdered(KeysOf(a + b))
    ensures WellOrdered(KeysOf(b))
  {
    var ks := KeysOf(a + b);
    var rs := KeysOf(b);
    forall i, j | 0 <= i < j < |b| ensures Before(rs[i], rs[j]) {
      assert rs[i] == b[i].0 == (a + b)[|a| + i].0 == ks[|a| + i];
      assert rs[j] == b[j].0 == (a + b)[|a| + j].0 == ks[|a| + j];
    }
  }

  /** The keys of a run of properties are in order when the whole object's are. */
  lemma WellOrderedRun(o: JsObject, a: nat, b: nat)
    requires a <= b <= |o|
    requires WellOrdered(KeysOf(o))
    ensures WellOrdered(KeysOf(o[a..b]))
  {
    var ks := KeysOf(o);
    var rs := KeysOf(o[a..b]);
    forall i, j | 0 <= i < j < b - a ensures Before(rs[i], rs[j]) {
      assert rs[i] == o[a..b][i].0 == o[a + i].0 == ks[a + i];
      assert rs[j] == o[a..b][j].0 == o[a + j].0 == ks[a + j];
    }
  }

  /** Creating properties whose keys extend the enumeration order appends them in turn. */
  lemma {:induction false} PutAllInOrder(o: JsObject, es: seq<Entry>)
    requires WellOrdered(KeysOf(o + es))
    ensures PutAll(o, es) == o + es
    decreases |es|
  {
    if es != [] {
      var o' := o + [es[0]];
      assert o' + es[1..] == o + es;
      WellOrderedPrefix(o', es[1..]);
      PutLast(o, es[0].0, es[0].1);
      PutAllInOrder(o', es[1..]);
    }
  }

  /** Picking a run of consecutive keys of an object reproduces that run of properties. */
  lemma {:induction false} PickedRun(o: JsObject, a: nat, b: nat)
    requires a <= b <= |o|
    requires WellOrdered(KeysOf(o))
    ensures PickedEntries(o, KeysOf(o)[a..b]) == o[a..b]
    decreases b - a
  {
    if a < b {
      var ks := KeysOf(o);
      assert ks[a..b][0] == ks[a] && ks[a..b][1..] == ks[a + 1..b];
      assert ks[a] in ks;
      GetAt(o, a);
      PickedRun(o, a + 1, b);
      assert o[a..b] == [o[a]] + o[a + 1..b];
    }
  }

  lemma PickRun(o: JsObject, a: nat, b: nat)
    requires a <= b <= |o|
    requires WellOrdered(KeysOf(o))
    ensures Pick(o, KeysOf(o)[a..b]) == o[a..b]
  {
    var run := o[a..b];
    PickedRun(o, a, b);
    assert Pick(o, KeysOf(o)[a..b]) == PutAll([], run);
    WellOrderedRun(o, a, b);
    assert [] + run == run;
    PutAllInOrder([], run);
  }

  /**
   * Renaming the key at position `idx` keeps every other property, its value
   * and its position, and puts `newKey` with the value of `oldKey` at `idx` —
   * provided the renamed key list is itself in enumeration order (else the
   * language moves array-index keys to the front).
   */
  lemma ChangeGlobalKeyInPlace(newKey: string, oldKey: string, gv: JsObject, idx: nat)
    requires WellOrdered(KeysOf(gv))
    requires idx < |gv|
    requires WellOrdered(KeysOf(gv)[..idx] + [newKey] + KeysOf(gv)[idx + 1..])
    ensures ChangeGlobalKey(newKey, oldKey, gv, idx) == gv[..idx] + [(newKey, Get(gv, oldKey))] + gv[idx + 1..]
  {
    var keys := KeysOf(gv);
    var v := Get(gv, oldKey);
    var mid := gv[..idx] + [(newKey, v)];
    var t := mid + gv[idx + 1..];
    assert KeysOf(t) == keys[..idx] + [newKey] + keys[idx + 1..];
    assert Slice(keys, 0, idx) == keys[0..idx];
    assert Slice(keys, idx + 1, |keys|) == keys[idx + 1..|gv|];
    PickRun(gv, 0, idx);
    PickRun(gv, idx + 1, |gv|);
    assert gv[0..idx] == gv[..idx] && gv[idx + 1..|gv|] == gv[idx + 1..];
    WellOrderedPrefix(mid, gv[idx + 1..]);
    WellOrderedPrefix(gv[..idx], [(newKey, v)]);
    assert [] + gv[..idx] == gv[..idx];
    PutAllInOrder([], gv[..idx]);
    PutLast(gv[..idx], newKey, v);
    PutAllInOrder(mid, gv[idx + 1..]);
  }

  /**
   * Array-index keys go first whatever their position: renaming the last of
   * `{a, b}` to "7" yields the key order 7, a.
   */
  lemma ChangeGlobalKeyToArrayIndex()
    ensures var gv := [("a", Num(1.0)), ("b", Num(2.0))];
            ChangeGlobalKey("7", "b", gv, 1) == [("7", Num(2.0)), ("a", Num(1.0))]
  {
    var gv := [("a", Num(1.0)), ("b", Num(2.0))];
    assert KeysOf(gv) == ["a", "b"];
    assert Slice(["a", "b"], 0, 1) == ["a"];
    assert Slice(["a", "b"], 2, 2) == [];
    assert PickedEntries(gv, ["a"]) == [("a", Num(1.0))];
    assert PickedEntries(gv, []) == [];
    assert !IsArrayIndex("a");
    assert KeysOf([]) == [];
    assert PutAll([], [("a", Num(1.0))]) == [("a", Num(1.0))];
    assert Pick(gv, ["a"]) == [("a", Num(1.0))];
    assert PutAll([], [("a", Num(1.0))]) == [("a", Num(1.0))];
    assert DigitsValue("7") == 7;
    assert IsArrayIndex("7");
    assert KeysOf([("a", Num(1.0))]) == ["a"];
    assert Put([("a", Num(1.0))], "7", Num(2.0)) == [("7", Num(2.0)), ("a", Num(1.0))];
  }

  // Renaming to any fresh key, array index or not.

  /** `o` without its property `n`. */
  function Without(o: JsObject, n: string): (r: JsObject)
    ensures forall e :: e in r <==> e in o && e.0 != n
  {
    if o == [] then []
    else if o[0].0 == n then Without(o[1..], n)
    else [o[0]] + Without(o[1..], n)
  }

  /**
   * Array-index keys come first, in ascending numeric order: the part of the
   * enumeration order that decides where a new array-index key goes.
   */
  ghost predicate IndexKeysFirst(ks: seq<string>) {
    forall i, j :: 0 <= i < j < |ks| && IsArrayIndex(ks[j]) ==> IsArrayIndex(ks[i]) && DigitsValue(ks[i]) <= DigitsValue(ks[j])
  }

  /** A new array-index key `k` is placed ahead of the existing key `x`. */
  predicate GoesBefore(k: string, x: string)
    requires IsArrayIndex(k)
  {
    !IsArrayIndex(x) || DigitsValue(x) > DigitsValue(k)
  }

  lemma KeysOfCons(e: Entry, o: JsObject)
    ensures KeysOf([e] + o) == [e.0] + KeysOf(o)
  {
  }

  lemma KeysOfConcat(a: JsObject, b: JsObject)
    ensures KeysOf(a + b) == KeysOf(a) + KeysOf(b)
  {
  }

  lemma KeyIn(o: JsObject, k: string)
    ensures k in KeysOf(o) <==> exists e :: e in o && e.0 == k
  {
    if k in KeysOf(o) {
      var i :| 0 <= i < |o| && KeysOf(o)[i] == k;
      assert o[i] in o;
    }
    if exists e :: e in o && e.0 == k {
      var e :| e in o && e.0 == k;
      var i :| 0 <= i < |o| && o[i] == e;
      assert KeysOf(o)[i] == k;
    }
  }

  lemma WithoutCons(e: Entry, o: JsObject, n: string)
    ensures Without([e] + o, n) == if e.0 == n then Without(o, n) else [e] + Without(o, n)
  {
    assert ([e] + o)[1..] == o;
  }

  lemma WellOrderedIndexKeysFirst(ks: seq<string>)
    requires WellOrdered(ks)
    ensures IndexKeysFirst(ks)
  {
    forall i, j | 0 <= i < j < |ks| && IsArrayIndex(ks[j])
      ensures IsArrayIndex(ks[i]) && DigitsValue(ks[i]) <= DigitsValue(ks[j])
    {
      assert Before(ks[i], ks[j]);
    }
  }

  lemma IndexKeysFirstTail(o: JsObject)
    requires o != [] && IndexKeysFirst(KeysOf(o))
    ensures IndexKeysFirst(KeysOf(o[1..]))
  {
    var ks := KeysOf(o[1..]);
    forall i, j | 0 <= i < j < |ks| && IsArrayIndex(ks[j])
      ensures IsArrayIndex(ks[i]) && DigitsValue(ks[i]) <= DigitsValue(ks[j])
    {
      assert ks[i] == KeysOf(o)[i + 1] && ks[j] == KeysOf(o)[j + 1];
    }
  }

  lemma IndexKeysFirstCons(x: string, ks: seq<string>)
    requires IndexKeysFirst(ks)
    requires forall j :: 0 <= j < |ks| && IsArrayIndex(ks[j]) ==> IsArrayIndex(x) && DigitsValue(x) <= DigitsValue(ks[j])
    ensures IndexKeysFirst([x] + ks)
  {
    var xs := [x] + ks;
    forall i, j | 0 <= i < j < |xs| && IsArrayIndex(xs[j])
      ensures IsArrayIndex(xs[i]) && DigitsValue(xs[i]) <= DigitsValue(xs[j])
    {
      assert xs[j] == ks[j - 1];
      if i > 0 {
        assert xs[i] == ks[i - 1];
      }
    }
  }

  /** When a new array index goes ahead of the first key, it goes ahead of every key. */
  lemma GoesBeforeAll(o: JsObject, k: string)
    requires IsArrayIndex(k) && o != [] && IndexKeysFirst(KeysOf(o)) && GoesBefore(k, o[0].0)
    ensures forall e :: e in o ==> GoesBefore(k, e.0)
  {
    forall e | e in o ensures GoesBefore(k, e.0) {
      var j :| 0 <= j < |o| && o[j] == e;
      assert KeysOf(o)[0] == o[0].0 && KeysOf(o)[j] == e.0;
    }
  }

  lemma InsertIndexKeyFirst(o: JsObject, k: string, v: Val)
    requires IsArrayIndex(k)
    requires forall e :: e in o ==> GoesBefore(k, e.0)
    ensures InsertIndexKey(o, k, v) == [(k, v)] + o
  {
    if o != [] {
      assert o[0] in o;
    }
  }

  lemma InsertIndexKeyCons(e: Entry, o: JsObject, k: string, v: Val)
    requires IsArrayIndex(k)
    ensures InsertIndexKey([e] + o, k, v) == if GoesBefore(k, e.0) then [(k, v), e] + o else [e] + InsertIndexKey(o, k, v)
  {
    assert ([e] + o)[1..] == o;
  }

  /** Creating an array-index key commutes with removing a different key. */
  lemma {:induction false} InsertWithout(o: JsObject, k: string, n: string, v: Val)
    requires IsArrayIndex(k) && k != n && IndexKeysFirst(KeysOf(o))
    ensures Without(InsertIndexKey(o, k, v), n) == InsertIndexKey(Without(o, n), k, v)
  {
    if o != [] {
      var e, t := o[0], o[1..];
      assert o == [e] + t;
      WithoutCons(e, t, n);
      if GoesBefore(k, e.0) {
        GoesBeforeAll(o, k);
        InsertIndexKeyFirst(Without(o, n), k, v);
        WithoutCons((k, v), o, n);
      } else {
        IndexKeysFirstTail(o);
        InsertWithout(t, k, n, v);
        WithoutCons(e, InsertIndexKey(t, k, v), n);
        if e.0 != n {
          InsertIndexKeyCons(e, Without(t, n), k, v);
        }
      }
    }
  }

  lemma {:induction false} UpdateAtWithout(o: JsObject, k: string, n: string, v: Val)
    requires k != n
    ensures Without(UpdateAt(o, k, v), n) == UpdateAt(Without(o, n), k, v)
  {
    if o != [] {
      UpdateAtWithout(o[1..], k, n, v);
      var head := if o[0].0 == k then (k, v) else o[0];
      WithoutCons(head, UpdateAt(o[1..], k, v), n);
      assert [o[0]] + o[1..] == o;
      WithoutCons(o[0], o[1..], n);
      if o[0].0 != n {
        assert ([o[0]] + Without(o[1..], n))[1..] == Without(o[1..], n);
      }
    }
  }

  lemma {:induction false} AppendWithout(o: JsObject, e: Entry, n: string)
    requires e.0 != n
    ensures Without(o + [e], n) == Without(o, n) + [e]
  {
    if o == [] {
      WithoutCons(e, [], n);
    } else {
      assert o + [e] == [o[0]] + (o[1..] + [e]);
      AppendWithout(o[1..], e, n);
      WithoutCons(o[0], o[1..] + [e], n);
      WithoutCons(o[0], o[1..], n);
      assert o == [o[0]] + o[1..];
    }
  }

  /** Creating a property commutes with removing a different one. */
  lemma PutWithout(o: JsObject, k: string, n: string, v: Val)
    requires k != n && IndexKeysFirst(KeysOf(o))
    ensures Without(Put(o, k, v), n) == Put(Without(o, n), k, v)
  {
    KeyIn(o, k);
    KeyIn(Without(o, n), k);
    if k in KeysOf(o) {
      UpdateAtWithout(o, k, n, v);
    } else if IsArrayIndex(k) {
      InsertWithout(o, k, n, v);
    } else {
      AppendWithout(o, (k, v), n);
    }
  }

  lemma {:induction false} KeysOfUpdateAt(o: JsObject, k: string, v: Val)
    ensures KeysOf(UpdateAt(o, k, v)) == KeysOf(o)
  {
    if o != [] {
      KeysOfUpdateAt(o[1..], k, v);
      KeysOfCons(if o[0].0 == k then (k, v) else o[0], UpdateAt(o[1..], k, v));
      KeysOfCons(o[0], o[1..]);
      assert [o[0]] + o[1..] == o;
    }
  }

  lemma {:induction false} InsertIndexKeysFirst(o: JsObject, k: string, v: Val)
    requires IsArrayIndex(k) && IndexKeysFirst(KeysOf(o))
    ensures IndexKeysFirst(KeysOf(InsertIndexKey(o, k, v)))
  {
    if o != [] {
      var e, t := o[0], o[1..];
      assert o == [e] + t;
      KeysOfCons(e, t);
      if GoesBefore(k, e.0) {
        GoesBeforeAll(o, k);
        KeysOfCons((k, v), o);
        forall j | 0 <= j < |KeysOf(o)| && IsArrayIndex(KeysOf(o)[j])
          ensures DigitsValue(k) <= DigitsValue(KeysOf(o)[j])
        {
          assert o[j] in o;
        }
        IndexKeysFirstCons(k, KeysOf(o));
      } else {
        IndexKeysFirstTail(o);
        InsertIndexKeysFirst(t, k, v);
        var r := InsertIndexKey(t, k, v);
        KeysOfCons(e, r);
        forall j | 0 <= j < |KeysOf(r)| && IsArrayIndex(KeysOf(r)[j])
          ensures IsArrayIndex(e.0) && DigitsValue(e.0) <= DigitsValue(KeysOf(r)[j])
        {
          assert r[j] in r;
          if r[j] != (k, v) {
            var i :| 0 <= i < |t| && t[i] == r[j];
            assert KeysOf(o)[0] == e.0 && KeysOf(o)[i + 1] == r[j].0;
          }
        }
        IndexKeysFirstCons(e.0, KeysOf(r));
      }
    }
  }

  /** Creating a property keeps the array-index keys first and ascending. */
  lemma PutIndexKeysFirst(o: JsObject, k: string, v: Val)
    requires IndexKeysFirst(KeysOf(o))
    ensures IndexKeysFirst(KeysOf(Put(o, k, v)))
  {
    if k in KeysOf(o) {
      KeysOfUpdateAt(o, k, v);
    } else if IsArrayIndex(k) {
      InsertIndexKeysFirst(o, k, v);
    } else {
      KeysOfConcat(o, [(k, v)]);
      var ks := KeysOf(o + [(k, v)]);
      forall i, j | 0 <= i < j < |ks| && IsArrayIndex(ks[j])
        ensures IsArrayIndex(ks[i]) && DigitsValue(ks[i]) <= DigitsValue(ks[j])
      {
        assert ks[i] == KeysOf(o)[i] && ks[j] == KeysOf(o)[j];
      }
    }
  }

  /** Creating properties none of which is `n` commutes with removing `n`. */
  lemma {:induction false} PutAllWithout(o: JsObject, es: seq<Entry>, n: string)
    requires IndexKeysFirst(KeysOf(o)) && n !in KeysOf(es)
    ensures Without(PutAll(o, es), n) == PutAll(Without(o, n), es)
    decreases |es|
  {
    if es != [] {
      assert KeysOf(es)[0] == es[0].0;
      assert KeysOf(es[1..]) == KeysOf(es)[1..];
      PutWithout(o, es[0].0, n, es[0].1);
      PutIndexKeysFirst(o, es[0].0, es[0].1);
      PutAllWithout(Put(o, es[0].0, es[0].1), es[1..], n);
    }
  }

  lemma {:induction false} InsertThenWithout(o: JsObject, k: string, v: Val)
    requires IsArrayIndex(k)
    ensures Without(InsertIndexKey(o, k, v), k) == Without(o, k)
  {
    if o != [] {
      var e, t := o[0], o[1..];
      assert o == [e] + t;
      WithoutCons(e, t, k);
      if GoesBefore(k, e.0) {
        WithoutCons((k, v), o, k);
      } else {
        InsertThenWithout(t, k, v);
        WithoutCons(e, InsertIndexKey(t, k, v), k);
      }
    } else {
      WithoutCons((k, v), [], k);
    }
  }

  lemma {:induction false} AppendThenWithout(o: JsObject, k: string, v: Val)
    ensures Without(o + [(k, v)], k) == Without(o, k)
  {
    if o == [] {
      WithoutCons((k, v), [], k);
    } else {
      assert o + [(k, v)] == [o[0]] + (o[1..] + [(k, v)]);
      AppendThenWithout(o[1..], k, v);
      WithoutCons(o[0], o[1..] + [(k, v)], k);
      WithoutCons(o[0], o[1..], k);
      assert o == [o[0]] + o[1..];
    }
  }

  lemma {:induction false} WithoutAbsent(o: JsObject, n: string)
    requires n !in KeysOf(o)
    ensures Without(o, n) == o
  {
    if o != [] {
      assert KeysOf(o)[0] == o[0].0 && KeysOf(o[1..]) == KeysOf(o)[1..];
      WithoutAbsent(o[1..], n);
    }
  }

  /** Creating a key that was absent and removing it again gives the object back. */
  lemma PutThenWithout(o: JsObject, k: string, v: Val)
    requires k !in KeysOf(o)
    ensures Without(Put(o, k, v), k) == o
  {
    WithoutAbsent(o, k);
    if IsArrayIndex(k) {
      InsertThenWithout(o, k, v);
    } else {
      AppendThenWithout(o, k, v);
    }
  }

  lemma {:induction false} GetUpdateAt(o: JsObject, k: string, n: string, v: Val)
    ensures Get(UpdateAt(o, k, v), n) == if n == k && k in KeysOf(o) then v else Get(o, n)
  {
    if o != [] {
      assert KeysOf(o)[0] == o[0].0 && KeysOf(o[1..]) == KeysOf(o)[1..];
      GetUpdateAt(o[1..], k, n, v);
      var head := if o[0].0 == k then (k, v) else o[0];
      assert ([head] + UpdateAt(o[1..], k, v))[1..] == UpdateAt(o[1..], k, v);
    }
  }

  lemma {:induction false} GetInsertIndexKey(o: JsObject, k: string, n: string, v: Val)
    requires IsArrayIndex(k) && k !in KeysOf(o)
    ensures Get(InsertIndexKey(o, k, v), n) == if n == k then v else Get(o, n)
  {
    if o != [] {
      assert KeysOf(o)[0] == o[0].0 && KeysOf(o[1..]) == KeysOf(o)[1..];
      if GoesBefore(k, o[0].0) {
        assert ([(k, v)] + o)[1..] == o;
      } else {
        GetInsertIndexKey(o[1..], k, n, v);
        assert ([o[0]] + InsertIndexKey(o[1..], k, v))[1..] == InsertIndexKey(o[1..], k, v);
      }
    }
  }

  lemma {:induction false} GetAppend(o: JsObject, k: string, n: string, v: Val)
    requires k !in KeysOf(o)
    ensures Get(o + [(k, v)], n) == if n == k then v else Get(o, n)
  {
    if o != [] {
      assert KeysOf(o)[0] == o[0].0 && KeysOf(o[1..]) == KeysOf(o)[1..];
      assert (o + [(k, v)])[1..] == o[1..] + [(k, v)];
      GetAppend(o[1..], k, n, v);
    }
  }

  /** After `o[k] = v`, `k` reads `v` and every other key reads as before. */
  lemma GetPut(o: JsObject, k: string, n: string, v: Val)
    ensures Get(Put(o, k, v), n) == if n == k then v else Get(o, n)
  {
    if k in KeysOf(o) {
      GetUpdateAt(o, k, n, v);
    } else if IsArrayIndex(k) {
      GetInsertIndexKey(o, k, n, v);
    } else {
      GetAppend(o, k, n, v);
    }
  }

  lemma {:induction false} GetPutAllOther(o: JsObject, es: seq<Entry>, n: string)
    requires n !in KeysOf(es)
    ensures Get(PutAll(o, es), n) == Get(o, n)
    decreases |es|
  {
    if es != [] {
      assert KeysOf(es)[0] == es[0].0 && KeysOf(es[1..]) == KeysOf(es)[1..];
      GetPut(o, es[0].0, n, es[0].1);
      GetPutAllOther(Put(o, es[0].0, es[0].1), es[1..], n);
    }
  }

  /** The keys without the one at `idx` stay in enumeration order. */
  lemma WellOrderedSkip(gv: JsObject, idx: nat)
    requires idx < |gv| && WellOrdered(KeysOf(gv))
    ensures WellOrdered(KeysOf(gv[..idx] + gv[idx + 1..]))
  {
    var o := gv[..idx] + gv[idx + 1..];
    var ks := KeysOf(o);
    forall i, j | 0 <= i < j < |ks| ensures Before(ks[i], ks[j]) {
      var i' := if i < idx then i else i + 1;
      var j' := if j < idx then j else j + 1;
      assert ks[i] == KeysOf(gv)[i'] && ks[j] == KeysOf(gv)[j'];
    }
  }

  /**
   * Renaming the key at position `idx` to a name no other variable has, an
   * array index or not: apart from `newKey` the new object holds exactly the
   * other properties of `gv`, with their values and in their order, and
   * `newKey` holds the value of `oldKey`.
   */
  lemma ChangeGlobalKeyRenames(newKey: string, oldKey: string, gv: JsObject, idx: nat)
    requires WellOrdered(KeysOf(gv)) && idx < |gv|
    requires newKey !in KeysOf(gv[..idx] + gv[idx + 1..])
    ensures var r := ChangeGlobalKey(newKey, oldKey, gv, idx);
            && Without(r, newKey) == gv[..idx] + gv[idx + 1..]
            && Get(r, newKey) == Get(gv, oldKey)
  {
    var keys := KeysOf(gv);
    var front, rest := gv[..idx], gv[idx + 1..];
    var v := Get(gv, oldKey);
    assert Slice(keys, 0, idx) == keys[0..idx];
    assert Slice(keys, idx + 1, |keys|) == keys[idx + 1..|gv|];
    PickRun(gv, 0, idx);
    PickRun(gv, idx + 1, |gv|);
    assert gv[0..idx] == front && gv[idx + 1..|gv|] == rest;
    assert gv == front + ([gv[idx]] + rest);
    WellOrderedPrefix(front, [gv[idx]] + rest);
    assert [] + front == front;
    PutAllInOrder([], front);
    assert ChangeGlobalKey(newKey, oldKey, gv, idx) == PutAll(Put(front, newKey, v), rest);
    KeysOfConcat(front, rest);
    WellOrderedIndexKeysFirst(KeysOf(front));
    PutIndexKeysFirst(front, newKey, v);
    PutAllWithout(Put(front, newKey, v), rest, newKey);
    PutThenWithout(front, newKey, v);
    WellOrderedSkip(gv, idx);
    PutAllInOrder(front, rest);
    GetPutAllOther(Put(front, newKey, v), rest, newKey);
    GetPut(front, newKey, newKey, v);
  }

  predicate Distinct(s: seq<string>) {
    forall i, j :: 0 <= i < j < |s| ==> s[i] != s[j]
  }

  lemma DistinctCons(x: string, s: seq<string>)
    requires x !in s && Distinct(s)
    ensures Distinct([x] + s)
  {
    forall i, j | 0 <= i < j < |s| + 1 ensures ([x] + s)[i] != ([x] + s)[j] {
      if i == 0 {
        assert ([x] + s)[j] == s[j - 1];
      } else {
        assert ([x] + s)[i] == s[i - 1] && ([x] + s)[j] == s[j - 1];
      }
    }
  }

  /** lodash `union(a, b)`: the distinct values of `a` then `b`, in order of first appearance. */
  function Union(a: seq<string>, b: seq<string>): (u: seq<string>)
    ensures forall k :: k in u <==> k in a || k in b
    ensures Distinct(u)
  {
    Dedup(a + b, [])
  }

  function Dedup(s: seq<string>, seen: seq<string>): (u: seq<string>)
    ensures forall k :: k in u <==> k in s && k !in seen
    ensures Distinct(u)
    decreases |s|
  {
    if s == [] then []
    else if s[0] in seen then Dedup(s[1..], seen)
    else
      var rest := Dedup(s[1..], seen + [s[0]]);
      DistinctCons(s[0], rest);
      [s[0]] + rest
  }

  function FilterChanged(names: seq<string>, gv: JsObject, prev: JsObject): seq<string> {
    if names == [] then []
    else if Get(prev, names[0]) != Get(gv, names[0]) then [names[0]] + FilterChanged(names[1..], gv, prev)
    else FilterChanged(names[1..], gv, prev)
  }

  /**
   * The variables whose change is highlighted: every key of the current or the
   * previous variables whose value differs (`!==`) between the two; a missing
   * previous object counts as `{}`.
   */
  function ChangedVariables(gv: JsObject, prev: JsObject): (changed: seq<string>)
    ensures forall k :: k in changed <==> (k in KeysOf(gv) || k in KeysOf(prev)) && Get(prev, k) != Get(gv, k)
    ensures Distinct(changed)
  {
    var names := Union(KeysOf(gv), KeysOf(prev));
    FilterChangedSpec(names, gv, prev);
    FilterChanged(names, gv, prev)
  }

  lemma {:induction false} FilterChangedSpec(names: seq<string>, gv: JsObject, prev: JsObject)
    requires Distinct(names)
    ensures forall k :: k in FilterChanged(names, gv, prev) <==> k in names && Get(prev, k) != Get(gv, k)
    ensures Distinct(FilterChanged(names, gv, prev))
  {
    if names != [] {
      assert Distinct(names[1..]) by {
        forall i, j | 0 <= i < j < |names| - 1 ensures names[1..][i] != names[1..][j] {
          assert names[i + 1] != names[j + 1];
        }
      }
      FilterChangedSpec(names[1..], gv, prev);
      assert names[0] !in names[1..] by {
        forall i | 0 <= i < |names| - 1 ensures names[1..][i] != names[0] {
          assert names[i + 1] != names[0];
        }
      }
      if Get(prev, names[0]) != Get(gv, names[0]) {
        DistinctCons(names[0], FilterChanged(names[1..], gv, prev));
      }
    }
  }

  /** A link between a variable and a marker field of a topic. */
  datatype LinkedGlobalVariable = LinkedGlobalVariable(topic: string, markerKeyPath: seq<string>, name: string)

  /** `parts.join(sep)` for a one-character separator. */
  function Join(parts: seq<string>, sep: char): string {
    if parts == [] then ""
    else if |parts| == 1 then parts[0]
    else parts[0] + [sep] + Join(parts[1..], sep)
  }

  /** `[topic, ...markerKeyPath].join(".")`, the path the table shows for a link. */
  function LinkPath(l: LinkedGlobalVariable): string {
    Join([l.topic] + l.markerKeyPath, '.')
  }

  /** unlink(path) of the row for `name`: drops the links of `name` shown under `path`. */
  function Unlink(links: seq<LinkedGlobalVariable>, name: string, path: string): (kept: seq<LinkedGlobalVariable>)
    ensures forall l :: l in kept <==> l in links && !(l.name == name && LinkPath(l) == path)
    ensures |kept| <= |links|
  {
    if links == [] then []
    else if links[0].name == name && LinkPath(links[0]) == path then Unlink(links[1..], name, path)
    else [links[0]] + Unlink(links[1..], name, path)
  }

  /** Unlinking keeps the surviving links in their order: it is the identity on them. */
  lemma {:induction false} UnlinkIdempotent(links: seq<LinkedGlobalVariable>, name: string, path: string)
    ensures Unlink(Unlink(links, name, path), name, path) == Unlink(links, name, path)
  {
    if links != [] {
      UnlinkIdempotent(links[1..], name, path);
    }
  }

  /**
   * unlinkAndDelete for `name`: the links that survive, and the update handed to
   * `setGlobalVariables`, which sets `name` to `undefined`.
   */
  function UnlinkAndDelete(links: seq<LinkedGlobalVariable>, name: string)
    : (r: (seq<LinkedGlobalVariable>, JsObject))
    ensures forall l :: l in r.0 <==> l in links && l.name != name
    ensures r.1 == [(name, Undefined)]
  {
    (DropName(links, name), [(name, Undefined)])
  }

  function DropName(links: seq<LinkedGlobalVariable>, name: string): (kept: seq<LinkedGlobalVariable>)
    ensures forall l :: l in kept <==> l in links && l.name != name
  {
    if links == [] then []
    else if links[0].name == name then DropName(links[1..], name)
    else [links[0]] + DropName(links[1..], name)
  }

  /**
   * lodash `partition(names, name => !!linkedByName[name])`: the linked names and
   * the unlinked names, each in the order of `names`. A name with an entry in
   * `linkedByName` is linked, even when its list of links is empty.
   */
  function Partition(names: seq<string>, linkedByName: map<string, seq<LinkedGlobalVariable>>)
    : (r: (seq<string>, seq<string>))
    ensures forall k :: k in r.0 <==> k in names && k in linkedByName
    ensures forall k :: k in r.1 <==> k in names && k !in linkedByName
    ensures multiset(r.0) + multiset(r.1) == multiset(names)
  {
    if names == [] then ([], [])
    else
      var rest := Partition(names[1..], linkedByName);
      assert names == [names[0]] + names[1..];
      if names[0] in linkedByName then ([names[0]] + rest.0, rest.1)
      else (rest.0, [names[0]] + rest.1)
  }

  /** Position of `k` in `ks` (|ks| when absent). */
  function IndexOf(ks: seq<string>, k: string): (i: nat)
    ensures i <= |ks|
    ensures i < |ks| ==> ks[i] == k
    ensures forall j :: 0 <= j < i ==> ks[j] != k
    ensures k in ks ==> i < |ks|
  {
    if ks == [] then 0 else if ks[0] == k then 0 else 1 + IndexOf(ks[1..], k)
  }

  /** `xs` lists its names in the order in which they first appear in `names`. */
  predicate OrderedIn(xs: seq<string>, names: seq<string>) {
    forall i, j :: 0 <= i < j < |xs| ==> IndexOf(names, xs[i]) < IndexOf(names, xs[j])
  }

  /** Names after the first of distinct `names` keep their relative order in the tail. */
  lemma OrderedShift(xs: seq<string>, names: seq<string>)
    requires names != [] && forall x :: x in xs ==> x in names[1..] && x != names[0]
    requires OrderedIn(xs, names[1..])
    ensures OrderedIn(xs, names)
  {
    forall x | x in xs ensures IndexOf(names, x) == 1 + IndexOf(names[1..], x) {
    }
    forall i, j | 0 <= i < j < |xs| ensures IndexOf(names, xs[i]) < IndexOf(names, xs[j]) {
      assert xs[i] in xs && xs[j] in xs;
    }
  }

  /** The first name goes ahead of any ordered list of later names. */
  lemma OrderedHead(xs: seq<string>, names: seq<string>)
    requires names != [] && forall x :: x in xs ==> x in names[1..] && x != names[0]
    requires OrderedIn(xs, names)
    ensures OrderedIn([names[0]] + xs, names)
  {
    var ys := [names[0]] + xs;
    forall i, j | 0 <= i < j < |ys| ensures IndexOf(names, ys[i]) < IndexOf(names, ys[j]) {
      assert ys[j] == xs[j - 1] && xs[j - 1] in xs;
      if i > 0 {
        assert ys[i] == xs[i - 1];
      }
    }
  }

  /** For distinct names, each half of the partition lists its names in the order of `names`. */
  lemma {:induction false} PartitionKeepsOrder(names: seq<string>, linkedByName: map<string, seq<LinkedGlobalVariable>>)
    requires Distinct(names)
    ensures OrderedIn(Partition(names, linkedByName).0, names)
    ensures OrderedIn(Partition(names, linkedByName).1, names)
  {
    if names != [] {
      var tail := names[1..];
      assert Distinct(tail) by {
        forall i, j | 0 <= i < j < |tail| ensures tail[i] != tail[j] {
          assert tail[i] == names[i + 1] && tail[j] == names[j + 1];
        }
      }
      assert names[0] !in tail by {
        forall k | 0 <= k < |tail| ensures tail[k] != names[0] {
          assert tail[k] == names[k + 1];
        }
      }
      PartitionKeepsOrder(tail, linkedByName);
      var rest := Partition(tail, linkedByName);
      OrderedShift(rest.0, names);
      OrderedShift(rest.1, names);
      if names[0] in linkedByName {
        OrderedHead(rest.0, names);
      } else {
        OrderedHead(rest.1, names);
      }
    }
  }

  /**
   * The rename wired to the key input of the `idx`-th unlinked row, as written:
   * the position handed to changeGlobalKey is `linked.length + idx`, the row's
   * place in the table, not the place of its name among the keys.
   */
  function RenameUnlinkedRow(gv: JsObject, linkedByName: map<string, seq<LinkedGlobalVariable>>,
                             idx: nat, newKey: string): JsObject
  {
    var (linked, unlinked) := Partition(KeysOf(gv), linkedByName);
    if idx < |unlinked| then ChangeGlobalKey(newKey, unlinked[idx], gv, |linked| + idx) else gv
  }

  /**
   * With keys a, b of which only b is linked, renaming the row of a to c drops
   * b and leaves a in place: the object becomes { a: 1, c: 1 }.
   */
  lemma RenameUnlinkedRowDropsLinkedVariable(gv: JsObject, byName: map<string, seq<LinkedGlobalVariable>>)
    requires gv == [("a", Num(1.0)), ("b", Num(2.0))]
    requires byName == map["b" := []]
    ensures RenameUnlinkedRow(gv, byName, 0, "c") == [("a", Num(1.0)), ("c", Num(1.0))]
  {
    assert KeysOf(gv) == ["a", "b"];
    PartitionOfExample(byName);
    ExampleKeysWellOrdered();
    assert KeysOf(gv)[..1] + ["c"] + KeysOf(gv)[2..] == ["a", "c"];
    ChangeGlobalKeyInPlace("c", "a", gv, 1);
    assert gv[..1] == [("a", Num(1.0))] && gv[2..] == [];
  }

  lemma ExampleKeysWellOrdered()
    ensures WellOrdered(["a", "b"]) && WellOrdered(["a", "c"])
  {
    assert !IsArrayIndex("a") && !IsArrayIndex("b") && !IsArrayIndex("c");
  }

  lemma PartitionOfExample(byName: map<string, seq<LinkedGlobalVariable>>)
    requires byName == map["b" := []]
    ensures Partition(["a", "b"], byName) == (["b"], ["a"])
  {
    assert "b" in byName && "a" !in byName;
    assert ["b"][1..] == [] && ["a", "b"][1..] == ["b"];
    var pb := Partition(["b"], byName);
    assert ["b"][0] == "b";
    assert pb.0 == ["b"] && pb.1 == [];
    var pab := Partition(["a", "b"], byName);
    assert ["a", "b"][0] == "a";
    assert pab.0 == ["b"] && pab.1 == ["a"];
  }

  /** The rename of the `idx`-th unlinked row, at the position of its own name. */
  function RenameUnlinkedRowFixed(gv: JsObject, linkedByName: map<string, seq<LinkedGlobalVariable>>,
                                  idx: nat, newKey: string): JsObject
  {
    var (linked, unlinked) := Partition(KeysOf(gv), linkedByName);
    if idx < |unlinked| then ChangeGlobalKey(newKey, unlinked[idx], gv, IndexOf(KeysOf(gv), unlinked[idx])) else gv
  }

  /**
   * The corrected rename replaces exactly the edited row's name by `newKey`,
   * keeping its value and position and every other variable.
   */
  lemma RenameUnlinkedRowFixedInPlace(gv: JsObject, linkedByName: map<string, seq<LinkedGlobalVariable>>,
                                      idx: nat, newKey: string)
    requires WellOrdered(KeysOf(gv))
    requires idx < |Partition(KeysOf(gv), linkedByName).1|
    requires var name := Partition(KeysOf(gv), linkedByName).1[idx];
             var p := IndexOf(KeysOf(gv), name);
             WellOrdered(KeysOf(gv)[..p] + [newKey] + KeysOf(gv)[p + 1..])
    ensures var name := Partition(KeysOf(gv), linkedByName).1[idx];
            var p := IndexOf(KeysOf(gv), name);
            && p < |gv| && gv[p].0 == name
            && RenameUnlinkedRowFixed(gv, linkedByName, idx, newKey) == gv[..p] + [(newKey, gv[p].1)] + gv[p + 1..]
  {
    var name := Partition(KeysOf(gv), linkedByName).1[idx];
    assert name in Partition(KeysOf(gv), linkedByName).1;
    var p := IndexOf(KeysOf(gv), name);
    GetAt(gv, p);
    ChangeGlobalKeyInPlace(newKey, name, gv, p);
  }
}
