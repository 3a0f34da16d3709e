/**
 * `_flatten_dict`, which turns the nested record dictionary into one flat row for the
 * CSV export.
 *
 * A value of the record is a scalar, a dictionary (its entries in insertion order) or a
 * list. `str(...)` of a value is a parameter. The flattening produces the `items` list;
 * `dict(items)` is `DictOf`, where a later entry for a key replaces an earlier one.
 */
module Flatten {
  import opened Strings

  datatype Value =
    | Scalar(text: string)
    | Dict(entries: seq<(string, Value)>)
    | List(items: seq<Value>)

  /** Python's `str(value)`. */
  type Show = Value -> string

  /** `f"{parent}{sep}{k}" if parent else k`. */
  function JoinKey(parent: string, sep: string, k: string): string
  {
    if parent != "" then parent + sep + k else k
  }

  /** `str(x) for x in xs`. */
  function Shown(xs: seq<Value>, show: Show): (r: seq<string>)
    ensures |r| == |xs|
  {
    seq(|xs|, i requires 0 <= i < |xs| => show(xs[i]))
  }

  /** The items the loop over the first `n` entries of dictionary `d` produces. */
  function FlattenEntries(d: Value, n: nat, parent: string, sep: string, show: Show): seq<(string, Value)>
    requires d.Dict? && n <= |d.entries|
    decreases d, 0, n
  {
    if n == 0 then []
    else
      var e := d.entries[n - 1];
      assert e in d.entries;
      FlattenEntries(d, n - 1, parent, sep, show) + FlattenValue(JoinKey(parent, sep, e.0), e.1, sep, show)
  }

  /** The items one entry contributes: a nested dictionary is flattened under the joined
      key; a list whose first element is a dictionary contributes its first five elements
      under `key_0` … `key_4`; any other list becomes one entry joined with `"; "`; any
      other value is kept as it is. */
  function FlattenValue(key: string, v: Value, sep: string, show: Show): seq<(string, Value)>
    decreases v, 1, 0
  {
    match v
    case Dict(es) => FlattenEntries(v, |es|, key, sep, show)
    case List(vs) =>
      if vs != [] && vs[0].Dict? then FlattenItems(v, if |vs| <= 5 then |vs| else 5, key, sep, show)
      else [(key, Scalar(Join(Shown(vs, show), "; ")))]
    case Scalar(_) => [(key, v)]
  }

  /** `f"{key}_{i}"`: the separator written here is always `_`. */
  function ItemKey(key: string, i: nat): string
  {
    key + "_" + NatToString(i)
  }

  /** The items the first `n` elements of list `v` contribute. */
  function FlattenItems(v: Value, n: nat, key: string, sep: string, show: Show): seq<(string, Value)>
    requires v.List? && n <= |v.items|
    decreases v, 0, n
  {
    if n == 0 then []
    else
      var item := v.items[n - 1];
      assert item in v.items;
      FlattenItems(v, n - 1, key, sep, show) +
        (if item.Dict? then FlattenEntries(item, |item.entries|, ItemKey(key, n - 1), sep, show)
         else [(ItemKey(key, n - 1), Scalar(show(item)))])
  }

  /** `dict(items)`: the value of the last entry for each key. */
  function DictOf(items: seq<(string, Value)>): map<string, Value>
  {
    if items == [] then map[]
    else DictOf(items[..|items| - 1])[items[|items| - 1].0 := items[|items| - 1].1]
  }

  /** `_flatten_dict(d)`: no prefix at the top level and `_` as separator. */
  function FlattenDict(d: Value, show: Show): map<string, Value>
    requires d.Dict?
  {
    DictOf(FlattenEntries(d, |d.entries|, "", "_", show))
  }

  // ---------------------------------------------------------------------
  // The loops
  // ---------------------------------------------------------------------

  /** The loop over the entries of `d`, recursing into nested dictionaries. */
  method FlattenDictItems(d: Value, parent: string, sep: string, show: Show) returns (items: seq<(string, Value)>)
    requires d.Dict?
    ensures items == FlattenEntries(d, |d.entries|, parent, sep, show)
    decreases d, 1
  {
    items := [];
    for i := 0 to |d.entries|
      invariant items == FlattenEntries(d, i, parent, sep, show)
    {
      var (k, v) := d.entries[i];
      assert d.entries[i] in d.entries;
      var newKey := if parent != "" then parent + sep + k else k;
      var added: seq<(string, Value)>;
      if v.Dict? {
        added := FlattenDictItems(v, newKey, sep, show);
      } else if v.List? {
        if v.items != [] && v.items[0].Dict? {
          added := FlattenListItems(v, newKey, sep, show);
        } else {
          added := [(newKey, Scalar(Join(Shown(v.items, show), "; ")))];
        }
      } else {
        added := [(newKey, v)];
      }
      items := items + added;
    }
  }

  /** The loop over `enumerate(v[:5])` of a list whose first element is a dictionary. */
  method FlattenListItems(v: Value, key: string, sep: string, show: Show) returns (items: seq<(string, Value)>)
    requires v.List?
    ensures items == FlattenItems(v, if |v.items| <= 5 then |v.items| else 5, key, sep, show)
    decreases v, 0
  {
    items := [];
    var n := if |v.items| <= 5 then |v.items| else 5;
    for i := 0 to n
      invariant items == FlattenItems(v, i, key, sep, show)
    {
      var item := v.items[i];
      assert item in v.items;
      if item.Dict? {
        var added := FlattenDictItems(item, ItemKey(key, i), sep, show);
        items := items + added;
      } else {
        items := items + [(ItemKey(key, i), Scalar(show(item)))];
      }
    }
  }

  // ---------------------------------------------------------------------
  // Properties
  // ---------------------------------------------------------------------

  /** Every flattened value is a scalar: nested dictionaries and lists never survive. */
  lemma {:induction false} EntriesAreScalars(d: Value, n: nat, parent: string, sep: string, show: Show)
    requires d.Dict? && n <= |d.entries|
    ensures forall e :: e in FlattenEntries(d, n, parent, sep, show) ==> e.1.Scalar?
    decreases d, 0, n
  {
    if n > 0 {
      var e := d.entries[n - 1];
      assert e in d.entries;
      EntriesAreScalars(d, n - 1, parent, sep, show);
      ValueIsScalars(JoinKey(parent, sep, e.0), e.1, sep, show);
    }
  }

  lemma {:induction false} ValueIsScalars(key: string, v: Value, sep: string, show: Show)
    ensures forall e :: e in FlattenValue(key, v, sep, show) ==> e.1.Scalar?
    decreases v, 1, 0
  {
    match v
    case Dict(es) => EntriesAreScalars(v, |es|, key, sep, show);
    case List(vs) =>
      if vs != [] && vs[0].Dict? {
        ItemsAreScalars(v, if |vs| <= 5 then |vs| else 5, key, sep, show);
      }
    case Scalar(_) =>
  }

  lemma {:induction false} ItemsAreScalars(v: Value, n: nat, key: string, sep: string, show: Show)
    requires v.List? && n <= |v.items|
    ensures forall e :: e in FlattenItems(v, n, key, sep, show) ==> e.1.Scalar?
    decreases v, 0, n
  {
    if n > 0 {
      var item := v.items[n - 1];
      assert item in v.items;
      ItemsAreScalars(v, n - 1, key, sep, show);
      if item.Dict? {
        EntriesAreScalars(item, |item.entries|, ItemKey(key, n - 1), sep, show);
      }
    }
  }

  /** Below a non-empty prefix every key begins with the prefix and the separator. */
  lemma {:induction false} EntriesUnderParent(d: Value, n: nat, parent: string, sep: string, show: Show)
    requires d.Dict? && n <= |d.entries| && parent != ""
    ensures forall e :: e in FlattenEntries(d, n, parent, sep, show) ==> StartsWith(e.0, parent + sep)
    decreases d, 0, n
  {
    if n > 0 {
      var e := d.entries[n - 1];
      assert e in d.entries;
      EntriesUnderParent(d, n - 1, parent, sep, show);
      var key := JoinKey(parent, sep, e.0);
      StartsWithJoined(e.0, parent, sep);
      ValueUnderKey(key, e.1, sep, show);
      forall x | x in FlattenValue(key, e.1, sep, show)
        ensures StartsWith(x.0, parent + sep)
      {
        StartsWithTrans(x.0, key, parent + sep);
      }
    }
  }

  /** Every key a value contributes begins with the key it is stored under. */
  lemma {:induction false} ValueUnderKey(key: string, v: Value, sep: string, show: Show)
    ensures forall e :: e in FlattenValue(key, v, sep, show) ==> StartsWith(e.0, key)
    decreases v, 1, 0
  {
    match v
    case Dict(es) =>
      if key != "" {
        EntriesUnderParent(v, |es|, key, sep, show);
        forall x | x in FlattenValue(key, v, sep, show)
          ensures StartsWith(x.0, key)
        {
          StartsWithTrans(x.0, key + sep, key);
        }
      }
    case List(vs) =>
      if vs != [] && vs[0].Dict? {
        ItemsUnderKey(v, if |vs| <= 5 then |vs| else 5, key, sep, show);
      } else {
        assert key[..|key|] == key;
      }
    case Scalar(_) =>
      assert key[..|key|] == key;
  }

  lemma {:induction false} ItemsUnderKey(v: Value, n: nat, key: string, sep: string, show: Show)
    requires v.List? && n <= |v.items|
    ensures forall e :: e in FlattenItems(v, n, key, sep, show) ==> StartsWith(e.0, key)
    decreases v, 0, n
  {
    if n > 0 {
      var item := v.items[n - 1];
      assert item in v.items;
      ItemsUnderKey(v, n - 1, key, sep, show);
      var ik := ItemKey(key, n - 1);
      assert StartsWith(ik, key) by { assert ik[..|key|] == key; }
      if item.Dict? {
        EntriesUnderParent(item, |item.entries|, ik, sep, show);
        forall x | x in FlattenEntries(item, |item.entries|, ik, sep, show)
          ensures StartsWith(x.0, key)
        {
          StartsWithTrans(x.0, ik + sep, ik);
          StartsWithTrans(x.0, ik, key);
        }
      }
    }
  }

  lemma StartsWithTrans(a: string, b: string, c: string)
    requires StartsWith(a, b) && StartsWith(b, c)
    ensures StartsWith(a, c)
  {
    assert a[..|c|] == a[..|b|][..|c|];
  }

  lemma StartsWithJoined(k: string, parent: string, sep: string)
    requires parent != ""
    ensures StartsWith(JoinKey(parent, sep, k), parent + sep)
  {
    assert (parent + sep + k)[..|parent + sep|] == parent + sep;
  }

  /** A scalar entry of the dictionary appears as it is under its joined key; at the top
      level that key is the entry's own key. */
  lemma {:induction false} ScalarKept(d: Value, n: nat, parent: string, sep: string, show: Show, i: nat)
    requires d.Dict? && i < n <= |d.entries| && d.entries[i].1.Scalar?
    ensures (JoinKey(parent, sep, d.entries[i].0), d.entries[i].1) in FlattenEntries(d, n, parent, sep, show)
    ensures JoinKey("", sep, d.entries[i].0) == d.entries[i].0
    decreases n
  {
    if i < n - 1 {
      ScalarKept(d, n - 1, parent, sep, show, i);
    }
  }

  /** A list whose first element is a dictionary contributes only its first five elements:
      dropping the rest changes nothing. */
  lemma ListCappedAtFive(key: string, vs: seq<Value>, sep: string, show: Show)
    requires |vs| > 5 && vs[0].Dict?
    ensures FlattenValue(key, List(vs), sep, show) == FlattenValue(key, List(vs[..5]), sep, show)
  {
    ItemsAgree(List(vs), List(vs[..5]), 5, key, sep, show);
  }

  lemma {:induction false} ItemsAgree(v: Value, w: Value, n: nat, key: string, sep: string, show: Show)
    requires v.List? && w.List? && n <= |v.items| && n <= |w.items| && v.items[..n] == w.items[..n]
    ensures FlattenItems(v, n, key, sep, show) == FlattenItems(w, n, key, sep, show)
    decreases n
  {
    if n > 0 {
      assert v.items[n - 1] == v.items[..n][n - 1] == w.items[n - 1];
      assert v.items[..n - 1] == v.items[..n][..n - 1];
      assert w.items[..n - 1] == w.items[..n][..n - 1];
      ItemsAgree(v, w, n - 1, key, sep, show);
    }
  }

  /** An empty list becomes one empty string; a list of scalars becomes one entry with
      their texts joined by `"; "`. */
  lemma SimpleListJoined(key: string, vs: seq<Value>, sep: string, show: Show)
    requires vs == [] || !vs[0].Dict?
    ensures FlattenValue(key, List(vs), sep, show) == [(key, Scalar(Join(Shown(vs, show), "; ")))]
    ensures vs == [] ==> FlattenValue(key, List(vs), sep, show) == [(key, Scalar(""))]
  {
  }

  /** On a key collision the last entry wins: the row holds, for each key, the value of its
      last entry, and no key that has no entry. */
  lemma {:induction false} LastEntryWins(items: seq<(string, Value)>, i: nat)
    requires i < |items|
    requires forall j :: i < j < |items| ==> items[j].0 != items[i].0
    ensures items[i].0 in DictOf(items) && DictOf(items)[items[i].0] == items[i].1
    decreases |items|
  {
    if i < |items| - 1 {
      var front := items[..|items| - 1];
      assert front[i] == items[i];
      LastEntryWins(front, i);
    }
  }

  lemma {:induction false} DictKeys(items: seq<(string, Value)>)
    ensures forall k :: k in DictOf(items) <==> exists j :: 0 <= j < |items| && items[j].0 == k
    decreases |items|
  {
    if items != [] {
      var front := items[..|items| - 1];
      DictKeys(front);
      forall k | k in DictOf(items)
        ensures exists j :: 0 <= j < |items| && items[j].0 == k
      {
        if k != items[|items| - 1].0 {
          assert k in DictOf(front);
          var j :| 0 <= j < |front| && front[j].0 == k;
          assert items[j] == front[j];
        }
      }
      forall k | exists j :: 0 <= j < |items| && items[j].0 == k
        ensures k in DictOf(items)
      {
        var j :| 0 <= j < |items| && items[j].0 == k;
        if j < |front| {
          assert front[j] == items[j];
        }
      }
    }
  }

  /** Every value of `dict(items)` is the value of an item under that key. */
  lemma {:induction false} DictValuesFromItems(items: seq<(string, Value)>)
    ensures forall k :: k in DictOf(items) ==> (k, DictOf(items)[k]) in items
    decreases |items|
  {
    if items != [] {
      var front := items[..|items| - 1];
      DictValuesFromItems(front);
      forall k | k in DictOf(items)
        ensures (k, DictOf(items)[k]) in items
      {
        if k != items[|items| - 1].0 {
          assert (k, DictOf(front)[k]) in front;
        }
      }
    }
  }

  /** The flattened row `_flatten_dict` gives the CSV writer holds only scalar values, and
      its keys are exactly the keys the flattening loop produced. */
  lemma FlattenDictScalars(d: Value, show: Show)
    requires d.Dict?
    ensures forall k :: k in FlattenDict(d, show) ==> FlattenDict(d, show)[k].Scalar?
    ensures forall k :: k in FlattenDict(d, show) <==>
      exists e :: e in FlattenEntries(d, |d.entries|, "", "_", show) && e.0 == k
  {
    var items := FlattenEntries(d, |d.entries|, "", "_", show);
    EntriesAreScalars(d, |d.entries|, "", "_", show);
    DictValuesFromItems(items);
    DictKeys(items);
    forall k
      ensures k in FlattenDict(d, show) <==> exists e :: e in items && e.0 == k
    {
      if k in DictOf(items) {
        var j :| 0 <= j < |items| && items[j].0 == k;
        assert items[j] in items;
      }
      if e :| e in items && e.0 == k {
        var j :| 0 <= j < |items| && items[j] == e;
      }
    }
  }
}
