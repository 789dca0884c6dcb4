/** Lists kept sorted by a text key, with one entry per identity: a stable sort and an upsert. */
module SortedList {
  import opened Text

  predicate SortedBy<T>(items: seq<T>, key: T -> string) {
    forall i, j :: 0 <= i < j < |items| ==> AtMost(key(items[i]), key(items[j]))
  }

  /** No two items share an identity. */
  predicate Distinct<T>(items: seq<T>, id: T -> string) {
    forall i, j :: 0 <= i < j < |items| ==> id(items[i]) != id(items[j])
  }

  /** Puts `x` behind everything its key does not precede. */
  function Insert<T>(items: seq<T>, x: T, key: T -> string): (r: seq<T>)
    ensures |r| == |items| + 1
  {
    if items == [] || AtMost(key(items[|items| - 1]), key(x)) then items + [x]
    else Insert(items[..|items| - 1], x, key) + [items[|items| - 1]]
  }

  /** The stable sort. */
  function SortByKey<T>(items: seq<T>, key: T -> string): seq<T> {
    if items == [] then [] else Insert(SortByKey(items[..|items| - 1], key), items[|items| - 1], key)
  }

  lemma {:induction false} InsertItems<T>(items: seq<T>, x: T, key: T -> string, y: T)
    ensures y in Insert(items, x, key) <==> y in items || y == x
  {
    if items != [] && !AtMost(key(items[|items| - 1]), key(x)) {
      InsertItems(items[..|items| - 1], x, key, y);
      assert items == items[..|items| - 1] + [items[|items| - 1]];
    }
  }

  lemma {:induction false} SortItems<T>(items: seq<T>, key: T -> string, y: T)
    ensures y in SortByKey(items, key) <==> y in items
  {
    if items != [] {
      SortItems(items[..|items| - 1], key, y);
      InsertItems(SortByKey(items[..|items| - 1], key), items[|items| - 1], key, y);
      assert items == items[..|items| - 1] + [items[|items| - 1]];
    }
  }

  lemma SortedSnoc<T>(items: seq<T>, x: T, key: T -> string)
    requires SortedBy(items, key)
    requires forall y :: y in items ==> AtMost(key(y), key(x))
    ensures SortedBy(items + [x], key)
  {
  }

  lemma {:induction false} InsertSorted<T>(items: seq<T>, x: T, key: T -> string)
    requires SortedBy(items, key)
    ensures SortedBy(Insert(items, x, key), key)
  {
    if items == [] {
    } else {
      var rest, last := items[..|items| - 1], items[|items| - 1];
      if AtMost(key(last), key(x)) {
        forall y | y in items
          ensures AtMost(key(y), key(x))
        {
          if y != last {
            AtMostTransitive(key(y), key(last), key(x));
          }
        }
        SortedSnoc(items, x, key);
      } else {
        AtMostTotal(key(last), key(x));
        InsertSorted(rest, x, key);
        forall y | y in Insert(rest, x, key)
          ensures AtMost(key(y), key(last))
        {
          InsertItems(rest, x, key, y);
        }
        SortedSnoc(Insert(rest, x, key), last, key);
      }
    }
  }

  lemma {:induction false} SortSorts<T>(items: seq<T>, key: T -> string)
    ensures SortedBy(SortByKey(items, key), key)
  {
    if items != [] {
      SortSorts(items[..|items| - 1], key);
      InsertSorted(SortByKey(items[..|items| - 1], key), items[|items| - 1], key);
    }
  }

  /** Items whose key is `k`, in order. */
  function WithKey<T>(items: seq<T>, key: T -> string, k: string): seq<T> {
    if items == [] then []
    else WithKey(items[..|items| - 1], key, k) + if key(items[|items| - 1]) == k then [items[|items| - 1]] else []
  }

  lemma WithKeySnoc<T>(items: seq<T>, x: T, key: T -> string, k: string)
    ensures WithKey(items + [x], key, k) == WithKey(items, key, k) + if key(x) == k then [x] else []
  {
    assert (items + [x])[..|items|] == items;
  }

  lemma {:induction false} InsertStable<T>(items: seq<T>, x: T, key: T -> string, k: string)
    requires SortedBy(items, key)
    ensures WithKey(Insert(items, x, key), key, k) == WithKey(items + [x], key, k)
  {
    WithKeySnoc(items, x, key, k);
    if items != [] && !AtMost(key(items[|items| - 1]), key(x)) {
      var rest, last := items[..|items| - 1], items[|items| - 1];
      InsertStable(rest, x, key, k);
      WithKeySnoc(rest, x, key, k);
      WithKeySnoc(Insert(rest, x, key), last, key, k);
      AtMostTotal(key(x), key(x));
    }
  }

  /** Items with equal keys keep their order: the sort is stable. */
  lemma {:induction false} SortStable<T>(items: seq<T>, key: T -> string, k: string)
    ensures WithKey(SortByKey(items, key), key, k) == WithKey(items, key, k)
  {
    if items != [] {
      var rest, last := items[..|items| - 1], items[|items| - 1];
      SortStable(rest, key, k);
      SortSorts(rest, key);
      InsertStable(SortByKey(rest, key), last, key, k);
      WithKeySnoc(SortByKey(rest, key), last, key, k);
    }
  }

  /** Sorting a sorted list changes nothing. */
  lemma {:induction false} SortedStays<T>(items: seq<T>, key: T -> string)
    requires SortedBy(items, key)
    ensures SortByKey(items, key) == items
  {
    if items != [] {
      var rest := items[..|items| - 1];
      SortedStays(rest, key);
      assert rest == [] || AtMost(key(rest[|rest| - 1]), key(items[|items| - 1]));
    }
  }

  lemma {:induction false} InsertDistinct<T>(items: seq<T>, x: T, key: T -> string, id: T -> string)
    requires Distinct(items + [x], id)
    ensures Distinct(Insert(items, x, key), id)
  {
    if items != [] && !AtMost(key(items[|items| - 1]), key(x)) {
      var rest, last := items[..|items| - 1], items[|items| - 1];
      assert items + [x] == rest + [last, x];
      DistinctParts(rest, last, x, id);
      InsertDistinct(rest, x, key, id);
      forall y | y in Insert(rest, x, key)
        ensures id(y) != id(last)
      {
        InsertItems(rest, x, key, y);
      }
    }
  }

  lemma DistinctParts<T>(rest: seq<T>, last: T, x: T, id: T -> string)
    requires Distinct(rest + [last, x], id)
    ensures Distinct(rest + [x], id) && id(last) != id(x)
    ensures forall y :: y in rest ==> id(y) != id(last)
  {
    var s := rest + [last, x];
    assert s[|rest|] == last && s[|rest| + 1] == x;
    forall i, j | 0 <= i < j < |rest + [x]|
      ensures id((rest + [x])[i]) != id((rest + [x])[j])
    {
      assert s[i] == rest[i];
      assert (rest + [x])[j] == if j < |rest| then s[j] else s[j + 1];
    }
    forall y | y in rest
      ensures id(y) != id(last)
    {
      var i :| 0 <= i < |rest| && rest[i] == y;
      assert s[i] == y;
    }
  }

  lemma {:induction false} SortDistinct<T>(items: seq<T>, key: T -> string, id: T -> string)
    requires Distinct(items, id)
    ensures Distinct(SortByKey(items, key), id)
  {
    if items != [] {
      var rest, last := items[..|items| - 1], items[|items| - 1];
      SortDistinct(rest, key, id);
      forall y | y in SortByKey(rest, key)
        ensures id(y) != id(last)
      {
        SortItems(rest, key, y);
      }
      InsertDistinct(SortByKey(rest, key), last, key, id);
    }
  }

  // ---------------------------------------------------------------------------------------------
  // Upsert and removal
  // ---------------------------------------------------------------------------------------------

  function IndexOf<T>(items: seq<T>, id: T -> string, wanted: string): (r: nat)
    ensures r <= |items|
    ensures r < |items| ==> id(items[r]) == wanted
    ensures forall i :: 0 <= i < r ==> id(items[i]) != wanted
  {
    if items == [] || id(items[0]) == wanted then 0 else 1 + IndexOf(items[1..], id, wanted)
  }

  function Placed<T>(items: seq<T>, item: T, id: T -> string): seq<T> {
    var i := IndexOf(items, id, id(item));
    if i < |items| then items[i := item] else items + [item]
  }

  function Upsert<T>(items: seq<T>, item: T, id: T -> string, key: T -> string): seq<T> {
    SortByKey(Placed(items, item, id), key)
  }

  function Without<T>(items: seq<T>, id: T -> string, unwanted: string): seq<T> {
    if items == [] then []
    else Without(items[..|items| - 1], id, unwanted) + if id(items[|items| - 1]) == unwanted then [] else [items[|items| - 1]]
  }

  /** An upsert replaces the item of that identity or adds it, keeps every other, and leaves the list
      sorted with one item per identity. */
  lemma UpsertMeaning<T>(items: seq<T>, item: T, id: T -> string, key: T -> string)
    requires Distinct(items, id)
    ensures var r := Upsert(items, item, id, key);
            && SortedBy(r, key) && Distinct(r, id)
            && (forall y :: y in r <==> y == item || (y in items && id(y) != id(item)))
  {
    var placed := Placed(items, item, id);
    SortSorts(placed, key);
    SortDistinct(placed, key, id);
    forall y
      ensures y in Upsert(items, item, id, key) <==> y == item || (y in items && id(y) != id(item))
    {
      SortItems(placed, key, y);
      PlacedItems(items, item, id, y);
    }
  }

  lemma PlacedItems<T>(items: seq<T>, item: T, id: T -> string, y: T)
    requires Distinct(items, id)
    ensures y in Placed(items, item, id) <==> y == item || (y in items && id(y) != id(item))
  {
    var i, placed := IndexOf(items, id, id(item)), Placed(items, item, id);
    if i < |items| {
      assert placed[i] == item;
      if y in items && id(y) != id(item) {
        var j :| 0 <= j < |items| && items[j] == y;
        assert placed[j] == y;
      }
      if y in placed && y != item {
        var j :| 0 <= j < |placed| && placed[j] == y;
        assert items[j] == y;
      }
    }
  }

  /** Adding the greatest item of a new identity appends it. */
  lemma UpsertAppends<T>(items: seq<T>, item: T, id: T -> string, key: T -> string)
    requires SortedBy(items + [item], key) && Distinct(items + [item], id)
    ensures Upsert(items, item, id, key) == items + [item]
  {
    forall i | 0 <= i < |items|
      ensures id(items[i]) != id(item)
    {
      assert (items + [item])[i] == items[i] && (items + [item])[|items|] == item;
    }
    SortedStays(items + [item], key);
  }

  lemma {:induction false} WithoutItems<T>(items: seq<T>, id: T -> string, unwanted: string, y: T)
    ensures y in Without(items, id, unwanted) <==> y in items && id(y) != unwanted
  {
    if items != [] {
      var rest, last := items[..|items| - 1], items[|items| - 1];
      WithoutItems(rest, id, unwanted, y);
      assert items == rest + [last];
    }
  }

  lemma {:induction false} WithoutSorted<T>(items: seq<T>, id: T -> string, key: T -> string, unwanted: string)
    requires SortedBy(items, key)
    ensures SortedBy(Without(items, id, unwanted), key)
  {
    if items != [] {
      var rest, last := items[..|items| - 1], items[|items| - 1];
      WithoutSorted(rest, id, key, unwanted);
      if id(last) != unwanted {
        forall y | y in Without(rest, id, unwanted)
          ensures AtMost(key(y), key(last))
        {
          WithoutItems(rest, id, unwanted, y);
        }
        SortedSnoc(Without(rest, id, unwanted), last, key);
      }
    }
  }

  lemma {:induction false} WithoutDistinct<T>(items: seq<T>, id: T -> string, unwanted: string)
    requires Distinct(items, id)
    ensures Distinct(Without(items, id, unwanted), id)
  {
    if items != [] {
      var rest, last := items[..|items| - 1], items[|items| - 1];
      WithoutDistinct(rest, id, unwanted);
      if id(last) != unwanted {
        forall y | y in Without(rest, id, unwanted)
          ensures id(y) != id(last)
        {
          WithoutItems(rest, id, unwanted, y);
        }
        DistinctSnoc(Without(rest, id, unwanted), last, id);
      }
    }
  }

  lemma DistinctSnoc<T>(items: seq<T>, x: T, id: T -> string)
    requires Distinct(items, id)
    requires forall y :: y in items ==> id(y) != id(x)
    ensures Distinct(items + [x], id)
  {
  }

  lemma {:induction false} WithoutShrinks<T>(items: seq<T>, id: T -> string, unwanted: string)
    ensures |Without(items, id, unwanted)| <= |items|
    ensures |Without(items, id, unwanted)| == |items| <==> forall y :: y in items ==> id(y) != unwanted
  {
    if items != [] {
      var rest, last := items[..|items| - 1], items[|items| - 1];
      WithoutShrinks(rest, id, unwanted);
      assert items == rest + [last];
    }
  }

  /** A removal drops exactly the items of that identity and keeps order and distinctness; the list gets
      shorter exactly when there was one. */
  lemma WithoutMeaning<T>(items: seq<T>, id: T -> string, key: T -> string, unwanted: string)
    requires SortedBy(items, key) && Distinct(items, id)
    ensures var r := Without(items, id, unwanted);
            && SortedBy(r, key) && Distinct(r, id)
            && (forall y :: y in r <==> y in items && id(y) != unwanted)
            && |r| <= |items|
            && (|r| == |items| <==> forall y :: y in items ==> id(y) != unwanted)
  {
    WithoutSorted(items, id, key, unwanted);
    WithoutDistinct(items, id, unwanted);
    WithoutShrinks(items, id, unwanted);
    forall y
      ensures y in Without(items, id, unwanted) <==> y in items && id(y) != unwanted
    {
      WithoutItems(items, id, unwanted, y);
    }
  }

  // ---------------------------------------------------------------------------------------------
  // In place
  // ---------------------------------------------------------------------------------------------

  /** Overwrites the item of the same identity or pushes, then sorts. */
  method UpsertInto<T>(items: seq<T>, item: T, id: T -> string, key: T -> string) returns (r: seq<T>)
    ensures r == Upsert(items, item, id, key)
  {
    r := items;
    var i := 0;
    while i < |items| && id(items[i]) != id(item)
      invariant 0 <= i <= |items| && r == items
      invariant forall k :: 0 <= k < i ==> id(items[k]) != id(item)
    {
      i := i + 1;
    }
    if i < |items| {
      r := r[i := item];
    } else {
      r := r + [item];
    }
    r := SortByKey(r, key);
  }

  method Retain<T>(items: seq<T>, id: T -> string, unwanted: string) returns (r: seq<T>)
    ensures r == Without(items, id, unwanted)
  {
    r := [];
    for i := 0 to |items|
      invariant r == Without(items[..i], id, unwanted)
    {
      assert items[..i + 1][..i] == items[..i];
      if id(items[i]) != unwanted {
        r := r + [items[i]];
      }
    }
    assert items[..|items|] == items;
  }
}
