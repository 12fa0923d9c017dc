/**
 A stable ascending sort, the meaning of `_.orderBy` on one key and of `Array.sort` with a
 numeric comparator. It is pinned down completely: the result is ordered, and the items of
 every key appear in it exactly as they did before.
 */
module StableSort {

  datatype Keyed<T> = Keyed(key: real, item: T)

  ghost predicate Ordered<T>(xs: seq<Keyed<T>>) {
    forall i, j :: 0 <= i <= j < |xs| ==> xs[i].key <= xs[j].key
  }

  /** The items of one key, in order. */
  function OfKey<T>(xs: seq<Keyed<T>>, key: real): seq<T> {
    if xs == [] then []
    else (if xs[0].key == key then [xs[0].item] else []) + OfKey(xs[1..], key)
  }

  /** Places `x` in front of the first entry whose key is not smaller. */
  function Place<T>(x: Keyed<T>, xs: seq<Keyed<T>>): seq<Keyed<T>> {
    if xs == [] || x.key <= xs[0].key then [x] + xs else [xs[0]] + Place(x, xs[1..])
  }

  function Sort<T>(xs: seq<Keyed<T>>): seq<Keyed<T>> {
    if xs == [] then [] else Place(xs[0], Sort(xs[1..]))
  }

  lemma OfKeyCons<T>(x: Keyed<T>, xs: seq<Keyed<T>>, key: real)
    ensures OfKey([x] + xs, key) == (if x.key == key then [x.item] else []) + OfKey(xs, key)
  {
    assert ([x] + xs)[1..] == xs;
  }

  lemma {:induction false} PlaceIsOrdered<T>(x: Keyed<T>, xs: seq<Keyed<T>>)
    requires Ordered(xs)
    ensures Ordered(Place(x, xs)) && |Place(x, xs)| == |xs| + 1
    ensures Place(x, xs)[0] == x || (xs != [] && Place(x, xs)[0] == xs[0])
    ensures multiset(Place(x, xs)) == multiset([x]) + multiset(xs)
  {
    if xs != [] && x.key > xs[0].key {
      PlaceIsOrdered(x, xs[1..]);
      var placed := Place(x, xs[1..]);
      assert xs == [xs[0]] + xs[1..];
      forall i, j | 0 <= i <= j < |placed| + 1
        ensures ([xs[0]] + placed)[i].key <= ([xs[0]] + placed)[j].key
      {
        if i == 0 && j > 0 {
          assert placed[0].key <= placed[j - 1].key;
          assert |xs| > 1 ==> xs[0].key <= xs[1].key;
        }
      }
    }
  }

  lemma {:induction false} PlaceKeeps<T>(x: Keyed<T>, xs: seq<Keyed<T>>, key: real)
    ensures OfKey(Place(x, xs), key) == OfKey([x] + xs, key)
  {
    if xs != [] && x.key > xs[0].key {
      PlaceKeeps(x, xs[1..], key);
      OfKeyCons(xs[0], Place(x, xs[1..]), key);
      OfKeyCons(x, xs[1..], key);
      OfKeyCons(x, xs, key);
    }
  }

  lemma {:induction false} SortIsStable<T>(xs: seq<Keyed<T>>, key: real)
    ensures Ordered(Sort(xs)) && multiset(Sort(xs)) == multiset(xs) && |Sort(xs)| == |xs|
    ensures OfKey(Sort(xs), key) == OfKey(xs, key)
  {
    if xs != [] {
      SortIsStable(xs[1..], key);
      PlaceIsOrdered(xs[0], Sort(xs[1..]));
      PlaceKeeps(xs[0], Sort(xs[1..]), key);
      OfKeyCons(xs[0], Sort(xs[1..]), key);
      assert xs == [xs[0]] + xs[1..];
    }
  }

  /** The items alone. */
  function Items<T>(xs: seq<Keyed<T>>): (items: seq<T>)
    ensures |items| == |xs| && forall i :: 0 <= i < |xs| ==> items[i] == xs[i].item
  {
    if xs == [] then [] else [xs[0].item] + Items(xs[1..])
  }

  lemma {:induction false} PlaceItems<T>(x: Keyed<T>, xs: seq<Keyed<T>>)
    ensures multiset(Items(Place(x, xs))) == multiset([x.item]) + multiset(Items(xs))
  {
    assert ([x] + xs)[1..] == xs;
    if xs != [] && x.key > xs[0].key {
      PlaceItems(x, xs[1..]);
      assert ([xs[0]] + Place(x, xs[1..]))[1..] == Place(x, xs[1..]);
    }
  }

  /** Sorting permutes the items. */
  lemma {:induction false} SortItems<T>(xs: seq<Keyed<T>>)
    ensures multiset(Items(Sort(xs))) == multiset(Items(xs))
  {
    if xs != [] {
      SortItems(xs[1..]);
      PlaceItems(xs[0], Sort(xs[1..]));
    }
  }

  /** Sorting what is already in order changes nothing, so equal keys never move. */
  lemma {:induction false} SortedStays<T>(xs: seq<Keyed<T>>)
    requires Ordered(xs)
    ensures Sort(xs) == xs
  {
    if xs != [] {
      SortedStays(xs[1..]);
      assert xs == [xs[0]] + xs[1..];
    }
  }

  /** Ordered lists with the same items for every key are equal: stability and order leave no freedom. */
  lemma {:induction false} StableOrderIsUnique<T>(xs: seq<Keyed<T>>, ys: seq<Keyed<T>>)
    requires Ordered(xs) && Ordered(ys)
    requires forall key :: OfKey(xs, key) == OfKey(ys, key)
    ensures xs == ys
    decreases |xs| + |ys|
  {
    EmptyTogether(xs, ys);
    if xs != [] {
      FirstKeyIsLeast(xs, ys);
      FirstKeyIsLeast(ys, xs);
      assert xs == [xs[0]] + xs[1..] && ys == [ys[0]] + ys[1..];
      forall key ensures OfKey(xs[1..], key) == OfKey(ys[1..], key) && (key == xs[0].key ==> xs[0].item == ys[0].item) {
        OfKeyCons(xs[0], xs[1..], key);
        OfKeyCons(ys[0], ys[1..], key);
        SameHeadSameTail(xs[0].item, OfKey(xs[1..], key), ys[0].item, OfKey(ys[1..], key), key == xs[0].key);
      }
      assert OfKey(xs[1..], xs[0].key) == OfKey(ys[1..], xs[0].key);
      StableOrderIsUnique(xs[1..], ys[1..]);
      assert xs[0] == ys[0];
    }
  }

  lemma SameHeadSameTail<T>(x: T, xs: seq<T>, y: T, ys: seq<T>, headed: bool)
    requires (if headed then [x] else []) + xs == (if headed then [y] else []) + ys
    ensures xs == ys && (headed ==> x == y)
  {
    if headed {
      assert ([x] + xs)[0] == x && ([y] + ys)[0] == y;
      assert ([x] + xs)[1..] == xs && ([y] + ys)[1..] == ys;
    } else {
      assert [] + xs == xs && [] + ys == ys;
    }
  }

  lemma EmptyTogether<T>(xs: seq<Keyed<T>>, ys: seq<Keyed<T>>)
    requires forall key :: OfKey(xs, key) == OfKey(ys, key)
    ensures xs == [] <==> ys == []
  {
    if xs != [] { assert OfKey(xs, xs[0].key) == OfKey(ys, xs[0].key); }
    if ys != [] { assert OfKey(xs, ys[0].key) == OfKey(ys, ys[0].key); }
  }

  lemma FirstKeyIsLeast<T>(xs: seq<Keyed<T>>, ys: seq<Keyed<T>>)
    requires xs != [] && ys != [] && Ordered(ys)
    requires forall key :: OfKey(xs, key) == OfKey(ys, key)
    ensures ys[0].key <= xs[0].key
  {
    var k := xs[0].key;
    assert OfKey(xs, k) == OfKey(ys, k);
    NoSmallerKey(ys, k);
  }

  lemma {:induction false} NoSmallerKey<T>(ys: seq<Keyed<T>>, key: real)
    requires Ordered(ys) && OfKey(ys, key) != []
    ensures ys != [] && ys[0].key <= key
  {
    if ys[0].key != key {
      NoSmallerKey(ys[1..], key);
    }
  }
}
