/** Sorted sequences without repetition, for any strict order. */
module Sorting {

  predicate Ascending<T>(less: (T, T) -> bool, xs: seq<T>) {
    forall i, j :: 0 <= i < j < |xs| ==> less(xs[i], xs[j])
  }

  /** A strict total order on the elements of a set. */
  ghost predicate Orders<T(!new)>(less: (T, T) -> bool, keys: set<T>) {
    && (forall a, b :: a in keys && b in keys ==> less(a, b) || a == b || less(b, a))
    && (forall a, b :: a in keys && b in keys ==> !(less(a, b) && less(b, a)))
    && (forall a, b, c :: a in keys && b in keys && c in keys && less(a, b) && less(b, c) ==> less(a, c))
  }

  /** A sorted sequence is determined by its elements: it cannot depend on the order in which
      a map or a set was walked. */
  lemma {:induction false} Unique<T(!new)>(less: (T, T) -> bool, xs: seq<T>, ys: seq<T>)
    requires Ascending(less, xs) && Ascending(less, ys)
    requires (forall i :: 0 <= i < |xs| ==> xs[i] in ys) && (forall i :: 0 <= i < |ys| ==> ys[i] in xs)
    requires forall a, b :: a in xs && b in xs ==> !(less(a, b) && less(b, a))
    ensures xs == ys
  {
    assert xs != [] ==> xs[0] in ys;
    assert ys != [] ==> ys[0] in xs;
    if xs != [] {
      assert xs[0] in xs && ys[0] in xs;
      assert xs[0] == ys[0] && !less(xs[0], xs[0]);
      RestIn(less, xs, ys);
      RestIn(less, ys, xs);
      Unique(less, xs[1..], ys[1..]);
    }
  }

  lemma RestIn<T>(less: (T, T) -> bool, xs: seq<T>, ys: seq<T>)
    requires Ascending(less, xs) && xs != [] && ys != [] && xs[0] == ys[0] && !less(xs[0], xs[0])
    requires forall i :: 0 <= i < |xs| ==> xs[i] in ys
    ensures forall i :: 0 <= i < |xs[1..]| ==> xs[1..][i] in ys[1..]
  {
    forall i | 0 <= i < |xs[1..]| ensures xs[1..][i] in ys[1..] {
      assert xs[i + 1] in ys && less(xs[0], xs[i + 1]);
      assert ys == [ys[0]] + ys[1..];
    }
  }

  /** One step of an insertion sort. */
  function Insert<T(!new)>(less: (T, T) -> bool, xs: seq<T>, key: T, ghost keys: set<T>): (r: seq<T>)
    requires Orders(less, keys) && key in keys && key !in xs
    requires Ascending(less, xs) && forall x :: x in xs ==> x in keys
    ensures Ascending(less, r) && |r| == |xs| + 1 && forall x :: x in r <==> x in xs || x == key
  {
    if xs == [] then [key]
    else if less(key, xs[0]) then
      assert forall j :: 0 <= j < |xs| ==> less(key, xs[j]) by {
        forall j | 0 < j < |xs| ensures less(key, xs[j]) { assert xs[0] in xs && xs[j] in xs && less(xs[0], xs[j]); }
      }
      [key] + xs
    else
      assert less(xs[0], key) by { assert xs[0] in xs; }
      var rest := Insert(less, xs[1..], key, keys);
      assert forall j :: 0 <= j < |rest| ==> less(xs[0], rest[j]) by {
        forall j | 0 <= j < |rest| ensures less(xs[0], rest[j]) { assert rest[j] in rest; }
      }
      [xs[0]] + rest
  }
}
