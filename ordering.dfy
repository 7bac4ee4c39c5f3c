/**
 * Strict total orders and the ascending enumeration of a finite set.
 *
 * The canonical JSON text lists object keys in ascending byte order, and a
 * directory listing is read back in ascending name order; both need a way to
 * turn a set into the one strictly ascending sequence of its elements.
 */
module Ordering {

  /** `lt` is a strict total order: irreflexive, transitive and trichotomous. */
  ghost predicate StrictTotalOrder<T(!new)>(lt: (T, T) -> bool)
  {
    && (forall a :: !lt(a, a))
    && (forall a, b, c :: lt(a, b) && lt(b, c) ==> lt(a, c))
    && (forall a, b :: a != b ==> lt(a, b) || lt(b, a))
  }

  /** Every element of `xs` is strictly below the next one. */
  ghost predicate StrictlyAscending<T(!new)>(xs: seq<T>, lt: (T, T) -> bool)
  {
    forall i, j :: 0 <= i < j < |xs| ==> lt(xs[i], xs[j])
  }

  /** A finite non-empty set has an element below all the others. */
  lemma {:induction false} LeastExists<T(!new)>(s: set<T>, lt: (T, T) -> bool)
    requires StrictTotalOrder(lt)
    requires s != {}
    ensures exists k :: k in s && forall j :: j in s && j != k ==> lt(k, j)
  {
    var x :| x in s;
    if s - {x} == {} {
      assert s == {x};
    } else {
      LeastExists(s - {x}, lt);
      var k :| k in s - {x} && forall j :: j in s - {x} && j != k ==> lt(k, j);
      if lt(k, x) {
        forall j | j in s && j != k ensures lt(k, j) {
          if j != x { assert j in s - {x}; }
        }
      } else {
        forall j | j in s && j != x ensures lt(x, j) {
          if j != k { assert j in s - {x} && lt(k, j); }
        }
      }
    }
  }

  /** The least element of a non-empty set. */
  function Least<T(==,!new)>(s: set<T>, lt: (T, T) -> bool): (k: T)
    requires StrictTotalOrder(lt)
    requires s != {}
    ensures k in s
    ensures forall j :: j in s && j != k ==> lt(k, j)
  {
    LeastExists(s, lt);
    var k :| k in s && forall j :: j in s && j != k ==> lt(k, j);
    k
  }

  /** The elements of `s` in strictly ascending order. */
  function Sorted<T(==,!new)>(s: set<T>, lt: (T, T) -> bool): (r: seq<T>)
    requires StrictTotalOrder(lt)
    ensures |r| == |s|
    ensures forall x :: x in r <==> x in s
    ensures StrictlyAscending(r, lt)
    decreases s
  {
    if s == {} then []
    else
      var k := Least(s, lt);
      [k] + Sorted(s - {k}, lt)
  }

  /** Two strictly ascending sequences with the same elements are equal. */
  lemma {:induction false} AscendingUnique<T(!new)>(xs: seq<T>, ys: seq<T>, lt: (T, T) -> bool)
    requires StrictTotalOrder(lt)
    requires StrictlyAscending(xs, lt) && StrictlyAscending(ys, lt)
    requires forall x :: x in xs <==> x in ys
    ensures xs == ys
    decreases |xs|
  {
    if xs == [] {
      assert forall i :: 0 <= i < |ys| ==> ys[i] in xs;
    } else {
      assert xs[0] in ys && ys[0] in xs;
      assert xs[0] == ys[0];
      forall x ensures x in xs[1..] <==> x in ys[1..] {
        if x in xs[1..] {
          var i :| 0 <= i < |xs[1..]| && xs[1..][i] == x;
          assert lt(xs[0], xs[i + 1]);
          assert x in ys;
        }
        if x in ys[1..] {
          var i :| 0 <= i < |ys[1..]| && ys[1..][i] == x;
          assert lt(ys[0], ys[i + 1]);
          assert x in xs;
        }
      }
      AscendingUnique(xs[1..], ys[1..], lt);
    }
  }

  /** A strictly ascending sequence holds no element twice. */
  lemma AscendingDistinct<T(!new)>(xs: seq<T>, lt: (T, T) -> bool, i: nat, j: nat)
    requires StrictTotalOrder(lt)
    requires StrictlyAscending(xs, lt)
    requires i < |xs| && j < |xs| && i != j
    ensures xs[i] != xs[j]
  {
    if i < j {
      assert lt(xs[i], xs[j]);
    } else {
      assert lt(xs[j], xs[i]);
    }
  }

  /** In a strictly ascending sequence an element has one position. */
  lemma AscendingIndex<T(!new)>(xs: seq<T>, lt: (T, T) -> bool, i: nat, j: nat)
    requires StrictTotalOrder(lt)
    requires StrictlyAscending(xs, lt)
    requires i < |xs| && j < |xs| && xs[i] == xs[j]
    ensures i == j
  {
  }

  /** A strictly ascending sequence is the sorted enumeration of its own elements. */
  lemma SortedOfAscending<T(!new)>(xs: seq<T>, lt: (T, T) -> bool)
    requires StrictTotalOrder(lt)
    requires StrictlyAscending(xs, lt)
    ensures Sorted((set x | x in xs), lt) == xs
  {
    AscendingUnique(Sorted((set x | x in xs), lt), xs, lt);
  }

  /**
   * Byte order on strings, the order Go's sort.Strings uses: the first
   * differing character decides, and a proper prefix comes first. Comparing
   * Unicode code points gives the same order as comparing UTF-8 bytes.
   */
  predicate StringLt(a: string, b: string)
  {
    if |a| == 0 then |b| > 0
    else |b| > 0 && (a[0] < b[0] || (a[0] == b[0] && StringLt(a[1..], b[1..])))
  }

  lemma {:induction false} StringLtIrreflexive(a: string)
    ensures !StringLt(a, a)
  {
    if |a| > 0 { StringLtIrreflexive(a[1..]); }
  }

  lemma {:induction false} StringLtTransitive(a: string, b: string, c: string)
    requires StringLt(a, b) && StringLt(b, c)
    ensures StringLt(a, c)
  {
    if |a| > 0 && a[0] == b[0] && b[0] == c[0] {
      StringLtTransitive(a[1..], b[1..], c[1..]);
    }
  }

  lemma {:induction false} StringLtTrichotomous(a: string, b: string)
    requires a != b
    ensures StringLt(a, b) || StringLt(b, a)
  {
    if |a| > 0 && |b| > 0 && a[0] == b[0] {
      assert a == [a[0]] + a[1..] && b == [b[0]] + b[1..];
      StringLtTrichotomous(a[1..], b[1..]);
    }
  }

  /** Byte order is a strict total order, so `Sorted` may enumerate sets of strings with it. */
  lemma StringLtIsStrictTotalOrder()
    ensures StrictTotalOrder(StringLt)
  {
    forall a ensures !StringLt(a, a) { StringLtIrreflexive(a); }
    forall a, b, c | StringLt(a, b) && StringLt(b, c) ensures StringLt(a, c) {
      StringLtTransitive(a, b, c);
    }
    forall a, b | a != b ensures StringLt(a, b) || StringLt(b, a) {
      StringLtTrichotomous(a, b);
    }
  }
}
