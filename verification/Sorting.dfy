/** Stable sorting by a number, as `list.sort(key=...)` does it. */
module Sorting {
  predicate Ascending<T>(s: seq<T>, key: T -> nat) {
    forall i, j :: 0 <= i < j < |s| ==> key(s[i]) <= key(s[j])
  }

  predicate StrictlyAscending<T>(s: seq<T>, key: T -> nat) {
    forall i, j :: 0 <= i < j < |s| ==> key(s[i]) < key(s[j])
  }

  function Insert<T>(s: seq<T>, key: T -> nat, x: T): (r: seq<T>)
    ensures |r| == |s| + 1
  {
    if s == [] || key(s[|s| - 1]) <= key(x) then s + [x]
    else Insert(s[..|s| - 1], key, x) + [s[|s| - 1]]
  }

  function SortBy<T>(s: seq<T>, key: T -> nat): (r: seq<T>)
    ensures |r| == |s|
  {
    if s == [] then [] else Insert(SortBy(s[..|s| - 1], key), key, s[|s| - 1])
  }

  /** How often an element occurs. */
  function Occurs<T(==)>(s: seq<T>, x: T): nat {
    if s == [] then 0 else Occurs(s[..|s| - 1], x) + (if s[|s| - 1] == x then 1 else 0)
  }

  lemma {:induction false} OccursSnoc<T>(s: seq<T>, e: T, x: T)
    ensures Occurs(s + [e], x) == Occurs(s, x) + (if e == x then 1 else 0)
  {
    assert (s + [e])[..|s|] == s;
  }

  lemma {:induction false} OccursAppend<T>(a: seq<T>, b: seq<T>, x: T)
    ensures Occurs(a + b, x) == Occurs(a, x) + Occurs(b, x)
  {
    if b == [] {
      assert a + b == a;
    } else {
      var init, last := b[..|b| - 1], b[|b| - 1];
      OccursAppend(a, init, x);
      OccursSnoc(a + init, last, x);
      assert a + b == a + init + [last];
    }
  }

  lemma {:induction false} OccursAt<T>(s: seq<T>, k: nat)
    requires k < |s|
    ensures Occurs(s, s[k]) >= 1
  {
    if k < |s| - 1 {
      OccursAt(s[..|s| - 1], k);
    }
  }

  lemma {:induction false} OccursWhere<T>(s: seq<T>, x: T) returns (k: nat)
    requires Occurs(s, x) >= 1
    ensures k < |s| && s[k] == x
  {
    if s[|s| - 1] == x {
      k := |s| - 1;
    } else {
      k := OccursWhere(s[..|s| - 1], x);
    }
  }

  lemma {:induction false} InsertOccurs<T>(s: seq<T>, key: T -> nat, e: T, x: T)
    ensures Occurs(Insert(s, key, e), x) == Occurs(s, x) + (if e == x then 1 else 0)
  {
    if s == [] || key(s[|s| - 1]) <= key(e) {
      OccursSnoc(s, e, x);
    } else {
      var init, last := s[..|s| - 1], s[|s| - 1];
      InsertOccurs(init, key, e, x);
      OccursSnoc(Insert(init, key, e), last, x);
    }
  }

  lemma {:induction false} InsertAscending<T>(s: seq<T>, key: T -> nat, e: T, bound: nat)
    requires Ascending(s, key) && key(e) <= bound
    requires forall k :: 0 <= k < |s| ==> key(s[k]) <= bound
    ensures Ascending(Insert(s, key, e), key)
    ensures forall k :: 0 <= k < |s| + 1 ==> key(Insert(s, key, e)[k]) <= bound
  {
    if s != [] && key(s[|s| - 1]) > key(e) {
      InsertAscending(s[..|s| - 1], key, e, key(s[|s| - 1]));
    }
  }

  /** Sorting orders the elements and neither loses nor repeats any. */
  lemma {:induction false} SortMeaning<T>(s: seq<T>, key: T -> nat, x: T)
    ensures Ascending(SortBy(s, key), key) && Occurs(SortBy(s, key), x) == Occurs(s, x)
  {
    if s != [] {
      var init, last := s[..|s| - 1], s[|s| - 1];
      SortMeaning(init, key, x);
      var sorted := SortBy(init, key);
      InsertOccurs(sorted, key, last, x);
      InsertAscending(sorted, key, last, if sorted == [] || key(sorted[|sorted| - 1]) <= key(last) then key(last)
                                         else key(sorted[|sorted| - 1]));
    }
  }

  /** Two lists of the same elements, one ascending and one strictly ascending, end with the same element. */
  lemma {:induction false} SameLast<T>(a: seq<T>, b: seq<T>, key: T -> nat)
    requires Ascending(a, key) && StrictlyAscending(b, key) && a != [] && b != []
    requires forall x :: Occurs(a, x) == Occurs(b, x)
    ensures a[|a| - 1] == b[|b| - 1]
  {
    var y, z := b[|b| - 1], a[|a| - 1];
    OccursAt(a, |a| - 1);
    OccursAt(b, |b| - 1);
    assert Occurs(a, z) == Occurs(b, z) && Occurs(a, y) == Occurs(b, y);
    var j := OccursWhere(b, z);
    var i := OccursWhere(a, y);
    assert key(a[i]) <= key(z) && key(b[j]) <= key(y);
  }

  /** They are the same list. */
  lemma {:induction false} SortedUnique<T>(a: seq<T>, b: seq<T>, key: T -> nat)
    requires Ascending(a, key) && StrictlyAscending(b, key)
    requires forall x :: Occurs(a, x) == Occurs(b, x)
    ensures a == b
  {
    if a != [] && b != [] {
      SameLast(a, b, key);
      var a', b' := a[..|a| - 1], b[..|b| - 1];
      forall x
        ensures Occurs(a', x) == Occurs(b', x)
      {
        assert Occurs(a, x) == Occurs(b, x);
      }
      SortedUnique(a', b', key);
      assert a == a' + [a[|a| - 1]] && b == b' + [b[|b| - 1]];
    } else if a != [] {
      OccursAt(a, 0);
    } else if b != [] {
      OccursAt(b, 0);
    }
  }
}
