/**
 Sorting a list by a total order and dropping its duplicates, which is how the graph holds its edges
 and how a query's rows become canonical: the result depends on which rows there are and nothing else.
 */
module SortDedup {

  ghost predicate StrictOrder<T(!new)>(less: (T, T) -> bool) {
    && (forall a :: !less(a, a))
    && (forall a, b, c {:trigger less(a, b), less(b, c)} :: less(a, b) && less(b, c) ==> less(a, c))
    && (forall a, b {:trigger less(a, b)} :: a == b || less(a, b) || less(b, a))
  }

  function Insert<T>(less: (T, T) -> bool, rows: seq<T>, x: T): seq<T>
    decreases |rows|
  {
    if rows == [] || !less(x, rows[|rows| - 1]) then rows + [x]
    else Insert(less, rows[..|rows| - 1], x) + [rows[|rows| - 1]]
  }

  function Sort<T>(less: (T, T) -> bool, rows: seq<T>): seq<T>
    decreases |rows|
  {
    if rows == [] then [] else Insert(less, Sort(less, rows[..|rows| - 1]), rows[|rows| - 1])
  }

  /** Drops every row equal to the one kept before it. */
  function Dedup<T(==)>(rows: seq<T>): seq<T> {
    if rows == [] then [] else
    var rest, x := Dedup(rows[..|rows| - 1]), rows[|rows| - 1];
    if rest != [] && rest[|rest| - 1] == x then rest else rest + [x]
  }

  function Canonical<T(==)>(less: (T, T) -> bool, rows: seq<T>): seq<T> {
    Dedup(Sort(less, rows))
  }

  ghost predicate Weak<T(!new)>(less: (T, T) -> bool, rows: seq<T>) {
    forall i, j :: 0 <= i < j < |rows| ==> !less(rows[j], rows[i])
  }

  /** Strictly ascending: sorted, and no row twice. */
  ghost predicate Strict<T(!new)>(less: (T, T) -> bool, rows: seq<T>) {
    forall i, j :: 0 <= i < j < |rows| ==> less(rows[i], rows[j])
  }

  ghost predicate Alike<T(!new)>(a: seq<T>, b: seq<T>) {
    forall x :: x in a <==> x in b
  }

  lemma LastApart<T>(rows: seq<T>, x: T)
    requires rows != []
    ensures x in rows <==> x in rows[..|rows| - 1] || x == rows[|rows| - 1]
  {
    assert rows == rows[..|rows| - 1] + [rows[|rows| - 1]];
  }

  lemma {:induction false} InsertMembers<T>(less: (T, T) -> bool, rows: seq<T>, x: T, y: T)
    ensures y in Insert(less, rows, x) <==> y in rows || y == x
    decreases |rows|
  {
    if rows != [] {
      LastApart(rows, y);
      InsertMembers(less, rows[..|rows| - 1], x, y);
    }
  }

  lemma PushWeak<T(!new)>(less: (T, T) -> bool, rows: seq<T>, x: T)
    requires Weak(less, rows) && forall y :: y in rows ==> !less(x, y)
    ensures Weak(less, rows + [x])
  {
    forall i, j | 0 <= i < j < |rows| + 1 ensures !less((rows + [x])[j], (rows + [x])[i]) {
      assert rows[i] in rows;
    }
  }

  lemma {:induction false} InsertWeak<T(!new)>(less: (T, T) -> bool, rows: seq<T>, x: T)
    requires StrictOrder(less) && Weak(less, rows)
    ensures Weak(less, Insert(less, rows, x))
    decreases |rows|
  {
    if rows != [] && less(x, rows[|rows| - 1]) {
      var rest, last := rows[..|rows| - 1], rows[|rows| - 1];
      InsertWeak(less, rest, x);
      forall y | y in Insert(less, rest, x) ensures !less(last, y) {
        InsertMembers(less, rest, x, y);
        if y in rest { assert exists i :: 0 <= i < |rest| && rest[i] == y; }
      }
      PushWeak(less, Insert(less, rest, x), last);
    } else {
      forall y | y in rows ensures !less(x, y) { NotAbove(less, rows, x, y); }
      PushWeak(less, rows, x);
    }
  }

  lemma NotAbove<T(!new)>(less: (T, T) -> bool, rows: seq<T>, x: T, y: T)
    requires StrictOrder(less) && Weak(less, rows) && y in rows && !less(x, rows[|rows| - 1])
    ensures !less(x, y)
  {
    var i :| 0 <= i < |rows| && rows[i] == y;
    if i < |rows| - 1 { assert !less(rows[|rows| - 1], rows[i]); }
  }

  lemma {:induction false} SortMembers<T>(less: (T, T) -> bool, rows: seq<T>, y: T)
    ensures y in Sort(less, rows) <==> y in rows
    decreases |rows|
  {
    if rows != [] {
      LastApart(rows, y);
      SortMembers(less, rows[..|rows| - 1], y);
      InsertMembers(less, Sort(less, rows[..|rows| - 1]), rows[|rows| - 1], y);
    }
  }

  lemma {:induction false} SortWeak<T(!new)>(less: (T, T) -> bool, rows: seq<T>)
    requires StrictOrder(less)
    ensures Weak(less, Sort(less, rows))
    decreases |rows|
  {
    if rows != [] {
      SortWeak(less, rows[..|rows| - 1]);
      InsertWeak(less, Sort(less, rows[..|rows| - 1]), rows[|rows| - 1]);
    }
  }

  lemma {:induction false} DedupMembers<T>(rows: seq<T>, y: T)
    ensures y in Dedup(rows) <==> y in rows
    ensures rows != [] ==> Dedup(rows) != [] && Dedup(rows)[|Dedup(rows)| - 1] == rows[|rows| - 1]
  {
    if rows != [] {
      LastApart(rows, y);
      DedupMembers(rows[..|rows| - 1], y);
    }
  }

  lemma PushStrict<T(!new)>(less: (T, T) -> bool, rows: seq<T>, x: T)
    requires StrictOrder(less) && Strict(less, rows) && (rows != [] ==> less(rows[|rows| - 1], x))
    ensures Strict(less, rows + [x])
  {
    forall i | 0 <= i < |rows| ensures less(rows[i], x) {
      if i < |rows| - 1 { assert less(rows[i], rows[|rows| - 1]); }
    }
  }

  lemma {:induction false} DedupStrict<T(!new)>(less: (T, T) -> bool, rows: seq<T>)
    requires StrictOrder(less) && Weak(less, rows)
    ensures Strict(less, Dedup(rows))
    decreases |rows|
  {
    if rows != [] {
      var rest, x := Dedup(rows[..|rows| - 1]), rows[|rows| - 1];
      DedupStrict(less, rows[..|rows| - 1]);
      if rest != [] && rest[|rest| - 1] != x {
        DedupMembers(rows[..|rows| - 1], rest[|rest| - 1]);
        var i :| 0 <= i < |rows| - 1 && rows[i] == rest[|rest| - 1];
        assert !less(rows[|rows| - 1], rows[i]);
        PushStrict(less, rest, x);
      }
    }
  }

  /** Sorting and dropping duplicates leaves the same rows, strictly ascending. */
  lemma CanonicalHolds<T(!new)>(less: (T, T) -> bool, rows: seq<T>)
    requires StrictOrder(less)
    ensures Strict(less, Canonical(less, rows)) && Alike(Canonical(less, rows), rows)
  {
    SortWeak(less, rows);
    DedupStrict(less, Sort(less, rows));
    forall y ensures y in Canonical(less, rows) <==> y in rows {
      SortMembers(less, rows, y);
      DedupMembers(Sort(less, rows), y);
    }
  }

  lemma LastAbove<T(!new)>(less: (T, T) -> bool, rows: seq<T>, i: nat)
    requires Strict(less, rows) && i < |rows|
    ensures i == |rows| - 1 || less(rows[i], rows[|rows| - 1])
  {
  }

  lemma LastOfBoth<T(!new)>(less: (T, T) -> bool, a: seq<T>, b: seq<T>)
    requires StrictOrder(less) && Strict(less, a) && Strict(less, b) && Alike(a, b) && a != []
    ensures b != [] && a[|a| - 1] == b[|b| - 1]
  {
    assert a[|a| - 1] in b;
    assert b[|b| - 1] in a;
    var i :| 0 <= i < |b| && b[i] == a[|a| - 1];
    var j :| 0 <= j < |a| && a[j] == b[|b| - 1];
    LastAbove(less, b, i);
    LastAbove(less, a, j);
  }

  lemma FrontOnly<T(!new)>(less: (T, T) -> bool, a: seq<T>, x: T)
    requires StrictOrder(less) && Strict(less, a) && a != []
    ensures x in a[..|a| - 1] <==> x in a && x != a[|a| - 1]
  {
    LastApart(a, x);
    if x in a[..|a| - 1] {
      var i :| 0 <= i < |a| - 1 && a[i] == x;
      assert less(a[i], a[|a| - 1]);
    }
  }

  lemma FrontsAlike<T(!new)>(less: (T, T) -> bool, a: seq<T>, b: seq<T>, front: seq<T>, other: seq<T>)
    requires StrictOrder(less) && Strict(less, a) && Strict(less, b) && Alike(a, b) && a != [] && b != []
    requires a[|a| - 1] == b[|b| - 1] && front == a[..|a| - 1] && other == b[..|b| - 1]
    ensures Alike(front, other)
  {
    forall x ensures x in front <==> x in other {
      FrontOnly(less, a, x);
      FrontOnly(less, b, x);
    }
  }

  lemma EmptyAlike<T(!new)>(a: seq<T>, b: seq<T>)
    requires Alike(a, b)
    ensures a == [] <==> b == []
  {
    if b != [] { assert b[0] in b; }
    if a != [] { assert a[0] in a; }
  }

  /** Strictly ascending lists of the same rows are equal. */
  lemma {:induction false} StrictOnce<T(!new)>(less: (T, T) -> bool, a: seq<T>, b: seq<T>)
    requires StrictOrder(less) && Strict(less, a) && Strict(less, b) && Alike(a, b)
    ensures a == b
    decreases |a|
  {
    EmptyAlike(a, b);
    if a != [] {
      LastOfBoth(less, a, b);
      FrontsAlike(less, a, b, a[..|a| - 1], b[..|b| - 1]);
      StrictOnce(less, a[..|a| - 1], b[..|b| - 1]);
      assert a == a[..|a| - 1] + [a[|a| - 1]] && b == b[..|b| - 1] + [b[|b| - 1]];
    }
  }

  /** The canonical rows of two lists are equal exactly when the lists hold the same rows. */
  lemma CanonicalBySet<T(!new)>(less: (T, T) -> bool, a: seq<T>, b: seq<T>)
    requires StrictOrder(less)
    ensures Canonical(less, a) == Canonical(less, b) <==> Alike(a, b)
  {
    CanonicalHolds(less, a);
    CanonicalHolds(less, b);
    hide Canonical, Strict;
    if Alike(a, b) {
      assert Alike(Canonical(less, a), Canonical(less, b));
      StrictOnce(less, Canonical(less, a), Canonical(less, b));
    }
  }

  ghost predicate IsLeast<T(!new)>(less: (T, T) -> bool, s: set<T>, x: T) {
    x in s && forall y :: y in s ==> y == x || less(x, y)
  }

  lemma LeastExists<T(!new)>(less: (T, T) -> bool, s: set<T>)
    requires StrictOrder(less) && s != {}
    ensures exists x :: IsLeast(less, s, x)
  {
    var x :| x in s;
    if s == {x} {
      assert IsLeast(less, s, x);
    } else {
      LeastExists(less, s - {x});
      var y :| IsLeast(less, s - {x}, y);
      LeastOfTwo(less, s, x, y);
    }
  }

  lemma LeastOfTwo<T(!new)>(less: (T, T) -> bool, s: set<T>, x: T, y: T)
    requires StrictOrder(less) && x in s && IsLeast(less, s - {x}, y)
    ensures IsLeast(less, s, x) || IsLeast(less, s, y)
  {
    forall z | z in s && z != x ensures z == y || less(y, z) { assert z in s - {x}; }
  }

  function LeastOf<T(!new, ==)>(less: (T, T) -> bool, s: set<T>): (x: T)
    requires StrictOrder(less) && s != {}
    ensures IsLeast(less, s, x)
  {
    LeastExists(less, s);
    var x :| x in s && forall y :: y in s ==> y == x || less(x, y);
    x
  }

  /** A set's elements in order, as an ordered view lists them. */
  function Ordered<T(!new, ==)>(less: (T, T) -> bool, s: set<T>): (list: seq<T>)
    requires StrictOrder(less)
    ensures Strict(less, list)
    ensures forall x :: x in list <==> x in s
    ensures |list| == |s|
    decreases |s|
  {
    if s == {} then [] else
    var x := LeastOf(less, s);
    var rest := Ordered(less, s - {x});
    assert forall i :: 0 <= i < |rest| ==> rest[i] in s - {x};
    [x] + rest
  }
}
