/** Optional values, results that carry an error, and sums over the rows of a table. */
module Prelude {

  datatype Option<+T> = None | Some(value: T)

  datatype Result<+T, +E> = Ok(value: T) | Err(error: E) {
    predicate IsFailure() {
      Err?
    }

    function PropagateFailure<U>(): Result<U, E>
      requires Err?
    {
      Err(error)
    }

    function Extract(): T
      requires Ok?
    {
      value
    }
  }

  /** Rewrites every row. */
  function Mapped<T, U>(rows: seq<T>, f: T -> U): (r: seq<U>)
    ensures |r| == |rows| && forall i :: 0 <= i < |r| ==> r[i] == f(rows[i])
  {
    seq(|rows|, i requires 0 <= i < |rows| => f(rows[i]))
  }

  /** The sum of f over all rows; every stock, coupon and money total of the model is one of these. */
  function Sum<T>(rows: seq<T>, f: T -> int): int {
    if rows == [] then 0 else Sum(rows[..|rows| - 1], f) + f(rows[|rows| - 1])
  }

  lemma SumLast<T>(rows: seq<T>, f: T -> int)
    requires rows != []
    ensures Sum(rows, f) == Sum(rows[..|rows| - 1], f) + f(rows[|rows| - 1])
  {
  }

  lemma {:induction false} SumConcat<T>(a: seq<T>, b: seq<T>, f: T -> int)
    ensures Sum(a + b, f) == Sum(a, f) + Sum(b, f)
  {
    if b == [] {
      assert a + b == a;
    } else {
      SumConcat(a, b[..|b| - 1], f);
      assert (a + b)[..|a + b| - 1] == a + b[..|b| - 1];
    }
  }

  lemma {:induction false} SumSplit<T>(rows: seq<T>, f: T -> int, g: T -> int, h: T -> int)
    requires forall x :: x in rows ==> f(x) == g(x) + h(x)
    ensures Sum(rows, f) == Sum(rows, g) + Sum(rows, h)
  {
    if rows == [] {
    } else {
      SumSplit(rows[..|rows| - 1], f, g, h);
    }
  }

  lemma {:induction false} SumSame<T>(rows: seq<T>, f: T -> int, g: T -> int)
    requires forall x :: x in rows ==> f(x) == g(x)
    ensures Sum(rows, f) == Sum(rows, g)
  {
    if rows == [] {
    } else {
      SumSame(rows[..|rows| - 1], f, g);
    }
  }

  lemma {:induction false} SumIndexwise<T, U>(a: seq<T>, b: seq<U>, f: T -> int, g: U -> int)
    requires |a| == |b| && forall i :: 0 <= i < |a| ==> f(a[i]) == g(b[i])
    ensures Sum(a, f) == Sum(b, g)
  {
    if a == [] {
    } else {
      SumIndexwise(a[..|a| - 1], b[..|b| - 1], f, g);
    }
  }

  lemma {:induction false} SumAtMost<T>(rows: seq<T>, f: T -> int, g: T -> int)
    requires forall x :: x in rows ==> f(x) <= g(x)
    ensures Sum(rows, f) <= Sum(rows, g)
  {
    if rows == [] {
    } else {
      SumAtMost(rows[..|rows| - 1], f, g);
    }
  }

  lemma {:induction false} SumZero<T>(rows: seq<T>, f: T -> int)
    requires forall x :: x in rows ==> f(x) == 0
    ensures Sum(rows, f) == 0
  {
    if rows == [] {
    } else {
      SumZero(rows[..|rows| - 1], f);
    }
  }

  /** A sum of non-negative terms is at least each of its terms, and non-negative. */
  lemma {:induction false} SumCovers<T>(rows: seq<T>, f: T -> int)
    requires forall x :: x in rows ==> f(x) >= 0
    ensures Sum(rows, f) >= 0
    ensures forall x :: x in rows ==> f(x) <= Sum(rows, f)
  {
    if rows == [] {
    } else {
      SumCovers(rows[..|rows| - 1], f);
      assert rows == rows[..|rows| - 1] + [rows[|rows| - 1]];
    }
  }

  lemma {:induction false} SumMapped<T, U>(rows: seq<T>, m: T -> U, f: U -> int, g: T -> int)
    requires forall x :: x in rows ==> f(m(x)) == g(x)
    ensures Sum(Mapped(rows, m), f) == Sum(rows, g)
  {
    if rows == [] {
    } else {
      SumMapped(rows[..|rows| - 1], m, f, g);
      assert Mapped(rows, m)[..|rows| - 1] == Mapped(rows[..|rows| - 1], m);
    }
  }

  /** The same rows without the one at position i. */
  function Without<T>(rows: seq<T>, i: nat): seq<T>
    requires i < |rows|
  {
    rows[..i] + rows[i + 1..]
  }

  lemma WithoutMultiset<T>(rows: seq<T>, i: nat)
    requires i < |rows|
    ensures multiset(rows) == multiset(Without(rows, i)) + multiset{rows[i]}
  {
    assert rows == rows[..i] + [rows[i]] + rows[i + 1..];
  }

  lemma LastRemoved<T>(rows: seq<T>)
    requires rows != []
    ensures multiset(rows[..|rows| - 1]) == multiset(rows) - multiset{rows[|rows| - 1]}
  {
    assert rows == rows[..|rows| - 1] + [rows[|rows| - 1]];
  }

  lemma SameEnds<T>(a: seq<T>, b: seq<T>)
    requires a != [] && b != []
    requires a[..|a| - 1] == b[..|b| - 1] && a[|a| - 1] == b[|b| - 1]
    ensures a == b
  {
    assert a == a[..|a| - 1] + [a[|a| - 1]];
    assert b == b[..|b| - 1] + [b[|b| - 1]];
  }

  /** Taking the same row off both sides. */
  lemma RemovedAlike<T>(a: seq<T>, b: seq<T>, i: nat)
    requires a != [] && i < |b| && b[i] == a[|a| - 1]
    requires multiset(a) == multiset(b)
    ensures multiset(a[..|a| - 1]) == multiset(Without(b, i))
  {
    LastRemoved(a);
    WithoutMultiset(b, i);
    assert multiset(Without(b, i)) == multiset(b) - multiset{b[i]};
  }

  lemma SumSingle<T>(x: T, f: T -> int)
    ensures Sum([x], f) == f(x)
  {
    assert [x][..0] == [];
  }

  /** Rewriting permuted rows gives permuted results. */
  lemma {:induction false} MappedPermuted<T, U>(a: seq<T>, b: seq<T>, f: T -> U)
    requires multiset(a) == multiset(b)
    ensures multiset(Mapped(a, f)) == multiset(Mapped(b, f))
    decreases |a|
  {
    if a == [] {
      assert |multiset(b)| == 0;
    } else {
      var x := a[|a| - 1];
      assert x in multiset(b);
      var i: nat :| i < |b| && b[i] == x;
      RemovedAlike(a, b, i);
      MappedPermuted(a[..|a| - 1], Without(b, i), f);
      MappedWithout(a, |a| - 1, f);
      assert Without(a, |a| - 1) == a[..|a| - 1];
      MappedWithout(b, i, f);
    }
  }

  lemma MappedWithout<T, U>(rows: seq<T>, i: nat, f: T -> U)
    requires i < |rows|
    ensures multiset(Mapped(rows, f)) == multiset(Mapped(Without(rows, i), f)) + multiset{f(rows[i])}
  {
    WithoutMultiset(Mapped(rows, f), i);
    assert Without(Mapped(rows, f), i) == Mapped(Without(rows, i), f);
  }

  lemma SumWithout<T>(rows: seq<T>, i: nat, f: T -> int)
    requires i < |rows|
    ensures Sum(rows, f) == Sum(Without(rows, i), f) + f(rows[i])
  {
    hide Sum;
    var front, x, back := rows[..i], rows[i], rows[i + 1..];
    SumConcat(front, back, f);
    SumConcat(front, [x], f);
    SumConcat(front + [x], back, f);
    SumSingle(x, f);
    assert rows == front + [x] + back;
  }

  /** A sum does not depend on the order of the rows. */
  lemma {:induction false} SumPermutation<T>(a: seq<T>, b: seq<T>, f: T -> int)
    requires multiset(a) == multiset(b)
    ensures Sum(a, f) == Sum(b, f)
    decreases |a|
  {
    if a == [] {
      assert |multiset(b)| == 0;
    } else {
      var x := a[|a| - 1];
      assert x in multiset(b);
      var i: nat :| i < |b| && b[i] == x;
      RemovedAlike(a, b, i);
      SumPermutation(a[..|a| - 1], Without(b, i), f);
      SumWithout(b, i, f);
    }
  }
}
