/**
 `ORDER BY due LIMIT n`: the first rows of a set, earliest first; ties come in any order.
 */
module Ranking {
  predicate Earliest<T(!new)>(due: T -> nat, x: T, rows: set<T>) {
    x in rows && forall y :: y in rows ==> due(x) <= due(y)
  }

  lemma {:induction false} SomeIsEarliest<T(!new)>(due: T -> nat, rows: set<T>)
    requires rows != {}
    ensures exists x :: x in rows && Earliest(due, x, rows)
  {
    var x :| x in rows;
    if rows == {x} {
      assert Earliest(due, x, rows);
    } else {
      var rest := rows - {x};
      SomeIsEarliest(due, rest);
      var y :| y in rest && Earliest(due, y, rest);
      assert Earliest(due, if due(x) <= due(y) then x else y, rows);
    }
  }

  // Distinct, and earliest first.
  predicate Ranked<T(==)>(due: T -> nat, xs: seq<T>) {
    forall i, j :: 0 <= i < j < |xs| ==> xs[i] != xs[j] && due(xs[i]) <= due(xs[j])
  }

  // Nothing in `rest` is among `xs`, or should have been.
  predicate Ahead<T(!new)>(due: T -> nat, xs: seq<T>, rest: set<T>) {
    forall x, y :: x in xs && y in rest ==> x != y && due(x) <= due(y)
  }

  function Batch<T>(xs: seq<T>): set<T> {
    set x | x in xs
  }

  // The first `limit` of `rows`.
  ghost predicate FirstOf<T(!new)>(due: T -> nat, xs: seq<T>, rows: set<T>, limit: nat) {
    && Ranked(due, xs) && Batch(xs) <= rows && Ahead(due, xs, rows - Batch(xs))
    && |xs| == if |rows| < limit then |rows| else limit
  }

  lemma AppendEarliest<T(!new)>(due: T -> nat, xs: seq<T>, rest: set<T>, x: T)
    requires Ranked(due, xs) && Ahead(due, xs, rest) && Earliest(due, x, rest)
    ensures Ranked(due, xs + [x]) && Ahead(due, xs + [x], rest - {x})
    ensures Batch(xs + [x]) == Batch(xs) + {x}
  {
  }

  // Taking one row out of the rest and into the batch.
  lemma TakesOne<T>(rows: set<T>, xs: seq<T>, rest: set<T>, x: T)
    requires rows == Batch(xs) + rest && x in rest
    ensures Batch(xs + [x]) == Batch(xs) + {x}
    ensures rows == Batch(xs + [x]) + (rest - {x}) && |rest - {x}| == |rest| - 1
  {
    assert rest == (rest - {x}) + {x};
  }

  method TakeEarliest<T(!new, ==)>(due: T -> nat, rows: set<T>, limit: nat) returns (xs: seq<T>)
    ensures FirstOf(due, xs, rows, limit)
  {
    xs := [];
    var rest := rows;
    while |xs| < limit && rest != {}
      invariant |xs| <= limit && |xs| + |rest| == |rows|
      invariant Ranked(due, xs) && Ahead(due, xs, rest)
      invariant rows == Batch(xs) + rest
      decreases |rest|
    {
      SomeIsEarliest(due, rest);
      var x :| x in rest && Earliest(due, x, rest);
      AppendEarliest(due, xs, rest, x);
      TakesOne(rows, xs, rest, x);
      xs, rest := xs + [x], rest - {x};
    }
    assert rows - Batch(xs) <= rest;
  }

  lemma {:induction false} DistinctBatch<T>(xs: seq<T>)
    requires forall i, j :: 0 <= i < j < |xs| ==> xs[i] != xs[j]
    ensures |Batch(xs)| == |xs|
  {
    if |xs| > 0 {
      var rest := xs[..|xs| - 1];
      DistinctBatch(rest);
      assert Batch(xs) == Batch(rest) + {xs[|xs| - 1]};
    }
  }

  lemma NoMore<T>(a: set<T>, b: set<T>)
    requires a <= b
    ensures |a| <= |b|
  {
    assert b == a + (b - a);
  }
}
