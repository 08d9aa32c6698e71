/**
 Splitting an amount of money between people by largest remainders.  BigInt division truncates
 toward zero, so quotients and remainders of negative totals are written out.
 */
module Allocate {
  import opened Scripts

  datatype AllocateError = Nobody | NegativeTotal | NegativeWeight
  datatype Shares = Split(shares: seq<int>) | Refuse(error: AllocateError)

  function Quotient(a: int, b: nat): int
    requires b > 0
  {
    if a >= 0 then a / b else -(-a / b)
  }

  function Remainder(a: int, b: nat): (r: int)
    requires b > 0
    ensures a == Quotient(a, b) * b + r
    ensures if a >= 0 then 0 <= r < b else 0 - b < r <= 0
  {
    a - Quotient(a, b) * b
  }

  function AllocateEvenly(total: int, count: int): Shares {
    if count <= 0 then Refuse(Nobody)
    else if total < 0 then Refuse(NegativeTotal)
    else Split(seq(count, i requires 0 <= i < count => if i < total % count then total / count + 1 else total / count))
  }

  // ---------------------------------------------------------------- sums

  lemma {:induction false} SumOfEqual(xs: seq<int>, x: int)
    requires forall i :: 0 <= i < |xs| ==> xs[i] == x
    ensures Sum(xs) == |xs| * x
  {
    if |xs| > 0 { SumOfEqual(xs[..|xs| - 1], x); }
  }

  lemma {:induction false} SumAppends(xs: seq<int>, ys: seq<int>)
    ensures Sum(xs + ys) == Sum(xs) + Sum(ys)
  {
    if |ys| == 0 {
      assert xs + ys == xs;
    } else {
      assert (xs + ys)[..|xs + ys| - 1] == xs + ys[..|ys| - 1];
      SumAppends(xs, ys[..|ys| - 1]);
    }
  }

  lemma SumUpdates(xs: seq<int>, i: nat, x: int)
    requires i < |xs|
    ensures Sum(xs[i := x]) == Sum(xs) - xs[i] + x
  {
    var ys := xs[i := x];
    assert xs == xs[..i] + [xs[i]] + xs[i + 1..];
    assert ys == xs[..i] + [x] + xs[i + 1..];
    SumAppends(xs[..i] + [xs[i]], xs[i + 1..]);
    SumAppends(xs[..i] + [x], xs[i + 1..]);
    SumAppends(xs[..i], [xs[i]]);
    SumAppends(xs[..i], [x]);
  }

  lemma {:induction false} SumIsMonotone(xs: seq<int>, ys: seq<int>)
    requires |xs| == |ys| && forall i :: 0 <= i < |xs| ==> xs[i] <= ys[i]
    ensures Sum(xs) <= Sum(ys)
    ensures Sum(xs) == Sum(ys) ==> xs == ys
  {
    if |xs| > 0 {
      SumIsMonotone(xs[..|xs| - 1], ys[..|ys| - 1]);
      assert xs == xs[..|xs| - 1] + [xs[|xs| - 1]] && ys == ys[..|ys| - 1] + [ys[|ys| - 1]];
    }
  }

  // ---------------------------------------------------------------- even splits

  // Nobody loses or gains a poisha, and the shares fall from first to last by at most one.
  lemma EvenSplitIsExact(total: int, count: int)
    requires count > 0 && total >= 0
    ensures var shares := AllocateEvenly(total, count).shares;
            Sum(shares) == total && |shares| == count
            && forall i, j :: 0 <= i < j < count ==> 0 <= shares[j] <= shares[i] <= shares[j] + 1
  {
    StepSum(total / count, total % count, AllocateEvenly(total, count).shares);
  }

  lemma StepSum(base: int, extra: nat, shares: seq<int>)
    requires extra <= |shares|
    requires forall i :: 0 <= i < |shares| ==> shares[i] == if i < extra then base + 1 else base
    ensures Sum(shares) == |shares| * base + extra
  {
    assert shares == shares[..extra] + shares[extra..];
    SumAppends(shares[..extra], shares[extra..]);
    SumOfEqual(shares[..extra], base + 1);
    SumOfEqual(shares[extra..], base);
    SpreadOut(base, extra, |shares|);
  }

  lemma SpreadOut(base: int, extra: int, count: int)
    ensures extra * (base + 1) + (count - extra) * base == count * base + extra
  {
  }

  // ---------------------------------------------------------------- weighted splits

  function Scaled(total: int, weights: seq<int>): (xs: seq<int>)
    ensures |xs| == |weights|
  {
    seq(|weights|, i requires 0 <= i < |weights| => total * weights[i])
  }

  function Quotients(total: int, weights: seq<int>): (xs: seq<int>)
    requires Sum(weights) > 0
    ensures |xs| == |weights|
  {
    seq(|weights|, i requires 0 <= i < |weights| => Quotient(total * weights[i], Sum(weights)))
  }

  function Remainders(total: int, weights: seq<int>): (xs: seq<int>)
    requires Sum(weights) > 0
    ensures |xs| == |weights|
  {
    seq(|weights|, i requires 0 <= i < |weights| => Remainder(total * weights[i], Sum(weights)))
  }

  // The sort order: larger remainder first, then earlier position.
  predicate Precedes(rems: seq<int>, i: nat, j: nat)
    requires i < |rems| && j < |rems|
  {
    rems[i] > rems[j] || (rems[i] == rems[j] && i < j)
  }

  predicate Extra(total: int, weights: seq<int>, shares: seq<int>, i: nat)
    requires Sum(weights) > 0 && i < |weights| == |shares|
  {
    shares[i] > Quotients(total, weights)[i]
  }

  // Everyone gets the whole part of their quota, some get one more, and whoever gets one more comes
  // before whoever does not.
  ghost predicate Prioritised(total: int, weights: seq<int>, shares: seq<int>)
    requires Sum(weights) > 0
  {
    && |shares| == |weights|
    && (forall i :: 0 <= i < |shares| ==>
          shares[i] == Quotients(total, weights)[i] + if Extra(total, weights, shares, i) then 1 else 0)
    && (forall i, j :: 0 <= i < |shares| && 0 <= j < |shares| && i != j
                       && Extra(total, weights, shares, i) && !Extra(total, weights, shares, j) ==>
          Precedes(Remainders(total, weights), i, j))
  }

  // The largest-remainder method.
  ghost predicate LargestRemainder(total: int, weights: seq<int>, shares: seq<int>)
    requires Sum(weights) > 0
  {
    && Prioritised(total, weights, shares)
    && (total >= 0 ==> Sum(shares) == total)
    && (total < 0 ==> shares == Quotients(total, weights))
  }

  datatype Share = Share(index: nat, remainder: int)

  // The comparator.
  predicate Ahead(a: Share, b: Share) {
    a.remainder > b.remainder || (a.remainder == b.remainder && a.index < b.index)
  }

  predicate SortedTo(a: seq<Share>, n: nat)
    requires n <= |a|
  {
    forall i, j :: 0 <= i < j < n ==> !Ahead(a[j], a[i])
  }

  lemma SwapIsPermutation(a: seq<Share>, i: nat, j: nat)
    requires i < j < |a|
    ensures multiset(a[i := a[j]][j := a[i]]) == multiset(a)
  {
    var b := a[i := a[j]][j := a[i]];
    assert a == a[..i] + [a[i]] + a[i + 1..j] + [a[j]] + a[j + 1..];
    assert b == a[..i] + [a[j]] + a[i + 1..j] + [a[i]] + a[j + 1..];
  }

  // Sink the element at n into the sorted part before it.
  method Insert(a: array<Share>, n: nat)
    requires n < a.Length && SortedTo(a[..], n)
    modifies a
    ensures SortedTo(a[..], n + 1) && multiset(a[..]) == old(multiset(a[..]))
  {
    var k := n;
    while k > 0 && Ahead(a[k], a[k - 1])
      invariant k <= n && multiset(a[..]) == old(multiset(a[..]))
      invariant forall i, j :: 0 <= i < j <= n && j != k ==> !Ahead(a[j], a[i])
    {
      ghost var was := a[..];
      SwapIsPermutation(was, k - 1, k);
      a[k - 1], a[k] := a[k], a[k - 1];
      assert a[..] == was[k - 1 := was[k]][k := was[k - 1]];
      k := k - 1;
    }
  }

  // The in-place sort.
  method SortShares(a: array<Share>)
    modifies a
    ensures SortedTo(a[..], a.Length) && multiset(a[..]) == old(multiset(a[..]))
  {
    var n := 0;
    while n < a.Length
      invariant n <= a.Length && SortedTo(a[..], n) && multiset(a[..]) == old(multiset(a[..]))
    {
      Insert(a, n);
      n := n + 1;
    }
  }

  // ---------------------------------------------------------------- how much is left over

  lemma {:induction false} SumScales(total: int, weights: seq<int>)
    ensures Sum(Scaled(total, weights)) == total * Sum(weights)
  {
    if |weights| > 0 {
      var rest := weights[..|weights| - 1];
      SumScales(total, rest);
      assert Scaled(total, weights)[..|weights| - 1] == Scaled(total, rest);
      assert total * (Sum(rest) + weights[|weights| - 1]) == total * Sum(rest) + total * weights[|weights| - 1];
    }
  }

  lemma {:induction false} SumDivides(xs: seq<int>, qs: seq<int>, rs: seq<int>, w: int)
    requires |xs| == |qs| == |rs| && forall i :: 0 <= i < |xs| ==> xs[i] == qs[i] * w + rs[i]
    ensures Sum(xs) == Sum(qs) * w + Sum(rs)
  {
    if |xs| > 0 {
      var n := |xs| - 1;
      SumDivides(xs[..n], qs[..n], rs[..n], w);
      assert (Sum(qs[..n]) + qs[n]) * w == Sum(qs[..n]) * w + qs[n] * w;
    }
  }

  predicate Weights(weights: seq<int>) {
    Sum(weights) > 0 && forall i :: 0 <= i < |weights| ==> weights[i] >= 0
  }

  // What the floors leave over is the remainders' sum, in units of the total weight.
  lemma Leftover(total: int, weights: seq<int>)
    requires Weights(weights)
    ensures (total - Sum(Quotients(total, weights))) * Sum(weights) == Sum(Remainders(total, weights))
  {
    SumScales(total, weights);
    SumDivides(Scaled(total, weights), Quotients(total, weights), Remainders(total, weights), Sum(weights));
  }

  lemma {:induction false} SumBetween(xs: seq<int>, lo: int, hi: int)
    requires forall i :: 0 <= i < |xs| ==> lo <= xs[i] <= hi
    ensures |xs| * lo <= Sum(xs) <= |xs| * hi
  {
    if |xs| > 0 { SumBetween(xs[..|xs| - 1], lo, hi); }
  }

  lemma ScaledSign(total: int, weight: int)
    requires weight >= 0
    ensures total >= 0 ==> total * weight >= 0
    ensures total < 0 ==> total * weight <= 0
  {
  }

  lemma RemaindersInRange(total: int, weights: seq<int>)
    requires Weights(weights)
    ensures forall i :: 0 <= i < |weights| && total >= 0 ==> 0 <= Remainders(total, weights)[i] <= Sum(weights) - 1
    ensures forall i :: 0 <= i < |weights| && total < 0 ==> 1 - Sum(weights) <= Remainders(total, weights)[i] <= 0
  {
    forall i | 0 <= i < |weights| ensures total >= 0 ==> total * weights[i] >= 0
                                  ensures total < 0 ==> total * weights[i] <= 0 {
      ScaledSign(total, weights[i]);
    }
  }

  lemma LessThan(a: int, b: int, w: int)
    requires w > 0 && a * w <= b * (w - 1) && b >= 0
    ensures a <= b && (b > 0 ==> a < b)
  {
    if a >= b {
      assert a * w >= b * w;
    }
  }

  lemma NotNegative(a: int, w: int)
    requires w > 0
    ensures a * w >= 0 ==> a >= 0
    ensures a * w <= 0 ==> a <= 0
  {
  }

  // There are enough people to take the leftover, one each.
  lemma LeftoverFits(total: int, weights: seq<int>)
    requires Weights(weights)
    ensures var left := total - Sum(Quotients(total, weights));
            (total >= 0 ==> 0 <= left < |weights|) && (total < 0 ==> left <= 0)
  {
    var left := total - Sum(Quotients(total, weights));
    var rems := Remainders(total, weights);
    Leftover(total, weights);
    RemaindersInRange(total, weights);
    assert |weights| > 0;
    if total >= 0 {
      SumBetween(rems, 0, Sum(weights) - 1);
      LessThan(left, |weights|, Sum(weights));
      NotNegative(left, Sum(weights));
    } else {
      SumBetween(rems, 1 - Sum(weights), 0);
      NotNegative(left, Sum(weights));
    }
  }

  // ---------------------------------------------------------------- the method

  lemma OnceMeansOne(a: seq<Share>, x: Share)
    requires x in a && forall i, j :: 0 <= i < j < |a| ==> a[i] != a[j]
    ensures multiset(a)[x] == 1
  {
    var i :| 0 <= i < |a| && a[i] == x;
    assert a == a[..i] + [x] + a[i + 1..];
    assert x !in a[..i] && x !in a[i + 1..];
  }

  lemma TwiceMeansTwo(b: seq<Share>, k: nat, l: nat)
    requires k < l < |b| && b[k] == b[l]
    ensures multiset(b)[b[k]] >= 2
  {
    assert b == b[..k] + [b[k]] + b[k + 1..l] + [b[k]] + b[l + 1..];
  }

  lemma DistinctByMultiset(a: seq<Share>, b: seq<Share>)
    requires multiset(a) == multiset(b)
    requires forall i, j :: 0 <= i < j < |a| ==> a[i] != a[j]
    ensures forall i, j :: 0 <= i < j < |b| ==> b[i] != b[j]
  {
    forall k, l | 0 <= k < l < |b| ensures b[k] != b[l] {
      assert b[k] in multiset(b);
      assert b[k] in multiset(a);
      OnceMeansOne(a, b[k]);
      if b[k] == b[l] {
        TwiceMeansTwo(b, k, l);
      }
    }
  }

  // Every position, once, with its remainder, in sorted order.
  ghost predicate Ranking(rems: seq<int>, order: seq<Share>) {
    && |order| == |rems| && SortedTo(order, |order|)
    && (forall k :: 0 <= k < |order| ==> order[k].index < |rems| && order[k].remainder == rems[order[k].index])
    && (forall k, l :: 0 <= k < l < |order| ==> order[k].index != order[l].index)
    && (forall i :: 0 <= i < |rems| ==> i in Taken(order, |order|))
  }

  function Taken(order: seq<Share>, k: nat): set<nat>
    requires k <= |order|
  {
    set j | 0 <= j < k :: order[j].index
  }

  lemma SortingRanks(rems: seq<int>, initial: seq<Share>, order: seq<Share>)
    requires |initial| == |rems| && forall i :: 0 <= i < |rems| ==> initial[i] == Share(i, rems[i])
    requires multiset(order) == multiset(initial) && SortedTo(order, |order|)
    ensures Ranking(rems, order)
  {
    assert |order| == |multiset(order)| == |multiset(initial)| == |initial|;
    DistinctByMultiset(initial, order);
    forall k | 0 <= k < |order| ensures order[k].index < |rems| && order[k].remainder == rems[order[k].index] {
      assert order[k] in multiset(order);
      assert order[k] in multiset(initial);
    }
    forall i | 0 <= i < |rems| ensures i in Taken(order, |order|) {
      assert initial[i] in multiset(initial);
      assert initial[i] in multiset(order);
      var k :| 0 <= k < |order| && order[k] == initial[i];
    }
  }

  // The first k in sorted order come before everyone else.
  lemma TakenComeFirst(rems: seq<int>, order: seq<Share>, k: nat, i: nat, j: nat)
    requires Ranking(rems, order) && k <= |order| && i < |rems| && j < |rems|
    requires i in Taken(order, k) && j !in Taken(order, k)
    ensures Precedes(rems, i, j)
  {
    assert j in Taken(order, |order|);
    var a :| 0 <= a < k && order[a].index == i;
    var b :| 0 <= b < |order| && order[b].index == j;
    assert b >= k;
    assert !Ahead(order[b], order[a]);
  }

  // After k steps of the distribution loop.
  ghost predicate Given(total: int, weights: seq<int>, order: seq<Share>, k: nat, shares: seq<int>, leftover: int)
    requires Sum(weights) > 0 && k <= |order|
  {
    && |shares| == |weights|
    && (forall i :: 0 <= i < |shares| ==> shares[i] == Quotients(total, weights)[i] + if i in Taken(order, k) then 1 else 0)
    && Sum(shares) + leftover == total
    && leftover == total - Sum(Quotients(total, weights)) - k
  }

  lemma GivenOneMore(total: int, weights: seq<int>, order: seq<Share>, k: nat, shares: seq<int>, leftover: int)
    requires Weights(weights) && Ranking(Remainders(total, weights), order) && k < |order|
    requires Given(total, weights, order, k, shares, leftover)
    ensures Given(total, weights, order, k + 1, shares[order[k].index := shares[order[k].index] + 1], leftover - 1)
  {
    var i := order[k].index;
    assert i !in Taken(order, k);
    assert Taken(order, k + 1) == Taken(order, k) + {i};
    SumUpdates(shares, i, shares[i] + 1);
  }

  lemma GivenOut(total: int, weights: seq<int>, order: seq<Share>, k: nat, shares: seq<int>, leftover: int)
    requires Weights(weights) && Ranking(Remainders(total, weights), order) && k <= |order|
    requires Given(total, weights, order, k, shares, leftover)
    requires if total >= 0 then leftover == 0 else k == 0
    ensures LargestRemainder(total, weights, shares)
  {
    forall i, j | 0 <= i < |shares| && 0 <= j < |shares| && i != j
                  && Extra(total, weights, shares, i) && !Extra(total, weights, shares, j)
      ensures Precedes(Remainders(total, weights), i, j)
    {
      TakenComeFirst(Remainders(total, weights), order, k, i, j);
    }
    if total < 0 {
      assert Taken(order, 0) == {};
      assert shares == Quotients(total, weights);
    }
  }

  // One poisha each, in sorted order, until nothing is left over.
  method Distribute(total: int, weights: seq<int>, shares: array<int>, remainders: array<Share>, leftover: int)
    requires Weights(weights) && shares[..] == Quotients(total, weights)
    requires Ranking(Remainders(total, weights), remainders[..])
    requires leftover == total - Sum(shares[..])
    modifies shares
    ensures LargestRemainder(total, weights, shares[..])
  {
    ghost var order := remainders[..];
    LeftoverFits(total, weights);
    var left := leftover;
    var k := 0;
    assert Given(total, weights, order, 0, shares[..], left);
    while k < remainders.Length && left > 0
      invariant k <= |order| && remainders[..] == order && Given(total, weights, order, k, shares[..], left)
      invariant k > 0 ==> left >= 0
    {
      GivenOneMore(total, weights, order, k, shares[..], left);
      var i := remainders[k].index;
      assert i == order[k].index;
      ghost var was := shares[..];
      shares[i] := shares[i] + 1;
      assert shares[..] == was[i := was[i] + 1];
      left := left - 1;
      k := k + 1;
    }
    GivenOut(total, weights, order, k, shares[..], left);
  }

  // Refused, even, or by largest remainder, as the weights say.
  ghost predicate AllocatedByWeight(total: int, weights: seq<int>, r: Shares) {
    && (|weights| == 0 ==> r == Refuse(Nobody))
    && (|weights| > 0 && (exists i :: 0 <= i < |weights| && weights[i] < 0) ==> r == Refuse(NegativeWeight))
    && (|weights| > 0 && (forall i :: 0 <= i < |weights| ==> weights[i] == 0) ==> r == AllocateEvenly(total, |weights|))
    && (Weights(weights) ==> r.Split? && LargestRemainder(total, weights, r.shares))
  }

  method AllocateByWeight(total: int, weights: seq<int>) returns (r: Shares)
    ensures AllocatedByWeight(total, weights, r)
  {
    if |weights| == 0 {
      return Refuse(Nobody);
    }
    if exists i :: 0 <= i < |weights| && weights[i] < 0 {
      return Refuse(NegativeWeight);
    }
    if forall i :: 0 <= i < |weights| ==> weights[i] == 0 {
      SumOfEqual(weights, 0);
    }
    var totalWeight := Sum(weights);
    if totalWeight == 0 {
      return AllocateEvenly(total, |weights|);
    }
    WeightsArePositive(weights);
    var shares := new int[|weights|](i requires 0 <= i < |weights| => Quotient(total * weights[i], totalWeight));
    var remainders := new Share[|weights|](
      i requires 0 <= i < |weights| => Share(i, Remainder(total * weights[i], totalWeight)));
    assert shares[..] == Quotients(total, weights);
    var leftover := total - Sum(shares[..]);
    ghost var initial := remainders[..];
    SortShares(remainders);
    SortingRanks(Remainders(total, weights), initial, remainders[..]);
    Distribute(total, weights, shares, remainders, leftover);
    return Split(shares[..]);
  }

  lemma WeightsArePositive(weights: seq<int>)
    requires forall i :: 0 <= i < |weights| ==> weights[i] >= 0
    requires Sum(weights) != 0
    ensures Weights(weights)
  {
    var zeros := seq(|weights|, i requires 0 <= i < |weights| => 0);
    SumOfEqual(zeros, 0);
    SumIsMonotone(zeros, weights);
  }

  // ---------------------------------------------------------------- what the allocation promises

  // Nobody who ordered nothing pays for the leftover.
  lemma ZeroWeightGetsNothing(total: int, weights: seq<int>, shares: seq<int>, i: nat)
    requires Weights(weights) && LargestRemainder(total, weights, shares)
    requires i < |weights| && weights[i] == 0
    ensures shares[i] == 0
  {
    var rems := Remainders(total, weights);
    assert Quotients(total, weights)[i] == 0 && rems[i] == 0;
    if total >= 0 && Extra(total, weights, shares, i) {
      var extras := Extras(total, weights, shares);
      SumDivides(shares, Quotients(total, weights), extras, 1);
      Leftover(total, weights);
      RemaindersInRange(total, weights);
      EveryRemainderServed(total, weights, shares, i);
      ExtrasCount(extras, i);
      TooMany(Sum(extras), Sum(weights));
    }
  }

  // If somebody without a remainder got one more, so did everybody with one.
  lemma EveryRemainderServed(total: int, weights: seq<int>, shares: seq<int>, i: nat)
    requires Weights(weights) && Prioritised(total, weights, shares)
    requires i < |weights| && Remainders(total, weights)[i] == 0 && Extra(total, weights, shares, i)
    requires forall j :: 0 <= j < |weights| ==> 0 <= Remainders(total, weights)[j] <= Sum(weights) - 1
    ensures Sum(Remainders(total, weights)) <= (Sum(weights) - 1) * Sum(Extras(total, weights, shares))
  {
    var rems, extras := Remainders(total, weights), Extras(total, weights, shares);
    var caps := Scaled(Sum(weights) - 1, extras);
    forall j | 0 <= j < |rems| ensures rems[j] <= caps[j] {
      assert !Extra(total, weights, shares, j) ==> Precedes(rems, i, j);
    }
    SumIsMonotone(rems, caps);
    SumScales(Sum(weights) - 1, extras);
  }

  lemma TooMany(left: int, w: int)
    requires left >= 1
    ensures left * w > (w - 1) * left
  {
  }

  function Extras(total: int, weights: seq<int>, shares: seq<int>): (xs: seq<int>)
    requires Sum(weights) > 0 && |shares| == |weights|
    ensures |xs| == |weights|
  {
    seq(|weights|, i requires 0 <= i < |weights| => if Extra(total, weights, shares, i) then 1 else 0)
  }

  lemma {:induction false} SumIsNotNegative(xs: seq<int>)
    requires forall i :: 0 <= i < |xs| ==> 0 <= xs[i]
    ensures Sum(xs) >= 0
  {
    if |xs| > 0 { SumIsNotNegative(xs[..|xs| - 1]); }
  }

  lemma ExtrasCount(extras: seq<int>, i: nat)
    requires i < |extras| && extras[i] == 1 && forall j :: 0 <= j < |extras| ==> 0 <= extras[j]
    ensures Sum(extras) >= 1
  {
    assert extras == extras[..i] + [1] + extras[i + 1..];
    SumAppends(extras[..i] + [1], extras[i + 1..]);
    SumAppends(extras[..i], [1]);
    SumIsNotNegative(extras[..i]);
    SumIsNotNegative(extras[i + 1..]);
  }

  lemma DivisionGrows(x: int, y: int, w: nat)
    requires w > 0 && x >= y >= 0
    ensures x / w >= y / w
  {
    var d := x / w - y / w;
    assert d * w == x - x % w - (y - y % w);
    NotBelow(d, w);
  }

  lemma NotBelow(d: int, w: int)
    requires w > 0 && d * w > 0 - w
    ensures d >= 0
  {
  }

  lemma ProductGrows(total: int, a: int, b: int)
    requires total >= 0 && a >= b >= 0
    ensures total * a >= total * b >= 0
    ensures total > 0 && a > b ==> total * a > total * b
  {
  }

  lemma QuotaGrows(total: int, a: int, b: int, w: nat)
    requires total >= 0 && w > 0 && a >= b >= 0
    ensures Quotient(total * a, w) >= Quotient(total * b, w)
    ensures Quotient(total * a, w) == Quotient(total * b, w) ==> Remainder(total * a, w) >= Remainder(total * b, w)
    ensures Quotient(total * a, w) == Quotient(total * b, w) && total > 0 && a > b ==>
              Remainder(total * a, w) > Remainder(total * b, w)
  {
    ProductGrows(total, a, b);
    DivisionGrows(total * a, total * b, w);
    var x, y := total * a, total * b;
    assert x == Quotient(x, w) * w + Remainder(x, w) && y == Quotient(y, w) * w + Remainder(y, w);
  }

  // A larger weight never gets less, and of two equal weights the earlier one gets the odd poisha.
  lemma LargerWeightNeverLess(total: int, weights: seq<int>, shares: seq<int>, i: nat, j: nat)
    requires Weights(weights) && LargestRemainder(total, weights, shares) && total >= 0
    requires i < |weights| && j < |weights|
    requires weights[i] > weights[j] || (weights[i] == weights[j] && i < j)
    ensures shares[i] >= shares[j]
    ensures weights[i] == weights[j] ==> shares[i] <= shares[j] + 1
  {
    QuotaGrows(total, weights[i], weights[j], Sum(weights));
    if total == 0 {
      LargestOfNothing(weights, shares, i);
      LargestOfNothing(weights, shares, j);
    }
  }

  lemma LargestOfNothing(weights: seq<int>, shares: seq<int>, i: nat)
    requires Weights(weights) && LargestRemainder(0, weights, shares) && i < |weights|
    ensures shares[i] == 0
  {
    var zeros := Quotients(0, weights);
    SumOfEqual(zeros, 0);
    SumIsMonotone(zeros, shares);
  }

  // Equal positive weights are an even split.
  lemma EqualWeightsSplitEvenly(total: int, weights: seq<int>, shares: seq<int>, w: int)
    requires w > 0 && |weights| > 0 && forall i :: 0 <= i < |weights| ==> weights[i] == w
    requires total >= 0 && Sum(weights) > 0 && LargestRemainder(total, weights, shares)
    ensures AllocateEvenly(total, |weights|) == Split(shares)
  {
    var n := |weights|;
    SumOfEqual(weights, w);
    QuotaOfEqual(total, w, n);
    var base, extras := Quotients(total, weights), Extras(total, weights, shares);
    forall i | 0 <= i < n ensures base[i] == total / n {
      assert weights[i] == w;
    }
    EqualExtrasComeFirst(total, weights, shares, w);
    EvenFromExtras(total, shares, base, extras);
  }

  lemma EvenFromExtras(total: int, shares: seq<int>, base: seq<int>, extras: seq<int>)
    requires total >= 0 && |shares| == |base| == |extras| > 0 && Sum(shares) == total
    requires forall i :: 0 <= i < |shares| ==> base[i] == total / |shares| && shares[i] == base[i] + extras[i]
    requires forall i :: 0 <= i < |extras| ==> extras[i] == 0 || extras[i] == 1
    requires forall i, j :: 0 <= i < j < |extras| ==> extras[j] <= extras[i]
    ensures AllocateEvenly(total, |shares|) == Split(shares)
  {
    var n := |shares|;
    SumOfEqual(base, total / n);
    SumDivides(shares, base, extras, 1);
    PrefixIsSum(extras);
    assert total == n * (total / n) + total % n;
  }

  lemma EqualExtrasComeFirst(total: int, weights: seq<int>, shares: seq<int>, w: int)
    requires Sum(weights) > 0 && Prioritised(total, weights, shares)
    requires forall i :: 0 <= i < |weights| ==> weights[i] == w
    ensures forall i, j :: 0 <= i < j < |weights| ==> Extras(total, weights, shares)[j] <= Extras(total, weights, shares)[i]
  {
    var rems := Remainders(total, weights);
    forall i, j | 0 <= i < j < |weights| ensures Extras(total, weights, shares)[j] <= Extras(total, weights, shares)[i] {
      assert rems[i] == rems[j] == Remainder(total * w, Sum(weights));
      assert Extra(total, weights, shares, j) && !Extra(total, weights, shares, i) ==> Precedes(rems, j, i);
    }
  }

  lemma QuotaOfEqual(total: int, w: int, n: nat)
    requires total >= 0 && w > 0 && n > 0
    ensures n * w > 0 && Quotient(total * w, n * w) == total / n
  {
    var q, r := total / n, total % n;
    assert total == q * n + r;
    assert total * w == q * (n * w) + r * w;
    assert 0 <= r * w < n * w;
    DivisionIsUnique(total * w, n * w, q, r * w);
  }

  lemma DivisionIsUnique(a: int, b: int, q: int, r: int)
    requires b > 0 && a == q * b + r && 0 <= r < b
    ensures a / b == q
  {
    var d := a / b - q;
    assert d * b == r - a % b;
    SmallMultiple(d, b);
  }

  lemma SmallMultiple(d: int, b: int)
    requires 0 - b < d * b < b
    ensures d == 0
  {
  }

  // Ones first, then zeros: the sum says how many ones.
  lemma {:induction false} PrefixIsSum(xs: seq<int>)
    requires forall i :: 0 <= i < |xs| ==> xs[i] == 0 || xs[i] == 1
    requires forall i, j :: 0 <= i < j < |xs| ==> xs[j] <= xs[i]
    ensures 0 <= Sum(xs) <= |xs| && forall i :: 0 <= i < |xs| ==> (xs[i] == 1 <==> i < Sum(xs))
  {
    if |xs| > 0 {
      PrefixIsSum(xs[..|xs| - 1]);
    }
  }

  // The shares always sum to the total exactly, as promised, unless the total is negative: the code
  // only refuses that when every weight is zero.  Then they do exactly when every quota is whole.
  lemma SharesSumIff(total: int, weights: seq<int>, shares: seq<int>)
    requires Weights(weights) && LargestRemainder(total, weights, shares)
    ensures Sum(shares) == total <==>
              total >= 0 || forall i :: 0 <= i < |weights| ==> (total * weights[i]) % Sum(weights) == 0
  {
    if total < 0 {
      Leftover(total, weights);
      RemaindersInRange(total, weights);
      var rems := Remainders(total, weights);
      var zeros := seq(|rems|, i requires 0 <= i < |rems| => 0);
      SumOfEqual(zeros, 0);
      SumIsMonotone(rems, zeros);
      forall i | 0 <= i < |weights| ensures rems[i] == 0 <==> (total * weights[i]) % Sum(weights) == 0 {
        WholeIff(total * weights[i], Sum(weights));
      }
      assert rems == zeros <==> forall i :: 0 <= i < |weights| ==> rems[i] == 0;
      SumVersusRemainders(total - Sum(shares), Sum(weights), Sum(rems));
    }
  }

  lemma SumVersusRemainders(left: int, w: int, rems: int)
    requires w > 0 && left * w == rems
    ensures left == 0 <==> rems == 0
  {
  }

  lemma WholeIff(a: int, w: nat)
    requires w > 0
    ensures Remainder(a, w) == 0 <==> a % w == 0
  {
    if a < 0 {
      var q := -a / w;
      assert -a == q * w + -a % w;
      if Remainder(a, w) == 0 {
        assert a == -q * w;
        DivisionIsUnique(a, w, -q, 0);
      } else if a % w == 0 {
        assert -a == -(a / w) * w;
        DivisionIsUnique(-a, w, -(a / w), 0);
      }
    }
  }

  lemma NegativeTotalLosesItsPoisha()
    ensures Weights([1, 1]) && LargestRemainder(-1, [1, 1], [0, 0]) && Sum([0, 0]) != -1
  {
    assert [1, 1][..1] == [1] && [0, 0][..1] == [0];
    assert Sum([1]) == 1 && Sum([1, 1]) == 2 && Sum([0]) == 0;
    assert Quotients(-1, [1, 1]) == [0, 0];
  }

  // Two allocations of the same bill are the same.
  lemma AllocationIsReproducible(total: int, weights: seq<int>, a: seq<int>, b: seq<int>)
    requires Weights(weights) && LargestRemainder(total, weights, a) && LargestRemainder(total, weights, b)
    ensures a == b
  {
    if total >= 0 && a != b {
      var i :| 0 <= i < |a| && a[i] != b[i];
      if a[i] > b[i] {
        OneSidedExtras(total, weights, a, b, i);
      } else {
        OneSidedExtras(total, weights, b, a, i);
      }
    }
  }

  // If `a` favours somebody `b` does not, it favours everybody `b` does, and sums to more.
  lemma OneSidedExtras(total: int, weights: seq<int>, a: seq<int>, b: seq<int>, i: nat)
    requires Sum(weights) > 0 && Prioritised(total, weights, a) && Prioritised(total, weights, b)
    requires i < |a| && a[i] > b[i]
    ensures Sum(b) < Sum(a)
  {
    var rems := Remainders(total, weights);
    forall j | 0 <= j < |a| ensures b[j] <= a[j] {
      assert Extra(total, weights, a, i) && !Extra(total, weights, b, i);
      assert Extra(total, weights, b, j) && !Extra(total, weights, a, j) ==> Precedes(rems, j, i);
    }
    SumIsMonotone(b, a);
  }
}
