/**
 Creating a split bill: allocate the shares, then write the split and one request per participant.
 */
module SplitBills {
  import opened Calendar
  import opened Store
  import opened Scripts
  import opened Alone
  import opened Services
  import opened Verdicts
  import opened Promises
  import opened Outcomes
  import opened Allocate

  // The weights, the creator's first, when every participant has one.
  function WeightsOf(weights: seq<Option<int>>, includeSelf: bool, selfWeight: int): seq<int>
    requires forall i :: 0 <= i < |weights| ==> weights[i].Some?
  {
    (if includeSelf then [selfWeight] else []) + seq(|weights|, i requires 0 <= i < |weights| => weights[i].value)
  }

  // By weight when every participant has one, else evenly.
  ghost predicate Allocated(total: int, weights: seq<Option<int>>, includeSelf: bool, selfWeight: int, r: Shares) {
    if forall i :: 0 <= i < |weights| ==> weights[i].Some?
    then AllocatedByWeight(total, WeightsOf(weights, includeSelf, selfWeight), r)
    else r == AllocateEvenly(total, |weights| + if includeSelf then 1 else 0)
  }

  method AllocateShares(total: int, weights: seq<Option<int>>, includeSelf: bool, selfWeight: int) returns (r: Shares)
    ensures Allocated(total, weights, includeSelf, selfWeight, r)
  {
    if forall i :: 0 <= i < |weights| ==> weights[i].Some? {
      r := AllocateByWeight(total, WeightsOf(weights, includeSelf, selfWeight));
    } else {
      r := AllocateEvenly(total, |weights| + if includeSelf then 1 else 0);
    }
  }

  // One share for everybody, and none is lost or made up.
  lemma SharesAreTheBill(total: int, weights: seq<Option<int>>, includeSelf: bool, selfWeight: int, r: Shares)
    requires Allocated(total, weights, includeSelf, selfWeight, r) && r.Split?
    ensures |r.shares| == |weights| + if includeSelf then 1 else 0
    ensures total >= 0 ==> Sum(r.shares) == total
  {
    if forall i :: 0 <= i < |weights| ==> weights[i].Some? {
      WeightedSharesAreTheBill(total, WeightsOf(weights, includeSelf, selfWeight), r);
    } else if total >= 0 {
      EvenSplitIsExact(total, |weights| + if includeSelf then 1 else 0);
    }
  }

  lemma WeightedSharesAreTheBill(total: int, weights: seq<int>, r: Shares)
    requires AllocatedByWeight(total, weights, r) && r.Split?
    ensures |r.shares| == |weights| && (total >= 0 ==> Sum(r.shares) == total)
  {
    assert forall i :: 0 <= i < |weights| ==> weights[i] >= 0;
    if Sum(weights) != 0 {
      WeightsArePositive(weights);
      SharesSumIff(total, weights, r.shares);
    } else {
      AllZero(weights);
      if total >= 0 { EvenSplitIsExact(total, |weights|); }
    }
  }

  lemma AllZero(weights: seq<int>)
    requires Sum(weights) == 0 && forall i :: 0 <= i < |weights| ==> weights[i] >= 0
    ensures forall i :: 0 <= i < |weights| ==> weights[i] == 0
  {
    var zeros := seq(|weights|, i requires 0 <= i < |weights| => 0);
    SumOfEqual(zeros, 0);
    SumIsMonotone(zeros, weights);
  }

  function LegRow(c: Command, i: nat): Row
    requires c.CreateSplit? && i < |c.payers| == |LegShares(c)| && c.payers[i].Some?
  {
    Request(c.user, c.payers[i].value, LegShares(c)[i], c.expires, RequestStatus.PENDING, None)
  }

  // The rows written after the split and the first n legs.
  function RowsSoFar(c: Command, self: Id, n: nat): map<Resource, Row>
    requires c.CreateSplit? && n <= |c.payers| == |LegShares(c)|
    requires forall i :: 0 <= i < |c.payers| ==> c.payers[i].Some?
  {
    if n == 0 then map[SplitR(self) := Row.Split(c.user, c.total, |c.payers|)]
    else RowsSoFar(c, self, n - 1)[RequestR(RequestId(self, n - 1)) := LegRow(c, n - 1)]
  }

  method ResolvePayers(payers: seq<Option<Id>>, creator: Id) returns (error: Option<Error>)
    ensures error == Unpayable(payers, creator)
  {
    for i := 0 to |payers|
      invariant Unpayable(payers[..i], creator).None?
    {
      assert payers[..i + 1][..i] == payers[..i];
      if payers[i].None? {
        FirstUnpayable(payers, creator, i);
        return Some(NotFound);
      }
      if payers[i].value == creator {
        FirstUnpayable(payers, creator, i);
        return Some(Validation);
      }
    }
    assert payers[..|payers|] == payers;
    return None;
  }

  lemma {:induction false} FirstUnpayable(payers: seq<Option<Id>>, creator: Id, i: nat)
    requires i < |payers| && Unpayable(payers[..i], creator).None?
    requires payers[i].None? || payers[i].value == creator
    ensures Unpayable(payers, creator) == Some(if payers[i].None? then NotFound else Validation)
  {
    if i < |payers| - 1 {
      assert payers[..|payers| - 1][..i] == payers[..i];
      FirstUnpayable(payers[..|payers| - 1], creator, i);
    }
  }

  predicate WrittenSoFar(c: Command, self: Id, n: nat, r: Resource) {
    r == SplitR(self) || (r.RequestR? && r.request.creator == self && r.request.leg < n)
  }

  lemma {:induction false} RowsAre(c: Command, self: Id, n: nat)
    requires c.CreateSplit? && n <= |c.payers| == |LegShares(c)|
    requires forall i :: 0 <= i < |c.payers| ==> c.payers[i].Some?
    ensures forall r :: r in RowsSoFar(c, self, n) <==> WrittenSoFar(c, self, n, r)
    ensures var rows, split := RowsSoFar(c, self, n), SplitR(self);
            split in rows && rows[split] == Row.Split(c.user, c.total, |c.payers|)
    ensures forall i :: 0 <= i < n ==>
              var rows, leg := RowsSoFar(c, self, n), RequestR(RequestId(self, i));
              leg in rows && rows[leg] == LegRow(c, i)
  {
    if n > 0 {
      RowsAre(c, self, n - 1);
    }
  }

  lemma RowsAreSplitRows(c: Command, self: Id)
    requires c.CreateSplit? && |c.payers| == |LegShares(c)|
    requires forall i :: 0 <= i < |c.payers| ==> c.payers[i].Some?
    ensures RowsSoFar(c, self, |c.payers|) == SplitRows(c, self)
  {
    RowsAre(c, self, |c.payers|);
    forall r ensures r in SplitRows(c, self) <==> WrittenSoFar(c, self, |c.payers|, r) {
      if WrittenSoFar(c, self, |c.payers|, r) && r.RequestR? {
        assert r == RequestR(RequestId(self, r.request.leg));
      }
    }
  }

  method InsertLegs(s: Session, c: Command, self: Id)
    requires c.CreateSplit? && |c.payers| == |LegShares(c)|
    requires forall i :: 0 <= i < |c.payers| ==> c.payers[i].Some?
    modifies s`work
    ensures s.work == old(s.work).(rows := old(s.work.rows) + SplitRows(c, self))
  {
    ghost var before := s.work;
    s.work := s.work.(rows := s.work.rows[SplitR(self) := Row.Split(c.user, c.total, |c.payers|)]);
    assert s.work.rows == before.rows + RowsSoFar(c, self, 0);
    for i := 0 to |c.payers|
      invariant s.work == before.(rows := before.rows + RowsSoFar(c, self, i))
    {
      var leg := Request(c.user, c.payers[i].value, LegShares(c)[i], c.expires, RequestStatus.PENDING, None);
      s.work := s.work.(rows := s.work.rows[RequestR(RequestId(self, i)) := leg]);
    }
    RowsAreSplitRows(c, self);
  }

  method SplitScript(s: Session, c: Command, self: Id) returns (r: Outcome<Reply>)
    requires c.CreateSplit? && |c.payers| == |LegShares(c)| && Sum(c.shares) == c.total
    requires forall i :: 0 <= i < |LegShares(c)| ==> LegShares(c)[i] >= s.p.minTransfer
    modifies s`work
    ensures Scripted(SplitVerdict(s.p, old(s.work), c, self), old(s.work), s.nextEntry, s.work, s.nextEntry, r)
  {
    ghost var before := s.work;
    var claim := s.ClaimIdempotencyKey(c.user, c.key, c.digest);
    if !claim.Claimed? {
      r := s.Unclaimable(claim);
      return;
    }
    var error := ResolvePayers(c.payers, c.user);
    if error.Some? {
      return Err(error.value);
    }
    InsertLegs(s, c, self);
    var reply := Reply(201, Created(self));
    ghost var e := Effect(SplitRows(c, self), None, []);
    assert s.work == Apply(Holding(before, c.user, c.key, c.digest), e, s.nextEntry);
    CompletedWithIt(before, e, c.user, c.key, c.digest, reply, s.nextEntry);
    s.CompleteIdempotencyKey(c.user, c.key, reply);
    return Ok(reply);
  }

  // The bill is allocated, and the split is written with those shares, or nothing is.
  method CreateSplit(s: Session, user: Id, key: nat, digest: nat, total: int, includeSelf: bool, selfWeight: int,
                     weights: seq<Option<int>>, payers: seq<Option<Id>>, expires: Instant, now: Instant)
    returns (r: Outcome<Reply>, allocation: Shares)
    requires s.Valid() && |weights| == |payers|
    modifies s
    ensures s.Valid() && Allocated(total, weights, includeSelf, selfWeight, allocation)
    ensures allocation.Refuse? ==> Refuses(Internal, old(s.db), s.db, r)
    ensures allocation.Split? ==>
              var c := Command.CreateSplit(user, key, digest, total, allocation.shares, includeSelf, payers, expires);
              && |LegShares(c)| == |payers|
              && Ends(Verdict(s.p, old(s.db), c, old(s.nextTx), now), old(s.db), old(s.nextEntry), s.db, r)
              && CreateSplitPromise(s.p, old(s.db), c, old(s.nextTx), s.db, r)
    ensures r.Ok? ==> allocation.Split? && Sum(allocation.shares) == total
  {
    allocation := AllocateShares(total, weights, includeSelf, selfWeight);
    if allocation.Refuse? {
      return Err(Internal), allocation;
    }
    SharesAreTheBill(total, weights, includeSelf, selfWeight, allocation);
    var shares := allocation.shares;
    var c := Command.CreateSplit(user, key, digest, total, shares, includeSelf, payers, expires);
    SplitEnds(s.p, s.db, c, s.nextTx, now);
    if Sum(shares) != total {
      return Err(Internal), allocation;
    }
    var legs := LegShares(c);
    if exists i :: 0 <= i < |legs| && legs[i] < s.p.minTransfer {
      return Err(Validation), allocation;
    }
    var self := s.Begin();
    r := SplitScript(s, c, self);
    s.Finish(c, self, now, old(s.nextEntry), r);
    VerdictIsPromised(s.p, old(s.db), c, self, now, old(s.nextEntry), s.db, r);
  }
}
