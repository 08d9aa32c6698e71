/**
 Split bills: what a split shows as collected is what was actually paid against its legs.
 */
module Splits {
  import opened Calendar
  import opened Store
  import opened Scripts
  import opened Engine
  import opened Requests
  import Ledger

  type Rows = map<Resource, Row>

  function Leg(s: Id, i: nat): Resource {
    RequestR(RequestId(s, i))
  }

  predicate LegsExist(rows: Rows, s: Id, n: nat) {
    forall i :: 0 <= i < n ==> Leg(s, i) in rows && rows[Leg(s, i)].Request?
  }

  // Sum of the first `n` legs, and of the accepted ones among them.
  function Requested(rows: Rows, s: Id, n: nat): int
    requires LegsExist(rows, s, n)
  {
    if n == 0 then 0 else Requested(rows, s, n - 1) + rows[Leg(s, n - 1)].amount
  }

  function Collected(rows: Rows, s: Id, n: nat): int
    requires LegsExist(rows, s, n)
  {
    if n == 0 then 0
    else Collected(rows, s, n - 1) + if rows[Leg(s, n - 1)].state.ACCEPTED? then rows[Leg(s, n - 1)].amount else 0
  }

  datatype SplitView = SplitView(total: int, yourShare: int, requested: int, collected: int, outstanding: int)

  function ViewSplit(rows: Rows, s: Id): SplitView
    requires SplitR(s) in rows && rows[SplitR(s)].Split? && LegsExist(rows, s, rows[SplitR(s)].legs)
  {
    var split := rows[SplitR(s)];
    var requested := Requested(rows, s, split.legs);
    var collected := Collected(rows, s, split.legs);
    SplitView(split.total, split.total - requested, requested, collected, requested - collected)
  }

  // The payment settles one of the first `n` legs.
  predicate SettlesLeg(rows: Rows, t: Transfer, s: Id, n: nat) {
    exists i :: 0 <= i < n && Leg(s, i) in rows && rows[Leg(s, i)].Request? && rows[Leg(s, i)].settled == Some(t.id)
  }

  // Total of the committed payments made against the first `n` legs.
  function PaidAgainst(rows: Rows, log: seq<Transfer>, s: Id, n: nat): int {
    if |log| == 0 then 0
    else PaidAgainst(rows, log[..|log| - 1], s, n)
         + if SettlesLeg(rows, log[|log| - 1], s, n) then log[|log| - 1].amount else 0
  }

  ghost predicate SplitsCollect(db: Db) {
    forall s :: SplitR(s) in db.rows ==>
      && db.rows[SplitR(s)].Split?
      && LegsExist(db.rows, s, db.rows[SplitR(s)].legs)
      && Collected(db.rows, s, db.rows[SplitR(s)].legs) == PaidAgainst(db.rows, db.log, s, db.rows[SplitR(s)].legs)
  }

  // ---------------------------------------------------------------- one commit

  ghost predicate AcceptsLeg(db: Db, e: Effect, self: Id, s: Id, i: nat) {
    Leg(s, i) in e.writes && Settles(db, RequestId(s, i), e.writes[Leg(s, i)], self, e.moved)
  }

  // Leg `k` is the one this commit accepts; none of the first `n` when k is n.
  ghost predicate AcceptsOnly(db: Db, e: Effect, self: Id, s: Id, n: nat, k: nat) {
    forall i {:trigger AcceptsLeg(db, e, self, s, i)} :: 0 <= i < n ==> (AcceptsLeg(db, e, self, s, i) <==> i == k)
  }

  lemma OldLegMoves(db: Db, e: Effect, self: Id, s: Id, i: nat)
    requires Fresh(db, self) && RequestWrites(db, e, self)
    requires Leg(s, i) in db.rows && db.rows[Leg(s, i)].Request?
    ensures var row := db.rows[Leg(s, i)];
            var row' := (db.rows + e.writes)[Leg(s, i)];
            && row'.Request? && row'.amount == row.amount
            && (row'.state.ACCEPTED? <==> row.state.ACCEPTED? || AcceptsLeg(db, e, self, s, i))
            && (AcceptsLeg(db, e, self, s, i) ==> !row.state.ACCEPTED? && e.moved.Some? && e.moved.value.amount == row.amount)
            && row'.settled == if AcceptsLeg(db, e, self, s, i) then Some(self) else row.settled
  {
    assert Creator(Leg(s, i)) != Some(self);
  }

  lemma {:induction false} CollectedMoves(db: Db, e: Effect, self: Id, s: Id, n: nat, k: nat)
    requires Fresh(db, self) && RequestWrites(db, e, self)
    requires LegsExist(db.rows, s, n) && AcceptsOnly(db, e, self, s, n, k)
    ensures LegsExist(db.rows + e.writes, s, n)
    ensures Requested(db.rows + e.writes, s, n) == Requested(db.rows, s, n)
    ensures k < n ==> e.moved.Some?
    ensures Collected(db.rows + e.writes, s, n) == Collected(db.rows, s, n) + if k < n then e.moved.value.amount else 0
  {
    if n > 0 {
      OldLegMoves(db, e, self, s, n - 1);
      CollectedMoves(db, e, self, s, n - 1, k);
      assert AcceptsLeg(db, e, self, s, n - 1) <==> n - 1 == k;
    }
  }

  lemma AcceptedLeg(db: Db, e: Effect, self: Id, s: Id, n: nat) returns (k: nat)
    requires RequestWrites(db, e, self)
    ensures k <= n && AcceptsOnly(db, e, self, s, n, k)
  {
    if i: nat :| i < n && AcceptsLeg(db, e, self, s, i) {
      k := i;
      forall j: nat | j < n && AcceptsLeg(db, e, self, s, j) ensures j == k {
        assert RequestR(RequestId(s, j)) in e.writes && RequestR(RequestId(s, k)) in e.writes;
      }
    } else {
      k := n;
    }
  }

  // Old payments settle the legs they settled before.
  lemma OldPaymentSettles(db: Db, e: Effect, self: Id, t: Transfer, s: Id, n: nat)
    requires Fresh(db, self) && RequestWrites(db, e, self) && LegsExist(db.rows, s, n)
    requires t in db.log
    requires RequestsSettled(db)
    ensures SettlesLeg(db.rows + e.writes, t, s, n) == SettlesLeg(db.rows, t, s, n)
  {
    forall i | 0 <= i < n
      ensures (db.rows + e.writes)[Leg(s, i)].Request?
      ensures (db.rows + e.writes)[Leg(s, i)].settled == Some(t.id) <==> db.rows[Leg(s, i)].settled == Some(t.id)
    {
      OldLegMoves(db, e, self, s, i);
      assert db.rows[Leg(s, i)].state.ACCEPTED? <==> db.rows[Leg(s, i)].settled.Some?;
    }
  }

  lemma {:induction false} PaidAgainstKept(db: Db, e: Effect, self: Id, log: seq<Transfer>, s: Id, n: nat)
    requires RequestsSettled(db) && Fresh(db, self) && RequestWrites(db, e, self) && LegsExist(db.rows, s, n)
    requires log <= db.log
    ensures PaidAgainst(db.rows + e.writes, log, s, n) == PaidAgainst(db.rows, log, s, n)
  {
    if |log| > 0 {
      OldPaymentSettles(db, e, self, log[|log| - 1], s, n);
      PaidAgainstKept(db, e, self, log[..|log| - 1], s, n);
    }
  }

  // The new payment settles a leg exactly when this commit accepts one.
  lemma NewPaymentSettles(db: Db, e: Effect, self: Id, s: Id, n: nat, k: nat)
    requires RequestsSettled(db) && Fresh(db, self) && RequestWrites(db, e, self) && LegsExist(db.rows, s, n)
    requires AcceptsOnly(db, e, self, s, n, k) && e.moved.Some? && e.moved.value.id == self
    ensures SettlesLeg(db.rows + e.writes, e.moved.value, s, n) <==> k < n
  {
    SettledIdsAreOld(db, self);
    var rows' := db.rows + e.writes;
    forall i | 0 <= i < n
      ensures rows'[Leg(s, i)].Request? && (rows'[Leg(s, i)].settled == Some(self) <==> i == k)
    {
      OldLegMoves(db, e, self, s, i);
      assert AcceptsLeg(db, e, self, s, i) <==> i == k;
    }
    if k < n { assert Leg(s, k) in rows'; }
  }

  lemma OldSplitCollects(db: Db, e: Effect, self: Id, first: nat, s: Id)
    requires RequestsSettled(db) && SplitsCollect(db) && Fresh(db, self) && RequestWrites(db, e, self)
    requires e.moved.Some? ==> e.moved.value.id == self
    requires SplitR(s) in db.rows
    ensures var db' := Apply(db, e, first);
            var n := db.rows[SplitR(s)].legs;
            && LegsExist(db'.rows, s, n)
            && Collected(db'.rows, s, n) == PaidAgainst(db'.rows, db'.log, s, n)
            && Requested(db'.rows, s, n) == Requested(db.rows, s, n)
            && ((e.moved.Some? ==> e.moved.value.amount > 0) ==> Collected(db'.rows, s, n) >= Collected(db.rows, s, n))
  {
    var db' := Apply(db, e, first);
    var n := db.rows[SplitR(s)].legs;
    var k := AcceptedLeg(db, e, self, s, n);
    CollectedMoves(db, e, self, s, n, k);
    PaidAgainstKept(db, e, self, db.log, s, n);
    if e.moved.Some? {
      NewPaymentSettles(db, e, self, s, n, k);
      assert db'.log[..|db'.log| - 1] == db.log;
    } else {
      assert db'.log == db.log;
    }
  }

  lemma {:induction false} FreshLegsCollectNothing(rows: Rows, log: seq<Transfer>, s: Id, n: nat)
    requires LegsExist(rows, s, n)
    requires forall i :: 0 <= i < n ==> rows[Leg(s, i)].state.PENDING? && rows[Leg(s, i)].settled.None?
    ensures Collected(rows, s, n) == 0
    ensures PaidAgainst(rows, log, s, n) == 0
    decreases n + |log|
  {
    if n > 0 { FreshLegsCollectNothing(rows, [], s, n - 1); }
    if |log| > 0 { FreshLegsCollectNothing(rows, log[..|log| - 1], s, n); }
  }

  // Only the creation of a split writes a split row, together with all its legs.
  ghost predicate WritesSplit(c: Command, self: Id, e: Effect) {
    forall s :: SplitR(s) in e.writes ==>
      && s == self && c.CreateSplit? && e.moved.None?
      && e.writes[SplitR(s)] == Split(c.user, c.total, |LegShares(c)|)
      && (forall i :: 0 <= i < |LegShares(c)| ==>
            && Leg(s, i) in e.writes && e.writes[Leg(s, i)].Request?
            && e.writes[Leg(s, i)].state.PENDING? && e.writes[Leg(s, i)].settled.None?
            && e.writes[Leg(s, i)].amount == LegShares(c)[i])
  }

  lemma CreationWritesSplit(p: Policy, c: Command, self: Id, seen: Seen)
    requires c.CreateSplit? && PlanCreateSplit(p, c, self, seen).Commit?
    ensures WritesSplit(c, self, PlanCreateSplit(p, c, self, seen).effect)
  {
  }

  lemma PaymentsWriteNoSplit(p: Policy, c: Command, self: Id, start: Instant, seen: Seen, obs: Obs)
    requires c.Send? || c.Accept? || c.Reverse? || c.Register?
    requires Plan(p, c, self, start, seen, obs).Commit?
    ensures WritesSplit(c, self, Plan(p, c, self, start, seen, obs).effect)
  {
  }

  lemma RunsWriteNoSplit(p: Policy, c: Command, self: Id, start: Instant, seen: Seen, obs: Obs)
    requires c.Run? && PlanRun(p, c, self, start, seen, obs).Commit?
    ensures WritesSplit(c, self, PlanRun(p, c, self, start, seen, obs).effect)
  {
  }

  lemma SplitRowsWritten(p: Policy, c: Command, self: Id, start: Instant, seen: Seen, obs: Obs)
    requires Plan(p, c, self, start, seen, obs).Commit?
    ensures WritesSplit(c, self, Plan(p, c, self, start, seen, obs).effect)
  {
    if c.CreateSplit? { CreationWritesSplit(p, c, self, seen); }
    else if c.Send? || c.Accept? || c.Reverse? || c.Register? { PaymentsWriteNoSplit(p, c, self, start, seen, obs); }
    else if c.Run? { RunsWriteNoSplit(p, c, self, start, seen, obs); }
    else if c.ExpireDue? { ExpireCommits(c, c.requests, start, seen, obs); }
  }

  // The bill and the shares stand, and nothing that was collected is uncollected.
  predicate SplitGoesOn(rows: Rows, rows': Rows, s: Id)
    requires SplitR(s) in rows && rows[SplitR(s)].Split? && LegsExist(rows, s, rows[SplitR(s)].legs)
  {
    && SplitR(s) in rows' && rows'[SplitR(s)] == rows[SplitR(s)]
    && LegsExist(rows', s, rows[SplitR(s)].legs)
    && var before, after := ViewSplit(rows, s), ViewSplit(rows', s);
    && after.yourShare == before.yourShare && after.requested == before.requested
    && after.collected >= before.collected && after.outstanding <= before.outstanding
  }

  lemma AtomicKeepsSplits(p: Policy, db: Db, c: Command, self: Id, start: Instant, seen: Seen, obs: Obs,
                          e: Effect, first: nat, reply: Reply, db': Db)
    requires RequestsSettled(db) && SplitsCollect(db)
    requires Atomic(p, db, c, self, start, seen, obs, e, first, reply, db')
    ensures SplitsCollect(db')
    ensures forall s :: SplitR(s) in db.rows ==> SplitGoesOn(db.rows, db'.rows, s)
  {
    CommitWritesRequests(p, db, c, self, start, seen, obs);
    CommitWritesOwnRows(p, c, self, start, seen, obs);
    SplitRowsWritten(p, c, self, start, seen, obs);
    Ledger.CommitMovesOrKeepsMoney(p, db, c, self, start, seen, obs);
    forall s | SplitR(s) in db'.rows
      ensures db'.rows[SplitR(s)].Split? && LegsExist(db'.rows, s, db'.rows[SplitR(s)].legs)
      ensures Collected(db'.rows, s, db'.rows[SplitR(s)].legs) == PaidAgainst(db'.rows, db'.log, s, db'.rows[SplitR(s)].legs)
    {
      if SplitR(s) in e.writes {
        FreshLegsCollectNothing(db'.rows, db'.log, s, db'.rows[SplitR(s)].legs);
      } else {
        OldSplitCollects(db, e, self, first, s);
      }
    }
    forall s | SplitR(s) in db.rows ensures SplitGoesOn(db.rows, db'.rows, s) {
      assert Creator(SplitR(s)) != Some(self);
      OldSplitCollects(db, e, self, first, s);
    }
  }

  // ---------------------------------------------------------------- creation

  lemma {:induction false} SumSplitsOff(xs: seq<int>)
    requires |xs| > 0
    ensures Sum(xs) == xs[0] + Sum(xs[1..])
  {
    if |xs| > 1 {
      var front := xs[..|xs| - 1];
      SumSplitsOff(front);
      assert xs[1..][..|xs[1..]| - 1] == front[1..];
    }
  }

  lemma {:induction false} RequestedIsSum(rows: Rows, s: Id, legs: seq<int>, n: nat)
    requires n <= |legs| && LegsExist(rows, s, n)
    requires forall i :: 0 <= i < n ==> rows[Leg(s, i)].amount == legs[i]
    ensures Requested(rows, s, n) == Sum(legs[..n])
  {
    if n > 0 {
      RequestedIsSum(rows, s, legs, n - 1);
      assert legs[..n][..n - 1] == legs[..n - 1];
    }
  }

  // A split shows its creator the first share exactly when their share is part of the bill.
  lemma CreatedSplitShows(p: Policy, db: Db, c: Command, self: Id, start: Instant, seen: Seen, obs: Obs,
                          e: Effect, first: nat, reply: Reply, db': Db)
    requires Atomic(p, db, c, self, start, seen, obs, e, first, reply, db')
    requires c.CreateSplit? && SplitR(self) in e.writes
    ensures db'.rows[SplitR(self)].Split? && LegsExist(db'.rows, self, db'.rows[SplitR(self)].legs)
    ensures var v := ViewSplit(db'.rows, self);
            && v.total == c.total && v.collected == 0
            && v.yourShare == if c.includeSelf && |c.shares| > 0 then c.shares[0] else 0
  {
    SplitRowsWritten(p, c, self, start, seen, obs);
    var legs := LegShares(c);
    RequestedIsSum(db'.rows, self, legs, |legs|);
    assert legs[..|legs|] == legs;
    FreshLegsCollectNothing(db'.rows, db'.log, self, |legs|);
    if c.includeSelf && |c.shares| > 0 { SumSplitsOff(c.shares); }
  }
}
