/**
 What every committed transaction does to money: nothing, or one complete double entry.
 */
module Ledger {
  import opened Calendar
  import opened Store
  import opened Scripts
  import opened Engine

  // ---------------------------------------------------------------- the shape of a commit

  // The account as the transaction found it; registration debits a stripe into the row it inserts.
  function Before(db: Db, a: Id): Row {
    if AccountR(a) in db.rows then db.rows[AccountR(a)] else FRESH_ACCOUNT
  }

  // Money moves from an active account that can afford it to one that is not closed, both balances
  // and both versions change, and exactly two entries and one transfer are added.
  ghost predicate MovesMoney(db: Db, e: Effect, self: Id) {
    && e.moved.Some?
    && var t := e.moved.value;
    && t.id == self && t.amount > 0 && t.from != t.to
    && (AccountR(t.from) in db.rows || t.from == self)
    && (AccountR(t.to) in db.rows || t.to == self)
    && Before(db, t.from).Account? && Before(db, t.to).Account?
    && Before(db, t.from).status.ACTIVE? && !Before(db, t.to).status.CLOSED?
    && (Before(db, t.from).system || Before(db, t.from).balance >= t.amount)
    && AccountR(t.from) in e.writes && AccountR(t.to) in e.writes && TransferR(self) in e.writes
    && e.writes[AccountR(t.from)] == Debited(Before(db, t.from), t.amount)
    && e.writes[AccountR(t.to)] == Debited(Before(db, t.to), -t.amount)
    && e.writes[TransferR(self)] == TransferStatus(false)
    && (forall a :: AccountR(a) in e.writes ==> a == t.from || a == t.to)
    && e.legs == [Leg(self, t.from, DEBIT, t.amount, Before(db, t.from).balance - t.amount, t.createdAt),
                  Leg(self, t.to, CREDIT, t.amount, Before(db, t.to).balance + t.amount, t.createdAt)]
  }

  function Debited(row: Row, amount: int): Row
    requires row.Account?
  {
    row.(balance := row.balance - amount, version := row.version + 1)
  }

  // A freeze changes a status and a version; nothing else touches an account without moving money.
  ghost predicate KeepsMoney(db: Db, e: Effect) {
    && e.moved.None? && e.legs == []
    && (forall a :: AccountR(a) in e.writes ==>
          && AccountR(a) in db.rows && db.rows[AccountR(a)].Account? && e.writes[AccountR(a)].Account?
          && e.writes[AccountR(a)] == db.rows[AccountR(a)].(status := e.writes[AccountR(a)].status,
                                                            version := db.rows[AccountR(a)].version + 1))
    && (forall x :: TransferR(x) !in e.writes)
  }

  lemma PostingMovesMoney(db: Db, t: Transfer, seen: Seen, e: Effect)
    requires AllStand(db, seen)
    requires PostDoubleEntry(t, seen).Posted?
    requires e.moved == Movement(PostDoubleEntry(t, seen)).moved && e.legs == Movement(PostDoubleEntry(t, seen)).legs
    requires forall r :: r in e.writes && (r.AccountR? || r == TransferR(t.id)) ==>
               r in Movement(PostDoubleEntry(t, seen)).writes
    requires forall r :: r in Movement(PostDoubleEntry(t, seen)).writes ==>
               r in e.writes && e.writes[r] == Movement(PostDoubleEntry(t, seen)).writes[r]
    ensures MovesMoney(db, e, t.id)
  {
    assert Stands(db, AccountR(t.from), seen[AccountR(t.from)]);
    assert Stands(db, AccountR(t.to), seen[AccountR(t.to)]);
  }

  lemma ReverseMovesMoney(p: Policy, db: Db, c: Command, self: Id, start: Instant, seen: Seen, obs: Obs)
    requires c.Reverse? && AllStand(db, seen) && Fresh(db, self)
    requires PlanReverse(p, c, self, start, seen, obs).Commit?
    ensures var e := PlanReverse(p, c, self, start, seen, obs).effect;
            e == NO_EFFECT || MovesMoney(db, e, self)
  {
    var e := PlanReverse(p, c, self, start, seen, obs).effect;
    if e != NO_EFFECT {
      var o := obs[Original(c.original)].found.value;
      var t := Transfer(self, o.to, o.from, o.amount, REVERSAL, Some(KeyId(c.user, c.key)), Some(o.id), start);
      assert Stands(db, TransferR(o.id), seen[TransferR(o.id)]);
      PostingMovesMoney(db, t, seen, e);
    }
  }

  lemma SendMovesMoney(p: Policy, db: Db, c: Command, self: Id, start: Instant, seen: Seen, obs: Obs)
    requires c.Send? && AllStand(db, seen)
    requires PlanSend(p, c, self, start, seen, obs).Commit?
    ensures var e := PlanSend(p, c, self, start, seen, obs).effect;
            e == NO_EFFECT || MovesMoney(db, e, self)
  {
    var e := PlanSend(p, c, self, start, seen, obs).effect;
    if e != NO_EFFECT {
      PostingMovesMoney(db, Transfer(self, c.user, c.payee.value, c.amount, P2P, Some(KeyId(c.user, c.key)), None, start), seen, e);
    }
  }

  lemma AcceptMovesMoney(p: Policy, db: Db, c: Command, self: Id, start: Instant, seen: Seen, obs: Obs)
    requires c.Accept? && AllStand(db, seen)
    requires PlanAccept(p, c, self, start, seen, obs).Commit?
    ensures var e := PlanAccept(p, c, self, start, seen, obs).effect;
            e == NO_EFFECT || MovesMoney(db, e, self)
  {
    var e := PlanAccept(p, c, self, start, seen, obs).effect;
    if e != NO_EFFECT {
      PostingMovesMoney(db, SettlementOf(c, self, start, seen[RequestR(c.request)].value), seen, e);
    }
  }

  lemma RunMovesMoney(p: Policy, db: Db, c: Command, self: Id, start: Instant, seen: Seen, obs: Obs)
    requires c.Run? && AllStand(db, seen)
    requires PlanRun(p, c, self, start, seen, obs).Commit?
    ensures var e := PlanRun(p, c, self, start, seen, obs).effect;
            KeepsMoney(db, e) || MovesMoney(db, e, self)
  {
    var e := PlanRun(p, c, self, start, seen, obs).effect;
    if e.moved.Some? {
      var row := seen[ScheduleR(c.schedule)].value;
      PostingMovesMoney(db, Transfer(self, row.from, row.to, row.pays, SCHEDULED, None, None, start), seen, e);
    }
  }

  lemma RegisterMovesMoney(p: Policy, db: Db, c: Command, self: Id, start: Instant, seen: Seen)
    requires c.Register? && AllStand(db, seen) && Fresh(db, self)
    requires PlanRegister(p, c, self, start, seen).Commit?
    ensures MovesMoney(db, PlanRegister(p, c, self, start, seen).effect, self)
  {
    assert Stands(db, AccountR(c.stripe), seen[AccountR(c.stripe)]);
    assert AccountR(self) !in db.rows by { assert Creator(AccountR(self)) == Some(self); }
  }

  lemma CommitMovesOrKeepsMoney(p: Policy, db: Db, c: Command, self: Id, start: Instant, seen: Seen, obs: Obs)
    requires AllStand(db, seen) && Fresh(db, self)
    requires Plan(p, c, self, start, seen, obs).Commit?
    ensures var e := Plan(p, c, self, start, seen, obs).effect;
            KeepsMoney(db, e) || MovesMoney(db, e, self)
  {
    if c.Send? { SendMovesMoney(p, db, c, self, start, seen, obs); }
    else if c.Accept? { AcceptMovesMoney(p, db, c, self, start, seen, obs); }
    else if c.Reverse? { ReverseMovesMoney(p, db, c, self, start, seen, obs); }
    else if c.Run? { RunMovesMoney(p, db, c, self, start, seen, obs); }
    else if c.Register? { RegisterMovesMoney(p, db, c, self, start, seen); }
    else if c.ExpireDue? { ExpireCommits(c, c.requests, start, seen, obs); }
    else if c.SetStatus? && AccountR(c.account) in seen {
      assert Stands(db, AccountR(c.account), seen[AccountR(c.account)]);
    }
  }

  // ---------------------------------------------------------------- the books

  // The signed sum of an account's entries.
  function Signed(entries: seq<Entry>, a: Id): int {
    if |entries| == 0 then 0
    else
      var last := entries[|entries| - 1].leg;
      Signed(entries[..|entries| - 1], a) + if last.account == a then last.Signed() else 0
  }

  // Every balance is the signed sum of the account's history, and no user is overdrawn.
  ghost predicate BalancesMatch(db: Db) {
    && (forall a :: AccountR(a) in db.rows ==>
          && db.rows[AccountR(a)].Account?
          && db.rows[AccountR(a)].balance == Signed(db.entries, a)
          && (!db.rows[AccountR(a)].system ==> db.rows[AccountR(a)].balance >= 0))
    && (forall i :: 0 <= i < |db.entries| ==> AccountR(db.entries[i].leg.account) in db.rows)
  }

  // Each entry's balance_after is the sum of everything up to it, and ids rise within an account.
  ghost predicate RunningBalances(db: Db) {
    && (forall i :: 0 <= i < |db.entries| ==>
          db.entries[i].leg.balanceAfter == Signed(db.entries[..i + 1], db.entries[i].leg.account))
    && (forall i, j :: 0 <= i < j < |db.entries| && db.entries[i].leg.account == db.entries[j].leg.account ==>
          db.entries[i].id < db.entries[j].id)
  }

  // The i-th transfer has exactly the entries 2i and 2i+1: a debit of the payer, a credit of the payee.
  ghost predicate DoubleEntry(db: Db) {
    && |db.entries| == 2 * |db.log|
    && (forall i {:trigger db.log[i]} :: 0 <= i < |db.log| ==>
          var t := db.log[i];
          var debit := db.entries[2 * i].leg;
          var credit := db.entries[2 * i + 1].leg;
          && t.amount > 0 && t.from != t.to
          && debit == Leg(t.id, t.from, DEBIT, t.amount, debit.balanceAfter, t.createdAt)
          && credit == Leg(t.id, t.to, CREDIT, t.amount, credit.balanceAfter, t.createdAt))
  }

  // One status row for each committed transfer, and no transfer id twice.
  ghost predicate TransfersNamed(db: Db) {
    && (forall i, j :: 0 <= i < j < |db.log| ==> db.log[i].id != db.log[j].id)
    && (forall i :: 0 <= i < |db.log| ==> TransferR(db.log[i].id) in db.rows)
    && (forall x :: TransferR(x) in db.rows ==>
          db.rows[TransferR(x)].TransferStatus? && exists t :: t in db.log && t.id == x)
  }

  ghost predicate Books(db: Db) {
    BalancesMatch(db) && RunningBalances(db) && DoubleEntry(db) && TransfersNamed(db)
  }

  lemma {:induction false} SignedConcat(xs: seq<Entry>, ys: seq<Entry>, a: Id)
    ensures Signed(xs + ys, a) == Signed(xs, a) + Signed(ys, a)
  {
    if |ys| == 0 {
      assert xs + ys == xs;
    } else {
      var front := ys[..|ys| - 1];
      assert (xs + ys)[..|xs + ys| - 1] == xs + front;
      SignedConcat(xs, front, a);
    }
  }

  lemma SignedPair(x: Entry, y: Entry, a: Id)
    ensures Signed([x, y], a) == (if x.leg.account == a then x.leg.Signed() else 0)
                                 + (if y.leg.account == a then y.leg.Signed() else 0)
    ensures Signed([x], a) == if x.leg.account == a then x.leg.Signed() else 0
  {
    assert [x, y] == [x] + [y];
    SignedConcat([x], [y], a);
    assert [x][..0] == [] && [y][..0] == [];
  }

  lemma {:induction false} NoEntriesNoBalance(entries: seq<Entry>, a: Id)
    requires forall i :: 0 <= i < |entries| ==> entries[i].leg.account != a
    ensures Signed(entries, a) == 0
  {
    if |entries| > 0 {
      NoEntriesNoBalance(entries[..|entries| - 1], a);
    }
  }

  // The sum before a movement, also for the account it creates.
  lemma SignedBefore(db: Db, a: Id)
    requires BalancesMatch(db)
    ensures Before(db, a).Account? && Before(db, a).balance == Signed(db.entries, a)
  {
    if AccountR(a) !in db.rows {
      NoEntriesNoBalance(db.entries, a);
    }
  }

  lemma MovementKeepsBalances(db: Db, e: Effect, self: Id, first: nat)
    requires Books(db) && Fresh(db, self) && MovesMoney(db, e, self)
    ensures BalancesMatch(Apply(db, e, first))
  {
    var t := e.moved.value;
    var db' := Apply(db, e, first);
    var added := Number(e.legs, first);
    assert added == [Entry(first, e.legs[0]), Entry(first + 1, e.legs[1])];
    forall a | AccountR(a) in db'.rows
      ensures db'.rows[AccountR(a)].Account? && db'.rows[AccountR(a)].balance == Signed(db'.entries, a)
      ensures !db'.rows[AccountR(a)].system ==> db'.rows[AccountR(a)].balance >= 0
    {
      SignedConcat(db.entries, added, a);
      SignedPair(added[0], added[1], a);
      SignedBefore(db, a);
    }
  }

  lemma NewEntryRuns(db: Db, e: Effect, self: Id, first: nat, k: nat)
    requires BalancesMatch(db) && MovesMoney(db, e, self) && k < 2
    ensures e.legs[k].balanceAfter == Signed(db.entries + Number(e.legs, first)[..k + 1], e.legs[k].account)
  {
    var added := Number(e.legs, first);
    var a := e.legs[k].account;
    SignedBefore(db, a);
    SignedConcat(db.entries, added[..k + 1], a);
    SignedPair(added[0], added[1], a);
    assert added[..k + 1] == if k == 0 then [added[0]] else [added[0], added[1]];
  }

  lemma MovementKeepsRunning(db: Db, e: Effect, self: Id, first: nat)
    requires BalancesMatch(db) && RunningBalances(db) && MovesMoney(db, e, self) && NumberedAbove(db, e.legs, first)
    ensures RunningBalances(Apply(db, e, first))
  {
    var db' := Apply(db, e, first);
    var n := |db.entries|;
    var added := Number(e.legs, first);
    forall i | 0 <= i < |db'.entries|
      ensures db'.entries[i].leg.balanceAfter == Signed(db'.entries[..i + 1], db'.entries[i].leg.account)
    {
      if i < n {
        assert db'.entries[..i + 1] == db.entries[..i + 1];
      } else {
        NewEntryRuns(db, e, self, first, i - n);
        assert db'.entries[..i + 1] == db.entries + added[..i - n + 1];
      }
    }
    NewIdsRise(db, e.legs, first);
  }

  lemma NewIdsRise(db: Db, legs: seq<Leg>, first: nat)
    requires RunningBalances(db) && NumberedAbove(db, legs, first)
    ensures var all := db.entries + Number(legs, first);
            forall i, j :: 0 <= i < j < |all| && all[i].leg.account == all[j].leg.account ==> all[i].id < all[j].id
  {
    var n := |db.entries|;
    var all := db.entries + Number(legs, first);
    forall i, j | 0 <= i < j < |all| && all[i].leg.account == all[j].leg.account ensures all[i].id < all[j].id {
      if i < n <= j {
        assert db.entries[i] in db.entries && legs[j - n] in legs;
      }
    }
  }

  lemma MovementKeepsPairs(db: Db, e: Effect, self: Id, first: nat)
    requires DoubleEntry(db) && TransfersNamed(db) && Fresh(db, self) && MovesMoney(db, e, self)
    requires forall x :: TransferR(x) in e.writes ==> x == self || (TransferR(x) in db.rows && e.writes[TransferR(x)].TransferStatus?)
    ensures DoubleEntry(Apply(db, e, first)) && TransfersNamed(Apply(db, e, first))
  {
    var t := e.moved.value;
    var db' := Apply(db, e, first);
    var n := |db.log|;
    assert db'.log == db.log + [t] && db'.log[n] == t;
    forall i {:trigger db'.log[i]} | 0 <= i < |db'.log|
      ensures var debit := db'.entries[2 * i].leg;
              var credit := db'.entries[2 * i + 1].leg;
              && db'.log[i].amount > 0 && db'.log[i].from != db'.log[i].to
              && debit == Leg(db'.log[i].id, db'.log[i].from, DEBIT, db'.log[i].amount, debit.balanceAfter, db'.log[i].createdAt)
              && credit == Leg(db'.log[i].id, db'.log[i].to, CREDIT, db'.log[i].amount, credit.balanceAfter, db'.log[i].createdAt)
      ensures TransferR(db'.log[i].id) in db'.rows
    {
      if i < n {
        assert db'.log[i] == db.log[i];
      }
    }
    forall x | TransferR(x) in db'.rows
      ensures db'.rows[TransferR(x)].TransferStatus? && exists u :: u in db'.log && u.id == x
    {
      if x == self {
        assert t in db'.log;
      } else {
        assert TransferR(x) in db.rows;
        var u :| u in db.log && u.id == x;
        assert u in db'.log;
      }
    }
  }

  // Only a reversal writes the status row of a transfer that is not its own.
  ghost predicate WritesTransferRows(db: Db, c: Command, self: Id, e: Effect) {
    forall x :: TransferR(x) in e.writes ==>
      e.writes[TransferR(x)].TransferStatus? && (x == self || (c.Reverse? && TransferR(x) in db.rows))
  }

  lemma ReverseTransferRows(p: Policy, db: Db, c: Command, self: Id, start: Instant, seen: Seen, obs: Obs)
    requires c.Reverse? && AllStand(db, seen)
    requires PlanReverse(p, c, self, start, seen, obs).Commit?
    ensures WritesTransferRows(db, c, self, PlanReverse(p, c, self, start, seen, obs).effect)
  {
    if PlanReverse(p, c, self, start, seen, obs).effect != NO_EFFECT {
      var r := TransferR(obs[Original(c.original)].found.value.id);
      assert Stands(db, r, seen[r]);
    }
  }

  lemma PaymentTransferRows(p: Policy, db: Db, c: Command, self: Id, start: Instant, seen: Seen, obs: Obs)
    requires c.Send? || c.Accept? || c.Register?
    requires Plan(p, c, self, start, seen, obs).Commit?
    ensures WritesTransferRows(db, c, self, Plan(p, c, self, start, seen, obs).effect)
  {
  }

  lemma RunTransferRows(p: Policy, db: Db, c: Command, self: Id, start: Instant, seen: Seen, obs: Obs)
    requires c.Run? && PlanRun(p, c, self, start, seen, obs).Commit?
    ensures WritesTransferRows(db, c, self, PlanRun(p, c, self, start, seen, obs).effect)
  {
  }

  lemma TransferRowsWritten(p: Policy, db: Db, c: Command, self: Id, start: Instant, seen: Seen, obs: Obs)
    requires AllStand(db, seen)
    requires Plan(p, c, self, start, seen, obs).Commit?
    ensures WritesTransferRows(db, c, self, Plan(p, c, self, start, seen, obs).effect)
  {
    if c.Send? || c.Accept? || c.Register? { PaymentTransferRows(p, db, c, self, start, seen, obs); }
    else if c.Run? { RunTransferRows(p, db, c, self, start, seen, obs); }
    else if c.Reverse? { ReverseTransferRows(p, db, c, self, start, seen, obs); }
    else if c.ExpireDue? { ExpireCommits(c, c.requests, start, seen, obs); }
  }

  // Conservation, non-negative users, running balances and complete double entries survive every commit.
  lemma AtomicKeepsBooks(p: Policy, db: Db, c: Command, self: Id, start: Instant, seen: Seen, obs: Obs,
                         e: Effect, first: nat, reply: Reply, db': Db)
    requires Books(db)
    requires Atomic(p, db, c, self, start, seen, obs, e, first, reply, db')
    ensures Books(db')
    ensures db.entries <= db'.entries && db.log <= db'.log
  {
    CommitMovesOrKeepsMoney(p, db, c, self, start, seen, obs);
    TransferRowsWritten(p, db, c, self, start, seen, obs);
    if e.moved.Some? {
      MovementKeepsBalances(db, e, self, first);
      MovementKeepsRunning(db, e, self, first);
      MovementKeepsPairs(db, e, self, first);
    } else {
      assert db'.entries == db.entries && db'.log == db.log;
    }
  }
}
