/**
 What one payment, run with nobody else about, does to everything that later payments look at.
 */
module Payments {
  import opened Calendar
  import opened Store
  import opened Scripts
  import opened Serializability
  import opened Alone
  import opened Verdicts
  import opened Promises
  import opened Outcomes

  // ---------------------------------------------------------------- one movement

  predicate CanPay(db: Db, a: Id, amount: int) {
    IsAccountRow(db, a) && var row := db.rows[AccountR(a)]; row.status.ACTIVE? && (row.system || row.balance >= amount)
  }

  predicate CanReceive(db: Db, a: Id) {
    IsAccountRow(db, a) && !db.rows[AccountR(a)].status.CLOSED?
  }

  // An ordinary account that can be used.
  predicate Holds(db: Db, a: Id, balance: int) {
    IsAccountRow(db, a) && var row := db.rows[AccountR(a)]; !row.system && row.status.ACTIVE? && row.balance == balance
  }

  // The account `a` once `t` has gone through.
  function AccountAfter(row: Option<Row>, t: Transfer, a: Id): Option<Row> {
    if row.None? || !row.value.Account? then row
    else if a == t.from then Some(Moved(row.value, -t.amount))
    else if a == t.to then Some(Moved(row.value, t.amount))
    else row
  }

  // What the velocity limit and the daily cap count.
  predicate CountsAsSent(t: Transfer, a: Id, since: int) {
    t.from == a && (t.kind == P2P || t.kind == REQUEST_SETTLEMENT) && t.createdAt >= since
  }

  predicate CountsAsSpent(t: Transfer, a: Id, since: int) {
    t.from == a && (t.kind == P2P || t.kind == REQUEST_SETTLEMENT || t.kind == SCHEDULED) && t.createdAt >= since
  }

  ghost predicate AccountsMoved(db: Db, db': Db, t: Transfer) {
    forall a: Id :: Lookup(db', AccountR(a)) == AccountAfter(Lookup(db, AccountR(a)), t, a)
  }

  ghost predicate SentMoved(db: Db, db': Db, t: Transfer) {
    forall a, since :: SentSince(db'.log, a, since)
                       == SentSince(db.log, a, since) + if CountsAsSent(t, a, since) then 1 else 0
  }

  ghost predicate SpentMoved(db: Db, db': Db, t: Transfer) {
    forall a, since :: OutboundSince(db'.rows, db'.log, a, since)
                       == OutboundSince(db.rows, db.log, a, since) + if CountsAsSpent(t, a, since) then t.amount else 0
  }

  // `t` went through, and that is all that happened to money.
  ghost predicate Paid(db: Db, db': Db, t: Transfer) {
    AccountsMoved(db, db', t) && SentMoved(db, db', t) && SpentMoved(db, db', t)
  }

  lemma PostingGoes(db: Db, t: Transfer)
    requires t.amount > 0 && t.from != t.to && CanPay(db, t.from, t.amount) && CanReceive(db, t.to)
    ensures PostingOn(db, t).Posted?
  {
  }

  // The ledger posts a transfer exactly when its amount is positive and its two accounts can do it.
  lemma PostsIff(db: Db, t: Transfer)
    ensures PaymentRefusal(db, t).None?
            <==> t.amount > 0 && t.from != t.to && CanPay(db, t.from, t.amount) && CanReceive(db, t.to)
  {
  }

  lemma {:induction false} SpentStands(rows: map<Resource, Row>, rows': map<Resource, Row>, log: seq<Transfer>, a: Id,
                                       since: int)
    requires forall t :: t in log ==> (Completed(rows', t) <==> Completed(rows, t))
    ensures OutboundSince(rows', log, a, since) == OutboundSince(rows, log, a, since)
  {
    if |log| > 0 {
      assert log[|log| - 1] in log;
      SpentStands(rows, rows', log[..|log| - 1], a, since);
    }
  }

  lemma PaymentMoves(db: Db, t: Transfer, first: nat)
    requires IsAccountRow(db, t.from) && IsAccountRow(db, t.to) && t.from != t.to
    ensures AccountsMoved(db, PaymentMade(db, t, first), t)
  {
  }

  lemma PaymentCounts(db: Db, db': Db, t: Transfer)
    requires db'.log == db.log + [t] && Lookup(db', TransferR(t.id)) == Some(TransferStatus(false))
    requires forall x :: x in db.log ==> x.id != t.id && Lookup(db', TransferR(x.id)) == Lookup(db, TransferR(x.id))
    ensures SentMoved(db, db', t) && SpentMoved(db, db', t)
  {
    assert db'.log[..|db.log|] == db.log && Completed(db'.rows, t);
    forall x | x in db.log ensures Completed(db'.rows, x) <==> Completed(db.rows, x) {
      assert Lookup(db', TransferR(x.id)) == Lookup(db, TransferR(x.id));
    }
    forall a, since
      ensures OutboundSince(db'.rows, db'.log, a, since)
              == OutboundSince(db.rows, db.log, a, since) + if CountsAsSpent(t, a, since) then t.amount else 0
    {
      SpentStands(db.rows, db'.rows, db.log, a, since);
    }
  }

  // A payment and rows that are neither accounts nor transfers.
  ghost predicate PaidAlongside(db: Db, db': Db, t: Transfer, first: nat)
    requires IsAccountRow(db, t.from) && IsAccountRow(db, t.to)
  {
    var paid := PaymentMade(db, t, first);
    && db'.log == paid.log && db'.entries == paid.entries
    && (forall r: Resource :: r.AccountR? || r.TransferR? ==> Lookup(db', r) == Lookup(paid, r))
  }

  lemma PaymentPays(db: Db, db': Db, t: Transfer, first: nat)
    requires IsAccountRow(db, t.from) && IsAccountRow(db, t.to) && t.from != t.to
    requires PaidAlongside(db, db', t, first) && forall x :: x in db.log ==> x.id != t.id
    ensures Paid(db, db', t)
  {
    PaymentMoves(db, t, first);
    forall a: Id ensures Lookup(db', AccountR(a)) == AccountAfter(Lookup(db, AccountR(a)), t, a) {
      assert Lookup(db', AccountR(a)) == Lookup(PaymentMade(db, t, first), AccountR(a));
    }
    assert Lookup(db', TransferR(t.id)) == Lookup(PaymentMade(db, t, first), TransferR(t.id));
    forall x | x in db.log ensures Lookup(db', TransferR(x.id)) == Lookup(db, TransferR(x.id)) {
      assert Lookup(db', TransferR(x.id)) == Lookup(PaymentMade(db, t, first), TransferR(x.id));
    }
    PaymentCounts(db, db', t);
  }

  // ---------------------------------------------------------------- a send

  // Everything a send is checked against.
  predicate SendAllowed(p: Policy, db: Db, c: Command, now: Instant) {
    && c.Send? && c.payee.Some? && c.payee.value != c.user
    && p.minTransfer <= c.amount <= p.maxTransfer && c.amount > 0
    && KeyR(c.user, c.key) !in db.rows
    && SentSince(db.log, c.user, now as int - p.window) < p.maxTransfers
    && OutboundSince(db.rows, db.log, c.user, now as int - DAY) + c.amount <= p.dailyLimit
    && CanPay(db, c.user, c.amount) && CanReceive(db, c.payee.value)
  }

  // One key is new, and no other row except accounts and transfers.
  ghost predicate OnlyKey(db: Db, db': Db, k: Resource) {
    && k in db'.rows
    && (forall r :: r != k && !r.AccountR? && !r.TransferR? ==> Lookup(db', r) == Lookup(db, r))
  }

  ghost predicate SendDone(db: Db, db': Db, c: Command, self: Id, now: Instant, first: nat)
    requires c.Send? && c.payee.Some? && IsAccountRow(db, c.user) && IsAccountRow(db, c.payee.value)
  {
    var t := SendTransfer(c, self, now);
    var from, to := db.rows[AccountR(c.user)], db.rows[AccountR(c.payee.value)];
    && Paid(db, db', t) && OnlyKey(db, db', KeyR(c.user, c.key))
    && db'.entries == db.entries + Number(LegsOf(t, from.balance - c.amount, to.balance + c.amount), first)
  }

  lemma SendRefusalIff(p: Policy, db: Db, c: Command, self: Id, now: Instant)
    requires c.Send? && KeyR(c.user, c.key) !in db.rows && p.minTransfer <= c.amount <= p.maxTransfer
    ensures SendRefusal(p, db, c, self, now).None? <==> SendAllowed(p, db, c, now)
  {
    if c.payee.Some? {
      PostsIff(db, SendTransfer(c, self, now));
    }
  }

  // The outcome of a verdict, as the caller sees it.
  function ReplyOf(v: Next): Outcome<Reply>
    requires v.Commit? || v.Fail?
  {
    if v.Commit? then Ok(v.reply) else Err(v.error)
  }

  function DbAfter(db: Db, v: Next, first: nat): Db {
    if v.Commit? then Apply(db, v.effect, first) else db
  }

  lemma VerdictPromised(p: Policy, db: Db, c: Command, self: Id, now: Instant, first: nat)
    ensures var v := Verdict(p, db, c, self, now);
            (v.Commit? || v.Fail?) && Promised(p, db, c, self, now, first, DbAfter(db, v, first), ReplyOf(v))
  {
    AloneEnds(p, db, c, self, now);
    var v := Verdict(p, db, c, self, now);
    VerdictIsPromised(p, db, c, self, now, first, DbAfter(db, v, first), ReplyOf(v));
  }

  // Under a new key, a send alone goes through if and only if it passes every check.
  lemma SendGoesThroughIff(p: Policy, db: Db, c: Command, self: Id, now: Instant)
    requires c.Send? && KeyR(c.user, c.key) !in db.rows
    ensures Verdict(p, db, c, self, now).Commit? <==> SendAllowed(p, db, c, now)
  {
    VerdictPromised(p, db, c, self, now, 0);
    if p.minTransfer <= c.amount <= p.maxTransfer {
      SendRefusalIff(p, db, c, self, now);
    }
  }

  lemma SendAlongside(p: Policy, db: Db, c: Command, self: Id, now: Instant, first: nat, db': Db, r: Outcome<Reply>)
    requires SendAllowed(p, db, c, now) && SendPromise(p, db, c, self, now, first, db', r)
    ensures PaidAlongside(db, db', SendTransfer(c, self, now), first) && OnlyKey(db, db', KeyR(c.user, c.key))
  {
    SendRefusalIff(p, db, c, self, now);
  }

  lemma SendIsDone(p: Policy, db: Db, c: Command, self: Id, now: Instant, first: nat, db': Db, r: Outcome<Reply>)
    requires SendAllowed(p, db, c, now) && SendPromise(p, db, c, self, now, first, db', r)
    requires forall x :: x in db.log ==> x.id != self
    ensures SendDone(db, db', c, self, now, first)
  {
    SendAlongside(p, db, c, self, now, first, db', r);
    PaymentPays(db, db', SendTransfer(c, self, now), first);
  }

  // A send that is allowed, alone, goes through.
  lemma SendCommits(p: Policy, db: Db, c: Command, self: Id, now: Instant, first: nat)
    requires SendAllowed(p, db, c, now) && forall x :: x in db.log ==> x.id != self
    ensures Verdict(p, db, c, self, now).Commit?
    ensures SendDone(db, Apply(db, Verdict(p, db, c, self, now).effect, first), c, self, now, first)
  {
    SendGoesThroughIff(p, db, c, self, now);
    VerdictPromised(p, db, c, self, now, first);
    var v := Verdict(p, db, c, self, now);
    SendIsDone(p, db, c, self, now, first, Apply(db, v.effect, first), Ok(v.reply));
  }

  // ---------------------------------------------------------------- a settlement

  predicate SettlementAllowed(p: Policy, db: Db, c: Command, now: Instant) {
    && c.Accept? && KeyR(c.user, c.key) !in db.rows
    && SettleableRow(Lookup(db, RequestR(c.request)), c.user, now)
    && var row := db.rows[RequestR(c.request)];
    && row.amount > 0 && row.requester != c.user
    && OutboundSince(db.rows, db.log, c.user, now as int - DAY) + row.amount <= p.dailyLimit
    && CanPay(db, c.user, row.amount) && CanReceive(db, row.requester)
  }

  // One key is new and one request is settled, and no other row changes except accounts and transfers.
  ghost predicate OnlyKeyAndRequest(db: Db, db': Db, k: Resource, q: Resource) {
    && k in db'.rows
    && (forall r :: r != k && r != q && !r.AccountR? && !r.TransferR? ==> Lookup(db', r) == Lookup(db, r))
  }

  lemma AcceptRefusalIff(p: Policy, db: Db, c: Command, self: Id, now: Instant)
    requires c.Accept? && KeyR(c.user, c.key) !in db.rows
    ensures AcceptRefusal(p, db, c, self, now).None? <==> SettlementAllowed(p, db, c, now)
  {
    var row := Lookup(db, RequestR(c.request));
    if row.Some? && row.value.Request? {
      PostsIff(db, SettlementTransfer(c, self, now, row.value));
    }
  }

  // Under a new key, accepting a request alone goes through if and only if it is the payer's to settle,
  // pending and in time, and its payment passes every check.
  lemma SettlementGoesThroughIff(p: Policy, db: Db, c: Command, self: Id, now: Instant)
    requires c.Accept? && KeyR(c.user, c.key) !in db.rows
    ensures Verdict(p, db, c, self, now).Commit? <==> SettlementAllowed(p, db, c, now)
  {
    VerdictPromised(p, db, c, self, now, 0);
    AcceptRefusalIff(p, db, c, self, now);
  }

  lemma SettlementAlongside(p: Policy, db: Db, c: Command, self: Id, now: Instant, first: nat, db': Db, r: Outcome<Reply>)
    requires SettlementAllowed(p, db, c, now) && AcceptPromise(p, db, c, self, now, first, db', r)
    ensures PaidAlongside(db, db', SettlementTransfer(c, self, now, db.rows[RequestR(c.request)]), first)
    ensures OnlyKeyAndRequest(db, db', KeyR(c.user, c.key), RequestR(c.request))
  {
    AcceptRefusalIff(p, db, c, self, now);
  }

  lemma SettlementCommits(p: Policy, db: Db, c: Command, self: Id, now: Instant, first: nat)
    requires SettlementAllowed(p, db, c, now) && forall x :: x in db.log ==> x.id != self
    ensures Verdict(p, db, c, self, now).Commit?
    ensures var db' := Apply(db, Verdict(p, db, c, self, now).effect, first);
            && Paid(db, db', SettlementTransfer(c, self, now, db.rows[RequestR(c.request)]))
            && OnlyKeyAndRequest(db, db', KeyR(c.user, c.key), RequestR(c.request))
  {
    SettlementGoesThroughIff(p, db, c, self, now);
    VerdictPromised(p, db, c, self, now, first);
    var v := Verdict(p, db, c, self, now);
    var db' := Apply(db, v.effect, first);
    SettlementAlongside(p, db, c, self, now, first, db', Ok(v.reply));
    PaymentPays(db, db', SettlementTransfer(c, self, now, db.rows[RequestR(c.request)]), first);
  }

  // ---------------------------------------------------------------- a reversal

  // The sender's own payment, not yet undone, young enough, and its receiver can pay it back.
  predicate Reversible(p: Policy, db: Db, c: Command, t: Transfer) {
    && c.Reverse? && t in db.log && t.id == c.original
    && t.from == c.user && t.kind != MINT && t.kind != REVERSAL
    && Lookup(db, TransferR(t.id)) == Some(TransferStatus(false))
    && c.clockMs - t.createdAt / 1000 <= p.reversalWindow * 1000
    && t.amount > 0 && t.from != t.to && CanPay(db, t.to, t.amount) && CanReceive(db, t.from)
  }

  // Under a new key, and transfers having ids of their own, a reversal alone goes through if and only if
  // the log holds such a payment.
  lemma ReversalGoesThroughIff(p: Policy, db: Db, c: Command, self: Id, now: Instant)
    requires c.Reverse? && KeyR(c.user, c.key) !in db.rows
    requires forall t, u :: t in db.log && u in db.log && t.id == u.id ==> t == u
    ensures Verdict(p, db, c, self, now).Commit? <==> exists t :: Reversible(p, db, c, t)
  {
    VerdictPromised(p, db, c, self, now, 0);
    FindTransferFinds(db.log, c.original);
    var found := FindTransfer(db.log, c.original);
    if found.Some? {
      PostsIff(db, ReversalTransfer(c, self, now, found.value));
      assert ReversalRefusal(p, db, c, self, now).None? ==> Reversible(p, db, c, found.value);
      assert forall t :: Reversible(p, db, c, t) ==> t == found.value;
    }
  }
}
