/**
 Any number of schedules whose owner cannot pay for them: a drain tries one batch of them, puts that
 off, and leaves the others due.
 */
module Owing {
  import opened Calendar
  import opened Store
  import opened Scripts
  import opened Engine
  import opened Alone
  import opened Services
  import opened Verdicts
  import opened Promises
  import opened System
  import opened Payments
  import opened Drain
  import opened Opening

  // Configurations under which `amount` may be ordered; where the bonus covers it and the day allows it,
  // people must be able to send, so as to spend the bonus first.
  predicate Orderable(p: Policy, amount: int) {
    && ValidPolicy(p) && p.retryBase >= 1 && p.maxAttempts >= 2 && p.signupBonus > 0
    && 0 < amount && p.minTransfer <= amount <= p.maxTransfer
    && (amount <= p.dailyLimit && amount <= p.signupBonus ==> p.maxTransfers >= 1)
  }

  function Unpaid(amount: int, now: Instant): Row {
    Schedule(PAYER, PAYEE, amount, DAILY, now, None, ScheduleStatus.ACTIVE, None, None)
  }

  function Ordering(key: nat, amount: int, now: Instant): Command {
    CreateSchedule(PAYER, key, 0, Some(PAYEE), amount, DAILY, now, None, now / 1000)
  }

  // The payer's account cannot pay `amount` now, for a reason that may pass.
  predicate CannotPay(p: Policy, db: Db, balance: int, amount: int, now: Instant) {
    && Holds(db, PAYER, balance) && CanReceive(db, PAYEE)
    && (balance < amount || OutboundSince(db.rows, db.log, PAYER, now as int - DAY) + amount > p.dailyLimit)
  }

  ghost predicate KeysBelow(db: Db, key: nat) {
    forall j: nat :: KeyR(PAYER, j) in db.rows ==> j < key
  }

  // `k` schedules are due now, all of them for a payment the payer cannot make.
  ghost predicate Queued(p: Policy, db: Db, k: nat, key: nat, n: nat, balance: int, amount: int, now: Instant) {
    && CannotPay(p, db, balance, amount, now) && KeysBelow(db, key)
    && (forall i: Id :: ScheduleR(i) in db.rows ==> i < n && db.rows[ScheduleR(i)] == Unpaid(amount, now))
    && (forall i: Id, due :: OccurrenceR(i, due) !in db.rows)
    && DueCount(db, now, n) == k
  }

  // ---------------------------------------------------------------- the queue grows

  function Ordered(key: nat, n: Id, amount: int, now: Instant): Effect {
    Effect(map[ScheduleR(n) := Unpaid(amount, now), KeyR(PAYER, key) := Key(0, Some(Reply(201, Created(n))))], None, [])
  }

  lemma OrderingCommits(p: Policy, db: Db, key: nat, n: Id, amount: int, now: Instant)
    requires Orderable(p, amount) && KeysBelow(db, key)
    ensures Verdict(p, db, Ordering(key, amount, now), n, now)
            == Commit(Ordered(key, n, amount, now), Reply(201, Created(n)))
  {
    OnlyRowEnds(p, db, Ordering(key, amount, now), n, now);
  }

  lemma StillCannotPay(p: Policy, db: Db, key: nat, n: Id, balance: int, amount: int, now: Instant, first: nat)
    requires CannotPay(p, db, balance, amount, now)
    ensures CannotPay(p, Apply(db, Ordered(key, n, amount, now), first), balance, amount, now)
  {
    var db' := Apply(db, Ordered(key, n, amount, now), first);
    assert db'.log == db.log;
    SpentStands(db.rows, db'.rows, db.log, PAYER, now as int - DAY);
  }

  lemma QueueGrows(p: Policy, db: Db, k: nat, key: nat, n: Id, balance: int, amount: int, now: Instant, first: nat, n': nat)
    requires Queued(p, db, k, key, n, balance, amount, now) && n < n'
    ensures Queued(p, Apply(db, Ordered(key, n, amount, now), first), k + 1, key + 1, n', balance, amount, now)
  {
    var db' := Apply(db, Ordered(key, n, amount, now), first);
    StillCannotPay(p, db, key, n, balance, amount, now, first);
    forall i: Id ensures i in DueIds(db', now, n') <==> i in DueIds(db, now, n) + {n} {
      assert i != n ==> Lookup(db', ScheduleR(i)) == Lookup(db, ScheduleR(i));
      assert Lookup(db', ScheduleR(n)) == Some(Unpaid(amount, now));
    }
    assert DueIds(db', now, n') == DueIds(db, now, n) + {n};
  }

  lemma OrderingGrows(p: Policy, db: Db, k: nat, key: nat, n: Id, balance: int, amount: int, now: Instant, first: nat,
                      n': nat, first': nat, db': Db, r: Outcome<Reply>)
    requires Orderable(p, amount) && Queued(p, db, k, key, n, balance, amount, now) && Issued(db', n', first')
    requires Ends(Verdict(p, db, Ordering(key, amount, now), n, now), db, first, db', r)
    ensures Queued(p, db', k + 1, key + 1, n', balance, amount, now)
  {
    OrderingCommits(p, db, key, n, amount, now);
    assert db' == Apply(db, Ordered(key, n, amount, now), first);
    assert ScheduleR(n) in db'.rows;
    QueueGrows(p, db, k, key, n, balance, amount, now, first, n');
  }

  lemma CannotPayIsRefused(p: Policy, db: Db, balance: int, amount: int, now: Instant)
    requires CannotPay(p, db, balance, amount, now) && 0 < amount
    ensures var refusal := Refusal(p, db, 0, now, Unpaid(amount, now));
            refusal == Some(LimitExceeded) || refusal == Some(InsufficientFunds)
  {
  }

  lemma QueuedIsDeferrable(p: Policy, db: Db, k: nat, key: nat, n: nat, balance: int, amount: int, now: Instant)
    requires Orderable(p, amount) && Queued(p, db, k, key, n, balance, amount, now)
    ensures AllDeferrable(p, db, now, now / 1000, n) && SchedulesBelow(db, n) && DueCount(db, now, n) == k
  {
    forall i | i in DueIds(db, now, n) ensures OnlyDeferrable(p, db, now, now / 1000, i) {
      assert Lookup(db, ScheduleR(i)).Some?;
      assert db.rows[ScheduleR(i)] == Unpaid(amount, now);
      CannotPayIsRefused(p, db, balance, amount, now);
    }
  }

  // ---------------------------------------------------------------- the balance falls

  function Spending(k: nat, amount: int): Command {
    Send(PAYER, k, 0, Some(PAYEE), amount)
  }

  // The payer has sent `k` payments, the last of them by `last`.
  ghost predicate Purse(db: Db, balance: int, k: nat, last: int) {
    && Holds(db, PAYER, balance) && CanReceive(db, PAYEE) && KeysBelow(db, k)
    && (forall since :: since > last ==> SentSince(db.log, PAYER, since) == 0)
    && (forall since :: since > last ==> OutboundSince(db.rows, db.log, PAYER, since) == 0)
    && (forall r :: r in db.rows ==> !r.ScheduleR? && !r.OccurrenceR?)
  }

  lemma OpenedIsPurse(p: Policy, db: Db)
    requires OpenedDb(p, db, STRIPES + 3)
    ensures Purse(db, p.signupBonus, 0, -1)
  {
    forall a, since ensures SentSince(db.log, a, since) == 0 && OutboundSince(db.rows, db.log, a, since) == 0 {
      MintsAreNotSpent(db.rows, db.log, a, since);
    }
  }

  lemma PurseAllows(p: Policy, db: Db, balance: int, k: nat, amount: int, last: int, now: Instant)
    requires Orderable(p, amount) && amount <= p.dailyLimit && amount <= p.signupBonus
    requires Purse(db, balance, k, last) && amount <= balance
    requires last < now as int - p.window && last < now as int - DAY
    ensures SendAllowed(p, db, Spending(k, amount), now)
  {
  }

  lemma PurseShrinks(db: Db, db': Db, balance: int, k: nat, last: int, t: Transfer)
    requires Purse(db, balance, k, last) && Paid(db, db', t) && OnlyKey(db, db', KeyR(PAYER, k))
    requires t.from == PAYER && t.to == PAYEE && last <= t.createdAt
    ensures Purse(db', balance - t.amount, k + 1, t.createdAt)
  {
    assert Lookup(db', AccountR(PAYER)) == AccountAfter(Lookup(db, AccountR(PAYER)), t, PAYER);
    assert Lookup(db', AccountR(PAYEE)) == AccountAfter(Lookup(db, AccountR(PAYEE)), t, PAYEE);
    forall j: nat | KeyR(PAYER, j) in db'.rows ensures j < k + 1 {
      assert j != k ==> Lookup(db', KeyR(PAYER, j)) == Lookup(db, KeyR(PAYER, j));
    }
    forall r | r in db'.rows ensures !r.ScheduleR? && !r.OccurrenceR? {
      assert r != KeyR(PAYER, k) && !r.AccountR? && !r.TransferR? ==> Lookup(db', r) == Lookup(db, r);
    }
  }

  lemma EmptyPurseCannotPay(p: Policy, db: Db, balance: int, k: nat, n: nat, last: int, amount: int, now: Instant)
    requires Purse(db, balance, k, last) && last < now as int - DAY && (balance < amount || p.dailyLimit < amount)
    ensures Queued(p, db, 0, k, n, balance, amount, now)
  {
    assert DueIds(db, now, n) == {};
  }

  // ---------------------------------------------------------------- the calls, from the empty system

  method RegisterNext(s: Session, now: Instant)
    requires ValidPolicy(s.p) && s.p.signupBonus > 0 && s.Valid() && GoodDb(s.p, s.db, s.replies)
    requires s.nextTx > STRIPES && OpenedDb(s.p, s.db, s.nextTx)
    modifies s
    ensures s.Valid() && GoodDb(s.p, s.db, s.replies)
    ensures s.nextTx == old(s.nextTx) + 1 && OpenedDb(s.p, s.db, s.nextTx)
  {
    var r := s.Register(Register(1), now);
    CallKeepsGood(s.p, old(s.db), old(s.replies), Register(1), old(s.nextTx), now, old(s.nextEntry), s.db, r);
    RegisterEnds(s.p, old(s.db), Register(1), old(s.nextTx), now);
    Minted(s.p, old(s.db), Register(1), old(s.nextTx), now, old(s.nextEntry));
  }

  method SpendNext(s: Session, balance: int, k: nat, amount: int, ghost last: int, now: Instant)
    requires Orderable(s.p, amount) && s.Valid() && GoodDb(s.p, s.db, s.replies)
    requires amount <= s.p.dailyLimit && amount <= s.p.signupBonus && amount <= balance
    requires Purse(s.db, balance, k, last) && last < now as int - s.p.window && last < now as int - DAY
    modifies s
    ensures s.Valid() && GoodDb(s.p, s.db, s.replies) && Purse(s.db, balance - amount, k + 1, now)
  {
    PurseAllows(s.p, s.db, balance, k, amount, last, now);
    SendCommits(s.p, s.db, Spending(k, amount), s.nextTx, now, s.nextEntry);
    var r := s.SendMoney(Spending(k, amount), now);
    CallKeepsGood(s.p, old(s.db), old(s.replies), Spending(k, amount), old(s.nextTx), now, old(s.nextEntry), s.db, r);
    PurseShrinks(old(s.db), s.db, balance, k, last, SendTransfer(Spending(k, amount), old(s.nextTx), now));
  }

  // Spends the bonus, a payment at a time and far enough apart, until it does not cover another.
  method SpendBonus(s: Session, amount: int, from: Instant) returns (balance: int, k: nat, now: Instant)
    requires Orderable(s.p, amount) && s.Valid() && GoodDb(s.p, s.db, s.replies)
    requires Purse(s.db, s.p.signupBonus, 0, -1)
    modifies s
    ensures s.Valid() && GoodDb(s.p, s.db, s.replies) && now >= from
    ensures Queued(s.p, s.db, 0, k, s.nextTx, balance, amount, now)
  {
    ghost var last := -1;
    balance, k, now := s.p.signupBonus, 0, from + s.p.window + DAY + 1;
    while amount <= balance && amount <= s.p.dailyLimit
      invariant s.Valid() && GoodDb(s.p, s.db, s.replies) && now >= from && balance <= s.p.signupBonus
      invariant Purse(s.db, balance, k, last) && last < now as int - s.p.window && last < now as int - DAY
      decreases balance
    {
      SpendNext(s, balance, k, amount, last, now);
      last := now;
      balance, k, now := balance - amount, k + 1, now + s.p.window + DAY + 1;
    }
    EmptyPurseCannotPay(s.p, s.db, balance, k, s.nextTx, last, amount, now);
  }

  method OrderNext(s: Session, k: nat, key: nat, balance: int, amount: int, now: Instant)
    requires Orderable(s.p, amount) && s.Valid() && GoodDb(s.p, s.db, s.replies)
    requires Queued(s.p, s.db, k, key, s.nextTx, balance, amount, now)
    modifies s
    ensures s.Valid() && GoodDb(s.p, s.db, s.replies)
    ensures Queued(s.p, s.db, k + 1, key + 1, s.nextTx, balance, amount, now)
  {
    ghost var c, n := Ordering(key, amount, now), s.nextTx;
    var r := s.CreateSchedule(Ordering(key, amount, now), now);
    CallKeepsGood(s.p, old(s.db), old(s.replies), c, n, now, old(s.nextEntry), s.db, r);
    OrderingGrows(s.p, old(s.db), k, key, n, balance, amount, now, old(s.nextEntry), s.nextTx, s.nextEntry, s.db, r);
  }

  // Two people register; one of them spends its bonus and then orders `due` payments it cannot make.
  method Owe(p: Policy, due: nat, amount: int, from: Instant)
    returns (s: Session, balance: int, key: nat, now: Instant)
    requires Orderable(p, amount)
    ensures fresh(s) && s.p == p && s.Valid() && GoodDb(p, s.db, s.replies) && now >= from
    ensures Queued(p, s.db, due, key, s.nextTx, balance, amount, now)
  {
    s := new Session(p);
    GenesisIsGood(p);
    assert AccountR(1) in s.db.rows;
    RegisterNext(s, from);
    RegisterNext(s, from);
    OpenedIsPurse(p, s.db);
    balance, key, now := SpendBonus(s, amount, from);
    var k := 0;
    while k < due
      invariant k <= due && s.Valid() && GoodDb(p, s.db, s.replies)
      invariant Queued(p, s.db, k, key, s.nextTx, balance, amount, now)
    {
      OrderNext(s, k, key, balance, amount, now);
      k, key := k + 1, key + 1;
    }
  }

  // However large the batch, a drain can stop with schedules due: with more of them than fit one batch
  // and nobody to pay, it leaves due exactly those that do not fit.
  method DrainLeavesDue(p: Policy, due: nat, limit: nat, maxTicks: nat, amount: int, from: Instant)
    returns (s: Session, n: nat, now: Instant)
    requires Orderable(p, amount) && maxTicks >= 1
    ensures fresh(s) && s.p == p && Ready(s) && SchedulesBelow(s.db, n) && now >= from
    ensures DueCount(s.db, now, n) == due - Smaller(due, limit)
  {
    var balance, key;
    s, balance, key, now := Owe(p, due, amount, from);
    n := s.nextTx;
    QueuedIsDeferrable(p, s.db, due, key, n, balance, amount, now);
    var total, ticks, last := DrainSchedules(s, now, now / 1000, maxTicks, limit, n);
  }
}
