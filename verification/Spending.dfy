/**
 How an account comes to stand just below the daily cap with a payment to make and another asked of
 it, from the empty system and under the shipped configuration among others.
 */
module Spending {
  import opened Calendar
  import opened Store
  import opened Scripts
  import opened Engine
  import opened Serializability
  import opened Alone
  import opened Verdicts
  import opened Promises
  import opened System
  import opened Payments
  import opened Opening
  import opened Overspend

  // `donors` people give the payer `amount` each, and the payer pays `amount` out `spends` times, `gap`
  // apart; then it is about to send `send` and is asked for `asked`.
  datatype Course = Course(amount: int, donors: nat, spends: nat, gap: nat, send: int, asked: int)

  predicate Payable(p: Policy, amount: int) {
    0 < amount && p.minTransfer <= amount <= p.maxTransfer
  }

  // Configurations under which that can be done within a day and the velocity limit.
  predicate Feasible(p: Policy, c: Course) {
    && ValidPolicy(p) && p.signupBonus > 0 && p.maxTransfers >= 1
    && Payable(p, c.send) && Payable(p, c.asked)
    && (c.donors + c.spends > 0 ==> Payable(p, c.amount) && c.amount <= p.dailyLimit)
    && (c.donors > 0 ==> c.amount <= p.signupBonus)
    && (c.spends < p.maxTransfers || p.window < c.gap) && c.spends * c.gap <= DAY
    && c.spends * c.amount + c.send <= p.dailyLimit && c.spends * c.amount + c.asked <= p.dailyLimit
    && c.spends * c.amount + c.send + c.asked > p.dailyLimit
    && c.send + c.asked <= p.signupBonus + c.donors * c.amount - c.spends * c.amount
  }

  // The configuration the system ships with: a bonus of 100,000.00, payments of 1.00 to 50,000.00, 3
  // sends a minute, 200,000.00 a day.
  predicate Shipped(p: Policy) {
    && p.signupBonus == 10_000_000 && p.minTransfer == 100 && p.maxTransfer == 5_000_000 && p.dailyLimit == 20_000_000
    && p.window == 60 * SECOND && p.maxTransfers == 3 && p.maxAttempts == 3 && p.retryBase == 900
  }

  lemma ShippedIsFeasible(p: Policy)
    requires Shipped(p)
    ensures Feasible(p, Course(5_000_000, 3, 3, 60 * SECOND + 1, 5_000_000, 5_000_000))
  {
  }

  // ---------------------------------------------------------------- the stages

  function Donor(k: nat): Id {
    STRIPES + 3 + k
  }

  // The payer has paid `j` times, the last time at `last`.
  ghost predicate HasSpent(db: Db, j: nat, start: Instant, last: int, spent: int) {
    && (forall since :: SentSince(db.log, PAYER, since) <= j)
    && (forall since :: since > last ==> SentSince(db.log, PAYER, since) == 0)
    && (forall since :: since <= start ==> OutboundSince(db.rows, db.log, PAYER, since) == spent)
    && (forall n: nat :: n >= j ==> KeyR(PAYER, n) !in db.rows)
  }

  ghost predicate BothPeople(db: Db, balance: int) {
    Holds(db, PAYER, balance) && CanReceive(db, PAYEE) && KeyR(PAYEE, 0) !in db.rows
  }

  // `i` donors have given, and the payer has paid `j` times.
  ghost predicate Stage(p: Policy, s: State, c: Course, i: nat, j: nat, start: Instant) {
    && Reachable(p, s) && Quiet(s) && s.now == start + j * c.gap
    && BothPeople(s.db, p.signupBonus + i * c.amount - j * c.amount)
    && HasSpent(s.db, j, start, start as int + j * c.gap - c.gap, j * c.amount)
    && (forall k: nat :: i <= k < c.donors ==> Unspent(p, s.db, Donor(k)))
  }

  lemma StageBegins(p: Policy, s: State, c: Course)
    requires ValidPolicy(p) && Opened(p, s, STRIPES + 3 + c.donors)
    ensures Stage(p, s, c, 0, 0, s.now)
  {
    IdsAreFresh(p, s);
    OpenedIsUnspent(p, s.db, STRIPES + 3 + c.donors);
    assert Unspent(p, s.db, PAYER) && Unspent(p, s.db, PAYEE);
  }

  // ---------------------------------------------------------------- a donor gives

  function Giving(c: Course, i: nat): Command {
    Send(Donor(i), 0, 0, Some(PAYER), c.amount)
  }

  // What a payment of somebody else leaves of what the payer has spent.
  lemma PayerStays(db: Db, db': Db, t: Transfer, k: Resource, j: nat, start: Instant, last: int, spent: int)
    requires Paid(db, db', t) && OnlyKey(db, db', k) && HasSpent(db, j, start, last, spent)
    requires t.from != PAYER && forall n: nat :: k != KeyR(PAYER, n)
    ensures HasSpent(db', j, start, last, spent)
  {
    forall n: nat | n >= j ensures KeyR(PAYER, n) !in db'.rows {
      assert Lookup(db', KeyR(PAYER, n)) == Lookup(db, KeyR(PAYER, n));
    }
  }

  lemma PeopleAfter(db: Db, db': Db, t: Transfer, k: Resource, balance: int)
    requires Paid(db, db', t) && OnlyKey(db, db', k) && BothPeople(db, balance) && k != KeyR(PAYEE, 0)
    requires t.from != t.to && t.from != PAYEE
    ensures BothPeople(db', balance + (if t.to == PAYER then t.amount else 0) - (if t.from == PAYER then t.amount else 0))
  {
    assert Lookup(db', AccountR(PAYER)) == AccountAfter(Lookup(db, AccountR(PAYER)), t, PAYER);
    assert Lookup(db', AccountR(PAYEE)) == AccountAfter(Lookup(db, AccountR(PAYEE)), t, PAYEE);
    assert Lookup(db', KeyR(PAYEE, 0)) == Lookup(db, KeyR(PAYEE, 0));
  }

  lemma GivingIsAllowed(p: Policy, s: State, c: Course, i: nat, start: Instant)
    requires Feasible(p, c) && Stage(p, s, c, i, 0, start) && i < c.donors
    ensures SendAllowed(p, s.db, Giving(c, i), s.now)
  {
    assert Unspent(p, s.db, Donor(i));
  }

  lemma DonorGives(p: Policy, s: State, c: Course, i: nat, start: Instant) returns (s': State)
    requires Feasible(p, c) && Stage(p, s, c, i, 0, start) && i < c.donors
    ensures Stage(p, s', c, i + 1, 0, start)
  {
    GivingIsAllowed(p, s, c, i, start);
    s' := SendsAlone(p, s, Giving(c, i));
    var t, k := SendTransfer(Giving(c, i), s.nextTx, s.now), KeyR(Donor(i), 0);
    PeopleAfter(s.db, s'.db, t, k, p.signupBonus + i * c.amount);
    PayerStays(s.db, s'.db, t, k, 0, start, start as int - c.gap, 0);
    forall k: nat | i + 1 <= k < c.donors ensures Unspent(p, s'.db, Donor(k)) {
      assert Unspent(p, s.db, Donor(k));
      OthersStayUnspent(p, s.db, s'.db, t, KeyR(Donor(i), 0), Donor(k));
    }
    assert (i + 1) * c.amount == i * c.amount + c.amount;
  }

  lemma {:induction false} DonorsGive(p: Policy, s: State, c: Course, i: nat, start: Instant) returns (s': State)
    requires Feasible(p, c) && Stage(p, s, c, i, 0, start) && i <= c.donors
    ensures Stage(p, s', c, c.donors, 0, start)
    decreases c.donors - i
  {
    s' := s;
    if i < c.donors {
      s' := DonorGives(p, s, c, i, start);
      s' := DonorsGive(p, s', c, i + 1, start);
    }
  }

  // ---------------------------------------------------------------- the payer pays

  function Paying(c: Course, j: nat): Command {
    Send(PAYER, j, 0, Some(PAYEE), c.amount)
  }

  lemma OneMore(j: nat, n: nat, x: nat)
    requires j < n
    ensures (j + 1) * x == j * x + x && j * x + x <= n * x
  {
    assert n * x == (j + 1) * x + (n - j - 1) * x;
  }

  lemma WithinLimits(p: Policy, c: Course, j: nat)
    requires Feasible(p, c) && j < c.spends
    ensures j * c.gap <= DAY && (j + 1) * c.gap == j * c.gap + c.gap && (j + 1) * c.amount == j * c.amount + c.amount
    ensures j * c.amount + c.amount <= p.dailyLimit
    ensures p.signupBonus + c.donors * c.amount - j * c.amount >= c.amount
  {
    OneMore(j, c.spends, c.gap);
    OneMore(j, c.spends, c.amount);
  }

  lemma PayingIsAllowed(p: Policy, s: State, c: Course, j: nat, start: Instant)
    requires Feasible(p, c) && Stage(p, s, c, c.donors, j, start) && j < c.spends
    ensures SendAllowed(p, s.db, Paying(c, j), s.now)
  {
    WithinLimits(p, c, j);
    var since := s.now as int - p.window;
    assert SentSince(s.db.log, PAYER, since) <= j;
    assert p.window < c.gap ==> SentSince(s.db.log, PAYER, since) == 0;
    assert OutboundSince(s.db.rows, s.db.log, PAYER, s.now as int - DAY) == j * c.amount;
  }

  lemma PayerHasSpent(db: Db, db': Db, t: Transfer, j: nat, start: Instant, last: int, spent: int)
    requires Paid(db, db', t) && OnlyKey(db, db', KeyR(PAYER, j)) && HasSpent(db, j, start, last, spent)
    requires t.from == PAYER && t.kind == P2P && last <= t.createdAt && start <= t.createdAt
    ensures HasSpent(db', j + 1, start, t.createdAt, spent + t.amount)
  {
    forall n: nat | n >= j + 1 ensures KeyR(PAYER, n) !in db'.rows {
      assert Lookup(db', KeyR(PAYER, n)) == Lookup(db, KeyR(PAYER, n));
    }
  }

  lemma PayerPays(p: Policy, s: State, c: Course, j: nat, start: Instant) returns (s': State)
    requires Feasible(p, c) && Stage(p, s, c, c.donors, j, start) && j < c.spends
    ensures Stage(p, s', c, c.donors, j + 1, start)
  {
    PayingIsAllowed(p, s, c, j, start);
    WithinLimits(p, c, j);
    var s1 := SendsAlone(p, s, Paying(c, j));
    var t, k := SendTransfer(Paying(c, j), s.nextTx, s.now), KeyR(PAYER, j);
    PeopleAfter(s.db, s1.db, t, k, p.signupBonus + c.donors * c.amount - j * c.amount);
    PayerHasSpent(s.db, s1.db, t, j, start, start as int + j * c.gap - c.gap, j * c.amount);
    s' := TimePasses(p, s1, c.gap);
  }

  lemma {:induction false} PayerSpends(p: Policy, s: State, c: Course, j: nat, start: Instant) returns (s': State)
    requires Feasible(p, c) && Stage(p, s, c, c.donors, j, start) && j <= c.spends
    ensures Stage(p, s', c, c.donors, c.spends, start)
    decreases c.spends - j
  {
    s' := s;
    if j < c.spends {
      s' := PayerPays(p, s, c, j, start);
      s' := PayerSpends(p, s', c, j + 1, start);
    }
  }

  // ---------------------------------------------------------------- the request

  function Asking(asked: int, expires: Instant): Command {
    CreateRequest(PAYEE, 0, 0, Some(PAYER), asked, expires)
  }

  function AskedRow(asked: int, expires: Instant): Row {
    Request(PAYEE, PAYER, asked, expires, RequestStatus.PENDING, None)
  }

  lemma RequestIsMade(p: Policy, db: Db, asked: int, expires: Instant, n: Id, now: Instant, first: nat)
    requires Payable(p, asked) && KeyR(PAYEE, 0) !in db.rows
    ensures var v := Verdict(p, db, Asking(asked, expires), n, now);
            v.Commit? && RequestAdded(db, Apply(db, v.effect, first), RequestId(n, 0), AskedRow(asked, expires))
  {
    OnlyRowEnds(p, db, Asking(asked, expires), n, now);
  }

  ghost predicate RequestAdded(db: Db, db': Db, id: RequestId, row: Row) {
    && db'.log == db.log && Lookup(db', RequestR(id)) == Some(row)
    && (forall r :: r != RequestR(id) && r != KeyR(PAYEE, 0) ==> Lookup(db', r) == Lookup(db, r))
  }

  function RaceOf(c: Course, n: Id): Race {
    Race(PAYER, PAYEE, c.send, c.spends, c.spends + 1, RequestId(n, 0))
  }

  lemma SpendingStays(db: Db, db': Db, id: RequestId, row: Row, j: nat, start: Instant, last: int, spent: int)
    requires RequestAdded(db, db', id, row) && HasSpent(db, j, start, last, spent)
    ensures HasSpent(db', j, start, last, spent)
  {
    forall t ensures Completed(db'.rows, t) <==> Completed(db.rows, t) {
      assert Lookup(db', TransferR(t.id)) == Lookup(db, TransferR(t.id));
    }
    forall since | since <= start ensures OutboundSince(db'.rows, db'.log, PAYER, since) == spent {
      SpentStands(db.rows, db'.rows, db.log, PAYER, since);
    }
    forall n: nat | n >= j ensures KeyR(PAYER, n) !in db'.rows {
      assert Lookup(db', KeyR(PAYER, n)) == Lookup(db, KeyR(PAYER, n));
    }
  }

  // What the payer's state comes to when the request is there.
  ghost predicate Ready(p: Policy, db: Db, c: Course, start: Instant, now: Instant, n: Id) {
    && Holds(db, PAYER, p.signupBonus + c.donors * c.amount - c.spends * c.amount) && CanReceive(db, PAYEE)
    && HasSpent(db, c.spends, start, start as int + c.spends * c.gap - c.gap, c.spends * c.amount)
    && Lookup(db, RequestR(RequestId(n, 0))) == Some(AskedRow(c.asked, now + 1))
  }

  lemma RequestReadies(p: Policy, db: Db, db': Db, c: Course, start: Instant, now: Instant, n: Id)
    requires RequestAdded(db, db', RequestId(n, 0), AskedRow(c.asked, now + 1))
    requires BothPeople(db, p.signupBonus + c.donors * c.amount - c.spends * c.amount)
    requires HasSpent(db, c.spends, start, start as int + c.spends * c.gap - c.gap, c.spends * c.amount)
    ensures Ready(p, db', c, start, now, n)
  {
    assert Lookup(db', AccountR(PAYER)) == Lookup(db, AccountR(PAYER));
    assert Lookup(db', AccountR(PAYEE)) == Lookup(db, AccountR(PAYEE));
    SpendingStays(db, db', RequestId(n, 0), AskedRow(c.asked, now + 1), c.spends, start,
                  start as int + c.spends * c.gap - c.gap, c.spends * c.amount);
  }

  lemma CourseTempts(p: Policy, s: State, c: Course, start: Instant, n: Id)
    requires Feasible(p, c) && Quiet(s) && s.now == start + c.spends * c.gap && Ready(p, s.db, c, start, s.now, n)
    ensures Tempted(p, s, RaceOf(c, n))
  {
    var since := s.now as int - p.window;
    assert SentSince(s.db.log, PAYER, since) <= c.spends;
    assert p.window < c.gap ==> SentSince(s.db.log, PAYER, since) == 0;
    assert OutboundSince(s.db.rows, s.db.log, PAYER, s.now as int - DAY) == c.spends * c.amount;
  }

  lemma RequestComes(p: Policy, s: State, c: Course, start: Instant) returns (s': State)
    requires Feasible(p, c) && Stage(p, s, c, c.donors, c.spends, start)
    ensures Reachable(p, s') && Tempted(p, s', RaceOf(c, s.nextTx)) && s'.nextTx == s.nextTx + 1
  {
    RequestIsMade(p, s.db, c.asked, s.now + 1, s.nextTx, s.now, s.nextEntry);
    s' := PlaysAlone(p, s, Asking(c.asked, s.now + 1));
    RequestReadies(p, s.db, s'.db, c, start, s.now, s.nextTx);
    assert Quiet(s') by { IdsAreFresh(p, s'); }
    CourseTempts(p, s', c, start, s.nextTx);
  }

  // Under every feasible course, and so under the shipped configuration, the system reaches a commit that
  // is not its script run alone and takes the day's payments past the cap.
  lemma CapCanBeBroken(p: Policy, c: Course, now: Instant) returns (s: State, r: Race, t: Id)
    requires Feasible(p, c)
    ensures Reachable(p, s) && Commits(p, s, Step(t)) && BreaksTheCap(p, s, t, r)
    ensures PlanOf(p, s, t) != Verdict(p, s.db, s.active[t].command, t, s.active[t].start)
  {
    var s1 := People(p, now, 2 + c.donors);
    StageBegins(p, s1, c);
    var s2 := DonorsGive(p, s1, c, 0, now);
    var s3 := PayerSpends(p, s2, c, 0, now);
    var s4 := RequestComes(p, s3, c, now);
    r, t := RaceOf(c, s3.nextTx), s4.nextTx;
    s := CommitNeedNotBeVerdict(p, s4, r);
  }

  // The shipped configuration is one of them.
  lemma ShippedCapCanBeBroken(p: Policy, now: Instant) returns (s: State, r: Race, t: Id)
    requires Shipped(p)
    ensures Reachable(p, s) && Commits(p, s, Step(t)) && BreaksTheCap(p, s, t, r)
    ensures PlanOf(p, s, t) != Verdict(p, s.db, s.active[t].command, t, s.active[t].start)
  {
    ShippedIsFeasible(p);
    s, r, t := CapCanBeBroken(p, Course(5_000_000, 3, 3, 60 * SECOND + 1, 5_000_000, 5_000_000), now);
  }
}
