/**
 How runs begin: people register and pay, each in a transaction that nobody disturbs.
 */
module Opening {
  import opened Calendar
  import opened Store
  import opened Scripts
  import opened Engine
  import opened Alone
  import opened Verdicts
  import opened Payments
  import opened Undisturbed
  import opened System

  const PAYER: Id := STRIPES + 1
  const PAYEE: Id := STRIPES + 2

  ghost predicate OnlyMints(log: seq<Transfer>) {
    forall t :: t in log ==> t.kind == MINT
  }

  lemma {:induction false} MintsAreNotSpent(rows: map<Resource, Row>, log: seq<Transfer>, a: Id, since: int)
    requires OnlyMints(log)
    ensures OutboundSince(rows, log, a, since) == 0 && SentSince(log, a, since) == 0
  {
    if |log| > 0 {
      MintsAreNotSpent(rows, log[..|log| - 1], a, since);
    }
  }

  // The treasury is open, everybody before `n` has the bonus, and nothing else has happened.
  ghost predicate OpenedDb(p: Policy, db: Db, n: Id) {
    && Lookup(db, AccountR(1)).Some? && OpenTreasury(db.rows[AccountR(1)])
    && OnlyMints(db.log)
    && (forall r :: r in db.rows ==> r.AccountR? || r.TransferR?)
    && (forall a :: STRIPES < a < n ==> Lookup(db, AccountR(a)).Some? && HasBonus(p, db.rows[AccountR(a)]))
  }

  ghost predicate Opened(p: Policy, s: State, n: Id) {
    Reachable(p, s) && s.active == map[] && s.nextTx == n && OpenedDb(p, s.db, n)
  }

  predicate OpenTreasury(row: Row) {
    row.Account? && row.system && row.status == AccountStatus.ACTIVE
  }

  predicate HasBonus(p: Policy, row: Row) {
    row.Account? && !row.system && row.status == AccountStatus.ACTIVE && row.balance == p.signupBonus
  }

  lemma StartIsOpened(p: Policy, now: Instant)
    ensures Opened(p, Start(now), STRIPES + 1)
  {
    var s := Start(now);
    assert Legal(p, s, []) && s == Play(p, s, []);
    assert AccountR(1) in Genesis().rows;
  }

  // A command that commits, begun while nobody holds a row it touches.
  lemma PlaysAmong(p: Policy, s: State, c: Command) returns (s': State)
    requires Reachable(p, s) && s.nextTx !in s.active && Verdict(p, s.db, c, s.nextTx, s.now).Commit?
    requires forall u :: u in s.active ==> s.active[u].held !! Touched(p, s.db, c, s.now)
    ensures Reachable(p, s') && s'.active == s.active && s'.nextTx == s.nextTx + 1 && s'.now == s.now
    ensures s'.db == Apply(s.db, Verdict(p, s.db, c, s.nextTx, s.now).effect, s.nextEntry)
    ensures LaterStage(p, s, s')
  {
    var run := RunsToItsVerdict(p, s, c);
    ReachableOn(p, s, run);
    s' := Play(p, s, run);
    assert s.active - {s.nextTx} == s.active;
  }

  // Nobody holds anything.
  ghost predicate Quiet(s: State) {
    s.nextTx !in s.active && forall u :: u in s.active ==> s.active[u].held == {}
  }

  // A command that commits, begun while nobody holds anything.
  lemma PlaysAlone(p: Policy, s: State, c: Command) returns (s': State)
    requires Reachable(p, s) && Quiet(s) && Verdict(p, s.db, c, s.nextTx, s.now).Commit?
    ensures Reachable(p, s') && s'.active == s.active && s'.nextTx == s.nextTx + 1 && s'.now == s.now
    ensures s'.db == Apply(s.db, Verdict(p, s.db, c, s.nextTx, s.now).effect, s.nextEntry)
    ensures LaterStage(p, s, s')
  {
    s' := PlaysAmong(p, s, c);
  }

  lemma StepReaches(p: Policy, s: State, e: Event) returns (s': State)
    requires Reachable(p, s) && CanFire(p, s, e)
    ensures Reachable(p, s') && s' == Fire(p, s, e)
  {
    PlayMore(p, s, e, []);
    ReachableOn(p, s, [e] + []);
    s' := Fire(p, s, e);
  }

  lemma TimePasses(p: Policy, s: State, micros: nat) returns (s': State)
    requires Reachable(p, s)
    ensures Reachable(p, s') && s' == s.(now := s.now + micros)
  {
    s' := StepReaches(p, s, Tick(micros));
  }

  // A later state of some run through `s`.
  ghost predicate LaterStage(p: Policy, s: State, s': State) {
    exists run :: Legal(p, s, run) && s' == Play(p, s, run)
  }

  lemma IdsAreFresh(p: Policy, s: State)
    requires ValidPolicy(p) && Reachable(p, s)
    ensures s.nextTx !in s.active && forall x :: x in s.db.log ==> x.id < s.nextTx
  {
    ReachableIsGood(p, s);
  }

  // A send that is allowed, while nobody holds anything.
  lemma SendsAlone(p: Policy, s: State, c: Command) returns (s': State)
    requires ValidPolicy(p) && Reachable(p, s) && Quiet(s) && SendAllowed(p, s.db, c, s.now)
    ensures Reachable(p, s') && s'.active == s.active && s'.nextTx == s.nextTx + 1 && s'.now == s.now && Quiet(s')
    ensures SendDone(s.db, s'.db, c, s.nextTx, s.now, s.nextEntry)
  {
    IdsAreFresh(p, s);
    SendCommits(p, s.db, c, s.nextTx, s.now, s.nextEntry);
    s' := PlaysAlone(p, s, c);
    IdsAreFresh(p, s');
  }

  lemma Minted(p: Policy, db: Db, c: Command, self: Id, now: Instant, first: nat)
    requires p.signupBonus > 0 && self > STRIPES && OpenedDb(p, db, self) && c == Register(1)
    ensures RegisterVerdict(p, db, c, self, now).Commit?
    ensures OpenedDb(p, Apply(db, RegisterVerdict(p, db, c, self, now).effect, first), self + 1)
  {
    PostingApplies(WithAccount(db, self), MintOf(p, c, self, now), first);
    MintedOver(db, MintOf(p, c, self, now), first);
  }

  lemma Registers(p: Policy, s: State) returns (s': State)
    requires p.signupBonus > 0 && Opened(p, s, s.nextTx) && s.nextTx > STRIPES
    ensures Opened(p, s', s.nextTx + 1) && s'.now == s.now
  {
    var c := Register(1);
    RegisterEnds(p, s.db, c, s.nextTx, s.now);
    Minted(p, s.db, c, s.nextTx, s.now, s.nextEntry);
    s' := PlaysAlone(p, s, c);
  }

  // The first `n` people.
  lemma {:induction false} People(p: Policy, now: Instant, n: nat) returns (s: State)
    requires ValidPolicy(p) && p.signupBonus > 0
    ensures Opened(p, s, STRIPES + 1 + n) && s.now == now
    decreases n
  {
    if n == 0 {
      StartIsOpened(p, now);
      s := Start(now);
    } else {
      s := People(p, now, n - 1);
      s := Registers(p, s);
    }
  }

  // ---------------------------------------------------------------- people who have not paid yet

  // Has the bonus, and has sent nothing.
  ghost predicate Unspent(p: Policy, db: Db, a: Id) {
    && Holds(db, a, p.signupBonus) && KeyR(a, 0) !in db.rows
    && (forall since :: SentSince(db.log, a, since) == 0)
    && (forall since :: OutboundSince(db.rows, db.log, a, since) == 0)
  }

  lemma OpenedIsUnspent(p: Policy, db: Db, n: Id)
    requires OpenedDb(p, db, n)
    ensures forall a :: STRIPES < a < n ==> Unspent(p, db, a)
  {
    forall a, since ensures SentSince(db.log, a, since) == 0 && OutboundSince(db.rows, db.log, a, since) == 0 {
      MintsAreNotSpent(db.rows, db.log, a, since);
    }
  }

  // What a payment of somebody else leaves of a person.
  lemma OthersStayUnspent(p: Policy, db: Db, db': Db, t: Transfer, k: Resource, a: Id)
    requires Paid(db, db', t) && OnlyKey(db, db', k) && Unspent(p, db, a)
    requires a != t.from && a != t.to && k != KeyR(a, 0)
    ensures Unspent(p, db', a)
  {
    assert Lookup(db', AccountR(a)) == AccountAfter(Lookup(db, AccountR(a)), t, a);
    assert Lookup(db', KeyR(a, 0)) == Lookup(db, KeyR(a, 0));
  }

  lemma UnspentMaySend(p: Policy, db: Db, c: Command, now: Instant)
    requires c.Send? && c.key == 0 && c.payee.Some? && c.payee.value != c.user
    requires Unspent(p, db, c.user) && CanReceive(db, c.payee.value)
    requires p.maxTransfers >= 1 && 0 < c.amount && c.amount <= p.signupBonus && c.amount <= p.dailyLimit
    requires p.minTransfer <= c.amount <= p.maxTransfer
    ensures SendAllowed(p, db, c, now)
  {
  }
}
