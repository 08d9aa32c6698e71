/**
 Everything together: what holds in every state that any run of concurrent, crashing, retried
 transactions can reach.
 */
module System {
  import opened Calendar
  import opened Store
  import opened Scripts
  import opened Engine
  import opened Serializability
  import opened Deadlock
  import opened Ledger
  import opened ExactlyOnce
  import opened Requests
  import opened Splits
  import opened Reversals
  import opened Schedules
  import opened SlidingWindow
  import opened Reconcile
  import Alone
  import Verdicts
  import Promises

  // The configuration schema only accepts positive numbers.
  predicate ValidPolicy(p: Policy) {
    p.maxAttempts >= 1 && p.dailyLimit >= 0
  }

  // The facts about committed rows.
  ghost predicate GoodDb(p: Policy, db: Db, replies: seq<Exchange>) {
    && Books(db)
    && KeysOnce(db, replies)
    && RequestsSettled(db)
    && SplitsCollect(db)
    && ReversalsMatch(db)
    && SchedulesOnce(p, db)
  }

  ghost predicate Good(p: Policy, s: State) {
    Inv(p, s) && AllOrdered(p, s) && Limits(p, s) && GoodDb(p, s.db, s.replies)
  }

  lemma GenesisIsGood(p: Policy)
    ensures GoodDb(p, Genesis(), [])
  {
  }

  lemma StartIsGood(p: Policy, now: Instant)
    requires ValidPolicy(p)
    ensures Good(p, Start(now))
  {
    StartInv(p, now);
    GenesisIsGood(p);
    forall a, lo ensures SendsBounded(p, [], a, lo) && SpendingBounded(p, Genesis().rows, [], a, lo) { }
  }

  lemma AtomicKeepsGood(p: Policy, db: Db, c: Command, self: Id, start: Instant, seen: Seen, obs: Obs,
                        e: Effect, first: nat, reply: Reply, db': Db, replies: seq<Exchange>)
    requires ValidPolicy(p) && GoodDb(p, db, replies)
    requires Atomic(p, db, c, self, start, seen, obs, e, first, reply, db')
    ensures GoodDb(p, db', replies + [Exchange(c, reply)])
  {
    AtomicKeepsBooks(p, db, c, self, start, seen, obs, e, first, reply, db');
    AtomicKeepsKeys(p, db, c, self, start, seen, obs, e, first, reply, db', replies);
    AtomicKeepsRequests(p, db, c, self, start, seen, obs, e, first, reply, db');
    AtomicKeepsSplits(p, db, c, self, start, seen, obs, e, first, reply, db');
    AtomicKeepsReversals(p, db, c, self, start, seen, obs, e, first, reply, db');
    AtomicKeepsSchedules(p, db, c, self, start, seen, obs, e, first, reply, db');
  }

  // What commits never take away: ledger entries, transfers, completed keys, finished requests,
  // settled occurrences, reversals.
  ghost predicate Extends(db: Db, db': Db) {
    && db.entries <= db'.entries && db.log <= db'.log
    && (forall r :: r in db.rows && Final(r, db.rows[r]) ==> Kept(db, db', r))
  }

  predicate Kept(db: Db, db': Db, r: Resource)
    requires r in db.rows
  {
    r in db'.rows && db'.rows[r] == db.rows[r]
  }

  predicate Final(r: Resource, row: Row) {
    match r
    case KeyR(_, _) => true
    case RequestR(_) => row.Request? && !row.state.PENDING?
    case OccurrenceR(_, _) => row.Occurrence? && !row.outcome.PENDING?
    case TransferR(_) => row == TransferStatus(true)
    case _ => false
  }

  lemma ReversedStaysReversed(p: Policy, db: Db, c: Command, self: Id, start: Instant, seen: Seen, obs: Obs,
                              e: Effect, first: nat, reply: Reply, db': Db, x: Id)
    requires Atomic(p, db, c, self, start, seen, obs, e, first, reply, db')
    requires TransferR(x) in db.rows && db.rows[TransferR(x)] == TransferStatus(true)
    ensures Kept(db, db', TransferR(x))
  {
    assert Creator(TransferR(x)) == Some(x);
    CommitReverses(p, db, c, self, start, seen, obs);
    CommitWritesOwnRows(p, c, self, start, seen, obs);
  }

  lemma FinalRowKept(p: Policy, db: Db, c: Command, self: Id, start: Instant, seen: Seen, obs: Obs,
                     e: Effect, first: nat, reply: Reply, db': Db, replies: seq<Exchange>, r: Resource)
    requires KeysOnce(db, replies)
    requires Atomic(p, db, c, self, start, seen, obs, e, first, reply, db')
    requires r in db.rows && Final(r, db.rows[r])
    ensures Kept(db, db', r)
  {
    match r
    case KeyR(_, _) => AtomicKeepsKeys(p, db, c, self, start, seen, obs, e, first, reply, db', replies);
    case RequestR(_) => AtomicProgressesRequests(p, db, c, self, start, seen, obs, e, first, reply, db');
    case OccurrenceR(_, _) => AtomicProgressesSchedules(p, db, c, self, start, seen, obs, e, first, reply, db');
    case TransferR(x) => ReversedStaysReversed(p, db, c, self, start, seen, obs, e, first, reply, db', x);
  }

  lemma AtomicExtends(p: Policy, db: Db, c: Command, self: Id, start: Instant, seen: Seen, obs: Obs,
                      e: Effect, first: nat, reply: Reply, db': Db, replies: seq<Exchange>)
    requires KeysOnce(db, replies)
    requires Atomic(p, db, c, self, start, seen, obs, e, first, reply, db')
    ensures Extends(db, db')
  {
    forall r | r in db.rows && Final(r, db.rows[r]) ensures Kept(db, db', r) {
      FinalRowKept(p, db, c, self, start, seen, obs, e, first, reply, db', replies, r);
    }
  }

  // ---------------------------------------------------------------- runs

  lemma CommittedStaysGood(p: Policy, s: State, e: Event)
    requires ValidPolicy(p) && Inv(p, s) && CanFire(p, s, e)
    requires GoodDb(p, s.db, s.replies)
    ensures GoodDb(p, Fire(p, s, e).db, Fire(p, s, e).replies)
  {
    StepRefines(p, s, e);
    if Commits(p, s, e) {
      var t := e.tx;
      var tx := s.active[t];
      var plan := PlanOf(p, s, t);
      var db' := Fire(p, s, e).db;
      assert Fire(p, s, e).replies == s.replies + [Exchange(tx.command, plan.reply)];
      AtomicKeepsGood(p, s.db, tx.command, t, tx.start, tx.seen, tx.obs, plan.effect, tx.first.value, plan.reply, db',
                      s.replies);
    }
  }

  lemma FireExtends(p: Policy, s: State, e: Event)
    requires Inv(p, s) && CanFire(p, s, e) && KeysOnce(s.db, s.replies)
    ensures Extends(s.db, Fire(p, s, e).db)
    ensures s.replies <= Fire(p, s, e).replies
  {
    StepRefines(p, s, e);
    if Commits(p, s, e) {
      var t := e.tx;
      var tx := s.active[t];
      var plan := PlanOf(p, s, t);
      var db' := Fire(p, s, e).db;
      AtomicExtends(p, s.db, tx.command, t, tx.start, tx.seen, tx.obs, plan.effect, tx.first.value, plan.reply, db',
                    s.replies);
    }
  }

  lemma GoodHasBooks(p: Policy, db: Db, replies: seq<Exchange>)
    requires GoodDb(p, db, replies)
    ensures Books(db) && KeysOnce(db, replies)
  {
  }

  lemma FireKeepsGood(p: Policy, s: State, e: Event)
    requires ValidPolicy(p) && Good(p, s) && CanFire(p, s, e)
    ensures Good(p, Fire(p, s, e))
    ensures Extends(s.db, Fire(p, s, e).db)
    ensures s.replies <= Fire(p, s, e).replies
  {
    assert Inv(p, Fire(p, s, e)) by { FireKeepsInv(p, s, e); }
    assert AllOrdered(p, Fire(p, s, e)) by { FireKeepsOrder(p, s, e); }
    GoodHasBooks(p, s.db, s.replies);
    assert Limits(p, Fire(p, s, e)) by { FireKeepsLimits(p, s, e); }
    CommittedStaysGood(p, s, e);
    FireExtends(p, s, e);
  }

  lemma ExtendsTransitive(a: Db, b: Db, c: Db)
    requires Extends(a, b) && Extends(b, c)
    ensures Extends(a, c)
  {
    forall r | r in a.rows && Final(r, a.rows[r]) ensures Kept(a, c, r) {
      assert Kept(a, b, r) && Kept(b, c, r);
    }
  }

  // Every run keeps every invariant, and only ever adds to what is final.
  lemma {:induction false} RunKeepsGood(p: Policy, s: State, run: seq<Event>)
    requires ValidPolicy(p) && Good(p, s) && Legal(p, s, run)
    ensures Good(p, Play(p, s, run))
    ensures Extends(s.db, Play(p, s, run).db)
    ensures s.replies <= Play(p, s, run).replies
    decreases |run|
  {
    if |run| > 0 {
      FireKeepsGood(p, s, run[0]);
      RunKeepsGood(p, Fire(p, s, run[0]), run[1..]);
      ExtendsTransitive(s.db, Fire(p, s, run[0]).db, Play(p, s, run).db);
    }
  }

  // ---------------------------------------------------------------- reachable states

  ghost predicate Reachable(p: Policy, s: State) {
    exists now, run :: Legal(p, Start(now), run) && s == Play(p, Start(now), run)
  }

  lemma ReachableIsGood(p: Policy, s: State)
    requires ValidPolicy(p) && Reachable(p, s)
    ensures Good(p, s)
  {
    var now, run :| Legal(p, Start(now), run) && s == Play(p, Start(now), run);
    StartIsGood(p, now);
    RunKeepsGood(p, Start(now), run);
  }

  lemma ReachableOn(p: Policy, s: State, run: seq<Event>)
    requires Reachable(p, s) && Legal(p, s, run)
    ensures Reachable(p, Play(p, s, run))
  {
    var now, before :| Legal(p, Start(now), before) && s == Play(p, Start(now), before);
    PlayOn(p, Start(now), before, run);
  }

  // All balances sum to zero, no user is overdrawn, and reconciliation passes, always.
  lemma MoneyIsConserved(p: Policy, s: State)
    requires ValidPolicy(p) && Reachable(p, s)
    ensures ConservationOfMoney(s.db) && BalancesMatchLedger(s.db) && DoubleEntryComplete(s.db)
    ensures NoOrphanEntries(s.db) && NoOverdraftsOrStrandedKeys(s.db)
    ensures forall a :: AccountR(a) in s.db.rows ==>
              s.db.rows[AccountR(a)].Account? && (s.db.rows[AccountR(a)].balance >= 0 || s.db.rows[AccountR(a)].system)
  {
    ReachableIsGood(p, s);
    BooksReconcile(s.db, s.replies);
  }

  // Nothing ever waits for ever: unless everything is finished, some transaction can go on.
  lemma ReachableIsLive(p: Policy, s: State)
    requires ValidPolicy(p) && Reachable(p, s) && s.active != map[]
    ensures exists t :: t in s.active && CanFire(p, s, Step(t))
  {
    ReachableIsGood(p, s);
    NeverStuck(p, s);
  }

  // A commit that debits an account finds it ACTIVE, and able to pay, in the committed state it
  // commits to: a freeze that committed first always wins.
  lemma DebitsComeFromActiveAccounts(p: Policy, s: State, t: Id)
    requires ValidPolicy(p) && Reachable(p, s) && Commits(p, s, Step(t))
    requires PlanOf(p, s, t).effect.moved.Some?
    ensures MovesMoney(s.db, PlanOf(p, s, t).effect, t)
    ensures Before(s.db, PlanOf(p, s, t).effect.moved.value.from).status.ACTIVE?
  {
    ReachableIsGood(p, s);
    StepRefines(p, s, Step(t));
    var tx := s.active[t];
    CommitMovesOrKeepsMoney(p, s.db, tx.command, t, tx.start, tx.seen, tx.obs);
  }

  // Exactly once: replies under one key agree, and one key moved money at most once.
  lemma KeysExecuteOnce(p: Policy, s: State, i: nat, j: nat)
    requires ValidPolicy(p) && Reachable(p, s)
    requires i < |s.replies| && j < |s.replies|
    requires KeyOf(s.replies[i].command).Some? && KeyOf(s.replies[i].command) == KeyOf(s.replies[j].command)
    ensures s.replies[i].reply == s.replies[j].reply && DigestOf(s.replies[i].command) == DigestOf(s.replies[j].command)
    ensures forall a, b :: 0 <= a < b < |s.db.log| && s.db.log[a].key.Some? ==> s.db.log[a].key != s.db.log[b].key
  {
    ReachableIsGood(p, s);
    RepliesAgree(s.db, s.replies, i, j);
  }

  lemma ReachableHasLimits(p: Policy, s: State)
    requires ValidPolicy(p) && Reachable(p, s)
    ensures WindowsHold(p, s.db)
  {
    ReachableIsGood(p, s);
  }

  // At most maxTransfers sends from an account start in any closed interval of the window's length,
  // and at most the daily limit of completed sends in any closed 24 hours.
  lemma WindowsAreBounded(p: Policy, s: State, a: Id, lo: int)
    requires ValidPolicy(p) && Reachable(p, s)
    ensures SendsIn(s.db.log, a, lo, lo + p.window) <= p.maxTransfers
    ensures SpentIn(s.db.rows, s.db.log, a, lo, lo + DAY) <= p.dailyLimit
  {
    ReachableHasLimits(p, s);
    assert SendsBounded(p, s.db.log, a, lo) && SpendingBounded(p, s.db.rows, s.db.log, a, lo);
  }

  lemma FireKeepsSplit(p: Policy, s: State, e: Event, x: Id)
    requires Good(p, s) && CanFire(p, s, e) && SplitR(x) in s.db.rows
    ensures SplitGoesOn(s.db.rows, Fire(p, s, e).db.rows, x)
  {
    StepRefines(p, s, e);
    if Commits(p, s, e) {
      var tx, plan := s.active[e.tx], PlanOf(p, s, e.tx);
      AtomicKeepsSplits(p, s.db, tx.command, e.tx, tx.start, tx.seen, tx.obs, plan.effect, tx.first.value, plan.reply,
                        Fire(p, s, e).db);
    }
  }

  lemma {:induction false} RunKeepsSplit(p: Policy, s: State, run: seq<Event>, x: Id)
    requires ValidPolicy(p) && Good(p, s) && Legal(p, s, run) && SplitR(x) in s.db.rows
    ensures SplitGoesOn(s.db.rows, Play(p, s, run).db.rows, x)
    decreases |run|
  {
    if |run| > 0 {
      FireKeepsSplit(p, s, run[0], x);
      FireKeepsGood(p, s, run[0]);
      RunKeepsSplit(p, Fire(p, s, run[0]), run[1..], x);
    }
  }

  // Whatever happens after a split is created, it shows the same bill, the same own share and the same
  // amount asked of others; what it shows as collected is what was paid against its legs, and never falls.
  lemma SplitsShowWhatWasPaid(p: Policy, s: State, run: seq<Event>, x: Id)
    requires ValidPolicy(p) && Reachable(p, s) && Legal(p, s, run) && SplitR(x) in s.db.rows
    ensures SplitsCollect(s.db) && SplitGoesOn(s.db.rows, Play(p, s, run).db.rows, x)
    ensures var db' := Play(p, s, run).db;
            ViewSplit(db'.rows, x).collected == PaidAgainst(db'.rows, db'.log, x, db'.rows[SplitR(x)].legs)
    ensures var v := ViewSplit(Play(p, s, run).db.rows, x);
            && v.total == s.db.rows[SplitR(x)].total
            && v.yourShare + v.requested == v.total && v.collected + v.outstanding == v.requested
  {
    ReachableIsGood(p, s);
    RunKeepsSplit(p, s, run, x);
    RunKeepsGood(p, s, run);
  }

  lemma HeldKeyIsNew(p: Policy, s: State, t: Id, k: KeyId)
    requires Good(p, s) && t in s.active && RowOf(k) in s.active[t].held
    ensures RowOf(k) !in s.db.rows
  {
    assert Current(s.db, s.active[t]);
  }

  predicate Ended(p: Policy, s: State, t: Id, e: Event)
    requires t in s.active
  {
    e == Abort({t}) || (e == Step(t) && PlanOf(p, s, t).Fail?)
  }

  lemma EndedLeaves(p: Policy, s: State, t: Id, e: Event)
    requires t in s.active && Ended(p, s, t, e)
    ensures CanFire(p, s, e) && Fire(p, s, e) == s.(active := s.active - {t})
  {
  }

  lemma NobodyElseHolds(s: State, t: Id, r: Resource)
    requires Exclusive(s) && t in s.active && r in s.active[t].held
    ensures forall u :: u in s.active && u != t ==> r !in s.active[u].held
  {
  }

  // When a transaction that has claimed its key is refused, or disappears, its key is free again: any
  // request under that key, the same or another, then claims it and executes.
  lemma RefusedKeyIsFree(p: Policy, s: State, t: Id, k: KeyId, e: Event, digest: nat)
    requires ValidPolicy(p) && Reachable(p, s) && t in s.active && RowOf(k) in s.active[t].held
    requires Ended(p, s, t, e)
    ensures CanFire(p, s, e) && t !in Fire(p, s, e).active
    ensures Fire(p, s, e).db == s.db && Fire(p, s, e).replies == s.replies
    ensures forall u :: u in Fire(p, s, e).active ==> RowOf(k) !in Fire(p, s, e).active[u].held
    ensures ClaimKey(k.user, k.key, digest, map[RowOf(k) := Lookup(Fire(p, s, e).db, RowOf(k))]).Claimed?
  {
    assert Good(p, s) by { ReachableIsGood(p, s); }
    HeldKeyIsNew(p, s, t, k);
    NobodyElseHolds(s, t, RowOf(k));
    EndedLeaves(p, s, t, e);
  }

  // ---------------------------------------------------------------- the services, one call at a time

  // A call of a service that ends as its verdict says keeps everything that concurrent runs keep.
  lemma CallKeepsGood(p: Policy, db: Db, replies: seq<Exchange>, c: Command, self: Id, now: Instant, first: nat,
                      db': Db, r: Promises.Outcome<Reply>)
    requires ValidPolicy(p) && GoodDb(p, db, replies) && Verdicts.Issued(db, self, first)
    requires Verdicts.Ends(Alone.Verdict(p, db, c, self, now), db, first, db', r)
    ensures GoodDb(p, db', if r.Ok? then replies + [Exchange(c, r.value)] else replies)
  {
    var v := Alone.Verdict(p, db, c, self, now);
    if v.Commit? {
      var seen, obs := Alone.AloneIsAtomic(p, db, c, self, now, first);
      AtomicKeepsGood(p, db, c, self, now, seen, obs, v.effect, first, v.reply, db', replies);
    }
  }

  // What the scheduler's script needs of the tables it starts from.
  lemma GoodIsUnpaid(p: Policy, db: Db)
    requires SchedulesOnce(p, db)
    ensures Verdicts.PendingUnpaid(db)
  {
  }
}
