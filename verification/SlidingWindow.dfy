/**
 The velocity limit and the daily cap hold over every sliding window of transaction start times,
 although transactions commit in another order than they start.
 */
module SlidingWindow {
  import opened Calendar
  import opened Store
  import opened Scripts
  import opened Engine
  import opened Serializability
  import opened Ledger
  import opened Reversals

  predicate P2PFrom(t: Transfer, a: Id) {
    t.kind.P2P? && t.from == a
  }

  // P2P sends out of `a` that started in the closed interval [lo, hi].
  function SendsIn(log: seq<Transfer>, a: Id, lo: int, hi: int): nat {
    if |log| == 0 then 0
    else
      var t := log[|log| - 1];
      SendsIn(log[..|log| - 1], a, lo, hi) + if P2PFrom(t, a) && lo <= t.createdAt <= hi then 1 else 0
  }

  // The amount of those that are COMPLETED.
  function SpentIn(rows: map<Resource, Row>, log: seq<Transfer>, a: Id, lo: int, hi: int): int {
    if |log| == 0 then 0
    else
      var t := log[|log| - 1];
      SpentIn(rows, log[..|log| - 1], a, lo, hi)
      + if P2PFrom(t, a) && Completed(rows, t) && lo <= t.createdAt <= hi then t.amount else 0
  }

  ghost predicate PositiveAmounts(log: seq<Transfer>) {
    forall i :: 0 <= i < |log| ==> log[i].amount > 0
  }

  // Nothing in the log starts later than now.
  ghost predicate StartedBy(log: seq<Transfer>, now: Instant) {
    forall i :: 0 <= i < |log| ==> log[i].createdAt <= now
  }

  ghost predicate SendsBounded(p: Policy, log: seq<Transfer>, a: Id, lo: int) {
    SendsIn(log, a, lo, lo + p.window) <= p.maxTransfers
  }

  ghost predicate SpendingBounded(p: Policy, rows: map<Resource, Row>, log: seq<Transfer>, a: Id, lo: int) {
    SpentIn(rows, log, a, lo, lo + DAY) <= p.dailyLimit
  }

  // The two bounds, for every account and every window.
  ghost predicate WindowsHold(p: Policy, db: Db) {
    && (forall a, lo :: SendsBounded(p, db.log, a, lo))
    && (forall a, lo :: SpendingBounded(p, db.rows, db.log, a, lo))
  }

  function RecentQuery(p: Policy, a: Id, start: Instant): Query {
    Velocity(a, start as int - p.window)
  }

  function SpentQuery(a: Id, start: Instant): Query {
    Outbound(a, start as int - DAY)
  }

  // A sender past its checks holds its advisory lock, and nothing it must count has been added since.
  ghost predicate ChecksStand(p: Policy, db: Db, tx: Tx, now: Instant) {
    tx.command.Send? ==>
      var a := tx.command.user;
      var recent := RecentQuery(p, a, tx.start);
      var spent := SpentQuery(a, tx.start);
      && (AdvisoryR(p.slot(a)) !in tx.seen ==> recent !in tx.obs && spent !in tx.obs)
      && (recent in tx.obs && tx.obs[recent].Count? ==>
            SendsIn(db.log, a, tx.start as int - p.window, now) <= tx.obs[recent].n)
      && (spent in tx.obs && tx.obs[spent].Total? ==>
            SpentIn(db.rows, db.log, a, tx.start as int - DAY, now) <= tx.obs[spent].sum)
  }

  ghost predicate Limits(p: Policy, s: State) {
    && WindowsHold(p, s.db)
    && StartedBy(s.db.log, s.now)
    && (forall t :: t in s.active ==> ChecksStand(p, s.db, s.active[t], s.now))
  }

  // ---------------------------------------------------------------- counting

  lemma {:induction false} SendsAreSent(log: seq<Transfer>, a: Id, since: int, hi: int)
    ensures SendsIn(log, a, since, hi) <= SentSince(log, a, since)
  {
    if |log| > 0 { SendsAreSent(log[..|log| - 1], a, since, hi); }
  }

  lemma {:induction false} SpentIsOutbound(rows: map<Resource, Row>, log: seq<Transfer>, a: Id, since: int, hi: int)
    requires PositiveAmounts(log)
    ensures SpentIn(rows, log, a, since, hi) <= OutboundSince(rows, log, a, since)
  {
    if |log| > 0 { SpentIsOutbound(rows, log[..|log| - 1], a, since, hi); }
  }

  // A window holds no more than one that opens earlier and ends now.
  lemma {:induction false} WiderWindow(rows: map<Resource, Row>, log: seq<Transfer>, a: Id, lo: int, hi: int, lo': int,
                                       now: Instant)
    requires PositiveAmounts(log) && lo' <= lo && StartedBy(log, now)
    ensures SendsIn(log, a, lo, hi) <= SendsIn(log, a, lo', now)
    ensures SpentIn(rows, log, a, lo, hi) <= SpentIn(rows, log, a, lo', now)
  {
    if |log| > 0 { WiderWindow(rows, log[..|log| - 1], a, lo, hi, lo', now); }
  }

  // Time passing adds nothing to a window that is open at now.
  lemma {:induction false} LaterNow(rows: map<Resource, Row>, log: seq<Transfer>, a: Id, lo: int, now: Instant,
                                    later: Instant)
    requires StartedBy(log, now) && now <= later
    ensures SendsIn(log, a, lo, later) == SendsIn(log, a, lo, now)
    ensures SpentIn(rows, log, a, lo, later) == SpentIn(rows, log, a, lo, now)
  {
    if |log| > 0 { LaterNow(rows, log[..|log| - 1], a, lo, now, later); }
  }

  // Status changes only go from COMPLETED to REVERSED, so they never raise a total.
  ghost predicate OnlyReverses(rows: map<Resource, Row>, rows': map<Resource, Row>, log: seq<Transfer>) {
    forall i :: 0 <= i < |log| ==> Completed(rows', log[i]) ==> Completed(rows, log[i])
  }

  lemma {:induction false} ReversalsLowerTotals(rows: map<Resource, Row>, rows': map<Resource, Row>, log: seq<Transfer>,
                                                a: Id, lo: int, hi: int)
    requires PositiveAmounts(log) && OnlyReverses(rows, rows', log)
    ensures SpentIn(rows', log, a, lo, hi) <= SpentIn(rows, log, a, lo, hi)
  {
    if |log| > 0 { ReversalsLowerTotals(rows, rows', log[..|log| - 1], a, lo, hi); }
  }

  // ---------------------------------------------------------------- what a commit adds

  lemma BooksHavePositiveAmounts(db: Db)
    requires DoubleEntry(db)
    ensures PositiveAmounts(db.log)
  {
  }

  lemma CommitOnlyReverses(p: Policy, db: Db, c: Command, self: Id, start: Instant, seen: Seen, obs: Obs)
    requires Books(db) && AllStand(db, seen) && LoadedStand(db, obs) && Fresh(db, self)
    requires Plan(p, c, self, start, seen, obs).Commit?
    ensures OnlyReverses(db.rows, db.rows + Plan(p, c, self, start, seen, obs).effect.writes, db.log)
  {
    var e := Plan(p, c, self, start, seen, obs).effect;
    CommitReverses(p, db, c, self, start, seen, obs);
    CommitWritesOwnRows(p, c, self, start, seen, obs);
    CommitMovesOrKeepsMoney(p, db, c, self, start, seen, obs);
    forall i | 0 <= i < |db.log| && Completed(db.rows + e.writes, db.log[i]) ensures Completed(db.rows, db.log[i]) {
      assert db.log[i] in db.log && db.log[i].id != self;
    }
  }

  // Only a send writes a P2P transfer: its own, at its start time, after both checks passed.
  ghost predicate PassedChecks(p: Policy, c: Command, start: Instant, seen: Seen, obs: Obs, e: Effect) {
    e.moved.Some? ==>
      && e.moved.value.createdAt == start
      && (e.moved.value.kind.P2P? ==>
            && c.Send? && e.moved.value.from == c.user
            && AdvisoryR(p.slot(c.user)) in seen
            && var recent := RecentQuery(p, c.user, start);
            var spent := SpentQuery(c.user, start);
            && recent in obs && obs[recent].Count? && obs[recent].n < p.maxTransfers
            && spent in obs && obs[spent].Total? && obs[spent].sum + e.moved.value.amount <= p.dailyLimit)
  }

  lemma SendPassedChecks(p: Policy, c: Command, self: Id, start: Instant, seen: Seen, obs: Obs)
    requires c.Send? && PlanSend(p, c, self, start, seen, obs).Commit?
    ensures PassedChecks(p, c, start, seen, obs, PlanSend(p, c, self, start, seen, obs).effect)
  {
  }

  lemma OthersSendNothing(p: Policy, c: Command, self: Id, start: Instant, seen: Seen, obs: Obs)
    requires c.Accept? || c.Reverse? || c.Register?
    requires Plan(p, c, self, start, seen, obs).Commit?
    ensures PassedChecks(p, c, start, seen, obs, Plan(p, c, self, start, seen, obs).effect)
  {
  }

  lemma RunSendsNothing(p: Policy, c: Command, self: Id, start: Instant, seen: Seen, obs: Obs)
    requires c.Run? && PlanRun(p, c, self, start, seen, obs).Commit?
    ensures PassedChecks(p, c, start, seen, obs, PlanRun(p, c, self, start, seen, obs).effect)
  {
  }

  lemma CommitPassedChecks(p: Policy, c: Command, self: Id, start: Instant, seen: Seen, obs: Obs)
    requires Plan(p, c, self, start, seen, obs).Commit?
    ensures PassedChecks(p, c, start, seen, obs, Plan(p, c, self, start, seen, obs).effect)
  {
    if c.Send? { SendPassedChecks(p, c, self, start, seen, obs); }
    else if c.Accept? || c.Reverse? || c.Register? { OthersSendNothing(p, c, self, start, seen, obs); }
    else if c.Run? { RunSendsNothing(p, c, self, start, seen, obs); }
    else if c.ExpireDue? { ExpireCommits(c, c.requests, start, seen, obs); }
  }

  // What the bounds need to know about a commit.
  ghost predicate Facts(p: Policy, db: Db, tx: Tx, e: Effect) {
    && PositiveAmounts(db.log)
    && OnlyReverses(db.rows, db.rows + e.writes, db.log)
    && PassedChecks(p, tx.command, tx.start, tx.seen, tx.obs, e)
    && (e.moved.Some? ==> e.moved.value.amount > 0)
  }

  lemma CommitFacts(p: Policy, s: State, t: Id)
    requires Inv(p, s) && Books(s.db)
    requires t in s.active && s.active[t].first.Some? && PlanOf(p, s, t).Commit?
    ensures Facts(p, s.db, s.active[t], PlanOf(p, s, t).effect)
  {
    var tx := s.active[t];
    StepRefines(p, s, Step(t));
    CommitPassedChecks(p, tx.command, t, tx.start, tx.seen, tx.obs);
    CommitOnlyReverses(p, s.db, tx.command, t, tx.start, tx.seen, tx.obs);
    CommitMovesOrKeepsMoney(p, s.db, tx.command, t, tx.start, tx.seen, tx.obs);
  }

  // ---------------------------------------------------------------- preservation

  // The send that commits last in a window saw all the others.
  lemma OneMoreSend(p: Policy, db: Db, tx: Tx, e: Effect, a: Id, lo: int, now: Instant)
    requires SendsBounded(p, db.log, a, lo) && StartedBy(db.log, now) && PositiveAmounts(db.log)
    requires ChecksStand(p, db, tx, now) && PassedChecks(p, tx.command, tx.start, tx.seen, tx.obs, e)
    ensures SendsBounded(p, Apply(db, e, 0).log, a, lo)
  {
    var log' := Apply(db, e, 0).log;
    if e.moved.None? {
      assert log' == db.log;
    } else {
      var u := e.moved.value;
      assert log'[..|log'| - 1] == db.log;
      assert SendsIn(log', a, lo, lo + p.window) ==
             SendsIn(db.log, a, lo, lo + p.window) + if P2PFrom(u, a) && lo <= u.createdAt <= lo + p.window then 1 else 0;
      if P2PFrom(u, a) && lo <= u.createdAt <= lo + p.window {
        WiderWindow(db.rows, db.log, a, lo, lo + p.window, tx.start as int - p.window, now);
      }
    }
  }

  lemma OneMoreSpend(p: Policy, db: Db, tx: Tx, e: Effect, a: Id, lo: int, now: Instant)
    requires SpendingBounded(p, db.rows, db.log, a, lo) && StartedBy(db.log, now)
    requires ChecksStand(p, db, tx, now) && Facts(p, db, tx, e)
    ensures SpendingBounded(p, Apply(db, e, 0).rows, Apply(db, e, 0).log, a, lo)
  {
    var db' := Apply(db, e, 0);
    ReversalsLowerTotals(db.rows, db'.rows, db.log, a, lo, lo + DAY);
    if e.moved.None? {
      assert db'.log == db.log;
    } else {
      var u := e.moved.value;
      assert db'.log[..|db'.log| - 1] == db.log;
      if P2PFrom(u, a) && lo <= u.createdAt <= lo + DAY {
        WiderWindow(db.rows, db.log, a, lo, lo + DAY, tx.start as int - DAY, now);
      }
    }
  }

  lemma CommitKeepsWindows(p: Policy, db: Db, tx: Tx, e: Effect, first: nat, now: Instant)
    requires WindowsHold(p, db) && StartedBy(db.log, now)
    requires ChecksStand(p, db, tx, now) && Facts(p, db, tx, e)
    ensures WindowsHold(p, Apply(db, e, first))
  {
    var db' := Apply(db, e, first);
    forall a, lo ensures SendsBounded(p, db'.log, a, lo) {
      OneMoreSend(p, db, tx, e, a, lo, now);
    }
    forall a, lo ensures SpendingBounded(p, db'.rows, db'.log, a, lo) {
      OneMoreSpend(p, db, tx, e, a, lo, now);
    }
  }

  lemma NothingAdded(db: Db, e: Effect, first: nat, a: Id, lo: int, hi: int)
    requires PositiveAmounts(db.log) && OnlyReverses(db.rows, db.rows + e.writes, db.log)
    requires e.moved.Some? ==> !P2PFrom(e.moved.value, a)
    ensures var db' := Apply(db, e, first);
            && SendsIn(db'.log, a, lo, hi) == SendsIn(db.log, a, lo, hi)
            && SpentIn(db'.rows, db'.log, a, lo, hi) <= SpentIn(db.rows, db.log, a, lo, hi)
  {
    var db' := Apply(db, e, first);
    ReversalsLowerTotals(db.rows, db'.rows, db.log, a, lo, hi);
    if e.moved.Some? {
      assert db'.log[..|db'.log| - 1] == db.log;
    } else {
      assert db'.log == db.log;
    }
  }

  // No rival can send from the same account while the advisory lock is held.
  lemma CommitKeepsChecks(p: Policy, db: Db, tx: Tx, e: Effect, first: nat, ux: Tx, now: Instant)
    requires Facts(p, db, tx, e) && ChecksStand(p, db, ux, now)
    requires forall slot :: AdvisoryR(slot) in ux.seen ==> AdvisoryR(slot) !in tx.seen
    ensures ChecksStand(p, Apply(db, e, first), ux, now)
  {
    if ux.command.Send? && AdvisoryR(p.slot(ux.command.user)) in ux.seen {
      var a := ux.command.user;
      NothingAdded(db, e, first, a, ux.start as int - p.window, now);
      NothingAdded(db, e, first, a, ux.start as int - DAY, now);
    }
  }

  lemma AdvisoryIsExclusive(p: Policy, s: State, t: Id, u: Id, slot: int)
    requires Inv(p, s) && t in s.active && u in s.active && t != u && AdvisoryR(slot) in s.active[u].seen
    ensures AdvisoryR(slot) !in s.active[t].seen
  {
    assert Current(s.db, s.active[t]) && Current(s.db, s.active[u]);
    assert AdvisoryR(slot) in s.active[u].held;
  }

  lemma CommitKeepsOthersChecks(p: Policy, s: State, t: Id, u: Id)
    requires Inv(p, s) && Limits(p, s)
    requires t in s.active && u in s.active && t != u && s.active[t].first.Some? && PlanOf(p, s, t).Commit?
    requires Facts(p, s.db, s.active[t], PlanOf(p, s, t).effect)
    ensures ChecksStand(p, Advance(p, s, t).db, s.active[u], s.now)
  {
    var tx := s.active[t];
    forall slot | AdvisoryR(slot) in s.active[u].seen ensures AdvisoryR(slot) !in tx.seen {
      AdvisoryIsExclusive(p, s, t, u, slot);
    }
    assert ChecksStand(p, s.db, s.active[u], s.now);
    CommitKeepsChecks(p, s.db, tx, PlanOf(p, s, t).effect, tx.first.value, s.active[u], s.now);
  }

  lemma CommitKeepsLimits(p: Policy, s: State, t: Id)
    requires Inv(p, s) && Limits(p, s)
    requires t in s.active && s.active[t].first.Some? && PlanOf(p, s, t).Commit?
    requires Facts(p, s.db, s.active[t], PlanOf(p, s, t).effect)
    ensures Limits(p, Advance(p, s, t))
  {
    var tx := s.active[t];
    var s' := Advance(p, s, t);
    assert tx.start <= s.now && ChecksStand(p, s.db, tx, s.now);
    CommitKeepsWindows(p, s.db, tx, PlanOf(p, s, t).effect, tx.first.value, s.now);
    forall u | u in s'.active ensures ChecksStand(p, s'.db, s'.active[u], s'.now) {
      CommitKeepsOthersChecks(p, s, t, u);
    }
  }

  lemma SendAsksUnderLock(p: Policy, c: Command, self: Id, start: Instant, seen: Seen, obs: Obs)
    requires c.Send? && PlanSend(p, c, self, start, seen, obs).Ask?
    ensures AdvisoryR(p.slot(c.user)) in seen
  {
  }

  lemma AskKeepsChecks(p: Policy, db: Db, tx: Tx, self: Id, q: Query, now: Instant)
    requires PositiveAmounts(db.log) && ChecksStand(p, db, tx, now)
    requires Plan(p, tx.command, self, tx.start, tx.seen, tx.obs) == Ask(q)
    ensures ChecksStand(p, db, tx.(obs := tx.obs[q := Result(db, q)]), now)
  {
    if tx.command.Send? {
      SendAsksUnderLock(p, tx.command, self, tx.start, tx.seen, tx.obs);
      SendsAreSent(db.log, tx.command.user, tx.start as int - p.window, now);
      SpentIsOutbound(db.rows, db.log, tx.command.user, tx.start as int - DAY, now);
    }
  }

  // Nothing but an answered query or a commit bears on the checks.
  lemma StepKeepsChecks(p: Policy, db: Db, tx: Tx, tx': Tx, now: Instant)
    requires ChecksStand(p, db, tx, now)
    requires tx'.command == tx.command && tx'.start == tx.start
    requires forall r :: r in tx.seen && !r.AccountR? ==> r in tx'.seen
    requires forall q :: q in tx'.obs && (q.Velocity? || q.Outbound?) ==> q in tx.obs && tx'.obs[q] == tx.obs[q]
    ensures ChecksStand(p, db, tx', now)
  {
  }

  lemma LockingKeepsChecks(p: Policy, s: State, t: Id)
    requires PositiveAmounts(s.db.log) && t in s.active && ChecksStand(p, s.db, s.active[t], s.now)
    requires !Commits(p, s, Step(t)) && t in Advance(p, s, t).active
    ensures ChecksStand(p, s.db, Advance(p, s, t).active[t], s.now)
  {
    var tx := s.active[t];
    if PlanOf(p, s, t).Ask? {
      AskKeepsChecks(p, s.db, tx, t, PlanOf(p, s, t).query, s.now);
    } else {
      StepKeepsChecks(p, s.db, tx, Advance(p, s, t).active[t], s.now);
    }
  }

  lemma TickKeepsLimits(p: Policy, s: State, micros: nat)
    requires Limits(p, s)
    ensures Limits(p, Fire(p, s, Tick(micros)))
  {
    var s' := Fire(p, s, Tick(micros));
    forall t | t in s'.active ensures ChecksStand(p, s'.db, s'.active[t], s'.now) {
      var tx := s.active[t];
      assert ChecksStand(p, s.db, tx, s.now);
      if tx.command.Send? {
        LaterNow(s.db.rows, s.db.log, tx.command.user, tx.start as int - p.window, s.now, s'.now);
        LaterNow(s.db.rows, s.db.log, tx.command.user, tx.start as int - DAY, s.now, s'.now);
      }
    }
  }

  lemma LockingKeepsLimits(p: Policy, s: State, t: Id)
    requires Limits(p, s) && PositiveAmounts(s.db.log) && t in s.active && !Commits(p, s, Step(t))
    requires s.active[t].first.Some? ==> PlanOf(p, s, t).Commit?
    ensures Limits(p, Advance(p, s, t))
  {
    var s' := Advance(p, s, t);
    assert s'.db == s.db && s'.now == s.now;
    forall u | u in s'.active ensures ChecksStand(p, s'.db, s'.active[u], s'.now) {
      if u == t { LockingKeepsChecks(p, s, t); } else { assert ChecksStand(p, s.db, s.active[u], s.now); }
    }
  }

  lemma FireKeepsLimits(p: Policy, s: State, e: Event)
    requires Inv(p, s) && Books(s.db) && Limits(p, s) && CanFire(p, s, e)
    ensures Limits(p, Fire(p, s, e))
  {
    match e
    case Tick(micros) => TickKeepsLimits(p, s, micros);
    case Begin(_) =>
    case Abort(_) =>
    case Step(t) =>
      assert Numbered(p, s, t);
      if Commits(p, s, e) {
        CommitFacts(p, s, t);
        CommitKeepsLimits(p, s, t);
      } else {
        BooksHavePositiveAmounts(s.db);
        LockingKeepsLimits(p, s, t);
      }
  }
}
