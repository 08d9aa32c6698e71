/**
 Promises kept among others: what a commit of the concurrent machine does is what its operation
 promises on the committed state of that moment, whatever raced it, but for limits it counted earlier.
 */
module Kept {
  import opened Calendar
  import opened Store
  import opened Scripts
  import opened Engine
  import opened Serializability
  import opened Deadlock
  import opened System
  import opened Alone
  import opened Promises
  import opened Verdicts
  import opened Outcomes
  import opened Agreement

  // What the commit of `t` leaves behind and answers is promised under the limits of `p`.
  ghost predicate CommitPromised(p: Policy, q: Policy, s: State, t: Id)
    requires Commits(p, s, Step(t))
  {
    var tx, plan := s.active[t], PlanOf(p, s, t);
    Promised(q, s.db, tx.command, t, tx.start, tx.first.value, Apply(s.db, plan.effect, tx.first.value), Ok(plan.reply))
  }

  lemma CommitLeaves(p: Policy, s: State, t: Id)
    requires Commits(p, s, Step(t))
    ensures CanFire(p, s, Step(t))
    ensures Fire(p, s, Step(t)).db == Apply(s.db, PlanOf(p, s, t).effect, s.active[t].first.value)
    ensures Fire(p, s, Step(t)).replies == s.replies + [Exchange(s.active[t].command, PlanOf(p, s, t).reply)]
  {
  }

  lemma VerdictCommitPromised(p: Policy, q: Policy, s: State, t: Id)
    requires Commits(p, s, Step(t))
    requires PlanOf(p, s, t) == Verdict(q, s.db, s.active[t].command, t, s.active[t].start)
    ensures CommitPromised(p, q, s, t)
  {
    var tx, plan := s.active[t], PlanOf(p, s, t);
    VerdictIsPromised(q, s.db, tx.command, t, tx.start, tx.first.value, Apply(s.db, plan.effect, tx.first.value), Ok(plan.reply));
  }

  // A commit that fits the state it commits to does what its operation promises there.
  lemma FittingCommitIsPromised(p: Policy, s: State, t: Id)
    requires ValidPolicy(p) && Reachable(p, s) && Commits(p, s, Step(t))
    requires Fits(p, s.db, s.active[t], t, PlanOf(p, s, t).reply)
    ensures CommitPromised(p, p, s, t)
  {
    CommitIsVerdictIff(p, s, t);
    VerdictCommitPromised(p, p, s, t);
  }

  // Reversals, freezes, requests, splits, schedules and registrations always do.
  lemma UncountedCommitIsPromised(p: Policy, s: State, t: Id)
    requires ValidPolicy(p) && Reachable(p, s) && Commits(p, s, Step(t))
    requires var c := s.active[t].command; !c.ExpireDue? && !c.Send? && !c.Accept?
    requires s.active[t].command.Run? ==> PlanOf(p, s, t).reply in {RunReply(RunSkipped), RunReply(RunDuplicate)}
    ensures CommitPromised(p, p, s, t)
  {
    UncountedCommitIsVerdict(p, s, t);
    VerdictCommitPromised(p, p, s, t);
  }

  // ---------------------------------------------------------------- counted commits

  // The same configuration with limits at least as high.
  ghost predicate Raised(p: Policy, q: Policy) {
    p.dailyLimit <= q.dailyLimit && p.maxTransfers <= q.maxTransfers
    && q == p.(dailyLimit := q.dailyLimit, maxTransfers := q.maxTransfers)
  }

  // A payment, by hand, by request or by schedule, that is no replay.
  predicate PaysCounted(c: Command, seen: Seen, reply: Reply) {
    (c.Send? && !Replays(c, seen)) || (c.Accept? && !Replays(c, seen)) || (c.Run? && reply == RunReply(RunPaid))
  }

  // Limits under which the payment fits the state.
  function RaisedFor(p: Policy, db: Db, c: Command, start: Instant): Policy {
    var payer := match c
      case Send(user, _, _, _, _) => user
      case Accept(user, _, _, _) => user
      case Run(id, _) => (var row := ScheduleOf(db, id); if row.Some? then row.value.from else 0)
      case _ => 0;
    var amount := match c
      case Send(_, _, _, _, amount) => amount
      case Accept(_, _, _, request) =>
        (var row := Lookup(db, RequestR(request)); if row.Some? && row.value.Request? then row.value.amount else 0)
      case Run(id, _) => (var row := ScheduleOf(db, id); if row.Some? then row.value.pays else 0)
      case _ => 0;
    var spent := OutboundSince(db.rows, db.log, payer, start as int - DAY) + amount;
    var sent := SentSince(db.log, payer, start as int - p.window) + 1;
    p.(dailyLimit := if p.dailyLimit < spent then spent else p.dailyLimit,
       maxTransfers := if p.maxTransfers < sent then sent else p.maxTransfers)
  }

  lemma RaisedPlansAlike(p: Policy, q: Policy, c: Command, self: Id, start: Instant, seen: Seen, obs: Obs)
    requires Raised(p, q) && (c.Send? || c.Accept? || c.Run?) && Plan(p, c, self, start, seen, obs).Commit?
    requires c.Run? ==> Plan(p, c, self, start, seen, obs).reply == RunReply(RunPaid)
    ensures Plan(q, c, self, start, seen, obs) == Plan(p, c, self, start, seen, obs)
  {
  }

  lemma RaisedOrdersAlike(p: Policy, q: Policy, c: Command, seen: Seen, obs: Obs)
    requires Raised(p, q) && Ordered(p, c, seen, obs)
    ensures Ordered(q, c, seen, obs)
  {
  }

  lemma RaisedFits(p: Policy, db: Db, tx: Tx, self: Id, reply: Reply)
    requires PaysCounted(tx.command, tx.seen, reply) && Current(db, tx)
    requires tx.command.Accept? || tx.command.Run? ==> FoundItsRow(db, tx.command)
    ensures Fits(RaisedFor(p, db, tx.command, tx.start), db, tx, self, reply)
  {
  }

  predicate FoundItsRow(db: Db, c: Command) {
    match c
    case Accept(_, _, _, request) => (var row := Lookup(db, RequestR(request)); row.Some? && row.value.Request?)
    case Run(id, _) => ScheduleOf(db, id).Some?
    case _ => true
  }

  lemma PaidRowIsFound(p: Policy, db: Db, tx: Tx, self: Id)
    requires Current(db, tx) && Plan(p, tx.command, self, tx.start, tx.seen, tx.obs).Commit?
    requires PaysCounted(tx.command, tx.seen, Plan(p, tx.command, self, tx.start, tx.seen, tx.obs).reply)
    ensures FoundItsRow(db, tx.command)
  {
    CurrentRowsAreSure(db, tx);
  }

  // A payment does what its operation promises on the committed state, under limits raised far enough for
  // it: its rows, its movement and its reply are never out of date, only the counts it was held against.
  lemma PaymentIsPromised(p: Policy, s: State, t: Id)
    requires ValidPolicy(p) && Reachable(p, s) && Commits(p, s, Step(t))
    requires PaysCounted(s.active[t].command, s.active[t].seen, PlanOf(p, s, t).reply)
    ensures CommitPromised(p, RaisedFor(p, s.db, s.active[t].command, s.active[t].start), s, t)
  {
    var tx := s.active[t];
    var q := RaisedFor(p, s.db, tx.command, tx.start);
    ReachableCommit(p, s, t);
    PaidRowIsFound(p, s.db, tx, t);
    RaisedFits(p, s.db, tx, t, PlanOf(p, s, t).reply);
    RaisedPlansAlike(p, q, tx.command, t, tx.start, tx.seen, tx.obs);
    RaisedOrdersAlike(p, q, tx.command, tx.seen, tx.obs);
    CurrentCommitIff(q, s.db, tx, t);
    VerdictCommitPromised(p, q, s, t);
  }

  // ---------------------------------------------------------------- runs whose payment was refused

  // The tables after a commit of `t`.
  function DbAfterCommit(p: Policy, s: State, t: Id): Db
    requires Commits(p, s, Step(t))
  {
    Apply(s.db, PlanOf(p, s, t).effect, s.active[t].first.value)
  }

  lemma RefusedRunPlanned(p: Policy, db: Db, c: Command, self: Id, start: Instant, seen: Seen, obs: Obs)
    returns (n: nat, e: Error)
    requires c.Run? && SureRows(db, seen) && PlanRun(p, c, self, start, seen, obs).Commit?
    requires PlanRun(p, c, self, start, seen, obs).reply == RunReply(RunDeferred)
             || PlanRun(p, c, self, start, seen, obs).reply == RunReply(RunFailed)
    ensures Claimable(Lookup(db, ScheduleR(c.schedule)), start)
    ensures var row := db.rows[ScheduleR(c.schedule)];
            && AttemptAt(db, c.schedule, row.next) == Some(n) && n >= 1
            && c.clockMs - row.next / 1000 <= p.graceMs
            && PlanRun(p, c, self, start, seen, obs) == AfterRefusal(p, c, start, row, n, e)
  {
    var row := seen[ScheduleR(c.schedule)].value;
    n := Attempt(seen[OccurrenceR(c.schedule, row.next)]).value;
    e := obs[PaymentRefused].error;
  }

  // A run put off or given up claimed a schedule that is due in the committed state, in time, at the attempt
  // recorded there; it waits the backoff of that attempt, or fails the occurrence and goes on.
  lemma RefusedRunIsPromised(p: Policy, s: State, t: Id) returns (n: nat, e: Error)
    requires ValidPolicy(p) && Reachable(p, s) && Commits(p, s, Step(t)) && s.active[t].command.Run?
    requires PlanOf(p, s, t).reply in {RunReply(RunDeferred), RunReply(RunFailed)}
    ensures Claimable(Lookup(s.db, ScheduleR(s.active[t].command.schedule)), s.active[t].start)
    ensures var c, now := s.active[t].command, s.active[t].start;
            var row := s.db.rows[ScheduleR(c.schedule)];
            var r := Ok(PlanOf(p, s, t).reply);
            && AttemptAt(s.db, c.schedule, row.next) == Some(n) && n >= 1
            && c.clockMs - row.next / 1000 <= p.graceMs
            && if TriesAgain(p, e, n) then PutsOffBy(Backoff(p, n), s.db, c.schedule, row, n, now, DbAfterCommit(p, s, t), r)
               else Settles(RunFailed, FAILED, s.db, c.schedule, row, n, DbAfterCommit(p, s, t), r)
  {
    var tx := s.active[t];
    ReachableCommit(p, s, t);
    CurrentRowsAreSure(s.db, tx);
    n, e := RefusedRunPlanned(p, s.db, tx.command, t, tx.start, tx.seen, tx.obs);
    RefusedKept(p, s.db, tx.command, tx.start, s.db.rows[ScheduleR(tx.command.schedule)], n, e, tx.first.value,
                DbAfterCommit(p, s, t), Ok(PlanOf(p, s, t).reply));
  }
}
