/**
 One-off schedules: when the payment that was ordered is lost, and that it can be.
 */
module OneOff {
  import opened Calendar
  import opened Store
  import opened Scripts
  import opened Engine
  import opened Schedules
  import opened Alone
  import opened Verdicts
  import opened System
  import opened Opening

  // The guards of a scheduler's run of a schedule that is due: its occurrence is not settled, it is not
  // too late, and its payment goes out or may be attempted again.
  predicate KeepsItsRun(p: Policy, db: Db, x: Id, self: Id, now: Instant, clockMs: int) {
    var row := ScheduleOf(db, x);
    row.Some? &&
    var attempt := Attempt(Lookup(db, OccurrenceR(x, row.value.next)));
    var refusal := Refusal(p, db, self, now, row.value);
    && attempt.Some?
    && clockMs - row.value.next / 1000 <= p.graceMs
    && (refusal.None? || (Retryable(refusal.value) && attempt.value < p.maxAttempts))
  }

  ghost predicate IsTurn(p: Policy, db: Db, c: Command, self: Id, now: Instant, turn: Turn)
    requires c.Run?
  {
    var v := RunVerdict(p, db, c, self, now);
    v.Commit? && TakesTurn(p, db, c.schedule, v.effect, self, turn)
  }

  lemma PaidTurn(p: Policy, db: Db, c: Command, self: Id, now: Instant, row: Row, attempts: nat)
    requires c.Run? && ScheduleOf(db, c.schedule) == Some(row) && row.phase.ACTIVE?
    requires Attempt(Lookup(db, OccurrenceR(c.schedule, row.next))) == Some(attempts)
    requires Refusal(p, db, self, now, row).None?
    ensures TakesTurn(p, db, c.schedule, PaidEffect(db, c, self, now, row, attempts), self, Pays)
  {
    PostingApplies(db, ScheduledPayment(self, now, row), 0);
  }

  lemma RefusedTurn(p: Policy, db: Db, c: Command, self: Id, now: Instant, row: Row, attempts: nat, e: Error)
    returns (turn: Turn)
    requires c.Run? && ScheduleOf(db, c.schedule) == Some(row) && row.phase.ACTIVE? && attempts >= 1
    requires Attempt(Lookup(db, OccurrenceR(c.schedule, row.next))) == Some(attempts)
    ensures TakesTurn(p, db, c.schedule, AfterRefusal(p, c, now, row, attempts, e).effect, self, turn)
    ensures turn.Defers? <==> Retryable(e) && attempts < p.maxAttempts
    ensures !turn.Pays?
  {
    var effect := AfterRefusal(p, c, now, row, attempts, e).effect;
    turn := if Retryable(e) && attempts < p.maxAttempts then Defers(effect.writes[ScheduleR(c.schedule)].retryAfter.value)
            else Fails;
  }

  // What the run of a due schedule does is a turn that pays or defers exactly when its guards say so.
  lemma RunIsTurn(p: Policy, db: Db, c: Command, self: Id, now: Instant) returns (turn: Turn)
    requires c.Run? && IsDue(Lookup(db, ScheduleR(c.schedule)), now)
    ensures IsTurn(p, db, c, self, now, turn)
    ensures turn.Pays? || turn.Defers? <==> KeepsItsRun(p, db, c.schedule, self, now, c.clockMs)
  {
    var row := db.rows[ScheduleR(c.schedule)];
    var attempt := Attempt(Lookup(db, OccurrenceR(c.schedule, row.next)));
    var refusal := Refusal(p, db, self, now, row);
    if attempt.None? {
      turn := Duplicate;
    } else if c.clockMs - row.next / 1000 > p.graceMs {
      turn := Skips;
    } else if refusal.None? {
      PaidTurn(p, db, c, self, now, row, attempt.value);
      turn := Pays;
    } else {
      turn := RefusedTurn(p, db, c, self, now, row, attempt.value, refusal.value);
    }
  }

  // Whoever orders one payment is owed one payment.  The run of a one-off schedule keeps to that if and
  // only if the guards of the run hold; otherwise the schedule ends COMPLETED and unpaid.
  lemma OneOffIsOwedIff(p: Policy, db: Db, c: Command, self: Id, now: Instant, first: nat)
    requires c.Run? && SchedulesOnce(p, db) && IsDue(Lookup(db, ScheduleR(c.schedule)), now)
    requires db.rows[ScheduleR(c.schedule)].every.ONCE?
    ensures var v := RunVerdict(p, db, c, self, now);
            v.Commit? &&
            var rows := Apply(db, v.effect, first).rows;
            && ScheduleR(c.schedule) in rows && Accounted(rows, c.schedule)
            && (RunsOwed(rows, c.schedule) == 1 <==> KeepsItsRun(p, db, c.schedule, self, now, c.clockMs))
            && (!KeepsItsRun(p, db, c.schedule, self, now, c.clockMs) ==>
                  rows[ScheduleR(c.schedule)].phase.COMPLETED? && PaidOccurrences(rows, c.schedule) == {})
  {
    var turn := RunIsTurn(p, db, c, self, now);
    var e := RunVerdict(p, db, c, self, now).effect;
    assert Accounted(db.rows, c.schedule);
    OneOffTurnIff(p, db, c.schedule, e, self, turn);
    assert |PaidOccurrences(db.rows + e.writes, c.schedule)| == 0 <==> PaidOccurrences(db.rows + e.writes, c.schedule) == {};
  }

  // ---------------------------------------------------------------- a payment that is lost

  const ORDERED: Id := STRIPES + 3

  function OrderOnce(amount: int, at: Instant): Command {
    CreateSchedule(PAYER, 0, 0, Some(PAYEE), amount, ONCE, at, None, at / 1000)
  }

  function OnceRow(amount: int, at: Instant): Row {
    Schedule(PAYER, PAYEE, amount, ONCE, at, Some(1), ScheduleStatus.ACTIVE, None, Some(1))
  }

  function LostRow(amount: int, at: Instant): Row {
    Schedule(PAYER, PAYEE, amount, ONCE, at, Some(0), ScheduleStatus.COMPLETED, None, Some(1))
  }

  lemma OnceIsOrdered(p: Policy, db: Db, amount: int, at: Instant, first: nat)
    requires p.minTransfer <= amount <= p.maxTransfer && OpenedDb(p, db, ORDERED)
    ensures var v := Verdict(p, db, OrderOnce(amount, at), ORDERED, at);
            && v.Commit? && Waiting(Apply(db, v.effect, first), amount, at)
  {
    OnlyRowEnds(p, db, OrderOnce(amount, at), ORDERED, at);
  }

  // The schedule has been created and never run.
  ghost predicate Waiting(db: Db, amount: int, at: Instant) {
    Lookup(db, ScheduleR(ORDERED)) == Some(OnceRow(amount, at)) && forall r :: r in db.rows ==> !r.OccurrenceR?
  }

  lemma Orders(p: Policy, s: State, amount: int) returns (s': State)
    requires p.minTransfer <= amount <= p.maxTransfer && Opened(p, s, ORDERED)
    ensures Reachable(p, s') && s'.active == map[] && s'.now == s.now && Waiting(s'.db, amount, s.now)
  {
    OnceIsOrdered(p, s.db, amount, s.now, s.nextEntry);
    s' := PlaysAlone(p, s, OrderOnce(amount, s.now));
  }

  lemma RunsLate(p: Policy, s: State, amount: int, at: Instant) returns (s': State)
    requires ValidPolicy(p) && Reachable(p, s) && s.active == map[] && Waiting(s.db, amount, at)
    requires s.now == at + (p.graceMs + 1) * 1000
    ensures Reachable(p, s') && ScheduleR(ORDERED) in s'.db.rows
    ensures s'.db.rows[ScheduleR(ORDERED)] == LostRow(amount, at)
    ensures PaidOccurrences(s'.db.rows, ORDERED) == {}
  {
    var c := Run(ORDERED, s.now / 1000);
    RunEnds(p, s.db, c, s.nextTx, s.now);
    ReachableIsGood(p, s);
    OneOffIsOwedIff(p, s.db, c, s.nextTx, s.now, s.nextEntry);
    s' := PlaysAlone(p, s, c);
  }

  // Under every configuration, a payment ordered in good time is lost when the scheduler gets to it too
  // late: the schedule is COMPLETED, has no run left, and has never been paid.
  lemma OneOffCanBeLost(p: Policy, amount: int, now: Instant) returns (s: State)
    requires ValidPolicy(p) && p.signupBonus > 0 && p.minTransfer <= amount <= p.maxTransfer
    ensures Reachable(p, s) && ScheduleR(ORDERED) in s.db.rows
    ensures s.db.rows[ScheduleR(ORDERED)] == LostRow(amount, now)
    ensures PaidOccurrences(s.db.rows, ORDERED) == {}
  {
    var s1 := People(p, now, 2);
    var s2 := Orders(p, s1, amount);
    var s3 := TimePasses(p, s2, (p.graceMs + 1) * 1000);
    s := RunsLate(p, s3, amount, now);
  }
}
