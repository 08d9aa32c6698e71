/**
 The scheduler: whatever replicas, pauses, retries and operators do, an occurrence is paid at most
 once, settled occurrences never change, and the runs a user ordered are accounted for.
 */
module Schedules {
  import opened Calendar
  import opened Store
  import opened Scripts
  import opened Engine

  // ---------------------------------------------------------------- what a run of a schedule commits

  datatype Turn = Duplicate | Skips | Fails | Defers(until: Instant) | Pays

  predicate SchedulerRow(r: Resource) {
    r.ScheduleR? || r.OccurrenceR?
  }

  // The schedule row a turn leaves behind.
  function ScheduleAfter(row: Row, turn: Turn): Row
    requires row.Schedule?
  {
    match turn
    case Defers(until) => row.(retryAfter := Some(until))
    case Pays => AdvanceSchedule(row, true)
    case _ => AdvanceSchedule(row, false)
  }

  function OccurrenceAfter(attempts: nat, turn: Turn, self: Id): Row {
    match turn
    case Skips => Occurrence(SKIPPED, attempts, None)
    case Fails => Occurrence(FAILED, attempts, None)
    case Defers(_) => Occurrence(OccurrenceStatus.PENDING, attempts, None)
    case _ => Occurrence(PAID, attempts, Some(self))
  }

  predicate PaysFor(t: Transfer, row: Row) {
    row.Schedule? && t.kind.SCHEDULED? && t.from == row.from && t.to == row.to && t.amount == row.pays
  }

  // One turn of an active schedule, at the occurrence that is due.
  ghost predicate TakesTurn(p: Policy, db: Db, x: Id, e: Effect, self: Id, turn: Turn) {
    var s := ScheduleR(x);
    && s in db.rows && db.rows[s].Schedule? && db.rows[s].phase.ACTIVE?
    && var row := db.rows[s];
    var o := OccurrenceR(x, row.next);
    var attempt := Attempt(Lookup(db, o));
    && s in e.writes && e.writes[s] == ScheduleAfter(row, turn)
    && (turn.Duplicate? <==> attempt.None?)
    && (if turn.Duplicate? then o !in e.writes
        else o in e.writes && e.writes[o] == OccurrenceAfter(attempt.value, turn, self))
    && (turn.Defers? ==> attempt.value < p.maxAttempts)
    && (forall r :: r in e.writes && SchedulerRow(r) ==> r == s || r == o)
    && (if turn.Pays? then e.moved.Some? && PaysFor(e.moved.value, row) else e.moved.None?)
  }

  // Owners and operators move `next`, the phase between ACTIVE, PAUSED and CANCELLED, and the backoff.
  ghost predicate Redirects(db: Db, x: Id, e: Effect) {
    var s := ScheduleR(x);
    && s in db.rows && db.rows[s].Schedule?
    && s in e.writes && e.writes[s].Schedule?
    && (db.rows[s].phase.ACTIVE? || db.rows[s].phase.PAUSED?) && !e.writes[s].phase.COMPLETED?
    && e.writes[s] == db.rows[s].(phase := e.writes[s].phase, next := e.writes[s].next, retryAfter := e.writes[s].retryAfter)
    && (forall r :: r in e.writes && SchedulerRow(r) ==> r == s)
    && e.moved.None?
  }

  ghost predicate Orders(e: Effect, self: Id) {
    var s := ScheduleR(self);
    && s in e.writes && e.writes[s].Schedule? && e.writes[s].phase.ACTIVE?
    && e.writes[s].remaining == e.writes[s].ordered
    && (e.writes[s].ordered.Some? ==> e.writes[s].ordered.value >= 1)
    && (e.writes[s].every.ONCE? ==> e.writes[s].ordered == Some(1))
    && (forall r :: r in e.writes && SchedulerRow(r) ==> r == s)
    && e.moved.None?
  }

  ghost predicate LeavesSchedules(e: Effect) {
    && (forall r :: r in e.writes ==> !SchedulerRow(r))
    && (e.moved.Some? ==> !e.moved.value.kind.SCHEDULED?)
  }

  ghost predicate SchedulerWrites(p: Policy, db: Db, e: Effect, self: Id) {
    || LeavesSchedules(e)
    || Orders(e, self)
    || (exists x :: Redirects(db, x, e))
    || (exists x, turn :: TakesTurn(p, db, x, e, self, turn))
  }

  lemma RunTakesTurn(p: Policy, db: Db, c: Command, self: Id, start: Instant, seen: Seen, obs: Obs)
    requires c.Run? && AllStand(db, seen) && PlanRun(p, c, self, start, seen, obs).Commit?
    ensures SchedulerWrites(p, db, PlanRun(p, c, self, start, seen, obs).effect, self)
  {
    var e := PlanRun(p, c, self, start, seen, obs).effect;
    if e != NO_EFFECT {
      var s := ScheduleR(c.schedule);
      assert Stands(db, s, seen[s]);
      var row := seen[s].value;
      var o := OccurrenceR(c.schedule, row.next);
      assert Stands(db, o, seen[o]);
      var turn :=
        if Attempt(seen[o]).None? then Duplicate
        else if e.moved.Some? then Pays
        else if e.writes[o].outcome.SKIPPED? then Skips
        else if e.writes[o].outcome.FAILED? then Fails
        else Defers(e.writes[s].retryAfter.value);
      assert TakesTurn(p, db, c.schedule, e, self, turn);
    }
  }

  lemma OwnerRedirects(p: Policy, db: Db, c: Command, self: Id, start: Instant, seen: Seen)
    requires c.Transition? || c.BringForward?
    requires AllStand(db, seen) && Plan(p, c, self, start, seen, map[]).Commit?
    ensures SchedulerWrites(p, db, Plan(p, c, self, start, seen, map[]).effect, self)
  {
    var e := Plan(p, c, self, start, seen, map[]).effect;
    if e != NO_EFFECT {
      assert Stands(db, ScheduleR(c.schedule), seen[ScheduleR(c.schedule)]);
      assert Redirects(db, c.schedule, e);
    }
  }

  lemma CreationOrders(p: Policy, db: Db, c: Command, self: Id, seen: Seen)
    requires c.CreateSchedule? && PlanCreateSchedule(p, c, self, seen).Commit?
    ensures SchedulerWrites(p, db, PlanCreateSchedule(p, c, self, seen).effect, self)
  {
  }

  lemma PaymentLeavesSchedules(p: Policy, c: Command, self: Id, start: Instant, seen: Seen, obs: Obs)
    requires c.Send? || c.Accept? || c.Reverse? || c.Register?
    requires Plan(p, c, self, start, seen, obs).Commit?
    ensures LeavesSchedules(Plan(p, c, self, start, seen, obs).effect)
  {
  }

  lemma CommitWritesSchedules(p: Policy, db: Db, c: Command, self: Id, start: Instant, seen: Seen, obs: Obs)
    requires AllStand(db, seen) && Plan(p, c, self, start, seen, obs).Commit?
    ensures SchedulerWrites(p, db, Plan(p, c, self, start, seen, obs).effect, self)
  {
    if c.Run? { RunTakesTurn(p, db, c, self, start, seen, obs); }
    else if c.Transition? || c.BringForward? { OwnerRedirects(p, db, c, self, start, seen); }
    else if c.CreateSchedule? { CreationOrders(p, db, c, self, seen); }
    else if c.Send? || c.Accept? || c.Reverse? || c.Register? { PaymentLeavesSchedules(p, c, self, start, seen, obs); }
    else if c.ExpireDue? { ExpireCommits(c, c.requests, start, seen, obs); }
  }

  // ---------------------------------------------------------------- the invariant

  function PaidOccurrences(rows: map<Resource, Row>, x: Id): set<Resource> {
    set r | r in rows && r.OccurrenceR? && r.of == x && rows[r].Occurrence? && rows[r].outcome.PAID?
  }

  // Runs paid plus runs remaining are the runs ordered, and none remain exactly when it is COMPLETED.
  // A one-off schedule that fails or is skipped ends without having been paid (`OneOffTurnIff`).
  predicate Accounted(rows: map<Resource, Row>, x: Id)
    requires ScheduleR(x) in rows
  {
    var row := rows[ScheduleR(x)];
    && row.Schedule?
    && (row.remaining.Some? <==> row.ordered.Some?)
    && (row.phase.COMPLETED? <==> row.remaining == Some(0))
    && (row.every.ONCE? ==> row.ordered == Some(1) && |PaidOccurrences(rows, x)| + row.remaining.value <= 1)
    && (!row.every.ONCE? && row.ordered.Some? ==>
          |PaidOccurrences(rows, x)| + row.remaining.value == row.ordered.value)
  }

  predicate Attempted(p: Policy, rows: map<Resource, Row>, x: Id, due: Instant)
    requires OccurrenceR(x, due) in rows
  {
    var row := rows[OccurrenceR(x, due)];
    && row.Occurrence? && 1 <= row.attempts <= p.maxAttempts
    && (row.outcome.PENDING? ==> row.attempts < p.maxAttempts)
    && (row.outcome.PAID? <==> row.transfer.Some?)
    && ScheduleR(x) in rows
  }

  // `t` is the payment recorded by the occurrence.
  ghost predicate PaidBy(db: Db, x: Id, due: Instant, t: Transfer) {
    && OccurrenceR(x, due) in db.rows && db.rows[OccurrenceR(x, due)].Occurrence?
    && db.rows[OccurrenceR(x, due)].outcome.PAID? && db.rows[OccurrenceR(x, due)].transfer == Some(t.id)
    && ScheduleR(x) in db.rows && PaysFor(t, db.rows[ScheduleR(x)])
    && t in db.log
  }

  ghost predicate HasPayment(db: Db, x: Id, due: Instant) {
    exists t :: PaidBy(db, x, due, t)
  }

  ghost predicate HasOccurrence(db: Db, t: Transfer) {
    exists x, due :: PaidBy(db, x, due, t)
  }

  // Two occurrences never share a transfer.
  ghost predicate PaymentsDistinct(rows: map<Resource, Row>) {
    forall r, r' :: r in rows && r' in rows && r.OccurrenceR? && r'.OccurrenceR? && r != r'
                    && rows[r].Occurrence? && rows[r'].Occurrence? && rows[r].transfer.Some? ==>
      rows[r].transfer != rows[r'].transfer
  }

  ghost predicate SchedulesOnce(p: Policy, db: Db) {
    && (forall x :: ScheduleR(x) in db.rows ==> Accounted(db.rows, x))
    && (forall x, due :: OccurrenceR(x, due) in db.rows ==> Attempted(p, db.rows, x, due))
    && (forall x, due :: OccurrenceR(x, due) in db.rows && db.rows[OccurrenceR(x, due)].outcome.PAID? ==> HasPayment(db, x, due))
    && (forall t :: t in db.log && t.kind.SCHEDULED? ==> HasOccurrence(db, t))
    && PaymentsDistinct(db.rows)
  }

  // Settled occurrences never change; schedules keep who pays whom, how much, and how many runs.
  ghost predicate SchedulesProgress(db: Db, db': Db) {
    && (forall x, due :: OccurrenceR(x, due) in db.rows && db.rows[OccurrenceR(x, due)].Occurrence?
                         && !db.rows[OccurrenceR(x, due)].outcome.PENDING? ==>
          OccurrenceR(x, due) in db'.rows && db'.rows[OccurrenceR(x, due)] == db.rows[OccurrenceR(x, due)])
    && (forall x :: ScheduleR(x) in db.rows && db.rows[ScheduleR(x)].Schedule? ==>
          && ScheduleR(x) in db'.rows && db'.rows[ScheduleR(x)].Schedule?
          && db'.rows[ScheduleR(x)].from == db.rows[ScheduleR(x)].from
          && db'.rows[ScheduleR(x)].to == db.rows[ScheduleR(x)].to
          && db'.rows[ScheduleR(x)].pays == db.rows[ScheduleR(x)].pays
          && db'.rows[ScheduleR(x)].every == db.rows[ScheduleR(x)].every
          && db'.rows[ScheduleR(x)].ordered == db.rows[ScheduleR(x)].ordered)
  }

  // ---------------------------------------------------------------- preservation

  lemma TurnProgresses(p: Policy, db: Db, x: Id, e: Effect, self: Id, first: nat, turn: Turn)
    requires TakesTurn(p, db, x, e, self, turn)
    ensures SchedulesProgress(db, Apply(db, e, first))
  {
  }

  lemma WritesProgress(p: Policy, db: Db, e: Effect, self: Id, first: nat)
    requires SchedulerWrites(p, db, e, self) && Fresh(db, self)
    ensures SchedulesProgress(db, Apply(db, e, first))
  {
    if x, turn :| TakesTurn(p, db, x, e, self, turn) {
      TurnProgresses(p, db, x, e, self, first, turn);
    } else if Orders(e, self) {
      assert Creator(ScheduleR(self)) == Some(self);
    }
  }

  lemma AtomicProgressesSchedules(p: Policy, db: Db, c: Command, self: Id, start: Instant, seen: Seen, obs: Obs,
                                  e: Effect, first: nat, reply: Reply, db': Db)
    requires Atomic(p, db, c, self, start, seen, obs, e, first, reply, db')
    ensures SchedulesProgress(db, db')
  {
    CommitWritesSchedules(p, db, c, self, start, seen, obs);
    WritesProgress(p, db, e, self, first);
  }

  // Only a paying turn changes the set of paid occurrences, by adding the one that was due.
  lemma PaidOccurrencesAfter(p: Policy, db: Db, y: Id, x: Id, e: Effect, self: Id, turn: Turn)
    requires TakesTurn(p, db, x, e, self, turn)
    ensures var o := OccurrenceR(x, db.rows[ScheduleR(x)].next);
            && (turn.Duplicate? || o !in PaidOccurrences(db.rows, x))
            && PaidOccurrences(db.rows + e.writes, y)
               == PaidOccurrences(db.rows, y) + (if y == x && turn.Pays? then {o} else {})
  {
  }

  lemma TurnKeepsAccount(p: Policy, db: Db, x: Id, e: Effect, self: Id, turn: Turn)
    requires TakesTurn(p, db, x, e, self, turn) && Accounted(db.rows, x)
    ensures Accounted(db.rows + e.writes, x)
  {
    PaidOccurrencesAfter(p, db, x, x, e, self, turn);
  }

  // Runs paid and runs still to come.
  function RunsOwed(rows: map<Resource, Row>, x: Id): int
    requires ScheduleR(x) in rows && rows[ScheduleR(x)].Schedule? && rows[ScheduleR(x)].remaining.Some?
  {
    |PaidOccurrences(rows, x)| + rows[ScheduleR(x)].remaining.value
  }

  // A turn of a one-off schedule keeps the run that was ordered if and only if it pays or puts it off;
  // any other turn ends the schedule unpaid.
  lemma OneOffTurnIff(p: Policy, db: Db, x: Id, e: Effect, self: Id, turn: Turn)
    requires TakesTurn(p, db, x, e, self, turn) && Accounted(db.rows, x) && db.rows[ScheduleR(x)].every.ONCE?
    ensures Accounted(db.rows + e.writes, x)
    ensures RunsOwed(db.rows, x) == 1
    ensures RunsOwed(db.rows + e.writes, x) == 1 <==> turn.Pays? || turn.Defers?
    ensures RunsOwed(db.rows + e.writes, x) == 0 <==> !turn.Pays? && !turn.Defers?
  {
    TurnKeepsAccount(p, db, x, e, self, turn);
    PaidOccurrencesAfter(p, db, x, x, e, self, turn);
  }

  lemma AccountKept(rows: map<Resource, Row>, rows': map<Resource, Row>, x: Id)
    requires ScheduleR(x) in rows && ScheduleR(x) in rows' && Accounted(rows, x)
    requires PaidOccurrences(rows', x) == PaidOccurrences(rows, x)
    requires rows'[ScheduleR(x)].Schedule?
    requires rows[ScheduleR(x)] == rows'[ScheduleR(x)].(phase := rows[ScheduleR(x)].phase, next := rows[ScheduleR(x)].next,
                                                       retryAfter := rows[ScheduleR(x)].retryAfter)
    requires rows[ScheduleR(x)].phase.COMPLETED? <==> rows'[ScheduleR(x)].phase.COMPLETED?
    ensures Accounted(rows', x)
  {
  }

  lemma TurnAccounts(p: Policy, db: Db, x: Id, e: Effect, self: Id, turn: Turn, y: Id)
    requires TakesTurn(p, db, x, e, self, turn) && ScheduleR(y) in db.rows && Accounted(db.rows, y)
    ensures Accounted(db.rows + e.writes, y)
  {
    PaidOccurrencesAfter(p, db, y, x, e, self, turn);
    if y == x { TurnKeepsAccount(p, db, x, e, self, turn); } else { AccountKept(db.rows, db.rows + e.writes, y); }
  }

  // A schedule that has just been created has no occurrences.
  lemma NewScheduleAccounted(p: Policy, db: Db, e: Effect, self: Id)
    requires SchedulesOnce(p, db) && Fresh(db, self) && Orders(e, self)
    ensures Accounted(db.rows + e.writes, self)
  {
    var rows' := db.rows + e.writes;
    assert ScheduleR(self) !in db.rows by { assert Creator(ScheduleR(self)) == Some(self); }
    forall r | r in rows' && r.OccurrenceR? ensures r.of != self {
      assert OccurrenceR(r.of, r.due) in db.rows && Attempted(p, db.rows, r.of, r.due);
    }
    assert PaidOccurrences(rows', self) == {};
  }

  lemma OtherwiseAccounted(p: Policy, db: Db, e: Effect, self: Id, y: Id)
    requires ScheduleR(y) in db.rows && Accounted(db.rows, y) && Fresh(db, self)
    requires LeavesSchedules(e) || Orders(e, self) || exists x :: Redirects(db, x, e)
    ensures Accounted(db.rows + e.writes, y)
  {
    var rows' := db.rows + e.writes;
    assert Creator(ScheduleR(y)) != Some(self);
    assert PaidOccurrences(rows', y) == PaidOccurrences(db.rows, y);
    AccountKept(db.rows, rows', y);
  }

  lemma EveryScheduleAccounted(p: Policy, db: Db, e: Effect, self: Id, first: nat, y: Id)
    requires SchedulesOnce(p, db) && Fresh(db, self) && SchedulerWrites(p, db, e, self)
    requires ScheduleR(y) in Apply(db, e, first).rows
    ensures Accounted(Apply(db, e, first).rows, y)
  {
    if x, turn :| TakesTurn(p, db, x, e, self, turn) {
      TurnAccounts(p, db, x, e, self, turn, y);
    } else if Orders(e, self) && y == self {
      NewScheduleAccounted(p, db, e, self);
    } else {
      OtherwiseAccounted(p, db, e, self, y);
    }
  }

  lemma EveryOccurrenceAttempted(p: Policy, db: Db, e: Effect, self: Id, first: nat, y: Id, due: Instant)
    requires p.maxAttempts >= 1
    requires SchedulesOnce(p, db) && Fresh(db, self) && SchedulerWrites(p, db, e, self)
    requires OccurrenceR(y, due) in Apply(db, e, first).rows
    ensures Attempted(p, Apply(db, e, first).rows, y, due)
  {
    if OccurrenceR(y, due) in db.rows { assert Attempted(p, db.rows, y, due); }
  }

  lemma PaymentKept(p: Policy, db: Db, e: Effect, self: Id, first: nat, y: Id, due: Instant, t: Transfer)
    requires SchedulesOnce(p, db) && Fresh(db, self) && SchedulerWrites(p, db, e, self)
    requires PaidBy(db, y, due, t)
    ensures PaidBy(Apply(db, e, first), y, due, t)
  {
    WritesProgress(p, db, e, self, first);
    RecordKept(db, Apply(db, e, first), y, due, t);
  }

  lemma RecordKept(db: Db, db': Db, y: Id, due: Instant, t: Transfer)
    requires PaidBy(db, y, due, t) && SchedulesProgress(db, db') && db.log <= db'.log
    ensures PaidBy(db', y, due, t)
  {
  }

  lemma EveryPaidOccurrenceHasPayment(p: Policy, db: Db, e: Effect, self: Id, first: nat, y: Id, due: Instant)
    requires SchedulesOnce(p, db) && Fresh(db, self) && SchedulerWrites(p, db, e, self)
    requires e.moved.Some? ==> e.moved.value.id == self
    requires var rows := Apply(db, e, first).rows;
             OccurrenceR(y, due) in rows && rows[OccurrenceR(y, due)].Occurrence? && rows[OccurrenceR(y, due)].outcome.PAID?
    ensures HasPayment(Apply(db, e, first), y, due)
  {
    var o := OccurrenceR(y, due);
    if o in db.rows && db.rows[o].Occurrence? && db.rows[o].outcome.PAID? {
      var t :| PaidBy(db, y, due, t);
      PaymentKept(p, db, e, self, first, y, due, t);
    } else {
      var x, turn :| TakesTurn(p, db, x, e, self, turn);
      assert e.moved.value in Apply(db, e, first).log;
      assert PaidBy(Apply(db, e, first), y, due, e.moved.value);
    }
  }

  lemma EveryPaymentHasOccurrence(p: Policy, db: Db, e: Effect, self: Id, first: nat, t: Transfer)
    requires SchedulesOnce(p, db) && Fresh(db, self) && SchedulerWrites(p, db, e, self)
    requires e.moved.Some? ==> e.moved.value.id == self
    requires t in Apply(db, e, first).log && t.kind.SCHEDULED?
    ensures HasOccurrence(Apply(db, e, first), t)
  {
    if t in db.log {
      var x, due :| PaidBy(db, x, due, t);
      PaymentKept(p, db, e, self, first, x, due, t);
    } else {
      var x, turn :| TakesTurn(p, db, x, e, self, turn);
      assert PaidBy(Apply(db, e, first), x, db.rows[ScheduleR(x)].next, t);
    }
  }

  lemma RecordedTransfersAreOld(p: Policy, db: Db, self: Id, r: Resource)
    requires SchedulesOnce(p, db) && Fresh(db, self) && r in db.rows && r.OccurrenceR?
    ensures db.rows[r].Occurrence? && db.rows[r].transfer != Some(self)
  {
    assert OccurrenceR(r.of, r.due) == r && Attempted(p, db.rows, r.of, r.due);
    if db.rows[r].transfer.Some? {
      var t :| PaidBy(db, r.of, r.due, t);
    }
  }

  // Writing one occurrence, with a new transfer or none, keeps transfers apart.
  lemma OneOccurrenceWritten(rows: map<Resource, Row>, writes: map<Resource, Row>, o: Resource, self: Id)
    requires PaymentsDistinct(rows)
    requires forall r :: r in rows && r.OccurrenceR? ==> rows[r].Occurrence? && rows[r].transfer != Some(self)
    requires forall r :: r in writes && r.OccurrenceR? ==> r == o
    requires o in writes && writes[o].Occurrence? ==> writes[o].transfer.None? || writes[o].transfer == Some(self)
    ensures PaymentsDistinct(rows + writes)
  {
  }

  lemma PaymentsStayDistinct(p: Policy, db: Db, e: Effect, self: Id)
    requires SchedulesOnce(p, db) && Fresh(db, self) && SchedulerWrites(p, db, e, self)
    ensures PaymentsDistinct(db.rows + e.writes)
  {
    forall r | r in db.rows && r.OccurrenceR? ensures db.rows[r].Occurrence? && db.rows[r].transfer != Some(self) {
      RecordedTransfersAreOld(p, db, self, r);
    }
    if x, turn :| TakesTurn(p, db, x, e, self, turn) {
      OneOccurrenceWritten(db.rows, e.writes, OccurrenceR(x, db.rows[ScheduleR(x)].next), self);
    } else {
      OneOccurrenceWritten(db.rows, e.writes, OccurrenceR(self, 0), self);
    }
  }

  lemma AtomicKeepsSchedules(p: Policy, db: Db, c: Command, self: Id, start: Instant, seen: Seen, obs: Obs,
                             e: Effect, first: nat, reply: Reply, db': Db)
    requires p.maxAttempts >= 1
    requires SchedulesOnce(p, db)
    requires Atomic(p, db, c, self, start, seen, obs, e, first, reply, db')
    ensures SchedulesOnce(p, db')
  {
    CommitWritesSchedules(p, db, c, self, start, seen, obs);
    CommitWritesOwnRows(p, c, self, start, seen, obs);
    forall x | ScheduleR(x) in db'.rows ensures Accounted(db'.rows, x) {
      EveryScheduleAccounted(p, db, e, self, first, x);
    }
    forall x, due | OccurrenceR(x, due) in db'.rows
      ensures Attempted(p, db'.rows, x, due)
      ensures db'.rows[OccurrenceR(x, due)].outcome.PAID? ==> HasPayment(db', x, due)
    {
      EveryOccurrenceAttempted(p, db, e, self, first, x, due);
      if db'.rows[OccurrenceR(x, due)].outcome.PAID? {
        EveryPaidOccurrenceHasPayment(p, db, e, self, first, x, due);
      }
    }
    forall t | t in db'.log && t.kind.SCHEDULED? ensures HasOccurrence(db', t) {
      EveryPaymentHasOccurrence(p, db, e, self, first, t);
    }
    PaymentsStayDistinct(p, db, e, self);
  }

  // ---------------------------------------------------------------- at most once

  // One payment per paid occurrence and one paid occurrence per scheduled payment.
  lemma PaymentsAndOccurrencesPair(p: Policy, db: Db, x: Id, due: Instant, y: Id, due': Instant, t: Transfer, u: Transfer)
    requires SchedulesOnce(p, db)
    requires PaidBy(db, x, due, t) && PaidBy(db, y, due', u)
    ensures t.id == u.id <==> x == y && due == due'
  {
    if OccurrenceR(x, due) != OccurrenceR(y, due') {
      assert db.rows[OccurrenceR(x, due)].transfer != db.rows[OccurrenceR(y, due')].transfer;
    }
  }

  // A settled occurrence that comes round again is recognised and only moves the schedule on.
  lemma SettledOccurrenceIsNotPaid(p: Policy, db: Db, c: Command, self: Id, start: Instant, seen: Seen, obs: Obs, due: Instant)
    requires c.Run? && AllStand(db, seen) && PlanRun(p, c, self, start, seen, obs).Commit?
    requires ScheduleR(c.schedule) in db.rows && db.rows[ScheduleR(c.schedule)].Schedule? && db.rows[ScheduleR(c.schedule)].next == due
    requires OccurrenceR(c.schedule, due) in db.rows && db.rows[OccurrenceR(c.schedule, due)].Occurrence?
    requires !db.rows[OccurrenceR(c.schedule, due)].outcome.PENDING?
    ensures var next := PlanRun(p, c, self, start, seen, obs);
            && next.effect.moved.None?
            && (next.reply == RunReply(RunDuplicate) || next.reply == RunReply(RunNotClaimed))
  {
    if ScheduleR(c.schedule) in seen { assert Stands(db, ScheduleR(c.schedule), seen[ScheduleR(c.schedule)]); }
    if OccurrenceR(c.schedule, due) in seen {
      assert Stands(db, OccurrenceR(c.schedule, due), seen[OccurrenceR(c.schedule, due)]);
    }
  }
}
