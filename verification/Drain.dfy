/**
 Ticks of the scheduler and the loop that drains them, with the clock held still.
 */
module Drain {
  import opened Calendar
  import opened Store
  import opened Scripts
  import opened Engine
  import opened Services
  import opened Verdicts
  import opened Promises
  import opened System
  import opened Ranking

  // The counters of a tick: one per outcome, and the schedules claimed.
  datatype TickResult = TickResult(claimed: nat, counts: multiset<RunOutcome>) {
    function Paid(): nat { counts[RunPaid] }

    // The outcomes that move a schedule on.
    function Moved(): nat {
      counts[RunPaid] + counts[RunFailed] + counts[RunSkipped] + counts[RunDuplicate]
    }

    predicate AddsUp() {
      claimed == Moved() + counts[RunDeferred]
    }
  }

  const EMPTY := TickResult(0, multiset{})

  // Schedules are numbered below n.
  ghost predicate SchedulesBelow(db: Db, n: nat) {
    forall i: Id :: ScheduleR(i) in db.rows ==> i < n
  }

  function DueIds(db: Db, now: Instant, n: nat): set<Id> {
    set i | 0 <= i < n && IsDue(Lookup(db, ScheduleR(i)), now)
  }

  function DueCount(db: Db, now: Instant, n: nat): nat {
    |DueIds(db, now, n)|
  }

  // How many occurrences from `next` on are already due.
  function StepsDue(every: Interval, next: Instant, now: Instant): (n: nat)
    ensures n == 0 <==> now < next
    decreases now - next
  {
    if now < next then 0
    else if every == ONCE then 1
    else
      NextRunAdvances(every, next);
      1 + StepsDue(every, NextRun(every, next), now)
  }

  // How many occurrences a schedule has to get through before it is ahead of the clock.
  function Steps(row: Option<Row>, now: Instant): nat {
    if row.Some? && row.value.Schedule? && row.value.phase.ACTIVE? then StepsDue(row.value.every, row.value.next, now) else 0
  }

  // The same, over all schedules numbered below n.
  function Backlog(db: Db, now: Instant, n: nat): nat {
    if n == 0 then 0 else Backlog(db, now, n - 1) + Steps(Lookup(db, ScheduleR(n - 1)), now)
  }

  ghost predicate OtherSchedulesKept(db: Db, db': Db, id: Id) {
    && (forall i: Id :: i != id && ScheduleR(i) in db.rows ==>
          ScheduleR(i) in db'.rows && db'.rows[ScheduleR(i)] == db.rows[ScheduleR(i)])
    && (forall i: Id :: ScheduleR(i) in db'.rows ==> ScheduleR(i) in db.rows)
  }

  function Tally(r: TickResult, outcome: RunOutcome): TickResult {
    if outcome == RunNotClaimed then r else TickResult(r.claimed + 1, r.counts + multiset{outcome})
  }

  // The outcomes that the scheduler's calls answered with, one for each schedule it claimed.
  function Answered(replies: seq<Exchange>): multiset<RunOutcome> {
    if |replies| == 0 then multiset{} else Answered(replies[..|replies| - 1]) + OneAnswer(replies[|replies| - 1])
  }

  function OneAnswer(x: Exchange): multiset<RunOutcome> {
    if x.reply.body.Ran? && x.reply.body.outcome != RunNotClaimed then multiset{x.reply.body.outcome} else multiset{}
  }

  lemma Regrouped<T>(a: multiset<T>, b: multiset<T>, c: multiset<T>)
    ensures a + (b + c) == (a + b) + c
  {
  }

  lemma {:induction false} AnsweredConcat(a: seq<Exchange>, b: seq<Exchange>)
    ensures Answered(a + b) == Answered(a) + Answered(b)
  {
    if |b| == 0 {
      assert a + b == a;
    } else {
      var front, last := b[..|b| - 1], b[|b| - 1];
      AnsweredConcat(a, front);
      assert (a + b)[..|a + b| - 1] == a + front && (a + b)[|a + b| - 1] == last;
      Regrouped(Answered(a), Answered(front), OneAnswer(last));
    }
  }

  // The counters are what was answered since.
  ghost predicate Counted(replies: seq<Exchange>, replies': seq<Exchange>, result: TickResult) {
    replies <= replies' && result.counts == Answered(replies'[|replies|..])
  }

  lemma CountedOneMore(replies: seq<Exchange>, now: seq<Exchange>, x: Exchange, sofar: TickResult, outcome: RunOutcome)
    requires Counted(replies, now, sofar) && x.reply.body == Ran(outcome)
    ensures Counted(replies, now + [x], Tally(sofar, outcome))
  {
    assert (now + [x])[|replies|..] == now[|replies|..] + [x];
    AnsweredConcat(now[|replies|..], [x]);
    assert [x][..0] == [];
  }

  lemma CountedBoth(a: seq<Exchange>, b: seq<Exchange>, c: seq<Exchange>, x: TickResult, y: TickResult)
    requires Counted(a, b, x) && Counted(b, c, y)
    ensures Counted(a, c, Plus(x, y))
  {
    assert c[|a|..] == b[|a|..] + c[|b|..];
    AnsweredConcat(b[|a|..], c[|b|..]);
  }

  // ---------------------------------------------------------------- one run

  lemma AdvancingTakesAStep(row: Row, consume: bool, now: Instant)
    requires row.Schedule? && row.phase.ACTIVE? && row.next <= now
    ensures Steps(Some(Scripts.AdvanceSchedule(row, consume)), now) + 1 <= Steps(Some(row), now)
  {
  }

  lemma Power2Positive(n: nat)
    ensures Power2(n) >= 1
  {
  }

  lemma DeferringEndsDueness(p: Policy, row: Row, attempts: nat, now: Instant)
    requires row.Schedule? && attempts >= 1 && p.retryBase >= 1
    ensures !IsDue(Some(row.(retryAfter := Some(now + p.retryBase * Power2(attempts - 1) * SECOND))), now)
  {
    Power2Positive(attempts - 1);
    assert p.retryBase * Power2(attempts - 1) >= 1;
  }

  // What one run changes, as far as the drain is concerned.
  ghost predicate RunMoved(db: Db, db': Db, id: Id, now: Instant, outcome: RunOutcome) {
    var before, after := Lookup(db, ScheduleR(id)), Lookup(db', ScheduleR(id));
    && OtherSchedulesKept(db, db', id)
    && |db'.log| == |db.log| + (if outcome == RunPaid then 1 else 0)
    && (outcome == RunNotClaimed <==> !IsDue(before, now))
    && (outcome == RunNotClaimed ==> after == before)
    && (outcome == RunDeferred ==> Steps(after, now) == Steps(before, now) && !IsDue(after, now))
    && (outcome != RunNotClaimed && outcome != RunDeferred ==> Steps(after, now) + 1 <= Steps(before, now))
  }

  lemma DeferralMoves(p: Policy, db: Db, c: Command, now: Instant, row: Row, attempts: nat, e: Error, first: nat)
    requires c.Run? && attempts >= 1 && p.retryBase >= 1 && Retryable(e) && attempts < p.maxAttempts
    requires IsDue(Lookup(db, ScheduleR(c.schedule)), now) && row == db.rows[ScheduleR(c.schedule)]
    ensures var v := AfterRefusal(p, c, now, row, attempts, e);
            RunMoved(db, Apply(db, v.effect, first), c.schedule, now, v.reply.body.outcome)
  {
    DeferringEndsDueness(p, row, attempts, now);
  }

  lemma FailureMoves(p: Policy, db: Db, c: Command, now: Instant, row: Row, attempts: nat, e: Error, first: nat)
    requires c.Run? && attempts >= 1 && !(Retryable(e) && attempts < p.maxAttempts)
    requires IsDue(Lookup(db, ScheduleR(c.schedule)), now) && row == db.rows[ScheduleR(c.schedule)]
    ensures var v := AfterRefusal(p, c, now, row, attempts, e);
            RunMoved(db, Apply(db, v.effect, first), c.schedule, now, v.reply.body.outcome)
  {
    AdvancingTakesAStep(row, false, now);
  }

  lemma PaymentMoves(p: Policy, db: Db, c: Command, self: Id, now: Instant, row: Row, attempts: nat, first: nat)
    requires c.Run? && IsDue(Lookup(db, ScheduleR(c.schedule)), now) && row == db.rows[ScheduleR(c.schedule)]
    requires Refusal(p, db, self, now, row).None?
    ensures RunMoved(db, Apply(db, PaidEffect(db, c, self, now, row, attempts), first), c.schedule, now, RunPaid)
  {
    AdvancingTakesAStep(row, true, now);
    PostingApplies(db, ScheduledPayment(self, now, row), first);
  }

  lemma SettledMoves(p: Policy, db: Db, c: Command, self: Id, now: Instant, row: Row, first: nat)
    requires c.Run? && IsDue(Lookup(db, ScheduleR(c.schedule)), now) && row == db.rows[ScheduleR(c.schedule)]
    requires var attempt := Attempt(Lookup(db, OccurrenceR(c.schedule, row.next)));
             attempt.None? || c.clockMs - row.next / 1000 > p.graceMs
    ensures var v := RunVerdict(p, db, c, self, now);
            v.Commit? && v.reply.body.Ran?
            && RunMoved(db, Apply(db, v.effect, first), c.schedule, now, v.reply.body.outcome)
  {
    AdvancingTakesAStep(row, false, now);
  }

  lemma RunMoves(p: Policy, db: Db, c: Command, self: Id, now: Instant, first: nat)
    requires c.Run? && p.retryBase >= 1
    ensures var v := RunVerdict(p, db, c, self, now);
            v.Commit? && v.reply.body.Ran?
            && RunMoved(db, Apply(db, v.effect, first), c.schedule, now, v.reply.body.outcome)
  {
    if IsDue(Lookup(db, ScheduleR(c.schedule)), now) {
      var row := db.rows[ScheduleR(c.schedule)];
      var attempt := Attempt(Lookup(db, OccurrenceR(c.schedule, row.next)));
      if attempt.None? || c.clockMs - row.next / 1000 > p.graceMs {
        SettledMoves(p, db, c, self, now, row, first);
      } else {
        var refusal := Refusal(p, db, self, now, row);
        if refusal.None? {
          PaymentMoves(p, db, c, self, now, row, attempt.value, first);
        } else if Retryable(refusal.value) && attempt.value < p.maxAttempts {
          DeferralMoves(p, db, c, now, row, attempt.value, refusal.value, first);
        } else {
          FailureMoves(p, db, c, now, row, attempt.value, refusal.value, first);
        }
      }
    }
  }

  // A run makes no schedule due that was not.
  lemma RunMakesNothingDue(db: Db, db': Db, id: Id, now: Instant, n: nat, outcome: RunOutcome)
    requires RunMoved(db, db', id, now, outcome)
    ensures DueIds(db', now, n) <= DueIds(db, now, n)
  {
    forall i: Id | i in DueIds(db', now, n) ensures i in DueIds(db, now, n) {
      assert i != id ==> Lookup(db', ScheduleR(i)) == Lookup(db, ScheduleR(i));
    }
  }

  // ---------------------------------------------------------------- schedules that can only be put off

  // Its owner cannot pay for it now, it is not late, and it may still be attempted again.
  predicate OnlyDeferrable(p: Policy, db: Db, now: Instant, clockMs: int, id: Id) {
    var row := ScheduleOf(db, id);
    row.Some? &&
    var attempt := Attempt(Lookup(db, OccurrenceR(id, row.value.next)));
    var refusal := Refusal(p, db, 0, now, row.value);
    && attempt.Some? && attempt.value < p.maxAttempts
    && clockMs - row.value.next / 1000 <= p.graceMs
    && refusal.Some? && Retryable(refusal.value)
  }

  ghost predicate AllDeferrable(p: Policy, db: Db, now: Instant, clockMs: int, n: nat) {
    forall i :: i in DueIds(db, now, n) ==> OnlyDeferrable(p, db, now, clockMs, i)
  }

  lemma RefusalIsEverybodys(p: Policy, db: Db, self: Id, now: Instant, row: Row)
    requires row.Schedule?
    ensures Refusal(p, db, self, now, row) == Refusal(p, db, 0, now, row)
  {
  }

  lemma DeferralChangesNoMoney(p: Policy, c: Command, now: Instant, row: Row, attempts: nat, e: Error, db: Db, first: nat)
    requires c.Run? && row.Schedule? && attempts >= 1
    ensures SameMoney(db, Apply(db, AfterRefusal(p, c, now, row, attempts, e).effect, first))
  {
  }

  lemma SameMoneySameRefusal(p: Policy, db: Db, db': Db, now: Instant, row: Row)
    requires row.Schedule? && SameMoney(db, db')
    ensures Refusal(p, db', 0, now, row) == Refusal(p, db, 0, now, row)
  {
    forall t ensures TransferR(t) in db.rows <==> TransferR(t) in db'.rows {
      assert Lookup(db', TransferR(t)) == Lookup(db, TransferR(t));
    }
    forall t | TransferR(t) in db.rows ensures db'.rows[TransferR(t)] == db.rows[TransferR(t)] {
      assert Lookup(db', TransferR(t)) == Lookup(db, TransferR(t));
    }
    SameOutbound(db.rows, db'.rows, db.log, row.from, now as int - DAY);
    assert Lookup(db', AccountR(row.from)) == Lookup(db, AccountR(row.from));
    assert Lookup(db', AccountR(row.to)) == Lookup(db, AccountR(row.to));
  }

  // Everything about the schedules other than `id` is as it was.
  ghost predicate OnlyTouched(db: Db, db': Db, id: Id) {
    && SameMoney(db, db')
    && (forall i: Id :: i != id ==> Lookup(db', ScheduleR(i)) == Lookup(db, ScheduleR(i)))
    && (forall i: Id, due :: i != id ==> Lookup(db', OccurrenceR(i, due)) == Lookup(db, OccurrenceR(i, due)))
  }

  lemma OthersStayDeferrable(p: Policy, db: Db, db': Db, now: Instant, clockMs: int, n: nat, id: Id)
    requires OnlyTouched(db, db', id) && !IsDue(Lookup(db', ScheduleR(id)), now)
    requires AllDeferrable(p, db, now, clockMs, n)
    ensures AllDeferrable(p, db', now, clockMs, n)
  {
    forall i | i in DueIds(db', now, n) ensures OnlyDeferrable(p, db', now, clockMs, i) {
      assert Lookup(db', ScheduleR(i)) == Lookup(db, ScheduleR(i)) && i in DueIds(db, now, n);
      var row := ScheduleOf(db, i).value;
      assert Lookup(db', OccurrenceR(i, row.next)) == Lookup(db, OccurrenceR(i, row.next));
      SameMoneySameRefusal(p, db, db', now, row);
    }
  }

  lemma DeferrableIsDeferred(p: Policy, db: Db, c: Command, self: Id, now: Instant, first: nat)
    requires c.Run? && p.retryBase >= 1
    requires IsDue(Lookup(db, ScheduleR(c.schedule)), now) && OnlyDeferrable(p, db, now, c.clockMs, c.schedule)
    ensures var v := RunVerdict(p, db, c, self, now);
            v.Commit? && v.reply == RunReply(RunDeferred)
            && OnlyTouched(db, Apply(db, v.effect, first), c.schedule)
            && !IsDue(Lookup(Apply(db, v.effect, first), ScheduleR(c.schedule)), now)
  {
    var row := db.rows[ScheduleR(c.schedule)];
    RefusalIsEverybodys(p, db, self, now, row);
    var attempts := Attempt(Lookup(db, OccurrenceR(c.schedule, row.next))).value;
    DeferralChangesNoMoney(p, c, now, row, attempts, Refusal(p, db, 0, now, row).value, db, first);
    DeferringEndsDueness(p, row, attempts, now);
  }

  // One run among schedules that can only be put off puts its own off.
  lemma PutsOff(p: Policy, db: Db, c: Command, self: Id, now: Instant, n: nat, first: nat)
    requires c.Run? && p.retryBase >= 1 && c.schedule in DueIds(db, now, n) && AllDeferrable(p, db, now, c.clockMs, n)
    ensures var v := RunVerdict(p, db, c, self, now);
            v.Commit? && v.reply == RunReply(RunDeferred) && AllDeferrable(p, Apply(db, v.effect, first), now, c.clockMs, n)
  {
    DeferrableIsDeferred(p, db, c, self, now, first);
    OthersStayDeferrable(p, db, Apply(db, RunVerdict(p, db, c, self, now).effect, first), now, c.clockMs, n, c.schedule);
  }

  // ---------------------------------------------------------------- the backlog

  lemma {:induction false} BacklogMoves(db: Db, db': Db, now: Instant, n: nat, id: Id)
    requires OtherSchedulesKept(db, db', id)
    ensures Backlog(db', now, n) - Backlog(db, now, n)
            == if id < n then Steps(Lookup(db', ScheduleR(id)), now) - Steps(Lookup(db, ScheduleR(id)), now) else 0
  {
    if n > 0 {
      BacklogMoves(db, db', now, n - 1, id);
      if n - 1 != id {
        assert Lookup(db', ScheduleR(n - 1)) == Lookup(db, ScheduleR(n - 1));
      }
    }
  }

  // ---------------------------------------------------------------- ticks

  function DueAt(db: Db, id: Id): Instant {
    var row := ScheduleOf(db, id);
    if row.Some? then row.value.next else 0
  }

  // Distinct, and longest overdue first.
  predicate LongestOverdueFirst(db: Db, ids: seq<Id>) {
    Ranked(i => DueAt(db, i), ids)
  }

  // The first `limit` due schedules, longest overdue first; ties come in any order.
  method FindDueScheduleIds(db: Db, now: Instant, limit: nat, n: nat) returns (ids: seq<Id>)
    ensures FirstOf(i => DueAt(db, i), ids, DueIds(db, now, n), limit)
  {
    ids := TakeEarliest(i => DueAt(db, i), DueIds(db, now, n), limit);
  }

  // Where a tick stands after running the schedules `done`.
  ghost predicate Ticked(before: Db, db: Db, now: Instant, n: nat, done: seq<Id>, result: TickResult) {
    && result.AddsUp() && result.claimed == |done|
    && |db.log| == |before.log| + result.Paid()
    && SchedulesBelow(db, n) && DueIds(db, now, n) <= DueIds(before, now, n)
    && Backlog(db, now, n) + result.Moved() <= Backlog(before, now, n)
    && (forall i: Id :: i !in done ==> Lookup(db, ScheduleR(i)) == Lookup(before, ScheduleR(i)))
    && (result.Moved() == 0 ==> forall i :: i in done ==> !IsDue(Lookup(db, ScheduleR(i)), now))
  }

  lemma TickStarts(db: Db, now: Instant, n: nat)
    requires SchedulesBelow(db, n)
    ensures Ticked(db, db, now, n, [], EMPTY)
  {
  }

  // Only the schedule that was run is different.
  lemma OthersAreKept(db: Db, db': Db, now: Instant, id: Id, n: nat, outcome: RunOutcome)
    requires RunMoved(db, db', id, now, outcome) && SchedulesBelow(db, n)
    ensures forall i: Id :: i != id ==> Lookup(db', ScheduleR(i)) == Lookup(db, ScheduleR(i))
    ensures SchedulesBelow(db', n)
  {
  }

  lemma TickedOn(before: Db, db: Db, db': Db, now: Instant, n: nat, ids: seq<Id>, k: nat, result: TickResult,
                 outcome: RunOutcome)
    requires k < |ids| && LongestOverdueFirst(before, ids) && Batch(ids) <= DueIds(before, now, n)
    requires Ticked(before, db, now, n, ids[..k], result) && RunMoved(db, db', ids[k], now, outcome)
    ensures Ticked(before, db', now, n, ids[..k + 1], Tally(result, outcome))
  {
    var id := ids[k];
    assert id in Batch(ids) && id !in ids[..k];
    assert ids[..k + 1] == ids[..k] + [id];
    assert Lookup(db, ScheduleR(id)) == Lookup(before, ScheduleR(id));
    BacklogMoves(db, db', now, n, id);
    RunMakesNothingDue(db, db', id, now, n, outcome);
    OthersAreKept(db, db', now, id, n, outcome);
  }

  lemma UnproductiveTick(before: Db, db: Db, now: Instant, n: nat, ids: seq<Id>, result: TickResult)
    requires Ticked(before, db, now, n, ids, result) && result.Moved() == 0
    requires LongestOverdueFirst(before, ids) && Batch(ids) <= DueIds(before, now, n)
    ensures |DueIds(db, now, n)| == |DueIds(before, now, n)| - |ids|
  {
    DistinctBatch(ids);
    forall i: Id ensures i in DueIds(db, now, n) <==> i in DueIds(before, now, n) - Batch(ids) {
      assert i in DueIds(db, now, n) <==> IsDue(Lookup(db, ScheduleR(i)), now);
      assert i in DueIds(before, now, n) <==> IsDue(Lookup(before, ScheduleR(i)), now);
    }
    assert DueIds(db, now, n) == DueIds(before, now, n) - Batch(ids);
  }

  lemma TickEnds(before: Db, db: Db, now: Instant, n: nat, ids: seq<Id>, result: TickResult)
    requires Ticked(before, db, now, n, ids, result)
    requires LongestOverdueFirst(before, ids) && Batch(ids) <= DueIds(before, now, n)
    ensures result.AddsUp() && result.claimed == |ids| && |db.log| == |before.log| + result.Paid()
    ensures Backlog(db, now, n) + result.Moved() <= Backlog(before, now, n)
    ensures SchedulesBelow(db, n) && DueCount(db, now, n) <= DueCount(before, now, n)
    ensures result.Moved() == 0 ==> DueCount(db, now, n) == DueCount(before, now, n) - result.claimed
  {
    NoMore(DueIds(db, now, n), DueIds(before, now, n));
    if result.Moved() == 0 {
      UnproductiveTick(before, db, now, n, ids, result);
    }
  }

  // The tables between two transactions, with every invariant of the system, and what a drain needs of
  // the configuration.
  ghost predicate Ready(s: Session)
    reads s
  {
    ValidPolicy(s.p) && s.p.retryBase >= 1 && s.Valid() && GoodDb(s.p, s.db, s.replies)
  }

  // One transaction of the scheduler keeps every invariant.
  method RunOne(s: Session, id: Id, now: Instant, clockMs: int) returns (outcome: RunOutcome)
    requires Ready(s)
    modifies s
    ensures Ready(s)
    ensures Ends(RunVerdict(s.p, old(s.db), Run(id, clockMs), old(s.nextTx), now), old(s.db), old(s.nextEntry), s.db,
                 Ok(RunReply(outcome)))
    ensures s.replies == old(s.replies) + [Exchange(Run(id, clockMs), RunReply(outcome))]
  {
    GoodIsUnpaid(s.p, s.db);
    outcome := s.RunSchedule(id, now, clockMs);
    RunEnds(s.p, old(s.db), Run(id, clockMs), old(s.nextTx), now);
    CallKeepsGood(s.p, old(s.db), old(s.replies), Run(id, clockMs), old(s.nextTx), now, old(s.nextEntry), s.db,
                  Ok(RunReply(outcome)));
  }

  // The k-th schedule of the list, in a transaction of its own.
  method RunNext(s: Session, dueIds: seq<Id>, k: nat, sofar: TickResult, now: Instant, clockMs: int, ghost before: Db,
                 ghost n: nat)
    returns (result: TickResult)
    requires Ready(s)
    requires k < |dueIds| && LongestOverdueFirst(before, dueIds) && Batch(dueIds) <= DueIds(before, now, n)
    requires Ticked(before, s.db, now, n, dueIds[..k], sofar)
    modifies s
    ensures Ready(s) && Ticked(before, s.db, now, n, dueIds[..k + 1], result)
    ensures old(AllDeferrable(s.p, s.db, now, clockMs, n)) ==>
              AllDeferrable(s.p, s.db, now, clockMs, n) && result.Moved() == sofar.Moved()
    ensures forall replies :: Counted(replies, old(s.replies), sofar) ==> Counted(replies, s.replies, result)
  {
    ghost var c := Run(dueIds[k], clockMs);
    assert dueIds[k] in Batch(dueIds) && dueIds[k] !in dueIds[..k];
    assert Lookup(s.db, ScheduleR(dueIds[k])) == Lookup(before, ScheduleR(dueIds[k]));
    var outcome := RunOne(s, dueIds[k], now, clockMs);
    RunMoves(s.p, old(s.db), c, old(s.nextTx), now, old(s.nextEntry));
    TickedOn(before, old(s.db), s.db, now, n, dueIds, k, sofar, outcome);
    if old(AllDeferrable(s.p, s.db, now, clockMs, n)) {
      PutsOff(s.p, old(s.db), c, old(s.nextTx), now, n, old(s.nextEntry));
    }
    result := Tally(sofar, outcome);
    forall replies | Counted(replies, old(s.replies), sofar) ensures Counted(replies, s.replies, result) {
      CountedOneMore(replies, old(s.replies), Exchange(c, RunReply(outcome)), sofar, outcome);
    }
  }

  // Sequentially, one transaction each.
  method RunEach(s: Session, dueIds: seq<Id>, now: Instant, clockMs: int, ghost n: nat) returns (result: TickResult)
    requires Ready(s) && SchedulesBelow(s.db, n)
    requires LongestOverdueFirst(s.db, dueIds) && Batch(dueIds) <= DueIds(s.db, now, n)
    modifies s
    ensures Ready(s) && Ticked(old(s.db), s.db, now, n, dueIds, result)
    ensures old(AllDeferrable(s.p, s.db, now, clockMs, n)) ==>
              AllDeferrable(s.p, s.db, now, clockMs, n) && result.Moved() == 0
    ensures Counted(old(s.replies), s.replies, result)
  {
    result := EMPTY;
    TickStarts(s.db, now, n);
    var k := 0;
    assert dueIds[..0] == [];
    while k < |dueIds|
      invariant k <= |dueIds| && Ready(s)
      invariant Ticked(old(s.db), s.db, now, n, dueIds[..k], result)
      invariant old(AllDeferrable(s.p, s.db, now, clockMs, n)) ==>
                  AllDeferrable(s.p, s.db, now, clockMs, n) && result.Moved() == 0
      invariant Counted(old(s.replies), s.replies, result)
    {
      result := RunNext(s, dueIds, k, result, now, clockMs, old(s.db), n);
      k := k + 1;
    }
    assert dueIds[..k] == dueIds;
  }

  // Run every schedule that is due, up to `limit` of them.
  method RunDueSchedules(s: Session, now: Instant, clockMs: int, limit: nat, n: nat) returns (result: TickResult)
    requires Ready(s) && SchedulesBelow(s.db, n)
    modifies s
    ensures Ready(s) && SchedulesBelow(s.db, n)
    ensures result.AddsUp() && |s.db.log| == old(|s.db.log|) + result.Paid()
    ensures result.claimed == Smaller(old(DueCount(s.db, now, n)), limit)
    ensures Backlog(s.db, now, n) + result.Moved() <= old(Backlog(s.db, now, n))
    ensures DueCount(s.db, now, n) <= old(DueCount(s.db, now, n))
    ensures result.Moved() == 0 ==> DueCount(s.db, now, n) == old(DueCount(s.db, now, n)) - result.claimed
    ensures old(AllDeferrable(s.p, s.db, now, clockMs, n)) ==> result.Moved() == 0
    ensures Counted(old(s.replies), s.replies, result)
  {
    var dueIds := FindDueScheduleIds(s.db, now, limit, n);
    result := RunEach(s, dueIds, now, clockMs, n);
    TickEnds(old(s.db), s.db, now, n, dueIds, result);
  }

  function Smaller(a: nat, b: nat): nat {
    if a < b then a else b
  }

  function Plus(a: TickResult, b: TickResult): TickResult {
    TickResult(a.claimed + b.claimed, a.counts + b.counts)
  }

  // Tick until a tick moves nothing on.  The loop never needs `maxTicks`: every other tick takes at
  // least one of the steps that were due at the start.  When it stops by itself, what is left due is
  // what the last batch had no room for: nothing, if everything due at the start fits one batch.  A
  // database in which every due schedule can only be put off keeps all but one batch of them due.
  method DrainSchedules(s: Session, now: Instant, clockMs: int, maxTicks: nat, limit: nat, n: nat)
    returns (total: TickResult, ticks: nat, ghost last: nat)
    requires Ready(s) && SchedulesBelow(s.db, n)
    modifies s
    ensures Ready(s) && SchedulesBelow(s.db, n)
    ensures total.AddsUp() && |s.db.log| == old(|s.db.log|) + total.Paid()
    ensures Backlog(s.db, now, n) + total.Moved() <= old(Backlog(s.db, now, n))
    ensures ticks <= maxTicks && ticks <= total.Moved() + 1 <= old(Backlog(s.db, now, n)) + 1
    ensures maxTicks > old(Backlog(s.db, now, n)) ==> ticks >= 1 && DueCount(s.db, now, n) == last - Smaller(last, limit)
    ensures maxTicks > old(Backlog(s.db, now, n)) && old(DueCount(s.db, now, n)) <= limit ==> DueCount(s.db, now, n) == 0
    ensures maxTicks >= 1 && old(AllDeferrable(s.p, s.db, now, clockMs, n)) ==>
              total.Moved() == 0
              && DueCount(s.db, now, n) == old(DueCount(s.db, now, n)) - Smaller(old(DueCount(s.db, now, n)), limit)
    ensures Counted(old(s.replies), s.replies, total)
  {
    total, ticks, last := EMPTY, 0, 0;
    var stuck := false;
    while ticks < maxTicks && !stuck
      invariant Ready(s) && SchedulesBelow(s.db, n)
      invariant ticks <= maxTicks && ticks <= total.Moved() + (if stuck then 1 else 0)
      invariant total.AddsUp() && |s.db.log| == old(|s.db.log|) + total.Paid()
      invariant Backlog(s.db, now, n) + total.Moved() <= old(Backlog(s.db, now, n))
      invariant last <= old(DueCount(s.db, now, n)) && DueCount(s.db, now, n) <= old(DueCount(s.db, now, n))
      invariant stuck ==> ticks >= 1 && DueCount(s.db, now, n) == last - Smaller(last, limit)
      invariant ticks == 0 ==> s.db == old(s.db) && total.Moved() == 0
      invariant ticks > 0 && old(AllDeferrable(s.p, s.db, now, clockMs, n)) ==>
                  stuck && total.Moved() == 0 && last == old(DueCount(s.db, now, n))
      invariant Counted(old(s.replies), s.replies, total)
      decreases maxTicks - ticks
    {
      last := DueCount(s.db, now, n);
      ghost var replies := s.replies;
      var result := RunDueSchedules(s, now, clockMs, limit, n);
      CountedBoth(old(s.replies), replies, s.replies, total, result);
      total, ticks := Plus(total, result), ticks + 1;
      stuck := result.Moved() == 0;
    }
  }
}
