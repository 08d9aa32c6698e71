/**
 What every run owes to the commands it was given: reversals asked for by the sender in time, schedules
 with the runs that were ordered, and no payment out of a frozen account or for a schedule that has ended.
 */
module Audit {
  import opened Calendar
  import opened Store
  import opened Scripts
  import opened Engine
  import opened Serializability
  import opened Ledger
  import opened ExactlyOnce
  import opened Reversals
  import opened Schedules
  import opened System
  import opened Promises
  import opened Agreement
  import opened Payments
  import opened Kept

  lemma NextIsReachable(p: Policy, s: State, e: Event)
    requires Reachable(p, s) && CanFire(p, s, e)
    ensures Reachable(p, Fire(p, s, e))
  {
    PlayMore(p, s, e, []);
    ReachableOn(p, s, [e] + []);
  }

  // A keyed commit that is no replay claimed its key, which nobody has committed.
  lemma NoReplayIsNew(p: Policy, s: State, t: Id)
    requires ValidPolicy(p) && Reachable(p, s) && Commits(p, s, Step(t)) && KeyOf(s.active[t].command).Some?
    requires !Replays(s.active[t].command, s.active[t].seen)
    ensures RowOf(KeyOf(s.active[t].command).value) !in s.db.rows
  {
    ReachableCommit(p, s, t);
    ClaimedKeyIsSeen(p, s.active[t].command, t, s.active[t].start, s.active[t].seen, s.active[t].obs);
    CurrentRowsAreSure(s.db, s.active[t]);
  }

  lemma ClaimedKeyIsSeen(p: Policy, c: Command, self: Id, start: Instant, seen: Seen, obs: Obs)
    requires KeyOf(c).Some? && Plan(p, c, self, start, seen, obs).Commit?
    ensures RowOf(KeyOf(c).value) in seen
  {
  }

  // ---------------------------------------------------------------- payments

  // Whatever raced it, a settlement commits only for the payer the request names, while it is pending and
  // before it expires, and only when the account can pay.
  lemma SettlementsAreInTime(p: Policy, s: State, t: Id)
    requires ValidPolicy(p) && Reachable(p, s) && Commits(p, s, Step(t))
    requires s.active[t].command.Accept? && !Replays(s.active[t].command, s.active[t].seen)
    ensures var tx := s.active[t];
            SettlementAllowed(RaisedFor(p, s.db, tx.command, tx.start), s.db, tx.command, tx.start)
  {
    var tx := s.active[t];
    NoReplayIsNew(p, s, t);
    PaymentIsPromised(p, s, t);
    AcceptRefusalIff(RaisedFor(p, s.db, tx.command, tx.start), s.db, tx.command, t, tx.start);
  }

  // A send commits only with everything but its counts as it must be.
  lemma SendsAreAllowed(p: Policy, s: State, t: Id)
    requires ValidPolicy(p) && Reachable(p, s) && Commits(p, s, Step(t))
    requires s.active[t].command.Send? && !Replays(s.active[t].command, s.active[t].seen)
    ensures var tx := s.active[t];
            SendAllowed(RaisedFor(p, s.db, tx.command, tx.start), s.db, tx.command, tx.start)
  {
    var tx := s.active[t];
    NoReplayIsNew(p, s, t);
    PaymentIsPromised(p, s, t);
    if p.minTransfer <= tx.command.amount <= p.maxTransfer {
      SendRefusalIff(RaisedFor(p, s.db, tx.command, tx.start), s.db, tx.command, t, tx.start);
    }
  }

  // ---------------------------------------------------------------- reversals

  // The exchange that undid `o` with `u`: the sender of `o` asked, within the window.
  predicate AsksToUndo(p: Policy, x: Exchange, o: Transfer, u: Transfer) {
    && x.command.Reverse? && x.command.original == o.id && x.command.user == o.from
    && x.command.clockMs - o.createdAt / 1000 <= p.reversalWindow * 1000
    && x.reply.body.Undone? && x.reply.body.reversal == u.id && x.reply.body.original == o.id
    && u.reversalOf == Some(o.id) && u.key == Some(KeyId(x.command.user, x.command.key))
  }

  ghost predicate WasAskedFor(p: Policy, s: State, u: Transfer) {
    exists i, o :: 0 <= i < |s.replies| && o in s.db.log && AsksToUndo(p, s.replies[i], o, u)
  }

  ghost predicate ReversalsAsked(p: Policy, s: State) {
    forall u :: u in s.db.log && u.kind == REVERSAL ==> WasAskedFor(p, s, u)
  }

  lemma AskedForStays(p: Policy, s: State, s': State, u: Transfer)
    requires WasAskedFor(p, s, u) && s.db.log <= s'.db.log && s.replies <= s'.replies
    ensures WasAskedFor(p, s', u)
  {
    var i, o :| 0 <= i < |s.replies| && o in s.db.log && AsksToUndo(p, s.replies[i], o, u);
    assert o in s'.db.log && s'.replies[i] == s.replies[i];
  }

  // Only a reversal makes a REVERSAL.
  lemma OnlyReversalsReverse(p: Policy, c: Command, self: Id, start: Instant, seen: Seen, obs: Obs)
    requires Plan(p, c, self, start, seen, obs).Commit?
    requires Plan(p, c, self, start, seen, obs).effect.moved.Some?
    requires Plan(p, c, self, start, seen, obs).effect.moved.value.kind == REVERSAL
    ensures c.Reverse? && !Replays(c, seen)
  {
    if c.ExpireDue? {
      ExpireCommits(c, c.requests, start, seen, obs);
    }
  }

  lemma NewReversalIsAskedFor(p: Policy, s: State, t: Id)
    requires ValidPolicy(p) && Reachable(p, s) && Commits(p, s, Step(t))
    requires PlanOf(p, s, t).effect.moved.Some? && PlanOf(p, s, t).effect.moved.value.kind == REVERSAL
    ensures CanFire(p, s, Step(t)) && WasAskedFor(p, Fire(p, s, Step(t)), PlanOf(p, s, t).effect.moved.value)
  {
    var tx, plan := s.active[t], PlanOf(p, s, t);
    CommitLeaves(p, s, t);
    OnlyReversalsReverse(p, tx.command, t, tx.start, tx.seen, tx.obs);
    NoReplayIsNew(p, s, t);
    UncountedCommitIsPromised(p, s, t);
    var s' := Fire(p, s, Step(t));
    FindTransferFinds(s.db.log, tx.command.original);
    var o := FindTransfer(s.db.log, tx.command.original).value;
    var u := plan.effect.moved.value;
    assert s'.db.log == s.db.log + [u];
    assert u == ReversalTransfer(tx.command, t, tx.start, o) by {
      assert s'.db.log[|s.db.log|] == u;
    }
    var n := |s.replies|;
    assert s'.replies[n] == Exchange(tx.command, plan.reply);
    assert AsksToUndo(p, s'.replies[n], o, u) && o in s'.db.log;
  }

  lemma FireKeepsAsked(p: Policy, s: State, e: Event)
    requires ValidPolicy(p) && Reachable(p, s) && CanFire(p, s, e) && ReversalsAsked(p, s)
    ensures ReversalsAsked(p, Fire(p, s, e))
  {
    var s' := Fire(p, s, e);
    LogGrows(p, s, e);
    forall u | u in s'.db.log && u.kind == REVERSAL ensures WasAskedFor(p, s', u) {
      if u in s.db.log {
        AskedForStays(p, s, s', u);
      } else {
        NewReversalIsAskedFor(p, s, e.tx);
      }
    }
  }

  lemma LogGrows(p: Policy, s: State, e: Event)
    requires ValidPolicy(p) && Reachable(p, s) && CanFire(p, s, e)
    ensures s.db.log <= Fire(p, s, e).db.log && s.replies <= Fire(p, s, e).replies
    ensures forall u :: u in Fire(p, s, e).db.log && u !in s.db.log ==>
              Commits(p, s, e) && PlanOf(p, s, e.tx).effect.moved == Some(u)
    ensures !Commits(p, s, e) ==> Fire(p, s, e).db == s.db
  {
    ReachableIsGood(p, s);
    FireExtends(p, s, e);
    StepRefines(p, s, e);
  }

  lemma {:induction false} RunKeepsAsked(p: Policy, s: State, run: seq<Event>)
    requires ValidPolicy(p) && Reachable(p, s) && Legal(p, s, run) && ReversalsAsked(p, s)
    ensures ReversalsAsked(p, Play(p, s, run))
    decreases |run|
  {
    if |run| > 0 {
      FireKeepsAsked(p, s, run[0]);
      NextIsReachable(p, s, run[0]);
      RunKeepsAsked(p, Fire(p, s, run[0]), run[1..]);
    }
  }

  // Every reversal there is was asked for by the sender of the payment it undoes, within the window.
  lemma ReversalsAreAskedFor(p: Policy, s: State, u: Transfer)
    requires ValidPolicy(p) && Reachable(p, s) && u in s.db.log && u.kind == REVERSAL
    ensures WasAskedFor(p, s, u)
  {
    var now, run :| Legal(p, Start(now), run) && s == Play(p, Start(now), run);
    assert Reachable(p, Start(now)) by { assert Legal(p, Start(now), []) && Start(now) == Play(p, Start(now), []); }
    RunKeepsAsked(p, Start(now), run);
  }

  // ---------------------------------------------------------------- schedules as they were ordered

  // The exchange that created the schedule, and what it asked for.
  predicate OrderedBy(x: Exchange, id: Id, row: Row) {
    && x.command.CreateSchedule? && x.command.payee.Some? && row.Schedule? && x.reply == Reply(201, Created(id))
    && row.from == x.command.user && row.to == x.command.payee.value && row.pays == x.command.amount
    && row.every == x.command.every && row.ordered == RunsOrdered(x.command)
  }

  ghost predicate WasOrdered(s: State, id: Id)
    requires ScheduleR(id) in s.db.rows
  {
    exists i :: 0 <= i < |s.replies| && OrderedBy(s.replies[i], id, s.db.rows[ScheduleR(id)])
  }

  ghost predicate SchedulesOrdered(s: State) {
    forall id :: ScheduleR(id) in s.db.rows ==> WasOrdered(s, id)
  }

  // Only the creation of a schedule adds one.
  lemma RunsAddNone(p: Policy, db: Db, c: Command, self: Id, start: Instant, seen: Seen, obs: Obs, id: Id)
    requires c.Run? && AllStand(db, seen) && PlanRun(p, c, self, start, seen, obs).Commit?
    requires ScheduleR(id) in PlanRun(p, c, self, start, seen, obs).effect.writes
    ensures ScheduleR(id) in db.rows
  {
    assert ScheduleR(c.schedule) in seen ==> Stands(db, ScheduleR(c.schedule), seen[ScheduleR(c.schedule)]);
  }

  lemma OnlyOrdersAdd(p: Policy, db: Db, c: Command, self: Id, start: Instant, seen: Seen, obs: Obs, id: Id)
    requires AllStand(db, seen) && Plan(p, c, self, start, seen, obs).Commit?
    requires ScheduleR(id) in Plan(p, c, self, start, seen, obs).effect.writes && ScheduleR(id) !in db.rows
    ensures c.CreateSchedule? && !Replays(c, seen) && id == self
  {
    assert ScheduleR(id) in seen ==> Stands(db, ScheduleR(id), seen[ScheduleR(id)]);
    if c.ExpireDue? {
      ExpireCommits(c, c.requests, start, seen, obs);
    } else if c.Run? {
      RunsAddNone(p, db, c, self, start, seen, obs, id);
    }
  }

  lemma CommitStands(p: Policy, s: State, t: Id)
    requires ValidPolicy(p) && Reachable(p, s) && Commits(p, s, Step(t))
    ensures AllStand(s.db, s.active[t].seen) && LoadedStand(s.db, s.active[t].obs) && Fresh(s.db, t)
  {
    ReachableIsGood(p, s);
    StepRefines(p, s, Step(t));
  }

  lemma NewScheduleIsOrdered(p: Policy, s: State, t: Id, id: Id)
    requires ValidPolicy(p) && Reachable(p, s) && Commits(p, s, Step(t))
    requires CanFire(p, s, Step(t)) && ScheduleR(id) in Fire(p, s, Step(t)).db.rows && ScheduleR(id) !in s.db.rows
    ensures WasOrdered(Fire(p, s, Step(t)), id)
  {
    var tx, plan := s.active[t], PlanOf(p, s, t);
    CommitLeaves(p, s, t);
    CommitStands(p, s, t);
    OnlyOrdersAdd(p, s.db, tx.command, t, tx.start, tx.seen, tx.obs, id);
    NoReplayIsNew(p, s, t);
    UncountedCommitIsPromised(p, s, t);
    var s' := Fire(p, s, Step(t));
    var n := |s.replies|;
    assert s'.replies[n] == Exchange(tx.command, plan.reply);
    assert OrderedBy(s'.replies[n], id, s'.db.rows[ScheduleR(id)]);
  }

  lemma OldScheduleStaysOrdered(p: Policy, s: State, e: Event, id: Id)
    requires ValidPolicy(p) && Reachable(p, s) && CanFire(p, s, e)
    requires ScheduleR(id) in s.db.rows && WasOrdered(s, id)
    ensures ScheduleR(id) in Fire(p, s, e).db.rows && WasOrdered(Fire(p, s, e), id)
  {
    var s' := Fire(p, s, e);
    LogGrows(p, s, e);
    SchedulesKeepTerms(p, s, e);
    var i :| 0 <= i < |s.replies| && OrderedBy(s.replies[i], id, s.db.rows[ScheduleR(id)]);
    assert s'.replies[i] == s.replies[i];
  }

  lemma SchedulesKeepTerms(p: Policy, s: State, e: Event)
    requires ValidPolicy(p) && Reachable(p, s) && CanFire(p, s, e)
    ensures SchedulesProgress(s.db, Fire(p, s, e).db)
  {
    ReachableIsGood(p, s);
    StepRefines(p, s, e);
    if Commits(p, s, e) {
      var tx, plan := s.active[e.tx], PlanOf(p, s, e.tx);
      AtomicProgressesSchedules(p, s.db, tx.command, e.tx, tx.start, tx.seen, tx.obs, plan.effect, tx.first.value,
                                plan.reply, Fire(p, s, e).db);
    }
  }

  lemma FireKeepsOrdered(p: Policy, s: State, e: Event)
    requires ValidPolicy(p) && Reachable(p, s) && CanFire(p, s, e) && SchedulesOrdered(s)
    ensures SchedulesOrdered(Fire(p, s, e))
  {
    var s' := Fire(p, s, e);
    LogGrows(p, s, e);
    forall id | ScheduleR(id) in s'.db.rows ensures WasOrdered(s', id) {
      if ScheduleR(id) in s.db.rows {
        OldScheduleStaysOrdered(p, s, e, id);
      } else {
        NewScheduleIsOrdered(p, s, e.tx, id);
      }
    }
  }

  lemma {:induction false} RunKeepsOrdered(p: Policy, s: State, run: seq<Event>)
    requires ValidPolicy(p) && Reachable(p, s) && Legal(p, s, run) && SchedulesOrdered(s)
    ensures SchedulesOrdered(Play(p, s, run))
    decreases |run|
  {
    if |run| > 0 {
      FireKeepsOrdered(p, s, run[0]);
      NextIsReachable(p, s, run[0]);
      RunKeepsOrdered(p, Fire(p, s, run[0]), run[1..]);
    }
  }

  lemma ReachableIsOrdered(p: Policy, s: State)
    requires ValidPolicy(p) && Reachable(p, s)
    ensures SchedulesOrdered(s)
  {
    var now, run :| Legal(p, Start(now), run) && s == Play(p, Start(now), run);
    assert Reachable(p, Start(now)) by { assert Legal(p, Start(now), []) && Start(now) == Play(p, Start(now), []); }
    RunKeepsOrdered(p, Start(now), run);
  }

  lemma ReachableIsAccounted(p: Policy, s: State, id: Id)
    requires ValidPolicy(p) && Reachable(p, s) && ScheduleR(id) in s.db.rows
    ensures Accounted(s.db.rows, id)
  {
    ReachableIsGood(p, s);
  }

  // In every reachable state each schedule is the one that somebody ordered: it pays from them, to their
  // payee, the amount they said; of `n` runs ordered for a repeating schedule, those not paid remain, and
  // without a number there is no end.
  lemma SchedulesRunAsOrdered(p: Policy, s: State, id: Id) returns (x: Exchange)
    requires ValidPolicy(p) && Reachable(p, s) && ScheduleR(id) in s.db.rows
    ensures x in s.replies && OrderedBy(x, id, s.db.rows[ScheduleR(id)])
    ensures var row, paid := s.db.rows[ScheduleR(id)], |PaidOccurrences(s.db.rows, id)|;
            if x.command.every == ONCE then paid <= 1
            else if x.command.runs.Some? then
              paid <= x.command.runs.value && row.remaining == Some(x.command.runs.value - paid)
            else row.remaining.None?
  {
    ReachableIsOrdered(p, s);
    ReachableIsAccounted(p, s, id);
    var i :| 0 <= i < |s.replies| && OrderedBy(s.replies[i], id, s.db.rows[ScheduleR(id)]);
    x := s.replies[i];
  }

  // ---------------------------------------------------------------- schedules that have ended

  predicate Ended(row: Row) {
    row.Schedule? && (row.phase == ScheduleStatus.CANCELLED || row.phase == ScheduleStatus.COMPLETED)
  }

  lemma EndedStays(p: Policy, db: Db, e: Effect, self: Id, id: Id)
    requires SchedulerWrites(p, db, e, self) && Fresh(db, self)
    requires ScheduleR(id) in db.rows && Ended(db.rows[ScheduleR(id)])
    ensures (db.rows + e.writes)[ScheduleR(id)] == db.rows[ScheduleR(id)]
    ensures PaidOccurrences(db.rows + e.writes, id) == PaidOccurrences(db.rows, id)
  {
    assert Creator(ScheduleR(id)) != Some(self);
    if x, turn :| TakesTurn(p, db, x, e, self, turn) {
      PaidOccurrencesAfter(p, db, id, x, e, self, turn);
    }
  }

  lemma FireKeepsEnded(p: Policy, s: State, e: Event, id: Id)
    requires ValidPolicy(p) && Reachable(p, s) && CanFire(p, s, e)
    requires ScheduleR(id) in s.db.rows && Ended(s.db.rows[ScheduleR(id)])
    ensures Lookup(Fire(p, s, e).db, ScheduleR(id)) == Lookup(s.db, ScheduleR(id))
    ensures PaidOccurrences(Fire(p, s, e).db.rows, id) == PaidOccurrences(s.db.rows, id)
  {
    LogGrows(p, s, e);
    if Commits(p, s, e) {
      var tx, plan := s.active[e.tx], PlanOf(p, s, e.tx);
      CommitStands(p, s, e.tx);
      CommitLeaves(p, s, e.tx);
      CommitWritesSchedules(p, s.db, tx.command, e.tx, tx.start, tx.seen, tx.obs);
      EndedStays(p, s.db, plan.effect, e.tx, id);
    }
  }

  // A schedule that is CANCELLED or COMPLETED stays exactly as it is, and none of its occurrences is ever
  // paid again.
  lemma {:induction false} EndedSchedulesStay(p: Policy, s: State, run: seq<Event>, id: Id)
    requires ValidPolicy(p) && Reachable(p, s) && Legal(p, s, run)
    requires ScheduleR(id) in s.db.rows && Ended(s.db.rows[ScheduleR(id)])
    ensures Lookup(Play(p, s, run).db, ScheduleR(id)) == Lookup(s.db, ScheduleR(id))
    ensures PaidOccurrences(Play(p, s, run).db.rows, id) == PaidOccurrences(s.db.rows, id)
    decreases |run|
  {
    if |run| > 0 {
      FireKeepsEnded(p, s, run[0], id);
      NextIsReachable(p, s, run[0]);
      EndedSchedulesStay(p, Fire(p, s, run[0]), run[1..], id);
    }
  }

  // A scheduled payment commits only for a schedule that is ACTIVE in the state it commits to, and pays
  // what that schedule pays: a pause or a cancel that committed first always wins.
  lemma ScheduledPaymentsComeFromActive(p: Policy, s: State, t: Id) returns (id: Id)
    requires ValidPolicy(p) && Reachable(p, s) && Commits(p, s, Step(t))
    requires PlanOf(p, s, t).effect.moved.Some? && PlanOf(p, s, t).effect.moved.value.kind == SCHEDULED
    ensures ScheduleR(id) in s.db.rows && s.db.rows[ScheduleR(id)].Schedule?
    ensures s.db.rows[ScheduleR(id)].phase == ScheduleStatus.ACTIVE
    ensures PaysFor(PlanOf(p, s, t).effect.moved.value, s.db.rows[ScheduleR(id)])
    ensures s.active[t].command.Run? && s.active[t].command.schedule == id && s.db.rows[ScheduleR(id)].next <= s.active[t].start
  {
    var tx := s.active[t];
    CommitStands(p, s, t);
    id := RunsPayTheirs(p, s.db, tx.command, t, tx.start, tx.seen, tx.obs);
  }

  lemma RunsPayTheirs(p: Policy, db: Db, c: Command, self: Id, start: Instant, seen: Seen, obs: Obs) returns (id: Id)
    requires AllStand(db, seen) && Plan(p, c, self, start, seen, obs).Commit?
    requires var moved := Plan(p, c, self, start, seen, obs).effect.moved; moved.Some? && moved.value.kind == SCHEDULED
    ensures ScheduleR(id) in db.rows && db.rows[ScheduleR(id)].Schedule?
    ensures db.rows[ScheduleR(id)].phase == ScheduleStatus.ACTIVE
    ensures PaysFor(Plan(p, c, self, start, seen, obs).effect.moved.value, db.rows[ScheduleR(id)])
    ensures c.Run? && c.schedule == id && db.rows[ScheduleR(id)].next <= start
  {
    if c.ExpireDue? {
      ExpireCommits(c, c.requests, start, seen, obs);
    }
    id := c.schedule;
    assert Stands(db, ScheduleR(id), seen[ScheduleR(id)]);
  }

  // ---------------------------------------------------------------- frozen accounts

  predicate StatusIs(db: Db, a: Id, status: AccountStatus) {
    IsAccountRow(db, a) && db.rows[AccountR(a)].status == status
  }

  // Only a change of status changes a status.
  lemma OnlyThawsThaw(p: Policy, db: Db, c: Command, self: Id, start: Instant, seen: Seen, obs: Obs, a: Id)
    requires AllStand(db, seen) && Fresh(db, self) && Plan(p, c, self, start, seen, obs).Commit?
    requires StatusIs(db, a, FROZEN) && !(c.SetStatus? && c.account == a && c.target == AccountStatus.ACTIVE)
    ensures var e := Plan(p, c, self, start, seen, obs).effect;
            AccountR(a) in e.writes ==> e.writes[AccountR(a)].Account? && e.writes[AccountR(a)].status == FROZEN
  {
    var e := Plan(p, c, self, start, seen, obs).effect;
    CommitMovesOrKeepsMoney(p, db, c, self, start, seen, obs);
    if KeepsMoney(db, e) && AccountR(a) in e.writes {
      OnlySetStatusWrites(p, c, self, start, seen, obs, a);
    }
  }

  lemma OnlySetStatusWrites(p: Policy, c: Command, self: Id, start: Instant, seen: Seen, obs: Obs, a: Id)
    requires Plan(p, c, self, start, seen, obs).Commit?
    requires var e := Plan(p, c, self, start, seen, obs).effect; e.moved.None? && AccountR(a) in e.writes
    ensures c.SetStatus? && c.account == a && c.target != CLOSED
    ensures var e := Plan(p, c, self, start, seen, obs).effect;
            e.writes[AccountR(a)].Account? && e.writes[AccountR(a)].status == c.target
  {
    if c.ExpireDue? {
      ExpireCommits(c, c.requests, start, seen, obs);
    }
  }

  // No commit of the run makes the account ACTIVE.
  ghost predicate NeverThawed(p: Policy, s: State, run: seq<Event>, a: Id)
    requires Legal(p, s, run)
    decreases |run|
  {
    |run| == 0 || (!Thaws(p, s, run[0], a) && NeverThawed(p, Fire(p, s, run[0]), run[1..], a))
  }

  predicate Thaws(p: Policy, s: State, e: Event, a: Id) {
    Commits(p, s, e) &&
    var c := s.active[e.tx].command;
    c.SetStatus? && c.account == a && c.target == AccountStatus.ACTIVE
  }

  // Payments out of the account, one after another.
  function PaymentsBy(log: seq<Transfer>, a: Id): seq<Transfer> {
    if |log| == 0 then []
    else PaymentsBy(log[..|log| - 1], a) + if log[|log| - 1].from == a then [log[|log| - 1]] else []
  }

  lemma FireKeepsFrozen(p: Policy, s: State, e: Event, a: Id)
    requires ValidPolicy(p) && Reachable(p, s) && CanFire(p, s, e) && StatusIs(s.db, a, FROZEN) && !Thaws(p, s, e, a)
    ensures StatusIs(Fire(p, s, e).db, a, FROZEN) && PaymentsBy(Fire(p, s, e).db.log, a) == PaymentsBy(s.db.log, a)
  {
    LogGrows(p, s, e);
    if Commits(p, s, e) {
      var tx, plan := s.active[e.tx], PlanOf(p, s, e.tx);
      CommitStands(p, s, e.tx);
      CommitLeaves(p, s, e.tx);
      OnlyThawsThaw(p, s.db, tx.command, e.tx, tx.start, tx.seen, tx.obs, a);
      FrozenDoesNotPay(p, s.db, tx.command, e.tx, tx.start, tx.seen, tx.obs, a);
      OneMorePayment(s.db.log, plan.effect.moved, a);
    }
  }

  lemma FrozenDoesNotPay(p: Policy, db: Db, c: Command, self: Id, start: Instant, seen: Seen, obs: Obs, a: Id)
    requires AllStand(db, seen) && Fresh(db, self) && Plan(p, c, self, start, seen, obs).Commit? && StatusIs(db, a, FROZEN)
    ensures var moved := Plan(p, c, self, start, seen, obs).effect.moved; moved.Some? ==> moved.value.from != a
  {
    CommitMovesOrKeepsMoney(p, db, c, self, start, seen, obs);
  }

  lemma OneMorePayment(log: seq<Transfer>, moved: Option<Transfer>, a: Id)
    ensures var log' := log + if moved.Some? then [moved.value] else [];
            PaymentsBy(log', a) == PaymentsBy(log, a) + if moved.Some? && moved.value.from == a then [moved.value] else []
  {
    if moved.Some? {
      assert (log + [moved.value])[..|log|] == log;
    } else {
      assert log + [] == log;
    }
  }

  // From the moment a freeze has committed until a thaw of the same account does, nothing is paid out of
  // it, by hand, by request, by schedule or by reversal, whatever was under way.
  lemma {:induction false} FrozenPaysNothing(p: Policy, s: State, run: seq<Event>, a: Id)
    requires ValidPolicy(p) && Reachable(p, s) && Legal(p, s, run)
    requires StatusIs(s.db, a, FROZEN) && NeverThawed(p, s, run, a)
    ensures StatusIs(Play(p, s, run).db, a, FROZEN) && PaymentsBy(Play(p, s, run).db.log, a) == PaymentsBy(s.db.log, a)
    decreases |run|
  {
    if |run| > 0 {
      FireKeepsFrozen(p, s, run[0], a);
      NextIsReachable(p, s, run[0]);
      FrozenPaysNothing(p, Fire(p, s, run[0]), run[1..], a);
    }
  }

  // ---------------------------------------------------------------- what the daily cap counts

  predicate Undone(log: seq<Transfer>, t: Transfer) {
    exists u :: u in log && u.reversalOf == Some(t.id)
  }

  // Of the first `n` payments: those out of the account since then, by hand, by request or by schedule, that
  // have not been undone.
  ghost function StayedOut(log: seq<Transfer>, n: nat, a: Id, since: int): int
    requires n <= |log|
  {
    if n == 0 then 0
    else
      var t := log[n - 1];
      StayedOut(log, n - 1, a, since)
      + if t.from == a && t.kind in {P2P, REQUEST_SETTLEMENT, SCHEDULED} && t.createdAt >= since && !Undone(log, t)
        then t.amount else 0
  }

  lemma {:induction false} OutboundStayedOut(db: Db, n: nat, a: Id, since: int)
    requires Books(db) && ReversalsMatch(db) && n <= |db.log|
    ensures OutboundSince(db.rows, db.log[..n], a, since) == StayedOut(db.log, n, a, since)
  {
    if n > 0 {
      OutboundStayedOut(db, n - 1, a, since);
      assert db.log[..n][..n - 1] == db.log[..n - 1];
      CompletedIff(db, db.log[n - 1]);
    }
  }

  lemma CompletedIff(db: Db, t: Transfer)
    requires Books(db) && ReversalsMatch(db) && t in db.log
    ensures Completed(db.rows, t) <==> !Undone(db.log, t)
  {
    ReversedIffCompensated(db, t);
  }

  // What the daily cap is held against is, in every reachable state, exactly the money that has gone out
  // and stayed out: payments of the three kinds, less the ones that were reversed.
  lemma SpentIsWhatStayedOut(p: Policy, s: State, a: Id, since: int)
    requires ValidPolicy(p) && Reachable(p, s)
    ensures OutboundSince(s.db.rows, s.db.log, a, since) == StayedOut(s.db.log, |s.db.log|, a, since)
  {
    ReachableIsGood(p, s);
    assert s.db.log[..|s.db.log|] == s.db.log;
    OutboundStayedOut(s.db, |s.db.log|, a, since);
  }
}
