/**
 The machine and the services agree: when what a concurrent transaction commits is what its script,
 run alone against the committed state of that moment, commits.
 */
module Agreement {
  import opened Calendar
  import opened Store
  import opened Scripts
  import opened Engine
  import opened Serializability
  import opened Deadlock
  import opened Ledger
  import opened ExactlyOnce
  import opened System
  import opened Alone
  import opened Verdicts

  // Everything read is still so, as far as the script can come to look at it.
  ghost predicate StillTrue(p: Policy, db: Db, c: Command, start: Instant, seen: Seen, obs: Obs) {
    && (forall r :: r in seen ==> r in Touched(p, db, c, start) && seen[r] == Lookup(db, r))
    && (forall q :: q in obs && q in Asked(p, db, c, start) ==> obs[q] == Result(db, q))
  }

  lemma OthersFirstDecide(p: Policy, db: Db, c: Command, self: Id, start: Instant)
    requires !c.Run? && !c.ExpireDue?
    ensures Over(FirstPlan(p, db, c, self, start)) && Verdict(p, db, c, self, start) == FirstPlan(p, db, c, self, start)
  {
    var all, answers := Known(db, Touched(p, db, c, start)), Answers(db, Asked(p, db, c, start));
    if FirstPlan(p, db, c, self, start).RollbackTo? {
      OnlyRunsUndo(p, c, self, start, all, answers);
    }
    AloneEnds(p, db, c, self, start);
  }

  ghost predicate Decides(p: Policy, c: Command, self: Id, start: Instant, seen: Seen, obs: Obs, seen': Seen, obs': Obs) {
    Within(seen, obs, seen', obs') && Over(Plan(p, c, self, start, seen, obs)) ==>
      Plan(p, c, self, start, seen', obs') == Plan(p, c, self, start, seen, obs)
  }

  lemma OthersDecide(p: Policy, c: Command, self: Id, start: Instant, seen: Seen, obs: Obs, seen': Seen, obs': Obs)
    requires !c.Run? && !c.ExpireDue?
    ensures Decides(p, c, self, start, seen, obs, seen', obs')
  {
    if Within(seen, obs, seen', obs') && Over(Plan(p, c, self, start, seen, obs)) {
      if c.Send? { SendLearnsOn(p, c, self, start, seen, obs, seen', obs'); }
      else if c.Accept? { AcceptLearnsOn(p, c, self, start, seen, obs, seen', obs'); }
      else if c.Reverse? { ReverseLearnsOn(p, c, self, start, seen, obs, seen', obs'); }
      else if c.CreateRequest? || c.CreateSplit? || c.CreateSchedule? || c.Register? {
        CreateLearnsOn(p, c, self, start, seen, obs, seen', obs');
      } else { UpdateLearnsOn(p, c, self, start, seen, obs, seen', obs'); }
    }
  }

  lemma StillTrueAgrees(p: Policy, db: Db, c: Command, self: Id, start: Instant, seen: Seen, obs: Obs)
    requires !c.ExpireDue? && !c.Run? && StillTrue(p, db, c, start, seen, obs)
    requires Plan(p, c, self, start, seen, obs).Commit?
    ensures Plan(p, c, self, start, seen, obs) == Verdict(p, db, c, self, start)
  {
    var all, answers := Known(db, Touched(p, db, c, start)), Answers(db, Asked(p, db, c, start));
    OthersDecide(p, c, self, start, seen, obs, all, obs + answers);
    OthersFirstDecide(p, db, c, self, start);
    OthersDecide(p, c, self, start, all, answers, all, obs + answers);
  }

  // ---------------------------------------------------------------- at the moment of a commit

  // A committing script found every row it locked; only keys, lock keys and occurrences can be new.
  predicate FoundRows(seen: Seen) {
    forall r :: r in seen ==> seen[r].Some? || Insertable(r)
  }

  predicate Replays(c: Command, seen: Seen) {
    KeyOf(c).Some? && RowOf(KeyOf(c).value) in seen && seen[RowOf(KeyOf(c).value)].Some?
  }

  // A replay looks at nothing but its key.
  lemma ReplayAgrees(p: Policy, db: Db, c: Command, self: Id, start: Instant, seen: Seen, obs: Obs)
    requires Replays(c, seen) && seen[RowOf(KeyOf(c).value)] == Lookup(db, RowOf(KeyOf(c).value))
    requires Plan(p, c, self, start, seen, obs).Commit?
    ensures Plan(p, c, self, start, seen, obs) == Verdict(p, db, c, self, start)
  {
    var k := RowOf(KeyOf(c).value);
    var only: Seen := map[k := seen[k]];
    ReplayNeedsOnlyKey(p, c, self, start, seen, obs);
    assert StillTrue(p, db, c, start, only, map[]);
    StillTrueAgrees(p, db, c, self, start, only, map[]);
  }

  lemma ReplayNeedsOnlyKey(p: Policy, c: Command, self: Id, start: Instant, seen: Seen, obs: Obs)
    requires Replays(c, seen) && Plan(p, c, self, start, seen, obs).Commit?
    ensures var k := RowOf(KeyOf(c).value);
            Plan(p, c, self, start, map[k := seen[k]], map[]) == Plan(p, c, self, start, seen, obs)
  {
  }

  lemma PaymentsFound(p: Policy, c: Command, self: Id, start: Instant, seen: Seen, obs: Obs)
    requires c.Send? || c.Accept?
    requires Ordered(p, c, seen, obs) && !Replays(c, seen) && Plan(p, c, self, start, seen, obs).Commit?
    ensures FoundRows(seen)
  {
  }

  lemma ReversalFound(p: Policy, c: Command, self: Id, start: Instant, seen: Seen, obs: Obs)
    requires c.Reverse?
    requires Ordered(p, c, seen, obs) && !Replays(c, seen) && Plan(p, c, self, start, seen, obs).Commit?
    ensures FoundRows(seen)
  {
  }

  lemma OthersFound(p: Policy, c: Command, self: Id, start: Instant, seen: Seen, obs: Obs)
    requires !c.Send? && !c.Accept? && !c.Reverse? && !c.Run? && !c.ExpireDue?
    requires Ordered(p, c, seen, obs) && !Replays(c, seen) && Plan(p, c, self, start, seen, obs).Commit?
    ensures FoundRows(seen)
  {
  }

  lemma CommitFound(p: Policy, c: Command, self: Id, start: Instant, seen: Seen, obs: Obs)
    requires !c.ExpireDue? && !c.Run?
    requires Ordered(p, c, seen, obs) && !Replays(c, seen) && Plan(p, c, self, start, seen, obs).Commit?
    ensures FoundRows(seen)
  {
    if c.Send? || c.Accept? { PaymentsFound(p, c, self, start, seen, obs); }
    else if c.Reverse? { ReversalFound(p, c, self, start, seen, obs); }
    else { OthersFound(p, c, self, start, seen, obs); }
  }

  lemma FoundIsCurrent(db: Db, tx: Tx)
    requires Current(db, tx) && FoundRows(tx.seen)
    ensures forall r :: r in tx.seen ==> tx.seen[r] == Lookup(db, r)
  {
    forall r | r in tx.seen ensures tx.seen[r] == Lookup(db, r) {
      assert r in tx.held ==> tx.seen[r] == Lookup(db, r);
    }
  }

  // Transfers never change and no id is used twice, so a loaded transfer is still the one found.
  lemma LoadedIsCurrent(db: Db, obs: Obs, x: Id)
    requires TransfersNamed(db) && LoadedStand(db, obs)
    requires Original(x) in obs && obs[Original(x)].Loaded? && obs[Original(x)].found.Some?
    ensures FindTransfer(db.log, x) == obs[Original(x)].found
  {
    FindTransferFinds(db.log, x);
    var t := obs[Original(x)].found.value;
    var u := FindTransfer(db.log, x).value;
    var i :| 0 <= i < |db.log| && db.log[i] == t;
    var j :| 0 <= j < |db.log| && db.log[j] == u;
  }

  // The original a reversal undoes is still what it loaded: its status row is locked.
  lemma OriginalIsCurrent(p: Policy, db: Db, c: Command, self: Id, start: Instant, seen: Seen, obs: Obs)
    requires c.Reverse? && TransfersNamed(db) && LoadedStand(db, obs)
    requires !Replays(c, seen) && PlanReverse(p, c, self, start, seen, obs).Commit?
    requires forall r :: r in seen ==> seen[r] == Lookup(db, r)
    ensures Original(c.original) in obs && obs[Original(c.original)] == Result(db, Original(c.original))
  {
    LoadedIsCurrent(db, obs, c.original);
  }

  lemma FootprintIsTouched(p: Policy, db: Db, c: Command, start: Instant, seen: Seen, obs: Obs)
    requires !c.ExpireDue? && Ordered(p, c, seen, obs)
    requires forall r :: r in seen ==> seen[r] == Lookup(db, r)
    requires c.Reverse? && Original(c.original) in obs ==> obs[Original(c.original)] == Result(db, Original(c.original))
    ensures forall r :: r in seen ==> r in Touched(p, db, c, start)
  {
  }

  // ---------------------------------------------------------------- exactly when a commit is serial

  // The sender's two guards, on the committed state.
  predicate SendFits(p: Policy, db: Db, c: Command, start: Instant)
    requires c.Send?
  {
    && SentSince(db.log, c.user, start as int - p.window) < p.maxTransfers
    && OutboundSince(db.rows, db.log, c.user, start as int - DAY) + c.amount <= p.dailyLimit
  }

  predicate SettlementFits(p: Policy, db: Db, c: Command, start: Instant)
    requires c.Accept?
  {
    var row := Lookup(db, RequestR(c.request));
    row.Some? && row.value.Request?
    && OutboundSince(db.rows, db.log, c.user, start as int - DAY) + row.value.amount <= p.dailyLimit
  }

  // What the committed state must say for a scheduler's run to end as it does.
  predicate RunFits(p: Policy, db: Db, c: Command, self: Id, start: Instant, outcome: RunOutcome)
    requires c.Run?
  {
    var row := ScheduleOf(db, c.schedule);
    match outcome
    case RunNotClaimed => !IsDue(Lookup(db, ScheduleR(c.schedule)), start)
    case RunPaid => row.Some? && OutboundSince(db.rows, db.log, row.value.from, start as int - DAY) + row.value.pays <= p.dailyLimit
    case RunDeferred => row.Some? && RefusedNow(p, db, self, start, row.value, true)
    case RunFailed =>
      row.Some? && (RefusedNow(p, db, self, start, row.value, false)
                    || (RefusedNow(p, db, self, start, row.value, true) && LastAttempt(p, db, c.schedule, row.value)))
    case _ => true
  }

  // The payment would be refused, for a reason that may pass or not.
  predicate RefusedNow(p: Policy, db: Db, self: Id, start: Instant, row: Row, transient: bool)
    requires row.Schedule?
  {
    var refusal := Refusal(p, db, self, start, row);
    refusal.Some? && Retryable(refusal.value) == transient
  }

  predicate LastAttempt(p: Policy, db: Db, id: Id, row: Row)
    requires row.Schedule?
  {
    var attempt := Attempt(Lookup(db, OccurrenceR(id, row.next)));
    attempt.Some? && attempt.value >= p.maxAttempts
  }

  // Nothing of the batch that is overdue was somebody else's at the time.
  ghost predicate BatchFits(db: Db, c: Command, start: Instant, held: set<Resource>)
    requires c.ExpireDue?
  {
    forall id :: id in c.requests && Overdue(Lookup(db, RequestR(id)), start) ==> RequestR(id) in held
  }

  ghost predicate Fits(p: Policy, db: Db, tx: Tx, self: Id, reply: Reply) {
    var c := tx.command;
    Replays(c, tx.seen) ||
    match c
    case Send(_, _, _, _, _) => SendFits(p, db, c, tx.start)
    case Accept(_, _, _, _) => SettlementFits(p, db, c, tx.start)
    case Run(_, _) => reply.body.Ran? && RunFits(p, db, c, self, tx.start, reply.body.outcome)
    case ExpireDue(_) => BatchFits(db, c, tx.start, tx.held)
    case _ => true
  }

  // With the true counts in place of the counts it took, a payment still goes out.
  lemma SendGoesOut(p: Policy, db: Db, c: Command, self: Id, start: Instant, seen: Seen, obs: Obs, obs': Obs)
    requires c.Send? && SendFits(p, db, c, start) && PlanSend(p, c, self, start, seen, obs).Commit?
    requires obs' == Answers(db, Asked(p, db, c, start))
    ensures PlanSend(p, c, self, start, seen, obs') == PlanSend(p, c, self, start, seen, obs)
  {
  }

  lemma SendStops(p: Policy, db: Db, c: Command, self: Id, start: Instant)
    requires c.Send? && KeyR(c.user, c.key) !in db.rows && !SendFits(p, db, c, start)
    ensures Verdict(p, db, c, self, start).Fail?
  {
    SendEnds(p, db, c, self, start);
  }

  lemma SettlementGoesOut(p: Policy, db: Db, c: Command, self: Id, start: Instant, seen: Seen, obs: Obs, obs': Obs)
    requires c.Accept? && SettlementFits(p, db, c, start) && PlanAccept(p, c, self, start, seen, obs).Commit?
    requires RequestR(c.request) in seen ==> seen[RequestR(c.request)] == Lookup(db, RequestR(c.request))
    requires obs' == Answers(db, Asked(p, db, c, start))
    ensures PlanAccept(p, c, self, start, seen, obs') == PlanAccept(p, c, self, start, seen, obs)
  {
  }

  lemma SettlementStops(p: Policy, db: Db, c: Command, self: Id, start: Instant)
    requires c.Accept? && KeyR(c.user, c.key) !in db.rows && !SettlementFits(p, db, c, start)
    ensures Verdict(p, db, c, self, start).Fail?
  {
    AcceptEnds(p, db, c, self, start);
  }

  // Rows that were found, and rows that can be new, are current.
  ghost predicate SureRows(db: Db, seen: Seen) {
    forall r :: r in seen && (seen[r].Some? || Insertable(r)) ==> seen[r] == Lookup(db, r)
  }

  lemma CurrentRowsAreSure(db: Db, tx: Tx)
    requires Current(db, tx)
    ensures SureRows(db, tx.seen)
  {
    forall r | r in tx.seen && (tx.seen[r].Some? || Insertable(r)) ensures tx.seen[r] == Lookup(db, r) {
      assert r in tx.held ==> tx.seen[r] == Lookup(db, r);
    }
  }

  lemma PaymentIff(p: Policy, db: Db, c: Command, self: Id, start: Instant, seen: Seen, obs: Obs)
    requires c.Run? && SureRows(db, seen) && PlanRun(p, c, self, start, seen, obs).Commit?
    requires PlanRun(p, c, self, start, seen, obs).reply == RunReply(RunPaid)
    ensures PlanRun(p, c, self, start, seen, obs) == RunVerdict(p, db, c, self, start)
            <==> RunFits(p, db, c, self, start, RunPaid)
  {
    var row := seen[ScheduleR(c.schedule)].value;
    var t := ScheduledPayment(self, start, row);
    PostingIsOrdered(db, t, seen);
  }

  lemma RefusalIff(p: Policy, db: Db, c: Command, self: Id, start: Instant, seen: Seen, obs: Obs)
    requires c.Run? && SureRows(db, seen) && PlanRun(p, c, self, start, seen, obs).Commit?
    requires PlanRun(p, c, self, start, seen, obs).reply == RunReply(RunDeferred)
             || PlanRun(p, c, self, start, seen, obs).reply == RunReply(RunFailed)
    ensures PlanRun(p, c, self, start, seen, obs) == RunVerdict(p, db, c, self, start)
            <==> RunFits(p, db, c, self, start, PlanRun(p, c, self, start, seen, obs).reply.body.outcome)
  {
  }

  lemma OtherRunsIff(p: Policy, db: Db, c: Command, self: Id, start: Instant, seen: Seen, obs: Obs)
    requires c.Run? && SureRows(db, seen) && PlanRun(p, c, self, start, seen, obs).Commit?
    requires PlanRun(p, c, self, start, seen, obs).reply == RunReply(RunSkipped)
             || PlanRun(p, c, self, start, seen, obs).reply == RunReply(RunDuplicate)
             || PlanRun(p, c, self, start, seen, obs).reply == RunReply(RunNotClaimed)
    ensures PlanRun(p, c, self, start, seen, obs) == RunVerdict(p, db, c, self, start)
            <==> RunFits(p, db, c, self, start, PlanRun(p, c, self, start, seen, obs).reply.body.outcome)
  {
  }

  lemma RunOutcomes(p: Policy, c: Command, self: Id, start: Instant, seen: Seen, obs: Obs)
    requires c.Run? && PlanRun(p, c, self, start, seen, obs).Commit?
    ensures PlanRun(p, c, self, start, seen, obs).reply.body.Ran?
    ensures PlanRun(p, c, self, start, seen, obs).reply == RunReply(PlanRun(p, c, self, start, seen, obs).reply.body.outcome)
  {
  }

  // What a batch expires of the rows it got, and what it would have expired of them all.
  lemma MineAndAll(p: Policy, db: Db, tx: Tx)
    requires tx.command.ExpireDue? && Current(db, tx) && Ordered(p, tx.command, tx.seen, tx.obs)
    ensures var mine := Expired(tx.seen, tx.start);
            forall r :: r in mine ==> InBatch(tx.command, r) && r in tx.held && Overdue(Lookup(db, r), tx.start)
                                      && tx.seen[r] == Lookup(db, r)
    ensures var mine := Expired(tx.seen, tx.start);
            forall r :: InBatch(tx.command, r) && r in tx.held && Overdue(Lookup(db, r), tx.start) ==> r in mine
    ensures var all := Expired(Known(db, Verdicts.Requests(tx.command.requests)), tx.start);
            forall r :: r in all <==> InBatch(tx.command, r) && Overdue(Lookup(db, r), tx.start)
  {
    var c := tx.command;
    forall r | r in Expired(tx.seen, tx.start)
      ensures InBatch(c, r) && r in tx.held && Overdue(Lookup(db, r), tx.start) && tx.seen[r] == Lookup(db, r)
    {
      assert r in tx.seen ==> InBatch(c, r);
      assert r in tx.held ==> tx.seen[r] == Lookup(db, r);
    }
  }

  lemma BatchIff(p: Policy, db: Db, tx: Tx, self: Id)
    requires tx.command.ExpireDue? && Current(db, tx) && Ordered(p, tx.command, tx.seen, tx.obs)
    requires Plan(p, tx.command, self, tx.start, tx.seen, tx.obs).Commit?
    ensures Plan(p, tx.command, self, tx.start, tx.seen, tx.obs) == Verdict(p, db, tx.command, self, tx.start)
            <==> BatchFits(db, tx.command, tx.start, tx.held)
  {
    var c, start := tx.command, tx.start;
    var mine, all := Expired(tx.seen, start), Expired(Known(db, Verdicts.Requests(c.requests)), start);
    ExpireCommits(c, c.requests, start, tx.seen, tx.obs);
    ExpireEnds(p, db, c, self, start);
    MineAndAll(p, db, tx);
    if BatchFits(db, c, start, tx.held) {
      assert mine == all;
    } else {
      var id :| id in c.requests && Overdue(Lookup(db, RequestR(id)), start) && RequestR(id) !in tx.held;
      assert InBatch(c, RequestR(id));
      assert RequestR(id) in all && RequestR(id) !in mine;
    }
  }

  lemma SendIff(p: Policy, db: Db, tx: Tx, self: Id)
    requires tx.command.Send? && Current(db, tx) && Ordered(p, tx.command, tx.seen, tx.obs) && !Replays(tx.command, tx.seen)
    requires PlanSend(p, tx.command, self, tx.start, tx.seen, tx.obs).Commit?
    ensures PlanSend(p, tx.command, self, tx.start, tx.seen, tx.obs) == Verdict(p, db, tx.command, self, tx.start)
            <==> SendFits(p, db, tx.command, tx.start)
  {
    var c := tx.command;
    CommitFound(p, c, self, tx.start, tx.seen, tx.obs);
    FoundIsCurrent(db, tx);
    if SendFits(p, db, c, tx.start) {
      var answers := Answers(db, Asked(p, db, c, tx.start));
      SendGoesOut(p, db, c, self, tx.start, tx.seen, tx.obs, answers);
      FootprintIsTouched(p, db, c, tx.start, tx.seen, tx.obs);
      assert StillTrue(p, db, c, tx.start, tx.seen, answers);
      StillTrueAgrees(p, db, c, self, tx.start, tx.seen, answers);
    } else {
      SendStops(p, db, c, self, tx.start);
    }
  }

  lemma SettlementIff(p: Policy, db: Db, tx: Tx, self: Id)
    requires tx.command.Accept? && Current(db, tx) && Ordered(p, tx.command, tx.seen, tx.obs) && !Replays(tx.command, tx.seen)
    requires PlanAccept(p, tx.command, self, tx.start, tx.seen, tx.obs).Commit?
    ensures PlanAccept(p, tx.command, self, tx.start, tx.seen, tx.obs) == Verdict(p, db, tx.command, self, tx.start)
            <==> SettlementFits(p, db, tx.command, tx.start)
  {
    var c := tx.command;
    CommitFound(p, c, self, tx.start, tx.seen, tx.obs);
    FoundIsCurrent(db, tx);
    if SettlementFits(p, db, c, tx.start) {
      var answers := Answers(db, Asked(p, db, c, tx.start));
      SettlementGoesOut(p, db, c, self, tx.start, tx.seen, tx.obs, answers);
      FootprintIsTouched(p, db, c, tx.start, tx.seen, tx.obs);
      assert StillTrue(p, db, c, tx.start, tx.seen, answers);
      StillTrueAgrees(p, db, c, self, tx.start, tx.seen, answers);
    } else {
      SettlementStops(p, db, c, self, tx.start);
    }
  }

  lemma RunIff(p: Policy, db: Db, tx: Tx, self: Id)
    requires tx.command.Run? && Current(db, tx)
    requires PlanRun(p, tx.command, self, tx.start, tx.seen, tx.obs).Commit?
    ensures PlanRun(p, tx.command, self, tx.start, tx.seen, tx.obs) == Verdict(p, db, tx.command, self, tx.start)
            <==> Fits(p, db, tx, self, PlanRun(p, tx.command, self, tx.start, tx.seen, tx.obs).reply)
  {
    var c := tx.command;
    CurrentRowsAreSure(db, tx);
    RunEnds(p, db, c, self, tx.start);
    RunOutcomes(p, c, self, tx.start, tx.seen, tx.obs);
    match PlanRun(p, c, self, tx.start, tx.seen, tx.obs).reply.body.outcome
    case RunPaid => PaymentIff(p, db, c, self, tx.start, tx.seen, tx.obs);
    case RunDeferred => RefusalIff(p, db, c, self, tx.start, tx.seen, tx.obs);
    case RunFailed => RefusalIff(p, db, c, self, tx.start, tx.seen, tx.obs);
    case _ => OtherRunsIff(p, db, c, self, tx.start, tx.seen, tx.obs);
  }

  lemma OthersAgree(p: Policy, db: Db, tx: Tx, self: Id)
    requires !tx.command.Send? && !tx.command.Accept? && !tx.command.Run? && !tx.command.ExpireDue?
    requires Current(db, tx) && Ordered(p, tx.command, tx.seen, tx.obs) && TransfersNamed(db) && !Replays(tx.command, tx.seen)
    requires Plan(p, tx.command, self, tx.start, tx.seen, tx.obs).Commit?
    ensures Plan(p, tx.command, self, tx.start, tx.seen, tx.obs) == Verdict(p, db, tx.command, self, tx.start)
  {
    var c := tx.command;
    CommitFound(p, c, self, tx.start, tx.seen, tx.obs);
    FoundIsCurrent(db, tx);
    if c.Reverse? {
      OriginalIsCurrent(p, db, c, self, tx.start, tx.seen, tx.obs);
    }
    FootprintIsTouched(p, db, c, tx.start, tx.seen, tx.obs);
    assert StillTrue(p, db, c, tx.start, tx.seen, tx.obs);
    StillTrueAgrees(p, db, c, self, tx.start, tx.seen, tx.obs);
  }

  lemma CurrentCommitIff(p: Policy, db: Db, tx: Tx, self: Id)
    requires Current(db, tx) && Ordered(p, tx.command, tx.seen, tx.obs) && TransfersNamed(db)
    requires Plan(p, tx.command, self, tx.start, tx.seen, tx.obs).Commit?
    ensures Plan(p, tx.command, self, tx.start, tx.seen, tx.obs) == Verdict(p, db, tx.command, self, tx.start)
            <==> Fits(p, db, tx, self, Plan(p, tx.command, self, tx.start, tx.seen, tx.obs).reply)
  {
    var c := tx.command;
    if Replays(c, tx.seen) { ReplayAgrees(p, db, c, self, tx.start, tx.seen, tx.obs); }
    else if c.Send? { SendIff(p, db, tx, self); }
    else if c.Accept? { SettlementIff(p, db, tx, self); }
    else if c.Run? { RunIff(p, db, tx, self); }
    else if c.ExpireDue? { BatchIff(p, db, tx, self); }
    else { OthersAgree(p, db, tx, self); }
  }

  lemma ReachableCommit(p: Policy, s: State, t: Id)
    requires ValidPolicy(p) && Reachable(p, s) && Commits(p, s, Step(t))
    ensures Current(s.db, s.active[t]) && Ordered(p, s.active[t].command, s.active[t].seen, s.active[t].obs)
    ensures TransfersNamed(s.db)
  {
    ReachableIsGood(p, s);
  }

  // Whatever raced it, a commit is the script run alone on the committed state of that moment exactly
  // when the guards it passed on older counts pass on that state too: the limits for a send, the cap
  // for a settlement or a scheduled payment, the refusal for a run put off or given up.  Every other
  // commit always is.
  lemma CommitIsVerdictIff(p: Policy, s: State, t: Id)
    requires ValidPolicy(p) && Reachable(p, s) && Commits(p, s, Step(t))
    ensures PlanOf(p, s, t) == Verdict(p, s.db, s.active[t].command, t, s.active[t].start)
            <==> Fits(p, s.db, s.active[t], t, PlanOf(p, s, t).reply)
  {
    ReachableCommit(p, s, t);
    CurrentCommitIff(p, s.db, s.active[t], t);
  }

  // Reversals, freezes, requests, splits, schedules and registrations take no counts, nor does a turn
  // that skips an occurrence or finds it settled: racing anything, they commit what they commit alone.
  lemma UncountedCommitIsVerdict(p: Policy, s: State, t: Id)
    requires ValidPolicy(p) && Reachable(p, s) && Commits(p, s, Step(t))
    requires var c := s.active[t].command; !c.ExpireDue? && !c.Send? && !c.Accept?
    requires s.active[t].command.Run? ==> PlanOf(p, s, t).reply in {RunReply(RunSkipped), RunReply(RunDuplicate)}
    ensures PlanOf(p, s, t) == Verdict(p, s.db, s.active[t].command, t, s.active[t].start)
  {
    CommitIsVerdictIff(p, s, t);
  }
}
