/**
 What each service does to the tables when nobody else is about, spelt out: its script run on one
 state, and how the statements of its transaction add up to one effect.
 */
module Verdicts {
  import opened Calendar
  import opened Store
  import opened Scripts
  import opened Engine
  import opened Serializability
  import opened Alone
  import opened Promises

  datatype Pair = Pair(from: Row, to: Row)

  datatype Balances = Balances(sender: int, receiver: int)

  // How a call ends: committed with its reply, or rolled back with its error.
  predicate Ends(v: Next, db: Db, first: nat, db': Db, r: Outcome<Reply>) {
    match v
    case Commit(e, reply) => r == Ok(reply) && db' == Apply(db, e, first)
    case Fail(error) => r == Err(error) && db' == db
    case _ => false
  }

  // How its script ends, before the transaction is closed.
  predicate Scripted(v: Next, db: Db, first: nat, work: Db, nextEntry: nat, r: Outcome<Reply>) {
    match v
    case Commit(e, reply) => r == Ok(reply) && work == Apply(db, e, first) && nextEntry == first + |e.legs|
    case Fail(error) => r == Err(error) && nextEntry >= first
    case _ => false
  }

  // Every id in use was drawn from the generators.
  ghost predicate Issued(db: Db, nextTx: Id, nextEntry: nat) {
    && (forall r :: r in db.rows && Creator(r).Some? ==> Creator(r).value < nextTx)
    && (forall t :: t in db.log ==> t.id < nextTx)
    && (forall e :: e in db.entries ==> e.id < nextEntry)
  }

  lemma WritesAreIssued(db: Db, e: Effect, self: Id, seen: Seen, first: nat)
    requires Issued(db, self, first) && AllStand(db, seen) && WritesOwnRows(e, self, seen)
    ensures Issued(Apply(db, e, first), self + 1, first + |e.legs|)
  {
    forall r | r in e.writes && Creator(r).Some? ensures Creator(r).value < self + 1 {
      if Creator(r) != Some(self) {
        assert Stands(db, r, seen[r]) && r in db.rows;
      }
    }
  }

  lemma CommitStaysIssued(p: Policy, db: Db, c: Command, self: Id, now: Instant, first: nat)
    requires Issued(db, self, first) && Verdict(p, db, c, self, now).Commit?
    ensures var e := Verdict(p, db, c, self, now).effect;
            Issued(Apply(db, e, first), self + 1, first + |e.legs|)
  {
    var v := Verdict(p, db, c, self, now);
    var seen, obs := AloneIsAtomic(p, db, c, self, now, first);
    CommitWritesOwnRows(p, c, self, now, seen, obs);
    WritesAreIssued(db, v.effect, self, seen, first);
  }

  // What a transaction has written so far does not concern the transfers counted.
  lemma {:induction false} SameOutbound(rows: map<Resource, Row>, rows': map<Resource, Row>, log: seq<Transfer>,
                                        a: Id, since: int)
    requires forall t :: TransferR(t) in rows <==> TransferR(t) in rows'
    requires forall t :: TransferR(t) in rows ==> rows'[TransferR(t)] == rows[TransferR(t)]
    ensures OutboundSince(rows', log, a, since) == OutboundSince(rows, log, a, since)
  {
    if |log| > 0 {
      SameOutbound(rows, rows', log[..|log| - 1], a, since);
    }
  }

  function SendSeen(p: Policy, db: Db, c: Command): Seen
    requires c.Send?
  {
    var k, advisory, user := KeyR(c.user, c.key), AdvisoryR(p.slot(c.user)), AccountR(c.user);
    var base := map[k := Lookup(db, k), advisory := Lookup(db, advisory), user := Lookup(db, user)];
    if c.payee.Some? then base[AccountR(c.payee.value) := Lookup(db, AccountR(c.payee.value))] else base
  }

  function SendVerdict(p: Policy, db: Db, c: Command, self: Id, now: Instant): Next
    requires c.Send?
  {
    PlanSend(p, c, self, now, SendSeen(p, db, c),
             map[Velocity(c.user, now as int - p.window) := Count(SentSince(db.log, c.user, now as int - p.window)),
                 Outbound(c.user, now as int - DAY) := Total(OutboundSince(db.rows, db.log, c.user, now as int - DAY))])
  }

  lemma SendEnds(p: Policy, db: Db, c: Command, self: Id, now: Instant)
    requires c.Send?
    ensures Verdict(p, db, c, self, now) == SendVerdict(p, db, c, self, now)
  {
    assert Known(db, Touched(p, db, c, now)) == SendSeen(p, db, c);
  }

  // What posting does when both accounts are read from `db`, whatever the order.
  function PostingOn(db: Db, t: Transfer): (r: Posting)
    ensures !r.NeedRow?
  {
    if t.amount <= 0 then Refused(Validation)
    else if t.from == t.to then Refused(SelfTransfer)
    else if !IsAccountRow(db, t.from) || !IsAccountRow(db, t.to) then Refused(NotFound)
    else CheckAndPost(t, db.rows[AccountR(t.from)], db.rows[AccountR(t.to)])
  }

  lemma PostingIsOrdered(db: Db, t: Transfer, seen: Seen)
    requires AccountR(t.from) in seen && seen[AccountR(t.from)] == Lookup(db, AccountR(t.from))
    requires AccountR(t.to) in seen && seen[AccountR(t.to)] == Lookup(db, AccountR(t.to))
    ensures Scripts.PostDoubleEntry(t, seen) == PostingOn(db, t)
  {
  }

  // The tables with a key claimed but not completed.
  function Holding(db: Db, user: Id, key: nat, digest: nat): Db {
    db.(rows := db.rows[KeyR(user, key) := Key(digest, None)])
  }

  // Claiming, working and completing leave the same tables as one write of the completed key.
  lemma CompletedWithIt(db: Db, e: Effect, user: Id, key: nat, digest: nat, reply: Reply, first: nat)
    requires KeyR(user, key) !in e.writes
    ensures var k := KeyR(user, key);
            var done := Apply(Holding(db, user, key, digest), e, first);
            done.(rows := done.rows[k := Key(digest, Some(reply))])
            == Apply(db, e.(writes := e.writes[k := Key(digest, Some(reply))]), first)
  {
    var k := KeyR(user, key);
    var done := Apply(Holding(db, user, key, digest), e, first);
    assert done.rows[k := Key(digest, Some(reply))] == db.rows + e.writes[k := Key(digest, Some(reply))];
  }

  lemma PostingApplies(db: Db, t: Transfer, first: nat)
    requires PostingOn(db, t).Posted?
    ensures PostingOn(db, t).debited.Account? && PostingOn(db, t).credited.Account?
    ensures var from, to := db.rows[AccountR(t.from)], db.rows[AccountR(t.to)];
            Apply(db, Movement(PostingOn(db, t)), first)
            == Db(db.rows[AccountR(t.from) := Moved(from, -t.amount)][AccountR(t.to) := Moved(to, t.amount)]
                         [TransferR(t.id) := TransferStatus(false)],
                  db.log + [t],
                  db.entries + Number(LegsOf(t, from.balance - t.amount, to.balance + t.amount), first))
  {
    var e := Movement(PostingOn(db, t));
    var from, to := db.rows[AccountR(t.from)], db.rows[AccountR(t.to)];
    assert db.rows + e.writes == db.rows[AccountR(t.from) := Moved(from, -t.amount)][AccountR(t.to) := Moved(to, t.amount)]
                                        [TransferR(t.id) := TransferStatus(false)];
  }

  predicate PendingRow(row: Option<Row>) {
    row.Some? && row.value.Request? && row.value.state == RequestStatus.PENDING
  }

  predicate SettleableRow(row: Option<Row>, payer: Id, now: Instant) {
    PendingRow(row) && row.value.payer == payer && now < row.value.expires
  }

  // One more row written after an effect, or before it, is one more row in the effect.
  lemma AlsoWrites(db: Db, e: Effect, r: Resource, row: Row, first: nat)
    ensures var done := Apply(db, e, first);
            done.(rows := done.rows[r := row]) == Apply(db, e.(writes := e.writes[r := row]), first)
  {
    assert (db.rows + e.writes)[r := row] == db.rows + e.writes[r := row];
  }

  lemma WroteBefore(db: Db, e: Effect, r: Resource, row: Row, first: nat)
    requires r !in e.writes
    ensures Apply(db.(rows := db.rows[r := row]), e, first) == Apply(db, e.(writes := e.writes[r := row]), first)
  {
    assert db.rows[r := row] + e.writes == db.rows + e.writes[r := row];
  }

  function AcceptSeen(db: Db, c: Command): Seen
    requires c.Accept?
  {
    var k, r := KeyR(c.user, c.key), RequestR(c.request);
    var base := map[k := Lookup(db, k), r := Lookup(db, r)];
    if base[r].Some? && base[r].value.Request? then
      base[AccountR(base[r].value.payer) := Lookup(db, AccountR(base[r].value.payer))]
          [AccountR(base[r].value.requester) := Lookup(db, AccountR(base[r].value.requester))]
    else base
  }

  function AcceptVerdict(p: Policy, db: Db, c: Command, self: Id, now: Instant): Next
    requires c.Accept?
  {
    PlanAccept(p, c, self, now, AcceptSeen(db, c),
               map[Outbound(c.user, now as int - DAY) := Total(OutboundSince(db.rows, db.log, c.user, now as int - DAY))])
  }

  lemma AcceptEnds(p: Policy, db: Db, c: Command, self: Id, now: Instant)
    requires c.Accept?
    ensures Verdict(p, db, c, self, now) == AcceptVerdict(p, db, c, self, now)
  {
    assert Known(db, Touched(p, db, c, now)) == AcceptSeen(db, c);
  }

  function Marked(db: Db, id: Id): Db {
    db.(rows := db.rows[TransferR(id) := TransferStatus(true)])
  }

  function ReversalOf(c: Command, self: Id, now: Instant, original: Transfer): Transfer
    requires c.Reverse?
  {
    Transfer(self, original.to, original.from, original.amount, REVERSAL, Some(KeyId(c.user, c.key)), Some(original.id), now)
  }

  function IsReversed(db: Db, id: Id): bool {
    TransferR(id) in db.rows && db.rows[TransferR(id)] == TransferStatus(true)
  }

  function ReverseSeen(db: Db, c: Command): Seen
    requires c.Reverse?
  {
    var k, o := KeyR(c.user, c.key), FindTransfer(db.log, c.original);
    var base := map[k := Lookup(db, k)];
    if o.Some? then
      base[TransferR(o.value.id) := Lookup(db, TransferR(o.value.id))]
          [AccountR(o.value.from) := Lookup(db, AccountR(o.value.from))]
          [AccountR(o.value.to) := Lookup(db, AccountR(o.value.to))]
    else base
  }

  function ReverseVerdict(p: Policy, db: Db, c: Command, self: Id, now: Instant): Next
    requires c.Reverse?
  {
    PlanReverse(p, c, self, now, ReverseSeen(db, c),
                map[Original(c.original) := Loaded(FindTransfer(db.log, c.original), IsReversed(db, c.original))])
  }

  lemma ReverseEnds(p: Policy, db: Db, c: Command, self: Id, now: Instant)
    requires c.Reverse?
    ensures Verdict(p, db, c, self, now) == ReverseVerdict(p, db, c, self, now)
  {
    FindTransferFinds(db.log, c.original);
    assert Known(db, Touched(p, db, c, now)) == ReverseSeen(db, c);
    assert Answers(db, Asked(p, db, c, now)) ==
           map[Original(c.original) := Loaded(FindTransfer(db.log, c.original), IsReversed(db, c.original))];
  }

  // ---------------------------------------------------------------- schedules

  function ScheduleOf(db: Db, id: Id): Option<Row> {
    var row := Lookup(db, ScheduleR(id));
    if row.Some? && row.value.Schedule? then row else None
  }

  function RunSeen(db: Db, c: Command): Seen
    requires c.Run?
  {
    var s, row := ScheduleR(c.schedule), ScheduleOf(db, c.schedule);
    var base := map[s := Lookup(db, s)];
    if row.Some? then
      base[OccurrenceR(c.schedule, row.value.next) := Lookup(db, OccurrenceR(c.schedule, row.value.next))]
          [AccountR(row.value.from) := Lookup(db, AccountR(row.value.from))]
          [AccountR(row.value.to) := Lookup(db, AccountR(row.value.to))]
    else base
  }

  function RunObs(db: Db, c: Command, now: Instant): Obs
    requires c.Run?
  {
    var row := ScheduleOf(db, c.schedule);
    if row.None? then map[]
    else
      var from, since := row.value.from, now as int - DAY;
      map[Outbound(from, since) := Total(OutboundSince(db.rows, db.log, from, since))]
  }

  function ScheduledPayment(self: Id, now: Instant, row: Row): Transfer
    requires row.Schedule?
  {
    Transfer(self, row.from, row.to, row.pays, SCHEDULED, None, None, now)
  }

  // Why a payment cannot be made from `db`, if it cannot.
  function Refusal(p: Policy, db: Db, self: Id, now: Instant, row: Row): Option<Error>
    requires row.Schedule?
  {
    if OutboundSince(db.rows, db.log, row.from, now as int - DAY) + row.pays > p.dailyLimit then Some(LimitExceeded)
    else match PostingOn(db, ScheduledPayment(self, now, row))
      case Refused(e) => Some(e)
      case Posted(_, _, _) => None
  }

  function PaidEffect(db: Db, c: Command, self: Id, now: Instant, row: Row, attempts: nat): Effect
    requires c.Run? && row.Schedule? && PostingOn(db, ScheduledPayment(self, now, row)).Posted?
  {
    PostingApplies(db, ScheduledPayment(self, now, row), 0);
    var e := Movement(PostingOn(db, ScheduledPayment(self, now, row)));
    e.(writes := e.writes[OccurrenceR(c.schedule, row.next) := Occurrence(PAID, attempts, Some(self))]
                         [ScheduleR(c.schedule) := Scripts.AdvanceSchedule(row, true)])
  }

  // A payment attempted under a savepoint: paid, or refused and either deferred or given up.
  function AttemptVerdict(p: Policy, db: Db, c: Command, self: Id, now: Instant, row: Row, attempts: nat): Next
    requires c.Run? && row.Schedule? && attempts >= 1
  {
    var refusal := Refusal(p, db, self, now, row);
    if refusal.Some? then AfterRefusal(p, c, now, row, attempts, refusal.value)
    else Commit(PaidEffect(db, c, self, now, row, attempts), RunReply(RunPaid))
  }

  // What one tick does to a claimed schedule.
  function RunVerdict(p: Policy, db: Db, c: Command, self: Id, now: Instant): Next
    requires c.Run?
  {
    var s := ScheduleR(c.schedule);
    if !IsDue(Lookup(db, s), now) then Commit(NO_EFFECT, RunReply(RunNotClaimed))
    else
      var row := db.rows[s];
      var o := OccurrenceR(c.schedule, row.next);
      match Attempt(Lookup(db, o))
      case None => Commit(Effect(map[s := Scripts.AdvanceSchedule(row, false)], None, []), RunReply(RunDuplicate))
      case Some(attempts) =>
        if c.clockMs - row.next / 1000 > p.graceMs then
          Commit(Effect(map[o := Occurrence(SKIPPED, attempts, None), s := Scripts.AdvanceSchedule(row, false)], None, []),
                 RunReply(RunSkipped))
        else AttemptVerdict(p, db, c, self, now, row, attempts)
  }

  lemma RunFirst(p: Policy, db: Db, c: Command, self: Id, now: Instant)
    requires c.Run?
    ensures Known(db, Touched(p, db, c, now)) == RunSeen(db, c)
    ensures Answers(db, Asked(p, db, c, now)) == RunObs(db, c, now)
  {
  }

  lemma PaymentPlanned(p: Policy, db: Db, c: Command, self: Id, now: Instant, row: Row, attempts: nat)
    requires c.Run? && attempts >= 1 && ScheduleOf(db, c.schedule) == Some(row)
    ensures PlanPayment(p, c, self, now, row, attempts, RunSeen(db, c), RunObs(db, c, now))
            == if Refusal(p, db, self, now, row).Some? then RollbackTo(Refusal(p, db, self, now, row).value)
               else Commit(PaidEffect(db, c, self, now, row, attempts), RunReply(RunPaid))
  {
    PostingIsOrdered(db, ScheduledPayment(self, now, row), RunSeen(db, c));
  }

  lemma RunEnds(p: Policy, db: Db, c: Command, self: Id, now: Instant)
    requires c.Run?
    ensures Verdict(p, db, c, self, now) == RunVerdict(p, db, c, self, now)
  {
    RunFirst(p, db, c, self, now);
    if IsDue(Lookup(db, ScheduleR(c.schedule)), now) {
      var row := db.rows[ScheduleR(c.schedule)];
      var attempt := Attempt(Lookup(db, OccurrenceR(c.schedule, row.next)));
      if attempt.Some? {
        PaymentPlanned(p, db, c, self, now, row, attempt.value);
      }
    }
  }

  lemma RunReplies(p: Policy, db: Db, c: Command, self: Id, now: Instant)
    requires c.Run?
    ensures RunVerdict(p, db, c, self, now).Commit?
    ensures RunVerdict(p, db, c, self, now).reply.body.Ran?
    ensures RunVerdict(p, db, c, self, now).reply == RunReply(RunVerdict(p, db, c, self, now).reply.body.outcome)
  {
  }

  // An occurrence still waiting to be paid has no transfer.
  ghost predicate PendingUnpaid(db: Db) {
    forall s, due :: OccurrenceR(s, due) in db.rows ==> UnpaidWhilePending(db.rows[OccurrenceR(s, due)])
  }

  predicate UnpaidWhilePending(row: Row) {
    row.Occurrence? && row.outcome == OccurrenceStatus.PENDING ==> row.transfer.None?
  }

  function Attempting(db: Db, id: Id, due: Instant, attempts: nat): Db {
    db.(rows := db.rows[OccurrenceR(id, due) := Occurrence(OccurrenceStatus.PENDING, attempts, None)])
  }

  // Claiming an occurrence, settling it and moving its schedule are one effect on two rows.
  lemma OccurrenceAndSchedule(db: Db, id: Id, due: Instant, claimed: Row, settled: Row, moved: Row, first: nat)
    ensures var o, s := OccurrenceR(id, due), ScheduleR(id);
            && Put(Put(Put(db, o, claimed), o, settled), s, moved) == Apply(db, Effect(map[o := settled, s := moved], None, []), first)
            && (claimed == settled ==> Put(Put(db, o, claimed), s, moved) == Put(Put(Put(db, o, claimed), o, settled), s, moved))
  {
    var o, s := OccurrenceR(id, due), ScheduleR(id);
    assert db.rows[o := claimed][o := settled][s := moved] == db.rows + map[o := settled, s := moved];
    assert claimed == settled ==> db.rows[o := claimed][s := moved] == db.rows[o := claimed][o := settled][s := moved];
  }

  // Equal as far as accounts and transfers go.
  ghost predicate SameMoney(db: Db, db': Db) {
    && db'.log == db.log
    && (forall a :: Lookup(db', AccountR(a)) == Lookup(db, AccountR(a)))
    && (forall t :: Lookup(db', TransferR(t)) == Lookup(db, TransferR(t)))
  }

  lemma PaidWithIt(db: Db, c: Command, self: Id, now: Instant, row: Row, attempts: nat, first: nat)
    requires c.Run? && row.Schedule? && PostingOn(db, ScheduledPayment(self, now, row)).Posted?
    requires PostingOn(db, ScheduledPayment(self, now, row)).debited.Account?
    requires PostingOn(db, ScheduledPayment(self, now, row)).credited.Account?
    ensures var e := Movement(PostingOn(db, ScheduledPayment(self, now, row)));
            var done := Apply(Attempting(db, c.schedule, row.next, attempts), e, first);
            done.(rows := done.rows[OccurrenceR(c.schedule, row.next) := Occurrence(PAID, attempts, Some(self))]
                                   [ScheduleR(c.schedule) := Scripts.AdvanceSchedule(row, true)])
            == Apply(db, PaidEffect(db, c, self, now, row, attempts), first)
  {
    var e := Movement(PostingOn(db, ScheduledPayment(self, now, row)));
    var done := Apply(Attempting(db, c.schedule, row.next, attempts), e, first);
    assert done.rows[OccurrenceR(c.schedule, row.next) := Occurrence(PAID, attempts, Some(self))]
                    [ScheduleR(c.schedule) := Scripts.AdvanceSchedule(row, true)]
           == db.rows + PaidEffect(db, c, self, now, row, attempts).writes;
  }

  // ---------------------------------------------------------------- creations and small updates

  // The commands whose only row is their key, or the one row they update.
  function OnlyRow(c: Command): Resource
    requires c.CreateRequest? || c.CreateSchedule? || c.Terminate? || c.Transition? || c.BringForward? || c.SetStatus?
  {
    match c
    case CreateRequest(user, key, _, _, _, _) => KeyR(user, key)
    case CreateSchedule(user, key, _, _, _, _, _, _, _) => KeyR(user, key)
    case Terminate(id, _, _) => RequestR(id)
    case Transition(id, _, _) => ScheduleR(id)
    case BringForward(id) => ScheduleR(id)
    case SetStatus(account, _, _) => AccountR(account)
  }

  function OnlyRowVerdict(p: Policy, db: Db, c: Command, self: Id, now: Instant): Next
    requires c.CreateRequest? || c.CreateSchedule? || c.Terminate? || c.Transition? || c.BringForward? || c.SetStatus?
  {
    var seen := map[OnlyRow(c) := Lookup(db, OnlyRow(c))];
    match c
    case CreateRequest(_, _, _, _, _, _) => PlanCreateRequest(p, c, self, seen)
    case CreateSchedule(_, _, _, _, _, _, _, _, _) => PlanCreateSchedule(p, c, self, seen)
    case Terminate(_, _, _) => PlanTerminate(c, seen)
    case Transition(_, _, _) => PlanTransition(c, now, seen)
    case BringForward(_) => PlanBringForward(c, now, seen)
    case SetStatus(_, _, _) => PlanSetStatus(c, seen)
  }

  lemma OnlyRowEnds(p: Policy, db: Db, c: Command, self: Id, now: Instant)
    requires c.CreateRequest? || c.CreateSchedule? || c.Terminate? || c.Transition? || c.BringForward? || c.SetStatus?
    ensures Verdict(p, db, c, self, now) == OnlyRowVerdict(p, db, c, self, now)
  {
    assert Known(db, Touched(p, db, c, now)) == map[OnlyRow(c) := Lookup(db, OnlyRow(c))];
  }

  // One row updated, or nothing.
  lemma OneRowApplied(db: Db, r: Resource, row: Row, first: nat)
    ensures db.(rows := db.rows[r := row]) == Apply(db, Effect(map[r := row], None, []), first)
    ensures db == Apply(db, NO_EFFECT, first)
  {
    assert db.rows[r := row] == db.rows + map[r := row];
  }

  function SplitVerdict(p: Policy, db: Db, c: Command, self: Id): Next
    requires c.CreateSplit?
  {
    PlanCreateSplit(p, c, self, map[KeyR(c.user, c.key) := Lookup(db, KeyR(c.user, c.key))])
  }

  lemma SplitEnds(p: Policy, db: Db, c: Command, self: Id, now: Instant)
    requires c.CreateSplit?
    ensures Verdict(p, db, c, self, now) == SplitVerdict(p, db, c, self)
  {
    assert Known(db, Touched(p, db, c, now)) == map[KeyR(c.user, c.key) := Lookup(db, KeyR(c.user, c.key))];
  }

  function MintOf(p: Policy, c: Command, self: Id, now: Instant): Transfer
    requires c.Register?
  {
    Transfer(self, c.stripe, self, p.signupBonus, MINT, None, None, now)
  }

  function WithAccount(db: Db, self: Id): Db {
    db.(rows := db.rows[AccountR(self) := FRESH_ACCOUNT])
  }

  function RegisterVerdict(p: Policy, db: Db, c: Command, self: Id, now: Instant): Next
    requires c.Register?
  {
    match PostingOn(WithAccount(db, self), MintOf(p, c, self, now))
    case Refused(e) => Fail(e)
    case Posted(t, debited, credited) =>
      PostingApplies(WithAccount(db, self), MintOf(p, c, self, now), 0);
      Commit(Movement(Posted(t, debited, credited)), Reply(201, Created(self)))
  }

  lemma RegisterEnds(p: Policy, db: Db, c: Command, self: Id, now: Instant)
    requires c.Register?
    ensures Verdict(p, db, c, self, now) == RegisterVerdict(p, db, c, self, now)
  {
    var t := MintOf(p, c, self, now);
    var seen := Known(db, Touched(p, db, c, now));
    assert seen == map[AccountR(c.stripe) := Lookup(db, AccountR(c.stripe))];
    PostingIsOrdered(WithAccount(db, self), t, seen[AccountR(self) := Some(FRESH_ACCOUNT)]);
  }

  // The movement overwrites the row it was posted to.
  lemma MintedOver(db: Db, t: Transfer, first: nat)
    requires PostingOn(WithAccount(db, t.to), t).Posted?
    ensures PostingOn(WithAccount(db, t.to), t).debited.Account? && PostingOn(WithAccount(db, t.to), t).credited.Account?
    ensures var e := Movement(PostingOn(WithAccount(db, t.to), t));
            Apply(WithAccount(db, t.to), e, first) == Apply(db, e, first)
  {
    PostingApplies(WithAccount(db, t.to), t, first);
    var e := Movement(PostingOn(WithAccount(db, t.to), t));
    assert WithAccount(db, t.to).rows + e.writes == db.rows + e.writes;
  }

  function Requests(ids: seq<RequestId>): set<Resource> {
    set i | 0 <= i < |ids| :: RequestR(ids[i])
  }

  lemma ExpireEnds(p: Policy, db: Db, c: Command, self: Id, now: Instant)
    requires c.ExpireDue?
    ensures Verdict(p, db, c, self, now)
            == Commit(Effect(Expired(Known(db, Requests(c.requests)), now), None, []), Reply(200, Done))
  {
    ExpireAlone(c, c.requests, now, Known(db, Touched(p, db, c, now)), Answers(db, Asked(p, db, c, now)));
    assert Touched(p, db, c, now) == Requests(c.requests);
  }

  // The rows after the first n of a batch.
  function ExpiredRows(rows: map<Resource, Row>, ids: seq<RequestId>, now: Instant): map<Resource, Row> {
    if |ids| == 0 then rows
    else
      var before := ExpiredRows(rows, ids[..|ids| - 1], now);
      var r := RequestR(ids[|ids| - 1]);
      if r in before && Overdue(Some(before[r]), now) then before[r := before[r].(state := EXPIRED)] else before
  }

  lemma {:induction false} BatchExpires(db: Db, ids: seq<RequestId>, now: Instant)
    ensures ExpiredRows(db.rows, ids, now) == db.rows + Expired(Known(db, Requests(ids)), now)
  {
    if |ids| > 0 {
      var rest := ids[..|ids| - 1];
      BatchExpires(db, rest, now);
      assert Requests(ids) == Requests(rest) + {RequestR(ids[|ids| - 1])};
    }
  }

  function OverdueIds(db: Db, now: Instant): set<RequestId> {
    set r | r in db.rows && r.RequestR? && Overdue(Some(db.rows[r]), now) :: r.request
  }

  function ExpiryOf(db: Db, id: RequestId): Instant {
    var row := Lookup(db, RequestR(id));
    if row.Some? && row.value.Request? then row.value.expires else 0
  }

  // A batch leaves overdue exactly the requests that are not in it.
  lemma ExpiredAreGone(db: Db, ids: seq<RequestId>, now: Instant)
    ensures var db' := Apply(db, Effect(Expired(Known(db, Requests(ids)), now), None, []), 0);
            forall id :: id in OverdueIds(db', now) <==> id in OverdueIds(db, now) && id !in ids
  {
    var db' := Apply(db, Effect(Expired(Known(db, Requests(ids)), now), None, []), 0);
    forall id ensures id in OverdueIds(db', now) <==> id in OverdueIds(db, now) && id !in ids {
      var r := RequestR(id);
      assert id in OverdueIds(db, now) <==> Overdue(Lookup(db, r), now);
      assert id in OverdueIds(db', now) <==> Overdue(Lookup(db', r), now);
      assert r in Requests(ids) <==> id in ids;
    }
  }
}
