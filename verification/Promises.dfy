/**
 What each operation promises its caller, in terms of the tables before and after it: when it goes
 through, what is different then, and otherwise the first reason it is refused for.
 */
module Promises {
  import opened Calendar
  import opened Store
  import opened Scripts

  datatype Outcome<+T> = Ok(value: T) | Err(error: Error)

  // Nothing happened, for that reason.
  predicate Refuses(e: Error, db: Db, db': Db, r: Outcome<Reply>) {
    r == Err(e) && db' == db
  }

  // It was so already.
  predicate Agrees(reply: Reply, db: Db, db': Db, r: Outcome<Reply>) {
    r == Ok(reply) && db' == db
  }

  // One row inserted or updated.
  function Put(db: Db, r: Resource, row: Row): Db {
    db.(rows := db.rows[r := row])
  }

  // Only one row is different.
  predicate Writes(reply: Reply, db: Db, r: Resource, row: Row, db': Db, out: Outcome<Reply>) {
    out == Ok(reply) && db' == Put(db, r, row)
  }

  // ---------------------------------------------------------------- idempotency keys

  // The answer to a request under a key that is taken.
  predicate KeyAnswers(db: Db, user: Id, key: nat, digest: nat, db': Db, r: Outcome<Reply>)
    requires KeyR(user, key) in db.rows
  {
    var row := db.rows[KeyR(user, key)];
    if row.Key? && row.digest != digest then Refuses(KeyReuse, db, db', r)
    else if row.Key? && row.reply.Some? then Agrees(row.reply.value, db, db', r)
    else Refuses(RequestInProgress, db, db', r)
  }

  function WithKey(db: Db, user: Id, key: nat, digest: nat, reply: Reply): Db {
    Put(db, KeyR(user, key), Key(digest, Some(reply)))
  }

  // ---------------------------------------------------------------- one payment

  predicate IsAccountRow(db: Db, a: Id) {
    AccountR(a) in db.rows && db.rows[AccountR(a)].Account?
  }

  function Moved(row: Row, amount: int): Row
    requires row.Account?
  {
    row.(balance := row.balance + amount, version := row.version + 1)
  }

  function LegsOf(t: Transfer, senderAfter: int, receiverAfter: int): seq<Leg> {
    [Leg(t.id, t.from, DEBIT, t.amount, senderAfter, t.createdAt),
     Leg(t.id, t.to, CREDIT, t.amount, receiverAfter, t.createdAt)]
  }

  // Why the ledger does not post `t`, if it does not.
  function PaymentRefusal(db: Db, t: Transfer): Option<Error> {
    if t.amount <= 0 then Some(Validation)
    else if t.from == t.to then Some(SelfTransfer)
    else if !IsAccountRow(db, t.from) || !IsAccountRow(db, t.to) then Some(NotFound)
    else if db.rows[AccountR(t.from)].status != AccountStatus.ACTIVE then Some(AccountFrozen)
    else if db.rows[AccountR(t.to)].status == CLOSED then Some(AccountFrozen)
    else if !db.rows[AccountR(t.from)].system && db.rows[AccountR(t.from)].balance < t.amount then Some(InsufficientFunds)
    else None
  }

  // The tables once `t` is posted: two balances and versions, the transfer, its two entries.
  function PaymentMade(db: Db, t: Transfer, first: nat): Db
    requires IsAccountRow(db, t.from) && IsAccountRow(db, t.to)
  {
    var from, to := db.rows[AccountR(t.from)], db.rows[AccountR(t.to)];
    Db(db.rows[AccountR(t.from) := Moved(from, -t.amount)][AccountR(t.to) := Moved(to, t.amount)]
              [TransferR(t.id) := TransferStatus(false)],
       db.log + [t],
       db.entries + Number(LegsOf(t, from.balance - t.amount, to.balance + t.amount), first))
  }

  function BalanceOf(db: Db, a: Id): int {
    if IsAccountRow(db, a) then db.rows[AccountR(a)].balance else 0
  }

  // ---------------------------------------------------------------- sending

  function SendTransfer(c: Command, self: Id, now: Instant): Transfer
    requires c.Send? && c.payee.Some?
  {
    Transfer(self, c.user, c.payee.value, c.amount, P2P, Some(KeyId(c.user, c.key)), None, now)
  }

  function SendRefusal(p: Policy, db: Db, c: Command, self: Id, now: Instant): Option<Error>
    requires c.Send?
  {
    if SentSince(db.log, c.user, now as int - p.window) >= p.maxTransfers then Some(RateLimited)
    else if c.payee.None? then Some(NotFound)
    else if c.payee.value == c.user then Some(SelfTransfer)
    else if OutboundSince(db.rows, db.log, c.user, now as int - DAY) + c.amount > p.dailyLimit then Some(LimitExceeded)
    else PaymentRefusal(db, SendTransfer(c, self, now))
  }

  predicate SendPromise(p: Policy, db: Db, c: Command, self: Id, now: Instant, first: nat, db': Db, r: Outcome<Reply>)
    requires c.Send?
  {
    if c.amount < p.minTransfer then Refuses(Validation, db, db', r)
    else if c.amount > p.maxTransfer then Refuses(LimitExceeded, db, db', r)
    else if KeyR(c.user, c.key) in db.rows then KeyAnswers(db, c.user, c.key, c.digest, db', r)
    else match SendRefusal(p, db, c, self, now)
      case Some(e) => Refuses(e, db, db', r)
      case None =>
        var reply := Reply(201, Receipt(self, c.amount, BalanceOf(db, c.user) - c.amount));
        r == Ok(reply)
        && db' == WithKey(PaymentMade(db, SendTransfer(c, self, now), first), c.user, c.key, c.digest, reply)
  }

  // ---------------------------------------------------------------- money requests

  // The payer pays the requester what was asked.
  function SettlementTransfer(c: Command, self: Id, now: Instant, row: Row): Transfer
    requires c.Accept? && row.Request?
  {
    Transfer(self, row.payer, row.requester, row.amount, REQUEST_SETTLEMENT, Some(KeyId(c.user, c.key)), None, now)
  }

  function AcceptRefusal(p: Policy, db: Db, c: Command, self: Id, now: Instant): Option<Error>
    requires c.Accept?
  {
    var row := Lookup(db, RequestR(c.request));
    if row.None? || !row.value.Request? || row.value.payer != c.user then Some(NotFound)
    else if row.value.state != RequestStatus.PENDING || row.value.expires <= now then Some(InvalidState)
    else if OutboundSince(db.rows, db.log, c.user, now as int - DAY) + row.value.amount > p.dailyLimit then Some(LimitExceeded)
    else PaymentRefusal(db, SettlementTransfer(c, self, now, row.value))
  }

  predicate AcceptPromise(p: Policy, db: Db, c: Command, self: Id, now: Instant, first: nat, db': Db, r: Outcome<Reply>)
    requires c.Accept?
  {
    if KeyR(c.user, c.key) in db.rows then KeyAnswers(db, c.user, c.key, c.digest, db', r)
    else match AcceptRefusal(p, db, c, self, now)
      case Some(e) => Refuses(e, db, db', r)
      case None =>
        var row := db.rows[RequestR(c.request)];
        var reply := Reply(200, Settled(c.request, self, row.amount, BalanceOf(db, c.user) - row.amount));
        var paid := PaymentMade(db, SettlementTransfer(c, self, now, row), first);
        r == Ok(reply)
        && db' == WithKey(Put(paid, RequestR(c.request), row.(state := ACCEPTED, settled := Some(self))),
                          c.user, c.key, c.digest, reply)
  }

  predicate CreateRequestPromise(p: Policy, db: Db, c: Command, self: Id, db': Db, r: Outcome<Reply>)
    requires c.CreateRequest?
  {
    if c.amount < p.minTransfer then Refuses(Validation, db, db', r)
    else if c.amount > p.maxTransfer then Refuses(LimitExceeded, db, db', r)
    else if KeyR(c.user, c.key) in db.rows then KeyAnswers(db, c.user, c.key, c.digest, db', r)
    else if c.payer.None? then Refuses(NotFound, db, db', r)
    else if c.payer.value == c.user then Refuses(Validation, db, db', r)
    else
      var row := Request(c.user, c.payer.value, c.amount, c.expires, RequestStatus.PENDING, None);
      var reply := Reply(201, Created(self));
      r == Ok(reply) && db' == WithKey(Put(db, RequestR(RequestId(self, 0)), row), c.user, c.key, c.digest, reply)
  }

  // The payer may decline and the requester may cancel, while it is pending; doing it again is fine.
  predicate TerminatePromise(db: Db, c: Command, db': Db, r: Outcome<Reply>)
    requires c.Terminate?
  {
    var row := Lookup(db, RequestR(c.request));
    if row.None? || !row.value.Request? then Refuses(NotFound, db, db', r)
    else if c.to == DECLINED && row.value.payer != c.actor then Refuses(NotFound, db, db', r)
    else if c.to == RequestStatus.CANCELLED && row.value.requester != c.actor then Refuses(NotFound, db, db', r)
    else if c.to != DECLINED && c.to != RequestStatus.CANCELLED then Refuses(Validation, db, db', r)
    else if row.value.state == RequestStatus.PENDING then
      Writes(Reply(200, Done), db, RequestR(c.request), row.value.(state := c.to), db', r)
    else if row.value.state == c.to then Agrees(Reply(200, Done), db, db', r)
    else Refuses(InvalidState, db, db', r)
  }

  // Pending, and past its time.
  predicate PastItsTime(row: Option<Row>, now: Instant) {
    row.Some? && row.value.Request? && row.value.state == RequestStatus.PENDING && row.value.expires <= now
  }

  // Of the batch exactly the requests past their time expire.
  ghost predicate ExpirePromise(db: Db, c: Command, now: Instant, db': Db, r: Outcome<Reply>)
    requires c.ExpireDue?
  {
    && r == Ok(Reply(200, Done)) && db'.log == db.log && db'.entries == db.entries
    && (forall x :: Lookup(db', x) ==
          if x.RequestR? && x.request in c.requests && PastItsTime(Lookup(db, x), now)
          then Some(db.rows[x].(state := EXPIRED)) else Lookup(db, x))
  }

  // ---------------------------------------------------------------- split bills

  // The first participant who cannot be asked.
  predicate FirstUnaskable(payers: seq<Option<Id>>, user: Id, i: nat) {
    && i < |payers| && (payers[i].None? || payers[i].value == user)
    && (forall j :: 0 <= j < i ==> payers[j].Some? && payers[j].value != user)
  }

  // Unknown, or the creator.
  function WhyUnaskable(payer: Option<Id>): Error {
    if payer.None? then NotFound else Validation
  }

  // The split, a pending request for everybody else's share, and the key are new; nothing else changes.
  ghost predicate SplitMade(db: Db, c: Command, self: Id, reply: Reply, db': Db)
    requires c.CreateSplit?
  {
    var asked := LegShares(c);
    && db'.log == db.log && db'.entries == db.entries
    && Lookup(db', SplitR(self)) == Some(Split(c.user, c.total, |asked|))
    && Lookup(db', KeyR(c.user, c.key)) == Some(Key(c.digest, Some(reply)))
    && (forall i: nat :: i < |asked| ==>
          i < |c.payers| && c.payers[i].Some?
          && Lookup(db', RequestR(RequestId(self, i)))
             == Some(Request(c.user, c.payers[i].value, asked[i], c.expires, RequestStatus.PENDING, None)))
    && (forall x :: x != SplitR(self) && x != KeyR(c.user, c.key)
                    && !(x.RequestR? && x.request.creator == self && x.request.leg < |asked|) ==>
          Lookup(db', x) == Lookup(db, x))
  }

  ghost predicate CreateSplitPromise(p: Policy, db: Db, c: Command, self: Id, db': Db, r: Outcome<Reply>)
    requires c.CreateSplit?
  {
    if Sum(c.shares) != c.total then Refuses(Internal, db, db', r)
    else if exists i :: 0 <= i < |LegShares(c)| && LegShares(c)[i] < p.minTransfer then Refuses(Validation, db, db', r)
    else if |LegShares(c)| != |c.payers| then Refuses(Internal, db, db', r)
    else if KeyR(c.user, c.key) in db.rows then KeyAnswers(db, c.user, c.key, c.digest, db', r)
    else if exists i: nat :: FirstUnaskable(c.payers, c.user, i) then
      exists i: nat :: FirstUnaskable(c.payers, c.user, i) && Refuses(WhyUnaskable(c.payers[i]), db, db', r)
    else r == Ok(Reply(201, Created(self))) && SplitMade(db, c, self, Reply(201, Created(self)), db')
  }

  // ---------------------------------------------------------------- reversals

  // The same amount the other way.
  function ReversalTransfer(c: Command, self: Id, now: Instant, original: Transfer): Transfer
    requires c.Reverse?
  {
    Transfer(self, original.to, original.from, original.amount, REVERSAL, Some(KeyId(c.user, c.key)), Some(original.id), now)
  }

  // Only its sender may undo a payment, once, and within the window.
  function ReversalRefusal(p: Policy, db: Db, c: Command, self: Id, now: Instant): Option<Error>
    requires c.Reverse?
  {
    var found := FindTransfer(db.log, c.original);
    if found.None? || found.value.from != c.user then Some(NotFound)
    else if found.value.kind == MINT || found.value.kind == REVERSAL then Some(InvalidState)
    else if Lookup(db, TransferR(found.value.id)) != Some(TransferStatus(false)) then Some(InvalidState)
    else if c.clockMs - found.value.createdAt / 1000 > p.reversalWindow * 1000 then Some(InvalidState)
    else PaymentRefusal(db, ReversalTransfer(c, self, now, found.value))
  }

  predicate ReversePromise(p: Policy, db: Db, c: Command, self: Id, now: Instant, first: nat, db': Db, r: Outcome<Reply>)
    requires c.Reverse?
  {
    if KeyR(c.user, c.key) in db.rows then KeyAnswers(db, c.user, c.key, c.digest, db', r)
    else match ReversalRefusal(p, db, c, self, now)
      case Some(e) => Refuses(e, db, db', r)
      case None =>
        var original := FindTransfer(db.log, c.original).value;
        var reply := Reply(201, Undone(self, original.id, original.amount, BalanceOf(db, c.user) + original.amount));
        var paid := PaymentMade(db, ReversalTransfer(c, self, now, original), first);
        r == Ok(reply)
        && db' == WithKey(Put(paid, TransferR(original.id), TransferStatus(true)), c.user, c.key, c.digest, reply)
  }

  // ---------------------------------------------------------------- accounts

  function NewAccount(db: Db, self: Id): Db {
    Put(db, AccountR(self), Account(false, AccountStatus.ACTIVE, 0, 0))
  }

  function BonusTransfer(p: Policy, c: Command, self: Id, now: Instant): Transfer
    requires c.Register?
  {
    Transfer(self, c.stripe, self, p.signupBonus, MINT, None, None, now)
  }

  // A new account and its bonus, or neither.
  predicate RegisterPromise(p: Policy, db: Db, c: Command, self: Id, now: Instant, first: nat, db': Db, r: Outcome<Reply>)
    requires c.Register?
  {
    match PaymentRefusal(NewAccount(db, self), BonusTransfer(p, c, self, now))
    case Some(e) => Refuses(e, db, db', r)
    case None =>
      r == Ok(Reply(201, Created(self)))
      && db' == PaymentMade(NewAccount(db, self), BonusTransfer(p, c, self, now), first)
  }

  // Freezing and unfreezing: the owner's does nothing when it is so already, the operator's always writes.
  predicate SetStatusPromise(db: Db, c: Command, db': Db, r: Outcome<Reply>)
    requires c.SetStatus?
  {
    var row := Lookup(db, AccountR(c.account));
    if c.target == CLOSED then Refuses(Validation, db, db', r)
    else if row.None? || !row.value.Account? then Refuses(NotFound, db, db', r)
    else if row.value.status == CLOSED then Refuses(InvalidState, db, db', r)
    else if c.own && row.value.status == c.target then Agrees(Reply(200, Done), db, db', r)
    else
      var after := Account(row.value.system, c.target, row.value.balance, row.value.version + 1);
      Writes(Reply(200, Done), db, AccountR(c.account), after, db', r)
  }

  // ---------------------------------------------------------------- schedules

  // A one-off has one run; any other schedule has the runs that were asked for.
  function RunsOrdered(c: Command): Option<nat>
    requires c.CreateSchedule?
  {
    if c.every == ONCE then Some(1) else c.runs
  }

  function OrderedSchedule(c: Command): Row
    requires c.CreateSchedule? && c.payee.Some?
  {
    Schedule(c.user, c.payee.value, c.amount, c.every, c.startAt, RunsOrdered(c), ScheduleStatus.ACTIVE, None, RunsOrdered(c))
  }

  predicate CreateSchedulePromise(p: Policy, db: Db, c: Command, self: Id, db': Db, r: Outcome<Reply>)
    requires c.CreateSchedule?
  {
    if c.runs.Some? && c.runs.value < 1 then Refuses(Validation, db, db', r)
    else if c.amount < p.minTransfer then Refuses(Validation, db, db', r)
    else if c.amount > p.maxTransfer then Refuses(LimitExceeded, db, db', r)
    else if (c.startAt / 1000) as int < c.clockMs then Refuses(Validation, db, db', r)
    else if KeyR(c.user, c.key) in db.rows then KeyAnswers(db, c.user, c.key, c.digest, db', r)
    else if c.payee.None? then Refuses(NotFound, db, db', r)
    else if c.payee.value == c.user then Refuses(SelfTransfer, db, db', r)
    else
      var reply := Reply(201, Created(self));
      r == Ok(reply) && db' == WithKey(Put(db, ScheduleR(self), OrderedSchedule(c)), c.user, c.key, c.digest, reply)
  }

  // Pause what is active, resume what is paused, cancel either.
  predicate CanBecome(from: ScheduleStatus, to: ScheduleStatus) {
    || (from == ScheduleStatus.ACTIVE && to == PAUSED)
    || (from == PAUSED && to == ScheduleStatus.ACTIVE)
    || ((from == ScheduleStatus.ACTIVE || from == PAUSED) && to == ScheduleStatus.CANCELLED)
  }

  // Resuming starts again from now at the earliest, without a backoff.
  function Transitioned(row: Row, to: ScheduleStatus, now: Instant): Row
    requires row.Schedule?
  {
    if to == ScheduleStatus.ACTIVE then
      row.(phase := ScheduleStatus.ACTIVE, next := if row.next < now then now else row.next, retryAfter := None)
    else row.(phase := to)
  }

  predicate TransitionPromise(db: Db, c: Command, now: Instant, db': Db, r: Outcome<Reply>)
    requires c.Transition?
  {
    var row := Lookup(db, ScheduleR(c.schedule));
    if c.phase == ScheduleStatus.COMPLETED then Refuses(Validation, db, db', r)
    else if row.None? || !row.value.Schedule? || row.value.from != c.user then Refuses(NotFound, db, db', r)
    else if CanBecome(row.value.phase, c.phase) then
      Writes(Reply(200, Done), db, ScheduleR(c.schedule), Transitioned(row.value, c.phase, now), db', r)
    else if row.value.phase == c.phase then Agrees(Reply(200, Done), db, db', r)
    else Refuses(InvalidState, db, db', r)
  }

  // The operator's nudge: due since a second ago.
  predicate NudgePromise(db: Db, c: Command, now: Instant, db': Db, r: Outcome<Reply>)
    requires c.BringForward?
  {
    var row := Lookup(db, ScheduleR(c.schedule));
    if row.None? || !row.value.Schedule? || row.value.phase != ScheduleStatus.ACTIVE then Refuses(NotFound, db, db', r)
    else
      var after := row.value.(next := if now < SECOND then 0 else now - SECOND, retryAfter := None);
      Writes(Reply(200, Done), db, ScheduleR(c.schedule), after, db', r)
  }

  // ---------------------------------------------------------------- the scheduler

  predicate Claimable(row: Option<Row>, now: Instant) {
    && row.Some? && row.value.Schedule? && row.value.phase == ScheduleStatus.ACTIVE && row.value.next <= now
    && (row.value.retryAfter.None? || row.value.retryAfter.value <= now)
  }

  // On to the next occurrence; a run that was paid is one of those ordered.
  function Onward(row: Row, paid: bool): Row
    requires row.Schedule?
  {
    if row.every == ONCE then row.(remaining := Some(0), phase := ScheduleStatus.COMPLETED, retryAfter := None)
    else
      var left := if paid && row.remaining.Some? && row.remaining.value > 0 then Some((row.remaining.value - 1) as nat)
                  else row.remaining;
      row.(next := NextRun(row.every, row.next), remaining := left, retryAfter := None,
           phase := if left == Some(0) then ScheduleStatus.COMPLETED else row.phase)
  }

  // The number of this attempt at the occurrence, unless it is settled.
  function AttemptAt(db: Db, id: Id, due: Instant): Option<nat> {
    var o := Lookup(db, OccurrenceR(id, due));
    if o.None? then Some(1)
    else if o.value.Occurrence? && o.value.outcome == OccurrenceStatus.PENDING then Some(o.value.attempts + 1)
    else None
  }

  function RunTransfer(self: Id, now: Instant, row: Row): Transfer
    requires row.Schedule?
  {
    Transfer(self, row.from, row.to, row.pays, SCHEDULED, None, None, now)
  }

  function RunRefusal(p: Policy, db: Db, self: Id, now: Instant, row: Row): Option<Error>
    requires row.Schedule?
  {
    if OutboundSince(db.rows, db.log, row.from, now as int - DAY) + row.pays > p.dailyLimit then Some(LimitExceeded)
    else PaymentRefusal(db, RunTransfer(self, now, row))
  }

  // Too little money and the cap may pass; they are tried again until the attempts run out.
  predicate TriesAgain(p: Policy, e: Error, attempts: nat) {
    (e == InsufficientFunds || e == LimitExceeded) && attempts < p.maxAttempts
  }

  // The wait after the n-th attempt: the base, and twice as long each time.
  function Backoff(p: Policy, n: nat): nat
    requires n >= 1
  {
    if n == 1 then p.retryBase * SECOND else 2 * Backoff(p, n - 1)
  }

  // A tick of one schedule.
  predicate RunPromise(p: Policy, db: Db, c: Command, self: Id, now: Instant, first: nat, db': Db, r: Outcome<Reply>)
    requires c.Run?
  {
    if !Claimable(Lookup(db, ScheduleR(c.schedule)), now) then Agrees(Reply(200, Ran(RunNotClaimed)), db, db', r)
    else
      var row := db.rows[ScheduleR(c.schedule)];
      match AttemptAt(db, c.schedule, row.next)
      case None => Writes(Reply(200, Ran(RunDuplicate)), db, ScheduleR(c.schedule), Onward(row, false), db', r)
      case Some(n) =>
        if c.clockMs - row.next / 1000 > p.graceMs then Settles(RunSkipped, SKIPPED, db, c.schedule, row, n, db', r)
        else match RunRefusal(p, db, self, now, row)
          case Some(e) =>
            if TriesAgain(p, e, n) then PutsOffBy(Backoff(p, n), db, c.schedule, row, n, now, db', r)
            else Settles(RunFailed, FAILED, db, c.schedule, row, n, db', r)
          case None =>
            var paid := PaymentMade(db, RunTransfer(self, now, row), first);
            r == Ok(Reply(200, Ran(RunPaid)))
            && db' == Put(Put(paid, OccurrenceR(c.schedule, row.next), Occurrence(PAID, n, Some(self))),
                          ScheduleR(c.schedule), Onward(row, true))
  }

  // The occurrence ends unpaid, and the schedule goes on.
  predicate Settles(outcome: RunOutcome, status: OccurrenceStatus, db: Db, id: Id, row: Row, n: nat, db': Db, r: Outcome<Reply>)
    requires row.Schedule?
  {
    && r == Ok(Reply(200, Ran(outcome)))
    && db' == Put(Put(db, OccurrenceR(id, row.next), Occurrence(status, n, None)), ScheduleR(id), Onward(row, false))
  }

  // The occurrence stays pending, and the schedule where it is, until then.
  predicate PutsOffBy(micros: nat, db: Db, id: Id, row: Row, n: nat, now: Instant, db': Db, r: Outcome<Reply>)
    requires row.Schedule?
  {
    && r == Ok(Reply(200, Ran(RunDeferred)))
    && db' == Put(Put(db, OccurrenceR(id, row.next), Occurrence(OccurrenceStatus.PENDING, n, None)), ScheduleR(id),
                  row.(retryAfter := Some(now + micros)))
  }

  // ---------------------------------------------------------------- all operations

  ghost predicate Promised(p: Policy, db: Db, c: Command, self: Id, now: Instant, first: nat, db': Db, r: Outcome<Reply>) {
    match c
    case Send(_, _, _, _, _) => SendPromise(p, db, c, self, now, first, db', r)
    case Accept(_, _, _, _) => AcceptPromise(p, db, c, self, now, first, db', r)
    case Reverse(_, _, _, _, _) => ReversePromise(p, db, c, self, now, first, db', r)
    case CreateRequest(_, _, _, _, _, _) => CreateRequestPromise(p, db, c, self, db', r)
    case CreateSplit(_, _, _, _, _, _, _, _) => CreateSplitPromise(p, db, c, self, db', r)
    case CreateSchedule(_, _, _, _, _, _, _, _, _) => CreateSchedulePromise(p, db, c, self, db', r)
    case Register(_) => RegisterPromise(p, db, c, self, now, first, db', r)
    case SetStatus(_, _, _) => SetStatusPromise(db, c, db', r)
    case Terminate(_, _, _) => TerminatePromise(db, c, db', r)
    case ExpireDue(_) => ExpirePromise(db, c, now, db', r)
    case Run(_, _) => RunPromise(p, db, c, self, now, first, db', r)
    case Transition(_, _, _) => TransitionPromise(db, c, now, db', r)
    case BringForward(_) => NudgePromise(db, c, now, db', r)
  }
}
