/**
 The transaction scripts of the services, one statement at a time.

 `Plan` says what a script does next, given the rows its locking statements have returned so far
 (`seen`) and the results of its plain SELECTs (`obs`).  Rows a script holds cannot change under
 it; plain SELECTs can be out of date as soon as they return.
 */
module Scripts {
  import opened Calendar
  import opened Store

  datatype Error =
    | Validation | NotFound | SelfTransfer | KeyReuse | RequestInProgress | RateLimited
    | LimitExceeded | AccountFrozen | InsufficientFunds | InvalidState | Internal

  // Configuration, fixed for a run.  `slot` is the hash behind the advisory lock key.
  datatype Policy = Policy(
    minTransfer: int, maxTransfer: int, dailyLimit: int, window: nat, maxTransfers: nat, reversalWindow: nat,
    graceMs: nat, maxAttempts: nat, retryBase: nat, signupBonus: int, slot: Id -> int)

  datatype Command =
    | Send(user: Id, key: nat, digest: nat, payee: Option<Id>, amount: int)
    | Accept(user: Id, key: nat, digest: nat, request: RequestId)
    | Reverse(user: Id, key: nat, digest: nat, original: Id, clockMs: int)
    | CreateRequest(user: Id, key: nat, digest: nat, payer: Option<Id>, amount: int, expires: Instant)
    | CreateSplit(user: Id, key: nat, digest: nat, total: int, shares: seq<int>, includeSelf: bool,
                  payers: seq<Option<Id>>, expires: Instant)
    | CreateSchedule(user: Id, key: nat, digest: nat, payee: Option<Id>, amount: int, every: Interval,
                     startAt: Instant, runs: Option<nat>, clockMs: int)
    | Register(stripe: Id)
    | SetStatus(account: Id, target: AccountStatus, own: bool)
    | Terminate(request: RequestId, actor: Id, to: RequestStatus)
    | ExpireDue(requests: seq<RequestId>)
    | Run(schedule: Id, clockMs: int)
    | Transition(schedule: Id, user: Id, phase: ScheduleStatus)
    | BringForward(schedule: Id)

  // Plain SELECTs, and the two things a script remembers that are not rows.
  datatype Query =
    | Velocity(account: Id, since: int)
    | Outbound(account: Id, since: int)
    | Original(transfer: Id)
    | Busy(resource: Resource)
    | PaymentRefused

  datatype Answer =
    | Count(n: nat)
    | Total(sum: int)
    | Loaded(found: Option<Transfer>, reversed: bool)
    | Yes
    | Because(error: Error)

  type Seen = map<Resource, Option<Row>>
  type Obs = map<Query, Answer>

  datatype Next =
    | Lock(row: Resource)        // SELECT ... FOR UPDATE, or an UPDATE of one row: waits for its holder
    | Insert(row: Resource)      // waits for an uncommitted rival with the same unique key
    | TryLock(row: Resource)     // FOR UPDATE SKIP LOCKED
    | Ask(query: Query)          // a plain SELECT on a fresh snapshot
    | RollbackTo(error: Error)   // ROLLBACK TO SAVEPOINT
    | Fail(error: Error)         // throw: the transaction rolls back
    | Commit(effect: Effect, reply: Reply)

  // ---------------------------------------------------------------- idempotency keys

  datatype Claim = Unclaimed | Claimed | Replay(reply: Reply) | Mismatch | InFlight

  function ClaimKey(user: Id, key: nat, digest: nat, seen: Seen): Claim {
    var k := KeyR(user, key);
    if k !in seen then Unclaimed
    else match seen[k]
      case None => Claimed
      case Some(Key(d, reply)) =>
        if d != digest then Mismatch
        else if reply.Some? then Replay(reply.value)
        else InFlight
      case Some(_) => InFlight
  }

  // What a script does while it does not hold its key.
  function BeforeWork(user: Id, key: nat, claim: Claim): Next
    requires !claim.Claimed?
  {
    match claim
    case Unclaimed => Insert(KeyR(user, key))
    case Replay(reply) => Commit(NO_EFFECT, reply)
    case Mismatch => Fail(KeyReuse)
    case InFlight => Fail(RequestInProgress)
  }

  function Completing(e: Effect, user: Id, key: nat, digest: nat, reply: Reply): Next {
    Commit(e.(writes := e.writes[KeyR(user, key) := Key(digest, Some(reply))]), reply)
  }

  // ---------------------------------------------------------------- the ledger primitive

  datatype Posting =
    | NeedRow(row: Resource)
    | Refused(error: Error)
    | Posted(transfer: Transfer, debited: Row, credited: Row)

  function IsAccount(seen: Seen, a: Id): bool
    requires AccountR(a) in seen
  {
    seen[AccountR(a)].Some? && seen[AccountR(a)].value.Account?
  }

  function PostDoubleEntry(t: Transfer, seen: Seen): Posting {
    var lo := if t.from < t.to then t.from else t.to;
    var hi := if t.from < t.to then t.to else t.from;
    if t.amount <= 0 then Refused(Validation)
    else if t.from == t.to then Refused(SelfTransfer)
    else if AccountR(lo) !in seen then NeedRow(AccountR(lo))
    else if !IsAccount(seen, lo) then Refused(NotFound)
    else if AccountR(hi) !in seen then NeedRow(AccountR(hi))
    else if !IsAccount(seen, hi) then Refused(NotFound)
    else CheckAndPost(t, seen[AccountR(t.from)].value, seen[AccountR(t.to)].value)
  }

  function CheckAndPost(t: Transfer, from: Row, to: Row): Posting
    requires from.Account? && to.Account?
  {
    if !from.status.ACTIVE? then Refused(AccountFrozen)
    else if to.status.CLOSED? then Refused(AccountFrozen)
    else if !from.system && from.balance < t.amount then Refused(InsufficientFunds)
    else Posted(t,
                from.(balance := from.balance - t.amount, version := from.version + 1),
                to.(balance := to.balance + t.amount, version := to.version + 1))
  }

  // The two balance updates, the transfer row, and its two entries.
  function Movement(p: Posting): Effect
    requires p.Posted? && p.debited.Account? && p.credited.Account?
  {
    var t := p.transfer;
    Effect(map[AccountR(t.from) := p.debited, AccountR(t.to) := p.credited, TransferR(t.id) := TransferStatus(false)],
           Some(t),
           [Leg(t.id, t.from, DEBIT, t.amount, p.debited.balance, t.createdAt),
            Leg(t.id, t.to, CREDIT, t.amount, p.credited.balance, t.createdAt)])
  }

  // ---------------------------------------------------------------- sending

  function PlanSend(p: Policy, c: Command, self: Id, start: Instant, seen: Seen, obs: Obs): Next
    requires c.Send?
  {
    var claim := ClaimKey(c.user, c.key, c.digest, seen);
    var recent := Velocity(c.user, start as int - p.window);
    var spent := Outbound(c.user, start as int - DAY);
    if c.amount < p.minTransfer then Fail(Validation)
    else if c.amount > p.maxTransfer then Fail(LimitExceeded)
    else if !claim.Claimed? then BeforeWork(c.user, c.key, claim)
    else if AdvisoryR(p.slot(c.user)) !in seen then Insert(AdvisoryR(p.slot(c.user)))
    else if recent !in obs then Ask(recent)
    else if !obs[recent].Count? || obs[recent].n >= p.maxTransfers then Fail(RateLimited)
    else if c.payee.None? then Fail(NotFound)
    else if c.payee.value == c.user then Fail(SelfTransfer)
    else if spent !in obs then Ask(spent)
    else if !obs[spent].Total? || obs[spent].sum + c.amount > p.dailyLimit then Fail(LimitExceeded)
    else
      var t := Transfer(self, c.user, c.payee.value, c.amount, P2P, Some(KeyId(c.user, c.key)), None, start);
      match PostDoubleEntry(t, seen)
      case NeedRow(r) => Lock(r)
      case Refused(e) => Fail(e)
      case Posted(t, debited, credited) =>
        Completing(Movement(Posted(t, debited, credited)), c.user, c.key, c.digest,
                   Reply(201, Receipt(self, c.amount, debited.balance)))
  }

  // ---------------------------------------------------------------- money requests

  function SettlementOf(c: Command, self: Id, start: Instant, row: Row): Transfer
    requires c.Accept? && row.Request?
  {
    Transfer(self, row.payer, row.requester, row.amount, REQUEST_SETTLEMENT, Some(KeyId(c.user, c.key)), None, start)
  }

  function PlanAccept(p: Policy, c: Command, self: Id, start: Instant, seen: Seen, obs: Obs): Next
    requires c.Accept?
  {
    var claim := ClaimKey(c.user, c.key, c.digest, seen);
    var spent := Outbound(c.user, start as int - DAY);
    var r := RequestR(c.request);
    if !claim.Claimed? then BeforeWork(c.user, c.key, claim)
    else if r !in seen then Lock(r)
    else if seen[r].None? || !seen[r].value.Request? || seen[r].value.payer != c.user then Fail(NotFound)
    else if !seen[r].value.state.PENDING? || seen[r].value.expires <= start then Fail(InvalidState)
    else if spent !in obs then Ask(spent)
    else if !obs[spent].Total? || obs[spent].sum + seen[r].value.amount > p.dailyLimit then Fail(LimitExceeded)
    else
      var row := seen[r].value;
      match PostDoubleEntry(SettlementOf(c, self, start, row), seen)
      case NeedRow(r) => Lock(r)
      case Refused(e) => Fail(e)
      case Posted(t, debited, credited) =>
        var e := Movement(Posted(t, debited, credited));
        Completing(e.(writes := e.writes[r := row.(state := ACCEPTED, settled := Some(self))]),
                   c.user, c.key, c.digest, Reply(200, Settled(c.request, self, row.amount, debited.balance)))
  }

  function PlanCreateRequest(p: Policy, c: Command, self: Id, seen: Seen): Next
    requires c.CreateRequest?
  {
    var claim := ClaimKey(c.user, c.key, c.digest, seen);
    if c.amount < p.minTransfer then Fail(Validation)
    else if c.amount > p.maxTransfer then Fail(LimitExceeded)
    else if !claim.Claimed? then BeforeWork(c.user, c.key, claim)
    else if c.payer.None? then Fail(NotFound)
    else if c.payer.value == c.user then Fail(Validation)
    else
      Completing(Effect(map[RequestR(RequestId(self, 0)) :=
                              Request(c.user, c.payer.value, c.amount, c.expires, RequestStatus.PENDING, None)], None, []),
                 c.user, c.key, c.digest, Reply(201, Created(self)))
  }

  // decline and cancel; asking again for the state it is already in succeeds and changes nothing
  function PlanTerminate(c: Command, seen: Seen): Next
    requires c.Terminate?
  {
    var r := RequestR(c.request);
    if r !in seen then Lock(r)
    else if seen[r].None? || !seen[r].value.Request? then Fail(NotFound)
    else
      var row := seen[r].value;
      var actor := if c.to.DECLINED? then row.payer else row.requester;
      if !c.to.DECLINED? && c.to != RequestStatus.CANCELLED then Fail(Validation)
      else if actor != c.actor then Fail(NotFound)
      else if row.state.PENDING? then Commit(Effect(map[r := row.(state := c.to)], None, []), Reply(200, Done))
      else if row.state == c.to then Commit(NO_EFFECT, Reply(200, Done))
      else Fail(InvalidState)
  }

  predicate Overdue(row: Option<Row>, start: Instant) {
    row.Some? && row.value.Request? && row.value.state.PENDING? && row.value.expires <= start
  }

  function Expired(seen: Seen, start: Instant): map<Resource, Row> {
    map r | r in seen && r.RequestR? && Overdue(seen[r], start) :: seen[r].value.(state := EXPIRED)
  }

  // One batch of the expiry worker; rows somebody else holds are skipped.
  function PlanExpire(c: Command, todo: seq<RequestId>, start: Instant, seen: Seen, obs: Obs): Next
    requires c.ExpireDue?
  {
    if |todo| == 0 then Commit(Effect(Expired(seen, start), None, []), Reply(200, Done))
    else if RequestR(todo[0]) in seen || Busy(RequestR(todo[0])) in obs then PlanExpire(c, todo[1..], start, seen, obs)
    else TryLock(RequestR(todo[0]))
  }

  // ---------------------------------------------------------------- split bills

  function Sum(xs: seq<int>): int {
    if |xs| == 0 then 0 else Sum(xs[..|xs| - 1]) + xs[|xs| - 1]
  }

  // The shares asked of other people; the creator's own share comes first when it is included.
  function LegShares(c: Command): seq<int>
    requires c.CreateSplit?
  {
    if c.includeSelf && |c.shares| > 0 then c.shares[1..] else c.shares
  }

  function SplitRows(c: Command, self: Id): map<Resource, Row>
    requires c.CreateSplit?
    requires |c.payers| == |LegShares(c)|
    requires forall i :: 0 <= i < |c.payers| ==> c.payers[i].Some?
  {
    (map i | 0 <= i < |c.payers| ::
       RequestR(RequestId(self, i)) :=
         Request(c.user, c.payers[i].value, LegShares(c)[i], c.expires, RequestStatus.PENDING, None))
    + map[SplitR(self) := Split(c.user, c.total, |c.payers|)]
  }

  // Participants are looked up in order, and the first who cannot be asked refuses the whole split.
  function Unpayable(payers: seq<Option<Id>>, creator: Id): (error: Option<Error>)
    ensures error.None? <==> forall i :: 0 <= i < |payers| ==> payers[i].Some? && payers[i].value != creator
  {
    if |payers| == 0 then None
    else if Unpayable(payers[..|payers| - 1], creator).Some? then Unpayable(payers[..|payers| - 1], creator)
    else if payers[|payers| - 1].None? then Some(NotFound)
    else if payers[|payers| - 1].value == creator then Some(Validation)
    else None
  }

  function PlanCreateSplit(p: Policy, c: Command, self: Id, seen: Seen): Next
    requires c.CreateSplit?
  {
    var claim := ClaimKey(c.user, c.key, c.digest, seen);
    var legs := LegShares(c);
    if Sum(c.shares) != c.total then Fail(Internal)
    else if exists i :: 0 <= i < |legs| && legs[i] < p.minTransfer then Fail(Validation)
    else if |legs| != |c.payers| then Fail(Internal)
    else if !claim.Claimed? then BeforeWork(c.user, c.key, claim)
    else if Unpayable(c.payers, c.user).Some? then Fail(Unpayable(c.payers, c.user).value)
    else Completing(Effect(SplitRows(c, self), None, []), c.user, c.key, c.digest, Reply(201, Created(self)))
  }

  // ---------------------------------------------------------------- reversals

  function PlanReverse(p: Policy, c: Command, self: Id, start: Instant, seen: Seen, obs: Obs): Next
    requires c.Reverse?
  {
    var claim := ClaimKey(c.user, c.key, c.digest, seen);
    var q := Original(c.original);
    if !claim.Claimed? then BeforeWork(c.user, c.key, claim)
    else if q !in obs then Ask(q)
    else if !obs[q].Loaded? || obs[q].found.None? || obs[q].found.value.from != c.user then Fail(NotFound)
    else
      var original := obs[q].found.value;
      var r := TransferR(original.id);
      if original.kind.MINT? || original.kind.REVERSAL? then Fail(InvalidState)
      else if obs[q].reversed then Fail(InvalidState)
      else if c.clockMs - original.createdAt / 1000 > p.reversalWindow * 1000 then Fail(InvalidState)
      else if r !in seen then Lock(r)
      else if seen[r] != Some(TransferStatus(false)) then Fail(InvalidState)
      else
        var t := Transfer(self, original.to, original.from, original.amount, REVERSAL,
                          Some(KeyId(c.user, c.key)), Some(original.id), start);
        match PostDoubleEntry(t, seen)
        case NeedRow(row) => Lock(row)
        case Refused(e) => Fail(e)
        case Posted(t, debited, credited) =>
          var e := Movement(Posted(t, debited, credited));
          Completing(e.(writes := e.writes[r := TransferStatus(true)]), c.user, c.key, c.digest,
                     Reply(201, Undone(self, original.id, original.amount, credited.balance)))
  }

  // ---------------------------------------------------------------- registration and freezing

  const FRESH_ACCOUNT := Account(false, AccountStatus.ACTIVE, 0, 0)

  // The account row is inserted by this transaction, so its own FOR UPDATE returns it at once.
  function PlanRegister(p: Policy, c: Command, self: Id, start: Instant, seen: Seen): Next
    requires c.Register?
  {
    var t := Transfer(self, c.stripe, self, p.signupBonus, MINT, None, None, start);
    match PostDoubleEntry(t, seen[AccountR(self) := Some(FRESH_ACCOUNT)])
    case NeedRow(r) => Lock(r)
    case Refused(e) => Fail(e)
    case Posted(t, debited, credited) => Commit(Movement(Posted(t, debited, credited)), Reply(201, Created(self)))
  }

  // `own` is the owner's kill switch, which does nothing when the account already is in the target
  // state; the operator's version always writes.
  function PlanSetStatus(c: Command, seen: Seen): Next
    requires c.SetStatus?
  {
    var r := AccountR(c.account);
    if c.target.CLOSED? then Fail(Validation)
    else if r !in seen then Lock(r)
    else if !IsAccount(seen, c.account) then Fail(NotFound)
    else
      var row := seen[r].value;
      if row.status.CLOSED? then Fail(InvalidState)
      else if c.own && row.status == c.target then Commit(NO_EFFECT, Reply(200, Done))
      else Commit(Effect(map[r := row.(status := c.target, version := row.version + 1)], None, []), Reply(200, Done))
  }

  // ---------------------------------------------------------------- schedules

  function PlanCreateSchedule(p: Policy, c: Command, self: Id, seen: Seen): Next
    requires c.CreateSchedule?
  {
    var claim := ClaimKey(c.user, c.key, c.digest, seen);
    var runs := if c.every == ONCE then Some(1) else c.runs;
    if c.runs.Some? && c.runs.value < 1 then Fail(Validation)
    else if c.amount < p.minTransfer then Fail(Validation)
    else if c.amount > p.maxTransfer then Fail(LimitExceeded)
    else if (c.startAt / 1000) as int < c.clockMs then Fail(Validation)
    else if !claim.Claimed? then BeforeWork(c.user, c.key, claim)
    else if c.payee.None? then Fail(NotFound)
    else if c.payee.value == c.user then Fail(SelfTransfer)
    else
      Completing(Effect(map[ScheduleR(self) :=
                              Schedule(c.user, c.payee.value, c.amount, c.every, c.startAt, runs,
                                       ScheduleStatus.ACTIVE, None, runs)], None, []),
                 c.user, c.key, c.digest, Reply(201, Created(self)))
  }

  // The WHERE clause of the claim: active, due, and not backing off.
  predicate IsDue(row: Option<Row>, now: Instant) {
    row.Some? && row.value.Schedule? && row.value.phase.ACTIVE? && row.value.next <= now
    && (row.value.retryAfter.Some? ==> row.value.retryAfter.value <= now)
  }

  // Move a schedule on to its next occurrence.
  function AdvanceSchedule(row: Row, consumeRun: bool): Row
    requires row.Schedule?
  {
    if row.every == ONCE then
      row.(phase := ScheduleStatus.COMPLETED, remaining := Some(0), retryAfter := None)
    else
      var left := if row.remaining.None? then 1
                  else if consumeRun then row.remaining.value as int - 1
                  else row.remaining.value;
      row.(remaining := if row.remaining.None? then None else Some(if left < 0 then 0 else left),
           next := NextRun(row.every, row.next),
           retryAfter := None,
           phase := if left <= 0 then ScheduleStatus.COMPLETED else row.phase)
  }

  function Power2(n: nat): nat {
    if n == 0 then 1 else 2 * Power2(n - 1)
  }

  predicate Retryable(e: Error) {
    e.InsufficientFunds? || e.LimitExceeded?
  }

  function RunReply(outcome: RunOutcome): Reply {
    Reply(200, Ran(outcome))
  }

  // A claimed occurrence: None when it is already settled, else the number of this attempt.
  function Attempt(occurrence: Option<Row>): Option<nat> {
    match occurrence
    case None => Some(1)
    case Some(Occurrence(outcome, attempts, _)) => if outcome.PENDING? then Some(attempts + 1) else None
    case Some(_) => None
  }

  // Settle the occurrence and move the schedule on, or leave it pending and back off.
  function AfterRefusal(p: Policy, c: Command, start: Instant, row: Row, attempts: nat, e: Error): Next
    requires c.Run? && row.Schedule? && attempts >= 1
  {
    var s := ScheduleR(c.schedule);
    var o := OccurrenceR(c.schedule, row.next);
    if Retryable(e) && attempts < p.maxAttempts then
      var delay := p.retryBase * Power2(attempts - 1) * SECOND;
      Commit(Effect(map[o := Occurrence(OccurrenceStatus.PENDING, attempts, None),
                        s := row.(retryAfter := Some(start + delay))], None, []), RunReply(RunDeferred))
    else
      Commit(Effect(map[o := Occurrence(FAILED, attempts, None), s := AdvanceSchedule(row, false)], None, []),
             RunReply(RunFailed))
  }

  function PlanPayment(p: Policy, c: Command, self: Id, start: Instant, row: Row, attempts: nat, seen: Seen, obs: Obs): Next
    requires c.Run? && row.Schedule?
  {
    var spent := Outbound(row.from, start as int - DAY);
    if spent !in obs then Ask(spent)
    else if !obs[spent].Total? || obs[spent].sum + row.pays > p.dailyLimit then RollbackTo(LimitExceeded)
    else
      var t := Transfer(self, row.from, row.to, row.pays, SCHEDULED, None, None, start);
      match PostDoubleEntry(t, seen)
      case NeedRow(r) => Lock(r)
      case Refused(e) => RollbackTo(e)
      case Posted(t, debited, credited) =>
        var e := Movement(Posted(t, debited, credited));
        Commit(e.(writes := e.writes[OccurrenceR(c.schedule, row.next) := Occurrence(PAID, attempts, Some(self))]
                                    [ScheduleR(c.schedule) := AdvanceSchedule(row, true)]), RunReply(RunPaid))
  }

  function PlanRun(p: Policy, c: Command, self: Id, start: Instant, seen: Seen, obs: Obs): Next
    requires c.Run?
  {
    var s := ScheduleR(c.schedule);
    if Busy(s) in obs then Commit(NO_EFFECT, RunReply(RunNotClaimed))
    else if s !in seen then TryLock(s)
    else if !IsDue(seen[s], start) then Commit(NO_EFFECT, RunReply(RunNotClaimed))
    else
      var row := seen[s].value;
      var o := OccurrenceR(c.schedule, row.next);
      if o !in seen then Insert(o)
      else match Attempt(seen[o])
        case None => Commit(Effect(map[s := AdvanceSchedule(row, false)], None, []), RunReply(RunDuplicate))
        case Some(attempts) =>
          if c.clockMs - row.next / 1000 > p.graceMs then
            Commit(Effect(map[o := Occurrence(SKIPPED, attempts, None), s := AdvanceSchedule(row, false)], None, []),
                   RunReply(RunSkipped))
          else if PaymentRefused in obs && obs[PaymentRefused].Because? then
            AfterRefusal(p, c, start, row, attempts, obs[PaymentRefused].error)
          else PlanPayment(p, c, self, start, row, attempts, seen, obs)
  }

  predicate LegalFrom(to: ScheduleStatus, from: ScheduleStatus) {
    match to
    case PAUSED => from.ACTIVE?
    case ACTIVE => from.PAUSED?
    case CANCELLED => from.ACTIVE? || from.PAUSED?
    case COMPLETED => false
  }

  function PlanTransition(c: Command, start: Instant, seen: Seen): Next
    requires c.Transition?
  {
    var s := ScheduleR(c.schedule);
    if c.phase.COMPLETED? then Fail(Validation)
    else if s !in seen then Lock(s)
    else if seen[s].None? || !seen[s].value.Schedule? || seen[s].value.from != c.user then Fail(NotFound)
    else
      var row := seen[s].value;
      if LegalFrom(c.phase, row.phase) then
        Commit(Effect(map[s := row.(phase := c.phase,
                                    next := if c.phase.ACTIVE? && row.next < start then start else row.next,
                                    retryAfter := if c.phase.ACTIVE? then None else row.retryAfter)], None, []),
               Reply(200, Done))
      else if row.phase == c.phase then Commit(NO_EFFECT, Reply(200, Done))
      else Fail(InvalidState)
  }

  // The operator's "make it due now".
  function PlanBringForward(c: Command, start: Instant, seen: Seen): Next
    requires c.BringForward?
  {
    var s := ScheduleR(c.schedule);
    if s !in seen then Lock(s)
    else if seen[s].None? || !seen[s].value.Schedule? || !seen[s].value.phase.ACTIVE? then Fail(NotFound)
    else
      Commit(Effect(map[s := seen[s].value.(next := if start >= SECOND then start - SECOND else 0, retryAfter := None)],
                    None, []), Reply(200, Done))
  }

  // ---------------------------------------------------------------- all scripts

  function Plan(p: Policy, c: Command, self: Id, start: Instant, seen: Seen, obs: Obs): Next {
    match c
    case Send(_, _, _, _, _) => PlanSend(p, c, self, start, seen, obs)
    case Accept(_, _, _, _) => PlanAccept(p, c, self, start, seen, obs)
    case Reverse(_, _, _, _, _) => PlanReverse(p, c, self, start, seen, obs)
    case CreateRequest(_, _, _, _, _, _) => PlanCreateRequest(p, c, self, seen)
    case CreateSplit(_, _, _, _, _, _, _, _) => PlanCreateSplit(p, c, self, seen)
    case CreateSchedule(_, _, _, _, _, _, _, _, _) => PlanCreateSchedule(p, c, self, seen)
    case Register(_) => PlanRegister(p, c, self, start, seen)
    case SetStatus(_, _, _) => PlanSetStatus(c, seen)
    case Terminate(_, _, _) => PlanTerminate(c, seen)
    case ExpireDue(_) => PlanExpire(c, c.requests, start, seen, obs)
    case Run(_, _) => PlanRun(p, c, self, start, seen, obs)
    case Transition(_, _, _) => PlanTransition(c, start, seen)
    case BringForward(_) => PlanBringForward(c, start, seen)
  }
}
