/**
 The rows that money paths read and write, as one committed database value.

 Ids of rows created by a transaction are named by that transaction (`gen_random_uuid()` never
 repeats), so a fresh id is a fresh transaction id.  A user and the user's only account share an
 id, because `accounts.user_id` is unique and never changes; treasury stripes have ids of their own.
 */
module Store {
  import opened Calendar

  datatype Option<+T> = None | Some(value: T)

  type Id = nat

  datatype Resource =
    | KeyR(user: Id, key: nat)
    | AdvisoryR(slot: int)
    | RequestR(request: RequestId)
    | TransferR(transfer: Id)
    | ScheduleR(schedule: Id)
    | SplitR(split: Id)
    | OccurrenceR(of: Id, due: Instant)
    | AccountR(account: Id)

  // One transaction can create several money requests (the legs of a split bill).
  datatype RequestId = RequestId(creator: Id, leg: nat)

  datatype AccountStatus = ACTIVE | FROZEN | CLOSED
  datatype RequestStatus = PENDING | ACCEPTED | DECLINED | CANCELLED | EXPIRED
  datatype ScheduleStatus = ACTIVE | PAUSED | COMPLETED | CANCELLED
  datatype OccurrenceStatus = PENDING | PAID | FAILED | SKIPPED
  datatype TransferKind = P2P | MINT | REQUEST_SETTLEMENT | REVERSAL | SCHEDULED

  datatype Row =
    | Account(system: bool, status: AccountStatus, balance: int, version: nat)
      // `reply` is None exactly while the key is IN_PROGRESS
    | Key(digest: nat, reply: Option<Reply>)
    | TransferStatus(reversed: bool)
    | Request(requester: Id, payer: Id, amount: int, expires: Instant, state: RequestStatus, settled: Option<Id>)
    | Split(owner: Id, total: int, legs: nat)
      // `ordered` is the number of runs asked for at creation, kept for stating run accounting
    | Schedule(from: Id, to: Id, pays: int, every: Interval, next: Instant, remaining: Option<nat>,
               phase: ScheduleStatus, retryAfter: Option<Instant>, ordered: Option<nat>)
    | Occurrence(outcome: OccurrenceStatus, attempts: nat, transfer: Option<Id>)

  datatype Reply = Reply(status: nat, body: Body)

  datatype Body =
    | Receipt(transfer: Id, amount: int, balance: int)
    | Settled(request: RequestId, transfer: Id, amount: int, balance: int)
    | Undone(reversal: Id, original: Id, amount: int, balance: int)
    | Created(id: Id)
    | Done
    | Ran(outcome: RunOutcome)

  datatype RunOutcome = RunPaid | RunFailed | RunDeferred | RunSkipped | RunDuplicate | RunNotClaimed

  datatype KeyId = KeyId(user: Id, key: nat)

  // The columns of `transfers` that never change; the status is a row of its own.
  datatype Transfer = Transfer(id: Id, from: Id, to: Id, amount: int, kind: TransferKind,
                               key: Option<KeyId>, reversalOf: Option<Id>, createdAt: Instant)

  datatype Direction = DEBIT | CREDIT

  // A ledger entry before the identity column numbers it.
  datatype Leg = Leg(transfer: Id, account: Id, direction: Direction, amount: int, balanceAfter: int,
                     createdAt: Instant)
  {
    function Signed(): int {
      if direction == CREDIT then amount else -amount
    }
  }

  datatype Entry = Entry(id: nat, leg: Leg)

  // `log` lists committed transfers and `entries` committed ledger entries, in commit order.
  datatype Db = Db(rows: map<Resource, Row>, log: seq<Transfer>, entries: seq<Entry>)

  // Everything one committing transaction changes.
  datatype Effect = Effect(writes: map<Resource, Row>, moved: Option<Transfer>, legs: seq<Leg>)

  const NO_EFFECT := Effect(map[], None, [])

  function Lookup(db: Db, r: Resource): Option<Row> {
    if r in db.rows then Some(db.rows[r]) else None
  }

  function Number(legs: seq<Leg>, first: nat): seq<Entry> {
    seq(|legs|, i requires 0 <= i < |legs| => Entry(first + i, legs[i]))
  }

  function Apply(db: Db, e: Effect, first: nat): Db {
    Db(db.rows + e.writes,
       db.log + (if e.moved.Some? then [e.moved.value] else []),
       db.entries + Number(e.legs, first))
  }

  // `status = 'COMPLETED'`
  predicate Completed(rows: map<Resource, Row>, t: Transfer) {
    TransferR(t.id) in rows && rows[TransferR(t.id)] == TransferStatus(false)
  }

  // count(*) of person-initiated transfers out of `account` since an instant
  function SentSince(log: seq<Transfer>, account: Id, since: int): nat {
    if |log| == 0 then 0
    else
      var t := log[|log| - 1];
      SentSince(log[..|log| - 1], account, since)
      + if t.from == account && (t.kind == P2P || t.kind == REQUEST_SETTLEMENT) && t.createdAt >= since then 1 else 0
  }

  // sum(amount_minor) of completed outbound transfers of `account` since an instant
  function OutboundSince(rows: map<Resource, Row>, log: seq<Transfer>, account: Id, since: int): int {
    if |log| == 0 then 0
    else
      var t := log[|log| - 1];
      OutboundSince(rows, log[..|log| - 1], account, since)
      + if t.from == account && (t.kind == P2P || t.kind == REQUEST_SETTLEMENT || t.kind == SCHEDULED)
           && Completed(rows, t) && t.createdAt >= since
        then t.amount else 0
  }

  // A transfer found by its reference, with its status.
  function FindTransfer(log: seq<Transfer>, id: Id): Option<Transfer> {
    if |log| == 0 then None
    else if log[|log| - 1].id == id then Some(log[|log| - 1])
    else FindTransfer(log[..|log| - 1], id)
  }
}
