/**
 The services as they are written: scripts of statements that update the tables in place, inside one
 transaction that is committed or rolled back.  Each call does what its operation promises, and leaves
 exactly what its verdict says, which ties the statements to the atomic steps of the machine.
 */
module Services {
  import opened Calendar
  import opened Store
  import opened Scripts
  import opened Engine
  import opened Serializability
  import opened Alone
  import opened Ranking
  import opened Promises
  import opened Verdicts
  import opened Outcomes

  class Session {
    const p: Policy
    var db: Db                   // the committed tables
    var replies: seq<Exchange>   // the replies of committed calls
    var nextTx: Id
    var nextEntry: nat
    var work: Db                 // the open transaction's view of the tables, its own writes included

    ghost predicate Valid()
      reads this
    {
      Issued(db, nextTx, nextEntry)
    }

    constructor (p: Policy)
      ensures Valid() && this.p == p && db == Genesis() && replies == [] && nextTx == STRIPES + 1
    {
      this.p := p;
      db, work, replies, nextTx, nextEntry := Genesis(), Genesis(), [], STRIPES + 1, 1;
    }

    // ---------------------------------------------------------------- the transaction boundary

    method Begin() returns (self: Id)
      modifies this`work, this`nextTx
      ensures work == db && self == old(nextTx) && nextTx == old(nextTx) + 1
    {
      work := db;
      self := nextTx;
      nextTx := nextTx + 1;
    }

    method Finish(c: Command, self: Id, now: Instant, ghost first: nat, r: Outcome<Reply>)
      requires Issued(db, self, first) && nextTx == self + 1
      requires Scripted(Verdict(p, db, c, self, now), db, first, work, nextEntry, r)
      modifies this`db, this`work, this`replies
      ensures Valid() && Ends(Verdict(p, old(db), c, self, now), old(db), first, db, r)
      ensures replies == if r.Ok? then old(replies) + [Exchange(c, r.value)] else old(replies)
    {
      if r.Ok? {
        CommitStaysIssued(p, db, c, self, now, first);
        db, replies := work, replies + [Exchange(c, r.value)];
      } else {
        work := db;
      }
    }

    // ---------------------------------------------------------------- the ledger

    method LockAccount(a: Id) returns (row: Option<Row>)
      ensures row.Some? <==> IsAccountRow(work, a)
      ensures row.Some? ==> row.value == work.rows[AccountR(a)]
    {
      row := Lookup(work, AccountR(a));
      if row.Some? && !row.value.Account? {
        row := None;
      }
    }

    method LockAccountPair(from: Id, to: Id) returns (r: Outcome<Pair>)
      ensures r.Ok? <==> from != to && IsAccountRow(work, from) && IsAccountRow(work, to)
      ensures r.Ok? ==> r.value == Pair(work.rows[AccountR(from)], work.rows[AccountR(to)])
      ensures r.Err? ==> r.error == if from == to then SelfTransfer else NotFound
    {
      if from == to {
        return Err(SelfTransfer);
      }
      var firstId, secondId := from, to;
      if to < from {
        firstId, secondId := to, from;
      }
      var first := LockAccount(firstId);
      if first.None? {
        return Err(NotFound);
      }
      var second := LockAccount(secondId);
      if second.None? {
        return Err(NotFound);
      }
      return Ok(if firstId == from then Pair(first.value, second.value) else Pair(second.value, first.value));
    }

    method AddToBalance(a: Id, amount: int)
      requires IsAccountRow(work, a)
      modifies this`work
      ensures work == old(work).(rows := old(work.rows)[AccountR(a) := Moved(old(work.rows[AccountR(a)]), amount)])
    {
      var row := work.rows[AccountR(a)];
      work := work.(rows := work.rows[AccountR(a) := row.(balance := row.balance + amount, version := row.version + 1)]);
    }

    // One statement for the transfer and its two entries.
    method InsertTransfer(t: Transfer, senderAfter: int, receiverAfter: int)
      modifies this`work, this`nextEntry
      ensures work == Db(old(work.rows)[TransferR(t.id) := TransferStatus(false)], old(work.log) + [t],
                         old(work.entries) + Number(LegsOf(t, senderAfter, receiverAfter), old(nextEntry)))
      ensures nextEntry == old(nextEntry) + 2
    {
      var debit := Entry(nextEntry, Leg(t.id, t.from, DEBIT, t.amount, senderAfter, t.createdAt));
      var credit := Entry(nextEntry + 1, Leg(t.id, t.to, CREDIT, t.amount, receiverAfter, t.createdAt));
      assert Number(LegsOf(t, senderAfter, receiverAfter), nextEntry) == [debit, credit];
      work := Db(work.rows[TransferR(t.id) := TransferStatus(false)], work.log + [t], work.entries + [debit, credit]);
      nextEntry := nextEntry + 2;
    }

    // Two balance updates, then the transfer.
    method PostDoubleEntry(t: Transfer) returns (r: Outcome<Balances>)
      modifies this`work, this`nextEntry
      ensures match PostingOn(old(work), t)
              case Refused(e) => r == Err(e) && work == old(work) && nextEntry == old(nextEntry)
              case Posted(t', debited, credited) =>
                && debited.Account? && credited.Account?
                && r == Ok(Balances(debited.balance, credited.balance))
                && work == Apply(old(work), Movement(Posted(t', debited, credited)), old(nextEntry))
                && nextEntry == old(nextEntry) + 2
    {
      if t.amount <= 0 {
        return Err(Validation);
      }
      var pair := LockAccountPair(t.from, t.to);
      if pair.Err? {
        return Err(pair.error);
      }
      var from, to := pair.value.from, pair.value.to;
      if from.status != AccountStatus.ACTIVE || to.status == CLOSED {
        return Err(AccountFrozen);
      }
      if !from.system && from.balance < t.amount {
        return Err(InsufficientFunds);
      }
      var senderAfter, receiverAfter := from.balance - t.amount, to.balance + t.amount;
      PostingApplies(work, t, nextEntry);
      AddToBalance(t.from, -t.amount);
      AddToBalance(t.to, t.amount);
      InsertTransfer(t, senderAfter, receiverAfter);
      return Ok(Balances(senderAfter, receiverAfter));
    }

    // ---------------------------------------------------------------- idempotency keys

    // Inserts the key IN_PROGRESS, or reads the row that is already there.
    method ClaimIdempotencyKey(user: Id, key: nat, digest: nat) returns (claim: Claim)
      modifies this`work
      ensures claim == ClaimKey(user, key, digest, Known(old(work), {KeyR(user, key)}))
      ensures work == if claim.Claimed? then Holding(old(work), user, key, digest) else old(work)
      ensures claim.Claimed? <==> KeyR(user, key) !in old(work).rows
    {
      var k := KeyR(user, key);
      if k !in work.rows {
        work := work.(rows := work.rows[k := Key(digest, None)]);
        return Claimed;
      }
      var existing := work.rows[k];
      if !existing.Key? {
        return InFlight;
      }
      if existing.digest != digest {
        return Mismatch;
      }
      return if existing.reply.Some? then Replay(existing.reply.value) else InFlight;
    }

    method CompleteIdempotencyKey(user: Id, key: nat, reply: Reply)
      requires KeyR(user, key) in work.rows && work.rows[KeyR(user, key)].Key?
      modifies this`work
      ensures work == Put(old(work), KeyR(user, key), Key(old(work.rows[KeyR(user, key)]).digest, Some(reply)))
    {
      var k := KeyR(user, key);
      work := work.(rows := work.rows[k := work.rows[k].(reply := Some(reply))]);
    }

    // The key belongs to an earlier request.
    method Unclaimable(claim: Claim) returns (r: Outcome<Reply>)
      requires claim.Replay? || claim.Mismatch? || claim.InFlight?
      ensures Scripted(BeforeWork(0, 0, claim), work, nextEntry, work, nextEntry, r)
    {
      match claim
      case Replay(reply) => return Ok(reply);
      case Mismatch => return Err(KeyReuse);
      case InFlight => return Err(RequestInProgress);
    }

    // ---------------------------------------------------------------- sending

    method EnforceVelocity(account: Id, now: Instant) returns (allowed: bool)
      ensures allowed <==> SentSince(work.log, account, now as int - p.window) < p.maxTransfers
    {
      var recent := SentSince(work.log, account, now as int - p.window);
      return recent < p.maxTransfers;
    }

    method OutboundInWindow(account: Id, now: Instant) returns (spent: int)
      ensures spent == OutboundSince(work.rows, work.log, account, now as int - DAY)
    {
      spent := OutboundSince(work.rows, work.log, account, now as int - DAY);
    }

    method SendClaimed(c: Command, self: Id, now: Instant, ghost before: Db) returns (r: Outcome<Reply>)
      requires c.Send? && p.minTransfer <= c.amount <= p.maxTransfer
      requires KeyR(c.user, c.key) !in before.rows && work == Holding(before, c.user, c.key, c.digest)
      modifies this`work, this`nextEntry
      ensures Scripted(SendVerdict(p, before, c, self, now), before, old(nextEntry), work, nextEntry, r)
    {
      var allowed := EnforceVelocity(c.user, now);
      if !allowed { return Err(RateLimited); }
      if c.payee.None? { return Err(NotFound); }
      if c.payee.value == c.user { return Err(SelfTransfer); }
      var spent := OutboundInWindow(c.user, now);
      SameOutbound(before.rows, work.rows, work.log, c.user, now as int - DAY);
      if spent + c.amount > p.dailyLimit { return Err(LimitExceeded); }
      var t := Transfer(self, c.user, c.payee.value, c.amount, P2P, Some(KeyId(c.user, c.key)), None, now);
      PostingIsOrdered(before, t, SendSeen(p, before, c));
      var posted := PostDoubleEntry(t);
      if posted.Err? { return Err(posted.error); }
      var reply := Reply(201, Receipt(self, c.amount, posted.value.sender));
      CompletedWithIt(before, Movement(PostingOn(before, t)), c.user, c.key, c.digest, reply, old(nextEntry));
      CompleteIdempotencyKey(c.user, c.key, reply);
      return Ok(reply);
    }

    method SendScript(c: Command, self: Id, now: Instant) returns (r: Outcome<Reply>)
      requires c.Send? && p.minTransfer <= c.amount <= p.maxTransfer
      modifies this`work, this`nextEntry
      ensures Scripted(SendVerdict(p, old(work), c, self, now), old(work), old(nextEntry), work, nextEntry, r)
    {
      ghost var before := work;
      var claim := ClaimIdempotencyKey(c.user, c.key, c.digest);
      if claim.Claimed? {
        r := SendClaimed(c, self, now, before);
      } else {
        r := Unclaimable(claim);
      }
    }

    method SendMoney(c: Command, now: Instant) returns (r: Outcome<Reply>)
      requires Valid() && c.Send?
      modifies this
      ensures Valid() && Ends(Verdict(p, old(db), c, old(nextTx), now), old(db), old(nextEntry), db, r)
      ensures SendPromise(p, old(db), c, old(nextTx), now, old(nextEntry), db, r)
      ensures replies == if r.Ok? then old(replies) + [Exchange(c, r.value)] else old(replies)
    {
      if c.amount < p.minTransfer { return Err(Validation); }
      if c.amount > p.maxTransfer { return Err(LimitExceeded); }
      var self := Begin();
      r := SendScript(c, self, now);
      SendEnds(p, old(db), c, self, now);
      Finish(c, self, now, old(nextEntry), r);
      SendKept(p, old(db), c, self, now, old(nextEntry), db, r);
    }

    // ---------------------------------------------------------------- money requests

    // FOR UPDATE with the whole precondition in its WHERE clause.
    method LockSettleableRequest(id: RequestId, payer: Id, now: Instant) returns (row: Option<Row>)
      ensures row.Some? <==> SettleableRow(Lookup(work, RequestR(id)), payer, now)
      ensures row.Some? ==> row == Lookup(work, RequestR(id))
    {
      row := Lookup(work, RequestR(id));
      if row.Some? {
        if !row.value.Request? || row.value.payer != payer || row.value.state != RequestStatus.PENDING
           || row.value.expires <= now {
          row := None;
        }
      }
    }

    // Why nothing could be settled.
    method ExplainUnsettleable(id: RequestId, payer: Id) returns (error: Error)
      ensures var row := Lookup(work, RequestR(id));
              error == if row.Some? && row.value.Request? && row.value.payer == payer then InvalidState else NotFound
    {
      var row := Lookup(work, RequestR(id));
      return if row.Some? && row.value.Request? && row.value.payer == payer then InvalidState else NotFound;
    }

    method MarkAccepted(id: RequestId, transfer: Id) returns (accepted: bool)
      modifies this`work
      ensures accepted <==> PendingRow(Lookup(old(work), RequestR(id)))
      ensures work == if accepted
                      then Put(old(work), RequestR(id), old(work.rows)[RequestR(id)].(state := ACCEPTED, settled := Some(transfer)))
                      else old(work)
    {
      var row := Lookup(work, RequestR(id));
      if row.None? || !row.value.Request? || row.value.state != RequestStatus.PENDING {
        return false;
      }
      work := work.(rows := work.rows[RequestR(id) := row.value.(state := ACCEPTED, settled := Some(transfer))]);
      return true;
    }

    // Pay, mark the request, complete the key.
    method Settle(c: Command, self: Id, now: Instant, row: Row, ghost before: Db) returns (r: Outcome<Reply>)
      requires c.Accept? && PendingRow(Some(row)) && Lookup(before, RequestR(c.request)) == Some(row)
      requires work == Holding(before, c.user, c.key, c.digest)
      modifies this`work, this`nextEntry
      ensures match PostingOn(before, SettlementOf(c, self, now, row))
              case Refused(e) => r == Err(e) && nextEntry == old(nextEntry)
              case Posted(t, debited, credited) =>
                && debited.Account? && credited.Account?
                && var e := Movement(Posted(t, debited, credited));
                var accepted := row.(state := ACCEPTED, settled := Some(self));
                var reply := Reply(200, Settled(c.request, self, row.amount, debited.balance));
                var v := Completing(e.(writes := e.writes[RequestR(c.request) := accepted]), c.user, c.key, c.digest, reply);
                Scripted(v, before, old(nextEntry), work, nextEntry, r)
    {
      var t := SettlementOf(c, self, now, row);
      var posted := PostDoubleEntry(t);
      if posted.Err? { return Err(posted.error); }
      var accepted := MarkAccepted(c.request, self);
      if !accepted { return Err(InvalidState); }
      var reply := Reply(200, Settled(c.request, self, row.amount, posted.value.sender));
      ghost var e := Movement(PostingOn(before, t));
      AlsoWrites(Holding(before, c.user, c.key, c.digest), e, RequestR(c.request), work.rows[RequestR(c.request)],
                 old(nextEntry));
      CompletedWithIt(before, e.(writes := e.writes[RequestR(c.request) := work.rows[RequestR(c.request)]]),
                      c.user, c.key, c.digest, reply, old(nextEntry));
      CompleteIdempotencyKey(c.user, c.key, reply);
      return Ok(reply);
    }

    method AcceptClaimed(c: Command, self: Id, now: Instant, ghost before: Db) returns (r: Outcome<Reply>)
      requires c.Accept?
      requires KeyR(c.user, c.key) !in before.rows && work == Holding(before, c.user, c.key, c.digest)
      modifies this`work, this`nextEntry
      ensures Scripted(AcceptVerdict(p, before, c, self, now), before, old(nextEntry), work, nextEntry, r)
    {
      var request := LockSettleableRequest(c.request, c.user, now);
      if request.None? {
        var error := ExplainUnsettleable(c.request, c.user);
        return Err(error);
      }
      var row := request.value;
      var spent := OutboundInWindow(c.user, now);
      SameOutbound(before.rows, work.rows, work.log, c.user, now as int - DAY);
      if spent + row.amount > p.dailyLimit { return Err(LimitExceeded); }
      PostingIsOrdered(before, SettlementOf(c, self, now, row), AcceptSeen(before, c));
      r := Settle(c, self, now, row, before);
    }

    method AcceptScript(c: Command, self: Id, now: Instant) returns (r: Outcome<Reply>)
      requires c.Accept?
      modifies this`work, this`nextEntry
      ensures Scripted(AcceptVerdict(p, old(work), c, self, now), old(work), old(nextEntry), work, nextEntry, r)
    {
      ghost var before := work;
      var claim := ClaimIdempotencyKey(c.user, c.key, c.digest);
      if claim.Claimed? {
        r := AcceptClaimed(c, self, now, before);
      } else {
        r := Unclaimable(claim);
      }
    }

    method AcceptRequest(c: Command, now: Instant) returns (r: Outcome<Reply>)
      requires Valid() && c.Accept?
      modifies this
      ensures Valid() && Ends(Verdict(p, old(db), c, old(nextTx), now), old(db), old(nextEntry), db, r)
      ensures AcceptPromise(p, old(db), c, old(nextTx), now, old(nextEntry), db, r)
      ensures replies == if r.Ok? then old(replies) + [Exchange(c, r.value)] else old(replies)
    {
      var self := Begin();
      r := AcceptScript(c, self, now);
      AcceptEnds(p, db, c, self, now);
      Finish(c, self, now, old(nextEntry), r);
      AcceptKept(p, old(db), c, self, now, old(nextEntry), db, r);
    }

    // decline and cancel: one guarded UPDATE, then a look at why it matched nothing
    method TerminateRequest(c: Command, now: Instant) returns (r: Outcome<Reply>)
      requires Valid() && c.Terminate? && (c.to == DECLINED || c.to == RequestStatus.CANCELLED)
      modifies this
      ensures Valid() && Ends(Verdict(p, old(db), c, old(nextTx), now), old(db), old(nextEntry), db, r)
      ensures TerminatePromise(old(db), c, db, r)
      ensures replies == if r.Ok? then old(replies) + [Exchange(c, r.value)] else old(replies)
    {
      var self := Begin();
      var row := Lookup(work, RequestR(c.request));
      if row.None? || !row.value.Request? {
        r := Err(NotFound);
      } else {
        var actor := if c.to == DECLINED then row.value.payer else row.value.requester;
        if actor == c.actor && row.value.state == RequestStatus.PENDING {
          work := work.(rows := work.rows[RequestR(c.request) := row.value.(state := c.to)]);
          assert work == Apply(db, Effect(map[RequestR(c.request) := row.value.(state := c.to)], None, []), nextEntry);
          r := Ok(Reply(200, Done));
        } else if actor != c.actor {
          r := Err(NotFound);
        } else if row.value.state == c.to {
          assert work == Apply(db, NO_EFFECT, nextEntry);
          r := Ok(Reply(200, Done));
        } else {
          r := Err(InvalidState);
        }
      }
      Finish(c, self, now, old(nextEntry), r);
      VerdictIsPromised(p, old(db), c, self, now, old(nextEntry), db, r);
    }

    // ---------------------------------------------------------------- reversals

    // UPDATE ... SET status = 'REVERSED' WHERE ... AND status = 'COMPLETED'
    method FlipToReversed(id: Id) returns (flipped: bool)
      modifies this`work
      ensures flipped <==> Lookup(old(work), TransferR(id)) == Some(TransferStatus(false))
      ensures work == if flipped then Marked(old(work), id) else old(work)
    {
      if TransferR(id) !in work.rows || work.rows[TransferR(id)] != TransferStatus(false) {
        return false;
      }
      work := work.(rows := work.rows[TransferR(id) := TransferStatus(true)]);
      return true;
    }

    // The movement back, once the original is marked.
    method Compensate(c: Command, self: Id, now: Instant, original: Transfer, ghost before: Db) returns (r: Outcome<Reply>)
      requires c.Reverse? && original.id != self
      requires work == Marked(Holding(before, c.user, c.key, c.digest), original.id)
      modifies this`work, this`nextEntry
      ensures match PostingOn(before, ReversalOf(c, self, now, original))
              case Refused(e) => r == Err(e) && nextEntry == old(nextEntry)
              case Posted(t, debited, credited) =>
                && debited.Account? && credited.Account?
                && var e := Movement(Posted(t, debited, credited));
                var reply := Reply(201, Undone(self, original.id, original.amount, credited.balance));
                var v := Completing(e.(writes := e.writes[TransferR(original.id) := TransferStatus(true)]),
                                    c.user, c.key, c.digest, reply);
                Scripted(v, before, old(nextEntry), work, nextEntry, r)
    {
      var t := ReversalOf(c, self, now, original);
      var posted := PostDoubleEntry(t);
      if posted.Err? { return Err(posted.error); }
      var reply := Reply(201, Undone(self, original.id, original.amount, posted.value.receiver));
      ghost var e := Movement(PostingOn(before, t));
      WroteBefore(Holding(before, c.user, c.key, c.digest), e, TransferR(original.id), TransferStatus(true), old(nextEntry));
      CompletedWithIt(before, e.(writes := e.writes[TransferR(original.id) := TransferStatus(true)]),
                      c.user, c.key, c.digest, reply, old(nextEntry));
      CompleteIdempotencyKey(c.user, c.key, reply);
      return Ok(reply);
    }

    method ReverseClaimed(c: Command, self: Id, now: Instant, ghost before: Db) returns (r: Outcome<Reply>)
      requires c.Reverse? && (forall t :: t in before.log ==> t.id != self)
      requires KeyR(c.user, c.key) !in before.rows && work == Holding(before, c.user, c.key, c.digest)
      modifies this`work, this`nextEntry
      ensures Scripted(ReverseVerdict(p, before, c, self, now), before, old(nextEntry), work, nextEntry, r)
    {
      var found := FindTransfer(work.log, c.original);
      FindTransferFinds(work.log, c.original);
      if found.None? || found.value.from != c.user { return Err(NotFound); }
      var original := found.value;
      if original.kind == MINT || original.kind == REVERSAL { return Err(InvalidState); }
      if IsReversed(work, original.id) { return Err(InvalidState); }
      if c.clockMs - original.createdAt / 1000 > p.reversalWindow * 1000 { return Err(InvalidState); }
      var flipped := FlipToReversed(original.id);
      if !flipped { return Err(InvalidState); }
      PostingIsOrdered(before, ReversalOf(c, self, now, original), ReverseSeen(before, c));
      r := Compensate(c, self, now, original, before);
    }

    method ReverseScript(c: Command, self: Id, now: Instant) returns (r: Outcome<Reply>)
      requires c.Reverse? && (forall t :: t in work.log ==> t.id != self)
      modifies this`work, this`nextEntry
      ensures Scripted(ReverseVerdict(p, old(work), c, self, now), old(work), old(nextEntry), work, nextEntry, r)
    {
      ghost var before := work;
      var claim := ClaimIdempotencyKey(c.user, c.key, c.digest);
      if claim.Claimed? {
        r := ReverseClaimed(c, self, now, before);
      } else {
        r := Unclaimable(claim);
      }
    }

    method ReverseTransfer(c: Command, now: Instant) returns (r: Outcome<Reply>)
      requires Valid() && c.Reverse?
      modifies this
      ensures Valid() && Ends(Verdict(p, old(db), c, old(nextTx), now), old(db), old(nextEntry), db, r)
      ensures ReversePromise(p, old(db), c, old(nextTx), now, old(nextEntry), db, r)
      ensures replies == if r.Ok? then old(replies) + [Exchange(c, r.value)] else old(replies)
    {
      var self := Begin();
      r := ReverseScript(c, self, now);
      ReverseEnds(p, db, c, self, now);
      Finish(c, self, now, old(nextEntry), r);
      ReverseKept(p, old(db), c, self, now, old(nextEntry), db, r);
    }

    // ---------------------------------------------------------------- freezing

    method FreezeScript(c: Command, self: Id, now: Instant) returns (r: Outcome<Reply>)
      requires c.SetStatus? && c.own && c.target != CLOSED
      modifies this`work
      ensures Scripted(PlanSetStatus(c, map[AccountR(c.account) := Lookup(old(work), AccountR(c.account))]),
                       old(work), nextEntry, work, nextEntry, r)
    {
      var account := LockAccount(c.account);
      if account.None? { return Err(NotFound); }
      if account.value.status == CLOSED { return Err(InvalidState); }
      if account.value.status != c.target {
        var row := account.value.(status := c.target, version := account.value.version + 1);
        work := work.(rows := work.rows[AccountR(c.account) := row]);
      }
      return Ok(Reply(200, Done));
    }

    method SetOwnFreeze(c: Command, now: Instant) returns (r: Outcome<Reply>)
      requires Valid() && c.SetStatus? && c.own && c.target != CLOSED
      modifies this
      ensures Valid() && Ends(Verdict(p, old(db), c, old(nextTx), now), old(db), old(nextEntry), db, r)
      ensures SetStatusPromise(old(db), c, db, r)
      ensures replies == if r.Ok? then old(replies) + [Exchange(c, r.value)] else old(replies)
    {
      var self := Begin();
      assert Known(db, Touched(p, db, c, now)) == map[AccountR(c.account) := Lookup(db, AccountR(c.account))];
      r := FreezeScript(c, self, now);
      Finish(c, self, now, old(nextEntry), r);
      VerdictIsPromised(p, old(db), c, self, now, old(nextEntry), db, r);
    }

    // ---------------------------------------------------------------- schedules

    // FOR UPDATE SKIP LOCKED, with the due condition in the WHERE clause.
    method ClaimDueSchedule(id: Id, now: Instant) returns (row: Option<Row>)
      ensures row == if IsDue(Lookup(work, ScheduleR(id)), now) then Lookup(work, ScheduleR(id)) else None
    {
      row := Lookup(work, ScheduleR(id));
      if row.Some? {
        if !row.value.Schedule? || row.value.phase != ScheduleStatus.ACTIVE || now < row.value.next
           || (row.value.retryAfter.Some? && now < row.value.retryAfter.value) {
          row := None;
        }
      }
    }

    // INSERT ... ON CONFLICT DO UPDATE SET attempts = attempts + 1 WHERE status = 'PENDING'
    method ClaimOccurrence(id: Id, due: Instant) returns (attempts: Option<nat>)
      requires PendingUnpaid(work)
      modifies this`work
      ensures attempts == Attempt(Lookup(old(work), OccurrenceR(id, due)))
      ensures work == if attempts.Some? then Attempting(old(work), id, due, attempts.value) else old(work)
    {
      var o := OccurrenceR(id, due);
      if o !in work.rows {
        work := work.(rows := work.rows[o := Occurrence(OccurrenceStatus.PENDING, 1, None)]);
        return Some(1);
      }
      var row := work.rows[o];
      if !row.Occurrence? || row.outcome != OccurrenceStatus.PENDING {
        return None;
      }
      work := work.(rows := work.rows[o := row.(attempts := row.attempts + 1)]);
      return Some(row.attempts + 1);
    }

    method SettleOccurrence(id: Id, due: Instant, outcome: OccurrenceStatus, transfer: Option<Id>)
      requires OccurrenceR(id, due) in work.rows && work.rows[OccurrenceR(id, due)].Occurrence?
      modifies this`work
      ensures work == Put(old(work), OccurrenceR(id, due),
                          Occurrence(outcome, old(work.rows[OccurrenceR(id, due)]).attempts, transfer))
    {
      var o := OccurrenceR(id, due);
      work := work.(rows := work.rows[o := work.rows[o].(outcome := outcome, transfer := transfer)]);
    }

    method AdvanceSchedule(id: Id, every: Interval, consumeRun: bool)
      requires ScheduleR(id) in work.rows && work.rows[ScheduleR(id)].Schedule? && work.rows[ScheduleR(id)].every == every
      modifies this`work
      ensures work == Put(old(work), ScheduleR(id), Scripts.AdvanceSchedule(old(work.rows[ScheduleR(id)]), consumeRun))
    {
      var row := work.rows[ScheduleR(id)];
      if every == ONCE {
        row := row.(phase := ScheduleStatus.COMPLETED, remaining := Some(0), retryAfter := None);
      } else {
        var remaining := row.remaining;
        if remaining.Some? {
          var left := if consumeRun then remaining.value as int - 1 else remaining.value;
          if consumeRun {
            remaining := Some(if left > 0 then left else 0);
          }
          if left <= 0 {
            row := row.(phase := ScheduleStatus.COMPLETED);
          }
        }
        row := row.(remaining := remaining, next := NextRun(every, row.next), retryAfter := None);
      }
      work := work.(rows := work.rows[ScheduleR(id) := row]);
    }

    method DeferSchedule(id: Id, now: Instant, delaySeconds: nat)
      requires ScheduleR(id) in work.rows && work.rows[ScheduleR(id)].Schedule?
      modifies this`work
      ensures work == Put(old(work), ScheduleR(id),
                          old(work.rows[ScheduleR(id)]).(retryAfter := Some(now + delaySeconds * SECOND)))
    {
      var row := work.rows[ScheduleR(id)].(retryAfter := Some(now + delaySeconds * SECOND));
      work := work.(rows := work.rows[ScheduleR(id) := row]);
    }

    // Identical rules to a transfer made by hand.
    method Pay(self: Id, now: Instant, row: Row, ghost before: Db) returns (r: Outcome<Balances>)
      requires row.Schedule? && SameMoney(before, work)
      modifies this`work, this`nextEntry
      ensures r.Err? ==> Refusal(p, before, self, now, row) == Some(r.error) && nextEntry == old(nextEntry)
      ensures r.Ok? ==> Refusal(p, before, self, now, row).None? && nextEntry == old(nextEntry) + 2
                        && PostingOn(before, ScheduledPayment(self, now, row)).Posted?
                        && PostingOn(before, ScheduledPayment(self, now, row)).debited.Account?
                        && PostingOn(before, ScheduledPayment(self, now, row)).credited.Account?
                        && work == Apply(old(work), Movement(PostingOn(before, ScheduledPayment(self, now, row))), old(nextEntry))
    {
      var spent := OutboundInWindow(row.from, now);
      SameOutbound(before.rows, work.rows, work.log, row.from, now as int - DAY);
      if spent + row.pays > p.dailyLimit {
        return Err(LimitExceeded);
      }
      r := PostDoubleEntry(ScheduledPayment(self, now, row));
    }

    // The payment attempt and what follows it, the occurrence being claimed.
    method AttemptPayment(c: Command, self: Id, now: Instant, row: Row, attempts: nat, ghost before: Db)
      returns (r: Outcome<Reply>)
      requires c.Run? && attempts >= 1 && ScheduleOf(before, c.schedule) == Some(row)
      requires work == Attempting(before, c.schedule, row.next, attempts)
      modifies this`work, this`nextEntry
      ensures Scripted(AttemptVerdict(p, before, c, self, now, row, attempts), before, old(nextEntry), work, nextEntry, r)
    {
      var savepoint := work;
      var paid := Pay(self, now, row, before);
      if paid.Ok? {
        PaidWithIt(before, c, self, now, row, attempts, old(nextEntry));
        SettleOccurrence(c.schedule, row.next, PAID, Some(self));
        AdvanceSchedule(c.schedule, row.every, true);
        return Ok(RunReply(RunPaid));
      }
      work := savepoint;
      r := SettleRefusal(c, now, row, attempts, paid.error, before);
    }

    // After the rollback to the savepoint: come back later, or record the failure.
    method SettleRefusal(c: Command, now: Instant, row: Row, attempts: nat, error: Error, ghost before: Db)
      returns (r: Outcome<Reply>)
      requires c.Run? && attempts >= 1 && ScheduleOf(before, c.schedule) == Some(row)
      requires work == Attempting(before, c.schedule, row.next, attempts)
      modifies this`work
      ensures Scripted(AfterRefusal(p, c, now, row, attempts, error), before, nextEntry, work, nextEntry, r)
    {
      ghost var pending := Occurrence(OccurrenceStatus.PENDING, attempts, None);
      var canRetry := Retryable(error) && attempts < p.maxAttempts;
      if canRetry {
        DeferSchedule(c.schedule, now, p.retryBase * Power2(attempts - 1));
        OccurrenceAndSchedule(before, c.schedule, row.next, pending, pending, work.rows[ScheduleR(c.schedule)], nextEntry);
        return Ok(RunReply(RunDeferred));
      }
      SettleOccurrence(c.schedule, row.next, FAILED, None);
      AdvanceSchedule(c.schedule, row.every, false);
      OccurrenceAndSchedule(before, c.schedule, row.next, pending, work.rows[OccurrenceR(c.schedule, row.next)],
                            work.rows[ScheduleR(c.schedule)], nextEntry);
      return Ok(RunReply(RunFailed));
    }

    method RunScript(c: Command, self: Id, now: Instant) returns (r: Outcome<Reply>)
      requires c.Run? && PendingUnpaid(work)
      modifies this`work, this`nextEntry
      ensures Scripted(RunVerdict(p, old(work), c, self, now), old(work), old(nextEntry), work, nextEntry, r)
    {
      ghost var before := work;
      var schedule := ClaimDueSchedule(c.schedule, now);
      if schedule.None? {
        assert work == Apply(before, NO_EFFECT, nextEntry);
        return Ok(RunReply(RunNotClaimed));
      }
      var row := schedule.value;
      var occurrence := ClaimOccurrence(c.schedule, row.next);
      if occurrence.None? {
        AdvanceSchedule(c.schedule, row.every, false);
        assert work == Apply(before, RunVerdict(p, before, c, self, now).effect, nextEntry);
        return Ok(RunReply(RunDuplicate));
      }
      var lateBy := c.clockMs - row.next / 1000;
      if lateBy > p.graceMs {
        SettleOccurrence(c.schedule, row.next, SKIPPED, None);
        AdvanceSchedule(c.schedule, row.every, false);
        assert work == Apply(before, RunVerdict(p, before, c, self, now).effect, nextEntry);
        return Ok(RunReply(RunSkipped));
      }
      r := AttemptPayment(c, self, now, row, occurrence.value, before);
    }

    method RunSchedule(id: Id, now: Instant, clockMs: int) returns (outcome: RunOutcome)
      requires Valid() && PendingUnpaid(db)
      modifies this
      ensures Valid() && nextTx == old(nextTx) + 1
      ensures Ends(RunVerdict(p, old(db), Run(id, clockMs), old(nextTx), now), old(db), old(nextEntry), db,
                   Ok(RunReply(outcome)))
      ensures RunPromise(p, old(db), Run(id, clockMs), old(nextTx), now, old(nextEntry), db, Ok(RunReply(outcome)))
      ensures replies == old(replies) + [Exchange(Run(id, clockMs), RunReply(outcome))]
    {
      var c := Run(id, clockMs);
      var self := Begin();
      var r := RunScript(c, self, now);
      RunEnds(p, db, c, self, now);
      RunReplies(p, db, c, self, now);
      Finish(c, self, now, old(nextEntry), r);
      VerdictIsPromised(p, old(db), c, self, now, old(nextEntry), db, r);
      outcome := r.value.body.outcome;
    }

    // ---------------------------------------------------------------- creations and small updates

    method InsertAndComplete(user: Id, key: nat, digest: nat, r: Resource, row: Row, reply: Reply, ghost before: Db)
      requires work == Holding(before, user, key, digest) && r != KeyR(user, key)
      modifies this`work
      ensures work == Apply(before, Effect(map[r := row][KeyR(user, key) := Key(digest, Some(reply))], None, []), nextEntry)
    {
      work := work.(rows := work.rows[r := row]);
      OneRowApplied(Holding(before, user, key, digest), r, row, nextEntry);
      CompletedWithIt(before, Effect(map[r := row], None, []), user, key, digest, reply, nextEntry);
      CompleteIdempotencyKey(user, key, reply);
    }

    method CreateRequestScript(c: Command, self: Id, now: Instant) returns (r: Outcome<Reply>)
      requires c.CreateRequest? && p.minTransfer <= c.amount <= p.maxTransfer
      modifies this`work
      ensures Scripted(OnlyRowVerdict(p, old(work), c, self, now), old(work), nextEntry, work, nextEntry, r)
    {
      ghost var before := work;
      var claim := ClaimIdempotencyKey(c.user, c.key, c.digest);
      if !claim.Claimed? {
        r := Unclaimable(claim);
        return;
      }
      if c.payer.None? { return Err(NotFound); }
      if c.payer.value == c.user { return Err(Validation); }
      var row := Request(c.user, c.payer.value, c.amount, c.expires, RequestStatus.PENDING, None);
      InsertAndComplete(c.user, c.key, c.digest, RequestR(RequestId(self, 0)), row, Reply(201, Created(self)), before);
      return Ok(Reply(201, Created(self)));
    }

    method CreateRequest(c: Command, now: Instant) returns (r: Outcome<Reply>)
      requires Valid() && c.CreateRequest?
      modifies this
      ensures Valid() && Ends(Verdict(p, old(db), c, old(nextTx), now), old(db), old(nextEntry), db, r)
      ensures CreateRequestPromise(p, old(db), c, old(nextTx), db, r)
      ensures replies == if r.Ok? then old(replies) + [Exchange(c, r.value)] else old(replies)
    {
      OnlyRowEnds(p, db, c, nextTx, now);
      if c.amount < p.minTransfer { return Err(Validation); }
      if c.amount > p.maxTransfer { return Err(LimitExceeded); }
      var self := Begin();
      r := CreateRequestScript(c, self, now);
      Finish(c, self, now, old(nextEntry), r);
      VerdictIsPromised(p, old(db), c, self, now, old(nextEntry), db, r);
    }

    method CreateScheduleScript(c: Command, self: Id, now: Instant) returns (r: Outcome<Reply>)
      requires c.CreateSchedule? && p.minTransfer <= c.amount <= p.maxTransfer && (c.startAt / 1000) as int >= c.clockMs
      requires c.runs.Some? ==> c.runs.value >= 1
      modifies this`work
      ensures Scripted(OnlyRowVerdict(p, old(work), c, self, now), old(work), nextEntry, work, nextEntry, r)
    {
      ghost var before := work;
      var claim := ClaimIdempotencyKey(c.user, c.key, c.digest);
      if !claim.Claimed? {
        r := Unclaimable(claim);
        return;
      }
      if c.payee.None? { return Err(NotFound); }
      if c.payee.value == c.user { return Err(SelfTransfer); }
      var runs := if c.every == ONCE then Some(1) else c.runs;
      var row := Schedule(c.user, c.payee.value, c.amount, c.every, c.startAt, runs, ScheduleStatus.ACTIVE, None, runs);
      InsertAndComplete(c.user, c.key, c.digest, ScheduleR(self), row, Reply(201, Created(self)), before);
      return Ok(Reply(201, Created(self)));
    }

    // The number of runs is at least one, or unlimited, by the time a schedule gets here.
    method CreateSchedule(c: Command, now: Instant) returns (r: Outcome<Reply>)
      requires Valid() && c.CreateSchedule? && (c.runs.Some? ==> c.runs.value >= 1)
      modifies this
      ensures Valid() && Ends(Verdict(p, old(db), c, old(nextTx), now), old(db), old(nextEntry), db, r)
      ensures CreateSchedulePromise(p, old(db), c, old(nextTx), db, r)
      ensures replies == if r.Ok? then old(replies) + [Exchange(c, r.value)] else old(replies)
    {
      OnlyRowEnds(p, db, c, nextTx, now);
      if c.amount < p.minTransfer { return Err(Validation); }
      if c.amount > p.maxTransfer { return Err(LimitExceeded); }
      if (c.startAt / 1000) as int < c.clockMs { return Err(Validation); }
      var self := Begin();
      r := CreateScheduleScript(c, self, now);
      Finish(c, self, now, old(nextEntry), r);
      VerdictIsPromised(p, old(db), c, self, now, old(nextEntry), db, r);
    }

    // UPDATE ... WHERE status = ANY(from), then a look at why it matched nothing.
    method TransitionScript(c: Command, now: Instant) returns (r: Outcome<Reply>)
      requires c.Transition? && c.phase != ScheduleStatus.COMPLETED
      modifies this`work
      ensures Scripted(OnlyRowVerdict(p, old(work), c, 0, now), old(work), nextEntry, work, nextEntry, r)
    {
      var from := if c.phase == PAUSED then {ScheduleStatus.ACTIVE}
                  else if c.phase == ScheduleStatus.ACTIVE then {PAUSED}
                  else {ScheduleStatus.ACTIVE, PAUSED};
      var s := ScheduleR(c.schedule);
      var row := Lookup(work, s);
      if row.None? || !row.value.Schedule? || row.value.from != c.user { return Err(NotFound); }
      if row.value.phase in from {
        var updated := row.value.(phase := c.phase);
        if c.phase == ScheduleStatus.ACTIVE {
          updated := updated.(retryAfter := None);
          if row.value.next < now {
            updated := updated.(next := now);
          }
        }
        OneRowApplied(work, s, updated, nextEntry);
        work := work.(rows := work.rows[s := updated]);
        return Ok(Reply(200, Done));
      }
      OneRowApplied(work, s, row.value, nextEntry);
      return if row.value.phase == c.phase then Ok(Reply(200, Done)) else Err(InvalidState);
    }

    method TransitionSchedule(c: Command, now: Instant) returns (r: Outcome<Reply>)
      requires Valid() && c.Transition? && c.phase != ScheduleStatus.COMPLETED
      modifies this
      ensures Valid() && Ends(Verdict(p, old(db), c, old(nextTx), now), old(db), old(nextEntry), db, r)
      ensures TransitionPromise(old(db), c, now, db, r)
      ensures replies == if r.Ok? then old(replies) + [Exchange(c, r.value)] else old(replies)
    {
      var self := Begin();
      r := TransitionScript(c, now);
      OnlyRowEnds(p, db, c, self, now);
      Finish(c, self, now, old(nextEntry), r);
      VerdictIsPromised(p, old(db), c, self, now, old(nextEntry), db, r);
    }

    // The operator's nudge.
    method BringForward(c: Command, now: Instant) returns (r: Outcome<Reply>)
      requires Valid() && c.BringForward?
      modifies this
      ensures Valid() && Ends(Verdict(p, old(db), c, old(nextTx), now), old(db), old(nextEntry), db, r)
      ensures NudgePromise(old(db), c, now, db, r)
      ensures replies == if r.Ok? then old(replies) + [Exchange(c, r.value)] else old(replies)
    {
      var self := Begin();
      OnlyRowEnds(p, db, c, self, now);
      var s := ScheduleR(c.schedule);
      var row := Lookup(work, s);
      if row.None? || !row.value.Schedule? || row.value.phase != ScheduleStatus.ACTIVE {
        r := Err(NotFound);
      } else {
        var updated := row.value.(next := if now < SECOND then 0 else now - SECOND, retryAfter := None);
        OneRowApplied(work, s, updated, nextEntry);
        work := work.(rows := work.rows[s := updated]);
        r := Ok(Reply(200, Done));
      }
      Finish(c, self, now, old(nextEntry), r);
      VerdictIsPromised(p, old(db), c, self, now, old(nextEntry), db, r);
    }

    // A new account, and its bonus as a movement out of the treasury.
    method RegisterScript(c: Command, self: Id, now: Instant) returns (r: Outcome<Reply>)
      requires c.Register?
      modifies this`work, this`nextEntry
      ensures Scripted(RegisterVerdict(p, old(work), c, self, now), old(work), old(nextEntry), work, nextEntry, r)
    {
      ghost var before := work;
      work := work.(rows := work.rows[AccountR(self) := Account(false, AccountStatus.ACTIVE, 0, 0)]);
      assert work == WithAccount(before, self);
      var t := MintOf(p, c, self, now);
      var posted := PostDoubleEntry(t);
      if posted.Err? { return Err(posted.error); }
      MintedOver(before, t, old(nextEntry));
      return Ok(Reply(201, Created(self)));
    }

    method Register(c: Command, now: Instant) returns (r: Outcome<Reply>)
      requires Valid() && c.Register?
      modifies this
      ensures Valid() && Ends(Verdict(p, old(db), c, old(nextTx), now), old(db), old(nextEntry), db, r)
      ensures RegisterPromise(p, old(db), c, old(nextTx), now, old(nextEntry), db, r)
      ensures replies == if r.Ok? then old(replies) + [Exchange(c, r.value)] else old(replies)
      ensures nextTx == old(nextTx) + 1
    {
      var self := Begin();
      r := RegisterScript(c, self, now);
      RegisterEnds(p, db, c, self, now);
      Finish(c, self, now, old(nextEntry), r);
      VerdictIsPromised(p, old(db), c, self, now, old(nextEntry), db, r);
    }

    // Each row of the batch that is pending and past its time.
    method ExpireRows(ids: seq<RequestId>, now: Instant)
      modifies this`work
      ensures work == old(work).(rows := ExpiredRows(old(work).rows, ids, now))
    {
      ghost var before := work;
      for i := 0 to |ids|
        invariant work == before.(rows := ExpiredRows(before.rows, ids[..i], now))
      {
        assert ids[..i + 1][..i] == ids[..i];
        var r := RequestR(ids[i]);
        if r in work.rows {
          var row := work.rows[r];
          if row.Request? && row.state == RequestStatus.PENDING && row.expires <= now {
            work := work.(rows := work.rows[r := row.(state := EXPIRED)]);
          }
        }
      }
      assert ids[..|ids|] == ids;
    }

    // One batch of the expiry worker: the first `limit` requests that are overdue, in the order they expired.
    method ExpireDue(limit: nat, now: Instant) returns (c: Command, r: Outcome<Reply>)
      requires Valid()
      modifies this
      ensures c.ExpireDue? && FirstOf(id => ExpiryOf(old(db), id), c.requests, OverdueIds(old(db), now), limit)
      ensures Valid() && Ends(Verdict(p, old(db), c, old(nextTx), now), old(db), old(nextEntry), db, r)
      ensures ExpirePromise(old(db), c, now, db, r)
      ensures replies == if r.Ok? then old(replies) + [Exchange(c, r.value)] else old(replies)
      ensures forall id :: id in OverdueIds(db, now) <==> id in OverdueIds(old(db), now) && id !in c.requests
    {
      var self := Begin();
      var tables := work;
      var ids := TakeEarliest(id => ExpiryOf(tables, id), OverdueIds(tables, now), limit);
      c := Command.ExpireDue(ids);
      ExpireRows(ids, now);
      BatchExpires(db, ids, now);
      ExpireEnds(p, db, c, self, now);
      ExpiredAreGone(db, ids, now);
      r := Ok(Reply(200, Done));
      Finish(c, self, now, old(nextEntry), r);
      ExpireKept(p, old(db), c, self, now, old(nextEntry), db, r);
    }
  }
}
