/**
 Every operation keeps its promise: what its script does, run alone, is what the promise says.
 */
module Outcomes {
  import opened Calendar
  import opened Store
  import opened Scripts
  import opened Serializability
  import opened Alone
  import opened Promises
  import opened Verdicts

  // ---------------------------------------------------------------- what the promises are made of

  lemma PostingRefused(db: Db, t: Transfer)
    ensures PaymentRefusal(db, t) == match PostingOn(db, t)
                                     case Refused(e) => Some(e)
                                     case Posted(_, _, _) => None
  {
  }

  // A movement applied is the payment made.
  lemma PostingMade(db: Db, t: Transfer, first: nat)
    requires PostingOn(db, t).Posted?
    ensures IsAccountRow(db, t.from) && IsAccountRow(db, t.to)
    ensures PostingOn(db, t).debited.Account? && PostingOn(db, t).credited.Account?
    ensures PostingOn(db, t).debited.balance == BalanceOf(db, t.from) - t.amount
    ensures PostingOn(db, t).credited.balance == BalanceOf(db, t.to) + t.amount
    ensures Apply(db, Movement(PostingOn(db, t)), first) == PaymentMade(db, t, first)
  {
    PostingApplies(db, t, first);
  }

  // A movement with its completed key applied is the payment made with its key.
  lemma KeyedPaymentMade(db: Db, t: Transfer, user: Id, key: nat, digest: nat, reply: Reply, first: nat)
    requires PostingOn(db, t).Posted?
    ensures PostingOn(db, t).debited.Account? && PostingOn(db, t).credited.Account?
    ensures IsAccountRow(db, t.from) && IsAccountRow(db, t.to)
    ensures Apply(db, Completing(Movement(PostingOn(db, t)), user, key, digest, reply).effect, first)
            == WithKey(PaymentMade(db, t, first), user, key, digest, reply)
  {
    PostingMade(db, t, first);
    AlsoWrites(db, Movement(PostingOn(db, t)), KeyR(user, key), Key(digest, Some(reply)), first);
  }

  // The same with one more row.
  lemma KeyedPaymentAndRow(db: Db, t: Transfer, x: Resource, row: Row, user: Id, key: nat, digest: nat, reply: Reply, first: nat)
    requires PostingOn(db, t).Posted?
    ensures PostingOn(db, t).debited.Account? && PostingOn(db, t).credited.Account?
    ensures IsAccountRow(db, t.from) && IsAccountRow(db, t.to)
    ensures var e := Movement(PostingOn(db, t));
            Apply(db, Completing(e.(writes := e.writes[x := row]), user, key, digest, reply).effect, first)
            == WithKey(Put(PaymentMade(db, t, first), x, row), user, key, digest, reply)
  {
    PostingMade(db, t, first);
    var e := Movement(PostingOn(db, t));
    AlsoWrites(db, e, x, row, first);
    AlsoWrites(db, e.(writes := e.writes[x := row]), KeyR(user, key), Key(digest, Some(reply)), first);
  }

  lemma NothingApplied(db: Db, first: nat)
    ensures Apply(db, NO_EFFECT, first) == db
  {
    OneRowApplied(db, AdvisoryR(0), FRESH_ACCOUNT, first);
  }

  lemma OneRowPut(db: Db, x: Resource, row: Row, first: nat)
    ensures Apply(db, Effect(map[x := row], None, []), first) == Put(db, x, row)
  {
    OneRowApplied(db, x, row, first);
  }

  lemma KeyedRowPut(db: Db, x: Resource, row: Row, user: Id, key: nat, digest: nat, reply: Reply, first: nat)
    requires x != KeyR(user, key)
    ensures Apply(db, Completing(Effect(map[x := row], None, []), user, key, digest, reply).effect, first)
            == WithKey(Put(db, x, row), user, key, digest, reply)
  {
    assert db.rows + map[x := row][KeyR(user, key) := Key(digest, Some(reply))]
           == db.rows[x := row][KeyR(user, key) := Key(digest, Some(reply))];
  }

  // ---------------------------------------------------------------- payments

  lemma SendPosts(p: Policy, db: Db, c: Command, self: Id, now: Instant, first: nat)
    requires c.Send? && c.payee.Some?
    ensures var t := SendTransfer(c, self, now);
            && Scripts.PostDoubleEntry(t, SendSeen(p, db, c)) == PostingOn(db, t)
            && (PaymentRefusal(db, t).Some? ==> PostingOn(db, t) == Refused(PaymentRefusal(db, t).value))
            && (PaymentRefusal(db, t).None? ==>
                  && PostingOn(db, t).Posted? && PostingOn(db, t).debited.Account? && PostingOn(db, t).credited.Account?
                  && IsAccountRow(db, t.from) && IsAccountRow(db, t.to)
                  && var reply := Reply(201, Receipt(self, c.amount, PostingOn(db, t).debited.balance));
                  && reply == Reply(201, Receipt(self, c.amount, BalanceOf(db, t.from) - t.amount))
                  && Apply(db, Completing(Movement(PostingOn(db, t)), c.user, c.key, c.digest, reply).effect, first)
                     == WithKey(PaymentMade(db, t, first), c.user, c.key, c.digest, reply))
  {
    var t := SendTransfer(c, self, now);
    PostingIsOrdered(db, t, SendSeen(p, db, c));
    PostingRefused(db, t);
    if PostingOn(db, t).Posted? {
      PostingMade(db, t, first);
      KeyedPaymentMade(db, t, c.user, c.key, c.digest, Reply(201, Receipt(self, c.amount, PostingOn(db, t).debited.balance)),
                       first);
    }
  }

  lemma SendKept(p: Policy, db: Db, c: Command, self: Id, now: Instant, first: nat, db': Db, r: Outcome<Reply>)
    requires c.Send? && Ends(SendVerdict(p, db, c, self, now), db, first, db', r)
    ensures SendPromise(p, db, c, self, now, first, db', r)
  {
    NothingApplied(db, first);
    if c.payee.Some? {
      SendPosts(p, db, c, self, now, first);
    }
  }

  lemma SettlementPosts(db: Db, c: Command, self: Id, now: Instant, row: Row, first: nat)
    requires c.Accept? && Lookup(db, RequestR(c.request)) == Some(row) && row.Request?
    ensures var t := SettlementTransfer(c, self, now, row);
            && Scripts.PostDoubleEntry(t, AcceptSeen(db, c)) == PostingOn(db, t)
            && (PaymentRefusal(db, t).Some? ==> PostingOn(db, t) == Refused(PaymentRefusal(db, t).value))
            && (PaymentRefusal(db, t).None? ==>
                  && PostingOn(db, t).Posted? && PostingOn(db, t).debited.Account? && PostingOn(db, t).credited.Account?
                  && IsAccountRow(db, t.from) && IsAccountRow(db, t.to)
                  && var reply := Reply(200, Settled(c.request, self, row.amount, PostingOn(db, t).debited.balance));
                  var e := Movement(PostingOn(db, t));
                  var settled := row.(state := ACCEPTED, settled := Some(self));
                  var accepted := e.(writes := e.writes[RequestR(c.request) := settled]);
                  && reply == Reply(200, Settled(c.request, self, row.amount, BalanceOf(db, t.from) - t.amount))
                  && Apply(db, Completing(accepted, c.user, c.key, c.digest, reply).effect, first)
                     == WithKey(Put(PaymentMade(db, t, first), RequestR(c.request), settled), c.user, c.key, c.digest, reply))
  {
    var t := SettlementTransfer(c, self, now, row);
    PostingIsOrdered(db, t, AcceptSeen(db, c));
    PostingRefused(db, t);
    if PostingOn(db, t).Posted? {
      PostingMade(db, t, first);
      var reply := Reply(200, Settled(c.request, self, row.amount, PostingOn(db, t).debited.balance));
      KeyedPaymentAndRow(db, t, RequestR(c.request), row.(state := ACCEPTED, settled := Some(self)), c.user, c.key, c.digest,
                         reply, first);
    }
  }

  lemma AcceptKept(p: Policy, db: Db, c: Command, self: Id, now: Instant, first: nat, db': Db, r: Outcome<Reply>)
    requires c.Accept? && Ends(AcceptVerdict(p, db, c, self, now), db, first, db', r)
    ensures AcceptPromise(p, db, c, self, now, first, db', r)
  {
    NothingApplied(db, first);
    var row := Lookup(db, RequestR(c.request));
    if row.Some? && row.value.Request? {
      SettlementPosts(db, c, self, now, row.value, first);
    }
  }

  lemma ReversalPosts(p: Policy, db: Db, c: Command, self: Id, now: Instant, original: Transfer, first: nat)
    requires c.Reverse? && FindTransfer(db.log, c.original) == Some(original) && original.id == c.original
    ensures var t := ReversalTransfer(c, self, now, original);
            && Scripts.PostDoubleEntry(t, ReverseSeen(db, c)) == PostingOn(db, t)
            && (PaymentRefusal(db, t).Some? ==> PostingOn(db, t) == Refused(PaymentRefusal(db, t).value))
            && (PaymentRefusal(db, t).None? ==>
                  && PostingOn(db, t).Posted? && PostingOn(db, t).debited.Account? && PostingOn(db, t).credited.Account?
                  && IsAccountRow(db, t.from) && IsAccountRow(db, t.to)
                  && var reply := Reply(201, Undone(self, original.id, original.amount, PostingOn(db, t).credited.balance));
                  var e := Movement(PostingOn(db, t));
                  var reversed := e.(writes := e.writes[TransferR(original.id) := TransferStatus(true)]);
                  && reply == Reply(201, Undone(self, original.id, original.amount, BalanceOf(db, t.to) + t.amount))
                  && Apply(db, Completing(reversed, c.user, c.key, c.digest, reply).effect, first)
                     == WithKey(Put(PaymentMade(db, t, first), TransferR(original.id), TransferStatus(true)),
                                c.user, c.key, c.digest, reply))
  {
    var t := ReversalTransfer(c, self, now, original);
    PostingIsOrdered(db, t, ReverseSeen(db, c));
    PostingRefused(db, t);
    if PostingOn(db, t).Posted? {
      PostingMade(db, t, first);
      var reply := Reply(201, Undone(self, original.id, original.amount, PostingOn(db, t).credited.balance));
      KeyedPaymentAndRow(db, t, TransferR(original.id), TransferStatus(true), c.user, c.key, c.digest, reply, first);
    }
  }

  lemma ReverseKept(p: Policy, db: Db, c: Command, self: Id, now: Instant, first: nat, db': Db, r: Outcome<Reply>)
    requires c.Reverse? && Ends(ReverseVerdict(p, db, c, self, now), db, first, db', r)
    ensures ReversePromise(p, db, c, self, now, first, db', r)
  {
    NothingApplied(db, first);
    FindTransferFinds(db.log, c.original);
    var found := FindTransfer(db.log, c.original);
    if found.Some? {
      ReversalPosts(p, db, c, self, now, found.value, first);
    }
  }

  lemma RegisterKept(p: Policy, db: Db, c: Command, self: Id, now: Instant, first: nat, db': Db, r: Outcome<Reply>)
    requires c.Register? && Ends(RegisterVerdict(p, db, c, self, now), db, first, db', r)
    ensures RegisterPromise(p, db, c, self, now, first, db', r)
  {
    var t := BonusTransfer(p, c, self, now);
    assert NewAccount(db, self) == WithAccount(db, self);
    PostingRefused(WithAccount(db, self), t);
    if PostingOn(WithAccount(db, self), t).Posted? {
      PostingMade(WithAccount(db, self), t, first);
      MintedOver(db, t, first);
    }
  }

  // ---------------------------------------------------------------- requests, accounts and schedules

  lemma CreateRequestKept(p: Policy, db: Db, c: Command, self: Id, now: Instant, first: nat, db': Db, r: Outcome<Reply>)
    requires c.CreateRequest? && Ends(OnlyRowVerdict(p, db, c, self, now), db, first, db', r)
    ensures CreateRequestPromise(p, db, c, self, db', r)
  {
    NothingApplied(db, first);
    if c.payer.Some? {
      var row := Request(c.user, c.payer.value, c.amount, c.expires, RequestStatus.PENDING, None);
      KeyedRowPut(db, RequestR(RequestId(self, 0)), row, c.user, c.key, c.digest, Reply(201, Created(self)), first);
    }
  }

  lemma CreateScheduleKept(p: Policy, db: Db, c: Command, self: Id, now: Instant, first: nat, db': Db, r: Outcome<Reply>)
    requires c.CreateSchedule? && Ends(OnlyRowVerdict(p, db, c, self, now), db, first, db', r)
    ensures CreateSchedulePromise(p, db, c, self, db', r)
  {
    NothingApplied(db, first);
    if c.payee.Some? {
      KeyedRowPut(db, ScheduleR(self), OrderedSchedule(c), c.user, c.key, c.digest, Reply(201, Created(self)), first);
    }
  }

  lemma TerminateKept(p: Policy, db: Db, c: Command, self: Id, now: Instant, first: nat, db': Db, r: Outcome<Reply>)
    requires c.Terminate? && Ends(OnlyRowVerdict(p, db, c, self, now), db, first, db', r)
    ensures TerminatePromise(db, c, db', r)
  {
    NothingApplied(db, first);
    var row := Lookup(db, RequestR(c.request));
    if row.Some? && row.value.Request? {
      OneRowPut(db, RequestR(c.request), row.value.(state := c.to), first);
    }
  }

  lemma SetStatusKept(p: Policy, db: Db, c: Command, self: Id, now: Instant, first: nat, db': Db, r: Outcome<Reply>)
    requires c.SetStatus? && Ends(OnlyRowVerdict(p, db, c, self, now), db, first, db', r)
    ensures SetStatusPromise(db, c, db', r)
  {
    NothingApplied(db, first);
    var row := Lookup(db, AccountR(c.account));
    if row.Some? && row.value.Account? {
      OneRowPut(db, AccountR(c.account), row.value.(status := c.target, version := row.value.version + 1), first);
    }
  }

  lemma TransitionKept(p: Policy, db: Db, c: Command, self: Id, now: Instant, first: nat, db': Db, r: Outcome<Reply>)
    requires c.Transition? && Ends(OnlyRowVerdict(p, db, c, self, now), db, first, db', r)
    ensures TransitionPromise(db, c, now, db', r)
  {
    NothingApplied(db, first);
    var row := Lookup(db, ScheduleR(c.schedule));
    if row.Some? && row.value.Schedule? {
      OneRowPut(db, ScheduleR(c.schedule), Transitioned(row.value, c.phase, now), first);
    }
  }

  lemma NudgeKept(p: Policy, db: Db, c: Command, self: Id, now: Instant, first: nat, db': Db, r: Outcome<Reply>)
    requires c.BringForward? && Ends(OnlyRowVerdict(p, db, c, self, now), db, first, db', r)
    ensures NudgePromise(db, c, now, db', r)
  {
    NothingApplied(db, first);
    var row := Lookup(db, ScheduleR(c.schedule));
    if row.Some? && row.value.Schedule? {
      OneRowPut(db, ScheduleR(c.schedule),
                row.value.(next := if now < SECOND then 0 else now - SECOND, retryAfter := None), first);
    }
  }

  lemma ExpireKept(p: Policy, db: Db, c: Command, self: Id, now: Instant, first: nat, db': Db, r: Outcome<Reply>)
    requires c.ExpireDue? && Ends(Verdict(p, db, c, self, now), db, first, db', r)
    ensures ExpirePromise(db, c, now, db', r)
  {
    ExpireEnds(p, db, c, self, now);
    var expired := Expired(Known(db, Verdicts.Requests(c.requests)), now);
    forall x ensures Lookup(db', x) ==
                     if x.RequestR? && x.request in c.requests && PastItsTime(Lookup(db, x), now)
                     then Some(db.rows[x].(state := EXPIRED)) else Lookup(db, x)
    {
      assert x.RequestR? && x.request in c.requests <==> x in Verdicts.Requests(c.requests);
      assert x in expired <==> x in Verdicts.Requests(c.requests) && PastItsTime(Lookup(db, x), now);
    }
  }

  // ---------------------------------------------------------------- split bills

  lemma {:induction false} NobodyUnaskable(payers: seq<Option<Id>>, user: Id)
    requires Unpayable(payers, user).None?
    ensures forall i: nat :: !FirstUnaskable(payers, user, i)
  {
  }

  lemma {:induction false} FirstDecides(payers: seq<Option<Id>>, user: Id) returns (i: nat)
    requires Unpayable(payers, user).Some?
    ensures FirstUnaskable(payers, user, i) && Unpayable(payers, user) == Some(WhyUnaskable(payers[i]))
  {
    var front := payers[..|payers| - 1];
    if Unpayable(front, user).Some? {
      i := FirstDecides(front, user);
    } else {
      i := |payers| - 1;
      assert forall j :: 0 <= j < i ==> payers[j] == front[j];
    }
  }

  // The rows a split writes, one by one.
  lemma SplitRowsAre(c: Command, self: Id)
    requires c.CreateSplit? && |c.payers| == |LegShares(c)|
    requires forall i :: 0 <= i < |c.payers| ==> c.payers[i].Some?
    ensures var rows := SplitRows(c, self);
            && SplitR(self) in rows && rows[SplitR(self)] == Split(c.user, c.total, |c.payers|)
            && (forall i: nat :: i < |c.payers| ==>
                  && RequestR(RequestId(self, i)) in rows
                  && rows[RequestR(RequestId(self, i))]
                     == Request(c.user, c.payers[i].value, LegShares(c)[i], c.expires, RequestStatus.PENDING, None))
            && (forall x :: x in rows ==>
                  x == SplitR(self) || (x.RequestR? && x.request.creator == self && x.request.leg < |c.payers|))
  {
    var rows := SplitRows(c, self);
    forall i: nat | i < |c.payers| ensures RequestR(RequestId(self, i)) in rows { }
  }

  lemma SplitRowsMade(db: Db, c: Command, self: Id, reply: Reply, first: nat)
    requires c.CreateSplit? && |c.payers| == |LegShares(c)|
    requires forall i :: 0 <= i < |c.payers| ==> c.payers[i].Some?
    ensures SplitMade(db, c, self, reply,
                      Apply(db, Completing(Effect(SplitRows(c, self), None, []), c.user, c.key, c.digest, reply).effect, first))
  {
    SplitRowsAre(c, self);
    var rows := SplitRows(c, self);
    var db' := Apply(db, Completing(Effect(rows, None, []), c.user, c.key, c.digest, reply).effect, first);
    assert db'.rows == db.rows + rows[KeyR(c.user, c.key) := Key(c.digest, Some(reply))];
    assert db'.log == db.log && db'.entries == db.entries;
  }

  lemma SplitRefusedKept(p: Policy, db: Db, c: Command, self: Id, db': Db, r: Outcome<Reply>)
    requires c.CreateSplit? && KeyR(c.user, c.key) !in db.rows && Unpayable(c.payers, c.user).Some?
    requires Sum(c.shares) == c.total && |LegShares(c)| == |c.payers|
    requires forall i :: 0 <= i < |LegShares(c)| ==> LegShares(c)[i] >= p.minTransfer
    requires Refuses(Unpayable(c.payers, c.user).value, db, db', r)
    ensures CreateSplitPromise(p, db, c, self, db', r)
  {
    var i := FirstDecides(c.payers, c.user);
    assert FirstUnaskable(c.payers, c.user, i) && Refuses(WhyUnaskable(c.payers[i]), db, db', r);
  }

  lemma CreateSplitKept(p: Policy, db: Db, c: Command, self: Id, first: nat, db': Db, r: Outcome<Reply>)
    requires c.CreateSplit? && Ends(SplitVerdict(p, db, c, self), db, first, db', r)
    ensures CreateSplitPromise(p, db, c, self, db', r)
  {
    NothingApplied(db, first);
    var well := && Sum(c.shares) == c.total && |LegShares(c)| == |c.payers|
                && (forall i :: 0 <= i < |LegShares(c)| ==> LegShares(c)[i] >= p.minTransfer)
                && KeyR(c.user, c.key) !in db.rows;
    if well && Unpayable(c.payers, c.user).Some? {
      SplitRefusedKept(p, db, c, self, db', r);
    } else if well {
      NobodyUnaskable(c.payers, c.user);
      SplitRowsMade(db, c, self, Reply(201, Created(self)), first);
    }
  }

  // ---------------------------------------------------------------- the scheduler

  lemma {:induction false} BackoffIs(p: Policy, n: nat)
    requires n >= 1
    ensures Backoff(p, n) == p.retryBase * Power2(n - 1) * SECOND
  {
    if n > 1 {
      BackoffIs(p, n - 1);
      Doubled(p.retryBase, Power2(n - 2));
    }
  }

  lemma Doubled(x: nat, y: nat)
    ensures x * (2 * y) * SECOND == 2 * (x * y * SECOND)
  {
    assert x * (2 * y) == 2 * (x * y);
  }

  lemma AdvancesOnward(row: Row, paid: bool)
    requires row.Schedule?
    ensures Scripts.AdvanceSchedule(row, paid) == Onward(row, paid)
  {
  }

  lemma RunRefusedIs(p: Policy, db: Db, self: Id, now: Instant, row: Row)
    requires row.Schedule?
    ensures Refusal(p, db, self, now, row) == RunRefusal(p, db, self, now, row)
  {
    PostingRefused(db, ScheduledPayment(self, now, row));
  }

  lemma TwoRowsPut(db: Db, id: Id, due: Instant, o: Row, s: Row, first: nat)
    ensures Apply(db, Effect(map[OccurrenceR(id, due) := o, ScheduleR(id) := s], None, []), first)
            == Put(Put(db, OccurrenceR(id, due), o), ScheduleR(id), s)
  {
    OccurrenceAndSchedule(db, id, due, o, o, s, first);
  }

  lemma RefusedKept(p: Policy, db: Db, c: Command, now: Instant, row: Row, n: nat, e: Error, first: nat, db': Db, r: Outcome<Reply>)
    requires c.Run? && row.Schedule? && n >= 1 && Ends(AfterRefusal(p, c, now, row, n, e), db, first, db', r)
    ensures if TriesAgain(p, e, n) then PutsOffBy(Backoff(p, n), db, c.schedule, row, n, now, db', r)
            else Settles(RunFailed, FAILED, db, c.schedule, row, n, db', r)
  {
    BackoffIs(p, n);
    AdvancesOnward(row, false);
    TwoRowsPut(db, c.schedule, row.next, Occurrence(OccurrenceStatus.PENDING, n, None),
               row.(retryAfter := Some(now + Backoff(p, n))), first);
    TwoRowsPut(db, c.schedule, row.next, Occurrence(FAILED, n, None), Onward(row, false), first);
  }

  lemma PaidKept(db: Db, c: Command, self: Id, now: Instant, row: Row, n: nat, first: nat)
    requires c.Run? && row.Schedule? && PostingOn(db, ScheduledPayment(self, now, row)).Posted?
    ensures IsAccountRow(db, row.from) && IsAccountRow(db, row.to)
    ensures Apply(db, PaidEffect(db, c, self, now, row, n), first)
            == Put(Put(PaymentMade(db, RunTransfer(self, now, row), first), OccurrenceR(c.schedule, row.next),
                       Occurrence(PAID, n, Some(self))), ScheduleR(c.schedule), Onward(row, true))
  {
    var t := ScheduledPayment(self, now, row);
    AdvancesOnward(row, true);
    PostingMade(db, t, first);
    var e := Movement(PostingOn(db, t));
    var o, s := OccurrenceR(c.schedule, row.next), ScheduleR(c.schedule);
    AlsoWrites(db, e, o, Occurrence(PAID, n, Some(self)), first);
    AlsoWrites(db, e.(writes := e.writes[o := Occurrence(PAID, n, Some(self))]), s, Onward(row, true), first);
  }

  lemma AttemptKept(p: Policy, db: Db, c: Command, self: Id, now: Instant, row: Row, n: nat, first: nat, db': Db, r: Outcome<Reply>)
    requires c.Run? && n >= 1 && row.Schedule? && Ends(AttemptVerdict(p, db, c, self, now, row, n), db, first, db', r)
    ensures match RunRefusal(p, db, self, now, row)
            case Some(e) =>
              if TriesAgain(p, e, n) then PutsOffBy(Backoff(p, n), db, c.schedule, row, n, now, db', r)
              else Settles(RunFailed, FAILED, db, c.schedule, row, n, db', r)
            case None =>
              && IsAccountRow(db, row.from) && IsAccountRow(db, row.to) && r == Ok(Reply(200, Ran(RunPaid)))
              && db' == Put(Put(PaymentMade(db, RunTransfer(self, now, row), first), OccurrenceR(c.schedule, row.next),
                                Occurrence(PAID, n, Some(self))), ScheduleR(c.schedule), Onward(row, true))
  {
    RunRefusedIs(p, db, self, now, row);
    var refusal := Refusal(p, db, self, now, row);
    if refusal.Some? {
      RefusedKept(p, db, c, now, row, n, refusal.value, first, db', r);
    } else {
      PaidKept(db, c, self, now, row, n, first);
    }
  }

  lemma RunKept(p: Policy, db: Db, c: Command, self: Id, now: Instant, first: nat, db': Db, r: Outcome<Reply>)
    requires c.Run? && Ends(RunVerdict(p, db, c, self, now), db, first, db', r)
    ensures RunPromise(p, db, c, self, now, first, db', r)
  {
    NothingApplied(db, first);
    if Claimable(Lookup(db, ScheduleR(c.schedule)), now) {
      var row := db.rows[ScheduleR(c.schedule)];
      var n := AttemptAt(db, c.schedule, row.next);
      AdvancesOnward(row, false);
      OneRowPut(db, ScheduleR(c.schedule), Onward(row, false), first);
      if n.Some? {
        TwoRowsPut(db, c.schedule, row.next, Occurrence(SKIPPED, n.value, None), Onward(row, false), first);
        if c.clockMs - row.next / 1000 <= p.graceMs {
          AttemptKept(p, db, c, self, now, row, n.value, first, db', r);
        }
      }
    }
  }

  // ---------------------------------------------------------------- every operation

  lemma RowsKept(p: Policy, db: Db, c: Command, self: Id, now: Instant, first: nat, db': Db, r: Outcome<Reply>)
    requires c.CreateRequest? || c.CreateSchedule? || c.Terminate? || c.Transition? || c.BringForward? || c.SetStatus?
    requires Ends(OnlyRowVerdict(p, db, c, self, now), db, first, db', r)
    ensures Promised(p, db, c, self, now, first, db', r)
  {
    match c
    case CreateRequest(_, _, _, _, _, _) => CreateRequestKept(p, db, c, self, now, first, db', r);
    case CreateSchedule(_, _, _, _, _, _, _, _, _) => CreateScheduleKept(p, db, c, self, now, first, db', r);
    case Terminate(_, _, _) => TerminateKept(p, db, c, self, now, first, db', r);
    case Transition(_, _, _) => TransitionKept(p, db, c, self, now, first, db', r);
    case BringForward(_) => NudgeKept(p, db, c, self, now, first, db', r);
    case SetStatus(_, _, _) => SetStatusKept(p, db, c, self, now, first, db', r);
  }

  // Whatever a script does when nobody else is about is what its operation promises: the reply and the
  // tables it promises when nothing stands against it, and otherwise the first thing that does.
  lemma VerdictIsPromised(p: Policy, db: Db, c: Command, self: Id, now: Instant, first: nat, db': Db, r: Outcome<Reply>)
    requires Ends(Verdict(p, db, c, self, now), db, first, db', r)
    ensures Promised(p, db, c, self, now, first, db', r)
  {
    if c.Send? {
      SendEnds(p, db, c, self, now);
      SendKept(p, db, c, self, now, first, db', r);
    } else if c.Accept? {
      AcceptEnds(p, db, c, self, now);
      AcceptKept(p, db, c, self, now, first, db', r);
    } else if c.Reverse? {
      ReverseEnds(p, db, c, self, now);
      ReverseKept(p, db, c, self, now, first, db', r);
    } else if c.Register? {
      RegisterEnds(p, db, c, self, now);
      RegisterKept(p, db, c, self, now, first, db', r);
    } else if c.CreateSplit? {
      SplitEnds(p, db, c, self, now);
      CreateSplitKept(p, db, c, self, first, db', r);
    } else if c.Run? {
      RunEnds(p, db, c, self, now);
      RunKept(p, db, c, self, now, first, db', r);
    } else if c.ExpireDue? {
      ExpireKept(p, db, c, self, now, first, db', r);
    } else {
      OnlyRowEnds(p, db, c, self, now);
      RowsKept(p, db, c, self, now, first, db', r);
    }
  }
}
