/**
 A run in which a commit is not its script run alone: a send reads the total spent, a settlement of
 the same account commits, and the send commits on the old total, past the daily limit.
 */
module Overspend {
  import opened Calendar
  import opened Store
  import opened Scripts
  import opened Engine
  import opened Serializability
  import opened Alone
  import opened Verdicts
  import opened Promises
  import opened System
  import opened Agreement
  import opened Payments
  import opened Opening

  // A send and a settlement of one account.
  datatype Race = Race(payer: Id, payee: Id, send: int, sendKey: nat, acceptKey: nat, request: RequestId)

  function Sending(r: Race): Command {
    Send(r.payer, r.sendKey, 0, Some(r.payee), r.send)
  }

  function Settling(r: Race): Command {
    Accept(r.payer, r.acceptKey, 0, r.request)
  }

  function AskedFor(db: Db, r: Race): int {
    var row := Lookup(db, RequestR(r.request));
    if row.Some? && row.value.Request? then row.value.amount else 0
  }

  // Each of the two would go through alone, and the account can pay for both; together they do not fit
  // the daily cap.
  ghost predicate Tempted(p: Policy, s: State, r: Race) {
    && Quiet(s) && r.sendKey != r.acceptKey
    && SendAllowed(p, s.db, Sending(r), s.now) && SettlementAllowed(p, s.db, Settling(r), s.now)
    && CanPay(s.db, r.payer, r.send + AskedFor(s.db, r))
    && OutboundSince(s.db.rows, s.db.log, r.payer, s.now as int - DAY) + r.send + AskedFor(s.db, r) > p.dailyLimit
  }

  // ---------------------------------------------------------------- the send takes its counts

  function SendersLocks(p: Policy, r: Race): set<Resource> {
    {KeyR(r.payer, r.sendKey), AdvisoryR(p.slot(r.payer))}
  }

  function SendersRows(p: Policy, db: Db, r: Race): Seen {
    map[KeyR(r.payer, r.sendKey) := None, AdvisoryR(p.slot(r.payer)) := Lookup(db, AdvisoryR(p.slot(r.payer)))]
  }

  function SendersCounts(p: Policy, db: Db, r: Race, now: Instant): Obs {
    var recent, spent := Velocity(r.payer, now as int - p.window), Outbound(r.payer, now as int - DAY);
    map[recent := Result(db, recent), spent := Result(db, spent)]
  }

  // The sender has its key, its advisory lock and its counts, all from `db`, and no account yet.
  ghost predicate HasCounted(p: Policy, s: State, s': State, r: Race) {
    && s.nextTx !in s.active
    && s' == s.(nextTx := s.nextTx + 1,
                active := s.active[s.nextTx := Tx(Sending(r), s.now, SendersLocks(p, r), SendersRows(p, s.db, r),
                                                  SendersCounts(p, s.db, r, s.now), None)])
  }

  lemma SenderBegins(p: Policy, s: State, r: Race) returns (s': State)
    requires Reachable(p, s) && Quiet(s) && SendAllowed(p, s.db, Sending(r), s.now)
    ensures Reachable(p, s')
    ensures s' == s.(nextTx := s.nextTx + 1,
                     active := s.active[s.nextTx := Tx(Sending(r), s.now, {KeyR(r.payer, r.sendKey)},
                                                       map[KeyR(r.payer, r.sendKey) := None], map[], None)])
  {
    var t, k := s.nextTx, KeyR(r.payer, r.sendKey);
    var s1 := StepReaches(p, s, Begin(Sending(r)));
    assert PlanOf(p, s1, t) == Insert(k);
    s' := StepReaches(p, s1, Step(t));
    assert s'.active[t].held == {k};
    assert s'.active[t].seen == map[k := None];
  }

  lemma SenderLocks(p: Policy, s: State, r: Race, t: Id) returns (s': State)
    requires Reachable(p, s) && t in s.active && SendAllowed(p, s.db, Sending(r), s.now)
    requires forall u :: u in s.active && u != t ==> s.active[u].held == {}
    requires s.active[t] == Tx(Sending(r), s.now, {KeyR(r.payer, r.sendKey)}, map[KeyR(r.payer, r.sendKey) := None],
                               map[], None)
    ensures Reachable(p, s')
    ensures s' == s.(active := s.active[t := Tx(Sending(r), s.now, SendersLocks(p, r), SendersRows(p, s.db, r), map[], None)])
  {
    assert PlanOf(p, s, t) == Insert(AdvisoryR(p.slot(r.payer)));
    s' := StepReaches(p, s, Step(t));
    assert s'.active[t].held == SendersLocks(p, r);
    assert s'.active[t].seen == SendersRows(p, s.db, r);
  }

  lemma SenderCounts(p: Policy, s: State, r: Race, t: Id) returns (s': State)
    requires Reachable(p, s) && t in s.active && SendAllowed(p, s.db, Sending(r), s.now)
    requires s.active[t] == Tx(Sending(r), s.now, SendersLocks(p, r), SendersRows(p, s.db, r), map[], None)
    ensures Reachable(p, s')
    ensures s' == s.(active := s.active[t := s.active[t].(obs := SendersCounts(p, s.db, r, s.now))])
  {
    var recent, spent := Velocity(r.payer, s.now as int - p.window), Outbound(r.payer, s.now as int - DAY);
    assert PlanOf(p, s, t) == Ask(recent);
    var s1 := StepReaches(p, s, Step(t));
    assert s1.active[t].obs == map[recent := Result(s.db, recent)];
    assert PlanOf(p, s1, t) == Ask(spent);
    s' := StepReaches(p, s1, Step(t));
    assert s'.active[t].obs == SendersCounts(p, s.db, r, s.now);
  }

  lemma SenderIsReady(p: Policy, s: State, r: Race) returns (s': State)
    requires Reachable(p, s) && Quiet(s) && SendAllowed(p, s.db, Sending(r), s.now)
    ensures Reachable(p, s') && HasCounted(p, s, s', r)
  {
    var s1 := SenderBegins(p, s, r);
    var s2 := SenderLocks(p, s1, r, s.nextTx);
    s' := SenderCounts(p, s2, r, s.nextTx);
  }

  // ---------------------------------------------------------------- the settlement slips in

  lemma SettlementIsApart(p: Policy, db: Db, r: Race, now: Instant)
    requires r.sendKey != r.acceptKey
    ensures SendersLocks(p, r) !! Touched(p, db, Settling(r), now)
  {
  }

  // The sender's accounts can still do what it wants, and the cap no longer allows it.
  ghost predicate StillTempting(p: Policy, db: Db, r: Race, start: Instant) {
    && CanPay(db, r.payer, r.send) && CanReceive(db, r.payee) && KeyR(r.payer, r.sendKey) !in db.rows
    && OutboundSince(db.rows, db.log, r.payer, start as int - DAY) + r.send > p.dailyLimit
  }

  // The settlement has committed, and the sender has not noticed.
  ghost predicate Overtaken(p: Policy, s: State, s': State, r: Race, t: Id) {
    && t in s'.active
    && s'.active[t] == Tx(Sending(r), s.now, SendersLocks(p, r), SendersRows(p, s.db, r),
                          SendersCounts(p, s.db, r, s.now), None)
    && (forall u :: u in s'.active && u != t ==> s'.active[u].held == {})
    && StillTempting(p, s'.db, r, s.now)
  }

  lemma CapIsSpent(p: Policy, db: Db, db': Db, r: Race, t: Transfer, now: Instant)
    requires SpentMoved(db, db', t) && CountsAsSpent(t, r.payer, now as int - DAY)
    requires OutboundSince(db.rows, db.log, r.payer, now as int - DAY) + r.send + t.amount > p.dailyLimit
    ensures OutboundSince(db'.rows, db'.log, r.payer, now as int - DAY) + r.send > p.dailyLimit
  {
  }

  lemma AccountsCanStill(db: Db, db': Db, r: Race, t: Transfer)
    requires AccountsMoved(db, db', t) && t.from == r.payer && t.amount > 0
    requires CanPay(db, r.payer, r.send + t.amount) && CanReceive(db, r.payee)
    ensures CanPay(db', r.payer, r.send) && CanReceive(db', r.payee)
  {
    assert Lookup(db', AccountR(r.payer)) == AccountAfter(Lookup(db, AccountR(r.payer)), t, r.payer);
    assert Lookup(db', AccountR(r.payee)) == AccountAfter(Lookup(db, AccountR(r.payee)), t, r.payee);
  }

  lemma LeavesTempting(p: Policy, db: Db, db': Db, r: Race, t: Transfer, now: Instant)
    requires Paid(db, db', t) && OnlyKeyAndRequest(db, db', KeyR(r.payer, r.acceptKey), RequestR(r.request))
    requires t.amount > 0 && CountsAsSpent(t, r.payer, now as int - DAY) && r.sendKey != r.acceptKey
    requires CanPay(db, r.payer, r.send + t.amount) && CanReceive(db, r.payee) && KeyR(r.payer, r.sendKey) !in db.rows
    requires OutboundSince(db.rows, db.log, r.payer, now as int - DAY) + r.send + t.amount > p.dailyLimit
    ensures StillTempting(p, db', r, now)
  {
    CapIsSpent(p, db, db', r, t, now);
    AccountsCanStill(db, db', r, t);
    assert Lookup(db', KeyR(r.payer, r.sendKey)) == Lookup(db, KeyR(r.payer, r.sendKey));
  }

  lemma SettlementLeaves(p: Policy, s: State, r: Race, self: Id, first: nat)
    requires Tempted(p, s, r) && forall x :: x in s.db.log ==> x.id != self
    ensures Verdict(p, s.db, Settling(r), self, s.now).Commit?
    ensures StillTempting(p, Apply(s.db, Verdict(p, s.db, Settling(r), self, s.now).effect, first), r, s.now)
  {
    var t := SettlementTransfer(Settling(r), self, s.now, s.db.rows[RequestR(r.request)]);
    SettlementCommits(p, s.db, Settling(r), self, s.now, first);
    LeavesTempting(p, s.db, Apply(s.db, Verdict(p, s.db, Settling(r), self, s.now).effect, first), r, t, s.now);
  }

  lemma SettlementSlipsIn(p: Policy, s: State, s1: State, r: Race) returns (s': State)
    requires ValidPolicy(p) && Reachable(p, s1) && Tempted(p, s, r) && HasCounted(p, s, s1, r)
    ensures Reachable(p, s') && Overtaken(p, s, s', r, s.nextTx)
  {
    IdsAreFresh(p, s1);
    SettlementIsApart(p, s.db, r, s.now);
    SettlementLeaves(p, s, r, s1.nextTx, s1.nextEntry);
    s' := PlaysAmong(p, s1, Settling(r));
  }

  // ---------------------------------------------------------------- the send goes out on its old counts

  lemma CountsPass(p: Policy, db: Db, r: Race, self: Id, now: Instant, seen: Seen)
    requires SendAllowed(p, db, Sending(r), now)
    requires KeyR(r.payer, r.sendKey) in seen && seen[KeyR(r.payer, r.sendKey)].None? && AdvisoryR(p.slot(r.payer)) in seen
    ensures var next := PlanSend(p, Sending(r), self, now, seen, SendersCounts(p, db, r, now));
            match PostDoubleEntry(SendTransfer(Sending(r), self, now), seen)
            case NeedRow(row) => next == Lock(row)
            case Refused(e) => next == Fail(e)
            case Posted(_, _, _) => next.Commit?
  {
  }

  function BothRows(p: Policy, before: Db, db: Db, r: Race): Seen {
    SendersRows(p, before, r)[AccountR(r.payer) := Lookup(db, AccountR(r.payer))]
                             [AccountR(r.payee) := Lookup(db, AccountR(r.payee))]
  }

  // The sender holds everything it needs.
  ghost predicate AboutToCommit(p: Policy, s: State, s': State, r: Race, t: Id) {
    && t in s'.active && s'.active[t].command == Sending(r) && s'.active[t].start == s.now && s'.active[t].first.None?
    && s'.active[t].obs == SendersCounts(p, s.db, r, s.now) && s'.active[t].seen == BothRows(p, s.db, s'.db, r)
  }

  // The sender waits for nobody at its next account.
  lemma SenderLocksNext(p: Policy, s: State, s1: State, r: Race, t: Id, a: Id) returns (s': State)
    requires SendAllowed(p, s.db, Sending(r), s.now) && Reachable(p, s1) && t in s1.active && s1.active[t].first.None?
    requires s1.active[t].command == Sending(r) && s1.active[t].start == s.now
    requires s1.active[t].obs == SendersCounts(p, s.db, r, s.now)
    requires KeyR(r.payer, r.sendKey) in s1.active[t].seen && s1.active[t].seen[KeyR(r.payer, r.sendKey)].None?
    requires AdvisoryR(p.slot(r.payer)) in s1.active[t].seen
    requires PostDoubleEntry(SendTransfer(Sending(r), t, s.now), s1.active[t].seen) == NeedRow(AccountR(a))
    requires AccountR(a) in s1.db.rows
    requires forall u :: u in s1.active && u != t ==> s1.active[u].held == {}
    ensures Reachable(p, s') && s' == s1.(active := s1.active[t := Take(s1.db, s1.active[t], AccountR(a))])
  {
    CountsPass(p, s.db, r, t, s.now, s1.active[t].seen);
    assert PlanOf(p, s1, t) == Lock(AccountR(a));
    s' := StepReaches(p, s1, Step(t));
  }

  lemma SenderLocksAccounts(p: Policy, s: State, s1: State, r: Race, t: Id) returns (s': State)
    requires SendAllowed(p, s.db, Sending(r), s.now) && Reachable(p, s1) && Overtaken(p, s, s1, r, t)
    ensures Reachable(p, s') && s'.db == s1.db && AboutToCommit(p, s, s', r, t)
  {
    var lo := if r.payer < r.payee then r.payer else r.payee;
    var hi := if r.payer < r.payee then r.payee else r.payer;
    var s2 := SenderLocksNext(p, s, s1, r, t, lo);
    s' := SenderLocksNext(p, s, s2, r, t, hi);
    assert s'.active[t].seen == BothRows(p, s.db, s1.db, r);
  }

  lemma SenderCommits(p: Policy, s: State, s1: State, r: Race, t: Id) returns (s': State)
    requires SendAllowed(p, s.db, Sending(r), s.now) && Reachable(p, s1) && AboutToCommit(p, s, s1, r, t)
    requires CanPay(s1.db, r.payer, r.send) && CanReceive(s1.db, r.payee)
    ensures Reachable(p, s') && s'.db == s1.db && Commits(p, s', Step(t))
    ensures s'.active[t].command == Sending(r) && s'.active[t].start == s.now
    ensures s'.active[t].seen == s1.active[t].seen
  {
    PostingGoes(s1.db, SendTransfer(Sending(r), t, s.now));
    PostingIsOrdered(s1.db, SendTransfer(Sending(r), t, s.now), s1.active[t].seen);
    CountsPass(p, s.db, r, t, s.now, s1.active[t].seen);
    s' := StepReaches(p, s1, Step(t));
    assert PlanOf(p, s', t) == PlanOf(p, s1, t);
  }

  // What the account has paid out in the last 24 hours, and what it is about to send, is too much.
  predicate BreaksTheCap(p: Policy, s: State, t: Id, r: Race) {
    && t in s.active && s.active[t].command == Sending(r)
    && OutboundSince(s.db.rows, s.db.log, r.payer, s.active[t].start as int - DAY) + r.send > p.dailyLimit
  }

  lemma CanOvertake(p: Policy, s: State, r: Race) returns (s': State)
    requires ValidPolicy(p) && Reachable(p, s) && Tempted(p, s, r)
    ensures Reachable(p, s') && Commits(p, s', Step(s.nextTx)) && BreaksTheCap(p, s', s.nextTx, r)
    ensures !Replays(Sending(r), s'.active[s.nextTx].seen)
  {
    var s1 := SenderIsReady(p, s, r);
    var s2 := SettlementSlipsIn(p, s, s1, r);
    var s3 := SenderLocksAccounts(p, s, s2, r, s.nextTx);
    s' := SenderCommits(p, s, s3, r, s.nextTx);
  }

  // The guard of a send is real: wherever a send and a settlement of one account would each go through
  // alone, are covered by its balance, and do not fit the daily cap together, a commit can be reached
  // that is not its script run alone, and that takes the day's payments past the cap.
  lemma CommitNeedNotBeVerdict(p: Policy, s: State, r: Race) returns (s': State)
    requires ValidPolicy(p) && Reachable(p, s) && Tempted(p, s, r)
    ensures Reachable(p, s') && Commits(p, s', Step(s.nextTx)) && BreaksTheCap(p, s', s.nextTx, r)
    ensures var tx := s'.active[s.nextTx];
            PlanOf(p, s', s.nextTx) != Verdict(p, s'.db, tx.command, s.nextTx, tx.start)
  {
    s' := CanOvertake(p, s, r);
    CommitIsVerdictIff(p, s', s.nextTx);
  }
}
