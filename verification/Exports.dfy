/**
 Exports of a running system: the tables that the pages of an export find, and a run in which the
 export writes a row that was not there when it began.
 */
module Exports {
  import opened Calendar
  import opened Store
  import opened Scripts
  import opened Engine
  import opened Promises
  import opened Undisturbed
  import opened System
  import opened Ranking
  import opened Statement
  import opened Payments
  import opened Opening

  // ---------------------------------------------------------------- the tables of a run

  // `at(k)` is the state of the system when the k-th page is read.
  ghost predicate Watches(p: Policy, at: nat -> State) {
    Reachable(p, at(0)) && forall k: nat :: GoesOnAt(p, at, k)
  }

  ghost predicate GoesOnAt(p: Policy, at: nat -> State, k: nat) {
    LaterStage(p, at(k), at(k + 1))
  }

  function TableOf(at: nat -> State): Table {
    (k: nat) => at(k).db.entries
  }

  lemma LaterIsReachable(p: Policy, s: State, s': State)
    requires Reachable(p, s) && LaterStage(p, s, s')
    ensures Reachable(p, s')
  {
    var run :| Legal(p, s, run) && s' == Play(p, s, run);
    ReachableOn(p, s, run);
  }

  lemma LaterExtends(p: Policy, s: State, s': State)
    requires ValidPolicy(p) && Reachable(p, s) && LaterStage(p, s, s')
    ensures s.db.entries <= s'.db.entries
  {
    ReachableIsGood(p, s);
    var run :| Legal(p, s, run) && s' == Play(p, s, run);
    RunKeepsGood(p, s, run);
  }

  lemma {:induction false} WatchedIsReachable(p: Policy, at: nat -> State, k: nat)
    requires Watches(p, at)
    ensures Reachable(p, at(k))
  {
    if k > 0 {
      WatchedIsReachable(p, at, k - 1);
      assert GoesOnAt(p, at, k - 1);
      LaterIsReachable(p, at(k - 1), at(k));
    }
  }

  lemma ReachableIsKeyed(p: Policy, s: State, account: Id)
    requires ValidPolicy(p) && Reachable(p, s)
    ensures Keyed(s.db.entries, account)
  {
    ReachableIsGood(p, s);
    LedgerIsKeyed(s.db, account);
  }

  // Whatever happens between the pages of an export, the tables they read only grow, and their sort key
  // is unique: what is proved of exports holds of every export of a running system.
  lemma TablesGrow(p: Policy, at: nat -> State, account: Id)
    requires ValidPolicy(p) && Watches(p, at)
    ensures Grows(TableOf(at), account)
  {
    var table := TableOf(at);
    forall k: nat ensures table(k) <= table(k + 1) && Keyed(table(k), account) {
      WatchedIsReachable(p, at, k);
      assert GoesOnAt(p, at, k);
      LaterExtends(p, at(k), at(k + 1));
      ReachableIsKeyed(p, at(k), account);
    }
  }

  // An export of a running system is the table at its start exactly when no late row is there in time.
  lemma WatchedExportIff(p: Policy, at: nat -> State, f: Filters, pageSize: nat, cursors: Cursors, out: seq<Entry>)
    requires ValidPolicy(p) && Watches(p, at)
    requires Exported(TableOf(at), f, cursors, out) && Paged(TableOf(at), f, pageSize, cursors)
    ensures out == Listing(at(0).db.entries, f) <==> !exists k: nat, e :: LateAt(TableOf(at), f, pageSize, k, e)
  {
    TablesGrow(p, at, f.account);
    StatementIsTheStartIff(TableOf(at), f, pageSize, cursors, out);
  }

  // ---------------------------------------------------------------- newer rows fill the first page

  // How many rows at the front of a listing are newer than `t`.
  function NewerThan(rows: seq<Entry>, t: int): (n: nat)
    ensures n <= |rows|
  {
    if |rows| == 0 || rows[0].leg.createdAt <= t then 0 else 1 + NewerThan(rows[1..], t)
  }

  lemma {:induction false} NewerComeFirst(rows: seq<Entry>, t: int)
    requires Descending(rows)
    ensures forall i :: 0 <= i < NewerThan(rows, t) ==> rows[i].leg.createdAt > t
    ensures forall i :: NewerThan(rows, t) <= i < |rows| ==> rows[i].leg.createdAt <= t
  {
    if |rows| > 0 {
      var rest := rows[1..];
      NewerComeFirst(rest, t);
      assert forall i :: 0 < i < |rows| ==> rows[i] == rest[i - 1];
      assert forall i :: 0 < i < |rows| ==> Newer(rows[0], rows[i]);
    }
  }

  lemma {:induction false} BatchIsSmall<T>(xs: seq<T>)
    ensures |Batch(xs)| <= |xs|
  {
    if |xs| > 0 {
      var rest := xs[..|xs| - 1];
      BatchIsSmall(rest);
      assert Batch(xs) == Batch(rest) + {xs[|xs| - 1]};
    }
  }

  // Different entries that match and are newer than `t`.
  ghost predicate NewMatches(entries: seq<Entry>, f: Filters, found: seq<Entry>, t: int) {
    && (forall i, j :: 0 <= i < j < |found| ==> found[i] != found[j])
    && (forall e :: e in found ==> e in entries && Matches(f, e) && e.leg.createdAt > t)
  }

  lemma NewerFillThePage(entries: seq<Entry>, f: Filters, found: seq<Entry>, t: int)
    requires Keyed(entries, f.account) && NewMatches(entries, f, found, t)
    ensures |found| <= |Listing(entries, f)|
    ensures |found| > 0 ==> Listing(entries, f)[|found| - 1].leg.createdAt > t
  {
    var rows := Listing(entries, f);
    var n := NewerThan(rows, t);
    ListingIs(entries, f);
    NewerComeFirst(rows, t);
    forall e | e in found ensures e in rows[..n] {
      var i :| 0 <= i < |rows| && rows[i] == e;
      assert i < n && rows[..n][i] == e;
    }
    DistinctBatch(found);
    NoMore(Batch(found), Batch(rows[..n]));
    BatchIsSmall(rows[..n]);
  }

  // ---------------------------------------------------------------- a crowd pays a merchant

  const MERCHANT: Id := STRIPES + 1

  function Buyer(k: nat): Id {
    STRIPES + 2 + k
  }

  function Buying(k: nat, amount: int): Command {
    Send(Buyer(k), 0, 0, Some(MERCHANT), amount)
  }

  // Configurations under which a new customer can pay the amount.
  predicate Affordable(p: Policy, amount: int) {
    && ValidPolicy(p) && p.maxTransfers >= 1
    && 0 < amount && p.minTransfer <= amount <= p.maxTransfer && amount <= p.dailyLimit && amount <= p.signupBonus
  }

  // Filters that let the merchant's receipts of that amount and of those two moments through.
  predicate Admits(f: Filters, amount: int, now: Instant) {
    && f.account == MERCHANT && (f.direction.Some? ==> f.direction.value == CREDIT)
    && (f.from.Some? ==> f.from.value <= now) && (f.to.Some? ==> now + 1 < f.to.value)
    && (f.least.Some? ==> f.least.value <= amount) && (f.most.Some? ==> amount <= f.most.value)
  }

  predicate Receipt(e: Entry, amount: int, now: Instant) {
    e.leg.account == MERCHANT && e.leg.direction == CREDIT && e.leg.amount == amount && e.leg.createdAt == now
  }

  lemma ReceiptsMatch(f: Filters, amount: int, now: Instant, e: Entry)
    requires Admits(f, amount, now) && (Receipt(e, amount, now) || Receipt(e, amount, now + 1))
    ensures Matches(f, e)
  {
  }

  // The receipts so far, numbered as they came.
  ghost predicate Sold(db: Db, found: seq<Entry>, amount: int, now: Instant) {
    && (forall i, j :: 0 <= i < j < |found| ==> found[i].id < found[j].id)
    && (forall i :: 0 <= i < |found| ==> found[i] in db.entries && Receipt(found[i], amount, now))
  }

  // `k` of the `n` buyers have paid, and one more, who began before them, has done nothing yet.
  ghost predicate Crowd(p: Policy, s: State, k: nat, n: nat, amount: int, start: Instant, late: Id) {
    && Reachable(p, s) && Quiet(s) && s.now == start + 1
    && s.active == map[late := Tx(Buying(n, amount), start, {}, map[], map[], None)]
    && CanReceive(s.db, MERCHANT)
    && (forall j: nat :: k <= j <= n ==> Unspent(p, s.db, Buyer(j)))
  }

  lemma LateBegins(p: Policy, n: nat, amount: int, start: Instant) returns (s: State, late: Id)
    requires Affordable(p, amount)
    ensures Crowd(p, s, 0, n, amount, start, late)
  {
    var s0 := People(p, start, n + 2);
    late := s0.nextTx;
    var s1 := StepReaches(p, s0, Begin(Buying(n, amount)));
    s := TimePasses(p, s1, 1);
    IdsAreFresh(p, s);
    OpenedIsUnspent(p, s0.db, STRIPES + 3 + n);
    assert Unspent(p, s.db, MERCHANT);
  }

  lemma NewReceipt(s: Db, s': Db, c: Command, k: nat, amount: int, self: Id, now: Instant, first: nat)
    requires c == Buying(k, amount) && IsAccountRow(s, c.user) && IsAccountRow(s, MERCHANT)
    requires SendDone(s, s', c, self, now, first)
    ensures exists e :: e in s'.entries && e.id == first + 1 && Receipt(e, amount, now)
  {
    var from, to := s.rows[AccountR(c.user)], s.rows[AccountR(MERCHANT)];
    var added := Number(LegsOf(SendTransfer(c, self, now), from.balance - amount, to.balance + amount), first);
    assert added[1] in added && Receipt(added[1], amount, now);
  }

  lemma SoldMore(db: Db, db': Db, found: seq<Entry>, e: Entry, amount: int, now: Instant)
    requires Sold(db, found, amount, now) && db.entries <= db'.entries
    requires e in db'.entries && Receipt(e, amount, now) && forall x :: x in db.entries ==> x.id < e.id
    ensures Sold(db', found + [e], amount, now)
  {
  }

  lemma CrowdStays(p: Policy, db: Db, db': Db, k: nat, n: nat, amount: int, self: Id, now: Instant, first: nat)
    requires k < n && IsAccountRow(db, Buyer(k)) && CanReceive(db, MERCHANT)
    requires SendDone(db, db', Buying(k, amount), self, now, first)
    requires forall j: nat :: k <= j <= n ==> Unspent(p, db, Buyer(j))
    ensures CanReceive(db', MERCHANT)
    ensures forall j: nat :: k + 1 <= j <= n ==> Unspent(p, db', Buyer(j))
  {
    var t := SendTransfer(Buying(k, amount), self, now);
    assert Lookup(db', AccountR(MERCHANT)) == AccountAfter(Lookup(db, AccountR(MERCHANT)), t, MERCHANT);
    forall j: nat | k + 1 <= j <= n ensures Unspent(p, db', Buyer(j)) {
      OthersStayUnspent(p, db, db', t, KeyR(Buyer(k), 0), Buyer(j));
    }
  }

  lemma BuyerPays(p: Policy, s: State, k: nat, n: nat, amount: int, start: Instant, late: Id, found: seq<Entry>)
    returns (s': State, found': seq<Entry>)
    requires Affordable(p, amount) && k < n && Crowd(p, s, k, n, amount, start, late) && Sold(s.db, found, amount, start + 1)
    ensures Crowd(p, s', k + 1, n, amount, start, late) && Sold(s'.db, found', amount, start + 1) && |found'| == |found| + 1
  {
    var c := Buying(k, amount);
    assert Unspent(p, s.db, Buyer(k));
    UnspentMaySend(p, s.db, c, s.now);
    s' := SendsAlone(p, s, c);
    CrowdStays(p, s.db, s'.db, k, n, amount, s.nextTx, s.now, s.nextEntry);
    NewReceipt(s.db, s'.db, c, k, amount, s.nextTx, s.now, s.nextEntry);
    var e :| e in s'.db.entries && e.id == s.nextEntry + 1 && Receipt(e, amount, s.now);
    EntriesAreOld(p, s);
    SoldMore(s.db, s'.db, found, e, amount, start + 1);
    found' := found + [e];
  }

  lemma EntriesAreOld(p: Policy, s: State)
    requires ValidPolicy(p) && Reachable(p, s)
    ensures forall e :: e in s.db.entries ==> e.id < s.nextEntry
  {
    ReachableIsGood(p, s);
  }

  lemma {:induction false} CrowdPays(p: Policy, s: State, k: nat, n: nat, amount: int, start: Instant, late: Id,
                                     found: seq<Entry>)
    returns (s': State, found': seq<Entry>)
    requires Affordable(p, amount) && k <= n && Crowd(p, s, k, n, amount, start, late)
    requires Sold(s.db, found, amount, start + 1) && |found| == k
    ensures Crowd(p, s', n, n, amount, start, late) && Sold(s'.db, found', amount, start + 1) && |found'| == n
    decreases n - k
  {
    s', found' := s, found;
    if k < n {
      s', found' := BuyerPays(p, s, k, n, amount, start, late, found);
      s', found' := CrowdPays(p, s', k + 1, n, amount, start, late, found');
    }
  }

  // ---------------------------------------------------------------- the one who began first commits last

  lemma LateIsUnderway(p: Policy, s: State, c: Command, start: Instant, late: Id)
    requires s.active == map[late := Tx(c, start, {}, map[], map[], None)]
    ensures Underway(p, s, late)
  {
  }

  lemma LateRuns(p: Policy, s: State, n: nat, amount: int, start: Instant, late: Id) returns (s': State)
    requires Affordable(p, amount) && Crowd(p, s, n, n, amount, start, late) && SendAllowed(p, s.db, Buying(n, amount), start)
    ensures LaterStage(p, s, s') && SendDone(s.db, s'.db, Buying(n, amount), late, start, s.nextEntry)
  {
    LateIsFresh(p, s, late);
    SendCommits(p, s.db, Buying(n, amount), late, start, s.nextEntry);
    LateIsUnderway(p, s, Buying(n, amount), start, late);
    var run := RunsOn(p, s, late);
    s' := Play(p, s, run);
  }

  lemma LateCommits(p: Policy, s: State, n: nat, amount: int, start: Instant, late: Id) returns (s': State, e: Entry)
    requires Affordable(p, amount) && Crowd(p, s, n, n, amount, start, late)
    ensures LaterStage(p, s, s') && e in s'.db.entries && e !in s.db.entries && Receipt(e, amount, start)
  {
    assert Unspent(p, s.db, Buyer(n));
    UnspentMaySend(p, s.db, Buying(n, amount), start);
    s' := LateRuns(p, s, n, amount, start, late);
    NewReceipt(s.db, s'.db, Buying(n, amount), n, amount, late, start, s.nextEntry);
    e :| e in s'.db.entries && e.id == s.nextEntry + 1 && Receipt(e, amount, start);
    EntriesAreOld(p, s);
  }

  lemma LateIsFresh(p: Policy, s: State, late: Id)
    requires ValidPolicy(p) && Reachable(p, s) && late in s.active
    ensures forall x :: x in s.db.log ==> x.id != late
  {
    ReachableIsGood(p, s);
  }

  // ---------------------------------------------------------------- the export

  function Twice(s: State, s': State): nat -> State {
    (k: nat) => if k == 0 then s else s'
  }

  lemma TwiceWatches(p: Policy, s: State, s': State)
    requires Reachable(p, s) && LaterStage(p, s, s')
    ensures Watches(p, Twice(s, s'))
  {
    assert Legal(p, s', []) && s' == Play(p, s', []);
    forall k: nat ensures GoesOnAt(p, Twice(s, s'), k) { }
  }

  lemma LateRowIsThere(p: Policy, s: State, s': State, f: Filters, found: seq<Entry>, e: Entry, amount: int, start: Instant)
    requires ValidPolicy(p) && Reachable(p, s) && Admits(f, amount, start) && |found| > 0
    requires Sold(s.db, found, amount, start + 1) && e in s'.db.entries && e !in s.db.entries && Receipt(e, amount, start)
    ensures LateAt(TableOf(Twice(s, s')), f, |found|, 1, e)
  {
    ReachableIsKeyed(p, s, f.account);
    forall x | x in found ensures x in s.db.entries && Matches(f, x) && x.leg.createdAt > start {
      ReceiptsMatch(f, amount, start, x);
    }
    NewerFillThePage(s.db.entries, f, found, start);
    ReceiptsMatch(f, amount, start, e);
  }

  // Under every configuration, for every page size and whatever filters, a run of the system in which
  // every export that reads its pages meanwhile writes a row that was not there when it began: a payment
  // that began before a page's worth of others and committed after the first page was read.
  lemma LateRowIsWritten(p: Policy, f: Filters, pageSize: nat, amount: int, start: Instant)
    returns (at: nat -> State, late: Entry)
    requires Affordable(p, amount) && Admits(f, amount, start) && pageSize > 0
    ensures Watches(p, at) && Grows(TableOf(at), f.account) && late !in at(0).db.entries
    ensures LateAt(TableOf(at), f, pageSize, 1, late)
    ensures forall cursors, out :: Exported(TableOf(at), f, cursors, out) && Paged(TableOf(at), f, pageSize, cursors) ==>
              late in out && out != Listing(at(0).db.entries, f)
  {
    var s0, t := LateBegins(p, pageSize, amount, start);
    var s, found := CrowdPays(p, s0, 0, pageSize, amount, start, t, []);
    var s';
    s', late := LateCommits(p, s, pageSize, amount, start, t);
    at := Twice(s, s');
    TwiceWatches(p, s, s');
    TablesGrow(p, at, f.account);
    LateRowIsThere(p, s, s', f, found, late, amount, start);
    LateIsWritten(at, f, pageSize, late);
  }

  lemma LateIsWritten(at: nat -> State, f: Filters, pageSize: nat, late: Entry)
    requires Grows(TableOf(at), f.account) && LateAt(TableOf(at), f, pageSize, 1, late)
    ensures forall cursors, out :: Exported(TableOf(at), f, cursors, out) && Paged(TableOf(at), f, pageSize, cursors) ==>
              late in out && out != Listing(at(0).db.entries, f)
  {
    ListingIs(TableOf(at)(0), f);
    forall cursors, out | Exported(TableOf(at), f, cursors, out) && Paged(TableOf(at), f, pageSize, cursors)
      ensures late in out && out != Listing(at(0).db.entries, f)
    {
      FirstLateIsWritten(TableOf(at), f, pageSize, cursors, out, 1, late);
    }
  }
}
