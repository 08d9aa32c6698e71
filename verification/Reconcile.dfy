/**
 Reconciliation: the four checks as the SQL states them, how they imply each other, and why every
 state the system reaches passes them.
 */
module Reconcile {
  import opened Store
  import opened Engine
  import opened Ledger
  import opened ExactlyOnce

  // ---------------------------------------------------------------- the checks

  // LEFT JOIN ... ON e.transfer_id = t.id AND e.created_at = t.created_at
  predicate Joins(e: Entry, t: Transfer) {
    e.leg.transfer == t.id && e.leg.createdAt == t.createdAt
  }

  function Group(entries: seq<Entry>, t: Transfer): seq<Entry> {
    if |entries| == 0 then []
    else
      var last := entries[|entries| - 1];
      Group(entries[..|entries| - 1], t) + if Joins(last, t) then [last] else []
  }

  function Net(entries: seq<Entry>): int {
    if |entries| == 0 then 0 else Net(entries[..|entries| - 1]) + entries[|entries| - 1].leg.Signed()
  }

  function MinAmount(g: seq<Entry>): int
    requires |g| > 0
  {
    if |g| == 1 then g[0].leg.amount
    else
      var m := MinAmount(g[..|g| - 1]);
      if g[|g| - 1].leg.amount < m then g[|g| - 1].leg.amount else m
  }

  function MaxAmount(g: seq<Entry>): int
    requires |g| > 0
  {
    if |g| == 1 then g[0].leg.amount
    else
      var m := MaxAmount(g[..|g| - 1]);
      if g[|g| - 1].leg.amount > m then g[|g| - 1].leg.amount else m
  }

  // The HAVING clause over one transfer's group; aggregates of an empty group are NULL.
  predicate Flagged(t: Transfer, g: seq<Entry>) {
    || |g| != 2
    || (if |g| == 0 then 1 else Net(g)) != 0
    || (|g| > 0 && MinAmount(g) != t.amount)
    || (|g| > 0 && MaxAmount(g) != t.amount)
  }

  function Accounts(rows: map<Resource, Row>): set<Id> {
    set r | r in rows && r.AccountR? :: r.account
  }

  ghost function SumOver(ids: set<Id>, f: Id -> int): int {
    if ids == {} then 0
    else
      var x :| x in ids;
      f(x) + SumOver(ids - {x}, f)
  }

  function BalanceOf(rows: map<Resource, Row>, a: Id): int {
    if AccountR(a) in rows && rows[AccountR(a)].Account? then rows[AccountR(a)].balance else 0
  }

  function Balances(rows: map<Resource, Row>): Id -> int {
    (a: Id) => BalanceOf(rows, a)
  }

  function SignedSums(entries: seq<Entry>): Id -> int {
    (a: Id) => Signed(entries, a)
  }

  ghost predicate ConservationOfMoney(db: Db) {
    SumOver(Accounts(db.rows), Balances(db.rows)) == 0
  }

  ghost predicate BalancesMatchLedger(db: Db) {
    forall a :: AccountR(a) in db.rows ==> BalanceOf(db.rows, a) == Signed(db.entries, a)
  }

  ghost predicate DoubleEntryComplete(db: Db) {
    forall i :: 0 <= i < |db.log| ==> !Flagged(db.log[i], Group(db.entries, db.log[i]))
  }

  ghost predicate HasTransfer(log: seq<Transfer>, e: Entry) {
    exists t :: t in log && Joins(e, t)
  }

  ghost predicate NoOrphanEntries(db: Db) {
    forall e :: e in db.entries ==> HasTransfer(db.log, e)
  }

  ghost predicate NoOverdraftsOrStrandedKeys(db: Db) {
    && (forall a :: AccountR(a) in db.rows && db.rows[AccountR(a)].Account? && !db.rows[AccountR(a)].system ==> BalanceOf(db.rows, a) >= 0)
    && (forall u, k :: KeyR(u, k) in db.rows && db.rows[KeyR(u, k)].Key? ==> db.rows[KeyR(u, k)].reply.Some?)
  }

  // ---------------------------------------------------------------- the grouped test

  predicate IsPair(t: Transfer, g: seq<Entry>) {
    && |g| == 2
    && g[0].leg.amount == t.amount && g[1].leg.amount == t.amount
    && g[0].leg.direction != g[1].leg.direction
  }

  // No violation exactly when the transfer has one DEBIT and one CREDIT of its amount.
  lemma UnflaggedIffPair(t: Transfer, g: seq<Entry>)
    requires t.amount > 0
    ensures !Flagged(t, g) <==> IsPair(t, g)
  {
    if |g| == 2 {
      assert g[..|g| - 1] == [g[0]];
      assert MinAmount([g[0]]) == MaxAmount([g[0]]) == g[0].leg.amount;
      NetOfOneMore([], g[0]);
      NetOfOneMore([g[0]], g[1]);
      assert [] + [g[0]] == [g[0]] && [g[0]] + [g[1]] == g;
      assert Net(g) == g[0].leg.Signed() + g[1].leg.Signed();
    }
  }

  // ---------------------------------------------------------------- conservation follows

  lemma {:induction false} SumOverAny(ids: set<Id>, f: Id -> int, x: Id)
    requires x in ids
    ensures SumOver(ids, f) == f(x) + SumOver(ids - {x}, f)
    decreases |ids|
  {
    var y :| y in ids && SumOver(ids, f) == f(y) + SumOver(ids - {y}, f);
    if y != x {
      SumOverAny(ids - {y}, f, x);
      SumOverAny(ids - {x}, f, y);
      assert ids - {x} - {y} == ids - {y} - {x};
    }
  }

  lemma {:induction false} SumOverSame(ids: set<Id>, f: Id -> int, g: Id -> int)
    requires forall a :: a in ids ==> f(a) == g(a)
    ensures SumOver(ids, f) == SumOver(ids, g)
    decreases |ids|
  {
    if ids != {} {
      var x :| x in ids;
      SumOverAny(ids, f, x);
      SumOverAny(ids, g, x);
      SumOverSame(ids - {x}, f, g);
    }
  }

  lemma {:induction false} SumOverZero(ids: set<Id>, f: Id -> int)
    requires forall a :: a in ids ==> f(a) == 0
    ensures SumOver(ids, f) == 0
    decreases |ids|
  {
    if ids != {} {
      var x :| x in ids;
      SumOverAny(ids, f, x);
      SumOverZero(ids - {x}, f);
    }
  }

  // Summing entries by account is summing them all.
  lemma {:induction false} ByAccount(ids: set<Id>, entries: seq<Entry>)
    requires forall i :: 0 <= i < |entries| ==> entries[i].leg.account in ids
    ensures SumOver(ids, SignedSums(entries)) == Net(entries)
  {
    if |entries| == 0 {
      SumOverZero(ids, SignedSums(entries));
    } else {
      var front := entries[..|entries| - 1];
      var x := entries[|entries| - 1].leg.account;
      ByAccount(ids, front);
      SumOverAny(ids, SignedSums(entries), x);
      SumOverAny(ids, SignedSums(front), x);
      SumOverSame(ids - {x}, SignedSums(entries), SignedSums(front));
    }
  }

  // The signed sums of all transfers' groups.
  function NetByTransfer(log: seq<Transfer>, entries: seq<Entry>): int {
    if |log| == 0 then 0
    else NetByTransfer(log[..|log| - 1], entries) + Net(Group(entries, log[|log| - 1]))
  }

  // PRIMARY KEY (id, created_at)
  ghost predicate KeyUnique(log: seq<Transfer>) {
    forall i, j :: 0 <= i < j < |log| ==> log[i].id != log[j].id || log[i].createdAt != log[j].createdAt
  }

  lemma NetOfOneMore(g: seq<Entry>, e: Entry)
    ensures Net(g + [e]) == Net(g) + e.leg.Signed()
  {
    assert (g + [e])[..|g + [e]| - 1] == g;
  }

  lemma GroupWithout(entries: seq<Entry>, t: Transfer)
    requires |entries| > 0 && !Joins(entries[|entries| - 1], t)
    ensures Group(entries, t) == Group(entries[..|entries| - 1], t)
  {
  }

  lemma {:induction false} UnjoinedEntry(log: seq<Transfer>, entries: seq<Entry>)
    requires |entries| > 0 && forall i :: 0 <= i < |log| ==> !Joins(entries[|entries| - 1], log[i])
    ensures NetByTransfer(log, entries) == NetByTransfer(log, entries[..|entries| - 1])
  {
    if |log| > 0 {
      UnjoinedEntry(log[..|log| - 1], entries);
      GroupWithout(entries, log[|log| - 1]);
    }
  }

  // An entry counts in one group: that of its transfer.
  lemma {:induction false} JoinedEntry(log: seq<Transfer>, entries: seq<Entry>, k: nat)
    requires |entries| > 0 && KeyUnique(log) && k < |log| && Joins(entries[|entries| - 1], log[k])
    ensures NetByTransfer(log, entries) == NetByTransfer(log, entries[..|entries| - 1]) + entries[|entries| - 1].leg.Signed()
  {
    var e := entries[|entries| - 1];
    if k == |log| - 1 {
      forall i | 0 <= i < k ensures !Joins(e, log[i]) {
        assert log[i].id != log[k].id || log[i].createdAt != log[k].createdAt;
      }
      UnjoinedEntry(log[..k], entries);
      NetOfOneMore(Group(entries[..|entries| - 1], log[k]), e);
    } else {
      assert log[k].id != log[|log| - 1].id || log[k].createdAt != log[|log| - 1].createdAt;
      JoinedEntry(log[..|log| - 1], entries, k);
      GroupWithout(entries, log[|log| - 1]);
    }
  }

  lemma {:induction false} NoEntriesNoNet(log: seq<Transfer>)
    ensures NetByTransfer(log, []) == 0
  {
    if |log| > 0 { NoEntriesNoNet(log[..|log| - 1]); }
  }

  // Summing entries by transfer is summing them all, when every entry has its transfer.
  lemma {:induction false} ByTransfer(log: seq<Transfer>, entries: seq<Entry>)
    requires KeyUnique(log)
    requires forall e :: e in entries ==> HasTransfer(log, e)
    ensures NetByTransfer(log, entries) == Net(entries)
  {
    if |entries| == 0 {
      NoEntriesNoNet(log);
    } else {
      var e := entries[|entries| - 1];
      assert e in entries;
      var t :| t in log && Joins(e, t);
      var k :| 0 <= k < |log| && log[k] == t;
      JoinedEntry(log, entries, k);
      ByTransfer(log, entries[..|entries| - 1]);
    }
  }

  lemma {:induction false} UnflaggedNetsToZero(log: seq<Transfer>, entries: seq<Entry>)
    requires forall i :: 0 <= i < |log| ==> !Flagged(log[i], Group(entries, log[i]))
    ensures NetByTransfer(log, entries) == 0
  {
    if |log| > 0 { UnflaggedNetsToZero(log[..|log| - 1], entries); }
  }

  // Matching balances, complete double entries and no orphans imply that money is conserved.
  lemma ChecksImplyConservation(db: Db)
    requires BalancesMatchLedger(db) && DoubleEntryComplete(db) && NoOrphanEntries(db)
    requires KeyUnique(db.log) && forall i :: 0 <= i < |db.entries| ==> AccountR(db.entries[i].leg.account) in db.rows
    ensures ConservationOfMoney(db)
  {
    var ids := Accounts(db.rows);
    forall i | 0 <= i < |db.entries| ensures db.entries[i].leg.account in ids {
      assert AccountR(db.entries[i].leg.account) in db.rows;
    }
    SumOverSame(ids, Balances(db.rows), SignedSums(db.entries));
    ByAccount(ids, db.entries);
    ByTransfer(db.log, db.entries);
    UnflaggedNetsToZero(db.log, db.entries);
  }

  // ---------------------------------------------------------------- reachable books pass

  // Reading the entries pair by pair finds each transfer's own pair.
  lemma {:induction false} GroupIsPair(db: Db, i: nat, k: nat)
    requires DoubleEntry(db) && TransfersNamed(db) && i < |db.log| && k <= |db.log|
    ensures 2 * k <= |db.entries|
    ensures Group(db.entries[..2 * k], db.log[i]) == if i < k then [db.entries[2 * i], db.entries[2 * i + 1]] else []
  {
    if k > 0 {
      var t := db.log[i];
      var u := db.log[k - 1];
      GroupIsPair(db, i, k - 1);
      assert i == k - 1 || t.id != u.id;
      var xs := db.entries[..2 * k];
      var ys := xs[..|xs| - 1];
      assert ys == db.entries[..2 * k - 1];
      assert ys[..|ys| - 1] == db.entries[..2 * (k - 1)];
      assert xs[|xs| - 1] == db.entries[2 * (k - 1) + 1] && ys[|ys| - 1] == db.entries[2 * (k - 1)];
    }
  }

  lemma BooksPassDoubleEntry(db: Db)
    requires Books(db)
    ensures DoubleEntryComplete(db)
  {
    forall i | 0 <= i < |db.log| ensures !Flagged(db.log[i], Group(db.entries, db.log[i])) {
      GroupIsPair(db, i, |db.log|);
      assert db.entries[..2 * |db.log|] == db.entries;
      UnflaggedIffPair(db.log[i], Group(db.entries, db.log[i]));
    }
  }

  lemma BooksHaveNoOrphans(db: Db)
    requires DoubleEntry(db)
    ensures NoOrphanEntries(db)
  {
    forall e | e in db.entries ensures HasTransfer(db.log, e) {
      var j :| 0 <= j < |db.entries| && db.entries[j] == e;
      var t := db.log[j / 2];
      assert j == 2 * (j / 2) || j == 2 * (j / 2) + 1;
      assert Joins(e, t) && t in db.log;
    }
  }

  // Every state with the books in order passes all four checks.
  lemma BooksReconcile(db: Db, replies: seq<Exchange>)
    requires Books(db) && KeysOnce(db, replies)
    ensures ConservationOfMoney(db) && BalancesMatchLedger(db) && DoubleEntryComplete(db)
    ensures NoOrphanEntries(db) && NoOverdraftsOrStrandedKeys(db)
  {
    BooksPassDoubleEntry(db);
    BooksHaveNoOrphans(db);
    ChecksImplyConservation(db);
  }
}
