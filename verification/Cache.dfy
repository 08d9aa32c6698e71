/**
 The balance cache: whatever order hooks run in across replicas, whatever is evicted or lost, a cached
 balance is what the ledger held at the version it carries.
 */
module Cache {
  import opened Calendar
  import opened Store
  import opened Scripts
  import opened Engine
  import opened Serializability
  import opened Ledger

  datatype Cached = Cached(version: nat, balance: int)

  datatype Write = Write(account: Id, value: Cached)

  datatype Published = Stored | Stale | Unavailable

  // Higher version wins.
  function CompareAndSet(stored: map<Id, Cached>, w: Write): map<Id, Cached> {
    if Accepts(stored, w) then stored[w.account := w.value] else stored
  }

  predicate Accepts(stored: map<Id, Cached>, w: Write) {
    w.account in stored ==> stored[w.account].version < w.value.version
  }

  // What /accounts/me answers after reading a row and looking into the cache.
  function Freshest(stored: map<Id, Cached>, account: Id, row: Cached): Cached {
    if account in stored && stored[account].version > row.version then stored[account] else row
  }

  class BalanceCache {
    var stored: map<Id, Cached>

    constructor ()
      ensures stored == map[]
    {
      stored := map[];
    }

    // One atomic script in Redis.
    method WriteBalance(w: Write, available: bool) returns (result: Published)
      modifies this
      ensures result == Stored <==>
                available && (w.account in old(stored) ==> old(stored)[w.account].version < w.value.version)
      ensures result == Unavailable <==> !available
      ensures stored == if result == Stored then old(stored)[w.account := w.value] else old(stored)
    {
      if !available {
        return Unavailable;
      }
      if w.account in stored {
        if stored[w.account].version >= w.value.version {
          return Stale;
        }
      }
      stored := stored[w.account := w.value];
      return Stored;
    }

    method ReadBalance(account: Id, available: bool) returns (cached: Option<Cached>)
      ensures cached == if available && account in stored then Some(stored[account]) else None
    {
      return if available && account in stored then Some(stored[account]) else None;
    }

    method InvalidateBalance(account: Id, available: bool)
      modifies this
      ensures stored == if available then old(stored) - {account} else old(stored)
    {
      if available {
        stored := stored - {account};
      }
    }

    // The cache is consulted for something newer than the row, else the row is published back.
    method AnswerBalance(account: Id, row: Cached, available: bool) returns (answer: Cached)
      modifies this
      ensures answer == if available then Freshest(old(stored), account, row) else row
      ensures answer == row || (available && account in old(stored) && answer == old(stored)[account])
      ensures answer.version >= row.version
      ensures available && account in old(stored) ==> answer.version >= old(stored)[account].version
      ensures stored == if available && answer == row then CompareAndSet(old(stored), Write(account, row)) else old(stored)
    {
      var cached := ReadBalance(account, available);
      var useCache := cached.Some? && cached.value.version > row.version;
      answer := if useCache then cached.value else row;
      if !useCache {
        var _ := WriteBalance(Write(account, row), available);
      }
    }
  }

  // ---------------------------------------------------------------- replicas, hooks and evictions

  datatype AtVersion = AtVersion(account: Id, version: nat)

  // `machine` is the database and everything that runs on it; `past` remembers the balance of every
  // account at every version it has had; `pending` are the writes somebody may still send: hooks of
  // committed transactions and rows read back.
  datatype World = World(machine: State, past: map<AtVersion, int>, pending: set<Write>, stored: map<Id, Cached>)

  function Snapshot(db: Db): map<AtVersion, int> {
    map r | r in db.rows && r.AccountR? && db.rows[r].Account? ::
      AtVersion(r.account, db.rows[r].version) := db.rows[r].balance
  }

  // The after-commit hook of a movement publishes both balances with their new versions.
  function HooksOf(e: Effect): set<Write> {
    if e.moved.None? then {}
    else
      set a | a in {e.moved.value.from, e.moved.value.to} && AccountR(a) in e.writes && e.writes[AccountR(a)].Account?
        :: Write(a, Cached(e.writes[AccountR(a)].version, e.writes[AccountR(a)].balance))
  }

  predicate True(past: map<AtVersion, int>, w: Write) {
    AtVersion(w.account, w.value.version) in past && past[AtVersion(w.account, w.value.version)] == w.value.balance
  }

  // What has been true of a version stays true of it.
  predicate Outlives(past: map<AtVersion, int>, past': map<AtVersion, int>) {
    forall x :: x in past ==> x in past' && past'[x] == past[x]
  }

  // The machine takes a step; a hook, or a row read from the primary or a replica, reaches Redis;
  // somebody who held a write crashes; an entry is evicted.
  datatype Move =
    | Fired(event: Event)
    | Published(write: Write)
    | Lost(write: Write)
    | Evicted(account: Id)

  predicate CanMove(p: Policy, s: World, m: Move) {
    match m
    case Fired(event) => CanFire(p, s.machine, event)
    case Published(w) => w in s.pending || True(s.past, w)
    case _ => true
  }

  // A commit gives its accounts their new versions, and leaves its hooks to run.
  function Moved(p: Policy, s: World, m: Move): World
    requires CanMove(p, s, m)
  {
    match m
    case Fired(event) =>
      var machine := Fire(p, s.machine, event);
      if Commits(p, s.machine, event) then
        World(machine, s.past + Snapshot(machine.db), s.pending + HooksOf(PlanOf(p, s.machine, event.tx).effect), s.stored)
      else s.(machine := machine)
    case Published(w) => s.(stored := CompareAndSet(s.stored, w))
    case Lost(w) => s.(pending := s.pending - {w})
    case Evicted(a) => s.(stored := s.stored - {a})
  }

  // Versions only grow, so a version has one balance for ever.
  ghost predicate Recorded(db: Db, past: map<AtVersion, int>) {
    && (forall a :: AccountR(a) in db.rows ==>
          db.rows[AccountR(a)].Account?
          && True(past, Write(a, Cached(db.rows[AccountR(a)].version, db.rows[AccountR(a)].balance))))
    && (forall x :: x in past ==> AccountR(x.account) in db.rows && db.rows[AccountR(x.account)].Account?
                                  && x.version <= db.rows[AccountR(x.account)].version)
  }

  ghost predicate Coherent(p: Policy, s: World) {
    && Inv(p, s.machine) && Recorded(s.machine.db, s.past)
    && (forall w :: w in s.pending ==> True(s.past, w))
    && (forall a :: a in s.stored ==> True(s.past, Write(a, s.stored[a])))
  }

  lemma SnapshotIs(db: Db)
    requires forall a :: AccountR(a) in db.rows ==> db.rows[AccountR(a)].Account?
    ensures forall a :: AccountR(a) in db.rows ==>
              True(Snapshot(db), Write(a, Cached(db.rows[AccountR(a)].version, db.rows[AccountR(a)].balance)))
    ensures forall x :: x in Snapshot(db) ==>
              && AccountR(x.account) in db.rows && x.version == db.rows[AccountR(x.account)].version
              && Snapshot(db)[x] == db.rows[AccountR(x.account)].balance
  {
    forall a | AccountR(a) in db.rows
      ensures True(Snapshot(db), Write(a, Cached(db.rows[AccountR(a)].version, db.rows[AccountR(a)].balance)))
    {
      var r := AccountR(a);
      assert AtVersion(r.account, db.rows[r].version) in Snapshot(db);
    }
  }

  // A commit leaves an account alone, or gives it its next version.
  ghost predicate Versioned(db: Db, db': Db, a: Id) {
    && AccountR(a) in db'.rows && db'.rows[AccountR(a)].Account?
    && (AccountR(a) in db.rows ==>
          && db.rows[AccountR(a)].Account?
          && (db'.rows[AccountR(a)] == db.rows[AccountR(a)]
              || db'.rows[AccountR(a)].version == db.rows[AccountR(a)].version + 1))
  }

  lemma CommitVersions(p: Policy, db: Db, c: Command, self: Id, start: Instant, seen: Seen, obs: Obs,
                       e: Effect, first: nat, reply: Reply, db': Db)
    requires Atomic(p, db, c, self, start, seen, obs, e, first, reply, db')
    requires forall a :: AccountR(a) in db.rows ==> db.rows[AccountR(a)].Account?
    ensures forall a :: AccountR(a) in db'.rows ==> Versioned(db, db', a)
    ensures forall a :: AccountR(a) in db.rows ==> AccountR(a) in db'.rows
  {
    CommitMovesOrKeepsMoney(p, db, c, self, start, seen, obs);
    forall a | AccountR(a) in db'.rows ensures Versioned(db, db', a) {
      if AccountR(a) in e.writes && MovesMoney(db, e, self) {
        assert a == e.moved.value.from || a == e.moved.value.to;
      }
    }
  }

  lemma CommitIsRecorded(p: Policy, db: Db, past: map<AtVersion, int>, c: Command, self: Id, start: Instant, seen: Seen,
                         obs: Obs, e: Effect, first: nat, reply: Reply, db': Db)
    requires Recorded(db, past) && Atomic(p, db, c, self, start, seen, obs, e, first, reply, db')
    ensures Recorded(db', past + Snapshot(db'))
    ensures Outlives(past, past + Snapshot(db'))
  {
    CommitVersions(p, db, c, self, start, seen, obs, e, first, reply, db');
    SnapshotIs(db');
    var past' := past + Snapshot(db');
    forall x | x in past
      ensures AccountR(x.account) in db'.rows && x.version <= db'.rows[AccountR(x.account)].version && past'[x] == past[x]
    {
      assert Versioned(db, db', x.account);
      if x in Snapshot(db') {
        assert db'.rows[AccountR(x.account)] == db.rows[AccountR(x.account)];
      }
    }
  }

  // The account's balance and version in `db` are among the writes.
  predicate Publishes(db: Db, a: Id, writes: set<Write>) {
    AccountR(a) in db.rows && db.rows[AccountR(a)].Account?
    && Write(a, Cached(db.rows[AccountR(a)].version, db.rows[AccountR(a)].balance)) in writes
  }

  lemma HooksAreTrue(p: Policy, db: Db, c: Command, self: Id, start: Instant, seen: Seen, obs: Obs,
                     e: Effect, first: nat, reply: Reply, db': Db)
    requires Atomic(p, db, c, self, start, seen, obs, e, first, reply, db')
    requires forall a :: AccountR(a) in db'.rows ==> db'.rows[AccountR(a)].Account?
    ensures forall w :: w in HooksOf(e) ==> True(Snapshot(db'), w)
    ensures e.moved.Some? ==>
              Publishes(db', e.moved.value.from, HooksOf(e)) && Publishes(db', e.moved.value.to, HooksOf(e))
    ensures e.moved.None? ==> HooksOf(e) == {}
  {
    CommitMovesOrKeepsMoney(p, db, c, self, start, seen, obs);
    SnapshotIs(db');
    forall w | w in HooksOf(e) ensures True(Snapshot(db'), w) {
      assert db'.rows[AccountR(w.account)] == e.writes[AccountR(w.account)];
    }
  }

  lemma CommitIsTrue(p: Policy, s: State, past: map<AtVersion, int>, t: Id)
    requires Inv(p, s) && Recorded(s.db, past) && Commits(p, s, Step(t))
    ensures CanFire(p, s, Step(t))
    ensures var db' := Fire(p, s, Step(t)).db;
            && Recorded(db', past + Snapshot(db')) && Outlives(past, past + Snapshot(db'))
            && forall w :: w in HooksOf(PlanOf(p, s, t).effect) ==> True(Snapshot(db'), w)
  {
    StepRefines(p, s, Step(t));
    var tx, plan, db' := s.active[t], PlanOf(p, s, t), Fire(p, s, Step(t)).db;
    CommitIsRecorded(p, s.db, past, tx.command, t, tx.start, tx.seen, tx.obs, plan.effect, tx.first.value, plan.reply, db');
    HooksAreTrue(p, s.db, tx.command, t, tx.start, tx.seen, tx.obs, plan.effect, tx.first.value, plan.reply, db');
  }

  lemma CommittingKeepsCoherent(p: Policy, s: World, t: Id)
    requires Coherent(p, s) && Commits(p, s.machine, Step(t))
    ensures CanFire(p, s.machine, Step(t)) && Coherent(p, Moved(p, s, Fired(Step(t))))
    ensures Outlives(s.past, Moved(p, s, Fired(Step(t))).past)
  {
    CommitIsTrue(p, s.machine, s.past, t);
    FireKeepsInv(p, s.machine, Step(t));
  }

  lemma FiringKeepsCoherent(p: Policy, s: World, event: Event)
    requires Coherent(p, s) && CanFire(p, s.machine, event)
    ensures Coherent(p, Moved(p, s, Fired(event))) && Outlives(s.past, Moved(p, s, Fired(event)).past)
  {
    if Commits(p, s.machine, event) {
      CommittingKeepsCoherent(p, s, event.tx);
    } else {
      StepRefines(p, s.machine, event);
    }
  }

  // Every move keeps every cached and every pending value true of the ledger.
  lemma MoveKeepsCoherent(p: Policy, s: World, m: Move)
    requires Coherent(p, s) && CanMove(p, s, m)
    ensures Coherent(p, Moved(p, s, m)) && Outlives(s.past, Moved(p, s, m).past)
  {
    if m.Fired? {
      FiringKeepsCoherent(p, s, m.event);
    }
  }

  // No move but its eviction lowers a cached version.
  lemma MoveKeepsVersion(p: Policy, s: World, m: Move, a: Id)
    requires CanMove(p, s, m) && a in s.stored && m != Evicted(a)
    ensures a in Moved(p, s, m).stored && s.stored[a].version <= Moved(p, s, m).stored[a].version
  {
  }

  // ---------------------------------------------------------------- runs

  // A run of the machine and its caches.
  predicate LegalMoves(p: Policy, s: World, moves: seq<Move>)
    decreases |moves|
  {
    |moves| == 0 || (CanMove(p, s, moves[0]) && LegalMoves(p, Moved(p, s, moves[0]), moves[1..]))
  }

  function WorldAfter(p: Policy, s: World, moves: seq<Move>): World
    requires LegalMoves(p, s, moves)
    decreases |moves|
  {
    if |moves| == 0 then s else WorldAfter(p, Moved(p, s, moves[0]), moves[1..])
  }

  function FirstWorld(now: Instant): World {
    World(Start(now), Snapshot(Genesis()), {}, map[])
  }

  lemma StartIsCoherent(p: Policy, now: Instant)
    ensures Coherent(p, FirstWorld(now))
  {
    StartInv(p, now);
    SnapshotIs(Genesis());
  }

  lemma {:induction false} RunKeepsCoherent(p: Policy, s: World, moves: seq<Move>)
    requires Coherent(p, s) && LegalMoves(p, s, moves)
    ensures Coherent(p, WorldAfter(p, s, moves)) && Outlives(s.past, WorldAfter(p, s, moves).past)
    decreases |moves|
  {
    if |moves| > 0 {
      MoveKeepsCoherent(p, s, moves[0]);
      RunKeepsCoherent(p, Moved(p, s, moves[0]), moves[1..]);
    }
  }

  // Wherever a run has got to, a cached balance is the one its account had at that version: the version
  // is not ahead of the committed row, and where it is the row's, so is the balance.
  lemma CacheIsTrue(p: Policy, now: Instant, moves: seq<Move>, a: Id)
    requires LegalMoves(p, FirstWorld(now), moves) && a in WorldAfter(p, FirstWorld(now), moves).stored
    ensures var s := WorldAfter(p, FirstWorld(now), moves);
            && AccountR(a) in s.machine.db.rows && s.machine.db.rows[AccountR(a)].Account?
            && True(s.past, Write(a, s.stored[a])) && s.stored[a].version <= RowIn(s, a).version
            && (s.stored[a].version == RowIn(s, a).version ==> s.stored[a] == RowIn(s, a))
  {
    StartIsCoherent(p, now);
    RunKeepsCoherent(p, FirstWorld(now), moves);
    var s := WorldAfter(p, FirstWorld(now), moves);
    assert AtVersion(a, s.stored[a].version) in s.past;
  }

  // Until its entry is evicted, a cached version never falls.
  lemma {:induction false} VersionsNeverFall(p: Policy, s: World, moves: seq<Move>, a: Id)
    requires LegalMoves(p, s, moves) && a in s.stored && Evicted(a) !in moves
    ensures a in WorldAfter(p, s, moves).stored
    ensures s.stored[a].version <= WorldAfter(p, s, moves).stored[a].version
    decreases |moves|
  {
    if |moves| > 0 {
      MoveKeepsVersion(p, s, moves[0], a);
      VersionsNeverFall(p, Moved(p, s, moves[0]), moves[1..], a);
    }
  }

  // The row of `a` in the committed database.
  function RowIn(s: World, a: Id): Cached
    requires AccountR(a) in s.machine.db.rows && s.machine.db.rows[AccountR(a)].Account?
  {
    Cached(s.machine.db.rows[AccountR(a)].version, s.machine.db.rows[AccountR(a)].balance)
  }

  lemma AnswerIsTrue(p: Policy, read: World, later: seq<Move>, a: Id)
    requires Coherent(p, read) && LegalMoves(p, read, later)
    requires AccountR(a) in read.machine.db.rows && read.machine.db.rows[AccountR(a)].Account?
    ensures var answered := WorldAfter(p, read, later);
            var answer := Freshest(answered.stored, a, RowIn(read, a));
            answer.version >= RowIn(read, a).version && True(answered.past, Write(a, answer))
            && (a in answered.stored ==> answer.version >= answered.stored[a].version)
  {
    assert True(read.past, Write(a, RowIn(read, a)));
    RunKeepsCoherent(p, read, later);
  }

  // A row read at one moment and answered at a later one, as a replica that is behind does: the answer
  // is a true balance, at a version no older than the row.
  lemma AnswerIsNeverOlder(p: Policy, now: Instant, before: seq<Move>, later: seq<Move>, a: Id)
    requires LegalMoves(p, FirstWorld(now), before)
    requires LegalMoves(p, WorldAfter(p, FirstWorld(now), before), later)
    requires var read := WorldAfter(p, FirstWorld(now), before);
             AccountR(a) in read.machine.db.rows && read.machine.db.rows[AccountR(a)].Account?
    ensures var read := WorldAfter(p, FirstWorld(now), before);
            var answered := WorldAfter(p, read, later);
            var answer := Freshest(answered.stored, a, RowIn(read, a));
            answer.version >= RowIn(read, a).version && True(answered.past, Write(a, answer))
            && (a in answered.stored ==> answer.version >= answered.stored[a].version)
  {
    StartIsCoherent(p, now);
    RunKeepsCoherent(p, FirstWorld(now), before);
    AnswerIsTrue(p, WorldAfter(p, FirstWorld(now), before), later, a);
  }
}
