/**
 Concurrent transactions over the committed database, one statement at a time, under Postgres's
 READ COMMITTED rules:

 - a locking statement waits while another transaction holds the row, then sees the committed row;
   a row that is not committed is invisible, so locking it returns nothing and holds nothing
 - an insert waits for an uncommitted rival with the same unique key
 - a plain SELECT reads whatever is committed at that moment
 - uncommitted writes are visible to nobody else; commit publishes them and releases every lock
 - a transaction, or every transaction at once, can disappear at any moment before its commit
 - `now()` is the time the transaction began

 `Atomic` is the specification: the whole script run at one instant against the committed state.
 */
module Engine {
  import opened Calendar
  import opened Store
  import opened Scripts

  // `first` is the entry id drawn from the identity sequence when the writes were issued.
  datatype Tx = Tx(command: Command, start: Instant, held: set<Resource>, seen: Seen, obs: Obs, first: Option<nat>)

  datatype Exchange = Exchange(command: Command, reply: Reply)

  // `replies` lists the commits' replies, whether or not the client lives to read them.
  datatype State = State(db: Db, active: map<Id, Tx>, nextTx: Id, nextEntry: nat, now: Instant, replies: seq<Exchange>)

  datatype Event =
    | Begin(command: Command)
    | Tick(micros: nat)
    | Step(tx: Id)
    | Abort(victims: set<Id>)

  // ---------------------------------------------------------------- transitions

  predicate HeldByOther(s: State, t: Id, r: Resource) {
    exists u :: u in s.active && u != t && r in s.active[u].held
  }

  function PlanOf(p: Policy, s: State, t: Id): Next
    requires t in s.active
  {
    var tx := s.active[t];
    Plan(p, tx.command, t, tx.start, tx.seen, tx.obs)
  }

  predicate Waits(p: Policy, s: State, t: Id, r: Resource)
    requires t in s.active
  {
    match PlanOf(p, s, t)
    case Lock(row) => row == r && r in s.db.rows && HeldByOther(s, t, r)
    case Insert(row) => row == r && HeldByOther(s, t, r)
    case _ => false
  }

  predicate Blocked(p: Policy, s: State, t: Id)
    requires t in s.active
  {
    match PlanOf(p, s, t)
    case Lock(row) => Waits(p, s, t, row)
    case Insert(row) => Waits(p, s, t, row)
    case _ => false
  }

  function Take(db: Db, tx: Tx, r: Resource): Tx {
    tx.(held := tx.held + {r}, seen := tx.seen[r := Lookup(db, r)])
  }

  // Reads an existing row without keeping it.
  function Peek(db: Db, tx: Tx, r: Resource): Tx {
    tx.(seen := tx.seen[r := Lookup(db, r)])
  }

  function Result(db: Db, q: Query): Answer {
    match q
    case Velocity(account, since) => Count(SentSince(db.log, account, since))
    case Outbound(account, since) => Total(OutboundSince(db.rows, db.log, account, since))
    case Original(id) =>
      Loaded(FindTransfer(db.log, id),
             TransferR(id) in db.rows && db.rows[TransferR(id)] == TransferStatus(true))
    case Busy(_) => Yes
    case PaymentRefused => Yes
  }

  // Locks taken since the savepoint are released with it.
  function Undo(tx: Tx, e: Error): Tx {
    tx.(held := (set r | r in tx.held && !r.AccountR?),
        seen := (map r | r in tx.seen && !r.AccountR? :: tx.seen[r]),
        obs := tx.obs[PaymentRefused := Because(e)])
  }

  predicate CanFire(p: Policy, s: State, e: Event) {
    match e
    case Begin(_) => true
    case Tick(_) => true
    case Step(t) => t in s.active && !Blocked(p, s, t)
    case Abort(victims) => victims <= s.active.Keys
  }

  function Advance(p: Policy, s: State, t: Id): State
    requires t in s.active
  {
    var tx := s.active[t];
    match PlanOf(p, s, t)
    case Lock(r) => s.(active := s.active[t := if r in s.db.rows then Take(s.db, tx, r) else Peek(s.db, tx, r)])
    case Insert(r) =>
      s.(active := s.active[t := if r.KeyR? && r in s.db.rows then Peek(s.db, tx, r) else Take(s.db, tx, r)])
    case TryLock(r) =>
      s.(active := s.active[t := if HeldByOther(s, t, r) then tx.(obs := tx.obs[Busy(r) := Yes])
                                 else if r in s.db.rows then Take(s.db, tx, r)
                                 else Peek(s.db, tx, r)])
    case Ask(q) => s.(active := s.active[t := tx.(obs := tx.obs[q := Result(s.db, q)])])
    case RollbackTo(e) => s.(active := s.active[t := Undo(tx, e)])
    case Fail(_) => s.(active := s.active - {t})
    case Commit(effect, reply) =>
      if tx.first.None? then
        s.(active := s.active[t := tx.(first := Some(s.nextEntry))], nextEntry := s.nextEntry + |effect.legs|)
      else
        s.(db := Apply(s.db, effect, tx.first.value), active := s.active - {t},
           replies := s.replies + [Exchange(tx.command, reply)])
  }

  function Fire(p: Policy, s: State, e: Event): State
    requires CanFire(p, s, e)
  {
    match e
    case Begin(c) =>
      s.(active := s.active[s.nextTx := Tx(c, s.now, {}, map[], map[], None)], nextTx := s.nextTx + 1)
    case Tick(micros) => s.(now := s.now + micros)
    case Step(t) => Advance(p, s, t)
    case Abort(victims) => s.(active := s.active - victims)
  }

  // ---------------------------------------------------------------- the start and runs

  const STRIPES: nat := 8

  function Genesis(): Db {
    Db(map i | 1 <= i <= STRIPES :: AccountR(i) := Account(true, AccountStatus.ACTIVE, 0, 0), [], [])
  }

  function Start(now: Instant): State {
    State(Genesis(), map[], STRIPES + 1, 1, now, [])
  }

  predicate Legal(p: Policy, s: State, run: seq<Event>)
    decreases |run|
  {
    |run| == 0 || (CanFire(p, s, run[0]) && Legal(p, Fire(p, s, run[0]), run[1..]))
  }

  function Play(p: Policy, s: State, run: seq<Event>): State
    requires Legal(p, s, run)
    decreases |run|
  {
    if |run| == 0 then s else Play(p, Fire(p, s, run[0]), run[1..])
  }

  lemma PlayMore(p: Policy, s: State, e: Event, rest: seq<Event>)
    requires CanFire(p, s, e) && Legal(p, Fire(p, s, e), rest)
    ensures Legal(p, s, [e] + rest) && Play(p, s, [e] + rest) == Play(p, Fire(p, s, e), rest)
  {
    assert ([e] + rest)[1..] == rest;
  }

  // One run after another.
  lemma {:induction false} PlayOn(p: Policy, s: State, a: seq<Event>, b: seq<Event>)
    requires Legal(p, s, a) && Legal(p, Play(p, s, a), b)
    ensures Legal(p, s, a + b) && Play(p, s, a + b) == Play(p, Play(p, s, a), b)
    decreases |a|
  {
    if |a| == 0 {
      assert a + b == b;
    } else {
      PlayOn(p, Fire(p, s, a[0]), a[1..], b);
      PlayMore(p, s, a[0], a[1..] + b);
      assert a + b == [a[0]] + (a[1..] + b);
    }
  }

  // ---------------------------------------------------------------- the specification

  function Creator(r: Resource): Option<Id> {
    match r
    case RequestR(id) => Some(id.creator)
    case TransferR(id) => Some(id)
    case ScheduleR(id) => Some(id)
    case SplitR(id) => Some(id)
    case AccountR(id) => Some(id)
    case _ => None
  }

  ghost predicate Fresh(db: Db, self: Id) {
    && (forall r :: r in db.rows ==> Creator(r) != Some(self))
    && (forall t :: t in db.log ==> t.id != self)
  }

  // A locking read that found no row is the only one that can go out of date.
  predicate Stands(db: Db, r: Resource, row: Option<Row>) {
    row == Lookup(db, r) || (row.None? && !r.KeyR? && !r.OccurrenceR?)
  }

  ghost predicate AllStand(db: Db, seen: Seen) {
    forall r :: r in seen ==> Stands(db, r, seen[r])
  }

  // Transfers never change once committed, so a loaded one is still in the log.
  ghost predicate LoadedStand(db: Db, obs: Obs) {
    forall x :: Original(x) in obs && obs[Original(x)].Loaded? && obs[Original(x)].found.Some? ==>
      obs[Original(x)].found.value in db.log && obs[Original(x)].found.value.id == x
  }

  // New entries are numbered above every older entry of the accounts they touch.
  ghost predicate NumberedAbove(db: Db, legs: seq<Leg>, first: nat) {
    forall e, leg :: e in db.entries && leg in legs && e.leg.account == leg.account ==> e.id < first
  }

  ghost predicate Atomic(p: Policy, db: Db, c: Command, self: Id, start: Instant, seen: Seen, obs: Obs,
                         effect: Effect, first: nat, reply: Reply, db': Db) {
    && Plan(p, c, self, start, seen, obs) == Commit(effect, reply)
    && Fresh(db, self)
    && AllStand(db, seen)
    && LoadedStand(db, obs)
    && NumberedAbove(db, effect.legs, first)
    && db' == Apply(db, effect, first)
  }

  // ---------------------------------------------------------------- what a commit may write

  // A committing script writes rows it created, rows it read under a lock, and keys it inserted.
  predicate MayWrite(r: Resource, self: Id, seen: Seen) {
    || Creator(r) == Some(self)
    || (r in seen && if r.KeyR? then seen[r].None? else (seen[r].Some? || r.OccurrenceR?))
  }

  ghost predicate WritesOwnRows(e: Effect, self: Id, seen: Seen) {
    && (forall r :: r in e.writes ==> MayWrite(r, self, seen))
    && (e.moved.Some? ==> e.moved.value.id == self)
    && (forall leg :: leg in e.legs ==> AccountR(leg.account) in e.writes)
  }

  lemma {:induction false} ExpireCommits(c: Command, todo: seq<RequestId>, start: Instant, seen: Seen, obs: Obs)
    requires c.ExpireDue?
    requires PlanExpire(c, todo, start, seen, obs).Commit?
    ensures PlanExpire(c, todo, start, seen, obs) == Commit(Effect(Expired(seen, start), None, []), Reply(200, Done))
  {
    if |todo| > 0 {
      ExpireCommits(c, todo[1..], start, seen, obs);
    }
  }

  lemma SendWritesOwnRows(p: Policy, c: Command, self: Id, start: Instant, seen: Seen, obs: Obs)
    requires c.Send? && PlanSend(p, c, self, start, seen, obs).Commit?
    ensures WritesOwnRows(PlanSend(p, c, self, start, seen, obs).effect, self, seen)
  {
  }

  lemma AcceptWritesOwnRows(p: Policy, c: Command, self: Id, start: Instant, seen: Seen, obs: Obs)
    requires c.Accept? && PlanAccept(p, c, self, start, seen, obs).Commit?
    ensures WritesOwnRows(PlanAccept(p, c, self, start, seen, obs).effect, self, seen)
  {
  }

  lemma ReverseWritesOwnRows(p: Policy, c: Command, self: Id, start: Instant, seen: Seen, obs: Obs)
    requires c.Reverse? && PlanReverse(p, c, self, start, seen, obs).Commit?
    ensures WritesOwnRows(PlanReverse(p, c, self, start, seen, obs).effect, self, seen)
  {
  }

  lemma RunWritesOwnRows(p: Policy, c: Command, self: Id, start: Instant, seen: Seen, obs: Obs)
    requires c.Run? && PlanRun(p, c, self, start, seen, obs).Commit?
    ensures WritesOwnRows(PlanRun(p, c, self, start, seen, obs).effect, self, seen)
  {
  }

  lemma RegisterWritesOwnRows(p: Policy, c: Command, self: Id, start: Instant, seen: Seen)
    requires c.Register? && PlanRegister(p, c, self, start, seen).Commit?
    ensures WritesOwnRows(PlanRegister(p, c, self, start, seen).effect, self, seen)
  {
  }

  lemma CreationWritesOwnRows(p: Policy, c: Command, self: Id, seen: Seen)
    requires c.CreateRequest? || c.CreateSplit? || c.CreateSchedule?
    requires Plan(p, c, self, 0, seen, map[]).Commit?
    ensures WritesOwnRows(Plan(p, c, self, 0, seen, map[]).effect, self, seen)
  {
  }

  lemma CommitWritesOwnRows(p: Policy, c: Command, self: Id, start: Instant, seen: Seen, obs: Obs)
    requires Plan(p, c, self, start, seen, obs).Commit?
    ensures WritesOwnRows(Plan(p, c, self, start, seen, obs).effect, self, seen)
  {
    if c.Send? { SendWritesOwnRows(p, c, self, start, seen, obs); }
    else if c.Accept? { AcceptWritesOwnRows(p, c, self, start, seen, obs); }
    else if c.Reverse? { ReverseWritesOwnRows(p, c, self, start, seen, obs); }
    else if c.Run? { RunWritesOwnRows(p, c, self, start, seen, obs); }
    else if c.Register? { RegisterWritesOwnRows(p, c, self, start, seen); }
    else if c.ExpireDue? { ExpireCommits(c, c.requests, start, seen, obs); }
    else if c.CreateRequest? || c.CreateSplit? || c.CreateSchedule? { CreationWritesOwnRows(p, c, self, seen); }
  }
}
