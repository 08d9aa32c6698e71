/**
 An idempotency key is completed in the commit that does its work, so a (user, key) executes at
 most once, and every success reply for it is the same.
 */
module ExactlyOnce {
  import opened Calendar
  import opened Store
  import opened Scripts
  import opened Engine

  function KeyOf(c: Command): Option<KeyId> {
    match c
    case Send(user, key, _, _, _) => Some(KeyId(user, key))
    case Accept(user, key, _, _) => Some(KeyId(user, key))
    case Reverse(user, key, _, _, _) => Some(KeyId(user, key))
    case CreateRequest(user, key, _, _, _, _) => Some(KeyId(user, key))
    case CreateSplit(user, key, _, _, _, _, _, _) => Some(KeyId(user, key))
    case CreateSchedule(user, key, _, _, _, _, _, _, _) => Some(KeyId(user, key))
    case _ => None
  }

  function DigestOf(c: Command): nat
    requires KeyOf(c).Some?
  {
    c.digest
  }

  function RowOf(k: KeyId): Resource {
    KeyR(k.user, k.key)
  }

  // The commit of a keyed command either executes and completes its key, or replays and does nothing.
  ghost predicate ExecutesOrReplays(db: Db, c: Command, e: Effect, reply: Reply)
    requires KeyOf(c).Some?
  {
    var r := RowOf(KeyOf(c).value);
    if r in db.rows then e == NO_EFFECT && db.rows[r] == Key(DigestOf(c), Some(reply))
    else
      && r in e.writes && e.writes[r] == Key(DigestOf(c), Some(reply))
      && (forall x :: x in e.writes && x.KeyR? ==> x == r)
      && (e.moved.Some? ==> e.moved.value.key == KeyOf(c))
  }

  ghost predicate LeavesKeysAlone(e: Effect) {
    && (forall x :: x in e.writes ==> !x.KeyR?)
    && (e.moved.Some? ==> e.moved.value.key.None?)
  }

  lemma SendExecutesOrReplays(p: Policy, db: Db, c: Command, self: Id, start: Instant, seen: Seen, obs: Obs)
    requires c.Send? && AllStand(db, seen) && PlanSend(p, c, self, start, seen, obs).Commit?
    ensures ExecutesOrReplays(db, c, PlanSend(p, c, self, start, seen, obs).effect, PlanSend(p, c, self, start, seen, obs).reply)
  {
    var r := KeyR(c.user, c.key);
    assert r in seen ==> Stands(db, r, seen[r]);
  }

  lemma AcceptExecutesOrReplays(p: Policy, db: Db, c: Command, self: Id, start: Instant, seen: Seen, obs: Obs)
    requires c.Accept? && AllStand(db, seen) && PlanAccept(p, c, self, start, seen, obs).Commit?
    ensures ExecutesOrReplays(db, c, PlanAccept(p, c, self, start, seen, obs).effect, PlanAccept(p, c, self, start, seen, obs).reply)
  {
    var r := KeyR(c.user, c.key);
    assert r in seen ==> Stands(db, r, seen[r]);
  }

  lemma ReverseExecutesOrReplays(p: Policy, db: Db, c: Command, self: Id, start: Instant, seen: Seen, obs: Obs)
    requires c.Reverse? && AllStand(db, seen) && PlanReverse(p, c, self, start, seen, obs).Commit?
    ensures ExecutesOrReplays(db, c, PlanReverse(p, c, self, start, seen, obs).effect, PlanReverse(p, c, self, start, seen, obs).reply)
  {
    var r := KeyR(c.user, c.key);
    assert r in seen ==> Stands(db, r, seen[r]);
  }

  lemma CreationExecutesOrReplays(p: Policy, db: Db, c: Command, self: Id, seen: Seen, next: Next)
    requires c.CreateRequest? || c.CreateSplit? || c.CreateSchedule?
    requires AllStand(db, seen) && next == Plan(p, c, self, 0, seen, map[]) && next.Commit?
    ensures ExecutesOrReplays(db, c, next.effect, next.reply)
  {
    var r := KeyR(c.user, c.key);
    assert r in seen ==> Stands(db, r, seen[r]);
  }

  // With a key, a commit executes or replays; without one it touches no key.
  lemma KeyedCommit(p: Policy, db: Db, c: Command, self: Id, start: Instant, seen: Seen, obs: Obs)
    requires AllStand(db, seen) && Plan(p, c, self, start, seen, obs).Commit?
    ensures var next := Plan(p, c, self, start, seen, obs);
            if KeyOf(c).Some? then ExecutesOrReplays(db, c, next.effect, next.reply) else LeavesKeysAlone(next.effect)
  {
    if c.Send? { SendExecutesOrReplays(p, db, c, self, start, seen, obs); }
    else if c.Accept? { AcceptExecutesOrReplays(p, db, c, self, start, seen, obs); }
    else if c.Reverse? { ReverseExecutesOrReplays(p, db, c, self, start, seen, obs); }
    else if c.CreateRequest? || c.CreateSplit? || c.CreateSchedule? {
      CreationExecutesOrReplays(p, db, c, self, seen, Plan(p, c, self, start, seen, obs));
    }
    else if c.ExpireDue? { ExpireCommits(c, c.requests, start, seen, obs); }
  }

  // ---------------------------------------------------------------- the invariant

  // No committed key is IN_PROGRESS.
  ghost predicate KeysCompleted(db: Db) {
    forall u, k :: KeyR(u, k) in db.rows ==> db.rows[KeyR(u, k)].Key? && db.rows[KeyR(u, k)].reply.Some?
  }

  // Each key has at most one movement, committed together with it.
  ghost predicate OneMovementPerKey(db: Db) {
    && (forall i :: 0 <= i < |db.log| && db.log[i].key.Some? ==> RowOf(db.log[i].key.value) in db.rows)
    && (forall i, j :: 0 <= i < j < |db.log| && db.log[i].key.Some? ==> db.log[i].key != db.log[j].key)
  }

  // Every reply given for a key is the one stored with it, for the body stored with it.
  ghost predicate RepliesStored(db: Db, replies: seq<Exchange>) {
    forall i :: 0 <= i < |replies| && KeyOf(replies[i].command).Some? ==>
      && RowOf(KeyOf(replies[i].command).value) in db.rows
      && db.rows[RowOf(KeyOf(replies[i].command).value)] == Key(DigestOf(replies[i].command), Some(replies[i].reply))
  }

  ghost predicate KeysOnce(db: Db, replies: seq<Exchange>) {
    KeysCompleted(db) && OneMovementPerKey(db) && RepliesStored(db, replies)
  }

  lemma AtomicKeepsKeys(p: Policy, db: Db, c: Command, self: Id, start: Instant, seen: Seen, obs: Obs,
                        e: Effect, first: nat, reply: Reply, db': Db, replies: seq<Exchange>)
    requires KeysOnce(db, replies)
    requires Atomic(p, db, c, self, start, seen, obs, e, first, reply, db')
    ensures KeysOnce(db', replies + [Exchange(c, reply)])
    ensures forall r :: r in db.rows && r.KeyR? ==> r in db'.rows && db'.rows[r] == db.rows[r]
  {
    KeyedCommit(p, db, c, self, start, seen, obs);
    var n := |db.log|;
    assert forall i :: 0 <= i < n ==> db'.log[i] == db.log[i];
    if KeyOf(c).Some? && RowOf(KeyOf(c).value) !in db.rows {
      assert forall i :: 0 <= i < n ==> db.log[i].key != KeyOf(c);
    }
  }

  // ---------------------------------------------------------------- what clients see

  // Two success replies under one key are the same reply to the same body.
  lemma RepliesAgree(db: Db, replies: seq<Exchange>, i: nat, j: nat)
    requires KeysOnce(db, replies) && i < |replies| && j < |replies|
    requires KeyOf(replies[i].command).Some? && KeyOf(replies[i].command) == KeyOf(replies[j].command)
    ensures replies[i].reply == replies[j].reply
    ensures DigestOf(replies[i].command) == DigestOf(replies[j].command)
  {
    var r := RowOf(KeyOf(replies[i].command).value);
    assert db.rows[r] == Key(DigestOf(replies[j].command), Some(replies[j].reply));
  }

  // After a commit, every retry with the same body replays and every other body is refused, so the
  // visible-but-unfinished key that the code guards against never occurs.
  lemma RetryReplays(db: Db, replies: seq<Exchange>, user: Id, key: nat, digest: nat, seen: Seen)
    requires KeysOnce(db, replies) && AllStand(db, seen) && KeyR(user, key) in seen
    ensures var claim := ClaimKey(user, key, digest, seen);
            && !claim.InFlight? && !claim.Unclaimed?
            && (KeyR(user, key) in db.rows ==>
                  claim == if db.rows[KeyR(user, key)].digest == digest then Replay(db.rows[KeyR(user, key)].reply.value) else Mismatch)
            && (KeyR(user, key) !in db.rows ==> claim.Claimed?)
  {
    assert Stands(db, KeyR(user, key), seen[KeyR(user, key)]);
  }
}
