/**
 Undoing a transfer: a status flip together with one compensating movement.
 */
module Reversals {
  import opened Calendar
  import opened Store
  import opened Scripts
  import opened Engine
  import opened Ledger

  predicate Reversed(db: Db, t: Transfer) {
    TransferR(t.id) in db.rows && db.rows[TransferR(t.id)] == TransferStatus(true)
  }

  // `u` carries the money of `t` back.
  predicate Compensates(u: Transfer, t: Transfer) {
    && u.kind.REVERSAL? && u.reversalOf == Some(t.id)
    && u.from == t.to && u.to == t.from && u.amount == t.amount
    && !t.kind.MINT? && !t.kind.REVERSAL?
  }

  ghost predicate HasCompensation(db: Db, t: Transfer) {
    exists u :: u in db.log && Compensates(u, t)
  }

  ghost predicate CompensatesSomething(db: Db, u: Transfer) {
    exists t :: t in db.log && Reversed(db, t) && Compensates(u, t)
  }

  // REVERSED exactly when a unique reversal compensates the transfer, and every reversal does that.
  ghost predicate ReversalsMatch(db: Db) {
    && (forall t :: t in db.log && Reversed(db, t) ==> HasCompensation(db, t))
    && (forall u :: u in db.log && (u.kind.REVERSAL? || u.reversalOf.Some?) ==> CompensatesSomething(db, u))
    && Distinct(db.log)
  }

  ghost predicate Distinct(log: seq<Transfer>) {
    forall i, j :: 0 <= i < j < |log| ==> log[i].reversalOf.None? || log[i].reversalOf != log[j].reversalOf
  }

  lemma SameIdSameTransfer(db: Db, t: Transfer, u: Transfer)
    requires TransfersNamed(db) && t in db.log && u in db.log && t.id == u.id
    ensures t == u
  {
    var i :| 0 <= i < |db.log| && db.log[i] == t;
    var j :| 0 <= j < |db.log| && db.log[j] == u;
  }

  // The original that a reversing commit flips.
  ghost predicate Reverses(db: Db, e: Effect, t: Transfer) {
    && t in db.log && TransferR(t.id) in db.rows && db.rows[TransferR(t.id)] == TransferStatus(false)
    && TransferR(t.id) in e.writes && e.writes[TransferR(t.id)] == TransferStatus(true)
    && e.moved.Some? && Compensates(e.moved.value, t) && e.moved.value.id != t.id
    && (forall x :: TransferR(x) in e.writes ==> x == t.id || x == e.moved.value.id)
  }

  ghost predicate ReversesNothing(db: Db, e: Effect, self: Id) {
    && (forall x :: TransferR(x) in e.writes ==> x == self && e.writes[TransferR(x)] == TransferStatus(false))
    && (e.moved.Some? ==> e.moved.value.reversalOf.None? && !e.moved.value.kind.REVERSAL?)
  }

  lemma ReverseReverses(p: Policy, db: Db, c: Command, self: Id, start: Instant, seen: Seen, obs: Obs)
    requires c.Reverse? && AllStand(db, seen) && LoadedStand(db, obs) && Fresh(db, self)
    requires PlanReverse(p, c, self, start, seen, obs).Commit?
    ensures var e := PlanReverse(p, c, self, start, seen, obs).effect;
            e == NO_EFFECT || exists t :: Reverses(db, e, t)
  {
    var e := PlanReverse(p, c, self, start, seen, obs).effect;
    if e != NO_EFFECT {
      var t := obs[Original(c.original)].found.value;
      assert Stands(db, TransferR(t.id), seen[TransferR(t.id)]);
      assert Creator(TransferR(t.id)) == Some(t.id);
      assert Reverses(db, e, t);
    }
  }

  lemma PaymentReversesNothing(p: Policy, db: Db, c: Command, self: Id, start: Instant, seen: Seen, obs: Obs)
    requires c.Send? || c.Accept? || c.Register?
    requires Plan(p, c, self, start, seen, obs).Commit?
    ensures ReversesNothing(db, Plan(p, c, self, start, seen, obs).effect, self)
  {
  }

  lemma RunReversesNothing(p: Policy, db: Db, c: Command, self: Id, start: Instant, seen: Seen, obs: Obs)
    requires c.Run? && PlanRun(p, c, self, start, seen, obs).Commit?
    ensures ReversesNothing(db, PlanRun(p, c, self, start, seen, obs).effect, self)
  {
  }

  lemma CommitReverses(p: Policy, db: Db, c: Command, self: Id, start: Instant, seen: Seen, obs: Obs)
    requires AllStand(db, seen) && LoadedStand(db, obs) && Fresh(db, self)
    requires Plan(p, c, self, start, seen, obs).Commit?
    ensures var e := Plan(p, c, self, start, seen, obs).effect;
            ReversesNothing(db, e, self) || exists t :: Reverses(db, e, t)
  {
    if c.Reverse? { ReverseReverses(p, db, c, self, start, seen, obs); }
    else if c.Send? || c.Accept? || c.Register? { PaymentReversesNothing(p, db, c, self, start, seen, obs); }
    else if c.Run? { RunReversesNothing(p, db, c, self, start, seen, obs); }
    else if c.ExpireDue? { ExpireCommits(c, c.requests, start, seen, obs); }
  }

  lemma CompensationKept(db: Db, db': Db, t: Transfer)
    requires HasCompensation(db, t) && db.log <= db'.log
    ensures HasCompensation(db', t)
  {
    var u :| u in db.log && Compensates(u, t);
    assert u in db'.log;
  }

  lemma CompensatedKept(db: Db, db': Db, u: Transfer)
    requires CompensatesSomething(db, u) && db.log <= db'.log
    requires forall x :: Reversed(db, x) ==> Reversed(db', x)
    ensures CompensatesSomething(db', u)
  {
    var t :| t in db.log && Reversed(db, t) && Compensates(u, t);
    assert t in db'.log;
  }

  lemma NothingKeepsReversals(db: Db, e: Effect, self: Id, first: nat)
    requires ReversalsMatch(db) && TransfersNamed(db) && Fresh(db, self)
    requires ReversesNothing(db, e, self) && (e.moved.Some? ==> e.moved.value.id == self)
    ensures ReversalsMatch(Apply(db, e, first))
  {
    var db' := Apply(db, e, first);
    assert TransferR(self) !in db.rows by { assert Creator(TransferR(self)) == Some(self); }
    assert forall x :: Reversed(db, x) <==> Reversed(db', x);
    forall t | t in db'.log && Reversed(db', t) ensures HasCompensation(db', t) {
      CompensationKept(db, db', t);
    }
    forall u | u in db'.log && (u.kind.REVERSAL? || u.reversalOf.Some?) ensures CompensatesSomething(db', u) {
      CompensatedKept(db, db', u);
    }
  }

  // Nothing compensated the original before: it was not reversed.
  lemma NotYetCompensated(db: Db, t: Transfer)
    requires ReversalsMatch(db) && t in db.log && TransferR(t.id) in db.rows && db.rows[TransferR(t.id)] == TransferStatus(false)
    ensures forall u :: u in db.log ==> u.reversalOf != Some(t.id)
  {
    forall u | u in db.log && u.reversalOf.Some?
      ensures Lookup(db, TransferR(u.reversalOf.value)) == Some(TransferStatus(true))
    {
      assert CompensatesSomething(db, u);
    }
  }

  lemma ReversalFlipsOne(db: Db, e: Effect, t: Transfer, first: nat)
    requires Reverses(db, e, t) && Fresh(db, e.moved.value.id)
    requires TransferR(e.moved.value.id) in e.writes && e.writes[TransferR(e.moved.value.id)] == TransferStatus(false)
    ensures forall x :: Reversed(Apply(db, e, first), x) <==> Reversed(db, x) || x.id == t.id
  {
    assert Creator(TransferR(e.moved.value.id)) == Some(e.moved.value.id);
  }

  lemma AllCompensated(db: Db, e: Effect, t: Transfer, first: nat, x: Transfer)
    requires ReversalsMatch(db) && TransfersNamed(db) && Reverses(db, e, t) && Fresh(db, e.moved.value.id)
    requires TransferR(e.moved.value.id) in e.writes && e.writes[TransferR(e.moved.value.id)] == TransferStatus(false)
    requires x in Apply(db, e, first).log
    ensures Reversed(Apply(db, e, first), x) ==> HasCompensation(Apply(db, e, first), x)
    ensures x.kind.REVERSAL? || x.reversalOf.Some? ==> CompensatesSomething(Apply(db, e, first), x)
  {
    var db' := Apply(db, e, first);
    var u := e.moved.value;
    ReversalFlipsOne(db, e, t, first);
    assert u in db'.log && t in db'.log;
    if x == u {
      assert CompensatesSomething(db', u);
    } else {
      if x.kind.REVERSAL? || x.reversalOf.Some? { CompensatedKept(db, db', x); }
      if x.id == t.id { SameIdSameTransfer(db, x, t); }
      else if Reversed(db, x) { CompensationKept(db, db', x); }
    }
  }

  lemma ReversalKeepsReversals(db: Db, e: Effect, t: Transfer, first: nat)
    requires ReversalsMatch(db) && TransfersNamed(db) && Reverses(db, e, t) && Fresh(db, e.moved.value.id)
    requires TransferR(e.moved.value.id) in e.writes && e.writes[TransferR(e.moved.value.id)] == TransferStatus(false)
    ensures ReversalsMatch(Apply(db, e, first))
  {
    var db' := Apply(db, e, first);
    forall x | x in db'.log
      ensures Reversed(db', x) ==> HasCompensation(db', x)
      ensures x.kind.REVERSAL? || x.reversalOf.Some? ==> CompensatesSomething(db', x)
    {
      AllCompensated(db, e, t, first, x);
    }
    NotYetCompensated(db, t);
    DistinctGrows(db.log, e.moved.value);
  }

  lemma DistinctGrows(log: seq<Transfer>, u: Transfer)
    requires Distinct(log) && forall x :: x in log ==> x.reversalOf.None? || x.reversalOf != u.reversalOf
    ensures Distinct(log + [u])
  {
  }

  lemma AtomicKeepsReversals(p: Policy, db: Db, c: Command, self: Id, start: Instant, seen: Seen, obs: Obs,
                             e: Effect, first: nat, reply: Reply, db': Db)
    requires ReversalsMatch(db) && Books(db)
    requires Atomic(p, db, c, self, start, seen, obs, e, first, reply, db')
    ensures ReversalsMatch(db')
  {
    CommitReverses(p, db, c, self, start, seen, obs);
    CommitWritesOwnRows(p, c, self, start, seen, obs);
    CommitMovesOrKeepsMoney(p, db, c, self, start, seen, obs);
    if ReversesNothing(db, e, self) {
      NothingKeepsReversals(db, e, self, first);
    } else {
      var t :| Reverses(db, e, t);
      ReversalKeepsReversals(db, e, t, first);
    }
  }

  // In every state: a transfer is REVERSED if and only if a reversal points to it, and then with the
  // accounts swapped and the same amount; mints and reversals never are.
  lemma ReversedIffCompensated(db: Db, t: Transfer)
    requires ReversalsMatch(db) && TransfersNamed(db) && t in db.log
    ensures Reversed(db, t) <==> exists u :: u in db.log && u.reversalOf == Some(t.id)
    ensures Reversed(db, t) ==> HasCompensation(db, t) && !t.kind.MINT? && !t.kind.REVERSAL?
  {
    if u :| u in db.log && u.reversalOf == Some(t.id) {
      assert CompensatesSomething(db, u);
    }
    if Reversed(db, t) {
      assert HasCompensation(db, t);
      var u :| u in db.log && Compensates(u, t);
    }
  }

  // No transfer is reversed twice.
  lemma ReversalIsUnique(db: Db, u: Transfer, v: Transfer)
    requires ReversalsMatch(db) && u in db.log && v in db.log && u.reversalOf.Some? && u.reversalOf == v.reversalOf
    ensures u == v
  {
    var i :| 0 <= i < |db.log| && db.log[i] == u;
    var j :| 0 <= j < |db.log| && db.log[j] == v;
  }

  // A reversal that the recipient cannot pay back is refused, whatever else is true of it.
  lemma UnaffordableReversalFails(p: Policy, db: Db, c: Command, self: Id, start: Instant, seen: Seen, obs: Obs, t: Transfer)
    requires c.Reverse? && AllStand(db, seen)
    requires Original(c.original) in obs && obs[Original(c.original)].Loaded? && obs[Original(c.original)].found == Some(t)
    requires AccountR(t.to) in db.rows && db.rows[AccountR(t.to)].Account? && !db.rows[AccountR(t.to)].system
    requires db.rows[AccountR(t.to)].balance < t.amount
    ensures !PlanReverse(p, c, self, start, seen, obs).Commit? || PlanReverse(p, c, self, start, seen, obs).effect == NO_EFFECT
  {
    if AccountR(t.to) in seen {
      assert Stands(db, AccountR(t.to), seen[AccountR(t.to)]);
    }
  }
}
