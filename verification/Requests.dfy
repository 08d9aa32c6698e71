/**
 Money requests and split bills: a request is settled by exactly one payment of its own, and a
 settled, declined, cancelled or expired request never changes again.
 */
module Requests {
  import opened Calendar
  import opened Store
  import opened Scripts
  import opened Engine

  // ---------------------------------------------------------------- what a commit does to requests

  // Creation: a fresh pending row.
  ghost predicate Opens(id: RequestId, row: Row, self: Id) {
    id.creator == self && row.Request? && row.state.PENDING? && row.settled.None?
  }

  // A pending row changes its state and nothing else.
  ghost predicate Ends(db: Db, id: RequestId, row: Row) {
    var r := RequestR(id);
    && r in db.rows && db.rows[r].Request? && db.rows[r].state.PENDING?
    && row.Request? && !row.state.PENDING? && !row.state.ACCEPTED?
    && row == db.rows[r].(state := row.state)
  }

  // A pending row is accepted together with the payment that settles it.
  ghost predicate Settles(db: Db, id: RequestId, row: Row, self: Id, moved: Option<Transfer>) {
    var r := RequestR(id);
    && r in db.rows && db.rows[r].Request? && db.rows[r].state.PENDING?
    && row == db.rows[r].(state := ACCEPTED, settled := Some(self))
    && moved.Some? && Pays(moved.value, db.rows[r])
  }

  predicate Pays(t: Transfer, row: Row) {
    row.Request? && t.kind == REQUEST_SETTLEMENT && t.from == row.payer && t.to == row.requester && t.amount == row.amount
  }

  ghost predicate RequestWrites(db: Db, e: Effect, self: Id) {
    && (forall id :: RequestR(id) in e.writes ==>
          || Opens(id, e.writes[RequestR(id)], self)
          || Ends(db, id, e.writes[RequestR(id)])
          || Settles(db, id, e.writes[RequestR(id)], self, e.moved))
      // a settlement payment has its request, and only one
    && (e.moved.Some? && e.moved.value.kind.REQUEST_SETTLEMENT? ==>
          exists id :: RequestR(id) in e.writes && Settles(db, id, e.writes[RequestR(id)], self, e.moved))
    && (forall x, y :: RequestR(x) in e.writes && RequestR(y) in e.writes && x != y ==>
          !(Settles(db, x, e.writes[RequestR(x)], self, e.moved) && Settles(db, y, e.writes[RequestR(y)], self, e.moved)))
  }

  lemma AcceptWritesRequest(p: Policy, db: Db, c: Command, self: Id, start: Instant, seen: Seen, obs: Obs)
    requires c.Accept? && AllStand(db, seen) && PlanAccept(p, c, self, start, seen, obs).Commit?
    ensures RequestWrites(db, PlanAccept(p, c, self, start, seen, obs).effect, self)
  {
    var e := PlanAccept(p, c, self, start, seen, obs).effect;
    if e != NO_EFFECT {
      var r := RequestR(c.request);
      assert Stands(db, r, seen[r]);
      assert r in e.writes && Settles(db, c.request, e.writes[r], self, e.moved);
      assert forall id :: RequestR(id) in e.writes ==> id == c.request;
    }
  }

  lemma ExpireWritesRequests(db: Db, c: Command, self: Id, start: Instant, seen: Seen, obs: Obs)
    requires c.ExpireDue? && AllStand(db, seen) && PlanExpire(c, c.requests, start, seen, obs).Commit?
    ensures RequestWrites(db, PlanExpire(c, c.requests, start, seen, obs).effect, self)
  {
    ExpireCommits(c, c.requests, start, seen, obs);
    forall id | RequestR(id) in Expired(seen, start)
      ensures Ends(db, id, Expired(seen, start)[RequestR(id)])
    {
      assert Stands(db, RequestR(id), seen[RequestR(id)]);
    }
  }

  lemma CreationWritesRequests(p: Policy, db: Db, c: Command, self: Id, seen: Seen)
    requires c.CreateRequest? || c.CreateSplit?
    requires Plan(p, c, self, 0, seen, map[]).Commit?
    ensures RequestWrites(db, Plan(p, c, self, 0, seen, map[]).effect, self)
  {
  }

  lemma TerminateWritesRequest(db: Db, c: Command, self: Id, seen: Seen)
    requires c.Terminate? && AllStand(db, seen) && PlanTerminate(c, seen).Commit?
    ensures RequestWrites(db, PlanTerminate(c, seen).effect, self)
  {
    assert Stands(db, RequestR(c.request), seen[RequestR(c.request)]);
  }

  lemma OthersWriteNoRequest(p: Policy, db: Db, c: Command, self: Id, start: Instant, seen: Seen, obs: Obs)
    requires c.Send? || c.Reverse? || c.Register?
    requires Plan(p, c, self, start, seen, obs).Commit?
    ensures RequestWrites(db, Plan(p, c, self, start, seen, obs).effect, self)
  {
  }

  lemma RunWritesNoRequest(p: Policy, db: Db, c: Command, self: Id, start: Instant, seen: Seen, obs: Obs)
    requires c.Run? && PlanRun(p, c, self, start, seen, obs).Commit?
    ensures RequestWrites(db, PlanRun(p, c, self, start, seen, obs).effect, self)
  {
  }

  lemma CommitWritesRequests(p: Policy, db: Db, c: Command, self: Id, start: Instant, seen: Seen, obs: Obs)
    requires AllStand(db, seen) && Plan(p, c, self, start, seen, obs).Commit?
    ensures RequestWrites(db, Plan(p, c, self, start, seen, obs).effect, self)
  {
    if c.Accept? { AcceptWritesRequest(p, db, c, self, start, seen, obs); }
    else if c.ExpireDue? { ExpireWritesRequests(db, c, self, start, seen, obs); }
    else if c.Terminate? { TerminateWritesRequest(db, c, self, seen); }
    else if c.CreateRequest? || c.CreateSplit? { CreationWritesRequests(p, db, c, self, seen); }
    else if c.Send? || c.Reverse? || c.Register? { OthersWriteNoRequest(p, db, c, self, start, seen, obs); }
    else if c.Run? { RunWritesNoRequest(p, db, c, self, start, seen, obs); }
  }

  // ---------------------------------------------------------------- the invariant

  ghost predicate SettledBy(db: Db, row: Row, t: Transfer) {
    t in db.log && row.Request? && row.settled == Some(t.id) && Pays(t, row)
  }

  // ACCEPTED exactly with a settlement payment of its own, for its amount, from payer to requester.
  ghost predicate AcceptedIffPaid(db: Db) {
    forall id :: RequestR(id) in db.rows ==>
      && db.rows[RequestR(id)].Request?
      && (db.rows[RequestR(id)].state.ACCEPTED? <==> db.rows[RequestR(id)].settled.Some?)
      && (db.rows[RequestR(id)].state.ACCEPTED? ==> exists t :: SettledBy(db, db.rows[RequestR(id)], t))
  }

  ghost predicate Placed(db: Db, t: Transfer) {
    exists id :: RequestR(id) in db.rows && SettledBy(db, db.rows[RequestR(id)], t)
  }

  // Every settlement payment belongs to a request, and no two requests share one.
  ghost predicate RequestsSettled(db: Db) {
    && AcceptedIffPaid(db)
    && (forall t :: t in db.log && t.kind.REQUEST_SETTLEMENT? ==> Placed(db, t))
    && (forall x, y :: RequestR(x) in db.rows && RequestR(y) in db.rows && x != y ==>
          db.rows[RequestR(x)].settled.None? || db.rows[RequestR(x)].settled != db.rows[RequestR(y)].settled)
  }

  lemma RowStaysSettled(db: Db, db': Db, id: RequestId)
    requires RequestsSettled(db) && RequestR(id) in db.rows && db.rows[RequestR(id)].state.ACCEPTED?
    requires db.log <= db'.log && RequestR(id) in db'.rows && db'.rows[RequestR(id)] == db.rows[RequestR(id)]
    ensures exists t :: SettledBy(db', db'.rows[RequestR(id)], t)
  {
    var t :| SettledBy(db, db.rows[RequestR(id)], t);
    assert t in db'.log;
    assert SettledBy(db', db'.rows[RequestR(id)], t);
  }

  // Finished requests never change, and every request keeps its parties and amount.
  ghost predicate RequestsProgress(db: Db, db': Db) {
    forall id :: RequestR(id) in db.rows && db.rows[RequestR(id)].Request? ==>
      && RequestR(id) in db'.rows && db'.rows[RequestR(id)].Request?
      && (!db.rows[RequestR(id)].state.PENDING? ==> db'.rows[RequestR(id)] == db.rows[RequestR(id)])
      && db'.rows[RequestR(id)].requester == db.rows[RequestR(id)].requester
      && db'.rows[RequestR(id)].payer == db.rows[RequestR(id)].payer
      && db'.rows[RequestR(id)].amount == db.rows[RequestR(id)].amount
  }

  lemma AtomicProgressesRequests(p: Policy, db: Db, c: Command, self: Id, start: Instant, seen: Seen, obs: Obs,
                                 e: Effect, first: nat, reply: Reply, db': Db)
    requires Atomic(p, db, c, self, start, seen, obs, e, first, reply, db')
    ensures RequestsProgress(db, db')
  {
    CommitWritesRequests(p, db, c, self, start, seen, obs);
    forall id | RequestR(id) in db.rows && RequestR(id) in e.writes ensures !Opens(id, e.writes[RequestR(id)], self) {
      assert Creator(RequestR(id)) == Some(id.creator);
    }
  }

  lemma SettledIdsAreOld(db: Db, self: Id)
    requires RequestsSettled(db) && Fresh(db, self)
    ensures forall id :: RequestR(id) in db.rows ==> db.rows[RequestR(id)].settled != Some(self)
  {
    forall id | RequestR(id) in db.rows ensures db.rows[RequestR(id)].settled != Some(self) {
      if db.rows[RequestR(id)].settled.Some? {
        var t :| SettledBy(db, db.rows[RequestR(id)], t);
      }
    }
  }

  lemma EveryRowSettled(db: Db, e: Effect, self: Id, first: nat, id: RequestId)
    requires RequestsSettled(db) && Fresh(db, self) && RequestWrites(db, e, self)
    requires e.moved.Some? ==> e.moved.value.id == self
    requires RequestR(id) in Apply(db, e, first).rows
    ensures var db' := Apply(db, e, first);
            var row := db'.rows[RequestR(id)];
            && row.Request? && (row.state.ACCEPTED? <==> row.settled.Some?)
            && (row.state.ACCEPTED? ==> exists t :: SettledBy(db', row, t))
  {
    var db' := Apply(db, e, first);
    var row := db'.rows[RequestR(id)];
    if RequestR(id) in e.writes {
      if Settles(db, id, row, self, e.moved) {
        assert e.moved.value in db'.log;
        assert SettledBy(db', row, e.moved.value);
      }
    } else if row.state.ACCEPTED? {
      RowStaysSettled(db, db', id);
    }
  }

  lemma EveryPaymentPlaced(db: Db, e: Effect, self: Id, first: nat, t: Transfer)
    requires RequestsSettled(db) && Fresh(db, self) && RequestWrites(db, e, self)
    requires e.moved.Some? ==> e.moved.value.id == self
    requires t in Apply(db, e, first).log && t.kind.REQUEST_SETTLEMENT?
    ensures var db' := Apply(db, e, first);
            Placed(db', t)
  {
    var db' := Apply(db, e, first);
    if t in db.log {
      var id :| RequestR(id) in db.rows && SettledBy(db, db.rows[RequestR(id)], t);
      assert Creator(RequestR(id)) != Some(self);
      assert RequestR(id) !in e.writes;
      assert SettledBy(db', db'.rows[RequestR(id)], t);
    } else {
      var id :| RequestR(id) in e.writes && Settles(db, id, e.writes[RequestR(id)], self, e.moved);
      assert SettledBy(db', db'.rows[RequestR(id)], t);
    }
  }

  lemma SettlementsStayDistinct(db: Db, e: Effect, self: Id, first: nat, x: RequestId, y: RequestId)
    requires RequestsSettled(db) && Fresh(db, self) && RequestWrites(db, e, self)
    requires var rows := Apply(db, e, first).rows;
             RequestR(x) in rows && RequestR(y) in rows && x != y && rows[RequestR(x)].Request? && rows[RequestR(y)].Request?
             && rows[RequestR(x)].settled.Some?
    ensures Apply(db, e, first).rows[RequestR(x)].settled != Apply(db, e, first).rows[RequestR(y)].settled
  {
    SettledIdsAreOld(db, self);
  }

  lemma AtomicKeepsRequests(p: Policy, db: Db, c: Command, self: Id, start: Instant, seen: Seen, obs: Obs,
                            e: Effect, first: nat, reply: Reply, db': Db)
    requires RequestsSettled(db)
    requires Atomic(p, db, c, self, start, seen, obs, e, first, reply, db')
    ensures RequestsSettled(db')
  {
    CommitWritesRequests(p, db, c, self, start, seen, obs);
    CommitWritesOwnRows(p, c, self, start, seen, obs);
    forall id | RequestR(id) in db'.rows
      ensures var row := db'.rows[RequestR(id)];
              && row.Request? && (row.state.ACCEPTED? <==> row.settled.Some?)
              && (row.state.ACCEPTED? ==> exists t :: SettledBy(db', row, t))
    {
      EveryRowSettled(db, e, self, first, id);
    }
    forall t | t in db'.log && t.kind.REQUEST_SETTLEMENT?
      ensures Placed(db', t)
    {
      EveryPaymentPlaced(db, e, self, first, t);
    }
    forall x, y | RequestR(x) in db'.rows && RequestR(y) in db'.rows && x != y && db'.rows[RequestR(x)].settled.Some?
      ensures db'.rows[RequestR(x)].settled != db'.rows[RequestR(y)].settled
    {
      SettlementsStayDistinct(db, e, self, first, x, y);
    }
  }
}
