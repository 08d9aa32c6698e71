/**
 Every commit of the interleaved machine is the atomic execution of its script against the state
 committed at that moment, and every other step leaves the committed state alone.
 */
module Serializability {
  import opened Calendar
  import opened Store
  import opened Scripts
  import opened Engine

  predicate Insertable(r: Resource) {
    r.KeyR? || r.AdvisoryR? || r.OccurrenceR?
  }

  // What a running transaction knows is what is committed now, for every row it holds.
  ghost predicate Current(db: Db, tx: Tx) {
    && tx.held <= tx.seen.Keys
    && (forall r :: r in tx.held ==> tx.seen[r] == Lookup(db, r)
                                     && (tx.seen[r].None? ==> Insertable(r))
                                     && (r.KeyR? ==> tx.seen[r].None?))
    && (forall r :: r in tx.seen && r !in tx.held ==>
          if tx.seen[r].Some? then r.KeyR? && tx.seen[r] == Lookup(db, r) else !Insertable(r))
    && LoadedStand(db, tx.obs)
  }

  ghost predicate Exclusive(s: State) {
    forall t, u, r :: t in s.active && u in s.active && t != u && r in s.active[t].held ==> r !in s.active[u].held
  }

  // Rows and transfers are named by transactions that are over.
  ghost predicate Named(s: State) {
    && (forall t :: t in s.active ==> t < s.nextTx && s.active[t].start <= s.now)
    && (forall r :: r in s.db.rows && Creator(r).Some? ==> Creator(r).value < s.nextTx && Creator(r).value !in s.active)
    && (forall x :: x in s.db.log ==> x.id < s.nextTx && x.id !in s.active)
    && (forall e :: e in s.db.entries ==> e.id < s.nextEntry)
  }

  ghost predicate Numbered(p: Policy, s: State, t: Id)
    requires t in s.active
  {
    s.active[t].first.Some? ==>
      && PlanOf(p, s, t).Commit?
      && s.active[t].first.value + |PlanOf(p, s, t).effect.legs| <= s.nextEntry
      && NumberedAbove(s.db, PlanOf(p, s, t).effect.legs, s.active[t].first.value)
  }

  ghost predicate Inv(p: Policy, s: State) {
    && Exclusive(s)
    && Named(s)
    && (forall t :: t in s.active ==> Current(s.db, s.active[t]))
    && (forall t :: t in s.active ==> Numbered(p, s, t))
  }

  lemma StartInv(p: Policy, now: Instant)
    ensures Inv(p, Start(now))
  {
  }

  // A found transfer is in the log under its own id.
  lemma {:induction false} FindTransferFinds(log: seq<Transfer>, id: Id)
    ensures FindTransfer(log, id).Some? ==> FindTransfer(log, id).value in log && FindTransfer(log, id).value.id == id
    ensures FindTransfer(log, id).None? ==> forall t :: t in log ==> t.id != id
  {
    if |log| > 0 {
      FindTransferFinds(log[..|log| - 1], id);
      assert log == log[..|log| - 1] + [log[|log| - 1]];
    }
  }

  // A script asks for a row it has not read, with the statement that suits the row.
  predicate AsksFor(next: Next, seen: Seen) {
    match next
    case Lock(r) => r !in seen && !Insertable(r)
    case Insert(r) => r !in seen && Insertable(r)
    case TryLock(r) => r !in seen && (r.RequestR? || r.ScheduleR?)
    case _ => true
  }

  lemma {:induction false} ExpireAsksOnce(c: Command, todo: seq<RequestId>, start: Instant, seen: Seen, obs: Obs)
    requires c.ExpireDue?
    ensures AsksFor(PlanExpire(c, todo, start, seen, obs), seen)
  {
    if |todo| > 0 {
      ExpireAsksOnce(c, todo[1..], start, seen, obs);
    }
  }

  lemma SendAsksOnce(p: Policy, c: Command, self: Id, start: Instant, seen: Seen, obs: Obs)
    requires c.Send?
    ensures AsksFor(PlanSend(p, c, self, start, seen, obs), seen)
  {
  }

  lemma AcceptAsksOnce(p: Policy, c: Command, self: Id, start: Instant, seen: Seen, obs: Obs)
    requires c.Accept?
    ensures AsksFor(PlanAccept(p, c, self, start, seen, obs), seen)
  {
  }

  lemma ReverseAsksOnce(p: Policy, c: Command, self: Id, start: Instant, seen: Seen, obs: Obs)
    requires c.Reverse?
    ensures AsksFor(PlanReverse(p, c, self, start, seen, obs), seen)
  {
  }

  lemma RunAsksOnce(p: Policy, c: Command, self: Id, start: Instant, seen: Seen, obs: Obs)
    requires c.Run?
    ensures AsksFor(PlanRun(p, c, self, start, seen, obs), seen)
  {
  }

  lemma AsksOnce(p: Policy, c: Command, self: Id, start: Instant, seen: Seen, obs: Obs)
    ensures AsksFor(Plan(p, c, self, start, seen, obs), seen)
  {
    if c.Send? { SendAsksOnce(p, c, self, start, seen, obs); }
    else if c.Accept? { AcceptAsksOnce(p, c, self, start, seen, obs); }
    else if c.Reverse? { ReverseAsksOnce(p, c, self, start, seen, obs); }
    else if c.Run? { RunAsksOnce(p, c, self, start, seen, obs); }
    else if c.ExpireDue? { ExpireAsksOnce(c, c.requests, start, seen, obs); }
  }

  // A transaction that has not written yet may learn more, and take free rows.
  lemma ReplaceKeepsExclusive(s: State, t: Id, tx: Tx)
    requires Exclusive(s) && t in s.active
    requires forall r :: r in tx.held && r !in s.active[t].held ==> !HeldByOther(s, t, r)
    ensures Exclusive(s.(active := s.active[t := tx]))
  {
  }

  lemma OthersStayNumbered(p: Policy, s: State, s': State, t: Id)
    requires forall u :: u in s.active ==> Numbered(p, s, u)
    requires s'.db == s.db && s'.nextEntry >= s.nextEntry
    requires forall u :: u in s'.active && u != t ==> u in s.active && s'.active[u] == s.active[u]
    ensures forall u :: u in s'.active && u != t ==> Numbered(p, s', u)
  {
    forall u | u in s'.active && u != t ensures Numbered(p, s', u) {
      assert Numbered(p, s, u);
      assert PlanOf(p, s', u) == PlanOf(p, s, u);
    }
  }

  lemma ReplaceKeepsInv(p: Policy, s: State, t: Id, tx: Tx)
    requires Inv(p, s) && t in s.active
    requires tx.start == s.active[t].start && tx.first.None?
    requires Current(s.db, tx)
    requires forall r :: r in tx.held && r !in s.active[t].held ==> !HeldByOther(s, t, r)
    ensures Inv(p, s.(active := s.active[t := tx]))
  {
    ReplaceKeepsExclusive(s, t, tx);
    OthersStayNumbered(p, s, s.(active := s.active[t := tx]), t);
  }

  lemma TakeIsCurrent(db: Db, tx: Tx, r: Resource)
    requires Current(db, tx)
    requires if r in db.rows then !r.KeyR? else Insertable(r)
    ensures Current(db, Take(db, tx, r))
  {
  }

  lemma PeekIsCurrent(db: Db, tx: Tx, r: Resource)
    requires Current(db, tx) && r !in tx.seen
    requires if r in db.rows then r.KeyR? else !Insertable(r)
    ensures Current(db, Peek(db, tx, r))
  {
  }

  lemma AnswerIsCurrent(db: Db, tx: Tx, q: Query)
    requires Current(db, tx)
    ensures Current(db, tx.(obs := tx.obs[q := Result(db, q)]))
  {
    if q.Original? {
      FindTransferFinds(db.log, q.transfer);
    }
  }

  lemma UndoIsCurrent(db: Db, tx: Tx, e: Error)
    requires Current(db, tx)
    ensures Current(db, Undo(tx, e))
  {
  }

  lemma DropKeepsInv(p: Policy, s: State, victims: set<Id>)
    requires Inv(p, s) && victims <= s.active.Keys
    ensures Inv(p, s.(active := s.active - victims))
  {
    var s' := s.(active := s.active - victims);
    forall u | u in s'.active ensures Numbered(p, s', u) {
      assert Numbered(p, s, u) && PlanOf(p, s', u) == PlanOf(p, s, u);
    }
  }

  lemma WriteKeepsInv(p: Policy, s: State, t: Id)
    requires Inv(p, s) && t in s.active && PlanOf(p, s, t).Commit? && s.active[t].first.None?
    ensures Inv(p, Advance(p, s, t))
  {
    var s' := Advance(p, s, t);
    ReplaceKeepsExclusive(s, t, s'.active[t]);
    OthersStayNumbered(p, s, s', t);
    assert PlanOf(p, s', t) == PlanOf(p, s, t);
    assert Numbered(p, s', t);
    forall u | u in s'.active ensures Current(s'.db, s'.active[u]) {
      assert Current(s.db, s.active[u]);
    }
    assert Named(s');
  }

  // Two transactions never write the same row.
  lemma DisjointWrites(p: Policy, s: State, t: Id, u: Id, r: Resource)
    requires Inv(p, s) && t in s.active && u in s.active && t != u
    requires MayWrite(r, t, s.active[t].seen)
    ensures r !in s.active[u].held
    ensures !MayWrite(r, u, s.active[u].seen)
  {
    assert Current(s.db, s.active[t]) && Current(s.db, s.active[u]);
  }

  lemma CommitKeepsOther(p: Policy, s: State, t: Id, u: Id)
    requires Inv(p, s) && t in s.active && u in s.active && t != u
    requires PlanOf(p, s, t).Commit? && s.active[t].first.Some?
    ensures Current(Advance(p, s, t).db, s.active[u])
  {
    var tx := s.active[t];
    var e := PlanOf(p, s, t).effect;
    CommitWritesOwnRows(p, tx.command, t, tx.start, tx.seen, tx.obs);
    forall r | r in e.writes ensures r !in s.active[u].held {
      DisjointWrites(p, s, t, u, r);
    }
    assert Current(s.db, tx) && Current(s.db, s.active[u]);
  }

  lemma CommitKeepsNumbered(p: Policy, s: State, t: Id, u: Id)
    requires Inv(p, s) && t in s.active && u in s.active && t != u
    requires PlanOf(p, s, t).Commit? && s.active[t].first.Some?
    ensures Numbered(p, Advance(p, s, t), u)
  {
    var tx := s.active[t];
    var e := PlanOf(p, s, t).effect;
    var s' := Advance(p, s, t);
    assert Numbered(p, s, u);
    if s.active[u].first.Some? {
      var ux := s.active[u];
      var f := PlanOf(p, s, u).effect;
      CommitWritesOwnRows(p, tx.command, t, tx.start, tx.seen, tx.obs);
      CommitWritesOwnRows(p, ux.command, u, ux.start, ux.seen, ux.obs);
      assert PlanOf(p, s', u) == PlanOf(p, s, u);
      forall x, leg | x in s'.db.entries && leg in f.legs && x.leg.account == leg.account
        ensures x.id < ux.first.value
      {
        if x !in s.db.entries {
          assert x in Number(e.legs, tx.first.value);
          assert AccountR(leg.account) in e.writes && AccountR(leg.account) in f.writes;
          DisjointWrites(p, s, t, u, AccountR(leg.account));
        }
      }
    }
  }

  lemma CommitKeepsInv(p: Policy, s: State, t: Id)
    requires Inv(p, s) && t in s.active && PlanOf(p, s, t).Commit? && s.active[t].first.Some?
    ensures Inv(p, Advance(p, s, t))
  {
    var tx := s.active[t];
    var e := PlanOf(p, s, t).effect;
    var s' := Advance(p, s, t);
    CommitWritesOwnRows(p, tx.command, t, tx.start, tx.seen, tx.obs);
    assert Numbered(p, s, t) && Current(s.db, tx);
    forall u | u in s'.active ensures Current(s'.db, s'.active[u]) && Numbered(p, s', u) {
      CommitKeepsOther(p, s, t, u);
      CommitKeepsNumbered(p, s, t, u);
    }
    forall r | r in s'.db.rows && Creator(r).Some?
      ensures Creator(r).value < s'.nextTx && Creator(r).value !in s'.active
    {
      if r in e.writes && Creator(r) != Some(t) {
        assert r in s.db.rows;
      }
    }
  }

  lemma StepKeepsInv(p: Policy, s: State, t: Id)
    requires Inv(p, s) && t in s.active && !Blocked(p, s, t)
    ensures Inv(p, Advance(p, s, t))
  {
    var tx := s.active[t];
    assert Numbered(p, s, t) && Current(s.db, tx);
    AsksOnce(p, tx.command, t, tx.start, tx.seen, tx.obs);
    match PlanOf(p, s, t)
    case Commit(_, _) =>
      if tx.first.None? { WriteKeepsInv(p, s, t); } else { CommitKeepsInv(p, s, t); }
    case Fail(_) => DropKeepsInv(p, s, {t});
    case RollbackTo(e) =>
      UndoIsCurrent(s.db, tx, e);
      ReplaceKeepsInv(p, s, t, Undo(tx, e));
    case Ask(q) =>
      AnswerIsCurrent(s.db, tx, q);
      ReplaceKeepsInv(p, s, t, tx.(obs := tx.obs[q := Result(s.db, q)]));
    case Insert(r) =>
      if r.KeyR? && r in s.db.rows { PeekKeepsInv(p, s, t, r); } else { TakeKeepsInv(p, s, t, r); }
    case Lock(r) =>
      if r in s.db.rows { TakeKeepsInv(p, s, t, r); } else { PeekKeepsInv(p, s, t, r); }
    case TryLock(r) =>
      if HeldByOther(s, t, r) {
        AnswerIsCurrent(s.db, tx, Busy(r));
        ReplaceKeepsInv(p, s, t, tx.(obs := tx.obs[Busy(r) := Yes]));
      } else if r in s.db.rows { TakeKeepsInv(p, s, t, r); } else { PeekKeepsInv(p, s, t, r); }
  }

  lemma TakeKeepsInv(p: Policy, s: State, t: Id, r: Resource)
    requires Inv(p, s) && t in s.active && s.active[t].first.None? && !HeldByOther(s, t, r)
    requires if r in s.db.rows then !r.KeyR? else Insertable(r)
    ensures Inv(p, s.(active := s.active[t := Take(s.db, s.active[t], r)]))
  {
    TakeIsCurrent(s.db, s.active[t], r);
    ReplaceKeepsInv(p, s, t, Take(s.db, s.active[t], r));
  }

  lemma PeekKeepsInv(p: Policy, s: State, t: Id, r: Resource)
    requires Inv(p, s) && t in s.active && s.active[t].first.None? && r !in s.active[t].seen
    requires if r in s.db.rows then r.KeyR? else !Insertable(r)
    ensures Inv(p, s.(active := s.active[t := Peek(s.db, s.active[t], r)]))
  {
    PeekIsCurrent(s.db, s.active[t], r);
    ReplaceKeepsInv(p, s, t, Peek(s.db, s.active[t], r));
  }

  lemma BeginKeepsInv(p: Policy, s: State, c: Command)
    requires Inv(p, s)
    ensures Inv(p, Fire(p, s, Begin(c)))
  {
    var s' := Fire(p, s, Begin(c));
    OthersStayNumbered(p, s, s', s.nextTx);
  }

  lemma TickKeepsInv(p: Policy, s: State, micros: nat)
    requires Inv(p, s)
    ensures Inv(p, Fire(p, s, Tick(micros)))
  {
    OthersStayNumbered(p, s, Fire(p, s, Tick(micros)), s.nextTx);
  }

  lemma FireKeepsInv(p: Policy, s: State, e: Event)
    requires Inv(p, s) && CanFire(p, s, e)
    ensures Inv(p, Fire(p, s, e))
  {
    match e
    case Begin(c) => BeginKeepsInv(p, s, c);
    case Tick(micros) => TickKeepsInv(p, s, micros);
    case Abort(victims) => DropKeepsInv(p, s, victims);
    case Step(t) => StepKeepsInv(p, s, t);
  }

  // ---------------------------------------------------------------- refinement

  // The step that commits.
  predicate Commits(p: Policy, s: State, e: Event) {
    e.Step? && e.tx in s.active && s.active[e.tx].first.Some? && PlanOf(p, s, e.tx).Commit?
  }

  ghost predicate AtomicStep(p: Policy, s: State, t: Id, db': Db)
    requires t in s.active && s.active[t].first.Some? && PlanOf(p, s, t).Commit?
  {
    var tx := s.active[t];
    var plan := PlanOf(p, s, t);
    Atomic(p, s.db, tx.command, t, tx.start, tx.seen, tx.obs, plan.effect, tx.first.value, plan.reply, db')
  }

  // One step of the machine either commits a whole script atomically or changes nothing committed.
  lemma StepRefines(p: Policy, s: State, e: Event)
    requires Inv(p, s) && CanFire(p, s, e)
    ensures Inv(p, Fire(p, s, e))
    ensures if Commits(p, s, e) then AtomicStep(p, s, e.tx, Fire(p, s, e).db)
            else Fire(p, s, e).db == s.db && Fire(p, s, e).replies == s.replies
  {
    FireKeepsInv(p, s, e);
    if e.Step? {
      assert Numbered(p, s, e.tx);
      assert Current(s.db, s.active[e.tx]);
    }
  }
}
