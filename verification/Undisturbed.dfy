/**
 A transaction whose rows nobody else holds runs through to its verdict, whoever else is about.
 */
module Undisturbed {
  import opened Calendar
  import opened Store
  import opened Scripts
  import opened Engine
  import opened Serializability
  import opened Deadlock
  import opened Alone

  // Nobody else holds a row that `t` can come to lock.
  ghost predicate Free(p: Policy, s: State, t: Id, c: Command, start: Instant) {
    forall u :: u in s.active && u != t ==> s.active[u].held !! Touched(p, s.db, c, start)
  }

  // Everything `t` knows, it learnt from the committed state as it still is.
  ghost predicate Underway(p: Policy, s: State, t: Id) {
    t in s.active &&
    var tx := s.active[t];
    && tx.first.None?
    && Faithful(p, s.db, tx.command, t, tx.start, tx.seen, tx.obs)
    && Free(p, s, t, tx.command, tx.start)
  }

  // The rows and answers it lacks, and whether its payment can still be refused.
  ghost function ToLearn(p: Policy, s: State, t: Id): nat
    requires t in s.active
  {
    var tx := s.active[t];
    |Touched(p, s.db, tx.command, tx.start) - tx.seen.Keys| + |Asked(p, s.db, tx.command, tx.start) - tx.obs.Keys|
  }

  lemma FootprintWithin(p: Policy, db: Db, c: Command, self: Id, start: Instant, seen: Seen, obs: Obs)
    requires !c.ExpireDue? && Faithful(p, db, c, self, start, seen, obs)
    ensures Footprint(p, c, seen, obs) <= Touched(p, db, c, start)
  {
  }

  // A script locks rows of its own, and asks questions of its own.
  lemma NextIsTouched(p: Policy, db: Db, c: Command, self: Id, start: Instant, seen: Seen, obs: Obs)
    requires Faithful(p, db, c, self, start, seen, obs)
    ensures var next := Plan(p, c, self, start, seen, obs);
            next.Lock? || next.Insert? || next.TryLock? ==> next.row in Touched(p, db, c, start) && next.row !in seen
  {
    AsksOnce(p, c, self, start, seen, obs);
    PlanAsksForLowest(p, c, self, start, seen, obs);
    if !c.ExpireDue? {
      FootprintWithin(p, db, c, self, start, seen, obs);
    } else {
      ExpireNeverWaits(c, c.requests, start, seen, obs);
    }
  }

  lemma PaymentsAsk(p: Policy, db: Db, c: Command, self: Id, start: Instant, seen: Seen, obs: Obs)
    requires c.Send? || c.Accept? || c.Reverse?
    requires Faithful(p, db, c, self, start, seen, obs) && Plan(p, c, self, start, seen, obs).Ask?
    ensures Plan(p, c, self, start, seen, obs).query in Asked(p, db, c, start) && Plan(p, c, self, start, seen, obs).query !in obs
  {
  }

  lemma RunsAsk(p: Policy, db: Db, c: Command, self: Id, start: Instant, seen: Seen, obs: Obs)
    requires c.Run? && Faithful(p, db, c, self, start, seen, obs) && PlanRun(p, c, self, start, seen, obs).Ask?
    ensures PlanRun(p, c, self, start, seen, obs).query in Asked(p, db, c, start)
    ensures PlanRun(p, c, self, start, seen, obs).query !in obs
  {
  }

  lemma QueryIsAsked(p: Policy, db: Db, c: Command, self: Id, start: Instant, seen: Seen, obs: Obs)
    requires Faithful(p, db, c, self, start, seen, obs) && Plan(p, c, self, start, seen, obs).Ask?
    ensures Plan(p, c, self, start, seen, obs).query in Asked(p, db, c, start) && Plan(p, c, self, start, seen, obs).query !in obs
  {
    if c.Run? { RunsAsk(p, db, c, self, start, seen, obs); }
    else if c.Send? || c.Accept? || c.Reverse? { PaymentsAsk(p, db, c, self, start, seen, obs); }
    else if c.ExpireDue? { ExpireNeverWaits(c, c.requests, start, seen, obs); }
  }

  lemma RefusalStands(p: Policy, c: Command, self: Id, start: Instant, seen: Seen, obs: Obs, seen': Seen, obs': Obs)
    requires c.Run? && Within(seen, obs, seen', obs') && PaymentRefused !in obs' && Busy(ScheduleR(c.schedule)) !in obs'
    requires PlanRun(p, c, self, start, seen, obs).RollbackTo?
    ensures PlanRun(p, c, self, start, seen', obs') == PlanRun(p, c, self, start, seen, obs)
  {
  }

  lemma RefusedOnce(p: Policy, db: Db, c: Command, self: Id, start: Instant, seen: Seen, obs: Obs)
    requires Faithful(p, db, c, self, start, seen, obs) && Plan(p, c, self, start, seen, obs).RollbackTo?
    ensures PaymentRefused !in obs && FirstPlan(p, db, c, self, start) == Plan(p, c, self, start, seen, obs)
  {
    OnlyRunsUndo(p, c, self, start, seen, obs);
    RefusalStands(p, c, self, start, seen, obs, Known(db, Touched(p, db, c, start)), Answers(db, Asked(p, db, c, start)));
  }

  // Only `t` has changed, and only what it knows.
  ghost predicate OnlyLearnt(s: State, s': State, t: Id) {
    && t in s.active && t in s'.active
    && s' == s.(active := s.active[t := s'.active[t]])
    && s'.active[t].command == s.active[t].command && s'.active[t].start == s.active[t].start && s'.active[t].first.None?
  }

  predicate Refused(s: State, t: Id) {
    t in s.active && PaymentRefused in s.active[t].obs
  }

  lemma Shrinks<T>(all: set<T>, known: set<T>, x: T)
    requires x in all && x !in known
    ensures |all - (known + {x})| < |all - known|
  {
    assert all - known == (all - (known + {x})) + {x};
  }

  lemma ReadIsFaithful(p: Policy, db: Db, c: Command, self: Id, start: Instant, seen: Seen, obs: Obs, r: Resource)
    requires Faithful(p, db, c, self, start, seen, obs) && r in Touched(p, db, c, start)
    ensures Faithful(p, db, c, self, start, seen[r := Lookup(db, r)], obs)
  {
  }

  lemma AnswerIsFaithful(p: Policy, db: Db, c: Command, self: Id, start: Instant, seen: Seen, obs: Obs, q: Query)
    requires Faithful(p, db, c, self, start, seen, obs) && q in Asked(p, db, c, start)
    ensures Faithful(p, db, c, self, start, seen, obs[q := Result(db, q)])
  {
  }

  lemma UndoIsFaithful(p: Policy, db: Db, c: Command, self: Id, start: Instant, tx: Tx, e: Error)
    requires Faithful(p, db, c, self, start, tx.seen, tx.obs) && FirstPlan(p, db, c, self, start) == RollbackTo(e)
    ensures Faithful(p, db, c, self, start, Undo(tx, e).seen, Undo(tx, e).obs)
  {
  }

  lemma StaysUnderway(p: Policy, s: State, s': State, t: Id)
    requires Underway(p, s, t) && OnlyLearnt(s, s', t)
    requires Faithful(p, s.db, s.active[t].command, t, s.active[t].start, s'.active[t].seen, s'.active[t].obs)
    ensures Underway(p, s', t)
  {
    var c, start := s.active[t].command, s.active[t].start;
    assert Free(p, s', t, c, start) by {
      forall u | u in s'.active && u != t ensures s'.active[u].held !! Touched(p, s'.db, c, start) {
        assert s'.active[u] == s.active[u];
      }
    }
  }

  // What one more row, or one more answer, leaves to learn.
  lemma OneLess(p: Policy, db: Db, c: Command, start: Instant, seen: Seen, obs: Obs, r: Resource, q: Query, v: Option<Row>, a: Answer)
    ensures r in Touched(p, db, c, start) && r !in seen ==>
              |Touched(p, db, c, start) - seen[r := v].Keys| < |Touched(p, db, c, start) - seen.Keys|
    ensures q in Asked(p, db, c, start) && q !in obs ==>
              |Asked(p, db, c, start) - obs[q := a].Keys| < |Asked(p, db, c, start) - obs.Keys|
  {
    assert seen[r := v].Keys == seen.Keys + {r} && obs[q := a].Keys == obs.Keys + {q};
    if r in Touched(p, db, c, start) && r !in seen {
      Shrinks(Touched(p, db, c, start), seen.Keys, r);
    }
    if q in Asked(p, db, c, start) && q !in obs {
      Shrinks(Asked(p, db, c, start), obs.Keys, q);
    }
  }

  // A step of an undisturbed transaction that is not over: it never waits, and it learns something.
  ghost predicate Learns(p: Policy, s: State, s': State, t: Id)
    requires t in s.active
  {
    && OnlyLearnt(s, s', t) && Underway(p, s', t)
    && if Refused(s', t) == Refused(s, t) then ToLearn(p, s', t) < ToLearn(p, s, t) else Refused(s', t)
  }

  lemma ReadsOne(p: Policy, s: State, t: Id, s': State, r: Resource)
    requires Underway(p, s, t) && r in Touched(p, s.db, s.active[t].command, s.active[t].start) && r !in s.active[t].seen
    requires OnlyLearnt(s, s', t)
    requires s'.active[t].seen == s.active[t].seen[r := Lookup(s.db, r)] && s'.active[t].obs == s.active[t].obs
    ensures Learns(p, s, s', t)
  {
    var tx := s.active[t];
    ReadIsFaithful(p, s.db, tx.command, t, tx.start, tx.seen, tx.obs, r);
    StaysUnderway(p, s, s', t);
    OneLess(p, s.db, tx.command, tx.start, tx.seen, tx.obs, r, PaymentRefused, Lookup(s.db, r), Yes);
  }

  lemma AskedIsASelect(p: Policy, db: Db, c: Command, start: Instant)
    ensures PaymentRefused !in Asked(p, db, c, start)
  {
  }

  lemma AsksOne(p: Policy, s: State, t: Id, s': State, q: Query)
    requires Underway(p, s, t) && q in Asked(p, s.db, s.active[t].command, s.active[t].start) && q !in s.active[t].obs
    requires OnlyLearnt(s, s', t)
    requires s'.active[t].seen == s.active[t].seen && s'.active[t].obs == s.active[t].obs[q := Result(s.db, q)]
    ensures Learns(p, s, s', t)
  {
    var tx := s.active[t];
    assert Underway(p, s', t) by {
      AnswerIsFaithful(p, s.db, tx.command, t, tx.start, tx.seen, tx.obs, q);
      StaysUnderway(p, s, s', t);
    }
    OneLess(p, s.db, tx.command, tx.start, tx.seen, tx.obs, AdvisoryR(0), q, None, Result(s.db, q));
    AskedIsASelect(p, s.db, tx.command, tx.start);
  }

  lemma GivesUp(p: Policy, s: State, t: Id, s': State, e: Error)
    requires Underway(p, s, t) && PlanOf(p, s, t) == RollbackTo(e)
    requires OnlyLearnt(s, s', t) && s'.active[t] == Undo(s.active[t], e)
    ensures Learns(p, s, s', t)
  {
    var tx := s.active[t];
    RefusedOnce(p, s.db, tx.command, t, tx.start, tx.seen, tx.obs);
    UndoIsFaithful(p, s.db, tx.command, t, tx.start, tx, e);
    StaysUnderway(p, s, s', t);
  }

  lemma LockingLearns(p: Policy, s: State, t: Id)
    requires Underway(p, s, t)
    requires PlanOf(p, s, t).Lock? || PlanOf(p, s, t).Insert? || PlanOf(p, s, t).TryLock?
    ensures CanFire(p, s, Step(t)) && Learns(p, s, Fire(p, s, Step(t)), t)
  {
    var tx := s.active[t];
    var r := PlanOf(p, s, t).row;
    NextIsTouched(p, s.db, tx.command, t, tx.start, tx.seen, tx.obs);
    assert !HeldByOther(s, t, r);
    ReadsOne(p, s, t, Fire(p, s, Step(t)), r);
  }

  lemma GoesOn(p: Policy, s: State, t: Id)
    requires Underway(p, s, t) && !Over(PlanOf(p, s, t))
    ensures CanFire(p, s, Step(t)) && Learns(p, s, Fire(p, s, Step(t)), t)
  {
    var tx := s.active[t];
    var next := PlanOf(p, s, t);
    if next.Ask? {
      QueryIsAsked(p, s.db, tx.command, t, tx.start, tx.seen, tx.obs);
      AsksOne(p, s, t, Fire(p, s, Step(t)), next.query);
    } else if next.RollbackTo? {
      GivesUp(p, s, t, Fire(p, s, Step(t)), next.error);
    } else {
      LockingLearns(p, s, t);
    }
  }

  // ---------------------------------------------------------------- to the end

  // The state once `t` is over with verdict `v`.
  function After(s: State, t: Id, c: Command, v: Next): State {
    match v
    case Commit(e, reply) =>
      State(Apply(s.db, e, s.nextEntry), s.active - {t}, s.nextTx, s.nextEntry + |e.legs|, s.now,
            s.replies + [Exchange(c, reply)])
    case _ => s.(active := s.active - {t})
  }

  lemma {:induction false} Concludes(p: Policy, s: State, t: Id) returns (run: seq<Event>)
    requires Underway(p, s, t) && Over(PlanOf(p, s, t))
    ensures Legal(p, s, run) && Play(p, s, run) == After(s, t, s.active[t].command, PlanOf(p, s, t))
  {
    var s' := Fire(p, s, Step(t));
    if PlanOf(p, s, t).Fail? {
      run := [Step(t)];
      PlayMore(p, s, Step(t), []);
      assert [Step(t)] + [] == run;
    } else {
      assert PlanOf(p, s', t) == PlanOf(p, s, t);
      assert s'.active - {t} == s.active - {t};
      run := [Step(t)] + [Step(t)];
      PlayMore(p, s', Step(t), []);
      assert [Step(t)] + [] == [Step(t)];
      PlayMore(p, s, Step(t), [Step(t)]);
    }
  }

  lemma SameAfter(s: State, s': State, t: Id, c: Command, v: Next)
    requires OnlyLearnt(s, s', t)
    ensures After(s', t, c, v) == After(s, t, c, v)
  {
    assert s'.active - {t} == s.active - {t};
  }

  lemma {:induction false} RunsOn(p: Policy, s: State, t: Id) returns (run: seq<Event>)
    requires Underway(p, s, t)
    ensures var tx := s.active[t];
            Legal(p, s, run) && Play(p, s, run) == After(s, t, tx.command, Verdict(p, s.db, tx.command, t, tx.start))
    decreases !Refused(s, t), ToLearn(p, s, t)
  {
    var tx := s.active[t];
    if Over(PlanOf(p, s, t)) {
      OneOutcome(p, s.db, tx.command, t, tx.start, tx.seen, tx.obs);
      run := Concludes(p, s, t);
    } else {
      GoesOn(p, s, t);
      var s' := Fire(p, s, Step(t));
      var rest := RunsOn(p, s', t);
      PlayMore(p, s, Step(t), rest);
      run := [Step(t)] + rest;
      SameAfter(s, s', t, tx.command, Verdict(p, s.db, tx.command, t, tx.start));
    }
  }

  // Any command, begun while nobody holds a row it touches, can run to its end with nobody else
  // taking a step, and then what it has done is its verdict.
  lemma RunsToItsVerdict(p: Policy, s: State, c: Command) returns (run: seq<Event>)
    requires s.nextTx !in s.active
    requires forall u :: u in s.active ==> s.active[u].held !! Touched(p, s.db, c, s.now)
    ensures Legal(p, s, run)
    ensures Play(p, s, run) == After(s.(nextTx := s.nextTx + 1), s.nextTx, c, Verdict(p, s.db, c, s.nextTx, s.now))
  {
    var t := s.nextTx;
    var s' := Fire(p, s, Begin(c));
    var rest := RunsOn(p, s', t);
    PlayMore(p, s, Begin(c), rest);
    run := [Begin(c)] + rest;
    assert s'.active - {t} == s.active - {t};
  }
}
