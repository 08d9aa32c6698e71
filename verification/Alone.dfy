/**
 A script run with nobody else about: every statement is answered from one committed state.
 */
module Alone {
  import opened Calendar
  import opened Store
  import opened Scripts
  import opened Engine
  import opened Serializability
  import opened Deadlock

  function Everything(db: Db): Seen {
    map r | r in db.rows :: Some(db.rows[r])
  }

  function Known(db: Db, rs: set<Resource>): Seen {
    map r | r in rs :: Lookup(db, r)
  }

  function Answers(db: Db, qs: set<Query>): Obs {
    map q | q in qs :: Result(db, q)
  }

  // The plain SELECTs a script can come to issue.
  function Asked(p: Policy, db: Db, c: Command, start: Instant): set<Query> {
    match c
    case Send(user, _, _, _, _) => {Velocity(user, start as int - p.window), Outbound(user, start as int - DAY)}
    case Accept(user, _, _, _) => {Outbound(user, start as int - DAY)}
    case Reverse(_, _, _, original, _) => {Original(original)}
    case Run(id, _) =>
      var s := Lookup(db, ScheduleR(id));
      if s.Some? && s.value.Schedule? then {Outbound(s.value.from, start as int - DAY)} else {}
    case _ => {}
  }

  // The rows it can come to lock.
  function Touched(p: Policy, db: Db, c: Command, start: Instant): set<Resource> {
    if c.ExpireDue? then set i | 0 <= i < |c.requests| :: RequestR(c.requests[i])
    else Footprint(p, c, Everything(db), Answers(db, Asked(p, db, c, start)))
  }

  function WithoutAccounts(seen: Seen): Seen {
    map r | r in seen && !r.AccountR? :: seen[r]
  }

  // What `c` does to `db` when it runs alone: a payment refused inside the savepoint is followed by
  // the rest of the script, everything else ends at once.
  function Verdict(p: Policy, db: Db, c: Command, self: Id, start: Instant): Next {
    var seen := Known(db, Touched(p, db, c, start));
    var obs := Answers(db, Asked(p, db, c, start));
    match Plan(p, c, self, start, seen, obs)
    case RollbackTo(e) => Plan(p, c, self, start, WithoutAccounts(seen), obs[PaymentRefused := Because(e)])
    case next => next
  }

  lemma {:induction false} ExpireAlone(c: Command, todo: seq<RequestId>, start: Instant, seen: Seen, obs: Obs)
    requires c.ExpireDue?
    requires forall i :: 0 <= i < |todo| ==> RequestR(todo[i]) in seen
    ensures PlanExpire(c, todo, start, seen, obs) == Commit(Effect(Expired(seen, start), None, []), Reply(200, Done))
  {
    if |todo| > 0 {
      ExpireAlone(c, todo[1..], start, seen, obs);
    }
  }

  // Alone, a script never waits and never asks for more: it commits or fails.
  lemma AloneEnds(p: Policy, db: Db, c: Command, self: Id, start: Instant)
    ensures Verdict(p, db, c, self, start).Commit? || Verdict(p, db, c, self, start).Fail?
  {
    if c.ExpireDue? {
      ExpireAlone(c, c.requests, start, Known(db, Touched(p, db, c, start)), map[]);
    } else if c.Run? {
      RunAloneEnds(p, db, c, self, start);
    } else if c.Reverse? {
      ReverseAloneEnds(p, db, c, self, start);
    } else if c.Send? {
      SendAloneEnds(p, db, c, self, start);
    } else if c.Accept? {
      AcceptAloneEnds(p, db, c, self, start);
    } else if c.CreateRequest? || c.CreateSplit? || c.CreateSchedule? || c.Register? {
      CreateAloneEnds(p, db, c, self, start);
    } else {
      UpdateAloneEnds(p, db, c, self, start);
    }
  }

  lemma RunAloneEnds(p: Policy, db: Db, c: Command, self: Id, start: Instant)
    requires c.Run?
    ensures Verdict(p, db, c, self, start).Commit?
  {
  }

  lemma ReverseAloneEnds(p: Policy, db: Db, c: Command, self: Id, start: Instant)
    requires c.Reverse?
    ensures Verdict(p, db, c, self, start).Commit? || Verdict(p, db, c, self, start).Fail?
  {
    FindTransferFinds(db.log, c.original);
  }

  lemma SendAloneEnds(p: Policy, db: Db, c: Command, self: Id, start: Instant)
    requires c.Send?
    ensures Verdict(p, db, c, self, start).Commit? || Verdict(p, db, c, self, start).Fail?
  {
  }

  lemma AcceptAloneEnds(p: Policy, db: Db, c: Command, self: Id, start: Instant)
    requires c.Accept?
    ensures Verdict(p, db, c, self, start).Commit? || Verdict(p, db, c, self, start).Fail?
  {
  }

  lemma CreateAloneEnds(p: Policy, db: Db, c: Command, self: Id, start: Instant)
    requires c.CreateRequest? || c.CreateSplit? || c.CreateSchedule? || c.Register?
    ensures Verdict(p, db, c, self, start).Commit? || Verdict(p, db, c, self, start).Fail?
  {
  }

  lemma UpdateAloneEnds(p: Policy, db: Db, c: Command, self: Id, start: Instant)
    requires c.SetStatus? || c.Terminate? || c.Transition? || c.BringForward?
    ensures Verdict(p, db, c, self, start).Commit? || Verdict(p, db, c, self, start).Fail?
  {
  }

  // A commit of a script run alone is an atomic step.
  lemma AloneIsAtomic(p: Policy, db: Db, c: Command, self: Id, start: Instant, first: nat)
    returns (seen: Seen, obs: Obs)
    requires Verdict(p, db, c, self, start).Commit? && Fresh(db, self)
    requires NumberedAbove(db, Verdict(p, db, c, self, start).effect.legs, first)
    ensures var v := Verdict(p, db, c, self, start);
            Atomic(p, db, c, self, start, seen, obs, v.effect, first, v.reply, Apply(db, v.effect, first))
  {
    seen, obs := Known(db, Touched(p, db, c, start)), Answers(db, Asked(p, db, c, start));
    if c.Reverse? {
      FindTransferFinds(db.log, c.original);
    }
    assert LoadedStand(db, obs);
    var plan := Plan(p, c, self, start, seen, obs);
    if plan.RollbackTo? {
      seen, obs := WithoutAccounts(seen), obs[PaymentRefused := Because(plan.error)];
    }
  }

  // ---------------------------------------------------------------- the verdict is the only outcome

  // Whatever a transaction knows, it learnt from `db`.
  ghost predicate Faithful(p: Policy, db: Db, c: Command, self: Id, start: Instant, seen: Seen, obs: Obs) {
    && (forall r :: r in seen ==> r in Touched(p, db, c, start) && seen[r] == Lookup(db, r))
    && (forall q :: q in obs ==>
          || (q in Asked(p, db, c, start) && obs[q] == Result(db, q))
          || (q == PaymentRefused && FirstPlan(p, db, c, self, start).RollbackTo?
              && obs[q] == Because(FirstPlan(p, db, c, self, start).error)))
  }

  function FirstPlan(p: Policy, db: Db, c: Command, self: Id, start: Instant): Next {
    Plan(p, c, self, start, Known(db, Touched(p, db, c, start)), Answers(db, Asked(p, db, c, start)))
  }

  predicate Over(next: Next) {
    next.Commit? || next.Fail?
  }

  // More knowledge of the same facts.
  ghost predicate Within(seen: Seen, obs: Obs, seen': Seen, obs': Obs) {
    && (forall r :: r in seen ==> r in seen' && seen'[r] == seen[r])
    && (forall q :: q in obs ==> q in obs' && obs'[q] == obs[q])
  }

  lemma SendLearnsOn(p: Policy, c: Command, self: Id, start: Instant, seen: Seen, obs: Obs, seen': Seen, obs': Obs)
    requires c.Send?
    requires Within(seen, obs, seen', obs') && Over(Plan(p, c, self, start, seen, obs))
    ensures Plan(p, c, self, start, seen', obs') == Plan(p, c, self, start, seen, obs)
  {
  }

  lemma AcceptLearnsOn(p: Policy, c: Command, self: Id, start: Instant, seen: Seen, obs: Obs, seen': Seen, obs': Obs)
    requires c.Accept?
    requires Within(seen, obs, seen', obs') && Over(Plan(p, c, self, start, seen, obs))
    ensures Plan(p, c, self, start, seen', obs') == Plan(p, c, self, start, seen, obs)
  {
  }

  lemma ReverseLearnsOn(p: Policy, c: Command, self: Id, start: Instant, seen: Seen, obs: Obs, seen': Seen, obs': Obs)
    requires c.Reverse?
    requires Within(seen, obs, seen', obs') && Over(Plan(p, c, self, start, seen, obs))
    ensures Plan(p, c, self, start, seen', obs') == Plan(p, c, self, start, seen, obs)
  {
  }

  lemma RunLearnsOn(p: Policy, c: Command, self: Id, start: Instant, seen: Seen, obs: Obs, seen': Seen, obs': Obs)
    requires c.Run? && (PaymentRefused in obs' ==> PaymentRefused in obs) && Busy(ScheduleR(c.schedule)) !in obs'
    requires Within(seen, obs, seen', obs') && Over(Plan(p, c, self, start, seen, obs))
    ensures Plan(p, c, self, start, seen', obs') == Plan(p, c, self, start, seen, obs)
  {
  }

  lemma CreateLearnsOn(p: Policy, c: Command, self: Id, start: Instant, seen: Seen, obs: Obs, seen': Seen, obs': Obs)
    requires c.CreateRequest? || c.CreateSplit? || c.CreateSchedule? || c.Register?
    requires Within(seen, obs, seen', obs') && Over(Plan(p, c, self, start, seen, obs))
    ensures Plan(p, c, self, start, seen', obs') == Plan(p, c, self, start, seen, obs)
  {
  }

  lemma UpdateLearnsOn(p: Policy, c: Command, self: Id, start: Instant, seen: Seen, obs: Obs, seen': Seen, obs': Obs)
    requires c.SetStatus? || c.Terminate? || c.Transition? || c.BringForward?
    requires Within(seen, obs, seen', obs') && Over(Plan(p, c, self, start, seen, obs))
    ensures Plan(p, c, self, start, seen', obs') == Plan(p, c, self, start, seen, obs)
  {
  }

  // A script that is over would have ended the same way had it known more.
  lemma LearnsOn(p: Policy, c: Command, self: Id, start: Instant, seen: Seen, obs: Obs, seen': Seen, obs': Obs)
    requires !c.ExpireDue? && (PaymentRefused in obs' ==> PaymentRefused in obs) && (forall r :: Busy(r) !in obs')
    requires Within(seen, obs, seen', obs') && Over(Plan(p, c, self, start, seen, obs))
    ensures Plan(p, c, self, start, seen', obs') == Plan(p, c, self, start, seen, obs)
  {
    if c.Send? { SendLearnsOn(p, c, self, start, seen, obs, seen', obs'); }
    else if c.Accept? { AcceptLearnsOn(p, c, self, start, seen, obs, seen', obs'); }
    else if c.Reverse? { ReverseLearnsOn(p, c, self, start, seen, obs, seen', obs'); }
    else if c.Run? { RunLearnsOn(p, c, self, start, seen, obs, seen', obs'); }
    else if c.CreateRequest? || c.CreateSplit? || c.CreateSchedule? || c.Register? {
      CreateLearnsOn(p, c, self, start, seen, obs, seen', obs');
    } else { UpdateLearnsOn(p, c, self, start, seen, obs, seen', obs'); }
  }

  // After a refused payment the rest of the script does not look at accounts.
  lemma RefusedAgrees(p: Policy, db: Db, c: Command, self: Id, start: Instant, seen: Seen, obs: Obs)
    requires c.Run? && Faithful(p, db, c, self, start, seen, obs) && PaymentRefused in obs
    requires Over(Plan(p, c, self, start, seen, obs))
    ensures Plan(p, c, self, start, seen, obs) == Verdict(p, db, c, self, start)
  {
    var all := Known(db, Touched(p, db, c, start));
    var obs' := Answers(db, Asked(p, db, c, start))[PaymentRefused := obs[PaymentRefused]];
    RunAloneEnds(p, db, c, self, start);
    RunLearnsOn(p, c, self, start, WithoutAccounts(all), obs', all, obs');
    RunLearnsOn(p, c, self, start, seen, obs, all, obs');
  }

  lemma {:induction false} ExpireReadAll(c: Command, todo: seq<RequestId>, start: Instant, seen: Seen, obs: Obs)
    requires c.ExpireDue? && PlanExpire(c, todo, start, seen, obs).Commit?
    requires forall r :: Busy(r) !in obs
    ensures forall i :: 0 <= i < |todo| ==> RequestR(todo[i]) in seen
  {
    if |todo| > 0 {
      ExpireReadAll(c, todo[1..], start, seen, obs);
    }
  }

  lemma ExpireAgrees(p: Policy, db: Db, c: Command, self: Id, start: Instant, seen: Seen, obs: Obs)
    requires c.ExpireDue? && Faithful(p, db, c, self, start, seen, obs)
    requires Over(Plan(p, c, self, start, seen, obs))
    ensures Plan(p, c, self, start, seen, obs) == Verdict(p, db, c, self, start)
  {
    var all := Known(db, Touched(p, db, c, start));
    ExpireNeverWaits(c, c.requests, start, seen, obs);
    ExpireReadAll(c, c.requests, start, seen, obs);
    ExpireCommits(c, c.requests, start, seen, obs);
    ExpireAlone(c, c.requests, start, all, map[]);
    assert seen == all;
  }

  // A transaction that learns everything it knows from one committed state, in any order and however
  // little it needs, ends as the script run alone on that state ends.
  lemma OneOutcome(p: Policy, db: Db, c: Command, self: Id, start: Instant, seen: Seen, obs: Obs)
    requires Faithful(p, db, c, self, start, seen, obs)
    requires Over(Plan(p, c, self, start, seen, obs))
    ensures Plan(p, c, self, start, seen, obs) == Verdict(p, db, c, self, start)
  {
    if c.ExpireDue? {
      ExpireAgrees(p, db, c, self, start, seen, obs);
    } else if PaymentRefused in obs {
      OnlyRunsUndo(p, c, self, start, Known(db, Touched(p, db, c, start)), Answers(db, Asked(p, db, c, start)));
      RefusedAgrees(p, db, c, self, start, seen, obs);
    } else {
      var all := Known(db, Touched(p, db, c, start));
      LearnsOn(p, c, self, start, seen, obs, all, Answers(db, Asked(p, db, c, start)));
    }
  }
}
