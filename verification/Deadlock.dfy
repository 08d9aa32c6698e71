/**
 Locks are only ever waited for in rising rank, so nobody waits in a circle and some transaction
 can always go on.
 */
module Deadlock {
  import opened Calendar
  import opened Store
  import opened Scripts
  import opened Engine
  import opened Serializability

  // Idempotency key, then sender's advisory lock, then the row acted on, then the occurrence, then
  // accounts by ascending id.
  function Rank(r: Resource): nat {
    match r
    case KeyR(_, _) => 0
    case AdvisoryR(_) => 1
    case RequestR(_) => 2
    case TransferR(_) => 2
    case ScheduleR(_) => 2
    case SplitR(_) => 2
    case OccurrenceR(_, _) => 3
    case AccountR(id) => 4 + id
  }

  // Every row a script may still lock, as far as it can tell by now.
  function Footprint(p: Policy, c: Command, seen: Seen, obs: Obs): set<Resource> {
    match c
    case Send(user, key, _, payee, _) =>
      {KeyR(user, key), AdvisoryR(p.slot(user)), AccountR(user)} + (if payee.Some? then {AccountR(payee.value)} else {})
    case Accept(user, key, _, id) =>
      var r := RequestR(id);
      {KeyR(user, key), r}
      + (if r in seen && seen[r].Some? && seen[r].value.Request?
         then {AccountR(seen[r].value.payer), AccountR(seen[r].value.requester)} else {})
    case Reverse(user, key, _, original, _) =>
      var q := Original(original);
      {KeyR(user, key)}
      + (if q in obs && obs[q].Loaded? && obs[q].found.Some?
         then {TransferR(obs[q].found.value.id), AccountR(obs[q].found.value.from), AccountR(obs[q].found.value.to)}
         else {})
    case CreateRequest(user, key, _, _, _, _) => {KeyR(user, key)}
    case CreateSplit(user, key, _, _, _, _, _, _) => {KeyR(user, key)}
    case CreateSchedule(user, key, _, _, _, _, _, _, _) => {KeyR(user, key)}
    case Register(stripe) => {AccountR(stripe)}
    case SetStatus(account, _, _) => {AccountR(account)}
    case Terminate(id, _, _) => {RequestR(id)}
    case ExpireDue(_) => {}
    case Run(id, _) =>
      var s := ScheduleR(id);
      {s} + (if s in seen && seen[s].Some? && seen[s].value.Schedule?
             then {OccurrenceR(id, seen[s].value.next), AccountR(seen[s].value.from), AccountR(seen[s].value.to)} else {})
    case Transition(id, _, _) => {ScheduleR(id)}
    case BringForward(id) => {ScheduleR(id)}
  }

  predicate InBatch(c: Command, r: Resource) {
    c.ExpireDue? && r.RequestR? && r.request in c.requests
  }

  // The rows read so far are the lowest-ranked part of the footprint; a batch reads its own rows.
  ghost predicate Ordered(p: Policy, c: Command, seen: Seen, obs: Obs) {
    if c.ExpireDue? then forall r :: r in seen ==> InBatch(c, r)
    else
      && seen.Keys <= Footprint(p, c, seen, obs)
      && (forall x, y :: x in seen && y in Footprint(p, c, seen, obs) && Rank(y) < Rank(x) ==> y in seen)
  }

  // `r` is the lowest-ranked row of the footprint that has not been read.
  ghost predicate Lowest(p: Policy, c: Command, seen: Seen, obs: Obs, r: Resource) {
    && r in Footprint(p, c, seen, obs) && r !in seen
    && (forall y :: y in Footprint(p, c, seen, obs) && Rank(y) < Rank(r) ==> y in seen)
  }

  ghost predicate AsksForLowest(p: Policy, c: Command, seen: Seen, obs: Obs, next: Next) {
    match next
    case Lock(r) => Lowest(p, c, seen, obs, r)
    case Insert(r) => Lowest(p, c, seen, obs, r)
    case TryLock(r) => InBatch(c, r) || (!c.ExpireDue? && Lowest(p, c, seen, obs, r))
    case _ => true
  }

  lemma SendAsksForLowest(p: Policy, c: Command, self: Id, start: Instant, seen: Seen, obs: Obs)
    requires c.Send?
    ensures AsksForLowest(p, c, seen, obs, PlanSend(p, c, self, start, seen, obs))
  {
  }

  lemma AcceptAsksForLowest(p: Policy, c: Command, self: Id, start: Instant, seen: Seen, obs: Obs)
    requires c.Accept?
    ensures AsksForLowest(p, c, seen, obs, PlanAccept(p, c, self, start, seen, obs))
  {
  }

  lemma ReverseAsksForLowest(p: Policy, c: Command, self: Id, start: Instant, seen: Seen, obs: Obs)
    requires c.Reverse?
    ensures AsksForLowest(p, c, seen, obs, PlanReverse(p, c, self, start, seen, obs))
  {
  }

  lemma RunAsksForLowest(p: Policy, c: Command, self: Id, start: Instant, seen: Seen, obs: Obs)
    requires c.Run?
    ensures AsksForLowest(p, c, seen, obs, PlanRun(p, c, self, start, seen, obs))
  {
  }

  lemma {:induction false} ExpireNeverWaits(c: Command, todo: seq<RequestId>, start: Instant, seen: Seen, obs: Obs)
    requires c.ExpireDue?
    ensures var next := PlanExpire(c, todo, start, seen, obs);
            next.Commit? || (next.TryLock? && next.row.RequestR? && next.row.request in todo)
  {
    if |todo| > 0 { ExpireNeverWaits(c, todo[1..], start, seen, obs); }
  }

  // Scripts lock their footprint from the bottom up.
  lemma PlanAsksForLowest(p: Policy, c: Command, self: Id, start: Instant, seen: Seen, obs: Obs)
    ensures AsksForLowest(p, c, seen, obs, Plan(p, c, self, start, seen, obs))
  {
    if c.Send? { SendAsksForLowest(p, c, self, start, seen, obs); }
    else if c.Accept? { AcceptAsksForLowest(p, c, self, start, seen, obs); }
    else if c.Reverse? { ReverseAsksForLowest(p, c, self, start, seen, obs); }
    else if c.Run? { RunAsksForLowest(p, c, self, start, seen, obs); }
    else if c.ExpireDue? { ExpireNeverWaits(c, c.requests, start, seen, obs); }
  }

  // Within one script, equal ranks mean equal rows.
  lemma RanksAreDistinct(p: Policy, c: Command, seen: Seen, obs: Obs, x: Resource, y: Resource)
    requires x in Footprint(p, c, seen, obs) && y in Footprint(p, c, seen, obs) && Rank(x) == Rank(y)
    ensures x == y
  {
  }

  lemma LowestOutranks(p: Policy, c: Command, seen: Seen, obs: Obs, r: Resource)
    requires Ordered(p, c, seen, obs) && !c.ExpireDue? && Lowest(p, c, seen, obs, r)
    ensures forall x :: x in seen ==> Rank(x) < Rank(r)
  {
    forall x | x in seen ensures Rank(x) < Rank(r) {
      if Rank(x) == Rank(r) { RanksAreDistinct(p, c, seen, obs, x, r); }
    }
  }

  // Reading a row only reveals rows that outrank it.
  lemma ReadingRevealsAbove(p: Policy, c: Command, seen: Seen, obs: Obs, r: Resource, v: Option<Row>)
    requires r in Footprint(p, c, seen, obs) && r !in seen
    ensures Footprint(p, c, seen, obs) <= Footprint(p, c, seen[r := v], obs)
    ensures forall y :: y in Footprint(p, c, seen[r := v], obs) && y !in Footprint(p, c, seen, obs) ==> Rank(r) < Rank(y)
  {
  }

  lemma ReadingKeepsOrder(p: Policy, c: Command, seen: Seen, obs: Obs, r: Resource, v: Option<Row>)
    requires Ordered(p, c, seen, obs) && if c.ExpireDue? then InBatch(c, r) else Lowest(p, c, seen, obs, r)
    ensures Ordered(p, c, seen[r := v], obs)
  {
    if !c.ExpireDue? {
      LowestOutranks(p, c, seen, obs, r);
      ReadingRevealsAbove(p, c, seen, obs, r, v);
    }
  }

  // Only a reversal learns rows from a plain SELECT, and it asks before it locks any of them.
  lemma AskingKeepsOrder(p: Policy, c: Command, self: Id, start: Instant, seen: Seen, obs: Obs, q: Query, a: Answer)
    requires Ordered(p, c, seen, obs)
    requires Plan(p, c, self, start, seen, obs) == Ask(q)
    ensures Ordered(p, c, seen, obs[q := a])
  {
    if c.Reverse? {
    } else {
      assert Footprint(p, c, seen, obs[q := a]) == Footprint(p, c, seen, obs);
    }
  }

  lemma UndoKeepsOrder(p: Policy, c: Command, tx: Tx, e: Error)
    requires c.Run? && Ordered(p, c, tx.seen, tx.obs)
    ensures Ordered(p, c, Undo(tx, e).seen, Undo(tx, e).obs)
  {
  }

  // ---------------------------------------------------------------- over runs

  ghost predicate AllOrdered(p: Policy, s: State) {
    forall t :: t in s.active ==> Ordered(p, s.active[t].command, s.active[t].seen, s.active[t].obs)
  }

  lemma OnlyRunsUndo(p: Policy, c: Command, self: Id, start: Instant, seen: Seen, obs: Obs)
    requires Plan(p, c, self, start, seen, obs).RollbackTo?
    ensures c.Run?
  {
    if c.ExpireDue? { ExpireNeverWaits(c, c.requests, start, seen, obs); }
  }

  lemma FireKeepsOrder(p: Policy, s: State, e: Event)
    requires AllOrdered(p, s) && CanFire(p, s, e)
    ensures AllOrdered(p, Fire(p, s, e))
  {
    if e.Step? {
      var t := e.tx;
      var tx := s.active[t];
      PlanAsksForLowest(p, tx.command, t, tx.start, tx.seen, tx.obs);
      match PlanOf(p, s, t)
      case Lock(r) => ReadingKeepsOrder(p, tx.command, tx.seen, tx.obs, r, Lookup(s.db, r));
      case Insert(r) => ReadingKeepsOrder(p, tx.command, tx.seen, tx.obs, r, Lookup(s.db, r));
      case TryLock(r) =>
        ReadingKeepsOrder(p, tx.command, tx.seen, tx.obs, r, Lookup(s.db, r));
        assert Footprint(p, tx.command, tx.seen, tx.obs[Busy(r) := Yes]) == Footprint(p, tx.command, tx.seen, tx.obs);
      case Ask(q) => AskingKeepsOrder(p, tx.command, t, tx.start, tx.seen, tx.obs, q, Result(s.db, q));
      case RollbackTo(err) =>
        OnlyRunsUndo(p, tx.command, t, tx.start, tx.seen, tx.obs);
        UndoKeepsOrder(p, tx.command, tx, err);
      case Fail(_) =>
      case Commit(_, _) =>
    }
  }

  // Whoever waits, waits for a row that outranks everything it holds.
  lemma WaitingRises(p: Policy, s: State, t: Id, r: Resource)
    requires Inv(p, s) && AllOrdered(p, s) && t in s.active && Waits(p, s, t, r)
    ensures forall x :: x in s.active[t].held ==> Rank(x) < Rank(r)
    ensures Rank(r) < 4 + s.nextTx
  {
    var tx := s.active[t];
    PlanAsksForLowest(p, tx.command, t, tx.start, tx.seen, tx.obs);
    AsksOnce(p, tx.command, t, tx.start, tx.seen, tx.obs);
    LowestOutranks(p, tx.command, tx.seen, tx.obs, r);
    assert Current(s.db, tx);
  }

  ghost predicate WaitsFor(p: Policy, s: State, t: Id, u: Id)
    requires t in s.active && u in s.active
  {
    t != u && exists r :: Waits(p, s, t, r) && r in s.active[u].held
  }

  // A chain of transactions, each waiting for the next.
  ghost predicate WaitChain(p: Policy, s: State, chain: seq<Id>) {
    && (forall i :: 0 <= i < |chain| ==> chain[i] in s.active)
    && (forall i :: 0 <= i < |chain| - 1 ==> WaitsFor(p, s, chain[i], chain[i + 1]))
  }

  function Wanted(p: Policy, s: State, t: Id): int
    requires t in s.active
  {
    match PlanOf(p, s, t)
    case Lock(r) => Rank(r)
    case Insert(r) => Rank(r)
    case _ => -1
  }

  lemma WaitingClimbs(p: Policy, s: State, t: Id, u: Id, v: Id)
    requires Inv(p, s) && AllOrdered(p, s)
    requires t in s.active && u in s.active && v in s.active
    requires WaitsFor(p, s, t, u) && WaitsFor(p, s, u, v)
    ensures Wanted(p, s, t) < Wanted(p, s, u)
  {
    var r :| Waits(p, s, t, r) && r in s.active[u].held;
    var r' :| Waits(p, s, u, r') && r' in s.active[v].held;
    WaitingRises(p, s, u, r');
  }

  lemma {:induction false} WaitChainClimbs(p: Policy, s: State, chain: seq<Id>, i: nat, j: nat)
    requires Inv(p, s) && AllOrdered(p, s) && WaitChain(p, s, chain)
    requires i < j < |chain| - 1
    ensures Wanted(p, s, chain[i]) < Wanted(p, s, chain[j])
    decreases j - i
  {
    WaitingClimbs(p, s, chain[i], chain[i + 1], chain[i + 2]);
    if i + 1 < j {
      WaitChainClimbs(p, s, chain, i + 1, j);
    }
  }

  // A chain that comes back to its start can go round again.
  lemma GoesRoundAgain(p: Policy, s: State, chain: seq<Id>)
    requires WaitChain(p, s, chain) && |chain| >= 2 && chain[0] == chain[|chain| - 1]
    ensures WaitChain(p, s, chain + [chain[1]])
  {
    var longer := chain + [chain[1]];
    forall i | 0 <= i < |longer| - 1 ensures WaitsFor(p, s, longer[i], longer[i + 1]) {
      if i < |chain| - 1 {
        assert WaitsFor(p, s, chain[i], chain[i + 1]);
      } else {
        assert WaitsFor(p, s, chain[0], chain[1]);
      }
    }
  }

  // No circle of waiting transactions ever forms.
  lemma NoWaitCycle(p: Policy, s: State, chain: seq<Id>)
    requires Inv(p, s) && AllOrdered(p, s) && WaitChain(p, s, chain) && |chain| >= 2
    ensures chain[0] != chain[|chain| - 1]
  {
    if chain[0] == chain[|chain| - 1] {
      GoesRoundAgain(p, s, chain);
      WaitChainClimbs(p, s, chain + [chain[1]], 0, |chain| - 1);
    }
  }

  // From any waiting transaction, following holders leads to one that can step.
  lemma {:induction false} SomeHolderCanStep(p: Policy, s: State, t: Id) returns (u: Id)
    requires Inv(p, s) && AllOrdered(p, s) && t in s.active
    ensures u in s.active && CanFire(p, s, Step(u))
    decreases 4 + s.nextTx - Wanted(p, s, t)
  {
    if !Blocked(p, s, t) {
      u := t;
    } else {
      var r := PlanOf(p, s, t).row;
      assert Waits(p, s, t, r);
      WaitingRises(p, s, t, r);
      var holder :| holder in s.active && holder != t && r in s.active[holder].held;
      if Blocked(p, s, holder) {
        WaitingRises(p, s, holder, PlanOf(p, s, holder).row);
        u := SomeHolderCanStep(p, s, holder);
      } else {
        u := holder;
      }
    }
  }

  // While anything is unfinished, something can take its next step without being aborted.
  lemma NeverStuck(p: Policy, s: State)
    requires Inv(p, s) && AllOrdered(p, s) && s.active != map[]
    ensures exists u :: u in s.active && CanFire(p, s, Step(u))
  {
    var t :| t in s.active;
    var u := SomeHolderCanStep(p, s, t);
  }
}
