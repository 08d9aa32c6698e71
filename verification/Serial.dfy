/**
 Serialisability: what a run commits is what its committed scripts commit one after another, each at
 one instant, on rows that are current and counts that may be a little old; and it is what they
 commit alone, one after another, exactly when every commit fits the state it commits to.
 */
module Serial {
  import opened Calendar
  import opened Store
  import opened Scripts
  import opened Engine
  import opened Serializability
  import opened System
  import opened Alone
  import opened Agreement

  // One commit: what its transaction began with and learnt, what it wrote, and when it committed.
  datatype Committed = Committed(command: Command, self: Id, start: Instant, seen: Seen, obs: Obs,
                                 effect: Effect, first: nat, reply: Reply, at: Instant)

  function CommittedBy(p: Policy, s: State, t: Id): Committed
    requires Commits(p, s, Step(t))
  {
    var tx, plan := s.active[t], PlanOf(p, s, t);
    Committed(tx.command, t, tx.start, tx.seen, tx.obs, plan.effect, tx.first.value, plan.reply, s.now)
  }

  // The transactions a run commits, in commit order.
  function History(p: Policy, s: State, run: seq<Event>): seq<Committed>
    requires Legal(p, s, run)
    decreases |run|
  {
    if |run| == 0 then []
    else (if Commits(p, s, run[0]) then [CommittedBy(p, s, run[0].tx)] else []) + History(p, Fire(p, s, run[0]), run[1..])
  }

  // A committed state, and the moment from which it was the committed state.
  datatype Version = Version(db: Db, since: Instant)

  predicate IsCount(q: Query) {
    q.Velocity? || q.Outbound? || q.Original?
  }

  // The answer was true of a version that was still committed at some time since `start`.
  ghost predicate AnsweredOn(path: seq<Version>, start: Instant, q: Query, a: Answer) {
    exists i :: 0 <= i < |path| && a == Result(path[i].db, q) && (i + 1 < |path| ==> start <= path[i + 1].since)
  }

  // So were all of a script's plain SELECTs.
  ghost predicate CountedOn(path: seq<Version>, start: Instant, obs: Obs) {
    forall q :: q in obs && IsCount(q) ==> AnsweredOn(path, start, q, obs[q])
  }

  ghost predicate AllCounted(s: State, path: seq<Version>) {
    forall t :: t in s.active ==> CountedOn(path, s.active[t].start, s.active[t].obs)
  }

  // Running the scripts of `h` one after another, each at the instant it committed, leads from the last
  // version of `path` to `db'`: each locks its rows as that version has them, and counts on a version
  // that was committed at some time since its transaction began.
  ghost predicate Serially(p: Policy, path: seq<Version>, h: seq<Committed>, db': Db)
    requires |path| > 0
    decreases |h|
  {
    var db := path[|path| - 1].db;
    if |h| == 0 then db' == db
    else
      var c := h[0];
      var next := Apply(db, c.effect, c.first);
      && Atomic(p, db, c.command, c.self, c.start, c.seen, c.obs, c.effect, c.first, c.reply, next)
      && CountedOn(path, c.start, c.obs)
      && c.start <= c.at && path[|path| - 1].since <= c.at
      && Serially(p, path + [Version(next, c.at)], h[1..], db')
  }

  lemma LongerPath(path: seq<Version>, v: Version, start: Instant, obs: Obs)
    requires CountedOn(path, start, obs) && start <= v.since
    ensures CountedOn(path + [v], start, obs)
  {
    forall q | q in obs && IsCount(q) ensures AnsweredOn(path + [v], start, q, obs[q]) {
      assert AnsweredOn(path, start, q, obs[q]);
      var i :| 0 <= i < |path| && obs[q] == Result(path[i].db, q) && (i + 1 < |path| ==> start <= path[i + 1].since);
      var longer := path + [v];
      assert longer[i] == path[i] && (i + 1 < |path| ==> longer[i + 1] == path[i + 1]);
      assert i + 1 < |longer| ==> start <= longer[i + 1].since;
    }
  }

  // Old answers stand, new ones are of the last version, and what else a script remembers is no count.
  lemma NewAnswers(path: seq<Version>, start: Instant, obs: Obs, obs': Obs)
    requires |path| > 0 && CountedOn(path, start, obs)
    requires forall q :: q in obs' && IsCount(q) ==>
               obs'[q] == Result(path[|path| - 1].db, q) || (q in obs && obs'[q] == obs[q])
    ensures CountedOn(path, start, obs')
  {
    forall q | q in obs' && IsCount(q) ensures AnsweredOn(path, start, q, obs'[q]) {
      if obs'[q] != Result(path[|path| - 1].db, q) {
        assert AnsweredOn(path, start, q, obs[q]);
      }
    }
  }

  // What a step adds to a transaction's answers: at most one count, of what is committed.
  lemma StepAnswers(p: Policy, s: State, t: Id)
    requires t in s.active && t in Advance(p, s, t).active
    ensures Advance(p, s, t).active[t].start == s.active[t].start
    ensures var obs, obs' := s.active[t].obs, Advance(p, s, t).active[t].obs;
            forall q :: q in obs' && IsCount(q) ==> obs'[q] == Result(s.db, q) || (q in obs && obs'[q] == obs[q])
  {
  }

  lemma StepCounts(p: Policy, s: State, t: Id, path: seq<Version>)
    requires t in s.active && CountedOn(path, s.active[t].start, s.active[t].obs)
    requires |path| > 0 && path[|path| - 1].db == s.db && t in Advance(p, s, t).active
    ensures CountedOn(path, Advance(p, s, t).active[t].start, Advance(p, s, t).active[t].obs)
  {
    StepAnswers(p, s, t);
    NewAnswers(path, s.active[t].start, s.active[t].obs, Advance(p, s, t).active[t].obs);
  }

  lemma StepKeepsCounted(p: Policy, s: State, t: Id, path: seq<Version>)
    requires AllCounted(s, path) && |path| > 0 && path[|path| - 1].db == s.db
    requires CanFire(p, s, Step(t)) && !Commits(p, s, Step(t))
    ensures AllCounted(Advance(p, s, t), path)
  {
    var s' := Advance(p, s, t);
    if t in s'.active {
      StepCounts(p, s, t, path);
    }
    forall u | u in s'.active ensures CountedOn(path, s'.active[u].start, s'.active[u].obs) {
      assert u != t ==> CountedOn(path, s.active[u].start, s.active[u].obs);
    }
  }

  lemma CommitKeepsCounted(p: Policy, s: State, t: Id, path: seq<Version>)
    requires Inv(p, s) && AllCounted(s, path) && Commits(p, s, Step(t))
    ensures AllCounted(Advance(p, s, t), path + [Version(Advance(p, s, t).db, s.now)])
  {
    var s' := Advance(p, s, t);
    forall u | u in s'.active ensures CountedOn(path + [Version(s'.db, s.now)], s'.active[u].start, s'.active[u].obs) {
      LongerPath(path, Version(s'.db, s.now), s'.active[u].start, s'.active[u].obs);
    }
  }

  lemma FireKeepsCounted(p: Policy, s: State, e: Event, path: seq<Version>)
    requires Inv(p, s) && AllCounted(s, path) && |path| > 0 && path[|path| - 1].db == s.db
    requires CanFire(p, s, e) && !Commits(p, s, e)
    ensures AllCounted(Fire(p, s, e), path)
  {
    if e.Step? {
      StepKeepsCounted(p, s, e.tx, path);
    }
  }

  // Any interleaving, with any crashes and aborts, commits what its committed scripts commit one after
  // another in commit order, each at one instant on the rows of the moment, with counts no older than
  // its transaction.
  lemma {:induction false} RunsSerialise(p: Policy, s: State, run: seq<Event>, path: seq<Version>)
    requires Inv(p, s) && Legal(p, s, run)
    requires |path| > 0 && path[|path| - 1].db == s.db && path[|path| - 1].since <= s.now && AllCounted(s, path)
    ensures Serially(p, path, History(p, s, run), Play(p, s, run).db)
    decreases |run|
  {
    if |run| > 0 {
      StepRefines(p, s, run[0]);
      var s' := Fire(p, s, run[0]);
      var h := History(p, s, run);
      var rest := History(p, s', run[1..]);
      if Commits(p, s, run[0]) {
        var next := path + [Version(s'.db, s.now)];
        CommitKeepsCounted(p, s, run[0].tx, path);
        RunsSerialise(p, s', run[1..], next);
        assert h[1..] == rest;
        assert CountedOn(path, s.active[run[0].tx].start, s.active[run[0].tx].obs);
      } else {
        FireKeepsCounted(p, s, run[0], path);
        RunsSerialise(p, s', run[1..], path);
        assert h == rest;
      }
    }
  }

  lemma StartSerialises(p: Policy, now: Instant, run: seq<Event>)
    requires Legal(p, Start(now), run)
    ensures Serially(p, [Version(Genesis(), now)], History(p, Start(now), run), Play(p, Start(now), run).db)
  {
    StartInv(p, now);
    RunsSerialise(p, Start(now), run, [Version(Genesis(), now)]);
  }

  // ---------------------------------------------------------------- each script alone, one after another

  // Every commit of the run fits the state it commits to.
  ghost predicate AllFit(p: Policy, s: State, run: seq<Event>)
    requires Legal(p, s, run)
    decreases |run|
  {
    |run| == 0 || (FitsAt(p, s, run[0]) && AllFit(p, Fire(p, s, run[0]), run[1..]))
  }

  ghost predicate FitsAt(p: Policy, s: State, e: Event) {
    Commits(p, s, e) ==> Fits(p, s.db, s.active[e.tx], e.tx, PlanOf(p, s, e.tx).reply)
  }

  // Each script of `h`, run alone on what the ones before it left, does what it did in `h`.
  predicate AloneInTurn(p: Policy, db: Db, h: seq<Committed>)
    decreases |h|
  {
    |h| == 0 ||
    (Verdict(p, db, h[0].command, h[0].self, h[0].start) == Commit(h[0].effect, h[0].reply)
     && AloneInTurn(p, Apply(db, h[0].effect, h[0].first), h[1..]))
  }

  // What the scripts of `h` leave when each is run alone on what the ones before it left.
  function InTurn(p: Policy, db: Db, h: seq<Committed>): Db
    decreases |h|
  {
    if |h| == 0 then db
    else
      var v := Verdict(p, db, h[0].command, h[0].self, h[0].start);
      InTurn(p, if v.Commit? then Apply(db, v.effect, h[0].first) else db, h[1..])
  }

  lemma CommitAloneIff(p: Policy, s: State, t: Id)
    requires ValidPolicy(p) && Good(p, s) && Commits(p, s, Step(t))
    ensures PlanOf(p, s, t) == Verdict(p, s.db, s.active[t].command, t, s.active[t].start) <==> FitsAt(p, s, Step(t))
  {
    CurrentCommitIff(p, s.db, s.active[t], t);
  }

  lemma CommitApplies(p: Policy, s: State, t: Id)
    requires Commits(p, s, Step(t))
    ensures CanFire(p, s, Step(t))
    ensures Fire(p, s, Step(t)).db == Apply(s.db, CommittedBy(p, s, t).effect, CommittedBy(p, s, t).first)
    ensures PlanOf(p, s, t) == Commit(CommittedBy(p, s, t).effect, CommittedBy(p, s, t).reply)
  {
  }

  // One commit, and then the rest.
  lemma CommitThenRest(p: Policy, s: State, t: Id, rest: seq<Committed>)
    requires ValidPolicy(p) && Good(p, s) && Commits(p, s, Step(t))
    ensures var h := [CommittedBy(p, s, t)] + rest;
            var db' := Fire(p, s, Step(t)).db;
            && (AloneInTurn(p, s.db, h) <==> FitsAt(p, s, Step(t)) && AloneInTurn(p, db', rest))
            && (FitsAt(p, s, Step(t)) ==> InTurn(p, s.db, h) == InTurn(p, db', rest))
  {
    CommitAloneIff(p, s, t);
    CommitApplies(p, s, t);
    assert ([CommittedBy(p, s, t)] + rest)[1..] == rest;
  }

  // One event, and then the rest.
  lemma EventThenRest(p: Policy, s: State, run: seq<Event>)
    requires ValidPolicy(p) && Good(p, s) && Legal(p, s, run) && |run| > 0
    ensures var h, db', rest := History(p, s, run), Fire(p, s, run[0]).db, History(p, Fire(p, s, run[0]), run[1..]);
            && (AloneInTurn(p, s.db, h) <==> FitsAt(p, s, run[0]) && AloneInTurn(p, db', rest))
            && (FitsAt(p, s, run[0]) ==> InTurn(p, s.db, h) == InTurn(p, db', rest))
  {
    var rest := History(p, Fire(p, s, run[0]), run[1..]);
    if Commits(p, s, run[0]) {
      CommitThenRest(p, s, run[0].tx, rest);
    } else {
      StepRefines(p, s, run[0]);
      assert History(p, s, run) == rest;
    }
  }

  // A run commits what its scripts commit alone, one after another in commit order, if and only if
  // every one of its commits fits the state it commits to; then the database it leaves is theirs.
  lemma {:induction false} AloneInTurnIff(p: Policy, s: State, run: seq<Event>)
    requires ValidPolicy(p) && Good(p, s) && Legal(p, s, run)
    ensures AloneInTurn(p, s.db, History(p, s, run)) <==> AllFit(p, s, run)
    ensures AllFit(p, s, run) ==> Play(p, s, run).db == InTurn(p, s.db, History(p, s, run))
    decreases |run|
  {
    if |run| > 0 {
      FireKeepsGood(p, s, run[0]);
      AloneInTurnIff(p, Fire(p, s, run[0]), run[1..]);
      EventThenRest(p, s, run);
    }
  }
}
