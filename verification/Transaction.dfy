/**
 The transaction boundary: retries after conflicts, after-commit hooks, and acknowledgements that
 get lost.  What the callback, the network and the server do to an attempt is its fate.
 */
module Transaction {
  import opened Store

  // `Reported` carries the code of an error the server answered with.
  datatype Failure = Reported(code: SqlState) | ConnectionLost | DeadlineExceeded | DomainFailure

  datatype SqlState = SerializationFailure | DeadlockDetected | LockTimeout | OtherState

  predicate IsRetryable(error: Failure) {
    error.Reported? && (error.code == SerializationFailure || error.code == DeadlockDetected)
  }

  // An attempt fails before its COMMIT, or its COMMIT is sent: then the server applies it or not, and
  // the client hears an acknowledgement or an error.
  datatype Ending =
    | Throws(error: Failure)
    | Sent(applied: bool, heard: Option<Failure>)

  // The hooks an attempt registers, each with whether it will throw, and how it ends.
  datatype Fate = Fate(hooks: seq<Hook>, ending: Ending) {
    predicate Applies() {
      ending.Sent? && ending.applied
    }

    function Heard(): Option<Failure> {
      if ending.Throws? then Some(ending.error) else ending.heard
    }

    predicate Retries() {
      Heard().Some? && IsRetryable(Heard().value)
    }
  }

  datatype Hook = Hook(id: nat, fails: bool)

  datatype Happening =
    | RolledBack(attempt: nat)
    | Applied(attempt: nat)
    | HookRan(attempt: nat, hook: Hook)
    | HookFailureLogged(attempt: nat, hook: Hook)

  datatype Returned = Succeeded(attempt: nat) | Failed(error: Failure) | NothingRan

  // What the server and the wire can be trusted with: a COMMIT is acknowledged only when it is applied,
  // and answered with an error only when it is not; all else the client can hear is that the connection
  // is gone, and then either may have happened.
  predicate HonestCommit(applied: bool, heard: Option<Failure>) {
    match heard
    case None => applied
    case Some(Reported(_)) => !applied
    case Some(error) => error.ConnectionLost?
  }

  ghost predicate Honest(fates: nat -> Fate) {
    forall k: nat :: fates(k).ending.Sent? ==> HonestCommit(fates(k).ending.applied, fates(k).ending.heard)
  }

  function OneHook(attempt: nat, hook: Hook): seq<Happening> {
    [HookRan(attempt, hook)] + if hook.fails then [HookFailureLogged(attempt, hook)] else []
  }

  function HooksRun(attempt: nat, hooks: seq<Hook>): seq<Happening> {
    if |hooks| == 0 then [] else HooksRun(attempt, hooks[..|hooks| - 1]) + OneHook(attempt, hooks[|hooks| - 1])
  }

  // Everything one attempt leaves behind.
  function TraceOf(attempt: nat, fate: Fate): seq<Happening> {
    (if fate.Applies() then [Applied(attempt)] else [RolledBack(attempt)])
    + if fate.Heard().None? then HooksRun(attempt, fate.hooks) else []
  }

  function TraceUpTo(fates: nat -> Fate, n: nat): seq<Happening> {
    if n == 0 then [] else TraceUpTo(fates, n - 1) + TraceOf(n, fates(n))
  }

  class Boundary {
    var trace: seq<Happening>

    constructor ()
      ensures trace == []
    {
      trace := [];
    }

    // A hook does its work, and may throw.
    method RunHook(attempt: nat, hook: Hook) returns (thrown: bool)
      modifies this
      ensures trace == old(trace) + [HookRan(attempt, hook)] && thrown == hook.fails
    {
      trace := trace + [HookRan(attempt, hook)];
      thrown := hook.fails;
    }

    // Whatever a hook throws is caught and logged, and the next one runs.
    method RunHooks(attempt: nat, hooks: seq<Hook>)
      modifies this
      ensures trace == old(trace) + HooksRun(attempt, hooks)
    {
      for i := 0 to |hooks|
        invariant trace == old(trace) + HooksRun(attempt, hooks[..i])
      {
        assert hooks[..i + 1][..i] == hooks[..i];
        var thrown := RunHook(attempt, hooks[i]);
        if thrown {
          trace := trace + [HookFailureLogged(attempt, hooks[i])];
        }
      }
      assert hooks[..|hooks|] == hooks;
    }

    // BEGIN, the callback, COMMIT or ROLLBACK, and after an acknowledged commit the hooks.
    method RunAttempt(attempt: nat, fate: Fate) returns (error: Option<Failure>)
      modifies this
      ensures trace == old(trace) + TraceOf(attempt, fate)
      ensures error == fate.Heard()
    {
      if fate.ending.Throws? {
        trace := trace + [RolledBack(attempt)];
        return Some(fate.ending.error);
      }
      trace := trace + [if fate.ending.applied then Applied(attempt) else RolledBack(attempt)];
      error := fate.ending.heard;
      if error.None? {
        RunHooks(attempt, fate.hooks);
      }
    }

    method WithTransaction(fates: nat -> Fate, maxAttempts: int) returns (r: Returned, last: nat)
      modifies this
      ensures trace == old(trace) + TraceUpTo(fates, last)
      ensures Decided(fates, maxAttempts, last, r)
    {
      r, last := NothingRan, 0;
      var attempt := 1;
      while attempt <= maxAttempts
        invariant attempt == last + 1 && (last > 0 ==> last <= maxAttempts)
        invariant trace == old(trace) + TraceUpTo(fates, last)
        invariant forall k :: 1 <= k <= last ==> fates(k).Retries()
        invariant r == if last == 0 then NothingRan else Failed(fates(last).Heard().value)
      {
        var error := RunAttempt(attempt, fates(attempt));
        assert TraceUpTo(fates, attempt) == TraceUpTo(fates, last) + TraceOf(attempt, fates(attempt));
        last := attempt;
        if error.None? {
          r := Succeeded(attempt);
          return;
        }
        r := Failed(error.value);
        if !(IsRetryable(error.value) && attempt < maxAttempts) {
          return;
        }
        attempt := attempt + 1;
      }
    }
  }

  // Which attempt was the last, and what the caller is told.
  ghost predicate Decided(fates: nat -> Fate, maxAttempts: int, last: nat, r: Returned) {
    && (last == 0 <==> maxAttempts <= 0)
    && (last > 0 ==> last <= maxAttempts)
    && (forall k :: 1 <= k < last ==> fates(k).Retries())
    && (last > 0 ==> !fates(last).Retries() || last == maxAttempts)
    && r == (if last == 0 then NothingRan
             else if fates(last).Heard().None? then Succeeded(last)
             else Failed(fates(last).Heard().value))
  }

  // An attempt is followed by another exactly when the server answered with a serialization failure or a
  // deadlock, and attempts are left.
  lemma TriedAgainIff(fates: nat -> Fate, maxAttempts: int, last: nat, r: Returned, k: nat)
    requires Decided(fates, maxAttempts, last, r) && 1 <= k <= last
    ensures k < last <==>
              && (fates(k).Heard() == Some(Reported(SerializationFailure)) || fates(k).Heard() == Some(Reported(DeadlockDetected)))
              && k < maxAttempts
  {
  }

  // ---------------------------------------------------------------- what a caller can rely on

  function Commits(trace: seq<Happening>): nat {
    if |trace| == 0 then 0 else Commits(trace[..|trace| - 1]) + if trace[|trace| - 1].Applied? then 1 else 0
  }

  lemma {:induction false} CommitsConcat(a: seq<Happening>, b: seq<Happening>)
    ensures Commits(a + b) == Commits(a) + Commits(b)
  {
    if |b| == 0 {
      assert a + b == a;
    } else {
      CommitsConcat(a, b[..|b| - 1]);
      assert (a + b)[..|a + b| - 1] == a + b[..|b| - 1];
    }
  }

  lemma {:induction false} HooksCommitNothing(attempt: nat, hooks: seq<Hook>)
    ensures Commits(HooksRun(attempt, hooks)) == 0
  {
    if |hooks| > 0 {
      var rest, last := hooks[..|hooks| - 1], hooks[|hooks| - 1];
      HooksCommitNothing(attempt, rest);
      CommitsConcat(HooksRun(attempt, rest), OneHook(attempt, last));
      CommitsConcat([HookRan(attempt, last)], if last.fails then [HookFailureLogged(attempt, last)] else []);
      assert [HookRan(attempt, last)][..0] == [] && [HookFailureLogged(attempt, last)][..0] == [];
    }
  }

  lemma OneAttemptCommits(attempt: nat, fate: Fate)
    ensures Commits(TraceOf(attempt, fate)) == if fate.Applies() then 1 else 0
  {
    var first := if fate.Applies() then [Applied(attempt)] else [RolledBack(attempt)];
    assert first[..0] == [];
    CommitsConcat(first, if fate.Heard().None? then HooksRun(attempt, fate.hooks) else []);
    HooksCommitNothing(attempt, fate.hooks);
  }

  // Attempts that are tried again have left nothing but a rollback: a conflict is reported by the server.
  lemma {:induction false} RetriesCommitNothing(fates: nat -> Fate, n: nat)
    requires Honest(fates) && forall k :: 1 <= k <= n ==> fates(k).Retries()
    ensures Commits(TraceUpTo(fates, n)) == 0
    ensures forall x :: x in TraceUpTo(fates, n) ==> x.RolledBack?
  {
    if n > 0 {
      RetriesCommitNothing(fates, n - 1);
      assert fates(n).Retries() && !fates(n).Applies();
      OneAttemptCommits(n, fates(n));
      CommitsConcat(TraceUpTo(fates, n - 1), TraceOf(n, fates(n)));
    }
  }

  // However an attempt can end, at most one is applied; hooks run only after an acknowledged commit,
  // only those of that attempt; and success means applied.
  lemma AppliedAtMostOnce(fates: nat -> Fate, maxAttempts: int, last: nat, r: Returned)
    requires Honest(fates) && Decided(fates, maxAttempts, last, r)
    ensures Commits(TraceUpTo(fates, last)) == if last > 0 && fates(last).Applies() then 1 else 0
    ensures r.Succeeded? ==> last > 0 && Commits(TraceUpTo(fates, last)) == 1
    ensures r.Succeeded? ==>
              && (forall x :: x in TraceUpTo(fates, last - 1) ==> x.RolledBack?)
              && TraceUpTo(fates, last) == TraceUpTo(fates, last - 1) + [Applied(last)] + HooksRun(last, fates(last).hooks)
    ensures !r.Succeeded? ==> HooksIn(TraceUpTo(fates, last)) == []
  {
    if last > 0 {
      var before := TraceUpTo(fates, last - 1);
      RetriesCommitNothing(fates, last - 1);
      OneAttemptCommits(last, fates(last));
      CommitsConcat(before, TraceOf(last, fates(last)));
      assert TraceUpTo(fates, last) == before + TraceOf(last, fates(last));
      if r.Succeeded? {
        assert TraceUpTo(fates, last) == before + [Applied(last)] + HooksRun(last, fates(last).hooks);
      }
    }
    if !r.Succeeded? {
      NoHooksIn(TraceUpTo(fates, last));
    }
  }

  // The hooks that ran, in order.
  function HooksIn(trace: seq<Happening>): seq<Hook> {
    if |trace| == 0 then []
    else
      var x := trace[|trace| - 1];
      HooksIn(trace[..|trace| - 1]) + if x.HookRan? then [x.hook] else []
  }

  lemma {:induction false} NoHooksIn(trace: seq<Happening>)
    requires forall x :: x in trace ==> !x.HookRan?
    ensures HooksIn(trace) == []
  {
    if |trace| > 0 {
      NoHooksIn(trace[..|trace| - 1]);
    }
  }

  lemma {:induction false} HooksConcat(a: seq<Happening>, b: seq<Happening>)
    ensures HooksIn(a + b) == HooksIn(a) + HooksIn(b)
  {
    if |b| == 0 {
      assert a + b == a;
    } else {
      HooksConcat(a, b[..|b| - 1]);
      assert (a + b)[..|a + b| - 1] == a + b[..|b| - 1];
    }
  }

  lemma {:induction false} EveryHookRuns(attempt: nat, hooks: seq<Hook>)
    ensures HooksIn(HooksRun(attempt, hooks)) == hooks
  {
    if |hooks| > 0 {
      var rest, last := hooks[..|hooks| - 1], hooks[|hooks| - 1];
      EveryHookRuns(attempt, rest);
      HooksConcat(HooksRun(attempt, rest), OneHook(attempt, last));
      HooksConcat([HookRan(attempt, last)], if last.fails then [HookFailureLogged(attempt, last)] else []);
      assert [HookRan(attempt, last)][..0] == [] && [HookFailureLogged(attempt, last)][..0] == [];
      assert hooks == rest + [last];
    }
  }

  // Each hook of the attempt that succeeded runs exactly once and in order, whichever of them throw.
  lemma FailingHooksStopNothing(fates: nat -> Fate, maxAttempts: int, last: nat, r: Returned)
    requires Honest(fates) && Decided(fates, maxAttempts, last, r) && r.Succeeded?
    ensures HooksIn(TraceUpTo(fates, last)) == fates(last).hooks
  {
    AppliedAtMostOnce(fates, maxAttempts, last, r);
    var before := TraceUpTo(fates, last - 1);
    RetriesCommitNothing(fates, last - 1);
    NoHooksIn(before);
    NoHooksIn([Applied(last)]);
    HooksConcat(before, [Applied(last)]);
    HooksConcat(before + [Applied(last)], HooksRun(last, fates(last).hooks));
    EveryHookRuns(last, fates(last).hooks);
  }

  // ---------------------------------------------------------------- what an error tells the caller

  // A call can return the error `e` with its transaction applied, or not applied.
  ghost predicate CanFollow(e: Failure, maxAttempts: int, applied: bool) {
    exists fates: nat -> Fate, last: nat ::
      FailsWith(fates, maxAttempts, last, e) && Commits(TraceUpTo(fates, last)) == if applied then 1 else 0
  }

  ghost predicate FailsWith(fates: nat -> Fate, maxAttempts: int, last: nat, e: Failure) {
    Honest(fates) && Decided(fates, maxAttempts, last, Failed(e))
  }

  // Any error except a lost connection means that nothing has been applied.
  lemma OtherErrorsMeanNothing(fates: nat -> Fate, maxAttempts: int, last: nat, e: Failure)
    requires FailsWith(fates, maxAttempts, last, e) && !e.ConnectionLost?
    ensures Commits(TraceUpTo(fates, last)) == 0
    ensures forall x :: x in TraceUpTo(fates, last) ==> x.RolledBack?
  {
    var fate := fates(last);
    assert !fate.Applies();
    RetriesCommitNothing(fates, last - 1);
    OneAttemptCommits(last, fate);
    CommitsConcat(TraceUpTo(fates, last - 1), TraceOf(last, fate));
    assert TraceOf(last, fate) == [RolledBack(last)];
    assert TraceUpTo(fates, last) == TraceUpTo(fates, last - 1) + TraceOf(last, fate);
  }

  function Always(ending: Ending): nat -> Fate {
    (k: nat) => Fate([], ending)
  }

  lemma OneAttempt(ending: Ending)
    ensures Commits(TraceUpTo(Always(ending), 1)) == if Fate([], ending).Applies() then 1 else 0
  {
    var fates := Always(ending);
    assert TraceUpTo(fates, 0) == [];
    assert TraceUpTo(fates, 1) == TraceUpTo(fates, 0) + TraceOf(1, fates(1)) == TraceOf(1, fates(1));
    OneAttemptCommits(1, fates(1));
  }

  lemma FirstAttemptDecides(ending: Ending, maxAttempts: int, e: Failure)
    requires maxAttempts >= 1 && Fate([], ending).Heard() == Some(e) && !IsRetryable(e)
    requires ending.Sent? ==> HonestCommit(ending.applied, ending.heard)
    ensures CanFollow(e, maxAttempts, Fate([], ending).Applies())
  {
    OneAttempt(ending);
    assert FailsWith(Always(ending), maxAttempts, 1, e);
  }

  // An error can reach the caller after its transaction was applied if and only if it is a lost
  // connection; and a lost connection does not tell either way.
  lemma ErrorAfterCommitIff(e: Failure, maxAttempts: int)
    requires maxAttempts >= 1
    ensures CanFollow(e, maxAttempts, true) <==> e.ConnectionLost?
    ensures CanFollow(ConnectionLost, maxAttempts, false)
  {
    FirstAttemptDecides(Sent(true, Some(ConnectionLost)), maxAttempts, ConnectionLost);
    FirstAttemptDecides(Sent(false, Some(ConnectionLost)), maxAttempts, ConnectionLost);
    if CanFollow(e, maxAttempts, true) && !e.ConnectionLost? {
      var fates: nat -> Fate, last: nat :| FailsWith(fates, maxAttempts, last, e) && Commits(TraceUpTo(fates, last)) == 1;
      OtherErrorsMeanNothing(fates, maxAttempts, last, e);
    }
  }
}
