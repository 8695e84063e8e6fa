/** How often one job is claimed. The state is the job's row, every execution of it that
    has not settled yet, and counters since the last user retry. `Fail` is two statements
    (internal/queue/queue.go:288-312): other steps may come between the read of
    `attempts` and the write, and a worker whose job was reclaimed may settle late. */
module JobLife {
  import opened Wrappers
  import opened JobTable
  import opened JobQueue

  /** `index` is the attempt this execution was claimed as, 0 once a user retry has reset the count. */
  datatype Execution = Execution(index: nat, verdict: Option<Verdict>)

  datatype State = State(
    now: int, row: Job, executions: map<nat, Execution>,
    claims: nat, reclaims: nat, carried: nat, requeues: nat)

  datatype Op =
    | Tick(d: nat)
    | Claim(x: nat, w: Worker)
    | ReadFail(x: nat)
    | WriteFail(x: nat)
    | Fail(x: nat)
    | Finish(x: nat)
    | Cancel(x: nat)
    | Crash(x: nat)
    | Beat(w: Worker)
    | Reclaim
    | UserRetry
    | Pause
    | Resume
    | RequestCancel

  /** The executions whose failure may still put the job back in the queue. */
  predicate MayRequeue(e: Execution, maxAttempts: nat) {
    match e.verdict
    case None => e.index < maxAttempts
    case Some(v) => v.Retry?
  }

  function Pending(s: State): set<nat> {
    set x | x in s.executions && MayRequeue(s.executions[x], s.row.maxAttempts)
  }

  function Settled(s: State, x: nat, verdict: Verdict): State {
    var rest := s.executions - {x};
    match verdict
    case DeadLetter => s.(row := FinishedRow(s.row, Failed), executions := rest)
    case Retry(delay) =>
      s.(row := RequeuedRow(s.row, s.now + delay), executions := rest, requeues := s.requeues + 1)
  }

  predicate Enabled(s: State, op: Op) {
    match op
    case Claim(x, w) =>
      x !in s.executions && s.row.status.Queued? && s.row.runAt <= s.now && s.row.pausedAt.None?
    case ReadFail(x) => x in s.executions && s.executions[x].verdict.None?
    case WriteFail(x) => x in s.executions && s.executions[x].verdict.Some?
    case Fail(x) => x in s.executions && s.executions[x].verdict.None?
    case Finish(x) => x in s.executions && s.executions[x].verdict.None?
    case Cancel(x) => x in s.executions && s.executions[x].verdict.None?
    case Crash(x) => x in s.executions
    case Reclaim => s.row.status.Running?
    case UserRetry => s.row.status.Failed? || s.row.status.Cancelled?
    case _ => true
  }

  function Next(s: State, op: Op): State
    requires Enabled(s, op)
  {
    match op
    case Tick(d) => s.(now := s.now + d)
    case Claim(x, w) =>
      var row := ClaimedRow(s.row, w, s.now);
      s.(row := row, executions := s.executions[x := Execution(row.attempts, None)], claims := s.claims + 1)
    case ReadFail(x) =>
      s.(executions := s.executions[x := s.executions[x].(verdict := Some(VerdictOf(s.row)))])
    case WriteFail(x) => Settled(s, x, s.executions[x].verdict.value)
    case Fail(x) => Settled(s, x, VerdictOf(s.row))
    case Finish(x) => s.(row := FinishedRow(s.row, Done), executions := s.executions - {x})
    case Cancel(x) => s.(row := CancelledRow(s.row), executions := s.executions - {x})
    case Crash(x) => s.(executions := s.executions - {x})
    case Beat(w) =>
      if s.row.worker == Some(w) && s.row.status.Running? then s.(row := s.row.(heartbeatAt := Some(s.now))) else s
    case Reclaim =>
      s.(row := RequeuedRow(s.row, s.now + REQUEUE_DELAY).(startedAt := None), reclaims := s.reclaims + 1)
    case UserRetry =>
      var r := s.(row := RetriedRow(s.row, s.now),
                  executions := map x | x in s.executions :: s.executions[x].(index := 0),
                  claims := 0, reclaims := 0, requeues := 0);
      r.(carried := |Pending(r)|)
    case Pause => if s.row.status.Queued? then s.(row := s.row.(pausedAt := Some(s.now))) else s
    case Resume => s.(row := s.row.(pausedAt := None))
    case RequestCancel =>
      if s.row.status.Queued? then s.(row := FinishedRow(s.row, Cancelled))
      else s.(row := s.row.(cancelAt := Some(s.now)))
  }

  ghost predicate Run(s: State, ops: seq<Op>)
    decreases |ops|
  {
    ops == [] || (Enabled(s, ops[0]) && Run(Next(s, ops[0]), ops[1..]))
  }

  ghost function After(s: State, ops: seq<Op>): State
    requires Run(s, ops)
    decreases |ops|
  {
    if ops == [] then s else After(Next(s, ops[0]), ops[1..])
  }

  predicate Fresh(s: State) {
    && s.row.status.Queued? && s.row.attempts == 0 && s.row.maxAttempts > 0
    && s.executions == map[] && s.claims == s.reclaims == s.carried == s.requeues == 0
  }

  /* ---- Two-statement Fail ---- */

  ghost predicate Accounted(s: State) {
    var early := if s.row.attempts < s.row.maxAttempts - 1 then s.row.attempts else s.row.maxAttempts - 1;
    && s.row.maxAttempts > 0 && s.claims == s.row.attempts
    && (forall x :: x in s.executions ==> s.executions[x].index <= s.row.attempts)
    && s.row.attempts + (if s.row.status.Queued? then 1 else 0) <= 1 + s.requeues + s.reclaims
    && s.requeues + |Pending(s)| <= s.carried + early
  }

  lemma PendingShrinks(s: State, s': State, x: nat)
    requires s'.executions == s.executions - {x} && s'.row.maxAttempts == s.row.maxAttempts
    ensures |Pending(s')| == |Pending(s)| - (if x in Pending(s) then 1 else 0)
  {
    assert Pending(s') == Pending(s) - {x};
  }

  lemma PendingSubset(s: State, s': State)
    requires Pending(s') <= Pending(s)
    ensures |Pending(s')| <= |Pending(s)|
  {
    Cardinality(Pending(s'), Pending(s));
  }

  lemma {:induction false} Cardinality<T>(a: set<T>, b: set<T>)
    requires a <= b
    ensures |a| <= |b|
  {
    assert b == a + (b - a);
  }

  lemma ClaimAccounted(s: State, x: nat, w: Worker)
    requires Accounted(s) && Enabled(s, Claim(x, w))
    ensures Accounted(Next(s, Claim(x, w)))
  {
    var s' := Next(s, Claim(x, w));
    assert Pending(s') == if s'.row.attempts < s.row.maxAttempts then Pending(s) + {x} else Pending(s);
  }

  lemma SettleAccounted(s: State, x: nat, s': State)
    requires Accounted(s) && x in s.executions
    requires s'.executions == s.executions - {x} && s'.row.attempts == s.row.attempts
    requires s'.row.maxAttempts == s.row.maxAttempts
    requires s'.claims == s.claims && s'.reclaims == s.reclaims && s'.carried == s.carried
    requires if s'.row.status.Queued? then x in Pending(s) && s'.requeues == s.requeues + 1
             else s'.requeues == s.requeues
    ensures Accounted(s')
  {
    PendingShrinks(s, s', x);
  }

  lemma ReadAccounted(s: State, x: nat)
    requires Accounted(s) && Enabled(s, ReadFail(x))
    ensures Accounted(Next(s, ReadFail(x)))
  {
    PendingSubset(s, Next(s, ReadFail(x)));
  }

  lemma RetryAccounted(s: State)
    requires Accounted(s) && Enabled(s, UserRetry)
    ensures Accounted(Next(s, UserRetry))
  {
    var s' := Next(s, UserRetry);
    assert Pending(s') == Pending(s'.(carried := s.carried));
  }

  lemma StepAccounted(s: State, op: Op)
    requires Accounted(s) && Enabled(s, op)
    ensures Accounted(Next(s, op))
  {
    match op {
      case Claim(x, w) => ClaimAccounted(s, x, w);
      case ReadFail(x) => ReadAccounted(s, x);
      case WriteFail(x) => SettleAccounted(s, x, Next(s, op));
      case Fail(x) => SettleAccounted(s, x, Next(s, op));
      case Finish(x) => SettleAccounted(s, x, Next(s, op));
      case Cancel(x) => SettleAccounted(s, x, Next(s, op));
      case Crash(x) => PendingShrinks(s, Next(s, op), x);
      case UserRetry => RetryAccounted(s);
      case _ => assert Pending(Next(s, op)) == Pending(s);
    }
  }

  lemma StepAccountedIf(s: State, op: Op)
    requires Enabled(s, op)
    ensures Accounted(s) ==> Accounted(Next(s, op))
  {
    if Accounted(s) { StepAccounted(s, op); }
  }

  lemma AccountedBound(s: State)
    requires Accounted(s)
    ensures s.claims <= s.row.maxAttempts + s.reclaims + s.carried
  {
  }

  /** Between user retries a job is claimed at most `max_attempts` times, plus once for each stale
      reclaim, plus once for each execution that could still put the job back in the queue at the last retry. */
  lemma {:induction false} ClaimsBounded(s: State, ops: seq<Op>)
    requires Accounted(s) && Run(s, ops)
    ensures var t := After(s, ops); t.claims <= t.row.maxAttempts + t.reclaims + t.carried
    ensures Accounted(After(s, ops))
    decreases |ops|
  {
    if ops != [] {
      StepAccounted(s, ops[0]);
      ClaimsBounded(Next(s, ops[0]), ops[1..]);
    }
  }

  lemma FreshAccounted(s: State)
    requires Fresh(s)
    ensures Accounted(s) && Capped(s)
  {
    assert Pending(s) == {};
  }

  /* ---- Fail as one step ---- */

  predicate Split(op: Op) {
    op.ReadFail? || op.WriteFail?
  }

  ghost predicate Capped(s: State) {
    && s.row.maxAttempts > 0 && s.claims == s.row.attempts
    && s.row.attempts + (if s.row.status.Queued? then 1 else 0) <= s.row.maxAttempts + s.reclaims
    && (forall x :: x in s.executions ==> s.executions[x].verdict.None?)
  }

  /** When no step falls between the two statements of `Fail`, nothing has to be added for late
      executions, however many of them settle after the job was reclaimed or retried. */
  lemma {:induction false} ClaimsBoundedWhenFailIsAtomic(s: State, ops: seq<Op>)
    requires Capped(s) && Run(s, ops)
    requires forall op :: op in ops ==> !Split(op)
    ensures var t := After(s, ops); t.claims <= t.row.maxAttempts + t.reclaims
    decreases |ops|
  {
    if ops != [] {
      assert ops[0] in ops;
      assert Capped(Next(s, ops[0]));
      ClaimsBoundedWhenFailIsAtomic(Next(s, ops[0]), ops[1..]);
    }
  }

  /* ---- The term for pending executions is exact ---- */

  /** A state a user retry has just produced. */
  ghost predicate JustRetried(s: State) {
    && Accounted(s) && s.row.status.Queued? && s.row.attempts == 0
    && s.claims == s.reclaims == s.requeues == 0 && s.carried == |Pending(s)|
  }

  lemma RetryJustRetries(s: State)
    requires Accounted(s) && Enabled(s, UserRetry)
    ensures JustRetried(Next(s, UserRetry))
  {
    RetryAccounted(s);
    var s' := Next(s, UserRetry);
    assert Pending(s') == Pending(s'.(carried := s.carried));
  }

  predicate NoRetry(ops: seq<Op>) {
    forall op :: op in ops ==> !op.UserRetry?
  }

  lemma {:induction false} CarriedStays(s: State, ops: seq<Op>)
    requires Run(s, ops) && NoRetry(ops)
    ensures After(s, ops).carried == s.carried && After(s, ops).row.maxAttempts == s.row.maxAttempts
    decreases |ops|
  {
    if ops != [] {
      assert ops[0] in ops && forall op :: op in ops[1..] ==> op in ops;
      CarriedStays(Next(s, ops[0]), ops[1..]);
    }
  }

  /** Claimed `claims` times with no reclaim and no attempt left open under `y`; the executions in `late` have read a
      retry and not written it yet. */
  predicate Waiting(s: State, m: nat, claims: nat, late: set<nat>, y: nat) {
    && s.row.maxAttempts == m > 0 && s.row.attempts == claims == s.claims && s.reclaims == 0
    && y !in s.executions && y !in late
    && forall x :: x in late ==> x in s.executions && s.executions[x].verdict.Some? && s.executions[x].verdict.value.Retry?
  }

  lemma Fresh0(ids: set<nat>) returns (y: nat)
    ensures forall k :: k in ids ==> k < y
  {
    y := 0;
    var rest := ids;
    while rest != {}
      invariant rest <= ids && forall k :: k in ids && k !in rest ==> k < y
      decreases rest
    {
      var k :| k in rest;
      rest := rest - {k};
      if k >= y { y := k + 1; }
    }
  }

  /** From a queued row: wait until it is due, claim it, and fail the attempt in one step. */
  lemma ClaimAndFail(s0: State, ops0: seq<Op>, s: State, m: nat, claims: nat, late: set<nat>, y: nat)
    returns (ops: seq<Op>, t: State)
    requires Run(s0, ops0) && NoRetry(ops0) && s == After(s0, ops0)
    requires Waiting(s, m, claims, late, y) && s.row.status.Queued? && s.row.pausedAt.None?
    ensures Run(s0, ops) && NoRetry(ops) && t == After(s0, ops)
    ensures Waiting(t, m, claims + 1, late, y) && t.row.pausedAt.None?
    ensures t.row.status.Queued? <==> claims + 1 < m
  {
    ops, t := Push(s0, ops0, s, Tick(if s.row.runAt <= s.now then 0 else s.row.runAt - s.now));
    ops, t := Push(s0, ops, t, Claim(y, "w"));
    ops, t := Push(s0, ops, t, Fail(y));
  }

  /** All regular attempts are used up. */
  lemma {:induction false} UseUp(s0: State, ops0: seq<Op>, s: State, m: nat, claims: nat, late: set<nat>, y: nat)
    returns (ops: seq<Op>, t: State)
    requires Run(s0, ops0) && NoRetry(ops0) && s == After(s0, ops0)
    requires Waiting(s, m, claims, late, y) && s.row.status.Queued? && s.row.pausedAt.None? && claims < m
    ensures Run(s0, ops) && NoRetry(ops) && t == After(s0, ops)
    ensures Waiting(t, m, m, late, y) && t.row.pausedAt.None?
    decreases m - claims
  {
    ops, t := ClaimAndFail(s0, ops0, s, m, claims, late, y);
    if claims + 1 < m { ops, t := UseUp(s0, ops, t, m, claims + 1, late, y); }
  }

  /** Each late write then buys one more claim. */
  lemma {:induction false} WriteLate(s0: State, ops0: seq<Op>, s: State, m: nat, claims: nat, late: set<nat>, y: nat)
    returns (ops: seq<Op>, t: State)
    requires Run(s0, ops0) && NoRetry(ops0) && s == After(s0, ops0)
    requires Waiting(s, m, claims, late, y) && s.row.pausedAt.None? && m <= claims
    ensures Run(s0, ops) && NoRetry(ops) && t == After(s0, ops)
    ensures t.reclaims == 0 && t.claims == claims + |late|
    decreases late
  {
    ops, t := ops0, s;
    if late != {} {
      var x :| x in late;
      ops, t := Push(s0, ops, t, WriteFail(x));
      ops, t := ClaimAndFail(s0, ops, t, m, claims, late - {x}, y);
      ops, t := WriteLate(s0, ops, t, m, claims + 1, late - {x}, y);
    }
  }

  /** Before the first attempt every pending execution can read "attempts left". */
  lemma {:induction false} ReadEarly(s0: State, ops0: seq<Op>, s: State, m: nat, unread: set<nat>, late: set<nat>, y: nat)
    returns (ops: seq<Op>, t: State)
    requires Run(s0, ops0) && NoRetry(ops0) && s == After(s0, ops0)
    requires Waiting(s, m, 0, late, y) && s.row.status.Queued? && y !in unread && unread !! late
    requires forall x :: x in unread ==> x in s.executions && s.executions[x].verdict.None?
    ensures Run(s0, ops) && NoRetry(ops) && t == After(s0, ops)
    ensures Waiting(t, m, 0, late + unread, y) && t.row == s.row
    decreases unread
  {
    ops, t := ops0, s;
    if unread != {} {
      var x :| x in unread;
      ops, t := Push(s0, ops, t, ReadFail(x));
      ops, t := ReadEarly(s0, ops, t, m, unread - {x}, late + {x}, y);
      assert late + {x} + (unread - {x}) == late + unread;
    } else {
      assert late + unread == late;
    }
  }

  /** After a user retry the number of claims reaches `max_attempts` plus the pending executions, with no reclaim. */
  lemma ClaimsAttained(s: State) returns (ops: seq<Op>)
    requires JustRetried(s)
    ensures Run(s, ops) && NoRetry(ops)
    ensures var t := After(s, ops); t.reclaims == 0 && t.claims == s.row.maxAttempts + |Pending(s)|
  {
    var m, t := s.row.maxAttempts, s;
    ops := [];
    var y := Fresh0(s.executions.Keys);
    var unread := set x | x in Pending(s) && s.executions[x].verdict.None?;
    ops, t := ReadEarly(s, ops, t, m, unread, Pending(s) - unread, y);
    assert Pending(s) - unread + unread == Pending(s);
    ops, t := Push(s, ops, t, Resume);
    ops, t := UseUp(s, ops, t, m, 0, Pending(s), y);
    ops, t := WriteLate(s, ops, t, m, m, Pending(s), y);
  }

  /** The promise "at most `max_attempts` claims plus one per stale reclaim" holds for everything that can follow a
      user retry exactly when no execution is left that could still re-queue the job. */
  lemma PromiseExactlyWhenNonePending(s: State)
    requires JustRetried(s)
    ensures (forall ops :: Run(s, ops) && NoRetry(ops) ==>
        After(s, ops).claims <= s.row.maxAttempts + After(s, ops).reclaims)
      <==> Pending(s) == {}
  {
    if Pending(s) == {} {
      forall ops | Run(s, ops) && NoRetry(ops)
        ensures After(s, ops).claims <= s.row.maxAttempts + After(s, ops).reclaims
      {
        ClaimsBounded(s, ops);
        CarriedStays(s, ops);
      }
    } else {
      var ops := ClaimsAttained(s);
      var t := After(s, ops);
      assert t.claims > s.row.maxAttempts + t.reclaims;
    }
  }

  /* ---- A cancel request outlives everything but a cancel ---- */

  predicate NoCancel(ops: seq<Op>) {
    forall op :: op in ops ==> !op.Cancel?
  }

  /** Some request was made while the job was not queued, and no worker has cancelled the job since. */
  ghost predicate Asked(s: State, ops: seq<Op>)
    requires Run(s, ops)
    decreases |ops|
  {
    ops != [] &&
      ((ops[0].RequestCancel? && !s.row.status.Queued? && NoCancel(ops[1..])) || Asked(Next(s, ops[0]), ops[1..]))
  }

  /** Which jobs a failing handler finds flagged, and so settles as cancelled instead of failed: those asked to cancel
      while not queued, or flagged from before, with no cancel by a worker since. Failures, finished attempts,
      reclaims and user retries do not clear the flag. */
  lemma {:induction false} FlagExactly(s: State, ops: seq<Op>)
    requires Run(s, ops)
    ensures After(s, ops).row.cancelAt.Some? <==> Asked(s, ops) || (s.row.cancelAt.Some? && NoCancel(ops))
    decreases |ops|
  {
    if ops != [] {
      FlagExactly(Next(s, ops[0]), ops[1..]);
      assert NoCancel(ops) <==> !ops[0].Cancel? && NoCancel(ops[1..]) by { assert ops == [ops[0]] + ops[1..]; }
    }
  }

  /** The abort watcher polls the flag while a handler runs: from a user retry of a flagged job on, every poll finds it
      set until a worker has cancelled the job. So the attempt that follows the retry is aborted, not only settled as
      cancelled if it fails. */
  lemma EveryPollFindsOldRequest(s: State, ops: seq<Op>)
    requires Enabled(s, UserRetry) && s.row.cancelAt.Some?
    requires Run(Next(s, UserRetry), ops) && NoCancel(ops)
    ensures After(Next(s, UserRetry), ops).row.cancelAt.Some?
  {
    FlagExactly(Next(s, UserRetry), ops);
  }

  /* ---- Such a state is reached ---- */

  function Example(): State {
    State(0, NewRow(Transcode, Some(7), 1, 2, 0), map[], 0, 0, 0, 0)
  }

  /** Worker A reads "one of two attempts used" and stalls; the job is reclaimed, dies and is
      retried by the user; A's write then re-queues it after both new attempts are spent. */
  function LateWrite(): seq<Op> {
    [Claim(1, "a"), ReadFail(1), Reclaim, Tick(REQUEUE_DELAY), Claim(2, "b"), Fail(2), UserRetry,
     Claim(3, "b"), Fail(3), Tick(MAX_BACKOFF), Claim(4, "b"), Fail(4), WriteFail(1), Tick(MAX_BACKOFF), Claim(5, "b")]
  }

  lemma {:induction false} Push(s: State, ops: seq<Op>, t: State, op: Op) returns (ops': seq<Op>, t': State)
    requires Run(s, ops) && t == After(s, ops) && Enabled(t, op)
    ensures ops' == ops + [op] && t' == Next(t, op)
    ensures Run(s, ops') && t' == After(s, ops')
    decreases |ops|
  {
    ops', t' := ops + [op], Next(t, op);
    if ops != [] {
      var _, _ := Push(Next(s, ops[0]), ops[1..], t, op);
      assert ops'[1..] == ops[1..] + [op];
    } else {
      assert ops'[1..] == [];
    }
  }

  /** A summary of the example's state: nothing reclaimed since the last retry, claimed `claims` times. */
  predicate Stage(s: State, status: Status, attempts: nat, late: bool, claims: nat, reclaims: nat) {
    && s.row.status == status && s.row.attempts == attempts && s.row.maxAttempts == 2 && s.row.pausedAt.None?
    && s.claims == claims && s.reclaims == reclaims
    && (status.Queued? ==> s.row.runAt <= s.now)
    && s.executions == if late then map[1 := Execution(0, Some(Retry(Backoff(1))))] else map[]
  }

  lemma StallAndReclaim(s: State, ops: seq<Op>, t: State) returns (ops': seq<Op>, t': State)
    requires Run(s, ops) && t == After(s, ops) && Stage(t, Queued, 0, false, 0, 0)
    ensures ops' == ops + [Claim(1, "a"), ReadFail(1), Reclaim, Tick(REQUEUE_DELAY)] && Run(s, ops') && t' == After(s, ops')
    ensures Stage(t'.(executions := map[]), Queued, 1, false, 1, 1)
    ensures t'.executions == map[1 := Execution(1, Some(Retry(Backoff(1))))]
  {
    ops', t' := ops, t;
    ops', t' := Push(s, ops', t', Claim(1, "a"));
    ops', t' := Push(s, ops', t', ReadFail(1));
    ops', t' := Push(s, ops', t', Reclaim);
    ops', t' := Push(s, ops', t', Tick(REQUEUE_DELAY));
  }

  lemma DieAndRetry(s: State, ops: seq<Op>, t: State) returns (ops': seq<Op>, t': State)
    requires Run(s, ops) && t == After(s, ops) && Stage(t.(executions := map[]), Queued, 1, false, 1, 1)
    requires t.executions == map[1 := Execution(1, Some(Retry(Backoff(1))))]
    ensures ops' == ops + [Claim(2, "b"), Fail(2), UserRetry] && Run(s, ops') && t' == After(s, ops')
    ensures Stage(t', Queued, 0, true, 0, 0)
  {
    ops', t' := ops, t;
    ops', t' := Push(s, ops', t', Claim(2, "b"));
    ops', t' := Push(s, ops', t', Fail(2));
    ops', t' := Push(s, ops', t', UserRetry);
  }

  lemma FirstNewAttempt(s: State, ops: seq<Op>, t: State) returns (ops': seq<Op>, t': State)
    requires Run(s, ops) && t == After(s, ops)
    requires Stage(t, Queued, 0, true, 0, 0)
    ensures ops' == ops + [Claim(3, "b"), Fail(3), Tick(MAX_BACKOFF)] && Run(s, ops') && t' == After(s, ops')
    ensures Stage(t', Queued, 1, true, 1, 0)
  {
    BackoffMonotone(1, 1);
    ops', t' := ops, t;
    ops', t' := Push(s, ops', t', Claim(3, "b"));
    ops', t' := Push(s, ops', t', Fail(3));
    ops', t' := Push(s, ops', t', Tick(MAX_BACKOFF));
  }

  lemma SecondNewAttempt(s: State, ops: seq<Op>, t: State) returns (ops': seq<Op>, t': State)
    requires Run(s, ops) && t == After(s, ops)
    requires Stage(t, Queued, 1, true, 1, 0)
    ensures ops' == ops + [Claim(4, "b"), Fail(4)] && Run(s, ops') && t' == After(s, ops')
    ensures Stage(t', Failed, 2, true, 2, 0)
  {
    BackoffMonotone(1, 1);
    ops', t' := ops, t;
    ops', t' := Push(s, ops', t', Claim(4, "b"));
    ops', t' := Push(s, ops', t', Fail(4));
  }

  lemma LateWriteAndClaim(s: State, ops: seq<Op>, t: State) returns (ops': seq<Op>, t': State)
    requires Run(s, ops) && t == After(s, ops)
    requires Stage(t, Failed, 2, true, 2, 0)
    ensures ops' == ops + [WriteFail(1), Tick(MAX_BACKOFF), Claim(5, "b")] && Run(s, ops') && t' == After(s, ops')
    ensures t'.reclaims == 0 && t'.claims == 3 && t'.row.maxAttempts == 2
  {
    BackoffMonotone(1, 1);
    ops', t' := ops, t;
    ops', t' := Push(s, ops', t', WriteFail(1));
    ops', t' := Push(s, ops', t', Tick(MAX_BACKOFF));
    ops', t' := Push(s, ops', t', Claim(5, "b"));
  }

  lemma LateWriteParts()
    ensures [] + [Claim(1, "a"), ReadFail(1), Reclaim, Tick(REQUEUE_DELAY)] + [Claim(2, "b"), Fail(2), UserRetry]
      + [Claim(3, "b"), Fail(3), Tick(MAX_BACKOFF)] + [Claim(4, "b"), Fail(4)]
      + [WriteFail(1), Tick(MAX_BACKOFF), Claim(5, "b")] == LateWrite()
  {
  }

  lemma LateWriteOverruns()
    ensures Fresh(Example()) && Run(Example(), LateWrite())
    ensures var t := After(Example(), LateWrite());
      t.reclaims == 0 && t.claims == 3 > t.row.maxAttempts
  {
    var s := Example();
    var ops: seq<Op>, t := [], s;
    ops, t := StallAndReclaim(s, ops, t);
    ops, t := DieAndRetry(s, ops, t);
    ops, t := FirstNewAttempt(s, ops, t);
    ops, t := SecondNewAttempt(s, ops, t);
    ops, t := LateWriteAndClaim(s, ops, t);
    LateWriteParts();
  }
}
