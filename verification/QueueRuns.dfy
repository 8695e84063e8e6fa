/** Whole runs of the queue: any number of workers claiming, beating, settling late or
    crashing, with users pausing, cancelling and retrying in between. Each SQL statement
    or transaction is one step; `Fail` is two. */
module QueueRuns {
  import opened Wrappers
  import opened JobTable
  import opened Selection
  import opened JobQueue

  /** One job handed to one worker by a claim and not yet settled by it. */
  datatype Execution = Execution(worker: Worker, job: nat, phase: Phase)

  datatype Phase = Working | Failing(verdict: Verdict) | Settled

  /** `beats` gives, for every live worker, the time of its start or last heartbeat. */
  datatype State = State(
    now: int, nextId: nat, jobs: Table, beats: map<Worker, int>,
    executions: seq<Execution>)

  datatype Op =
    | Tick(d: nat)
    | Insert(kind: Kind, entry: Option<int>, flavor: int, maxAttempts: int, runAt: int)
    | Delete(id: nat)
    | Start(w: Worker)
    | Crash(w: Worker)
    | Beat(w: Worker)
    | Claim(w: Worker, n: nat, exclude: set<Kind>, claimed: seq<nat>)
    | Finish(x: nat)
    | Cancel(x: nat)
    | ReadFail(x: nat)
    | WriteFail(x: nat)
    | Reclaim
    | Pause(id: nat)
    | Resume(id: nat)
    | RequestCancel(id: nat)
    | UserRetry(id: nat)

  predicate Live(s: State, x: nat) {
    x < |s.executions| && !s.executions[x].phase.Settled?
  }

  predicate Running(s: State, x: nat) {
    x < |s.executions| && s.executions[x].phase.Working?
  }

  ghost predicate Enabled(s: State, op: Op) {
    match op
    case Start(w) => w !in s.beats
    case Crash(w) => w in s.beats
    case Beat(w) => w in s.beats
    case Claim(w, n, exclude, claimed) => w in s.beats && IsBatch(s.jobs, s.now, n, exclude, claimed)
    case Finish(x) => Running(s, x)
    case Cancel(x) => Running(s, x)
    case ReadFail(x) => Running(s, x) && s.executions[x].job in s.jobs
    case WriteFail(x) => x < |s.executions| && s.executions[x].phase.Failing?
    case _ => true
  }

  function Handed(w: Worker, claimed: seq<nat>): seq<Execution> {
    seq(|claimed|, i requires 0 <= i < |claimed| => Execution(w, claimed[i], Working))
  }

  function Orphaned(executions: seq<Execution>, w: Worker): seq<Execution> {
    seq(|executions|, i requires 0 <= i < |executions| =>
      if executions[i].worker == w then executions[i].(phase := Settled) else executions[i])
  }

  function Settle(executions: seq<Execution>, x: nat): seq<Execution>
    requires x < |executions|
  {
    executions[x := executions[x].(phase := Settled)]
  }

  function FailedTable(t: Table, id: nat, now: int, verdict: Verdict): Table {
    match verdict
    case DeadLetter => MarkFinished(t, id, Failed)
    case Retry(delay) => MarkRequeued(t, id, now + delay)
  }

  ghost function Next(s: State, op: Op): State
    requires Enabled(s, op)
  {
    match op
    case Tick(d) => s.(now := s.now + d)
    case Insert(kind, entry, flavor, maxAttempts, runAt) =>
      s.(jobs := s.jobs[s.nextId := NewRow(kind, entry, flavor, maxAttempts, runAt)], nextId := s.nextId + 1)
    case Delete(id) => s.(jobs := s.jobs - {id})
    case Start(w) => s.(beats := s.beats[w := s.now])
    case Crash(w) =>
      s.(beats := s.beats - {w}, executions := Orphaned(s.executions, w))
    case Beat(w) => s.(jobs := MarkBeat(s.jobs, w, s.now), beats := s.beats[w := s.now])
    case Claim(w, n, exclude, claimed) =>
      s.(jobs := MarkClaimed(s.jobs, SetOf(claimed), w, s.now),
         executions := s.executions + Handed(w, claimed))
    case Finish(x) =>
      s.(jobs := MarkFinished(s.jobs, s.executions[x].job, Done), executions := Settle(s.executions, x))
    case Cancel(x) =>
      s.(jobs := MarkCancelled(s.jobs, s.executions[x].job), executions := Settle(s.executions, x))
    case ReadFail(x) =>
      s.(executions := s.executions[x := s.executions[x].(phase := Failing(VerdictOf(s.jobs[s.executions[x].job])))])
    case WriteFail(x) =>
      s.(jobs := FailedTable(s.jobs, s.executions[x].job, s.now, s.executions[x].phase.verdict),
         executions := Settle(s.executions, x))
    case Reclaim => s.(jobs := MarkStale(s.jobs, s.now, STALE_AFTER))
    case Pause(id) => s.(jobs := MarkPaused(s.jobs, id, s.now))
    case Resume(id) => s.(jobs := MarkResumed(s.jobs, id))
    case RequestCancel(id) => s.(jobs := MarkCancelRequested(s.jobs, id, s.now))
    case UserRetry(id) => s.(jobs := MarkRetried(s.jobs, id, s.now))
  }

  ghost predicate Run(s: State, ops: seq<Op>)
    decreases |ops|
  {
    ops == [] || (Enabled(s, ops[0]) && Run(Next(s, ops[0]), ops[1..]))
  }

  ghost function After(s: State, ops: seq<Op>): State
    requires Run(s, ops)
    decreases |ops|
  {
    if ops == [] then s else After(Next(s, ops[0]), ops[1..])
  }

  function Init(): State {
    State(0, 1, map[], map[], [])
  }

  /* ---- Exclusion, with no assumption on the workers ---- */

  ghost predicate Safe(s: State) {
    RowsOk(s.jobs) && OnePerEntry(s.jobs) && OneDownload(s.jobs)
  }

  lemma StepSafe(s: State, op: Op)
    requires Safe(s) && Enabled(s, op)
    ensures Safe(Next(s, op))
  {
    var s' := Next(s, op);
    match op {
      case Claim(w, n, exclude, claimed) =>
        var rows :| LowestIds(EligibleIds(s.jobs, s.now, exclude), n, rows) && claimed == Thin(s.jobs, rows);
        GreedyThinning(s.jobs, s.now, n, exclude, rows, claimed);
        BatchKeepsExclusive(s.jobs, s.now, n, exclude, claimed, w);
      case _ =>
        StepBenign(s, op);
        StillExclusive(s.jobs, s'.jobs);
    }
  }

  lemma StepBenign(s: State, op: Op)
    requires Enabled(s, op) && !op.Claim?
    ensures Benign(s.jobs, Next(s, op).jobs)
  {
    match op {
      case Insert(kind, entry, flavor, maxAttempts, runAt) =>
        InsertStatement(s.jobs, s.nextId, kind, entry, flavor, maxAttempts, runAt);
      case Delete(id) => UserStatements(s.jobs, id, s.now);
      case Beat(w) => TableStatements(s.jobs, w, s.now, STALE_AFTER);
      case Finish(x) => RowStatements(s.jobs, s.executions[x].job, s.now, Done);
      case Cancel(x) => RowStatements(s.jobs, s.executions[x].job, s.now, Done);
      case WriteFail(x) =>
        var verdict := s.executions[x].phase.verdict;
        RowStatements(s.jobs, s.executions[x].job, s.now + if verdict.Retry? then verdict.delay else 0, Failed);
      case Reclaim => TableStatements(s.jobs, "", s.now, STALE_AFTER);
      case Pause(id) => UserStatements(s.jobs, id, s.now);
      case Resume(id) => UserStatements(s.jobs, id, s.now);
      case RequestCancel(id) => UserStatements(s.jobs, id, s.now);
      case UserRetry(id) => UserStatements(s.jobs, id, s.now);
      case _ =>
    }
  }

  /** In every reachable state at most one transcode per entry and at most one download is running,
      worker and heartbeat are set exactly on running rows and no running row is paused: even when
      leases are lost and superseded workers settle late. */
  lemma {:induction false} RunsAreSafe(s: State, ops: seq<Op>)
    requires Safe(s) && Run(s, ops)
    ensures Safe(After(s, ops))
    decreases |ops|
  {
    if ops != [] {
      StepSafe(s, ops[0]);
      RunsAreSafe(Next(s, ops[0]), ops[1..]);
    }
  }

  /* ---- Leases ---- */

  /** Every worker with an unsettled execution has beaten within the stale threshold. */
  ghost predicate BeatsInTime(s: State) {
    forall x: nat :: Live(s, x) && s.executions[x].worker in s.beats ==>
      s.now - STALE_AFTER <= s.beats[s.executions[x].worker]
  }

  /** Whenever stale jobs are reclaimed, the beats are in time. */
  ghost predicate Punctual(s: State, ops: seq<Op>)
    requires Run(s, ops)
    decreases |ops|
  {
    ops == [] || ((ops[0].Reclaim? ==> BeatsInTime(s)) && Punctual(Next(s, ops[0]), ops[1..]))
  }

  /** Execution `x` holds its job: the row (unless deleted) runs, is its worker's, and was refreshed
      at least as recently as the worker beat. */
  ghost predicate Holds(s: State, x: nat)
    requires x < |s.executions|
  {
    var e := s.executions[x];
    && e.worker in s.beats && s.beats[e.worker] <= s.now && e.job < s.nextId
    && (e.job in s.jobs ==>
          && s.jobs[e.job].status.Running? && s.jobs[e.job].worker == Some(e.worker)
          && s.jobs[e.job].heartbeatAt.Some? && s.beats[e.worker] <= s.jobs[e.job].heartbeatAt.value)
  }

  ghost predicate Leased(s: State) {
    && RowsOk(s.jobs)
    && (forall id :: id in s.jobs ==> id < s.nextId)
    && (forall w :: w in s.beats ==> s.beats[w] <= s.now)
    && (forall x: nat :: Live(s, x) ==> Holds(s, x))
    && (forall x: nat, y: nat :: Live(s, x) && Live(s, y) && x != y ==> s.executions[x].job != s.executions[y].job)
  }

  lemma ClaimHolds(s: State, w: Worker, n: nat, exclude: set<Kind>, claimed: seq<nat>, x: nat)
    requires Leased(s) && Enabled(s, Claim(w, n, exclude, claimed))
    requires Live(Next(s, Claim(w, n, exclude, claimed)), x)
    ensures Holds(Next(s, Claim(w, n, exclude, claimed)), x)
    ensures x < |s.executions| ==> Live(s, x) && s.executions[x].job !in claimed
  {
    BatchRows(s.jobs, s.now, n, exclude, claimed);
    if x < |s.executions| {
      assert Live(s, x) && Holds(s, x);
    } else {
      assert claimed[x - |s.executions|] in SetOf(claimed);
    }
  }

  lemma ClaimLeased(s: State, w: Worker, n: nat, exclude: set<Kind>, claimed: seq<nat>)
    requires Leased(s) && Enabled(s, Claim(w, n, exclude, claimed))
    ensures Leased(Next(s, Claim(w, n, exclude, claimed)))
    ensures forall x: nat :: Live(s, x) ==> s.executions[x].job !in claimed
  {
    var s' := Next(s, Claim(w, n, exclude, claimed));
    BatchRows(s.jobs, s.now, n, exclude, claimed);
    forall x: nat | Live(s', x)
      ensures Holds(s', x) && (x < |s.executions| ==> Live(s, x) && s.executions[x].job !in claimed)
    {
      ClaimHolds(s, w, n, exclude, claimed, x);
    }
    forall x: nat | Live(s, x)
      ensures s.executions[x].job !in claimed
    {
      assert Live(s', x);
    }
    forall x: nat, y: nat | Live(s', x) && Live(s', y) && x < y
      ensures s'.executions[x].job != s'.executions[y].job
    {
      if y >= |s.executions| {
        assert s'.executions[y].job == claimed[y - |s.executions|];
        if x >= |s.executions| { assert s'.executions[x].job == claimed[x - |s.executions|]; }
      }
    }
  }

  lemma SettleLeased(s: State, op: Op)
    requires Leased(s) && Enabled(s, op)
    requires op.Finish? || op.Cancel? || op.ReadFail? || op.WriteFail?
    ensures Leased(Next(s, op))
  {
    StepBenign(s, op);
    var s' := Next(s, op);
    forall x: nat | Live(s', x)
      ensures Holds(s', x)
    {
      assert Live(s, x) && Holds(s, x);
    }
    assert forall x: nat :: Live(s', x) ==> Live(s, x) && s'.executions[x].job == s.executions[x].job;
  }

  lemma EnvironmentLeased(s: State, op: Op)
    requires Leased(s) && Enabled(s, op)
    requires op.Delete? || op.Reclaim? || op.Pause? || op.Resume? || op.RequestCancel? || op.UserRetry?
    requires op.Reclaim? ==> BeatsInTime(s)
    ensures Leased(Next(s, op))
  {
    StepBenign(s, op);
    var s' := Next(s, op);
    forall x: nat | Live(s', x)
      ensures Holds(s', x)
    {
      assert Live(s, x) && Holds(s, x);
    }
    assert forall x: nat :: Live(s', x) ==> Live(s, x) && s'.executions[x].job == s.executions[x].job;
  }

  lemma WorkerLeased(s: State, op: Op)
    requires Leased(s) && Enabled(s, op)
    requires op.Tick? || op.Insert? || op.Start? || op.Crash? || op.Beat?
    ensures Leased(Next(s, op))
  {
    StepBenign(s, op);
    var s' := Next(s, op);
    forall x: nat | Live(s', x)
      ensures Holds(s', x)
    {
      assert Live(s, x) && Holds(s, x);
    }
    assert forall x: nat :: Live(s', x) ==> Live(s, x) && s'.executions[x].job == s.executions[x].job;
  }

  lemma StepLeased(s: State, op: Op)
    requires Leased(s) && Enabled(s, op)
    requires op.Reclaim? ==> BeatsInTime(s)
    ensures Leased(Next(s, op))
  {
    match op {
      case Claim(w, n, exclude, claimed) => ClaimLeased(s, w, n, exclude, claimed);
      case Finish(x) => SettleLeased(s, op);
      case Cancel(x) => SettleLeased(s, op);
      case ReadFail(x) => SettleLeased(s, op);
      case WriteFail(x) => SettleLeased(s, op);
      case Tick(d) => WorkerLeased(s, op);
      case Insert(k, e, f, m, r) => WorkerLeased(s, op);
      case Start(w) => WorkerLeased(s, op);
      case Crash(w) => WorkerLeased(s, op);
      case Beat(w) => WorkerLeased(s, op);
      case _ => EnvironmentLeased(s, op);
    }
  }

  /** With punctual beats every unsettled execution holds its job in every reachable state, and no job
      is in the hands of two executions: reclaim never takes a job from a live worker. */
  lemma {:induction false} LeasesHold(s: State, ops: seq<Op>)
    requires Leased(s) && Run(s, ops) && Punctual(s, ops)
    ensures Leased(After(s, ops))
    decreases |ops|
  {
    if ops != [] {
      StepLeased(s, ops[0]);
      LeasesHold(Next(s, ops[0]), ops[1..]);
    }
  }

  /** From a claim to the write that ends it, the job is not claimed again: in any run in which
      execution `x` stays unsettled throughout, no claim returns its job. */
  lemma {:induction false} NoSecondClaim(s: State, ops: seq<Op>, x: nat, i: nat)
    requires Leased(s) && Run(s, ops) && Punctual(s, ops)
    requires i < |ops| && ops[i].Claim?
    requires Unsettled(s, ops[..i], x)
    ensures s.executions[x].job !in ops[i].claimed
    decreases |ops|
  {
    if i == 0 {
      var op := ops[0];
      ClaimLeased(s, op.w, op.n, op.exclude, op.claimed);
    } else {
      StepLeased(s, ops[0]);
      var s' := Next(s, ops[0]);
      assert ops[..i][0] == ops[0] && ops[..i][1..] == ops[1..][..i-1];
      SameJob(s, ops[0], x);
      NoSecondClaim(s', ops[1..], x, i - 1);
    }
  }

  /** Execution `x` is unsettled before and after every step of the run. */
  ghost predicate Unsettled(s: State, ops: seq<Op>, x: nat)
    decreases |ops|
  {
    Live(s, x) && (ops == [] || (Enabled(s, ops[0]) && Unsettled(Next(s, ops[0]), ops[1..], x)))
  }

  lemma SameJob(s: State, op: Op, x: nat)
    requires Leased(s) && Enabled(s, op)
    requires Live(s, x)
    ensures Next(s, op).executions[x].job == s.executions[x].job
    ensures Next(s, op).executions[x].worker == s.executions[x].worker
  {
  }

  predicate InHand(s: State, x: nat) {
    Live(s, x) && s.executions[x].job in s.jobs
  }

  function JobOf(s: State, x: nat): Job
    requires InHand(s, x)
  {
    s.jobs[s.executions[x].job]
  }

  /** Exclusion of the work itself, not only of the rows: with punctual beats no two workers ever
      transcode flavors of one entry, and no two downloads are carried out, at the same time. */
  lemma OneExecutionPerEntry(ops: seq<Op>, x: nat, y: nat)
    requires Run(Init(), ops) && Punctual(Init(), ops)
    requires x != y && InHand(After(Init(), ops), x) && InHand(After(Init(), ops), y)
    ensures !SameEntry(JobOf(After(Init(), ops), x), JobOf(After(Init(), ops), y))
    ensures !(JobOf(After(Init(), ops), x).kind.Download? && JobOf(After(Init(), ops), y).kind.Download?)
  {
    RunsAreSafe(Init(), ops);
    LeasesHold(Init(), ops);
    var s := After(Init(), ops);
    assert Holds(s, x) && Holds(s, y);
  }

  /** An execution that is never settled, such as one whose context ends while the encoder runs, keeps its row running
      for as long as its worker beats, and no flavor of its entry and, for a download, no download is claimed. */
  lemma UnsettledBlocksEntry(s: State, ops: seq<Op>, x: nat, w: Worker, n: nat, exclude: set<Kind>, claimed: seq<nat>)
    requires Leased(s) && Run(s, ops) && Punctual(s, ops)
    requires InHand(After(s, ops), x) && Enabled(After(s, ops), Claim(w, n, exclude, claimed))
    ensures var t := After(s, ops);
      && JobOf(t, x).status.Running? && JobOf(t, x).worker == Some(t.executions[x].worker)
      && forall c :: c in claimed ==> c in t.jobs && !SameEntry(JobOf(t, x), t.jobs[c])
                                      && !(JobOf(t, x).kind.Download? && t.jobs[c].kind.Download?)
  {
    LeasesHold(s, ops);
    var t := After(s, ops);
    assert Holds(t, x);
    var rows :| LowestIds(EligibleIds(t.jobs, t.now, exclude), n, rows) && claimed == Thin(t.jobs, rows);
    GreedyThinning(t.jobs, t.now, n, exclude, rows, claimed);
  }

  /* ---- Flavors of reclaimed jobs ---- */

  /** Reclaiming never reverts the flavor that a punctual worker is transcoding. */
  lemma ReclaimSparesLiveFlavors(s: State, x: nat, entry: int, flavors: Flavors)
    requires Leased(s) && BeatsInTime(s) && InHand(s, x)
    requires JobOf(s, x).kind.Transcode? && JobOf(s, x).entry == Some(entry)
    ensures var k := (entry, JobOf(s, x).flavor);
      k in flavors ==> Reverted(flavors, Next(s, Reclaim).jobs)[k] == flavors[k]
  {
    var s' := Next(s, Reclaim);
    StepLeased(s, Reclaim);
    assert Live(s', x) && Holds(s', x);
    assert s'.executions[x].job in s'.jobs;
  }

  /* ---- The beat is needed ---- */

  /** A reclaim takes the job of an unsettled execution exactly when the row's heartbeat has aged
      past the threshold. */
  lemma ReclaimTakes(s: State, x: nat)
    requires Leased(s) && InHand(s, x)
    ensures var id := s.executions[x].job;
      !Next(s, Reclaim).jobs[id].status.Running? <==> s.jobs[id].heartbeatAt.value < s.now - 180 * SECOND
  {
    assert Holds(s, x);
  }

  lemma {:induction false} Push(s: State, ops: seq<Op>, t: State, op: Op) returns (ops': seq<Op>, t': State)
    requires Run(s, ops) && t == After(s, ops) && Enabled(t, op)
    ensures ops' == ops + [op] && t' == Next(t, op)
    ensures Run(s, ops') && t' == After(s, ops')
    decreases |ops|
  {
    ops', t' := ops + [op], Next(t, op);
    if ops != [] {
      var _, _ := Push(Next(s, ops[0]), ops[1..], t, op);
      assert ops'[1..] == ops[1..] + [op];
    } else {
      assert ops'[1..] == [];
    }
  }

  lemma OnlyJob(t: Table, now: int, id: nat)
    requires t.Keys == {id} && t[id].status.Queued? && t[id].runAt <= now && t[id].pausedAt.None?
    ensures IsBatch(t, now, 1, {}, [id])
  {
    assert EligibleIds(t, now, {}) == {id};
    assert LowestIds(EligibleIds(t, now, {}), 1, [id]);
    assert FirstOfEntry(t, [id], 0) && [id][..0] == [];
    assert Thin(t, [id]) == [id];
  }

  /** Worker A is silent for longer than the threshold while it still works on job 1. */
  function SilentWorker(): seq<Op> {
    [Insert(Transcode, Some(7), 1, 3, 0), Start("a"), Start("b"), Claim("a", 1, {}, [1]),
     Tick(STALE_AFTER + 1), Reclaim, Tick(REQUEUE_DELAY), Claim("b", 1, {}, [1])]
  }

  /** Worker A holds job 1 at time 0, worker B idles. */
  predicate FirstClaimed(s: State) {
    && s.now == 0 && s.beats == map["a" := 0, "b" := 0] && s.executions == [Execution("a", 1, Working)]
    && s.jobs == map[1 := ClaimedRow(NewRow(Transcode, Some(7), 1, 3, 0), "a", 0)]
  }

  lemma ClaimOnce() returns (ops: seq<Op>, s: State)
    ensures ops == SilentWorker()[..4] && Run(Init(), ops) && s == After(Init(), ops) && FirstClaimed(s)
  {
    ops, s := [], Init();
    ops, s := Push(Init(), ops, s, Insert(Transcode, Some(7), 1, 3, 0));
    ops, s := Push(Init(), ops, s, Start("a"));
    ops, s := Push(Init(), ops, s, Start("b"));
    OnlyJob(s.jobs, s.now, 1);
    ops, s := Push(Init(), ops, s, Claim("a", 1, {}, [1]));
  }

  lemma LoseAndClaimAgain(ops0: seq<Op>, s0: State) returns (ops: seq<Op>, s: State)
    requires Run(Init(), ops0) && s0 == After(Init(), ops0) && FirstClaimed(s0)
    ensures ops == ops0 + SilentWorker()[4..] && Run(Init(), ops) && s == After(Init(), ops)
    ensures |s.executions| == 2 && s.executions[0] == Execution("a", 1, Working)
    ensures s.executions[1] == Execution("b", 1, Working)
  {
    ops, s := ops0, s0;
    ops, s := Push(Init(), ops, s, Tick(STALE_AFTER + 1));
    ops, s := Push(Init(), ops, s, Reclaim);
    ops, s := Push(Init(), ops, s, Tick(REQUEUE_DELAY));
    OnlyJob(s.jobs, s.now, 1);
    ops, s := Push(Init(), ops, s, Claim("b", 1, {}, [1]));
  }

  lemma SilentWorkerLosesItsJob()
    ensures Run(Init(), SilentWorker())
    ensures var s := After(Init(), SilentWorker());
      Live(s, 0) && Live(s, 1) && s.executions[0].job == s.executions[1].job
      && s.executions[0].worker != s.executions[1].worker
  {
    var ops, s := ClaimOnce();
    ops, s := LoseAndClaimAgain(ops, s);
    assert ops == SilentWorker();
  }
}
