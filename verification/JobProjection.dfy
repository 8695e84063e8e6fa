/** A run of the whole queue, seen by one of its jobs, is a run of the one-job machine of `JobLife`: so the bounds on
    how often a job is claimed hold for every job in every run of any number of workers. */
module JobProjection {
  import opened Wrappers
  import opened JobTable
  import opened JobQueue
  import opened Selection
  import Q = QueueRuns
  import L = JobLife

  /** The unsettled execution as the job sees it. */
  predicate SameExecution(e: Q.Execution, f: L.Execution) {
    match e.phase
    case Working => f.verdict.None?
    case Failing(verdict) => f.verdict == Some(verdict)
    case Settled => false
  }

  /** Job `id` of the queue is in the state of the one-job machine. */
  ghost predicate Matches(q: Q.State, l: L.State, id: nat) {
    && id in q.jobs && id < q.nextId && l.row == q.jobs[id] && l.now == q.now
    && (forall x: nat :: x in l.executions <==> Q.Live(q, x) && q.executions[x].job == id)
    && (forall x: nat :: x in l.executions ==> SameExecution(q.executions[x], l.executions[x]))
  }

  /** The steps that concern the job: its claims, its reclaims, and the user's retries of it. */
  predicate Claims(op: Q.Op, id: nat) {
    op.Claim? && id in op.claimed
  }

  predicate Reclaims(q: Q.State, op: Q.Op, id: nat) {
    op.Reclaim? && id in q.jobs && Stale(q.jobs[id], q.now, STALE_AFTER)
  }

  function ClaimsOf(ops: seq<Q.Op>, id: nat): nat {
    if ops == [] then 0 else (if Claims(ops[0], id) then 1 else 0) + ClaimsOf(ops[1..], id)
  }

  ghost function ReclaimsOf(q: Q.State, ops: seq<Q.Op>, id: nat): nat
    requires Q.Run(q, ops)
    decreases |ops|
  {
    if ops == [] then 0
    else (if Reclaims(q, ops[0], id) then 1 else 0) + ReclaimsOf(Q.Next(q, ops[0]), ops[1..], id)
  }

  /** The job's row is never deleted, and the user does not retry it. */
  predicate Undisturbed(ops: seq<Q.Op>, id: nat) {
    forall op :: op in ops ==> op != Q.Delete(id) && op != Q.UserRetry(id)
  }

  /** What one step of the queue adds to the counters of the job. */
  ghost predicate Counted(l: L.State, l': L.State, claims: nat, reclaims: nat) {
    && l'.claims == l.claims + claims && l'.reclaims == l.reclaims + reclaims && l'.carried == l.carried
    && l'.row.maxAttempts == l.row.maxAttempts
  }

  /** A batch hands the job to at most one new execution. */
  lemma ClaimMatches(q: Q.State, l: L.State, id: nat, op: Q.Op, i: nat)
    requires Matches(q, l, id) && op.Claim? && Q.Enabled(q, op) && i < |op.claimed| && op.claimed[i] == id
    requires Ascending(op.claimed) && Eligible(q.jobs, q.now, op.exclude, id)
    ensures var step := L.Claim(|q.executions| + i, op.w);
      L.Enabled(l, step) && Matches(Q.Next(q, op), L.Next(l, step), id) && Counted(l, L.Next(l, step), 1, 0)
  {
    var step := L.Claim(|q.executions| + i, op.w);
    var q', l' := Q.Next(q, op), L.Next(l, step);
    assert id in op.claimed;
    forall x: nat
      ensures x in l'.executions <==> Q.Live(q', x) && q'.executions[x].job == id
      ensures x in l'.executions ==> SameExecution(q'.executions[x], l'.executions[x])
    {
      if x < |q.executions| {
        assert q'.executions[x] == q.executions[x];
      } else if x < |q'.executions| {
        assert q'.executions[x] == Q.Execution(op.w, op.claimed[x - |q.executions|], Q.Working);
      }
    }
  }

  lemma OtherClaimMatches(q: Q.State, l: L.State, id: nat, op: Q.Op)
    requires Matches(q, l, id) && op.Claim? && Q.Enabled(q, op) && id !in op.claimed
    ensures Matches(Q.Next(q, op), l, id)
  {
    var q' := Q.Next(q, op);
    forall x: nat
      ensures x in l.executions <==> Q.Live(q', x) && q'.executions[x].job == id
    {
      if x < |q.executions| {
        assert q'.executions[x] == q.executions[x];
      } else if x < |q'.executions| {
        assert q'.executions[x].job == op.claimed[x - |q.executions|] && q'.executions[x].job in op.claimed;
      }
    }
  }

  lemma {:induction false} CrashAll(l: L.State, xs: set<nat>) returns (steps: seq<L.Op>)
    requires xs <= l.executions.Keys
    ensures L.Run(l, steps) && L.After(l, steps) == l.(executions := l.executions - xs)
    ensures L.Accounted(l) ==> L.Accounted(L.After(l, steps))
    decreases xs
  {
    steps := [];
    if xs == {} {
      assert l.executions - xs == l.executions;
    } else {
      var x :| x in xs;
      var next := L.Next(l, L.Crash(x));
      L.StepAccountedIf(l, L.Crash(x));
      var rest := CrashAll(next, xs - {x});
      steps := [L.Crash(x)] + rest;
      assert steps[1..] == rest;
      assert next.executions - (xs - {x}) == l.executions - xs;
    }
  }

  lemma CrashMatches(q: Q.State, l: L.State, id: nat, w: Worker) returns (steps: seq<L.Op>)
    requires Matches(q, l, id) && Q.Enabled(q, Q.Crash(w))
    ensures L.Run(l, steps) && Matches(Q.Next(q, Q.Crash(w)), L.After(l, steps), id)
    ensures L.Accounted(l) ==> L.Accounted(L.After(l, steps))
    ensures Counted(l, L.After(l, steps), 0, 0)
  {
    var xs := set x | x in l.executions && q.executions[x].worker == w;
    steps := CrashAll(l, xs);
  }

  /** The settling of an execution, or the first half of its failure, as the job sees it. */
  lemma SettleMatches(q: Q.State, l: L.State, id: nat, op: Q.Op, step: L.Op)
    requires Matches(q, l, id) && Q.Enabled(q, op)
    requires match op
      case Finish(x) => step == L.Finish(x)
      case Cancel(x) => step == L.Cancel(x)
      case ReadFail(x) => step == L.ReadFail(x)
      case WriteFail(x) => step == L.WriteFail(x)
      case _ => false
    ensures if q.executions[op.x].job == id then
        L.Enabled(l, step) && Matches(Q.Next(q, op), L.Next(l, step), id) && Counted(l, L.Next(l, step), 0, 0)
      else Matches(Q.Next(q, op), l, id)
  {
  }

  /** Statements on the row by its id, as the job sees them. */
  lemma RowMatches(q: Q.State, l: L.State, id: nat, op: Q.Op, step: L.Op)
    requires Matches(q, l, id)
    requires match op
      case Pause(k) => k == id && step == L.Pause
      case Resume(k) => k == id && step == L.Resume
      case RequestCancel(k) => k == id && step == L.RequestCancel
      case Tick(d) => step == L.Tick(d)
      case Reclaim => Stale(q.jobs[id], q.now, STALE_AFTER) && step == L.Reclaim
      case _ => false
    ensures L.Enabled(l, step) && Matches(Q.Next(q, op), L.Next(l, step), id)
    ensures Counted(l, L.Next(l, step), 0, if op.Reclaim? then 1 else 0)
  {
  }

  lemma BeatMatches(q: Q.State, l: L.State, id: nat, w: Worker)
    requires Matches(q, l, id) && Q.Enabled(q, Q.Beat(w))
    ensures Matches(Q.Next(q, Q.Beat(w)), L.Next(l, L.Beat(w)), id) && Counted(l, L.Next(l, L.Beat(w)), 0, 0)
  {
  }

  /** Everything else leaves the job alone. */
  lemma RestMatches(q: Q.State, l: L.State, id: nat, op: Q.Op)
    requires Matches(q, l, id) && Q.Enabled(q, op)
    requires match op
      case Pause(k) => k != id
      case Resume(k) => k != id
      case RequestCancel(k) => k != id
      case UserRetry(k) => k != id
      case Delete(k) => k != id
      case Reclaim => !Stale(q.jobs[id], q.now, STALE_AFTER)
      case Insert(_, _, _, _, _) => true
      case Start(_) => true
      case _ => false
    ensures Matches(Q.Next(q, op), l, id)
  {
  }

  /** One step of the queue is no step, one step or, in a crash, several steps of the job. */
  lemma StepProjects(q: Q.State, l: L.State, id: nat, op: Q.Op) returns (l': L.State)
    requires Matches(q, l, id) && L.Accounted(l) && Q.Enabled(q, op) && op != Q.Delete(id) && op != Q.UserRetry(id)
    ensures Matches(Q.Next(q, op), l', id) && L.Accounted(l')
    ensures Counted(l, l', if Claims(op, id) then 1 else 0, if Reclaims(q, op, id) then 1 else 0)
  {
    match op
    case Claim(_, _, _, _) => l' := ClaimProjects(q, l, id, op);
    case Crash(w) =>
      var steps := CrashMatches(q, l, id, w);
      l' := L.After(l, steps);
    case Beat(w) =>
      BeatMatches(q, l, id, w);
      l' := Stepped(l, L.Beat(w));
    case Finish(x) => l' := SettleProjects(q, l, id, op, L.Finish(x));
    case Cancel(x) => l' := SettleProjects(q, l, id, op, L.Cancel(x));
    case ReadFail(x) => l' := SettleProjects(q, l, id, op, L.ReadFail(x));
    case WriteFail(x) => l' := SettleProjects(q, l, id, op, L.WriteFail(x));
    case _ => l' := RowProjects(q, l, id, op);
  }

  lemma Stepped(l: L.State, step: L.Op) returns (l': L.State)
    requires L.Accounted(l) && L.Enabled(l, step)
    ensures l' == L.Next(l, step) && L.Accounted(l')
  {
    L.StepAccounted(l, step);
    l' := L.Next(l, step);
  }

  lemma ClaimProjects(q: Q.State, l: L.State, id: nat, op: Q.Op) returns (l': L.State)
    requires Matches(q, l, id) && L.Accounted(l) && op.Claim? && Q.Enabled(q, op)
    ensures Matches(Q.Next(q, op), l', id) && L.Accounted(l') && Counted(l, l', if Claims(op, id) then 1 else 0, 0)
  {
    var rows :| LowestIds(EligibleIds(q.jobs, q.now, op.exclude), op.n, rows) && op.claimed == Thin(q.jobs, rows);
    GreedyThinning(q.jobs, q.now, op.n, op.exclude, rows, op.claimed);
    if i :| 0 <= i < |op.claimed| && op.claimed[i] == id {
      assert op.claimed[i] in op.claimed;
      ClaimMatches(q, l, id, op, i);
      l' := Stepped(l, L.Claim(|q.executions| + i, op.w));
    } else {
      OtherClaimMatches(q, l, id, op);
      l' := l;
    }
  }

  lemma SettleProjects(q: Q.State, l: L.State, id: nat, op: Q.Op, step: L.Op) returns (l': L.State)
    requires Matches(q, l, id) && L.Accounted(l) && Q.Enabled(q, op)
    requires match op
      case Finish(x) => step == L.Finish(x)
      case Cancel(x) => step == L.Cancel(x)
      case ReadFail(x) => step == L.ReadFail(x)
      case WriteFail(x) => step == L.WriteFail(x)
      case _ => false
    ensures Matches(Q.Next(q, op), l', id) && L.Accounted(l') && Counted(l, l', 0, 0)
  {
    SettleMatches(q, l, id, op, step);
    if q.executions[op.x].job == id { l' := Stepped(l, step); } else { l' := l; }
  }

  lemma RowProjects(q: Q.State, l: L.State, id: nat, op: Q.Op) returns (l': L.State)
    requires Matches(q, l, id) && L.Accounted(l) && Q.Enabled(q, op) && op != Q.Delete(id) && op != Q.UserRetry(id)
    requires !op.Claim? && !op.Crash? && !op.Beat? && !op.Finish? && !op.Cancel? && !op.ReadFail? && !op.WriteFail?
    ensures Matches(Q.Next(q, op), l', id) && L.Accounted(l')
    ensures Counted(l, l', 0, if Reclaims(q, op, id) then 1 else 0)
  {
    var step := match op
      case Pause(k) => if k == id then Some(L.Pause) else None
      case Resume(k) => if k == id then Some(L.Resume) else None
      case RequestCancel(k) => if k == id then Some(L.RequestCancel) else None
      case Tick(d) => Some(L.Tick(d))
      case Reclaim => if Stale(q.jobs[id], q.now, STALE_AFTER) then Some(L.Reclaim) else None
      case _ => None;
    if step.Some? {
      RowMatches(q, l, id, op, step.value);
      l' := Stepped(l, step.value);
    } else {
      RestMatches(q, l, id, op);
      l' := l;
    }
  }

  /** Every run of the queue projects to a run of the job, with the same claims and reclaims. */
  lemma {:induction false} RunProjects(q: Q.State, l: L.State, id: nat, ops: seq<Q.Op>) returns (l': L.State)
    requires Matches(q, l, id) && L.Accounted(l) && Q.Run(q, ops) && Undisturbed(ops, id)
    ensures Matches(Q.After(q, ops), l', id) && L.Accounted(l')
    ensures Counted(l, l', ClaimsOf(ops, id), ReclaimsOf(q, ops, id))
    decreases |ops|
  {
    l' := l;
    if ops != [] {
      assert ops[0] in ops && forall o :: o in ops[1..] ==> o in ops;
      var next := StepProjects(q, l, id, ops[0]);
      l' := RunProjects(Q.Next(q, ops[0]), next, id, ops[1..]);
    }
  }

  /** From its insertion on, a job that the user does not retry is claimed at most `max_attempts` times plus once for
      each stale reclaim of it, in every run of any number of workers, with late and crashed ones. */
  lemma NewJobClaims(q: Q.State, id: nat, ops: seq<Q.Op>)
    requires id in q.jobs && id < q.nextId && Q.Run(q, ops) && Undisturbed(ops, id)
    requires q.jobs[id].status.Queued? && q.jobs[id].attempts == 0 && q.jobs[id].maxAttempts > 0
    requires forall x: nat :: Q.Live(q, x) ==> q.executions[x].job != id
    ensures ClaimsOf(ops, id) <= q.jobs[id].maxAttempts + ReclaimsOf(q, ops, id)
  {
    var l := L.State(q.now, q.jobs[id], map[], 0, 0, 0, 0);
    L.FreshAccounted(l);
    var l' := RunProjects(q, l, id, ops);
    L.AccountedBound(l');
  }

  /** The executions that can still re-queue the job after a user retry. */
  ghost function StillPending(q: Q.State, id: nat): set<nat> {
    set x: nat | x < |q.executions| && Q.Live(q, x) && q.executions[x].job == id
      && (q.executions[x].phase.Working? || q.executions[x].phase.verdict.Retry?)
  }

  /** From a user retry to the next, it is claimed at most that often plus once for each execution left over that
      could still re-queue it. */
  lemma RetriedJobClaims(q: Q.State, id: nat, ops: seq<Q.Op>)
    requires id in q.jobs && id < q.nextId && (q.jobs[id].status.Failed? || q.jobs[id].status.Cancelled?)
    requires q.jobs[id].maxAttempts > 0
    requires Q.Run(Q.Next(q, Q.UserRetry(id)), ops) && Undisturbed(ops, id)
    ensures ClaimsOf(ops, id)
      <= q.jobs[id].maxAttempts + ReclaimsOf(Q.Next(q, Q.UserRetry(id)), ops, id) + |StillPending(q, id)|
  {
    var q' := Q.Next(q, Q.UserRetry(id));
    var executions := map x: nat | x < |q.executions| && Q.Live(q, x) && q.executions[x].job == id ::
      L.Execution(0, if q.executions[x].phase.Working? then None else Some(q.executions[x].phase.verdict));
    var l := L.State(q'.now, q'.jobs[id], executions, 0, 0, |StillPending(q, id)|, 0);
    assert L.Pending(l) == StillPending(q, id);
    var l' := RunProjects(q', l, id, ops);
    L.AccountedBound(l');
  }
}
