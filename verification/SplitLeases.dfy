/** The leases of `QueueRuns` with `Claim` split into its statements. A claim stamps its rows with the time its
    transaction began (internal/queue/queue.go:182-185), which a wait for an advisory lock can leave far behind; the
    worker's loop, and with it the beat, stands still meanwhile. */
module SplitLeases {
  import opened Wrappers
  import opened JobTable
  import opened Selection
  import Runs = QueueRuns
  import Claims = ClaimInterleaving
  import Hazards = ClaimHazards

  datatype State = State(queue: Runs.State, claims: map<Worker, Claims.Claim>)

  /** A statement of a claim in flight, or a whole step of `QueueRuns` other than a claim. */
  datatype Op = Part(part: Claims.Op) | Whole(step: Runs.Op)

  function View(s: State): Claims.State {
    Claims.State(s.queue.now, s.queue.jobs, s.claims)
  }

  function Claimant(part: Claims.Op): Option<Worker> {
    match part
    case Begin(w, _, _, _) => Some(w)
    case Lock(w) => Some(w)
    case Select(w, _) => Some(w)
    case Update(w) => Some(w)
    case Commit(w) => Some(w)
    case Rollback(w) => Some(w)
    case Tick(_) => None
    case Other(_) => None
  }

  /** The loop of a worker either claims or beats, and statements wait for rows that a claim has locked. */
  ghost predicate Enabled(s: State, op: Op) {
    match op
    case Part(part) => Claimant(part).Some? && Claimant(part).value in s.queue.beats && Claims.Enabled(View(s), part)
    case Whole(step) =>
      && !step.Claim? && Runs.Enabled(s.queue, step)
      && (step.Beat? ==> step.w !in s.claims)
      && Claims.Elsewhere(View(s), Runs.Next(s.queue, step).jobs)
  }

  ghost function Next(s: State, op: Op): State
    requires Enabled(s, op)
  {
    match op
    case Part(part) =>
      var v := Claims.Next(View(s), part);
      var executions :=
        if part.Commit? then s.queue.executions + Runs.Handed(part.w, s.claims[part.w].phase.ids) else s.queue.executions;
      State(s.queue.(jobs := v.jobs, executions := executions), v.claims)
    case Whole(step) =>
      State(Runs.Next(s.queue, step), if step.Crash? then s.claims - {step.w} else s.claims)
  }

  ghost predicate Run(s: State, ops: seq<Op>)
    decreases |ops|
  {
    ops == [] || (Enabled(s, ops[0]) && Run(Next(s, ops[0]), ops[1..]))
  }

  ghost function After(s: State, ops: seq<Op>): State
    requires Run(s, ops)
    decreases |ops|
  {
    if ops == [] then s else After(Next(s, ops[0]), ops[1..])
  }

  /* ---- Leases ---- */

  /** What a claim in flight knows of its rows: nobody else can start or lock them. */
  ghost predicate Reserved(t: Table, c: Claims.Claim) {
    && (forall r :: r in Claims.RowsOf(c) ==> r in t && t[r].status.Queued? && t[r].pausedAt.None?)
    && (c.phase.Selected? ==> Ascending(c.phase.rows))
    && (c.phase.Updated? ==> Ascending(c.phase.ids) && forall id :: id in c.phase.ids ==> id in c.phase.rows)
  }

  ghost predicate Disjoint(claims: map<Worker, Claims.Claim>) {
    forall v, w, r :: v in claims && w in claims && r in Claims.RowsOf(claims[v]) && r in Claims.RowsOf(claims[w]) ==> v == w
  }

  /** Since the claim began its worker has not beaten. */
  predicate BegunAfterBeat(q: Runs.State, w: Worker, c: Claims.Claim) {
    w in q.beats && q.beats[w] <= c.start <= q.now
  }

  /** The leases of the executions, and for every claim in flight its reserved rows and the beat before its start. */
  ghost predicate Leased(s: State) {
    && Runs.Leased(s.queue) && Disjoint(s.claims)
    && (forall w :: w in s.claims ==> BegunAfterBeat(s.queue, w, s.claims[w]))
    && (forall w :: w in s.claims ==> Reserved(s.queue.jobs, s.claims[w]))
  }

  lemma WholeLeased(s: State, step: Runs.Op)
    requires Leased(s) && Enabled(s, Whole(step))
    requires step.Reclaim? ==> Runs.BeatsInTime(s.queue)
    ensures Leased(Next(s, Whole(step)))
  {
    Runs.StepLeased(s.queue, step);
    var s' := Next(s, Whole(step));
    forall w | w in s'.claims
      ensures Reserved(s'.queue.jobs, s'.claims[w])
    {
      assert Reserved(s.queue.jobs, s.claims[w]);
      forall r | r in Claims.RowsOf(s.claims[w])
        ensures r in s'.queue.jobs && s'.queue.jobs[r] == s.queue.jobs[r]
      {
        assert Claims.RowLocked(View(s), r);
      }
    }
    BeatsStay(s, step);
  }

  /** A beat is only sent by a worker that is not claiming. */
  lemma BeatsStay(s: State, step: Runs.Op)
    requires Leased(s) && Enabled(s, Whole(step))
    ensures var s' := Next(s, Whole(step));
      forall w :: w in s'.claims ==> BegunAfterBeat(s'.queue, w, s'.claims[w])
  {
    var s' := Next(s, Whole(step));
    forall w | w in s'.claims
      ensures BegunAfterBeat(s'.queue, w, s'.claims[w])
    {
      assert BegunAfterBeat(s.queue, w, s.claims[w]);
    }
  }

  lemma SelectLeased(s: State, w: Worker, rows: seq<nat>)
    requires Leased(s) && Enabled(s, Part(Claims.Op.Select(w, rows)))
    ensures Leased(Next(s, Part(Claims.Op.Select(w, rows))))
  {
    forall r | r in rows
      ensures r in s.queue.jobs && s.queue.jobs[r].status.Queued? && s.queue.jobs[r].pausedAt.None?
      ensures !Claims.RowLocked(View(s), r)
    {
      assert r in Claims.Unlocked(View(s), s.claims[w]);
    }
  }

  lemma UpdateLeased(s: State, w: Worker)
    requires Leased(s) && Enabled(s, Part(Claims.Update(w)))
    ensures Leased(Next(s, Part(Claims.Update(w))))
  {
    var rows := s.claims[w].phase.rows;
    ThinAscending(s.queue.jobs, rows);
    forall id | id in Thin(s.queue.jobs, rows)
      ensures id in rows
    {
      ThinMembers(s.queue.jobs, rows, id);
    }
    var s' := Next(s, Part(Claims.Update(w)));
    assert Reserved(s.queue.jobs, s.claims[w]);
    assert Reserved(s'.queue.jobs, s'.claims[w]);
    assert forall v :: v in s'.claims ==> v in s.claims && Claims.RowsOf(s'.claims[v]) == Claims.RowsOf(s.claims[v]);
  }

  lemma PlainLeased(s: State, part: Claims.Op)
    requires Leased(s) && Enabled(s, Part(part)) && (part.Begin? || part.Lock? || part.Rollback?)
    ensures Leased(Next(s, Part(part)))
  {
    var s' := Next(s, Part(part));
    assert s'.queue == s.queue;
    forall v | v in s'.claims
      ensures Reserved(s.queue.jobs, s'.claims[v]) && BegunAfterBeat(s.queue, v, s'.claims[v])
      ensures Claims.RowsOf(s'.claims[v]) != [] ==> v in s.claims && s'.claims[v] == s.claims[v]
    {
      if v in s.claims && s'.claims[v] == s.claims[v] { assert Reserved(s.queue.jobs, s.claims[v]); }
    }
  }

  /** The executions a commit hands out hold their rows: the stamp of the claim's start is no older than the beat. */
  lemma HandedHold(s: State, w: Worker, x: nat)
    requires Leased(s) && Enabled(s, Part(Claims.Commit(w)))
    ensures var s' := Next(s, Part(Claims.Commit(w)));
      Runs.Live(s'.queue, x) ==> Runs.Holds(s'.queue, x)
    ensures Runs.Live(s.queue, x) ==> s.queue.executions[x].job !in s.claims[w].phase.ids
  {
    var ids := s.claims[w].phase.ids;
    var s' := Next(s, Part(Claims.Commit(w)));
    assert Reserved(s.queue.jobs, s.claims[w]) && BegunAfterBeat(s.queue, w, s.claims[w]);
    if x < |s.queue.executions| {
      if Runs.Live(s.queue, x) { assert Runs.Holds(s.queue, x); }
    } else if Runs.Live(s'.queue, x) {
      var id := ids[x - |s.queue.executions|];
      assert id in ids && id in SetOf(ids);
      assert s'.queue.executions[x] == Runs.Execution(w, id, Runs.Working);
      assert s'.queue.jobs[id] == ClaimedRow(s.queue.jobs[id], w, s.claims[w].start);
    }
  }

  lemma HandedDistinct(s: State, w: Worker, x: nat, y: nat)
    requires Leased(s) && Enabled(s, Part(Claims.Commit(w)))
    ensures var q := Next(s, Part(Claims.Commit(w))).queue;
      Runs.Live(q, x) && Runs.Live(q, y) && x < y ==> q.executions[x].job != q.executions[y].job
  {
    var ids := s.claims[w].phase.ids;
    var q := Next(s, Part(Claims.Commit(w))).queue;
    HandedHold(s, w, x);
    if Runs.Live(q, x) && Runs.Live(q, y) && x < y {
      var n := |s.queue.executions|;
      assert Reserved(s.queue.jobs, s.claims[w]);
      if y < n {
        assert Runs.Live(s.queue, x) && Runs.Live(s.queue, y);
      } else if x < n {
        assert Runs.Live(s.queue, x) && q.executions[y].job == ids[y - n];
      } else {
        assert q.executions[x].job == ids[x - n] && q.executions[y].job == ids[y - n];
      }
    }
  }

  lemma CommittedClaims(s: State, w: Worker)
    requires Leased(s) && Enabled(s, Part(Claims.Commit(w)))
    ensures var s' := Next(s, Part(Claims.Commit(w)));
      && RowsOk(s'.queue.jobs) && Disjoint(s'.claims)
      && forall v :: v in s'.claims ==> Reserved(s'.queue.jobs, s'.claims[v])
  {
    var s' := Next(s, Part(Claims.Commit(w)));
    assert Reserved(s.queue.jobs, s.claims[w]);
    forall v | v in s'.claims
      ensures Reserved(s'.queue.jobs, s'.claims[v])
    {
      assert Reserved(s.queue.jobs, s.claims[v]);
      assert forall r :: r in Claims.RowsOf(s.claims[v]) ==> r !in s.claims[w].phase.ids;
    }
  }

  lemma CommitLeased(s: State, w: Worker)
    requires Leased(s) && Enabled(s, Part(Claims.Commit(w)))
    ensures Leased(Next(s, Part(Claims.Commit(w))))
  {
    var s' := Next(s, Part(Claims.Commit(w)));
    CommittedClaims(s, w);
    forall x: nat
      ensures Runs.Live(s'.queue, x) ==> Runs.Holds(s'.queue, x)
    {
      HandedHold(s, w, x);
    }
    forall x: nat, y: nat
      ensures Runs.Live(s'.queue, x) && Runs.Live(s'.queue, y) && x < y ==>
        s'.queue.executions[x].job != s'.queue.executions[y].job
    {
      HandedDistinct(s, w, x, y);
    }
  }

  /** A reclaim finds every worker that has work in hand punctual; a claim that has waited past the threshold counts
      as silence from the moment it hands out its rows. */
  ghost predicate Timely(s: State, op: Op) {
    op.Whole? && op.step.Reclaim? ==> Runs.BeatsInTime(s.queue)
  }

  lemma StepLeased(s: State, op: Op)
    requires Leased(s) && Enabled(s, op) && Timely(s, op)
    ensures Leased(Next(s, op))
  {
    match op
    case Whole(step) => WholeLeased(s, step);
    case Part(part) =>
      match part
      case Select(w, rows) => SelectLeased(s, w, rows);
      case Update(w) => UpdateLeased(s, w);
      case Commit(w) => CommitLeased(s, w);
      case _ => PlainLeased(s, part);
  }

  ghost predicate Punctual(s: State, ops: seq<Op>)
    requires Run(s, ops)
    decreases |ops|
  {
    ops == [] || (Timely(s, ops[0]) && Punctual(Next(s, ops[0]), ops[1..]))
  }

  /** However the statements of any number of claims interleave, and however long they wait for each other: with
      punctual beats every unsettled execution holds its job, and no job is in two hands. */
  lemma {:induction false} SplitLeasesHold(s: State, ops: seq<Op>)
    requires Leased(s) && Run(s, ops) && Punctual(s, ops)
    ensures Leased(After(s, ops))
    decreases |ops|
  {
    if ops != [] {
      StepLeased(s, ops[0]);
      SplitLeasesHold(Next(s, ops[0]), ops[1..]);
    }
  }

  /** No claim in flight hands out, at its commit, a job that is still in hand. */
  lemma CommitsNothingInHand(s: State, ops: seq<Op>, w: Worker, x: nat)
    requires Leased(s) && Run(s, ops) && Punctual(s, ops)
    requires var t := After(s, ops); Enabled(t, Part(Claims.Commit(w))) && Runs.Live(t.queue, x)
    ensures var t := After(s, ops); t.queue.executions[x].job !in t.claims[w].phase.ids
  {
    SplitLeasesHold(s, ops);
    HandedHold(After(s, ops), w, x);
  }

  /* ---- Exclusion of the work ---- */

  /** The hypotheses of `ClaimInterleaving`, on the claims among the steps. */
  ghost predicate Shielded(s: State, op: Op)
    requires Enabled(s, op)
  {
    match op
    case Part(part) => Claims.Covered(View(s), part)
    case Whole(step) => Claims.NoOvertaking(View(s), Claims.Other(Runs.Next(s.queue, step).jobs))
  }

  ghost predicate AlwaysShielded(s: State, ops: seq<Op>)
    requires Run(s, ops)
    decreases |ops|
  {
    ops == [] || (Shielded(s, ops[0]) && AlwaysShielded(Next(s, ops[0]), ops[1..]))
  }

  ghost predicate Exclusive(s: State) {
    Claims.Inv(View(s)) && Claims.DownloadInv(View(s))
  }

  lemma ExclusivePart(s: State, part: Claims.Op)
    requires Exclusive(s) && Enabled(s, Part(part)) && Claims.Covered(View(s), part)
    ensures Exclusive(Next(s, Part(part)))
  {
    Claims.StepInv(View(s), part);
    Claims.StepDownloadInv(View(s), part);
  }

  /** What the claims see of a whole step: the table changes, the clock may move, and a crash rolls the worker's own
      claim back. */
  function Seen(v: Claims.State, t: Runs.State, gone: set<Worker>): Claims.State {
    Claims.State(t.now, t.jobs, v.claims - gone)
  }

  lemma SeenInv(v: Claims.State, t: Runs.State, gone: set<Worker>)
    requires Claims.Inv(v.(jobs := t.jobs))
    ensures Claims.Inv(Seen(v, t, gone))
  {
    var was, next := v.(jobs := t.jobs), Seen(v, t, gone);
    forall w | w in next.claims
      ensures Claims.Thinned(next, next.claims[w])
      ensures forall r :: r in Claims.RowsOf(next.claims[w]) ==> Claims.Guarded(next, next.claims[w], r)
    {
      assert Claims.Thinned(was, was.claims[w]);
      assert forall r :: r in Claims.RowsOf(was.claims[w]) ==> Claims.Guarded(was, was.claims[w], r);
    }
  }

  lemma SeenDownloadInv(v: Claims.State, t: Runs.State, gone: set<Worker>)
    requires Claims.DownloadInv(v.(jobs := t.jobs))
    ensures Claims.DownloadInv(Seen(v, t, gone))
  {
  }

  lemma SeenExclusive(v: Claims.State, t: Runs.State, gone: set<Worker>)
    requires Claims.Inv(v) && Claims.DownloadInv(v)
    requires Claims.Elsewhere(v, t.jobs) && Claims.NoOvertaking(v, Claims.Other(t.jobs))
    ensures Claims.Inv(Seen(v, t, gone)) && Claims.DownloadInv(Seen(v, t, gone))
  {
    Claims.OtherInv(v, t.jobs);
    Claims.OtherDownloadInv(v, t.jobs);
    SeenInv(v, t, gone);
    SeenDownloadInv(v, t, gone);
  }

  lemma ViewOfWhole(s: State, step: Runs.Op)
    requires Enabled(s, Whole(step))
    ensures View(Next(s, Whole(step)))
      == Seen(View(s), Runs.Next(s.queue, step), if step.Crash? then {step.w} else {})
  {
  }

  lemma StepExclusive(s: State, op: Op)
    requires Exclusive(s) && Enabled(s, op) && Shielded(s, op)
    ensures Exclusive(Next(s, op))
  {
    match op
    case Part(part) => ExclusivePart(s, part);
    case Whole(step) =>
      ViewOfWhole(s, step);
      SeenExclusive(View(s), Runs.Next(s.queue, step), if step.Crash? then {step.w} else {});
  }

  lemma {:induction false} SplitRunsAreExclusive(s: State, ops: seq<Op>)
    requires Exclusive(s) && Run(s, ops) && AlwaysShielded(s, ops)
    ensures Exclusive(After(s, ops))
    decreases |ops|
  {
    if ops != [] {
      StepExclusive(s, ops[0]);
      SplitRunsAreExclusive(Next(s, ops[0]), ops[1..]);
    }
  }

  function Init(): State {
    State(Runs.Init(), map[])
  }

  lemma InitHolds()
    ensures Leased(Init()) && Exclusive(Init())
  {
  }

  /** The work itself is exclusive under split claims: no two executions in hand are transcodes of one entry or both
      downloads. */
  lemma SplitOneExecutionPerEntry(ops: seq<Op>, x: nat, y: nat)
    requires Run(Init(), ops) && Punctual(Init(), ops) && AlwaysShielded(Init(), ops)
    requires var q := After(Init(), ops).queue; x != y && Runs.InHand(q, x) && Runs.InHand(q, y)
    ensures var q := After(Init(), ops).queue;
      && !SameEntry(Runs.JobOf(q, x), Runs.JobOf(q, y))
      && !(Runs.JobOf(q, x).kind.Download? && Runs.JobOf(q, y).kind.Download?)
  {
    InitHolds();
    SplitLeasesHold(Init(), ops);
    SplitRunsAreExclusive(Init(), ops);
    var q := After(Init(), ops).queue;
    assert Runs.Holds(q, x) && Runs.Holds(q, y);
  }

  /* ---- A claim that waits too long ---- */

  /** A reclaim touches no row that a claim has locked, so it never waits. */
  lemma ReclaimNeverWaits(s: State)
    requires Leased(s)
    ensures Enabled(s, Whole(Runs.Reclaim))
  {
    TableStatements(s.queue.jobs, "", s.queue.now, STALE_AFTER);
    forall id | Claims.RowLocked(View(s), id) && id in s.queue.jobs
      ensures !Stale(s.queue.jobs[id], s.queue.now, STALE_AFTER)
    {
      var w :| w in s.claims && id in Claims.RowsOf(s.claims[w]);
      assert Reserved(s.queue.jobs, s.claims[w]);
    }
  }

  /** The rows of a claim are as old as its transaction: a reclaim right after the commit takes them back exactly if
      the claim has been under way for longer than the threshold. */
  lemma BornStaleExactly(s: State, w: Worker, id: nat)
    requires Leased(s) && Enabled(s, Part(Claims.Commit(w))) && id in s.claims[w].phase.ids
    ensures var t := Next(s, Part(Claims.Commit(w)));
      && id in t.queue.jobs && t.queue.jobs[id].status.Running? && t.queue.jobs[id].worker == Some(w)
      && Enabled(t, Whole(Runs.Reclaim))
      && (!Next(t, Whole(Runs.Reclaim)).queue.jobs[id].status.Running? <==> s.claims[w].start < s.queue.now - 180 * SECOND)
  {
    assert Reserved(s.queue.jobs, s.claims[w]);
    assert id in SetOf(s.claims[w].phase.ids);
    CommitLeased(s, w);
    var t := Next(s, Part(Claims.Commit(w)));
    ReclaimNeverWaits(t);
    assert t.queue.jobs[id] == ClaimedRow(s.queue.jobs[id], w, s.claims[w].start);
  }

  /* ---- A claim that meets nobody ---- */

  ghost predicate Reaches(s: State, ops: seq<Op>, t: State) {
    Run(s, ops) && t == After(s, ops)
  }

  lemma {:induction false} Extend(s: State, ops: seq<Op>, t: State, op: Op)
    requires Reaches(s, ops, t) && Enabled(t, op)
    ensures Reaches(s, ops + [op], Next(t, op))
    decreases |ops|
  {
    if ops == [] {
      assert [] + [op] == [op] && [op][1..] == [];
    } else {
      Extend(Next(s, ops[0]), ops[1..], t, op);
      assert (ops + [op])[1..] == ops[1..] + [op];
    }
  }

  /** Alone at its locks, a claim passes them one by one. */
  lemma {:induction false} LocksPass(s: State, ops0: seq<Op>, t: State, w: Worker) returns (ops: seq<Op>, u: State)
    requires Reaches(s, ops0, t) && t.claims.Keys == {w} && t.claims[w].phase.Locking? && w in t.queue.beats
    requires Claims.Increasing(t.claims[w].phase.todo)
    requires forall e :: e in t.claims[w].phase.todo ==> e !in t.claims[w].held
    ensures Reaches(s, ops, u) && u.queue == t.queue && u.claims.Keys == {w}
    ensures u.claims[w] == t.claims[w].(phase := Claims.Locking([]), held := u.claims[w].held)
    decreases |t.claims[w].phase.todo|
  {
    ops, u := ops0, t;
    var todo := t.claims[w].phase.todo;
    if todo != [] {
      var op := Part(Claims.Lock(w));
      assert !Claims.Held(View(t), todo[0]);
      Extend(s, ops, u, op);
      ops, u := ops + [op], Next(u, op);
      assert u.claims[w].phase.todo == todo[1..] && forall i :: 0 <= i < |todo[1..]| ==> todo[1..][i] == todo[i + 1];
      assert forall e :: e in todo[1..] ==> e in todo && todo[0] < e;
      ops, u := LocksPass(s, ops, u, w);
    }
  }

  /** With no other claim in flight the statements of a claim, one after the other and with no time passing, do what the
      claim of `QueueRuns` does in one step, whatever batch that returns. */
  lemma SplitClaimIsClaim(s: State, w: Worker, n: nat, exclude: set<Kind>, claimed: seq<nat>) returns (ops: seq<Op>)
    requires s.claims == map[] && Runs.Enabled(s.queue, Runs.Op.Claim(w, n, exclude, claimed))
    ensures Run(s, ops) && After(s, ops) == State(Runs.Next(s.queue, Runs.Op.Claim(w, n, exclude, claimed)), map[])
  {
    var rows :| LowestIds(EligibleIds(s.queue.jobs, s.queue.now, exclude), n, rows) && claimed == Thin(s.queue.jobs, rows);
    var t;
    ops, t := BeginsAndLocks(s, w, n, exclude);
    ops, t := SelectsAndCommits(s, ops, t, w, n, exclude, rows);
  }

  lemma BeginsAndLocks(s: State, w: Worker, n: nat, exclude: set<Kind>) returns (ops: seq<Op>, t: State)
    requires s.claims == map[] && w in s.queue.beats
    ensures Reaches(s, ops, t) && t.queue == s.queue && t.claims.Keys == {w}
    ensures t.claims[w] == Claims.Claim.Claim(s.queue.now, n, exclude, t.claims[w].held, Claims.Locking([]))
  {
    var jobs, now := s.queue.jobs, s.queue.now;
    var todo := Hazards.Listing(set id | id in jobs && Hazards.IsTranscode(jobs[id]) && jobs[id].status.Queued? && jobs[id].runAt <= now
      :: jobs[id].entry.value);
    forall e
      ensures e in todo <==> Claims.Candidate(jobs, now, e)
    {
      if id :| id in jobs && jobs[id].kind.Transcode? && jobs[id].status.Queued? && jobs[id].runAt <= now && jobs[id].entry == Some(e) {
        assert Hazards.IsTranscode(jobs[id]) && jobs[id].entry.value == e;
      }
    }
    var op := Part(Claims.Begin(w, n, exclude, todo));
    assert Reaches(s, [], s);
    Extend(s, [], s, op);
    ops, t := LocksPass(s, [] + [op], Next(s, op), w);
  }

  lemma SelectsAndCommits(s: State, ops0: seq<Op>, t: State, w: Worker, n: nat, exclude: set<Kind>, rows: seq<nat>)
    returns (ops: seq<Op>, u: State)
    requires Reaches(s, ops0, t) && t.claims.Keys == {w} && w in t.queue.beats
    requires t.claims[w] == Claims.Claim.Claim(t.queue.now, n, exclude, t.claims[w].held, Claims.Locking([]))
    requires LowestIds(EligibleIds(t.queue.jobs, t.queue.now, exclude), n, rows)
    ensures Reaches(s, ops, u) && u.claims == map[]
    ensures u.queue == Runs.Next(t.queue, Runs.Op.Claim(w, n, exclude, Thin(t.queue.jobs, rows)))
  {
    assert Claims.Unlocked(View(t), t.claims[w]) == EligibleIds(t.queue.jobs, t.queue.now, exclude);
    var select := Part(Claims.Op.Select(w, rows));
    Extend(s, ops0, t, select);
    ops, u := ops0 + [select], Next(t, select);
    if rows == [] {
      assert u.queue.jobs == MarkClaimed(t.queue.jobs, SetOf([]), w, t.queue.now);
      assert u.queue.executions == t.queue.executions + Runs.Handed(w, []);
    } else {
      var update, commit := Part(Claims.Update(w)), Part(Claims.Commit(w));
      Extend(s, ops, u, update);
      ops, u := ops + [update], Next(u, update);
      Extend(s, ops, u, commit);
      ops, u := ops + [commit], Next(u, commit);
    }
  }
}
