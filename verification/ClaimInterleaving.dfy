/** `Claim` split into its statements, with any number of workers interleaved
    (internal/queue/queue.go:67-192). Each statement sees a fresh snapshot of the committed
    table; `now()` is fixed at the start of the transaction; FOR UPDATE SKIP LOCKED passes over
    rows another claim has locked; the claim's own UPDATE becomes visible when it commits. */
module ClaimInterleaving {
  import opened Wrappers
  import opened JobTable
  import opened Selection

  datatype Phase =
    | Locking(todo: seq<int>)
    | Selected(rows: seq<nat>)
    | Updated(rows: seq<nat>, ids: seq<nat>)

  datatype Claim = Claim(start: int, n: nat, exclude: set<Kind>, held: set<int>, phase: Phase)

  datatype State = State(now: int, jobs: Table, claims: map<Worker, Claim>)

  /** `Other` is any statement of someone else: what it may do is stated by `Elsewhere`. */
  datatype Op =
    | Tick(d: nat)
    | Begin(w: Worker, n: nat, exclude: set<Kind>, todo: seq<int>)
    | Lock(w: Worker)
    | Select(w: Worker, rows: seq<nat>)
    | Update(w: Worker)
    | Commit(w: Worker)
    | Rollback(w: Worker)
    | Other(jobs: Table)

  function RowsOf(c: Claim): seq<nat> {
    match c.phase
    case Locking(_) => []
    case Selected(rows) => rows
    case Updated(rows, _) => rows
  }

  ghost predicate RowLocked(s: State, id: nat) {
    exists w :: w in s.claims && id in RowsOf(s.claims[w])
  }

  ghost predicate Held(s: State, entry: int) {
    exists w :: w in s.claims && entry in s.claims[w].held
  }

  /** The first statement: entries that have a due queued transcode. */
  ghost predicate Candidate(t: Table, now: int, entry: int) {
    exists id :: id in t && t[id].kind.Transcode? && t[id].status.Queued? && t[id].runAt <= now && t[id].entry == Some(entry)
  }

  predicate Increasing(xs: seq<int>) {
    forall i, j :: 0 <= i < j < |xs| ==> xs[i] < xs[j]
  }

  /** A statement of another transaction leaves locked rows alone, starts nothing, and never changes
      what a row is about. */
  ghost predicate Elsewhere(s: State, t: Table) {
    && Benign(s.jobs, t)
    && (forall id :: RowLocked(s, id) && id in s.jobs ==> id in t && t[id] == s.jobs[id])
    && (forall id :: id in s.jobs && id in t ==> s.jobs[id].kind == t[id].kind && s.jobs[id].entry == t[id].entry)
  }

  ghost predicate Open(s: State, c: Claim) {
    c.phase.Locking? && c.phase.todo == []
  }

  ghost predicate Enabled(s: State, op: Op) {
    match op
    case Tick(d) => true
    case Begin(w, n, exclude, todo) =>
      && w !in s.claims && Increasing(todo)
      && forall e :: e in todo <==> Candidate(s.jobs, s.now, e)
    case Lock(w) =>
      && w in s.claims && s.claims[w].phase.Locking? && s.claims[w].phase.todo != []
      && !Held(s, s.claims[w].phase.todo[0])
    case Select(w, rows) =>
      && w in s.claims && Open(s, s.claims[w])
      && LowestIds(Unlocked(s, s.claims[w]), s.claims[w].n, rows)
    case Update(w) =>
      && w in s.claims && s.claims[w].phase.Selected?
      && forall r :: r in s.claims[w].phase.rows ==> r in s.jobs
    case Commit(w) => w in s.claims && s.claims[w].phase.Updated?
    case Rollback(w) => w in s.claims
    case Other(t) => Elsewhere(s, t)
  }

  ghost function Unlocked(s: State, c: Claim): set<nat> {
    set id | id in EligibleIds(s.jobs, c.start, c.exclude) && !RowLocked(s, id)
  }

  ghost function Next(s: State, op: Op): State
    requires Enabled(s, op)
  {
    match op
    case Tick(d) => s.(now := s.now + d)
    case Begin(w, n, exclude, todo) => s.(claims := s.claims[w := Claim(s.now, n, exclude, {}, Locking(todo))])
    case Lock(w) =>
      var c := s.claims[w];
      s.(claims := s.claims[w := c.(held := c.held + {c.phase.todo[0]}, phase := Locking(c.phase.todo[1..]))])
    case Select(w, rows) =>
      if rows == [] then s.(claims := s.claims - {w})
      else s.(claims := s.claims[w := s.claims[w].(phase := Selected(rows))])
    case Update(w) =>
      var rows := s.claims[w].phase.rows;
      s.(claims := s.claims[w := s.claims[w].(phase := Updated(rows, Thin(s.jobs, rows)))])
    case Commit(w) =>
      var c := s.claims[w];
      s.(jobs := MarkClaimed(s.jobs, SetOf(c.phase.ids), w, c.start), claims := s.claims - {w})
    case Rollback(w) => s.(claims := s.claims - {w})
    case Other(t) => s.(jobs := t)
  }

  ghost predicate Run(s: State, ops: seq<Op>)
    decreases |ops|
  {
    ops == [] || (Enabled(s, ops[0]) && Run(Next(s, ops[0]), ops[1..]))
  }

  ghost function After(s: State, ops: seq<Op>): State
    requires Run(s, ops)
    decreases |ops|
  {
    if ops == [] then s else After(Next(s, ops[0]), ops[1..])
  }

  /* ---- No entry runs two transcodes ---- */

  /** Every transcode row the SELECT returned belongs to an entry whose advisory lock the claim holds. */
  ghost predicate Covered(s: State, op: Op) {
    op.Select? && op.w in s.claims ==>
      forall r :: r in op.rows && r in s.jobs && s.jobs[r].kind.Transcode? && s.jobs[r].entry.Some? ==>
        s.jobs[r].entry.value in s.claims[op.w].held
  }

  ghost predicate AlwaysCovered(s: State, ops: seq<Op>)
    requires Run(s, ops)
    decreases |ops|
  {
    ops == [] || (Covered(s, ops[0]) && AlwaysCovered(Next(s, ops[0]), ops[1..]))
  }

  /** Row `r` is the claim's to start: queued, its entry locked by the claim and idle. */
  ghost predicate Guarded(s: State, c: Claim, r: nat) {
    && r in s.jobs && s.jobs[r].status.Queued? && s.jobs[r].pausedAt.None?
    && (s.jobs[r].kind.Transcode? && s.jobs[r].entry.Some? ==> s.jobs[r].entry.value in c.held)
    && (forall k :: k in s.jobs && s.jobs[k].status.Running? ==> !SameEntry(s.jobs[r], s.jobs[k]))
  }

  ghost predicate Thinned(s: State, c: Claim) {
    c.phase.Updated? ==>
      && (forall id :: id in c.phase.ids ==> id in c.phase.rows)
      && (forall a, b :: a in c.phase.ids && b in c.phase.ids && a != b && a in s.jobs && b in s.jobs ==>
            !SameEntry(s.jobs[a], s.jobs[b]))
  }

  ghost predicate Inv(s: State) {
    && RowsOk(s.jobs) && OnePerEntry(s.jobs)
    && (forall v, w :: v in s.claims && w in s.claims && v != w ==> s.claims[v].held !! s.claims[w].held)
    && (forall v, w, r :: v in s.claims && w in s.claims && r in RowsOf(s.claims[v]) && r in RowsOf(s.claims[w]) ==> v == w)
    && (forall w, r :: w in s.claims && r in RowsOf(s.claims[w]) ==> Guarded(s, s.claims[w], r))
    && (forall w :: w in s.claims ==> Thinned(s, s.claims[w]))
  }

  lemma SelectInv(s: State, w: Worker, rows: seq<nat>)
    requires Inv(s) && Enabled(s, Select(w, rows)) && Covered(s, Select(w, rows))
    ensures Inv(Next(s, Select(w, rows)))
  {
    var s' := Next(s, Select(w, rows));
    forall r | r in rows
      ensures Guarded(s, s.claims[w], r) && !RowLocked(s, r)
    {
      assert r in Unlocked(s, s.claims[w]);
    }
    forall v, r | v in s'.claims && r in RowsOf(s'.claims[v])
      ensures Guarded(s', s'.claims[v], r)
    {
      assert v != w ==> Guarded(s, s.claims[v], r);
    }
  }

  lemma UpdateInv(s: State, w: Worker)
    requires Inv(s) && Enabled(s, Update(w))
    ensures Inv(Next(s, Update(w)))
  {
    var c := s.claims[w];
    var s' := Next(s, Update(w));
    ThinIsThinned(s, s'.claims[w], c.phase.rows);
    forall v | v in s'.claims
      ensures v in s.claims && RowsOf(s'.claims[v]) == RowsOf(s.claims[v]) && s'.claims[v].held == s.claims[v].held
      ensures Thinned(s', s'.claims[v])
    {
      if v != w { assert Thinned(s, s.claims[v]); }
    }
    forall v, r | v in s'.claims && r in RowsOf(s'.claims[v])
      ensures Guarded(s', s'.claims[v], r)
    {
      assert Guarded(s, s.claims[v], r);
    }
  }

  lemma ThinIsThinned(s: State, c: Claim, rows: seq<nat>)
    requires forall r :: r in rows ==> r in s.jobs
    requires c.phase == Updated(rows, Thin(s.jobs, rows))
    ensures Thinned(s, c)
  {
    forall id | id in c.phase.ids
      ensures id in rows
    {
      ThinMembers(s.jobs, rows, id);
    }
    forall a, b | a in c.phase.ids && b in c.phase.ids && a != b
      ensures !SameEntry(s.jobs[a], s.jobs[b])
    {
      ThinDistinct(s.jobs, rows, a, b);
    }
  }

  lemma CommitInv(s: State, w: Worker)
    requires Inv(s) && Enabled(s, Commit(w))
    ensures Inv(Next(s, Commit(w)))
  {
    var s' := Next(s, Commit(w));
    var c := s.claims[w];
    forall id | id in c.phase.ids
      ensures id in RowsOf(c) && Guarded(s, c, id)
    {
    }
    forall v, r | v in s'.claims && r in RowsOf(s'.claims[v])
      ensures Guarded(s', s'.claims[v], r)
    {
      assert Guarded(s, s.claims[v], r);
      forall k | k in s'.jobs && s'.jobs[k].status.Running?
        ensures !SameEntry(s'.jobs[r], s'.jobs[k])
      {
        if k in c.phase.ids { assert s.claims[v].held !! c.held; }
      }
    }
    assert OnePerEntry(s'.jobs);
    forall v | v in s'.claims
      ensures Thinned(s', s'.claims[v])
    {
      assert Thinned(s, s.claims[v]);
    }
  }

  lemma OtherInv(s: State, t: Table)
    requires Inv(s) && Enabled(s, Other(t))
    ensures Inv(Next(s, Other(t)))
  {
    var s' := Next(s, Other(t));
    StillExclusive(s.jobs, t);
    forall v, r | v in s'.claims && r in RowsOf(s'.claims[v])
      ensures Guarded(s', s'.claims[v], r) && s'.jobs[r] == s.jobs[r]
    {
      assert Guarded(s, s.claims[v], r) && RowLocked(s, r);
    }
    forall v | v in s'.claims
      ensures Thinned(s', s'.claims[v])
    {
      assert Thinned(s, s.claims[v]);
    }
  }

  lemma StepInv(s: State, op: Op)
    requires Inv(s) && Enabled(s, op) && Covered(s, op)
    ensures Inv(Next(s, op))
  {
    match op {
      case Select(w, rows) => SelectInv(s, w, rows);
      case Update(w) => UpdateInv(s, w);
      case Commit(w) => CommitInv(s, w);
      case Other(t) => OtherInv(s, t);
      case _ => PlainInv(s, op);
    }
  }

  lemma PlainInv(s: State, op: Op)
    requires Inv(s) && Enabled(s, op)
    requires op.Tick? || op.Begin? || op.Lock? || op.Rollback?
    ensures Inv(Next(s, op))
  {
    var s' := Next(s, op);
    forall v, r | v in s'.claims && r in RowsOf(s'.claims[v])
      ensures v in s.claims && r in RowsOf(s.claims[v]) && Guarded(s', s'.claims[v], r)
    {
      assert Guarded(s, s.claims[v], r);
    }
    forall v | v in s'.claims
      ensures Thinned(s', s'.claims[v])
    {
      if v in s.claims { assert Thinned(s, s.claims[v]); }
    }
    if op.Lock? {
      assert forall v :: v in s.claims ==> s.claims[op.w].phase.todo[0] !in s.claims[v].held;
    }
  }

  /** However the statements of any number of claims interleave with each other and with everything
      else, no entry ever has two running transcodes, as long as every claim holds the advisory lock
      of each entry it selected a transcode of. */
  lemma {:induction false} OneTranscodePerEntry(s: State, ops: seq<Op>)
    requires Inv(s) && Run(s, ops) && AlwaysCovered(s, ops)
    ensures OnePerEntry(After(s, ops).jobs) && Inv(After(s, ops))
    decreases |ops|
  {
    if ops != [] {
      StepInv(s, ops[0]);
      OneTranscodePerEntry(Next(s, ops[0]), ops[1..]);
    }
  }

  /* ---- No deadlock ---- */

  ghost predicate Ordered(s: State) {
    forall w :: w in s.claims && s.claims[w].phase.Locking? ==>
      && Increasing(s.claims[w].phase.todo)
      && forall h, e :: h in s.claims[w].held && e in s.claims[w].phase.todo ==> h < e
  }

  predicate Waiting(s: State, w: Worker) {
    w in s.claims && s.claims[w].phase.Locking? && s.claims[w].phase.todo != []
  }

  predicate WaitsFor(s: State, v: Worker, w: Worker) {
    Waiting(s, v) && w in s.claims && s.claims[v].phase.todo[0] in s.claims[w].held
  }

  /** Every claim of the set waits for a lock that a claim of the set holds. */
  ghost predicate Deadlocked(s: State, group: set<Worker>) {
    group != {} && forall v :: v in group ==> exists w :: w in group && WaitsFor(s, v, w)
  }

  function Want(s: State, w: Worker): int
    requires Waiting(s, w)
  {
    s.claims[w].phase.todo[0]
  }

  lemma {:induction false} LargestWant(s: State, group: set<Worker>) returns (m: Worker)
    requires group != {} && forall v :: v in group ==> Waiting(s, v)
    ensures m in group
    ensures forall v :: v in group ==> Waiting(s, v) && Waiting(s, m) && Want(s, v) <= Want(s, m)
  {
    m :| m in group;
    if group != {m} {
      var rest := group - {m};
      var k := LargestWant(s, rest);
      assert forall v :: v in group ==> v == m || v in rest;
      if Want(s, m) < Want(s, k) { m := k; }
    }
  }

  lemma WantRises(s: State, v: Worker, w: Worker)
    requires Ordered(s) && WaitsFor(s, v, w) && Waiting(s, w)
    ensures Want(s, v) < Want(s, w)
  {
    assert Want(s, w) in s.claims[w].phase.todo;
  }

  lemma OrderedNeverDeadlocks(s: State, group: set<Worker>)
    requires Ordered(s)
    ensures !Deadlocked(s, group)
  {
    if Deadlocked(s, group) {
      var m := LargestWant(s, group);
      var w :| w in group && WaitsFor(s, m, w);
      WantRises(s, m, w);
    }
  }

  lemma StepOrdered(s: State, op: Op)
    requires Ordered(s) && Enabled(s, op)
    ensures Ordered(Next(s, op))
  {
    if op.Lock? {
      var todo := s.claims[op.w].phase.todo;
      assert forall i :: 0 <= i < |todo[1..]| ==> todo[1..][i] == todo[i + 1];
      assert forall e :: e in todo[1..] ==> e in todo && todo[0] < e;
    }
  }

  /** In no run, with or without the hypothesis above, does a set of claims deadlock on advisory locks. */
  lemma {:induction false} ClaimsNeverDeadlock(s: State, ops: seq<Op>, group: set<Worker>)
    requires Ordered(s) && Run(s, ops)
    ensures !Deadlocked(After(s, ops), group)
    decreases |ops|
  {
    if ops == [] {
      OrderedNeverDeadlocks(s, group);
    } else {
      StepOrdered(s, ops[0]);
      ClaimsNeverDeadlock(Next(s, ops[0]), ops[1..], group);
    }
  }

  /* ---- Downloads ---- */

  /** No download with a lower id becomes queued while a claim in flight has selected one. */
  ghost predicate NoOvertaking(s: State, op: Op) {
    op.Other? ==>
      forall k, w, r :: k in op.jobs && op.jobs[k].kind.Download? && op.jobs[k].status.Queued?
        && w in s.claims && r in RowsOf(s.claims[w]) && r in s.jobs && s.jobs[r].kind.Download?
        ==> r <= k || (k in s.jobs && s.jobs[k].status.Queued?)
  }

  ghost predicate NeverOvertaken(s: State, ops: seq<Op>)
    requires Run(s, ops)
    decreases |ops|
  {
    ops == [] || (NoOvertaking(s, ops[0]) && NeverOvertaken(Next(s, ops[0]), ops[1..]))
  }

  /** A selected download is the queued one of lowest id, and none runs. */
  ghost predicate Foremost(t: Table, r: nat) {
    && r in t && t[r].status.Queued?
    && (t[r].kind.Download? ==>
          forall k :: k in t && t[k].kind.Download? ==> !t[k].status.Running? && (t[k].status.Queued? ==> r <= k))
  }

  ghost predicate DownloadInv(s: State) {
    && OneDownload(s.jobs)
    && (forall v, w, r :: v in s.claims && w in s.claims && r in RowsOf(s.claims[v]) && r in RowsOf(s.claims[w]) ==> v == w)
    && (forall w, r :: w in s.claims && r in RowsOf(s.claims[w]) ==> Foremost(s.jobs, r))
    && (forall w, id :: w in s.claims && s.claims[w].phase.Updated? && id in s.claims[w].phase.ids ==>
          id in RowsOf(s.claims[w]))
  }

  lemma SelectDownloadInv(s: State, w: Worker, rows: seq<nat>)
    requires DownloadInv(s) && Enabled(s, Select(w, rows))
    ensures DownloadInv(Next(s, Select(w, rows)))
  {
    forall r | r in rows
      ensures Foremost(s.jobs, r) && !RowLocked(s, r)
    {
      assert r in Unlocked(s, s.claims[w]);
    }
  }

  lemma UpdateDownloadInv(s: State, w: Worker)
    requires DownloadInv(s) && Enabled(s, Update(w))
    ensures DownloadInv(Next(s, Update(w)))
  {
    var s' := Next(s, Update(w));
    ThinIsThinned(s, s'.claims[w], s.claims[w].phase.rows);
    assert forall v :: v in s'.claims ==> v in s.claims && RowsOf(s'.claims[v]) == RowsOf(s.claims[v]);
  }

  lemma OtherDownloadInv(s: State, t: Table)
    requires DownloadInv(s) && Enabled(s, Other(t)) && NoOvertaking(s, Other(t))
    ensures DownloadInv(Next(s, Other(t)))
  {
    StillExclusive(s.jobs, t);
    forall v, r | v in s.claims && r in RowsOf(s.claims[v])
      ensures Foremost(t, r)
    {
      assert Foremost(s.jobs, r) && RowLocked(s, r);
    }
  }

  lemma PlainDownloadInv(s: State, op: Op)
    requires DownloadInv(s) && Enabled(s, op)
    requires op.Tick? || op.Begin? || op.Lock? || op.Rollback?
    ensures DownloadInv(Next(s, op))
  {
    var s' := Next(s, op);
    assert forall v :: v in s'.claims && RowsOf(s'.claims[v]) != [] ==>
      v in s.claims && RowsOf(s'.claims[v]) == RowsOf(s.claims[v]);
  }

  lemma StepDownloadInv(s: State, op: Op)
    requires DownloadInv(s) && Enabled(s, op) && NoOvertaking(s, op)
    ensures DownloadInv(Next(s, op))
  {
    match op {
      case Select(w, rows) => SelectDownloadInv(s, w, rows);
      case Update(w) => UpdateDownloadInv(s, w);
      case Commit(w) => CommitDownloadInv(s, w);
      case Other(t) => OtherDownloadInv(s, t);
      case _ => PlainDownloadInv(s, op);
    }
  }

  lemma CommitDownloadInv(s: State, w: Worker)
    requires DownloadInv(s) && Enabled(s, Commit(w))
    ensures DownloadInv(Next(s, Commit(w)))
  {
    var s' := Next(s, Commit(w));
    var ids := s.claims[w].phase.ids;
    forall id | id in ids
      ensures id in RowsOf(s.claims[w]) && Foremost(s.jobs, id)
    {
    }
    forall v, r | v in s'.claims && r in RowsOf(s'.claims[v])
      ensures Foremost(s'.jobs, r)
    {
      assert Foremost(s.jobs, r) && r !in ids;
    }
  }

  /** At most one download runs in every interleaving in which no lower-id download is re-queued while a
      claim has one selected. */
  lemma {:induction false} OneDownloadRuns(s: State, ops: seq<Op>)
    requires DownloadInv(s) && Run(s, ops) && NeverOvertaken(s, ops)
    ensures OneDownload(After(s, ops).jobs)
    decreases |ops|
  {
    if ops != [] {
      StepDownloadInv(s, ops[0]);
      OneDownloadRuns(Next(s, ops[0]), ops[1..]);
    }
  }

  /* ---- Both hypotheses are needed ---- */

  lemma {:induction false} Push(s: State, ops: seq<Op>, t: State, op: Op) returns (ops': seq<Op>, t': State)
    requires Run(s, ops) && t == After(s, ops) && Enabled(t, op)
    ensures ops' == ops + [op] && t' == Next(t, op)
    ensures Run(s, ops') && t' == After(s, ops')
    decreases |ops|
  {
    ops', t' := ops + [op], Next(t, op);
    if ops != [] {
      var _, _ := Push(Next(s, ops[0]), ops[1..], t, op);
      assert ops'[1..] == ops[1..] + [op];
    } else {
      assert ops'[1..] == [];
    }
  }

  /** Two claims that have each selected one row, and nothing else is in flight. */
  predicate BothSelected(s: State, t: Table, a: nat, b: nat) {
    && s.jobs == t && a in t && b in t && s.claims.Keys == {"a", "b"}
    && s.claims["a"].phase == Selected([a]) && s.claims["b"].phase == Selected([b])
  }

  lemma ThinOne(t: Table, r: nat)
    requires r in t
    ensures Thin(t, [r]) == [r]
  {
    assert FirstOfEntry(t, [r], 0) && [r][..0] == [];
  }

  /** A claim that has selected one row can always run to its commit. */
  lemma CommitOne(s0: State, ops0: seq<Op>, s: State, w: Worker, r: nat) returns (ops: seq<Op>, s': State)
    requires Run(s0, ops0) && s == After(s0, ops0)
    requires w in s.claims && s.claims[w].phase == Selected([r]) && r in s.jobs
    ensures ops == ops0 + [Update(w)] + [Commit(w)] && Run(s0, ops) && s' == After(s0, ops)
    ensures s'.jobs == MarkClaimed(s.jobs, {r}, w, s.claims[w].start) && s'.claims == s.claims - {w}
  {
    ThinOne(s.jobs, r);
    ops, s' := Push(s0, ops0, s, Update(w));
    assert SetOf([r]) == {r};
    ops, s' := Push(s0, ops, s', Commit(w));
  }

  /** Once two claims have selected, nothing stops both from committing. */
  lemma BothCommit(s0: State, ops0: seq<Op>, s: State, a: nat, b: nat) returns (ops: seq<Op>, s': State)
    requires Run(s0, ops0) && s == After(s0, ops0) && BothSelected(s, s.jobs, a, b) && a != b
    ensures ops == ops0 + [Update("a")] + [Commit("a")] + [Update("b")] + [Commit("b")]
    ensures Run(s0, ops) && s' == After(s0, ops)
    ensures a in s'.jobs && b in s'.jobs && s'.jobs[a].status.Running? && s'.jobs[b].status.Running?
    ensures s'.jobs[a].kind == s.jobs[a].kind && s'.jobs[a].entry == s.jobs[a].entry
    ensures s'.jobs[b].kind == s.jobs[b].kind && s'.jobs[b].entry == s.jobs[b].entry
  {
    ops, s' := CommitOne(s0, ops0, s, "a", a);
    ops, s' := CommitOne(s0, ops, s', "b", b);
  }

  function Flavor(flavor: int): Job {
    NewRow(Transcode, Some(7), flavor, 3, 10)
  }

  function Flavors(): Table {
    map[1 := Flavor(1), 2 := Flavor(2)]
  }

  /** Worker B reads the candidate entries just before the flavors of entry 7 are enqueued. */
  function LateRows(): seq<Op> {
    [Begin("b", 1, {}, []), Other(Flavors()), Begin("a", 1, {}, [7]), Lock("a"), Select("a", [1]), Select("b", [2]),
     Update("a"), Commit("a"), Update("b"), Commit("b")]
  }

  /** B's transaction starts before the rows exist, so it locks no entry. */
  lemma LateRowsAppear() returns (ops: seq<Op>, s: State)
    ensures ops == [] + [Begin("b", 1, {}, [])] + [Other(Flavors())]
    ensures Run(State(10, map[], map[]), ops) && s == After(State(10, map[], map[]), ops)
    ensures s == State(10, Flavors(), map["b" := Claim(10, 1, {}, {}, Locking([]))])
  {
    var s0 := State(10, map[], map[]);
    ops, s := Push(s0, [], s0, Begin("b", 1, {}, []));
    ops, s := Push(s0, ops, s, Other(Flavors()));
  }

  lemma FlavorsCandidates()
    ensures forall e :: e in [7] <==> Candidate(Flavors(), 10, e)
  {
    assert Candidate(Flavors(), 10, 7) by { assert 1 in Flavors(); }
  }

  /** A's transaction starts after them and locks entry 7. */
  lemma LateRowsLock(s0: State, ops0: seq<Op>, s1: State) returns (ops: seq<Op>, s: State)
    requires Run(s0, ops0) && s1 == After(s0, ops0)
    requires s1 == State(10, Flavors(), map["b" := Claim(10, 1, {}, {}, Locking([]))])
    ensures ops == ops0 + [Begin("a", 1, {}, [7])] + [Lock("a")] && Run(s0, ops) && s == After(s0, ops)
    ensures s == State(10, Flavors(), map["a" := Claim(10, 1, {}, {7}, Locking([])), "b" := Claim(10, 1, {}, {}, Locking([]))])
  {
    FlavorsCandidates();
    ops, s := Push(s0, ops0, s1, Begin("a", 1, {}, [7]));
    ops, s := Push(s0, ops, s, Lock("a"));
    assert {} + {7} == {7} && [7][1..] == [];
    assert s.claims["a"] == Claim(10, 1, {}, {7}, Locking([]));
  }

  lemma LateRowsParts()
    ensures [] + [Begin("b", 1, {}, [])] + [Other(Flavors())] + [Begin("a", 1, {}, [7])] + [Lock("a")]
      + [Select("a", [1])] + [Select("b", [2])]
      + [Update("a")] + [Commit("a")] + [Update("b")] + [Commit("b")] == LateRows()
  {
  }

  lemma LateRowsSelect(s0: State, ops0: seq<Op>, s1: State) returns (ops: seq<Op>, s: State)
    requires Run(s0, ops0) && s1 == After(s0, ops0)
    requires s1 == State(10, Flavors(), map["a" := Claim(10, 1, {}, {7}, Locking([])), "b" := Claim(10, 1, {}, {}, Locking([]))])
    ensures ops == ops0 + [Select("a", [1])] + [Select("b", [2])] && Run(s0, ops) && s == After(s0, ops)
    ensures s.jobs == Flavors() && BothSelected(s, s.jobs, 1, 2)
  {
    FlavorsUnlocked(s1, s1.claims["a"]);
    ops, s := Push(s0, ops0, s1, Select("a", [1]));
    assert RowLocked(s, 1) by { assert "a" in s.claims; }
    FlavorsUnlocked(s, s.claims["b"]);
    ops, s := Push(s0, ops, s, Select("b", [2]));
  }

  lemma FlavorsUnlocked(s: State, c: Claim)
    requires s.jobs == Flavors() && c.start == 10 && c.exclude == {} && !RowLocked(s, 2)
    ensures Unlocked(s, c) == if RowLocked(s, 1) then {2} else {1, 2}
  {
    assert Eligible(Flavors(), 10, {}, 1) && Eligible(Flavors(), 10, {}, 2);
  }

  lemma UnlockedRowsRunTwice()
    ensures Inv(State(10, map[], map[])) && Run(State(10, map[], map[]), LateRows())
    ensures !OnePerEntry(After(State(10, map[], map[]), LateRows()).jobs)
  {
    var s0 := State(10, map[], map[]);
    var ops, s := LateRowsAppear();
    ops, s := LateRowsLock(s0, ops, s);
    ops, s := LateRowsSelect(s0, ops, s);
    ops, s := BothCommit(s0, ops, s, 1, 2);
    LateRowsParts();
    assert SameEntry(s.jobs[1], s.jobs[2]);
  }

  function DeadDownload(): Job {
    FinishedRow(NewRow(Download, Some(8), -1, 3, 0), Failed)
  }

  function Downloads(): Table {
    map[1 := DeadDownload(), 2 := NewRow(Download, Some(9), -1, 3, 0)]
  }

  /** A user retries download 1 while worker A has download 2 selected. */
  function Overtake(): seq<Op> {
    [Begin("a", 1, {}, []), Select("a", [2]), Other(Overtaken()), Begin("b", 1, {}, []), Select("b", [1]),
     Update("a"), Commit("a"), Update("b"), Commit("b")]
  }

  lemma OvertakeSelect() returns (ops: seq<Op>, s: State)
    ensures ops == Overtake()[..2] && Run(State(0, Downloads(), map[]), ops) && s == After(State(0, Downloads(), map[]), ops)
    ensures s == State(0, Downloads(), map["a" := Claim(0, 1, {}, {}, Selected([2]))])
  {
    var s0 := State(0, Downloads(), map[]);
    ops, s := Push(s0, [], s0, Begin("a", 1, {}, []));
    assert Unlocked(s, s.claims["a"]) == {2};
    ops, s := Push(s0, ops, s, Select("a", [2]));
  }

  function Overtaken(): Table {
    MarkRetried(Downloads(), 1, 0)
  }

  lemma OvertakenRows()
    ensures Overtaken().Keys == {1, 2}
    ensures Overtaken()[1].kind.Download? && Overtaken()[1].status.Queued? && Overtaken()[1].runAt == 0
      && Overtaken()[1].pausedAt.None?
    ensures Overtaken()[2] == Downloads()[2]
  {
  }

  lemma OnlyFirstUnlocked(s: State, c: Claim)
    requires s.jobs == Overtaken() && c.start == 0 && c.exclude == {} && RowLocked(s, 2) && !RowLocked(s, 1)
    ensures Unlocked(s, c) == {1}
  {
    OvertakenRows();
    assert Eligible(s.jobs, 0, {}, 1);
  }

  lemma RetryIsElsewhere(s: State)
    requires s == State(0, Downloads(), map["a" := Claim(0, 1, {}, {}, Selected([2]))])
    ensures Elsewhere(s, Overtaken())
  {
    UserStatements(Downloads(), 1, 0);
    OvertakenRows();
  }

  lemma OvertakeRetry(s0: State, ops0: seq<Op>, s1: State) returns (ops: seq<Op>, s: State)
    requires Run(s0, ops0) && s1 == After(s0, ops0)
    requires s1 == State(0, Downloads(), map["a" := Claim(0, 1, {}, {}, Selected([2]))])
    ensures ops == ops0 + [Other(Overtaken()), Begin("b", 1, {}, [])]
    ensures Run(s0, ops) && s == After(s0, ops)
    ensures s == State(0, Overtaken(), map["a" := Claim(0, 1, {}, {}, Selected([2])), "b" := Claim(0, 1, {}, {}, Locking([]))])
  {
    RetryIsElsewhere(s1);
    ops, s := Push(s0, ops0, s1, Other(Overtaken()));
    OvertakenRows();
    ops, s := Push(s0, ops, s, Begin("b", 1, {}, []));
  }

  lemma OvertakeCommit(s0: State, ops0: seq<Op>, s1: State) returns (ops: seq<Op>, s: State)
    requires Run(s0, ops0) && s1 == After(s0, ops0)
    requires s1 == State(0, Overtaken(), map["a" := Claim(0, 1, {}, {}, Selected([2])), "b" := Claim(0, 1, {}, {}, Locking([]))])
    ensures ops == ops0 + [Select("b", [1])] + [Update("a")] + [Commit("a")] + [Update("b")] + [Commit("b")]
    ensures Run(s0, ops) && s == After(s0, ops)
    ensures !OneDownload(s.jobs)
  {
    OvertakenRows();
    assert RowLocked(s1, 2) by { assert "a" in s1.claims; }
    OnlyFirstUnlocked(s1, s1.claims["b"]);
    ops, s := Push(s0, ops0, s1, Select("b", [1]));
    ops, s := BothCommit(s0, ops, s, 2, 1);
  }

  lemma DownloadsAreSound()
    ensures DownloadInv(State(0, Downloads(), map[]))
  {
  }

  lemma OvertakeParts()
    ensures Overtake()[..2] + [Other(Overtaken()), Begin("b", 1, {}, [])]
      + [Select("b", [1])] + [Update("a")] + [Commit("a")] + [Update("b")] + [Commit("b")] == Overtake()
  {
  }

  lemma OvertakenDownloadsRunTwice()
    ensures DownloadInv(State(0, Downloads(), map[])) && Run(State(0, Downloads(), map[]), Overtake())
    ensures !OneDownload(After(State(0, Downloads(), map[]), Overtake()).jobs)
  {
    var s0 := State(0, Downloads(), map[]);
    DownloadsAreSound();
    var ops, s := OvertakeSelect();
    ops, s := OvertakeRetry(s0, ops, s);
    ops, s := OvertakeCommit(s0, ops, s);
    OvertakeParts();
  }
}
