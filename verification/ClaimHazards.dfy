/** What a claim that has selected its rows risks (internal/queue/queue.go:80-139). The advisory locks protect a
    claim's transcodes only if it holds one; here is exactly when a selection can still end in two running
    transcodes of one entry, or in two running downloads. */
module ClaimHazards {
  import opened Wrappers
  import opened JobTable
  import opened Selection
  import opened ClaimInterleaving

  /** The row is a transcode of an entry. */
  predicate IsTranscode(j: Job) {
    j.kind.Transcode? && j.entry.Some?
  }

  /** What a SELECT has seen of its rows, what others cannot change while the rows are locked, and what nobody else
      can start meanwhile. */
  ghost predicate Holding(s: State, rows: seq<nat>) {
    && (forall r :: r in rows ==>
          && r in s.jobs && s.jobs[r].status.Queued? && s.jobs[r].pausedAt.None? && s.jobs[r].runAt <= s.now
          && forall k :: k in s.jobs && s.jobs[k].status.Running? ==> !Excludes(s.jobs[r], s.jobs[k]))
    && (forall a, b :: a in rows && b in rows && a != b ==> !(s.jobs[a].kind.Download? && s.jobs[b].kind.Download?))
  }

  /** Claim `w` has selected its rows and not updated them yet. */
  ghost predicate Picked(s: State, w: Worker) {
    && w in s.claims && s.claims[w].phase.Selected? && Ascending(s.claims[w].phase.rows)
    && Holding(s, s.claims[w].phase.rows)
  }

  /** The two jobs must not run together. */
  predicate Excludes(a: Job, b: Job) {
    SameEntry(a, b) || (a.kind.Download? && b.kind.Download?)
  }

  /** The claim has selected a transcode whose entry it has locked: every later claim must wait for that entry. */
  ghost predicate Pinned(s: State, w: Worker)
    requires Picked(s, w)
  {
    exists r :: r in s.claims[w].phase.rows && IsTranscode(s.jobs[r]) && s.jobs[r].entry.value in s.claims[w].held
  }

  /** The claim has selected a transcode of an entry. */
  ghost predicate HasTranscode(s: State, w: Worker)
    requires Picked(s, w)
  {
    exists r :: r in s.claims[w].phase.rows && IsTranscode(s.jobs[r])
  }

  /** The claim has selected download `r` although download `q` with a lower id is queued. */
  ghost predicate Overtakes(s: State, w: Worker, r: nat, q: nat)
    requires Picked(s, w)
  {
    && r in s.claims[w].phase.rows && s.jobs[r].kind.Download?
    && q in s.jobs && s.jobs[q].kind.Download? && s.jobs[q].status.Queued? && q < r
  }

  /** Every SELECT leaves its claim in such a state. */
  lemma SelectPicks(s: State, w: Worker, rows: seq<nat>)
    requires Enabled(s, Select(w, rows)) && rows != [] && s.claims[w].start <= s.now
    ensures Picked(Next(s, Select(w, rows)), w)
  {
    assert forall r :: r in rows ==> r in Unlocked(s, s.claims[w]);
  }

  /* ---- Runs that keep both hypotheses ---- */

  ghost predicate Leads(s: State, ops: seq<Op>, t: State) {
    Run(s, ops) && AlwaysCovered(s, ops) && NeverOvertaken(s, ops) && t == After(s, ops)
  }

  lemma {:induction false} Grow(s: State, ops: seq<Op>, t: State, op: Op)
    requires Leads(s, ops, t) && Enabled(t, op) && Covered(t, op) && NoOvertaking(t, op)
    ensures Leads(s, ops + [op], Next(t, op))
    decreases |ops|
  {
    if ops == [] {
      assert [] + [op] == [op] && [op][1..] == [];
    } else {
      Grow(Next(s, ops[0]), ops[1..], t, op);
      assert (ops + [op])[1..] == ops[1..] + [op];
    }
  }

  /** Everybody else gives up. */
  lemma {:induction false} RollbackOthers(s0: State, ops0: seq<Op>, s: State, keep: set<Worker>) returns (ops: seq<Op>, t: State)
    requires Leads(s0, ops0, s) && keep <= s.claims.Keys
    ensures Leads(s0, ops, t) && t == s.(claims := map u | u in keep :: s.claims[u])
    decreases |s.claims.Keys|
  {
    ops, t := ops0, s;
    if v :| v in s.claims && v !in keep {
      Grow(s0, ops, t, Rollback(v));
      ops, t := ops + [Rollback(v)], Next(t, Rollback(v));
      assert t.claims.Keys == s.claims.Keys - {v};
      ops, t := RollbackOthers(s0, ops, t, keep);
    } else {
      assert s.claims == map u | u in keep :: s.claims[u];
    }
  }

  lemma {:induction false} Listing(c: set<int>) returns (todo: seq<int>)
    ensures Increasing(todo) && forall e :: e in todo <==> e in c
    decreases |c|
  {
    if first :| first in c {
      var m := Greatest(c, first);
      var rest := Listing(c - {m});
      todo := rest + [m];
      assert forall i :: 0 <= i < |rest| ==> rest[i] in rest;
    } else {
      todo := [];
    }
  }

  lemma {:induction false} Greatest(c: set<int>, first: int) returns (m: int)
    requires first in c
    ensures m in c && forall e :: e in c ==> e <= m
    decreases |c|
  {
    m := first;
    if next :| next in c && next != first {
      var k := Greatest(c - {first}, next);
      assert forall e :: e in c ==> e == first || e in c - {first};
      if m < k { m := k; }
    } else {
      assert forall e :: e in c ==> e == first;
    }
  }

  /** A newcomer locks one free entry after the other. */
  lemma {:induction false} LockAll(s0: State, ops0: seq<Op>, s: State, w: Worker, v: Worker)
    returns (ops: seq<Op>, t: State)
    requires Leads(s0, ops0, s) && v != w && s.claims.Keys == {w, v} && s.claims[v].phase.Locking?
    requires Increasing(s.claims[v].phase.todo)
    requires forall e :: e in s.claims[v].phase.todo ==> e !in s.claims[w].held && e !in s.claims[v].held
    ensures Leads(s0, ops, t) && t.now == s.now && t.jobs == s.jobs
    ensures t.claims.Keys == {w, v} && t.claims[w] == s.claims[w] && t.claims[v].phase == Locking([])
    ensures t.claims[v].start == s.claims[v].start && t.claims[v].n == s.claims[v].n
      && t.claims[v].exclude == s.claims[v].exclude
    ensures forall e :: e in s.claims[v].phase.todo || e in s.claims[v].held ==> e in t.claims[v].held
    decreases |s.claims[v].phase.todo|
  {
    ops, t := ops0, s;
    var todo := s.claims[v].phase.todo;
    if todo != [] {
      assert !Held(s, todo[0]);
      Grow(s0, ops, t, Lock(v));
      ops, t := ops + [Lock(v)], Next(t, Lock(v));
      assert t.claims[v].phase.todo == todo[1..] && forall i :: 0 <= i < |todo[1..]| ==> todo[1..][i] == todo[i + 1];
      assert forall e :: e in todo ==> e == todo[0] || e in todo[1..];
      assert forall e :: e in todo[1..] ==> e in todo && todo[0] < e;
      ops, t := LockAll(s0, ops, t, w, v);
    }
  }

  /* ---- A second claim slips in ---- */

  /** The claim's rows, and row `x` as `j`. */
  function Reduced(s: State, w: Worker, x: nat, j: Job): Table
    requires w in s.claims && s.claims[w].phase.Selected?
  {
    (map id | id in s.jobs && id in s.claims[w].phase.rows :: s.jobs[id])[x := j]
  }

  /** Row `x` could be made, from what others may still change, into a queued row `j` that somebody else selects. */
  ghost predicate CanAppear(s: State, w: Worker, x: nat, j: Job)
    requires Picked(s, w)
  {
    && x !in s.claims[w].phase.rows && j.status.Queued? && j.pausedAt.None? && RowOk(j)
    && (x in s.jobs ==> s.jobs[x].kind == j.kind && s.jobs[x].entry == j.entry && s.jobs[x].status.Queued?)
    && (j.kind.Download? ==> x in s.jobs && forall r :: r in s.claims[w].phase.rows && s.jobs[r].kind.Download? ==> x < r)
    && (IsTranscode(j) ==> j.entry.value !in s.claims[w].held)
  }

  /** No claim but `w` has selected anything. */
  ghost predicate OthersLocking(s: State, w: Worker) {
    forall v :: v in s.claims && v != w ==> s.claims[v].phase.Locking?
  }

  lemma OthersReduce(s: State, w: Worker, x: nat, j: Job)
    requires Picked(s, w) && OthersLocking(s, w) && CanAppear(s, w, x, j)
    ensures Enabled(s, Other(Reduced(s, w, x, j))) && NoOvertaking(s, Other(Reduced(s, w, x, j)))
  {
    var t := Reduced(s, w, x, j);
    assert Benign(s.jobs, t);
    forall id | RowLocked(s, id) && id in s.jobs
      ensures id in t && t[id] == s.jobs[id]
    {
      var v :| v in s.claims && id in RowsOf(s.claims[v]);
      assert v == w;
    }
  }

  lemma {:induction false} AppearedCandidates(s: State, w: Worker, x: nat, j: Job, e: int)
    requires Picked(s, w) && !Pinned(s, w) && CanAppear(s, w, x, j) && Candidate(Reduced(s, w, x, j), s.now, e)
    ensures e !in s.claims[w].held
  {
    var t := Reduced(s, w, x, j);
    var id :| id in t && t[id].kind.Transcode? && t[id].entry == Some(e);
    if id != x { assert id in s.claims[w].phase.rows; }
  }

  lemma OnlyAppearedUnlocked(s: State, w: Worker, v: Worker, x: nat)
    requires s.claims.Keys == {w, v} && v != w && w in s.claims && RowsOf(s.claims[v]) == []
    requires x in s.jobs && x !in RowsOf(s.claims[w])
    requires forall id :: id in s.jobs ==> s.jobs[id].status.Queued? && (id == x || id in RowsOf(s.claims[w]))
    requires s.jobs[x].pausedAt.None? && s.jobs[x].runAt <= s.claims[v].start && s.jobs[x].kind !in s.claims[v].exclude
    requires s.jobs[x].kind.Download? ==> forall r :: r in s.jobs && s.jobs[r].kind.Download? ==> x <= r
    ensures Unlocked(s, s.claims[v]) == {x}
  {
    assert !RowLocked(s, x);
    assert Eligible(s.jobs, s.claims[v].start, s.claims[v].exclude, x);
    forall id | id in s.jobs && id != x
      ensures RowLocked(s, id)
    {
      assert w in s.claims && id in RowsOf(s.claims[w]);
    }
  }

  /** The entries a new claim will lock: the appeared transcode's is one of them, and `w` holds none. */
  lemma NewcomersList(s: State, w: Worker, x: nat, j: Job) returns (todo: seq<int>)
    requires Picked(s, w) && !Pinned(s, w) && CanAppear(s, w, x, j) && j.runAt <= s.now
    ensures Increasing(todo) && forall e :: e in todo <==> Candidate(Reduced(s, w, x, j), s.now, e)
    ensures forall e :: e in todo ==> e !in s.claims[w].held
    ensures IsTranscode(j) ==> j.entry.value in todo
  {
    var t := Reduced(s, w, x, j);
    todo := Listing(set id | id in t && IsTranscode(t[id]) && t[id].status.Queued? && t[id].runAt <= s.now :: t[id].entry.value);
    forall e
      ensures e in todo <==> Candidate(t, s.now, e)
      ensures e in todo ==> e !in s.claims[w].held
    {
      if Candidate(t, s.now, e) { AppearedCandidates(s, w, x, j, e); }
    }
    assert x in t && t[x] == j;
    if IsTranscode(j) { assert t[x].entry == Some(j.entry.value) && Candidate(t, s.now, j.entry.value); }
  }

  /** Claim `v`, still at its locks, can pass them and then select row `j`. */
  ghost predicate CanIntrude(c: ClaimInterleaving.Claim, held: set<int>, j: Job) {
    && c.phase.Locking? && Increasing(c.phase.todo) && c.n >= 1 && j.kind !in c.exclude && j.runAt <= c.start
    && (forall e :: e in c.phase.todo ==> e !in held && e !in c.held)
    && (IsTranscode(j) ==> j.entry.value in c.phase.todo || j.entry.value in c.held)
  }

  /** A new claim begins after the others have reduced the table. */
  lemma NewcomerBegins(s0: State, ops0: seq<Op>, s: State, w: Worker, x: nat, j: Job)
    returns (ops: seq<Op>, t: State, v: Worker)
    requires Leads(s0, ops0, s) && Picked(s, w) && s.claims.Keys == {w}
    requires CanAppear(s, w, x, j) && !Pinned(s, w) && j.runAt <= s.now
    ensures Leads(s0, ops, t) && t.jobs == Reduced(s, w, x, j) && v != w
    ensures t.claims.Keys == {w, v} && t.claims[w] == s.claims[w] && CanIntrude(t.claims[v], s.claims[w].held, j)
  {
    var table := Reduced(s, w, x, j);
    OthersReduce(s, w, x, j);
    var todo := NewcomersList(s, w, x, j);
    Grow(s0, ops0, s, Other(table));
    ops, t, v := ops0 + [Other(table)], Next(s, Other(table)), w + "'";
    assert |v| == |w| + 1;
    Grow(s0, ops, t, Begin(v, 1, {}, todo));
    ops, t := ops + [Begin(v, 1, {}, todo)], Next(t, Begin(v, 1, {}, todo));
  }

  /** ... or one that is at its locks already goes on. */
  lemma WaiterStays(s0: State, ops0: seq<Op>, s: State, w: Worker, v: Worker, x: nat, j: Job)
    returns (ops: seq<Op>, t: State)
    requires Leads(s0, ops0, s) && Picked(s, w) && s.claims.Keys == {w, v} && v != w && OthersLocking(s, w)
    requires CanAppear(s, w, x, j) && CanIntrude(s.claims[v], s.claims[w].held, j)
    ensures Leads(s0, ops, t) && t == s.(jobs := Reduced(s, w, x, j))
  {
    var table := Reduced(s, w, x, j);
    OthersReduce(s, w, x, j);
    Grow(s0, ops0, s, Other(table));
    ops, t := ops0 + [Other(table)], Next(s, Other(table));
  }

  /** It passes its locks and selects row `x` alone. */
  lemma IntruderSelects(s0: State, ops0: seq<Op>, s: State, w: Worker, v: Worker, x: nat, j: Job, was: State)
    returns (ops: seq<Op>, t: State)
    requires Picked(was, w) && CanAppear(was, w, x, j) && s.jobs == Reduced(was, w, x, j)
    requires Leads(s0, ops0, s) && s.claims.Keys == {w, v} && v != w && s.claims[w] == was.claims[w]
    requires CanIntrude(s.claims[v], s.claims[w].held, j)
    ensures Leads(s0, ops, t) && t.jobs == s.jobs
    ensures t.claims.Keys == {w, v} && t.claims[w] == s.claims[w] && t.claims[v].phase == Selected([x])
  {
    ops, t := LockAll(s0, ops0, s, w, v);
    OnlyAppearedUnlocked(t, w, v, x);
    if IsTranscode(j) {
      var e := j.entry.value;
      assert e in s.claims[v].phase.todo || e in s.claims[v].held;
      assert e in t.claims[v].held;
    }
    assert LowestIds({x}, t.claims[v].n, [x]) && t.jobs[x] == j;
    Grow(s0, ops, t, Select(v, [x]));
    ops, t := ops + [Select(v, [x])], Next(t, Select(v, [x]));
  }

  /** ... and commits before `w` does. */
  lemma IntruderCommits(s0: State, ops0: seq<Op>, s: State, w: Worker, v: Worker, x: nat) returns (ops: seq<Op>, t: State)
    requires Leads(s0, ops0, s) && s.claims.Keys == {w, v} && v != w && s.claims[v].phase == Selected([x]) && x in s.jobs
    ensures Leads(s0, ops, t) && t.claims.Keys == {w} && t.claims[w] == s.claims[w]
    ensures t.jobs == MarkClaimed(s.jobs, {x}, v, s.claims[v].start)
  {
    ThinOne(s.jobs, x);
    Grow(s0, ops0, s, Update(v));
    ops, t := ops0 + [Update(v)], Next(s, Update(v));
    Grow(s0, ops, t, Commit(v));
    ops, t := ops + [Commit(v)], Next(t, Commit(v));
    assert SetOf([x]) == {x};
  }

  /** Row `j` runs and `w` has what it had selected. */
  ghost predicate Intruded(s: State, w: Worker, x: nat, j: Job, t: State)
    requires Picked(s, w)
  {
    && t.claims.Keys == {w} && t.claims[w] == s.claims[w]
    && x in t.jobs && t.jobs[x].status.Running? && t.jobs[x].kind == j.kind && t.jobs[x].entry == j.entry
    && forall r :: r in s.claims[w].phase.rows ==> r in t.jobs && t.jobs[r] == s.jobs[r]
  }

  lemma NewcomerRuns(s0: State, ops0: seq<Op>, s: State, w: Worker, x: nat, j: Job) returns (ops: seq<Op>, t: State)
    requires Leads(s0, ops0, s) && Picked(s, w) && s.claims.Keys == {w}
    requires CanAppear(s, w, x, j) && !Pinned(s, w) && j.runAt <= s.now
    ensures Leads(s0, ops, t) && Intruded(s, w, x, j, t)
  {
    var v;
    ops, t, v := NewcomerBegins(s0, ops0, s, w, x, j);
    ops, t := IntruderSelects(s0, ops, t, w, v, x, j, s);
    ops, t := IntruderCommits(s0, ops, t, w, v, x);
  }

  lemma WaiterRuns(s0: State, ops0: seq<Op>, s: State, w: Worker, v: Worker, x: nat, j: Job) returns (ops: seq<Op>, t: State)
    requires Leads(s0, ops0, s) && Picked(s, w) && s.claims.Keys == {w, v} && v != w && OthersLocking(s, w)
    requires CanAppear(s, w, x, j) && CanIntrude(s.claims[v], s.claims[w].held, j)
    ensures Leads(s0, ops, t) && Intruded(s, w, x, j, t)
  {
    ops, t := WaiterStays(s0, ops0, s, w, v, x, j);
    ops, t := IntruderSelects(s0, ops, t, w, v, x, j, s);
    ops, t := IntruderCommits(s0, ops, t, w, v, x);
  }

  /** Then `w` commits what it has selected. */
  lemma Finish(s0: State, ops0: seq<Op>, s: State, w: Worker) returns (ops: seq<Op>, t: State)
    requires Leads(s0, ops0, s) && w in s.claims && s.claims[w].phase.Selected?
    requires forall r :: r in s.claims[w].phase.rows ==> r in s.jobs
    ensures Leads(s0, ops, t)
    ensures t.jobs == MarkClaimed(s.jobs, SetOf(Thin(s.jobs, s.claims[w].phase.rows)), w, s.claims[w].start)
  {
    Grow(s0, ops0, s, Update(w));
    ops, t := ops0 + [Update(w)], Next(s, Update(w));
    Grow(s0, ops, t, Commit(w));
    ops, t := ops + [Commit(w)], Next(t, Commit(w));
  }

  /* ---- Selections that can go wrong ---- */

  lemma UnusedId(ids: set<nat>) returns (x: nat)
    ensures x !in ids
  {
    x := 0;
    var rest := ids;
    while rest != {}
      invariant rest <= ids && forall k :: k in ids && k !in rest ==> k < x
      decreases rest
    {
      var k :| k in rest;
      rest := rest - {k};
      if k >= x { x := k + 1; }
    }
  }

  /** The filter keeps some transcode of every entry selected. */
  lemma KeptOfEntry(t: Table, rows: seq<nat>, i: nat) returns (kept: nat)
    requires Ascending(rows) && i < |rows| && forall r :: r in rows ==> r in t
    requires IsTranscode(t[rows[i]])
    ensures kept in Thin(t, rows) && kept in t && SameEntry(t[kept], t[rows[i]])
  {
    if rows[i] in Thin(t, rows) {
      kept := rows[i];
    } else {
      var k := DroppedForEarlier(t, rows, i);
      kept := rows[k];
    }
  }

  lemma TwoRunning(s: State, ops: seq<Op>, t: State, a: nat, b: nat)
    requires Leads(s, ops, t) && a in t.jobs && b in t.jobs && a != b
    requires t.jobs[a].status.Running? && t.jobs[b].status.Running?
    ensures SameEntry(t.jobs[a], t.jobs[b]) ==> !OnePerEntry(After(s, ops).jobs)
    ensures t.jobs[a].kind.Download? && t.jobs[b].kind.Download? ==> !OneDownload(After(s, ops).jobs)
  {
  }

  /** Both commit: two transcodes of one entry run. */
  lemma BothTranscode(s0: State, ops0: seq<Op>, s: State, w: Worker, i: nat, x: nat, j: Job, t0: State) returns (ops: seq<Op>)
    requires Picked(s, w) && i < |s.claims[w].phase.rows| && x !in s.claims[w].phase.rows
    requires IsTranscode(s.jobs[s.claims[w].phase.rows[i]]) && SameEntry(s.jobs[s.claims[w].phase.rows[i]], j)
    requires Leads(s0, ops0, t0) && Intruded(s, w, x, j, t0)
    ensures Run(s0, ops) && AlwaysCovered(s0, ops) && !OnePerEntry(After(s0, ops).jobs)
  {
    var rows := s.claims[w].phase.rows;
    assert rows[i] in rows;
    var kept := KeptOfEntry(t0.jobs, rows, i);
    ThinMembers(t0.jobs, rows, kept);
    var t;
    ops, t := Finish(s0, ops0, t0, w);
    TwoRunning(s0, ops, t, kept, x);
  }

  /** A claim that has selected a transcode and holds the lock of none it has selected: whoever else is in flight, a
      continuation that keeps both hypotheses makes two transcodes of the entry run. */
  lemma UncoveredRunsTwice(s: State, w: Worker) returns (ops: seq<Op>)
    requires Picked(s, w) && HasTranscode(s, w) && !Pinned(s, w)
    ensures Run(s, ops) && AlwaysCovered(s, ops) && !OnePerEntry(After(s, ops).jobs)
  {
    assert Leads(s, [], s);
    var alone, t;
    ops, alone := RollbackOthers(s, [], s, {w});
    var rows := s.claims[w].phase.rows;
    var i :| 0 <= i < |rows| && IsTranscode(s.jobs[rows[i]]);
    assert rows[i] in rows;
    var x := UnusedId(s.jobs.Keys);
    var j := NewRow(Transcode, s.jobs[rows[i]].entry, 0, 1, s.now);
    ops, t := NewcomerRuns(s, ops, alone, w, x, j);
    ops := BothTranscode(s, ops, alone, w, i, x, j, t);
  }

  /** Claim `v`, still at its locks, waits for nothing `w` holds, and will hold or holds the lock of an entry `w` has
      selected a transcode of without locking it. */
  ghost predicate Intruder(s: State, w: Worker, v: Worker)
    requires Picked(s, w)
  {
    && Unhindered(s, w, v) && Transcode !in s.claims[v].exclude
    && exists e :: e in Bare(s, w) && (e in s.claims[v].held || e in s.claims[v].phase.todo)
  }

  /** The entries of the transcodes `w` has selected without holding their locks. */
  ghost function Bare(s: State, w: Worker): set<int>
    requires Picked(s, w)
  {
    set r | r in s.claims[w].phase.rows && IsTranscode(s.jobs[r]) && s.jobs[r].entry.value !in s.claims[w].held
      :: s.jobs[r].entry.value
  }

  /** Claim `v` asks for rows, and no lock it still needs is held by `w`. */
  ghost predicate Unhindered(s: State, w: Worker, v: Worker)
    requires w in s.claims
  {
    && v in s.claims && v != w && s.claims[v].phase.Locking? && s.claims[v].n >= 1
    && forall e :: e in s.claims[v].phase.todo ==> e !in s.claims[w].held
  }

  lemma UnhinderedIntrudes(s: State, w: Worker, v: Worker, j: Job)
    requires w in s.claims && Unhindered(s, w, v) && Ordered(s)
    requires j.kind !in s.claims[v].exclude && j.runAt <= s.claims[v].start
    requires IsTranscode(j) ==> j.entry.value in s.claims[v].phase.todo || j.entry.value in s.claims[v].held
    ensures CanIntrude(s.claims[v], s.claims[w].held, j)
  {
  }

  /** One locked entry does not keep out a claim that began before that entry had a row. */
  lemma IntruderRunsTwice(s: State, w: Worker, v: Worker) returns (ops: seq<Op>)
    requires Picked(s, w) && Ordered(s) && Intruder(s, w, v)
    ensures Run(s, ops) && AlwaysCovered(s, ops) && !OnePerEntry(After(s, ops).jobs)
  {
    assert Leads(s, [], s);
    var both, t;
    ops, both := RollbackOthers(s, [], s, {w, v});
    var rows := s.claims[w].phase.rows;
    var e :| e in Bare(s, w) && (e in s.claims[v].held || e in s.claims[v].phase.todo);
    var r :| r in rows && IsTranscode(s.jobs[r]) && s.jobs[r].entry.value == e;
    var i :| 0 <= i < |rows| && rows[i] == r;
    var x := UnusedId(s.jobs.Keys);
    var j := NewRow(Transcode, Some(e), 0, 1, s.claims[v].start);
    UnhinderedIntrudes(s, w, v, j);
    ops, t := WaiterRuns(s, ops, both, w, v, x, j);
    ops := BothTranscode(s, ops, both, w, i, x, j, t);
  }

  lemma DownloadsAreKept(t: Table, rows: seq<nat>, r: nat)
    requires r in rows && (forall k :: k in rows ==> k in t) && t[r].kind.Download?
    ensures r in Thin(t, rows)
  {
    var i :| 0 <= i < |rows| && rows[i] == r;
    assert FirstOfEntry(t, rows, i);
    ThinMembers(t, rows, r);
  }

  /** Both commit: two downloads run. */
  lemma BothDownload(s0: State, ops0: seq<Op>, s: State, w: Worker, r: nat, q: nat, j: Job, t0: State) returns (ops: seq<Op>)
    requires Picked(s, w) && r in s.claims[w].phase.rows && q != r && s.jobs[r].kind.Download? && j.kind.Download?
    requires q !in s.claims[w].phase.rows && Leads(s0, ops0, t0) && Intruded(s, w, q, j, t0)
    ensures Run(s0, ops) && NeverOvertaken(s0, ops) && !OneDownload(After(s0, ops).jobs)
  {
    DownloadsAreKept(t0.jobs, s.claims[w].phase.rows, r);
    var t;
    ops, t := Finish(s0, ops0, t0, w);
    TwoRunning(s0, ops, t, r, q);
  }

  /** A claim that holds no lock of a transcode it has selected and has selected a download before its turn: whoever
      else is in flight, a continuation that keeps both hypotheses makes two downloads run. */
  lemma OvertakingRunsTwice(s: State, w: Worker, r: nat, q: nat) returns (ops: seq<Op>)
    requires Picked(s, w) && Overtakes(s, w, r, q) && !Pinned(s, w) && RowsOk(s.jobs)
    ensures Run(s, ops) && NeverOvertaken(s, ops) && !OneDownload(After(s, ops).jobs)
  {
    assert Leads(s, [], s);
    var alone, t;
    ops, alone := RollbackOthers(s, [], s, {w});
    var j := s.jobs[q].(pausedAt := None, runAt := s.now);
    ops, t := NewcomerRuns(s, ops, alone, w, q, j);
    ops := BothDownload(s, ops, alone, w, r, q, j, t);
  }

  /** The same through a claim that is at its locks already and waits for nothing `w` holds. */
  lemma WaiterDownloadsToo(s: State, w: Worker, v: Worker, r: nat, q: nat) returns (ops: seq<Op>)
    requires Picked(s, w) && Overtakes(s, w, r, q) && RowsOk(s.jobs) && Ordered(s)
    requires Unhindered(s, w, v) && Download !in s.claims[v].exclude
    ensures Run(s, ops) && NeverOvertaken(s, ops) && !OneDownload(After(s, ops).jobs)
  {
    assert Leads(s, [], s);
    var both, t;
    ops, both := RollbackOthers(s, [], s, {w, v});
    var j := s.jobs[q].(pausedAt := None, runAt := s.claims[v].start);
    UnhinderedIntrudes(s, w, v, j);
    ops, t := WaiterRuns(s, ops, both, w, v, q, j);
    ops := BothDownload(s, ops, both, w, r, q, j, t);
  }

  /* ---- Selections that cannot ---- */

  ghost predicate HeldApart(s: State) {
    forall u, v :: u in s.claims && v in s.claims && u != v ==> s.claims[u].held !! s.claims[v].held
  }

  /** Claim `w`, in flight with `rows`, keeps entry `e` locked, and row `pin` makes every newcomer ask for `e`. */
  ghost predicate Keeps(s: State, w: Worker, rows: seq<nat>, pin: nat, e: int) {
    && w in s.claims && !s.claims[w].phase.Locking? && RowsOf(s.claims[w]) == rows && e in s.claims[w].held
    && pin in rows && pin in s.jobs && s.jobs[pin].status.Queued? && s.jobs[pin].runAt <= s.now
    && s.jobs[pin].kind.Transcode? && s.jobs[pin].entry == Some(e)
  }

  /** Claim `v` waits for a lock that `w` holds. */
  ghost predicate Hindered(s: State, w: Worker, v: Worker)
    requires w in s.claims && v in s.claims
  {
    s.claims[v].phase.Locking? && exists e :: e in s.claims[v].phase.todo && e in s.claims[w].held
  }

  predicate Ends(op: Op, w: Worker) {
    op == Commit(w) || op == Rollback(w)
  }

  /** A claim that waits for `w` goes on waiting. */
  lemma StaysHindered(s: State, w: Worker, v: Worker, op: Op)
    requires w in s.claims && v in s.claims && Hindered(s, w, v) && v != w
    requires Enabled(s, op) && w in Next(s, op).claims && v in Next(s, op).claims && s.claims[w].held <= Next(s, op).claims[w].held
    ensures Hindered(Next(s, op), w, v)
  {
    var e :| e in s.claims[v].phase.todo && e in s.claims[w].held;
    if op == Lock(v) {
      var todo := s.claims[v].phase.todo;
      assert Held(s, e) && todo[0] != e;
      assert e in todo[1..];
    }
    assert e in Next(s, op).claims[v].phase.todo;
  }

  lemma NewcomersAreHindered(s: State, w: Worker, rows: seq<nat>, pin: nat, e: int, op: Op)
    requires Keeps(s, w, rows, pin, e) && op.Begin? && Enabled(s, op)
    ensures Hindered(Next(s, op), w, op.w)
  {
    assert Candidate(s.jobs, s.now, e);
    assert e in Next(s, op).claims[op.w].phase.todo;
  }

  lemma HeldStaysApart(s: State, op: Op)
    requires HeldApart(s) && Enabled(s, op)
    ensures HeldApart(Next(s, op))
  {
    if op.Lock? {
      var e := s.claims[op.w].phase.todo[0];
      assert forall u :: u in s.claims ==> e !in s.claims[u].held;
    }
  }

  /* ---- Transcodes ---- */

  function LentClaim(c: ClaimInterleaving.Claim, own: bool, bare: set<int>): ClaimInterleaving.Claim {
    c.(held := if own then c.held + bare else c.held - bare)
  }

  /** As if `w` held the locks of the entries in `bare` too. */
  function Lent(s: State, w: Worker, bare: set<int>): State {
    s.(claims := map v | v in s.claims :: LentClaim(s.claims[v], v == w, bare))
  }

  /** Claim `c` selects no transcode of an entry in `bare`. */
  ghost predicate Harmless(c: ClaimInterleaving.Claim, bare: set<int>) {
    || c.n == 0 || Transcode in c.exclude
    || forall e :: e in bare ==> e !in c.held && (c.phase.Locking? ==> e !in c.phase.todo)
  }

  lemma LentRowLocked(s: State, w: Worker, bare: set<int>, id: nat)
    ensures RowLocked(s, id) <==> RowLocked(Lent(s, w, bare), id)
  {
    var t := Lent(s, w, bare);
    if v :| v in s.claims && id in RowsOf(s.claims[v]) { assert v in t.claims && id in RowsOf(t.claims[v]); }
    if v :| v in t.claims && id in RowsOf(t.claims[v]) { assert v in s.claims && id in RowsOf(s.claims[v]); }
  }

  lemma LentSet(s: State, w: Worker, bare: set<int>, v: Worker, c: ClaimInterleaving.Claim)
    ensures Lent(s.(claims := s.claims[v := c]), w, bare)
      == Lent(s, w, bare).(claims := Lent(s, w, bare).claims[v := LentClaim(c, v == w, bare)])
  {
  }

  lemma LentGone(s: State, w: Worker, bare: set<int>, v: Worker)
    ensures Lent(s.(claims := s.claims - {v}), w, bare) == Lent(s, w, bare).(claims := Lent(s, w, bare).claims - {v})
  {
  }

  /** A step of another claim, other than a lock, or an update of its own, looks the same with the lent locks. */
  lemma LentStep(s: State, w: Worker, bare: set<int>, op: Op)
    requires w in s.claims && Enabled(s, op) && !op.Lock? && !op.Select? && !op.Other? && !Ends(op, w)
    ensures Enabled(Lent(s, w, bare), op)
    ensures Next(Lent(s, w, bare), op) == Lent(Next(s, op), w, bare)
  {
    match op
    case Tick(_) =>
    case Begin(v, n, exclude, todo) =>
      var c := ClaimInterleaving.Claim(s.now, n, exclude, {}, Locking(todo));
      LentSet(s, w, bare, v, c);
      assert LentClaim(c, false, bare) == c;
    case Update(v) =>
      var rows := s.claims[v].phase.rows;
      var c := s.claims[v].(phase := Updated(rows, Thin(s.jobs, rows)));
      LentSet(s, w, bare, v, c);
    case Commit(v) => LentGone(s.(jobs := Next(s, op).jobs), w, bare, v);
    case Rollback(v) => LentGone(s, w, bare, v);
  }

  lemma LentOther(s: State, w: Worker, bare: set<int>, t: Table)
    requires Enabled(s, Other(t))
    ensures Enabled(Lent(s, w, bare), Other(t))
    ensures Next(Lent(s, w, bare), Other(t)) == Lent(Next(s, Other(t)), w, bare)
  {
    forall id | RowLocked(Lent(s, w, bare), id)
      ensures RowLocked(s, id)
    {
      LentRowLocked(s, w, bare, id);
    }
  }

  lemma LentUnlocked(s: State, w: Worker, bare: set<int>, v: Worker)
    requires v in s.claims
    ensures Unlocked(s, s.claims[v]) == Unlocked(Lent(s, w, bare), Lent(s, w, bare).claims[v])
  {
    forall id: nat
      ensures RowLocked(s, id) <==> RowLocked(Lent(s, w, bare), id)
    {
      LentRowLocked(s, w, bare, id);
    }
  }

  /** Another claim's SELECT is covered by the locks it has not lent. */
  lemma LentSelect(s: State, w: Worker, bare: set<int>, v: Worker, picked: seq<nat>)
    requires v != w && Enabled(s, Select(v, picked)) && Covered(s, Select(v, picked)) && Harmless(s.claims[v], bare)
    ensures Enabled(Lent(s, w, bare), Select(v, picked)) && Covered(Lent(s, w, bare), Select(v, picked))
    ensures Next(Lent(s, w, bare), Select(v, picked)) == Lent(Next(s, Select(v, picked)), w, bare)
  {
    LentUnlocked(s, w, bare, v);
    forall r | r in picked && r in s.jobs && s.jobs[r].kind.Transcode? && s.jobs[r].entry.Some?
      ensures s.jobs[r].entry.value in s.claims[v].held && s.jobs[r].entry.value !in bare
    {
      assert r in Unlocked(s, s.claims[v]);
      var e := s.jobs[r].entry.value;
      assert Eligible(s.jobs, s.claims[v].start, s.claims[v].exclude, r);
      assert |picked| > 0 && s.claims[v].n > 0;
      assert Transcode !in s.claims[v].exclude;
      assert e in s.claims[v].held;
    }
    if picked == [] {
      LentGone(s, w, bare, v);
    } else {
      LentSet(s, w, bare, v, s.claims[v].(phase := Selected(picked)));
    }
  }

  /** The claim is the same but for further locks and what it still waits for. */
  ghost predicate SameButLocks(c: ClaimInterleaving.Claim, d: ClaimInterleaving.Claim) {
    c.held <= d.held && (c.phase == d.phase || (c.phase.Locking? && d.phase.Locking?))
  }

  lemma StillGuarded(s: State, t: State, v: Worker)
    requires Inv(s) && t.jobs == s.jobs && v in s.claims && v in t.claims && SameButLocks(s.claims[v], t.claims[v])
    ensures Thinned(t, t.claims[v])
    ensures forall r :: r in RowsOf(t.claims[v]) ==> Guarded(t, t.claims[v], r)
  {
    assert Thinned(s, s.claims[v]);
    forall r | r in RowsOf(t.claims[v])
      ensures Guarded(t, t.claims[v], r)
    {
      assert Guarded(s, s.claims[v], r);
    }
  }

  /** More locks do no harm, as long as no two claims hold one. */
  lemma MoreHeld(s: State, t: State)
    requires Inv(s) && t.jobs == s.jobs && HeldApart(t)
    requires forall v :: v in t.claims ==> v in s.claims && SameButLocks(s.claims[v], t.claims[v])
    ensures Inv(t)
  {
    forall v | v in t.claims
      ensures Thinned(t, t.claims[v]) && RowsOf(t.claims[v]) == RowsOf(s.claims[v])
      ensures forall r :: r in RowsOf(t.claims[v]) ==> Guarded(t, t.claims[v], r)
    {
      StillGuarded(s, t, v);
    }
  }

  lemma LentApart(s: State, w: Worker, bare: set<int>)
    requires HeldApart(s)
    ensures HeldApart(Lent(s, w, bare))
  {
  }

  lemma LentLock(s: State, w: Worker, bare: set<int>, v: Worker)
    requires Inv(Lent(s, w, bare)) && HeldApart(s) && Enabled(s, Lock(v))
    ensures Inv(Lent(Next(s, Lock(v)), w, bare))
  {
    HeldStaysApart(s, Lock(v));
    LentApart(Next(s, Lock(v)), w, bare);
    MoreHeld(Lent(s, w, bare), Lent(Next(s, Lock(v)), w, bare));
  }

  /** While `w` is in flight with the uncovered entries `bare`, every other claim is hindered or harmless. */
  ghost predicate Guards(s: State, w: Worker, rows: seq<nat>, pin: nat, e: int, bare: set<int>) {
    && Keeps(s, w, rows, pin, e) && HeldApart(s)
    && (forall v :: v in s.claims && v != w ==> Hindered(s, w, v) || Harmless(s.claims[v], bare))
    && Inv(Lent(s, w, bare))
  }

  lemma GuardsInv(s: State, w: Worker, rows: seq<nat>, pin: nat, e: int, bare: set<int>, op: Op)
    requires Guards(s, w, rows, pin, e, bare) && Enabled(s, op) && Covered(s, op) && !Ends(op, w)
    ensures Inv(Lent(Next(s, op), w, bare))
  {
    var t := Lent(s, w, bare);
    match op
    case Lock(v) => LentLock(s, w, bare, v);
    case Select(v, picked) =>
      assert !Hindered(s, w, v);
      LentSelect(s, w, bare, v, picked);
      SelectInv(t, v, picked);
    case Other(jobs) =>
      LentOther(s, w, bare, jobs);
      OtherInv(t, jobs);
    case _ =>
      LentStep(s, w, bare, op);
      StepInv(t, op);
  }

  lemma GuardsHindered(s: State, w: Worker, rows: seq<nat>, pin: nat, e: int, bare: set<int>, op: Op, v: Worker)
    requires Guards(s, w, rows, pin, e, bare) && Enabled(s, op) && !Ends(op, w)
    requires v in Next(s, op).claims && v != w
    ensures w in Next(s, op).claims && (Hindered(Next(s, op), w, v) || Harmless(Next(s, op).claims[v], bare))
  {
    if op.Begin? && v == op.w {
      NewcomersAreHindered(s, w, rows, pin, e, op);
    } else if Hindered(s, w, v) {
      StaysHindered(s, w, v, op);
    } else {
      HarmlessStays(s, v, op, bare);
    }
  }

  lemma HarmlessStays(s: State, v: Worker, op: Op, bare: set<int>)
    requires v in s.claims && Harmless(s.claims[v], bare) && Enabled(s, op) && v in Next(s, op).claims
    ensures Harmless(Next(s, op).claims[v], bare)
  {
    if op == Lock(v) {
      var todo := s.claims[v].phase.todo;
      assert forall e :: e in todo[1..] ==> e in todo;
    }
  }

  lemma FlightGoesOn(s: State, w: Worker, op: Op)
    requires w in s.claims && !s.claims[w].phase.Locking? && Enabled(s, op) && !Ends(op, w)
    ensures var t := Next(s, op);
      && w in t.claims && !t.claims[w].phase.Locking?
      && RowsOf(t.claims[w]) == RowsOf(s.claims[w]) && t.claims[w].held == s.claims[w].held
  {
  }

  /** A locked row keeps what it is about and when it is due. */
  lemma LockedRow(s: State, w: Worker, r: nat, op: Op)
    requires w in s.claims && r in RowsOf(s.claims[w]) && r in s.jobs && Enabled(s, op)
    ensures var t := Next(s, op).jobs;
      r in t && t[r].kind == s.jobs[r].kind && t[r].entry == s.jobs[r].entry && t[r].runAt == s.jobs[r].runAt
    ensures !op.Commit? ==> Next(s, op).jobs[r] == s.jobs[r]
  {
    assert RowLocked(s, r);
  }

  lemma KeepsOn(s: State, w: Worker, rows: seq<nat>, pin: nat, e: int, op: Op)
    requires Keeps(s, w, rows, pin, e) && Enabled(s, op) && !Ends(op, w)
    requires pin in Next(s, op).jobs && Next(s, op).jobs[pin].status.Queued?
    ensures Keeps(Next(s, op), w, rows, pin, e)
  {
    FlightGoesOn(s, w, op);
    LockedRow(s, w, pin, op);
  }

  lemma GuardsStep(s: State, w: Worker, rows: seq<nat>, pin: nat, e: int, bare: set<int>, op: Op)
    requires Guards(s, w, rows, pin, e, bare) && Enabled(s, op) && Covered(s, op) && !Ends(op, w)
    ensures Guards(Next(s, op), w, rows, pin, e, bare)
  {
    GuardsInv(s, w, rows, pin, e, bare, op);
    FlightGoesOn(s, w, op);
    assert pin in RowsOf(Lent(Next(s, op), w, bare).claims[w]);
    KeepsOn(s, w, rows, pin, e, op);
    HeldStaysApart(s, op);
    forall v | v in Next(s, op).claims && v != w
      ensures Hindered(Next(s, op), w, v) || Harmless(Next(s, op).claims[v], bare)
    {
      GuardsHindered(s, w, rows, pin, e, bare, op, v);
    }
  }

  /** When `w` ends, the others take their locks back. */
  lemma GuardsEnd(s: State, w: Worker, rows: seq<nat>, pin: nat, e: int, bare: set<int>, op: Op)
    requires Guards(s, w, rows, pin, e, bare) && Enabled(s, op) && Ends(op, w)
    ensures Inv(Next(s, op))
  {
    var lent := Lent(s, w, bare);
    StepInv(lent, op);
    HeldStaysApart(s, op);
    var t := Next(s, op);
    forall v | v in t.claims
      ensures v in Next(lent, op).claims && SameButLocks(Next(lent, op).claims[v], t.claims[v])
    {
    }
    MoreHeld(Next(lent, op), t);
  }

  /** A pinned claim that nobody can intrude on is never joined by a second transcode of an entry it has selected. */
  lemma {:induction false} GuardedRuns(s: State, w: Worker, rows: seq<nat>, pin: nat, e: int, bare: set<int>, ops: seq<Op>)
    requires Guards(s, w, rows, pin, e, bare) && Run(s, ops) && AlwaysCovered(s, ops)
    ensures OnePerEntry(After(s, ops).jobs)
    decreases |ops|
  {
    if ops != [] {
      if Ends(ops[0], w) {
        GuardsEnd(s, w, rows, pin, e, bare, ops[0]);
        OneTranscodePerEntry(Next(s, ops[0]), ops[1..]);
      } else {
        GuardsStep(s, w, rows, pin, e, bare, ops[0]);
        GuardedRuns(Next(s, ops[0]), w, rows, pin, e, bare, ops[1..]);
      }
    }
  }

  /* ---- Downloads ---- */

  /** Claim `c` selects no download. */
  predicate Silent(c: ClaimInterleaving.Claim) {
    c.n == 0 || Download in c.exclude
  }

  /** What a claim in flight knows of its rows, whether or not it has overtaken a download. */
  ghost predicate Parked(t: Table, c: ClaimInterleaving.Claim) {
    && (forall r :: r in RowsOf(c) ==> r in t && t[r].status.Queued?)
    && (c.phase.Updated? ==> forall id :: id in c.phase.ids ==> id in c.phase.rows)
  }

  /** At most one of the rows is a download, and if one is, no download runs. */
  ghost predicate LoneDownload(t: Table, rows: seq<nat>) {
    && (forall a, b :: a in rows && b in rows && a in t && b in t && t[a].kind.Download? && t[b].kind.Download? ==> a == b)
    && (forall r, k :: r in rows && r in t && t[r].kind.Download? && k in t && t[k].kind.Download? ==> !t[k].status.Running?)
  }

  ghost predicate RowsApart(s: State) {
    forall v, w, r :: v in s.claims && w in s.claims && r in RowsOf(s.claims[v]) && r in RowsOf(s.claims[w]) ==> v == w
  }

  /** No other claim has selected a download. */
  ghost predicate NoOtherDownload(s: State, w: Worker) {
    forall v, r :: v in s.claims && v != w && r in RowsOf(s.claims[v]) && r in s.jobs ==> !s.jobs[r].kind.Download?
  }

  /** While `w` is in flight, every other claim is hindered or selects no download. */
  ghost predicate GuardsDownload(s: State, w: Worker, rows: seq<nat>, pin: nat, e: int) {
    && Keeps(s, w, rows, pin, e) && OneDownload(s.jobs) && LoneDownload(s.jobs, rows)
    && RowsApart(s) && NoOtherDownload(s, w)
    && (forall v :: v in s.claims ==> Parked(s.jobs, s.claims[v]))
    && (forall v :: v in s.claims && v != w ==> Hindered(s, w, v) || Silent(s.claims[v]))
  }

  lemma SelectApart(s: State, v: Worker, picked: seq<nat>)
    requires Enabled(s, Select(v, picked)) && RowsApart(s)
    ensures RowsApart(Next(s, Select(v, picked)))
    ensures forall r :: r in picked ==> r in s.jobs && Eligible(s.jobs, s.claims[v].start, s.claims[v].exclude, r)
  {
    forall r | r in picked
      ensures r in s.jobs && Eligible(s.jobs, s.claims[v].start, s.claims[v].exclude, r) && !RowLocked(s, r)
    {
      assert r in Unlocked(s, s.claims[v]);
    }
  }

  lemma ApartStep(s: State, op: Op)
    requires RowsApart(s) && Enabled(s, op)
    ensures RowsApart(Next(s, op))
  {
    if op.Select? {
      SelectApart(s, op.w, op.rows);
    } else {
      var t := Next(s, op);
      assert forall v :: v in t.claims && RowsOf(t.claims[v]) != [] ==> v in s.claims && RowsOf(t.claims[v]) == RowsOf(s.claims[v]);
    }
  }

  /** The rows of a claim in flight stay parked, whoever moves. */
  lemma ParkedStep(s: State, op: Op, v: Worker)
    requires RowsApart(s) && Enabled(s, op) && v in Next(s, op).claims
    requires forall u :: u in s.claims ==> Parked(s.jobs, s.claims[u])
    ensures Parked(Next(s, op).jobs, Next(s, op).claims[v])
  {
    match op
    case Select(u, picked) => if u == v { SelectApart(s, u, picked); } else { assert Parked(s.jobs, s.claims[v]); }
    case Update(u) =>
      assert Parked(s.jobs, s.claims[v]);
      if u == v { ThinIsThinned(s, Next(s, op).claims[v], s.claims[v].phase.rows); }
    case Commit(u) => assert Parked(s.jobs, s.claims[v]) && Parked(s.jobs, s.claims[u]);
    case Other(t) =>
      assert Parked(s.jobs, s.claims[v]);
      forall r | r in RowsOf(s.claims[v])
        ensures r in t && t[r] == s.jobs[r]
      {
        LockedRow(s, v, r, op);
      }
    case Begin(u, _, _, _) => if u != v { assert Parked(s.jobs, s.claims[v]); }
    case _ => assert Parked(s.jobs, s.claims[v]);
  }

  /** Statements of others leave the selected rows as they are and start nothing. */
  lemma OtherDownloadsStay(s: State, w: Worker, t: Table)
    requires w in s.claims && OneDownload(s.jobs) && LoneDownload(s.jobs, RowsOf(s.claims[w])) && NoOtherDownload(s, w)
    requires Enabled(s, Other(t)) && forall v :: v in s.claims ==> Parked(s.jobs, s.claims[v])
    ensures OneDownload(t) && LoneDownload(t, RowsOf(s.claims[w])) && NoOtherDownload(Next(s, Other(t)), w)
  {
    StillExclusive(s.jobs, t);
    forall v, r | v in s.claims && r in RowsOf(s.claims[v])
      ensures r in s.jobs && r in t && t[r] == s.jobs[r]
    {
      assert Parked(s.jobs, s.claims[v]);
      LockedRow(s, v, r, Other(t));
    }
  }

  lemma CommitsNoDownload(s: State, w: Worker, v: Worker)
    requires w in s.claims && v != w && NoOtherDownload(s, w) && Enabled(s, Commit(v)) && Parked(s.jobs, s.claims[v])
    ensures var t := Next(s, Commit(v)).jobs;
      && t.Keys == s.jobs.Keys
      && forall k :: k in t ==> t[k].kind == s.jobs[k].kind && (t[k].kind.Download? ==> t[k] == s.jobs[k])
  {
  }

  /** No claim but `w` starts or selects a download. */
  lemma DownloadsStay(s: State, w: Worker, rows: seq<nat>, pin: nat, e: int, op: Op)
    requires GuardsDownload(s, w, rows, pin, e) && Enabled(s, op) && !Ends(op, w)
    ensures OneDownload(Next(s, op).jobs) && LoneDownload(Next(s, op).jobs, rows) && NoOtherDownload(Next(s, op), w)
  {
    match op
    case Select(v, picked) =>
      SelectApart(s, v, picked);
      assert !Hindered(s, w, v);
    case Commit(v) => CommitsNoDownload(s, w, v);
    case Other(t) => OtherDownloadsStay(s, w, t);
    case _ =>
  }

  lemma GuardsDownloadStep(s: State, w: Worker, rows: seq<nat>, pin: nat, e: int, op: Op)
    requires GuardsDownload(s, w, rows, pin, e) && Enabled(s, op) && !Ends(op, w)
    ensures GuardsDownload(Next(s, op), w, rows, pin, e)
  {
    var t := Next(s, op);
    ApartStep(s, op);
    DownloadsStay(s, w, rows, pin, e, op);
    FlightGoesOn(s, w, op);
    forall v | v in t.claims
      ensures Parked(t.jobs, t.claims[v])
    {
      ParkedStep(s, op, v);
    }
    assert Parked(t.jobs, t.claims[w]);
    KeepsOn(s, w, rows, pin, e, op);
    forall v | v in t.claims && v != w
      ensures Hindered(t, w, v) || Silent(t.claims[v])
    {
      if op.Begin? && v == op.w {
        NewcomersAreHindered(s, w, rows, pin, e, op);
      } else if Hindered(s, w, v) {
        StaysHindered(s, w, v, op);
      }
    }
  }

  lemma GuardsDownloadEnd(s: State, w: Worker, rows: seq<nat>, pin: nat, e: int, op: Op)
    requires GuardsDownload(s, w, rows, pin, e) && Enabled(s, op) && Ends(op, w)
    ensures DownloadInv(Next(s, op))
  {
    var t := Next(s, op);
    ApartStep(s, op);
    assert Parked(s.jobs, s.claims[w]);
    forall v | v in t.claims
      ensures Parked(t.jobs, t.claims[v])
    {
      ParkedStep(s, op, v);
    }
  }

  /** A pinned claim whose company selects no download runs its own download alone, overtaken or not. */
  lemma {:induction false} GuardedDownloads(s: State, w: Worker, rows: seq<nat>, pin: nat, e: int, ops: seq<Op>)
    requires GuardsDownload(s, w, rows, pin, e) && Run(s, ops) && NeverOvertaken(s, ops)
    ensures OneDownload(After(s, ops).jobs)
    decreases |ops|
  {
    if ops != [] {
      if Ends(ops[0], w) {
        GuardsDownloadEnd(s, w, rows, pin, e, ops[0]);
        OneDownloadRuns(Next(s, ops[0]), ops[1..]);
      } else {
        GuardsDownloadStep(s, w, rows, pin, e, ops[0]);
        GuardedDownloads(Next(s, ops[0]), w, rows, pin, e, ops[1..]);
      }
    }
  }

  /* ---- The exact conditions ---- */

  /** Claim `w` has just selected its rows, and the other claims, any number of them, are still at their locks. */
  ghost predicate FirstToSelect(s: State, w: Worker) {
    && Picked(s, w) && OthersLocking(s, w) && HeldApart(s) && Ordered(s)
    && RowsOk(s.jobs) && OnePerEntry(s.jobs) && OneDownload(s.jobs)
  }

  /** When no claim has selected anything, the first to select is in such a state. */
  lemma SelectIsFirst(s: State, w: Worker, rows: seq<nat>)
    requires Enabled(s, Select(w, rows)) && rows != [] && s.claims[w].start <= s.now
    requires Inv(s) && DownloadInv(s) && Ordered(s) && forall v :: v in s.claims ==> s.claims[v].phase.Locking?
    ensures FirstToSelect(Next(s, Select(w, rows)), w)
  {
    SelectPicks(s, w, rows);
    HeldStaysApart(s, Select(w, rows));
    StepOrdered(s, Select(w, rows));
  }

  lemma PinnedGuards(s: State, w: Worker, pin: nat)
    requires FirstToSelect(s, w) && forall v :: !Intruder(s, w, v)
    requires pin in s.claims[w].phase.rows && IsTranscode(s.jobs[pin]) && s.jobs[pin].entry.value in s.claims[w].held
    ensures Guards(s, w, s.claims[w].phase.rows, pin, s.jobs[pin].entry.value, Bare(s, w))
  {
    var bare := Bare(s, w);
    var t := Lent(s, w, bare);
    LentApart(s, w, bare);
    forall v, r | v in t.claims && r in RowsOf(t.claims[v])
      ensures v == w && Guarded(t, t.claims[v], r)
    {
      assert IsTranscode(s.jobs[r]) ==> s.jobs[r].entry.value in s.claims[w].held + bare;
    }
    forall v | v in s.claims && v != w
      ensures Hindered(s, w, v) || Harmless(s.claims[v], bare)
    {
      assert !Intruder(s, w, v);
    }
  }

  /** The transcodes `w` has selected are safe: it has selected none, or it holds the lock of one of them, which keeps
      newcomers out, and no claim that is at its locks already can take a row of an entry `w` has not locked. */
  ghost predicate TranscodesGuarded(s: State, w: Worker)
    requires Picked(s, w)
  {
    !HasTranscode(s, w) || (Pinned(s, w) && forall v :: !Intruder(s, w, v))
  }

  /** Everything that can follow a selection keeps one running transcode per entry, as long as the selections still
      to come are covered by locks, exactly when the transcodes of the claim are guarded. */
  lemma TranscodesSafeExactly(s: State, w: Worker)
    requires FirstToSelect(s, w)
    ensures (forall ops :: Run(s, ops) && AlwaysCovered(s, ops) ==> OnePerEntry(After(s, ops).jobs))
      <==> TranscodesGuarded(s, w)
  {
    var rows := s.claims[w].phase.rows;
    if !HasTranscode(s, w) {
      UntouchedInv(s, w);
      forall ops | Run(s, ops) && AlwaysCovered(s, ops)
        ensures OnePerEntry(After(s, ops).jobs)
      {
        OneTranscodePerEntry(s, ops);
      }
    } else if !Pinned(s, w) {
      var ops := UncoveredRunsTwice(s, w);
    } else if v :| Intruder(s, w, v) {
      var ops := IntruderRunsTwice(s, w, v);
    } else {
      var pin :| pin in rows && IsTranscode(s.jobs[pin]) && s.jobs[pin].entry.value in s.claims[w].held;
      PinnedGuards(s, w, pin);
      forall ops | Run(s, ops) && AlwaysCovered(s, ops)
        ensures OnePerEntry(After(s, ops).jobs)
      {
        GuardedRuns(s, w, rows, pin, s.jobs[pin].entry.value, Bare(s, w), ops);
      }
    }
  }

  lemma UntouchedInv(s: State, w: Worker)
    requires FirstToSelect(s, w) && !HasTranscode(s, w)
    ensures Inv(s)
  {
    forall r | r in RowsOf(s.claims[w])
      ensures Guarded(s, s.claims[w], r)
    {
      assert !IsTranscode(s.jobs[r]);
    }
  }

  /** The download `w` has selected is safe: it is the first in the queue, or `w` holds the lock of a transcode it has
      selected, which keeps newcomers out, and no unhindered claim may select downloads. */
  ghost predicate DownloadGuarded(s: State, w: Worker)
    requires Picked(s, w)
  {
    || (forall r, q :: !Overtakes(s, w, r, q))
    || (Pinned(s, w) && forall v :: Unhindered(s, w, v) ==> Download in s.claims[v].exclude)
  }

  /** Everything that can follow a selection keeps one running download, as long as no lower download is re-queued
      meanwhile, exactly when the download of the claim is guarded. */
  lemma DownloadsSafeExactly(s: State, w: Worker)
    requires FirstToSelect(s, w)
    ensures (forall ops :: Run(s, ops) && NeverOvertaken(s, ops) ==> OneDownload(After(s, ops).jobs))
      <==> DownloadGuarded(s, w)
  {
    var rows := s.claims[w].phase.rows;
    if r, q :| Overtakes(s, w, r, q) {
      if !Pinned(s, w) {
        var ops := OvertakingRunsTwice(s, w, r, q);
      } else if v :| Unhindered(s, w, v) && Download !in s.claims[v].exclude {
        var ops := WaiterDownloadsToo(s, w, v, r, q);
      } else {
        var pin :| pin in rows && IsTranscode(s.jobs[pin]) && s.jobs[pin].entry.value in s.claims[w].held;
        assert GuardsDownload(s, w, rows, pin, s.jobs[pin].entry.value) by { PinnedGuardsDownload(s, w, pin); }
        forall ops | Run(s, ops) && NeverOvertaken(s, ops)
          ensures OneDownload(After(s, ops).jobs)
        {
          GuardedDownloads(s, w, rows, pin, s.jobs[pin].entry.value, ops);
        }
      }
    } else {
      FirstInLine(s, w);
      forall ops | Run(s, ops) && NeverOvertaken(s, ops)
        ensures OneDownload(After(s, ops).jobs)
      {
        OneDownloadRuns(s, ops);
      }
    }
  }

  lemma PinnedGuardsDownload(s: State, w: Worker, pin: nat)
    requires FirstToSelect(s, w) && forall v :: Unhindered(s, w, v) ==> Download in s.claims[v].exclude
    requires pin in s.claims[w].phase.rows && IsTranscode(s.jobs[pin]) && s.jobs[pin].entry.value in s.claims[w].held
    ensures GuardsDownload(s, w, s.claims[w].phase.rows, pin, s.jobs[pin].entry.value)
  {
    var rows := s.claims[w].phase.rows;
    forall r, k | r in rows && s.jobs[r].kind.Download? && k in s.jobs && s.jobs[k].kind.Download?
      ensures !s.jobs[k].status.Running?
    {
      if s.jobs[k].status.Running? { assert Excludes(s.jobs[r], s.jobs[k]); }
    }
    forall v | v in s.claims && v != w
      ensures Hindered(s, w, v) || Silent(s.claims[v])
    {
      if s.claims[v].n >= 1 && Download !in s.claims[v].exclude { assert !Unhindered(s, w, v); }
    }
  }

  lemma FirstInLine(s: State, w: Worker)
    requires FirstToSelect(s, w) && forall r, q :: !Overtakes(s, w, r, q)
    ensures DownloadInv(s)
  {
    forall r | r in RowsOf(s.claims[w])
      ensures Foremost(s.jobs, r)
    {
      if s.jobs[r].kind.Download? {
        forall k | k in s.jobs && s.jobs[k].kind.Download?
          ensures !s.jobs[k].status.Running? && (s.jobs[k].status.Queued? ==> r <= k)
        {
          assert !Overtakes(s, w, r, k);
          if s.jobs[k].status.Running? { assert Excludes(s.jobs[r], s.jobs[k]); }
        }
      }
    }
  }
}
