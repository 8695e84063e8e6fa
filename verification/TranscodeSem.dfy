/** The reference-counted semaphore per entry (internal/jobs/jobs.go:44, 55-58, 67-105).
    Each critical section and each channel operation is one step; any number of callers
    acquire, give up and release in any interleaving. */
module TranscodeSem {

  /** One `entrySem`: `full` says that its one-slot channel holds a token. */
  datatype Sem = Sem(full: bool, active: int)

  /** Where a caller of `acquireTranscodeSem` stands; `sem` is the object it picked up.
      Leaving means the channel operation (or the cancelled wait) is over but the counter
      has not been decremented yet. */
  datatype Place = Waiting | Holding | Leaving

  datatype Caller = Caller(entry: int, sem: nat, place: Place)

  /** `sems` are all semaphore objects ever made, `table` is `transcodeSems`. */
  datatype State = State(sems: seq<Sem>, table: map<int, nat>, callers: map<nat, Caller>)

  datatype Op =
    | Enter(p: nat, entry: int)
    | Take(p: nat)
    | GiveUp(p: nat)
    | Release(p: nat)
    | Leave(p: nat)

  predicate At(s: State, p: nat, place: Place) {
    p in s.callers && s.callers[p].place == place && s.callers[p].sem < |s.sems|
  }

  predicate Enabled(s: State, op: Op) {
    match op
    case Enter(p, entry) => p !in s.callers && (entry in s.table ==> s.table[entry] < |s.sems|)
    case Take(p) => At(s, p, Waiting) && !s.sems[s.callers[p].sem].full
    case GiveUp(p) => At(s, p, Waiting)
    case Release(p) => At(s, p, Holding)
    case Leave(p) => At(s, p, Leaving)
  }

  function Moved(s: State, p: nat, place: Place): map<nat, Caller>
    requires p in s.callers
  {
    s.callers[p := s.callers[p].(place := place)]
  }

  function Next(s: State, op: Op): State
    requires Enabled(s, op)
  {
    match op
    case Enter(p, entry) =>
      if entry in s.table then
        var k := s.table[entry];
        s.(sems := s.sems[k := s.sems[k].(active := s.sems[k].active + 1)],
           callers := s.callers[p := Caller(entry, k, Waiting)])
      else
        State(s.sems + [Sem(false, 1)], s.table[entry := |s.sems|], s.callers[p := Caller(entry, |s.sems|, Waiting)])
    case Take(p) =>
      var k := s.callers[p].sem;
      s.(sems := s.sems[k := s.sems[k].(full := true)], callers := Moved(s, p, Holding))
    case GiveUp(p) => s.(callers := Moved(s, p, Leaving))
    case Release(p) =>
      var k := s.callers[p].sem;
      s.(sems := s.sems[k := s.sems[k].(full := false)], callers := Moved(s, p, Leaving))
    case Leave(p) =>
      var c := s.callers[p];
      var left := s.sems[c.sem].active - 1;
      State(s.sems[c.sem := s.sems[c.sem].(active := left)],
            if left == 0 then s.table - {c.entry} else s.table,
            s.callers - {p})
  }

  ghost predicate Run(s: State, ops: seq<Op>)
    decreases |ops|
  {
    ops == [] || (Enabled(s, ops[0]) && Run(Next(s, ops[0]), ops[1..]))
  }

  ghost function After(s: State, ops: seq<Op>): State
    requires Run(s, ops)
    decreases |ops|
  {
    if ops == [] then s else After(Next(s, ops[0]), ops[1..])
  }

  function Init(): State {
    State([], map[], map[])
  }

  /* ---- The invariant ---- */

  ghost function Users(s: State, entry: int): set<nat> {
    set p | p in s.callers && s.callers[p].entry == entry
  }

  ghost predicate Holds(s: State, p: nat, entry: int) {
    p in s.callers && s.callers[p].entry == entry && s.callers[p].place == Holding
  }

  ghost predicate Held(s: State, entry: int) {
    exists p :: Holds(s, p, entry)
  }

  /** Waiters and holders of an entry all use the semaphore the table lists for it. */
  ghost predicate Shared(s: State) {
    forall p :: p in s.callers ==> s.callers[p].entry in s.table && s.table[s.callers[p].entry] == s.callers[p].sem
  }

  /** Every listed semaphore counts the callers of its entry, of whom there is at least one. */
  ghost predicate Counted(s: State) {
    forall e :: e in s.table ==>
      s.table[e] < |s.sems| && s.sems[s.table[e]].active == |Users(s, e)| && Users(s, e) != {}
  }

  ghost predicate Distinct(s: State) {
    forall d, e :: d in s.table && e in s.table && d != e ==> s.table[d] != s.table[e]
  }

  /** The channel of an entry holds a token exactly while somebody holds the entry. */
  ghost predicate Exclusive(s: State) {
    && (forall e :: e in s.table && s.table[e] < |s.sems| ==> (s.sems[s.table[e]].full <==> Held(s, e)))
    && (forall p, q, e :: Holds(s, p, e) && Holds(s, q, e) ==> p == q)
  }

  ghost predicate Inv(s: State) {
    Shared(s) && Counted(s) && Distinct(s) && Exclusive(s)
  }

  /** Entering adds the caller to its entry's users, leaving removes it; other moves change no users. */
  lemma UsersAfter(s: State, op: Op, e: int)
    requires Shared(s) && Enabled(s, op)
    ensures var joined := if op.Enter? && op.entry == e then {op.p} else {};
      var left := if op.Leave? && s.callers[op.p].entry == e then {op.p} else {};
      Users(Next(s, op), e) == Users(s, e) + joined - left
  {
  }

  lemma EnterInv(s: State, p: nat, entry: int)
    requires Inv(s) && Enabled(s, Enter(p, entry))
    ensures Inv(Next(s, Enter(p, entry)))
  {
    EnterCounted(s, p, entry);
    var s' := Next(s, Enter(p, entry));
    assert forall q, e :: Holds(s', q, e) <==> Holds(s, q, e);
    assert forall e :: Held(s', e) <==> Held(s, e);
    assert entry !in s.table ==> !Held(s, entry);
  }

  lemma EnterCounted(s: State, p: nat, entry: int)
    requires Inv(s) && Enabled(s, Enter(p, entry))
    ensures Shared(Next(s, Enter(p, entry))) && Counted(Next(s, Enter(p, entry))) && Distinct(Next(s, Enter(p, entry)))
  {
    var s' := Next(s, Enter(p, entry));
    forall e | e in s'.table
      ensures s'.table[e] < |s'.sems| && s'.sems[s'.table[e]].active == |Users(s', e)| && Users(s', e) != {}
    {
      EnterCountedAt(s, p, entry, e);
    }
  }

  lemma EnterCountedAt(s: State, p: nat, entry: int, e: int)
    requires Inv(s) && Enabled(s, Enter(p, entry)) && e in Next(s, Enter(p, entry)).table
    ensures var s' := Next(s, Enter(p, entry));
      s'.table[e] < |s'.sems| && s'.sems[s'.table[e]].active == |Users(s', e)| && Users(s', e) != {}
  {
    var s' := Next(s, Enter(p, entry));
    UsersAfter(s, Enter(p, entry), e);
    if e == entry {
      assert p !in Users(s, e);
      assert Users(s', e) == Users(s, e) + {p};
      assert |Users(s', e)| == |Users(s, e)| + 1;
      if entry !in s.table { assert Users(s, e) == {}; }
    } else {
      assert Users(s', e) == Users(s, e);
    }
  }

  lemma KeepsCounted(s: State, op: Op)
    requires Inv(s) && Enabled(s, op) && (op.Take? || op.GiveUp? || op.Release?)
    ensures Shared(Next(s, op)) && Counted(Next(s, op)) && Distinct(Next(s, op))
  {
    var s' := Next(s, op);
    forall e | e in s'.table
      ensures Users(s', e) == Users(s, e)
    {
      UsersAfter(s, op, e);
    }
  }

  lemma TakeInv(s: State, p: nat)
    requires Inv(s) && Enabled(s, Take(p))
    ensures Inv(Next(s, Take(p)))
  {
    KeepsCounted(s, Take(p));
    var s' := Next(s, Take(p));
    var c := s.callers[p];
    assert s.table[c.entry] == c.sem && !Held(s, c.entry);
    assert forall q, e :: Holds(s', q, e) <==> Holds(s, q, e) || (q == p && e == c.entry);
    assert Holds(s', p, c.entry);
    assert forall e :: Held(s', e) <==> Held(s, e) || e == c.entry;
  }

  lemma GiveUpInv(s: State, p: nat)
    requires Inv(s) && Enabled(s, GiveUp(p))
    ensures Inv(Next(s, GiveUp(p)))
  {
    KeepsCounted(s, GiveUp(p));
    var s' := Next(s, GiveUp(p));
    assert forall q, e :: Holds(s', q, e) <==> Holds(s, q, e);
    assert forall e :: Held(s', e) <==> Held(s, e);
  }

  lemma ReleaseInv(s: State, p: nat)
    requires Inv(s) && Enabled(s, Release(p))
    ensures Inv(Next(s, Release(p)))
  {
    KeepsCounted(s, Release(p));
    var s' := Next(s, Release(p));
    var c := s.callers[p];
    assert s.table[c.entry] == c.sem && Holds(s, p, c.entry);
    assert forall q, e :: Holds(s', q, e) <==> Holds(s, q, e) && q != p;
    assert forall e :: Held(s', e) <==> Held(s, e) && e != c.entry;
  }

  lemma LeaveInv(s: State, p: nat)
    requires Inv(s) && Enabled(s, Leave(p))
    ensures Inv(Next(s, Leave(p)))
  {
    LeaveCounted(s, p);
    var s' := Next(s, Leave(p));
    assert forall q, e :: Holds(s', q, e) <==> Holds(s, q, e);
    assert forall e :: Held(s', e) <==> Held(s, e);
  }

  lemma LeaveCounted(s: State, p: nat)
    requires Inv(s) && Enabled(s, Leave(p))
    ensures Shared(Next(s, Leave(p))) && Counted(Next(s, Leave(p))) && Distinct(Next(s, Leave(p)))
  {
    var s' := Next(s, Leave(p));
    var c := s.callers[p];
    assert s.table[c.entry] == c.sem && p in Users(s, c.entry);
    UsersAfter(s, Leave(p), c.entry);
    assert Users(s, c.entry) == Users(s', c.entry) + {p};
    forall q | q in s'.callers
      ensures s'.callers[q].entry in s'.table
    {
      if s'.callers[q].entry == c.entry { assert q in Users(s', c.entry); }
    }
    forall e | e in s'.table
      ensures s'.table[e] < |s'.sems| && s'.sems[s'.table[e]].active == |Users(s', e)| && Users(s', e) != {}
    {
      UsersAfter(s, Leave(p), e);
    }
  }

  lemma StepInv(s: State, op: Op)
    requires Inv(s) && Enabled(s, op)
    ensures Inv(Next(s, op))
  {
    match op {
      case Enter(p, entry) => EnterInv(s, p, entry);
      case Leave(p) => LeaveInv(s, p);
      case Take(p) => TakeInv(s, p);
      case GiveUp(p) => GiveUpInv(s, p);
      case Release(p) => ReleaseInv(s, p);
    }
  }

  lemma {:induction false} RunInv(s: State, ops: seq<Op>)
    requires Inv(s) && Run(s, ops)
    ensures Inv(After(s, ops))
    decreases |ops|
  {
    if ops != [] {
      StepInv(s, ops[0]);
      RunInv(Next(s, ops[0]), ops[1..]);
    }
  }

  /** Over every interleaving: two callers of one entry share one semaphore and do not both hold it,
      and its counter is the number of callers of the entry that have not left. */
  lemma MutualExclusion(ops: seq<Op>, p: nat, q: nat)
    requires Run(Init(), ops)
    requires p in After(Init(), ops).callers && q in After(Init(), ops).callers && p != q
    requires After(Init(), ops).callers[p].entry == After(Init(), ops).callers[q].entry
    ensures var s := After(Init(), ops);
      && s.callers[p].sem == s.callers[q].sem < |s.sems|
      && !(s.callers[p].place == Holding && s.callers[q].place == Holding)
      && s.sems[s.callers[p].sem].active == |Users(s, s.callers[p].entry)| >= 2
  {
    RunInv(Init(), ops);
    var s := After(Init(), ops);
    var pair := {p, q};
    var users := Users(s, s.callers[p].entry);
    assert pair <= users && users == pair + (users - pair);
    assert !(Holds(s, p, s.callers[p].entry) && Holds(s, q, s.callers[p].entry));
  }

  /** The table drops an entry exactly when nobody uses it any more, so it never grows past the
      entries in use. */
  lemma TableIsEntriesInUse(ops: seq<Op>, entry: int)
    requires Run(Init(), ops)
    ensures var s := After(Init(), ops); entry in s.table <==> Users(s, entry) != {}
  {
    RunInv(Init(), ops);
    var s := After(Init(), ops);
    if Users(s, entry) != {} {
      var p :| p in Users(s, entry);
      assert s.callers[p].entry in s.table;
    }
  }

  /** A waiter is never stuck behind an entry nobody holds: if caller `p` waits and no caller of its
      entry holds it, `p` can take it. */
  lemma WaiterCanTake(ops: seq<Op>, p: nat)
    requires Run(Init(), ops)
    requires p in After(Init(), ops).callers && After(Init(), ops).callers[p].place == Waiting
    ensures var s := After(Init(), ops);
      Enabled(s, Take(p)) <==> !Held(s, s.callers[p].entry)
  {
    RunInv(Init(), ops);
  }

  /** Leaving drops the entry from the table exactly if nobody else uses it. */
  lemma LeaveDropsLast(s: State, p: nat)
    requires Inv(s) && At(s, p, Leaving)
    ensures var entry := s.callers[p].entry;
      Next(s, Leave(p)).table == if Users(s, entry) == {p} then s.table - {entry} else s.table
  {
    var c := s.callers[p];
    assert s.table[c.entry] == c.sem && p in Users(s, c.entry);
    if Users(s, c.entry) == {p} {
      assert |Users(s, c.entry)| == 1;
    } else {
      assert Users(s, c.entry) == {p} + (Users(s, c.entry) - {p});
    }
  }

  /** A waiter whose context ends leaves at once, whoever holds the entry: it is gone, nobody else has moved, no token
      was taken or put back, and the table drops the entry exactly if it was the last user. */
  lemma CancelledWaiterLeaves(s: State, p: nat)
    requires Inv(s) && p in s.callers && s.callers[p].place == Waiting
    ensures Enabled(s, GiveUp(p)) && Enabled(Next(s, GiveUp(p)), Leave(p))
    ensures var t := Next(Next(s, GiveUp(p)), Leave(p));
      var entry := s.callers[p].entry;
      && t.callers == s.callers - {p} && |t.sems| == |s.sems|
      && (forall k :: 0 <= k < |s.sems| ==> t.sems[k].full == s.sems[k].full)
      && t.table == if Users(s, entry) == {p} then s.table - {entry} else s.table
  {
    var mid := Next(s, GiveUp(p));
    GiveUpInv(s, p);
    UsersAfter(s, GiveUp(p), s.callers[p].entry);
    LeaveDropsLast(mid, p);
    assert Next(mid, Leave(p)).callers == s.callers - {p};
  }

  /** Two callers of one entry, step by step: the first takes it, the second waits, gives up and goes, the first puts the
      token back and goes, and nothing is left in the table. */
  lemma TwoCallersComeAndGo(entry: int)
    ensures var come := [Enter(0, entry), Take(0), Enter(1, entry)];
      Run(Init(), come) && After(Init(), come) ==
        State([Sem(true, 2)], map[entry := 0], map[0 := Caller(entry, 0, Holding), 1 := Caller(entry, 0, Waiting)])
    ensures var s := State([Sem(true, 2)], map[entry := 0],
                           map[0 := Caller(entry, 0, Holding), 1 := Caller(entry, 0, Waiting)]);
      var go := [GiveUp(1), Leave(1), Release(0), Leave(0)];
      Run(s, go) && After(s, go) == State([Sem(false, 0)], map[], map[])
  {
    Come(entry);
    Go(entry);
  }

  lemma Onward(s: State, op: Op, next: State, rest: seq<Op>)
    requires Enabled(s, op) && Next(s, op) == next && Run(next, rest)
    ensures Run(s, [op] + rest) && After(s, [op] + rest) == After(next, rest)
  {
    assert ([op] + rest)[1..] == rest;
  }

  lemma Come(entry: int)
    ensures var come := [Enter(0, entry), Take(0), Enter(1, entry)];
      Run(Init(), come) && After(Init(), come) ==
        State([Sem(true, 2)], map[entry := 0], map[0 := Caller(entry, 0, Holding), 1 := Caller(entry, 0, Waiting)])
  {
    var a, b, c := Enter(0, entry), Take(0), Enter(1, entry);
    var s1 := State([Sem(false, 1)], map[entry := 0], map[0 := Caller(entry, 0, Waiting)]);
    var s2 := State([Sem(true, 1)], map[entry := 0], map[0 := Caller(entry, 0, Holding)]);
    var s3 := State([Sem(true, 2)], map[entry := 0], map[0 := Caller(entry, 0, Holding), 1 := Caller(entry, 0, Waiting)]);
    Onward(s2, c, s3, []);
    Onward(s1, b, s2, [c] + []);
    Onward(Init(), a, s1, [b] + ([c] + []));
    assert [a] + ([b] + ([c] + [])) == [a, b, c];
  }

  lemma Go(entry: int)
    ensures var s := State([Sem(true, 2)], map[entry := 0],
                           map[0 := Caller(entry, 0, Holding), 1 := Caller(entry, 0, Waiting)]);
      var go := [GiveUp(1), Leave(1), Release(0), Leave(0)];
      Run(s, go) && After(s, go) == State([Sem(false, 0)], map[], map[])
  {
    var s := State([Sem(true, 2)], map[entry := 0], map[0 := Caller(entry, 0, Holding), 1 := Caller(entry, 0, Waiting)]);
    var s1 := State([Sem(true, 2)], map[entry := 0], map[0 := Caller(entry, 0, Holding), 1 := Caller(entry, 0, Leaving)]);
    var s2 := State([Sem(true, 1)], map[entry := 0], map[0 := Caller(entry, 0, Holding)]);
    var s3 := State([Sem(false, 1)], map[entry := 0], map[0 := Caller(entry, 0, Leaving)]);
    var s4 := State([Sem(false, 0)], map[], map[]);
    var a, b, c, d := GiveUp(1), Leave(1), Release(0), Leave(0);
    Onward(s3, d, s4, []);
    Onward(s2, c, s3, [d] + []);
    Onward(s1, b, s2, [c] + ([d] + []));
    Onward(s, a, s1, [b] + ([c] + ([d] + [])));
    assert [a] + ([b] + ([c] + ([d] + []))) == [a, b, c, d];
  }

  /** A release lets the next waiter of the entry in at once, before the releaser has left. */
  lemma ReleaseAdmitsNext(ops: seq<Op>, p: nat, q: nat)
    requires Run(Init(), ops)
    requires p in After(Init(), ops).callers && After(Init(), ops).callers[p].place == Holding
    requires q in After(Init(), ops).callers && After(Init(), ops).callers[q].place == Waiting
    requires After(Init(), ops).callers[q].entry == After(Init(), ops).callers[p].entry
    ensures var s := After(Init(), ops);
      && !Enabled(s, Take(q)) && Enabled(s, Release(p)) && Enabled(Next(s, Release(p)), Take(q))
      && Next(Next(s, Release(p)), Take(q)).callers[q].place == Holding
      && Next(Next(s, Release(p)), Take(q)).callers[p].place == Leaving
  {
    RunInv(Init(), ops);
    var s := After(Init(), ops);
    assert Holds(s, p, s.callers[p].entry);
  }

  /** The runner's fields. A semaphore object is named by its index in `sems`. */
  class Runner {
    var sems: seq<Sem>
    var transcodeSems: map<int, nat>
    ghost var callers: map<nat, Caller>

    ghost function View(): State
      reads this
    {
      State(sems, transcodeSems, callers)
    }

    constructor ()
      ensures View() == Init()
    {
      sems, transcodeSems, callers := [], map[], map[];
    }

    /** The first critical section of `acquireTranscodeSem`. */
    method Lookup(ghost p: nat, entry: int) returns (k: nat)
      requires Inv(View()) && p !in callers
      modifies this
      ensures Inv(View()) && View() == Next(old(View()), Enter(p, entry))
      ensures k < |sems| && transcodeSems[entry] == k
    {
      ghost var before := View();
      EnterInv(before, p, entry);
      if entry in transcodeSems {
        k := transcodeSems[entry];
        sems := sems[k := sems[k].(active := sems[k].active + 1)];
      } else {
        k := |sems|;
        sems := sems + [Sem(false, 0)];
        transcodeSems := transcodeSems[entry := k];
        sems := sems[k := sems[k].(active := sems[k].active + 1)];
      }
      callers := callers[p := Caller(entry, k, Waiting)];
      assert sems == Next(before, Enter(p, entry)).sems;
    }

    /** The channel send; refused while the slot is full. */
    method TrySend(ghost p: nat, k: nat) returns (sent: bool)
      requires Inv(View()) && At(View(), p, Waiting) && callers[p].sem == k
      modifies this
      ensures Inv(View())
      ensures sent == old(Enabled(View(), Take(p)))
      ensures View() == if sent then Next(old(View()), Take(p)) else old(View())
    {
      sent := !sems[k].full;
      if sent {
        TakeInv(View(), p);
        sems := sems[k := sems[k].(full := true)];
        callers := Moved(View(), p, Holding);
      }
    }

    /** The channel receive at the start of `release`. */
    method Receive(ghost p: nat, k: nat)
      requires Inv(View()) && At(View(), p, Holding) && callers[p].sem == k
      modifies this
      ensures Inv(View()) && View() == Next(old(View()), Release(p))
    {
      ReleaseInv(View(), p);
      sems := sems[k := sems[k].(full := false)];
      callers := Moved(View(), p, Leaving);
    }

    /** The last critical section, of `release` and of a cancelled wait. */
    method Drop(ghost p: nat, entry: int, k: nat)
      requires Inv(View()) && At(View(), p, Leaving) && callers[p] == Caller(entry, k, Leaving)
      modifies this
      ensures Inv(View()) && View() == Next(old(View()), Leave(p))
    {
      LeaveInv(View(), p);
      sems := sems[k := sems[k].(active := sems[k].active - 1)];
      if sems[k].active == 0 {
        transcodeSems := transcodeSems - {entry};
      }
      callers := callers - {p};
    }
  }
}
