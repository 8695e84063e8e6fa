/** The per-account login lockout (internal/api/auth.go). Accounts are case-folded addresses and times are
    nanoseconds; one attempt is a check followed, when it passes, by its outcome. */
module LoginGuard {
  type Account = string

  type Time = int

  const MaxFailures: int := 5

  const Second: Time := 1_000_000_000

  const Lockout: Time := 600 * Second

  const PruneAt: nat := 10_000

  datatype Guard = Guard(failures: map<Account, int>, lockedAt: map<Account, Time>)

  const Empty := Guard(map[], map[])

  /** How an attempt that passed the check ends: a wrong password or unknown account, a login, or something
      the guard is not told about (disabled account, database error). */
  datatype Outcome = Wrong | Right | Neither

  datatype Attempt = Attempt(account: Account, at: Time, outcome: Outcome)

  predicate Expired(g: Guard, k: Account, now: Time) {
    k in g.lockedAt && now - g.lockedAt[k] >= Lockout
  }

  predicate IsLocked(g: Guard, k: Account, now: Time) {
    k in g.lockedAt && now - g.lockedAt[k] < Lockout
  }

  function Pruned(g: Guard, now: Time): Guard {
    if |g.failures| + |g.lockedAt| < PruneAt then g
    else Guard(map k | k in g.failures && g.failures[k] > 0 && !Expired(g, k, now) :: g.failures[k],
               map k | k in g.lockedAt && !Expired(g, k, now) :: g.lockedAt[k])
  }

  function Cleared(g: Guard, k: Account): Guard {
    Guard(g.failures - {k}, g.lockedAt - {k})
  }

  function Checked(g: Guard, k: Account, now: Time): Guard {
    if Expired(g, k, now) then Cleared(g, k) else g
  }

  function Count(g: Guard, k: Account): int {
    if k in g.failures then g.failures[k] else 0
  }

  function Failed(g: Guard, k: Account, now: Time): Guard {
    var n := Count(g, k) + 1;
    if n >= MaxFailures then Guard(g.failures - {k}, g.lockedAt[k := now])
    else Guard(g.failures[k := n], g.lockedAt)
  }

  /** One login request, check and outcome taken as one step; `prunes` tells whether the guard ever prunes. */
  function Next(g: Guard, a: Attempt, prunes: bool): Guard {
    var g1 := if prunes then Pruned(g, a.at) else g;
    var g2 := Checked(g1, a.account, a.at);
    if IsLocked(g1, a.account, a.at) || a.outcome.Neither? then g2
    else if a.outcome.Right? then Cleared(g2, a.account)
    else Failed(if prunes then Pruned(g2, a.at) else g2, a.account, a.at)
  }

  predicate Refuses(g: Guard, a: Attempt, prunes: bool) {
    IsLocked(if prunes then Pruned(g, a.at) else g, a.account, a.at)
  }

  function After(run: seq<Attempt>, prunes: bool): Guard {
    if run == [] then Empty else Next(After(run[..|run|-1], prunes), run[|run|-1], prunes)
  }

  /** The times of the account's failed logins since its last successful one, oldest first. */
  function Failures(run: seq<Attempt>, k: Account): seq<Time> {
    if run == [] then []
    else
      var past, a := run[..|run|-1], run[|run|-1];
      if a.account != k || Refuses(After(past, true), a, true) || a.outcome.Neither? then Failures(past, k)
      else if a.outcome.Right? then []
      else Failures(past, k) + [a.at]
  }

  ghost predicate InOrder(run: seq<Attempt>) {
    forall i, j :: 0 <= i < j < |run| ==> run[i].at <= run[j].at
  }

  /** What the history of failures alone demands: locked after each complete group of five, for a lockout. */
  predicate MustRefuse(times: seq<Time>, now: Time) {
    times != [] && |times| % MaxFailures == 0 && now - times[|times|-1] < Lockout
  }

  /** How the guard remembers a list of failures, whether or not it has been pruned. */
  ghost predicate Remembers(g: Guard, k: Account, times: seq<Time>, now: Time) {
    if k in g.lockedAt then
      k !in g.failures && times != [] && |times| % MaxFailures == 0 && g.lockedAt[k] == times[|times|-1]
    else
      Count(g, k) == |times| % MaxFailures && !MustRefuse(times, now)
      && (k in g.failures ==> g.failures[k] > 0)
  }

  /** Failures come in groups of five with a full lockout before the next group starts. */
  ghost predicate Grouped(times: seq<Time>) {
    forall i :: 0 < i < |times| && i % MaxFailures == 0 ==> times[i] - times[i-1] >= Lockout
  }

  lemma PrunedRemembers(g: Guard, k: Account, times: seq<Time>, now: Time)
    requires Remembers(g, k, times, now)
    ensures Remembers(Pruned(g, now), k, times, now)
  {
  }

  lemma CheckedRemembers(g: Guard, k: Account, times: seq<Time>, now: Time)
    requires Remembers(g, k, times, now)
    ensures Remembers(Checked(g, k, now), k, times, now)
    ensures !IsLocked(g, k, now) ==> k !in Checked(g, k, now).lockedAt
    ensures IsLocked(g, k, now) <==> MustRefuse(times, now)
  {
  }

  lemma FailedRemembers(g: Guard, k: Account, times: seq<Time>, now: Time)
    requires Remembers(g, k, times, now) && k !in g.lockedAt
    ensures Remembers(Failed(g, k, now), k, times + [now], now)
  {
    assert (|times| + 1) % MaxFailures == if |times| % MaxFailures == 4 then 0 else |times| % MaxFailures + 1;
  }

  /** What is done for one account leaves what is remembered of another alone. */
  lemma OthersUntouched(g: Guard, other: Account, k: Account, times: seq<Time>, now: Time)
    requires Remembers(g, k, times, now) && other != k
    ensures Remembers(Checked(g, other, now), k, times, now)
    ensures Remembers(Cleared(g, other), k, times, now)
    ensures Remembers(Failed(g, other, now), k, times, now)
  {
  }

  lemma NextElsewhere(g: Guard, a: Attempt, k: Account, times: seq<Time>, prunes: bool)
    requires Remembers(g, k, times, a.at) && a.account != k
    ensures Remembers(Next(g, a, prunes), k, times, a.at)
  {
    PrunedRemembers(g, k, times, a.at);
    var g1 := if prunes then Pruned(g, a.at) else g;
    OthersUntouched(g1, a.account, k, times, a.at);
    var g2 := Checked(g1, a.account, a.at);
    if IsLocked(g1, a.account, a.at) || a.outcome.Neither? {
      assert Next(g, a, prunes) == g2;
    } else if a.outcome.Right? {
      OthersUntouched(g2, a.account, k, times, a.at);
    } else {
      PrunedRemembers(g2, k, times, a.at);
      var g3 := if prunes then Pruned(g2, a.at) else g2;
      OthersUntouched(g3, a.account, k, times, a.at);
      assert Next(g, a, prunes) == Failed(g3, a.account, a.at);
    }
  }

  lemma NextHere(g: Guard, a: Attempt, times: seq<Time>, prunes: bool)
    requires Remembers(g, a.account, times, a.at)
    ensures Refuses(g, a, prunes) <==> MustRefuse(times, a.at)
    ensures Remembers(Next(g, a, prunes), a.account,
      if MustRefuse(times, a.at) || a.outcome.Neither? then times else if a.outcome.Right? then [] else times + [a.at], a.at)
  {
    var k, now := a.account, a.at;
    var g1 := if prunes then Pruned(g, now) else g;
    PrunedRemembers(g, k, times, now);
    CheckedRemembers(g1, k, times, now);
    var g2 := Checked(g1, k, now);
    PrunedRemembers(g2, k, times, now);
    if !MustRefuse(times, now) && a.outcome.Wrong? {
      FailedRemembers(if prunes then Pruned(g2, now) else g2, k, times, now);
    }
  }

  lemma RemembersLater(g: Guard, k: Account, times: seq<Time>, now: Time, later: Time)
    requires Remembers(g, k, times, now) && now <= later
    ensures Remembers(g, k, times, later)
  {
  }

  /** In every reachable state, pruned or not, the guard remembers for every account exactly what the list of
      its failures since the last login demands. */
  lemma {:induction false} RunRemembers(run: seq<Attempt>, k: Account, now: Time, prunes: bool)
    requires InOrder(run) && forall i :: 0 <= i < |run| ==> run[i].at <= now
    ensures Remembers(After(run, prunes), k, Failures(run, k), now)
    ensures Grouped(Failures(run, k))
    decreases |run|
  {
    if run != [] {
      var n := |run| - 1;
      var past, a := run[..n], run[n];
      assert InOrder(past);
      RunRemembers(past, k, a.at, prunes);
      RunRemembers(past, k, a.at, true);
      if a.account == k {
        NextHere(After(past, prunes), a, Failures(past, k), prunes);
        NextHere(After(past, true), a, Failures(past, k), true);
      } else {
        NextElsewhere(After(past, prunes), a, k, Failures(past, k), prunes);
      }
      RemembersLater(After(run, prunes), k, Failures(run, k), a.at, now);
    }
  }

  /** The answer is exact: an attempt is refused if and only if the failures since the account's last login
      number a multiple of five and the latest of them is less than a lockout old. */
  lemma RefusesExactly(run: seq<Attempt>, a: Attempt, prunes: bool)
    requires InOrder(run + [a])
    ensures Refuses(After(run, prunes), a, prunes) <==> MustRefuse(Failures(run, a.account), a.at)
  {
    assert forall i :: 0 <= i < |run| ==> run[i] == (run + [a])[i];
    assert (run + [a])[|run|] == a;
    RunRemembers(run, a.account, a.at, prunes);
    NextHere(After(run, prunes), a, Failures(run, a.account), prunes);
  }

  /** Pruning is invisible: a guard that never prunes gives the same answers in every run. */
  lemma PruningIsInvisible(run: seq<Attempt>, a: Attempt)
    requires InOrder(run + [a])
    ensures Refuses(After(run, true), a, true) <==> Refuses(After(run, false), a, false)
  {
    RefusesExactly(run, a, true);
    RefusesExactly(run, a, false);
  }

  /** Six failed logins of one account with no success in between span at least a lockout, so no shorter
      window holds more than five. */
  lemma SixFailuresSpanLockout(run: seq<Attempt>, k: Account, i: nat)
    requires InOrder(run) && i + 5 < |Failures(run, k)|
    ensures Failures(run, k)[i + 5] - Failures(run, k)[i] >= 600 * Second
  {
    RunRemembers(run, k, run[|run|-1].at, true);
    FailuresRise(run, k);
    SixSpan(Failures(run, k), i);
  }

  lemma SixSpan(times: seq<Time>, i: nat)
    requires Grouped(times) && Rising(times) && i + 5 < |times|
    ensures times[i + 5] - times[i] >= Lockout
  {
    var m := i + (5 - i % 5);
    assert m % 5 == 0 && times[m] - times[m - 1] >= Lockout;
    assert times[i] <= times[m - 1] && times[m] <= times[i + 5];
  }

  ghost predicate Rising(times: seq<Time>) {
    forall i, j :: 0 <= i <= j < |times| ==> times[i] <= times[j]
  }

  lemma {:induction false} FailuresRise(run: seq<Attempt>, k: Account)
    requires InOrder(run)
    ensures Rising(Failures(run, k))
    ensures forall i :: 0 <= i < |Failures(run, k)| ==> run != [] && Failures(run, k)[i] <= run[|run|-1].at
  {
    if run != [] {
      var n := |run| - 1;
      assert forall i :: 0 <= i < n ==> run[..n][i] == run[i];
      FailuresRise(run[..n], k);
      if n > 0 { assert run[..n][n - 1].at <= run[n].at; }
    }
  }

  /* ---- The check and the failure as separate calls ---- */

  /** Steps as seen by account `k`: a check, a request that passed its check failing, logging in, or ending without
      telling the guard, and anything else: other accounts' calls and pruning. */
  datatype Step =
    | Check(at: Time)
    | Fail(at: Time)
    | Succeed(at: Time)
    | Quit(at: Time)
    | Elsewhere(at: Time, guard: Guard)

  /** `open` requests have passed the check and not ended yet. */
  datatype Split = Split(guard: Guard, open: nat, now: Time)

  /** At most `c` requests of the account are between check and outcome at a time. */
  predicate Enabled(s: Split, k: Account, c: nat, step: Step) {
    s.now <= step.at &&
    match step
    case Check(at) => s.open < c
    case Fail(_) => s.open > 0
    case Succeed(_) => s.open > 0
    case Quit(_) => s.open > 0
    case Elsewhere(at, g) =>
      if Expired(s.guard, k, at) && k !in g.lockedAt then k !in g.failures
      else
        && (k in g.lockedAt <==> k in s.guard.lockedAt) && (k in g.lockedAt ==> g.lockedAt[k] == s.guard.lockedAt[k])
        && Count(g, k) == Count(s.guard, k)
  }

  /** Pruning and every call for another account are such other steps. */
  lemma OthersAreElsewhere(s: Split, k: Account, c: nat, other: Account, at: Time)
    requires s.now <= at && other != k && Count(s.guard, k) >= 0
    ensures Enabled(s, k, c, Elsewhere(at, Pruned(s.guard, at)))
    ensures Enabled(s, k, c, Elsewhere(at, Checked(s.guard, other, at)))
    ensures Enabled(s, k, c, Elsewhere(at, Failed(s.guard, other, at)))
    ensures Enabled(s, k, c, Elsewhere(at, Cleared(s.guard, other)))
  {
  }

  function Take(s: Split, k: Account, c: nat, step: Step): Split
    requires Enabled(s, k, c, step)
  {
    match step
    case Check(at) =>
      if IsLocked(s.guard, k, at) then s.(now := at) else Split(Checked(s.guard, k, at), s.open + 1, at)
    case Fail(at) => Split(Failed(s.guard, k, at), s.open - 1, at)
    case Succeed(at) => Split(Cleared(s.guard, k), s.open - 1, at)
    case Quit(at) => s.(open := s.open - 1, now := at)
    case Elsewhere(at, g) => s.(guard := g, now := at)
  }

  ghost predicate Possible(s: Split, k: Account, c: nat, steps: seq<Step>)
    decreases |steps|
  {
    steps == [] || (Enabled(s, k, c, steps[0]) && Possible(Take(s, k, c, steps[0]), k, c, steps[1..]))
  }

  /** The failures from time `from` on. */
  function FailsSince(steps: seq<Step>, from: Time): nat {
    if steps == [] then 0
    else (if steps[0].Fail? && from <= steps[0].at then 1 else 0) + FailsSince(steps[1..], from)
  }

  predicate LogsIn(steps: seq<Step>) {
    exists step :: step in steps && step.Succeed?
  }

  /** The steps after the account's last login. */
  function SinceLogin(steps: seq<Step>): seq<Step> {
    if steps == [] || !LogsIn(steps) then steps else SinceLogin(steps[1..])
  }

  /** What the guard is meant to bound: the failures from `from` on and after the account's last login. */
  function Streak(steps: seq<Step>, from: Time): nat {
    FailsSince(SinceLogin(steps), from)
  }

  /** Failures of a window that no longer count towards its first lock: late ones while an older lock still holds. */
  function Forgotten(c: nat): nat {
    if c == 0 then 0 else if c <= 4 then c - 1 else 4
  }

  /** The most failures of one account, with no login between them, in a window shorter than the lockout. */
  function MostFailures(c: nat): nat {
    if c == 0 then 0 else 4 + c + Forgotten(c)
  }

  ghost predicate Limited(s: Split, k: Account, c: nat, from: Time, fails: nat) {
    && s.open <= c && 0 <= Count(s.guard, k) <= 4 && (s.now < from ==> fails == 0)
    && if k !in s.guard.lockedAt then fails <= Forgotten(c) + Count(s.guard, k)
       else (
         && s.guard.lockedAt[k] <= s.now && s.open < c
         && if s.guard.lockedAt[k] < from then fails + s.open < c && fails <= Count(s.guard, k)
            else fails + s.open <= Forgotten(c) + 4 + c)
  }

  /** The failures counted so far, after one more step: a login starts the count over. */
  function Tally(fails: nat, step: Step, from: Time): nat {
    if step.Succeed? then 0 else if step.Fail? && from <= step.at then fails + 1 else fails
  }

  lemma StepLimited(s: Split, k: Account, c: nat, from: Time, fails: nat, step: Step)
    requires Limited(s, k, c, from, fails) && Enabled(s, k, c, step) && step.at < from + Lockout
    ensures Limited(Take(s, k, c, step), k, c, from, Tally(fails, step, from))
  {
  }

  lemma {:induction false} RunLimited(s: Split, k: Account, c: nat, from: Time, fails: nat, steps: seq<Step>)
    requires c > 0 && Limited(s, k, c, from, fails) && Possible(s, k, c, steps) && Before(steps, from + Lockout)
    ensures Streak(steps, from) + (if LogsIn(steps) then 0 else fails) <= MostFailures(c)
    decreases |steps|
  {
    if steps != [] {
      assert steps[0] in steps;
      StepLimited(s, k, c, from, fails, steps[0]);
      RunLimited(Take(s, k, c, steps[0]), k, c, from, Tally(fails, steps[0], from), steps[1..]);
      assert LogsIn(steps) <==> steps[0].Succeed? || LogsIn(steps[1..]) by { assert steps == [steps[0]] + steps[1..]; }
    }
  }

  /** Failures that nothing but checks surrounds. */
  predicate Attack(steps: seq<Step>, end: Time) {
    forall step :: step in steps ==> step.at < end && !step.Succeed?
  }

  lemma AttackIsStreak(steps: seq<Step>, end: Time, from: Time)
    requires Attack(steps, end)
    ensures Before(steps, end) && Streak(steps, from) == FailsSince(steps, from)
  {
  }

  predicate Before(steps: seq<Step>, end: Time) {
    forall step :: step in steps ==> step.at < end
  }

  /** A run of account `k` with at most `c` open requests that ends within a lockout from `from`. */
  ghost predicate InWindow(k: Account, c: nat, start: Time, from: Time, steps: seq<Step>) {
    Possible(Split(Empty, 0, start), k, c, steps) && Before(steps, from + Lockout)
  }

  lemma {:induction false} NobodyFails(s: Split, k: Account, from: Time, steps: seq<Step>)
    requires Possible(s, k, 0, steps) && s.open == 0
    ensures FailsSince(steps, from) == 0 && !LogsIn(steps)
    decreases |steps|
  {
    if steps != [] { NobodyFails(Take(s, k, 0, steps[0]), k, from, steps[1..]); }
  }

  /** With at most `c` requests of an account between check and outcome, no window shorter than the lockout holds
      more than `MostFailures(c)` failures since the account's last login: five for one request at a time, never more
      than `c + 8`. Every run is a prefix of longer ones, so this bounds the failures between any two logins. */
  lemma SplitWindowBound(k: Account, c: nat, start: Time, from: Time, steps: seq<Step>)
    requires InWindow(k, c, start, from, steps)
    ensures Streak(steps, from) <= MostFailures(c)
  {
    if c == 0 {
      NobodyFails(Split(Empty, 0, start), k, from, steps);
    } else {
      RunLimited(Split(Empty, 0, start), k, c, from, 0, steps);
    }
  }

  /* ---- The bound is attained ---- */

  ghost function End(s: Split, k: Account, c: nat, steps: seq<Step>): Split
    requires Possible(s, k, c, steps)
    decreases |steps|
  {
    if steps == [] then s else End(Take(s, k, c, steps[0]), k, c, steps[1..])
  }

  lemma {:induction false} Then(s: Split, k: Account, c: nat, a: seq<Step>, b: seq<Step>, from: Time, end: Time)
    requires Possible(s, k, c, a) && Possible(End(s, k, c, a), k, c, b)
    ensures Possible(s, k, c, a + b) && End(s, k, c, a + b) == End(End(s, k, c, a), k, c, b)
    ensures FailsSince(a + b, from) == FailsSince(a, from) + FailsSince(b, from)
    ensures (Attack(a, end) && Attack(b, end) ==> Attack(a + b, end)) && (Before(a, end) && Before(b, end) ==> Before(a + b, end))
    decreases |a|
  {
    if a == [] {
      assert a + b == b;
    } else {
      Then(Take(s, k, c, a[0]), k, c, a[1..], b, from, end);
      assert (a + b)[1..] == a[1..] + b;
    }
  }

  function Times(n: nat, step: Step): seq<Step> {
    if n == 0 then [] else [step] + Times(n - 1, step)
  }

  /** Checks of an account that is not locked all pass. */
  lemma {:induction false} Opens(s: Split, k: Account, c: nat, at: Time, n: nat, from: Time)
    requires s.now <= at && k !in s.guard.lockedAt && s.open + n <= c
    ensures var steps := Times(n, Check(at));
      && Possible(s, k, c, steps) && FailsSince(steps, from) == 0 && Attack(steps, at + 1)
      && var t := End(s, k, c, steps);
         t.guard == s.guard && t.open == s.open + n && t.now <= at
    decreases n
  {
    if n > 0 {
      Opens(Take(s, k, c, Check(at)), k, c, at, n - 1, from);
      assert Times(n, Check(at))[1..] == Times(n - 1, Check(at));
    }
  }

  /** Open requests can all fail at once, whatever the guard says; up to four failures are only counted. */
  lemma {:induction false} Closes(s: Split, k: Account, c: nat, at: Time, n: nat, from: Time)
    requires s.now <= at && n <= s.open
    ensures var steps := Times(n, Fail(at));
      && Possible(s, k, c, steps) && FailsSince(steps, from) == (if from <= at then n else 0) && Attack(steps, at + 1)
      && var t := End(s, k, c, steps);
         && t.open == s.open - n && t.now <= at
         && (Count(s.guard, k) + n <= 4 ==> Count(t.guard, k) == Count(s.guard, k) + n)
         && (Count(s.guard, k) + n <= 4 && k in s.guard.lockedAt ==>
               k in t.guard.lockedAt && t.guard.lockedAt[k] == s.guard.lockedAt[k])
         && (Count(s.guard, k) + n <= 4 && k !in s.guard.lockedAt ==> k !in t.guard.lockedAt)
    decreases n
  {
    if n > 0 {
      Closes(Take(s, k, c, Fail(at)), k, c, at, n - 1, from);
      assert Times(n, Fail(at))[1..] == Times(n - 1, Fail(at));
    }
  }

  /** One request at a time: check, fail, check, fail, up to the fourth failure. */
  lemma {:induction false} Pairs(s: Split, k: Account, c: nat, at: Time, n: nat, from: Time) returns (steps: seq<Step>)
    requires s.now <= at && k !in s.guard.lockedAt && s.open < c && 0 <= Count(s.guard, k) && Count(s.guard, k) + n <= 4
    ensures Possible(s, k, c, steps) && FailsSince(steps, from) == (if from <= at then n else 0) && Attack(steps, at + 1)
    ensures var t := End(s, k, c, steps);
      && t.open == s.open && t.now <= at && k !in t.guard.lockedAt && Count(t.guard, k) == Count(s.guard, k) + n
    decreases n
  {
    if n == 0 {
      steps := [];
    } else {
      Opens(s, k, c, at, 1, from);
      var a := Times(1, Check(at));
      var s1 := End(s, k, c, a);
      Closes(s1, k, c, at, 1, from);
      var b := Times(1, Fail(at));
      Then(s, k, c, a, b, from, at + 1);
      var rest := Pairs(End(s1, k, c, b), k, c, at, n - 1, from);
      Then(s, k, c, a + b, rest, from, at + 1);
      steps := a + b + rest;
    }
  }

  /** Four failures one after the other, then `c` requests that all pass the check before the first of them fails. */
  lemma Burst(s: Split, k: Account, c: nat, at: Time, n: nat, from: Time) returns (steps: seq<Step>)
    requires s.now <= at && k !in s.guard.lockedAt && s.open < c && Count(s.guard, k) >= 0 && Count(s.guard, k) + n == 4
    ensures Possible(s, k, c, steps) && FailsSince(steps, from) == (if from <= at then n else 0) && Attack(steps, at + 1)
    ensures var t := End(s, k, c, steps);
      t.open == c && t.now <= at && k !in t.guard.lockedAt && Count(t.guard, k) == 4
  {
    var a := Pairs(s, k, c, at, n, from);
    var s1 := End(s, k, c, a);
    Opens(s1, k, c, at, c - s1.open, from);
    var b := Times(c - s1.open, Check(at));
    Then(s, k, c, a, b, from, at + 1);
    steps := a + b;
  }

  /** Four more failures than open requests, all at one instant: the guard has counted to four when the requests
      that passed the check together start to fail. */
  lemma OneInstant(k: Account, c: nat, now: Time) returns (steps: seq<Step>)
    requires c > 0
    ensures InWindow(k, c, now, now, steps) && Streak(steps, now) == 4 + c && Attack(steps, now + 1)
  {
    var s := Split(Empty, 0, now);
    var a := Burst(s, k, c, now, 4, now);
    var s1 := End(s, k, c, a);
    Closes(s1, k, c, now, c, now);
    Then(s, k, c, a, Times(c, Fail(now)), now, now + 1);
    steps := a + Times(c, Fail(now));
    AttackIsStreak(steps, now + 1, now);
  }

  /** An account locked at `u` with all other requests still open. */
  lemma LockedWithOpen(k: Account, c: nat, u: Time) returns (steps: seq<Step>)
    requires c > 0
    ensures Possible(Split(Empty, 0, u), k, c, steps) && FailsSince(steps, u + 1) == 0 && Attack(steps, u + 1)
    ensures var t := End(Split(Empty, 0, u), k, c, steps);
      t.open == c - 1 && t.now <= u && k in t.guard.lockedAt && t.guard.lockedAt[k] == u && Count(t.guard, k) == 0
  {
    var s := Split(Empty, 0, u);
    var a := Burst(s, k, c, u, 4, u + 1);
    var s1 := End(s, k, c, a);
    var b := [Fail(u)];
    assert b[1..] == [] && Possible(s1, k, c, b);
    assert End(s1, k, c, b) == Take(s1, k, c, Fail(u));
    Then(s, k, c, a, b, u + 1, u + 1);
    steps := a + b;
  }

  /** Once the lock has expired the first check clears what was counted and lets a burst through. */
  lemma AfterExpiry(s: Split, k: Account, c: nat, at: Time, from: Time) returns (steps: seq<Step>)
    requires s.now <= at && s.open < c && Expired(s.guard, k, at) && from <= at
    ensures Possible(s, k, c, steps) && FailsSince(steps, from) == 4 + c && Attack(steps, at + 1)
  {
    var a := [Check(at), Fail(at)];
    var s1 := Take(s, k, c, Check(at));
    var s2 := Take(s1, k, c, Fail(at));
    ghost var fail := [Fail(at)];
    assert a[1..] == fail && fail[1..] == [];
    assert Possible(s2, k, c, fail[1..]) && End(s2, k, c, fail[1..]) == s2;
    assert Possible(s1, k, c, fail) && End(s1, k, c, fail) == s2;
    assert Possible(s, k, c, a) && End(s, k, c, a) == s2;
    assert FailsSince(fail, from) == 1 && FailsSince(a, from) == 1;
    var b := Burst(s2, k, c, at, 3, from);
    Then(s, k, c, a, b, from, at + 1);
    var s3 := End(s2, k, c, b);
    Closes(s3, k, c, at, c, from);
    Then(s, k, c, a + b, Times(c, Fail(at)), from, at + 1);
    steps := a + b + Times(c, Fail(at));
  }

  /** The bound is attained by a window that opens just after a lock: late failures that the expiring lock forgets,
      and a full burst at the instant it expires. */
  lemma BoundAttained(k: Account, c: nat, u: Time) returns (steps: seq<Step>)
    ensures InWindow(k, c, u, u + 1, steps) && Streak(steps, u + 1) == MostFailures(c)
  {
    if c == 0 { return []; }
    var s := Split(Empty, 0, u);
    var a := LockedWithOpen(k, c, u);
    var s1 := End(s, k, c, a);
    Closes(s1, k, c, u + 1, Forgotten(c), u + 1);
    var b := Times(Forgotten(c), Fail(u + 1));
    var s2 := End(s1, k, c, b);
    Then(s, k, c, a, b, u + 1, u + 1 + Lockout);
    var d := AfterExpiry(s2, k, c, u + Lockout, u + 1);
    Then(s, k, c, a + b, d, u + 1, u + 1 + Lockout);
    steps := a + b + d;
    AttackIsStreak(steps, u + 1 + Lockout, u + 1);
  }

  /** The promise of five failures per lockout without a login in between holds for exactly the systems in which no
      two requests of an account are between check and outcome at a time. */
  lemma FiveExactlyWhenOneAtATime(k: Account, c: nat, start: Time)
    ensures (forall from, steps :: InWindow(k, c, start, from, steps) ==> Streak(steps, from) <= 5) <==> c <= 1
  {
    if c <= 1 {
      forall from, steps | InWindow(k, c, start, from, steps)
        ensures Streak(steps, from) <= 5
      {
        SplitWindowBound(k, c, start, from, steps);
      }
    } else {
      var steps := OneInstant(k, c, start);
      assert InWindow(k, c, start, start, steps) && Streak(steps, start) > 5;
    }
  }

  /** A login clears everything, so failures on both sides of it add up: with one request at a time, `n` times four
      failures and a login all fit into one instant; eight failures need a single login between them. */
  lemma {:induction false} LoginsStartOver(k: Account, now: Time, n: nat) returns (steps: seq<Step>)
    ensures InWindow(k, 1, now, now, steps) && FailsSince(steps, now) == 4 * n
    ensures var t := End(Split(Empty, 0, now), k, 1, steps);
      t.open == 0 && t.now == now && k !in t.guard.lockedAt && Count(t.guard, k) == 0
    decreases n
  {
    var s := Split(Empty, 0, now);
    if n == 0 {
      steps := [];
    } else {
      var a := LoginsStartOver(k, now, n - 1);
      var t := End(s, k, 1, a);
      var b := Pairs(t, k, 1, now, 4, now);
      Then(s, k, 1, a, b, now, now + Lockout);
      var login := [Check(now), Succeed(now)];
      LoginClears(End(t, k, 1, b), k, now);
      Then(s, k, 1, a + b, login, now, now + Lockout);
      steps := a + b + login;
    }
  }

  lemma LoginClears(s: Split, k: Account, now: Time)
    requires s.now <= now && s.open == 0 && k !in s.guard.lockedAt
    ensures var login := [Check(now), Succeed(now)];
      && Possible(s, k, 1, login) && FailsSince(login, now) == 0 && Before(login, now + Lockout)
      && End(s, k, 1, login) == Split(Cleared(s.guard, k), 0, now)
  {
    var login, last := [Check(now), Succeed(now)], [Succeed(now)];
    var s1 := Take(s, k, 1, Check(now));
    var s2 := Take(s1, k, 1, Succeed(now));
    assert login[1..] == last && last[1..] == [];
    assert Possible(s2, k, 1, last[1..]) && End(s2, k, 1, last[1..]) == s2;
    assert Possible(s1, k, 1, last) && End(s1, k, 1, last) == s2 && FailsSince(last, now) == 0;
  }

  /** For such a late failure pruning does show: it changes what is remembered exactly when an expired lock
      still has failures counted beside it. */
  lemma PruningShows(g: Guard, k: Account, now: Time)
    requires |g.failures| + |g.lockedAt| >= PruneAt
    requires forall a :: a in g.failures ==> g.failures[a] > 0
    ensures Count(Failed(Pruned(g, now), k, now), k) != Count(Failed(g, k, now), k)
      || IsLocked(Failed(Pruned(g, now), k, now), k, now) != IsLocked(Failed(g, k, now), k, now)
      <==> Expired(g, k, now) && k in g.failures
  {
  }

  class LoginGuard {
    var failures: map<Account, int>
    var lockedAt: map<Account, Time>

    ghost function Value(): Guard
      reads this
    {
      Guard(failures, lockedAt)
    }

    constructor ()
      ensures Value() == Empty
    {
      failures, lockedAt := map[], map[];
    }

    /** Deletes while iterating, in whatever order the maps are walked. */
    method Prune(now: Time)
      modifies this
      ensures Value() == Pruned(old(Value()), now)
      ensures |old(failures)| + |old(lockedAt)| < 10_000 ==> failures == old(failures) && lockedAt == old(lockedAt)
      ensures |old(failures)| + |old(lockedAt)| >= 10_000 ==> forall k ::
        && (k in lockedAt <==> k in old(lockedAt) && now - old(lockedAt)[k] < 600 * Second)
        && (k in failures <==> k in old(failures) && old(failures)[k] > 0
                               && !(k in old(lockedAt) && now - old(lockedAt)[k] >= 600 * Second))
      ensures forall k :: k in lockedAt ==> lockedAt[k] == old(lockedAt)[k]
      ensures forall k :: k in failures ==> failures[k] == old(failures)[k]
    {
      if |failures| + |lockedAt| < PruneAt { return; }
      DropSpent();
      DropExpired(now);
    }

    method DropSpent()
      modifies this`failures
      ensures failures == map k | k in old(failures) && old(failures)[k] > 0 :: old(failures)[k]
    {
      var todo := failures.Keys;
      while todo != {}
        invariant todo <= old(failures).Keys
        invariant forall k :: k in failures <==> k in old(failures) && (k in todo || old(failures)[k] > 0)
        invariant forall k :: k in failures ==> failures[k] == old(failures)[k]
        decreases |todo|
      {
        var k :| k in todo;
        todo := todo - {k};
        if failures[k] <= 0 { failures := failures - {k}; }
      }
    }

    method DropExpired(now: Time)
      modifies this
      ensures lockedAt == map k | k in old(lockedAt) && !Expired(old(Value()), k, now) :: old(lockedAt)[k]
      ensures failures == map k | k in old(failures) && !Expired(old(Value()), k, now) :: old(failures)[k]
    {
      ghost var g := Value();
      var todo := lockedAt.Keys;
      while todo != {}
        invariant todo <= g.lockedAt.Keys
        invariant forall k :: k in lockedAt <==> k in g.lockedAt && (k in todo || !Expired(g, k, now))
        invariant forall k :: k in lockedAt ==> lockedAt[k] == g.lockedAt[k]
        invariant forall k :: k in failures <==> k in g.failures && (k in todo || !Expired(g, k, now))
        invariant forall k :: k in failures ==> failures[k] == g.failures[k]
        decreases |todo|
      {
        var k :| k in todo;
        todo := todo - {k};
        if Lockout - (now - lockedAt[k]) <= 0 {
          lockedAt := lockedAt - {k};
          failures := failures - {k};
        }
      }
    }

    /** The remaining lockout, if any. */
    method Locked(k: Account, now: Time) returns (left: Time, locked: bool)
      modifies this
      ensures locked == IsLocked(Pruned(old(Value()), now), k, now)
      ensures if locked then 0 < left && now + left == old(lockedAt)[k] + Lockout else left == 0
      ensures Value() == Checked(Pruned(old(Value()), now), k, now)
    {
      Prune(now);
      if k in lockedAt {
        left := Lockout - (now - lockedAt[k]);
        if left > 0 { return left, true; }
        lockedAt := lockedAt - {k};
        failures := failures - {k};
      }
      return 0, false;
    }

    method Failure(k: Account, now: Time)
      modifies this
      ensures Value() == Failed(Pruned(old(Value()), now), k, now)
    {
      Prune(now);
      failures := failures[k := (if k in failures then failures[k] else 0) + 1];
      if failures[k] >= MaxFailures {
        lockedAt := lockedAt[k := now];
        failures := failures - {k};
      }
      ghost var g := Pruned(old(Value()), now);
      assert failures == Failed(g, k, now).failures;
    }

    method Success(k: Account)
      modifies this
      ensures Value() == Cleared(old(Value()), k)
    {
      failures := failures - {k};
      lockedAt := lockedAt - {k};
    }

    /** The handler's order of calls, in a guard with history `run`: it is refused exactly when the failures
        of the account demand it. */
    method Login(a: Attempt, ghost run: seq<Attempt>) returns (refused: bool)
      requires Value() == After(run, true) && InOrder(run + [a])
      modifies this
      ensures refused <==> MustRefuse(Failures(run, a.account), a.at)
      ensures Value() == After(run + [a], true)
    {
      RefusesExactly(run, a, true);
      assert (run + [a])[..|run|] == run;
      var left;
      left, refused := Locked(a.account, a.at);
      if refused { return; }
      match a.outcome
      case Wrong => Failure(a.account, a.at);
      case Right => Success(a.account);
      case Neither =>
    }
  }
}
