/** Which rows a claim takes: the SQL eligibility condition, `ORDER BY id LIMIT n`,
    and the one-per-entry filter that follows it (internal/queue/queue.go:115-176). */
module Selection {
  import opened Wrappers
  import opened JobTable

  predicate Eligible(t: Table, now: int, exclude: set<Kind>, id: nat)
    requires id in t
  {
    var j := t[id];
    && j.status.Queued?
    && j.runAt <= now
    && j.pausedAt.None?
    && j.kind !in exclude
    && (j.kind.Download? ==>
          && (forall k :: k in t ==> !(t[k].kind.Download? && t[k].status.Running?))
          && (forall k :: k in t && t[k].kind.Download? && t[k].status.Queued? ==> id <= k))
    && (forall k :: k in t && t[k].status.Running? ==> !SameEntry(j, t[k]))
  }

  function EligibleIds(t: Table, now: int, exclude: set<Kind>): set<nat> {
    set id | id in t && Eligible(t, now, exclude, id)
  }

  ghost predicate Ascending(rows: seq<nat>) {
    forall i, j :: 0 <= i < j < |rows| ==> rows[i] < rows[j]
  }

  /** `rows` is the result of `ORDER BY id LIMIT n` over the candidate ids. */
  ghost predicate LowestIds(candidates: set<nat>, n: nat, rows: seq<nat>) {
    && Ascending(rows)
    && |rows| <= n
    && (forall id :: id in rows ==> id in candidates)
    && (forall id :: id in candidates && id !in rows ==> |rows| == n && forall r :: r in rows ==> r < id)
  }

  ghost predicate FirstOfEntry(t: Table, rows: seq<nat>, i: nat)
    requires i < |rows|
    requires forall r :: r in rows ==> r in t
  {
    forall k :: 0 <= k < i ==> !SameEntry(t[rows[k]], t[rows[i]])
  }

  /** The rows that are the first transcode of their entry, and all other rows. */
  ghost function Thin(t: Table, rows: seq<nat>): seq<nat>
    requires forall r :: r in rows ==> r in t
  {
    if rows == [] then []
    else
      var last := |rows| - 1;
      var kept := Thin(t, rows[..last]);
      if FirstOfEntry(t, rows, last) then kept + [rows[last]] else kept
  }

  /** The selection is determined by the candidates: any two agree row by row. */
  lemma LowestIdsUnique(candidates: set<nat>, n: nat, a: seq<nat>, b: seq<nat>)
    requires LowestIds(candidates, n, a) && LowestIds(candidates, n, b)
    ensures a == b
  {
    if |a| <= |b| {
      Agree(candidates, n, a, b, |a|);
      if |a| < |b| { NextCandidate(candidates, n, a, b); }
    } else {
      Agree(candidates, n, b, a, |b|);
      NextCandidate(candidates, n, b, a);
    }
  }

  lemma {:induction false} Agree(candidates: set<nat>, n: nat, a: seq<nat>, b: seq<nat>, m: nat)
    requires LowestIds(candidates, n, a) && LowestIds(candidates, n, b)
    requires m <= |a| <= |b|
    ensures forall k :: 0 <= k < m ==> a[k] == b[k]
  {
    if m > 0 {
      Agree(candidates, n, a, b, m - 1);
      NotAbove(candidates, n, a, b, m - 1);
      NotAbove(candidates, n, b, a, m - 1);
    }
  }

  lemma NotAbove(candidates: set<nat>, n: nat, a: seq<nat>, b: seq<nat>, i: nat)
    requires Ascending(a) && i < |a| && a[i] in candidates
    requires LowestIds(candidates, n, b) && i < |b|
    requires forall k :: 0 <= k < i ==> a[k] == b[k]
    ensures b[i] <= a[i]
  {
    if a[i] in b {
      var m :| 0 <= m < |b| && b[m] == a[i];
    } else {
      assert b[i] in b;
    }
  }

  lemma NextCandidate(candidates: set<nat>, n: nat, a: seq<nat>, b: seq<nat>)
    requires |a| < |b| && LowestIds(candidates, n, b)
    requires forall k :: 0 <= k < |a| ==> a[k] == b[k]
    ensures b[|a|] in candidates && b[|a|] !in a && |a| < n
  {
  }

  lemma {:induction false} ThinMembers(t: Table, rows: seq<nat>, id: nat)
    requires forall r :: r in rows ==> r in t
    ensures id in Thin(t, rows) <==> exists i :: 0 <= i < |rows| && rows[i] == id && FirstOfEntry(t, rows, i)
  {
    if rows != [] {
      var last := |rows| - 1;
      var front := rows[..last];
      ThinMembers(t, front, id);
      forall i | 0 <= i < last
        ensures FirstOfEntry(t, rows, i) <==> FirstOfEntry(t, front, i)
      {
      }
      if id in Thin(t, front) {
        var i :| 0 <= i < |front| && front[i] == id && FirstOfEntry(t, front, i);
        assert rows[i] == id && FirstOfEntry(t, rows, i);
      }
      if i :| 0 <= i < |rows| && rows[i] == id && FirstOfEntry(t, rows, i) {
        if i < last { assert front[i] == id && FirstOfEntry(t, front, i); }
      }
    }
  }

  lemma {:induction false} ThinAscending(t: Table, rows: seq<nat>)
    requires Ascending(rows) && forall r :: r in rows ==> r in t
    ensures Ascending(Thin(t, rows))
    ensures forall id :: id in Thin(t, rows) ==> id in rows
  {
    if rows != [] {
      var front := rows[..|rows| - 1];
      ThinAscending(t, front);
      var kept := Thin(t, front);
      assert forall k :: 0 <= k < |kept| ==> kept[k] in front;
    }
  }

  lemma ThinDistinct(t: Table, rows: seq<nat>, a: nat, b: nat)
    requires forall r :: r in rows ==> r in t
    requires a in Thin(t, rows) && b in Thin(t, rows) && a != b
    ensures a in t && b in t && !SameEntry(t[a], t[b])
  {
    ThinMembers(t, rows, a);
    ThinMembers(t, rows, b);
    var i :| 0 <= i < |rows| && rows[i] == a && FirstOfEntry(t, rows, i);
    var k :| 0 <= k < |rows| && rows[k] == b && FirstOfEntry(t, rows, k);
  }

  /** Every dropped row has an earlier kept row of the same entry. */
  lemma {:induction false} DroppedForEarlier(t: Table, rows: seq<nat>, i: nat) returns (k: nat)
    requires Ascending(rows) && forall r :: r in rows ==> r in t
    requires i < |rows| && rows[i] !in Thin(t, rows)
    ensures k < i && rows[k] in Thin(t, rows) && SameEntry(t[rows[k]], t[rows[i]])
  {
    ThinMembers(t, rows, rows[i]);
    k :| 0 <= k < i && SameEntry(t[rows[k]], t[rows[i]]);
    ThinMembers(t, rows, rows[k]);
    if rows[k] !in Thin(t, rows) {
      k := DroppedForEarlier(t, rows, k);
    }
  }

  function SetOf(ids: seq<nat>): set<nat> {
    set id | id in ids
  }

  /** What one claim round returns, with no row locked by anyone else. */
  ghost predicate IsBatch(t: Table, now: int, n: nat, exclude: set<Kind>, claimed: seq<nat>) {
    exists rows :: LowestIds(EligibleIds(t, now, exclude), n, rows) && claimed == Thin(t, rows)
  }

  /** The claimed batch is the one-per-entry greedy thinning of the `n` lowest-id eligible jobs. */
  lemma GreedyThinning(t: Table, now: int, n: nat, exclude: set<Kind>, rows: seq<nat>, claimed: seq<nat>)
    requires LowestIds(EligibleIds(t, now, exclude), n, rows) && claimed == Thin(t, rows)
    ensures Ascending(claimed) && forall c :: c in claimed ==> c in t && Eligible(t, now, exclude, c)
    ensures forall c, k :: c in claimed && k in EligibleIds(t, now, exclude) && SameEntry(t[c], t[k]) ==> c <= k
    ensures forall c, k :: c in claimed && k in claimed && c != k ==> !SameEntry(t[c], t[k])
    ensures forall c, k :: c in claimed && t[c].kind.Download? && k in t && t[k].kind.Download? && t[k].status.Queued?
              ==> c <= k
    ensures forall r :: r in rows && r !in claimed ==> exists c :: c in claimed && c < r && SameEntry(t[c], t[r])
    ensures n > 0 && EligibleIds(t, now, exclude) != {} ==> claimed != []
  {
    ThinAscending(t, rows);
    forall c, k | c in claimed && k in EligibleIds(t, now, exclude) && SameEntry(t[c], t[k])
      ensures c <= k
    {
      KeptIsLowest(t, now, n, exclude, rows, c, k);
    }
    forall c, k | c in claimed && k in claimed && c != k
      ensures !SameEntry(t[c], t[k])
    {
      ThinDistinct(t, rows, c, k);
    }
    forall r | r in rows && r !in claimed
      ensures exists c :: c in claimed && c < r && SameEntry(t[c], t[r])
    {
      var i :| 0 <= i < |rows| && rows[i] == r;
      var k := DroppedForEarlier(t, rows, i);
    }
    if n > 0 && EligibleIds(t, now, exclude) != {} { SomethingKept(t, now, n, exclude, rows); }
  }

  lemma KeptIsLowest(t: Table, now: int, n: nat, exclude: set<Kind>, rows: seq<nat>, c: nat, k: nat)
    requires LowestIds(EligibleIds(t, now, exclude), n, rows) && c in Thin(t, rows)
    requires c in t && k in EligibleIds(t, now, exclude) && SameEntry(t[c], t[k])
    ensures c <= k
  {
    ThinMembers(t, rows, c);
    var i :| 0 <= i < |rows| && rows[i] == c && FirstOfEntry(t, rows, i);
    assert c in rows;
    if k in rows {
      var m :| 0 <= m < |rows| && rows[m] == k;
      FirstIsFirst(t, rows, i, m);
    }
  }

  lemma FirstIsFirst(t: Table, rows: seq<nat>, i: nat, m: nat)
    requires i < |rows| && m < |rows| && forall r :: r in rows ==> r in t
    requires FirstOfEntry(t, rows, i) && SameEntry(t[rows[i]], t[rows[m]])
    ensures i <= m
  {
  }

  lemma SomethingKept(t: Table, now: int, n: nat, exclude: set<Kind>, rows: seq<nat>)
    requires LowestIds(EligibleIds(t, now, exclude), n, rows) && n > 0 && EligibleIds(t, now, exclude) != {}
    ensures Thin(t, rows) != []
  {
    var id :| id in EligibleIds(t, now, exclude);
    assert id !in rows ==> |rows| == n;
    assert rows != [] && FirstOfEntry(t, rows, 0);
    ThinMembers(t, rows, rows[0]);
  }

  lemma BatchRows(t: Table, now: int, n: nat, exclude: set<Kind>, claimed: seq<nat>)
    requires IsBatch(t, now, n, exclude, claimed)
    ensures Ascending(claimed)
    ensures forall c :: c in claimed ==> c in t && t[c].status.Queued? && t[c].pausedAt.None?
  {
    var rows :| LowestIds(EligibleIds(t, now, exclude), n, rows) && claimed == Thin(t, rows);
    GreedyThinning(t, now, n, exclude, rows, claimed);
  }

  /** A download can be claimed exactly when none runs and the lowest-id queued one is due, unpaused and
      not excluded: a paused or not yet due download holds back every later one. */
  lemma DownloadHeadOfLine(t: Table, now: int, exclude: set<Kind>, head: nat)
    requires head in t && t[head].kind.Download? && t[head].status.Queued?
    requires forall k :: k in t && t[k].kind.Download? && t[k].status.Queued? ==> head <= k
    ensures (exists id :: id in EligibleIds(t, now, exclude) && t[id].kind.Download?)
      <==> && (forall k :: k in t ==> !(t[k].kind.Download? && t[k].status.Running?))
           && t[head].runAt <= now && t[head].pausedAt.None? && Download !in exclude
  {
    if id :| id in EligibleIds(t, now, exclude) && t[id].kind.Download? {
      assert id == head;
    }
    if && (forall k :: k in t ==> !(t[k].kind.Download? && t[k].status.Running?))
       && t[head].runAt <= now && t[head].pausedAt.None? && Download !in exclude {
      assert head in EligibleIds(t, now, exclude);
    }
  }

  /** Claiming a batch in one step keeps both exclusion properties. */
  lemma BatchKeepsExclusive(t: Table, now: int, n: nat, exclude: set<Kind>, claimed: seq<nat>, w: Worker)
    requires IsBatch(t, now, n, exclude, claimed)
    requires OnePerEntry(t) && OneDownload(t)
    ensures OnePerEntry(MarkClaimed(t, SetOf(claimed), w, now)) && OneDownload(MarkClaimed(t, SetOf(claimed), w, now))
  {
    var rows :| LowestIds(EligibleIds(t, now, exclude), n, rows) && claimed == Thin(t, rows);
    GreedyThinning(t, now, n, exclude, rows, claimed);
  }
}
