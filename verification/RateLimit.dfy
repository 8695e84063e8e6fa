/** The per-client token bucket (internal/api/ratelimit.go). Times are seconds; `rate` is tokens per second. */
module RateLimit {
  type Client = string

  datatype Bucket = Bucket(tokens: real, last: real)

  datatype Limit = Limit(rate: real, burst: real)

  datatype Request = Request(client: Client, at: real)

  type Buckets = map<Client, Bucket>

  /** The three limiters the server creates: general API, login and media traffic. */
  const Api := Limit(120.0, 120.0)
  const Login := Limit(5.0, 5.0)
  const Media := Limit(10.0, 600.0)

  predicate Sound(l: Limit) {
    l.rate >= 0.0 && l.burst >= 1.0
  }

  /** Tokens added between two moments. */
  function Earned(l: Limit, from: real, to: real): real {
    l.rate * (to - from)
  }

  function Refilled(l: Limit, b: Bucket, now: real): real {
    var t := b.tokens + Earned(l, b.last, now);
    if t < l.burst then t else l.burst
  }

  predicate Admits(l: Limit, buckets: Buckets, r: Request) {
    r.client !in buckets || Refilled(l, buckets[r.client], r.at) >= 1.0
  }

  function Next(l: Limit, buckets: Buckets, r: Request): Buckets {
    if r.client !in buckets then buckets[r.client := Bucket(l.burst - 1.0, r.at)]
    else
      var t := Refilled(l, buckets[r.client], r.at);
      buckets[r.client := Bucket(if t < 1.0 then t else t - 1.0, r.at)]
  }

  /** The bucket map after a history of requests. */
  function After(l: Limit, history: seq<Request>): Buckets {
    if history == [] then map[] else Next(l, After(l, history[..|history|-1]), history[|history|-1])
  }

  /** How many requests of the client the limiter let through with an arrival time in [t1, t2]. */
  function Admitted(l: Limit, history: seq<Request>, c: Client, t1: real, t2: real): nat {
    if history == [] then 0
    else
      var past, r := history[..|history|-1], history[|history|-1];
      Admitted(l, past, c, t1, t2)
      + (if r.client == c && t1 <= r.at <= t2 && Admits(l, After(l, past), r) then 1 else 0)
  }

  ghost predicate InOrder(history: seq<Request>) {
    forall i, j :: 0 <= i < j < |history| ==> history[i].at <= history[j].at
  }

  ghost predicate NoLaterThan(history: seq<Request>, now: real) {
    forall i :: 0 <= i < |history| ==> history[i].at <= now
  }

  lemma EarnedIs(l: Limit, from: real, to: real)
    ensures Earned(l, from, to) == l.rate * (to - from)
  {
  }

  lemma Split(l: Limit, a: real, b: real, c: real)
    requires Sound(l)
    ensures Earned(l, a, b) + Earned(l, b, c) == Earned(l, a, c)
    ensures a <= b ==> Earned(l, a, b) >= 0.0
    ensures b <= c ==> Earned(l, b, c) >= 0.0
  {
  }

  /** In every reachable state every bucket holds between 0 and `burst` tokens and its clock is the arrival
      time of that client's last request. */
  lemma {:induction false} TokensInRange(l: Limit, history: seq<Request>, c: Client)
    requires Sound(l) && InOrder(history)
    ensures var s := After(l, history);
      (c in s <==> exists i :: 0 <= i < |history| && history[i].client == c)
      && (c in s ==>
        0.0 <= s[c].tokens <= l.burst
        && (forall i :: 0 <= i < |history| && history[i].client == c ==> history[i].at <= s[c].last)
        && (exists i :: 0 <= i < |history| && history[i].client == c && history[i].at == s[c].last))
  {
    if history != [] {
      var n := |history| - 1;
      var past, r := history[..n], history[n];
      TokensInRange(l, past, c);
      var s := After(l, past);
      assert forall i :: 0 <= i < n ==> past[i] == history[i];
      if c in s {
        var k :| 0 <= k < |past| && past[k].client == c && past[k].at == s[c].last;
        assert history[k].client == c && history[k].at == s[c].last;
        Split(l, s[c].last, r.at, r.at);
      }
      if r.client == c { assert history[n].client == c; }
    }
  }

  /** What a window has admitted plus what the bucket still holds is covered by the burst and what was earned. */
  lemma {:induction false} WindowAccount(l: Limit, history: seq<Request>, c: Client, t1: real, t2: real)
    requires Sound(l) && InOrder(history) && t1 <= t2
    ensures Admitted(l, history, c, t1, t2) as real <= l.burst + Earned(l, t1, t2)
    ensures var s := After(l, history);
      (c !in s || s[c].last < t1 ==> Admitted(l, history, c, t1, t2) == 0)
      && (c in s && t1 <= s[c].last <= t2 ==>
        Admitted(l, history, c, t1, t2) as real + s[c].tokens <= l.burst + Earned(l, t1, s[c].last))
  {
    Split(l, t1, t2, t2);
    if history != [] {
      var n := |history| - 1;
      var past, r := history[..n], history[n];
      WindowAccount(l, past, c, t1, t2);
      TokensInRange(l, past, c);
      TokensInRange(l, history, c);
      if r.client == c {
        var s := After(l, past);
        Split(l, t1, r.at, t2);
        if c in s { Split(l, t1, s[c].last, r.at); }
      }
    }
  }

  /** No window of time ever sees more than `burst + rate * length` admitted requests of one client. */
  lemma WindowBound(l: Limit, history: seq<Request>, c: Client, t1: real, t2: real)
    requires Sound(l) && InOrder(history) && t1 <= t2
    ensures Admitted(l, history, c, t1, t2) as real <= l.burst + l.rate * (t2 - t1)
  {
    WindowAccount(l, history, c, t1, t2);
    EarnedIs(l, t1, t2);
  }

  /** What the three limiters of the server let through in `t2 - t1` seconds. */
  lemma ServerWindows(history: seq<Request>, c: Client, t1: real, t2: real)
    requires InOrder(history) && t1 <= t2
    ensures Admitted(Api, history, c, t1, t2) as real <= 120.0 + 120.0 * (t2 - t1)
    ensures Admitted(Login, history, c, t1, t2) as real <= 5.0 + 5.0 * (t2 - t1)
    ensures Admitted(Media, history, c, t1, t2) as real <= 600.0 + 10.0 * (t2 - t1)
  {
    WindowBound(Api, history, c, t1, t2);
    WindowBound(Login, history, c, t1, t2);
    WindowBound(Media, history, c, t1, t2);
  }

  /** The last moment at which the client's bucket was full, just before a request was taken from it. */
  ghost function FullSince(l: Limit, history: seq<Request>, c: Client): real {
    if history == [] then 0.0
    else
      var past, r := history[..|history|-1], history[|history|-1];
      var s := After(l, past);
      if r.client != c then FullSince(l, past, c)
      else if c !in s || s[c].tokens + Earned(l, s[c].last, r.at) > l.burst then r.at
      else FullSince(l, past, c)
  }

  /** Since it was last full the bucket accounts exactly for what was admitted and what was refilled. */
  lemma {:induction false} SpentSinceFull(l: Limit, history: seq<Request>, c: Client, now: real)
    requires Sound(l) && InOrder(history) && NoLaterThan(history, now)
    requires c in After(l, history)
    ensures var b, from := After(l, history)[c], FullSince(l, history, c);
      from <= b.last
      && Admitted(l, history, c, from, now) as real + b.tokens == l.burst + Earned(l, from, b.last)
  {
    var n := |history| - 1;
    var past, r := history[..n], history[n];
    var s := After(l, past);
    TokensInRange(l, past, c);
    if c in s { SpentSinceFull(l, past, c, now); }
    if r.client == c {
      if c in s {
        var k :| 0 <= k < |past| && past[k].client == c && past[k].at == s[c].last;
        assert history[k].at <= r.at;
        Split(l, FullSince(l, past, c), s[c].last, r.at);
      }
      Split(l, r.at, r.at, r.at);
      WindowAccount(l, past, c, r.at, now);
    }
  }

  /** One more request keeps the window from `t` to it within `burst + rate * length`. */
  ghost predicate Fits(l: Limit, history: seq<Request>, r: Request, t: real) {
    (Admitted(l, history, r.client, t, r.at) + 1) as real <= l.burst + l.rate * (r.at - t)
  }

  /** The limiter is exact: it admits a request if and only if doing so keeps the bound of every window that
      ends now. It is never stricter than the promised rate and never more generous. */
  lemma AdmitsExactly(l: Limit, history: seq<Request>, r: Request)
    requires Sound(l) && InOrder(history) && NoLaterThan(history, r.at)
    ensures Admits(l, After(l, history), r) <==> forall t: real :: t <= r.at ==> Fits(l, history, r, t)
  {
    if Admits(l, After(l, history), r) {
      forall t: real | t <= r.at
        ensures Fits(l, history, r, t)
      {
        AdmittedFits(l, history, r, t);
      }
    } else {
      var from := RefusedDoesNotFit(l, history, r);
    }
  }

  lemma AdmittedFits(l: Limit, history: seq<Request>, r: Request, t: real)
    requires Sound(l) && InOrder(history) && NoLaterThan(history, r.at) && Admits(l, After(l, history), r) && t <= r.at
    ensures Fits(l, history, r, t)
  {
    OneMore(l, history, r, t);
    LongerInOrder(history, r);
    WindowBound(l, history + [r], r.client, t, r.at);
  }

  lemma OneMore(l: Limit, history: seq<Request>, r: Request, t: real)
    requires Admits(l, After(l, history), r) && t <= r.at
    ensures Admitted(l, history + [r], r.client, t, r.at) == Admitted(l, history, r.client, t, r.at) + 1
  {
    var longer := history + [r];
    assert longer[..|history|] == history && longer[|history|] == r;
  }

  lemma LongerInOrder(history: seq<Request>, r: Request)
    requires InOrder(history) && NoLaterThan(history, r.at)
    ensures InOrder(history + [r])
  {
  }

  lemma RefusedBeyondEarned(l: Limit, history: seq<Request>, r: Request) returns (from: real)
    requires Sound(l) && InOrder(history) && NoLaterThan(history, r.at) && !Admits(l, After(l, history), r)
    ensures from <= r.at && (Admitted(l, history, r.client, from, r.at) + 1) as real > l.burst + Earned(l, from, r.at)
  {
    var s, c := After(l, history), r.client;
    from := FullSince(l, history, c);
    SpentSinceFull(l, history, c, r.at);
    TokensInRange(l, history, c);
    Split(l, from, s[c].last, r.at);
  }

  /** A refused request does not fit into the window since the bucket was last full. */
  lemma RefusedDoesNotFit(l: Limit, history: seq<Request>, r: Request) returns (from: real)
    requires Sound(l) && InOrder(history) && NoLaterThan(history, r.at) && !Admits(l, After(l, history), r)
    ensures from <= r.at && !Fits(l, history, r, from)
  {
    from := RefusedBeyondEarned(l, history, r);
    EarnedIs(l, from, r.at);
  }

  lemma EarnedIsAdmitted(l: Limit, history: seq<Request>, r: Request)
    requires Sound(l) && InOrder(history)
    requires forall i :: 0 <= i < |history| && history[i].client == r.client ==> Earned(l, history[i].at, r.at) >= 1.0
    ensures Admits(l, After(l, history), r)
  {
    TokensInRange(l, history, r.client);
  }

  /** A client whose earlier requests all lie at least 1/rate back is never refused. */
  lemma SpacedIsAdmitted(l: Limit, history: seq<Request>, r: Request)
    requires Sound(l) && InOrder(history)
    requires forall i :: 0 <= i < |history| && history[i].client == r.client ==> l.rate * (r.at - history[i].at) >= 1.0
    ensures Admits(l, After(l, history), r)
  {
    forall i | 0 <= i < |history| && history[i].client == r.client
      ensures Earned(l, history[i].at, r.at) >= 1.0
    {
      EarnedIs(l, history[i].at, r.at);
    }
    EarnedIsAdmitted(l, history, r);
  }

  /** With a burst below one the first request is still let through, so the bound needs `burst >= 1`. */
  lemma SmallBurstExceeds(l: Limit, r: Request)
    requires 0.0 <= l.burst < 1.0
    ensures Admitted(l, [r], r.client, r.at, r.at) as real > l.burst + l.rate * (r.at - r.at)
  {
    assert [r][..0] == [];
  }

  /** The promise for all windows holds for exactly the limits whose burst lets one request through. */
  lemma BoundExactlyFromBurstOne(l: Limit, c: Client)
    requires l.rate >= 0.0 && l.burst >= 0.0
    ensures (forall history, t1, t2 :: InOrder(history) && t1 <= t2 ==>
        Admitted(l, history, c, t1, t2) as real <= l.burst + l.rate * (t2 - t1))
      <==> l.burst >= 1.0
  {
    if l.burst >= 1.0 {
      forall history, t1, t2 | InOrder(history) && t1 <= t2
        ensures Admitted(l, history, c, t1, t2) as real <= l.burst + l.rate * (t2 - t1)
      {
        WindowBound(l, history, c, t1, t2);
      }
    } else {
      var r := Request(c, 0.0);
      SmallBurstExceeds(l, r);
      assert InOrder([r]) && Admitted(l, [r], c, r.at, r.at) as real > l.burst + l.rate * (r.at - r.at);
    }
  }

  /** Other clients' requests never change a client's answers. */
  lemma {:induction false} ClientsAreIndependent(l: Limit, history: seq<Request>, c: Client)
    ensures var own := OwnRequests(history, c);
      (c in After(l, own) <==> c in After(l, history))
      && (c in After(l, history) ==> After(l, own)[c] == After(l, history)[c])
  {
    if history != [] {
      var past, r := history[..|history|-1], history[|history|-1];
      ClientsAreIndependent(l, past, c);
      if r.client == c {
        var own := OwnRequests(past, c);
        assert (own + [r])[..|own|] == own;
        assert After(l, own + [r]) == Next(l, After(l, own), r);
      }
    }
  }

  function OwnRequests(history: seq<Request>, c: Client): (own: seq<Request>)
    ensures forall i :: 0 <= i < |own| ==> own[i].client == c
  {
    if history == [] then []
    else
      var past, r := history[..|history|-1], history[|history|-1];
      if r.client == c then OwnRequests(past, c) + [r] else OwnRequests(past, c)
  }

  class RateLimiter {
    var buckets: Buckets
    const limit: Limit
    ghost var history: seq<Request>

    ghost predicate Valid()
      reads this
    {
      InOrder(history) && buckets == After(limit, history)
    }

    constructor (l: Limit)
      ensures Valid() && limit == l && history == []
    {
      limit := l;
      buckets, history := map[], [];
    }

    /** With a sound limit the answer is the one the admitted history demands, whatever the buckets hold; with any
        limit a client's first request is let through. */
    method Allow(client: Client, now: real) returns (ok: bool)
      requires Valid() && NoLaterThan(history, now)
      modifies this
      ensures Valid() && history == old(history) + [Request(client, now)]
      ensures Sound(limit) ==> (ok <==> (forall t: real :: t <= now ==> Fits(limit, old(history), Request(client, now), t)))
      ensures ok == Admits(limit, old(buckets), Request(client, now))
    {
      ghost var past := history;
      ok := Serve(client, now);
      if Sound(limit) { AdmitsExactly(limit, past, Request(client, now)); }
    }

    /** Answers and lengthens the history. */
    method Serve(client: Client, now: real) returns (ok: bool)
      requires Valid() && NoLaterThan(history, now)
      modifies this
      ensures Valid() && history == old(history) + [Request(client, now)]
      ensures ok == Admits(limit, After(limit, old(history)), Request(client, now))
    {
      assert (history + [Request(client, now)])[..|history|] == history;
      history := history + [Request(client, now)];
      ok := Spend(client, now);
    }

    /** Refills the client's bucket and takes a token if there is one. */
    method Spend(client: Client, now: real) returns (ok: bool)
      modifies this`buckets
      ensures buckets == Next(limit, old(buckets), Request(client, now))
      ensures ok == Admits(limit, old(buckets), Request(client, now))
    {
      if client !in buckets {
        buckets := buckets[client := Bucket(limit.burst - 1.0, now)];
        return true;
      }
      var b := buckets[client];
      var t := b.tokens + Earned(limit, b.last, now);
      var tokens := if t < limit.burst then t else limit.burst;
      buckets := buckets[client := Bucket(tokens, now)];
      if tokens < 1.0 { return false; }
      buckets := buckets[client := Bucket(tokens - 1.0, now)];
      return true;
    }
  }
}
