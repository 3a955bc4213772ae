/**
 The gateway's rate limiter: one token bucket per identity, kept in Redis and
 updated by an atomic Lua script.

 The script keeps a fractional token count refilled at `rate` tokens per second
 from a clock in whole milliseconds.  Counting in thousandths of a token makes
 that exact over `int`: one elapsed millisecond is worth `rate` thousandths.
 */
module TokenBucket {
  import opened Common

  /** Requests per second and bucket depth, both checked positive at start-up. */
  datatype Limit = Limit(rate: int, burst: int) {
    ghost predicate Valid() {
      rate >= 1 && burst >= 1
    }

    function Capacity(): int {
      1000 * burst
    }

    /** Seconds a bucket outlives its last use. */
    function TtlSeconds(): int
      requires rate >= 1
    {
      (burst + rate - 1) / rate + 1
    }
  }

  /** The stored hash: thousandths of a token, and the millisecond they were counted at. */
  datatype Bucket = Bucket(tokens: int, ts: int)

  datatype Request = Request(now: int, cost: nat)

  // ---------------------------------------------------------------------------
  // One bucket that is never collected
  // ---------------------------------------------------------------------------

  /** Thousandths of a token available at `now`, before the request takes its share. */
  function Level(l: Limit, b: Option<Bucket>, now: int): int {
    match b
    case None => l.Capacity()
    case Some(Bucket(tokens, ts)) => Min(l.Capacity(), tokens + l.rate * Max(now - ts, 0))
  }

  predicate Admits(l: Limit, b: Option<Bucket>, q: Request) {
    Level(l, b, q.now) >= 1000 * q.cost
  }

  function Take(l: Limit, b: Option<Bucket>, q: Request): Bucket {
    Bucket(Level(l, b, q.now) - (if Admits(l, b, q) then 1000 * q.cost else 0), q.now)
  }

  /** The bucket after a whole trace of requests of one identity. */
  function After(l: Limit, trace: seq<Request>): Option<Bucket> {
    if trace == [] then None
    else Some(Take(l, After(l, trace[..|trace| - 1]), trace[|trace| - 1]))
  }

  /** Thousandths of a token found by request `i`. */
  function LevelAt(l: Limit, trace: seq<Request>, i: nat): int
    requires i < |trace|
  {
    Level(l, After(l, trace[..i]), trace[i].now)
  }

  predicate Admitted(l: Limit, trace: seq<Request>, i: nat)
    requires i < |trace|
  {
    Admits(l, After(l, trace[..i]), trace[i])
  }

  /** Tokens granted to the requests at positions `lo .. hi - 1`. */
  function Spent(l: Limit, trace: seq<Request>, lo: nat, hi: nat): nat
    requires lo <= hi <= |trace|
    decreases hi
  {
    if lo == hi then 0
    else Spent(l, trace, lo, hi - 1) + if Admitted(l, trace, hi - 1) then trace[hi - 1].cost else 0
  }

  /** How far the clock moved forward between two requests, its steps back left out. */
  function Forward(trace: seq<Request>, s: nat, i: nat): int
    requires s <= i < |trace|
    decreases i
  {
    if s == i then 0 else Forward(trace, s, i - 1) + Max(trace[i].now - trace[i - 1].now, 0)
  }

  /** What the window opened by request `s` still allows request `i`, in thousandths. */
  function Allowance(l: Limit, trace: seq<Request>, s: nat, i: nat): int
    requires s <= i < |trace|
  {
    l.Capacity() + l.rate * Forward(trace, s, i) - 1000 * Spent(l, trace, s, i)
  }

  ghost predicate Monotone(trace: seq<Request>) {
    forall i, j :: 0 <= i <= j < |trace| ==> trace[i].now <= trace[j].now
  }

  /** The clock does not step back between request `s` and request `i`. */
  ghost predicate Steady(trace: seq<Request>, s: nat, i: nat)
    requires s <= i < |trace|
  {
    forall k :: s <= k < i ==> trace[k].now <= trace[k + 1].now
  }

  /** Forward movement is elapsed time exactly when the clock was steady, and more otherwise. */
  lemma {:induction false} ForwardIsElapsed(trace: seq<Request>, s: nat, i: nat)
    requires s <= i < |trace|
    ensures Forward(trace, s, i) >= trace[i].now - trace[s].now && Forward(trace, s, i) >= 0
    ensures Forward(trace, s, i) == trace[i].now - trace[s].now <==> Steady(trace, s, i)
    decreases i
  {
    if s < i {
      ForwardIsElapsed(trace, s, i - 1);
      assert Steady(trace, s, i) <==> Steady(trace, s, i - 1) && trace[i - 1].now <= trace[i].now;
    }
  }

  /** A bucket never holds less than nothing or more than its depth, and is stamped with its last use. */
  lemma {:induction false} TokensStayInRange(l: Limit, trace: seq<Request>)
    requires l.Valid() && trace != []
    ensures After(l, trace).Some?
    ensures 0 <= After(l, trace).value.tokens <= l.Capacity()
    ensures After(l, trace).value.ts == trace[|trace| - 1].now
  {
    var front := trace[..|trace| - 1];
    if front != [] {
      TokensStayInRange(l, front);
      var b := After(l, front).value;
      assert l.rate * Max(trace[|trace| - 1].now - b.ts, 0) >= 0;
    }
  }

  lemma LevelIsNotNegative(l: Limit, trace: seq<Request>, i: nat)
    requires l.Valid() && i < |trace|
    ensures LevelAt(l, trace, i) >= 0
  {
    if i > 0 {
      TokensStayInRange(l, trace[..i]);
      assert l.rate * Max(trace[i].now - trace[i - 1].now, 0) >= 0;
    }
  }

  lemma LevelAdvances(l: Limit, trace: seq<Request>, i: nat)
    requires l.Valid() && 0 < i < |trace|
    ensures LevelAt(l, trace, i)
         == Min(l.Capacity(),
                LevelAt(l, trace, i - 1)
                - (if Admitted(l, trace, i - 1) then 1000 * trace[i - 1].cost else 0)
                + l.rate * Max(trace[i].now - trace[i - 1].now, 0))
  {
    assert trace[..i][..i - 1] == trace[..i - 1];
  }

  lemma AllowanceAdvances(l: Limit, trace: seq<Request>, s: nat, i: nat)
    requires s < i < |trace|
    ensures Allowance(l, trace, s, i)
         == Allowance(l, trace, s, i - 1)
            - (if Admitted(l, trace, i - 1) then 1000 * trace[i - 1].cost else 0)
            + l.rate * Max(trace[i].now - trace[i - 1].now, 0)
  {
    var before, step := Forward(trace, s, i - 1), Max(trace[i].now - trace[i - 1].now, 0);
    assert l.rate * (before + step) == l.rate * before + l.rate * step;
  }

  /** From one request to the next the level and a window's allowance move together, up to the cap. */
  lemma LevelFollowsAllowance(l: Limit, trace: seq<Request>, s: nat, i: nat)
    requires l.Valid() && s < i < |trace|
    ensures LevelAt(l, trace, i)
         == Min(l.Capacity(), LevelAt(l, trace, i - 1) - Allowance(l, trace, s, i - 1) + Allowance(l, trace, s, i))
  {
    LevelAdvances(l, trace, i);
    AllowanceAdvances(l, trace, s, i);
  }

  /** The two numbers in the hash summarise every window that ends now, on any clock: they hold the tightest one. */
  lemma {:induction false} LevelIsTightestWindow(l: Limit, trace: seq<Request>, i: nat) returns (tight: nat)
    requires l.Valid() && i < |trace|
    ensures tight <= i && LevelAt(l, trace, i) == Allowance(l, trace, tight, i)
    ensures forall s: nat :: s <= i ==> LevelAt(l, trace, i) <= Allowance(l, trace, s, i)
  {
    tight := i;
    assert Allowance(l, trace, i, i) == l.Capacity();
    if i > 0 {
      var before := LevelIsTightestWindow(l, trace, i - 1);
      forall s: nat | s < i
        ensures LevelAt(l, trace, i) <= Allowance(l, trace, s, i)
      {
        LevelFollowsAllowance(l, trace, s, i);
      }
      LevelFollowsAllowance(l, trace, before, i);
      if LevelAt(l, trace, i) != l.Capacity() {
        tight := before;
      }
    }
  }

  /** Granting request `i` would exceed depth plus refill over the window from request `s`. */
  ghost predicate WouldOverflow(l: Limit, trace: seq<Request>, s: nat, i: nat)
    requires s <= i < |trace|
  {
    1000 * (Spent(l, trace, s, i) + trace[i].cost) > 1000 * l.burst + l.rate * Forward(trace, s, i)
  }

  ghost predicate SomeWindowWouldOverflow(l: Limit, trace: seq<Request>, i: nat)
    requires i < |trace|
  {
    exists s: nat :: s <= i && WouldOverflow(l, trace, s, i)
  }

  /** A request is refused exactly when admitting it would overflow some window of earlier requests. */
  lemma ExactDenial(l: Limit, trace: seq<Request>, i: nat)
    requires l.Valid() && i < |trace|
    ensures !Admitted(l, trace, i) <==> SomeWindowWouldOverflow(l, trace, i)
  {
    var tight := LevelIsTightestWindow(l, trace, i);
    assert !Admitted(l, trace, i) <==> Allowance(l, trace, tight, i) < 1000 * trace[i].cost;
    forall s: nat | s <= i
      ensures WouldOverflow(l, trace, s, i) <==> Allowance(l, trace, s, i) < 1000 * trace[i].cost
    {}
  }

  lemma LevelWithinWindow(l: Limit, trace: seq<Request>, s: nat, i: nat)
    requires l.Valid() && s <= i < |trace|
    ensures LevelAt(l, trace, i) <= Allowance(l, trace, s, i)
  {
    var _ := LevelIsTightestWindow(l, trace, i);
  }

  lemma GrantFitsLevel(l: Limit, trace: seq<Request>, i: nat)
    requires l.Valid() && i < |trace|
    ensures (if Admitted(l, trace, i) then 1000 * trace[i].cost else 0) <= LevelAt(l, trace, i)
  {
    LevelIsNotNegative(l, trace, i);
  }

  /** No window of requests is ever granted more than the depth plus what the clock's forward movement refilled. */
  lemma WindowBound(l: Limit, trace: seq<Request>, i: nat, j: nat)
    requires l.Valid() && i <= j < |trace|
    ensures 1000 * Spent(l, trace, i, j + 1) <= 1000 * l.burst + l.rate * Forward(trace, i, j)
  {
    LevelWithinWindow(l, trace, i, j);
    GrantFitsLevel(l, trace, j);
    assert Spent(l, trace, i, j + 1) == Spent(l, trace, i, j) + if Admitted(l, trace, j) then trace[j].cost else 0;
  }

  // ---------------------------------------------------------------------------
  // The wall clock
  // ---------------------------------------------------------------------------

  /** The documented bound: depth plus rate times the time between the readings. */
  ghost predicate WallBound(l: Limit, trace: seq<Request>, i: nat, j: nat)
    requires i <= j < |trace|
  {
    1000 * Spent(l, trace, i, j + 1) <= 1000 * l.burst + l.rate * (trace[j].now - trace[i].now)
  }

  /** It holds for a window inside which the clock does not step back, whatever the clock does elsewhere. */
  lemma SteadyWindowBound(l: Limit, trace: seq<Request>, i: nat, j: nat)
    requires l.Valid() && i <= j < |trace| && Steady(trace, i, j)
    ensures WallBound(l, trace, i, j)
  {
    WindowBound(l, trace, i, j);
    ForwardIsElapsed(trace, i, j);
  }

  /** Granting request `i` would exceed depth plus rate times the time since request `s`. */
  ghost predicate WallOverflow(l: Limit, trace: seq<Request>, s: nat, i: nat)
    requires s <= i < |trace|
  {
    1000 * (Spent(l, trace, s, i) + trace[i].cost) > 1000 * l.burst + l.rate * (trace[i].now - trace[s].now)
  }

  ghost predicate SomeWallWindowOverflows(l: Limit, trace: seq<Request>, i: nat)
    requires i < |trace|
  {
    exists s: nat :: s <= i && WallOverflow(l, trace, s, i)
  }

  /** If the clock has not stepped back so far, refusal is exactly overflow by the wall clock. */
  lemma ExactDenialByWallClock(l: Limit, trace: seq<Request>, i: nat)
    requires l.Valid() && i < |trace| && Steady(trace, 0, i)
    ensures !Admitted(l, trace, i) <==> SomeWallWindowOverflows(l, trace, i)
  {
    ExactDenial(l, trace, i);
    forall s: nat | s <= i
      ensures WouldOverflow(l, trace, s, i) <==> WallOverflow(l, trace, s, i)
    {
      assert Steady(trace, s, i);
      ForwardIsElapsed(trace, s, i);
    }
  }

  function TraceOf(nows: seq<int>, costs: seq<nat>): seq<Request>
    requires |nows| == |costs|
  {
    seq(|nows|, k requires 0 <= k < |nows| => Request(nows[k], costs[k]))
  }

  ghost predicate NeverBack(nows: seq<int>) {
    forall k :: 0 < k < |nows| ==> nows[k - 1] <= nows[k]
  }

  ghost predicate AllWindowsBounded(l: Limit, trace: seq<Request>) {
    forall i: nat, j: nat :: i <= j < |trace| ==> WallBound(l, trace, i, j)
  }

  /** Requests that ask for nothing leave a full bucket full. */
  lemma {:induction false} FreeRequestsKeepFull(l: Limit, trace: seq<Request>, i: nat)
    requires l.Valid() && i < |trace| && forall k :: 0 <= k < i ==> trace[k].cost == 0
    ensures LevelAt(l, trace, i) == l.Capacity()
  {
    if i > 0 {
      FreeRequestsKeepFull(l, trace, i - 1);
      LevelAdvances(l, trace, i);
      assert l.rate * Max(trace[i].now - trace[i - 1].now, 0) >= 0;
    }
  }

  /** At a step back, spending the whole depth just before it is already too much for the wall clock. */
  lemma StepBackBreaksBound(l: Limit, nows: seq<int>, k: nat)
    requires l.Valid() && 0 < k < |nows| && nows[k] < nows[k - 1]
    ensures var costs := seq(|nows|, i => if i == k - 1 then l.burst else 0);
            !WallBound(l, TraceOf(nows, costs), k - 1, k)
  {
    var costs := seq(|nows|, i => if i == k - 1 then l.burst else 0);
    var trace := TraceOf(nows, costs);
    FreeRequestsKeepFull(l, trace, k - 1);
    assert Admitted(l, trace, k - 1);
    assert Spent(l, trace, k - 1, k + 1) == Spent(l, trace, k - 1, k) == l.burst;
    assert l.rate * (nows[k] - nows[k - 1]) < 0;
  }

  /**
   For a given sequence of clock readings the documented bound holds, whatever is asked for, exactly if the
   readings never step back.  Clamping a negative elapsed time does not save it, because the script still
   stores the earlier timestamp and so refills the same second twice.
   */
  lemma WallBoundIsExact(l: Limit, nows: seq<int>)
    requires l.Valid()
    ensures (forall costs: seq<nat> :: |costs| == |nows| ==> AllWindowsBounded(l, TraceOf(nows, costs))) <==> NeverBack(nows)
  {
    if NeverBack(nows) {
      forall costs: seq<nat> | |costs| == |nows|
        ensures AllWindowsBounded(l, TraceOf(nows, costs))
      {
        var trace := TraceOf(nows, costs);
        forall i: nat, j: nat | i <= j < |trace|
          ensures WallBound(l, trace, i, j)
        {
          SteadyWindowBound(l, trace, i, j);
        }
      }
    } else {
      var k :| 0 < k < |nows| && nows[k] < nows[k - 1];
      StepBackBreaksBound(l, nows, k);
      var costs := seq(|nows|, i => if i == k - 1 then l.burst else 0);
      assert |costs| == |nows| && !AllWindowsBounded(l, TraceOf(nows, costs));
    }
  }

  /** It takes no large request: three of one token each are enough. */
  lemma BackwardClockBreaksBound()
    ensures var l := Limit(1, 1);
            var trace := [Request(1000, 1), Request(0, 1), Request(1000, 1)];
            l.Valid() && 1000 * Spent(l, trace, 0, 3) > 1000 * l.burst + l.rate * (trace[2].now - trace[0].now)
  {
    var l := Limit(1, 1);
    var trace := [Request(1000, 1), Request(0, 1), Request(1000, 1)];
    assert trace[..0] == [] && trace[..1] == [trace[0]] && trace[..2] == [trace[0], trace[1]];
    AfterSnoc(l, [], trace[0]);
    assert trace[..1] == [] + [trace[0]];
    AfterSnoc(l, trace[..1], trace[1]);
    assert trace[..2] == trace[..1] + [trace[1]];
    assert Admitted(l, trace, 0) && !Admitted(l, trace, 1) && Admitted(l, trace, 2);
    assert Spent(l, trace, 0, 1) == 1 && Spent(l, trace, 0, 2) == 1 && Spent(l, trace, 0, 3) == 2;
  }

  // ---------------------------------------------------------------------------
  // Denied requests leave no mark
  // ---------------------------------------------------------------------------

  /** Two stored states that no request from `now` on can tell apart. */
  ghost predicate Alike(l: Limit, a: Option<Bucket>, b: Option<Bucket>, now: int) {
    forall t :: t >= now ==> Level(l, a, t) == Level(l, b, t)
  }

  function Keep<T>(xs: seq<T>, mask: seq<bool>): seq<T>
    requires |mask| == |xs|
  {
    if xs == [] then []
    else Keep(xs[..|xs| - 1], mask[..|xs| - 1]) + if mask[|xs| - 1] then [xs[|xs| - 1]] else []
  }

  function Decisions(l: Limit, trace: seq<Request>): seq<bool> {
    seq(|trace|, i requires 0 <= i < |trace| => Admitted(l, trace, i))
  }

  lemma DecisionsSnoc(l: Limit, trace: seq<Request>, q: Request)
    ensures Decisions(l, trace + [q]) == Decisions(l, trace) + [Admits(l, After(l, trace), q)]
  {
    var whole := trace + [q];
    assert whole[..|trace|] == trace;
    forall i | 0 <= i < |trace|
      ensures Admitted(l, whole, i) == Admitted(l, trace, i)
    {
      assert whole[..i] == trace[..i];
    }
  }

  /** Refilling in two capped steps is refilling once. */
  lemma RefillComposes(l: Limit, b: Option<Bucket>, q: Request, t: int)
    requires l.Valid() && q.now <= t
    requires b.Some? ==> b.value.ts <= q.now
    ensures Level(l, Some(Bucket(Level(l, b, q.now), q.now)), t) == Level(l, b, t)
  {
    assert l.rate * (t - q.now) >= 0;
    if b.Some? {
      assert l.rate * (t - b.value.ts) == l.rate * (t - q.now) + l.rate * (q.now - b.value.ts);
    }
  }

  /** Answering the same request in two states that look alike gives the same answer and alike states. */
  lemma AlikeStep(l: Limit, a: Option<Bucket>, b: Option<Bucket>, q: Request)
    requires Level(l, a, q.now) == Level(l, b, q.now)
    ensures Admits(l, a, q) == Admits(l, b, q) && Take(l, a, q) == Take(l, b, q)
  {}

  /** A refused request may be skipped. */
  lemma AlikeSkip(l: Limit, a: Option<Bucket>, b: Option<Bucket>, q: Request)
    requires l.Valid() && Alike(l, a, b, q.now) && !Admits(l, b, q)
    requires b.Some? ==> b.value.ts <= q.now
    ensures Alike(l, a, Some(Take(l, b, q)), q.now)
  {
    forall t | t >= q.now
      ensures Level(l, a, t) == Level(l, Some(Take(l, b, q)), t)
    {
      RefillComposes(l, b, q, t);
    }
  }

  /** The induction step: one more request, kept in both traces or, being refused, only in the longer one. */
  lemma InertStep(l: Limit, front: seq<Request>, kept: seq<Request>, q: Request, keep: bool)
    requires l.Valid() && Monotone(front + [q])
    requires Alike(l, After(l, kept), After(l, front), q.now)
    requires keep || !Admits(l, After(l, front), q)
    ensures var kept' := kept + if keep then [q] else [];
            && Decisions(l, kept') == Decisions(l, kept) + (if keep then [Admits(l, After(l, front), q)] else [])
            && Alike(l, After(l, kept'), After(l, front + [q]), q.now)
  {
    AfterSnoc(l, front, q);
    if keep {
      DecisionsSnoc(l, kept, q);
      AfterSnoc(l, kept, q);
      AlikeStep(l, After(l, kept), After(l, front), q);
    } else {
      assert kept + [] == kept;
      if front != [] {
        assert front == (front + [q])[..|front|];
        assert (front + [q])[|front| - 1].now <= (front + [q])[|front|].now;
        TokensStayInRange(l, front);
      }
      AlikeSkip(l, After(l, kept), After(l, front), q);
    }
  }

  ghost predicate DropsOnlyDenied(l: Limit, trace: seq<Request>, mask: seq<bool>) {
    |mask| == |trace| && forall i :: 0 <= i < |trace| && !mask[i] ==> !Admitted(l, trace, i)
  }

  lemma DropsOnlyDeniedFront(l: Limit, front: seq<Request>, q: Request, mask: seq<bool>, keep: bool)
    requires DropsOnlyDenied(l, front + [q], mask + [keep])
    ensures DropsOnlyDenied(l, front, mask) && (keep || !Admits(l, After(l, front), q))
  {
    var trace := front + [q];
    assert trace[..|front|] == front && (mask + [keep])[|front|] == keep;
    forall i | 0 <= i < |front| && !mask[i]
      ensures !Admitted(l, front, i)
    {
      assert trace[..i] == front[..i] && !(mask + [keep])[i] && !Admitted(l, trace, i);
    }
  }

  /** Deleting any set of refused requests changes no other decision and no later token count. */
  lemma {:induction false} DeniedRequestsAreInert(l: Limit, trace: seq<Request>, mask: seq<bool>)
    requires l.Valid() && Monotone(trace) && DropsOnlyDenied(l, trace, mask)
    ensures Decisions(l, Keep(trace, mask)) == Keep(Decisions(l, trace), mask)
    ensures trace != [] ==> Alike(l, After(l, Keep(trace, mask)), After(l, trace), trace[|trace| - 1].now)
  {
    if trace != [] {
      var n := |trace| - 1;
      var front, q := trace[..n], trace[n];
      assert trace == front + [q] && mask == mask[..n] + [mask[n]];
      DropsOnlyDeniedFront(l, front, q, mask[..n], mask[n]);
      DeniedRequestsAreInert(l, front, mask[..n]);
      DecisionsSnoc(l, front, q);
      assert Decisions(l, trace)[..n] == Decisions(l, front);
      assert front != [] ==> trace[n - 1].now <= q.now;
      InertStep(l, front, Keep(front, mask[..n]), q, mask[n]);
    }
  }

  lemma AfterSnoc(l: Limit, trace: seq<Request>, q: Request)
    ensures After(l, trace + [q]) == Some(Take(l, After(l, trace), q))
  {
    assert (trace + [q])[..|trace|] == trace;
  }

  // ---------------------------------------------------------------------------
  // The shared store: many identities, keys that expire
  // ---------------------------------------------------------------------------

  datatype Entry = Entry(bucket: Bucket, expireAt: int)

  /** One execution of the script; `swept` says Redis has already removed the key if it had expired. */
  datatype Call = Call(key: string, now: int, cost: nat, swept: bool)

  function Found(entries: map<string, Entry>, c: Call): Option<Bucket> {
    if c.key in entries && !(c.swept && entries[c.key].expireAt <= c.now) then Some(entries[c.key].bucket)
    else None
  }

  function Serve(l: Limit, entries: map<string, Entry>, c: Call): map<string, Entry>
    requires l.rate >= 1
  {
    entries[c.key := Entry(Take(l, Found(entries, c), Request(c.now, c.cost)), c.now + 1000 * l.TtlSeconds())]
  }

  class RedisStore {
    var entries: map<string, Entry>

    constructor ()
      ensures entries == map[]
    {
      entries := map[];
    }

    /** The Lua script, statement by statement. */
    method RunScript(l: Limit, c: Call) returns (allowed: int, remaining: int)
      requires l.rate >= 1
      modifies this
      ensures entries == Serve(l, old(entries), c)
      ensures allowed == if Admits(l, Found(old(entries), c), Request(c.now, c.cost)) then 1 else 0
      ensures remaining == entries[c.key].bucket.tokens / 1000
    {
      var tokens, ts := l.Capacity(), c.now;
      if c.key in entries && !(c.swept && entries[c.key].expireAt <= c.now) {
        tokens, ts := entries[c.key].bucket.tokens, entries[c.key].bucket.ts;
      }
      var elapsed := c.now - ts;
      if elapsed < 0 {
        elapsed := 0;
      }
      tokens := Min(l.Capacity(), tokens + l.rate * elapsed);
      allowed := 0;
      if tokens >= 1000 * c.cost {
        tokens := tokens - 1000 * c.cost;
        allowed := 1;
      }
      entries := entries[c.key := Entry(Bucket(tokens, c.now), c.now + 1000 * l.TtlSeconds())];
      remaining := tokens / 1000;
    }
  }

  /** The store after a sequence of script executions, by any number of gateway replicas. */
  function Store(l: Limit, calls: seq<Call>): map<string, Entry>
    requires l.rate >= 1
  {
    if calls == [] then map[]
    else Serve(l, Store(l, calls[..|calls| - 1]), calls[|calls| - 1])
  }

  function ForKey(calls: seq<Call>, key: string): seq<Request> {
    if calls == [] then []
    else
      var last := calls[|calls| - 1];
      ForKey(calls[..|calls| - 1], key) + if last.key == key then [Request(last.now, last.cost)] else []
  }

  predicate Served(l: Limit, calls: seq<Call>, i: nat)
    requires l.rate >= 1 && i < |calls|
  {
    Admits(l, Found(Store(l, calls[..i]), calls[i]), Request(calls[i].now, calls[i].cost))
  }

  /** Needed of Redis: were the clock to step back, a key could have been removed before its expiry in `now`'s terms. */
  ghost predicate ClockForward(calls: seq<Call>) {
    forall i, j :: 0 <= i <= j < |calls| ==> calls[i].now <= calls[j].now
  }

  /** A key is kept one second longer than the whole seconds a full refill takes, and no more. */
  lemma TtlIsTight(l: Limit)
    requires l.Valid()
    ensures l.rate * (l.TtlSeconds() - 2) < l.burst <= l.rate * (l.TtlSeconds() - 1)
  {
    var whole := (l.burst + l.rate - 1) / l.rate;
    assert l.rate * whole <= l.burst + l.rate - 1 < l.rate * whole + l.rate;
    assert l.rate * (whole - 1) == l.rate * whole - l.rate;
  }

  /** A key old enough to expire has refilled completely, so a fresh bucket looks the same. */
  lemma ExpiredIsFull(l: Limit, tokens: int, ts: int, now: int)
    requires l.Valid() && tokens >= 0 && now >= ts + 1000 * l.TtlSeconds()
    ensures Level(l, Some(Bucket(tokens, ts)), now) == l.Capacity()
  {
    var whole := (l.burst + l.rate - 1) / l.rate;
    assert l.rate * whole >= l.burst;
    assert l.rate * (now - ts) >= l.rate * (1000 * whole);
  }

  lemma {:induction false} ForKeyIsMonotone(calls: seq<Call>, key: string)
    requires ClockForward(calls)
    ensures Monotone(ForKey(calls, key))
    ensures forall i :: 0 <= i < |ForKey(calls, key)| ==> calls != [] && ForKey(calls, key)[i].now <= calls[|calls| - 1].now
  {
    if calls != [] {
      ForKeyIsMonotone(calls[..|calls| - 1], key);
    }
  }

  /** Whatever is swept and whoever else calls, an identity's bucket is that of its own requests alone. */
  lemma {:induction false} StoreHoldsOwnBucket(l: Limit, calls: seq<Call>, key: string)
    requires l.Valid() && ClockForward(calls)
    ensures key in Store(l, calls) <==> ForKey(calls, key) != []
    ensures key in Store(l, calls) ==>
              var e := Store(l, calls)[key];
              After(l, ForKey(calls, key)) == Some(e.bucket) && e.expireAt == e.bucket.ts + 1000 * l.TtlSeconds()
  {
    if calls != [] {
      var n := |calls| - 1;
      var front, c := calls[..n], calls[n];
      StoreHoldsOwnBucket(l, front, key);
      if c.key == key {
        SweepingIsUnobservable(l, front, c);
        AlikeStep(l, Found(Store(l, front), c), After(l, ForKey(front, key)), Request(c.now, c.cost));
        AfterSnoc(l, ForKey(front, key), Request(c.now, c.cost));
      } else {
        assert ForKey(calls, key) == ForKey(front, key);
      }
    }
  }

  lemma SweepingIsUnobservable(l: Limit, front: seq<Call>, c: Call)
    requires l.Valid() && ClockForward(front)
    requires c.key in Store(l, front) <==> ForKey(front, c.key) != []
    requires c.key in Store(l, front) ==>
               var e := Store(l, front)[c.key];
               After(l, ForKey(front, c.key)) == Some(e.bucket) && e.expireAt == e.bucket.ts + 1000 * l.TtlSeconds()
    ensures Level(l, Found(Store(l, front), c), c.now) == Level(l, After(l, ForKey(front, c.key)), c.now)
  {
    if c.key in Store(l, front) {
      TokensStayInRange(l, ForKey(front, c.key));
      var e := Store(l, front)[c.key];
      if e.expireAt <= c.now {
        ExpiredIsFull(l, e.bucket.tokens, e.bucket.ts, c.now);
      }
    }
  }

  /** Expiry is invisible: each call is answered as if no key had ever been swept and nobody else had called. */
  lemma ExpiryAndOthersAreInvisible(l: Limit, calls: seq<Call>, i: nat)
    requires l.Valid() && ClockForward(calls) && i < |calls|
    ensures var own := ForKey(calls[..i + 1], calls[i].key);
            own != [] && Served(l, calls, i) == Admitted(l, own, |own| - 1)
  {
    var front, c := calls[..i], calls[i];
    StoreHoldsOwnBucket(l, front, c.key);
    SweepingIsUnobservable(l, front, c);
    assert calls[..i + 1][..i] == front;
    var own := ForKey(front, c.key);
    assert ForKey(calls[..i + 1], c.key)[..|own|] == own;
  }

  /** The limiter end to end: a call is refused exactly when one of its own identity's windows is full. */
  lemma LimiterIsExact(l: Limit, calls: seq<Call>, i: nat)
    requires l.Valid() && ClockForward(calls) && i < |calls|
    ensures var own := ForKey(calls[..i + 1], calls[i].key);
            own != [] && (!Served(l, calls, i) <==> SomeWallWindowOverflows(l, own, |own| - 1))
  {
    ExpiryAndOthersAreInvisible(l, calls, i);
    ForKeyIsMonotone(calls[..i + 1], calls[i].key);
    var own := ForKey(calls[..i + 1], calls[i].key);
    ExactDenialByWallClock(l, own, |own| - 1);
  }
}
