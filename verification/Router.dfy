/** Routing one chat request: healthy candidates, cheapest first, fail over on transient errors. */
module Router {
  import opened Common
  import opened Registry
  import opened Pricing
  import opened CircuitBreaker

  /** `Escaped` is any exception that is not the provider's own kind of error. */
  datatype CallOutcome = Terminal | NoTerminal | Transient | Permanent | Escaped

  /** What one request meets: the clock readings it makes for a provider and the outcome of calling it. */
  datatype Oracle = Oracle(pollAt: Provider -> real, callAt: Provider -> real, failAt: Provider -> real,
                           outcome: Provider -> CallOutcome)

  datatype RouteResult =
    | Answered(who: Provider)
    | Raised(who: Provider)
    | NoHealthyProvider
    | AllFailed

  /** The breakers created so far; a provider without one counts as having a new one. */
  type Board = map<string, BreakerView>

  function At(board: Board, name: string): BreakerView {
    if name in board then board[name] else NEW_BREAKER
  }

  function Polled(s: Settings, board: Board, o: Oracle, p: Provider): BreakerView {
    OnPoll(s, At(board, p.name), o.pollAt(p))
  }

  function IsHealthy(s: Settings, board: Board, o: Oracle): Provider -> bool {
    (p: Provider) => Polled(s, board, o, p).state != Open
  }

  ghost predicate Candidate(s: Settings, board: Board, o: Oracle, pool: seq<Provider>, p: Provider) {
    p in pool && IsHealthy(s, board, o)(p)
  }

  function Failed(s: Settings, board: Board, o: Oracle, p: Provider): BreakerView {
    OnFailure(s, Polled(s, board, o, p), o.failAt(p))
  }

  /** Polling the pool in order: the breakers afterwards and the providers not found open. */
  function PollPool(s: Settings, board: Board, o: Oracle, pool: seq<Provider>): (Board, seq<Provider>)
    decreases |pool|
  {
    if pool == [] then (board, [])
    else
      var view := Polled(s, board, o, pool[0]);
      var rest := PollPool(s, board[pool[0].name := view], o, pool[1..]);
      (rest.0, (if view.state != Open then [pool[0]] else []) + rest.1)
  }

  lemma {:induction false} ScanSame(pool: seq<Provider>, a: Provider -> bool, b: Provider -> bool)
    requires forall p :: p in pool ==> a(p) == b(p)
    ensures Scan(pool, a) == Scan(pool, b)
  {
    if pool != [] {
      ScanSame(pool[1..], a, b);
    }
  }

  ghost predicate NameOutside(pool: seq<Provider>, n: string) {
    forall p :: p in pool ==> p.name != n
  }

  lemma {:induction false} PollPoolLeavesOthers(s: Settings, board: Board, o: Oracle, pool: seq<Provider>, n: string)
    requires NameOutside(pool, n)
    ensures At(PollPool(s, board, o, pool).0, n) == At(board, n)
    decreases |pool|
  {
    if pool != [] {
      PollPoolLeavesOthers(s, board[pool[0].name := Polled(s, board, o, pool[0])], o, pool[1..], n);
    }
  }

  /** With distinct names the polls do not disturb each other. */
  lemma {:induction false} PollPoolMeans(s: Settings, board: Board, o: Oracle, pool: seq<Provider>)
    requires UniqueNames(pool)
    ensures PollPool(s, board, o, pool).1 == Scan(pool, IsHealthy(s, board, o))
    ensures forall p :: p in pool ==> At(PollPool(s, board, o, pool).0, p.name) == Polled(s, board, o, p)
    decreases |pool|
  {
    if pool != [] {
      var first, rest := pool[0], pool[1..];
      var next := board[first.name := Polled(s, board, o, first)];
      assert UniqueNames(rest);
      assert NameOutside(rest, first.name);
      PollPoolMeans(s, next, o, rest);
      PollPoolLeavesOthers(s, next, o, rest, first.name);
      ScanSame(rest, IsHealthy(s, next, o), IsHealthy(s, board, o));
    }
  }

  // ---------------------------------------------------------------------------
  // Names identify providers along the way from the registry to the chain
  // ---------------------------------------------------------------------------

  lemma {:induction false} ScanUnique(pool: seq<Provider>, wanted: Provider -> bool)
    requires UniqueNames(pool)
    ensures UniqueNames(Scan(pool, wanted))
  {
    if pool != [] {
      assert UniqueNames(pool[1..]);
      ScanUnique(pool[1..], wanted);
      ScanMembers(pool[1..], wanted);
      assert forall x :: x in pool[1..] ==> x.name != pool[0].name;
    }
  }

  lemma {:induction false} InsertUnique(p: Provider, sorted: seq<Provider>, q: ChatRequest)
    requires UniqueNames(sorted) && forall x :: x in sorted ==> x.name != p.name
    ensures UniqueNames(Insert(p, sorted, q))
  {
    if sorted != [] && !NotDearer(p, sorted[0], q) {
      var rest := sorted[1..];
      assert UniqueNames(rest);
      InsertUnique(p, rest, q);
      InsertAdds(p, rest, q);
      assert forall x :: x in rest ==> x.name != sorted[0].name;
      assert forall x :: x in Insert(p, rest, q) ==> x.name != sorted[0].name;
    }
  }

  lemma {:induction false} SortedUnique(pool: seq<Provider>, q: ChatRequest)
    requires UniqueNames(pool)
    ensures UniqueNames(Sorted(pool, q)) && forall x :: x in Sorted(pool, q) <==> x in pool
  {
    if pool != [] {
      var rest := pool[1..];
      assert UniqueNames(rest);
      SortedUnique(rest, q);
      assert forall x :: x in rest ==> x.name != pool[0].name;
      InsertUnique(pool[0], Sorted(rest, q), q);
      InsertAdds(pool[0], Sorted(rest, q), q);
    }
  }

  /** Everything the routing loop needs to know of the chain it walks. */
  ghost predicate ChainOf(s: Settings, board: Board, o: Oracle, pool: seq<Provider>, q: ChatRequest, chain: seq<Provider>) {
    && UniqueNames(chain) && CheapestFirst(chain, q)
    && forall p :: p in chain <==> Candidate(s, board, o, pool, p)
  }

  lemma ChainIsChain(s: Settings, board: Board, o: Oracle, pool: seq<Provider>, q: ChatRequest)
    requires UniqueNames(pool)
    ensures ChainOf(s, board, o, pool, q, Sorted(Scan(pool, IsHealthy(s, board, o)), q))
  {
    var healthy := Scan(pool, IsHealthy(s, board, o));
    ScanUnique(pool, IsHealthy(s, board, o));
    ScanMembers(pool, IsHealthy(s, board, o));
    SortedUnique(healthy, q);
    SortedSorts(healthy, q);
  }

  /** In a chain, standing earlier is being strictly preferred. */
  lemma EarlierIsCheaper(chain: seq<Provider>, q: ChatRequest, i: nat, j: nat)
    requires UniqueNames(chain) && CheapestFirst(chain, q) && i < |chain| && j < |chain|
    ensures NotDearer(chain[i], chain[j], q) <==> i <= j
  {
    LeqIsAnOrder(SortKey(chain[i], q), SortKey(chain[j], q));
  }

  // ---------------------------------------------------------------------------
  // The result of a request, without the walk
  // ---------------------------------------------------------------------------

  /** The request was settled by the least candidate whose outcome is not transient, if there is one. */
  ghost predicate RightResult(s: Settings, board: Board, o: Oracle, pool: seq<Provider>, q: ChatRequest, r: RouteResult) {
    match r
    case NoHealthyProvider => forall p :: !Candidate(s, board, o, pool, p)
    case AllFailed =>
      && (exists p :: Candidate(s, board, o, pool, p))
      && forall p :: Candidate(s, board, o, pool, p) ==> o.outcome(p) == Transient
    case Answered(who) => LeastSettling(s, board, o, pool, q, who) && o.outcome(who) == Terminal
    case Raised(who) => LeastSettling(s, board, o, pool, q, who) && o.outcome(who) != Terminal
  }

  ghost predicate LeastSettling(s: Settings, board: Board, o: Oracle, pool: seq<Provider>, q: ChatRequest, who: Provider) {
    && Candidate(s, board, o, pool, who) && o.outcome(who) != Transient
    && forall p :: Candidate(s, board, o, pool, p) && o.outcome(p) != Transient ==> NotDearer(who, p, q)
  }

  /** Whether the request reached `p`. */
  ghost predicate Reached(s: Settings, board: Board, o: Oracle, pool: seq<Provider>, q: ChatRequest, r: RouteResult, p: Provider) {
    && Candidate(s, board, o, pool, p)
    && (r.Answered? || r.Raised? ==> NotDearer(p, r.who, q))
  }

  /** One poll for every provider of the pool, one outcome charged to each of those reached. */
  ghost function FinalView(s: Settings, board: Board, o: Oracle, pool: seq<Provider>, q: ChatRequest, r: RouteResult,
                           p: Provider): BreakerView {
    if !Reached(s, board, o, pool, q, r, p) then Polled(s, board, o, p)
    else if r == Answered(p) then OnSuccess(Polled(s, board, o, p))
    else if o.outcome(p) == Escaped then Polled(s, board, o, p)
    else Failed(s, board, o, p)
  }

  // ---------------------------------------------------------------------------
  // The walk along the chain
  // ---------------------------------------------------------------------------

  /** The breakers after the first `i` providers of the chain failed. */
  ghost predicate Walked(s: Settings, board: Board, o: Oracle, pool: seq<Provider>, chain: seq<Provider>, i: nat, now: Board)
    requires i <= |chain|
  {
    && (forall p :: p in pool ==> At(now, p.name) == if p in chain[..i] then Failed(s, board, o, p) else Polled(s, board, o, p))
    && forall n :: NameOutside(pool, n) ==> At(now, n) == At(board, n)
  }

  /** The breakers after the request: each provider of the pool as `FinalView` says, the others as they were. */
  ghost predicate RightBreakers(s: Settings, board: Board, o: Oracle, pool: seq<Provider>, q: ChatRequest, r: RouteResult, now: Board) {
    && (forall p :: p in pool ==> At(now, p.name) == FinalView(s, board, o, pool, q, r, p))
    && forall n :: NameOutside(pool, n) ==> At(now, n) == At(board, n)
  }

  /** The providers called: those reached, each once, in order of price. */
  ghost predicate RightCalls(s: Settings, board: Board, o: Oracle, pool: seq<Provider>, q: ChatRequest, r: RouteResult,
                             calls: seq<Provider>) {
    && UniqueNames(calls) && CheapestFirst(calls, q)
    && forall p :: p in calls <==> Reached(s, board, o, pool, q, r, p)
  }

  /** All of what a request promises. */
  ghost predicate Routed(s: Settings, board: Board, o: Oracle, pool: seq<Provider>, q: ChatRequest, r: RouteResult,
                         calls: seq<Provider>, now: Board) {
    && RightResult(s, board, o, pool, q, r)
    && RightCalls(s, board, o, pool, q, r, calls)
    && RightBreakers(s, board, o, pool, q, r, now)
  }

  lemma NamesDiffer(pool: seq<Provider>, a: Provider, b: Provider)
    requires UniqueNames(pool) && a in pool && b in pool && a != b
    ensures a.name != b.name
  {}

  /** One failure or one success for a provider that was called, unless its call escaped. */
  function Charged(s: Settings, b: BreakerView, o: Oracle, p: Provider): BreakerView {
    match o.outcome(p)
    case Terminal => OnSuccess(b)
    case Escaped => b
    case _ => OnFailure(s, b, o.failAt(p))
  }

  function Settlement(o: Oracle, p: Provider): Option<RouteResult> {
    match o.outcome(p)
    case Terminal => Some(Answered(p))
    case Transient => None
    case _ => Some(Raised(p))
  }

  /** What holds of the walk when it comes to provider `i` of the chain. */
  ghost predicate Walking(s: Settings, board: Board, o: Oracle, pool: seq<Provider>, q: ChatRequest, chain: seq<Provider>,
                          i: nat, now: Board)
  {
    && UniqueNames(pool) && ChainOf(s, board, o, pool, q, chain)
    && i <= |chain| && Walked(s, board, o, pool, chain, i, now)
    && forall j :: 0 <= j < i ==> o.outcome(chain[j]) == Transient
  }

  lemma WalkStarts(s: Settings, board: Board, o: Oracle, pool: seq<Provider>, q: ChatRequest)
    requires UniqueNames(pool)
    ensures var polled := PollPool(s, board, o, pool);
            Walking(s, board, o, pool, q, Sorted(polled.1, q), 0, polled.0)
  {
    PollPoolMeans(s, board, o, pool);
    forall n | NameOutside(pool, n)
      ensures At(PollPool(s, board, o, pool).0, n) == At(board, n)
    {
      PollPoolLeavesOthers(s, board, o, pool, n);
    }
    ChainIsChain(s, board, o, pool, q);
  }

  /** The next provider of the chain has been polled, found not open, and not touched since. */
  lemma CandidateState(s: Settings, board: Board, o: Oracle, pool: seq<Provider>, q: ChatRequest, chain: seq<Provider>,
                       i: nat, now: Board)
    requires Walking(s, board, o, pool, q, chain, i, now) && i < |chain|
    ensures chain[i] in pool && chain[i] !in chain[..i]
    ensures At(now, chain[i].name) == Polled(s, board, o, chain[i]) && At(now, chain[i].name).state != Open
  {
    assert Candidate(s, board, o, pool, chain[i]);
  }

  lemma WalkOn(s: Settings, board: Board, o: Oracle, pool: seq<Provider>, q: ChatRequest, chain: seq<Provider>, i: nat, now: Board)
    requires Walking(s, board, o, pool, q, chain, i, now) && i < |chain| && Settlement(o, chain[i]) == None
    ensures Walking(s, board, o, pool, q, chain, i + 1, now[chain[i].name := Charged(s, At(now, chain[i].name), o, chain[i])])
  {
    CandidateState(s, board, o, pool, q, chain, i, now);
    var next := now[chain[i].name := Failed(s, board, o, chain[i])];
    assert chain[..i + 1] == chain[..i] + [chain[i]];
    forall p | p in pool
      ensures At(next, p.name) == if p in chain[..i + 1] then Failed(s, board, o, p) else Polled(s, board, o, p)
    {
      if p != chain[i] {
        NamesDiffer(pool, p, chain[i]);
      }
    }
  }

  /** The walk stopped at `i`, having met only transient failures before. */
  ghost predicate StoppedAt(o: Oracle, chain: seq<Provider>, i: nat, r: RouteResult) {
    && i < |chain| && (forall j :: 0 <= j < i ==> o.outcome(chain[j]) == Transient)
    && o.outcome(chain[i]) != Transient
    && r == if o.outcome(chain[i]) == Terminal then Answered(chain[i]) else Raised(chain[i])
  }

  lemma StoppedReached(s: Settings, board: Board, o: Oracle, pool: seq<Provider>, q: ChatRequest, chain: seq<Provider>,
                       i: nat, r: RouteResult)
    requires ChainOf(s, board, o, pool, q, chain) && StoppedAt(o, chain, i, r)
    ensures forall p :: p in chain[..i + 1] <==> Reached(s, board, o, pool, q, r, p)
  {
    forall p
      ensures p in chain[..i + 1] <==> Reached(s, board, o, pool, q, r, p)
    {
      if p in chain {
        var j :| 0 <= j < |chain| && chain[j] == p;
        EarlierIsCheaper(chain, q, j, i);
        assert p in chain[..i + 1] ==> j <= i by {
          if p in chain[..i + 1] {
            var k :| 0 <= k < i + 1 && chain[k] == p;
            assert k == j;
          }
        }
      }
    }
  }

  lemma StoppedRight(s: Settings, board: Board, o: Oracle, pool: seq<Provider>, q: ChatRequest, chain: seq<Provider>,
                     i: nat, r: RouteResult)
    requires ChainOf(s, board, o, pool, q, chain) && StoppedAt(o, chain, i, r)
    ensures RightResult(s, board, o, pool, q, r)
    ensures RightCalls(s, board, o, pool, q, r, chain[..i + 1])
  {
    StoppedReached(s, board, o, pool, q, chain, i, r);
    forall p | Candidate(s, board, o, pool, p) && o.outcome(p) != Transient
      ensures NotDearer(chain[i], p, q)
    {
      var j :| 0 <= j < |chain| && chain[j] == p;
      EarlierIsCheaper(chain, q, i, j);
    }
  }

  lemma StoppedBreakers(s: Settings, board: Board, o: Oracle, pool: seq<Provider>, q: ChatRequest, chain: seq<Provider>,
                        i: nat, r: RouteResult, before: Board, last: BreakerView)
    requires UniqueNames(pool) && ChainOf(s, board, o, pool, q, chain) && StoppedAt(o, chain, i, r)
    requires Walked(s, board, o, pool, chain, i, before)
    requires last == Charged(s, Polled(s, board, o, chain[i]), o, chain[i])
    ensures RightBreakers(s, board, o, pool, q, r, before[chain[i].name := last])
  {
    StoppedReached(s, board, o, pool, q, chain, i, r);
    assert chain[..i + 1] == chain[..i] + [chain[i]];
    assert Candidate(s, board, o, pool, chain[i]);
    forall p | p in pool
      ensures At(before[chain[i].name := last], p.name) == FinalView(s, board, o, pool, q, r, p)
    {
      if p != chain[i] {
        NamesDiffer(pool, p, chain[i]);
      }
    }
  }

  lemma Stop(s: Settings, board: Board, o: Oracle, pool: seq<Provider>, q: ChatRequest, chain: seq<Provider>,
             i: nat, r: RouteResult, before: Board)
    requires Walking(s, board, o, pool, q, chain, i, before) && i < |chain| && Settlement(o, chain[i]) == Some(r)
    ensures Routed(s, board, o, pool, q, r, chain[..i + 1],
                   before[chain[i].name := Charged(s, At(before, chain[i].name), o, chain[i])])
  {
    CandidateState(s, board, o, pool, q, chain, i, before);
    StoppedRight(s, board, o, pool, q, chain, i, r);
    StoppedBreakers(s, board, o, pool, q, chain, i, r, before, Charged(s, At(before, chain[i].name), o, chain[i]));
  }

  lemma Exhausted(s: Settings, board: Board, o: Oracle, pool: seq<Provider>, q: ChatRequest, chain: seq<Provider>, now: Board)
    requires Walking(s, board, o, pool, q, chain, |chain|, now)
    ensures Routed(s, board, o, pool, q, if chain == [] then NoHealthyProvider else AllFailed, chain, now)
  {
    assert chain[..|chain|] == chain;
    if chain != [] {
      assert Candidate(s, board, o, pool, chain[0]);
    }
  }

  // ---------------------------------------------------------------------------
  // The walk as it is made
  // ---------------------------------------------------------------------------

  /** One provider of the chain: the breakers afterwards, whether it was called, how it settled the request. */
  function Tried(s: Settings, board: Board, o: Oracle, p: Provider): (Board, bool, Option<RouteResult>) {
    var polled := OnPoll(s, At(board, p.name), o.callAt(p));
    if polled.state == Open then (board[p.name := polled], false, None)
    else (board[p.name := Charged(s, polled, o, p)], true, Settlement(o, p))
  }

  /** On any chain: an open provider is not called, only polled; another is called once and charged its own outcome. */
  lemma OpenIsNotCalled(s: Settings, board: Board, o: Oracle, p: Provider)
    ensures var seen := OnPoll(s, if p.name in board then board[p.name] else NEW_BREAKER, o.callAt(p));
            var (after, called, settled) := Tried(s, board, o, p);
            && (called <==> seen.state != Open) && p.name in after && after == board[p.name := after[p.name]]
            && (settled.Some? <==> called && o.outcome(p) != Transient)
            && (!called || o.outcome(p) == Escaped ==> after[p.name] == seen)
            && (called && o.outcome(p) == Terminal ==> after[p.name] == OnSuccess(seen))
            && (called && o.outcome(p) in {NoTerminal, Transient, Permanent} ==> after[p.name] == OnFailure(s, seen, o.failAt(p)))
  {}

  /** The breakers after the walk, what settled the request if anything did, and the providers called. */
  function Walk(s: Settings, board: Board, o: Oracle, chain: seq<Provider>): (Board, Option<RouteResult>, seq<Provider>)
    decreases |chain|
  {
    if chain == [] then (board, None, [])
    else
      var tried := Tried(s, board, o, chain[0]);
      var called := if tried.1 then [chain[0]] else [];
      if tried.2.Some? then (tried.0, tried.2, called)
      else
        var rest := Walk(s, tried.0, o, chain[1..]);
        (rest.0, rest.1, called + rest.2)
  }

  function Route(s: Settings, board: Board, o: Oracle, pool: seq<Provider>, q: ChatRequest): (RouteResult, seq<Provider>, Board) {
    var polled := PollPool(s, board, o, pool);
    var walk := Walk(s, polled.0, o, Sorted(polled.1, q));
    (walk.1.GetOr(if polled.1 == [] then NoHealthyProvider else AllFailed), walk.2, walk.0)
  }

  /** A walk made after `calls`. */
  function After(calls: seq<Provider>, walk: (Board, Option<RouteResult>, seq<Provider>)): (Board, Option<RouteResult>, seq<Provider>) {
    (walk.0, walk.1, calls + walk.2)
  }

  lemma WalkUnfolds(s: Settings, board: Board, o: Oracle, chain: seq<Provider>, i: nat, calls: seq<Provider>)
    requires i < |chain|
    ensures var tried, walk := Tried(s, board, o, chain[i]), Walk(s, board, o, chain[i..]);
            var longer := if tried.1 then calls + [chain[i]] else calls;
            && (tried.2.Some? ==> After(calls, walk) == (tried.0, tried.2, longer))
            && (tried.2.None? ==> After(calls, walk) == After(longer, Walk(s, tried.0, o, chain[i + 1..])))
  {
    assert chain[i..][0] == chain[i] && chain[i..][1..] == chain[i + 1..];
    var rest := Walk(s, Tried(s, board, o, chain[i]).0, o, chain[i + 1..]).2;
    assert calls + ([chain[i]] + rest) == calls + [chain[i]] + rest && calls + ([] + rest) == calls + rest;
    assert calls + [] == calls;
  }

  /** A walk that is all of a request, with what it means that nothing settled it. */
  ghost predicate RoutedBy(s: Settings, board: Board, o: Oracle, pool: seq<Provider>, q: ChatRequest, chain: seq<Provider>,
                           walk: (Board, Option<RouteResult>, seq<Provider>)) {
    Routed(s, board, o, pool, q, walk.1.GetOr(if chain == [] then NoHealthyProvider else AllFailed), walk.2, walk.0)
  }

  lemma WalkEnds(s: Settings, board: Board, o: Oracle, pool: seq<Provider>, q: ChatRequest, chain: seq<Provider>, now: Board)
    requires Walking(s, board, o, pool, q, chain, |chain|, now)
    ensures RoutedBy(s, board, o, pool, q, chain, After(chain[..|chain|], Walk(s, now, o, chain[|chain|..])))
  {
    assert chain[..|chain|] + [] == chain;
    Exhausted(s, board, o, pool, q, chain, now);
  }

  lemma TriedCandidate(s: Settings, board: Board, o: Oracle, pool: seq<Provider>, q: ChatRequest, chain: seq<Provider>,
                       i: nat, now: Board)
    requires Walking(s, board, o, pool, q, chain, i, now) && i < |chain|
    ensures Tried(s, now, o, chain[i])
         == (now[chain[i].name := Charged(s, At(now, chain[i].name), o, chain[i])], true, Settlement(o, chain[i]))
  {
    CandidateState(s, board, o, pool, q, chain, i, now);
  }

  lemma {:induction false} WalkIsRight(s: Settings, board: Board, o: Oracle, pool: seq<Provider>, q: ChatRequest,
                                       chain: seq<Provider>, i: nat, now: Board)
    requires Walking(s, board, o, pool, q, chain, i, now)
    ensures RoutedBy(s, board, o, pool, q, chain, After(chain[..i], Walk(s, now, o, chain[i..])))
    decreases |chain| - i
  {
    if i == |chain| {
      WalkEnds(s, board, o, pool, q, chain, now);
    } else {
      var tried := Tried(s, now, o, chain[i]);
      TriedCandidate(s, board, o, pool, q, chain, i, now);
      WalkUnfolds(s, now, o, chain, i, chain[..i]);
      assert chain[..i + 1] == chain[..i] + [chain[i]];
      if tried.2.Some? {
        Stop(s, board, o, pool, q, chain, i, tried.2.value, now);
      } else {
        WalkOn(s, board, o, pool, q, chain, i, now);
        WalkIsRight(s, board, o, pool, q, chain, i + 1, tried.0);
      }
    }
  }

  lemma {:induction false} InsertNonempty(providers: seq<Provider>, q: ChatRequest)
    ensures Sorted(providers, q) == [] <==> providers == []
  {}

  /**
   With distinct provider names a request is settled by the cheapest healthy provider that does not fail
   transiently; every cheaper one is charged one failure, the settling one its outcome, and nobody else anything.
   */
  lemma RouteIsRight(s: Settings, board: Board, o: Oracle, pool: seq<Provider>, q: ChatRequest)
    requires UniqueNames(pool)
    ensures var done := Route(s, board, o, pool, q);
            Routed(s, board, o, pool, q, done.0, done.1, done.2)
  {
    var polled := PollPool(s, board, o, pool);
    var chain := Sorted(polled.1, q);
    WalkStarts(s, board, o, pool, q);
    InsertNonempty(polled.1, q);
    WalkIsRight(s, board, o, pool, q, chain, 0, polled.0);
    assert After(chain[..0], Walk(s, polled.0, o, chain[0..])) == Walk(s, polled.0, o, chain) by {
      assert chain[0..] == chain && chain[..0] + Walk(s, polled.0, o, chain).2 == Walk(s, polled.0, o, chain).2;
    }
  }

  /** Who could serve a request at all, by the registry's indexes. */
  function PoolOf(r: Reg, q: ChatRequest, taskToTier: map<TaskType, ModelTier>): seq<Provider> {
    if q.model.Some? then Bucket(r.byModel, q.model.value) else Bucket(r.byTier, ResolveTier(q, taskToTier))
  }

  /** Whether a provider could serve it, by its own configuration. */
  function Suits(q: ChatRequest, taskToTier: map<TaskType, ModelTier>): Provider -> bool {
    if q.model.Some? then ServesModel(q.model.value) else IsInTier(ResolveTier(q, taskToTier))
  }

  /** Indexes that agree with the dictionary make the pool the suitable registered providers, of distinct names. */
  lemma AgreedPoolsAreUnique(r: Reg, q: ChatRequest, taskToTier: map<TaskType, ModelTier>)
    requires Agrees(r)
    ensures PoolOf(r, q, taskToTier) == Scan(r.providers, Suits(q, taskToTier)) && UniqueNames(PoolOf(r, q, taskToTier))
  {
    ScanUnique(r.providers, Suits(q, taskToTier));
  }

  /**
   Registry and router together: after careful registry changes a request is settled among all registered
   providers that serve its model or tier, as `RouteIsRight` says.
   */
  lemma RoutesOverRegistered(changes: seq<Change>, s: Settings, board: Board, o: Oracle, q: ChatRequest,
                             taskToTier: map<TaskType, ModelTier>)
    requires Careful(EMPTY_REG, changes)
    ensures var r := Changed(EMPTY_REG, changes);
            var done := Route(s, board, o, PoolOf(r, q, taskToTier), q);
            Routed(s, board, o, Scan(r.providers, Suits(q, taskToTier)), q, done.0, done.1, done.2)
    ensures var registered := Changed(EMPTY_REG, changes).providers;
            forall p :: Candidate(s, board, o, Scan(registered, Suits(q, taskToTier)), p) <==>
                        p in registered && Suits(q, taskToTier)(p) && IsHealthy(s, board, o)(p)
  {
    var r := Changed(EMPTY_REG, changes);
    CarefulRunsAgree(EMPTY_REG, changes);
    AgreedPoolsAreUnique(r, q, taskToTier);
    RouteIsRight(s, board, o, PoolOf(r, q, taskToTier), q);
    ScanMembers(r.providers, Suits(q, taskToTier));
  }

  class Router {
    const registry: ProviderRegistry
    const settings: Settings
    const taskToTier: map<TaskType, ModelTier>
    var breakers: map<string, Breaker>

    ghost predicate Valid()
      reads this, breakers.Values
    {
      && (forall n :: n in breakers ==> breakers[n].settings == settings)
      && (forall m, n :: m in breakers && n in breakers && m != n ==> breakers[m] != breakers[n])
    }

    ghost function View(): Board
      reads this, breakers.Values
    {
      map n | n in breakers :: breakers[n].View()
    }

    constructor (registry: ProviderRegistry, settings: Settings, taskToTier: map<TaskType, ModelTier>)
      ensures Valid() && View() == map[]
      ensures this.registry == registry && this.settings == settings && this.taskToTier == taskToTier
    {
      this.registry, this.settings, this.taskToTier := registry, settings, taskToTier;
      breakers := map[];
    }

    function Pool(q: ChatRequest): (pool: seq<Provider>)
      reads this, registry
      ensures pool == PoolOf(registry.View(), q, taskToTier)
    {
      if q.model.Some? then registry.ByModel(q.model.value) else registry.ByTier(ResolveTier(q, taskToTier))
    }

    method BreakerFor(name: string) returns (b: Breaker)
      requires Valid()
      modifies this
      ensures Valid() && name in breakers && breakers[name] == b
      ensures View() == old(View())[name := At(old(View()), name)]
      ensures fresh(breakers.Values - old(breakers.Values)) && (fresh(b) || b in old(breakers.Values))
    {
      if name in breakers {
        b := breakers[name];
      } else {
        b := new Breaker(settings);
        breakers := breakers[name := b];
      }
      assert View() == old(View())[name := At(old(View()), name)];
    }

    twostate lemma OnlyOneChanged(name: string)
      requires old(Valid()) && breakers == old(breakers) && name in breakers
      requires forall n :: n in breakers && n != name ==> unchanged(breakers[n])
      ensures Valid() && View() == old(View())[name := breakers[name].View()]
    {}

    method PollBreaker(name: string, at: real) returns (state: ProviderState)
      requires Valid()
      modifies this, breakers.Values
      ensures Valid() && fresh(breakers.Values - old(breakers.Values))
      ensures View() == old(View())[name := OnPoll(settings, At(old(View()), name), at)]
      ensures state == OnPoll(settings, At(old(View()), name), at).state
    {
      var b := BreakerFor(name);
      assert View()[name] == b.View();
      label found:
      state := b.Evaluate(at);
      assert Valid() && View() == old(View())[name := b.View()] by {
        OnlyOneChanged@found(name);
        OverwriteTwice(old(View()), name, At(old(View()), name), b.View());
      }
    }

    method Succeed(name: string)
      requires Valid()
      modifies this, breakers.Values
      ensures Valid() && fresh(breakers.Values - old(breakers.Values))
      ensures View() == old(View())[name := OnSuccess(At(old(View()), name))]
    {
      var b := BreakerFor(name);
      assert View()[name] == b.View();
      label found:
      b.RecordSuccess();
      assert Valid() && View() == old(View())[name := b.View()] by {
        OnlyOneChanged@found(name);
        OverwriteTwice(old(View()), name, At(old(View()), name), b.View());
      }
    }

    method Fail(name: string, at: real)
      requires Valid()
      modifies this, breakers.Values
      ensures Valid() && fresh(breakers.Values - old(breakers.Values))
      ensures View() == old(View())[name := OnFailure(settings, At(old(View()), name), at)]
    {
      var b := BreakerFor(name);
      assert View()[name] == b.View();
      label found:
      b.RecordFailure(at);
      assert Valid() && View() == old(View())[name := b.View()] by {
        OnlyOneChanged@found(name);
        OverwriteTwice(old(View()), name, At(old(View()), name), b.View());
      }
    }

    /** The pool with the tripped providers left out; every one of them has been polled. */
    method CandidatesFor(q: ChatRequest, o: Oracle) returns (healthy: seq<Provider>)
      requires Valid()
      modifies this, breakers.Values
      ensures Valid() && fresh(breakers.Values - old(breakers.Values))
      ensures (View(), healthy) == PollPool(settings, old(View()), o, Pool(q))
    {
      var pool := Pool(q);
      healthy := [];
      assert pool[0..] == pool;
      for i := 0 to |pool|
        invariant Valid() && fresh(breakers.Values - old(breakers.Values))
        invariant PollPool(settings, View(), o, pool[i..]).0 == PollPool(settings, old(View()), o, pool).0
        invariant healthy + PollPool(settings, View(), o, pool[i..]).1 == PollPool(settings, old(View()), o, pool).1
      {
        var p := pool[i];
        assert pool[i..][0] == p && pool[i..][1..] == pool[i + 1..];
        var state := PollBreaker(p.name, o.pollAt(p));
        ghost var rest := PollPool(settings, View(), o, pool[i + 1..]).1;
        assert healthy + ([p] + rest) == (healthy + [p]) + rest && healthy + ([] + rest) == healthy + rest;
        if state != Open {
          healthy := healthy + [p];
        }
      }
      assert healthy + [] == healthy;
    }

    /** Calls one provider of the chain unless its breaker is open, and records how it went. */
    method TryProvider(p: Provider, o: Oracle) returns (called: bool, settled: Option<RouteResult>)
      requires Valid()
      modifies this, breakers.Values
      ensures Valid() && fresh(breakers.Values - old(breakers.Values))
      ensures (View(), called, settled) == Tried(settings, old(View()), o, p)
    {
      ghost var board := View();
      called, settled := false, None;
      var state := PollBreaker(p.name, o.callAt(p));
      ghost var polled := At(View(), p.name);
      if state == Open {
        return;
      }
      called := true;
      match o.outcome(p) {
        case Terminal =>
          Succeed(p.name);
          settled := Some(Answered(p));
        case Transient =>
          Fail(p.name, o.failAt(p));
        case Escaped =>
          settled := Some(Raised(p));
        case _ =>
          Fail(p.name, o.failAt(p));
          settled := Some(Raised(p));
      }
      OverwriteTwice(board, p.name, polled, At(View(), p.name));
    }

    /** Calls the candidates cheapest first until one of them settles the request. */
    method RouteAndCall(q: ChatRequest, o: Oracle) returns (r: RouteResult, calls: seq<Provider>)
      requires Valid()
      modifies this, breakers.Values
      ensures Valid() && fresh(breakers.Values - old(breakers.Values))
      ensures (r, calls, View()) == Route(settings, old(View()), o, old(Pool(q)), q)
    {
      var healthy := CandidatesFor(q, o);
      ghost var start := View();
      if healthy == [] {
        return NoHealthyProvider, [];
      }
      var chain := Sorted(healthy, q);
      calls := [];
      ghost var whole := Walk(settings, start, o, chain);
      assert chain[0..] == chain && calls + whole.2 == whole.2;
      for i := 0 to |chain|
        invariant Valid() && fresh(breakers.Values - old(breakers.Values))
        invariant After(calls, Walk(settings, View(), o, chain[i..])) == whole
      {
        var p := chain[i];
        ghost var board := View();
        WalkUnfolds(settings, board, o, chain, i, calls);
        var called, settled := TryProvider(p, o);
        if called {
          calls := calls + [p];
        }
        if settled.Some? {
          return settled.value, calls;
        }
      }
      assert calls + [] == calls;
      r := AllFailed;
    }
  }
}
